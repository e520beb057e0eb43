/**
 * The imperative side: nested loops over every decision that recompute each
 * constraint sum of a returned assignment, and the loop that counts the
 * decisions valued 1.
 */
module Checker {
  import opened Inputs
  import opened Schedule
  import Feasibility

  /** Decision e comes before (a, b, c) in the order i, then j, then k. */
  predicate Before(e: Triple, a: nat, b: nat, c: nat) {
    e.i < a || (e.i == a && (e.j < b || (e.j == b && e.k < c)))
  }

  /** The selected decisions valued 1 that come before (a, b, c). */
  ghost function Prefix(S: set<Triple>, f: Filter, a: nat, b: nat, c: nat): set<Triple> {
    set e | e in S && Matches(f, e) && Before(e, a, b, c)
  }

  lemma PrefixStep(S: set<Triple>, f: Filter, a: nat, b: nat, c: nat)
    ensures Triple(a, b, c) !in Prefix(S, f, a, b, c)
    ensures Prefix(S, f, a, b, c + 1) ==
      if Triple(a, b, c) in S && Matches(f, Triple(a, b, c))
      then Prefix(S, f, a, b, c) + {Triple(a, b, c)} else Prefix(S, f, a, b, c)
  {
  }

  lemma PrefixNextPair(S: set<Triple>, numTeams: nat, numSlots: nat, f: Filter, a: nat, b: nat)
    requires IsAssignment(S, numTeams, numSlots)
    ensures Prefix(S, f, a, b, numSlots) == Prefix(S, f, a, b + 1, 0)
  {
  }

  lemma PrefixNextTeam(S: set<Triple>, numTeams: nat, numSlots: nat, f: Filter, a: nat)
    requires IsAssignment(S, numTeams, numSlots)
    ensures Prefix(S, f, a, numTeams, 0) == Prefix(S, f, a + 1, 0, 0)
  {
  }

  lemma PrefixEnds(S: set<Triple>, numTeams: nat, numSlots: nat, f: Filter)
    requires IsAssignment(S, numTeams, numSlots)
    ensures Prefix(S, f, 0, 0, 0) == {}
    ensures Prefix(S, f, numTeams, 0, 0) == Selected(S, f)
  {
  }

  /** The sum, over all decisions, of those valued 1 that the filter selects. */
  method CountWhere(S: set<Triple>, numTeams: nat, numSlots: nat, f: Filter) returns (count: nat)
    requires IsAssignment(S, numTeams, numSlots)
    ensures count == |Selected(S, f)|
  {
    PrefixEnds(S, numTeams, numSlots, f);
    count := 0;
    var a := 0;
    while a < numTeams
      invariant a <= numTeams
      invariant count == |Prefix(S, f, a, 0, 0)|
    {
      var b := 0;
      while b < numTeams
        invariant b <= numTeams
        invariant count == |Prefix(S, f, a, b, 0)|
      {
        var c := 0;
        while c < numSlots
          invariant c <= numSlots
          invariant count == |Prefix(S, f, a, b, c)|
        {
          PrefixStep(S, f, a, b, c);
          if Triple(a, b, c) in S && Matches(f, Triple(a, b, c)) {
            count := count + 1;
          }
          c := c + 1;
        }
        PrefixNextPair(S, numTeams, numSlots, f, a, b);
        b := b + 1;
      }
      PrefixNextTeam(S, numTeams, numSlots, f, a);
      a := a + 1;
    }
  }

  /**
   * Recomputes constraints 1 to 5 over the assignment in the order the model
   * states them, and reports whether all hold.
   */
  method CheckSchedule(l: League, g: nat, S: set<Triple>) returns (ok: bool)
    requires IsAssignment(S, l.NumTeams(), l.NumSlots())
    ensures ok <==> ValidSchedule(l, g, S)
  {
    var n, m := l.NumTeams(), l.NumSlots();
    ok := true;
    // Constraint 1: each rink-time used at most once.
    var k := 0;
    while k < m
      invariant k <= m
      invariant ok <==> forall k' :: 0 <= k' < k ==> |Selected(S, AtSlot(k'))| <= 1
    {
      var used := CountWhere(S, n, m, AtSlot(k));
      ok := ok && used <= 1;
      k := k + 1;
    }
    ghost var slotsOk := ok;
    // Constraints 2 to 4, one per ordered pair of teams.
    var i := 0;
    while i < n
      invariant i <= n
      invariant ok <==> slotsOk && forall i', j' :: 0 <= i' < i && 0 <= j' < n ==> PairConstraint(l, S, i', j')
    {
      var j := 0;
      while j < n
        invariant j <= n
        invariant ok <==> (slotsOk
          && (forall i', j' :: 0 <= i' < i && 0 <= j' < n ==> PairConstraint(l, S, i', j'))
          && (forall j' :: 0 <= j' < j ==> PairConstraint(l, S, i, j')))
      {
        var holds;
        if i == j {
          var sum := CountWhere(S, n, m, Ordered(i, j));
          holds := sum == 0;
        } else if l.divisions[i] != l.divisions[j] {
          var sum := CountWhere(S, n, m, Ordered(i, j));
          holds := sum == 0;
        } else {
          var sum := CountWhere(S, n, m, EitherOrder(i, j));
          holds := sum == 1;
        }
        assert holds <==> PairConstraint(l, S, i, j);
        ok := ok && holds;
        j := j + 1;
      }
      i := i + 1;
    }
    ghost var pairsOk := ok;
    // Constraint 5: each team plays g games.
    var t := 0;
    while t < n
      invariant t <= n
      invariant ok <==> pairsOk && forall t' :: 0 <= t' < t ==> |Selected(S, Involving(t'))| == g
    {
      var played := CountWhere(S, n, m, Involving(t));
      ok := ok && played == g;
      t := t + 1;
    }
  }

  /**
   * The extraction loop: counts the decisions valued 1. For a valid schedule
   * that count is numTeams * g / 2.
   */
  method CountGames(l: League, g: nat, S: set<Triple>) returns (numGames: nat)
    requires IsAssignment(S, l.NumTeams(), l.NumSlots())
    ensures numGames == |S|
    ensures QuotaConstraints(l, g, S) ==> 2 * numGames == l.NumTeams() * g
  {
    numGames := CountWhere(S, l.NumTeams(), l.NumSlots(), AnyDecision);
    assert Selected(S, AnyDecision) == S;
    if QuotaConstraints(l, g, S) {
      Feasibility.TotalGames(l, g, S);
    }
  }
}
