/**
 * A schedule is the solver's answer: the set of decisions (i, j, k) --
 * "team i plays team j at slot k" -- whose binary variable is 1. This module
 * states the five constraint families a schedule must satisfy and what they
 * mean for the games it contains.
 */
module Schedule {
  import opened Inputs

  /** The decision "team i plays team j at slot k". */
  datatype Triple = Triple(i: nat, j: nat, k: nat)

  /** Only decisions over the league's teams and slots exist. */
  predicate IsAssignment(S: set<Triple>, numTeams: nat, numSlots: nat) {
    forall e :: e in S ==> e.i < numTeams && e.j < numTeams && e.k < numSlots
  }

  /** The selections the constraint sums are taken over. */
  datatype Filter =
    | AtSlot(slot: nat)             // every ordered pair at one slot
    | Ordered(a: nat, b: nat)       // a as the first team, b as the second, any slot
    | EitherOrder(a: nat, b: nat)   // a and b in either order, any slot
    | Involving(team: nat)          // the team in either role, any opponent and slot
    | AnyDecision                   // every decision

  predicate Matches(f: Filter, e: Triple) {
    match f
    case AtSlot(k) => e.k == k
    case Ordered(a, b) => e.i == a && e.j == b
    case EitherOrder(a, b) => (e.i == a && e.j == b) || (e.i == b && e.j == a)
    case Involving(t) => e.i == t || e.j == t
    case AnyDecision => true
  }

  /** The chosen decisions a filter selects; its size is the constraint sum. */
  function Selected(S: set<Triple>, f: Filter): set<Triple> {
    set e | e in S && Matches(f, e)
  }

  /**
   * Constraints 2 to 4 for the ordered pair (i, j): a team never plays
   * itself; teams of different divisions never meet; otherwise the two
   * orderings together are chosen exactly once over all slots.
   */
  predicate PairConstraint(l: League, S: set<Triple>, i: nat, j: nat)
    requires i < l.NumTeams() && j < l.NumTeams()
  {
    if i == j then |Selected(S, Ordered(i, j))| == 0
    else if l.divisions[i] != l.divisions[j] then |Selected(S, Ordered(i, j))| == 0
    else |Selected(S, EitherOrder(i, j))| == 1
  }

  /** Constraint 1: each slot is used at most once. */
  predicate SlotsExclusive(l: League, S: set<Triple>) {
    forall k :: 0 <= k < l.NumSlots() ==> |Selected(S, AtSlot(k))| <= 1
  }

  /** Constraints 2 to 5 with g games per team: the pair constraints for
    * every ordered pair, and each team taking part in g games. */
  predicate QuotaConstraints(l: League, g: nat, S: set<Triple>) {
    && (forall i, j :: 0 <= i < l.NumTeams() && 0 <= j < l.NumTeams() ==> PairConstraint(l, S, i, j))
    && (forall t :: 0 <= t < l.NumTeams() ==> |Selected(S, Involving(t))| == g)
  }

  /** Constraints 1 to 5 with g games per team. */
  predicate ValidSchedule(l: League, g: nat, S: set<Triple>) {
    SlotsExclusive(l, S) && QuotaConstraints(l, g, S)
  }

  /** A set with two distinct members has at least two elements. */
  lemma TwoMembers(A: set<Triple>, x: Triple, y: Triple)
    requires x in A && y in A && x != y
    ensures |A| >= 2
  {
    var pair := {x, y};
    assert |pair| == 2;
    assert A == pair + (A - pair);
  }

  /** No chosen decision has a team in both roles (constraint 2). */
  lemma NoSelfPlay(l: League, g: nat, S: set<Triple>, e: Triple)
    requires IsAssignment(S, l.NumTeams(), l.NumSlots()) && QuotaConstraints(l, g, S)
    requires e in S
    ensures e.i != e.j
  {
    assert e in Selected(S, Ordered(e.i, e.j));
    assert PairConstraint(l, S, e.i, e.j);
  }

  /** Both teams of a chosen decision belong to one division (constraint 3). */
  lemma SameDivision(l: League, g: nat, S: set<Triple>, e: Triple)
    requires IsAssignment(S, l.NumTeams(), l.NumSlots()) && QuotaConstraints(l, g, S)
    requires e in S
    ensures l.divisions[e.i] == l.divisions[e.j]
  {
    assert e in Selected(S, Ordered(e.i, e.j));
    assert PairConstraint(l, S, e.i, e.j);
  }

  /** Two chosen decisions at the same slot are the same decision (constraint 1):
    * at most one ordered pair plays in each slot, so no team plays twice in one. */
  lemma SlotExclusive(l: League, S: set<Triple>, e1: Triple, e2: Triple)
    requires IsAssignment(S, l.NumTeams(), l.NumSlots()) && SlotsExclusive(l, S)
    requires e1 in S && e2 in S && e1.k == e2.k
    ensures e1 == e2
  {
    if e1 != e2 {
      assert e1 in Selected(S, AtSlot(e1.k)) && e2 in Selected(S, AtSlot(e1.k));
      TwoMembers(Selected(S, AtSlot(e1.k)), e1, e2);
    }
  }

  /** Two distinct teams of one division meet in exactly one chosen decision
    * (constraint 4), in one of the two orderings. */
  lemma PairMeetsOnce(l: League, g: nat, S: set<Triple>, a: nat, b: nat)
    requires IsAssignment(S, l.NumTeams(), l.NumSlots()) && QuotaConstraints(l, g, S)
    requires a < l.NumTeams() && b < l.NumTeams() && a != b
    requires l.divisions[a] == l.divisions[b]
    ensures exists e :: e in S && Matches(EitherOrder(a, b), e)
    ensures forall e1, e2 :: e1 in S && e2 in S && Matches(EitherOrder(a, b), e1) && Matches(EitherOrder(a, b), e2) ==> e1 == e2
  {
    var meets := Selected(S, EitherOrder(a, b));
    assert PairConstraint(l, S, a, b);
    assert |meets| == 1;
    var e :| e in meets;
    forall e1, e2 | e1 in S && e2 in S && Matches(EitherOrder(a, b), e1) && Matches(EitherOrder(a, b), e2)
      ensures e1 == e2
    {
      if e1 != e2 {
        assert e1 in meets && e2 in meets;
        TwoMembers(meets, e1, e2);
      }
    }
  }
}
