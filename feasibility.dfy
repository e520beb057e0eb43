/**
 * Counting consequences of the constraints: how many games a valid schedule
 * holds, how large every division must be, and how many slots it needs.
 */
module Feasibility {
  import opened Inputs
  import opened Schedule

  /** Ways of grouping decisions: by first team, second team, slot, or by the
    * opponent of a given team. */
  datatype Key = ByFirst | BySecond | BySlot | ByOpponent(team: nat)

  function KeyOf(key: Key, e: Triple): nat {
    match key
    case ByFirst => e.i
    case BySecond => e.j
    case BySlot => e.k
    case ByOpponent(t) => if e.i == t then e.j else e.i
  }

  /** The members of A whose key is v. */
  function KeyClass(A: set<Triple>, key: Key, v: nat): set<Triple> {
    set e | e in A && KeyOf(key, e) == v
  }

  /** The sizes of the classes for keys 0 .. n-1, added. */
  function ClassSum(A: set<Triple>, key: Key, n: nat): nat {
    if n == 0 then 0 else ClassSum(A, key, n - 1) + |KeyClass(A, key, n - 1)|
  }

  /** The classes for keys below n partition the members with a key below n. */
  lemma {:induction false} PartitionSum(A: set<Triple>, key: Key, n: nat)
    ensures ClassSum(A, key, n) == |set e | e in A && KeyOf(key, e) < n|
  {
    if n > 0 {
      PartitionSum(A, key, n - 1);
      var lower := set e | e in A && KeyOf(key, e) < n - 1;
      var top := KeyClass(A, key, n - 1);
      assert (set e | e in A && KeyOf(key, e) < n) == lower + top;
      assert lower * top == {};
    }
  }

  /** Classes of at most one member each add up to at most their number. */
  lemma {:induction false} ClassSumAtMostOne(A: set<Triple>, key: Key, n: nat)
    requires forall v :: 0 <= v < n ==> |KeyClass(A, key, v)| <= 1
    ensures ClassSum(A, key, n) <= n
  {
    if n > 0 {
      ClassSumAtMostOne(A, key, n - 1);
    }
  }

  /** The games of teams 0 .. n-1, each counted once per team taking part. */
  function TeamGamesSum(S: set<Triple>, n: nat): nat {
    if n == 0 then 0 else TeamGamesSum(S, n - 1) + |Selected(S, Involving(n - 1))|
  }

  /** Without self-play, a team's games are its games as first team plus
    * its games as second team. */
  lemma {:induction false} TeamGamesSplit(S: set<Triple>, n: nat)
    requires forall e :: e in S ==> e.i != e.j
    ensures TeamGamesSum(S, n) == ClassSum(S, ByFirst, n) + ClassSum(S, BySecond, n)
  {
    if n > 0 {
      TeamGamesSplit(S, n - 1);
      var t := n - 1;
      assert Selected(S, Involving(t)) == KeyClass(S, ByFirst, t) + KeyClass(S, BySecond, t);
      assert KeyClass(S, ByFirst, t) * KeyClass(S, BySecond, t) == {};
    }
  }

  lemma {:induction false} TeamGamesConstant(S: set<Triple>, n: nat, g: nat)
    requires forall t :: 0 <= t < n ==> |Selected(S, Involving(t))| == g
    ensures TeamGamesSum(S, n) == n * g
  {
    if n > 0 {
      TeamGamesConstant(S, n - 1, g);
    }
  }

  /** Every key of a decision over n teams lies below n. */
  lemma AllKeysBelow(S: set<Triple>, key: Key, n: nat, m: nat)
    requires IsAssignment(S, n, m) && !key.BySlot?
    ensures (set e | e in S && KeyOf(key, e) < n) == S
  {
  }

  /** Constraints 2 to 5 fix the number of games at numTeams * g / 2: each
    * game serves two teams. */
  lemma TotalGames(l: League, g: nat, S: set<Triple>)
    requires IsAssignment(S, l.NumTeams(), l.NumSlots()) && QuotaConstraints(l, g, S)
    ensures 2 * |S| == l.NumTeams() * g
    ensures |S| == l.NumTeams() * g / 2
  {
    var n := l.NumTeams();
    forall e | e in S ensures e.i != e.j {
      NoSelfPlay(l, g, S, e);
    }
    TeamGamesSplit(S, n);
    TeamGamesConstant(S, n, g);
    PartitionSum(S, ByFirst, n);
    PartitionSum(S, BySecond, n);
    AllKeysBelow(S, ByFirst, n, l.NumSlots());
    AllKeysBelow(S, BySecond, n, l.NumSlots());
  }

  /** The teams below n, other than t, that share t's division. */
  function Mates(l: League, t: nat, n: nat): set<nat>
    requires t < l.NumTeams() && n <= l.NumTeams()
  {
    set u | 0 <= u < n && u != t && l.divisions[u] == l.divisions[t]
  }

  /** Grouped by opponent, team t's games number one per division mate below n. */
  lemma {:induction false} OpponentClasses(l: League, g: nat, S: set<Triple>, t: nat, n: nat)
    requires IsAssignment(S, l.NumTeams(), l.NumSlots()) && QuotaConstraints(l, g, S)
    requires t < l.NumTeams() && n <= l.NumTeams()
    ensures ClassSum(Selected(S, Involving(t)), ByOpponent(t), n) == |Mates(l, t, n)|
  {
    if n > 0 {
      OpponentClasses(l, g, S, t, n - 1);
      var v := n - 1;
      var games := Selected(S, Involving(t));
      var cls := KeyClass(games, ByOpponent(t), v);
      assert PairConstraint(l, S, t, v);
      if v == t {
        assert cls == Selected(S, Ordered(t, t));
        assert Mates(l, t, n) == Mates(l, t, n - 1);
      } else {
        assert cls == Selected(S, EitherOrder(t, v));
        if l.divisions[v] == l.divisions[t] {
          assert Mates(l, t, n) == Mates(l, t, n - 1) + {v};
        } else {
          assert PairConstraint(l, S, v, t);
          assert cls == Selected(S, Ordered(t, v)) + Selected(S, Ordered(v, t));
          assert Mates(l, t, n) == Mates(l, t, n - 1);
        }
      }
    }
  }

  /**
   * Constraints 2 to 5 can hold together only when every division has
   * exactly g + 1 teams: a team meets each division mate once and nobody
   * else. Constraint 1 plays no part, so adding slots never lifts this.
   */
  lemma DivisionSize(l: League, g: nat, S: set<Triple>, t: nat)
    requires IsAssignment(S, l.NumTeams(), l.NumSlots()) && QuotaConstraints(l, g, S)
    requires t < l.NumTeams()
    ensures |DivisionOf(l, t)| == g + 1
  {
    var n := l.NumTeams();
    var games := Selected(S, Involving(t));
    OpponentClasses(l, g, S, t, n);
    PartitionSum(games, ByOpponent(t), n);
    assert (set e | e in games && KeyOf(ByOpponent(t), e) < n) == games;
    assert DivisionOf(l, t) == Mates(l, t, n) + {t};
  }

  /** Each slot holds at most one game, so a valid schedule needs
    * numTeams * g / 2 slots at least. */
  lemma EnoughSlots(l: League, g: nat, S: set<Triple>)
    requires IsAssignment(S, l.NumTeams(), l.NumSlots()) && ValidSchedule(l, g, S)
    ensures |S| <= l.NumSlots()
    ensures l.NumTeams() * g <= 2 * l.NumSlots()
  {
    var m := l.NumSlots();
    forall k | 0 <= k < m ensures |KeyClass(S, BySlot, k)| <= 1 {
      assert KeyClass(S, BySlot, k) == Selected(S, AtSlot(k));
    }
    ClassSumAtMostOne(S, BySlot, m);
    PartitionSum(S, BySlot, m);
    assert (set e | e in S && KeyOf(BySlot, e) < m) == S;
    TotalGames(l, g, S);
  }

  /** In the toy league constraints 2 to 5 hold only for two games per team,
    * and then with six games; three games per team is infeasible. */
  lemma ToySchedules(g: nat, S: set<Triple>)
    requires IsAssignment(S, Toy.NumTeams(), Toy.NumSlots()) && QuotaConstraints(Toy, g, S)
    ensures g == 2 && |S| == 6
  {
    ToyShape();
    DivisionSize(Toy, g, S, 0);
    TotalGames(Toy, g, S);
  }
}
