/**
 * The objective handed to the solver: over every decision (i, j, k), its
 * value (1 when chosen) times alpha * time part + beta * rink part.
 */
module Objective {
  import opened Wrappers
  import opened Inputs
  import opened Costs
  import opened Schedule

  /** All cost coefficients can be computed. The tables are filled for every
    * (i, j, k), so with at least one team a slot outside every band stops
    * the build; with no teams nothing is looked up. */
  predicate CostsDefined(l: League) {
    l.NumTeams() == 0 || forall k :: 0 <= k < l.NumSlots() ==> 0 <= l.slots[k].startTime < 20000
  }

  /** CostsDefined says exactly that every cost coefficient can be computed. */
  lemma CostsDefinedMeaning(l: League, w: Weights)
    requires WellFormed(l)
    ensures CostsDefined(l) <==> forall i, j, k :: 0 <= i < l.NumTeams() && 0 <= j < l.NumTeams() && 0 <= k < l.NumSlots() ==>
                                   TripleCost(l, w, i, j, k).Some?
  {
    if !CostsDefined(l) {
      var k :| 0 <= k < l.NumSlots() && !(0 <= l.slots[k].startTime < 20000);
      assert TripleCost(l, w, 0, 0, k).None?;
    }
  }

  /** Decision e's share of the objective: its cost if chosen, else 0. */
  function Term(l: League, w: Weights, S: set<Triple>, e: Triple): int
    requires WellFormed(l) && CostsDefined(l)
  {
    if e in S && e.i < l.NumTeams() && e.j < l.NumTeams() && e.k < l.NumSlots()
    then TripleCost(l, w, e.i, e.j, e.k).value
    else 0
  }

  /** Every decision's share of the objective, as one function. */
  function Terms(l: League, w: Weights, S: set<Triple>): Triple -> int
    requires WellFormed(l) && CostsDefined(l)
  {
    e => Term(l, w, S, e)
  }

  /** f over (i, j, k) for k below c. */
  function SumSlots(f: Triple -> int, i: nat, j: nat, c: nat): int {
    if c == 0 then 0 else SumSlots(f, i, j, c - 1) + f(Triple(i, j, c - 1))
  }

  /** f over (i, j, k) for j below b and k below numSlots. */
  function SumSeconds(f: Triple -> int, numSlots: nat, i: nat, b: nat): int {
    if b == 0 then 0 else SumSeconds(f, numSlots, i, b - 1) + SumSlots(f, i, b - 1, numSlots)
  }

  /** f over (i, j, k) for i below a, j below numTeams and k below numSlots. */
  function SumFirsts(f: Triple -> int, numTeams: nat, numSlots: nat, a: nat): int {
    if a == 0 then 0 else SumFirsts(f, numTeams, numSlots, a - 1) + SumSeconds(f, numSlots, a - 1, numTeams)
  }

  /** The objective of assignment S; None when a cost cannot be computed. */
  function ObjectiveValue(l: League, w: Weights, S: set<Triple>): (r: Option<int>)
    requires WellFormed(l)
    ensures r.Some? <==> forall i, j, k :: 0 <= i < l.NumTeams() && 0 <= j < l.NumTeams() && 0 <= k < l.NumSlots() ==>
                           TripleCost(l, w, i, j, k).Some?
  {
    CostsDefinedMeaning(l, w);
    if CostsDefined(l) then Some(SumFirsts(Terms(l, w, S), l.NumTeams(), l.NumSlots(), l.NumTeams())) else None
  }

  // ---- Lowering ranks never raises the objective ----

  lemma TermMonotone(l2: League, l: League, w: Weights, S: set<Triple>, e: Triple)
    requires WellFormed(l) && CostsDefined(l) && Dominates(l2, l)
    requires w.alpha >= 0 && w.beta >= 0
    ensures WellFormed(l2) && CostsDefined(l2)
    ensures Term(l2, w, S, e) <= Term(l, w, S, e)
  {
    CostsDominated(l2, l);
    if e in S && e.i < l.NumTeams() && e.j < l.NumTeams() && e.k < l.NumSlots() {
      CostMonotone(l2, l, w, e.i, e.j, e.k);
    }
  }

  lemma CostsDominated(l2: League, l: League)
    requires WellFormed(l) && Dominates(l2, l)
    ensures WellFormed(l2) && CostsDefined(l2) == CostsDefined(l)
  {
  }

  lemma {:induction false} SumSlotsMonotone(f2: Triple -> int, f: Triple -> int, i: nat, j: nat, c: nat)
    requires forall e :: f2(e) <= f(e)
    ensures SumSlots(f2, i, j, c) <= SumSlots(f, i, j, c)
  {
    if c > 0 {
      SumSlotsMonotone(f2, f, i, j, c - 1);
    }
  }

  lemma {:induction false} SumSecondsMonotone(f2: Triple -> int, f: Triple -> int, numSlots: nat, i: nat, b: nat)
    requires forall e :: f2(e) <= f(e)
    ensures SumSeconds(f2, numSlots, i, b) <= SumSeconds(f, numSlots, i, b)
  {
    if b > 0 {
      SumSecondsMonotone(f2, f, numSlots, i, b - 1);
      SumSlotsMonotone(f2, f, i, b - 1, numSlots);
    }
  }

  lemma {:induction false} SumFirstsMonotone(f2: Triple -> int, f: Triple -> int, numTeams: nat, numSlots: nat, a: nat)
    requires forall e :: f2(e) <= f(e)
    ensures SumFirsts(f2, numTeams, numSlots, a) <= SumFirsts(f, numTeams, numSlots, a)
  {
    if a > 0 {
      SumFirstsMonotone(f2, f, numTeams, numSlots, a - 1);
      SumSecondsMonotone(f2, f, numSlots, a - 1, numTeams);
    }
  }

  /** For a fixed assignment, lowering any ranks never raises the objective. */
  lemma ObjectiveMonotone(l2: League, l: League, w: Weights, S: set<Triple>)
    requires WellFormed(l) && Dominates(l2, l)
    requires w.alpha >= 0 && w.beta >= 0
    ensures WellFormed(l2)
    ensures ObjectiveValue(l2, w, S).Some? == ObjectiveValue(l, w, S).Some?
    ensures ObjectiveValue(l, w, S).Some? ==> ObjectiveValue(l2, w, S).value <= ObjectiveValue(l, w, S).value
  {
    CostsDominated(l2, l);
    if CostsDefined(l) {
      forall e ensures Terms(l2, w, S)(e) <= Terms(l, w, S)(e) {
        TermMonotone(l2, l, w, S, e);
      }
      SumFirstsMonotone(Terms(l2, w, S), Terms(l, w, S), l.NumTeams(), l.NumSlots(), l.NumTeams());
    }
  }

  /** Validity reads only the roster and the number of slots, never the ranks. */
  lemma ValidityIgnoresRanks(l2: League, l: League, g: nat, S: set<Triple>)
    requires l2.divisions == l.divisions && |l2.slots| == |l.slots|
    ensures ValidSchedule(l2, g, S) == ValidSchedule(l, g, S)
  {
    forall i, j | 0 <= i < l.NumTeams() && 0 <= j < l.NumTeams()
      ensures PairConstraint(l2, S, i, j) == PairConstraint(l, S, i, j)
    {
    }
  }

  /** S is valid and no valid assignment has a smaller objective. */
  ghost predicate Optimal(l: League, w: Weights, g: nat, S: set<Triple>)
    requires WellFormed(l)
  {
    && IsAssignment(S, l.NumTeams(), l.NumSlots()) && ValidSchedule(l, g, S) && CostsDefined(l)
    && forall S' :: IsAssignment(S', l.NumTeams(), l.NumSlots()) && ValidSchedule(l, g, S') ==>
         ObjectiveValue(l, w, S).value <= ObjectiveValue(l, w, S').value
  }

  /** Lowering ranks never raises the optimal objective: the valid schedules
    * stay the same and none of them costs more. */
  lemma OptimumMonotone(l2: League, l: League, w: Weights, g: nat, S2: set<Triple>, S: set<Triple>)
    requires WellFormed(l) && Dominates(l2, l)
    requires w.alpha >= 0 && w.beta >= 0
    requires Optimal(l, w, g, S)
    requires WellFormed(l2) && Optimal(l2, w, g, S2)
    ensures ObjectiveValue(l2, w, S2).value <= ObjectiveValue(l, w, S).value
  {
    ValidityIgnoresRanks(l2, l, g, S);
    ObjectiveMonotone(l2, l, w, S);
  }

  // ---- Each chosen game adds a positive cost ----

  /** The chosen decisions (i, j, k) with k below c. */
  function ChosenSlots(S: set<Triple>, i: nat, j: nat, c: nat): set<Triple> {
    set e | e in S && e.i == i && e.j == j && e.k < c
  }

  /** The chosen decisions (i, j, k) with j below b. */
  function ChosenSeconds(S: set<Triple>, i: nat, b: nat): set<Triple> {
    set e | e in S && e.i == i && e.j < b
  }

  /** The chosen decisions (i, j, k) with i below a. */
  function ChosenFirsts(S: set<Triple>, a: nat): set<Triple> {
    set e | e in S && e.i < a
  }

  lemma Distribute(x: int, a: int, b: int)
    ensures x * (a + b) == x * a + x * b
  {
  }

  lemma {:induction false} SumSlotsAtLeast(f: Triple -> int, S: set<Triple>, i: nat, j: nat, c: nat, least: nat)
    requires forall e :: f(e) >= (if e in S then least else 0)
    ensures SumSlots(f, i, j, c) >= least * |ChosenSlots(S, i, j, c)|
  {
    if c > 0 {
      SumSlotsAtLeast(f, S, i, j, c - 1, least);
      var e, prev := Triple(i, j, c - 1), ChosenSlots(S, i, j, c - 1);
      if e in S {
        assert ChosenSlots(S, i, j, c) == prev + {e} && e !in prev;
        Distribute(least, |prev|, 1);
      } else {
        assert ChosenSlots(S, i, j, c) == prev;
      }
    }
  }

  lemma {:induction false} SumSecondsAtLeast(f: Triple -> int, S: set<Triple>, numSlots: nat, i: nat, b: nat, least: nat)
    requires forall e :: e in S ==> e.k < numSlots
    requires forall e :: f(e) >= (if e in S then least else 0)
    ensures SumSeconds(f, numSlots, i, b) >= least * |ChosenSeconds(S, i, b)|
  {
    if b > 0 {
      SumSecondsAtLeast(f, S, numSlots, i, b - 1, least);
      SumSlotsAtLeast(f, S, i, b - 1, numSlots, least);
      var lower, top := ChosenSeconds(S, i, b - 1), ChosenSlots(S, i, b - 1, numSlots);
      assert ChosenSeconds(S, i, b) == lower + top;
      assert lower * top == {};
      Distribute(least, |lower|, |top|);
    }
  }

  lemma {:induction false} SumFirstsAtLeast(f: Triple -> int, S: set<Triple>, numTeams: nat, numSlots: nat, a: nat, least: nat)
    requires IsAssignment(S, numTeams, numSlots)
    requires forall e :: f(e) >= (if e in S then least else 0)
    ensures SumFirsts(f, numTeams, numSlots, a) >= least * |ChosenFirsts(S, a)|
  {
    if a > 0 {
      SumFirstsAtLeast(f, S, numTeams, numSlots, a - 1, least);
      SumSecondsAtLeast(f, S, numSlots, a - 1, numTeams, least);
      var lower, top := ChosenFirsts(S, a - 1), ChosenSeconds(S, a - 1, numTeams);
      assert ChosenFirsts(S, a) == lower + top;
      assert lower * top == {};
      Distribute(least, |lower|, |top|);
    }
  }

  /**
   * With ranks of at least 1 and non-negative weights, every chosen game adds
   * at least 2 * (alpha + beta) to the objective, and nothing else adds to it.
   */
  lemma ObjectiveAtLeast(l: League, w: Weights, S: set<Triple>)
    requires WellFormed(l) && PositiveRanks(l) && CostsDefined(l)
    requires IsAssignment(S, l.NumTeams(), l.NumSlots())
    requires w.alpha >= 0 && w.beta >= 0
    ensures ObjectiveValue(l, w, S).value >= 2 * (w.alpha + w.beta) * |S|
  {
    var least: nat := 2 * (w.alpha + w.beta);
    forall e ensures Terms(l, w, S)(e) >= (if e in S then least else 0) {
      if e in S && e.i < l.NumTeams() && e.j < l.NumTeams() && e.k < l.NumSlots() {
        CostPositive(l, w, e.i, e.j, e.k);
      }
    }
    SumFirstsAtLeast(Terms(l, w, S), S, l.NumTeams(), l.NumSlots(), l.NumTeams(), least);
    assert ChosenFirsts(S, l.NumTeams()) == S;
  }

  // ---- The objective is the sum of the chosen decisions' costs ----

  lemma {:induction false} SumSlotsUpdate(f2: Triple -> int, f: Triple -> int, e: Triple, d: int, i: nat, j: nat, c: nat)
    requires forall x :: x != e ==> f2(x) == f(x)
    requires f2(e) == f(e) + d
    ensures SumSlots(f2, i, j, c) == SumSlots(f, i, j, c) + (if e.i == i && e.j == j && e.k < c then d else 0)
  {
    if c > 0 {
      SumSlotsUpdate(f2, f, e, d, i, j, c - 1);
    }
  }

  lemma {:induction false} SumSecondsUpdate(f2: Triple -> int, f: Triple -> int, e: Triple, d: int, numSlots: nat, i: nat, b: nat)
    requires forall x :: x != e ==> f2(x) == f(x)
    requires f2(e) == f(e) + d
    ensures SumSeconds(f2, numSlots, i, b) == SumSeconds(f, numSlots, i, b) + (if e.i == i && e.j < b && e.k < numSlots then d else 0)
  {
    if b > 0 {
      SumSecondsUpdate(f2, f, e, d, numSlots, i, b - 1);
      SumSlotsUpdate(f2, f, e, d, i, b - 1, numSlots);
    }
  }

  lemma {:induction false} SumFirstsUpdate(f2: Triple -> int, f: Triple -> int, e: Triple, d: int, numTeams: nat, numSlots: nat, a: nat)
    requires forall x :: x != e ==> f2(x) == f(x)
    requires f2(e) == f(e) + d
    ensures SumFirsts(f2, numTeams, numSlots, a) ==
            SumFirsts(f, numTeams, numSlots, a) + (if e.i < a && e.j < numTeams && e.k < numSlots then d else 0)
  {
    if a > 0 {
      SumFirstsUpdate(f2, f, e, d, numTeams, numSlots, a - 1);
      SumSecondsUpdate(f2, f, e, d, numSlots, a - 1, numTeams);
    }
  }

  lemma {:induction false} SumSlotsZero(f: Triple -> int, i: nat, j: nat, c: nat)
    requires forall x :: f(x) == 0
    ensures SumSlots(f, i, j, c) == 0
  {
    if c > 0 {
      SumSlotsZero(f, i, j, c - 1);
    }
  }

  lemma {:induction false} SumSecondsZero(f: Triple -> int, numSlots: nat, i: nat, b: nat)
    requires forall x :: f(x) == 0
    ensures SumSeconds(f, numSlots, i, b) == 0
  {
    if b > 0 {
      SumSecondsZero(f, numSlots, i, b - 1);
      SumSlotsZero(f, i, b - 1, numSlots);
    }
  }

  lemma {:induction false} SumFirstsZero(f: Triple -> int, numTeams: nat, numSlots: nat, a: nat)
    requires forall x :: f(x) == 0
    ensures SumFirsts(f, numTeams, numSlots, a) == 0
  {
    if a > 0 {
      SumFirstsZero(f, numTeams, numSlots, a - 1);
      SumSecondsZero(f, numSlots, a - 1, numTeams);
    }
  }

  /** Choosing no decision costs nothing. */
  lemma ObjectiveEmpty(l: League, w: Weights)
    requires WellFormed(l) && CostsDefined(l)
    ensures ObjectiveValue(l, w, {}).value == 0
  {
    SumFirstsZero(Terms(l, w, {}), l.NumTeams(), l.NumSlots(), l.NumTeams());
  }

  /**
   * Choosing one more decision adds exactly its cost. With ObjectiveEmpty this
   * fixes the objective of every assignment as the sum of its decisions' costs.
   */
  lemma ObjectiveAdd(l: League, w: Weights, S: set<Triple>, e: Triple)
    requires WellFormed(l) && CostsDefined(l)
    requires e.i < l.NumTeams() && e.j < l.NumTeams() && e.k < l.NumSlots() && e !in S
    ensures ObjectiveValue(l, w, S + {e}).value == ObjectiveValue(l, w, S).value + TripleCost(l, w, e.i, e.j, e.k).value
  {
    SumFirstsUpdate(Terms(l, w, S + {e}), Terms(l, w, S), e, TripleCost(l, w, e.i, e.j, e.k).value,
                    l.NumTeams(), l.NumSlots(), l.NumTeams());
  }

  /** Some decision of a non-empty S, the same one on every call. */
  ghost function Pick(S: set<Triple>): (e: Triple)
    requires S != {}
    ensures e in S
  {
    var e :| e in S; e
  }

  /** The costs of the decisions in S, added one at a time. */
  ghost function CostSum(l: League, w: Weights, S: set<Triple>): int
    requires WellFormed(l) && CostsDefined(l) && IsAssignment(S, l.NumTeams(), l.NumSlots())
    decreases |S|
  {
    if S == {} then 0
    else
      var e := Pick(S);
      CostSum(l, w, S - {e}) + TripleCost(l, w, e.i, e.j, e.k).value
  }

  /** The objective of an assignment is the sum of its chosen decisions' costs. */
  lemma {:induction false} ObjectiveIsCostSum(l: League, w: Weights, S: set<Triple>)
    requires WellFormed(l) && CostsDefined(l) && IsAssignment(S, l.NumTeams(), l.NumSlots())
    ensures ObjectiveValue(l, w, S).value == CostSum(l, w, S)
    decreases |S|
  {
    if S == {} {
      ObjectiveEmpty(l, w);
    } else {
      var e := Pick(S);
      ObjectiveIsCostSum(l, w, S - {e});
      ObjectiveAdd(l, w, S - {e}, e);
      assert S - {e} + {e} == S;
    }
  }
}
