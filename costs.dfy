/**
 * The per-game cost: for teams a and b meeting at slot k, the sum of their
 * two ranks for the slot's time band and the sum of their two ranks for the
 * slot's rink, weighted by alpha and beta. Smaller is better.
 */
module Costs {
  import opened Wrappers
  import TimeBands
  import opened Inputs

  /** The weights of the time part and of the rink part of a cost. */
  datatype Weights = Weights(alpha: int, beta: int)

  /** The weights the scheduler uses: alpha = 1, beta = 1. */
  const ScriptWeights: Weights := Weights(1, 1)

  /** The band of slot k, when its start time has one. */
  function SlotBand(l: League, k: nat): (r: Option<nat>)
    requires k < l.NumSlots()
    ensures r.Some? <==> 0 <= l.slots[k].startTime < 20000
    ensures r.Some? ==> r.value < |TimeBands.TimeBandChoices|
    ensures r.Some? ==> TimeBands.Contains(TimeBands.TimeBandChoices[r.value], l.slots[k].startTime)
  {
    TimeBands.Resolve(l.slots[k].startTime)
  }

  /** The two teams' ranks for slot k's time band, added; None when the
    * slot's start time lies in no band and the lookup fails. */
  function DifferenceTime(l: League, a: nat, b: nat, k: nat): (r: Option<int>)
    requires WellFormed(l) && a < l.NumTeams() && b < l.NumTeams() && k < l.NumSlots()
    ensures r.Some? <==> 0 <= l.slots[k].startTime < 20000
    ensures PositiveRanks(l) && r.Some? ==> r.value >= 2
  {
    match SlotBand(l, k)
    case None => None
    case Some(band) => Some(l.timePrefs[a][band] + l.timePrefs[b][band])
  }

  /** The two teams' ranks for slot k's rink, added. */
  function DifferenceRink(l: League, a: nat, b: nat, k: nat): (r: int)
    requires WellFormed(l) && a < l.NumTeams() && b < l.NumTeams() && k < l.NumSlots()
    ensures PositiveRanks(l) ==> r >= 2
  {
    l.rinkPrefs[a][l.slots[k].rink] + l.rinkPrefs[b][l.slots[k].rink]
  }

  /** The objective's coefficient of the decision (a, b, k). */
  function TripleCost(l: League, w: Weights, a: nat, b: nat, k: nat): (r: Option<int>)
    requires WellFormed(l) && a < l.NumTeams() && b < l.NumTeams() && k < l.NumSlots()
    ensures r.Some? <==> 0 <= l.slots[k].startTime < 20000
  {
    match DifferenceTime(l, a, b, k)
    case None => None
    case Some(time) => Some(w.alpha * time + w.beta * DifferenceRink(l, a, b, k))
  }

  /** Swapping which team is named first changes no part of the cost. */
  lemma CostSymmetric(l: League, w: Weights, a: nat, b: nat, k: nat)
    requires WellFormed(l) && a < l.NumTeams() && b < l.NumTeams() && k < l.NumSlots()
    ensures DifferenceTime(l, a, b, k) == DifferenceTime(l, b, a, k)
    ensures DifferenceRink(l, a, b, k) == DifferenceRink(l, b, a, k)
    ensures TripleCost(l, w, a, b, k) == TripleCost(l, w, b, a, k)
  {
  }

  /**
   * With ranks of at least 1 and non-negative weights, a defined cost is at
   * least 2 * (alpha + beta); with the script's weights, at least 4.
   */
  lemma CostPositive(l: League, w: Weights, a: nat, b: nat, k: nat)
    requires WellFormed(l) && PositiveRanks(l)
    requires a < l.NumTeams() && b < l.NumTeams() && k < l.NumSlots()
    requires w.alpha >= 0 && w.beta >= 0
    requires 0 <= l.slots[k].startTime < 20000
    ensures TripleCost(l, w, a, b, k).value >= 2 * (w.alpha + w.beta)
    ensures w == ScriptWeights ==> TripleCost(l, w, a, b, k).value >= 4
  {
  }

  /** l2 is l with some ranks lowered (made more preferred) and nothing else changed. */
  predicate Dominates(l2: League, l: League) {
    && l2.divisions == l.divisions && l2.slots == l.slots && l2.numRinks == l.numRinks
    && |l2.rinkPrefs| == |l.rinkPrefs| && |l2.timePrefs| == |l.timePrefs|
    && (forall t :: 0 <= t < |l.rinkPrefs| ==> |l2.rinkPrefs[t]| == |l.rinkPrefs[t]|)
    && (forall t :: 0 <= t < |l.timePrefs| ==> |l2.timePrefs[t]| == |l.timePrefs[t]|)
    && (forall t, r :: 0 <= t < |l.rinkPrefs| && 0 <= r < |l.rinkPrefs[t]| ==> l2.rinkPrefs[t][r] <= l.rinkPrefs[t][r])
    && (forall t, b :: 0 <= t < |l.timePrefs| && 0 <= b < |l.timePrefs[t]| ==> l2.timePrefs[t][b] <= l.timePrefs[t][b])
  }

  /** Lowering ranks never raises the cost of any (a, b, k), and never changes
    * whether it is defined. */
  lemma CostMonotone(l2: League, l: League, w: Weights, a: nat, b: nat, k: nat)
    requires WellFormed(l) && Dominates(l2, l)
    requires a < l.NumTeams() && b < l.NumTeams() && k < l.NumSlots()
    requires w.alpha >= 0 && w.beta >= 0
    ensures WellFormed(l2)
    ensures TripleCost(l2, w, a, b, k).Some? == TripleCost(l, w, a, b, k).Some?
    ensures TripleCost(l, w, a, b, k).Some? ==> TripleCost(l2, w, a, b, k).value <= TripleCost(l, w, a, b, k).value
  {
  }

  /** l with team t's rank for rink r set to v. */
  function WithRinkRank(l: League, t: nat, r: nat, v: int): League
    requires WellFormed(l) && t < l.NumTeams() && r < l.numRinks
  {
    l.(rinkPrefs := l.rinkPrefs[t := l.rinkPrefs[t][r := v]])
  }

  /** l with team t's rank for band b set to v. */
  function WithTimeRank(l: League, t: nat, b: nat, v: int): League
    requires WellFormed(l) && t < l.NumTeams() && b < |TimeBands.TimeBandChoices|
  {
    l.(timePrefs := l.timePrefs[t := l.timePrefs[t][b := v]])
  }

  /** Making one team prefer one rink more never raises any cost. */
  lemma LowerRinkRank(l: League, w: Weights, t: nat, r: nat, v: int, a: nat, b: nat, k: nat)
    requires WellFormed(l) && t < l.NumTeams() && r < l.numRinks && v <= l.rinkPrefs[t][r]
    requires a < l.NumTeams() && b < l.NumTeams() && k < l.NumSlots()
    requires w.alpha >= 0 && w.beta >= 0
    requires 0 <= l.slots[k].startTime < 20000
    ensures TripleCost(WithRinkRank(l, t, r, v), w, a, b, k).value <= TripleCost(l, w, a, b, k).value
  {
    CostMonotone(WithRinkRank(l, t, r, v), l, w, a, b, k);
  }

  /** Making one team prefer one time band more never raises any cost. */
  lemma LowerTimeRank(l: League, w: Weights, t: nat, band: nat, v: int, a: nat, b: nat, k: nat)
    requires WellFormed(l) && t < l.NumTeams() && band < |TimeBands.TimeBandChoices|
    requires v <= l.timePrefs[t][band]
    requires a < l.NumTeams() && b < l.NumTeams() && k < l.NumSlots()
    requires w.alpha >= 0 && w.beta >= 0
    requires 0 <= l.slots[k].startTime < 20000
    ensures TripleCost(WithTimeRank(l, t, band, v), w, a, b, k).value <= TripleCost(l, w, a, b, k).value
  {
    CostMonotone(WithTimeRank(l, t, band, v), l, w, a, b, k);
  }
}
