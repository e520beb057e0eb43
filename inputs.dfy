/**
 * The league's input tables: the roster with each team's division, the
 * rink-time slots, and each team's ordinal ranks for rinks and for time
 * bands (1 = most preferred). Teams, rinks and slots are addressed by index.
 */
module Inputs {
  import TimeBands

  /** A rink-time row: the rink (as an index into the distinct rink names),
    * the date, the hhmm start time and the duration in minutes. */
  datatype Slot = Slot(rink: nat, date: string, startTime: int, duration: int)

  datatype League = League(
    divisions: seq<string>,      // division tag of each team
    slots: seq<Slot>,            // the rink-times
    numRinks: nat,               // number of distinct rink names
    rinkPrefs: seq<seq<int>>,    // rinkPrefs[team][rink]
    timePrefs: seq<seq<int>>)    // timePrefs[team][band]
  {
    function NumTeams(): nat { |divisions| }
    function NumSlots(): nat { |slots| }
  }

  /** The tables have one row per team and one column per rink or band,
    * and every slot names a known rink. */
  predicate WellFormed(l: League) {
    && |l.rinkPrefs| == l.NumTeams()
    && |l.timePrefs| == l.NumTeams()
    && (forall t :: 0 <= t < |l.rinkPrefs| ==> |l.rinkPrefs[t]| == l.numRinks)
    && (forall t :: 0 <= t < |l.timePrefs| ==> |l.timePrefs[t]| == |TimeBands.TimeBandChoices|)
    && (forall k :: 0 <= k < |l.slots| ==> l.slots[k].rink < l.numRinks)
  }

  /** Every rank in both tables is at least 1. */
  predicate PositiveRanks(l: League) {
    && (forall t, r :: 0 <= t < |l.rinkPrefs| && 0 <= r < |l.rinkPrefs[t]| ==> l.rinkPrefs[t][r] >= 1)
    && (forall t, b :: 0 <= t < |l.timePrefs| && 0 <= b < |l.timePrefs[t]| ==> l.timePrefs[t][b] >= 1)
  }

  /** The teams sharing team t's division, t included. */
  function DivisionOf(l: League, t: nat): set<nat>
    requires t < l.NumTeams()
  {
    set u | 0 <= u < l.NumTeams() && l.divisions[u] == l.divisions[t]
  }

  /** The six-team, two-division league with thirteen rink-times and six
    * rinks R1..R6 (indices 0..5); R3..R6 sit at 10000 so that they rank poorly. */
  const Toy: League := League(
    ["A", "A", "A", "B", "B", "B"],
    [ Slot(0, "01/01/2023", 800, 120), Slot(0, "01/02/2023", 800, 120),
      Slot(0, "01/03/2023", 800, 120), Slot(0, "01/01/2023", 1200, 120),
      Slot(0, "01/01/2023", 1400, 120), Slot(1, "01/01/2023", 1400, 120),
      Slot(1, "01/02/2023", 1400, 120), Slot(1, "01/01/2023", 1800, 120),
      Slot(1, "01/02/2023", 1800, 120), Slot(2, "01/01/2023", 10000, 0),
      Slot(3, "01/01/2023", 10000, 0), Slot(4, "01/01/2023", 10000, 0),
      Slot(5, "01/01/2023", 10000, 0) ],
    6,
    [ [1, 2, 10, 10, 10, 10], [2, 1, 10, 10, 10, 10], [2, 1, 10, 10, 10, 10],
      [1, 1, 10, 10, 10, 10], [2, 1, 10, 10, 10, 10], [2, 1, 10, 10, 10, 10] ],
    [ [1, 2, 10, 10, 10], [2, 1, 10, 10, 10], [2, 1, 10, 10, 10],
      [1, 1, 2, 10, 10], [2, 1, 3, 10, 10], [3, 2, 1, 10, 10] ])

  /** The toy tables are well formed with positive ranks, and each of its two
    * divisions holds three teams. */
  lemma ToyShape()
    ensures WellFormed(Toy) && PositiveRanks(Toy)
    ensures forall t :: 0 <= t < Toy.NumTeams() ==> |DivisionOf(Toy, t)| == 3
  {
    assert DivisionOf(Toy, 0) == {0, 1, 2};
    assert DivisionOf(Toy, 3) == {3, 4, 5};
    forall t | 0 <= t < Toy.NumTeams() ensures |DivisionOf(Toy, t)| == 3 {
      if t < 3 {
        assert DivisionOf(Toy, t) == DivisionOf(Toy, 0);
      } else {
        assert DivisionOf(Toy, t) == DivisionOf(Toy, 3);
      }
    }
  }
}
