/**
 * The time bands teams rank their preferences against, and the lookup that
 * resolves a slot's start time (an hhmm clock value such as 1400) to the
 * band whose half-open interval [lo, hi) contains it.
 */
module TimeBands {
  import opened Wrappers

  /** The half-open clock interval [lo, hi). */
  datatype Band = Band(lo: int, hi: int)

  predicate Contains(b: Band, t: int) {
    b.lo <= t < b.hi
  }

  /** The configured bands: midnight to 8am, 8am to noon, noon to 4pm,
    * 4pm to 8pm, and 8pm onwards (closed off at 20000). */
  const TimeBandChoices: seq<Band> :=
    [Band(0, 800), Band(800, 1200), Band(1200, 1600), Band(1600, 2000), Band(2000, 20000)]

  /** Each band is well formed and starts where the previous one ends. */
  predicate Contiguous(bands: seq<Band>) {
    && (forall n :: 0 <= n < |bands| ==> bands[n].lo <= bands[n].hi)
    && (forall n :: 0 < n < |bands| ==> bands[n - 1].hi == bands[n].lo)
  }

  /**
   * The index of the first band that contains t, or None when no band does
   * (the point where taking element [0] of an empty match list fails).
   */
  function FirstContaining(bands: seq<Band>, t: int): (r: Option<nat>)
    ensures r.Some? ==> r.value < |bands| && Contains(bands[r.value], t)
    ensures r.Some? ==> forall n :: 0 <= n < r.value ==> !Contains(bands[n], t)
    ensures r.None? <==> forall n :: 0 <= n < |bands| ==> !Contains(bands[n], t)
  {
    if |bands| == 0 then None
    else if Contains(bands[0], t) then Some(0)
    else match FirstContaining(bands[1..], t)
      case None => None
      case Some(n) => Some(n + 1)
  }

  /** Contiguous bands are ordered: an earlier band ends before a later one starts. */
  lemma {:induction false} ContiguousOrdered(bands: seq<Band>, m: nat, n: nat)
    requires Contiguous(bands)
    requires m < n < |bands|
    ensures bands[m].hi <= bands[n].lo
    decreases n - m
  {
    if m + 1 < n {
      ContiguousOrdered(bands, m + 1, n);
    }
  }

  /** Contiguous bands are pairwise disjoint: no time lies in two of them. */
  lemma BandsDisjoint(bands: seq<Band>, m: nat, n: nat, t: int)
    requires Contiguous(bands)
    requires m < |bands| && n < |bands| && m != n
    ensures !(Contains(bands[m], t) && Contains(bands[n], t))
  {
    if m < n {
      ContiguousOrdered(bands, m, n);
    } else {
      ContiguousOrdered(bands, n, m);
    }
  }

  /** Over contiguous bands the lookup succeeds exactly on the covered range. */
  lemma {:induction false} ContiguousCovers(bands: seq<Band>, t: int)
    requires Contiguous(bands) && |bands| > 0
    ensures FirstContaining(bands, t).Some? <==> bands[0].lo <= t < bands[|bands| - 1].hi
  {
    if |bands| > 1 {
      var rest := bands[1..];
      assert Contiguous(rest) by {
        forall n | 0 < n < |rest| ensures rest[n - 1].hi == rest[n].lo {
          assert rest[n - 1] == bands[n] && rest[n] == bands[n + 1];
        }
      }
      ContiguousCovers(rest, t);
      ContiguousOrdered(bands, 0, |bands| - 1);
      assert rest[|rest| - 1] == bands[|bands| - 1];
    }
  }

  /** Over contiguous bands, any band containing t is the one the lookup finds. */
  lemma ContiguousUnique(bands: seq<Band>, t: int, n: nat)
    requires Contiguous(bands)
    requires n < |bands| && Contains(bands[n], t)
    ensures FirstContaining(bands, t) == Some(n)
  {
    var r := FirstContaining(bands, t);
    if r.value != n {
      BandsDisjoint(bands, r.value, n, t);
    }
  }

  lemma TimeBandChoicesContiguous()
    ensures Contiguous(TimeBandChoices)
  {
  }

  /** The band of a start time: the lookup over the configured bands. */
  function Resolve(t: int): (r: Option<nat>)
    ensures r.Some? <==> 0 <= t < 20000
    ensures r.Some? ==> r.value < |TimeBandChoices| && Contains(TimeBandChoices[r.value], t)
  {
    TimeBandChoicesContiguous();
    ContiguousCovers(TimeBandChoices, t);
    FirstContaining(TimeBandChoices, t)
  }

  /**
   * Every start time in [0, 20000) falls in exactly one band, and resolving
   * that band's own start time gives the same band back.
   */
  lemma ResolveUnique(t: int, n: nat)
    requires n < |TimeBandChoices| && Contains(TimeBandChoices[n], t)
    ensures Resolve(t) == Some(n)
    ensures Resolve(TimeBandChoices[Resolve(t).value].lo) == Resolve(t)
  {
    TimeBandChoicesContiguous();
    ContiguousUnique(TimeBandChoices, t, n);
    ContiguousUnique(TimeBandChoices, TimeBandChoices[n].lo, n);
  }
}
