/**
  The sector aggregator: the breadth of a sector's leaders and the composite
  0-100 score of the sector ETF.
*/
module Aggregation {
  import opened Common
  import opened Indicators

  /** A boolean as the 0/1 float that pandas stores. */
  function Flag(b: bool): real { if b then 1.0 else 0.0 }

  /** How many leaders have a snapshot. */
  function CountPresent(ms: seq<Option<Snapshot>>): nat
  {
    if ms == [] then 0 else (if ms[0].Some? then 1 else 0) + CountPresent(ms[1..])
  }

  /** How many leaders have a snapshot whose close is above its SMA20. */
  function CountAbove20(ms: seq<Option<Snapshot>>): (k: nat)
    ensures k <= CountPresent(ms)
  {
    if ms == [] then 0
    else (if ms[0].Some? && ms[0].value.above20 then 1 else 0) + CountAbove20(ms[1..])
  }

  lemma {:induction false} NoneLeftIffCountZero(ms: seq<Option<Snapshot>>)
    ensures CountPresent(ms) == 0 <==> forall i :: 0 <= i < |ms| ==> ms[i].None?
  {
    if ms != [] {
      NoneLeftIffCountZero(ms[1..]);
      assert forall i :: 1 <= i < |ms| ==> ms[i] == ms[1..][i - 1];
    }
  }

  /** `[m["above20"] for m in leader_metrics if m is not None]`. */
  function Above20Flags(ms: seq<Option<Snapshot>>): (flags: seq<real>)
    ensures |flags| == CountPresent(ms)
    ensures Sum(flags) == CountAbove20(ms) as real
  {
    if ms == [] then []
    else
      var rest := Above20Flags(ms[1..]);
      match ms[0]
      case None => rest
      case Some(m) =>
        assert ([Flag(m.above20)] + rest)[1..] == rest;
        [Flag(m.above20)] + rest
  }

  lemma QuotientAtMostOne(a: real, b: real)
    requires 0.0 <= a <= b && b > 0.0
    ensures 0.0 <= a / b <= 1.0
  {
  }

  /**
    `sector_breadth`: the fraction of leaders with a snapshot that close above
    their SMA20; undefined when no leader has a snapshot, and a leader without
    one is left out of the denominator rather than counted as failing.
  */
  function SectorBreadth(ms: seq<Option<Snapshot>>): (br: Option<real>)
    ensures br.None? <==> forall i :: 0 <= i < |ms| ==> ms[i].None?
    ensures br.Some? ==> CountPresent(ms) > 0 && br.value == CountAbove20(ms) as real / CountPresent(ms) as real
    ensures br.Some? ==> 0.0 <= br.value <= 1.0
  {
    NoneLeftIffCountZero(ms);
    var flags := Above20Flags(ms);
    if |flags| == 0 then None
    else
      QuotientAtMostOne(CountAbove20(ms) as real, CountPresent(ms) as real);
      Some(Mean(flags))
  }

  /** Leaders without a snapshot do not change the breadth. */
  lemma {:induction false} BreadthIgnoresMissingLeaders(ms: seq<Option<Snapshot>>, k: nat)
    requires k <= |ms|
    ensures SectorBreadth(ms[..k] + [None] + ms[k..]) == SectorBreadth(ms)
  {
    CountsIgnoreNone(ms, k);
  }

  lemma {:induction false} CountsIgnoreNone(ms: seq<Option<Snapshot>>, k: nat)
    requires k <= |ms|
    ensures CountPresent(ms[..k] + [None] + ms[k..]) == CountPresent(ms)
    ensures CountAbove20(ms[..k] + [None] + ms[k..]) == CountAbove20(ms)
  {
    if k == 0 {
      assert (ms[..0] + [None] + ms[0..])[1..] == ms;
    } else {
      CountsIgnoreNone(ms[1..], k - 1);
      assert (ms[..k] + [None] + ms[k..])[1..] == ms[1..][..k - 1] + [None] + ms[1..][k - 1..];
    }
  }

  function MinReal(a: real, b: real): real { if b < a then b else a }

  function MaxReal(a: real, b: real): real { if b > a then b else a }

  /** `np.clip(x, lo, hi)`. */
  function Clip(x: real, lo: real, hi: real): (r: real)
    requires lo <= hi
    ensures lo <= r <= hi
    ensures lo <= x <= hi ==> r == x
  {
    if x < lo then lo else if x > hi then hi else x
  }

  /** The volume sub-score `min(rvol20, 2.0) / 2.0`. */
  function VolumeScore(rvol: real): real
  {
    MinReal(rvol, 2.0) / 2.0
  }

  /** The trend sub-score: the mean of the three `aboveN` flags. */
  function TrendScore(m: Snapshot): real
  {
    (Flag(m.above20) + Flag(m.above50) + Flag(m.above200)) / 3.0
  }

  /** The breadth sub-score: an undefined breadth counts as 0. */
  function BreadthScore(breadth: Option<real>): real
  {
    if breadth.None? then 0.0 else breadth.value
  }

  /** The momentum sub-score `clip((max(ret5, momo_cut) + 0.05) / 0.10, 0, 1)`. */
  function MomentumScore(ret5: real, momoCut: real): real
  {
    Clip((MaxReal(ret5, momoCut) + 0.05) / 0.10, 0.0, 1.0)
  }

  /** Python's `max(ret5, momo_cut)` and `min(rvol20, 2.0)` return NaN when their first argument is NaN. */
  predicate Scorable(m: Snapshot)
  {
    m.rvol20.Some? && m.ret5.Some?
  }

  /**
    `score_sector` before its final `round(..., 1)`: undefined exactly when the
    ETF has no snapshot or its RVOL20 or 5-bar return is undefined, and never
    because leader data is missing.
  */
  function ScoreSector(m: Option<Snapshot>, breadth: Option<real>, momoCut: real): (score: Option<real>)
    ensures score.None? <==> m.None? || !Scorable(m.value)
  {
    match m
    case None => None
    case Some(s) =>
      if !Scorable(s) then None
      else Some(40.0 * VolumeScore(s.rvol20.value) + 20.0 * TrendScore(s)
                + 25.0 * BreadthScore(breadth) + 15.0 * MomentumScore(s.ret5.value, momoCut))
  }

  /** With a non-negative RVOL20 and a breadth in [0, 1] the score lies in [0, 100]. */
  lemma ScoreBounds(m: Snapshot, breadth: Option<real>, momoCut: real)
    requires Scorable(m) && m.rvol20.value >= 0.0
    requires breadth.Some? ==> 0.0 <= breadth.value <= 1.0
    ensures ScoreSector(Some(m), breadth, momoCut).Some?
    ensures 0.0 <= ScoreSector(Some(m), breadth, momoCut).value <= 100.0
  {
    assert 0.0 <= VolumeScore(m.rvol20.value) <= 1.0;
    assert 0.0 <= TrendScore(m) <= 1.0;
    assert 0.0 <= BreadthScore(breadth) <= 1.0;
  }

  /**
    With the default cut of 0 a negative 5-bar return is not penalised: the
    momentum term contributes at least 15 * 0.5 = 7.5 points, so every defined
    score is at least 7.5.
  */
  lemma MomentumFloor(m: Snapshot, breadth: Option<real>)
    requires Scorable(m) && m.rvol20.value >= 0.0
    requires breadth.Some? ==> breadth.value >= 0.0
    ensures 15.0 * MomentumScore(m.ret5.value, 0.0) >= 7.5
    ensures ScoreSector(Some(m), breadth, 0.0).value >= 7.5
  {
    assert MaxReal(m.ret5.value, 0.0) >= 0.0;
  }

  /** The score grows with the breadth of the leaders, everything else fixed. */
  lemma ScoreMonotoneInBreadth(m: Snapshot, b1: real, b2: real, momoCut: real)
    requires Scorable(m) && b1 <= b2
    ensures ScoreSector(Some(m), Some(b1), momoCut).value <= ScoreSector(Some(m), Some(b2), momoCut).value
  {
  }

  /** An undefined breadth scores as a breadth of 0 rather than making the score undefined. */
  lemma UndefinedBreadthScoresAsZero(m: Option<Snapshot>, momoCut: real)
    ensures ScoreSector(m, None, momoCut) == ScoreSector(m, Some(0.0), momoCut)
  {
  }

  /**
    The worked example: RVOL20 1.8, above all three averages, a 2% 5-bar
    return and full breadth score 36 + 20 + 25 + 10.5 = 91.5.
  */
  lemma WorkedExample(m: Snapshot)
    requires m.rvol20 == Some(1.8) && m.ret5 == Some(0.02)
    requires m.above20 && m.above50 && m.above200
    ensures ScoreSector(Some(m), Some(1.0), 0.0) == Some(91.5)
  {
    assert VolumeScore(1.8) == 0.9;
    assert MomentumScore(0.02, 0.0) == 0.7;
  }
}
