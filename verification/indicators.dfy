/**
  The indicator engine: from one symbol's daily OHLCV rows to the derived
  frame (true range, ATR20, ATR%, SMAs, RVOL20, 5-bar return) and the metrics
  snapshot read from its latest row.  pandas' NaN is `None`; a rolling mean
  over `n` rows is defined only once `n` rows exist; a division by zero, which
  pandas turns into an infinity or NaN, is undefined as well.
*/
module Indicators {
  import opened Common

  /** One row of a downloaded frame; any column may hold NaN. */
  datatype RawRow = RawRow(
    open: Option<real>, high: Option<real>, low: Option<real>,
    close: Option<real>, adjClose: Option<real>, volume: Option<real>)

  predicate Complete(r: RawRow)
  {
    r.open.Some? && r.high.Some? && r.low.Some? && r.close.Some? && r.adjClose.Some? && r.volume.Some?
  }

  /** `frame.dropna()`: the rows without any NaN, in their original order. */
  function DropNa(rows: seq<RawRow>): (kept: seq<RawRow>)
    ensures forall i :: 0 <= i < |kept| ==> Complete(kept[i])
    ensures forall r :: r in kept <==> r in rows && Complete(r)
    ensures IsSubsequence(kept, rows)
  {
    if rows == [] then []
    else if Complete(rows[0]) then [rows[0]] + DropNa(rows[1..])
    else DropNa(rows[1..])
  }

  /** Cleaning twice is cleaning once (fetch_data.py cleans a frame that its caller already cleaned). */
  lemma {:induction false} DropNaIdempotent(rows: seq<RawRow>)
    ensures DropNa(DropNa(rows)) == DropNa(rows)
  {
    if rows != [] {
      DropNaIdempotent(rows[1..]);
      if Complete(rows[0]) {
        assert DropNa(rows) == [rows[0]] + DropNa(rows[1..]);
        assert ([rows[0]] + DropNa(rows[1..]))[1..] == DropNa(rows[1..]);
      }
    }
  }

  /** A cleaned row. */
  datatype Bar = Bar(open: real, high: real, low: real, close: real, adjClose: real, volume: real)

  function ToBar(r: RawRow): Bar
    requires Complete(r)
  {
    Bar(r.open.value, r.high.value, r.low.value, r.close.value, r.adjClose.value, r.volume.value)
  }

  function ToBars(rows: seq<RawRow>): (bars: seq<Bar>)
    requires forall i :: 0 <= i < |rows| ==> Complete(rows[i])
    ensures |bars| == |rows|
    ensures forall i :: 0 <= i < |rows| ==> bars[i] == ToBar(rows[i])
  {
    seq(|rows|, i requires 0 <= i < |rows| => ToBar(rows[i]))
  }

  function Abs(x: real): real { if x < 0.0 then -x else x }

  function Max(a: real, b: real): real { if a >= b then a else b }

  /** `true_range`: the largest of the three ranges of one day. */
  function TrueRange(high: real, low: real, prevClose: real): (tr: real)
    ensures tr >= high - low && tr >= Abs(high - prevClose) && tr >= Abs(low - prevClose)
    ensures tr == high - low || tr == Abs(high - prevClose) || tr == Abs(low - prevClose)
  {
    Max(Max(high - low, Abs(high - prevClose)), Abs(low - prevClose))
  }

  /** `Close.shift(1).fillna(Close)`: the previous close, the day's own close on the first day. */
  function PrevClose(bars: seq<Bar>, i: nat): real
    requires i < |bars|
  {
    if i == 0 then bars[0].close else bars[i - 1].close
  }

  function Closes(bars: seq<Bar>): (c: seq<real>)
    ensures |c| == |bars|
    ensures forall i :: 0 <= i < |bars| ==> c[i] == bars[i].close
  {
    seq(|bars|, i requires 0 <= i < |bars| => bars[i].close)
  }

  function Volumes(bars: seq<Bar>): (v: seq<real>)
    ensures |v| == |bars|
    ensures forall i :: 0 <= i < |bars| ==> v[i] == bars[i].volume
  {
    seq(|bars|, i requires 0 <= i < |bars| => bars[i].volume)
  }

  /** The TR column. */
  function TrueRanges(bars: seq<Bar>): (trs: seq<real>)
    ensures |trs| == |bars|
    ensures forall i :: 0 <= i < |bars| ==> trs[i] == TrueRange(bars[i].high, bars[i].low, PrevClose(bars, i))
  {
    seq(|bars|, i requires 0 <= i < |bars| => TrueRange(bars[i].high, bars[i].low, PrevClose(bars, i)))
  }

  /** `xs.rolling(n).mean()` at row `i`: the mean of rows i-n+1..i, once that many rows exist. */
  function RollingMean(xs: seq<real>, i: nat, n: nat): Option<real>
    requires 1 <= n && i < |xs|
  {
    if i + 1 >= n then Some(Mean(xs[i + 1 - n..i + 1])) else None
  }

  /** Division; a zero divisor gives pandas an infinity or NaN, here undefined. */
  function Div(a: real, b: real): Option<real>
  {
    if b == 0.0 then None else Some(a / b)
  }

  /** `xs.pct_change(k)` at row `i`. */
  function PctChange(xs: seq<real>, i: nat, k: nat): Option<real>
    requires i < |xs|
  {
    if i < k then None
    else match Div(xs[i], xs[i - k])
      case None => None
      case Some(q) => Some(q - 1.0)
  }

  /** One row of the derived frame `d`; `sma` maps a window length to its SMA column. */
  datatype Derived = Derived(
    bar: Bar, tr: real, atr20: Option<real>, atrPct: Option<real>,
    sma: map<nat, Option<real>>, rvol20: Option<real>, ret5: Option<real>)

  /** The SMA windows a variant computes; the snapshot reads 20, 50 and 200. */
  predicate ValidWindows(windows: set<nat>)
  {
    20 in windows && 50 in windows && 200 in windows && 0 !in windows
  }

  /** ATRpct at row `i`: (ATR20 / Close) * 100. */
  function AtrPctAt(bars: seq<Bar>, i: nat): Option<real>
    requires i < |bars|
  {
    AtrPct(RollingMean(TrueRanges(bars), i, 20), bars[i].close)
  }

  function AtrPct(atr20: Option<real>, close: real): Option<real>
  {
    match atr20
    case None => None
    case Some(a) => (match Div(a, close) case None => None case Some(q) => Some(q * 100.0))
  }

  /** RVOL20 at row `i`: Volume / Volume.rolling(20).mean(). */
  function Rvol20At(bars: seq<Bar>, i: nat): Option<real>
    requires i < |bars|
  {
    Rvol(bars[i].volume, RollingMean(Volumes(bars), i, 20))
  }

  function Rvol(volume: real, avg: Option<real>): Option<real>
  {
    match avg
    case None => None
    case Some(a) => Div(volume, a)
  }

  function SmasAt(bars: seq<Bar>, i: nat, windows: set<nat>): map<nat, Option<real>>
    requires i < |bars| && ValidWindows(windows)
  {
    map n | n in windows :: RollingMean(Closes(bars), i, n)
  }

  function DeriveAt(bars: seq<Bar>, i: nat, windows: set<nat>): Derived
    requires i < |bars| && ValidWindows(windows)
  {
    Derived(bars[i], TrueRanges(bars)[i], RollingMean(TrueRanges(bars), i, 20), AtrPctAt(bars, i),
            SmasAt(bars, i, windows), Rvol20At(bars, i), PctChange(Closes(bars), i, 5))
  }

  /** The derived frame: every column computed for every row. */
  function Derive(bars: seq<Bar>, windows: set<nat>): (frame: seq<Derived>)
    requires ValidWindows(windows)
    ensures |frame| == |bars|
    ensures forall i :: 0 <= i < |bars| ==> frame[i] == DeriveAt(bars, i, windows)
  {
    seq(|bars|, i requires 0 <= i < |bars| => DeriveAt(bars, i, windows))
  }

  /** The metrics dict of compute_metrics_for_ticker; `aboveN` is a boolean here. */
  datatype Snapshot = Snapshot(
    close: real, volume: real, rvol20: Option<real>, atrPct: Option<real>,
    sma20: Option<real>, sma50: Option<real>, sma200: Option<real>, ret5: Option<real>,
    above20: bool, above50: bool, above200: bool)

  /** `float(close > sma)`: false when the SMA is NaN. */
  predicate Above(close: real, sma: Option<real>)
  {
    sma.Some? && close > sma.value
  }

  /** The snapshot read from one derived row. */
  function ReadRow(row: Derived): Snapshot
    requires 20 in row.sma && 50 in row.sma && 200 in row.sma
  {
    Snapshot(row.bar.close, row.bar.volume, row.rvol20, row.atrPct,
             row.sma[20], row.sma[50], row.sma[200], row.ret5,
             Above(row.bar.close, row.sma[20]), Above(row.bar.close, row.sma[50]),
             Above(row.bar.close, row.sma[200]))
  }

  /** Mean of the last `n` elements, once there are `n`. */
  function Trailing(xs: seq<real>, n: nat): Option<real>
    requires n >= 1
  {
    if |xs| >= n then Some(Mean(xs[|xs| - n..])) else None
  }

  lemma TrailingAtLast(xs: seq<real>, n: nat)
    requires xs != [] && n >= 1
    ensures RollingMean(xs, |xs| - 1, n) == Trailing(xs, n)
  {
    if |xs| >= n {
      assert xs[|xs| - n..|xs|] == xs[|xs| - n..];
    }
  }

  /**
    The snapshot of a cleaned history, read from the latest row of its derived
    frame.  Its contract states each metric in terms of the trailing window of
    the whole history: what exists after how many bars, and its value.
  */
  function LatestSnapshot(bars: seq<Bar>, windows: set<nat>): (s: Snapshot)
    requires bars != [] && ValidWindows(windows)
    ensures s.close == bars[|bars| - 1].close && s.volume == bars[|bars| - 1].volume
    ensures s.sma20 == Trailing(Closes(bars), 20)
    ensures s.sma50 == Trailing(Closes(bars), 50)
    ensures s.sma200 == Trailing(Closes(bars), 200)
    ensures s.atrPct.Some? <==> |bars| >= 20 && s.close != 0.0
    ensures s.atrPct.Some? ==>
              s.atrPct.value == Mean(TrueRanges(bars)[|bars| - 20..]) / s.close * 100.0
    ensures s.rvol20.Some? <==> |bars| >= 20 && Mean(Volumes(bars)[|bars| - 20..]) != 0.0
    ensures s.rvol20.Some? ==> s.rvol20.value == s.volume / Mean(Volumes(bars)[|bars| - 20..])
    ensures s.ret5.Some? <==> |bars| >= 6 && bars[|bars| - 6].close != 0.0
    ensures s.ret5.Some? ==> s.ret5.value == s.close / bars[|bars| - 6].close - 1.0
    ensures s.above20 <==> s.sma20.Some? && s.close > s.sma20.value
    ensures s.above50 <==> s.sma50.Some? && s.close > s.sma50.value
    ensures s.above200 <==> s.sma200.Some? && s.close > s.sma200.value
  {
    var i := |bars| - 1;
    SmaAtLast(bars, windows);
    AtrPctAtLast(bars);
    Rvol20AtLast(bars);
    Ret5AtLast(bars);
    var row := Derive(bars, windows)[i];
    assert row == DeriveAt(bars, i, windows);
    ReadRow(row)
  }

  lemma SmaAtLast(bars: seq<Bar>, windows: set<nat>)
    requires bars != [] && ValidWindows(windows)
    ensures SmasAt(bars, |bars| - 1, windows)[20] == Trailing(Closes(bars), 20)
    ensures SmasAt(bars, |bars| - 1, windows)[50] == Trailing(Closes(bars), 50)
    ensures SmasAt(bars, |bars| - 1, windows)[200] == Trailing(Closes(bars), 200)
  {
    TrailingAtLast(Closes(bars), 20);
    TrailingAtLast(Closes(bars), 50);
    TrailingAtLast(Closes(bars), 200);
  }

  lemma AtrPctAtLast(bars: seq<Bar>)
    requires bars != []
    ensures AtrPctAt(bars, |bars| - 1).Some? <==> |bars| >= 20 && bars[|bars| - 1].close != 0.0
    ensures AtrPctAt(bars, |bars| - 1).Some? ==>
      AtrPctAt(bars, |bars| - 1).value == Mean(TrueRanges(bars)[|bars| - 20..]) / bars[|bars| - 1].close * 100.0
  {
    var trs := TrueRanges(bars);
    TrailingAtLast(trs, 20);
    AtrPctOf(RollingMean(trs, |bars| - 1, 20), bars[|bars| - 1].close);
  }

  lemma AtrPctOf(atr20: Option<real>, close: real)
    ensures AtrPct(atr20, close).Some? <==> atr20.Some? && close != 0.0
    ensures AtrPct(atr20, close).Some? ==> AtrPct(atr20, close).value == atr20.value / close * 100.0
  {
  }

  lemma Rvol20AtLast(bars: seq<Bar>)
    requires bars != []
    ensures Rvol20At(bars, |bars| - 1).Some? <==> |bars| >= 20 && Mean(Volumes(bars)[|bars| - 20..]) != 0.0
    ensures Rvol20At(bars, |bars| - 1).Some? ==>
      Rvol20At(bars, |bars| - 1).value == bars[|bars| - 1].volume / Mean(Volumes(bars)[|bars| - 20..])
  {
    TrailingAtLast(Volumes(bars), 20);
  }

  lemma Ret5AtLast(bars: seq<Bar>)
    requires bars != []
    ensures PctChange(Closes(bars), |bars| - 1, 5).Some? <==> |bars| >= 6 && bars[|bars| - 6].close != 0.0
    ensures PctChange(Closes(bars), |bars| - 1, 5).Some? ==>
      PctChange(Closes(bars), |bars| - 1, 5).value == bars[|bars| - 1].close / bars[|bars| - 6].close - 1.0
  {
  }

  /** The snapshot is the latest row of the derived frame, whose every row has one SMA per window. */
  lemma LatestIsLastRow(bars: seq<Bar>, windows: set<nat>)
    requires bars != [] && ValidWindows(windows)
    ensures forall i :: 0 <= i < |bars| ==> Derive(bars, windows)[i].sma.Keys == windows
    ensures LatestSnapshot(bars, windows) == ReadRow(Derive(bars, windows)[|bars| - 1])
  {
  }

  /** With `low <= close <= high`, the first day's true range is its high-low range. */
  lemma FirstTrueRange(bars: seq<Bar>)
    requires bars != [] && bars[0].low <= bars[0].close <= bars[0].high
    ensures TrueRanges(bars)[0] == bars[0].high - bars[0].low
  {
  }

  /**
    No look-ahead: every row of the derived frame depends only on the bars up
    to that row, so cutting the history later leaves the row unchanged.
  */
  lemma NoLookAhead(bars: seq<Bar>, j: nat, i: nat, windows: set<nat>)
    requires i < j <= |bars| && ValidWindows(windows)
    ensures DeriveAt(bars[..j], i, windows) == DeriveAt(bars, i, windows)
  {
    TrueRangeColumnsOfPrefix(bars, j, i);
    VolumeColumnOfPrefix(bars, j, i);
    CloseColumnsOfPrefix(bars, j, i, windows);
  }

  lemma TrueRangeColumnsOfPrefix(bars: seq<Bar>, j: nat, i: nat)
    requires i < j <= |bars|
    ensures TrueRanges(bars[..j])[i] == TrueRanges(bars)[i]
    ensures RollingMean(TrueRanges(bars[..j]), i, 20) == RollingMean(TrueRanges(bars), i, 20)
    ensures AtrPctAt(bars[..j], i) == AtrPctAt(bars, i)
  {
    TrueRangesOfPrefix(bars, j);
    RollingMeanPrefix(TrueRanges(bars), j, i, 20);
  }

  lemma VolumeColumnOfPrefix(bars: seq<Bar>, j: nat, i: nat)
    requires i < j <= |bars|
    ensures Rvol20At(bars[..j], i) == Rvol20At(bars, i)
  {
    VolumesOfPrefix(bars, j);
    RollingMeanPrefix(Volumes(bars), j, i, 20);
  }

  lemma CloseColumnsOfPrefix(bars: seq<Bar>, j: nat, i: nat, windows: set<nat>)
    requires i < j <= |bars| && ValidWindows(windows)
    ensures SmasAt(bars[..j], i, windows) == SmasAt(bars, i, windows)
    ensures PctChange(Closes(bars[..j]), i, 5) == PctChange(Closes(bars), i, 5)
  {
    ClosesOfPrefix(bars, j);
    forall n | n in windows
      ensures RollingMean(Closes(bars[..j]), i, n) == RollingMean(Closes(bars), i, n)
    {
      RollingMeanPrefix(Closes(bars), j, i, n);
    }
  }

  lemma ClosesOfPrefix(bars: seq<Bar>, j: nat)
    requires j <= |bars|
    ensures Closes(bars[..j]) == Closes(bars)[..j]
  {
  }

  lemma VolumesOfPrefix(bars: seq<Bar>, j: nat)
    requires j <= |bars|
    ensures Volumes(bars[..j]) == Volumes(bars)[..j]
  {
  }

  lemma TrueRangesOfPrefix(bars: seq<Bar>, j: nat)
    requires j <= |bars|
    ensures TrueRanges(bars[..j]) == TrueRanges(bars)[..j]
  {
  }

  lemma RollingMeanPrefix(xs: seq<real>, j: nat, i: nat, n: nat)
    requires i < j <= |xs| && 1 <= n
    ensures RollingMean(xs[..j], i, n) == RollingMean(xs, i, n)
  {
    if i + 1 >= n {
      assert xs[..j][i + 1 - n..i + 1] == xs[i + 1 - n..i + 1];
    }
  }

  /**
    The snapshot of the history cut after day `j` is the row `j - 1` of the
    full derived frame: the engine never reads a later day.
  */
  lemma SnapshotOfPrefix(bars: seq<Bar>, j: nat, windows: set<nat>)
    requires 0 < j <= |bars| && ValidWindows(windows)
    ensures LatestSnapshot(bars[..j], windows) == ReadRow(Derive(bars, windows)[j - 1])
  {
    NoLookAhead(bars, j, j - 1, windows);
    assert Derive(bars[..j], windows)[j - 1] == DeriveAt(bars[..j], j - 1, windows);
  }

  /** Non-negative volumes give a non-negative relative volume. */
  lemma RvolNonNegative(bars: seq<Bar>, windows: set<nat>)
    requires bars != [] && ValidWindows(windows)
    requires forall i :: 0 <= i < |bars| ==> bars[i].volume >= 0.0
    ensures LatestSnapshot(bars, windows).rvol20.Some? ==> LatestSnapshot(bars, windows).rvol20.value >= 0.0
  {
    var s := LatestSnapshot(bars, windows);
    if s.rvol20.Some? {
      var w := Volumes(bars)[|bars| - 20..];
      var m := Mean(w);
      assert s.rvol20.value == s.volume / m && m != 0.0;
      assert s.volume == bars[|bars| - 1].volume;
      forall k | 0 <= k < |w| ensures 0.0 <= w[k] {
        assert w[k] == bars[|bars| - 20 + k].volume;
      }
      MeanNonNegative(w);
      QuotientNonNegative(s.volume, m);
    }
  }

  lemma QuotientNonNegative(a: real, b: real)
    requires a >= 0.0 && b > 0.0
    ensures a / b >= 0.0
  {
  }

  lemma MeanNonNegative(xs: seq<real>)
    requires xs != []
    requires forall k :: 0 <= k < |xs| ==> 0.0 <= xs[k]
    ensures Mean(xs) >= 0.0
  {
    SumNonNegative(xs);
    QuotientNonNegative(Sum(xs), |xs| as real);
  }

  lemma {:induction false} SumNonNegative(xs: seq<real>)
    requires forall k :: 0 <= k < |xs| ==> 0.0 <= xs[k]
    ensures Sum(xs) >= 0.0
  {
    if xs != [] {
      SumNonNegative(xs[1..]);
    }
  }
}
