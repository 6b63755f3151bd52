/**
 Incremental pivot discovery over a sliding candle window.  Time is counted in bar
 intervals, so contiguous candles have consecutive timestamps.
 */
module Pivots {
  import opened Options

  datatype Kind = Support | Resistance

  datatype Candle = Candle(ts: int, open: real, high: real, low: real, close: real, volume: real)

  datatype Pivot = Pivot(kind: Kind, ts: int, price: real, volume: real, wickRatio: real)

  datatype Key = Key(kind: Kind, ts: int)

  function Min(a: real, b: real): real { if a <= b then a else b }
  function Max(a: real, b: real): real { if a <= b then b else a }

  function PivotBase(row: Candle, kind: Kind): (p: Pivot)
    ensures p.kind == kind && p.ts == row.ts && 0.0 <= p.wickRatio
    ensures p.price == (if kind.Support? then row.low else row.high) && p.volume == row.volume
  {
    var span := Max(row.high - row.low, 0.000000000001);
    var wick := if kind.Support? then Min(row.open, row.close) - row.low
                else row.high - Max(row.open, row.close);
    Pivot(kind, row.ts, if kind.Support? then row.low else row.high, row.volume, Max(0.0, wick / span))
  }

  lemma Quotient(a: real, b: real)
    requires 0.0 <= a <= b && b > 0.0
    ensures 0.0 <= a / b <= 1.0 && (a / b) * b == a
  {
  }

  /** On a well-formed candle the wick ratio is the share of the range beyond the body, on the pivot's side. */
  lemma WickRatioIs(row: Candle, kind: Kind)
    requires row.low <= Min(row.open, row.close) && Max(row.open, row.close) <= row.high
    requires row.high - row.low >= 0.000000000001
    ensures var p := PivotBase(row, kind);
            && 0.0 <= p.wickRatio <= 1.0
            && p.wickRatio * (row.high - row.low) ==
               if kind.Support? then Min(row.open, row.close) - row.low else row.high - Max(row.open, row.close)
  {
    var wick := if kind.Support? then Min(row.open, row.close) - row.low else row.high - Max(row.open, row.close);
    Quotient(wick, row.high - row.low);
  }

  predicate Contiguous(data: seq<Candle>) {
    forall i :: 0 <= i < |data| ==> data[i].ts == data[0].ts + i
  }

  /** Row i is an extreme of the window of rows at most w away. */
  predicate Extreme(data: seq<Candle>, w: nat, i: int, kind: Kind)
    requires w <= i < |data| - w
  {
    forall k :: i - w <= k <= i + w ==>
      if kind.Support? then data[i].low <= data[k].low else data[k].high <= data[i].high
  }

  /** On contiguous candles: no candle at most w intervals away is lower, or higher. */
  lemma ExtremeByTime(data: seq<Candle>, w: nat, i: int, kind: Kind)
    requires Contiguous(data) && w <= i < |data| - w
    ensures Extreme(data, w, i, kind) <==>
            forall c :: c in data && data[i].ts - w <= c.ts <= data[i].ts + w ==>
              if kind.Support? then data[i].low <= c.low else c.high <= data[i].high
  {
    if Extreme(data, w, i, kind) {
      forall c | c in data && data[i].ts - w <= c.ts <= data[i].ts + w
        ensures if kind.Support? then data[i].low <= c.low else c.high <= data[i].high
      {
        var k :| 0 <= k < |data| && data[k] == c;
      }
    } else {
      var k :| i - w <= k <= i + w && !(if kind.Support? then data[i].low <= data[k].low else data[k].high <= data[i].high);
      assert data[k] in data && data[k].ts == data[0].ts + k && data[i].ts == data[0].ts + i;
    }
  }

  function Record(found: map<Key, Pivot>, data: seq<Candle>, w: nat, i: int, kind: Kind): (r: map<Key, Pivot>)
    requires w <= i < |data| - w
  {
    if Extreme(data, w, i, kind) then found[Key(kind, data[i].ts) := PivotBase(data[i], kind)] else found
  }

  /** Scan rows lo <= i < hi on top of what was already found; later finds replace earlier ones. */
  function ScanRows(found: map<Key, Pivot>, data: seq<Candle>, w: nat, lo: int, hi: int): (r: map<Key, Pivot>)
    requires w <= lo && (lo < hi ==> hi <= |data| - w)
    decreases hi - lo
  {
    if hi <= lo then found
    else Record(Record(ScanRows(found, data, w, lo, hi - 1), data, w, hi - 1, Support), data, w, hi - 1, Resistance)
  }

  function Stop(data: seq<Candle>, w: nat): (stop: int) {
    if |data| - w < w then w else |data| - w
  }

  /** The full scan: every row with w neighbours on both sides. */
  function FullScan(data: seq<Candle>, w: nat): (r: map<Key, Pivot>) {
    ScanRows(map[], data, w, w, Stop(data, w))
  }

  function Before(prior: map<Key, Pivot>, cutoff: int): (r: map<Key, Pivot>) {
    map k | k in prior && prior[k].ts < cutoff :: prior[k]
  }

  /** The first row at or after the cutoff, |data| when there is none. */
  function FirstCandidate(data: seq<Candle>, cutoff: int): (i: nat)
    ensures i <= |data|
    ensures forall k :: 0 <= k < i ==> data[k].ts < cutoff
    ensures i < |data| ==> cutoff <= data[i].ts
  {
    if data == [] then 0
    else if cutoff <= data[0].ts then 0
    else
      var rest := FirstCandidate(data[1..], cutoff);
      assert forall k :: 1 <= k < |data| ==> data[k] == data[1..][k - 1];
      rest + 1
  }

  function StartRow(data: seq<Candle>, w: nat, cutoff: int): (start: int)
    ensures w <= start
  {
    var first := FirstCandidate(data, cutoff);
    if first == |data| || first - w < w then w else first - w
  }

  /** What one analysis keeps as the pivot list. */
  function Discover(data: seq<Candle>, w: nat, prior: map<Key, Pivot>, rescanFrom: Option<int>): (r: map<Key, Pivot>) {
    if prior == map[] then FullScan(data, w)
    else match rescanFrom
      case None => prior
      case Some(from) =>
        ScanRows(Before(prior, from - w), data, w, StartRow(data, w, from - w), Stop(data, w))
  }

  method FindFirstCandidate(data: seq<Candle>, cutoff: int) returns (first: nat)
    ensures first == FirstCandidate(data, cutoff)
  {
    first := 0;
    while first < |data| && data[first].ts < cutoff
      invariant first <= |data|
      invariant forall k :: 0 <= k < first ==> data[k].ts < cutoff
    {
      first := first + 1;
    }
    var spec := FirstCandidate(data, cutoff);
    assert first <= spec && spec <= first;
  }

  /** The least low and the greatest high of rows lo <= k < hi. */
  method Range(data: seq<Candle>, lo: nat, hi: nat) returns (low: real, high: real)
    requires lo < hi <= |data|
    ensures forall k :: lo <= k < hi ==> low <= data[k].low && data[k].high <= high
    ensures exists k :: lo <= k < hi && low == data[k].low
    ensures exists k :: lo <= k < hi && high == data[k].high
  {
    low, high := data[lo].low, data[lo].high;
    for j := lo + 1 to hi
      invariant forall k :: lo <= k < j ==> low <= data[k].low && data[k].high <= high
      invariant exists k :: lo <= k < j && low == data[k].low
      invariant exists k :: lo <= k < j && high == data[k].high
    {
      if data[j].low < low {
        low := data[j].low;
      }
      if high < data[j].high {
        high := data[j].high;
      }
    }
  }

  /** The row against its neighbourhood. */
  method JudgeRow(data: seq<Candle>, w: nat, i: nat) returns (support: bool, resistance: bool)
    requires w <= i < |data| - w
    ensures support <==> Extreme(data, w, i, Support)
    ensures resistance <==> Extreme(data, w, i, Resistance)
  {
    var low, high := Range(data, i - w, i + w + 1);
    support, resistance := data[i].low <= low, high <= data[i].high;
  }

  /** The scan loop: each row may add a support and a resistance pivot. */
  method ScanLoop(retained: map<Key, Pivot>, data: seq<Candle>, w: nat, start: int, stop: int)
    returns (pivots: map<Key, Pivot>)
    requires w <= start && (start < stop ==> stop <= |data| - w)
    ensures pivots == ScanRows(retained, data, w, start, stop)
  {
    hide Extreme, PivotBase;
    pivots := retained;
    var index := start;
    while index < stop
      invariant start <= index
      invariant index <= stop || index == start
      invariant pivots == ScanRows(retained, data, w, start, index)
    {
      var support, resistance := JudgeRow(data, w, index);
      if support {
        pivots := pivots[Key(Support, data[index].ts) := PivotBase(data[index], Support)];
      }
      if resistance {
        pivots := pivots[Key(Resistance, data[index].ts) := PivotBase(data[index], Resistance)];
      }
      index := index + 1;
    }
  }

  /** Reuse what lies safely before the first changed candle and scan the rest. */
  method DiscoverPivotBases(data: seq<Candle>, w: nat, prior: map<Key, Pivot>, rescanFrom: Option<int>)
    returns (pivots: map<Key, Pivot>, scanned: nat, reused: nat)
    ensures pivots == Discover(data, w, prior, rescanFrom)
    ensures rescanFrom.None? && prior != map[] ==> scanned == 0 && reused == |prior|
    ensures prior == map[] ==> scanned == Stop(data, w) - w && reused == 0
    ensures prior != map[] && rescanFrom.Some? ==>
              && scanned == Stop(data, w) - StartRow(data, w, rescanFrom.value - w)
              && reused == |Before(prior, rescanFrom.value - w)|
  {
    hide ScanRows;
    if prior != map[] && rescanFrom.None? {
      return prior, 0, |prior|;
    }
    var retained: map<Key, Pivot> := map[];
    var start := w;
    if prior != map[] {
      var cutoff := rescanFrom.value - w;
      retained := Before(prior, cutoff);
      var first := FindFirstCandidate(data, cutoff);
      if first < |data| {
        start := if first - w < w then w else first - w;
      }
    }
    var stop := Stop(data, w);
    pivots := ScanLoop(retained, data, w, start, stop);
    scanned := stop - start;
    reused := |retained|;
  }

  // ---------------------------------------------------------------- what a scan contains

  lemma {:induction false} ScanContains(found: map<Key, Pivot>, data: seq<Candle>, w: nat, lo: int, hi: int, kind: Kind, i: int)
    requires Contiguous(data) && w <= lo && (lo < hi ==> hi <= |data| - w)
    requires w <= i < |data| - w
    ensures var key := Key(kind, data[i].ts);
            var r := ScanRows(found, data, w, lo, hi);
            if lo <= i < hi && Extreme(data, w, i, kind)
            then key in r && r[key] == PivotBase(data[i], kind)
            else (key in r <==> key in found) && (key in r ==> r[key] == found[key])
    decreases hi - lo
  {
    if lo < hi {
      ScanContains(found, data, w, lo, hi - 1, kind, i);
    }
  }

  /** On the rows a full scan can judge, the pivot list is exactly what the full scan finds. */
  ghost predicate Agrees(pivots: map<Key, Pivot>, data: seq<Candle>, w: nat) {
    forall kind, i :: w <= i < |data| - w ==> AgreesAt(pivots, data, w, kind, i)
  }

  ghost predicate AgreesAt(pivots: map<Key, Pivot>, data: seq<Candle>, w: nat, kind: Kind, i: int)
    requires w <= i < |data| - w
  {
    var key := Key(kind, data[i].ts);
    if Extreme(data, w, i, kind) then key in pivots && pivots[key] == PivotBase(data[i], kind) else key !in pivots
  }

  lemma FullScanAgrees(data: seq<Candle>, w: nat)
    requires Contiguous(data)
    ensures Agrees(FullScan(data, w), data, w)
  {
    forall kind, i | w <= i < |data| - w ensures AgreesAt(FullScan(data, w), data, w, kind, i) {
      ScanContains(map[], data, w, w, Stop(data, w), kind, i);
    }
  }

  // ---------------------------------------------------------------- sliding windows

  /** Two windows show the same candles wherever both reach below `bound`. */
  ghost predicate SameBefore(a: seq<Candle>, b: seq<Candle>, bound: int) {
    forall i, j :: 0 <= i < |a| && 0 <= j < |b| && a[i].ts == b[j].ts && a[i].ts < bound ==> a[i] == b[j]
  }

  /** Every entry carries its own key. */
  predicate Keyed(pivots: map<Key, Pivot>) {
    forall k :: k in pivots ==> pivots[k].ts == k.ts
  }

  /** The frame of one analysis follows from the previous one. */
  ghost predicate Follows(prev: seq<Candle>, data: seq<Candle>, rescanFrom: Option<int>) {
    && prev != [] && Contiguous(prev) && Contiguous(data)
    && (data != [] ==>
          match rescanFrom
          case None => SameBefore(prev, data, data[0].ts + |data|) && data[0].ts + |data| == prev[0].ts + |prev|
          case Some(from) => SameBefore(prev, data, from) && from <= prev[0].ts + |prev|)
  }

  /** The window did not move back, or the rescan starts below every row the full scan can judge. */
  predicate StillCovered(prev: seq<Candle>, data: seq<Candle>, w: nat, rescanFrom: Option<int>)
    requires prev != []
  {
    data == [] || prev[0].ts <= data[0].ts ||
    (rescanFrom.Some? && rescanFrom.value <= data[0].ts + 2 * w)
  }

  lemma ScanKeepsKeyed(found: map<Key, Pivot>, data: seq<Candle>, w: nat, lo: int, hi: int)
    requires Keyed(found) && w <= lo && (lo < hi ==> hi <= |data| - w)
    ensures Keyed(ScanRows(found, data, w, lo, hi))
    decreases hi - lo
  {
  }

  lemma DiscoverKeepsKeyed(data: seq<Candle>, w: nat, prior: map<Key, Pivot>, rescanFrom: Option<int>)
    requires Keyed(prior)
    ensures Keyed(Discover(data, w, prior, rescanFrom))
  {
    ScanKeepsKeyed(map[], data, w, w, Stop(data, w));
    if rescanFrom.Some? {
      ScanKeepsKeyed(Before(prior, rescanFrom.value - w), data, w, StartRow(data, w, rescanFrom.value - w), Stop(data, w));
    }
  }

  /** A row judged the same in both windows. */
  lemma SameVerdict(prev: seq<Candle>, data: seq<Candle>, w: nat, bound: int, i: int, j: int, kind: Kind)
    requires Contiguous(prev) && Contiguous(data) && SameBefore(prev, data, bound)
    requires w <= j < |prev| - w && w <= i < |data| - w
    requires prev[j].ts == data[i].ts && data[i].ts + w < bound
    ensures prev[j] == data[i]
    ensures Extreme(prev, w, j, kind) <==> Extreme(data, w, i, kind)
  {
    forall k | i - w <= k <= i + w ensures data[k] == prev[j + (k - i)] {
      assert prev[j + (k - i)].ts == data[k].ts;
    }
    forall k | j - w <= k <= j + w ensures prev[k] == data[i + (k - j)] {
      assert data[i + (k - j)].ts == prev[k].ts;
    }
  }

  /** What was right about a row stays right while the candles around it are unchanged. */
  lemma RowCarriesOver(prev: seq<Candle>, data: seq<Candle>, w: nat, prior: map<Key, Pivot>,
                       bound: int, kind: Kind, i: int, j: int)
    requires Contiguous(prev) && Contiguous(data) && SameBefore(prev, data, bound)
    requires w <= j < |prev| - w && w <= i < |data| - w
    requires prev[j].ts == data[i].ts && data[i].ts + w < bound
    requires AgreesAt(prior, prev, w, kind, j)
    ensures AgreesAt(prior, data, w, kind, i)
  {
    SameVerdict(prev, data, w, bound, i, j, kind);
  }

  lemma RetainedRowAgrees(prev: seq<Candle>, data: seq<Candle>, w: nat, prior: map<Key, Pivot>,
                          bound: int, kind: Kind, i: int)
    requires prev != [] && Contiguous(prev) && Contiguous(data) && SameBefore(prev, data, bound)
    requires Agrees(prior, prev, w)
    requires w <= i < |data| - w && data[i].ts + w < bound <= prev[0].ts + |prev|
    requires prev[0].ts <= data[i].ts - w
    ensures AgreesAt(prior, data, w, kind, i)
  {
    var j := data[i].ts - prev[0].ts;
    assert prev[j].ts == data[i].ts;
    assert AgreesAt(prior, prev, w, kind, j);
    RowCarriesOver(prev, data, w, prior, bound, kind, i, j);
  }

  /** One analysis: rescanning from the first changed candle is as good as a full scan. */
  lemma IncrementalEqualsFull(prev: seq<Candle>, data: seq<Candle>, w: nat, prior: map<Key, Pivot>, rescanFrom: Option<int>)
    requires Follows(prev, data, rescanFrom) && StillCovered(prev, data, w, rescanFrom)
    requires Agrees(prior, prev, w) && Keyed(prior)
    ensures Agrees(Discover(data, w, prior, rescanFrom), data, w)
  {
    var result := Discover(data, w, prior, rescanFrom);
    if prior == map[] {
      FullScanAgrees(data, w);
    } else {
      forall kind, i | w <= i < |data| - w ensures AgreesAt(result, data, w, kind, i) {
        assert data[i].ts == data[0].ts + i;
        if rescanFrom.None? {
          RetainedRowAgrees(prev, data, w, prior, data[0].ts + |data|, kind, i);
        } else {
          IncrementalRow(prev, data, w, prior, rescanFrom.value, kind, i);
        }
      }
    }
  }

  lemma IncrementalRow(prev: seq<Candle>, data: seq<Candle>, w: nat, prior: map<Key, Pivot>,
                       from: int, kind: Kind, i: int)
    requires Follows(prev, data, Some(from))
    requires Agrees(prior, prev, w) && Keyed(prior) && prior != map[]
    requires w <= i < |data| - w
    requires prev[0].ts <= data[i].ts - w || from - w <= data[i].ts
    ensures AgreesAt(Discover(data, w, prior, Some(from)), data, w, kind, i)
  {
    hide Extreme, PivotBase, ScanRows;
    var start, stop := StartRow(data, w, from - w), Stop(data, w);
    ScanContains(Before(prior, from - w), data, w, start, stop, kind, i);
    RowsBelowStart(data, w, from - w, i);
    if prev[0].ts <= data[i].ts - w && data[i].ts < from - w {
      RetainedRowAgrees(prev, data, w, prior, from, kind, i);
    }
  }

  lemma RowsBelowStart(data: seq<Candle>, w: nat, cutoff: int, i: int)
    requires Contiguous(data) && w <= i < |data| - w
    ensures i < StartRow(data, w, cutoff) ==> data[i].ts < cutoff
  {
  }

  /** A full scan knows nothing about rows outside the window it scanned. */
  lemma {:induction false} ScanKeysInside(found: map<Key, Pivot>, data: seq<Candle>, w: nat, lo: int, hi: int, k: Key)
    requires Contiguous(data) && w <= lo && (lo < hi ==> hi <= |data| - w)
    requires k in ScanRows(found, data, w, lo, hi) && k !in found
    ensures lo < hi && data[0].ts + lo <= k.ts < data[0].ts + hi
    decreases hi - lo
  {
    if lo < hi && k in ScanRows(found, data, w, lo, hi - 1) {
      ScanKeysInside(found, data, w, lo, hi - 1, k);
    }
  }

  /** A scan leaves every entry outside its range as it was. */
  lemma {:induction false} ScanLeaves(found: map<Key, Pivot>, data: seq<Candle>, w: nat, lo: int, hi: int, k: Key)
    requires Contiguous(data) && w <= lo && (lo < hi ==> hi <= |data| - w)
    requires lo < hi ==> !(data[0].ts + lo <= k.ts < data[0].ts + hi)
    ensures var r := ScanRows(found, data, w, lo, hi); (k in r <==> k in found) && (k in found ==> r[k] == found[k])
    decreases hi - lo
  {
    if lo < hi {
      ScanLeaves(found, data, w, lo, hi - 1, k);
    }
  }
}
