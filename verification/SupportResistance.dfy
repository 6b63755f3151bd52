/**
 The support and resistance service around pivot discovery: one market window whose candles are
 fetched in full, incrementally or not at all, merged, cut to the window's capacity and analysed over
 the last `limit` rows, while one pivot list is carried from call to call whatever the limits are.
 */
module SupportResistance {
  import opened Options
  import opened Pivots

  /** Requests ask for at least one candle. */
  type Count = n: nat | 0 < n witness 1

  /** Pivot window, incremental page size and capacity of the merged frame. */
  datatype Config = Config(w: nat, page: Count, capacity: Count)

  /** The kept frame, the greatest limit served, the carried pivot list, and the rows that list has
      judged and not dropped since. */
  datatype Window = Window(frame: seq<Candle>, coverage: nat, pivots: map<Key, Pivot>, judged: set<int>)

  /** One call: its limit, whether the kept frame is recent enough to reuse, and what a fetch returns. */
  datatype Call = Call(limit: Count, recent: bool, fetched: seq<Candle>)

  const NEW := Window([], 0, map[], {})

  // ---------------------------------------------------------------- frames

  function Tail(s: seq<Candle>, n: nat): (r: seq<Candle>)
    ensures |r| == if |s| < n then |s| else n
  {
    if |s| <= n then s else s[|s| - n..]
  }

  /** The rows before `bound` of a frame in time order. */
  function Older(a: seq<Candle>, bound: int): (r: seq<Candle>)
    ensures r <= a
  {
    if a == [] || a[|a| - 1].ts < bound then a else Older(a[..|a| - 1], bound)
  }

  /** Concatenate, drop duplicate times keeping the fetched row, and sort: what was fetched runs to the
      newest candle, so the kept rows that survive are those before it. */
  function Merge(frame: seq<Candle>, fetched: seq<Candle>): (r: seq<Candle>) {
    if fetched == [] then frame else Older(frame, fetched[0].ts) + fetched
  }

  lemma {:induction false} OlderIsPrefix(a: seq<Candle>, bound: int)
    requires Contiguous(a)
    ensures a != [] ==>
              |Older(a, bound)| == if bound <= a[0].ts then 0 else if a[0].ts + |a| <= bound then |a| else bound - a[0].ts
  {
    if a != [] && bound <= a[|a| - 1].ts {
      OlderIsPrefix(a[..|a| - 1], bound);
    }
  }

  /** The newest `asked` rows of what was fetched start here. */
  function PageStart(fetched: seq<Candle>, asked: Count): (from: int)
    requires fetched != []
  {
    fetched[if asked < |fetched| then |fetched| - asked else 0].ts
  }

  // ---------------------------------------------------------------- one call

  predicate Reuses(win: Window, call: Call) {
    call.recent && win.coverage >= call.limit
  }

  function Asked(k: Config, win: Window, call: Call): (n: Count) {
    if win.coverage >= call.limit && k.page < call.limit then k.page else call.limit
  }

  function NextFrame(k: Config, win: Window, call: Call): (r: seq<Candle>) {
    if Reuses(win, call) then win.frame else Tail(Merge(win.frame, call.fetched), k.capacity)
  }

  function Rescan(k: Config, win: Window, call: Call): (from: Option<int>) {
    if Reuses(win, call) || call.fetched == [] then None else Some(PageStart(call.fetched, Asked(k, win, call)))
  }

  function Data(k: Config, win: Window, call: Call): (r: seq<Candle>) {
    Tail(NextFrame(k, win, call), call.limit)
  }

  function Times(lo: int, hi: int): (r: set<int>)
    ensures forall t :: t in r <==> lo <= t < hi
    decreases hi - lo
  {
    if hi <= lo then {} else Times(lo, hi - 1) + {hi - 1}
  }

  /** The rows a scan visits, by time. */
  function Scanned(data: seq<Candle>, start: int, stop: int): (r: set<int>) {
    if data == [] then {} else Times(data[0].ts + start, data[0].ts + stop)
  }

  /** The judged rows a discovery does not drop. */
  function Kept(win: Window, w: nat, from: Option<int>): (r: set<int>)
    ensures forall t :: t in r <==> t in win.judged && (from.Some? ==> t < from.value - w)
  {
    if from.None? then win.judged else set t | t in win.judged && t < from.value - w
  }

  /** The rows that are judged after a discovery: those kept and those scanned. */
  function Judge(data: seq<Candle>, w: nat, win: Window, from: Option<int>): (r: set<int>) {
    var kept := Kept(win, w, from);
    if win.pivots == map[] then kept + Scanned(data, w, Stop(data, w))
    else if from.None? then kept
    else kept + Scanned(data, StartRow(data, w, from.value - w), Stop(data, w))
  }

  function After(k: Config, win: Window, call: Call): (r: Window) {
    var data, from := Data(k, win, call), Rescan(k, win, call);
    var most := if call.limit < win.coverage then win.coverage else call.limit;
    Window(NextFrame(k, win, call),
           if Reuses(win, call) then win.coverage else if most < k.capacity then most else k.capacity,
           Discover(data, k.w, win.pivots, from),
           Judge(data, k.w, win, from))
  }

  class SupportResistanceService {
    const config: Config
    var frame: seq<Candle>
    var coverage: nat
    var pivots: map<Key, Pivot>
    ghost var judged: set<int>

    constructor (config: Config)
      ensures this.config == config && State() == NEW
    {
      this.config := config;
      frame, coverage, pivots, judged := [], 0, map[], {};
    }

    ghost function State(): (win: Window)
      reads this
    {
      Window(frame, coverage, pivots, judged)
    }

    /** Reuse, fetch a page or fetch in full; merge; analyse the last `limit` rows. */
    method Analyze(limit: Count, recent: bool, fetched: seq<Candle>) returns (data: seq<Candle>, scanned: nat, reused: nat)
      modifies this
      ensures State() == After(config, old(State()), Call(limit, recent, fetched))
      ensures data == Data(config, old(State()), Call(limit, recent, fetched))
      ensures recent && limit <= old(coverage) ==> coverage == old(coverage) && frame == old(frame)
      ensures !(recent && limit <= old(coverage)) ==>
                && coverage <= config.capacity && |frame| <= config.capacity
                && (coverage < config.capacity ==> limit <= coverage && old(coverage) <= coverage)
                && (coverage == limit || coverage == old(coverage) || coverage == config.capacity)
    {
      hide Discover, Judge, Merge, Tail, PageStart;
      ghost var win := State();
      var from: Option<int> := None;
      if !(recent && coverage >= limit) {
        var asked := if coverage >= limit && config.page < limit then config.page else limit;
        if fetched != [] {
          from := Some(PageStart(fetched, asked));
        }
        frame := Tail(Merge(frame, fetched), config.capacity);
        var most := if limit < coverage then coverage else limit;
        coverage := if most < config.capacity then most else config.capacity;
      }
      data := Tail(frame, limit);
      judged := Judge(data, config.w, win, from);
      pivots, scanned, reused := DiscoverPivotBases(data, config.w, pivots, from);
    }
  }

  // ---------------------------------------------------------------- what a fetch may return

  function Start(s: seq<Candle>): (ts: int) requires s != [] { s[0].ts }

  function End(s: seq<Candle>): (ts: int) requires s != [] { s[0].ts + |s| }

  /**
   A fetch is contiguous and runs to the newest candle.  It overlaps or touches the kept frame, and
   below the requested page it repeats what is known: the same candles, and no rows from before the
   frame unless the page itself reaches that far back.  It is shorter than the page only if the market
   has no more.
   */
  ghost predicate Serves(k: Config, win: Window, call: Call) {
    && call.limit <= k.capacity && Contiguous(call.fetched)
    && (Reuses(win, call) || call.fetched != [])
    && (!Reuses(win, call) && win.frame != [] ==>
          && var from := PageStart(call.fetched, Asked(k, win, call));
             && End(win.frame) <= End(call.fetched) && from <= End(win.frame)
             && SameBefore(win.frame, call.fetched, from)
             && (NextFrame(k, win, call) != [] ==>
                   Start(win.frame) <= Start(NextFrame(k, win, call)) || from <= Start(NextFrame(k, win, call)))
             && (|call.fetched| < Asked(k, win, call) ==> Start(call.fetched) <= Start(win.frame)))
  }

  ghost predicate AllServed(k: Config, win: Window, calls: seq<Call>)
    decreases |calls|
  {
    calls == [] || (Serves(k, win, calls[0]) && AllServed(k, After(k, win, calls[0]), calls[1..]))
  }

  function Run(k: Config, win: Window, calls: seq<Call>): (r: Window)
    decreases |calls|
  {
    if calls == [] then win else Run(k, After(k, win, calls[0]), calls[1..])
  }

  // ---------------------------------------------------------------- the invariant

  ghost predicate RightRow(pivots: map<Key, Pivot>, data: seq<Candle>, w: nat, i: int)
    requires w <= i < |data| - w
  {
    AgreesAt(pivots, data, w, Support, i) && AgreesAt(pivots, data, w, Resistance, i)
  }

  /** Where the frame shows enough neighbours to tell, the list is right about the row at time t. */
  ghost predicate RightAt(pivots: map<Key, Pivot>, frame: seq<Candle>, w: nat, t: int) {
    frame != [] && Start(frame) + w <= t < End(frame) - w ==> RightRow(pivots, frame, w, t - Start(frame))
  }

  /** Every entry is of a judged row, and on every judged row the frame still shows the list is right. */
  ghost predicate Inv(k: Config, win: Window) {
    && k.w > 0 && Contiguous(win.frame) && |win.frame| <= k.capacity && Keyed(win.pivots)
    && (win.frame == [] ==> win.coverage == 0)
    && (forall key :: key in win.pivots ==> key.ts in win.judged)
    && (forall t :: t in win.judged ==> win.frame != [] && t < End(win.frame) - k.w)
    && (forall t :: t in win.judged ==> RightAt(win.pivots, win.frame, k.w, t))
  }

  lemma TailIsSuffix(s: seq<Candle>, n: nat)
    requires Contiguous(s) && n > 0
    ensures var r := Tail(s, n);
            Contiguous(r) && (s != [] ==> r != [] && End(r) == End(s) && Start(s) <= Start(r))
  {
  }

  lemma MergeIsUnion(frame: seq<Candle>, fetched: seq<Candle>)
    requires Contiguous(frame) && Contiguous(fetched)
    requires frame != [] && fetched != [] && Start(fetched) <= End(frame) <= End(fetched)
    ensures var r := Merge(frame, fetched);
            && Contiguous(r) && r != [] && End(r) == End(fetched)
            && Start(r) == (if Start(frame) < Start(fetched) then Start(frame) else Start(fetched))
            && (forall i :: 0 <= i < |r| ==> r[i] in fetched || (r[i] in frame && r[i].ts < Start(fetched)))
  {
    OlderIsPrefix(frame, fetched[0].ts);
    var r := Merge(frame, fetched);
    var m := |Older(frame, fetched[0].ts)|;
    forall i | 0 <= i < |r| ensures r[i] in fetched || (r[i] in frame && r[i].ts < Start(fetched)) {
      if m <= i {
        assert r[i] == fetched[i - m];
      } else {
        assert r[i] == frame[i];
      }
    }
  }

  /** The frame after a call: contiguous, not shorter at the new end, unchanged below the page. */
  lemma FrameStep(k: Config, win: Window, call: Call)
    requires Inv(k, win) && Serves(k, win, call)
    ensures var f := NextFrame(k, win, call);
            && Contiguous(f) && f != [] && |f| <= k.capacity
            && (win.frame != [] ==> End(win.frame) <= End(f))
            && (!Reuses(win, call) ==> End(f) == End(call.fetched))
            && (win.frame != [] ==> |f| == k.capacity || Start(f) <= Start(win.frame))
            && (!Reuses(win, call) && (win.frame == [] || Start(call.fetched) <= Start(win.frame)) ==>
                  Start(call.fetched) <= Start(f))
            && (win.frame != [] && !Reuses(win, call) ==>
                  SameBefore(win.frame, f, PageStart(call.fetched, Asked(k, win, call))))
  {
    if !Reuses(win, call) {
      var m := Merge(win.frame, call.fetched);
      if win.frame == [] {
        assert m == call.fetched;
      } else {
        MergeIsUnion(win.frame, call.fetched);
        MergeKeeps(win.frame, call.fetched, PageStart(call.fetched, Asked(k, win, call)));
      }
      TailIsSuffix(m, k.capacity);
    }
  }

  lemma MergeKeeps(frame: seq<Candle>, fetched: seq<Candle>, bound: int)
    requires Contiguous(frame) && Contiguous(fetched) && frame != [] && fetched != []
    requires Start(fetched) <= End(frame) <= End(fetched) && SameBefore(frame, fetched, bound)
    ensures SameBefore(frame, Merge(frame, fetched), bound)
  {
  }

  lemma TimeAt(s: seq<Candle>, t: int)
    requires Contiguous(s) && s != [] && Start(s) <= t < End(s)
    ensures s[t - Start(s)].ts == t
  {
  }

  /** The analysed data are the last rows of the frame. */
  ghost predicate Ends(frame: seq<Candle>, data: seq<Candle>) {
    && Contiguous(frame) && Contiguous(data) && frame != [] && data != []
    && Start(frame) <= Start(data) && End(data) == End(frame) && SameBefore(frame, data, End(frame))
  }

  lemma TailEnds(frame: seq<Candle>, n: Count)
    requires Contiguous(frame) && frame != []
    ensures Ends(frame, Tail(frame, n))
  {
  }

  /** A row of the analysed data is judged as it is in the whole frame. */
  lemma SuffixVerdict(frame: seq<Candle>, data: seq<Candle>, w: nat, t: int, kind: Kind)
    requires Ends(frame, data) && Start(data) + w <= t < End(data) - w
    ensures var i, j := t - Start(data), t - Start(frame);
            data[i] == frame[j] && (Extreme(data, w, i, kind) <==> Extreme(frame, w, j, kind))
  {
    TimeAt(data, t);
    TimeAt(frame, t);
    hide Contiguous, Extreme, SameBefore;
    SameVerdict(frame, data, w, End(frame), t - Start(data), t - Start(frame), kind);
  }

  /** After a scan of the data the list is right about a row of the frame that the scan visited with no
      entry in its way, or about which the entries before the scan were right. */
  lemma RowAfterScan(frame: seq<Candle>, data: seq<Candle>, w: nat, found: map<Key, Pivot>, start: int, t: int, kind: Kind)
    requires Ends(frame, data) && Start(frame) + w <= t < End(frame) - w && w <= start
    requires var scanned := Start(data) + start <= t < Start(data) + Stop(data, w);
             AgreesAt(found, frame, w, kind, t - Start(frame)) || (scanned && Key(kind, t) !in found)
    ensures AgreesAt(ScanRows(found, data, w, start, Stop(data, w)), frame, w, kind, t - Start(frame))
  {
    hide Contiguous, Extreme, PivotBase, ScanRows, SameBefore;
    var stop := Stop(data, w);
    var i := t - Start(data);
    TimeAt(frame, t);
    if start <= i < stop {
      TimeAt(data, t);
      SuffixVerdict(frame, data, w, t, kind);
      ScanContains(found, data, w, start, stop, kind, i);
    } else {
      ScanLeaves(found, data, w, start, stop, Key(kind, t));
    }
  }

  /** A judged row that the rescan leaves alone is still right in the new frame. */
  lemma KeptRowIsRight(k: Config, win: Window, call: Call, t: int, kind: Kind)
    requires Inv(k, win) && Serves(k, win, call) && t in win.judged
    requires var f := NextFrame(k, win, call); f != [] && Start(f) + k.w <= t < End(f) - k.w
    requires !Reuses(win, call) ==> t < PageStart(call.fetched, Asked(k, win, call)) - k.w
    ensures AgreesAt(win.pivots, NextFrame(k, win, call), k.w, kind, t - Start(NextFrame(k, win, call)))
  {
    hide Inv, Serves, NextFrame, PageStart, Asked, AgreesAt, SameBefore, Contiguous;
    FrameStep(k, win, call);
    JudgedFacts(k, win, t);
    FetchFacts(k, win, call);
    if Reuses(win, call) {
      assert RightRow(win.pivots, win.frame, k.w, t - Start(win.frame));
    } else {
      CarryRow(win.frame, NextFrame(k, win, call), k.w, win.pivots,
               PageStart(call.fetched, Asked(k, win, call)), t, kind);
    }
  }

  lemma JudgedFacts(k: Config, win: Window, t: int)
    requires Inv(k, win) && t in win.judged
    ensures win.frame != [] && Contiguous(win.frame) && t < End(win.frame) - k.w && RightAt(win.pivots, win.frame, k.w, t)
  {
  }

  lemma FetchFacts(k: Config, win: Window, call: Call)
    requires Inv(k, win) && Serves(k, win, call) && NextFrame(k, win, call) != []
    ensures Reuses(win, call) ==> NextFrame(k, win, call) == win.frame
    ensures !Reuses(win, call) ==> call.fetched != [] && PageStart(call.fetched, Asked(k, win, call)) < End(call.fetched)
    ensures !Reuses(win, call) && win.frame != [] ==>
              var f, from := NextFrame(k, win, call), PageStart(call.fetched, Asked(k, win, call));
              from <= End(win.frame) && (Start(win.frame) <= Start(f) || from <= Start(f))
  {
  }

  lemma CarryRow(prev: seq<Candle>, frame: seq<Candle>, w: nat, pivots: map<Key, Pivot>, from: int, t: int, kind: Kind)
    requires Contiguous(prev) && Contiguous(frame) && prev != [] && frame != [] && SameBefore(prev, frame, from)
    requires Start(prev) + w <= t < End(prev) - w && Start(frame) + w <= t < End(frame) - w && t < from - w
    requires RightRow(pivots, prev, w, t - Start(prev))
    ensures AgreesAt(pivots, frame, w, kind, t - Start(frame))
  {
    hide SameBefore, AgreesAt;
    TimeAt(frame, t);
    TimeAt(prev, t);
    hide Contiguous;
    assert AgreesAt(pivots, prev, w, kind, t - Start(prev)) by {
      match kind case Support => case Resistance =>
    }
    RowCarriesOver(prev, frame, w, pivots, from, kind, t - Start(frame), t - Start(prev));
  }

  // ---------------------------------------------------------------- one call keeps it

  /** A discovery that scans starts from the entries of the kept rows. */
  lemma DiscoverShape(data: seq<Candle>, w: nat, win: Window, from: Option<int>)
    returns (found: map<Key, Pivot>, start: int)
    requires win.pivots == map[] || from.Some?
    requires Keyed(win.pivots)
    ensures w <= start
    ensures Discover(data, w, win.pivots, from) == ScanRows(found, data, w, start, Stop(data, w))
    ensures Judge(data, w, win, from) == Kept(win, w, from) + Scanned(data, start, Stop(data, w))
    ensures forall key :: key in found <==> key in win.pivots && (from.Some? ==> key.ts < from.value - w)
    ensures forall key :: key in found ==> found[key] == win.pivots[key]
    ensures win.pivots == map[] ==> start == w
    ensures win.pivots != map[] ==> start == StartRow(data, w, from.value - w)
  {
    hide ScanRows, StartRow;
    if win.pivots == map[] {
      found, start := map[], w;
    } else {
      found, start := Before(win.pivots, from.value - w), StartRow(data, w, from.value - w);
    }
  }

  lemma KeysAreJudged(data: seq<Candle>, w: nat, win: Window, from: Option<int>, key: Key)
    requires win.pivots == map[] || from.Some?
    requires Contiguous(data) && data != [] && Keyed(win.pivots)
    requires forall x :: x in win.pivots ==> x.ts in win.judged
    requires key in Discover(data, w, win.pivots, from)
    ensures key.ts in Judge(data, w, win, from)
  {
    var found, start := DiscoverShape(data, w, win, from);
    hide Discover, Judge, ScanRows, Keyed;
    if key !in found {
      ScanKeysInside(found, data, w, start, Stop(data, w), key);
    }
  }

  lemma DiscoverIsRight(f: seq<Candle>, data: seq<Candle>, w: nat, win: Window, from: Option<int>, t: int, kind: Kind)
    requires win.pivots == map[] || from.Some?
    requires Ends(f, data) && Start(f) + w <= t < End(f) - w && Keyed(win.pivots)
    requires forall x :: x in win.pivots ==> x.ts in win.judged
    requires t in Judge(data, w, win, from)
    requires t in Kept(win, w, from) ==> AgreesAt(win.pivots, f, w, kind, t - Start(f))
    ensures AgreesAt(Discover(data, w, win.pivots, from), f, w, kind, t - Start(f))
  {
    TimeAt(f, t);
    hide Contiguous, SameBefore, Extreme, PivotBase, ScanRows, Keyed, Discover, Judge;
    var found, start := DiscoverShape(data, w, win, from);
    assert Key(kind, t) in win.pivots ==> t in win.judged;
    RowAfterScan(f, data, w, found, start, t, kind);
  }

  lemma DiscoverKeepsRight(f: seq<Candle>, data: seq<Candle>, w: nat, win: Window, from: Option<int>)
    requires win.pivots == map[] || from.Some?
    requires Ends(f, data) && Keyed(win.pivots)
    requires forall x :: x in win.pivots ==> x.ts in win.judged
    requires forall t :: t in Kept(win, w, from) ==> RightAt(win.pivots, f, w, t)
    ensures forall t :: t in Judge(data, w, win, from) ==> RightAt(Discover(data, w, win.pivots, from), f, w, t)
  {
    hide Ends, Keyed, Judge, Discover, AgreesAt, Kept;
    forall t | t in Judge(data, w, win, from) ensures RightAt(Discover(data, w, win.pivots, from), f, w, t) {
      if f != [] && Start(f) + w <= t < End(f) - w {
        assert t in Kept(win, w, from) ==> RightAt(win.pivots, f, w, t);
        DiscoverIsRight(f, data, w, win, from, t, Support);
        DiscoverIsRight(f, data, w, win, from, t, Resistance);
      }
    }
  }

  lemma KeptRowsAreRight(k: Config, win: Window, call: Call)
    requires Inv(k, win) && Serves(k, win, call)
    ensures forall t :: t in Kept(win, k.w, Rescan(k, win, call)) ==> RightAt(win.pivots, NextFrame(k, win, call), k.w, t)
  {
    var f := NextFrame(k, win, call);
    assert Reuses(win, call) || call.fetched != [];
    hide Serves, Inv, NextFrame, PageStart, Asked, AgreesAt;
    forall t | t in Kept(win, k.w, Rescan(k, win, call)) ensures RightAt(win.pivots, f, k.w, t) {
      if f != [] && Start(f) + k.w <= t < End(f) - k.w {
        KeptRowIsRight(k, win, call, t, Support);
        KeptRowIsRight(k, win, call, t, Resistance);
      }
    }
  }

  lemma JudgedBound(data: seq<Candle>, w: nat, win: Window, from: Option<int>, end: int)
    requires data != [] && End(data) == end && (win.pivots == map[] || from.Some?) && Keyed(win.pivots)
    requires forall t :: t in win.judged ==> t < end - w
    ensures forall t :: t in Judge(data, w, win, from) ==> t < end - w
  {
  }

  lemma AfterKeepsInv(k: Config, win: Window, call: Call)
    requires Inv(k, win) && Serves(k, win, call)
    ensures Inv(k, After(k, win, call))
  {
    FrameStep(k, win, call);
    var f, data, from := NextFrame(k, win, call), Data(k, win, call), Rescan(k, win, call);
    var r := After(k, win, call);
    if win.pivots == map[] || from.Some? {
      TailEnds(f, call.limit);
      DiscoverKeepsKeyed(data, k.w, win.pivots, from);
      KeptRowsAreRight(k, win, call);
      hide Discover, Judge, Keyed, Kept, Tail, NextFrame, Rescan, Serves, RightAt, SameBefore;
      forall key | key in r.pivots ensures key.ts in r.judged {
        KeysAreJudged(data, k.w, win, from, key);
      }
      DiscoverKeepsRight(f, data, k.w, win, from);
      JudgedBound(data, k.w, win, from, End(f));
    }
  }

  lemma {:induction false} RunKeepsInv(k: Config, win: Window, calls: seq<Call>)
    requires Inv(k, win) && AllServed(k, win, calls)
    ensures Inv(k, Run(k, win, calls))
    decreases |calls|
  {
    if calls != [] {
      hide Inv, After, Serves;
      AfterKeepsInv(k, win, calls[0]);
      RunKeepsInv(k, After(k, win, calls[0]), calls[1..]);
    }
  }

  // ---------------------------------------------------------------- where the list is right

  lemma RightIff(frame: seq<Candle>, data: seq<Candle>, w: nat, pivots: map<Key, Pivot>, judged: set<int>, t: int, kind: Kind)
    requires Ends(frame, data) && Start(data) + w <= t < End(data) - w
    requires t in judged ==> RightAt(pivots, frame, w, t)
    requires Key(kind, t) in pivots ==> t in judged
    ensures AgreesAt(pivots, data, w, kind, t - Start(data)) <==> (t in judged || !Extreme(data, w, t - Start(data), kind))
  {
    TimeAt(data, t);
    TimeAt(frame, t);
    hide Contiguous, Extreme, PivotBase, SameBefore;
    SuffixVerdict(frame, data, w, t, kind);
    if t in judged {
      assert AgreesAt(pivots, frame, w, kind, t - Start(frame)) by {
        match kind case Support => case Resistance =>
      }
    }
  }

  lemma NewInv(k: Config)
    requires k.w > 0
    ensures Inv(k, NEW)
  {
  }

  lemma WindowIsRightIff(k: Config, win: Window, n: Count, t: int, kind: Kind)
    requires Inv(k, win)
    requires var data := Tail(win.frame, n); data != [] && Start(data) + k.w <= t < End(data) - k.w
    ensures var data := Tail(win.frame, n);
            AgreesAt(win.pivots, data, k.w, kind, t - Start(data)) <==>
            (t in win.judged || !Extreme(data, k.w, t - Start(data), kind))
  {
    hide Tail, Ends, RightAt, AgreesAt, Extreme, Keyed, Contiguous;
    TailEnds(win.frame, n);
    assert Key(kind, t) in win.pivots ==> t in win.judged;
    RightIff(win.frame, Tail(win.frame, n), k.w, win.pivots, win.judged, t, kind);
  }

  /** After any sequence of calls with any limits, and for every row that a full scan of the analysed
      data can judge, the carried list says what the full scan says if and only if the row is among the
      judged ones or is no pivot. */
  lemma ListIsRightIff(k: Config, calls: seq<Call>, n: Count, t: int, kind: Kind)
    requires k.w > 0 && AllServed(k, NEW, calls)
    requires var data := Tail(Run(k, NEW, calls).frame, n); data != [] && Start(data) + k.w <= t < End(data) - k.w
    ensures var win := Run(k, NEW, calls); var data := Tail(win.frame, n);
            AgreesAt(win.pivots, data, k.w, kind, t - Start(data)) <==>
            (t in win.judged || !Extreme(data, k.w, t - Start(data), kind))
  {
    hide Run, AllServed, AgreesAt, Extreme, Inv, Tail, Ends, RightAt;
    NewInv(k);
    RunKeepsInv(k, NEW, calls);
    WindowIsRightIff(k, Run(k, NEW, calls), n, t, kind);
  }

  lemma StartRowAt(data: seq<Candle>, w: nat, cutoff: int)
    requires Contiguous(data) && data != [] && cutoff < End(data)
    ensures Start(data) + StartRow(data, w, cutoff) ==
            if cutoff - w < Start(data) + w then Start(data) + w else cutoff - w
  {
    var first := FirstCandidate(data, cutoff);
    assert data[|data| - 1].ts == End(data) - 1;
    if first > 0 {
      assert data[first - 1].ts < cutoff;
    }
  }

  lemma StopAt(data: seq<Candle>, w: nat, t: int)
    requires data != []
    ensures Start(data) + w <= t ==> (t < Start(data) + Stop(data, w) <==> t < End(data) - w)
  {
  }

  /** Which rows a call that fetches leaves judged: the old ones well below the page, and the rows it
      scans.  Rows just below the analysed data are dropped without being scanned. */
  lemma JudgedIff(k: Config, win: Window, call: Call, t: int)
    requires Inv(k, win) && Serves(k, win, call) && win.pivots != map[] && !Reuses(win, call)
    ensures var data, from := Data(k, win, call), PageStart(call.fetched, Asked(k, win, call));
            && data != []
            && (t in After(k, win, call).judged <==>
                (t in win.judged && t < from - k.w) ||
                (Start(data) + k.w <= t < End(data) - k.w && from - 2 * k.w <= t))
  {
    hide Inv, Serves, NextFrame, Tail, SameBefore, Discover, Judge, PageStart, Asked, Contiguous, StartRow, Keyed;
    FrameStep(k, win, call);
    FetchFacts(k, win, call);
    var f, data, from := NextFrame(k, win, call), Data(k, win, call), PageStart(call.fetched, Asked(k, win, call));
    TailEnds(f, call.limit);
    KeyedFact(k, win);
    var found, start := DiscoverShape(data, k.w, win, Some(from));
    StartRowAt(data, k.w, from - k.w);
    StopAt(data, k.w, t);
  }

  lemma KeyedFact(k: Config, win: Window)
    requires Inv(k, win)
    ensures Keyed(win.pivots)
  {
  }

  // ---------------------------------------------------------------- limits that do not grow back

  /** Every row that a full scan of the last n rows can judge is judged. */
  ghost predicate Covered(k: Config, win: Window, n: nat) {
    win.frame != [] && n > 0 ==>
      var data := Tail(win.frame, n); forall t :: Start(data) + k.w <= t < End(data) - k.w ==> t in win.judged
  }

  /** Where the last n rows of a frame begin. */
  lemma TailStart(frame: seq<Candle>, n: Count)
    requires Contiguous(frame) && frame != []
    ensures var data := Tail(frame, n);
            && data != [] && End(data) == End(frame)
            && Start(data) == if |frame| < n then Start(frame) else End(frame) - n
  {
  }

  /** A first scan, or one after which the list was empty, judges everything it can. */
  lemma FirstScanCovers(k: Config, win: Window, call: Call)
    requires Inv(k, win) && Serves(k, win, call) && win.pivots == map[]
    ensures Covered(k, After(k, win, call), call.limit)
  {
  }

  /** The page of a fetch with a limit beyond the coverage reaches back to the first analysed row. */
  lemma FullFetchReachesBack(k: Config, win: Window, call: Call)
    requires Inv(k, win) && Serves(k, win, call) && call.limit > win.coverage
    ensures Data(k, win, call) != [] && PageStart(call.fetched, Asked(k, win, call)) <= Start(Data(k, win, call))
  {
  }

  /** A limit that does not exceed the last one does not move the start of the data back. */
  lemma StartMovesOn(k: Config, win: Window, call: Call, prev: Count)
    requires Inv(k, win) && Serves(k, win, call) && win.frame != [] && call.limit <= prev && !Reuses(win, call)
    ensures Data(k, win, call) != [] && Tail(win.frame, prev) != []
    ensures Start(Tail(win.frame, prev)) <= Start(Data(k, win, call)) ||
            PageStart(call.fetched, Asked(k, win, call)) <= Start(Data(k, win, call))
  {
    hide Serves, NextFrame, PageStart, Asked, Tail, SameBefore, Keyed, RightAt;
    FrameStep(k, win, call);
    FetchFacts(k, win, call);
    TailStart(NextFrame(k, win, call), call.limit);
    TailStart(win.frame, prev);
    LimitFits(k, win, call);
  }

  lemma LimitFits(k: Config, win: Window, call: Call)
    requires Serves(k, win, call)
    ensures call.limit <= k.capacity
  {
  }

  /** A call whose limit is not above the last one, or is above the coverage, leaves nothing unjudged
      that a full scan of its data could judge. */
  lemma AfterCovers(k: Config, win: Window, call: Call, prev: nat)
    requires Inv(k, win) && Serves(k, win, call) && Covered(k, win, prev)
    requires call.limit <= prev || call.limit > win.coverage
    ensures Covered(k, After(k, win, call), call.limit)
  {
    if win.pivots == map[] {
      FirstScanCovers(k, win, call);
    } else if Reuses(win, call) {
      ReuseCovers(k, win, call, prev);
    } else {
      FetchCovers(k, win, call, prev);
    }
  }

  lemma ReuseCovers(k: Config, win: Window, call: Call, prev: nat)
    requires Inv(k, win) && Serves(k, win, call) && Covered(k, win, prev)
    requires Reuses(win, call) && win.pivots != map[] && call.limit <= prev
    ensures Covered(k, After(k, win, call), call.limit)
  {
  }

  lemma FetchCovers(k: Config, win: Window, call: Call, prev: nat)
    requires Inv(k, win) && Serves(k, win, call) && Covered(k, win, prev)
    requires !Reuses(win, call) && win.pivots != map[] && (call.limit <= prev || call.limit > win.coverage)
    ensures Covered(k, After(k, win, call), call.limit)
  {
    KnownRow(k, win);
    hide Inv, Serves, NextFrame, PageStart, Asked, Tail, Contiguous, Discover, Judge;
    var data, from := Data(k, win, call), PageStart(call.fetched, Asked(k, win, call));
    JudgedIff(k, win, call, 0);
    FetchFacts(k, win, call);
    FrameFact(k, win);
    if call.limit > win.coverage {
      FullFetchReachesBack(k, win, call);
    } else {
      StartMovesOn(k, win, call, prev);
      TailStart(win.frame, prev);
    }
    forall t | Start(data) + k.w <= t < End(data) - k.w ensures t in After(k, win, call).judged {
      JudgedIff(k, win, call, t);
    }
  }

  /** A list with an entry belongs to a frame. */
  lemma KnownRow(k: Config, win: Window)
    requires Inv(k, win) && win.pivots != map[]
    ensures win.frame != []
  {
  }

  lemma FrameFact(k: Config, win: Window)
    requires Inv(k, win)
    ensures Contiguous(win.frame) && k.w > 0
  {
  }

  /** Each limit is at most the one before it, or exceeds every limit so far. */
  ghost predicate Steady(k: Config, win: Window, prev: nat, calls: seq<Call>)
    decreases |calls|
  {
    calls == [] || (&& (calls[0].limit <= prev || calls[0].limit > win.coverage)
                    && Steady(k, After(k, win, calls[0]), calls[0].limit, calls[1..]))
  }

  lemma {:induction false} SteadyCovers(k: Config, win: Window, prev: nat, calls: seq<Call>)
    requires Inv(k, win) && AllServed(k, win, calls) && Covered(k, win, prev) && Steady(k, win, prev, calls)
    ensures Covered(k, Run(k, win, calls), if calls == [] then prev else calls[|calls| - 1].limit)
    decreases |calls|
  {
    if calls != [] {
      hide Inv, After, Serves, Covered;
      AfterKeepsInv(k, win, calls[0]);
      AfterCovers(k, win, calls[0], prev);
      SteadyCovers(k, After(k, win, calls[0]), calls[0].limit, calls[1..]);
    }
  }

  /** However often the window is fetched, reused and moved on: as long as no limit grows back within
      what was already covered, the carried list agrees with a full scan of the analysed data. */
  lemma SlidingEqualsFull(k: Config, calls: seq<Call>)
    requires k.w > 0 && AllServed(k, NEW, calls) && Steady(k, NEW, 0, calls) && calls != []
    ensures var win := Run(k, NEW, calls);
            Agrees(win.pivots, Tail(win.frame, calls[|calls| - 1].limit), k.w)
  {
    hide Run, AllServed, Steady, AgreesAt, Extreme, Inv, Tail;
    NewInv(k);
    NewCovered(k);
    RunKeepsInv(k, NEW, calls);
    SteadyCovers(k, NEW, 0, calls);
    CoveredAgrees(k, Run(k, NEW, calls), calls[|calls| - 1].limit);
  }

  lemma NewCovered(k: Config)
    ensures Covered(k, NEW, 0)
  {
  }

  lemma CoveredAgrees(k: Config, win: Window, n: Count)
    requires Inv(k, win) && Covered(k, win, n)
    ensures Agrees(win.pivots, Tail(win.frame, n), k.w)
  {
    var data := Tail(win.frame, n);
    hide Inv, Tail, AgreesAt, Extreme;
    forall kind, i | k.w <= i < |data| - k.w ensures AgreesAt(win.pivots, data, k.w, kind, i) {
      WindowIsRightIff(k, win, n, Start(data) + i, kind);
    }
  }

  // ---------------------------------------------------------------- a limit that grows back

  /** A quiet market: the first n candles all look alike, so every row with enough neighbours is a pivot. */
  function Quiet(n: nat): (r: seq<Candle>)
    ensures |r| == n
  {
    seq(n, i => Candle(i, 1.0, 1.0, 1.0, 1.0, 1.0))
  }

  /** A large analysis, a small one, and the large one again: at once from the kept frame, or after
      `bars` more candles from a page. */
  function GrowsBack(big: Count, small: Count, bars: nat, reuse: bool): (calls: seq<Call>) {
    [Call(big, false, Quiet(big)), Call(small, false, Quiet(big)), Call(big, reuse, Quiet(big + bars))]
  }

  ghost predicate Plausible(k: Config, big: Count, small: Count, bars: nat) {
    && k.w > 0 && 2 * k.w < small <= k.page <= big && bars <= k.page
    && small + bars + 2 * k.w <= big && big + bars <= k.capacity
  }

  lemma QuietMerge(a: nat, b: nat)
    requires 0 < a <= b
    ensures Contiguous(Quiet(a)) && SameBefore(Quiet(a), Quiet(b), b) && Merge(Quiet(a), Quiet(b)) == Quiet(b)
  {
    OlderIsPrefix(Quiet(a), 0);
    assert Quiet(b)[0].ts == 0;
    assert [] + Quiet(b) == Quiet(b);
  }

  lemma QuietTail(n: Count, m: Count, w: nat, t: int, kind: Kind)
    requires m <= n && n - m + w <= t < n - w
    ensures var data := Tail(Quiet(n), m);
            && data != [] && Start(data) == n - m && End(data) == n && Contiguous(data)
            && Extreme(data, w, t - Start(data), kind)
  {
  }

  lemma QuietPage(n: Count, asked: Count)
    ensures PageStart(Quiet(n), asked) == if asked < n then n - asked else 0
    ensures Start(Quiet(n)) == 0 && End(Quiet(n)) == n && Contiguous(Quiet(n))
  {
  }

  /** A fetch of the quiet market meets the terms, and its frame is what was fetched. */
  lemma QuietServes(k: Config, win: Window, call: Call, a: Count, n: Count)
    requires win.frame == Quiet(a) && call.fetched == Quiet(n) && a <= n <= k.capacity && call.limit <= k.capacity
    requires !Reuses(win, call) && n - a <= Asked(k, win, call) <= n
    ensures Serves(k, win, call) && NextFrame(k, win, call) == Quiet(n)
  {
    hide Quiet, Contiguous, SameBefore, Merge, Tail, PageStart, Asked, Older;
    QuietPage(n, Asked(k, win, call));
    QuietPage(a, 1);
    QuietMerge(a, n);
    TailWhole(Quiet(n), k.capacity);
    SameBelow(Quiet(a), Quiet(n), n - Asked(k, win, call), n);
  }

  lemma TailWhole(s: seq<Candle>, n: Count)
    requires |s| <= n
    ensures Tail(s, n) == s
  {
  }

  lemma SameBelow(a: seq<Candle>, b: seq<Candle>, bound: int, above: int)
    requires SameBefore(a, b, above) && bound <= above
    ensures SameBefore(a, b, bound)
  {
  }

  lemma FirstCall(k: Config, big: Count) returns (win: Window)
    requires k.w > 0 && 2 * k.w < big <= k.capacity
    ensures win == After(k, NEW, Call(big, false, Quiet(big)))
    ensures Serves(k, NEW, Call(big, false, Quiet(big))) && Inv(k, win)
    ensures win.frame == Quiet(big) && win.coverage == big && win.pivots != map[]
    ensures forall t :: t in win.judged <==> k.w <= t < big - k.w
  {
    hide Quiet, Contiguous, Inv, Discover, After, Serves, Times;
    var call := Call(big, false, Quiet(big));
    NewInv(k);
    FirstShape(k, big);
    AfterKeepsInv(k, NEW, call);
    win := After(k, NEW, call);
    HasPivot(k, win, big, k.w);
  }

  lemma FirstShape(k: Config, big: Count)
    requires k.w > 0 && 2 * k.w < big <= k.capacity
    ensures var call := Call(big, false, Quiet(big)); var win := After(k, NEW, call);
            Serves(k, NEW, call) && win.frame == Quiet(big) && win.coverage == big && win.judged == Times(k.w, big - k.w)
  {
    NewMerge(Quiet(big));
    hide Quiet, Contiguous, Merge, Tail, Discover, PageStart, Times;
    QuietPage(big, big);
    TailWhole(Quiet(big), big);
    TailWhole(Quiet(big), k.capacity);
  }

  lemma NewMerge(s: seq<Candle>)
    ensures Merge([], s) == s
  {
  }

  lemma HasPivot(k: Config, win: Window, n: Count, t: int)
    requires Inv(k, win) && win.frame == Quiet(n) && k.w <= t < n - k.w && t in win.judged
    ensures win.pivots != map[]
  {
    hide Inv, Tail, Extreme, Quiet;
    QuietTail(n, n, k.w, t, Support);
    WindowIsRightIff(k, win, n, t, Support);
  }

  lemma SecondCall(k: Config, win: Window, big: Count, small: Count) returns (next: Window)
    requires Plausible(k, big, small, 0)
    requires Inv(k, win) && win.frame == Quiet(big) && win.coverage == big && win.pivots != map[]
    requires forall t :: t in win.judged <==> k.w <= t < big - k.w
    ensures next == After(k, win, Call(small, false, Quiet(big)))
    ensures Serves(k, win, Call(small, false, Quiet(big))) && Inv(k, next)
    ensures next.frame == Quiet(big) && next.coverage == big && next.pivots != map[]
    ensures forall t :: t in next.judged <==>
              (k.w <= t < big - small - k.w || big - small + k.w <= t < big - k.w)
  {
    var call := Call(small, false, Quiet(big));
    hide Inv, Discover, Judge, Quiet, Tail, NextFrame, Serves, PageStart, Merge, Contiguous;
    QuietServes(k, win, call, big, big);
    AfterKeepsInv(k, win, call);
    next := After(k, win, call);
    QuietPage(big, small);
    TailStart(Quiet(big), small);
    forall t ensures t in next.judged <==> (k.w <= t < big - small - k.w || big - small + k.w <= t < big - k.w) {
      JudgedIff(k, win, call, t);
    }
    hide After;
    HasPivot(k, next, big, big - small + k.w);
  }

  /** The rows around the start of the small analysis were dropped and are scanned again only if the
      last page reaches back to them. */
  lemma ThirdCall(k: Config, win: Window, big: Count, small: Count, bars: nat) returns (next: Window)
    requires Plausible(k, big, small, bars)
    requires Inv(k, win) && win.frame == Quiet(big) && win.coverage == big && win.pivots != map[]
    requires forall t :: t in win.judged <==> (k.w <= t < big - small - k.w || big - small + k.w <= t < big - k.w)
    ensures next == After(k, win, Call(big, false, Quiet(big + bars)))
    ensures Serves(k, win, Call(big, false, Quiet(big + bars))) && Inv(k, next)
    ensures next.frame == Quiet(big + bars)
    ensures Covered(k, next, big) <==> bars + small <= k.page + k.w
  {
    var n: Count := big + bars;
    var call := Call(big, false, Quiet(n));
    hide Inv, Discover, Judge, Quiet, Tail, NextFrame, Serves, PageStart, Merge, Contiguous;
    QuietServes(k, win, call, big, n);
    AfterKeepsInv(k, win, call);
    next := After(k, win, call);
    QuietPage(n, Asked(k, win, call));
    TailStart(Quiet(n), big);
    assert Asked(k, win, call) == k.page;
    var data := Data(k, win, call);
    assert Start(data) == bars && End(data) == n;
    hide After, Asked, Covered, Data;
    forall t ensures t in next.judged <==>
      (t in win.judged && t < n - k.page - k.w) || (bars + k.w <= t < n - k.w && n - k.page - 2 * k.w <= t)
    {
      JudgedIff(k, win, call, t);
    }
    PageReachesIff(k, next, win.judged, big, small, bars);
  }

  lemma PageReachesIff(k: Config, next: Window, before: set<int>, big: Count, small: Count, bars: nat)
    requires Plausible(k, big, small, bars) && next.frame == Quiet(big + bars)
    requires var data := Tail(next.frame, big); data != [] && Start(data) == bars && End(data) == big + bars
    requires forall t :: t in before <==> (k.w <= t < big - small - k.w || big - small + k.w <= t < big - k.w)
    requires forall t :: t in next.judged <==>
               (t in before && t < big + bars - k.page - k.w) ||
               (bars + k.w <= t < big + bars - k.w && big + bars - k.page - 2 * k.w <= t)
    ensures Covered(k, next, big) <==> bars + small <= k.page + k.w
  {
    hide Tail, Quiet;
    var data := Tail(next.frame, big);
    var t := big - small - k.w;
    if bars + small > k.page + k.w {
      assert Start(data) + k.w <= t < End(data) - k.w && t !in next.judged;
    }
  }

  /** Served from the kept frame, nothing is scanned again. */
  lemma ThirdCallReuses(k: Config, win: Window, big: Count, small: Count) returns (next: Window)
    requires Plausible(k, big, small, 0)
    requires Inv(k, win) && win.frame == Quiet(big) && win.coverage == big && win.pivots != map[]
    requires forall t :: t in win.judged <==> (k.w <= t < big - small - k.w || big - small + k.w <= t < big - k.w)
    ensures next == After(k, win, Call(big, true, Quiet(big)))
    ensures Serves(k, win, Call(big, true, Quiet(big))) && Inv(k, next)
    ensures next.frame == Quiet(big) && !Covered(k, next, big)
  {
    var call := Call(big, true, Quiet(big));
    QuietPage(big, big);
    hide Inv, Discover, Quiet, Tail, Merge, Contiguous;
    AfterKeepsInv(k, win, call);
    next := After(k, win, call);
    TailStart(Quiet(big), big);
    var t := big - small - k.w;
    assert t !in next.judged;
  }

  lemma ThreeCalls(k: Config, x: Call, y: Call, z: Call, a: Window, b: Window, c: Window)
    requires a == After(k, NEW, x) && b == After(k, a, y) && c == After(k, b, z)
    requires Serves(k, NEW, x) && Serves(k, a, y) && Serves(k, b, z)
    ensures AllServed(k, NEW, [x, y, z]) && Run(k, NEW, [x, y, z]) == c
  {
    hide After, Serves;
    assert [x, y, z][1..] == [y, z] && [y, z][1..] == [z] && [z][1..] == [];
    assert Run(k, b, [z]) == Run(k, c, []) && AllServed(k, c, []);
    assert Run(k, a, [y, z]) == c && AllServed(k, b, [z]);
    assert AllServed(k, a, [y, z]);
  }

  /** On a quiet market the large analysis that follows a small one agrees with a full scan if and only
      if it fetches and its page reaches back over the rows the small one dropped: it does not when the
      frame is reused, nor after more than `page - small + w` further candles. */
  lemma GrowsBackAgreesIff(k: Config, big: Count, small: Count, bars: nat, reuse: bool)
    requires Plausible(k, big, small, bars) && (reuse ==> bars == 0)
    ensures var calls := GrowsBack(big, small, bars, reuse);
            && AllServed(k, NEW, calls)
            && (Agrees(Run(k, NEW, calls).pivots, Tail(Run(k, NEW, calls).frame, big), k.w) <==>
                !reuse && bars + small <= k.page + k.w)
  {
    hide After, Serves, Inv, Covered, Agrees, Tail, Run, AllServed, Quiet;
    var calls := GrowsBack(big, small, bars, reuse);
    var a := FirstCall(k, big);
    var b := SecondCall(k, a, big, small);
    var c;
    if reuse {
      c := ThirdCallReuses(k, b, big, small);
    } else {
      c := ThirdCall(k, b, big, small, bars);
    }
    ThreeCalls(k, calls[0], calls[1], calls[2], a, b, c);
    AgreesIffCovered(k, c, big, big + bars);
  }

  lemma AgreesIffCovered(k: Config, win: Window, n: Count, m: Count)
    requires Inv(k, win) && win.frame == Quiet(m) && n <= m
    ensures Agrees(win.pivots, Tail(win.frame, n), k.w) <==> Covered(k, win, n)
  {
    hide Inv, AgreesAt, Extreme, Tail, Contiguous;
    var data := Tail(win.frame, n);
    if Covered(k, win, n) {
      CoveredAgrees(k, win, n);
    } else {
      QuietStart(m, n);
      var t :| Start(data) + k.w <= t < End(data) - k.w && t !in win.judged;
      QuietTail(m, n, k.w, t, Support);
      WindowIsRightIff(k, win, n, t, Support);
      assert !AgreesAt(win.pivots, data, k.w, Support, t - Start(data));
    }
  }

  lemma QuietStart(m: Count, n: Count)
    requires n <= m
    ensures var data := Tail(Quiet(m), n); data != [] && Start(data) == m - n && End(data) == m
  {
  }
}
