/**
 REST catch-up over the fill history: a resumable cycle of pages with a committed
 high-water mark, a pending high-water mark and a page cursor, interrupted by ticks,
 exceptions and crashes while new fills keep arriving.
 */
module FillCatchUp {
  import opened Options
  import opened FillHistory

  /** The persisted row of one execution stream. */
  datatype Cursor = Cursor(highWater: Option<int>, pending: Option<int>, nextAfter: Option<int>) {
    predicate InProgress() {
      pending.Some? || nextAfter.Some?
    }
  }

  /** What goes wrong while one page is handled.  A crash is a fault after which nothing volatile survives. */
  datatype Fault = NoFault | FetchRaises | MissingBillId | IngestRaises(rows: nat) | WriteFails

  /** One iteration of the page loop as the environment shapes it. */
  datatype PageEvent = PageEvent(arrivals: seq<int>, fault: Fault)

  /** `More` at the end of a pass means the page budget ran out. */
  datatype PageResult = More | CaughtUp(exhausted: bool) | Raised

  /**
   The exchange history, the persisted cursor, the rows handed to fill ingestion, and the
   record of the current (or last) cycle: the rows of its committed pages, their number,
   the history length when it began and the high-water mark it began with.
   */
  datatype World = World(
    history: seq<int>,
    cursor: Cursor,
    offered: set<int>,
    cycle: seq<int>,
    cyclePages: nat,
    cycleTop: nat,
    cycleFloor: Option<int>)

  function Rows(page: seq<int>): (r: set<int>)
    ensures forall x :: x in r <==> x in page
  {
    set x | x in page
  }

  function Requested(w: World): (after: Option<int>) {
    if w.cursor.InProgress() then w.cursor.nextAfter else None
  }

  /** Persist a cursor; the committed page joins the running cycle or opens a new one. */
  function Commit(w: World, page: seq<int>, cursor: Cursor): (r: World) {
    if w.cursor.InProgress() then
      w.(cursor := cursor, cycle := w.cycle + page, cyclePages := w.cyclePages + 1)
    else
      w.(cursor := cursor, cycle := page, cyclePages := 1,
         cycleTop := |w.history|, cycleFloor := w.cursor.highWater)
  }

  function PendingMark(w: World, page: seq<int>): (mark: Option<int>) {
    if w.cursor.pending.Some? || page == [] then w.cursor.pending else Some(page[0])
  }

  /** The cursor that is written once a page has been handed to ingestion. */
  function NextCursor(w: World, page: seq<int>): (c: Cursor) {
    if LastPage(page, w.cursor.highWater) then Cursor(PendingMark(w, page), None, None)
    else Cursor(w.cursor.highWater, PendingMark(w, page), Some(page[|page| - 1]))
  }

  function Offer(w: World, rows: seq<int>): (r: World) {
    w.(offered := w.offered + Rows(rows))
  }

  function Prefix(page: seq<int>, rows: nat): (r: seq<int>) {
    if rows < |page| then page[..rows] else page
  }

  /** Handle one served page: ingest it, then persist the cursor. */
  function ServePage(w: World, after: Option<int>, page: seq<int>, fault: Fault): (r: (World, PageResult)) {
    if page == [] && w.cursor.pending.None? then (w, CaughtUp(true))
    else if page != [] && fault.MissingBillId? then (w, Raised)
    else if page != [] && fault.IngestRaises? then (Offer(w, Prefix(page, fault.rows)), Raised)
    else if fault.WriteFails? then (Offer(w, page), Raised)
    else if LastPage(page, w.cursor.highWater) then
      (Commit(Offer(w, page), page, NextCursor(w, page)),
       CaughtUp(|page| < PAGE_SIZE && !Reaches(page, w.cursor.highWater)))
    else if Some(page[|page| - 1]) == after then (Offer(w, page), Raised)
    else (Commit(Offer(w, page), page, NextCursor(w, page)), More)
  }

  /** One iteration of the page loop. */
  function PageStep(w: World, e: PageEvent): (r: (World, PageResult)) {
    var w := w.(history := Arrive(w.history, e.arrivals));
    if e.fault.FetchRaises? then (w, Raised)
    else ServePage(w, Requested(w), Page(w.history, Requested(w)), e.fault)
  }

  /** One pass of at most |events| pages. */
  function CatchUp(w: World, events: seq<PageEvent>): (r: (World, PageResult))
    decreases |events|
  {
    if events == [] then (w, More)
    else
      var s := PageStep(w, events[0]);
      if s.1.More? then CatchUp(s.0, events[1..]) else s
  }

  lemma NoneLeft(w: World, script: seq<PageEvent>)
    ensures script[0..] == script && CatchUp(w, []) == (w, More)
  {
  }

  lemma CatchUpUnfolds(w: World, events: seq<PageEvent>, i: nat, next: World, result: PageResult)
    requires i < |events| && (next, result) == PageStep(w, events[i])
    ensures CatchUp(w, events[i..]) ==
            if result.More? then CatchUp(next, events[i + 1..]) else (next, result)
  {
  }

  /** Any number of passes, each with its own page budget. */
  function Run(w: World, passes: seq<seq<PageEvent>>): (r: World)
    decreases |passes|
  {
    if passes == [] then w else Run(CatchUp(w, passes[0]).0, passes[1..])
  }

  // ---------------------------------------------------------------- the imperative service

  /** Persist page progress without committing a partial catch-up cycle. */
  class ExecutionCursorStore {
    var row: Cursor

    constructor (row: Cursor)
      ensures this.row == row
    {
      this.row := row;
    }

    method Checkpoint(pending: Option<int>, nextAfter: Option<int>)
      modifies this
      ensures row == Cursor(old(row).highWater, pending, nextAfter)
    {
      var current := row;
      row := Cursor(current.highWater, pending, nextAfter);
    }

    method Complete(highWater: Option<int>)
      modifies this
      ensures row == Cursor(highWater, None, None)
    {
      row := Cursor(highWater, None, None);
    }
  }

  class ExecutionFillService {
    const store: ExecutionCursorStore
    var history: seq<int>
    var offered: set<int>
    ghost var cycle: seq<int>
    ghost var cyclePages: nat
    ghost var cycleTop: nat
    ghost var cycleFloor: Option<int>

    constructor (store: ExecutionCursorStore, history: seq<int>)
      ensures this.store == store
      ensures State() == World(history, store.row, {}, [], 0, 0, None)
    {
      this.store := store;
      this.history := history;
      offered := {};
      cycle, cyclePages, cycleTop, cycleFloor := [], 0, 0, None;
    }

    ghost function State(): (w: World)
      reads this, store
    {
      World(history, store.row, offered, cycle, cyclePages, cycleTop, cycleFloor)
    }

    ghost method RecordCommit(page: seq<int>, before: Cursor)
      modifies this`cycle, this`cyclePages, this`cycleTop, this`cycleFloor
      ensures State() == Commit(old(State()).(cursor := before), page, store.row)
    {
      if before.InProgress() {
        cycle, cyclePages := cycle + page, cyclePages + 1;
      } else {
        cycle, cyclePages, cycleTop, cycleFloor := page, 1, |history|, before.highWater;
      }
    }

    /** The body of the page loop after the request: the locals `after`, `pending` and
        `previousHighWater` stand for the persisted cursor. */
    method IngestAndPersist(page: seq<int>, previousHighWater: Option<int>, pending: Option<int>,
                            after: Option<int>, fault: Fault)
      returns (outcome: PageResult)
      requires previousHighWater == store.row.highWater && pending == store.row.pending
      modifies this, store
      ensures history == old(history)
      ensures (State(), outcome) == ServePage(old(State()), after, page, fault)
      ensures offered == old(offered) + if page == [] || fault.MissingBillId? then {}
                                        else if fault.IngestRaises? && fault.rows < |page| then Rows(page[..fault.rows])
                                        else Rows(page)
      ensures outcome.CaughtUp? ==>
                && (outcome.exhausted <==> previousHighWater.None? || previousHighWater.value !in page)
                && (outcome.exhausted ==> |page| < PAGE_SIZE)
      ensures outcome.More? ==> && page != []
                                && store.row == Cursor(previousHighWater,
                                                       if pending.None? then Some(page[0]) else pending,
                                                       Some(page[|page| - 1]))
    {
      ghost var row := store.row;
      var mark := pending;
      if page == [] {
        assert offered + Rows(page) == offered;
        if pending.Some? {
          if fault.WriteFails? {
            return Raised;
          }
          store.Complete(mark);
          RecordCommit(page, row);
        }
        return CaughtUp(true);
      }
      if fault.MissingBillId? {
        return Raised;
      }
      if mark.None? {
        mark := Some(page[0]);
      }
      if fault.IngestRaises? {
        offered := offered + Rows(Prefix(page, fault.rows));
        return Raised;
      }
      offered := offered + Rows(page);
      var reachedBoundary := Reaches(page, previousHighWater);
      var exhausted := |page| < PAGE_SIZE;
      if reachedBoundary || exhausted {
        if fault.WriteFails? {
          return Raised;
        }
        store.Complete(mark);
        RecordCommit(page, row);
        return CaughtUp(exhausted && !reachedBoundary);
      }
      var next := Some(page[|page| - 1]);
      if next == after || fault.WriteFails? {
        return Raised;
      }
      store.Checkpoint(mark, next);
      RecordCommit(page, row);
      return More;
    }

    /** The page loop keeps its cursor in locals; it agrees with the step over the persisted cursor. */
    method CatchUpFills(script: seq<PageEvent>) returns (outcome: PageResult)
      modifies this, store
      ensures (State(), outcome) == CatchUp(old(State()), script)
    {
      hide Rows, ServePage, Page, Arrive, Commit, NextCursor;
      NoneLeft(State(), script);
      var cursor := store.row;
      var previousHighWater := cursor.highWater;
      var pending := cursor.pending;
      var after := if cursor.InProgress() then cursor.nextAfter else None;

      var i := 0;
      while i < |script|
        invariant 0 <= i <= |script|
        invariant CatchUp(old(State()), script) == CatchUp(State(), script[i..])
        invariant previousHighWater == store.row.highWater
        invariant pending == store.row.pending
        invariant after == Requested(State())
      {
        ghost var start := State();
        history := Arrive(history, script[i].arrivals);
        if script[i].fault.FetchRaises? {
          CatchUpUnfolds(start, script, i, State(), Raised);
          return Raised;
        }
        var page := Page(history, after);
        outcome := IngestAndPersist(page, previousHighWater, pending, after, script[i].fault);
        CatchUpUnfolds(start, script, i, State(), outcome);
        if !outcome.More? {
          return;
        }
        pending := if pending.None? then Some(page[0]) else pending;
        after := Some(page[|page| - 1]);
        i := i + 1;
      }
      outcome := More;
    }
  }
}
