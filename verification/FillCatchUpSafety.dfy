/**
 What every run of catch-up passes keeps: nothing between the starting checkpoint and the
 committed high-water mark is skipped, a sliced cycle reads exactly what one uninterrupted
 scan reads, and a cycle ends within a page bound that later arrivals cannot move.
 */
module FillCatchUpSafety {
  import opened Options
  import opened FillHistory
  import opened FillCatchUp

  predicate Newer(x: int, mark: Option<int>) {
    mark.Some? ==> mark.value < x
  }

  predicate AtOrBelow(x: int, mark: Option<int>) {
    mark.Some? && x <= mark.value
  }

  /** Every row newer than `base` and at or below `mark` was handed to ingestion. */
  ghost predicate Covered(w: World, base: Option<int>, mark: Option<int>) {
    forall x :: x in w.history && Newer(x, base) && AtOrBelow(x, mark) ==> x in w.offered
  }

  /** Mid-cycle: the rows from the pending mark down to the page cursor were handed to ingestion. */
  ghost predicate CycleCovered(w: World)
    requires w.cursor.pending.Some? && w.cursor.nextAfter.Some?
  {
    forall x :: x in w.history && w.cursor.nextAfter.value <= x <= w.cursor.pending.value ==> x in w.offered
  }

  /** `base` is the high-water mark the run started from. */
  ghost predicate Safe(base: Option<int>, w: World) {
    && Ascending(w.history)
    && (w.cursor.highWater.Some? ==> w.cursor.highWater.value in w.history)
    && (base.Some? ==> w.cursor.highWater.Some? && base.value <= w.cursor.highWater.value)
    && Covered(w, base, w.cursor.highWater)
    && (w.cursor.pending.Some? <==> w.cursor.nextAfter.Some?)
    && (w.cursor.pending.Some? ==>
          && w.cursor.pending.value in w.history
          && w.cursor.nextAfter.value in w.history
          && w.cursor.nextAfter.value <= w.cursor.pending.value
          && Newer(w.cursor.nextAfter.value, w.cursor.highWater)
          && CycleCovered(w))
  }

  /** What the running cycle still has to read. */
  ghost function Remaining(w: World): (rows: seq<int>)
    requires Ascending(w.history)
  {
    if w.cursor.InProgress() then Scan(w.history, w.cursor.nextAfter, w.cursor.highWater) else []
  }

  /** The committed pages followed by the pages still to come are one uninterrupted scan of the
      history as it stood when the cycle began. */
  ghost predicate CycleIsScan(w: World)
    requires Ascending(w.history)
  {
    && w.cycleTop <= |w.history|
    && w.cycle + Remaining(w) == Scan(w.history[..w.cycleTop], None, w.cycleFloor)
  }

  ghost predicate CycleProgress(w: World)
    requires Ascending(w.history)
  {
    && w.cycleTop <= |w.history|
    && w.cyclePages <= w.cycleTop / PAGE_SIZE + 1
    && (w.cursor.InProgress() ==>
          && w.cursor.highWater == w.cycleFloor
          && w.cursor.pending.Some?
          && 0 < w.cycleTop && w.cursor.pending.value == w.history[w.cycleTop - 1]
          && Frontier(w.history, w.cursor.nextAfter) + PAGE_SIZE * w.cyclePages == w.cycleTop)
  }

  ghost predicate Inv(base: Option<int>, w: World) {
    Safe(base, w) && CycleIsScan(w) && CycleProgress(w)
  }

  /** A store that has just been opened on an idle cursor. */
  ghost predicate Start(w: World) {
    && Ascending(w.history)
    && !w.cursor.InProgress()
    && (w.cursor.highWater.Some? ==> w.cursor.highWater.value in w.history)
    && w.cycle == [] && w.cyclePages == 0 && w.cycleTop == 0
  }

  lemma StartIsSafe(w: World)
    requires Start(w)
    ensures Inv(w.cursor.highWater, w)
  {
  }

  lemma ArrivalsKeepSafe(base: Option<int>, w: World, rows: seq<int>)
    requires Inv(base, w)
    ensures Inv(base, w.(history := Arrive(w.history, rows)))
  {
    var g := Arrive(w.history, rows);
    GrowthKeepsSafe(base, w, g);
    GrowthKeepsScan(w, g);
    GrowthKeepsProgress(w, g);
  }

  lemma GrowthKeepsSafe(base: Option<int>, w: World, g: seq<int>)
    requires Safe(base, w) && w.history <= g && Ascending(g)
    ensures Safe(base, w.(history := g))
  {
  }

  lemma GrowthKeepsScan(w: World, g: seq<int>)
    requires w.history <= g && Ascending(g) && Ascending(w.history) && CycleIsScan(w)
    requires w.cursor.InProgress() ==> w.cursor.nextAfter.Some? && w.cursor.nextAfter.value in w.history
    ensures CycleIsScan(w.(history := g))
  {
    hide Scan, Ascending, Frontier;
    assert g[..w.cycleTop] == w.history[..w.cycleTop];
    if w.cursor.InProgress() {
      ScanStable(w.history, g, w.cursor.nextAfter.value, w.cursor.highWater);
    }
  }

  lemma GrowthKeepsProgress(w: World, g: seq<int>)
    requires w.history <= g && Ascending(g) && Ascending(w.history) && CycleProgress(w)
    requires w.cursor.InProgress() ==> w.cursor.nextAfter.Some? && w.cursor.nextAfter.value in w.history
    ensures CycleProgress(w.(history := g))
  {
    hide Ascending;
    if w.cursor.InProgress() {
      OlderThanPrefix(w.history, g, w.cursor.nextAfter.value);
    }
  }

  lemma OfferKeepsInv(base: Option<int>, w: World, o: World)
    requires Inv(base, w) && w.offered <= o.offered && o == w.(offered := o.offered)
    ensures Inv(base, o)
  {
    assert Remaining(o) == Remaining(w);
  }

  /** Every row older than `after` is on the page or below it. */
  lemma PageHolds(h: seq<int>, after: Option<int>, x: int)
    requires Ascending(h) && x in h && (after.Some? ==> x < after.value)
    ensures x in Page(h, after) ||
            (|Page(h, after)| == PAGE_SIZE && x < Page(h, after)[PAGE_SIZE - 1])
  {
    var c := Frontier(h, after);
    var lo := PageFloor(c);
    var i :| 0 <= i < |h| && h[i] == x;
    assert i < c;
    if lo <= i {
      assert Page(h, after)[c - 1 - i] == x;
    } else {
      assert Page(h, after)[PAGE_SIZE - 1] == h[lo];
    }
  }

  lemma PageRowsAreHistory(h: seq<int>, after: Option<int>)
    requires Ascending(h)
    ensures forall x :: x in Page(h, after) ==> x in h && (after.Some? ==> x < after.value)
    ensures forall k :: 0 <= k < |Page(h, after)| ==>
              Page(h, after)[|Page(h, after)| - 1] <= Page(h, after)[k] <= Page(h, after)[0]
  {
  }

  /** What offering a page covers when its last row becomes the page cursor. */
  lemma PageExtendsCover(w: World, page: seq<int>, pending: Option<int>)
    requires Ascending(w.history) && page != [] && page == Page(w.history, Requested(w))
    requires w.cursor.pending.Some? <==> w.cursor.nextAfter.Some?
    requires w.cursor.pending.Some? ==> w.cursor.pending.value in w.history && CycleCovered(w)
    requires pending == if w.cursor.pending.Some? then w.cursor.pending else Some(page[0])
    requires Rows(page) <= w.offered
    ensures pending.value in w.history
    ensures forall x :: x in w.history && page[|page| - 1] <= x <= pending.value ==> x in w.offered
  {
    PageRowsAreHistory(w.history, Requested(w));
    forall x | x in w.history && page[|page| - 1] <= x <= pending.value ensures x in w.offered {
      if w.cursor.pending.None? || x < w.cursor.nextAfter.value {
        PageHolds(w.history, Requested(w), x);
      }
    }
  }

  lemma LastPageCovers(base: Option<int>, w: World, page: seq<int>, pending: Option<int>)
    requires Ascending(w.history) && page != [] && page == Page(w.history, Requested(w))
    requires LastPage(page, w.cursor.highWater)
    requires w.cursor.pending.Some? <==> w.cursor.nextAfter.Some?
    requires w.cursor.pending.Some? ==> w.cursor.pending.value in w.history && CycleCovered(w)
    requires Covered(w, base, w.cursor.highWater)
    requires pending == if w.cursor.pending.Some? then w.cursor.pending else Some(page[0])
    requires Rows(page) <= w.offered
    ensures pending.value in w.history && Covered(w, base, pending)
  {
    PageExtendsCover(w, page, pending);
    PageRowsAreHistory(w.history, Requested(w));
    forall x | x in w.history && Newer(x, base) && x <= pending.value ensures x in w.offered {
      if x < page[|page| - 1] {
        PageHolds(w.history, Requested(w), x);
        assert Reaches(page, w.cursor.highWater);
      }
    }
  }

  lemma EmptyPageSafe(base: Option<int>, w: World)
    requires Safe(base, w) && w.cursor.pending.Some? && Page(w.history, Requested(w)) == []
    ensures Safe(base, Commit(w, [], Cursor(w.cursor.pending, None, None)))
  {
  }

  lemma CompleteSafe(base: Option<int>, w: World, page: seq<int>)
    requires Safe(base, w) && page != [] && page == Page(w.history, Requested(w))
    requires Rows(page) <= w.offered && LastPage(page, w.cursor.highWater)
    ensures Safe(base, Commit(w, page, Cursor(PendingMark(w, page), None, None)))
  {
    LastPageCovers(base, w, page, PendingMark(w, page));
    MarkBelowPage(w, page);
  }

  lemma CheckpointSafe(base: Option<int>, w: World, page: seq<int>)
    requires Safe(base, w) && page != [] && page == Page(w.history, Requested(w))
    requires Rows(page) <= w.offered && !LastPage(page, w.cursor.highWater)
    ensures Safe(base, Commit(w, page, Cursor(w.cursor.highWater, PendingMark(w, page), Some(page[|page| - 1]))))
  {
    PageRowsAreHistory(w.history, Requested(w));
    PageExtendsCover(w, page, PendingMark(w, page));
    MarkBelowPage(w, page);
    assert page[|page| - 1] in page;
  }

  lemma CommitSafe(base: Option<int>, w: World, page: seq<int>)
    requires Safe(base, w) && page == Page(w.history, Requested(w))
    requires page != [] || w.cursor.pending.Some?
    requires Rows(page) <= w.offered
    ensures Safe(base, Commit(w, page, NextCursor(w, page)))
  {
    if page == [] {
      EmptyPageSafe(base, w);
    } else if LastPage(page, w.cursor.highWater) {
      CompleteSafe(base, w, page);
    } else {
      CheckpointSafe(base, w, page);
    }
  }

  /** A step persists nothing, or commits exactly the page the cursor asked for. */
  lemma StepEffect(w: World, after: Option<int>, page: seq<int>, fault: Fault)
    ensures var s := ServePage(w, after, page, fault);
            || (s.1.More? && page != [] && !LastPage(page, w.cursor.highWater) && s.0 == Commit(Offer(w, page), page, NextCursor(w, page)))
            || (s.1.CaughtUp? && (page != [] || w.cursor.pending.Some?) && LastPage(page, w.cursor.highWater)
                && s.0 == Commit(Offer(w, page), page, NextCursor(w, page)))
            || (s.1.CaughtUp? && page == [] && w.cursor.pending.None? && s.0 == w)
            || (s.1.Raised? && w.offered <= s.0.offered && s.0 == w.(offered := s.0.offered))
  {
  }

  /** A step hands over nothing but rows of the page it asked for. */
  lemma StepOffers(w: World, e: PageEvent)
    ensures var h := Arrive(w.history, e.arrivals);
            && w.offered <= PageStep(w, e).0.offered
            && PageStep(w, e).0.offered <= w.offered + Rows(Page(h, Requested(w)))
  {
    hide Page, Arrive, LastPage, NextCursor;
  }

  /** The same for a whole iteration: arrivals first, then the rows handed over, then at most one commit. */
  lemma StepOutcome(base: Option<int>, w: World, e: PageEvent) returns (o: World, page: seq<int>, committed: bool)
    requires Inv(base, w)
    ensures Inv(base, o) && page == Page(o.history, Requested(o))
    ensures o.history == Arrive(w.history, e.arrivals) && o.cursor == w.cursor
    ensures PageStep(w, e).0 == if committed then Commit(o, page, NextCursor(o, page)) else o
    ensures committed ==> Rows(page) <= o.offered && (page != [] || o.cursor.pending.Some?)
    ensures var result := PageStep(w, e).1;
            && (result.More? ==> committed)
            && (result.CaughtUp? ==> LastPage(page, o.cursor.highWater) && (committed || (page == [] && o.cursor.pending.None?)))
            && (e.fault.NoFault? && result.Raised? ==>
                  page != [] && Some(page[|page| - 1]) == Requested(o))
  {
    hide Inv, Page, Frontier, Arrive, Rows, Reaches;
    ArrivalsKeepSafe(base, w, e.arrivals);
    var v := w.(history := Arrive(w.history, e.arrivals));
    page := Page(v.history, Requested(v));
    StepEffect(v, Requested(v), page, e.fault);
    var s := PageStep(w, e);
    committed := s.0 == Commit(Offer(v, page), page, NextCursor(v, page)) && !s.1.Raised?
                 && (page != [] || v.cursor.pending.Some?);
    o := if committed then Offer(v, page) else v.(offered := s.0.offered);
    OfferKeepsInv(base, v, o);
  }

  /** The committed mark never lies above the rows a cycle is reading. */
  lemma MarkBelowPage(w: World, page: seq<int>)
    requires Ascending(w.history) && page != [] && page == Page(w.history, Requested(w))
    requires w.cursor.highWater.Some? ==> w.cursor.highWater.value in w.history
    requires w.cursor.pending.Some? <==> w.cursor.nextAfter.Some?
    requires w.cursor.pending.Some? ==> Newer(w.cursor.nextAfter.value, w.cursor.highWater)
    requires w.cursor.pending.Some? ==> w.cursor.nextAfter.value <= w.cursor.pending.value
    ensures w.cursor.pending.None? && w.cursor.highWater.Some? ==> w.cursor.highWater.value <= page[0]
    ensures w.cursor.pending.Some? && w.cursor.highWater.Some? ==> w.cursor.highWater.value < w.cursor.pending.value
    ensures !LastPage(page, w.cursor.highWater) ==> Newer(page[|page| - 1], w.cursor.highWater)
  {
    PageRowsAreHistory(w.history, Requested(w));
    if w.cursor.highWater.Some? {
      PageHolds(w.history, Requested(w), w.cursor.highWater.value);
    }
  }

  // ---------------------------------------------------------------- slicing and progress

  lemma ScanReadsPage(h: seq<int>, after: Option<int>, mark: Option<int>, page: seq<int>)
    requires Ascending(h) && page == Page(h, after)
    ensures Scan(h, after, mark) == page + if LastPage(page, mark) then [] else Scan(h, Some(page[|page| - 1]), mark)
  {
  }

  lemma CommitKeepsScan(w: World, page: seq<int>)
    requires Ascending(w.history) && CycleIsScan(w) && page == Page(w.history, Requested(w))
    requires w.cursor.pending.Some? <==> w.cursor.nextAfter.Some?
    requires page != [] || w.cursor.pending.Some?
    ensures CycleIsScan(Commit(w, page, NextCursor(w, page)))
  {
    hide Scan, Page, Ascending, Reaches;
    var h, mark := w.history, w.cursor.highWater;
    var rest := if LastPage(page, mark) then [] else Scan(h, Some(page[|page| - 1]), mark);
    ScanReadsPage(h, Requested(w), mark, page);
    assert h[..|h|] == h;
    assert Remaining(Commit(w, page, NextCursor(w, page))) == rest;
    assert w.cycle + (page + rest) == (w.cycle + page) + rest;
  }

  lemma CommitKeepsProgress(w: World, page: seq<int>)
    requires Ascending(w.history) && CycleProgress(w) && page == Page(w.history, Requested(w))
    requires w.cursor.pending.Some? <==> w.cursor.nextAfter.Some?
    requires page != [] || w.cursor.pending.Some?
    ensures CycleProgress(Commit(w, page, NextCursor(w, page)))
  {
    if !LastPage(page, w.cursor.highWater) {
      FrontierAfterPage(w.history, Requested(w));
    }
  }

  lemma PageStepKeepsInv(base: Option<int>, w: World, e: PageEvent)
    requires Inv(base, w)
    ensures Inv(base, PageStep(w, e).0)
  {
    var o, page, committed := StepOutcome(base, w, e);
    if committed {
      CommitKeepsInv(base, o, page);
    }
  }

  lemma CommitKeepsInv(base: Option<int>, w: World, page: seq<int>)
    requires Inv(base, w) && page == Page(w.history, Requested(w))
    requires Rows(page) <= w.offered && (page != [] || w.cursor.pending.Some?)
    ensures Inv(base, Commit(w, page, NextCursor(w, page)))
  {
    CommitSafe(base, w, page);
    CommitKeepsScan(w, page);
    CommitKeepsProgress(w, page);
  }

  lemma {:induction false} CatchUpKeepsInv(base: Option<int>, w: World, events: seq<PageEvent>)
    requires Inv(base, w)
    ensures Inv(base, CatchUp(w, events).0)
    decreases |events|
  {
    if events != [] {
      PageStepKeepsInv(base, w, events[0]);
      var s := PageStep(w, events[0]);
      if s.1.More? {
        CatchUpKeepsInv(base, s.0, events[1..]);
      }
    }
  }

  lemma {:induction false} RunKeepsInv(base: Option<int>, w: World, passes: seq<seq<PageEvent>>)
    requires Inv(base, w)
    ensures Inv(base, Run(w, passes))
    decreases |passes|
  {
    if passes != [] {
      CatchUpKeepsInv(base, w, passes[0]);
      RunKeepsInv(base, CatchUp(w, passes[0]).0, passes[1..]);
    }
  }

  // ---------------------------------------------------------------- main results

  /** Catch-up loses nothing, whatever arrives, raises or crashes on the way. */
  lemma NothingLost(w: World, passes: seq<seq<PageEvent>>)
    requires Start(w)
    ensures var r := Run(w, passes);
            && Covered(r, w.cursor.highWater, r.cursor.highWater)
            && (r.cursor.InProgress() ==>
                  && r.cursor.pending.Some? && r.cursor.nextAfter.Some?
                  && CycleCovered(r))
  {
    StartIsSafe(w);
    RunKeepsInv(w.cursor.highWater, w, passes);
  }

  /** However a cycle is sliced into passes, and whatever faults and arrivals fall between its
      pages, its committed pages are a prefix of one uninterrupted scan of the history as it
      stood when the cycle began, and all of it once the cycle is complete. */
  lemma SlicingRefinesScan(w: World, passes: seq<seq<PageEvent>>)
    requires Start(w)
    ensures var r := Run(w, passes);
            && Ascending(r.history) && r.cycleTop <= |r.history|
            && r.cycle <= Scan(r.history[..r.cycleTop], None, r.cycleFloor)
            && (!r.cursor.InProgress() ==> r.cycle == Scan(r.history[..r.cycleTop], None, r.cycleFloor))
            && (r.cursor.InProgress() ==> 0 < r.cycleTop && r.cursor.pending == Some(r.history[r.cycleTop - 1]))
  {
    StartIsSafe(w);
    RunKeepsInv(w.cursor.highWater, w, passes);
  }

  /** Two passes over a split page budget do exactly what one pass over the whole budget does. */
  lemma {:induction false} SplitPass(w: World, a: seq<PageEvent>, b: seq<PageEvent>)
    ensures CatchUp(w, a + b) ==
            if CatchUp(w, a).1.More? then CatchUp(CatchUp(w, a).0, b) else CatchUp(w, a)
    decreases |a|
  {
    if a == [] {
      assert a + b == b;
    } else {
      assert (a + b)[0] == a[0] && (a + b)[1..] == a[1..] + b;
      var s := PageStep(w, a[0]);
      if s.1.More? {
        SplitPass(s.0, a[1..], b);
      }
    }
  }

  lemma StepCaughtUpIffIdle(base: Option<int>, w: World, e: PageEvent)
    requires Inv(base, w) && !PageStep(w, e).1.Raised?
    ensures PageStep(w, e).1.CaughtUp? <==> !PageStep(w, e).0.cursor.InProgress()
  {
  }

  /** On a pass without error, being caught up and having no cycle in progress are the same. */
  lemma {:induction false} CaughtUpIffIdle(base: Option<int>, w: World, events: seq<PageEvent>)
    requires Inv(base, w) && events != []
    requires !CatchUp(w, events).1.Raised?
    ensures CatchUp(w, events).1.CaughtUp? <==> !CatchUp(w, events).0.cursor.InProgress()
    decreases |events|
  {
    StepCaughtUpIffIdle(base, w, events[0]);
    PageStepKeepsInv(base, w, events[0]);
    var s := PageStep(w, events[0]);
    if s.1.More? && |events| > 1 {
      CaughtUpIffIdle(base, s.0, events[1..]);
    }
  }

  /** A cycle that is caught up either met the mark it began from, in the last page it read, or exhausted the
      history: then the last page reaches down to the oldest row there is, and the mark was in none of it. */
  lemma ExhaustedIff(w: World, e: PageEvent)
    requires PageStep(w, e).1.CaughtUp?
    ensures var h := PageStep(w, e).0.history; var page := Page(h, Requested(w)); var mark := w.cursor.highWater;
            && (PageStep(w, e).1.exhausted <==> mark.None? || mark.value !in page)
            && (PageStep(w, e).1.exhausted ==> Frontier(h, Requested(w)) == |page|
                                               && forall k :: 0 <= k < |page| ==> page[k] == h[|page| - 1 - k])
  {
    hide Page, Arrive, Frontier;
    ShortPage(PageStep(w, e).0.history, Requested(w));
  }

  /** A page that is not full ends at the oldest row. */
  lemma ShortPage(h: seq<int>, after: Option<int>)
    ensures var page := Page(h, after);
            |page| < PAGE_SIZE ==> Frontier(h, after) == |page| && forall k :: 0 <= k < |page| ==> page[k] == h[|page| - 1 - k]
  {
  }

  /** The pagination guard never fires on an append-only history. */
  lemma ServedPageMoves(base: Option<int>, w: World)
    requires Safe(base, w)
    ensures var page := Page(w.history, Requested(w));
            page != [] ==> Some(page[|page| - 1]) != Requested(w)
    ensures var page := Page(w.history, Requested(w));
            !LastPage(page, w.cursor.highWater) ==>
              && Frontier(w.history, Some(page[|page| - 1])) == Frontier(w.history, Requested(w)) - PAGE_SIZE
              && (w.cursor.InProgress() ==> page[|page| - 1] < w.cursor.nextAfter.value)
  {
    var page := Page(w.history, Requested(w));
    PageRowsAreHistory(w.history, Requested(w));
    if page != [] {
      assert page[|page| - 1] in page;
      if !LastPage(page, w.cursor.highWater) {
        FrontierAfterPage(w.history, Requested(w));
      }
    }
  }

  /** A fault-free page either ends the cycle or moves the page cursor down by exactly one full page. */
  lemma PageAdvances(base: Option<int>, w: World, e: PageEvent)
    requires Inv(base, w) && e.fault.NoFault?
    ensures var s := PageStep(w, e);
            && s.0.history == Arrive(w.history, e.arrivals)
            && !s.1.Raised?
            && (s.1.More? ==>
                  && s.0.cursor.nextAfter.Some?
                  && Frontier(s.0.history, s.0.cursor.nextAfter) ==
                     Frontier(s.0.history, Requested(w)) - PAGE_SIZE
                  && (w.cursor.InProgress() ==> s.0.cursor.nextAfter.value < w.cursor.nextAfter.value))
  {
    ArrivalsKeepSafe(base, w, e.arrivals);
    var v := w.(history := Arrive(w.history, e.arrivals));
    ServedPageMoves(base, v);
    hide Inv, Safe, Page, Arrive, Frontier, Rows;
    var page := Page(v.history, Requested(v));
    CleanPageCounts(v, Requested(v), page);
  }

  /** A page that moves and meets no fault is committed, unless there is nothing to commit. */
  lemma CleanPageCounts(w: World, after: Option<int>, page: seq<int>)
    requires page != [] ==> Some(page[|page| - 1]) != after
    ensures var s := ServePage(w, after, page, NoFault);
            && !s.1.Raised? && s.0.history == w.history
            && (s.1.More? ==> page != [] && !LastPage(page, w.cursor.highWater)
                              && s.0.cursor.nextAfter == Some(page[|page| - 1]))
  {
  }

  /** A step in a running cycle keeps its pending mark, and commits it when the cycle ends. */
  lemma PendingIsKept(base: Option<int>, w: World, e: PageEvent)
    requires Inv(base, w) && w.cursor.InProgress()
    ensures var s := PageStep(w, e);
            && (s.1.More? ==> s.0.cursor.pending == w.cursor.pending)
            && (s.1.CaughtUp? ==> s.0.cursor == Cursor(w.cursor.pending, None, None))
  {
    CursorMarks(base, w);
    hide Inv, Page, Arrive, LastPage, Rows, ServePage;
    var v := w.(history := Arrive(w.history, e.arrivals));
    StepEffect(v, Requested(v), Page(v.history, Requested(v)), e.fault);
  }

  /** A cycle never reads more than N / PAGE_SIZE + 1 pages, N being the rows at or below its pending mark. */
  lemma CyclePageBound(w: World, passes: seq<seq<PageEvent>>)
    requires Start(w)
    ensures var r := Run(w, passes); r.cyclePages <= r.cycleTop / PAGE_SIZE + 1
  {
    StartIsSafe(w);
    RunKeepsInv(w.cursor.highWater, w, passes);
  }

  /** The pages a pass serves before something goes wrong. */
  function CleanPages(events: seq<PageEvent>): (n: nat) {
    if events == [] || !events[0].fault.NoFault? then 0 else 1 + CleanPages(events[1..])
  }

  function AllCleanPages(passes: seq<seq<PageEvent>>): (n: nat) {
    if passes == [] then 0 else CleanPages(passes[0]) + AllCleanPages(passes[1..])
  }

  /** One pass over a running cycle commits its pending mark, or leaves the cycle running with every
      page it served cleanly behind it. */
  lemma {:induction false} PassAdvances(base: Option<int>, w: World, events: seq<PageEvent>)
    requires Inv(base, w) && w.cursor.InProgress()
    ensures var r := CatchUp(w, events);
            && Inv(base, r.0)
            && (r.1.CaughtUp? ==> r.0.cursor == Cursor(w.cursor.pending, None, None))
            && (!r.1.CaughtUp? ==>
                  && r.0.cursor.InProgress() && r.0.cursor.pending == w.cursor.pending
                  && Frontier(r.0.history, r.0.cursor.nextAfter) + PAGE_SIZE * CleanPages(events) <=
                     Frontier(w.history, w.cursor.nextAfter))
    decreases |events|
  {
    hide *;
    if events == [] {
      NoPages(w);
    } else {
      var next, result := OnePageOfCycle(base, w, events);
      CleanUnfolds(events);
      if result.More? {
        PassAdvances(base, next, events[1..]);
      }
    }
  }

  lemma NoPages(w: World)
    ensures CatchUp(w, []) == (w, More) && CleanPages([]) == 0
  {
  }

  lemma CleanUnfolds(events: seq<PageEvent>)
    requires events != []
    ensures CleanPages(events) == if events[0].fault.NoFault? then 1 + CleanPages(events[1..]) else 0
  {
  }

  /** A cycle in progress completes, committing its pending mark, by the pass in which the pages served
      cleanly outnumber the pages that are left, however the budget is cut into passes, wherever
      requests, ingestion and writes fail between them, and however many newer rows arrive. */
  lemma {:induction false} CycleCompletes(base: Option<int>, w: World, passes: seq<seq<PageEvent>>) returns (k: nat)
    requires Inv(base, w) && w.cursor.InProgress()
    requires PAGE_SIZE * AllCleanPages(passes) > Frontier(w.history, w.cursor.nextAfter)
    ensures k < |passes|
    ensures CatchUp(Run(w, passes[..k]), passes[k]).1.CaughtUp?
    ensures Run(w, passes[..k + 1]).cursor == Cursor(w.cursor.pending, None, None)
    decreases |passes|
  {
    hide *;
    AllCleanUnfolds(passes);
    assert passes != [];
    PassAdvances(base, w, passes[0]);
    var r := CatchUp(w, passes[0]);
    if r.1.CaughtUp? {
      k := 0;
      PassFirst(w, passes, 0);
    } else {
      k := CycleCompletes(base, r.0, passes[1..]);
      PassFirst(w, passes, k);
      PassFirst(w, passes, k + 1);
      k := k + 1;
    }
  }

  lemma AllCleanUnfolds(passes: seq<seq<PageEvent>>)
    ensures AllCleanPages(passes) == if passes == [] then 0 else CleanPages(passes[0]) + AllCleanPages(passes[1..])
  {
  }

  lemma PassFirst(w: World, passes: seq<seq<PageEvent>>, k: nat)
    requires k < |passes|
    ensures Run(w, passes[..k + 1]) == Run(CatchUp(w, passes[0]).0, passes[1..][..k])
    ensures Run(w, passes[..0]) == w
    ensures k == 0 ==> Run(w, passes[..1]) == CatchUp(w, passes[0]).0
  {
    hide CatchUp;
    assert passes[..k + 1][0] == passes[0] && passes[..k + 1][1..] == passes[1..][..k];
  }

  lemma OnePageOfCycle(base: Option<int>, w: World, events: seq<PageEvent>)
    returns (next: World, result: PageResult)
    requires Inv(base, w) && w.cursor.InProgress() && events != []
    ensures (next, result) == PageStep(w, events[0])
    ensures CatchUp(w, events) == if result.More? then CatchUp(next, events[1..]) else (next, result)
    ensures Inv(base, next)
    ensures result.CaughtUp? ==> next.cursor == Cursor(w.cursor.pending, None, None)
    ensures result.Raised? ==> !events[0].fault.NoFault?
    ensures result.More? ==> events[0].fault.NoFault?
    ensures !result.CaughtUp? ==>
              && next.cursor.InProgress() && next.cursor.pending == w.cursor.pending
              && Frontier(next.history, next.cursor.nextAfter) ==
                 Frontier(w.history, w.cursor.nextAfter) - if result.More? then PAGE_SIZE else 0
  {
    var e := events[0];
    var s := PageStep(w, e);
    next, result := s.0, s.1;
    PendingIsKept(base, w, e);
    PageStepKeepsInv(base, w, e);
    OlderThanPrefix(w.history, Arrive(w.history, e.arrivals), w.cursor.nextAfter.value);
    if e.fault.NoFault? {
      PageAdvances(base, w, e);
    } else {
      FaultStops(w, e);
    }
  }

  lemma FaultStops(w: World, e: PageEvent)
    requires w.cursor.pending.Some? && !e.fault.NoFault?
    ensures var s := PageStep(w, e);
            && !s.1.More? && (s.1.Raised? ==> s.0.cursor == w.cursor)
            && s.0.history == Arrive(w.history, e.arrivals)
  {
  }

  // ---------------------------------------------------------------- what a cycle hands over

  /** What was handed over and what the running cycle still has to read. */
  ghost function Target(w: World): (rows: set<int>)
    requires Ascending(w.history)
  {
    w.offered + Rows(Remaining(w))
  }

  lemma RowsOfConcat(a: seq<int>, b: seq<int>)
    ensures Rows(a + b) == Rows(a) + Rows(b)
  {
  }

  /** Arrivals do not change what a running cycle still has to read. */
  lemma RemainingIsStable(base: Option<int>, w: World, o: World)
    requires Inv(base, w) && w.cursor.InProgress() && o.cursor == w.cursor
    requires w.history <= o.history && Ascending(o.history)
    ensures Remaining(o) == Remaining(w)
  {
    hide Scan, CycleIsScan, CycleProgress, Covered, CycleCovered;
    ScanStable(w.history, o.history, w.cursor.nextAfter.value, w.cursor.highWater);
  }

  /** Committing a page that was handed over moves it from what is left to what was read. */
  lemma CommitKeepsTarget(w: World, page: seq<int>)
    requires Ascending(w.history) && w.cursor.pending.Some? && w.cursor.nextAfter.Some?
    requires page == Page(w.history, Requested(w)) && Rows(page) <= w.offered
    ensures var t := Commit(w, page, NextCursor(w, page)); t.history == w.history && Target(t) == Target(w)
  {
    var t, mark := Commit(w, page, NextCursor(w, page)), w.cursor.highWater;
    RemainingAfter(w, page);
    hide Page, LastPage, Ascending, NextCursor, Scan, Remaining;
    if !LastPage(page, mark) {
      RowsOfConcat(page, Remaining(t));
    }
  }

  /** What a running cycle has left after a page, against what it had before. */
  lemma RemainingAfter(w: World, page: seq<int>)
    requires Ascending(w.history) && w.cursor.pending.Some? && w.cursor.nextAfter.Some?
    requires page == Page(w.history, Requested(w))
    ensures var t := Commit(w, page, NextCursor(w, page));
            Remaining(w) == if LastPage(page, w.cursor.highWater) then page else page + Remaining(t)
    ensures LastPage(page, w.cursor.highWater) ==> Remaining(Commit(w, page, NextCursor(w, page))) == []
  {
    var t, mark := Commit(w, page, NextCursor(w, page)), w.cursor.highWater;
    if !LastPage(page, mark) {
      assert t.cursor == Cursor(mark, w.cursor.pending, Some(page[|page| - 1]));
      hide Page, LastPage, Ascending, NextCursor;
    }
  }

  lemma OfferKeepsTarget(base: Option<int>, w: World, o: World, page: seq<int>)
    requires Inv(base, w) && w.cursor.InProgress() && o.cursor == w.cursor
    requires w.history <= o.history && Ascending(o.history) && Ascending(w.history)
    requires page == Page(o.history, Requested(o)) && w.offered <= o.offered <= w.offered + Rows(page)
    ensures Target(o) == Target(w)
  {
    RemainingIsStable(base, w, o);
    hide Inv, Scan, Page, Ascending, Reaches;
    var mark := o.cursor.highWater;
    ScanReadsPage(o.history, Requested(o), mark, page);
    RowsOfConcat(page, if LastPage(page, mark) then [] else Scan(o.history, Some(page[|page| - 1]), mark));
  }

  /** A page of a running cycle hands over nothing but what the cycle had left to read. */
  lemma StepKeepsTarget(base: Option<int>, w: World, e: PageEvent)
    requires Inv(base, w) && w.cursor.InProgress()
    ensures var t := PageStep(w, e).0;
            Ascending(t.history) && Ascending(w.history) && w.offered <= t.offered && Target(t) == Target(w)
  {
    hide PageStep, Inv, Target, Page, Arrive, Ascending, NextCursor;
    InvAscends(base, w);
    var o, page, committed := StepOutcome(base, w, e);
    InvAscends(base, o);
    StepOffers(w, e);
    OfferKeepsTarget(base, w, o, page);
    CursorMarks(base, o);
    if committed {
      CommitKeepsTarget(o, page);
    }
  }

  lemma CursorMarks(base: Option<int>, w: World)
    requires Inv(base, w)
    ensures w.cursor.InProgress() ==> w.cursor.pending.Some? && w.cursor.nextAfter.Some?
  {
  }

  lemma {:induction false} PassKeepsTarget(base: Option<int>, w: World, events: seq<PageEvent>)
    requires Inv(base, w) && w.cursor.InProgress()
    ensures var t := CatchUp(w, events).0;
            Ascending(t.history) && w.offered <= t.offered && Target(t) == Target(w)
    decreases |events|
  {
    hide *;
    InvAscends(base, w);
    if events == [] {
      NoPages(w);
    } else {
      StepKeepsTarget(base, w, events[0]);
      var next, result := OnePageOfCycle(base, w, events);
      if result.More? {
        PassKeepsTarget(base, next, events[1..]);
      }
    }
  }

  lemma InvAscends(base: Option<int>, w: World)
    requires Inv(base, w)
    ensures Ascending(w.history)
  {
  }

  /** Every one of these passes finds the cycle still running. */
  ghost predicate Running(w: World, passes: seq<seq<PageEvent>>)
    decreases |passes|
  {
    passes == [] || (w.cursor.InProgress() && Running(CatchUp(w, passes[0]).0, passes[1..]))
  }

  lemma {:induction false} RunKeepsTarget(base: Option<int>, w: World, passes: seq<seq<PageEvent>>)
    requires Inv(base, w) && Running(w, passes)
    ensures var t := Run(w, passes);
            Ascending(w.history) && Ascending(t.history) && w.offered <= t.offered && Target(t) == Target(w)
    decreases |passes|
  {
    hide Inv, CatchUp, Target;
    InvAscends(base, w);
    if passes != [] {
      PassKeepsTarget(base, w, passes[0]);
      CatchUpKeepsInv(base, w, passes[0]);
      RunKeepsTarget(base, CatchUp(w, passes[0]).0, passes[1..]);
    }
  }

  /** What is handed over during a cycle, from the page that opens it through any passes with any faults
      and arrivals, lies within one uninterrupted scan of the history as it stood when the cycle began,
      and is exactly that scan once the cycle is complete. */
  lemma CycleOffersScan(base: Option<int>, w: World, e: PageEvent, passes: seq<seq<PageEvent>>)
    requires Inv(base, w) && !w.cursor.InProgress()
    requires var first := PageStep(w, e); first.1.More? && Running(first.0, passes)
    ensures var first, r := PageStep(w, e).0, Run(PageStep(w, e).0, passes);
            && Ascending(first.history)
            && var scan := Scan(first.history, None, w.cursor.highWater);
               && w.offered <= r.offered <= w.offered + Rows(scan)
               && (!r.cursor.InProgress() ==> r.offered == w.offered + Rows(scan))
  {
    var first := PageStep(w, e).0;
    PageStepKeepsInv(base, w, e);
    OpeningPage(base, w, e);
    RunKeepsTarget(base, first, passes);
  }

  /** The page that opens a cycle hands over exactly itself, the head of the scan. */
  lemma OpeningPage(base: Option<int>, w: World, e: PageEvent)
    requires Inv(base, w) && !w.cursor.InProgress() && PageStep(w, e).1.More?
    ensures var t := PageStep(w, e).0;
            && Ascending(t.history) && w.offered <= t.offered
            && Target(t) == w.offered + Rows(Scan(t.history, None, w.cursor.highWater))
  {
    var o, page, committed := StepOutcome(base, w, e);
    StepOffers(w, e);
    hide PageStep, CycleIsScan, CycleProgress, Covered, CycleCovered, Scan, Page;
    assert Safe(base, o);
    ScanReadsPage(o.history, None, o.cursor.highWater, page);
    var t := Commit(o, page, NextCursor(o, page));
    OpensUnlessLast(base, o, page);
    RowsOfConcat(page, Scan(o.history, Some(page[|page| - 1]), o.cursor.highWater));
  }

  lemma OpensUnlessLast(base: Option<int>, w: World, page: seq<int>)
    requires page == Page(w.history, Requested(w))
    ensures LastPage(page, w.cursor.highWater) ==> !Commit(w, page, NextCursor(w, page)).cursor.InProgress()
  {
  }
}
