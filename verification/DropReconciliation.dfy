/**
 The fill service's tick interleaved with the stream worker: every event is queued, drained,
 counted as dropped or in flight, and a drop stops being pending only through a REST pass
 that began after it and did not raise.
 */
module DropReconciliation {
  import opened Options
  import opened FillHistory
  import opened FillCatchUp
  import opened FillCatchUpSafety
  import opened PrivateStream

  /** Where the worker stands inside `_enqueue`. */
  datatype Flight = Landed | Counted(event: int) | Rejected(event: int) {
    function Size(): nat { if Landed? then 0 else 1 }
  }

  /** Where the service stands inside `tick`. */
  datatype Phase = BetweenTicks | InRestPass(droppedBefore: nat) | Draining

  datatype Fate = Fate(event: int, kept: bool)

  /**
   `fates` records what became of each event in arrival order, `reported` the remainder the last tick
   published and `completions` the number of times a pass was caught up.
   */
  datatype Sys = Sys(
    capacity: int,
    queue: seq<int>,
    flight: Flight,
    received: nat,
    dropped: nat,
    drained: seq<int>,
    fates: seq<Fate>,
    phase: Phase,
    reconciled: nat,
    reported: nat,
    restForced: bool,
    completions: nat,
    world: World)

  datatype Step =
    | WorkerReceives(event: int)
    | WorkerPuts
    | WorkerCountsDrop
    | TickBegins(restDue: bool)
    | RestPage(page: PageEvent)
    | RestBudgetSpent
    | DrainOne
    | TickEnds

  function Kept(fates: seq<Fate>): (r: seq<int>) {
    if fates == [] then [] else
    Kept(fates[..|fates| - 1]) + if fates[|fates| - 1].kept then [fates[|fates| - 1].event] else []
  }

  function Lost(fates: seq<Fate>): (r: seq<int>) {
    if fates == [] then [] else
    Lost(fates[..|fates| - 1]) + if fates[|fates| - 1].kept then [] else [fates[|fates| - 1].event]
  }

  predicate Enabled(s: Sys, step: Step) {
    match step
    case WorkerReceives(_) => s.flight.Landed?
    case WorkerPuts => s.flight.Counted?
    case WorkerCountsDrop => s.flight.Rejected?
    case TickBegins(_) => s.phase.BetweenTicks?
    case RestPage(_) => s.phase.InRestPass?
    case RestBudgetSpent => s.phase.InRestPass?
    case DrainOne => s.phase.Draining? && s.queue != []
    case TickEnds => s.phase.Draining?
  }

  function EndRest(s: Sys, raised: bool): (r: Sys)
    requires s.phase.InRestPass?
  {
    if raised then s.(phase := Draining, restForced := false)
    else s.(phase := Draining, restForced := false, reconciled := s.phase.droppedBefore)
  }

  function Remainder(s: Sys): (n: nat) {
    if s.dropped > s.reconciled then s.dropped - s.reconciled else 0
  }

  /** A step that is not enabled leaves the system as it is. */
  function Next(s: Sys, step: Step): (r: Sys) {
    if !Enabled(s, step) then s else
    match step
    case WorkerReceives(e) => s.(received := s.received + 1, flight := Counted(e))
    case WorkerPuts =>
      var e := s.flight.event;
      if Full(|s.queue|, s.capacity)
      then s.(flight := Rejected(e), fates := s.fates + [Fate(e, false)])
      else s.(queue := s.queue + [e], flight := Landed, fates := s.fates + [Fate(e, true)])
    case WorkerCountsDrop => s.(dropped := s.dropped + 1, flight := Landed)
    case TickBegins(due) =>
      s.(phase := if due || s.restForced then InRestPass(s.dropped) else Draining)
    case RestPage(e) =>
      var p := PageStep(s.world, e);
      var t := s.(world := p.0, completions := s.completions + if p.1.CaughtUp? then 1 else 0);
      if p.1.More? then t else EndRest(t, p.1.Raised?)
    case RestBudgetSpent => EndRest(s, false)
    case DrainOne => s.(queue := s.queue[1..], drained := s.drained + [s.queue[0]])
    case TickEnds =>
      s.(phase := BetweenTicks, reported := Remainder(s), restForced := s.restForced || Remainder(s) > 0)
  }

  function Run(s: Sys, steps: seq<Step>): (r: Sys)
    decreases |steps|
  {
    if steps == [] then s else Run(Next(s, steps[0]), steps[1..])
  }

  predicate Initial(s: Sys) {
    && s.queue == [] && s.flight.Landed? && s.received == 0 && s.dropped == 0 && s.drained == []
    && s.fates == [] && s.phase.BetweenTicks? && s.reconciled == 0 && s.reported == 0
  }

  ghost predicate Accounted(s: Sys) {
    && s.received == |s.queue| + |s.drained| + s.dropped + s.flight.Size()
    && s.drained + s.queue == Kept(s.fates)
    && |Lost(s.fates)| == s.dropped + (if s.flight.Rejected? then 1 else 0)
    && s.received == |s.fates| + (if s.flight.Counted? then 1 else 0)
    && (s.capacity > 0 ==> |s.queue| <= s.capacity)
    && (s.capacity <= 0 ==> s.dropped == 0 && !s.flight.Rejected?)
  }

  ghost predicate Reconciled(s: Sys) {
    && s.reconciled <= s.dropped
    && (s.phase.InRestPass? ==> s.reconciled <= s.phase.droppedBefore <= s.dropped)
    && (s.phase.BetweenTicks? && s.reported > 0 ==> s.restForced)
    && (s.phase.Draining? ==> !s.restForced)
  }

  lemma PutKeepsAccounts(s: Sys)
    requires Accounted(s) && s.flight.Counted?
    ensures Accounted(Next(s, WorkerPuts))
  {
    hide PageStep;
    var t := Next(s, WorkerPuts);
    assert t.fates[..|t.fates| - 1] == s.fates;
    assert (s.drained + s.queue) + [s.flight.event] == s.drained + (s.queue + [s.flight.event]);
  }

  lemma NextKeepsAccounts(s: Sys, step: Step)
    requires Accounted(s)
    ensures Accounted(Next(s, step))
  {
    hide PageStep, Kept, Lost;
    if Enabled(s, step) {
      if step.WorkerPuts? {
        PutKeepsAccounts(s);
      } else if step.DrainOne? {
        assert (s.drained + [s.queue[0]]) + s.queue[1..] == s.drained + s.queue;
      }
    }
  }

  lemma NextKeepsReconciled(s: Sys, step: Step)
    requires Reconciled(s)
    ensures Reconciled(Next(s, step)) && s.reconciled <= Next(s, step).reconciled
  {
    hide PageStep;
  }

  lemma {:induction false} RunKeeps(s: Sys, steps: seq<Step>)
    requires Accounted(s) && Reconciled(s)
    ensures Accounted(Run(s, steps)) && Reconciled(Run(s, steps))
    ensures s.reconciled <= Run(s, steps).reconciled
    decreases |steps|
  {
    if steps != [] {
      NextKeepsAccounts(s, steps[0]);
      NextKeepsReconciled(s, steps[0]);
      RunKeeps(Next(s, steps[0]), steps[1..]);
    }
  }

  /** The worker's three steps together are one `_enqueue`. */
  lemma WorkerStepsEnqueue(s: Sys, event: int)
    requires s.flight.Landed?
    ensures var t := Next(Next(Next(s, WorkerReceives(event)), WorkerPuts), WorkerCountsDrop);
            && t.flight.Landed? && t.received == s.received + 1
            && (if Full(|s.queue|, s.capacity) then t.queue == s.queue && t.dropped == s.dropped + 1
                else t.queue == s.queue + [event] && t.dropped == s.dropped)
  {
  }

  // ---------------------------------------------------------------- main results

  /** In every interleaving each received event is queued, drained, dropped or in flight, and
      what is drained leaves in arrival order. */
  lemma EveryEventAccounted(s: Sys, steps: seq<Step>)
    requires Initial(s)
    ensures var r := Run(s, steps);
            && r.received == |r.queue| + |r.drained| + r.dropped + r.flight.Size()
            && r.flight.Size() <= 1
            && r.drained <= Kept(r.fates)
            && (r.dropped > 0 ==> r.capacity > 0)
  {
    RunKeeps(s, steps);
    var r := Run(s, steps);
    assert r.drained + r.queue == Kept(r.fates);
  }

  /** The k-th drop had been counted when step i opened a REST pass, and step j ended that pass with the
      page budget spent or the cycle caught up, not with an exception. */
  ghost predicate PassClears(s: Sys, steps: seq<Step>, i: nat, j: nat, k: nat) {
    && i < j < |steps|
    && steps[i].TickBegins? && Run(s, steps[..i]).phase.BetweenTicks? && k <= Run(s, steps[..i]).dropped
    && (forall m :: i < m <= j ==> Run(s, steps[..m]).phase.InRestPass?)
    && (steps[j].RestBudgetSpent? ||
        (steps[j].RestPage? && PageStep(Run(s, steps[..j]).world, steps[j].page).1.CaughtUp?))
  }

  /** An open pass began between ticks and holds the count read just then. */
  lemma {:induction false} PassWasOpened(s: Sys, steps: seq<Step>, n: nat) returns (i: nat)
    requires s.phase.BetweenTicks? && n <= |steps| && Run(s, steps[..n]).phase.InRestPass?
    ensures i < n && steps[i].TickBegins? && Run(s, steps[..i]).phase.BetweenTicks?
    ensures forall m :: i < m <= n ==> Run(s, steps[..m]).phase == InRestPass(Run(s, steps[..i]).dropped)
  {
    hide Run, PageStep;
    RunNone(s);
    assert steps[..0] == [];
    if n > 0 {
      RunExtends(s, steps, n - 1);
      if Run(s, steps[..n - 1]).phase.InRestPass? {
        i := PassWasOpened(s, steps, n - 1);
      } else {
        i := n - 1;
      }
    }
  }

  lemma RunNone(s: Sys)
    ensures Run(s, []) == s
  {
  }

  lemma RunExtends(s: Sys, steps: seq<Step>, n: nat)
    requires n < |steps|
    ensures Run(s, steps[..n + 1]) == Next(Run(s, steps[..n]), steps[n])
  {
    assert steps[..n + 1] == steps[..n] + [steps[n]];
    RunConcat(s, steps[..n], [steps[n]]);
    hide Next;
    assert [steps[n]][1..] == [];
  }

  lemma {:induction false} ClearingPass(s: Sys, steps: seq<Step>, n: nat, k: nat) returns (i: nat, j: nat)
    requires Initial(s) && n <= |steps| && 0 < k <= Run(s, steps[..n]).reconciled
    ensures j < n && PassClears(s, steps, i, j, k)
  {
    hide Run, PageStep;
    RunNone(s);
    assert steps[..0] == [];
    if n > 0 {
      RunExtends(s, steps, n - 1);
      if k <= Run(s, steps[..n - 1]).reconciled {
        i, j := ClearingPass(s, steps, n - 1, k);
      } else {
        j := n - 1;
        i := PassWasOpened(s, steps, j);
        assert Run(s, steps[..j]).phase == InRestPass(Run(s, steps[..i]).dropped);
      }
    }
  }

  lemma ReconciledGrows(s: Sys, steps: seq<Step>, m: nat)
    requires Initial(s) && m <= |steps|
    ensures Run(s, steps[..m]).reconciled <= Run(s, steps).reconciled
  {
    RunConcat(s, steps[..m], steps[m..]);
    assert steps[..m] + steps[m..] == steps;
    RunKeeps(s, steps[..m]);
    hide *;
    RunKeeps(Run(s, steps[..m]), steps[m..]);
  }

  /** While a pass stays open it is the one that was opened. */
  lemma SamePass(s: Sys, steps: seq<Step>, i: nat, j: nat)
    requires s.phase.BetweenTicks? && i < j <= |steps| && Run(s, steps[..i]).phase.BetweenTicks?
    requires forall m :: i < m <= j ==> Run(s, steps[..m]).phase.InRestPass?
    ensures Run(s, steps[..j]).phase == InRestPass(Run(s, steps[..i]).dropped)
  {
    hide Run, PageStep;
    var o := PassWasOpened(s, steps, j);
    assert Run(s, steps[..o]).phase.BetweenTicks? && Run(s, steps[..i]).phase.BetweenTicks?;
  }

  lemma PassClearsDrops(s: Sys, steps: seq<Step>, i: nat, j: nat, k: nat)
    requires Initial(s) && PassClears(s, steps, i, j, k)
    ensures k <= Run(s, steps).reconciled
  {
    ReconciledGrows(s, steps, j + 1);
    hide Run, PageStep;
    SamePass(s, steps, i, j);
    RunExtends(s, steps, j);
  }

  /** The k-th drop stops being pending if and only if a REST pass began once that drop had been counted
      and ended without an exception; and from then on it stays reconciled. */
  lemma ReconciledIffLaterPass(s: Sys, steps: seq<Step>, k: nat)
    requires Initial(s) && k > 0
    ensures k <= Run(s, steps).reconciled <==> exists i: nat, j: nat :: PassClears(s, steps, i, j, k)
    ensures k <= Run(s, steps).reconciled ==>
              k <= Run(s, steps).dropped && forall more: seq<Step> :: k <= Run(Run(s, steps), more).reconciled
  {
    RunKeeps(s, steps);
    hide Run, PageStep, PassClears, Accounted;
    assert steps[..|steps|] == steps;
    if k <= Run(s, steps).reconciled {
      var i, j := ClearingPass(s, steps, |steps|, k);
      forall more: seq<Step> ensures k <= Run(Run(s, steps), more).reconciled {
        RunKeeps(Run(s, steps), more);
      }
    }
    forall i: nat, j: nat | PassClears(s, steps, i, j, k) ensures k <= Run(s, steps).reconciled {
      PassClearsDrops(s, steps, i, j, k);
    }
  }

  /** A pass that raises clears nothing: whatever is pending then is still pending when its tick ends,
      and the next tick runs another pass. */
  lemma RaisedPassClearsNothing(s: Sys, steps: seq<Step>, e: PageEvent, due: bool)
    requires Initial(s)
    requires var r := Run(s, steps);
             r.phase.InRestPass? && PageStep(r.world, e).1.Raised? && r.reconciled < r.dropped
    ensures var r := Run(s, steps); var t := Next(Next(r, RestPage(e)), TickEnds);
            && t.reconciled == r.reconciled && t.dropped == r.dropped && t.reported == r.dropped - r.reconciled
            && Next(t, TickBegins(due)).phase == InRestPass(r.dropped)
  {
    RunKeeps(s, steps);
    hide PageStep;
  }

  /** A tick that reports pending drops makes the next tick run a REST pass, due or not. */
  lemma PendingDropsForceRest(s: Sys, steps: seq<Step>, due: bool)
    requires Initial(s)
    requires var r := Run(s, steps); r.phase.BetweenTicks? && r.reported > 0
    ensures Next(Run(s, steps), TickBegins(due)).phase == InRestPass(Run(s, steps).dropped)
  {
    RunKeeps(s, steps);
  }

  /** A tick reports exactly the drops that no pass has covered, and the next tick runs a REST pass if
      and only if one is due or something was reported. */
  lemma NextPassIff(s: Sys, steps: seq<Step>, due: bool)
    requires Initial(s) && Run(s, steps).phase.Draining?
    ensures var r := Run(s, steps); var t := Next(r, TickEnds);
            && t.phase.BetweenTicks? && t.reported == r.dropped - r.reconciled
            && (Next(t, TickBegins(due)).phase.InRestPass? <==> due || t.reported > 0)
  {
    RunKeeps(s, steps);
  }

  // ---------------------------------------------------------------- which fills a cleared drop covers

  /** A cycle that is running will commit a mark at or above everything in `rows`. */
  ghost predicate Heading(rows: seq<int>, w: World) {
    w.cursor.pending.Some? ==> forall x :: x in rows ==> x <= w.cursor.pending.value
  }

  /** The committed mark is at or above everything in `rows`. */
  ghost predicate Reached(rows: seq<int>, w: World) {
    forall x :: x in rows ==> AtOrBelow(x, w.cursor.highWater)
  }

  lemma NewestIsFirst(h: seq<int>, x: int)
    requires Ascending(h) && x in h
    ensures Page(h, None) != [] && x <= Page(h, None)[0]
  {
  }

  lemma CommitKeepsHeading(base: Option<int>, rows: seq<int>, w: World, page: seq<int>)
    requires Safe(base, w) && rows <= w.history && Heading(rows, w) && page == Page(w.history, Requested(w))
    ensures var t := Commit(w, page, NextCursor(w, page));
            && Heading(rows, t)
            && (LastPage(page, w.cursor.highWater) || Reached(rows, w) ==> Reached(rows, t))
  {
  }

  lemma PageKeepsHeading(base: Option<int>, rows: seq<int>, w: World, e: PageEvent)
    requires Inv(base, w) && rows <= w.history && Heading(rows, w)
    ensures var p := PageStep(w, e);
            && Inv(base, p.0) && rows <= p.0.history && Heading(rows, p.0)
            && (p.1.CaughtUp? || Reached(rows, w) ==> Reached(rows, p.0))
  {
    PageStepKeepsInv(base, w, e);
    var o, page, committed := StepOutcome(base, w, e);
    hide PageStep, Page, Safe, CycleIsScan, CycleProgress, Arrive, LastPage, NextCursor;
    assert w.history <= o.history;
    assert Heading(rows, o) && (Reached(rows, w) ==> Reached(rows, o));
    if committed {
      CommitKeepsHeading(base, rows, o, page);
    } else if rows != [] {
      assert rows[0] in o.history by { assert o.history[0] == rows[0]; }
      AscendingHistory(base, o);
      NewestIsFirst(o.history, rows[0]);
    }
  }

  lemma AscendingHistory(base: Option<int>, w: World)
    requires Inv(base, w)
    ensures Ascending(w.history)
  {
  }

  lemma NextKeepsHeading(base: Option<int>, rows: seq<int>, s: Sys, step: Step)
    requires Inv(base, s.world) && rows <= s.world.history && Heading(rows, s.world)
    ensures var t := Next(s, step);
            && Inv(base, t.world) && rows <= t.world.history && Heading(rows, t.world)
            && s.completions <= t.completions
            && (t.completions > s.completions || Reached(rows, s.world) ==> Reached(rows, t.world))
  {
    hide Inv, Heading, Reached, PageStep;
    if s.phase.InRestPass? && step.RestPage? {
      PageKeepsHeading(base, rows, s.world, step.page);
    }
  }

  lemma {:induction false} RunKeepsHeading(base: Option<int>, rows: seq<int>, s: Sys, steps: seq<Step>)
    requires Inv(base, s.world) && rows <= s.world.history && Heading(rows, s.world)
    ensures var r := Run(s, steps);
            && Inv(base, r.world) && rows <= r.world.history
            && s.completions <= r.completions
            && (r.completions > s.completions || Reached(rows, s.world) ==> Reached(rows, r.world))
    decreases |steps|
  {
    hide Inv, Heading, Reached, Next;
    if steps != [] {
      NextKeepsHeading(base, rows, s, steps[0]);
      RunKeepsHeading(base, rows, Next(s, steps[0]), steps[1..]);
    }
  }

  /** A pass that finds no cycle in progress opens one that covers every fill then in the history:
      when any cycle has completed since, all of them have been handed to ingestion. */
  lemma FreshCycleCoversDrops(base: Option<int>, s: Sys, steps: seq<Step>, fill: int)
    requires Inv(base, s.world) && !s.world.cursor.InProgress()
    requires fill in s.world.history && Newer(fill, base)
    requires Run(s, steps).completions > s.completions
    ensures fill in Run(s, steps).world.offered
  {
    RunKeepsHeading(base, s.world.history, s, steps);
  }

  lemma NewerIsNotOffered(base: Option<int>, w: World, e: PageEvent, fill: int)
    requires Inv(base, w) && w.cursor.InProgress() && fill in w.history && fill > w.cursor.pending.value
    ensures fill in PageStep(w, e).0.offered <==> fill in w.offered
    ensures fill in PageStep(w, e).0.history
  {
    StepOffers(w, e);
    ArrivalsKeepSafe(base, w, e.arrivals);
    PageRowsAreHistory(Arrive(w.history, e.arrivals), Requested(w));
    assert PageStep(w, e).0.history == Arrive(w.history, e.arrivals) by { StepHistory(w, e); }
    hide PageStep, Page, CycleIsScan, CycleProgress, Covered, CycleCovered, Arrive;
    assert Safe(base, w);
  }

  lemma StepHistory(w: World, e: PageEvent)
    ensures PageStep(w, e).0.history == Arrive(w.history, e.arrivals)
  {
  }

  /** A resumed cycle covers nothing newer than its pending mark: whatever the worker and the ticks do,
      up to and including the step that completes it, such a fill is handed over by none of its pages,
      and the mark it commits stays below the fill. */
  lemma {:induction false} ResumedCycleCoverage(base: Option<int>, s: Sys, steps: seq<Step>, fill: int)
    requires Inv(base, s.world) && s.world.cursor.InProgress()
    requires fill in s.world.history && fill > s.world.cursor.pending.value
    requires steps != [] ==> Run(s, steps[..|steps| - 1]).completions == s.completions
    ensures var r := Run(s, steps);
            && (fill in r.world.offered <==> fill in s.world.offered)
            && (if r.completions == s.completions
                then r.world.cursor.InProgress() && r.world.cursor.pending == s.world.cursor.pending
                else r.world.cursor == Cursor(s.world.cursor.pending, None, None))
    decreases |steps|
  {
    hide Inv, PageStep, CatchUp, Frontier;
    if steps != [] {
      var t := Next(s, steps[0]);
      if steps[0].RestPage? {
        NewerIsNotOffered(base, s.world, steps[0].page, fill);
        var _, _ := OnePageOfCycle(base, s.world, [steps[0].page]);
      }
      hide Next;
      var n := |steps| - 1;
      if n > 0 {
        assert steps[..n][0] == steps[0] && steps[..n][1..] == steps[1..][..n - 1];
        RunKeepsHeading(base, [], t, steps[1..][..n - 1]);
        ResumedCycleCoverage(base, t, steps[1..], fill);
      } else {
        assert steps[1..] == [];
      }
    }
  }

  /** The next cycle makes up for it: once two cycles have completed, whatever was in the history, a
      dropped fill included, has been handed to ingestion. */
  lemma {:induction false} CoveredTwoCyclesLater(base: Option<int>, s: Sys, steps: seq<Step>, fill: int)
    requires Inv(base, s.world) && fill in s.world.history && Newer(fill, base)
    requires Run(s, steps).completions >= s.completions + 2
    ensures fill in Run(s, steps).world.offered
    decreases |steps|
  {
    hide Inv;
    var t := Next(s, steps[0]);
    NextKeepsHeading(base, [], s, steps[0]);
    NextGrowsHistory(base, s, steps[0]);
    hide Next;
    if t.completions > s.completions {
      FreshCycleCoversDrops(base, t, steps[1..], fill);
    } else {
      CoveredTwoCyclesLater(base, t, steps[1..], fill);
    }
  }

  lemma NextGrowsHistory(base: Option<int>, s: Sys, step: Step)
    requires Inv(base, s.world)
    ensures var t := Next(s, step);
            && s.world.history <= t.world.history
            && s.completions <= t.completions <= s.completions + 1
            && (t.completions > s.completions ==> !t.world.cursor.InProgress())
  {
    if s.phase.InRestPass? && step.RestPage? {
      var o, page, committed := StepOutcome(base, s.world, step.page);
      if !PageStep(s.world, step.page).1.Raised? {
        StepCaughtUpIffIdle(base, s.world, step.page);
      }
      hide PageStep, Inv;
    }
  }

  // ---------------------------------------------------------------- a drop cleared too early

  /** The first page of a cycle over more than one page of fills. */
  lemma FirstPage(w: World)
    requires Ascending(w.history) && |w.history| >= PAGE_SIZE && w.cursor == Cursor(None, None, None)
    ensures var h, p := w.history, PageStep(w, PageEvent([], NoFault));
            && p.1.More? && p.0.history == h && p.0.offered == w.offered + Rows(Page(h, None))
            && p.0.cursor == Cursor(None, Some(h[|h| - 1]), Some(h[|h| - PAGE_SIZE]))
  {
  }

  lemma FailedRequest(w: World)
    ensures PageStep(w, PageEvent([], FetchRaises)) == (w, Raised)
  {
    assert w.history + [] == w.history;
  }

  /** The page that ends it, with another fill arriving before the request. */
  lemma LastPageWithArrival(w: World, i: nat, fill: int)
    requires Ascending(w.history + [fill]) && i < PAGE_SIZE && i < |w.history|
    requires w.cursor.pending.Some? && w.cursor.nextAfter == Some(w.history[i])
    ensures var p := PageStep(w, PageEvent([fill], NoFault));
            && p.1.CaughtUp? && p.0.history == w.history + [fill]
            && p.0.cursor == Cursor(w.cursor.pending, None, None)
            && p.0.offered == w.offered + Rows(Page(w.history + [fill], w.cursor.nextAfter))
  {
  }

  /** Run further. */
  lemma {:induction false} RunConcat(s: Sys, a: seq<Step>, b: seq<Step>)
    ensures Run(s, a + b) == Run(Run(s, a), b)
    decreases |a|
  {
    hide Next;
    if a == [] {
      assert a + b == b;
    } else {
      assert (a + b)[0] == a[0] && (a + b)[1..] == a[1..] + b;
      RunConcat(Next(s, a[0]), a[1..], b);
    }
  }

  /** A worker whose queue is not yet full fills it up. */
  lemma {:induction false} FillQueue(s: Sys, event: int) returns (steps: seq<Step>)
    requires s.flight.Landed? && 0 < s.capacity && |s.queue| <= s.capacity
    ensures var r := Run(s, steps);
            && |r.queue| == s.capacity && r == s.(queue := r.queue, received := r.received, fates := r.fates)
    decreases s.capacity - |s.queue|
  {
    hide PageStep;
    if |s.queue| == s.capacity {
      steps := [];
    } else {
      var t := Next(Next(s, WorkerReceives(event)), WorkerPuts);
      var rest := FillQueue(t, event);
      steps := [WorkerReceives(event), WorkerPuts] + rest;
      RunConcat(s, [WorkerReceives(event), WorkerPuts], rest);
      assert Run(s, [WorkerReceives(event), WorkerPuts]) == t by {
        Unroll2(s, WorkerReceives(event), WorkerPuts);
      }
    }
  }

  lemma Unroll2(s: Sys, a: Step, b: Step)
    ensures Run(s, [a, b]) == Next(Next(s, a), b)
  {
    hide Next;
    assert [a, b][1..] == [b] && [b][1..] == [];
    assert Run(Next(s, a), [b]) == Run(Next(Next(s, a), b), []);
  }

  lemma Unroll3(s: Sys, a: Step, b: Step, c: Step)
    ensures Run(s, [a, b, c]) == Next(Next(Next(s, a), b), c)
  {
    hide Next;
    assert [a, b, c][1..] == [b, c];
    Unroll2(Next(s, a), b, c);
  }

  /** Two ticks from the start: in the first a failing request leaves a cycle over more than one page
      unfinished, then the queue is full and the event of a new fill is dropped, and the second tick resumes the cycle,
      completes it and clears the drop, caught up and idle, though the fill was never handed over. */
  lemma ClearedBeforeOffered(s: Sys, fill: int) returns (steps: seq<Step>)
    requires Initial(s) && s.capacity > 0 && s.world.offered == {} && s.completions == 0
    requires s.world.cursor == Cursor(None, None, None)
    requires Ascending(s.world.history + [fill]) && PAGE_SIZE <= |s.world.history| < 2 * PAGE_SIZE
    ensures var r := Run(s, steps);
            && r.dropped == 1 && r.reconciled == 1 && r.reported == 0 && r.phase.BetweenTicks?
            && r.completions == 1 && !r.world.cursor.InProgress()
            && fill in r.world.history && fill !in r.world.offered
  {
    hide PageStep, Page;
    var first := [TickBegins(true), RestPage(PageEvent([], NoFault)), RestPage(PageEvent([], FetchRaises)), TickEnds];
    var a := FirstTick(s, fill);
    var flood := FillQueue(a, fill);
    var b := Run(a, flood);
    var c := DropOne(b, fill);
    var d := SecondTick(c, s.world.history, fill);
    steps := first + flood + [WorkerReceives(fill), WorkerPuts, WorkerCountsDrop] + [TickBegins(true), RestPage(PageEvent([fill], NoFault)), TickEnds];
    RunConcat(s, first, flood);
    RunConcat(s, first + flood, [WorkerReceives(fill), WorkerPuts, WorkerCountsDrop]);
    RunConcat(s, first + flood + [WorkerReceives(fill), WorkerPuts, WorkerCountsDrop],
              [TickBegins(true), RestPage(PageEvent([fill], NoFault)), TickEnds]);
  }

  lemma FirstTick(s: Sys, fill: int) returns (a: Sys)
    requires Initial(s) && s.world.offered == {} && s.world.cursor == Cursor(None, None, None)
    requires Ascending(s.world.history + [fill]) && PAGE_SIZE <= |s.world.history|
    ensures a == Run(s, [TickBegins(true), RestPage(PageEvent([], NoFault)), RestPage(PageEvent([], FetchRaises)), TickEnds])
    ensures a.flight.Landed? && a.queue == [] && a.capacity == s.capacity && a.dropped == 0
    ensures a.phase.BetweenTicks? && a.reconciled == 0 && a.completions == s.completions
    ensures var h := s.world.history;
            && a.world.history == h && fill !in a.world.offered
            && a.world.cursor == Cursor(None, Some(h[|h| - 1]), Some(h[|h| - PAGE_SIZE]))
  {
    hide PageStep, Page, Ascending;
    var h := s.world.history;
    assert Ascending(h) && fill !in h by { PrefixAscends(h, fill); }
    FirstPage(s.world);
    PageRowsAreHistory(h, None);
    var page := RestPage(PageEvent([], NoFault));
    RunConcat(s, [TickBegins(true), page], [RestPage(PageEvent([], FetchRaises)), TickEnds]);
    Unroll2(s, TickBegins(true), page);
    var m := Next(Next(s, TickBegins(true)), page);
    FailedRequest(m.world);
    Unroll2(m, RestPage(PageEvent([], FetchRaises)), TickEnds);
    a := Next(Next(m, RestPage(PageEvent([], FetchRaises))), TickEnds);
    assert [TickBegins(true), page] + [RestPage(PageEvent([], FetchRaises)), TickEnds] == [TickBegins(true), page, RestPage(PageEvent([], FetchRaises)), TickEnds];
  }

  lemma PrefixAscends(h: seq<int>, fill: int)
    requires Ascending(h + [fill])
    ensures Ascending(h) && fill !in h
  {
    var g := h + [fill];
    assert forall i :: 0 <= i < |h| ==> h[i] == g[i];
    assert g[|h|] == fill;
  }

  lemma DropOne(b: Sys, fill: int) returns (c: Sys)
    requires b.flight.Landed? && Full(|b.queue|, b.capacity)
    ensures c == Run(b, [WorkerReceives(fill), WorkerPuts, WorkerCountsDrop])
    ensures c == b.(received := c.received, fates := c.fates, dropped := b.dropped + 1)
  {
    hide PageStep;
    Unroll3(b, WorkerReceives(fill), WorkerPuts, WorkerCountsDrop);
    c := Next(Next(Next(b, WorkerReceives(fill)), WorkerPuts), WorkerCountsDrop);
  }

  lemma SecondTick(c: Sys, h: seq<int>, fill: int) returns (d: Sys)
    requires c.phase.BetweenTicks? && c.dropped == 1 && c.world.history == h && fill !in c.world.offered
    requires Ascending(h + [fill]) && PAGE_SIZE <= |h| < 2 * PAGE_SIZE
    requires c.world.cursor == Cursor(None, Some(h[|h| - 1]), Some(h[|h| - PAGE_SIZE]))
    ensures d == Run(c, [TickBegins(true), RestPage(PageEvent([fill], NoFault)), TickEnds])
    ensures d.dropped == 1 && d.reconciled == 1 && d.reported == 0 && d.phase.BetweenTicks?
    ensures d.completions == c.completions + 1 && d.world.cursor == Cursor(Some(h[|h| - 1]), None, None)
    ensures fill in d.world.history && fill !in d.world.offered
  {
    hide PageStep, Page;
    var g := h + [fill];
    LastPageWithArrival(c.world, |h| - PAGE_SIZE, fill);
    PageRowsAreHistory(g, c.world.cursor.nextAfter);
    assert g[|h|] == fill && g[|h| - PAGE_SIZE] == h[|h| - PAGE_SIZE];
    Unroll3(c, TickBegins(true), RestPage(PageEvent([fill], NoFault)), TickEnds);
    d := Next(Next(Next(c, TickBegins(true)), RestPage(PageEvent([fill], NoFault))), TickEnds);
  }
}
