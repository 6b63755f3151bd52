/**
 What fills make of a position over any run: quantities are conserved, a row closes exactly when nothing
 is left and its order is over, a partly filled close keeps later claims out, and what remains after a
 fill is protected in the same step.
 */
module ExitBooking {
  import opened Options
  import opened ExitLifecycle
  import opened ExitManager
  import opened ExitSafety

  // ---------------------------------------------------------------- conservation

  /** The fill that a step books as bought for row i; nothing if the step does not fit. */
  function Bought(w: World, step: Step, i: int): (q: real) {
    if step.OpenFill? && step.position == i && FillStep(w, i) && Active(w.positions[i]) && step.size > 0.0
    then step.size else 0.0
  }

  /** The fill that a step books as sold. */
  function Sold(w: World, step: Step, i: int): (q: real) {
    if step.ApplyFill? && step.position == i && FillStep(w, i) && 0.0 < step.size <= Left(w.positions[i])
    then step.size else 0.0
  }

  function AllBought(w: World, steps: seq<Step>, i: int): (q: real)
    decreases |steps|
  {
    if steps == [] then 0.0 else Bought(w, steps[0], i) + AllBought(Next(w, steps[0]), steps[1..], i)
  }

  function AllSold(w: World, steps: seq<Step>, i: int): (q: real)
    decreases |steps|
  {
    if steps == [] then 0.0 else Sold(w, steps[0], i) + AllSold(Next(w, steps[0]), steps[1..], i)
  }

  /** What was opened and what remains. */
  predicate Holds(w: World, i: int, size: real, left: real) {
    i in w.positions && w.positions[i].size == size && Left(w.positions[i]) == left
  }

  /** The row as a fill or a terminal order leaves it, but for a stop that is placed again. */
  predicate LeftAs(q: Position, p: Position) {
    q == p || q == p.(stop := ActiveStop)
  }

  lemma RearmLeaves(w: World, i: int, p: Position, restores: Restoration)
    ensures var t := Rearm(w, i, p, restores); t.positions == w.positions[i := t.positions[i]] && LeftAs(t.positions[i], p)
    ensures var t := Rearm(w, i, p, restores); t.views == w.views && t.claims == w.claims
  {
  }

  /** What each step of the fill service makes of the row it names. */
  lemma FillRow(w: World, step: Step, i: int)
    requires IsFillStep(step) && step.position == i && i in w.positions
    ensures i in Next(w, step).positions
    ensures var p, q := w.positions[i], Next(w, step).positions[i];
            match step
            case OpenFill(_, _) => q == if Bought(w, step, i) > 0.0 then Grown(p, step.size) else p
            case ApplyFill(_, _, _, _, _) => if Sold(w, step, i) > 0.0 then LeftAs(q, Filled(p, step.size, step.reduce, step.own)) else q == p
            case TerminalOrder(_, _) => if FillStep(w, i) && p.hasOrder && Active(p) then LeftAs(q, Terminated(p)) else q == p
            case LinkTrigger(_) => q == if FillStep(w, i) && !p.stop.NoStop? then TriggerLinked(p) else p
            case Reconcile(_, _, _, _) => p.hasOrder ==> q == p
            case _ => LeftAs(q, p)
  {
    hide Rearm, Filled, Terminated, TriggerLinked, Grown, Left, Active, Effective, OnReconcile;
    if step.ApplyFill? {
      RearmLeaves(w, i, Filled(w.positions[i], step.size, step.reduce, step.own), step.restores);
    } else if step.TerminalOrder? {
      RearmLeaves(w, i, Terminated(w.positions[i]), step.restores);
    } else if step.Reconcile? {
      ReconcileRow(w, step, i);
    }
  }

  /** A lookup moves no quantity and closes nothing. */
  lemma ReconcileRow(w: World, step: Step, i: int)
    requires step.Reconcile? && step.position == i && i in w.positions
    ensures i in Next(w, step).positions && Handled(w.positions[i], Next(w, step).positions[i])
    ensures w.positions[i].status.Closed? ==> Next(w, step).positions[i].status.Closed?
  {
    var p := w.positions[i];
    hide Rearm;
    RearmLeaves(w, i, p, step.restores);
    RearmLeaves(w, i, Recovered(p), step.restores);
  }

  lemma FillBooks(w: World, step: Step, i: int)
    requires IsFillStep(step) && step.position == i && i in w.positions
    ensures Holds(Next(w, step), i, w.positions[i].size + Bought(w, step, i),
                  Left(w.positions[i]) + Bought(w, step, i) - Sold(w, step, i))
  {
    FillRow(w, step, i);
    if step.Reconcile? { ReconcileRow(w, step, i); }
    hide Next;
  }

  /** An exit known to be submitted is linked to its order. */
  predicate Linked(p: Position) {
    p.exec.Submitted? ==> p.hasOrder
  }

  /** A row moved on without a fill: its quantities are the same, it did not close, and it stayed linked. */
  predicate Handled(p: Position, q: Position) {
    && q.size == p.size && q.remaining == p.remaining && (q.status.Closed? ==> p.status.Closed?)
    && (Linked(p) ==> Linked(q))
  }

  /** At most the row of claim c was rewritten, and handled. */
  ghost predicate HandlesRow(w: World, t: World, c: nat) {
    && InFlight(w, c)
    && var i := w.claims[c].position; i in t.positions && t.positions == w.positions[i := t.positions[i]] && Handled(w.positions[i], t.positions[i])
  }

  lemma RowsAreHandled(p: Position, c: nat, r: ClaimRecord, canceled: bool, confirmed: bool, stop: Stop)
    ensures Handled(p, p) && Handled(p, p.(stop := stop))
    ensures Handled(p, Released(p, c)) && Handled(p, Released(p, c).(stop := stop))
    ensures Handled(p, SubmitRow(p, c, r, canceled, confirmed))
  {
  }

  lemma RewriteHandles(w: World, c: nat, q: Position, stage: Stage)
    requires InFlight(w, c) && Handled(w.positions[w.claims[c].position], q)
    ensures var t := Rewrite(w, c, q);
            && HandlesRow(w, Stand(t, c, stage), c) && HandlesRow(w, End(t, c), c) && HandlesRow(w, CloseGate(End(t, c)), c)
  {
    hide Handled;
  }

  lemma CancelHandles(w: World, c: nat, look: Look)
    requires InFlight(w, c)
    ensures HandlesRow(w, OnCancel(w, c, look), c)
  {
    hide Handled, HandlesRow, Released, Stand, End, Rewrite, CloseGate;
    var p := w.positions[w.claims[c].position];
    RowsAreHandled(p, c, w.claims[c], false, false, Canceling);
    RewriteSame(w, c);
    RewriteHandles(w, c, p, Cleared(false));
    RewriteHandles(w, c, p.(stop := Canceling), Asking);
    RewriteHandles(w, c, Released(p, c), Begun);
  }

  lemma AnswerHandles(w: World, c: nat, answer: Answer)
    requires InFlight(w, c)
    ensures HandlesRow(w, OnAnswer(w, c, answer), c)
  {
    hide Handled, Released;
    var p := w.positions[w.claims[c].position];
    RowsAreHandled(p, c, w.claims[c], false, false, FailedStop);
    RowsAreHandled(p, c, w.claims[c], false, false, ActiveStop);
    RowsAreHandled(p, c, w.claims[c], false, false, Canceled);
  }

  lemma ShutHandles(w: World, c: nat, lost: bool)
    requires InFlight(w, c)
    ensures HandlesRow(w, OnShut(w, c, lost), c)
  {
    hide Handled, Released;
    RowsAreHandled(w.positions[w.claims[c].position], c, w.claims[c], false, false, FailedStop);
  }

  lemma SubmitHandles(w: World, c: nat, canceled: bool, lands: bool, orderId: bool)
    requires InFlight(w, c)
    ensures HandlesRow(w, OnSubmit(w, c, canceled, lands, orderId), c)
  {
    hide Handled, SubmitRow, Confirmed;
    var r := w.claims[c];
    RowsAreHandled(w.positions[r.position], c, r, canceled, Confirmed(w, c, lands, orderId), FailedStop);
  }

  lemma TriggerHandles(w: World, step: Step)
    requires IsTriggerStep(step)
    ensures Next(w, step) == w || HandlesRow(w, Next(w, step), step.trigger)
  {
    var c := step.trigger;
    hide HandlesRow, OnCancel, OnAnswer, OnShut, OnSubmit;
    if InFlight(w, c) {
      match step
      case CancelStop(_, look) => CancelHandles(w, c, look);
      case StopAnswered(_, answer) => AnswerHandles(w, c, answer);
      case ShutGate(_) => if w.triggers[c].Taken? { ShutHandles(w, c, w.triggers[c].lost); }
      case Submit(_, lands, orderId) => if w.triggers[c].Cleared? { SubmitHandles(w, c, w.triggers[c].canceled, lands, orderId); }
    }
  }

  lemma RetryHandles(w: World, i: int, step: Step)
    requires i in w.positions && Retryable(w.positions[i]) && step.Retry?
    ensures var t := OnRetry(w, i, w.positions[i], step); t.positions.Keys == w.positions.Keys && Handled(w.positions[i], t.positions[i])
  {
    var p := w.positions[i];
    hide Restore, Misses;
    if p.attempts >= 3 {
      RetryAsks(w, i, p, step);
    } else {
      RetrySends(w, i, p, step);
    }
    hide OnRetry;
  }

  /** A step that adds or rewrites no row but the one it names. */
  lemma PlainHandles(w: World, step: Step, i: int)
    requires !IsFillStep(step) && !IsTriggerStep(step) && !step.Retry? && !step.Claim? && i in w.positions
    ensures i in Next(w, step).positions && Next(w, step).positions[i] == w.positions[i]
  {
    hide AnyBare, Send;
    if step.SubmitDies? || step.RetryDies? {
      SendKeepsRows(w, step);
    }
  }

  lemma SendKeepsRows(w: World, step: Step)
    requires step.SubmitDies? || step.RetryDies?
    ensures Next(w, step).positions == w.positions
  {
  }

  lemma ClaimHandles(w: World, step: Step, i: int)
    requires step.Claim? && i in w.positions
    ensures i in Next(w, step).positions && Handled(w.positions[i], Next(w, step).positions[i])
  {
    hide Asks, Effective, Left;
  }

  /** Every step but a fill's handles the rows that are there. */
  lemma StepHandles(w: World, step: Step, i: int)
    requires !IsFillStep(step) && i in w.positions
    ensures i in Next(w, step).positions && Handled(w.positions[i], Next(w, step).positions[i])
  {
    assert Handled(w.positions[i], w.positions[i]);
    if IsTriggerStep(step) {
      hide Next, Handled;
      TriggerHandles(w, step);
    } else if step.Retry? {
      if step.position == i {
        RetryIs(w, step);
        hide Next, Handled, OnRetry;
        if Retryable(w.positions[i]) { RetryHandles(w, i, step); }
      } else {
        hide Next, Handled;
        RetryOthers(w, step, i);
      }
    } else if step.Claim? {
      hide Next, Handled;
      ClaimHandles(w, step, i);
    } else {
      hide Next, Handled;
      PlainHandles(w, step, i);
    }
  }

  lemma StepBooks(w: World, step: Step, i: int)
    requires i in w.positions
    ensures Holds(Next(w, step), i, w.positions[i].size + Bought(w, step, i),
                  Left(w.positions[i]) + Bought(w, step, i) - Sold(w, step, i))
  {
    hide Next;
    if IsFillStep(step) {
      if step.position == i {
        FillBooks(w, step, i);
      } else {
        OthersUntouched(w, step, i);
      }
    } else {
      StepHandles(w, step, i);
    }
  }

  lemma {:induction false} RunBooks(w: World, steps: seq<Step>, i: int)
    requires i in w.positions
    ensures Holds(Run(w, steps), i, w.positions[i].size + AllBought(w, steps, i),
                  Left(w.positions[i]) + AllBought(w, steps, i) - AllSold(w, steps, i))
    decreases |steps|
  {
    if steps != [] {
      hide Next, Left, Bought, Sold;
      StepBooks(w, steps[0], i);
      RunBooks(Next(w, steps[0]), steps[1..], i);
    }
  }

  /** Conservation.  Between any two states of any run, what was opened of a position grew by exactly the
      fills booked as bought, what remains by those less the fills booked as sold, and no more was sold
      than there was: claims, releases, retries, recoveries and crashes move no quantity. */
  lemma QuantitiesAreConserved(before: seq<Step>, steps: seq<Step>, i: int)
    requires i in Run(START, before).positions
    ensures var w, t := Run(START, before), Run(START, before + steps);
            && i in t.positions
            && t.positions[i].size == w.positions[i].size + AllBought(w, steps, i)
            && Left(t.positions[i]) == Left(w.positions[i]) + AllBought(w, steps, i) - AllSold(w, steps, i)
            && AllSold(w, steps, i) <= Left(w.positions[i]) + AllBought(w, steps, i)
  {
    hide Run, AllBought, AllSold;
    RunConcat(START, before, steps);
    RunBooks(Run(START, before), steps, i);
    RowsAreSized(before + steps, i);
  }

  lemma RowsAreSized(steps: seq<Step>, i: int)
    requires i in Run(START, steps).positions
    ensures Sized(Run(START, steps).positions[i])
  {
    hide Run, Sized, ClientOk;
    StartInv();
    RunKeepsInv(START, steps);
    assert RowOk(i, Run(START, steps).positions[i], Run(START, steps).claims);
  }

  // ---------------------------------------------------------------- closing

  /** The exchange reports the linked order of an exit as over, with nothing left. */
  predicate EndsEmpty(w: World, step: Step, i: int) {
    step.TerminalOrder? && step.position == i && FillStep(w, i) && w.positions[i].hasOrder
    && Active(w.positions[i]) && !w.positions[i].status.Open? && Left(w.positions[i]) == 0.0
  }

  lemma FillCloses(w: World, step: Step, i: int)
    requires IsFillStep(step) && step.position == i && i in w.positions && w.positions[i].remaining.Some?
    ensures i in Next(w, step).positions
    ensures Active(w.positions[i]) ==>
              (Next(w, step).positions[i].status.Closed? <==>
                 (Sold(w, step, i) > 0.0 && Sold(w, step, i) == Left(w.positions[i])) || EndsEmpty(w, step, i))
    ensures w.positions[i].status.Closed? && Left(w.positions[i]) == 0.0 ==> Next(w, step).positions[i].status.Closed?
  {
    FillRow(w, step, i);
    if step.Reconcile? { ReconcileRow(w, step, i); }
    hide Next;
  }

  /** A closed row is left closed by every step that is no trigger's. */
  lemma ClosedStays(w: World, step: Step, i: int)
    requires !IsFillStep(step) && !IsTriggerStep(step) && i in w.positions && w.positions[i].status.Closed?
    ensures i in Next(w, step).positions && Next(w, step).positions[i].status.Closed?
  {
    if step.Retry? {
      RetryIs(w, step);
      hide Next, OnRetry;
      if step.position != i { RetryOthers(w, step, i); }
    } else if step.Claim? {
      hide Asks, OnClaim;
      ClaimsOpen(w, step, i);
    } else {
      hide Next;
      PlainHandles(w, step, i);
    }
  }

  lemma ClaimsOpen(w: World, step: Step, i: int)
    requires step.Claim? && i in w.positions && !w.positions[i].status.Open?
    ensures i in Next(w, step).positions && Next(w, step).positions[i] == w.positions[i]
  {
    hide Asks, Claimed, Left;
  }

  /** An active row of a run closes in a step if and only if the step books the fill of all that was left,
      or the exchange reports the order of an exit as over when nothing is left; and a closed one becomes
      active again through nothing but a trigger that still had it claimed. */
  lemma ClosesIff(steps: seq<Step>, step: Step, i: int)
    requires i in Run(START, steps).positions
    ensures var w, t := Run(START, steps), Next(Run(START, steps), step);
            && i in t.positions
            && (Active(w.positions[i]) ==>
                  (t.positions[i].status.Closed? <==>
                     (Sold(w, step, i) > 0.0 && Sold(w, step, i) == Left(w.positions[i])) || EndsEmpty(w, step, i)))
            && (w.positions[i].status.Closed? && !t.positions[i].status.Closed? ==> IsTriggerStep(step))
  {
    hide Run, Next;
    var w := Run(START, steps);
    RowsAreSized(steps, i);
    if !IsFillStep(step) {
      StepHandles(w, step, i);
      if w.positions[i].status.Closed? && !IsTriggerStep(step) { ClosedStays(w, step, i); }
    } else if step.position == i {
      FillCloses(w, step, i);
    } else {
      OthersUntouched(w, step, i);
    }
  }

  // ---------------------------------------------------------------- what a fill leaves to be done

  /** After a fill that leaves something, the next claim is granted if and only if it was a reduce and the
      claim fits what its trigger read: a partly filled close keeps every other exit out.  After a fill
      that leaves nothing none is. */
  lemma NextClaimIff(w: World, step: Step, k: nat, reduce: bool, requested: Option<real>)
    requires step.ApplyFill? && Sold(w, step, step.position) > 0.0
    requires k in w.views && w.views[k].position == step.position
    ensures var t := Next(w, step);
            |Next(t, Claim(k, reduce, requested)).claims| > |t.claims| <==>
            step.reduce && Sold(w, step, step.position) < Left(w.positions[step.position]) && Asks(w.views[k].row, reduce, requested)
  {
    FillLeaves(w, step);
    hide Asks, Rearm, Filled, Left;
    ClaimGranted(Next(w, step), k, reduce, requested);
    hide Next;
  }

  lemma ClaimGranted(w: World, k: nat, reduce: bool, requested: Option<real>)
    ensures |Next(w, Claim(k, reduce, requested)).claims| > |w.claims| <==>
            k in w.views && w.views[k].position in w.positions && w.positions[w.views[k].position].status.Open?
            && Asks(w.views[k].row, reduce, requested)
  {
    hide Asks, Claimed;
  }

  lemma FillLeaves(w: World, step: Step)
    requires step.ApplyFill? && Sold(w, step, step.position) > 0.0
    ensures var t := Next(w, step); var i := step.position;
            && t.views == w.views && t.claims == w.claims && i in t.positions
            && (t.positions[i].status.Open? <==> step.reduce && step.size < Left(w.positions[i]))
            && (t.positions[i].status.Closing? <==> !step.reduce && step.size < Left(w.positions[i]))
  {
    var i := step.position;
    FillRow(w, step, i);
    RearmLeaves(w, i, Filled(w.positions[i], step.size, step.reduce, step.own), step.restores);
    hide Rearm;
  }

  /** A fill of the row's own order unlinks it if and only if the order is done: it was a reduce, or
      nothing is left.  A fill of any other order leaves the link alone. */
  lemma UnlinkedIff(w: World, step: Step)
    requires step.ApplyFill? && Sold(w, step, step.position) > 0.0 && w.positions[step.position].hasOrder
    ensures var i := step.position; var p, t := w.positions[i], Next(w, step);
            && i in t.positions
            && (!t.positions[i].hasOrder <==> step.own && (step.reduce || step.size == Left(p)))
            && (!t.positions[i].hasOrder ==> t.positions[i].client.None? && !Retryable(t.positions[i]))
            && (t.positions[i].hasOrder ==> t.positions[i].client == p.client)
  {
    hide Effective;
  }

  ghost predicate AllLinked(w: World) {
    forall i :: i in w.positions ==> Linked(w.positions[i])
  }

  lemma FillLinks(w: World, step: Step, i: int)
    requires IsFillStep(step) && step.position == i && i in w.positions && Linked(w.positions[i])
    ensures i in Next(w, step).positions && Linked(Next(w, step).positions[i])
  {
    FillRow(w, step, i);
    if step.Reconcile? { ReconcileRow(w, step, i); }
    hide Next;
  }

  lemma NewRows(w: World, step: Step, i: int)
    requires i !in w.positions && i in Next(w, step).positions
    ensures Linked(Next(w, step).positions[i])
  {
    hide Linked, Next;
    if IsFillStep(step) {
      if Next(w, step) != w { FillStepTouches(w, step); }
    } else if IsTriggerStep(step) {
      TriggerHandles(w, step);
    } else {
      OtherRows(w, step, i);
    }
  }

  lemma OtherRows(w: World, step: Step, i: int)
    requires !IsFillStep(step) && !IsTriggerStep(step) && i !in w.positions && i in Next(w, step).positions
    ensures Linked(Next(w, step).positions[i])
  {
    hide AnyBare, Asks, Left, Send;
    if step.Retry? {
      RetryIs(w, step);
      hide Next, OnRetry;
      if step.position in w.positions && Retryable(w.positions[step.position]) { RetryHandles(w, step.position, step); }
    } else if step.SubmitDies? || step.RetryDies? {
      SendKeepsRows(w, step);
    }
  }

  lemma NextKeepsLinked(w: World, step: Step)
    requires AllLinked(w)
    ensures AllLinked(Next(w, step))
  {
    hide Next, Linked;
    forall i | i in Next(w, step).positions ensures Linked(Next(w, step).positions[i]) {
      if i !in w.positions {
        NewRows(w, step, i);
      } else if !IsFillStep(step) {
        StepHandles(w, step, i);
        HandledIsLinked(w.positions[i], Next(w, step).positions[i]);
      } else if step.position == i {
        FillLinks(w, step, i);
      } else {
        OthersUntouched(w, step, i);
      }
    }
  }

  lemma HandledIsLinked(p: Position, q: Position)
    requires Handled(p, q) && Linked(p)
    ensures Linked(q)
  {
  }

  /** Over every run an exit recorded as submitted is linked to an exchange order: whatever unlinks it,
      a fill, a terminal order, a stop's trigger or a released claim, also settles it. */
  lemma {:induction false} SubmittedIsLinked(w: World, steps: seq<Step>)
    requires AllLinked(w)
    ensures AllLinked(Run(w, steps))
    decreases |steps|
  {
    if steps != [] {
      hide AllLinked, Next;
      NextKeepsLinked(w, steps[0]);
      SubmittedIsLinked(Next(w, steps[0]), steps[1..]);
    }
  }

  /** A fill or a terminal order that leaves the position open without the stop Maybech canceled or the
      one that fired protects it in the same step, or closes the gate, or leaves the tick by an exception. */
  lemma RearmedOrShut(w: World, step: Step)
    requires step.TerminalOrder? || (step.ApplyFill? && Sold(w, step, step.position) > 0.0)
    requires step.TerminalOrder? ==> FillStep(w, step.position) && w.positions[step.position].hasOrder && Active(w.positions[step.position])
    ensures var i := step.position; var t := Next(w, step);
            i in t.positions && (Rearms(t.positions[i]) ==> !t.inFillTick || !t.entries)
    ensures var i := step.position; var p, q := w.positions[i], Next(w, step).positions[i];
            p.stop.Canceled? && q.status.Open? && Next(w, step).entries && Next(w, step).inFillTick ==> q.stop.ActiveStop?
  {
    hide Effective;
  }

  /** A crash ends every trigger in flight: none of its later steps changes anything. */
  lemma CrashEndsTriggers(w: World, step: Step)
    requires IsTriggerStep(step) || step.Claim? || step.SubmitDies? || step.TriggerDies?
    ensures Next(Next(w, Crash), step) == Next(w, Crash)
  {
    hide OnCancel, OnAnswer, OnShut, OnSubmit, OnClaim, Asks;
  }
}
