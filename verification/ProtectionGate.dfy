/** Exposure whose stop Maybech took away, or whose trigger it linked, keeps entries closed. */
module ProtectionGate {
  import opened ExitLifecycle
  import opened ExitSafety

  /** Something remains and no active stop covers it. */
  predicate Naked(p: Position) {
    Active(p) && Left(p) > 0.0 && !p.stop.ActiveStop?
  }

  /** A trigger is between taking this row's stop away and closing the gate itself. */
  ghost predicate Underway(w: World, i: int) {
    exists c :: c in w.triggers && (w.triggers[c].Asking? || w.triggers[c].Taken?) && c < |w.claims| && w.claims[c].position == i
  }

  /** A position that must keep the gate closed: exposure without an active stop that a complete
      fill tick has seen, or whose stop Maybech took away or found triggered since. */
  ghost predicate Exposed(w: World, i: int) {
    i in w.positions && Naked(w.positions[i]) && (i in w.known || Meddled(w.positions[i])) && !Underway(w, i)
  }

  ghost predicate Shut(w: World) {
    w.entries ==> forall i :: i in w.positions ==> !Exposed(w, i)
  }

  /** Outside the fill service's tick, unless an operator enabled entries or an exception escaped
      since its last complete tick. */
  ghost predicate GateInv(w: World) {
    !w.inFillTick && !w.enabledSince && !w.aborted ==> Shut(w)
  }

  /** A rewrite that does not expose the position. */
  predicate NoWorse(p: Position, q: Position) {
    (Naked(q) ==> Naked(p)) && (Naked(q) && Meddled(q) ==> Meddled(p))
  }

  /** The step did not open the gate, rewrote at most row i, not for the worse unless a trigger of that
      row is underway now, and no trigger of another row stopped being underway. */
  ghost predicate Keeps(w: World, t: World, i: int) {
    && (t.entries ==> w.entries) && t.known == w.known
    && (t.inFillTick <==> w.inFillTick) && (t.enabledSince <==> w.enabledSince) && (w.aborted ==> t.aborted)
    && (forall j :: j in t.positions && j != i ==> j in w.positions && t.positions[j] == w.positions[j])
    && (forall j :: j != i && Underway(w, j) ==> Underway(t, j))
    && (i in t.positions && !Underway(t, i) ==>
          !Naked(t.positions[i]) || (i in w.positions && NoWorse(w.positions[i], t.positions[i]) && !Underway(w, i)))
  }

  lemma KeepsGate(w: World, t: World, i: int)
    requires GateInv(w) && Keeps(w, t, i)
    ensures GateInv(t)
  {
  }

  /** Closing the gate settles it. */
  lemma ClosedGate(w: World)
    requires !w.entries
    ensures GateInv(w)
  {
  }

  lemma AbortedGate(w: World)
    requires w.aborted || w.inFillTick
    ensures GateInv(w)
  {
  }

  // ---------------------------------------------------------------- close triggers

  /** One row rewritten not for the worse by a step of a trigger that is not underway. */
  lemma QuietStep(w: World, t: World, c: nat)
    requires GateInv(w) && InFlight(w, c) && !w.triggers[c].Asking? && !w.triggers[c].Taken? && t.claims == w.claims
    requires t.triggers == w.triggers - {c} || (c in t.triggers && t.triggers == w.triggers[c := t.triggers[c]])
    requires t.entries == w.entries && t.known == w.known && t.inFillTick == w.inFillTick
    requires t.enabledSince == w.enabledSince && t.aborted == w.aborted
    requires var i := w.claims[c].position;
             && i in t.positions && t.positions == w.positions[i := t.positions[i]]
             && (Underway(t, i) || NoWorse(w.positions[i], t.positions[i]))
    ensures GateInv(t)
  {
  }

  lemma GivenBackIsNoWorse(p: Position, c: nat)
    requires Sized(p)
    ensures NoWorse(p, Released(p, c)) && NoWorse(p, p)
  {
  }

  /** A row rewritten not for the worse by a trigger that then stands elsewhere or is over. */
  lemma QuietRewrite(w: World, c: nat, q: Position, stage: Stage)
    requires GateInv(w) && InFlight(w, c) && !w.triggers[c].Asking? && !w.triggers[c].Taken?
    requires stage.Asking? || NoWorse(w.positions[w.claims[c].position], q)
    ensures GateInv(Stand(Rewrite(w, c, q), c, stage))
    ensures NoWorse(w.positions[w.claims[c].position], q) ==> GateInv(End(Rewrite(w, c, q), c))
  {
  }

  lemma CancelKeepsGate(w: World, c: nat, look: Look)
    requires GateInv(w) && Inv(w) && InFlight(w, c) && w.triggers[c].Begun?
    ensures GateInv(OnCancel(w, c, look))
  {
    var i := w.claims[c].position;
    var p := w.positions[i];
    assert RowOk(i, p, w.claims);
    hide CloseGate, Inv, GateInv, NoWorse, Released, Stand, End, Rewrite;
    GivenBackIsNoWorse(p, c);
    RewriteSame(w, c);
    QuietRewrite(w, c, p, Cleared(false));
    QuietRewrite(w, c, Released(p, c), Begun);
    QuietRewrite(w, c, p.(stop := Canceling), Asking);
    ShutAgain(End(Rewrite(w, c, Released(p, c)), c));
  }

  lemma ShutAgain(w: World)
    ensures GateInv(CloseGate(w))
  {
  }

  lemma AnswerKeepsGate(w: World, c: nat, answer: Answer)
    requires GateInv(w) && InFlight(w, c) && w.triggers[c].Asking?
    ensures GateInv(OnAnswer(w, c, answer))
  {
  }

  lemma SubmitKeepsGate(w: World, c: nat, canceled: bool, lands: bool, orderId: bool)
    requires GateInv(w) && Inv(w) && InFlight(w, c) && w.triggers[c].Cleared?
    ensures GateInv(OnSubmit(w, c, canceled, lands, orderId))
  {
    var i := w.claims[c].position;
    var p := w.positions[i];
    assert RowOk(i, p, w.claims);
    SubmitIsNoWorse(p, c, w.claims[c], canceled, Confirmed(w, c, lands, orderId));
    hide Inv, GateInv, NoWorse, SubmitRow, Underway;
    QuietStep(w, OnSubmit(w, c, canceled, lands, orderId), c);
  }

  lemma SubmitIsNoWorse(p: Position, c: nat, r: ClaimRecord, canceled: bool, confirmed: bool)
    requires Sized(p)
    ensures NoWorse(p, SubmitRow(p, c, r, canceled, confirmed))
  {
  }

  lemma TriggerKeepsGate(w: World, step: Step)
    requires GateInv(w) && Inv(w) && IsTriggerStep(step)
    ensures GateInv(Next(w, step))
  {
    hide GateInv, OnCancel, OnAnswer, OnSubmit;
    if Next(w, step) != w {
      match step
      case CancelStop(c, look) => CancelKeepsGate(w, c, look);
      case StopAnswered(c, answer) => AnswerKeepsGate(w, c, answer);
      case ShutGate(c) => ClosedGate(Next(w, step));
      case Submit(c, lands, orderId) => SubmitKeepsGate(w, c, w.triggers[c].canceled, lands, orderId);
    }
  }

  lemma DeathKeepsGate(w: World, step: Step)
    requires GateInv(w) && Inv(w) && (step.SubmitDies? || step.TriggerDies?)
    ensures GateInv(Next(w, step))
  {
    var c, t := step.trigger, Next(w, step);
    if t != w {
      if w.triggers[c].Asking? || w.triggers[c].Taken? {
        hide GateInv;
        AbortedGate(t);
      } else {
        assert InFlight(w, c);
        RewriteSame(w, c);
        assert NoWorse(w.positions[w.claims[c].position], w.positions[w.claims[c].position]);
        hide Inv, GateInv, NoWorse, Underway;
        QuietStep(w, t, c);
      }
    }
  }

  lemma ClaimKeepsGate(w: World, step: Step)
    requires GateInv(w) && Inv(w) && step.Claim?
    ensures GateInv(Next(w, step))
  {
    var t := Next(w, step);
    if t != w {
      var i := w.views[step.reader].position;
      forall j ensures Underway(w, j) ==> Underway(t, j) {
        ClaimKeepsUnderway(w, t, j);
      }
      assert NoWorse(w.positions[i], t.positions[i]);
      hide Inv, GateInv, NoWorse, Underway;
      KeepsGate(w, t, i);
    }
  }

  lemma ClaimKeepsUnderway(w: World, t: World, j: int)
    requires w.claims <= t.claims && t.triggers == w.triggers[|w.claims| := Begun]
    ensures Underway(w, j) ==> Underway(t, j)
  {
  }

  // ---------------------------------------------------------------- retries, ticks and the rest

  lemma RestoreKeepsGate(w: World, i: int, q: Position, restores: Restoration)
    requires GateInv(w) && i in w.positions
    ensures GateInv(Restore(w, i, q, restores))
  {
  }

  lemma RetryKeepsGate(w: World, i: int, step: Step)
    requires GateInv(w) && i in w.positions && Retryable(w.positions[i]) && step.Retry?
    ensures GateInv(OnRetry(w, i, w.positions[i], step))
  {
    var p := w.positions[i];
    hide GateInv, Restore, Put, Send;
    if p.attempts >= 3 {
      RestoreKeepsGate(w, i, Recovered(p), step.restores);
      LinkKeepsGate(w, i, p.(hasOrder := true, exec := Settled));
    } else {
      var sent := Send(w, i, p.client.value, p.quantity, step.lands);
      SendKeepsGate(w, i, p.client.value, p.quantity, step.lands);
      LinkKeepsGate(sent, i, p.(hasOrder := true, exec := Submitted, attempts := p.attempts + 1));
      LinkKeepsGate(sent, i, p.(attempts := p.attempts + 1));
    }
  }

  lemma SendKeepsGate(w: World, i: int, c: nat, q: real, lands: bool)
    requires GateInv(w) && i in w.positions
    ensures var t := Send(w, i, c, q, lands); GateInv(t) && t.positions == w.positions
  {
  }

  lemma LinkKeepsGate(w: World, i: int, q: Position)
    requires GateInv(w) && i in w.positions
    requires q == w.positions[i].(hasOrder := q.hasOrder, exec := q.exec, attempts := q.attempts)
    ensures GateInv(Put(w, i, q))
  {
  }

  /** Inside a fill tick nothing is promised until it ends. */
  lemma FillKeepsGate(w: World, step: Step)
    requires GateInv(w) && IsFillStep(step)
    ensures GateInv(Next(w, step))
  {
    hide Shut, Rearm, OnReconcile, OnVerify;
    if Next(w, step) != w {
      StaysInTick(w, step);
    }
  }

  lemma StaysInTick(w: World, step: Step)
    requires IsFillStep(step) && w.inFillTick
    ensures Next(w, step).inFillTick || Next(w, step).aborted
  {
  }

  /** The last act of a fill tick: any bare position closes the gate. */
  lemma FillTickEstablishesGate(w: World)
    requires w.inFillTick
    ensures GateInv(Next(w, FillTickEnds))
  {
  }

  lemma PlainKeepsGate(w: World, step: Step)
    requires GateInv(w)
    requires step.OpenPosition? || step.Read? || step.RetryDies? || step.FillTickBegins? || step.FillTickAborts? ||
             step.OperatorEnables? || step.Crash?
    ensures GateInv(Next(w, step))
  {
  }

  lemma NextKeepsGate(w: World, step: Step)
    requires GateInv(w) && Inv(w)
    ensures GateInv(Next(w, step))
  {
    hide GateInv, Inv;
    if IsTriggerStep(step) {
      TriggerKeepsGate(w, step);
    } else if step.SubmitDies? || step.TriggerDies? {
      DeathKeepsGate(w, step);
    } else if step.Claim? {
      ClaimKeepsGate(w, step);
    } else if IsFillStep(step) {
      FillKeepsGate(w, step);
    } else if step.Retry? {
      hide OnRetry;
      if Next(w, step) != w {
        RetryKeepsGate(w, step.position, step);
      }
    } else if step.FillTickEnds? {
      if w.inFillTick {
        FillTickEstablishesGate(w);
      }
    } else {
      PlainKeepsGate(w, step);
    }
  }

  lemma {:induction false} RunKeepsGate(w: World, steps: seq<Step>)
    requires GateInv(w) && Inv(w)
    ensures GateInv(Run(w, steps))
    decreases |steps|
  {
    if steps != [] {
      hide GateInv, Inv, Next;
      NextKeepsGate(w, steps[0]);
      NextKeepsInv(w, steps[0]);
      RunKeepsGate(Next(w, steps[0]), steps[1..]);
    }
  }

  /** At every boundary of every run, however triggers overlap ticks and each other, with no operator
      enable and no escaped exception since the last complete fill tick, a position with something
      remaining and no active stop means entries are off: from the very request that took the stop away
      or the tick that found it triggered, and from the next complete tick on in every case. */
  lemma ExposureKeepsGateShut(steps: seq<Step>, i: int)
    requires var w := Run(START, steps);
             && !w.inFillTick && !w.enabledSince && !w.aborted && Exposed(w, i)
    ensures !Run(START, steps).entries
  {
    StartInv();
    RunKeepsGate(START, steps);
  }

  /** Nothing but an operator opens the gate. */
  lemma {:induction false} GateStaysShut(w: World, steps: seq<Step>)
    requires !w.entries && forall k :: 0 <= k < |steps| ==> !steps[k].OperatorEnables?
    ensures !Run(w, steps).entries
    decreases |steps|
  {
    if steps != [] {
      StepStaysShut(w, steps[0]);
      hide Next;
      GateStaysShut(Next(w, steps[0]), steps[1..]);
    }
  }

  lemma StepStaysShut(w: World, step: Step)
    requires !w.entries && !step.OperatorEnables?
    ensures !Next(w, step).entries
  {
    hide Asks, AnyBare, Left, Effective, Retryable, Claimed, Filled, Terminated, TriggerLinked, Grown;
    hide OnCancel, OnAnswer, OnShut, OnSubmit, OnRetry, OnReconcile, OnVerify, Rearm;
  }

  /** When a fill tick that verified a stop completes with entries on, and no operator enabled them since,
      the exchange had confirmed that stop or a new one was placed: a stop that could neither be confirmed nor
      replaced closes the gate or ends the tick. */
  lemma VerifiedOrShut(steps: seq<Step>, m: nat, n: nat)
    requires m < n < |steps| && steps[m].VerifyStop? && steps[n].FillTickEnds?
    requires forall k :: m <= k <= n ==> Run(START, steps[..k]).inFillTick && !steps[k].OperatorEnables?
    requires var w, i := Run(START, steps[..m]), steps[m].position;
             i in w.positions && w.positions[i].status.Open? && Effective(w.positions[i]) > 0.0
    requires Run(START, steps[..n + 1]).entries
    ensures Vouched(Run(START, steps[..m]).positions[steps[m].position], steps[m].verified, steps[m].restores)
  {
    var w, step := Run(START, steps[..m]), steps[m];
    RunExtends(START, steps, m);
    VouchedOrShut(w, step.position, step.verified, step.restores);
    hide Next, Vouched;
    assert Run(START, steps[..m + 1]).inFillTick;
    if !Next(w, step).entries {
      var rest := steps[m + 1..n + 1];
      RunConcat(START, steps[..m + 1], rest);
      assert steps[..m + 1] + rest == steps[..n + 1];
      assert forall k :: 0 <= k < |rest| ==> rest[k] == steps[m + 1 + k];
      GateStaysShut(Next(w, step), rest);
    }
  }
}
