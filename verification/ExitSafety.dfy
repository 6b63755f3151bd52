/**
 What every run of exits keeps, however close triggers, retries and fill ticks overlap: one client id
 and one quantity per claim, the exact condition under which a claim stays within what remains, and no
 release of a claim that took its stop away without asking the exchange.
 */
module ExitSafety {
  import opened Options
  import opened ExitLifecycle

  // ---------------------------------------------------------------- the invariant

  /** A quantity that fits what is left, strictly for a reduce. */
  predicate Fits(quantity: real, left: real, reduce: bool) {
    0.0 < quantity <= left && (reduce ==> quantity < left)
  }

  /** What a claim asks for fits what was read unless that was zero, and is all of it for a full close. */
  predicate Asked(r: ClaimRecord) {
    && r.quantity > 0.0 && r.seen >= 0.0 && (r.full ==> !r.reduce)
    && (r.seen != 0.0 ==> Fits(r.quantity, r.seen, r.reduce) && (r.full ==> r.quantity == r.seen))
  }

  /** The order that a claim stands for. */
  predicate Fulfils(s: Submission, claims: seq<ClaimRecord>) {
    s.client < |claims| && s.position == claims[s.client].position && s.quantity == claims[s.client].quantity
  }

  /** What remains is known, between nothing and what was opened, and nothing in a closed row. */
  predicate Sized(p: Position) {
    p.size > 0.0 && p.remaining.Some? && 0.0 <= p.remaining.value <= p.size
    && (p.status.Closed? ==> p.remaining.value == 0.0)
  }

  /** A client id is one of the claims on the row; until an order is linked, the row still carries that
      claim's quantity and nobody has claimed it since. */
  predicate ClientOk(i: int, p: Position, claims: seq<ClaimRecord>) {
    p.client.Some? ==>
      && p.client.value < |claims| && claims[p.client.value].position == i
      && (!p.hasOrder ==> p.quantity == claims[p.client.value].quantity && p.correlation == p.client)
  }

  predicate RowOk(i: int, p: Position, claims: seq<ClaimRecord>) {
    Sized(p) && ClientOk(i, p, claims)
  }

  /** A claim is among those that took a stop away exactly from the exchange's answer on. */
  predicate StageOk(c: nat, stage: Stage, canceledBy: set<nat>) {
    c in canceledBy <==> stage == Taken(false) || stage == Cleared(true)
  }

  ghost predicate TriggersOk(w: World) {
    forall c :: c in w.triggers ==>
      c < |w.claims| && w.claims[c].position in w.positions && StageOk(c, w.triggers[c], w.canceledBy)
  }

  ghost predicate LogOk(w: World) {
    && (forall c :: 0 <= c < |w.claims| ==> Asked(w.claims[c]))
    && (forall s :: s in w.submissions ==> Fulfils(s, w.claims))
    && (forall a, b :: 0 <= a < b < |w.accepted| ==> w.accepted[a] != w.accepted[b])
    && (forall c :: c in w.accepted ==> c < |w.claims|)
    && (forall c :: c in w.canceledBy ==> c < |w.claims|)
  }

  ghost predicate Inv(w: World) {
    && (forall i :: i in w.positions ==> RowOk(i, w.positions[i], w.claims))
    && (forall k :: k in w.views ==> Sized(w.views[k].row))
    && TriggersOk(w) && LogOk(w)
  }

  // ---------------------------------------------------------------- rewrites of one row

  /** A rewrite that leaves the row in order. */
  predicate Sound(i: int, p: Position, q: Position, claims: seq<ClaimRecord>) {
    RowOk(i, p, claims) ==> RowOk(i, q, claims)
  }

  /** At most row i changed, soundly, and no log did. */
  ghost predicate Touches(w: World, t: World, i: int) {
    && i in w.positions && t.positions.Keys == w.positions.Keys
    && Sound(i, w.positions[i], t.positions[i], w.claims)
    && (forall j :: j in w.positions && j != i ==> t.positions[j] == w.positions[j])
    && t.claims == w.claims && t.submissions == w.submissions && t.accepted == w.accepted
    && t.canceledBy == w.canceledBy && t.views == w.views && t.triggers == w.triggers
  }

  lemma TouchKeepsInv(w: World, t: World, i: int)
    requires Inv(w) && Touches(w, t, i)
    ensures Inv(t)
  {
  }

  lemma PutTouches(w: World, i: int, q: Position)
    requires i in w.positions && Sound(i, w.positions[i], q, w.claims)
    ensures Touches(w, Put(w, i, q), i) && Touches(w, CloseGate(Put(w, i, q)), i)
  {
  }

  lemma SameTouches(w: World, i: int)
    requires i in w.positions
    ensures Touches(w, w, i) && Touches(w, CloseGate(w), i)
  {
  }

  lemma RestoreTouches(w: World, i: int, q: Position, restores: Restoration)
    requires i in w.positions && Sound(i, w.positions[i], q, w.claims)
    ensures Touches(w, Restore(w, i, q, restores), i) && Touches(w, Rearm(w, i, q, restores), i)
  {
    var p := w.positions[i];
    assert Sound(i, p, q.(stop := ActiveStop), w.claims);
    hide Sound;
  }

  lemma RowsAreSound(i: int, p: Position, c: nat, claims: seq<ClaimRecord>)
    ensures Sound(i, p, Released(p, c), claims)
    ensures (p.status.Closing? || p.status.Reducing?) && !p.hasOrder ==> Sound(i, p, Recovered(p), claims)
    ensures Active(p) ==> Sound(i, p, Terminated(p), claims)
    ensures Sound(i, p, TriggerLinked(p), claims)
    ensures Sound(i, p, p.(hasOrder := true, exec := Settled), claims)
  {
  }

  lemma FillsAreSound(i: int, p: Position, size: real, reduce: bool, own: bool, claims: seq<ClaimRecord>)
    requires size > 0.0
    ensures Active(p) ==> Sound(i, p, Grown(p, size), claims)
    ensures size <= Left(p) ==> Sound(i, p, Filled(p, size, reduce, own), claims)
  {
  }

  // ---------------------------------------------------------------- close triggers

  lemma ClaimKeepsInv(w: World, step: Step)
    requires Inv(w) && step.Claim?
    ensures Inv(Next(w, step))
  {
    var t := Next(w, step);
    if t != w {
      var s := w.views[step.reader];
      assert t.positions == w.positions[s.position := t.positions[s.position]];
      forall j | j in t.positions ensures RowOk(j, t.positions[j], t.claims) {
        if j != s.position { assert RowOk(j, w.positions[j], w.claims); }
      }
      assert RowOk(s.position, w.positions[s.position], w.claims);
      assert Sized(s.row);
    }
  }

  /** A step of trigger c rewrites its row soundly, logs nothing, and moves or ends the trigger. */
  ghost predicate Moves(w: World, t: World, c: nat) {
    && InFlight(w, c)
    && Touches(w, t.(triggers := w.triggers, canceledBy := w.canceledBy), w.claims[c].position)
    && (t.triggers == w.triggers - {c} || (c in t.triggers && t.triggers == w.triggers[c := t.triggers[c]]))
    && (t.canceledBy == w.canceledBy || t.canceledBy == w.canceledBy + {c})
    && (c in t.triggers ==> StageOk(c, t.triggers[c], t.canceledBy))
  }

  lemma MovesKeepInv(w: World, t: World, c: nat)
    requires Inv(w) && Moves(w, t, c)
    ensures Inv(t)
  {
    var u := t.(triggers := w.triggers, canceledBy := w.canceledBy);
    TouchKeepsInv(w, u, w.claims[c].position);
    hide RowOk, Asked, Fulfils, Touches;
  }

  lemma StandMoves(w: World, c: nat, q: Position, stage: Stage, canceledBy: set<nat>)
    requires InFlight(w, c) && Sound(w.claims[c].position, w.positions[w.claims[c].position], q, w.claims)
    requires canceledBy == w.canceledBy || canceledBy == w.canceledBy + {c}
    requires StageOk(c, stage, canceledBy)
    ensures var t := Stand(Rewrite(w, c, q), c, stage).(canceledBy := canceledBy);
            Moves(w, t, c) && Moves(w, CloseGate(t), c)
  {
    hide Sound;
  }

  lemma EndMoves(w: World, c: nat, q: Position)
    requires InFlight(w, c) && Sound(w.claims[c].position, w.positions[w.claims[c].position], q, w.claims)
    ensures var t := End(Rewrite(w, c, q), c); Moves(w, t, c) && Moves(w, CloseGate(t), c)
  {
    hide Sound;
  }

  lemma RewriteSame(w: World, c: nat)
    requires InFlight(w, c)
    ensures Rewrite(w, c, w.positions[w.claims[c].position]) == w
    ensures var p := w.positions[w.claims[c].position]; Sound(w.claims[c].position, p, p, w.claims)
  {
  }

  lemma StopsAreSound(i: int, p: Position, c: nat, stop: Stop, claims: seq<ClaimRecord>)
    ensures Sound(i, p, p.(stop := stop), claims) && Sound(i, p, Released(p, c).(stop := stop), claims)
  {
  }

  lemma CancelMoves(w: World, c: nat, look: Look)
    requires InFlight(w, c) && w.triggers[c].Begun? && c !in w.canceledBy
    ensures Moves(w, OnCancel(w, c, look), c)
  {
    hide Sound, Released, Moves, Stand, End, Rewrite, CloseGate;
    var i := w.claims[c].position;
    var p := w.positions[i];
    RowsAreSound(i, p, c, w.claims);
    StopsAreSound(i, p, c, Canceling, w.claims);
    RewriteSame(w, c);
    StandMoves(w, c, p, Cleared(false), w.canceledBy);
    StandMoves(w, c, p.(stop := Canceling), Asking, w.canceledBy);
    EndMoves(w, c, Released(p, c));
    StandKeepsMarks(w, c, p, Cleared(false));
    StandKeepsMarks(w, c, p.(stop := Canceling), Asking);
  }

  lemma StandKeepsMarks(w: World, c: nat, q: Position, stage: Stage)
    requires InFlight(w, c)
    ensures Stand(Rewrite(w, c, q), c, stage).(canceledBy := w.canceledBy) == Stand(Rewrite(w, c, q), c, stage)
  {
  }

  lemma AnswerMoves(w: World, c: nat, answer: Answer)
    requires InFlight(w, c) && w.triggers[c].Asking? && c !in w.canceledBy
    ensures Moves(w, OnAnswer(w, c, answer), c)
  {
    hide Sound, Released, Moves, Stand, End, Rewrite;
    var i := w.claims[c].position;
    var p := w.positions[i];
    match answer
    case OutcomeUnknown =>
      StopsAreSound(i, p, c, FailedStop, w.claims);
      StandMoves(w, c, p.(stop := FailedStop), Taken(true), w.canceledBy);
      StandKeepsMarks(w, c, p.(stop := FailedStop), Taken(true));
    case StillPending =>
      StopsAreSound(i, p, c, ActiveStop, w.claims);
      EndMoves(w, c, Released(p, c).(stop := ActiveStop));
    case Gone =>
      StopsAreSound(i, p, c, Canceled, w.claims);
      StandMoves(w, c, p.(stop := Canceled), Taken(false), w.canceledBy + {c});
  }

  lemma ShutMoves(w: World, c: nat)
    requires InFlight(w, c) && w.triggers[c].Taken? && StageOk(c, w.triggers[c], w.canceledBy)
    ensures Moves(w, OnShut(w, c, w.triggers[c].lost), c)
  {
    hide Sound, Released, Moves, Stand, End, Rewrite, CloseGate;
    var i := w.claims[c].position;
    var p := w.positions[i];
    if w.triggers[c].lost {
      RowsAreSound(i, p, c, w.claims);
      EndMoves(w, c, Released(p, c));
    } else {
      RewriteSame(w, c);
      StandMoves(w, c, p, Cleared(true), w.canceledBy);
      StandKeepsMarks(w, c, p, Cleared(true));
    }
  }

  /** An order of claim c goes out for the row, with whatever sound rewrite follows. */
  lemma SendKeepsInv(w: World, i: int, c: nat, q: real, lands: bool)
    requires Inv(w) && Fulfils(Submission(i, c, q), w.claims)
    ensures Inv(Send(w, i, c, q, lands))
  {
  }

  lemma SubmitRowIsSound(w: World, c: nat, canceled: bool, confirmed: bool)
    requires Inv(w) && InFlight(w, c)
    ensures var r := w.claims[c]; var p := w.positions[r.position];
            Sound(r.position, p, SubmitRow(p, c, r, canceled, confirmed), w.claims)
  {
  }

  lemma SubmitKeepsInv(w: World, c: nat, canceled: bool, lands: bool, orderId: bool)
    requires Inv(w) && InFlight(w, c)
    ensures Inv(OnSubmit(w, c, canceled, lands, orderId))
  {
    var r := w.claims[c];
    var confirmed := Confirmed(w, c, lands, orderId);
    var sent := Send(w, r.position, c, r.quantity, lands);
    SendKeepsInv(w, r.position, c, r.quantity, lands);
    SubmitRowIsSound(w, c, canceled, confirmed);
    var q := SubmitRow(w.positions[r.position], c, r, canceled, confirmed);
    hide Inv, Sound, SubmitRow;
    PutTouches(sent, r.position, q);
    TouchKeepsInv(sent, Put(sent, r.position, q), r.position);
    EndKeepsInv(Put(sent, r.position, q), c);
  }

  lemma EndKeepsInv(w: World, c: nat)
    requires Inv(w)
    ensures Inv(End(w, c))
  {
  }

  lemma DeathKeepsInv(w: World, step: Step)
    requires Inv(w) && (step.SubmitDies? || step.TriggerDies?)
    ensures Inv(Next(w, step))
  {
    hide RowOk, Asked;
    var c := step.trigger;
    if step.SubmitDies? && InFlight(w, c) {
      SendKeepsInv(w, w.claims[c].position, c, w.claims[c].quantity, step.lands);
      EndKeepsInv(Send(w, w.claims[c].position, c, w.claims[c].quantity, step.lands), c);
    }
  }

  predicate IsTriggerStep(step: Step) {
    step.CancelStop? || step.StopAnswered? || step.ShutGate? || step.Submit?
  }

  lemma TriggerStepKeepsInv(w: World, step: Step)
    requires Inv(w) && IsTriggerStep(step)
    ensures Inv(Next(w, step))
  {
    var c := step.trigger;
    if Next(w, step) != w {
      assert StageOk(c, w.triggers[c], w.canceledBy);
      hide Inv, OnCancel, OnAnswer, OnShut, OnSubmit, Moves;
      if step.CancelStop? {
        CancelMoves(w, c, step.look);
        MovesKeepInv(w, Next(w, step), c);
      } else if step.StopAnswered? {
        AnswerMoves(w, c, step.answer);
        MovesKeepInv(w, Next(w, step), c);
      } else if step.ShutGate? {
        ShutMoves(w, c);
        MovesKeepInv(w, Next(w, step), c);
      } else {
        SubmitKeepsInv(w, c, w.triggers[c].canceled, step.lands, step.orderId);
      }
    }
  }

  // ---------------------------------------------------------------- retries and fill ticks

  lemma ResendKeepsInv(w: World, i: int, lands: bool, q: Position)
    requires Inv(w) && i in w.positions && Retryable(w.positions[i])
    requires q == w.positions[i] || q == w.positions[i].(attempts := q.attempts) ||
             q == w.positions[i].(hasOrder := true, exec := Submitted, attempts := q.attempts)
    ensures var p := w.positions[i]; var sent := Send(w, i, p.client.value, p.quantity, lands);
            Inv(sent) && Inv(Put(sent, i, q))
  {
    var p := w.positions[i];
    assert RowOk(i, p, w.claims) && Sound(i, p, q, w.claims);
    hide Inv, Sound;
    SendKeepsInv(w, i, p.client.value, p.quantity, lands);
    var sent := Send(w, i, p.client.value, p.quantity, lands);
    PutTouches(sent, i, q);
    TouchKeepsInv(sent, Put(sent, i, q), i);
  }

  lemma RetryKeepsInv(w: World, step: Step)
    requires Inv(w) && (step.Retry? || step.RetryDies?)
    ensures Inv(Next(w, step))
  {
    hide Inv, Send, Put, Touches;
    var i := step.position;
    if Next(w, step) != w {
      var p := w.positions[i];
      if step.RetryDies? || p.attempts < 3 {
        ResendKeepsInv(w, i, step.lands, p.(hasOrder := true, exec := Submitted, attempts := p.attempts + 1));
        ResendKeepsInv(w, i, step.lands, p.(attempts := p.attempts + 1));
      } else {
        GiveUpTouches(w, i, step);
        TouchKeepsInv(w, OnRetry(w, i, p, step), i);
      }
    }
  }

  lemma GiveUpTouches(w: World, i: int, step: Step)
    requires i in w.positions && Retryable(w.positions[i]) && step.Retry? && w.positions[i].attempts >= 3
    ensures Touches(w, OnRetry(w, i, w.positions[i], step), i)
  {
    var p := w.positions[i];
    RowsAreSound(i, p, 0, w.claims);
    hide Touches, Restore, Sound, Recovered;
    RestoreTouches(w, i, Recovered(p), step.restores);
    SameTouches(w, i);
    PutTouches(w, i, p.(hasOrder := true, exec := Settled));
  }

  predicate IsFillStep(step: Step) {
    step.Reconcile? || step.TerminalOrder? || step.OpenFill? || step.ApplyFill? || step.LinkTrigger? || step.VerifyStop?
  }

  lemma ReconcileTouches(w: World, i: int, step: Step)
    requires i in w.positions && step.Reconcile? && !w.positions[i].hasOrder
    ensures Touches(w, OnReconcile(w, i, w.positions[i], step), i)
  {
    var p := w.positions[i];
    RowsAreSound(i, p, 0, w.claims);
    assert Sound(i, p, p, w.claims);
    hide Touches, Rearm, Sound, Recovered;
    if p.status.Closing? || p.status.Reducing? {
      RestoreTouches(w, i, Recovered(p), step.restores);
    }
    RestoreTouches(w, i, p, step.restores);
    SameTouches(w, i);
    PutTouches(w, i, p.(hasOrder := true, exec := Settled));
  }

  lemma VerifyTouches(w: World, i: int, verified: bool, restores: Restoration)
    requires i in w.positions
    ensures Touches(w, OnVerify(w, i, w.positions[i], verified, restores), i)
  {
    assert Sound(i, w.positions[i], w.positions[i], w.claims);
    hide Touches, Restore, Sound;
    SameTouches(w, i);
    RestoreTouches(w, i, w.positions[i], restores);
  }

  /** A fill step rewrites its own row and touches no trigger. */
  lemma FillStepTouches(w: World, step: Step)
    requires IsFillStep(step) && Next(w, step) != w
    ensures step.position in w.positions && Touches(w, Next(w, step), step.position)
  {
    var i := step.position;
    var p := w.positions[i];
    RowsAreSound(i, p, 0, w.claims);
    hide Touches, Rearm, OnReconcile, OnVerify, Sound, Filled, Terminated, TriggerLinked, Grown, Effective;
    if step.Reconcile? {
      ReconcileTouches(w, i, step);
    } else if step.TerminalOrder? {
      RestoreTouches(w, i, Terminated(p), step.restores);
    } else if step.OpenFill? {
      FillsAreSound(i, p, step.size, false, false, w.claims);
      PutTouches(w, i, Grown(p, step.size));
    } else if step.ApplyFill? {
      FillsAreSound(i, p, step.size, step.reduce, step.own, w.claims);
      RestoreTouches(w, i, Filled(p, step.size, step.reduce, step.own), step.restores);
    } else if step.LinkTrigger? {
      PutTouches(w, i, TriggerLinked(p));
    } else {
      VerifyTouches(w, i, step.verified, step.restores);
    }
  }

  lemma PlainStepKeepsInv(w: World, step: Step)
    requires Inv(w)
    requires step.OpenPosition? || step.Read? || step.FillTickBegins? || step.FillTickEnds? || step.FillTickAborts? ||
             step.OperatorEnables? || step.Crash?
    ensures Inv(Next(w, step))
  {
    hide Inv;
    if step.OpenPosition? {
      OpenKeepsInv(w, step);
    } else if step.Read? {
      ReadKeepsInv(w, step);
    } else {
      hide AnyBare;
      FlagsKeepInv(w, Next(w, step));
    }
  }

  /** Flags are not part of it, and a crash only forgets what triggers hold. */
  lemma FlagsKeepInv(w: World, t: World)
    requires Inv(w) && t.positions == w.positions && t.claims == w.claims && t.submissions == w.submissions
    requires t.accepted == w.accepted && t.canceledBy == w.canceledBy
    requires (t.views == w.views && t.triggers == w.triggers) || (t.views == map[] && t.triggers == map[])
    ensures Inv(t)
  {
    hide RowOk, Asked, Fulfils, Sized, StageOk;
  }

  lemma ReadKeepsInv(w: World, step: Step)
    requires Inv(w) && step.Read?
    ensures Inv(Next(w, step))
  {
  }

  lemma OpenKeepsInv(w: World, step: Step)
    requires Inv(w) && step.OpenPosition?
    ensures Inv(Next(w, step))
  {
  }

  lemma NextKeepsInv(w: World, step: Step)
    requires Inv(w)
    ensures Inv(Next(w, step))
  {
    hide Inv, Next, Touches;
    if step.Claim? {
      ClaimKeepsInv(w, step);
    } else if IsTriggerStep(step) {
      TriggerStepKeepsInv(w, step);
    } else if step.SubmitDies? || step.TriggerDies? {
      DeathKeepsInv(w, step);
    } else if step.Retry? || step.RetryDies? {
      RetryKeepsInv(w, step);
    } else if IsFillStep(step) {
      if Next(w, step) != w {
        FillStepTouches(w, step);
        TouchKeepsInv(w, Next(w, step), step.position);
      }
    } else {
      PlainStepKeepsInv(w, step);
    }
  }

  lemma StartInv()
    ensures Inv(START)
  {
  }

  lemma {:induction false} RunKeepsInv(w: World, steps: seq<Step>)
    requires Inv(w)
    ensures Inv(Run(w, steps))
    decreases |steps|
  {
    if steps != [] {
      hide Inv, Next;
      NextKeepsInv(w, steps[0]);
      RunKeepsInv(Next(w, steps[0]), steps[1..]);
    }
  }

  // ---------------------------------------------------------------- one claim, one intent

  /** Over any run, with any number of triggers in flight and deaths between an order's acceptance and
      the write that records it: every order that goes out, first or retried, is the one its claim asked
      for, the same position and the same positive quantity each time, and the exchange takes at most
      one order per claim. */
  lemma OneIntentPerClaim(steps: seq<Step>)
    ensures var w := Run(START, steps);
            && (forall s :: s in w.submissions ==> Fulfils(s, w.claims) && s.quantity > 0.0)
            && (forall s, t :: s in w.submissions && t in w.submissions && s.client == t.client ==> s == t)
            && (forall a, b :: 0 <= a < b < |w.accepted| ==> w.accepted[a] != w.accepted[b])
  {
    StartInv();
    RunKeepsInv(START, steps);
  }

  /** Every claim of every run asks for a positive quantity.  It fits what the trigger had read, strictly
      for a reduce, if and only if that was not zero.  So when the row still held what was read, it fits
      what remains if and only if something remains; and a full close fits if and only if the row lost
      nothing since it was read. */
  lemma ClaimFitsIff(steps: seq<Step>, c: nat)
    requires c < |Run(START, steps).claims|
    ensures var r := Run(START, steps).claims[c];
            && r.quantity > 0.0
            && (Fits(r.quantity, r.seen, r.reduce) <==> r.seen != 0.0)
            && (r.remaining == r.seen ==> (Fits(r.quantity, r.remaining, r.reduce) <==> r.remaining != 0.0))
            && (r.full && r.seen != 0.0 ==> (Fits(r.quantity, r.remaining, r.reduce) <==> r.seen <= r.remaining))
  {
    StartInv();
    RunKeepsInv(START, steps);
    assert Asked(Run(START, steps).claims[c]);
  }

  // ---------------------------------------------------------------- releasing a claim

  /** The steps that ask the exchange and are told that the order is not there. */
  predicate AsksAndMisses(p: Position, i: int, step: Step) {
    || (step.Retry? && step.position == i && p.attempts >= 3 &&
        (step.lookup.NoClient? || (step.lookup.Found? && step.lookup.count != 1)))
    || (step.Reconcile? && step.position == i && step.lookup.Found? && step.lookup.count == 0 && step.pastStaleAge)
  }

  /** The row as a trigger's step leaves it. */
  ghost predicate TriggerRow(w: World, t: World, c: nat, releases: bool) {
    && InFlight(w, c)
    && var i := w.claims[c].position;
       && i in t.positions && t.positions == w.positions[i := t.positions[i]]
       && (t.positions[i].client == w.positions[i].client ||
           (releases && w.positions[i].correlation == Some(c)))
  }

  lemma CancelRow(w: World, c: nat, look: Look)
    requires InFlight(w, c)
    ensures TriggerRow(w, OnCancel(w, c, look), c, true)
  {
    hide Released, Stand, End, Rewrite, CloseGate, TriggerRow;
    var p := w.positions[w.claims[c].position];
    RewriteSame(w, c);
    PutsRow(w, c, p, Cleared(false), true);
    PutsRow(w, c, p.(stop := Canceling), Asking, true);
    ReleasedClient(p, c);
    PutsRow(w, c, Released(p, c), Begun, true);
  }

  lemma ReleasedClient(p: Position, c: nat)
    ensures Released(p, c).client == p.client || p.correlation == Some(c)
  {
  }

  lemma PutsRow(w: World, c: nat, q: Position, stage: Stage, releases: bool)
    requires InFlight(w, c)
    requires var p := w.positions[w.claims[c].position]; q.client == p.client || (releases && p.correlation == Some(c))
    ensures var t := Rewrite(w, c, q);
            && TriggerRow(w, Stand(t, c, stage), c, releases) && TriggerRow(w, End(t, c), c, releases)
            && TriggerRow(w, CloseGate(Stand(t, c, stage)), c, releases) && TriggerRow(w, CloseGate(End(t, c)), c, releases)
  {
  }

  lemma AnswerRow(w: World, c: nat, answer: Answer)
    requires InFlight(w, c)
    ensures TriggerRow(w, OnAnswer(w, c, answer), c, answer.StillPending?)
  {
  }

  lemma ShutRow(w: World, c: nat, lost: bool)
    requires InFlight(w, c)
    ensures TriggerRow(w, OnShut(w, c, lost), c, lost)
  {
  }

  lemma SubmitRows(w: World, c: nat, canceled: bool, lands: bool, orderId: bool)
    requires InFlight(w, c)
    ensures TriggerRow(w, OnSubmit(w, c, canceled, lands, orderId), c, !canceled)
  {
  }

  /** A trigger takes the client id from its row only by giving its own claim back, which it does only
      when it did not take the stop away. */
  lemma TriggerReleases(w: World, step: Step)
    requires Inv(w) && IsTriggerStep(step) && Next(w, step) != w
    ensures TriggerRow(w, Next(w, step), step.trigger, step.trigger !in w.canceledBy)
  {
    var c := step.trigger;
    assert StageOk(c, w.triggers[c], w.canceledBy);
    hide Inv, OnCancel, OnAnswer, OnShut, OnSubmit;
    match step
    case CancelStop(_, look) => CancelRow(w, c, look);
    case StopAnswered(_, answer) => AnswerRow(w, c, answer);
    case ShutGate(_) => ShutRow(w, c, w.triggers[c].lost);
    case Submit(_, lands, orderId) => SubmitRows(w, c, w.triggers[c].canceled, lands, orderId);
  }

  lemma RetryReleases(w: World, i: int, step: Step)
    requires i in w.positions && Retryable(w.positions[i]) && step.Retry? && step.position == i
    requires OnRetry(w, i, w.positions[i], step).positions[i].client.None?
    ensures AsksAndMisses(w.positions[i], i, step)
  {
  }

  lemma ReconcileReleases(w: World, i: int, step: Step)
    requires i in w.positions && w.positions[i].client.Some? && step.Reconcile? && step.position == i
    requires OnReconcile(w, i, w.positions[i], step).positions[i].client.None?
    ensures AsksAndMisses(w.positions[i], i, step)
  {
  }

  /** What the fill service does to an unlinked row that is not found missing. */
  lemma FillKeepsClaim(w: World, i: int, step: Step)
    requires IsFillStep(step) && !step.Reconcile? && step.position == i && i in w.positions && !w.positions[i].hasOrder
    ensures i in Next(w, step).positions
    ensures var p, q := w.positions[i], Next(w, step).positions[i]; q.client == p.client || q.status.Closing?
  {
    hide Effective, Rearm, Restore, Left;
  }

  lemma RetryOthers(w: World, step: Step, i: int)
    requires i in w.positions && step.Retry? && step.position != i
    ensures i in Next(w, step).positions && Next(w, step).positions[i] == w.positions[i]
  {
  }

  lemma OthersUntouched(w: World, step: Step, i: int)
    requires i in w.positions && (IsFillStep(step) || step.Retry?) && step.position != i
    ensures i in Next(w, step).positions && Next(w, step).positions[i] == w.positions[i]
  {
    if step.Retry? {
      RetryOthers(w, step, i);
    } else if Next(w, step) != w {
      FillStepTouches(w, step);
      hide Next;
    }
  }

  /** A row whose claim took the stop away and that no order is linked to. */
  predicate Owed(w: World, i: int) {
    i in w.positions && w.positions[i].client.Some? && w.positions[i].client.value in w.canceledBy && !w.positions[i].hasOrder
  }

  lemma TriggerKeepsOwed(w: World, step: Step, i: int)
    requires Inv(w) && Owed(w, i) && IsTriggerStep(step)
    ensures i in Next(w, step).positions && Next(w, step).positions[i].client == w.positions[i].client
  {
    if Next(w, step) != w {
      TriggerReleases(w, step);
      assert RowOk(i, w.positions[i], w.claims);
      hide Next, Inv;
    }
  }

  /** Once a claim has taken its stop away, its unlinked row is opened again only by a lookup that did
      not find exactly one order, never because a submission failed or a lookup raised, and by no
      other trigger. */
  lemma ReleasedOnlyAfterLookup(w: World, step: Step, i: int)
    requires Inv(w) && Owed(w, i)
    requires var q := Next(w, step).positions; i in q && q[i].status.Open? && q[i].client.None?
    ensures AsksAndMisses(w.positions[i], i, step)
  {
    hide Inv, AsksAndMisses, OnRetry, OnReconcile, OnCancel, OnAnswer, OnShut, OnSubmit, Rearm, OnVerify, Filled, Asks;
    if IsTriggerStep(step) {
      TriggerKeepsOwed(w, step, i);
    } else if IsFillStep(step) || step.Retry? {
      if step.position != i {
        OthersUntouched(w, step, i);
      } else if step.Retry? {
        RetryReleases(w, i, step);
      } else if step.Reconcile? {
        ReconcileReleases(w, i, step);
      } else {
        FillKeepsClaim(w, i, step);
      }
    }
  }

  /** The same over whole runs: in every state any run can reach. */
  lemma ReleaseNeedsLookup(steps: seq<Step>, step: Step, i: int)
    requires Owed(Run(START, steps), i)
    requires var q := Next(Run(START, steps), step).positions; i in q && q[i].status.Open? && q[i].client.None?
    ensures AsksAndMisses(Run(START, steps).positions[i], i, step)
  {
    hide Inv, Next, AsksAndMisses;
    StartInv();
    RunKeepsInv(START, steps);
    ReleasedOnlyAfterLookup(Run(START, steps), step, i);
  }

  /** A submission that is not confirmed gives an unlinked claim back at once exactly when that claim
      did not take a stop away itself, even if an earlier claim had. */
  lemma SubmitReleasesIff(w: World, c: nat, lands: bool, orderId: bool)
    requires Inv(w) && InFlight(w, c) && w.triggers[c].Cleared? && !Confirmed(w, c, lands, orderId)
    requires var p := w.positions[w.claims[c].position]; p.client == Some(c) && !p.hasOrder
    ensures var i := w.claims[c].position;
            i in Next(w, Submit(c, lands, orderId)).positions &&
            (Next(w, Submit(c, lands, orderId)).positions[i].client.None? <==> c !in w.canceledBy)
  {
  }
}
