/**
 The life of an exit: claim the position, cancel its protective stop, submit a reduce-only order,
 and, when acceptance is unknown, retry with the same client id, look the order up, and only then
 release the claim and restore the stop.  Close triggers of the manager's loop and of operators'
 request threads run at the same time, each from the row it read before, and interleave write by
 write with each other, with the retry loop and with the fill service's ticks.  An exception may
 leave any of them between two writes, and a crash, which restarts the process with entries off, may
 fall anywhere.
 */
module ExitLifecycle {
  import opened Options

  datatype Status = Open | Reducing | Closing | Closed

  /** The persisted protection record. */
  datatype Stop = NoStop | ActiveStop | Canceling | Canceled | FailedStop | Triggered | Exhausted

  datatype Exec = NoExec | Submitting | Unknown | Submitted | Settled

  /**
   One position row.  `size` is the opened quantity, `client` and `hasOrder` stand for its client and
   exchange order ids.  The rest is metadata: the claim that wrote it last, the quantity that came with
   it, and whether the row had an exchange order when that claim was asked for.
   */
  datatype Position = Position(
    status: Status,
    size: real,
    remaining: Option<real>,
    client: Option<nat>,
    hasOrder: bool,
    correlation: Option<nat>,
    previousOrder: bool,
    exec: Exec,
    attempts: nat,
    quantity: real,
    stop: Stop)

  /** A row as a close trigger read it. */
  datatype Snapshot = Snapshot(position: int, row: Position)

  /**
   What a trigger asked for when it claimed the row; its index in the log is the client id.  `seen` is
   what remained in the row it had read, `remaining` what remained when the claim was granted, and
   `full` says that no quantity was requested.
   */
  datatype ClaimRecord = ClaimRecord(position: int, seen: real, remaining: real, reduce: bool, full: bool, quantity: real)

  /** One call that submits an exit order. */
  datatype Submission = Submission(position: int, client: nat, quantity: real)

  /** Where a trigger stands after its claim: before the cancel, waiting for the exchange's answer,
      with the stop gone or its state lost and the gate not yet closed, or ready to submit. */
  datatype Stage = Begun | Asking | Taken(lost: bool) | Cleared(canceled: bool)

  /**
   `entries` is the process entry flag, `claims` the claims granted so far, `accepted` the client ids
   of exit orders the exchange took (it rejects a client id it has seen), `canceledBy` the claims that
   took a stop away themselves, `views` and `triggers` what close triggers in flight hold.
   `enabledSince` and `aborted` record an operator enable and an uncaught exception since the last
   complete fill tick or restart, `known` the positions present at the last complete fill tick.
   */
  datatype World = World(
    positions: map<int, Position>,
    entries: bool,
    claims: seq<ClaimRecord>,
    submissions: seq<Submission>,
    accepted: seq<nat>,
    canceledBy: set<nat>,
    views: map<nat, Snapshot>,
    triggers: map<nat, Stage>,
    inFillTick: bool,
    enabledSince: bool,
    aborted: bool,
    known: set<int>)

  /** What inspecting an active stop before its cancellation finds. */
  datatype Look = NoService | NotVerified | Verified

  /** What becomes of the cancellation of an active stop. */
  datatype Answer = OutcomeUnknown | StillPending | Gone

  /** How restoring a stop ends: an active stop, a refusal that is handled, or an exception that
      escapes after the row was written. */
  datatype Restoration = Protects | Refuses | Dies

  datatype Lookup = NoClient | LookupRaises | Found(count: nat, hasId: bool)

  datatype Step =
    | OpenPosition(position: int, size: real, protected: bool)
    | Read(reader: nat, position: int)
    | Claim(reader: nat, reduce: bool, requested: Option<real>)
    | CancelStop(trigger: nat, look: Look)
    | StopAnswered(trigger: nat, answer: Answer)
    | ShutGate(trigger: nat)
    | Submit(trigger: nat, lands: bool, orderId: bool)
    | SubmitDies(trigger: nat, lands: bool)
    | TriggerDies(trigger: nat)
    | Retry(position: int, lands: bool, orderId: bool, lookup: Lookup, restores: Restoration)
    | RetryDies(position: int, lands: bool)
    | FillTickBegins
    | Reconcile(position: int, lookup: Lookup, pastStaleAge: bool, restores: Restoration)
    | TerminalOrder(position: int, restores: Restoration)
    | OpenFill(position: int, size: real)
    | ApplyFill(position: int, size: real, reduce: bool, own: bool, restores: Restoration)
    | LinkTrigger(position: int)
    | VerifyStop(position: int, verified: bool, restores: Restoration)
    | FillTickEnds
    | FillTickAborts
    | OperatorEnables
    | Crash

  // ---------------------------------------------------------------- one position

  /** What remains. */
  function Left(p: Position): (q: real) {
    p.remaining.GetOr(p.size)
  }

  /** The quantity the daemon works with: a zero remainder falls back to the opened quantity. */
  function Effective(p: Position): (q: real) {
    if p.remaining.Some? && p.remaining.value != 0.0 then p.remaining.value else p.size
  }

  predicate Active(p: Position) {
    !p.status.Closed?
  }

  /** Exposure that no active stop covers, as the daemon counts it. */
  predicate Bare(p: Position) {
    Active(p) && Effective(p) > 0.0 && !p.stop.ActiveStop?
  }

  /** Maybech took the stop away or linked its trigger. */
  predicate Meddled(p: Position) {
    p.stop.Canceling? || p.stop.Canceled? || p.stop.FailedStop? || p.stop.Triggered?
  }

  /** The quantity check of a trigger, on the row it read. */
  predicate Asks(seen: Position, reduce: bool, requested: Option<real>) {
    var q := requested.GetOr(Effective(seen));
    0.0 < q <= Effective(seen) && (reduce ==> q < Effective(seen))
  }

  function Claimed(p: Position, seen: Position, c: nat, reduce: bool, requested: Option<real>): (r: Position) {
    p.(status := if reduce then Reducing else Closing, client := Some(c), hasOrder := false,
       correlation := Some(c), previousOrder := seen.hasOrder, exec := Submitting,
       quantity := requested.GetOr(Effective(seen)))
  }

  /** Give a claim back: the row is open again and carries no client id, whatever it was meanwhile,
      provided no later claim wrote it. */
  function Released(p: Position, c: nat): (r: Position) {
    if p.correlation == Some(c)
    then p.(status := Open, client := None, hasOrder := p.previousOrder, exec := Settled) else p
  }

  /** Recover an intent whose order was not found. */
  function Recovered(p: Position): (r: Position) {
    p.(status := Open, client := None, exec := Settled)
  }

  /** An exit whose acceptance is unknown and that no exchange order is linked to. */
  predicate Retryable(p: Position) {
    (p.status.Closing? || p.status.Reducing?) && !p.hasOrder && p.exec.Unknown? && p.client.Some? && p.quantity > 0.0
  }

  // ---------------------------------------------------------------- the world

  function Put(w: World, i: int, p: Position): (r: World) {
    w.(positions := w.positions[i := p])
  }

  function CloseGate(w: World): (r: World) {
    w.(entries := false, enabledSince := false)
  }

  function Restored(p: Position, restores: Restoration): (q: Position) {
    if restores.Protects? then p.(stop := ActiveStop) else p
  }

  /** Protect again: an active stop, or the gate closed, or the tick left by an exception. */
  function Restore(w: World, i: int, p: Position, restores: Restoration): (r: World)
    ensures r.positions == w.positions[i := Restored(p, restores)]
    ensures (r.inFillTick == w.inFillTick || r.aborted) && (r.entries ==> w.entries)
  {
    var t := Put(w, i, Restored(p, restores));
    match restores
    case Protects => t
    case Refuses => CloseGate(t)
    case Dies => t.(inFillTick := false, aborted := true)
  }

  /** The fill service rearms an open position whose stop was canceled or triggered. */
  predicate Rearms(p: Position) {
    p.status.Open? && (p.stop.Canceled? || p.stop.Triggered?)
  }

  function Rearm(w: World, i: int, p: Position, restores: Restoration): (r: World)
    ensures r.positions == w.positions[i := if Rearms(p) then Restored(p, restores) else p]
    ensures (r.inFillTick == w.inFillTick || r.aborted) && (r.entries ==> w.entries)
  {
    if Rearms(p) then Restore(w, i, p, restores) else Put(w, i, p)
  }

  /** Send one exit order; the exchange takes a client id at most once. */
  function Send(w: World, i: int, c: nat, q: real, lands: bool): (r: World) {
    w.(submissions := w.submissions + [Submission(i, c, q)],
       accepted := if lands && c !in w.accepted then w.accepted + [c] else w.accepted)
  }

  /** An order id comes back only for an order that was just taken. */
  predicate Confirmed(w: World, c: nat, lands: bool, orderId: bool) {
    orderId && lands && c !in w.accepted
  }

  // ---------------------------------------------------------------- close triggers

  /** A trigger in flight whose row exists. */
  predicate InFlight(w: World, c: nat) {
    c in w.triggers && c < |w.claims| && w.claims[c].position in w.positions
  }

  function Stand(w: World, c: nat, stage: Stage): (r: World) {
    w.(triggers := w.triggers[c := stage])
  }

  function End(w: World, c: nat): (r: World) {
    w.(triggers := w.triggers - {c})
  }

  /** The row a trigger works on, rewritten; the trigger itself moves on or is over. */
  function Rewrite(w: World, c: nat, p: Position): (r: World)
    requires c < |w.claims|
  {
    Put(w, w.claims[c].position, p)
  }

  function OnClaim(w: World, s: Snapshot, reduce: bool, requested: Option<real>): (r: World)
    requires s.position in w.positions
  {
    var i, c := s.position, |w.claims|;
    var p := Claimed(w.positions[i], s.row, c, reduce, requested);
    Stand(Put(w, i, p), c, Begun).(
      claims := w.claims + [ClaimRecord(i, Left(s.row), Left(w.positions[i]), reduce, requested.None?, p.quantity)])
  }

  /** Before a cancellation is sent: no stop, or one that is gone, lets the exit go on; a stop that
      cannot be shown to be active and in place blocks it. */
  function OnCancel(w: World, c: nat, look: Look): (r: World)
    requires InFlight(w, c)
    ensures r.entries ==> w.entries
  {
    var p := w.positions[w.claims[c].position];
    if p.stop.NoStop? then Stand(w, c, Cleared(false))
    else if look.NoService? then End(Rewrite(w, c, Released(p, c)), c)
    else if p.stop.Canceled? || p.stop.Exhausted? then Stand(w, c, Cleared(false))
    else if p.stop.Canceling? || p.stop.FailedStop? then CloseGate(End(Rewrite(w, c, Released(p, c)), c))
    else if p.stop.Triggered? || look.NotVerified? then End(Rewrite(w, c, Released(p, c)), c)
    else Stand(Rewrite(w, c, p.(stop := Canceling)), c, Asking)
  }

  function OnAnswer(w: World, c: nat, answer: Answer): (r: World)
    requires InFlight(w, c)
    ensures r.entries ==> w.entries
  {
    var p := w.positions[w.claims[c].position];
    match answer
    case OutcomeUnknown => Stand(Rewrite(w, c, p.(stop := FailedStop)), c, Taken(true))
    case StillPending => End(Rewrite(w, c, Released(p, c).(stop := ActiveStop)), c)
    case Gone => Stand(Rewrite(w, c, p.(stop := Canceled)), c, Taken(false)).(canceledBy := w.canceledBy + {c})
  }

  function OnShut(w: World, c: nat, lost: bool): (r: World)
    requires InFlight(w, c)
    ensures r.entries ==> w.entries
  {
    if lost then CloseGate(End(Rewrite(w, c, Released(w.positions[w.claims[c].position], c)), c))
    else CloseGate(Stand(w, c, Cleared(true)))
  }

  /** A confirmed order is linked whatever became of the row meanwhile; an unconfirmed one is unknown
      if this claim took the stop, and given back otherwise. */
  function SubmitRow(p: Position, c: nat, r: ClaimRecord, canceled: bool, confirmed: bool): (q: Position) {
    if confirmed then
      p.(status := if r.reduce then Reducing else Closing, hasOrder := true, correlation := Some(c),
         quantity := r.quantity, exec := Submitted)
    else if canceled then p.(exec := Unknown, attempts := 1)
    else Released(p, c)
  }

  function OnSubmit(w: World, c: nat, canceled: bool, lands: bool, orderId: bool): (r: World)
    requires InFlight(w, c)
    ensures r.entries ==> w.entries
  {
    var r := w.claims[c];
    End(Put(Send(w, r.position, c, r.quantity, lands), r.position,
            SubmitRow(w.positions[r.position], c, r, canceled, Confirmed(w, c, lands, orderId))), c)
  }

  // ---------------------------------------------------------------- recovery

  function OnRetry(w: World, i: int, p: Position, step: Step): (r: World)
    requires step.Retry? && p.client.Some? && i in w.positions
    ensures i in r.positions && forall j :: j in w.positions && j != i ==> j in r.positions && r.positions[j] == w.positions[j]
    ensures r.entries ==> w.entries
  {
    var c := p.client.value;
    if p.attempts >= 3 then
      match step.lookup
      case LookupRaises => w
      case NoClient => Restore(w, i, Recovered(p), step.restores)
      case Found(n, hasId) =>
        if n != 1 then Restore(w, i, Recovered(p), step.restores)
        else if hasId then Put(w, i, p.(hasOrder := true, exec := Settled)) else w
    else
      var sent := Send(w, i, c, p.quantity, step.lands);
      if Confirmed(w, c, step.lands, step.orderId)
      then Put(sent, i, p.(hasOrder := true, exec := Submitted, attempts := p.attempts + 1))
      else Put(sent, i, p.(attempts := p.attempts + 1))
  }

  function OnReconcile(w: World, i: int, p: Position, step: Step): (r: World)
    requires step.Reconcile?
    ensures r.entries ==> w.entries
  {
    match step.lookup
    case LookupRaises => w
    case NoClient => w
    case Found(n, hasId) =>
      if n == 0 then
        if !step.pastStaleAge then w
        else if p.status.Closing? || p.status.Reducing? then Rearm(w, i, Recovered(p), step.restores)
        else Rearm(w, i, p, step.restores)
      else if hasId then Put(w, i, p.(hasOrder := true, exec := Settled)) else w
  }

  /** A later fill of the entry. */
  function Grown(p: Position, size: real): (r: Position) {
    p.(size := p.size + size, remaining := Some(Left(p) + size))
  }

  /** A fill of a close or reduce order; the order is done with when it closes the row or reduces it,
      and an order that is the row's own is then unlinked. */
  function Filled(p: Position, size: real, reduce: bool, own: bool): (r: Position) {
    var left := Left(p) - size;
    var done := own && p.hasOrder && (reduce || left == 0.0);
    p.(remaining := Some(left),
       status := if left == 0.0 then Closed else if reduce then Open else Closing,
       client := if done then None else p.client,
       hasOrder := p.hasOrder && !done,
       exec := if done then Settled else p.exec,
       stop := if left == 0.0 && (p.stop.Canceled? || p.stop.Triggered?) then Exhausted else p.stop)
  }

  /** The exchange reports the linked order as over. */
  function Terminated(p: Position): (r: Position) {
    var done := !p.status.Open? && p.remaining.GetOr(0.0) == 0.0;
    p.(status := if done then Closed else Open, client := None, hasOrder := false, exec := Settled)
  }

  /** The stop fired: its order takes over an open or reducing position. */
  function TriggerLinked(p: Position): (r: Position) {
    if p.status.Open? || p.status.Reducing?
    then p.(status := Closing, client := None, hasOrder := true, exec := Settled, stop := Triggered)
    else p.(stop := Triggered)
  }

  function OnVerify(w: World, i: int, p: Position, verified: bool, restores: Restoration): (r: World)
    ensures r.entries ==> w.entries
  {
    if p.stop.Triggered? then CloseGate(w)
    else if verified && p.stop.ActiveStop? then w
    else Restore(w, i, p, restores)
  }

  predicate AnyBare(positions: map<int, Position>) {
    exists i :: i in positions && Bare(positions[i])
  }

  /** A step of the fill service's tick on a row that exists. */
  predicate FillStep(w: World, i: int) {
    w.inFillTick && i in w.positions
  }

  // ---------------------------------------------------------------- all steps

  /** A step that does not fit changes nothing. */
  function Next(w: World, step: Step): (r: World) {
    match step
    case OpenPosition(i, size, protected) =>
      if i in w.positions || size <= 0.0 then w
      else Put(w, i, Position(Open, size, Some(size), None, false, None, false, NoExec, 0, 0.0,
                              if protected then ActiveStop else NoStop)).(known := w.known - {i})
    case Read(k, i) =>
      if i in w.positions then w.(views := w.views[k := Snapshot(i, w.positions[i])]) else w
    case Claim(k, reduce, requested) =>
      if k in w.views && w.views[k].position in w.positions && w.positions[w.views[k].position].status.Open?
         && Asks(w.views[k].row, reduce, requested)
      then OnClaim(w, w.views[k], reduce, requested) else w
    case CancelStop(c, look) => if InFlight(w, c) && w.triggers[c].Begun? then OnCancel(w, c, look) else w
    case StopAnswered(c, answer) => if InFlight(w, c) && w.triggers[c].Asking? then OnAnswer(w, c, answer) else w
    case ShutGate(c) => if InFlight(w, c) && w.triggers[c].Taken? then OnShut(w, c, w.triggers[c].lost) else w
    case Submit(c, lands, orderId) =>
      if InFlight(w, c) && w.triggers[c].Cleared? then OnSubmit(w, c, w.triggers[c].canceled, lands, orderId) else w
    case SubmitDies(c, lands) =>
      if InFlight(w, c) && w.triggers[c].Cleared?
      then End(Send(w, w.claims[c].position, c, w.claims[c].quantity, lands), c) else w
    case TriggerDies(c) =>
      if c !in w.triggers then w
      else End(w, c).(
             canceledBy := if w.triggers[c].Asking? then w.canceledBy + {c} else w.canceledBy,
             aborted := w.aborted || w.triggers[c].Asking? || w.triggers[c].Taken?)
    case Retry(i, _, _, _, _) =>
      if !w.inFillTick && i in w.positions && Retryable(w.positions[i])
      then OnRetry(w, i, w.positions[i], step) else w
    case RetryDies(i, lands) =>
      if !w.inFillTick && i in w.positions && Retryable(w.positions[i]) && w.positions[i].attempts < 3
      then Send(w, i, w.positions[i].client.value, w.positions[i].quantity, lands) else w
    case FillTickBegins => w.(inFillTick := true)
    case Reconcile(i, _, _, _) =>
      if FillStep(w, i) && w.positions[i].client.Some? && !w.positions[i].hasOrder
      then OnReconcile(w, i, w.positions[i], step) else w
    case TerminalOrder(i, restores) =>
      if FillStep(w, i) && w.positions[i].hasOrder && Active(w.positions[i])
      then Rearm(w, i, Terminated(w.positions[i]), restores) else w
    case OpenFill(i, size) =>
      if FillStep(w, i) && Active(w.positions[i]) && size > 0.0 then Put(w, i, Grown(w.positions[i], size)) else w
    case ApplyFill(i, size, reduce, own, restores) =>
      if FillStep(w, i) && 0.0 < size <= Left(w.positions[i])
      then Rearm(w, i, Filled(w.positions[i], size, reduce, own), restores) else w
    case LinkTrigger(i) =>
      if FillStep(w, i) && !w.positions[i].stop.NoStop? then Put(w, i, TriggerLinked(w.positions[i])) else w
    case VerifyStop(i, verified, restores) =>
      if FillStep(w, i) && w.positions[i].status.Open? && Effective(w.positions[i]) > 0.0
      then OnVerify(w, i, w.positions[i], verified, restores) else w
    case FillTickEnds =>
      if !w.inFillTick then w
      else (if AnyBare(w.positions) then CloseGate(w) else w).(
             inFillTick := false, enabledSince := false, aborted := false, known := w.positions.Keys)
    case FillTickAborts => if w.inFillTick then w.(inFillTick := false, aborted := true) else w
    case OperatorEnables => w.(entries := true, enabledSince := true)
    case Crash => CloseGate(w).(views := map[], triggers := map[], inFillTick := false, aborted := false)
  }

  function Run(w: World, steps: seq<Step>): (r: World)
    decreases |steps|
  {
    if steps == [] then w else Run(Next(w, steps[0]), steps[1..])
  }

  lemma {:induction false} RunAppends(w: World, a: seq<Step>, step: Step)
    ensures Run(w, a + [step]) == Next(Run(w, a), step)
    decreases |a|
  {
    hide Next;
    if a == [] {
      assert [] + [step] == [step] && [step][1..] == [];
      assert Run(w, [step]) == Run(Next(w, step), []);
    } else {
      assert (a + [step])[0] == a[0] && (a + [step])[1..] == a[1..] + [step];
      RunAppends(Next(w, a[0]), a[1..], step);
    }
  }

  lemma {:induction false} RunConcat(w: World, a: seq<Step>, b: seq<Step>)
    ensures Run(w, a + b) == Run(Run(w, a), b)
    decreases |a|
  {
    hide Next;
    if a == [] {
      assert a + b == b;
    } else {
      assert (a + b)[0] == a[0] && (a + b)[1..] == a[1..] + b;
      RunConcat(Next(w, a[0]), a[1..], b);
    }
  }

  lemma RunExtends(w: World, steps: seq<Step>, k: nat)
    requires k < |steps|
    ensures Run(w, steps[..k + 1]) == Next(Run(w, steps[..k]), steps[k])
  {
    assert steps[..k + 1] == steps[..k] + [steps[k]];
    RunAppends(w, steps[..k], steps[k]);
  }

  /** The stop is known to be in place: the exchange confirmed the one on record, or a new one was placed. */
  predicate Vouched(p: Position, verified: bool, restores: Restoration) {
    !p.stop.Triggered? && ((verified && p.stop.ActiveStop?) || restores.Protects?)
  }

  /** A verification that leaves entries on, and does not leave the tick, vouches for the stop; it changes
      no other row and never opens the gate. */
  lemma VouchedOrShut(w: World, i: int, verified: bool, restores: Restoration)
    requires w.inFillTick && i in w.positions && w.positions[i].status.Open?
    ensures var t := Next(w, VerifyStop(i, verified, restores));
            && (t.entries ==> w.entries)
            && (forall j :: j in w.positions && j != i ==> j in t.positions && t.positions[j] == w.positions[j])
            && (Effective(w.positions[i]) > 0.0 && t.entries && t.inFillTick ==> Vouched(w.positions[i], verified, restores))
  {
  }

  const START := World(map[], false, [], [], [], {}, map[], map[], false, false, false, {})
}
