/**
 The position manager as it runs: rows, flag and logs updated in place.  A close trigger may be one of
 the manager's loop or an operator's; its methods are proved to perform the steps of one trigger while
 others are in flight.
 */
module ExitManager {
  import opened Options
  import opened ExitLifecycle

  datatype TriggerResult = Refused | Blocked | Pending | Failed | Accepted

  /** How far a cancellation got: the trigger is over, waits for an answer, or may submit. */
  datatype Progress = Over | Waiting | Ready(canceled: bool)

  /** The trigger's place in the state, as its progress says. */
  ghost predicate Stands(w: World, c: nat, progress: Progress) {
    match progress
    case Over => c !in w.triggers
    case Waiting => c in w.triggers && w.triggers[c].Asking?
    case Ready(canceled) => c in w.triggers && w.triggers[c] == Cleared(canceled)
  }

  /** What the stop and its inspection let a trigger do. */
  function CancelVerdict(stop: Stop, look: Look): (r: Progress) {
    if stop.NoStop? then Ready(false)
    else if look.NoService? then Over
    else if stop.Canceled? || stop.Exhausted? then Ready(false)
    else if stop.ActiveStop? && look.Verified? then Waiting
    else Over
  }

  /** What a claimed trigger reports, read off the stop it found and the answers it got. */
  function ExitVerdict(stop: Stop, look: Look, answer: Answer, confirmed: bool): (r: TriggerResult) {
    var progress := CancelVerdict(stop, look);
    if progress.Over? || (progress.Waiting? && !answer.Gone?) then Blocked
    else if confirmed then Accepted
    else if progress.Waiting? then Pending
    else Failed
  }

  /** The steps of one trigger; those that do not fit where it stands change nothing. */
  function TriggerSteps(k: nat, c: nat, i: int, reduce: bool, requested: Option<real>,
                        look: Look, answer: Answer, lands: bool, orderId: bool): (steps: seq<Step>) {
    [Read(k, i), Claim(k, reduce, requested), CancelStop(c, look), StopAnswered(c, answer), ShutGate(c), Submit(c, lands, orderId)]
  }

  class PositionManagerService {
    var positions: map<int, Position>
    var entries: bool
    var claims: seq<ClaimRecord>
    var submissions: seq<Submission>
    var accepted: seq<nat>
    ghost var canceledBy: set<nat>
    ghost var views: map<nat, Snapshot>
    ghost var triggers: map<nat, Stage>
    ghost var inFillTick: bool
    ghost var enabledSince: bool
    ghost var aborted: bool
    ghost var known: set<int>

    ghost function State(): (w: World)
      reads this
    {
      World(positions, entries, claims, submissions, accepted, canceledBy, views, triggers, inFillTick, enabledSince, aborted, known)
    }

    method DisableEntries()
      modifies this`entries, this`enabledSince
      ensures State() == CloseGate(old(State()))
    {
      entries := false;
      enabledSince := false;
    }

    method SaveRow(i: int, p: Position)
      modifies this`positions
      ensures State() == Put(old(State()), i, p)
    {
      positions := positions[i := p];
    }

    /** Give the claim back unless a later claim wrote the row. */
    method ReleaseClaim(i: int, c: nat)
      requires c < |claims| && claims[c].position == i && i in positions
      modifies this`positions
      ensures State() == Rewrite(old(State()), c, Released(old(positions[i]), c))
      ensures var p := old(positions[i]);
              positions == old(positions)[i := if p.correlation == Some(c)
                then p.(status := Open, client := None, hasOrder := p.previousOrder, exec := Settled) else p]
    {
      var p := positions[i];
      if p.correlation == Some(c) {
        SaveRow(i, p.(status := Open, client := None, hasOrder := p.previousOrder, exec := Settled));
      } else {
        SaveRow(i, p);
      }
    }

    /** Read the row a trigger will decide on. */
    method ReadPosition(i: int, ghost k: nat) returns (seen: Position)
      requires i in positions
      modifies this`views
      ensures State() == Next(old(State()), Read(k, i))
      ensures seen == positions[i] && k in views && views[k] == Snapshot(i, seen)
    {
      seen := positions[i];
      views := views[k := Snapshot(i, seen)];
    }

    /** Check the quantity on the row that was read, then claim the row by compare-and-set on its status. */
    method ClaimExit(i: int, seen: Position, reduce: bool, requested: Option<real>, ghost k: nat)
      returns (claimed: bool, c: nat)
      requires k in views && views[k] == Snapshot(i, seen)
      modifies this`positions, this`claims, this`triggers
      ensures State() == Next(old(State()), Claim(k, reduce, requested))
      ensures c == |old(claims)| && (!claimed ==> State() == old(State()))
      ensures claimed <==> i in old(positions) && old(positions[i]).status.Open? && Asks(seen, reduce, requested)
      ensures claimed ==> c in triggers && triggers[c].Begun? && c < |claims| && claims[c].position == i && i in positions
      ensures claimed ==>
                var q := positions[i];
                && q.status == (if reduce then Reducing else Closing) && q.client == Some(c) && !q.hasOrder && q.exec.Submitting?
                && q.quantity == requested.GetOr(Effective(seen)) && q.previousOrder == seen.hasOrder
                && q.correlation == Some(c) && q.remaining == old(positions[i]).remaining && q.stop == old(positions[i]).stop
    {
      hide OnClaim;
      c := |claims|;
      var remaining := if seen.remaining.Some? && seen.remaining.value != 0.0 then seen.remaining.value else seen.size;
      var quantity := requested.GetOr(remaining);
      if quantity <= 0.0 || quantity > remaining {
        return false, c;
      }
      if reduce && quantity >= remaining {
        return false, c;
      }
      if i !in positions || !positions[i].status.Open? {
        return false, c;
      }
      GrantClaim(i, seen, reduce, requested, quantity);
      claimed := true;
    }

    /** The row and the log of a granted claim. */
    method GrantClaim(i: int, seen: Position, reduce: bool, requested: Option<real>, quantity: real)
      requires i in positions && quantity == requested.GetOr(Effective(seen))
      modifies this`positions, this`claims, this`triggers
      ensures State() == OnClaim(old(State()), Snapshot(i, seen), reduce, requested)
      ensures var c := |old(claims)|;
              c in triggers && triggers[c].Begun? && c < |claims| && claims[c].position == i && i in positions
              && positions[i] == old(positions[i]).(status := if reduce then Reducing else Closing, client := Some(c),
                   hasOrder := false, correlation := Some(c), previousOrder := seen.hasOrder, exec := Submitting, quantity := quantity)
    {
      hide Effective, Left;
      var p, c := positions[i], |claims|;
      positions := positions[i := p.(status := if reduce then Reducing else Closing, client := Some(c), hasOrder := false,
                                     correlation := Some(c), previousOrder := seen.hasOrder, exec := Submitting,
                                     quantity := quantity)];
      claims := claims + [ClaimRecord(i, Left(seen), Left(p), reduce, requested.None?, quantity)];
      triggers := triggers[c := Begun];
    }

    /** The trigger is over: its claim is given back. */
    method EndBlocked(i: int, c: nat)
      requires InFlight(State(), c) && claims[c].position == i
      modifies this`positions, this`triggers
      ensures State() == End(Rewrite(old(State()), c, Released(old(positions[i]), c)), c)
      ensures positions == old(positions)[i := Released(old(positions[i]), c)]
    {
      ReleaseClaim(i, c);
      triggers := triggers - {c};
    }

    /** Before a cancellation is sent; a stop that cannot be shown to be in place blocks the exit. */
    method CancelForClose(i: int, c: nat, look: Look) returns (progress: Progress)
      requires InFlight(State(), c) && triggers[c].Begun? && claims[c].position == i
      modifies this`positions, this`entries, this`enabledSince, this`triggers
      ensures State() == Next(old(State()), CancelStop(c, look)) && Stands(State(), c, progress)
      ensures progress == CancelVerdict(old(positions[i]).stop, look)
      ensures claims == old(claims) && accepted == old(accepted) && positions.Keys == old(positions.Keys)
    {
      hide Released;
      var p := positions[i];
      if p.stop.NoStop? {
        triggers := triggers[c := Cleared(false)];
        return Ready(false);
      }
      if look.NoService? {
        EndBlocked(i, c);
        return Over;
      }
      if p.stop.Canceled? || p.stop.Exhausted? {
        triggers := triggers[c := Cleared(false)];
        return Ready(false);
      }
      if !p.stop.ActiveStop? || look.NotVerified? {
        EndBlocked(i, c);
        if p.stop.Canceling? || p.stop.FailedStop? {
          DisableEntries();
        }
        return Over;
      }
      SaveRow(i, p.(stop := Canceling));
      triggers := triggers[c := Asking];
      return Waiting;
    }

    /** The exchange's answer to the cancellation, and the gate closed behind a stop that is gone or lost. */
    method AwaitCancel(i: int, c: nat, answer: Answer) returns (progress: Progress)
      requires InFlight(State(), c) && triggers[c].Asking? && claims[c].position == i
      modifies this`positions, this`entries, this`enabledSince, this`triggers, this`canceledBy
      ensures State() == Next(Next(old(State()), StopAnswered(c, answer)), ShutGate(c)) && Stands(State(), c, progress)
      ensures progress == if answer.Gone? then Ready(true) else Over
      ensures claims == old(claims) && accepted == old(accepted) && positions.Keys == old(positions.Keys)
      ensures match answer
              case Gone => positions[i].stop.Canceled? && !entries && positions[i].client == old(positions[i]).client && c in canceledBy
              case OutcomeUnknown => positions[i].stop.FailedStop? && !entries
              case StillPending => positions[i].stop.ActiveStop? && entries == old(entries)
      ensures !answer.Gone? && old(positions[i]).correlation == Some(c) ==> positions[i].status.Open? && positions[i].client.None?
    {
      var lost := TakeAnswer(i, c, answer);
      StageStepsAre(State(), c, NoService, answer);
      hide OnAnswer, Released, Next;
      if answer.StillPending? {
        return Over;
      }
      if lost {
        ReleaseClaim(i, c);
        DisableEntries();
        triggers := triggers - {c};
        return Over;
      }
      DisableEntries();
      triggers := triggers[c := Cleared(true)];
      return Ready(true);
    }

    method TakeAnswer(i: int, c: nat, answer: Answer) returns (lost: bool)
      requires InFlight(State(), c) && triggers[c].Asking? && claims[c].position == i
      modifies this`positions, this`triggers, this`canceledBy
      ensures State() == Next(old(State()), StopAnswered(c, answer))
      ensures lost == answer.OutcomeUnknown?
      ensures if answer.StillPending? then c !in triggers else c in triggers && triggers[c] == Taken(lost)
      ensures positions.Keys == old(positions.Keys) && entries == old(entries)
      ensures answer.StillPending? ==> positions[i] == Released(old(positions[i]), c).(stop := ActiveStop)
      ensures answer.OutcomeUnknown? ==> positions[i] == old(positions[i]).(stop := FailedStop)
      ensures answer.Gone? ==> positions[i] == old(positions[i]).(stop := Canceled) && c in canceledBy
    {
      StageStepsAre(State(), c, NoService, answer);
      hide Next, Released;
      var p := positions[i];
      match answer
      case StillPending =>
        SaveRow(i, p.(stop := ActiveStop));
        ReleaseClaim(i, c);
        triggers := triggers - {c};
        StopAfterRelease(p, c);
        assert positions == old(positions)[i := Released(p, c).(stop := ActiveStop)];
        return false;
      case OutcomeUnknown =>
        SaveRow(i, p.(stop := FailedStop));
        triggers := triggers[c := Taken(true)];
        return true;
      case Gone =>
        SaveRow(i, p.(stop := Canceled));
        canceledBy := canceledBy + {c};
        triggers := triggers[c := Taken(false)];
        return false;
    }

    /** One exit order under the claim's client id; the exchange refuses an id it has seen. */
    method SendExit(i: int, client: nat, quantity: real, lands: bool, orderId: bool) returns (confirmed: bool)
      modifies this`submissions, this`accepted
      ensures State() == Send(old(State()), i, client, quantity, lands)
      ensures confirmed <==> Confirmed(old(State()), client, lands, orderId)
      ensures submissions == old(submissions) + [Submission(i, client, quantity)]
      ensures accepted == if lands && client !in old(accepted) then old(accepted) + [client] else old(accepted)
      ensures confirmed <==> lands && orderId && client !in old(accepted)
    {
      submissions := submissions + [Submission(i, client, quantity)];
      confirmed := false;
      if lands && client !in accepted {
        accepted := accepted + [client];
        confirmed := orderId;
      }
    }

    /** A confirmed order is linked whatever became of the row; an unconfirmed one is unknown if this
        claim took the stop, and given back otherwise. */
    method SubmitExit(i: int, c: nat, canceled: bool, lands: bool, orderId: bool) returns (result: TriggerResult)
      requires InFlight(State(), c) && triggers[c] == Cleared(canceled) && claims[c].position == i
      modifies this`positions, this`submissions, this`accepted, this`triggers
      ensures State() == Next(old(State()), Submit(c, lands, orderId))
      ensures result == if Confirmed(old(State()), c, lands, orderId) then Accepted else if canceled then Pending else Failed
      ensures submissions == old(submissions) + [Submission(i, c, claims[c].quantity)]
      ensures var p, q := old(positions[i]), positions[i];
              match result
              case Accepted => q.hasOrder && q.exec.Submitted? && q.quantity == claims[c].quantity && q.client == p.client
                               && q.status == (if claims[c].reduce then Reducing else Closing)
              case Pending => q == p.(exec := Unknown, attempts := 1)
              case _ => p.correlation == Some(c) ==> q.status.Open? && q.client.None? && q.stop == p.stop
    {
      hide SubmitRow;
      var confirmed := SendExit(i, c, claims[c].quantity, lands, orderId);
      RecordSubmission(i, c, canceled, confirmed);
      triggers := triggers - {c};
      result := if confirmed then Accepted else if canceled then Pending else Failed;
    }

    method RecordSubmission(i: int, c: nat, canceled: bool, confirmed: bool)
      requires c < |claims| && claims[c].position == i && i in positions
      modifies this`positions
      ensures State() == Put(old(State()), i, SubmitRow(old(positions[i]), c, claims[c], canceled, confirmed))
      ensures var p, q := old(positions[i]), positions[i];
              if confirmed then q.hasOrder && q.exec.Submitted? && q.quantity == claims[c].quantity && q.client == p.client
                                && q.status == (if claims[c].reduce then Reducing else Closing)
              else if canceled then q == p.(exec := Unknown, attempts := 1)
              else p.correlation == Some(c) ==> q.status.Open? && q.client.None? && q.stop == p.stop
    {
      var p := positions[i];
      if confirmed {
        SaveRow(i, p.(status := if claims[c].reduce then Reducing else Closing, hasOrder := true, correlation := Some(c),
                      quantity := claims[c].quantity, exec := Submitted));
      } else if canceled {
        SaveRow(i, p.(exec := Unknown, attempts := 1));
      } else {
        ReleaseClaim(i, c);
      }
    }

    /** A claimed trigger up to its submission. */
    method ExitClaimed(i: int, c: nat, look: Look, answer: Answer, lands: bool, orderId: bool) returns (result: TriggerResult)
      requires InFlight(State(), c) && triggers[c].Begun? && claims[c].position == i
      modifies this
      ensures State() == Next(Next(Next(Next(old(State()), CancelStop(c, look)), StopAnswered(c, answer)), ShutGate(c)),
                              Submit(c, lands, orderId))
      ensures result == ExitVerdict(old(positions[i]).stop, look, answer, Confirmed(old(State()), c, lands, orderId))
    {
      hide Next;
      var progress := CancelForClose(i, c, look);
      ghost var asked := State();
      if progress.Waiting? {
        progress := AwaitCancel(i, c, answer);
      } else {
        NoAnswerDue(asked, c, answer);
      }
      if progress.Over? {
        NothingToSubmit(State(), c, lands, orderId);
        return Blocked;
      }
      result := SubmitExit(i, c, progress.canceled, lands, orderId);
    }

    /** A close trigger from its read to its submission, with any others in flight. */
    method HandleCloseTrigger(i: int, reduce: bool, requested: Option<real>,
                              look: Look, answer: Answer, lands: bool, orderId: bool, ghost k: nat)
      returns (result: TriggerResult)
      requires i in positions && forall c :: c in triggers ==> c < |claims|
      modifies this
      ensures State() == Run(old(State()), TriggerSteps(k, |old(claims)|, i, reduce, requested, look, answer, lands, orderId))
      ensures result == if !old(positions[i]).status.Open? || !Asks(old(positions[i]), reduce, requested) then Refused
                        else ExitVerdict(old(positions[i]).stop, look, answer, Confirmed(old(State()), |old(claims)|, lands, orderId))
    {
      hide Run, TriggerSteps, Asks, Next, ExitVerdict;
      SixSteps(State(), k, |claims|, i, reduce, requested, look, answer, lands, orderId);
      var seen := ReadPosition(i, k);
      ghost var read := State();
      var claimed, c := ClaimExit(i, seen, reduce, requested, k);
      if !claimed {
        NoAnswerDue(State(), c, answer);
        NothingToSubmit(State(), c, lands, orderId);
        NothingToCancel(State(), c, look);
        return Refused;
      }
      result := ExitClaimed(i, c, look, answer, lands, orderId);
    }

    method RestoreProtection(i: int, restores: Restoration)
      requires i in positions
      modifies this
      ensures State() == Restore(old(State()), i, old(positions[i]), restores)
      ensures positions == old(positions)[i := if restores.Protects? then old(positions[i]).(stop := ActiveStop) else old(positions[i])]
      ensures entries == (old(entries) && !restores.Refuses?) && (restores.Dies? ==> aborted)
    {
      var p := positions[i];
      match restores
      case Protects =>
        SaveRow(i, p.(stop := ActiveStop));
      case Refuses =>
        SaveRow(i, p);
        DisableEntries();
      case Dies =>
        SaveRow(i, p);
        inFillTick, aborted := false, true;
    }

    /** Ask the exchange for the order; anything but exactly one order, or no client to ask, is unresolved. */
    method ResolveUnknownClose(i: int, lookup: Lookup) returns (resolved: bool)
      requires i in positions
      modifies this`positions
      ensures resolved <==> !Misses(lookup)
      ensures State() == if lookup.Found? && lookup.count == 1 && lookup.hasId
                         then Put(old(State()), i, old(positions[i]).(hasOrder := true, exec := Settled)) else old(State())
    {
      if lookup.NoClient? {
        return false;
      }
      if lookup.LookupRaises? {
        return true;
      }
      if lookup.count != 1 {
        return false;
      }
      if lookup.hasId {
        SaveRow(i, positions[i].(hasOrder := true, exec := Settled));
      }
      return true;
    }

    /** After three attempts: look the order up, and recover the row and its stop if it is not there. */
    method GiveUp(i: int, lookup: Lookup, restores: Restoration) returns (died: bool)
      requires i in positions
      modifies this
      ensures State() == if Misses(lookup) then Restore(old(State()), i, Recovered(old(positions[i])), restores)
                         else if lookup.Found? && lookup.hasId
                         then Put(old(State()), i, old(positions[i]).(hasOrder := true, exec := Settled)) else old(State())
      ensures died <==> restores.Dies? && Misses(lookup)
      ensures submissions == old(submissions) && entries == (old(entries) && !(Misses(lookup) && restores.Refuses?))
      ensures i in positions
      ensures positions[i] == GivenUp(old(positions[i]), lookup, restores)
    {
      var resolved := ResolveUnknownClose(i, lookup);
      if resolved {
        return false;
      }
      ghost var before := State();
      SaveRow(i, positions[i].(status := Open, client := None, exec := Settled));
      ghost var recovered := positions[i];
      RestoreProtection(i, restores);
      RestoreAgain(before, i, recovered, restores);
      died := restores.Dies?;
    }

    /** Submit again under the claim's own client id and quantity, and count the attempt whatever comes of it. */
    method Resend(i: int, lands: bool, orderId: bool)
      requires i in positions && positions[i].client.Some?
      modifies this`positions, this`submissions, this`accepted
      ensures var p := old(positions[i]);
              && submissions == old(submissions) + [Submission(i, p.client.value, p.quantity)]
              && i in positions && entries == old(entries)
              && positions[i] == Resent(p, lands && orderId && p.client.value !in old(accepted))
              && State() == Put(Send(old(State()), i, p.client.value, p.quantity, lands), i, positions[i])
    {
      var p := positions[i];
      var confirmed := SendExit(i, p.client.value, p.quantity, lands, orderId);
      if confirmed {
        SaveRow(i, p.(hasOrder := true, exec := Submitted, attempts := p.attempts + 1));
      } else {
        SaveRow(i, p.(attempts := p.attempts + 1));
      }
    }

    /** One exit of unknown outcome: resubmit it, or after three attempts look it up and give up. */
    method RetryUnknown(i: int, lands: bool, orderId: bool, lookup: Lookup, restores: Restoration)
      returns (died: bool)
      requires i in positions && Retryable(positions[i])
      modifies this
      ensures State() == OnRetry(old(State()), i, old(positions[i]), Retry(i, lands, orderId, lookup, restores))
      ensures died <==> restores.Dies? && old(positions[i]).attempts >= 3 && Misses(lookup)
      ensures died ==> aborted
      ensures inFillTick ==> old(inFillTick)
      ensures i in positions
      ensures old(positions[i]).attempts < 3 ==>
                && submissions == old(submissions) + [Submission(i, old(positions[i]).client.value, old(positions[i]).quantity)]
                && positions[i] == Resent(old(positions[i]), lands && orderId && old(positions[i]).client.value !in old(accepted))
                && entries == old(entries)
      ensures old(positions[i]).attempts >= 3 ==>
                && submissions == old(submissions)
                && positions[i] == GivenUp(old(positions[i]), lookup, restores)
                && entries == (old(entries) && !(Misses(lookup) && restores.Refuses?))
    {
      ghost var step := Retry(i, lands, orderId, lookup, restores);
      if positions[i].attempts >= 3 {
        RetryAsks(State(), i, positions[i], step);
        hide OnRetry, Restore, Recovered, Put, Send, Misses, Resent, GivenUp, Retryable;
        died := GiveUp(i, lookup, restores);
      } else {
        RetrySends(State(), i, positions[i], step);
        hide OnRetry, Restore, Recovered, Put, Send, Misses, Resent, GivenUp;
        Resend(i, lands, orderId);
        died := false;
      }
    }

    /** The retry loop over the rows that were pending when the tick began; an exception that
        escapes while a stop is restored ends it. */
    method RetryUnknownCloses(rows: seq<int>, replies: seq<Step>) returns (handled: nat)
      requires |replies| == |rows| && !inFillTick
      requires forall k :: 0 <= k < |rows| ==> rows[k] in positions && replies[k].Retry? && replies[k].position == rows[k]
      modifies this
      ensures handled <= |rows| && State() == Run(old(State()), replies[..handled])
      ensures handled < |rows| ==> handled > 0 && replies[handled - 1].restores.Dies? && aborted
    {
      hide OnRetry, Next, Retryable;
      handled := 0;
      while handled < |rows|
        invariant handled <= |rows| && !inFillTick
        invariant State() == Run(old(State()), replies[..handled])
        invariant forall j :: 0 <= j < |rows| ==> rows[j] in positions
      {
        ghost var before := State();
        var r := replies[handled];
        RetryIs(before, r);
        var died := false;
        if Retryable(positions[rows[handled]]) {
          died := RetryUnknown(rows[handled], r.lands, r.orderId, r.lookup, r.restores);
        }
        assert State() == Next(before, r);
        RunExtends(old(State()), replies, handled);
        handled := handled + 1;
        if died {
          return;
        }
      }
    }
  }

  /** The exchange was asked and does not have exactly one order, or cannot be asked. */
  predicate Misses(lookup: Lookup) {
    lookup.NoClient? || (lookup.Found? && lookup.count != 1)
  }

  /** The row after it was submitted again: every attempt counts. */
  function Resent(p: Position, confirmed: bool): (q: Position)
    ensures q.attempts == p.attempts + 1 && q.client == p.client && q.quantity == p.quantity && q.stop == p.stop && q.status == p.status
    ensures Retryable(p) ==> (Retryable(q) <==> !confirmed)
  {
    if confirmed then p.(hasOrder := true, exec := Submitted, attempts := p.attempts + 1) else p.(attempts := p.attempts + 1)
  }

  /** The row after the exchange was asked: recovered if the order is not there, linked if it is. */
  function GivenUp(p: Position, lookup: Lookup, restores: Restoration): (q: Position)
    ensures q.attempts == p.attempts
    ensures Misses(lookup) ==> q.status.Open? && q.client.None? && q.hasOrder == p.hasOrder
                               && q.stop == (if restores.Protects? then ActiveStop else p.stop)
    ensures !Misses(lookup) ==> q.client == p.client && q.status == p.status && q.stop == p.stop
                                && (q.hasOrder <==> p.hasOrder || (lookup.Found? && lookup.hasId))
  {
    if Misses(lookup) then Restored(Recovered(p), restores)
    else if lookup.Found? && lookup.hasId then p.(hasOrder := true, exec := Settled) else p
  }

  /** The retry loop picks up the row of a claim, full or partial, exactly when its stop was taken and its
      order was not confirmed: a confirmed one is linked, any other is given back. */
  lemma PendingIsRetried(p: Position, seen: Position, c: nat, r: ClaimRecord, reduce: bool, requested: Option<real>,
                         canceled: bool, confirmed: bool)
    requires Asks(seen, reduce, requested)
    ensures var claimed := Claimed(p, seen, c, reduce, requested).(stop := if canceled then Canceled else p.stop);
            Retryable(SubmitRow(claimed, c, r, canceled, confirmed)) <==> canceled && !confirmed
  {
  }

  lemma RetryAsks(w: World, i: int, p: Position, step: Step)
    requires step.Retry? && p.client.Some? && i in w.positions && p.attempts >= 3
    ensures OnRetry(w, i, p, step) ==
            if Misses(step.lookup) then Restore(w, i, Recovered(p), step.restores)
            else if step.lookup.Found? && step.lookup.hasId then Put(w, i, p.(hasOrder := true, exec := Settled)) else w
    ensures OnRetry(w, i, p, step).inFillTick ==> w.inFillTick
    ensures Misses(step.lookup) && step.restores.Dies? ==> OnRetry(w, i, p, step).aborted
  {
  }

  lemma RetrySends(w: World, i: int, p: Position, step: Step)
    requires step.Retry? && p.client.Some? && i in w.positions && p.attempts < 3
    ensures OnRetry(w, i, p, step) ==
            Put(Send(w, i, p.client.value, p.quantity, step.lands), i,
                Resent(p, step.lands && step.orderId && p.client.value !in w.accepted))
    ensures OnRetry(w, i, p, step).inFillTick == w.inFillTick
  {
  }

  lemma RestoreAgain(w: World, i: int, p: Position, restores: Restoration)
    ensures Restore(Put(w, i, p), i, p, restores) == Restore(w, i, p, restores)
  {
  }

  /** What is decided before a cancellation is sent: only a stop that is active and verified is asked for,
      only no stop or one that is gone lets the exit go on, the trigger is over otherwise; and the gate
      closes exactly over a stop whose cancellation was begun or lost. */
  lemma CancelDecides(w: World, c: nat, look: Look)
    requires InFlight(w, c) && w.triggers[c].Begun?
    ensures var stop := w.positions[w.claims[c].position].stop; var t := Next(w, CancelStop(c, look));
            && (c in t.triggers && t.triggers[c].Asking? <==> stop.ActiveStop? && look.Verified?)
            && (c in t.triggers && t.triggers[c] == Cleared(false) <==>
                  stop.NoStop? || (!look.NoService? && (stop.Canceled? || stop.Exhausted?)))
            && (c in t.triggers ==> t.triggers[c].Asking? || t.triggers[c] == Cleared(false))
            && t.entries == (w.entries && !(!look.NoService? && (stop.Canceling? || stop.FailedStop?)))
  {
    StageStepsAre(w, c, look, Gone);
    hide Released, Next, Stands, CancelVerdict;
    var stop := w.positions[w.claims[c].position].stop;
    if stop.NoStop? {
    } else if look.NoService? {
    } else if stop.ActiveStop? {
    } else if stop.Canceled? || stop.Exhausted? {
    }
  }

  /** The row it leaves behind: untouched, marked as being canceled, or given back with its stop as it was. */
  lemma CancelLeaves(w: World, c: nat, look: Look)
    requires InFlight(w, c) && w.triggers[c].Begun?
    ensures var i := w.claims[c].position; var p, t := w.positions[i], Next(w, CancelStop(c, look));
            i in t.positions && t.positions[i] == if c !in t.triggers then Released(p, c)
                                                  else if t.triggers[c].Asking? then p.(stop := Canceling) else p
  {
    var p := w.positions[w.claims[c].position];
    StageStepsAre(w, c, look, Gone);
    Leaves(w, c, Released(p, c), Asking);
    Leaves(w, c, p.(stop := Canceling), Asking);
    hide Released, Next, Rewrite, End, Stand, CloseGate;
    assert Stand(w, c, Cleared(false)).positions == w.positions && Stand(w, c, Cleared(false)).triggers[c] == Cleared(false) by {
      StandIs(w, c, Cleared(false));
    }
  }

  lemma StandIs(w: World, c: nat, stage: Stage)
    ensures var t := Stand(w, c, stage); t.positions == w.positions && c in t.triggers && t.triggers[c] == stage
  {
  }

  lemma Leaves(w: World, c: nat, q: Position, stage: Stage)
    requires InFlight(w, c)
    ensures var i := w.claims[c].position; var t, e := Stand(Rewrite(w, c, q), c, stage), End(Rewrite(w, c, q), c);
            && i in t.positions && t.positions[i] == q && c in t.triggers && t.triggers[c] == stage
            && i in e.positions && e.positions[i] == q && c !in e.triggers
            && CloseGate(e).positions == e.positions && CloseGate(e).triggers == e.triggers
  {
  }

  lemma StageStepsAre(w: World, c: nat, look: Look, answer: Answer)
    ensures Next(w, CancelStop(c, look)) == if InFlight(w, c) && w.triggers[c].Begun? then OnCancel(w, c, look) else w
    ensures Next(w, StopAnswered(c, answer)) == if InFlight(w, c) && w.triggers[c].Asking? then OnAnswer(w, c, answer) else w
    ensures Next(w, ShutGate(c)) == if InFlight(w, c) && w.triggers[c].Taken? then OnShut(w, c, w.triggers[c].lost) else w
  {
  }

  lemma RetryIs(w: World, step: Step)
    requires step.Retry?
    ensures Next(w, step) == if !w.inFillTick && step.position in w.positions && Retryable(w.positions[step.position])
                             then OnRetry(w, step.position, w.positions[step.position], step) else w
  {
  }

  lemma StopAfterRelease(p: Position, c: nat)
    ensures Released(p.(stop := ActiveStop), c) == Released(p, c).(stop := ActiveStop)
  {
  }

  /** A trigger that is over or ready has no answer to wait for and no gate to close. */
  lemma NoAnswerDue(w: World, c: nat, answer: Answer)
    requires c in w.triggers ==> w.triggers[c].Cleared?
    ensures Next(Next(w, StopAnswered(c, answer)), ShutGate(c)) == w
  {
  }

  lemma NothingToSubmit(w: World, c: nat, lands: bool, orderId: bool)
    requires c !in w.triggers
    ensures Next(w, Submit(c, lands, orderId)) == w
  {
  }

  lemma NothingToCancel(w: World, c: nat, look: Look)
    requires c !in w.triggers
    ensures Next(w, CancelStop(c, look)) == w
  {
  }

  lemma SixSteps(w: World, k: nat, c: nat, i: int, reduce: bool, requested: Option<real>,
                 look: Look, answer: Answer, lands: bool, orderId: bool)
    ensures Run(w, TriggerSteps(k, c, i, reduce, requested, look, answer, lands, orderId)) ==
            Next(Next(Next(Next(Next(Next(w, Read(k, i)), Claim(k, reduce, requested)), CancelStop(c, look)),
                           StopAnswered(c, answer)), ShutGate(c)), Submit(c, lands, orderId))
  {
    hide Next, Run;
    var steps := TriggerSteps(k, c, i, reduce, requested, look, answer, lands, orderId);
    RunExtends(w, steps, 0);
    RunExtends(w, steps, 1);
    RunExtends(w, steps, 2);
    RunExtends(w, steps, 3);
    RunExtends(w, steps, 4);
    RunExtends(w, steps, 5);
    assert steps[..6] == steps && steps[..0] == [];
    RunNone(w);
  }

  lemma RunNone(w: World)
    ensures Run(w, []) == w
  {
  }
}
