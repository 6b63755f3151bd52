/**
 How often one claim is sent.  Every retry that is not confirmed counts, after three attempts the
 exchange is asked instead, and so a claim goes out at most three times; more often only if a retry
 dies between its order and its count, or another claim's unknown outcome is written over the row.
 */
module ExitRetries {
  import opened Options
  import opened ExitLifecycle
  import opened ExitManager
  import opened ExitSafety
  import opened ExitRuns

  /** How many orders went out under a client id. */
  function Count(log: seq<Submission>, c: nat): (n: nat) {
    if log == [] then 0 else Count(log[..|log| - 1], c) + if log[|log| - 1].client == c then 1 else 0
  }

  /** The attempts a row of unknown outcome still has under this claim. */
  function AttemptsLeft(p: Position, c: nat): (n: nat) {
    if p.client == Some(c) && p.exec.Unknown? && p.attempts < 3 then 3 - p.attempts else 0
  }

  function RowBudget(w: World, c: nat): (n: nat) {
    if c < |w.claims| && w.claims[c].position in w.positions then AttemptsLeft(w.positions[w.claims[c].position], c) else 0
  }

  /** A claim that has not been submitted yet has three. */
  function ClaimBudget(w: World, c: nat): (n: nat) {
    if c in w.triggers || c >= |w.claims| then 3 else 0
  }

  function Potential(w: World, c: nat): (n: nat) {
    Count(w.submissions, c) + RowBudget(w, c) + ClaimBudget(w, c)
  }

  /** The step writes the unknown outcome of another claim over the row that carries this one. */
  ghost predicate Overwrites(w: World, step: Step, c: nat) {
    && step.Submit? && step.trigger != c && InFlight(w, step.trigger) && w.triggers[step.trigger] == Cleared(true)
    && !Confirmed(w, step.trigger, step.lands, step.orderId)
    && w.positions[w.claims[step.trigger].position].client == Some(c)
  }

  /** The step is a retry of this claim that dies between its order and its count. */
  ghost predicate DiesUncounted(w: World, step: Step, c: nat) {
    && step.RetryDies? && Next(w, step) != w
    && step.position in w.positions && w.positions[step.position].client == Some(c)
  }

  ghost function Overwritten(w: World, steps: seq<Step>, c: nat): (n: nat)
    decreases |steps|
  {
    if steps == [] then 0
    else (if Overwrites(w, steps[0], c) then 1 else 0) + Overwritten(Next(w, steps[0]), steps[1..], c)
  }

  ghost function Uncounted(w: World, steps: seq<Step>, c: nat): (n: nat)
    decreases |steps|
  {
    if steps == [] then 0
    else (if DiesUncounted(w, steps[0], c) then 1 else 0) + Uncounted(Next(w, steps[0]), steps[1..], c)
  }

  // ---------------------------------------------------------------- one step

  /** A rewrite that gives no attempt back. */
  predicate Calm(p: Position, q: Position) {
    q.exec.Unknown? && q.client.Some? ==> p.exec.Unknown? && q.client == p.client && q.attempts == p.attempts
  }

  lemma CalmRow(w: World, t: World, i: int, c: nat)
    requires i in w.positions && t.positions.Keys == w.positions.Keys && t.claims == w.claims
    requires forall j :: j in w.positions && j != i ==> t.positions[j] == w.positions[j]
    requires Calm(w.positions[i], t.positions[i])
    ensures RowBudget(t, c) <= RowBudget(w, c)
  {
  }

  lemma CountSend(w: World, i: int, d: nat, q: real, lands: bool, c: nat)
    ensures Count(Send(w, i, d, q, lands).submissions, c) == Count(w.submissions, c) + if d == c then 1 else 0
  {
    assert (w.submissions + [Submission(i, d, q)])[..|w.submissions|] == w.submissions;
  }

  /** A trigger that does not submit sends nothing and gives no attempt back. */
  lemma TriggerIsCalm(w: World, step: Step, c: nat)
    requires IsTriggerStep(step) && !step.Submit?
    ensures Potential(Next(w, step), c) <= Potential(w, c)
  {
    if Next(w, step) != w {
      StageIsCalm(w, step);
      hide Next, RowBudget, Calm;
      CalmRow(w, Next(w, step), w.claims[step.trigger].position, c);
    }
  }

  /** What a stage of a trigger may change: its own row, calmly, and its own place. */
  ghost predicate OwnRow(w: World, t: World, d: nat) {
    && InFlight(w, d)
    && var i := w.claims[d].position;
       && i in t.positions && t.positions == w.positions[i := t.positions[i]] && Calm(w.positions[i], t.positions[i])
       && t.claims == w.claims && t.submissions == w.submissions && t.triggers.Keys <= w.triggers.Keys
  }

  lemma StopsAreCalm(p: Position, c: nat, stop: Stop)
    ensures Calm(p, p) && Calm(p, p.(stop := stop)) && Calm(p, Released(p, c)) && Calm(p, Released(p, c).(stop := stop))
  {
  }

  lemma StandsInRow(w: World, d: nat, q: Position, stage: Stage, canceledBy: set<nat>)
    requires InFlight(w, d) && Calm(w.positions[w.claims[d].position], q)
    ensures var t := Stand(Rewrite(w, d, q), d, stage).(canceledBy := canceledBy);
            OwnRow(w, t, d) && OwnRow(w, CloseGate(t), d)
  {
  }

  lemma EndsInRow(w: World, d: nat, q: Position)
    requires InFlight(w, d) && Calm(w.positions[w.claims[d].position], q)
    ensures var t := End(Rewrite(w, d, q), d); OwnRow(w, t, d) && OwnRow(w, CloseGate(t), d)
  {
  }

  lemma CancelIsCalm(w: World, d: nat, look: Look)
    requires InFlight(w, d)
    ensures OwnRow(w, OnCancel(w, d, look), d)
  {
    hide Calm, Released, OwnRow, Stand, End, Rewrite, CloseGate;
    var p := w.positions[w.claims[d].position];
    StopsAreCalm(p, d, Canceling);
    RewriteSame(w, d);
    StandsInRow(w, d, p, Cleared(false), w.canceledBy);
    StandKeepsMarks(w, d, p, Cleared(false));
    StandsInRow(w, d, p.(stop := Canceling), Asking, w.canceledBy);
    StandKeepsMarks(w, d, p.(stop := Canceling), Asking);
    EndsInRow(w, d, Released(p, d));
  }

  lemma AnswerIsCalm(w: World, d: nat, answer: Answer)
    requires InFlight(w, d)
    ensures OwnRow(w, OnAnswer(w, d, answer), d)
  {
    hide Calm, Released, OwnRow, Stand, End, Rewrite;
    var p := w.positions[w.claims[d].position];
    match answer
    case OutcomeUnknown =>
      StopsAreCalm(p, d, FailedStop);
      StandsInRow(w, d, p.(stop := FailedStop), Taken(true), w.canceledBy);
      StandKeepsMarks(w, d, p.(stop := FailedStop), Taken(true));
    case StillPending =>
      StopsAreCalm(p, d, ActiveStop);
      EndsInRow(w, d, Released(p, d).(stop := ActiveStop));
    case Gone =>
      StopsAreCalm(p, d, Canceled);
      StandsInRow(w, d, p.(stop := Canceled), Taken(false), w.canceledBy + {d});
  }

  lemma ShutIsCalm(w: World, d: nat, lost: bool)
    requires InFlight(w, d)
    ensures OwnRow(w, OnShut(w, d, lost), d)
  {
    hide Calm, Released, OwnRow, Stand, End, Rewrite, CloseGate;
    var p := w.positions[w.claims[d].position];
    StopsAreCalm(p, d, p.stop);
    RewriteSame(w, d);
    StandsInRow(w, d, p, Cleared(true), w.canceledBy);
    StandKeepsMarks(w, d, p, Cleared(true));
    EndsInRow(w, d, Released(p, d));
  }

  lemma StageIsCalm(w: World, step: Step)
    requires IsTriggerStep(step) && !step.Submit? && Next(w, step) != w
    ensures OwnRow(w, Next(w, step), step.trigger)
  {
    hide OwnRow, OnCancel, OnAnswer, OnShut;
    match step
    case CancelStop(d, look) => CancelIsCalm(w, d, look);
    case StopAnswered(d, answer) => AnswerIsCalm(w, d, answer);
    case ShutGate(d) => ShutIsCalm(w, d, w.triggers[d].lost);
  }

  lemma SubmitIsBounded(w: World, step: Step, c: nat)
    requires step.Submit?
    ensures Potential(Next(w, step), c) <= Potential(w, c) + if Overwrites(w, step, c) then 2 else 0
  {
    var d, t := step.trigger, Next(w, step);
    if t != w {
      var r := w.claims[d];
      CountSend(w, r.position, d, r.quantity, step.lands, c);
      assert t.triggers.Keys == w.triggers.Keys - {d} && t.claims == w.claims;
      SubmitRowBudget(w, d, w.triggers[d].canceled, step.lands, step.orderId, c);
      hide Count, RowBudget;
    }
  }

  /** The budget of a claim after one row was rewritten. */
  lemma RewrittenBudget(w: World, t: World, i: int, q: Position, c: nat)
    requires i in w.positions && t.positions == w.positions[i := q] && t.claims == w.claims
    ensures RowBudget(t, c) == if c < |w.claims| && w.claims[c].position == i then AttemptsLeft(q, c) else RowBudget(w, c)
  {
  }

  lemma SubmitRowBudget(w: World, d: nat, canceled: bool, lands: bool, orderId: bool, c: nat)
    requires InFlight(w, d)
    ensures var t := OnSubmit(w, d, canceled, lands, orderId);
            var noted := canceled && !Confirmed(w, d, lands, orderId) && w.positions[w.claims[d].position].client == Some(c);
            RowBudget(t, c) <= if noted then 2 + RowBudget(w, c) else RowBudget(w, c)
  {
    var t, r := OnSubmit(w, d, canceled, lands, orderId), w.claims[d];
    var p := w.positions[r.position];
    var q := SubmitRow(p, d, r, canceled, Confirmed(w, d, lands, orderId));
    assert t.positions == w.positions[r.position := q];
    RewrittenBudget(w, t, r.position, q, c);
    RewrittenBudget(w, w.(positions := w.positions[r.position := p]), r.position, p, c);
    assert w.positions[r.position := p] == w.positions;
    SubmittedAttempts(p, d, r, canceled, Confirmed(w, d, lands, orderId), c);
    hide SubmitRow, AttemptsLeft, RowBudget, OnSubmit;
  }

  lemma SubmittedAttempts(p: Position, d: nat, r: ClaimRecord, canceled: bool, confirmed: bool, c: nat)
    ensures AttemptsLeft(SubmitRow(p, d, r, canceled, confirmed), c) <=
            if canceled && !confirmed && p.client == Some(c) then 2 else AttemptsLeft(p, c)
  {
  }

  lemma RetryIsBounded(w: World, step: Step, c: nat)
    requires Inv(w) && (step.Retry? || step.RetryDies?)
    ensures Potential(Next(w, step), c) <= Potential(w, c) + if DiesUncounted(w, step, c) then 1 else 0
  {
    var i, t := step.position, Next(w, step);
    if t != w {
      var p := w.positions[i];
      var d := p.client.value;
      assert RowOk(i, p, w.claims);
      hide Inv;
      if step.RetryDies? {
        CountSend(w, i, d, p.quantity, step.lands, c);
      } else if p.attempts < 3 {
        CountSend(w, i, d, p.quantity, step.lands, c);
        ResentBudget(w, i, step, c);
      } else {
        GivenUpBudget(w, i, step, c);
      }
      hide Count, RowBudget;
    }
  }

  lemma ResentBudget(w: World, i: int, step: Step, c: nat)
    requires i in w.positions && step.Retry? && step.position == i && Retryable(w.positions[i]) && w.positions[i].attempts < 3
    requires var d := w.positions[i].client.value; d < |w.claims| && w.claims[d].position == i
    ensures var p := w.positions[i]; var t := OnRetry(w, i, p, step);
            && t.triggers == w.triggers && t.claims == w.claims
            && t.submissions == Send(w, i, p.client.value, p.quantity, step.lands).submissions
            && RowBudget(t, c) + (if p.client == Some(c) then 1 else 0) <= RowBudget(w, c)
  {
    RetrySends(w, i, w.positions[i], step);
    hide OnRetry;
  }

  lemma GivenUpBudget(w: World, i: int, step: Step, c: nat)
    requires i in w.positions && step.Retry? && step.position == i && Retryable(w.positions[i]) && w.positions[i].attempts >= 3
    ensures var t := OnRetry(w, i, w.positions[i], step);
            && t.triggers == w.triggers && t.claims == w.claims && t.submissions == w.submissions
            && RowBudget(t, c) <= RowBudget(w, c)
  {
    var p := w.positions[i];
    RetryAsks(w, i, p, step);
    GiveUpTouches(w, i, step);
    hide OnRetry, RowBudget, Restore, Sound, Recovered;
    var q := if Misses(step.lookup) then Restored(Recovered(p), step.restores)
             else if step.lookup.Found? && step.lookup.hasId then p.(hasOrder := true, exec := Settled) else p;
    assert w.positions[i := p] == w.positions;
    RewrittenBudget(w, OnRetry(w, i, p, step), i, q, c);
    RewrittenBudget(w, w, i, p, c);
  }

  lemma FillIsCalm(w: World, step: Step, c: nat)
    requires IsFillStep(step)
    ensures Potential(Next(w, step), c) <= Potential(w, c)
  {
    if Next(w, step) != w {
      var i := step.position;
      FillStepTouches(w, step);
      FillRowIsCalm(w, step);
      hide Next, Calm, RowBudget, Sound;
      CalmRow(w, Next(w, step), i, c);
    }
  }

  lemma FillRowIsCalm(w: World, step: Step)
    requires IsFillStep(step) && Next(w, step) != w
    ensures var i := step.position; i in w.positions && i in Next(w, step).positions && Calm(w.positions[i], Next(w, step).positions[i])
  {
    hide Effective, Left, Rearms, Active;
  }

  lemma ClaimIsCalm(w: World, step: Step, c: nat)
    requires step.Claim?
    ensures Potential(Next(w, step), c) <= Potential(w, c)
  {
    hide Asks, Effective, Left;
  }

  lemma PlainIsCalm(w: World, step: Step, c: nat)
    requires step.OpenPosition? || step.Read? || step.FillTickBegins? || step.FillTickEnds? || step.FillTickAborts? ||
             step.OperatorEnables? || step.Crash? || step.TriggerDies?
    ensures Potential(Next(w, step), c) <= Potential(w, c)
  {
    hide AnyBare, Count;
  }

  lemma DeathIsBounded(w: World, step: Step, c: nat)
    requires step.SubmitDies?
    ensures Potential(Next(w, step), c) <= Potential(w, c)
  {
    if Next(w, step) != w {
      CountSend(w, w.claims[step.trigger].position, step.trigger, w.claims[step.trigger].quantity, step.lands, c);
      hide Count, RowBudget;
      assert RowBudget(Next(w, step), c) == RowBudget(w, c) by { SameBudget(w, Next(w, step), c); }
    }
  }

  lemma SameBudget(w: World, t: World, c: nat)
    requires t.positions == w.positions && t.claims == w.claims
    ensures RowBudget(t, c) == RowBudget(w, c)
  {
  }

  /** Every step pays for what it sends. */
  lemma StepIsBounded(w: World, step: Step, c: nat)
    requires Inv(w)
    ensures Potential(Next(w, step), c) <=
            Potential(w, c) + 2 * (if Overwrites(w, step, c) then 1 else 0) + (if DiesUncounted(w, step, c) then 1 else 0)
  {
    hide Inv, Next, Potential, Overwrites, DiesUncounted;
    if step.Submit? {
      SubmitIsBounded(w, step, c);
    } else if IsTriggerStep(step) {
      TriggerIsCalm(w, step, c);
    } else if step.Retry? || step.RetryDies? {
      RetryIsBounded(w, step, c);
    } else if IsFillStep(step) {
      FillIsCalm(w, step, c);
    } else if step.Claim? {
      ClaimIsCalm(w, step, c);
    } else if step.SubmitDies? {
      DeathIsBounded(w, step, c);
    } else {
      PlainIsCalm(w, step, c);
    }
  }

  lemma {:induction false} RunIsBounded(w: World, steps: seq<Step>, c: nat)
    requires Inv(w)
    ensures Potential(Run(w, steps), c) <= Potential(w, c) + 2 * Overwritten(w, steps, c) + Uncounted(w, steps, c)
    decreases |steps|
  {
    if steps != [] {
      hide Inv, Next, Potential, Overwrites, DiesUncounted;
      StepIsBounded(w, steps[0], c);
      NextKeepsInv(w, steps[0]);
      RunIsBounded(Next(w, steps[0]), steps[1..], c);
    }
  }

  // ---------------------------------------------------------------- main results

  /** Over any run, a claim is sent at most three times, the first submission included; two more for each
      time another claim's unknown outcome is written over its row, one more for each retry that dies
      before it is counted.  And once it has been sent that often, a retry sends nothing: it asks the
      exchange. */
  lemma SentAtMostThreeTimes(steps: seq<Step>, c: nat)
    ensures var w := Run(START, steps);
            var bound := 3 + 2 * Overwritten(START, steps, c) + Uncounted(START, steps, c);
            && Count(w.submissions, c) <= bound
            && (Count(w.submissions, c) == bound ==>
                  forall i :: i in w.positions && w.positions[i].client == Some(c) && Retryable(w.positions[i]) ==>
                    w.positions[i].attempts >= 3)
  {
    StartInv();
    RunKeepsInv(START, steps);
    RunIsBounded(START, steps, c);
    assert Potential(START, c) == 3;
    var w := Run(START, steps);
    forall i | i in w.positions && w.positions[i].client == Some(c) ensures c < |w.claims| && w.claims[c].position == i {
      assert RowOk(i, w.positions[i], w.claims);
    }
    hide Inv, Run;
  }

  // ---------------------------------------------------------------- retries alone

  /** A retry that finds its row to be of unknown outcome. */
  predicate Effective?(w: World, step: Step, i: int) {
    step.Retry? && step.position == i && !w.inFillTick && i in w.positions && Retryable(w.positions[i])
  }

  /** Only retries touch the row. */
  ghost predicate OnlyRetried(w: World, steps: seq<Step>, i: int)
    decreases |steps|
  {
    steps == [] ||
    (&& (Effective?(w, steps[0], i) ||
         (i in w.positions && i in Next(w, steps[0]).positions && Next(w, steps[0]).positions[i] == w.positions[i]))
     && OnlyRetried(Next(w, steps[0]), steps[1..], i))
  }

  ghost function Retries(w: World, steps: seq<Step>, i: int): (n: nat)
    decreases |steps|
  {
    if steps == [] then 0
    else (if Effective?(w, steps[0], i) then 1 else 0) + Retries(Next(w, steps[0]), steps[1..], i)
  }

  /** Some retry asked the exchange instead of sending. */
  ghost predicate Asked(w: World, steps: seq<Step>, i: int)
    decreases |steps|
  {
    steps != [] &&
    ((Effective?(w, steps[0], i) && w.positions[i].attempts >= 3) || Asked(Next(w, steps[0]), steps[1..], i))
  }

  /** A retry with attempts left sends the claim's own order once and counts, whatever comes of it; one
      without sends nothing. */
  lemma RetryCounts(w: World, step: Step, i: int)
    requires Effective?(w, step, i)
    ensures i in Next(w, step).positions
    ensures var p, q, log := w.positions[i], Next(w, step).positions[i], Next(w, step).submissions;
            if p.attempts < 3
            then q.attempts == p.attempts + 1 && log == w.submissions + [Submission(i, p.client.value, p.quantity)]
            else log == w.submissions
  {
    if w.positions[i].attempts < 3 {
      RetrySends(w, i, w.positions[i], step);
      hide OnRetry;
    }
  }

  lemma {:induction false} NotRetried(w: World, steps: seq<Step>, i: int)
    requires OnlyRetried(w, steps, i) && i in w.positions && !Retryable(w.positions[i])
    ensures Retries(w, steps, i) == 0
    decreases |steps|
  {
    if steps != [] {
      hide Next, Retryable;
      NotRetried(Next(w, steps[0]), steps[1..], i);
    }
  }

  /** A row that only retries touch is looked up at the latest by its fourth attempt: whatever is lost,
      the exchange is asked once more retries came than attempts were left. */
  lemma {:induction false} AsksByTheFourth(w: World, steps: seq<Step>, i: int)
    requires OnlyRetried(w, steps, i) && i in w.positions
    requires Retries(w, steps, i) > 0 && Retries(w, steps, i) + w.positions[i].attempts >= 4
    ensures Asked(w, steps, i)
    decreases |steps|
  {
    hide Next, Retryable;
    var t := Next(w, steps[0]);
    if Effective?(w, steps[0], i) && w.positions[i].attempts < 3 {
      RetryCounts(w, steps[0], i);
      if !Retryable(t.positions[i]) {
        NotRetried(t, steps[1..], i);
      }
      AsksByTheFourth(t, steps[1..], i);
    } else if !Effective?(w, steps[0], i) {
      AsksByTheFourth(t, steps[1..], i);
    }
  }

  // ---------------------------------------------------------------- a claim that is sent five times

  /** A trigger takes the stop away. */
  lemma TakesStop(w: World, i: int, c: nat)
    requires InFlight(w, c) && w.claims[c].position == i && w.triggers[c].Begun? && w.positions[i].stop.ActiveStop?
    ensures var t := Next(Next(Next(w, CancelStop(c, Verified)), StopAnswered(c, Gone)), ShutGate(c));
            && t.positions == w.positions[i := w.positions[i].(stop := Canceled)]
            && t.triggers == w.triggers[c := Cleared(true)] && t.claims == w.claims && t.submissions == w.submissions
            && t.views == w.views && t.inFillTick == w.inFillTick
  {
    var p := w.positions[i];
    var a := Next(w, CancelStop(c, Verified));
    assert a == Stand(Put(w, i, p.(stop := Canceling)), c, Asking);
    var b := Next(a, StopAnswered(c, Gone));
    assert b == Stand(Put(a, i, p.(stop := Canceled)), c, Taken(false)).(canceledBy := a.canceledBy + {c});
    hide OnCancel, OnAnswer;
    assert b.positions == w.positions[i := p.(stop := Canceled)] && b.triggers == w.triggers[c := Taken(false)];
    assert b.triggers[c := Cleared(true)] == w.triggers[c := Cleared(true)];
  }

  /** The stop fired nevertheless: a fill tick links its order, which ends without a fill, and protects the
      position again. */
  lemma StopOrderEnds(w: World, i: int)
    requires w.positions.Keys == {i} && !w.inFillTick
    requires var p := w.positions[i]; p.status.Reducing? && p.stop.Canceled? && p.remaining.Some? && p.remaining.value > 0.0
    ensures var t := Next(Next(Next(Next(w, FillTickBegins), LinkTrigger(i)), TerminalOrder(i, Protects)), FillTickEnds);
            && t.positions == map[i := w.positions[i].(status := Open, client := None, hasOrder := false, exec := Settled, stop := ActiveStop)]
            && t.triggers == w.triggers && t.claims == w.claims && t.submissions == w.submissions
            && t.views == w.views && !t.inFillTick
  {
    var p := w.positions[i];
    var b := Next(Next(w, FillTickBegins), LinkTrigger(i));
    assert b == w.(inFillTick := true, positions := w.positions[i := TriggerLinked(p)]);
    var q := p.(status := Open, client := None, hasOrder := false, exec := Settled, stop := ActiveStop);
    var d := Next(b, TerminalOrder(i, Protects));
    assert d == b.(positions := b.positions[i := q]);
    assert d.positions == map[i := q];
    assert !AnyBare(d.positions);
    hide TriggerLinked, Rearm, Terminated, Effective;
  }

  /** Another trigger reads the row and claims it. */
  lemma IsClaimedAgain(w: World, i: int, k: nat)
    requires i in w.positions
    requires var p := w.positions[i]; p.status.Open? && p.size > 0.0 && p.remaining == Some(p.size)
    ensures var c := |w.claims|; var p := w.positions[i]; var t := Next(Next(w, Read(k, i)), Claim(k, false, None));
            && t.positions == w.positions[i := Claimed(p, p, c, false, None)]
            && t.triggers == w.triggers[c := Begun] && |t.claims| == c + 1 && t.claims[..c] == w.claims
            && t.claims[c].position == i && t.claims[c].quantity == p.size
            && t.submissions == w.submissions && t.inFillTick == w.inFillTick
  {
  }

  /** A submission of which nothing is heard. */
  lemma StaysUnknown(w: World, i: int, c: nat)
    requires InFlight(w, c) && w.claims[c].position == i && w.triggers[c] == Cleared(true)
    ensures var t := Next(w, Submit(c, false, false));
            && t.positions == w.positions[i := w.positions[i].(exec := Unknown, attempts := 1)]
            && t.submissions == w.submissions + [Submission(i, c, w.claims[c].quantity)]
            && t.triggers == w.triggers - {c} && t.claims == w.claims && t.inFillTick == w.inFillTick
  {
  }

  function Lost(i: int): (step: Step) {
    Retry(i, false, false, NoClient, Protects)
  }

  /** Two retries of which nothing is heard. */
  lemma TwoRetries(w: World, i: int, c: nat)
    requires i in w.positions && !w.inFillTick
    requires var p := w.positions[i]; Retryable(p) && p.client == Some(c) && p.attempts == 1
    ensures var t := Next(Next(w, Lost(i)), Lost(i));
            && t.positions == w.positions[i := w.positions[i].(attempts := 3)]
            && Count(t.submissions, c) == Count(w.submissions, c) + 2
            && t.triggers == w.triggers && t.claims == w.claims && t.inFillTick == w.inFillTick
  {
    var p := w.positions[i];
    var a := Next(w, Lost(i));
    CountSend(w, i, c, p.quantity, false, c);
    assert a == Put(Send(w, i, c, p.quantity, false), i, p.(attempts := 2));
    CountSend(a, i, c, p.quantity, false, c);
    assert Next(a, Lost(i)) == Put(Send(a, i, c, p.quantity, false), i, p.(attempts := 3));
    hide OnRetry;
    assert w.positions[i := p.(attempts := 2)][i := p.(attempts := 3)] == w.positions[i := p.(attempts := 3)];
  }

  /** Both triggers have taken the stop; the first one's unknown outcome falls on the second one's row,
      which is retried twice, submitted by its own trigger, and retried twice again. */
  lemma FiveTimes(w: World, i: int)
    requires InFlight(w, 0) && InFlight(w, 1) && w.claims[0].position == i && w.claims[1].position == i && !w.inFillTick
    requires w.triggers[0] == Cleared(true) && w.triggers[1] == Cleared(true) && Count(w.submissions, 1) == 0
    requires var p := w.positions[i]; p.client == Some(1) && p.status.Closing? && !p.hasOrder && p.quantity > 0.0
    ensures var a := Next(Next(Next(w, Submit(0, false, false)), Lost(i)), Lost(i));
            Count(Next(Next(Next(a, Submit(1, false, false)), Lost(i)), Lost(i)).submissions, 1) == 5
  {
    hide Next;
    StaysUnknown(w, i, 0);
    var a := Next(w, Submit(0, false, false));
    CountSend(w, i, 0, w.claims[0].quantity, false, 1);
    TwoRetries(a, i, 1);
    var b := Next(Next(a, Lost(i)), Lost(i));
    StaysUnknown(b, i, 1);
    var d := Next(b, Submit(1, false, false));
    CountSend(b, i, 1, b.claims[1].quantity, false, 1);
    TwoRetries(d, i, 1);
  }

  /** While a reduce waits between its cancellation and its submission, the stop it took away turns out to
      have fired, and its order ends without a fill. */
  lemma StopFiredMeanwhile(i: int, size: real) returns (steps: seq<Step>, w: World)
    requires size > 0.0
    ensures w == Run(START, steps) && w.positions.Keys == {i} && |w.claims| == 1 && w.claims[0].position == i
    ensures w.triggers == map[0 := Cleared(true)] && Count(w.submissions, 1) == 0 && !w.inFillTick
    ensures var p := w.positions[i]; p.status.Open? && p.size == size && p.remaining == Some(size) && p.stop.ActiveStop?
  {
    steps, w := OneClaim(i, size, true, true, Some(size / 2.0));
    NothingSent(steps, w, 1);
    TakesStop(w, i, 0);
    var w1 := Next(w, CancelStop(0, Verified));
    var w2 := Next(w1, StopAnswered(0, Gone));
    var w3 := Next(w2, ShutGate(0));
    StopOrderEnds(w3, i);
    var w4 := Next(w3, FillTickBegins);
    var w5 := Next(w4, LinkTrigger(i));
    var w6 := Next(w5, TerminalOrder(i, Protects));
    var w7 := Next(w6, FillTickEnds);
    hide Next, Run;
    steps := Then(steps, w, CancelStop(0, Verified));
    steps := Then(steps, w1, StopAnswered(0, Gone));
    steps := Then(steps, w2, ShutGate(0));
    steps := Then(steps, w3, FillTickBegins);
    steps := Then(steps, w4, LinkTrigger(i));
    steps := Then(steps, w5, TerminalOrder(i, Protects));
    steps := Then(steps, w6, FillTickEnds);
    w := w7;
  }

  /** A close claims the row and takes its stop. */
  lemma CloseTakesOver(before: seq<Step>, w: World, i: int) returns (steps: seq<Step>, t: World)
    requires w == Run(START, before) && w.positions.Keys == {i} && |w.claims| == 1 && w.claims[0].position == i
    requires w.triggers == map[0 := Cleared(true)] && Count(w.submissions, 1) == 0 && !w.inFillTick
    requires var p := w.positions[i]; p.status.Open? && p.size > 0.0 && p.remaining == Some(p.size) && p.stop.ActiveStop?
    ensures t == Run(START, steps) && InFlight(t, 0) && InFlight(t, 1) && t.claims[0].position == i && t.claims[1].position == i
    ensures t.triggers[0] == Cleared(true) && t.triggers[1] == Cleared(true) && Count(t.submissions, 1) == 0 && !t.inFillTick
    ensures var p := t.positions[i]; p.client == Some(1) && p.status.Closing? && !p.hasOrder && p.quantity > 0.0
  {
    IsClaimedAgain(w, i, 1);
    var a := Next(w, Read(1, i));
    var b := Next(a, Claim(1, false, None));
    assert b.claims[0] == b.claims[..1][0];
    TakesStop(b, i, 1);
    hide Next, Run;
    steps := Then(before, w, Read(1, i));
    steps := Then(steps, a, Claim(1, false, None));
    var d := Next(b, CancelStop(1, Verified));
    var e := Next(d, StopAnswered(1, Gone));
    steps := Then(steps, b, CancelStop(1, Verified));
    steps := Then(steps, d, StopAnswered(1, Gone));
    steps := Then(steps, e, ShutGate(1));
    t := Next(e, ShutGate(1));
  }

  /** A run from the start in which the unknown outcome of a reduce is written over the close that claimed
      the row meanwhile, and the close goes out five times. */
  lemma SentFiveTimes(i: int, size: real) returns (steps: seq<Step>)
    requires size > 0.0
    ensures Count(Run(START, steps).submissions, 1) == 5
  {
    var w, t;
    steps, w := StopFiredMeanwhile(i, size);
    steps, t := CloseTakesOver(steps, w, i);
    FiveTimes(t, i);
    hide Next, Run;
    var a := Next(t, Submit(0, false, false));
    var b := Next(a, Lost(i));
    var d := Next(b, Lost(i));
    var e := Next(d, Submit(1, false, false));
    var f := Next(e, Lost(i));
    steps := Then(steps, t, Submit(0, false, false));
    steps := Then(steps, a, Lost(i));
    steps := Then(steps, b, Lost(i));
    steps := Then(steps, d, Submit(1, false, false));
    steps := Then(steps, e, Lost(i));
    steps := Then(steps, f, Lost(i));
  }

  /** Nothing was sent under a claim that is still to come. */
  lemma NothingSent(steps: seq<Step>, w: World, c: nat)
    requires w == Run(START, steps) && c >= |w.claims|
    ensures Count(w.submissions, c) == 0
  {
    StartInv();
    RunKeepsInv(START, steps);
    hide Run, Inv;
    assert LogOk(w);
    NotCounted(w.submissions, w.claims, c);
  }

  lemma {:induction false} NotCounted(log: seq<Submission>, claims: seq<ClaimRecord>, c: nat)
    requires c >= |claims| && forall s :: s in log ==> Fulfils(s, claims)
    ensures Count(log, c) == 0
  {
    if log != [] {
      assert log[|log| - 1] in log;
      NotCounted(log[..|log| - 1], claims, c);
    }
  }
}
