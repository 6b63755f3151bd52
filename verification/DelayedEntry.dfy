/**
 Delayed strategy entries.  A pending execution is keyed by a correlation id that is also the
 client order id; a position row carrying that id is written before the order is submitted and
 is looked up before a pending execution is processed again.  A crash or an exception may fall
 between any two writes.
 */
module DelayedEntry {
  import opened Options

  /** Correlation ids are random; the id of an emergency close is derived from the entry's id. */
  datatype Id = Uuid(n: nat) | EmergencyOf(entry: Id)

  datatype Status = PendingOpen | Failed | Closing | OtherStatus

  /** The part of a position row that entry processing reads. */
  datatype Row = Row(client: Option<Id>, status: Status, hasOrder: bool)

  /** What `executor.execute` reports: nothing, an accepted order, a simulated fill, or a fill without
      protection. */
  datatype Outcome = Rejected | Submitted | Simulated | Unprotected

  /** Where the service stands; everything here is lost in a crash. */
  datatype Pc =
    | Idle
    | Checked(c: Id)
    | Prepared(c: Id, row: nat)
    | Executed(c: Id, row: nat, outcome: Outcome)
    | Finishing(c: Id)

  /**
   The persisted pending executions and position rows, every call to `executor.execute` by its
   client order id, the ids handed out so far, and the pending ids whose row lost its id.
   */
  datatype State = State(
    pending: set<Id>,
    rows: seq<Row>,
    pc: Pc,
    executes: seq<Id>,
    used: set<Id>,
    loose: set<Id>)

  datatype Step =
    | Schedule(id: Id)
    | CancelDisabled(id: Id)
    | Due(id: Id)
    | Block
    | Prepare
    | PrepareFails
    | Execute(outcome: Outcome)
    | RecordOutcome
    | Finish
    | Crash
    | OtherUnlinks(row: nat, to: Option<Id>)

  /** Some position row carries this client order id. */
  predicate LinkedBy(rows: seq<Row>, c: Id) {
    exists i :: 0 <= i < |rows| && rows[i].client == Some(c)
  }

  function Calls(s: State, c: Id): (n: nat) {
    multiset(s.executes)[c]
  }

  predicate Enabled(s: State, step: Step) {
    match step
    case Schedule(id) => id.Uuid? && id !in s.used
    case CancelDisabled(_) => true
    case Due(id) => s.pc.Idle? && id in s.pending
    case Block => s.pc.Checked?
    case Prepare => s.pc.Checked?
    case PrepareFails => s.pc.Prepared?
    case Execute(_) => s.pc.Prepared?
    case RecordOutcome => s.pc.Executed? && s.pc.row < |s.rows|
    case Finish => s.pc.Finishing?
    case Crash => true
    case OtherUnlinks(row, to) => row < |s.rows| && (to.Some? ==> to.value.Uuid? && to.value !in s.used)
  }

  /** Replace one row, noting a pending id that no row carries any more. */
  function Rewrite(s: State, i: nat, row: Row): (r: State)
    requires i < |s.rows|
  {
    var rows := s.rows[i := row];
    var before := s.rows[i].client;
    var lost := before.Some? && before.value in s.pending && !LinkedBy(rows, before.value);
    s.(rows := rows, loose := if lost then s.loose + {before.value} else s.loose)
  }

  /** Persist what the submission reported: a rejection clears the intent, a simulated fill completes it
      at once, an unprotected fill replaces its id by the emergency close's. */
  function Record(s: State, c: Id, i: nat, outcome: Outcome): (r: State)
    requires i < |s.rows|
  {
    var row := s.rows[i];
    match outcome
    case Rejected =>
      if row.client == Some(c) && row.status.PendingOpen? && !row.hasOrder
      then Rewrite(s, i, Row(None, Failed, false)) else s
    case Submitted =>
      if row.client == Some(c) then Rewrite(s, i, row.(hasOrder := true)) else s
    case Simulated =>
      if row.client == Some(c) then Rewrite(s, i, Row(None, OtherStatus, false)) else s
    case Unprotected =>
      if row.client == Some(c) && row.status.PendingOpen?
      then Rewrite(s, i, Row(Some(EmergencyOf(c)), Closing, false)) else s
  }

  /** A step that is not enabled leaves the state as it is. */
  function Next(s: State, step: Step): (r: State) {
    if !Enabled(s, step) then s else
    match step
    case Schedule(id) => s.(pending := s.pending + {id}, used := s.used + {id})
    case CancelDisabled(id) => s.(pending := s.pending - {id})
    case Due(id) => s.(pc := if LinkedBy(s.rows, id) then Finishing(id) else Checked(id))
    case Block => s.(pc := Finishing(s.pc.c))
    case Prepare => s.(rows := s.rows + [Row(Some(s.pc.c), PendingOpen, false)], pc := Prepared(s.pc.c, |s.rows|))
    case PrepareFails => s.(pc := Finishing(s.pc.c))
    case Execute(outcome) => s.(executes := s.executes + [s.pc.c], pc := Executed(s.pc.c, s.pc.row, outcome))
    case RecordOutcome => Record(s, s.pc.c, s.pc.row, s.pc.outcome).(pc := Finishing(s.pc.c))
    case Finish => s.(pending := s.pending - {s.pc.c}, pc := Idle)
    case Crash => s.(pc := Idle)
    case OtherUnlinks(i, to) =>
      Rewrite(s.(used := if to.Some? then s.used + {to.value} else s.used), i, s.rows[i].(client := to))
  }

  function Run(s: State, steps: seq<Step>): (r: State)
    decreases |steps|
  {
    if steps == [] then s else Run(Next(s, steps[0]), steps[1..])
  }

  predicate Initial(s: State) {
    s.pending == {} && s.pc.Idle? && s.executes == [] && s.loose == {} &&
    forall i :: 0 <= i < |s.rows| ==> s.rows[i].client.None?
  }

  // ---------------------------------------------------------------- the imperative loop

  /** What happens to one due execution in a tick that does not crash. */
  datatype Choice = Blocks | ConditionsFail | Submits(outcome: Outcome) | Raises

  function Path(s: State, id: Id, choice: Choice): (steps: seq<Step>) {
    if LinkedBy(s.rows, id) then [Due(id), Finish]
    else match choice
      case Blocks => [Due(id), Block, Finish]
      case ConditionsFail => [Due(id), Prepare, PrepareFails, Finish]
      case Submits(outcome) => [Due(id), Prepare, Execute(outcome), RecordOutcome, Finish]
      case Raises => [Due(id), Crash]
  }

  /** The persisted effect of one path. */
  function Effect(s: State, id: Id, choice: Choice): (r: State) {
    var withRow := s.(rows := s.rows + [Row(Some(id), PendingOpen, false)]);
    var after :=
      if LinkedBy(s.rows, id) then s
      else match choice
        case Blocks => s
        case ConditionsFail => withRow
        case Submits(outcome) => Record(withRow.(executes := s.executes + [id]), id, |s.rows|, outcome)
        case Raises => s;
    if choice.Raises? && !LinkedBy(s.rows, id) then after else after.(pending := s.pending - {id})
  }

  function Paths(s: State, due: seq<Id>, choices: seq<Choice>): (r: State)
    requires |choices| == |due|
  {
    if due == [] then s
    else
      var t := Paths(s, due[..|due| - 1], choices[..|due| - 1]);
      Run(t, Path(t, due[|due| - 1], choices[|due| - 1]))
  }

  class StrategyService {
    var pending: set<Id>
    var rows: seq<Row>
    var executes: seq<Id>
    var used: set<Id>
    ghost var loose: set<Id>

    ghost function Persisted(): (s: State)
      reads this
    {
      State(pending, rows, Idle, executes, used, loose)
    }

    ghost method NoteLost(before: seq<Row>, i: nat)
      requires i < |before|
      modifies this`loose
      ensures loose == if before[i].client.Some? && before[i].client.value in pending &&
                          !LinkedBy(rows, before[i].client.value)
                       then old(loose) + {before[i].client.value} else old(loose)
    {
      if before[i].client.Some? && before[i].client.value in pending && !LinkedBy(rows, before[i].client.value) {
        loose := loose + {before[i].client.value};
      }
    }

    /** Persist the outcome of one submission into its position row. */
    method RecordSubmission(c: Id, i: nat, outcome: Outcome)
      requires i < |rows|
      modifies this`rows, this`loose
      ensures Persisted() == Record(old(Persisted()), c, i, outcome)
      ensures var row := old(rows[i]);
              var linked := row.client == Some(c);
              rows == old(rows)[i := match outcome
                case Rejected => if linked && row.status.PendingOpen? && !row.hasOrder then Row(None, Failed, false) else row
                case Submitted => if linked then Row(Some(c), row.status, true) else row
                case Simulated => if linked then Row(None, OtherStatus, false) else row
                case Unprotected => if linked && row.status.PendingOpen? then Row(Some(EmergencyOf(c)), Closing, false) else row]
    {
      var row := rows[i];
      ghost var before := rows;
      if row.client != Some(c) {
        return;
      }
      match outcome
      case Rejected =>
        if row.status.PendingOpen? && !row.hasOrder {
          rows := rows[i := Row(None, Failed, false)];
          NoteLost(before, i);
        }
      case Submitted =>
        rows := rows[i := row.(hasOrder := true)];
        NoteLost(before, i);
      case Simulated =>
        rows := rows[i := Row(None, OtherStatus, false)];
        NoteLost(before, i);
      case Unprotected =>
        if row.status.PendingOpen? {
          rows := rows[i := Row(Some(EmergencyOf(c)), Closing, false)];
          NoteLost(before, i);
        }
    }

    /** One due execution: look the id up, write the intent, submit, record, delete the pending row. */
    method ProcessDue(id: Id, choice: Choice)
      requires id in pending
      modifies this
      ensures Persisted() == Run(old(Persisted()), Path(old(Persisted()), id, choice))
      ensures var linked := LinkedBy(old(rows), id);
              && pending == (if choice.Raises? && !linked then old(pending) else old(pending) - {id})
              && executes == (if !linked && choice.Submits? then old(executes) + [id] else old(executes))
              && (if linked || choice.Blocks? || choice.Raises? then rows == old(rows)
                  else |rows| == |old(rows)| + 1 && rows[..|old(rows)|] == old(rows))
              && (!linked && choice.ConditionsFail? ==> rows[|old(rows)|] == Row(Some(id), PendingOpen, false))
    {
      ghost var s := Persisted();
      PathEffect(s, id, choice);
      hide Run, Path, Record;
      if LinkedBy(rows, id) {
        pending := pending - {id};
        return;
      }
      match choice
      case Raises =>
      case Blocks =>
        pending := pending - {id};
      case ConditionsFail =>
        rows := rows + [Row(Some(id), PendingOpen, false)];
        pending := pending - {id};
      case Submits(outcome) =>
        var i := |rows|;
        rows := rows + [Row(Some(id), PendingOpen, false)];
        executes := executes + [id];
        RecordSubmission(id, i, outcome);
        pending := pending - {id};
    }

    /** All due executions of one tick, in order. */
    method ProcessDueExecutions(due: seq<Id>, choices: seq<Choice>)
      requires |choices| == |due|
      requires forall i, j :: 0 <= i < j < |due| ==> due[i] != due[j]
      requires forall i :: 0 <= i < |due| ==> due[i] in pending
      modifies this
      ensures Persisted() == Paths(old(Persisted()), due, choices)
      ensures old(rows) <= rows && old(executes) <= executes
      ensures pending <= old(pending) && forall id :: id in old(pending) && id !in due ==> id in pending
      ensures forall i :: 0 <= i < |due| && due[i] in pending ==> choices[i].Raises?
    {
      for n := 0 to |due|
        invariant old(rows) <= rows && old(executes) <= executes
        invariant pending <= old(pending) && forall id :: id in old(pending) && id !in due[..n] ==> id in pending
        invariant forall i :: 0 <= i < n && due[i] in pending ==> choices[i].Raises?
        invariant Persisted() == Paths(old(Persisted()), due[..n], choices[..n])
        invariant forall i :: n <= i < |due| ==> due[i] in pending
      {
        assert due[..n + 1][..n] == due[..n] && choices[..n + 1][..n] == choices[..n];
        ghost var s := Persisted();
        ProcessDue(due[n], choices[n]);
        PathKeepsOthers(s, due[n], choices[n]);
      }
      assert due[..|due|] == due && choices[..|due|] == choices;
    }
  }

  lemma Unroll2(s: State, a: Step, b: Step)
    ensures Run(s, [a, b]) == Next(Next(s, a), b)
  {
    assert [a, b][1..] == [b] && [b][1..] == [];
    assert Run(Next(s, a), [b]) == Run(Next(Next(s, a), b), []);
  }

  lemma Unroll3(s: State, a: Step, b: Step, c: Step)
    ensures Run(s, [a, b, c]) == Next(Next(Next(s, a), b), c)
  {
    assert [a, b, c][1..] == [b, c];
    Unroll2(Next(s, a), b, c);
  }

  lemma Unroll4(s: State, a: Step, b: Step, c: Step, d: Step)
    ensures Run(s, [a, b, c, d]) == Next(Next(Next(Next(s, a), b), c), d)
  {
    assert [a, b, c, d][1..] == [b, c, d];
    Unroll3(Next(s, a), b, c, d);
  }

  lemma Unroll5(s: State, a: Step, b: Step, c: Step, d: Step, e: Step)
    ensures Run(s, [a, b, c, d, e]) == Next(Next(Next(Next(Next(s, a), b), c), d), e)
  {
    assert [a, b, c, d, e][1..] == [b, c, d, e];
    Unroll4(Next(s, a), b, c, d, e);
  }

  lemma PathEffect(s: State, id: Id, choice: Choice)
    requires s.pc.Idle? && id in s.pending
    ensures Run(s, Path(s, id, choice)) == Effect(s, id, choice)
  {
    if LinkedBy(s.rows, id) {
      Unroll2(s, Due(id), Finish);
    } else {
      match choice
      case Blocks => Unroll3(s, Due(id), Block, Finish);
      case ConditionsFail => Unroll4(s, Due(id), Prepare, PrepareFails, Finish);
      case Submits(outcome) => SubmitPath(s, id, outcome);
      case Raises => Unroll2(s, Due(id), Crash);
    }
  }

  lemma RecordIgnoresPc(s: State, pc: Pc, c: Id, i: nat, outcome: Outcome)
    requires i < |s.rows|
    ensures Record(s.(pc := pc), c, i, outcome) == Record(s, c, i, outcome).(pc := pc)
    ensures Record(s, c, i, outcome).pending == s.pending
  {
  }

  lemma SubmitPath(s: State, id: Id, outcome: Outcome)
    requires s.pc.Idle? && id in s.pending && !LinkedBy(s.rows, id)
    ensures Run(s, Path(s, id, Submits(outcome))) == Effect(s, id, Submits(outcome))
  {
    hide LinkedBy, Record;
    Unroll5(s, Due(id), Prepare, Execute(outcome), RecordOutcome, Finish);
    var sent := s.(rows := s.rows + [Row(Some(id), PendingOpen, false)], executes := s.executes + [id]);
    RecordIgnoresPc(sent, Executed(id, |s.rows|, outcome), id, |s.rows|, outcome);
    RecordIgnoresPc(sent, Idle, id, |s.rows|, outcome);
  }

  lemma PathKeepsOthers(s: State, id: Id, choice: Choice)
    requires s.pc.Idle? && id in s.pending
    ensures var r := Run(s, Path(s, id, choice)); r.pc.Idle? && s.pending - {id} <= r.pending
  {
    PathEffect(s, id, choice);
  }

  // ---------------------------------------------------------------- the invariant

  /** The id the service is about to submit. */
  predicate About(pc: Pc, c: Id) {
    (pc.Checked? || pc.Prepared?) && pc.c == c
  }

  ghost predicate Inv(s: State) {
    && (forall c :: c in s.executes ==> c in s.used)
    && (forall c :: c in s.pending ==> c in s.used && c.Uuid?)
    && (s.pc.Checked? || s.pc.Prepared? || s.pc.Executed? ==> s.pc.c in s.used && s.pc.c.Uuid?)
    && (s.pc.Prepared? || s.pc.Executed? ==> s.pc.row < |s.rows|)
    && forall c :: InvAt(s, c)
  }

  /** Per id: at most one call so far, none before a submission, and while the execution is still
      pending after a call some row proves it. */
  ghost predicate InvAt(s: State, c: Id) {
    c in s.loose ||
    (&& Calls(s, c) <= 1
     && (About(s.pc, c) ==> Calls(s, c) == 0)
     && (s.pc.Prepared? && s.pc.c == c && c in s.pending ==> LinkedBy(s.rows, c))
     && (c in s.pending && Calls(s, c) > 0 ==> LinkedBy(s.rows, c)))
  }

  lemma InitialInv(s: State)
    requires Initial(s)
    ensures Inv(s)
  {
  }

  lemma RewriteKeepsLinks(s: State, i: nat, row: Row, c: Id)
    requires i < |s.rows|
    ensures var r := Rewrite(s, i, row);
            && s.loose <= r.loose
            && (c in s.pending && c !in r.loose && LinkedBy(s.rows, c) ==> LinkedBy(r.rows, c))
  {
    var r := Rewrite(s, i, row);
    if LinkedBy(s.rows, c) {
      var k :| 0 <= k < |s.rows| && s.rows[k].client == Some(c);
      if k != i {
        assert r.rows[k].client == Some(c);
      }
    }
  }

  lemma RewriteKeepsInvAt(s: State, i: nat, row: Row, c: Id)
    requires i < |s.rows| && InvAt(s, c)
    ensures InvAt(Rewrite(s, i, row), c)
  {
    RewriteKeepsLinks(s, i, row, c);
  }

  lemma PrepareKeepsInvAt(s: State, c: Id)
    requires s.pc.Checked? && InvAt(s, c)
    ensures InvAt(Next(s, Prepare), c)
  {
    var r := Next(s, Prepare);
    assert r.rows[|s.rows|].client == Some(s.pc.c);
    if LinkedBy(s.rows, c) {
      var k :| 0 <= k < |s.rows| && s.rows[k].client == Some(c);
      assert r.rows[k].client == Some(c);
    }
  }

  lemma ExecuteKeepsInvAt(s: State, outcome: Outcome, c: Id)
    requires s.pc.Prepared? && InvAt(s, c)
    ensures InvAt(Next(s, Execute(outcome)), c)
  {
  }

  lemma NextKeepsInvAt(s: State, step: Step, c: Id)
    requires Inv(s) && InvAt(s, c) && Enabled(s, step)
    ensures InvAt(Next(s, step), c)
  {
    match step
    case Prepare => PrepareKeepsInvAt(s, c);
    case Execute(outcome) => ExecuteKeepsInvAt(s, outcome, c);
    case RecordOutcome =>
      var row := s.rows[s.pc.row];
      RewriteKeepsInvAt(s, s.pc.row, Row(None, Failed, false), c);
      RewriteKeepsInvAt(s, s.pc.row, row.(hasOrder := true), c);
      RewriteKeepsInvAt(s, s.pc.row, Row(None, OtherStatus, false), c);
      RewriteKeepsInvAt(s, s.pc.row, Row(Some(EmergencyOf(s.pc.c)), Closing, false), c);
    case OtherUnlinks(i, to) =>
      RewriteKeepsInvAt(s.(used := if to.Some? then s.used + {to.value} else s.used), i, s.rows[i].(client := to), c);
    case Schedule(id) =>
      assert c == id ==> c !in s.executes;
    case _ =>
  }

  lemma NextKeepsInv(s: State, step: Step)
    requires Inv(s)
    ensures Inv(Next(s, step))
  {
    if Enabled(s, step) {
      forall c ensures InvAt(Next(s, step), c) {
        NextKeepsInvAt(s, step, c);
      }
    }
  }

  lemma {:induction false} RunKeepsInv(s: State, steps: seq<Step>)
    requires Inv(s)
    ensures Inv(Run(s, steps))
    decreases |steps|
  {
    if steps != [] {
      NextKeepsInv(s, steps[0]);
      RunKeepsInv(Next(s, steps[0]), steps[1..]);
    }
  }

  // ---------------------------------------------------------------- main results

  /** Over any run, with crashes at any write boundary, a correlation id is submitted twice only if
      its position row lost that id while the execution was still pending. */
  lemma SubmittedTwiceOnlyIfUnlinked(s: State, steps: seq<Step>, c: Id)
    requires Initial(s)
    ensures Calls(Run(s, steps), c) > 1 ==> c in Run(s, steps).loose
  {
    InitialInv(s);
    RunKeepsInv(s, steps);
    assert InvAt(Run(s, steps), c);
  }

  /** Steps of the service itself: no other component rewrites position rows. */
  predicate OwnSteps(steps: seq<Step>) {
    forall i :: 0 <= i < |steps| ==> !steps[i].OtherUnlinks?
  }

  ghost predicate Settled(s: State, c: Id) {
    LinkedBy(s.rows, c) && ((s.pc.Checked? || s.pc.Prepared? || s.pc.Executed?) ==> s.pc.c != c)
  }

  lemma OwnStepKeepsSettled(s: State, step: Step, c: Id)
    requires Settled(s, c) && !step.OtherUnlinks?
    ensures Settled(Next(s, step), c) && Calls(Next(s, step), c) == Calls(s, c)
  {
    var t := Next(s, step);
    var k :| 0 <= k < |s.rows| && s.rows[k].client == Some(c);
    assert t.rows[k].client == Some(c);
    if step.Execute? && s.pc.Prepared? {
      assert multiset(t.executes) == multiset(s.executes) + multiset{s.pc.c};
    }
  }

  lemma {:induction false} LinkedIsNotResubmitted(s: State, steps: seq<Step>, c: Id)
    requires Settled(s, c) && OwnSteps(steps)
    ensures Calls(Run(s, steps), c) == Calls(s, c)
    decreases |steps|
  {
    if steps != [] {
      hide Next, Settled;
      OwnStepKeepsSettled(s, steps[0], c);
      LinkedIsNotResubmitted(Next(s, steps[0]), steps[1..], c);
    }
  }

  /** The lookup is the exact guard: a due execution is submitted again, now or after any number of
      crashes and retries, if and only if no position row carries its id. */
  lemma ResubmittedIff(s: State, c: Id)
    requires s.pc.Idle? && c in s.pending
    ensures (exists steps :: OwnSteps(steps) && Calls(Run(s, steps), c) > Calls(s, c)) <==> !LinkedBy(s.rows, c)
  {
    if LinkedBy(s.rows, c) {
      forall steps | OwnSteps(steps) ensures Calls(Run(s, steps), c) == Calls(s, c) {
        LinkedIsNotResubmitted(s, steps, c);
      }
    } else {
      var steps := [Due(c), Prepare, Execute(Submitted)];
      SubmitRun(s, c, Submitted);
      assert OwnSteps(steps);
    }
  }

  lemma SubmitRun(s: State, c: Id, outcome: Outcome)
    requires s.pc.Idle? && c in s.pending && !LinkedBy(s.rows, c)
    ensures var r := Run(s, [Due(c), Prepare, Execute(outcome)]);
            && Calls(r, c) == Calls(s, c) + 1
            && r.pc == Executed(c, |s.rows|, outcome)
            && r.rows == s.rows + [Row(Some(c), PendingOpen, false)] && r.pending == s.pending
  {
    Unroll3(s, Due(c), Prepare, Execute(outcome));
    assert multiset(s.executes + [c]) == multiset(s.executes) + multiset{c};
  }

  /** And rows do lose their id in time: after a rejected, a simulated or an unprotected submission, a
      crash before the pending execution is deleted makes the next tick submit the same id again. */
  lemma SubmittedTwice(s: State, c: Id, outcome: Outcome)
    requires s.pc.Idle? && c in s.pending && c.Uuid? && !LinkedBy(s.rows, c)
    requires !outcome.Submitted?
    ensures var once := Run(s, [Due(c), Prepare, Execute(outcome)]);
            var crashed := Next(Next(once, RecordOutcome), Crash);
            && c in crashed.pending && !LinkedBy(crashed.rows, c)
            && Calls(Run(crashed, [Due(c), Prepare, Execute(Submitted)]), c) == Calls(s, c) + 2
  {
    SubmitRun(s, c, outcome);
    var once := Run(s, [Due(c), Prepare, Execute(outcome)]);
    var i := |s.rows|;
    var crashed := Next(Next(once, RecordOutcome), Crash);
    assert forall k :: 0 <= k < i ==> crashed.rows[k] == s.rows[k];
    assert crashed.rows[i].client != Some(c);
    SubmitRun(crashed, c, Submitted);
  }

  /** An accepted entry too: after the crash the fill service books its fill and clears the id of the
      completed order, and the next tick submits the entry a second time. */
  lemma FilledIsSubmittedTwice(s: State, c: Id)
    requires s.pc.Idle? && c in s.pending && c.Uuid? && !LinkedBy(s.rows, c)
    ensures var once := Run(s, [Due(c), Prepare, Execute(Submitted)]);
            var crashed := Next(Next(once, RecordOutcome), Crash);
            var filled := Next(crashed, OtherUnlinks(|s.rows|, None));
            && |s.rows| < |crashed.rows| && crashed.rows[|s.rows|] == Row(Some(c), PendingOpen, true)
            && c in filled.pending && !LinkedBy(filled.rows, c)
            && Calls(Run(filled, [Due(c), Prepare, Execute(Submitted)]), c) == Calls(s, c) + 2
  {
    SubmitRun(s, c, Submitted);
    var once := Run(s, [Due(c), Prepare, Execute(Submitted)]);
    var i := |s.rows|;
    var crashed := Next(Next(once, RecordOutcome), Crash);
    var filled := Next(crashed, OtherUnlinks(i, None));
    assert forall k :: 0 <= k < i ==> filled.rows[k] == s.rows[k];
    assert filled.rows[i].client.None?;
    SubmitRun(filled, c, Submitted);
  }

  // ---------------------------------------------------------------- at most once

  /** With no row losing its id while its execution is pending, every id is submitted at most once. */
  lemma AtMostOnce(s: State, steps: seq<Step>)
    requires Initial(s) && Run(s, steps).loose == {}
    ensures forall c :: Calls(Run(s, steps), c) <= 1
  {
    forall c ensures Calls(Run(s, steps), c) <= 1 {
      SubmittedTwiceOnlyIfUnlinked(s, steps, c);
    }
  }

  /** The window in which a crash can cost: the entry was submitted and its execution is still pending. */
  predicate InWindow(s: State) {
    (s.pc.Executed? || s.pc.Finishing?) && s.pc.c in s.executes
  }

  ghost predicate NoCrashInWindow(s: State, steps: seq<Step>)
    decreases |steps|
  {
    steps == [] || ((steps[0].Crash? ==> !InWindow(s)) && NoCrashInWindow(Next(s, steps[0]), steps[1..]))
  }

  ghost predicate OnceAt(s: State, c: Id) {
    && Calls(s, c) <= 1
    && (About(s.pc, c) ==> Calls(s, c) == 0)
    && (c in s.pending && Calls(s, c) > 0 ==> (s.pc.Executed? || s.pc.Finishing?) && s.pc.c == c)
  }

  ghost predicate Once(s: State) {
    && (forall c :: c in s.executes ==> c in s.used)
    && (forall c :: c in s.pending ==> c in s.used)
    && (!s.pc.Idle? ==> s.pc.c in s.used)
    && forall c :: OnceAt(s, c)
  }

  lemma RewritesOnlyRows(s: State, step: Step)
    requires Enabled(s, step)
    ensures var t := Next(s, step);
            && (step.RecordOutcome? ==>
                  t == s.(rows := t.rows, loose := t.loose, pc := Finishing(s.pc.c)))
            && (step.OtherUnlinks? ==> t == s.(rows := t.rows, loose := t.loose, used := t.used) && s.used <= t.used)
  {
  }

  lemma NextKeepsOnceAt(s: State, step: Step, c: Id)
    requires Once(s) && Enabled(s, step) && (step.Crash? ==> !InWindow(s))
    ensures OnceAt(Next(s, step), c)
  {
    assert OnceAt(s, c);
    RewritesOnlyRows(s, step);
    hide Record, Rewrite, LinkedBy;
    if step.Execute? {
      assert multiset(s.executes + [s.pc.c]) == multiset(s.executes) + multiset{s.pc.c};
    } else if step.Schedule? {
      assert c == step.id ==> c !in s.executes;
    }
  }

  lemma NextKeepsOnce(s: State, step: Step)
    requires Once(s) && (step.Crash? ==> !InWindow(s))
    ensures Once(Next(s, step))
  {
    if Enabled(s, step) {
      forall c ensures OnceAt(Next(s, step), c) {
        NextKeepsOnceAt(s, step, c);
      }
    }
  }

  lemma {:induction false} RunKeepsOnce(s: State, steps: seq<Step>)
    requires Once(s) && NoCrashInWindow(s, steps)
    ensures Once(Run(s, steps))
    decreases |steps|
  {
    if steps != [] {
      hide Once, Next, InWindow;
      NextKeepsOnce(s, steps[0]);
      RunKeepsOnce(Next(s, steps[0]), steps[1..]);
    }
  }

  /** The window is all there is to it: in a run that never crashes between a submission and the
      deletion of its pending execution, every id is submitted at most once, whatever the submissions
      report and however other components rewrite rows. */
  lemma AtMostOnceOutsideWindow(s: State, steps: seq<Step>, c: Id)
    requires Initial(s) && NoCrashInWindow(s, steps)
    ensures Calls(Run(s, steps), c) <= 1
  {
    RunKeepsOnce(s, steps);
    assert OnceAt(Run(s, steps), c);
  }
}
