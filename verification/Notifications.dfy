/**
 Delivery of durable lifecycle events: an ordered cursor, per-channel acknowledgements, failing
 sends, back-off, cooldown suppression, staleness, and a crash at any point.  An event's
 (created_at, id) pair is its position in the delivery order, written as one integer.
 */
module Notifications {
  import opened Options

  datatype Channel = Line | Email

  /** What one channel does with one event. */
  datatype Answer = NotReady | Suppressed | SendFails | SendSucceeds

  // ---------------------------------------------------------------- every interleaving

  datatype Pc =
    | Idle
    | Visiting
    | Delivering(key: int, left: set<Channel>, ok: bool)
    | AckDue(key: int, channel: Channel, left: set<Channel>, ok: bool)
    | Passing(key: int)

  /**
   The audit events (and whether they are classified), the cursor and the acknowledgements are
   persisted; the snapshot and the program counter are lost in a crash.  The rest is history:
   every successful send, every acknowledgement ever given, events seen stale, sends whose
   acknowledgement was lost in a crash, events inserted below an existing one (`late`), and events
   out of the cursor's sight (`missed`): inserted behind it, or below an event of the running tick's
   snapshot, as long as no later tick has listed them.
   */
  datatype State = State(
    enabled: set<Channel>,
    events: map<int, bool>,
    cursor: Option<int>,
    acks: set<(int, Channel)>,
    snapshot: set<int>,
    pc: Pc,
    sends: seq<(int, Channel)>,
    everAcked: set<(int, Channel)>,
    seenStale: set<int>,
    unacked: set<(int, Channel)>,
    late: set<int>,
    missed: set<int>)

  datatype Step =
    | Insert(key: int, classified: bool)
    | BeginTick(upTo: int)
    | Visit(key: int, stale: bool)
    | Try(channel: Channel, answer: Answer)
    | Acknowledge
    | EndDelivery
    | Advance
    | EndTick
    | Crash

  predicate Behind(k: int, cursor: Option<int>) {
    cursor.Some? && k <= cursor.value
  }

  function Ack(s: State, k: int, c: Channel): (r: State) {
    s.(acks := s.acks + {(k, c)}, everAcked := s.everAcked + {(k, c)})
  }

  predicate First(s: State, k: int) {
    k in s.snapshot && forall x :: x in s.snapshot ==> k <= x
  }

  function OnTry(s: State, c: Channel, answer: Answer): (r: State)
    requires s.pc.Delivering?
  {
    var k, left := s.pc.key, s.pc.left - {c};
    match answer
    case NotReady => s.(pc := Delivering(k, left, false))
    case SendFails => s.(pc := Delivering(k, left, false))
    case Suppressed => Ack(s, k, c).(pc := Delivering(k, left, s.pc.ok))
    case SendSucceeds => s.(sends := s.sends + [(k, c)], pc := AckDue(k, c, left, s.pc.ok))
  }

  /** A step that does not fit changes nothing. */
  function Next(s: State, step: Step): (r: State) {
    match step
    case Insert(k, classified) =>
      if k in s.events then s
      else s.(events := s.events[k := classified],
              late := if Behind(k, s.cursor) || exists x :: x in s.events && k < x then s.late + {k} else s.late,
              missed := if Behind(k, s.cursor) || exists x :: x in s.snapshot && k < x then s.missed + {k} else s.missed)
    case BeginTick(upTo) =>
      if !s.pc.Idle? then s
      else s.(pc := Visiting, snapshot := (set k | k in s.events && !Behind(k, s.cursor) && k <= upTo),
              missed := set k | k in s.missed && Behind(k, s.cursor))
    case Visit(k, stale) =>
      if !s.pc.Visiting? || !First(s, k) || k !in s.events then s
      else if !s.events[k] then s.(pc := Passing(k))
      else if stale then s.(pc := Passing(k), seenStale := s.seenStale + {k})
      else s.(pc := Delivering(k, set c | c in s.enabled && (k, c) !in s.acks, true))
    case Try(c, answer) => if s.pc.Delivering? && c in s.pc.left then OnTry(s, c, answer) else s
    case Acknowledge =>
      if !s.pc.AckDue? then s
      else Ack(s, s.pc.key, s.pc.channel).(pc := Delivering(s.pc.key, s.pc.left, s.pc.ok))
    case EndDelivery =>
      if !s.pc.Delivering? || s.pc.left != {} then s
      else if s.pc.ok then s.(pc := Passing(s.pc.key)) else s.(pc := Idle, snapshot := {})
    case Advance =>
      if !s.pc.Passing? then s
      else s.(cursor := Some(s.pc.key), acks := (set a | a in s.acks && a.0 > s.pc.key),
              snapshot := s.snapshot - {s.pc.key}, pc := Visiting)
    case EndTick => if s.pc.Visiting? && s.snapshot == {} then s.(pc := Idle) else s
    case Crash =>
      s.(pc := Idle, snapshot := {},
         unacked := if s.pc.AckDue? then s.unacked + {(s.pc.key, s.pc.channel)} else s.unacked)
  }

  function Run(s: State, steps: seq<Step>): (r: State)
    decreases |steps|
  {
    if steps == [] then s else Run(Next(s, steps[0]), steps[1..])
  }

  predicate Initial(s: State) {
    && s.events == map[] && s.cursor.None? && s.acks == {} && s.snapshot == {} && s.pc.Idle?
    && s.sends == [] && s.everAcked == {} && s.seenStale == {} && s.unacked == {} && s.late == {} && s.missed == {}
  }

  // ---------------------------------------------------------------- the service itself

  /** One event of a tick and what happens while it is delivered. */
  datatype Turn = Turn(key: int, stale: bool, line: Answer, email: Answer)

  function DeliverScript(t: Turn): (steps: seq<Step>) {
    [Visit(t.key, t.stale)] + [Try(Line, t.line), Acknowledge] + [Try(Email, t.email), Acknowledge] + [EndDelivery]
  }

  function TurnScript(turns: seq<Turn>): (steps: seq<Step>) {
    if turns == [] then [EndTick] else DeliverScript(turns[0]) + ([Advance] + TurnScript(turns[1..]))
  }

  function TryBoth(s: State, t: Turn): (r: State) {
    Next(Next(Next(Next(s, Try(Line, t.line)), Acknowledge), Try(Email, t.email)), Acknowledge)
  }

  /** The answers after which a channel owes the event no more. */
  predicate Settles(answer: Answer) {
    answer.Suppressed? || answer.SendSucceeds?
  }

  function AnswerOn(t: Turn, c: Channel): (answer: Answer) {
    match c case Line => t.line case Email => t.email
  }

  /** The turns are the events a tick finds after the cursor, in order. */
  ghost predicate Lists(turns: seq<Turn>, snapshot: set<int>) {
    && (forall i, j :: 0 <= i < j < |turns| ==> turns[i].key < turns[j].key)
    && snapshot == (set i | 0 <= i < |turns| :: turns[i].key)
  }

  ghost function Due(s: State, upTo: int): (r: set<int>) {
    set k | k in s.events && !Behind(k, s.cursor) && k <= upTo
  }

  ghost function OutOfSight(s: State): (r: set<int>) {
    set k | k in s.missed && Behind(k, s.cursor)
  }

  /** A classified event that some enabled channel still owes. */
  ghost predicate Blocked(s: State, k: int) {
    k in s.events && s.events[k] && exists c :: c in s.enabled && (k, c) !in s.acks
  }

  class LifecycleNotificationService {
    const enabled: set<Channel>
    var events: map<int, bool>
    var cursor: Option<int>
    var acks: set<(int, Channel)>
    var sends: seq<(int, Channel)>
    ghost var everAcked: set<(int, Channel)>
    ghost var seenStale: set<int>
    ghost var unacked: set<(int, Channel)>
    ghost var late: set<int>
    ghost var missed: set<int>

    /** The state with the service standing at `pc` in this tick's snapshot. */
    ghost function At(pc: Pc, snapshot: set<int>): (s: State)
      reads this
    {
      State(enabled, events, cursor, acks, snapshot, pc, sends, everAcked, seenStale, unacked, late, missed)
    }

    /** An enabled channel that still owes the event, and whose send succeeds. */
    predicate Sends(key: int, channel: Channel, answer: Answer, acks: set<(int, Channel)>) {
      channel in enabled && (key, channel) !in acks && answer.SendSucceeds?
    }

    method AcknowledgeChannel(key: int, channel: Channel)
      modifies this`acks, this`everAcked
      ensures acks == old(acks) + {(key, channel)} && everAcked == old(everAcked) + {(key, channel)}
    {
      acks := acks + {(key, channel)};
      everAcked := everAcked + {(key, channel)};
    }

    /** One channel: skip it, back off, send, and acknowledge what was sent or suppressed. */
    method DeliverOn(key: int, channel: Channel, answer: Answer, acknowledged: set<Channel>,
                     ghost left: set<Channel>, ghost ok: bool, ghost snapshot: set<int>)
      returns (settled: bool)
      requires channel in left <==> channel in enabled && channel !in acknowledged
      requires channel in acknowledged <==> (key, channel) in acks
      modifies this`acks, this`sends, this`everAcked
      ensures At(Delivering(key, left - {channel}, ok && settled), snapshot) ==
              Next(Next(old(At(Delivering(key, left, ok), snapshot)), Try(channel, answer)), Acknowledge)
      ensures acks == if channel in enabled && Settles(answer) then old(acks) + {(key, channel)} else old(acks)
      ensures sends == old(sends) + if Sends(key, channel, answer, old(acks)) then [(key, channel)] else []
      ensures settled <==> channel !in enabled || (key, channel) in acks
    {
      if channel in acknowledged || channel !in enabled {
        assert left - {channel} == left;
        return true;
      }
      match answer
      case NotReady => settled := false;
      case SendFails => settled := false;
      case Suppressed =>
        AcknowledgeChannel(key, channel);
        settled := true;
      case SendSucceeds =>
        sends := sends + [(key, channel)];
        AcknowledgeChannel(key, channel);
        settled := true;
    }

    /** Both channels in turn. */
    method DeliverBoth(t: Turn, ghost left: set<Channel>, ghost snapshot: set<int>) returns (delivered: bool)
      requires left == set c | c in enabled && (t.key, c) !in acks
      modifies this`acks, this`sends, this`everAcked
      ensures At(Delivering(t.key, {}, delivered), snapshot) ==
              TryBoth(old(At(Delivering(t.key, left, true), snapshot)), t)
      ensures acks == old(acks) + set c | c in enabled && Settles(AnswerOn(t, c)) :: (t.key, c)
      ensures sends == old(sends) + (if Sends(t.key, Line, t.line, old(acks)) then [(t.key, Line)] else [])
                                  + (if Sends(t.key, Email, t.email, old(acks)) then [(t.key, Email)] else [])
      ensures delivered <==> forall c :: c in enabled ==> (t.key, c) in acks
    {
      hide Next;
      var acknowledged := set a | a in acks && a.0 == t.key :: a.1;
      var onLine := DeliverOn(t.key, Line, t.line, acknowledged, left, true, snapshot);
      var onEmail := DeliverOn(t.key, Email, t.email, acknowledged, left - {Line}, onLine, snapshot);
      forall c | c in enabled ensures c == Line || c == Email {
        match c case Line => case Email =>
      }
      assert left - {Line} - {Email} == {};
      delivered := onLine && onEmail;
    }

    /** An event is settled when it is noise, old news, or acknowledged wherever it must go. */
    method Deliver(t: Turn, ghost snapshot: set<int>) returns (delivered: bool)
      requires t.key in events && First(At(Visiting, snapshot), t.key)
      modifies this`acks, this`sends, this`everAcked, this`seenStale
      ensures (if delivered then At(Passing(t.key), snapshot) else At(Idle, {})) ==
              Run(old(At(Visiting, snapshot)), DeliverScript(t))
      ensures delivered <==> !events[t.key] || t.stale || forall c :: c in enabled ==> (t.key, c) in acks
      ensures !events[t.key] || t.stale ==> acks == old(acks) && sends == old(sends)
      ensures events[t.key] && !t.stale ==>
                && acks == old(acks) + (set c | c in enabled && Settles(AnswerOn(t, c)) :: (t.key, c))
                && sends == old(sends) + (if Sends(t.key, Line, t.line, old(acks)) then [(t.key, Line)] else [])
                                       + (if Sends(t.key, Email, t.email, old(acks)) then [(t.key, Email)] else [])
    {
      ghost var s := At(Visiting, snapshot);
      DeliverUnrolls(s, t);
      hide Run, DeliverScript, TryBoth;
      PassingIgnores(Next(s, Visit(t.key, t.stale)), t);
      if !events[t.key] {
        return true;
      }
      if t.stale {
        seenStale := seenStale + {t.key};
        return true;
      }
      delivered := DeliverBoth(t, (set c | c in enabled && (t.key, c) !in acks), snapshot);
    }

    /** Advance the cursor and forget the acknowledgements it covers. */
    method AdvanceCursor(key: int, ghost snapshot: set<int>)
      modifies this`cursor, this`acks
      ensures At(Visiting, snapshot - {key}) == Next(old(At(Passing(key), snapshot)), Advance)
      ensures cursor == Some(key) && forall a :: a in acks <==> a in old(acks) && a.0 > key
    {
      cursor := Some(key);
      acks := set a | a in acks && a.0 > key;
    }

    /** Deliver one event of the tick and advance past it if it is settled. */
    method TakeTurn(turns: seq<Turn>, i: nat, ghost snapshot: set<int>) returns (done: bool)
      requires i < |turns| && turns[i].key in events && First(At(Visiting, snapshot), turns[i].key)
      modifies this`cursor, this`acks, this`sends, this`everAcked, this`seenStale
      ensures Run(old(At(Visiting, snapshot)), TurnScript(turns[i..])) ==
              if done then Run(At(Visiting, snapshot - {turns[i].key}), TurnScript(turns[i + 1..])) else At(Idle, {})
      ensures cursor == if done then Some(turns[i].key) else old(cursor)
      ensures !done ==> !turns[i].stale && Blocked(At(Idle, {}), turns[i].key)
    {
      hide Run, DeliverScript, TurnScript, Next;
      ghost var before := At(Visiting, snapshot);
      done := Deliver(turns[i], snapshot);
      if done {
        ghost var delivered := At(Passing(turns[i].key), snapshot);
        AdvanceCursor(turns[i].key, snapshot);
        TurnContinues(before, delivered, At(Visiting, snapshot - {turns[i].key}), turns, i);
      } else {
        TurnStops(before, At(Idle, {}), turns, i);
      }
    }

    /** Deliver in order, advance past what is settled, stop at the first that is not. */
    method TakeTurns(turns: seq<Turn>, ghost listed: set<int>) returns (passed: nat)
      requires Lists(turns, listed) && forall k :: k in listed ==> k in events
      modifies this`cursor, this`acks, this`sends, this`everAcked, this`seenStale
      ensures At(Idle, {}) == Run(old(At(Visiting, listed)), TurnScript(turns))
      ensures passed <= |turns|
      ensures cursor == if passed == 0 then old(cursor) else Some(turns[passed - 1].key)
      ensures passed < |turns| ==> !turns[passed].stale && Blocked(At(Idle, {}), turns[passed].key)
    {
      hide Run, TurnScript, Lists, First, Blocked;
      ghost var snapshot := listed;
      ghost var goal := Run(At(Visiting, listed), TurnScript(turns));
      assert turns[0..] == turns;
      passed := 0;
      while passed < |turns|
        invariant passed <= |turns|
        invariant Lists(turns[passed..], snapshot) && snapshot <= listed
        invariant cursor == if passed == 0 then old(cursor) else Some(turns[passed - 1].key)
        invariant goal == Run(At(Visiting, snapshot), TurnScript(turns[passed..]))
      {
        FirstListed(turns, passed, At(Visiting, snapshot));
        var done := TakeTurn(turns, passed, snapshot);
        if !done {
          return;
        }
        snapshot := snapshot - {turns[passed].key};
        passed := passed + 1;
      }
      assert turns[passed..] == [];
      EndUnrolls(At(Visiting, snapshot));
    }

    /** One tick over what the store lists after the cursor. */
    method Tick(turns: seq<Turn>, ghost upTo: int) returns (passed: nat)
      requires Lists(turns, Due(At(Idle, {}), upTo))
      modifies this`cursor, this`acks, this`sends, this`everAcked, this`seenStale, this`missed
      ensures At(Idle, {}) == Run(old(At(Idle, {})), [BeginTick(upTo)] + TurnScript(turns))
      ensures passed <= |turns|
      ensures cursor == if passed == 0 then old(cursor) else Some(turns[passed - 1].key)
      ensures passed < |turns| ==> !turns[passed].stale && Blocked(At(Idle, {}), turns[passed].key)
    {
      BeginUnrolls(At(Idle, {}), upTo, turns);
      hide Run, TurnScript, Lists, Blocked;
      missed := OutOfSight(At(Idle, {}));
      passed := TakeTurns(turns, Due(At(Idle, {}), upTo));
    }
  }

  lemma PassingIgnores(s: State, t: Turn)
    ensures s.pc.Passing? ==> Next(TryBoth(s, t), EndDelivery) == s
  {
  }

  lemma RunStep(s: State, a: Step, rest: seq<Step>)
    ensures Run(s, [a] + rest) == Run(Next(s, a), rest)
  {
  }

  lemma BeginUnrolls(s: State, upTo: int, turns: seq<Turn>)
    requires s.pc.Idle?
    ensures Run(s, [BeginTick(upTo)] + TurnScript(turns)) ==
            Run(s.(pc := Visiting, snapshot := Due(s, upTo), missed := OutOfSight(s)), TurnScript(turns))
  {
  }

  lemma EndUnrolls(s: State)
    requires s.pc.Visiting? && Lists([], s.snapshot)
    ensures Run(s, TurnScript([])) == s.(pc := Idle, snapshot := {})
  {
  }

  lemma DeliverUnrolls(s: State, t: Turn)
    ensures Run(s, DeliverScript(t)) ==
            Next(TryBoth(Next(s, Visit(t.key, t.stale)), t), EndDelivery)
  {
    hide Next;
    var s1 := Next(s, Visit(t.key, t.stale));
    var s2 := Next(Next(s1, Try(Line, t.line)), Acknowledge);
    var s3 := Next(Next(s2, Try(Email, t.email)), Acknowledge);
    var last := [EndDelivery];
    var email := [Try(Email, t.email), Acknowledge] + last;
    var line := [Try(Line, t.line), Acknowledge] + email;
    assert DeliverScript(t) == [Visit(t.key, t.stale)] + line;
    RunStep(s, Visit(t.key, t.stale), line);
    RunTwo(s1, Try(Line, t.line), Acknowledge, email);
    RunTwo(s2, Try(Email, t.email), Acknowledge, last);
    assert last == [EndDelivery] + [];
    RunStep(s3, EndDelivery, []);
  }

  lemma RunTwo(s: State, a: Step, b: Step, rest: seq<Step>)
    ensures Run(s, [a, b] + rest) == Run(Next(Next(s, a), b), rest)
  {
  }

  lemma {:induction false} RunConcat(s: State, a: seq<Step>, b: seq<Step>)
    ensures Run(s, a + b) == Run(Run(s, a), b)
    decreases |a|
  {
    if a == [] {
      assert a + b == b;
    } else {
      assert (a + b)[1..] == a[1..] + b;
      RunConcat(Next(s, a[0]), a[1..], b);
    }
  }

  lemma FirstListed(turns: seq<Turn>, i: nat, s: State)
    requires i < |turns| && Lists(turns[i..], s.snapshot)
    ensures First(s, turns[i].key) && turns[i].key in s.snapshot
    ensures Lists(turns[i + 1..], s.snapshot - {turns[i].key})
  {
  }

  lemma TurnUnrolls(s: State, turns: seq<Turn>, i: nat)
    requires i < |turns|
    ensures Run(s, TurnScript(turns[i..])) ==
            Run(Next(Run(s, DeliverScript(turns[i])), Advance), TurnScript(turns[i + 1..]))
  {
    hide DeliverScript, Next;
    var rest := TurnScript(turns[i + 1..]);
    assert turns[i..][0] == turns[i] && turns[i..][1..] == turns[i + 1..];
    RunConcat(s, DeliverScript(turns[i]), [Advance] + rest);
    assert ([Advance] + rest)[0] == Advance && ([Advance] + rest)[1..] == rest;
  }

  lemma TurnContinues(s: State, delivered: State, next: State, turns: seq<Turn>, i: nat)
    requires i < |turns| && delivered == Run(s, DeliverScript(turns[i])) && next == Next(delivered, Advance)
    ensures Run(s, TurnScript(turns[i..])) == Run(next, TurnScript(turns[i + 1..]))
  {
    TurnUnrolls(s, turns, i);
  }

  /** Once a delivery has stopped the tick, the rest of the script changes nothing. */
  lemma TurnStops(s: State, idle: State, turns: seq<Turn>, i: nat)
    requires i < |turns| && idle == Run(s, DeliverScript(turns[i])) && idle.pc.Idle?
    ensures Run(s, TurnScript(turns[i..])) == idle
  {
    TurnUnrolls(s, turns, i);
    IdleIgnores(idle, turns[i + 1..]);
  }

  lemma {:induction false} IdleIgnores(s: State, turns: seq<Turn>)
    requires s.pc.Idle?
    ensures Run(s, TurnScript(turns)) == s
    decreases |turns|
  {
    if turns == [] {
      assert Run(s, [EndTick]) == Run(Next(s, EndTick), []);
    } else {
      TurnUnrolls(s, turns, 0);
      assert turns[0..] == turns;
      DeliverUnrolls(s, turns[0]);
      IdleIgnores(s, turns[1..]);
    }
  }

  // ---------------------------------------------------------------- the cursor

  /** The reasons for which an event may be left behind. */
  ghost predicate Settled(s: State, k: int)
    requires k in s.events
  {
    !s.events[k] || k in s.seenStale || forall c :: c in s.enabled ==> (k, c) in s.everAcked
  }

  /** The event at work is the first of the snapshot, in order after the cursor. */
  ghost predicate AtWork(s: State) {
    (s.pc.Delivering? || s.pc.AckDue? || s.pc.Passing?) ==>
      First(s, s.pc.key) && s.pc.key in s.events
  }

  ghost predicate Progress(s: State) {
    && (s.pc.Passing? ==> s.pc.key in s.events && Settled(s, s.pc.key))
    && (s.pc.Delivering? && s.pc.ok ==>
          forall c :: c in s.enabled && c !in s.pc.left ==> (s.pc.key, c) in s.everAcked)
    && (s.pc.AckDue? && s.pc.ok ==>
          forall c :: c in s.enabled && c !in s.pc.left && c != s.pc.channel ==> (s.pc.key, c) in s.everAcked)
    && s.acks <= s.everAcked
    && (s.pc.AckDue? ==> (s.pc.key, s.pc.channel) in s.sends)
    && (s.pc.Delivering? || s.pc.AckDue? ==> s.pc.key in s.events && s.events[s.pc.key])
    && (s.pc.Delivering? || s.pc.AckDue? ==> s.pc.left <= s.enabled)
    && (forall k :: k in s.snapshot ==> k in s.events && !Behind(k, s.cursor))
    && AtWork(s)
    && (s.pc.Idle? ==> s.snapshot == {})
  }

  /** Events within sight are in the snapshot or not yet due. */
  ghost predicate Complete(s: State) {
    forall k, x :: k in s.events && k !in s.missed && !Behind(k, s.cursor) && x in s.snapshot && k <= x ==> k in s.snapshot
  }

  ghost predicate Passed(s: State) {
    forall k :: k in s.events && k !in s.missed && Behind(k, s.cursor) ==> Settled(s, k)
  }

  /** Nothing was ever done about an event out of sight. */
  ghost predicate Untouched(s: State) {
    && (forall k :: k in s.missed ==>
          k in s.events && k !in s.snapshot && k !in s.seenStale && forall c :: (k, c) !in s.everAcked)
    && (forall a :: a in s.everAcked ==> a.0 in s.events)
    && (forall k :: k in s.seenStale ==> k in s.events)
  }

  lemma NextKeepsProgress(s: State, step: Step)
    requires Progress(s)
    ensures Progress(Next(s, step))
  {
  }

  lemma NextKeepsComplete(s: State, step: Step)
    requires Progress(s) && Complete(s)
    ensures Complete(Next(s, step))
  {
  }

  lemma NextKeepsPassed(s: State, step: Step)
    requires Progress(s) && Complete(s) && Passed(s)
    ensures Passed(Next(s, step))
  {
  }

  lemma NextKeepsUntouched(s: State, step: Step)
    requires Progress(s) && Untouched(s)
    ensures Untouched(Next(s, step))
  {
  }

  lemma {:induction false} RunKeepsPassed(s: State, steps: seq<Step>)
    requires Progress(s) && Complete(s) && Passed(s) && Untouched(s)
    ensures var r := Run(s, steps); Progress(r) && Complete(r) && Passed(r) && Untouched(r)
    decreases |steps|
  {
    if steps != [] {
      hide Progress, Complete, Passed, Untouched, Next;
      NextKeepsProgress(s, steps[0]);
      NextKeepsComplete(s, steps[0]);
      NextKeepsPassed(s, steps[0]);
      NextKeepsUntouched(s, steps[0]);
      RunKeepsPassed(Next(s, steps[0]), steps[1..]);
    }
  }

  /** The cursor passes an event only if it is unclassified, was stale when it was visited, or was
      acknowledged on every enabled channel, unless the event was written behind the cursor or below
      the snapshot of the tick that passed it. */
  lemma CursorPassesOnlySettled(s: State, steps: seq<Step>, k: int)
    requires Initial(s)
    requires var r := Run(s, steps); k in r.events && k !in r.missed && Behind(k, r.cursor)
    ensures Settled(Run(s, steps), k)
  {
    RunKeepsPassed(s, steps);
  }

  /** What holds after a run and not before it became true at one of its steps. */
  lemma {:induction false} FirstTime(s: State, steps: seq<Step>, holds: State -> bool) returns (m: nat)
    requires !holds(s) && holds(Run(s, steps))
    ensures m < |steps| && !holds(Run(s, steps[..m])) && holds(Next(Run(s, steps[..m]), steps[m]))
    decreases |steps|
  {
    hide Next;
    var t := Next(s, steps[0]);
    if holds(t) {
      m := 0;
      assert steps[..0] == [];
    } else {
      var n := FirstTime(t, steps[1..], holds);
      m := n + 1;
      assert steps[..m][0] == steps[0] && steps[..m][1..] == steps[1..][..n];
    }
  }

  /** Step m tries the channel while the event is being delivered, with this answer. */
  ghost predicate TriedAt(s: State, steps: seq<Step>, m: nat, k: int, c: Channel, answer: Answer) {
    && m < |steps| && steps[m] == Try(c, answer)
    && var t := Run(s, steps[..m]);
       t.pc.Delivering? && t.pc.key == k && c in t.pc.left && k in t.events && t.events[k] && c in t.enabled
  }

  lemma PrefixProgress(s: State, steps: seq<Step>, m: nat)
    requires Initial(s) && m <= |steps|
    ensures Progress(Run(s, steps[..m]))
  {
    RunKeepsPassed(s, steps[..m]);
  }

  /** Nothing is sent but by a try that succeeded, on an enabled channel, of the classified event that was
      being delivered. */
  lemma SentWasTried(s: State, steps: seq<Step>, k: int, c: Channel)
    requires Initial(s) && (k, c) in Run(s, steps).sends
    ensures exists m: nat :: TriedAt(s, steps, m, k, c, SendSucceeds)
  {
    var m := FirstTime(s, steps, (t: State) => (k, c) in t.sends);
    PrefixProgress(s, steps, m);
    hide Run, Next;
    SendIsTry(Run(s, steps[..m]), steps[m], k, c);
    assert TriedAt(s, steps, m, k, c, SendSucceeds);
  }

  lemma SendIsTry(s: State, step: Step, k: int, c: Channel)
    requires Progress(s) && (k, c) !in s.sends && (k, c) in Next(s, step).sends
    ensures step == Try(c, SendSucceeds) && s.pc.Delivering? && s.pc.key == k && c in s.pc.left
    ensures k in s.events && s.events[k] && c in s.enabled
  {
  }

  /** An acknowledgement follows a successful send of that event on that channel, or a suppressed one;
      never a failed send nor a channel that backs off. */
  lemma AcknowledgedWasSent(s: State, steps: seq<Step>, k: int, c: Channel)
    requires Initial(s) && (k, c) in Run(s, steps).everAcked
    ensures (k, c) in Run(s, steps).sends || exists m: nat :: TriedAt(s, steps, m, k, c, Suppressed)
  {
    var m := FirstTime(s, steps, (t: State) => (k, c) in t.everAcked);
    PrefixProgress(s, steps, m);
    if steps[m].Acknowledge? {
      assert (k, c) in Run(s, steps[..m]).sends by { hide Run; }
      SendsGrow(s, steps, m);
      assert Run(s, steps[..m]).sends <= Run(s, steps).sends;
    } else {
      hide Run;
      assert TriedAt(s, steps, m, k, c, Suppressed);
    }
  }

  lemma SendsGrow(s: State, steps: seq<Step>, m: nat)
    requires m <= |steps|
    ensures Run(s, steps[..m]).sends <= Run(s, steps).sends
  {
    RunConcat(s, steps[..m], steps[m..]);
    assert steps[..m] + steps[m..] == steps;
    RunGrows(Run(s, steps[..m]), steps[m..]);
  }

  lemma {:induction false} RunGrows(s: State, steps: seq<Step>)
    ensures s.sends <= Run(s, steps).sends
    decreases |steps|
  {
    if steps != [] {
      RunGrows(Next(s, steps[0]), steps[1..]);
    }
  }

  /** Step m visits the event and finds it stale. */
  ghost predicate StaleAt(s: State, steps: seq<Step>, m: nat, k: int) {
    m < |steps| && steps[m] == Visit(k, true) && Run(s, steps[..m]).pc.Visiting? && First(Run(s, steps[..m]), k)
  }

  /** So the cursor passes a classified event within its sight only if some visit found it stale, or every
      enabled channel has sent it or suppressed it. */
  lemma PassedWasTold(s: State, steps: seq<Step>, k: int)
    requires Initial(s)
    requires var r := Run(s, steps); k in r.events && r.events[k] && k !in r.missed && Behind(k, r.cursor)
    ensures || (exists m: nat :: StaleAt(s, steps, m, k))
            || forall c :: c in s.enabled ==>
                 (k, c) in Run(s, steps).sends || exists m: nat :: TriedAt(s, steps, m, k, c, Suppressed)
  {
    CursorPassesOnlySettled(s, steps, k);
    EnabledIsFixed(s, steps);
    if k in Run(s, steps).seenStale {
      var m := FirstTime(s, steps, (t: State) => k in t.seenStale);
      hide Run;
      assert StaleAt(s, steps, m, k);
    } else {
      forall c | c in s.enabled
        ensures (k, c) in Run(s, steps).sends || exists m: nat :: TriedAt(s, steps, m, k, c, Suppressed)
      {
        AcknowledgedWasSent(s, steps, k, c);
      }
    }
  }

  /** And that exception is exact: a classified event that the cursor has passed is settled if and
      only if it was within sight. */
  lemma PassedIsSettledIff(s: State, steps: seq<Step>, k: int)
    requires Initial(s) && s.enabled != {}
    requires var r := Run(s, steps); k in r.events && r.events[k] && Behind(k, r.cursor)
    ensures Settled(Run(s, steps), k) <==> k !in Run(s, steps).missed
  {
    RunKeepsPassed(s, steps);
    EnabledIsFixed(s, steps);
    var c :| c in s.enabled;
    var r := Run(s, steps);
    assert k in r.missed ==> (k, c) !in r.everAcked;
  }

  lemma {:induction false} EnabledIsFixed(s: State, steps: seq<Step>)
    ensures Run(s, steps).enabled == s.enabled
    decreases |steps|
  {
    if steps != [] {
      EnabledIsFixed(Next(s, steps[0]), steps[1..]);
    }
  }

  /** An event inserted behind the cursor is never visited, sent or acknowledged. */
  lemma {:induction false} BehindIsSkipped(s: State, steps: seq<Step>, k: int)
    requires Progress(s) && Behind(k, s.cursor)
    ensures var r := Run(s, steps);
            && Progress(r) && Behind(k, r.cursor)
            && (forall c :: (k, c) in r.sends <==> (k, c) in s.sends)
            && (forall c :: (k, c) in r.everAcked <==> (k, c) in s.everAcked)
            && (k in r.seenStale <==> k in s.seenStale) && r.enabled == s.enabled
            && (k in s.events ==> k in r.events && r.events[k] == s.events[k])
    decreases |steps|
  {
    if steps != [] {
      NextKeepsProgress(s, steps[0]);
      SkipStep(s, steps[0], k);
      hide Progress, Next;
      BehindIsSkipped(Next(s, steps[0]), steps[1..], k);
    }
  }

  lemma SkipStep(s: State, step: Step, k: int)
    requires Progress(s) && Behind(k, s.cursor)
    ensures var t := Next(s, step);
            && Behind(k, t.cursor)
            && (forall c :: (k, c) in t.sends <==> (k, c) in s.sends)
            && (forall c :: (k, c) in t.everAcked <==> (k, c) in s.everAcked)
            && (k in t.seenStale <==> k in s.seenStale) && t.enabled == s.enabled
            && (k in s.events ==> k in t.events && t.events[k] == s.events[k])
  {
  }

  /** Once behind the cursor it stays there unsettled for ever. */
  lemma MissedStaysUnsettled(s: State, k: int, steps: seq<Step>)
    requires Progress(s) && Behind(k, s.cursor) && k in s.events && s.events[k] && k !in s.seenStale && s.enabled != {}
    requires forall c :: (k, c) !in s.everAcked
    ensures var r := Run(s, steps); k in r.events && Behind(k, r.cursor) && !Settled(r, k)
  {
    BehindIsSkipped(s, steps, k);
    var c :| c in s.enabled;
    assert (k, c) !in Run(s, steps).everAcked;
  }

  /** Lost for ever: a classified event written with a position behind the cursor. */
  lemma LateEventIsLost(s: State, k: int, steps: seq<Step>)
    requires Progress(s) && Untouched(s) && Behind(k, s.cursor) && k !in s.events && s.enabled != {}
    ensures var r := Run(Next(s, Insert(k, true)), steps);
            k in r.events && Behind(k, r.cursor) && !Settled(r, k)
  {
    NextKeepsProgress(s, Insert(k, true));
    MissedStaysUnsettled(Next(s, Insert(k, true)), k, steps);
  }

  /** Lost for ever: one written ahead of the cursor while a tick is about to pass a later event. */
  lemma OvertakenEventIsLost(s: State, k: int, steps: seq<Step>)
    requires Progress(s) && Untouched(s) && s.pc.Passing? && k < s.pc.key && !Behind(k, s.cursor)
    requires k !in s.events && s.enabled != {}
    ensures var r := Run(Next(Next(s, Insert(k, true)), Advance), steps);
            k in r.events && Behind(k, r.cursor) && !Settled(r, k)
  {
    var t := Next(s, Insert(k, true));
    NextKeepsProgress(s, Insert(k, true));
    NextKeepsProgress(t, Advance);
    MissedStaysUnsettled(Next(t, Advance), k, steps);
  }

  // ---------------------------------------------------------------- the order of sends

  /** Sends on one channel go up, except for events inserted below existing ones; a repetition is one
      whose acknowledgement a crash swallowed. */
  ghost predicate InOrder(s: State) {
    forall i, j :: 0 <= i < j < |s.sends| && s.sends[i].1 == s.sends[j].1 ==>
      && (s.sends[i] == s.sends[j] ==> s.sends[i] in s.unacked)
      && (s.sends[j].0 < s.sends[i].0 ==> s.sends[j].0 in s.late)
  }

  /** No event still to come belongs before anything sent, unless it is late. */
  ghost predicate Frontline(s: State) {
    forall a, x :: a in s.sends && x in s.events && x !in s.late && !Behind(x, s.cursor) ==> a.0 <= x
  }

  /** A send beyond the cursor is acknowledged, about to be, or its acknowledgement was lost. */
  ghost predicate Receipts(s: State) {
    forall a :: a in s.sends && !Behind(a.0, s.cursor) ==>
      a in s.acks || a in s.unacked || (s.pc.AckDue? && a == (s.pc.key, s.pc.channel))
  }

  /** Channels still to be tried have no acknowledgement for the event. */
  ghost predicate LeftUnacked(s: State) {
    && (s.pc.Delivering? ==> forall c :: c in s.pc.left ==> (s.pc.key, c) !in s.acks)
    && (s.pc.AckDue? ==> s.pc.channel !in s.pc.left && forall c :: c in s.pc.left ==> (s.pc.key, c) !in s.acks)
  }

  ghost predicate Orderly(s: State) {
    && InOrder(s) && Frontline(s) && Receipts(s) && LeftUnacked(s)
    && (forall a :: a in s.sends ==> a.0 in s.events) && s.missed <= s.late
  }

  lemma WorkIsFirst(s: State)
    requires Progress(s) && Complete(s) && s.missed <= s.late && s.pc.Delivering?
    ensures forall x :: x in s.events && x !in s.late && !Behind(x, s.cursor) ==> s.pc.key <= x
    ensures !Behind(s.pc.key, s.cursor)
  {
  }

  lemma TryKeepsOrder(s: State, c: Channel, answer: Answer)
    requires Progress(s) && Complete(s) && Orderly(s)
    requires s.pc.Delivering? && c in s.pc.left
    ensures Orderly(Next(s, Try(c, answer)))
  {
    WorkIsFirst(s);
    hide Complete, Settled;
    var t := Next(s, Try(c, answer));
    if answer.SendSucceeds? {
      var a := (s.pc.key, c);
      forall i | 0 <= i < |s.sends| && s.sends[i].1 == c
        ensures (s.sends[i] == a ==> a in t.unacked) && (a.0 < s.sends[i].0 ==> a.0 in t.late)
      {
        assert s.sends[i] in s.sends;
      }
    }
  }

  lemma NextKeepsOrder(s: State, step: Step)
    requires Progress(s) && Complete(s) && Orderly(s)
    ensures Orderly(Next(s, step))
  {
    if step.Try? && s.pc.Delivering? && step.channel in s.pc.left {
      TryKeepsOrder(s, step.channel, step.answer);
    }
  }

  lemma {:induction false} RunKeepsOrder(s: State, steps: seq<Step>)
    requires Progress(s) && Complete(s) && Orderly(s)
    ensures Orderly(Run(s, steps))
    decreases |steps|
  {
    if steps != [] {
      hide Progress, Complete, Orderly, Next;
      NextKeepsProgress(s, steps[0]);
      NextKeepsComplete(s, steps[0]);
      NextKeepsOrder(s, steps[0]);
      RunKeepsOrder(Next(s, steps[0]), steps[1..]);
    }
  }

  /** Step m inserts the event behind the cursor or below one that is there. */
  ghost predicate LateAt(s: State, steps: seq<Step>, m: nat, k: int) {
    && m < |steps| && steps[m].Insert? && steps[m].key == k
    && var t := Run(s, steps[..m]);
       k !in t.events && (Behind(k, t.cursor) || exists x :: x in t.events && k < x)
  }

  /** Step m is a crash that falls between a send and its acknowledgement. */
  ghost predicate CrashAt(s: State, steps: seq<Step>, m: nat, k: int, c: Channel) {
    && m < |steps| && steps[m].Crash?
    && var t := Run(s, steps[..m]); t.pc.AckDue? && t.pc.key == k && t.pc.channel == c
  }

  /** In every run each channel's successful sends are in event order except for events inserted below
      existing ones, and one repeats only if a crash fell between an earlier send of it and its
      acknowledgement. */
  lemma SendsInOrder(s: State, steps: seq<Step>, i: nat, j: nat)
    requires Initial(s)
    requires var sends := Run(s, steps).sends; i < j < |sends| && sends[i].1 == sends[j].1
    ensures var sends := Run(s, steps).sends;
            && (sends[i] == sends[j] ==> exists m: nat :: CrashAt(s, steps, m, sends[i].0, sends[i].1))
            && (sends[j].0 < sends[i].0 ==> exists m: nat :: LateAt(s, steps, m, sends[j].0))
  {
    RunKeepsOrder(s, steps);
    assert InOrder(Run(s, steps));
    hide Run, LateAt, CrashAt, Orderly, Complete, Progress;
    var a, b := Run(s, steps).sends[i], Run(s, steps).sends[j];
    if a == b {
      UnackedWasCrash(s, steps, a.0, a.1);
    } else if b.0 < a.0 {
      LateWasInserted(s, steps, b.0);
    }
  }

  lemma UnackedWasCrash(s: State, steps: seq<Step>, k: int, c: Channel)
    requires Initial(s) && (k, c) in Run(s, steps).unacked
    ensures exists m: nat :: CrashAt(s, steps, m, k, c)
  {
    var m := FirstTime(s, steps, (t: State) => (k, c) in t.unacked);
    hide Run;
    assert CrashAt(s, steps, m, k, c);
  }

  lemma LateWasInserted(s: State, steps: seq<Step>, k: int)
    requires Initial(s) && k in Run(s, steps).late
    ensures exists m: nat :: LateAt(s, steps, m, k)
  {
    var m := FirstTime(s, steps, (t: State) => k in t.late);
    hide Run;
    assert LateAt(s, steps, m, k);
  }
}
