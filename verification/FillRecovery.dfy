/**
 The recovery half of the fill service's tick as it runs: exits whose order was never found, the
 stops of open positions, and the protection gaps that close the entry gate.
 */
module FillRecovery {
  import opened ExitLifecycle

  /** The rows of a list that no active stop covers, in order. */
  function Gaps(positions: map<int, Position>, rows: seq<int>): (r: seq<int>) {
    if rows == [] then []
    else
      var last := rows[|rows| - 1];
      Gaps(positions, rows[..|rows| - 1]) + if last in positions && Bare(positions[last]) then [last] else []
  }

  lemma {:induction false} GapsAreBare(positions: map<int, Position>, rows: seq<int>)
    ensures forall i :: i in Gaps(positions, rows) <==> i in rows && i in positions && Bare(positions[i])
  {
    if rows != [] {
      assert rows == rows[..|rows| - 1] + [rows[|rows| - 1]];
      GapsAreBare(positions, rows[..|rows| - 1]);
    }
  }

  function StartOf(started: map<int, real>, i: int, now: real): (t: real) {
    if i in started then started[i] else now
  }

  /** How long a gap has lasted; clocks that went back count as zero. */
  function Age(started: map<int, real>, i: int, now: real): (age: real)
    ensures age >= 0.0
  {
    var d := now - StartOf(started, i, now);
    if d < 0.0 then 0.0 else d
  }

  /** What the gap loop keeps: the persisted start and alert marks, and what it reports. */
  datatype Track = Track(started: map<int, real>, alerted: set<int>, unprotected: nat, oldest: real, alerts: seq<int>)

  /** One more bare row: note when its gap began, and alert once it has lasted too long. */
  function Note(t: Track, i: int, now: real, after: real): (r: Track) {
    var started := if i in t.started then t.started else t.started[i := now];
    var age := Age(started, i, now);
    var due := age >= after && i !in t.alerted;
    Track(started, if due then t.alerted + {i} else t.alerted, t.unprotected + 1,
          if t.oldest < age then age else t.oldest, if due then t.alerts + [i] else t.alerts)
  }

  function NoteAll(t: Track, gaps: seq<int>, now: real, after: real): (r: Track) {
    if gaps == [] then t else Note(NoteAll(t, gaps[..|gaps| - 1], now, after), gaps[|gaps| - 1], now, after)
  }

  /** Every gap is counted, and dated from when it was first seen. */
  lemma {:induction false} GapsAreDated(t: Track, gaps: seq<int>, now: real, after: real)
    ensures var r := NoteAll(t, gaps, now, after);
            && r.unprotected == t.unprotected + |gaps|
            && (forall i :: i in r.started <==> i in t.started || i in gaps)
            && (forall i :: i in r.started ==> r.started[i] == StartOf(t.started, i, now))
  {
    if gaps != [] {
      assert gaps == gaps[..|gaps| - 1] + [gaps[|gaps| - 1]];
      GapsAreDated(t, gaps[..|gaps| - 1], now, after);
    }
  }

  /** The age of a gap is the same before and after its start is noted. */
  lemma AgeIsStable(t: Track, gaps: seq<int>, i: int, now: real, after: real)
    ensures var r := NoteAll(t, gaps, now, after);
            Age(if i in r.started then r.started else r.started[i := now], i, now) == Age(t.started, i, now)
  {
  }

  /** The reported age is the greatest of them. */
  lemma {:induction false} OldestGapIsFound(t: Track, gaps: seq<int>, now: real, after: real)
    requires t.oldest == 0.0
    ensures var r := NoteAll(t, gaps, now, after);
            && r.oldest >= 0.0 && (forall i :: i in gaps ==> Age(t.started, i, now) <= r.oldest)
            && (r.oldest == 0.0 || exists i :: i in gaps && Age(t.started, i, now) == r.oldest)
  {
    if gaps != [] {
      var rest, last := gaps[..|gaps| - 1], gaps[|gaps| - 1];
      assert gaps == rest + [last];
      OldestGapIsFound(t, rest, now, after);
      AgeIsStable(t, rest, last, now, after);
      hide Age;
      var r := NoteAll(t, gaps, now, after);
      if r.oldest == Age(t.started, last, now) {
        assert last in gaps;
      } else if r.oldest != 0.0 {
        var i :| i in rest && Age(t.started, i, now) == r.oldest;
        assert i in gaps;
      }
    }
  }

  /** An overdue gap is alerted exactly when it never was before, and only once. */
  lemma {:induction false} OverdueGapsAreAlertedOnce(t: Track, gaps: seq<int>, now: real, after: real)
    requires t.alerts == []
    ensures var r := NoteAll(t, gaps, now, after);
            && (forall i :: i in r.alerts <==> i in gaps && i !in t.alerted && Age(t.started, i, now) >= after)
            && (forall a, b :: 0 <= a < b < |r.alerts| ==> r.alerts[a] != r.alerts[b])
            && (forall i :: i in r.alerted <==> i in t.alerted || i in r.alerts)
  {
    if gaps != [] {
      var rest, last := gaps[..|gaps| - 1], gaps[|gaps| - 1];
      assert gaps == rest + [last];
      OverdueGapsAreAlertedOnce(t, rest, now, after);
      AgeIsStable(t, rest, last, now, after);
      hide Age;
    }
  }

  /** The row after its exit was looked up: recovered if the order is missing for too long, linked if it is
      there, and otherwise left alone. */
  function Looked(p: Position, lookup: Lookup, pastStaleAge: bool, restores: Restoration): (q: Position)
    ensures !lookup.Found? || (lookup.count == 0 && !pastStaleAge) || (lookup.count > 0 && !lookup.hasId) ==> q == p
    ensures lookup.Found? && lookup.count > 0 && lookup.hasId ==> q == p.(hasOrder := true, exec := Settled)
    ensures lookup.Found? && lookup.count == 0 && pastStaleAge ==>
              var recovers := p.status.Closing? || p.status.Reducing?;
              && (recovers ==> q.status.Open? && q.client.None? && q.exec.Settled?)
              && (!recovers ==> q.status == p.status && q.client == p.client && q.exec == p.exec)
              && q.stop == (if (recovers || p.status.Open?) && (p.stop.Canceled? || p.stop.Triggered?) && restores.Protects?
                            then ActiveStop else p.stop)
  {
    if !lookup.Found? then p
    else if lookup.count == 0 then
      if !pastStaleAge then p
      else
        var r := if p.status.Closing? || p.status.Reducing? then Recovered(p) else p;
        if Rearms(r) then Restored(r, restores) else r
    else if lookup.hasId then p.(hasOrder := true, exec := Settled) else p
  }

  /** The verification of every row of a list. */
  function VerifySteps(rows: seq<int>, verified: int -> bool, restores: int -> Restoration): (steps: seq<Step>)
    ensures |steps| == |rows|
  {
    seq(|rows|, k requires 0 <= k < |rows| => VerifyStop(rows[k], verified(rows[k]), restores(rows[k])))
  }

  /** All stops of a list's rows with exposure are known to be in place. */
  ghost predicate AllVouched(positions: map<int, Position>, rows: seq<int>, verified: int -> bool, restores: int -> Restoration) {
    forall i :: i in rows && i in positions && Effective(positions[i]) > 0.0 ==> Vouched(positions[i], verified(i), restores(i))
  }

  lemma NoneToVouch(positions: map<int, Position>, verified: int -> bool, restores: int -> Restoration)
    ensures AllVouched(positions, [], verified, restores)
  {
  }

  lemma VouchedExtends(positions: map<int, Position>, rows: seq<int>, k: nat, verified: int -> bool, restores: int -> Restoration)
    requires k < |rows| && rows[k] in positions
    ensures AllVouched(positions, rows[..k], verified, restores) &&
            (Effective(positions[rows[k]]) > 0.0 ==> Vouched(positions[rows[k]], verified(rows[k]), restores(rows[k]))) ==>
              AllVouched(positions, rows[..k + 1], verified, restores)
  {
    assert rows[..k + 1] == rows[..k] + [rows[k]];
  }

  lemma VerifyStepAt(rows: seq<int>, k: nat, verified: int -> bool, restores: int -> Restoration)
    requires k < |rows|
    ensures VerifySteps(rows, verified, restores)[k] == VerifyStop(rows[k], verified(rows[k]), restores(rows[k]))
  {
  }

  /** A tick that began and was left after some of its steps. */
  ghost predicate CutShort(w: World, work: seq<Step>, t: World) {
    exists n :: 0 <= n <= |work| && t == Run(w, [FillTickBegins] + work[..n])
  }

  lemma CutWithin(w: World, work: seq<Step>, more: seq<Step>, n: nat, t: World)
    requires n <= |work| && t == Run(Next(w, FillTickBegins), work[..n])
    ensures CutShort(w, work + more, t)
  {
    hide Next;
    assert (work + more)[..n] == work[..n];
    RunPrepends(w, FillTickBegins, work[..n]);
  }

  lemma CutBeyond(w: World, middle: World, work: seq<Step>, more: seq<Step>, n: nat, t: World)
    requires n <= |more| && middle == Run(Next(w, FillTickBegins), work) && t == Run(middle, more[..n])
    ensures CutShort(w, work + more, t)
  {
    hide Next;
    RunConcat(Next(w, FillTickBegins), work, more[..n]);
    assert (work + more)[..|work| + n] == work + more[..n];
    RunPrepends(w, FillTickBegins, work + more[..n]);
  }

  lemma WholeTick(w: World, middle: World, work: seq<Step>, more: seq<Step>, t: World)
    requires middle == Run(Next(w, FillTickBegins), work) && t == Run(middle, more)
    ensures middle == Run(w, [FillTickBegins] + work)
    ensures Run(w, [FillTickBegins] + work + more + [FillTickEnds]) == Next(t, FillTickEnds)
  {
    hide Next;
    RunPrepends(w, FillTickBegins, work);
    RunConcat(w, [FillTickBegins] + work, more);
    RunAppends(w, [FillTickBegins] + work + more, FillTickEnds);
  }

  class ExecutionFillService {
    var positions: map<int, Position>
    var entries: bool
    var gapStarted: map<int, real>
    var gapAlerted: set<int>
    ghost var claims: seq<ClaimRecord>
    ghost var submissions: seq<Submission>
    ghost var accepted: seq<nat>
    ghost var canceledBy: set<nat>
    ghost var views: map<nat, Snapshot>
    ghost var triggers: map<nat, Stage>
    ghost var inFillTick: bool
    ghost var enabledSince: bool
    ghost var aborted: bool
    ghost var known: set<int>

    ghost function State(): (w: World)
      reads this
    {
      World(positions, entries, claims, submissions, accepted, canceledBy, views, triggers, inFillTick, enabledSince, aborted, known)
    }

    method DisableEntries()
      modifies this`entries, this`enabledSince
      ensures !entries && !enabledSince
    {
      entries := false;
      enabledSince := false;
    }

    /** Protect again, closing the gate when that is refused; other exceptions escape. */
    method Protect(i: int, p: Position, restores: Restoration) returns (died: bool)
      modifies this`positions, this`entries, this`enabledSince, this`inFillTick, this`aborted
      ensures State() == Restore(old(State()), i, p, restores) && died == restores.Dies?
      ensures positions == old(positions)[i := if restores.Protects? then p.(stop := ActiveStop) else p]
      ensures entries == (old(entries) && !restores.Refuses?) && (restores.Refuses? ==> !enabledSince)
    {
      died := false;
      match restores
      case Protects =>
        positions := positions[i := p.(stop := ActiveStop)];
      case Refuses =>
        positions := positions[i := p];
        DisableEntries();
      case Dies =>
        positions := positions[i := p];
        inFillTick, aborted := false, true;
        died := true;
    }

    /** Rearm an open position whose stop was canceled or triggered. */
    method RearmProtectionIfNeeded(i: int, p: Position, restores: Restoration) returns (died: bool)
      modifies this`positions, this`entries, this`enabledSince, this`inFillTick, this`aborted
      ensures State() == Rearm(old(State()), i, p, restores)
      ensures died ==> !inFillTick && aborted
      ensures !died ==> inFillTick == old(inFillTick)
      ensures var due := p.status.Open? && (p.stop.Canceled? || p.stop.Triggered?);
              && died == (due && restores.Dies?)
              && positions == old(positions)[i := if due && restores.Protects? then p.(stop := ActiveStop) else p]
              && entries == (old(entries) && !(due && restores.Refuses?)) && (due && restores.Refuses? ==> !enabledSince)
    {
      if p.status.Open? && (p.stop.Canceled? || p.stop.Triggered?) {
        died := Protect(i, p, restores);
      } else {
        positions := positions[i := p];
        died := false;
      }
    }

    /** A pending exit that carries a client id and no exchange order. */
    method ReconcileUnlinked(i: int, lookup: Lookup, pastStaleAge: bool, restores: Restoration) returns (died: bool)
      requires inFillTick && i in positions
      modifies this`positions, this`entries, this`enabledSince, this`inFillTick, this`aborted
      ensures State() == Next(old(State()), Reconcile(i, lookup, pastStaleAge, restores))
      ensures if died then !inFillTick && aborted else inFillTick
      ensures var p := old(positions[i]);
              positions == old(positions)[i := if p.client.Some? && !p.hasOrder then Looked(p, lookup, pastStaleAge, restores) else p]
      ensures var p := old(positions[i]);
              var due := p.client.Some? && !p.hasOrder && !p.status.Closed? && (p.stop.Canceled? || p.stop.Triggered?)
                         && lookup.Found? && lookup.count == 0 && pastStaleAge;
              died == (due && restores.Dies?) && entries == (old(entries) && !(due && restores.Refuses?))
    {
      ReconcileIs(State(), Reconcile(i, lookup, pastStaleAge, restores));
      hide Next, Rearm, Recovered;
      died := false;
      var p := positions[i];
      if p.client.None? || p.hasOrder || !lookup.Found? {
        return;
      }
      if lookup.count == 0 {
        if pastStaleAge {
          var recovered := if p.status.Closing? || p.status.Reducing? then Recovered(p) else p;
          died := RearmProtectionIfNeeded(i, recovered, restores);
        }
      } else if lookup.hasId {
        positions := positions[i := p.(hasOrder := true, exec := Settled)];
      }
    }

    /** Verify the stop of an open position and protect it again if that fails. */
    method VerifyProtection(i: int, verified: bool, restores: Restoration) returns (died: bool)
      requires inFillTick && i in positions
      modifies this`positions, this`entries, this`enabledSince, this`inFillTick, this`aborted
      ensures State() == Next(old(State()), VerifyStop(i, verified, restores))
      ensures if died then !inFillTick && aborted else inFillTick
      ensures var p := old(positions[i]);
              if !p.status.Open? || Effective(p) <= 0.0 || (verified && p.stop.ActiveStop?) then State() == old(State()) && !died
              else if p.stop.Triggered? then State() == CloseGate(old(State())) && !died
              else && positions == old(positions)[i := if restores.Protects? then p.(stop := ActiveStop) else p]
                   && died == restores.Dies?
                   && entries == (old(entries) && !restores.Refuses?) && (restores.Refuses? ==> !enabledSince)
    {
      VerifyIs(State(), VerifyStop(i, verified, restores));
      hide Next, Restore;
      died := false;
      var p := positions[i];
      var remaining := if p.remaining.Some? && p.remaining.value != 0.0 then p.remaining.value else p.size;
      if !p.status.Open? || remaining <= 0.0 {
        return;
      }
      if p.stop.Triggered? {
        DisableEntries();
        return;
      }
      if verified && p.stop.ActiveStop? {
        return;
      }
      died := Protect(i, p, restores);
    }

    /** The pending exits of one tick, in order; an exception that escapes ends the tick. */
    method ReconcilePendingOrders(work: seq<Step>) returns (died: bool)
      requires inFillTick
      requires forall k :: 0 <= k < |work| ==> work[k].Reconcile? && work[k].position in positions
      modifies this`positions, this`entries, this`enabledSince, this`inFillTick, this`aborted
      ensures !died ==> State() == Run(old(State()), work)
      ensures died ==> exists n :: 0 <= n <= |work| && State() == Run(old(State()), work[..n])
      ensures if died then !inFillTick && aborted else inFillTick
      ensures positions.Keys == old(positions.Keys)
    {
      hide Next, Looked;
      died := false;
      var k := 0;
      while k < |work|
        invariant 0 <= k <= |work| && inFillTick && positions.Keys == old(positions.Keys)
        invariant State() == Run(old(State()), work[..k])
      {
        var step := work[k];
        ghost var before := State();
        died := ReconcileUnlinked(step.position, step.lookup, step.pastStaleAge, step.restores);
        RecoveryKeepsRows(before, step);
        RunExtends(old(State()), work, k);
        k := k + 1;
        if died {
          return;
        }
      }
      assert work[..|work|] == work;
    }

    method ListOpen() returns (rows: seq<int>)
      ensures forall i :: i in rows <==> i in positions && positions[i].status.Open?
      ensures forall a :: 0 <= a < |rows| ==> rows[a] in positions && positions[rows[a]].status.Open?
      ensures forall a, b :: 0 <= a < b < |rows| ==> rows[a] != rows[b]
    {
      rows := [];
      var left := positions.Keys;
      while left != {}
        invariant left <= positions.Keys
        invariant forall i :: i in rows <==> i in positions && i !in left && positions[i].status.Open?
        invariant forall a, b :: 0 <= a < b < |rows| ==> rows[a] != rows[b]
        decreases |left|
      {
        Inhabited(left);
        var i :| i in left;
        left := left - {i};
        if positions[i].status.Open? {
          rows := rows + [i];
        }
      }
    }

    /** Verify the stops of all open positions. */
    method ReconcileOwnedProtections(verified: int -> bool, restores: int -> Restoration)
      returns (died: bool, ghost rows: seq<int>)
      requires inFillTick
      modifies this`positions, this`entries, this`enabledSince, this`inFillTick, this`aborted
      ensures forall i :: i in rows <==> i in old(positions) && old(positions)[i].status.Open?
      ensures !died ==> State() == Run(old(State()), VerifySteps(rows, verified, restores))
      ensures died ==> exists n :: 0 <= n <= |rows| && State() == Run(old(State()), VerifySteps(rows, verified, restores)[..n])
      ensures if died then !inFillTick && aborted else inFillTick
      ensures positions.Keys == old(positions.Keys)
      ensures !died && entries ==> AllVouched(old(positions), rows, verified, restores)
    {
      NoneToVouch(positions, verified, restores);
      hide Next, Effective, AllVouched, Vouched, VerifySteps;
      var open := ListOpen();
      rows := open;
      ghost var work := VerifySteps(rows, verified, restores);
      died := false;
      var k := 0;
      while k < |open|
        invariant 0 <= k <= |open| && inFillTick && positions.Keys == old(positions.Keys)
        invariant State() == Run(old(State()), work[..k])
        invariant forall j :: k <= j < |open| ==>
                    open[j] in positions && open[j] in old(positions) && positions[open[j]] == old(positions)[open[j]]
        invariant entries ==> AllVouched(old(positions), open[..k], verified, restores)
      {
        var i := open[k];
        ghost var before := State();
        died := VerifyProtection(i, verified(i), restores(i));
        VouchedOrShut(before, i, verified(i), restores(i));
        VouchedExtends(old(positions), open, k, verified, restores);
        RecoveryKeepsRows(before, VerifyStop(i, verified(i), restores(i)));
        VerifyStepAt(rows, k, verified, restores);
        RunExtends(old(State()), work, k);
        k := k + 1;
        if died {
          return;
        }
      }
      assert work[..|work|] == work && open[..|open|] == open;
    }

    method ListActive() returns (rows: seq<int>)
      ensures forall i :: i in rows <==> i in positions && Active(positions[i])
    {
      rows := [];
      var left := positions.Keys;
      while left != {}
        invariant left <= positions.Keys
        invariant forall i :: i in rows <==> i in positions && i !in left && Active(positions[i])
        decreases |left|
      {
        Inhabited(left);
        var i :| i in left;
        left := left - {i};
        if Active(positions[i]) {
          rows := rows + [i];
        }
      }
    }

    /** The recovery part of a tick from its beginning to its end: when it completes with entries on, every
        position that was open after the pending exits were looked up, and had exposure, has a stop that
        was confirmed or placed again in this tick, and nothing that is active is left bare. */
    method RecoverAndTrack(work: seq<Step>, verified: int -> bool, restores: int -> Restoration, now: real, alertAfter: real)
      returns (completed: bool, ghost rows: seq<int>)
      requires !inFillTick
      requires forall k :: 0 <= k < |work| ==> work[k].Reconcile? && work[k].position in positions
      modifies this
      ensures completed ==>
                State() == Run(old(State()), [FillTickBegins] + work + VerifySteps(rows, verified, restores) + [FillTickEnds])
      ensures completed ==>
                var middle := Run(old(State()), [FillTickBegins] + work);
                && (forall i :: i in rows <==> i in middle.positions && middle.positions[i].status.Open?)
                && (entries ==> AllVouched(middle.positions, rows, verified, restores))
      ensures completed ==> !aborted && (entries ==> !AnyBare(positions))
      ensures !completed ==> aborted && CutShort(old(State()), work + VerifySteps(rows, verified, restores), State())
    {
      ghost var s := State();
      inFillTick := true;
      ghost var begun := State();
      assert begun == Next(s, FillTickBegins);
      hide Next, Run, AnyBare, AllVouched, VerifySteps, CutShort;
      rows := [];
      var died := ReconcilePendingOrders(work);
      ghost var middle := State();
      if died {
        ghost var n :| 0 <= n <= |work| && middle == Run(begun, work[..n]);
        CutWithin(s, work, VerifySteps([], verified, restores), n, middle);
        return false, [];
      }
      died, rows := ReconcileOwnedProtections(verified, restores);
      ghost var steps := VerifySteps(rows, verified, restores);
      if died {
        ghost var n :| 0 <= n <= |rows| && State() == Run(middle, steps[..n]);
        CutBeyond(s, middle, work, steps, n, State());
        return false, rows;
      }
      WholeTick(s, middle, work, steps, State());
      var active := ListActive();
      var _ := TrackProtectionGaps(active, now, alertAfter);
      completed := true;
    }

    /** One bare row of the gap loop; `t` is what the loop has kept so far. */
    method NoteGap(i: int, now: real, alertAfter: real, t: Track) returns (r: Track)
      requires t.started == gapStarted && t.alerted == gapAlerted
      modifies this`entries, this`enabledSince, this`gapStarted, this`gapAlerted
      ensures !entries && !enabledSince
      ensures r == Note(t, i, now, alertAfter) && r.started == gapStarted && r.alerted == gapAlerted
    {
      DisableEntries();
      if i !in gapStarted {
        gapStarted := gapStarted[i := now];
      }
      var age := if now - gapStarted[i] < 0.0 then 0.0 else now - gapStarted[i];
      var alerts := t.alerts;
      if age >= alertAfter && i !in gapAlerted {
        gapAlerted := gapAlerted + {i};
        alerts := alerts + [i];
      }
      r := Track(gapStarted, gapAlerted, t.unprotected + 1, if t.oldest < age then age else t.oldest, alerts);
    }

    /** One row of the gap loop: skip it without exposure or with an active stop. */
    method CheckRow(i: int, now: real, alertAfter: real, t: Track) returns (r: Track)
      requires i in positions && Active(positions[i]) && t.started == gapStarted && t.alerted == gapAlerted
      modifies this`entries, this`enabledSince, this`gapStarted, this`gapAlerted
      ensures r == if Bare(positions[i]) then Note(t, i, now, alertAfter) else t
      ensures r.started == gapStarted && r.alerted == gapAlerted
      ensures entries == (old(entries) && !Bare(positions[i])) && enabledSince == (old(enabledSince) && !Bare(positions[i]))
    {
      hide Note, Bare;
      var p := positions[i];
      var remaining := if p.remaining.Some? && p.remaining.value != 0.0 then p.remaining.value else p.size;
      BareIs(p, remaining);
      r := t;
      if remaining > 0.0 && !p.stop.ActiveStop? {
        r := NoteGap(i, now, alertAfter, t);
      }
    }

    /** The gap loop over the active rows. */
    method CountGaps(rows: seq<int>, now: real, alertAfter: real) returns (t: Track)
      requires forall k :: 0 <= k < |rows| ==> rows[k] in positions && Active(positions[rows[k]])
      modifies this`entries, this`enabledSince, this`gapStarted, this`gapAlerted
      ensures entries == (old(entries) && Gaps(positions, rows) == [])
      ensures enabledSince == (old(enabledSince) && Gaps(positions, rows) == [])
      ensures t == NoteAll(Track(old(gapStarted), old(gapAlerted), 0, 0.0, []), Gaps(positions, rows), now, alertAfter)
      ensures t.started == gapStarted && t.alerted == gapAlerted
    {
      t := Track(gapStarted, gapAlerted, 0, 0.0, []);
      ghost var start := t;
      ghost var gaps: seq<int> := [];
      NothingYet(positions, start, now, alertAfter);
      hide *;
      for k := 0 to |rows|
        invariant gaps == Gaps(positions, rows[..k])
        invariant entries == (old(entries) && gaps == []) && enabledSince == (old(enabledSince) && gaps == [])
        invariant t == NoteAll(start, gaps, now, alertAfter) && t.started == gapStarted && t.alerted == gapAlerted
      {
        GapsExtend(positions, rows, k);
        NoteExtends(start, gaps, rows[k], now, alertAfter);
        t := CheckRow(rows[k], now, alertAfter, t);
        gaps := Gaps(positions, rows[..k + 1]);
      }
      assert rows[..|rows|] == rows;
    }

    /** The last act of a tick: any active row with exposure and no active stop closes the gate. */
    method TrackProtectionGaps(rows: seq<int>, now: real, alertAfter: real) returns (t: Track)
      requires inFillTick
      requires forall i :: i in rows <==> i in positions && Active(positions[i])
      modifies this`entries, this`enabledSince, this`gapStarted, this`gapAlerted, this`inFillTick, this`aborted, this`known
      ensures !aborted
      ensures State() == Next(old(State()), FillTickEnds)
      ensures entries <==> old(entries) && !AnyBare(positions)
      ensures t == NoteAll(Track(old(gapStarted), old(gapAlerted), 0, 0.0, []), Gaps(positions, rows), now, alertAfter)
      ensures t.started == gapStarted && t.alerted == gapAlerted
    {
      hide Gaps, NoteAll, AnyBare, Next, Active;
      NoGapsIff(positions, rows);
      EndsTick(State());
      t := CountGaps(rows, now, alertAfter);
      inFillTick, enabledSince, aborted, known := false, false, false, positions.Keys;
    }
  }

  lemma NothingYet(positions: map<int, Position>, t: Track, now: real, after: real)
    ensures Gaps(positions, []) == [] && NoteAll(t, [], now, after) == t
  {
  }

  lemma EndsTick(w: World)
    requires w.inFillTick
    ensures Next(w, FillTickEnds) ==
            (if AnyBare(w.positions) then CloseGate(w) else w).(
              inFillTick := false, enabledSince := false, aborted := false, known := w.positions.Keys)
  {
  }

  lemma NoGapsIff(positions: map<int, Position>, rows: seq<int>)
    requires forall i :: i in rows <==> i in positions && Active(positions[i])
    ensures |Gaps(positions, rows)| == 0 <==> !AnyBare(positions)
  {
    GapsAreBare(positions, rows);
    var gaps := Gaps(positions, rows);
    if gaps != [] {
      var first := gaps[0];
      assert first in gaps;
      assert first in positions && Bare(positions[first]);
    } else {
      forall i | i in positions ensures !Bare(positions[i]) {
        assert i !in gaps;
      }
    }
  }

  lemma GapsExtend(positions: map<int, Position>, rows: seq<int>, k: nat)
    requires k < |rows| && rows[k] in positions
    ensures Gaps(positions, rows[..k + 1]) ==
            if Bare(positions[rows[k]]) then Gaps(positions, rows[..k]) + [rows[k]] else Gaps(positions, rows[..k])
  {
    assert rows[..k + 1][..k] == rows[..k];
  }

  lemma NoteExtends(t: Track, gaps: seq<int>, i: int, now: real, after: real)
    ensures NoteAll(t, gaps + [i], now, after) == Note(NoteAll(t, gaps, now, after), i, now, after)
  {
  }

  lemma BareIs(p: Position, remaining: real)
    requires Active(p)
    requires remaining == if p.remaining.Some? && p.remaining.value != 0.0 then p.remaining.value else p.size
    ensures Bare(p) <==> remaining > 0.0 && !p.stop.ActiveStop?
  {
  }

  lemma Inhabited(s: set<int>)
    requires s != {}
    ensures exists i :: i in s
  {
    assert (forall i :: i !in s) ==> s == {};
  }

  lemma RunPrepends(w: World, a: Step, rest: seq<Step>)
    ensures Run(w, [a] + rest) == Run(Next(w, a), rest)
  {
  }

  lemma ReconcileIs(w: World, step: Step)
    requires step.Reconcile?
    ensures var i := step.position;
            Next(w, step) == if FillStep(w, i) && w.positions[i].client.Some? && !w.positions[i].hasOrder
                             then OnReconcile(w, i, w.positions[i], step) else w
  {
  }

  lemma VerifyIs(w: World, step: Step)
    requires step.VerifyStop?
    ensures var i := step.position;
            Next(w, step) == if FillStep(w, i) && w.positions[i].status.Open? && Effective(w.positions[i]) > 0.0
                             then OnVerify(w, i, w.positions[i], step.verified, step.restores) else w
  {
  }

  lemma RecoveryKeepsRows(w: World, step: Step)
    requires step.Reconcile? || step.VerifyStop?
    ensures Next(w, step).positions.Keys == w.positions.Keys
  {
  }

}
