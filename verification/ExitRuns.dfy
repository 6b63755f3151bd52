/** Runs from the start that show where exits do less than one would hope. */
module ExitRuns {
  import opened Options
  import opened ExitLifecycle
  import opened ExitSafety

  /** A run grows by one step. */
  lemma Then(steps: seq<Step>, w: World, step: Step) returns (more: seq<Step>)
    requires w == Run(START, steps)
    ensures Run(START, more) == Next(w, step)
  {
    RunAppends(START, steps, step);
    more := steps + [step];
  }

  /** The row of a position of this size right after it was opened. */
  function Opened(size: real, stop: Stop): (p: Position) {
    Position(Open, size, Some(size), None, false, None, false, NoExec, 0, 0.0, stop)
  }

  /** One position, opened, read by two triggers and claimed by the first. */
  lemma OneClaim(i: int, size: real, protected: bool, reduce: bool, requested: Option<real>)
    returns (steps: seq<Step>, w: World)
    requires size > 0.0 && Asks(Opened(size, if protected then ActiveStop else NoStop), reduce, requested)
    ensures var p := Opened(size, if protected then ActiveStop else NoStop);
            && w == Run(START, steps) && w.positions == map[i := Claimed(p, p, 0, reduce, requested)]
            && w.views == map[0 := Snapshot(i, p), 1 := Snapshot(i, p)]
    ensures w.triggers == map[0 := Begun] && |w.claims| == 1 && w.claims[0].position == i
    ensures w.claims[0].quantity == requested.GetOr(size) && w.claims[0].reduce == reduce
    ensures !w.inFillTick && w.accepted == []
  {
    hide Asks, Run;
    var p := Opened(size, if protected then ActiveStop else NoStop);
    var a := Next(START, OpenPosition(i, size, protected));
    assert a.positions == map[i := p];
    var b := Next(a, Read(0, i));
    var c := Next(b, Read(1, i));
    assert c.views == map[0 := Snapshot(i, p), 1 := Snapshot(i, p)];
    w := Next(c, Claim(0, reduce, requested));
    RunNothing();
    steps := Then([], START, OpenPosition(i, size, protected));
    steps := Then(steps, a, Read(0, i));
    steps := Then(steps, b, Read(1, i));
    steps := Then(steps, c, Claim(0, reduce, requested));
  }

  lemma RunNothing()
    ensures Run(START, []) == START
  {
  }

  /** A fill tick links the stop's trigger and books its fill while the trigger has only claimed. */
  lemma TriggerFills(w: World, i: int, size: real)
    requires i in w.positions && size > 0.0
    requires var p := w.positions[i]; p.status.Closing? && p.remaining == Some(size) && p.stop.ActiveStop?
    ensures var t := Next(Next(Next(w, FillTickBegins), LinkTrigger(i)), ApplyFill(i, size, false, false, Protects));
            t == w.(inFillTick := true,
                    positions := w.positions[i := w.positions[i].(remaining := Some(0.0), status := Closed, stop := Exhausted)])
  {
    var p := w.positions[i];
    var b := Next(Next(w, FillTickBegins), LinkTrigger(i));
    assert b == w.(inFillTick := true, positions := w.positions[i := p.(stop := Triggered)]);
    assert b.positions[i := p.(remaining := Some(0.0), status := Closed, stop := Exhausted)] ==
           w.positions[i := p.(remaining := Some(0.0), status := Closed, stop := Exhausted)];
  }

  /** A trigger over a stop that is gone submits and is not confirmed: its claim is given back. */
  lemma UnconfirmedIsReleased(w: World, i: int, c: nat, lands: bool)
    requires InFlight(w, c) && w.claims[c].position == i && w.triggers[c].Begun?
    requires (w.positions[i].stop.Exhausted? || w.positions[i].stop.Canceled?) && w.positions[i].correlation == Some(c)
    ensures var t := Next(Next(w, CancelStop(c, Verified)), Submit(c, lands, false));
            && t.positions == w.positions[i := Released(w.positions[i], c)]
            && t.claims == w.claims && t.triggers == w.triggers - {c} && t.inFillTick == w.inFillTick
            && (lands ==> c in t.accepted)
  {
    var b := Next(w, CancelStop(c, Verified));
    assert b == Stand(w, c, Cleared(false));
    hide Released;
    assert b.triggers - {c} == w.triggers - {c};
  }

  /** An operator's close overlaps a fill tick: between its claim and its cancel the tick books the fill
      of the stop, which closes the row; the refused order then gives the claim back and opens the row
      again; and the next close is granted for the whole opened quantity although nothing remains. */
  lemma ZeroRemainderIsClaimed(i: int, size: real) returns (steps: seq<Step>)
    requires size > 0.0
    ensures var w := Run(START, steps);
            |w.claims| == 2 && w.claims[1] == ClaimRecord(i, 0.0, 0.0, false, true, size)
  {
    var w;
    steps, w := OneClaim(i, size, true, false, None);
    TriggerFills(w, i, size);
    var a := Next(w, FillTickBegins);
    var b := Next(a, LinkTrigger(i));
    var c := Next(b, ApplyFill(i, size, false, false, Protects));
    UnconfirmedIsReleased(c, i, 0, false);
    var d := Next(c, CancelStop(0, Verified));
    var e := Next(d, Submit(0, false, false));
    ReopenedIsClaimed(e, i, size);
    var f := Next(e, Read(1, i));
    hide Next, Run;
    steps := Then(steps, w, FillTickBegins);
    steps := Then(steps, a, LinkTrigger(i));
    steps := Then(steps, b, ApplyFill(i, size, false, false, Protects));
    steps := Then(steps, c, CancelStop(0, Verified));
    steps := Then(steps, d, Submit(0, false, false));
    steps := Then(steps, e, Read(1, i));
    steps := Then(steps, f, Claim(1, false, None));
  }

  lemma ReopenedIsClaimed(w: World, i: int, size: real)
    requires size > 0.0 && i in w.positions
    requires var p := w.positions[i]; p.status.Open? && p.remaining == Some(0.0) && p.size == size
    ensures Next(Next(w, Read(1, i)), Claim(1, false, None)).claims ==
            w.claims + [ClaimRecord(i, 0.0, 0.0, false, true, size)]
  {
  }

  /** A trigger without a stop in its way submits a reduce that is accepted and filled. */
  lemma ReduceFills(w: World, i: int, c: nat, size: real)
    requires InFlight(w, c) && w.claims[c].position == i && w.triggers[c].Begun? && w.claims[c].reduce && c !in w.accepted
    requires w.positions[i].stop.NoStop? && 0.0 < size < Left(w.positions[i])
    ensures var a := Next(Next(w, CancelStop(c, Verified)), Submit(c, true, true));
            var t := Next(Next(a, FillTickBegins), ApplyFill(i, size, true, true, Protects));
            && i in t.positions && t.positions[i].status.Open? && t.positions[i].client.None?
            && t.positions[i].remaining == Some(Left(w.positions[i]) - size) && t.claims == w.claims && t.views == w.views
  {
    var b := Next(w, CancelStop(c, Verified));
    assert b == Stand(w, c, Cleared(false));
    var d := Next(b, Submit(c, true, true));
    assert d.positions[i].hasOrder && Left(d.positions[i]) == Left(w.positions[i]) && d.positions[i].stop.NoStop?
           && d.claims == w.claims && d.views == w.views;
    hide Next;
    OwnReduceFills(d, i, size);
  }

  lemma OwnReduceFills(w: World, i: int, size: real)
    requires i in w.positions && w.positions[i].hasOrder && w.positions[i].stop.NoStop? && 0.0 < size < Left(w.positions[i])
    ensures var t := Next(Next(w, FillTickBegins), ApplyFill(i, size, true, true, Protects));
            && i in t.positions && t.positions[i].status.Open? && t.positions[i].client.None?
            && t.positions[i].remaining == Some(Left(w.positions[i]) - size) && t.claims == w.claims && t.views == w.views
  {
  }

  lemma StaleClaim(w: World, i: int, k: nat)
    requires i in w.positions && w.positions[i].status.Open? && w.positions[i].remaining.Some?
    requires k in w.views && w.views[k].position == i && w.views[k].row == Opened(w.views[k].row.size, NoStop)
    requires w.views[k].row.size > 0.0
    ensures var size := w.views[k].row.size;
            Next(w, Claim(k, false, None)).claims ==
            w.claims + [ClaimRecord(i, size, w.positions[i].remaining.value, false, true, size)]
  {
  }

  /** A close that read the row before a reduce was booked claims more than remains. */
  lemma StaleReadIsClaimed(i: int, size: real) returns (steps: seq<Step>)
    requires size > 0.0
    ensures var w := Run(START, steps); var half := size / 2.0;
            |w.claims| == 2 && w.claims[1] == ClaimRecord(i, size, half, false, true, size)
  {
    var half := size / 2.0;
    var w;
    steps, w := OneClaim(i, size, false, true, Some(half));
    ReduceFills(w, i, 0, half);
    var a := Next(w, CancelStop(0, Verified));
    var b := Next(a, Submit(0, true, true));
    var c := Next(b, FillTickBegins);
    var d := Next(c, ApplyFill(i, half, true, true, Protects));
    hide Next, Run;
    steps := Then(steps, w, CancelStop(0, Verified));
    steps := Then(steps, a, Submit(0, true, true));
    steps := Then(steps, b, FillTickBegins);
    steps := Then(steps, c, ApplyFill(i, half, true, true, Protects));
    StaleClaim(d, i, 1);
    steps := Then(steps, d, Claim(1, false, None));
  }

  // ---------------------------------------------------------------- a claim released without a lookup

  /** A position whose stop an earlier claim took away is opened again, still bare and with the order's
      fate unknown, by one unconfirmed submission. */
  lemma ReleasedWithoutLookup(w: World, i: int, k: nat, lands: bool)
    requires Inv(w) && i in w.positions
    requires var p := w.positions[i]; p.status.Open? && p.stop.Canceled? && Asks(p, false, None)
    ensures var c := |w.claims|;
            var t := Next(Next(Next(Next(w, Read(k, i)), Claim(k, false, None)), CancelStop(c, Verified)), Submit(c, lands, false));
            && i in t.positions && t.positions[i].status.Open? && t.positions[i].client.None? && Bare(t.positions[i])
            && (lands ==> c in t.accepted)
  {
    var p, c := w.positions[i], |w.claims|;
    var a := Next(w, Read(k, i));
    var b := Next(a, Claim(k, false, None));
    assert b.positions[i] == Claimed(p, p, c, false, None) && b.triggers[c] == Begun && b.claims[c].position == i;
    hide Inv, Next;
    UnconfirmedIsReleased(b, i, c, lands);
  }

  /** Such a position exists in a run from the start: its first close took the stop away and stayed
      unconfirmed, the fill service did not find the order, recovered the row and could not protect it. */
  lemma CanceledStopIsReached(i: int, size: real) returns (steps: seq<Step>)
    requires size > 0.0
    ensures var w := Run(START, steps);
            && i in w.positions && !w.inFillTick
            && w.positions[i].status.Open? && w.positions[i].stop.Canceled? && Asks(w.positions[i], false, None)
  {
    var w;
    steps, w := OneClaim(i, size, true, false, None);
    CloseStaysUnknown(w, i, 0);
    var a := Next(w, CancelStop(0, Verified));
    var b := Next(a, StopAnswered(0, Gone));
    var c := Next(b, ShutGate(0));
    var d := Next(c, Submit(0, false, false));
    NotFoundReopens(d, i);
    var e := Next(d, FillTickBegins);
    var f := Next(e, Reconcile(i, Found(0, false), true, Refuses));
    hide Next, Run;
    steps := Then(steps, w, CancelStop(0, Verified));
    steps := Then(steps, a, StopAnswered(0, Gone));
    steps := Then(steps, b, ShutGate(0));
    steps := Then(steps, c, Submit(0, false, false));
    steps := Then(steps, d, FillTickBegins);
    steps := Then(steps, e, Reconcile(i, Found(0, false), true, Refuses));
    steps := Then(steps, f, FillTickEnds);
  }

  lemma CloseStaysUnknown(w: World, i: int, c: nat)
    requires InFlight(w, c) && w.claims[c].position == i && w.triggers[c].Begun? && w.positions[i].stop.ActiveStop?
    ensures var t := Next(Next(Next(Next(w, CancelStop(c, Verified)), StopAnswered(c, Gone)), ShutGate(c)), Submit(c, false, false));
            i in t.positions && t.positions[i] == w.positions[i].(stop := Canceled, exec := Unknown, attempts := 1)
  {
    var p := w.positions[i];
    var a := Next(w, CancelStop(c, Verified));
    assert a == Stand(Put(w, i, p.(stop := Canceling)), c, Asking);
    var b := Next(a, StopAnswered(c, Gone));
    assert b.positions[i] == p.(stop := Canceled) && b.triggers[c] == Taken(false) && b.claims == w.claims;
    hide OnCancel, OnAnswer;
    GoneStaysUnknown(b, i, c);
  }

  lemma GoneStaysUnknown(w: World, i: int, c: nat)
    requires InFlight(w, c) && w.claims[c].position == i && w.triggers[c] == Taken(false)
    ensures var t := Next(Next(w, ShutGate(c)), Submit(c, false, false));
            i in t.positions && t.positions[i] == w.positions[i].(exec := Unknown, attempts := 1)
  {
  }

  lemma NotFoundReopens(w: World, i: int)
    requires i in w.positions
    requires var p := w.positions[i]; p.client.Some? && !p.hasOrder && p.status.Closing? && p.stop.Canceled?
    ensures var t := Next(Next(Next(w, FillTickBegins), Reconcile(i, Found(0, false), true, Refuses)), FillTickEnds);
            !t.inFillTick && i in t.positions && t.positions[i] == Recovered(w.positions[i])
  {
    var a := Next(Next(w, FillTickBegins), Reconcile(i, Found(0, false), true, Refuses));
    assert a.positions[i] == Recovered(w.positions[i]) && a.inFillTick;
  }
}
