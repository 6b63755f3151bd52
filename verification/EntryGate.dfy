/**
 The process-wide order flags, the operator's entry control and the guards of order placement:
 entries are a subset of being armed, closes never depend on the entry flag.
 */
module EntryGate {

  /** The two process-local flags. */
  datatype Gate = Gate(armed: bool, entries: bool)

  const SAFE := Gate(false, false)

  /** How `enable_entries` ends. */
  datatype EnableOutcome = NoEnabledLimits | Saved | SaveRaises | LimitsGone | AuditRaises

  /** Everything that moves the flags. */
  datatype Op =
    | Arm(preflightPassed: bool)
    | Disarm
    | Enable
    | Disable
    | EnableEntries(outcome: EnableOutcome)
    | Kill

  function Apply(g: Gate, op: Op): (r: Gate) {
    match op
    case Arm(passed) => if passed then g.(armed := true) else g
    case Disarm => SAFE
    case Enable => if g.armed then g.(entries := true) else g
    case Disable => g.(entries := false)
    case EnableEntries(outcome) =>
      if outcome.NoEnabledLimits? then g
      else g.(entries := g.armed && outcome.Saved?)
    case Kill => g.(entries := false)
  }

  function Run(g: Gate, ops: seq<Op>): (r: Gate) {
    if ops == [] then g else Apply(Run(g, ops[..|ops| - 1]), ops[|ops| - 1])
  }

  // ---------------------------------------------------------------- order guards

  datatype Side = Buy | Sell | OtherSide

  datatype EntryOrder = EntryOrder(confirm: bool, side: Side, size: real, price: real,
                                   clientIdOk: bool, typeOk: bool, attachmentOk: bool)

  /** The guards of an entry order, as predicates on the order and on the flags. */
  predicate WellFormed(o: EntryOrder) {
    o.confirm && !o.side.OtherSide? && o.size > 0.0 && o.price > 0.0 && o.clientIdOk && o.typeOk && o.attachmentOk
  }

  predicate EntryPasses(g: Gate, o: EntryOrder) {
    g.armed && g.entries && WellFormed(o)
  }

  datatype CloseOrder = CloseOrder(confirm: bool, sideOk: bool, size: real, clientIdOk: bool)

  predicate ClosePasses(g: Gate, o: CloseOrder) {
    g.armed && o.confirm && o.sideOk && o.size > 0.0 && o.clientIdOk
  }

  // ---------------------------------------------------------------- the flags in place

  class OrderGate {
    var armed: bool
    var entries: bool

    constructor ()
      ensures Flags() == SAFE
    {
      armed, entries := false, false;
    }

    ghost function Flags(): (g: Gate)
      reads this
    {
      Gate(armed, entries)
    }

    method ArmOrderPlacement(preflightPassed: bool) returns (raised: bool)
      modifies this
      ensures Flags() == Apply(old(Flags()), Arm(preflightPassed)) && raised == !preflightPassed
    {
      if !preflightPassed {
        return true;
      }
      armed := true;
      raised := false;
    }

    method DisarmOrderPlacement()
      modifies this
      ensures Flags() == SAFE
    {
      armed, entries := false, false;
    }

    method EnableEntryOrderPlacement() returns (raised: bool)
      modifies this
      ensures Flags() == Apply(old(Flags()), Enable) && raised == !old(armed)
    {
      if !armed {
        return true;
      }
      entries := true;
      raised := false;
    }

    method DisableEntryOrderPlacement()
      modifies this
      ensures Flags() == Apply(old(Flags()), Disable)
    {
      entries := false;
    }

    /** The guards of `place_limit_order`, in order. */
    method GuardEntry(o: EntryOrder) returns (passes: bool)
      ensures passes <==> EntryPasses(Flags(), o)
      ensures passes <==> && armed && entries && o.confirm && (o.side.Buy? || o.side.Sell?) && 0.0 < o.size && 0.0 < o.price
                          && o.clientIdOk && o.typeOk && o.attachmentOk
    {
      if !armed {
        return false;
      }
      if !entries {
        return false;
      }
      if !o.confirm || o.side.OtherSide? {
        return false;
      }
      if o.size <= 0.0 || o.price <= 0.0 {
        return false;
      }
      return o.clientIdOk && o.typeOk && o.attachmentOk;
    }

    /** The guards of `place_reduce_market_order`: the entry flag is not among them. */
    method GuardClose(o: CloseOrder) returns (passes: bool)
      ensures passes <==> ClosePasses(Flags(), o)
      ensures passes <==> armed && o.confirm && o.sideOk && 0.0 < o.size && o.clientIdOk
    {
      if !armed || !o.confirm {
        return false;
      }
      if !o.sideOk || o.size <= 0.0 {
        return false;
      }
      return o.clientIdOk;
    }
  }

  // ---------------------------------------------------------------- operator control

  /** One pending entry as the kill loop sees it. */
  datatype PendingEntry = PendingEntry(hasOrder: bool, cancelRequested: bool, hasClientId: bool)

  datatype Lookup = LookupRaises | Orders(count: nat, terminal: bool, hasOrderId: bool)

  datatype CancelReply = CancelRaises | CancelRejected | CancelAccepted(marked: bool)

  datatype Reply = Reply(lookup: Lookup, cancel: CancelReply)

  /** What becomes of one pending entry. */
  datatype Fate = AlreadyRequested | AlreadyTerminal | Unresolved | Requested | Unmarked

  /** The one order the exchange has for the entry's client id. */
  predicate FoundOne(p: PendingEntry, r: Reply) {
    !p.hasOrder && p.hasClientId && r.lookup.Orders? && r.lookup.count == 1
  }

  /** An order is known that nobody has asked to cancel and that is not known to be over. */
  predicate Cancelable(p: PendingEntry, r: Reply) {
    if p.hasOrder then !p.cancelRequested else FoundOne(p, r) && !r.lookup.terminal && r.lookup.hasOrderId
  }

  /** The fate of a pending entry: whether a cancellation was accepted for it in this kill, and why not. */
  function FateOf(p: PendingEntry, r: Reply, armed: bool): (f: Fate)
    ensures f.Requested? || f.Unmarked? <==> Cancelable(p, r) && armed && r.cancel.CancelAccepted?
    ensures f.Requested? <==> Cancelable(p, r) && armed && r.cancel.CancelAccepted? && r.cancel.marked
    ensures f.AlreadyRequested? <==> p.hasOrder && p.cancelRequested
    ensures f.AlreadyTerminal? <==> FoundOne(p, r) && r.lookup.terminal
  {
    var looksUp := !p.hasOrder && p.hasClientId;
    if p.hasOrder && p.cancelRequested then AlreadyRequested
    else if looksUp && (r.lookup.LookupRaises? || r.lookup.count != 1) then Unresolved
    else if looksUp && r.lookup.terminal then AlreadyTerminal
    else if !p.hasOrder && !(looksUp && r.lookup.hasOrderId) then Unresolved
    else if !armed || !r.cancel.CancelAccepted? then Unresolved
    else if r.cancel.marked then Requested else Unmarked
  }

  function Fates(ps: seq<PendingEntry>, rs: seq<Reply>, armed: bool): (fs: seq<Fate>)
    requires |rs| == |ps|
    ensures |fs| == |ps|
  {
    seq(|ps|, i requires 0 <= i < |ps| => FateOf(ps[i], rs[i], armed))
  }

  /** The kill counters; `unmarked` are accepted cancels the store could not mark. */
  datatype Counters = Counters(requested: nat, alreadyRequested: nat, alreadyTerminal: nat,
                               unresolved: nat, unmarked: nat, errors: nat)

  function Tally(fs: seq<Fate>, f: Fate): (n: nat) {
    if fs == [] then 0 else Tally(fs[..|fs| - 1], f) + if fs[|fs| - 1] == f then 1 else 0
  }

  /** Every pending entry lands in exactly one counter, and each unresolved one leaves an error. */
  ghost predicate Partitions(c: Counters, fs: seq<Fate>) {
    && c.requested == Tally(fs, Requested) && c.alreadyRequested == Tally(fs, AlreadyRequested)
    && c.alreadyTerminal == Tally(fs, AlreadyTerminal) && c.unresolved == Tally(fs, Unresolved)
    && c.unmarked == Tally(fs, Unmarked)
    && c.requested + c.alreadyRequested + c.alreadyTerminal + c.unresolved + c.unmarked == |fs|
    && c.errors == c.unresolved
  }

  /** The entry as a kill leaves it: an order that was found is linked, a marked cancel is remembered. */
  function AfterKill(p: PendingEntry, r: Reply, armed: bool): (q: PendingEntry) {
    PendingEntry(p.hasOrder || (FoundOne(p, r) && !r.lookup.terminal && r.lookup.hasOrderId),
                 (p.hasOrder && p.cancelRequested) || FateOf(p, r, armed).Requested?, p.hasClientId)
  }

  /** An order whose cancellation was accepted and marked is never asked again by a later kill; one
      that was accepted and not marked, or refused, is. */
  lemma SecondKillAsksIff(p: PendingEntry, r: Reply, armed: bool, again: Reply)
    requires Cancelable(p, r) && armed
    ensures Cancelable(AfterKill(p, r, armed), again) <==> !FateOf(p, r, armed).Requested?
    ensures FateOf(p, r, armed).Requested? ==> FateOf(AfterKill(p, r, armed), again, armed).AlreadyRequested?
  {
  }

  class EntryControlManager {
    const gate: OrderGate
    var limitsEnabled: bool
    var persistedEntries: bool

    constructor (gate: OrderGate, limitsEnabled: bool)
      ensures this.gate == gate && this.limitsEnabled == limitsEnabled && !persistedEntries
    {
      this.gate, this.limitsEnabled, persistedEntries := gate, limitsEnabled, false;
    }

    /** Enable entries; whatever fails after the limits were checked leaves the process flag off. */
    method EnableEntries(outcome: EnableOutcome, cleanupFails: bool) returns (raised: bool)
      requires !outcome.NoEnabledLimits? <==> limitsEnabled
      modifies this`persistedEntries, gate
      ensures gate.Flags() == Apply(old(gate.Flags()), Op.EnableEntries(outcome))
      ensures !raised ==> gate.armed && gate.entries && persistedEntries
      ensures raised && limitsEnabled ==> !gate.entries && (cleanupFails || !persistedEntries)
      ensures raised && !limitsEnabled ==> gate.Flags() == old(gate.Flags()) && persistedEntries == old(persistedEntries)
    {
      if !limitsEnabled {
        return true;
      }
      raised := gate.EnableEntryOrderPlacement();
      if !raised && outcome.SaveRaises? {
        raised := true;
      }
      if !raised {
        persistedEntries := true;
        raised := !outcome.Saved?;
      }
      if raised {
        gate.DisableEntryOrderPlacement();
        if !cleanupFails {
          persistedEntries := false;
        }
      }
    }

    /** One turn of the kill loop: find the order, then ask for its cancellation.  The exchange is asked
        to cancel exactly the orders that are cancelable while the process is armed, each once. */
    method CancelEntry(p: PendingEntry, r: Reply) returns (fate: Fate, lookups: nat, cancels: nat)
      ensures fate == FateOf(p, r, gate.armed)
      ensures lookups == if !p.hasOrder && p.hasClientId then 1 else 0
      ensures cancels == if Cancelable(p, r) && gate.armed then 1 else 0
    {
      lookups, cancels := 0, 0;
      if p.hasOrder && p.cancelRequested {
        return AlreadyRequested, 0, 0;
      }
      var hasOrder := p.hasOrder;
      if !p.hasOrder && p.hasClientId {
        lookups := 1;
        if r.lookup.LookupRaises? || r.lookup.count != 1 {
          return Unresolved, lookups, cancels;
        }
        if r.lookup.terminal {
          return AlreadyTerminal, lookups, cancels;
        }
        hasOrder := r.lookup.hasOrderId;
      }
      if !hasOrder {
        return Unresolved, lookups, cancels;
      }
      if !gate.armed {
        return Unresolved, lookups, cancels;
      }
      cancels := 1;
      if !r.cancel.CancelAccepted? {
        return Unresolved, lookups, cancels;
      }
      fate := if r.cancel.marked then Requested else Unmarked;
    }

    /** The kill loop over all pending entries. */
    method CancelPending(ps: seq<PendingEntry>, rs: seq<Reply>) returns (c: Counters)
      requires |rs| == |ps|
      ensures Partitions(c, Fates(ps, rs, gate.armed))
    {
      c := Counters(0, 0, 0, 0, 0, 0);
      ghost var fs := Fates(ps, rs, gate.armed);
      for i := 0 to |ps|
        invariant Partitions(c, fs[..i])
      {
        assert fs[..i + 1][..i] == fs[..i];
        var fate, _, _ := CancelEntry(ps[i], rs[i]);
        match fate
        case AlreadyRequested => c := c.(alreadyRequested := c.alreadyRequested + 1);
        case AlreadyTerminal => c := c.(alreadyTerminal := c.alreadyTerminal + 1);
        case Unresolved => c := c.(unresolved := c.unresolved + 1, errors := c.errors + 1);
        case Requested => c := c.(requested := c.requested + 1);
        case Unmarked => c := c.(unmarked := c.unmarked + 1);
      }
      assert fs[..|ps|] == fs;
    }

    /** Close the gate first, then cancel; failures of persistence and audit only add errors. */
    method KillEntries(ps: seq<PendingEntry>, rs: seq<Reply>, persistFails: bool, auditFails: bool)
      returns (c: Counters, errors: nat)
      requires |rs| == |ps|
      modifies this`persistedEntries, gate
      ensures gate.Flags() == Apply(old(gate.Flags()), Kill)
      ensures persistedEntries == (persistFails && old(persistedEntries))
      ensures Partitions(c, Fates(ps, rs, gate.armed))
      ensures errors == c.unresolved + (if persistFails then 1 else 0) + (if auditFails then 1 else 0)
    {
      gate.DisableEntryOrderPlacement();
      if !persistFails {
        persistedEntries := false;
      }
      c := CancelPending(ps, rs);
      errors := c.errors + (if persistFails then 1 else 0) + if auditFails then 1 else 0;
    }
  }

  // ---------------------------------------------------------------- whole runs

  /** The entry flag is never on without the armed flag. */
  lemma {:induction false} EntriesImplyArmed(ops: seq<Op>)
    ensures Run(SAFE, ops).entries ==> Run(SAFE, ops).armed
  {
    if ops != [] {
      EntriesImplyArmed(ops[..|ops| - 1]);
    }
  }

  /** The armed flag is on exactly when an arming after a passed preflight came after the last disarm. */
  lemma {:induction false} ArmedIff(ops: seq<Op>)
    ensures Run(SAFE, ops).armed <==>
            exists k :: 0 <= k < |ops| && ops[k] == Arm(true) && forall m :: k < m < |ops| ==> !ops[m].Disarm?
  {
    if ops != [] {
      var n := |ops| - 1;
      var rest := ops[..n];
      ArmedIff(rest);
      if ops[n] == Arm(true) {
        assert Run(SAFE, ops).armed;
      } else if k :| 0 <= k < n && rest[k] == Arm(true) && forall m :: k < m < n ==> !rest[m].Disarm? {
        assert ops[k] == Arm(true);
        assert forall m :: k < m < n ==> ops[m] == rest[m];
      } else {
        forall k | 0 <= k < |ops| && ops[k] == Arm(true) ensures exists m :: k < m < |ops| && ops[m].Disarm? {
          assert rest[k] == Arm(true);
          var m :| k < m < n && rest[m].Disarm?;
          assert ops[m].Disarm?;
        }
      }
    }
  }

  /** An operation that turns entries on in this state. */
  predicate Opens(g: Gate, op: Op) {
    g.armed && (op.Enable? || (op.EnableEntries? && op.outcome.Saved?))
  }

  /** An operation that turns entries off whatever the state. */
  predicate Closes(op: Op) {
    op.Disarm? || op.Disable? || op.Kill? ||
    (op.EnableEntries? && !op.outcome.NoEnabledLimits? && !op.outcome.Saved?)
  }

  ghost predicate OpenedAt(ops: seq<Op>, k: nat) {
    && k < |ops| && Opens(Run(SAFE, ops[..k]), ops[k])
    && forall m :: k < m < |ops| ==> !Closes(ops[m])
  }

  /** An entry order passes exactly when it is well formed and some enabling while armed came after
      the last disarm, disable, kill or failed enable. */
  lemma {:induction false} EntryPassesIff(ops: seq<Op>, o: EntryOrder)
    ensures EntryPasses(Run(SAFE, ops), o) <==> WellFormed(o) && exists k :: OpenedAt(ops, k)
  {
    EntriesImplyArmed(ops);
    FlagIff(ops);
  }

  lemma {:induction false} FlagIff(ops: seq<Op>)
    ensures Run(SAFE, ops).entries <==> exists k :: OpenedAt(ops, k)
  {
    if ops != [] {
      var n := |ops| - 1;
      var rest := ops[..n];
      EntriesImplyArmed(rest);
      FlagIff(rest);
      if Run(SAFE, ops).entries {
        if Opens(Run(SAFE, rest), ops[n]) {
          assert OpenedAt(ops, n);
        } else {
          var k: nat :| OpenedAt(rest, k);
          assert rest[..k] == ops[..k];
          assert OpenedAt(ops, k);
        }
      } else if k: nat :| OpenedAt(ops, k) {
        if k < n {
          assert rest[..k] == ops[..k];
          assert OpenedAt(rest, k);
        }
      }
    }
  }

  /** Killing entries never touches closes. */
  lemma KillKeepsCloses(ops: seq<Op>, o: CloseOrder, e: EntryOrder)
    ensures ClosePasses(Run(SAFE, ops + [Kill]), o) <==> ClosePasses(Run(SAFE, ops), o)
    ensures !EntryPasses(Run(SAFE, ops + [Kill]), e)
  {
  }
}
