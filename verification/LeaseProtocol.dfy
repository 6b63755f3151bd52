/** Every interleaving of leases in any number of processes over the operating system's lock table. */
module LeaseProtocol {
  import opened Options
  import opened Lease

  /** Where a lease stands inside acquire or release; `left` are the locks not yet given up. */
  datatype Phase = Steady | Taking(todo: seq<Resource>) | Giving(left: seq<Resource>)

  datatype Holder = Holder(database: string, scope: Option<string>, locks: seq<Resource>, phase: Phase) {
    function Mine(): (r: seq<Resource>) {
      Needed(database, scope)
    }

    predicate Held() {
      |locks| == |Mine()|
    }

    /** The locks of the list that are still taken at the operating system. */
    function Taken(): (r: seq<Resource>) {
      if phase.Giving? then phase.left else locks
    }
  }

  datatype World = World(leases: map<int, Holder>, table: map<Resource, int>)

  datatype Step =
    | Create(database: string, scope: Option<string>)
    | StartAcquire
    | StartBind(scope: Option<string>, directoryFails: bool)
    | TakeNext(openFails: bool)
    | FinishTaking(metadataFails: bool)
    | StartRelease
    | GiveNext
    | FinishGiving
    | Die

  function Missing(h: Holder): (r: seq<Resource>) {
    var account := if h.scope.Some? && Account(h.scope.value) !in h.locks then [Account(h.scope.value)] else [];
    account + if Database(h.database) !in h.locks then [Database(h.database)] else []
  }

  function BeginTaking(h: Holder): (r: Holder) {
    if h.Held() then h else h.(phase := Taking(Missing(h)))
  }

  /** What lease i does; a step that does not fit its phase changes nothing. */
  function Next(w: World, i: int, step: Step): (r: World) {
    if i !in w.leases then
      if step.Create?
      then w.(leases := w.leases[i := Holder(step.database, step.scope, [], Steady)])
      else w
    else
      var h := w.leases[i];
      match step
      case Create(_, _) => w
      case StartAcquire => if h.phase.Steady? then Put(w, i, BeginTaking(h)) else w
      case StartBind(scope, directoryFails) =>
        if !h.phase.Steady? || scope.None? || (h.scope.Some? && h.scope != scope) then w
        else
          var bound := h.(scope := scope);
          Put(w, i, if directoryFails && !bound.Held() then bound else BeginTaking(bound))
      case TakeNext(openFails) =>
        if !h.phase.Taking? || h.phase.todo == [] then w
        else
          var r := h.phase.todo[0];
          if openFails || r in w.table then Put(w, i, h.(phase := Giving(h.locks)))
          else Put(w, i, h.(locks := h.locks + [r], phase := Taking(h.phase.todo[1..]))).(table := w.table[r := i])
      case FinishTaking(metadataFails) =>
        if !h.phase.Taking? || h.phase.todo != [] then w
        else Put(w, i, h.(phase := if metadataFails then Giving(h.locks) else Steady))
      case StartRelease => if h.phase.Steady? then Put(w, i, h.(phase := Giving(h.locks))) else w
      case GiveNext =>
        if !h.phase.Giving? || h.phase.left == [] then w
        else
          var n := |h.phase.left| - 1;
          Put(w, i, h.(phase := Giving(h.phase.left[..n]))).(table := w.table - {h.phase.left[n]})
      case FinishGiving =>
        if h.phase.Giving? && h.phase.left == [] then Put(w, i, h.(locks := [], phase := Steady)) else w
      case Die => World(w.leases - {i}, Without(w.table, i))
  }

  function Put(w: World, i: int, h: Holder): (r: World) {
    w.(leases := w.leases[i := h])
  }

  function Run(w: World, script: seq<(int, Step)>): (r: World)
    decreases |script|
  {
    if script == [] then w else Run(Next(w, script[0].0, script[0].1), script[1..])
  }

  // ---------------------------------------------------------------- the invariant

  ghost predicate Distinct(s: seq<Resource>) {
    forall i, j :: 0 <= i < j < |s| ==> s[i] != s[j]
  }

  ghost predicate HolderInv(h: Holder) {
    && Distinct(h.locks)
    && (forall r :: r in h.locks ==> r in h.Mine())
    && (h.phase.Giving? ==> h.phase.left <= h.locks)
    && (h.phase.Taking? ==>
          && Distinct(h.phase.todo)
          && forall r :: r in h.phase.todo ==> r in h.Mine() && r !in h.locks)
  }

  /** The lock table and a lease's own list agree. */
  ghost predicate Mirrors(table: map<Resource, int>, i: int, h: Holder) {
    forall r :: r in h.Taken() <==> Owns(table, i, r)
  }

  ghost predicate Inv(w: World) {
    && (forall i :: i in w.leases ==> HolderInv(w.leases[i]) && Mirrors(w.table, i, w.leases[i]))
    && (forall r :: r in w.table ==> w.table[r] in w.leases)
  }

  lemma BeginTakingOk(h: Holder)
    requires HolderInv(h) && h.phase.Steady?
    ensures HolderInv(BeginTaking(h)) && BeginTaking(h).Taken() == h.Taken()
  {
  }

  /** An acquisition is about to take exactly what the lease needs and does not have, the account first. */
  lemma TakesInOrder(h: Holder)
    requires h.phase.Steady? && BeginTaking(h).phase.Taking?
    ensures var todo := BeginTaking(h).phase.todo;
            && (forall r :: r in todo <==> r in h.Mine() && r !in h.locks)
            && (forall k, n :: 0 <= k < n < |todo| ==> todo[k].Account? && todo[n].Database?)
  {
  }

  lemma HolderStep(w: World, i: int, step: Step)
    requires Inv(w) && i in w.leases && !step.Die?
    ensures i in Next(w, i, step).leases && HolderInv(Next(w, i, step).leases[i])
    ensures Mirrors(Next(w, i, step).table, i, Next(w, i, step).leases[i])
  {
    var h, t := w.leases[i], Next(w, i, step);
    assert HolderInv(h) && Mirrors(w.table, i, h);
    match step
    case StartAcquire =>
      if h.phase.Steady? { BeginTakingOk(h); }
    case StartBind(scope, directoryFails) =>
      if h.phase.Steady? && scope.Some? && (h.scope.None? || h.scope == scope) { BeginTakingOk(h.(scope := scope)); }
    case TakeNext(_) => TakeStep(w, i, step);
    case GiveNext => GiveStep(w, i);
    case _ =>
  }

  lemma TakeStep(w: World, i: int, step: Step)
    requires i in w.leases && HolderInv(w.leases[i]) && Mirrors(w.table, i, w.leases[i]) && step.TakeNext?
    ensures var t := Next(w, i, step);
            i in t.leases && HolderInv(t.leases[i]) && Mirrors(t.table, i, t.leases[i])
  {
    hide Needed;
    var h, t := w.leases[i], Next(w, i, step);
    if h.phase.Taking? && h.phase.todo != [] {
      var r := h.phase.todo[0];
      assert r in h.phase.todo;
      assert forall x :: x in h.phase.todo[1..] ==> x in h.phase.todo && x != r;
      forall x ensures x in t.leases[i].Taken() <==> Owns(t.table, i, x) {
        assert x in h.Taken() <==> Owns(w.table, i, x);
      }
    }
  }

  lemma GiveStep(w: World, i: int)
    requires i in w.leases && HolderInv(w.leases[i]) && Mirrors(w.table, i, w.leases[i])
    ensures var t := Next(w, i, GiveNext);
            i in t.leases && HolderInv(t.leases[i]) && Mirrors(t.table, i, t.leases[i])
  {
    hide Needed;
    var h, t := w.leases[i], Next(w, i, GiveNext);
    if h.phase.Giving? && h.phase.left != [] {
      var left := h.phase.left;
      var n := |left| - 1;
      assert left[n] == h.locks[n];
      assert forall k :: 0 <= k < n ==> left[k] == h.locks[k] && left[k] != left[n];
      forall x ensures x in t.leases[i].Taken() <==> Owns(t.table, i, x) {
        assert x in h.Taken() <==> Owns(w.table, i, x);
        assert x in left <==> x in left[..n] || x == left[n];
      }
    }
  }

  /** A lease only ever touches free locks and its own. */
  lemma OthersUntouched(w: World, i: int, step: Step, j: int, r: Resource)
    requires Inv(w) && i != j
    ensures Owns(Next(w, i, step).table, j, r) <==> Owns(w.table, j, r)
  {
    if i in w.leases {
      var h := w.leases[i];
      assert Mirrors(w.table, i, h);
      if step.GiveNext? && h.phase.Giving? && h.phase.left != [] {
        assert h.phase.left[|h.phase.left| - 1] in h.Taken();
      }
    }
  }

  lemma NextKeepsInv(w: World, i: int, step: Step)
    requires Inv(w)
    ensures Inv(Next(w, i, step))
  {
    var t := Next(w, i, step);
    if i in w.leases && !step.Die? {
      HolderStep(w, i, step);
    }
    forall j | j in t.leases ensures HolderInv(t.leases[j]) && Mirrors(t.table, j, t.leases[j]) {
      if j != i {
        forall r ensures Owns(t.table, j, r) <==> Owns(w.table, j, r) {
          OthersUntouched(w, i, step, j, r);
        }
        assert t.leases[j] == w.leases[j];
      }
    }
  }

  lemma {:induction false} RunKeepsInv(w: World, script: seq<(int, Step)>)
    requires Inv(w)
    ensures Inv(Run(w, script))
    decreases |script|
  {
    if script != [] {
      hide Inv, Next;
      NextKeepsInv(w, script[0].0, script[0].1);
      RunKeepsInv(Next(w, script[0].0, script[0].1), script[1..]);
    }
  }

  // ---------------------------------------------------------------- an uninterrupted acquisition

  function TakeAlone(w: World, i: int): (r: World) {
    Next(Next(Next(Next(w, i, StartAcquire), i, TakeNext(false)), i, TakeNext(false)), i, FinishTaking(false))
  }

  function GiveAlone(w: World, i: int): (r: World) {
    Next(Next(Next(w, i, GiveNext), i, GiveNext), i, FinishGiving)
  }

  lemma MissingIsRest(w: World, i: int)
    requires i in w.leases && w.leases[i].phase.Steady? && HolderInv(w.leases[i]) && Mirrors(w.table, i, w.leases[i])
    requires !w.leases[i].Held()
    ensures var h := w.leases[i];
            && 0 < |Missing(h)| <= 2 && |h.locks| + |Missing(h)| == |h.Mine()|
            && (Available(w.table, i, h.Mine()) <==> forall r :: r in Missing(h) ==> r !in w.table)
            && (|Missing(h)| == 2 ==> Missing(h)[0] != Missing(h)[1])
  {
    var h := w.leases[i];
    LocksFit(h);
    assert h.locks != [] ==> h.locks[0] in h.locks;
    assert forall r :: r in h.Mine() && r !in h.locks ==> !Owns(w.table, i, r);
  }

  lemma LocksFit(h: Holder)
    requires HolderInv(h)
    ensures |h.locks| <= |h.Mine()|
  {
    var taken := set r | r in h.locks;
    var all := set r | r in h.Mine();
    Lease.Distinct(h.locks);
    Lease.Distinct(h.Mine());
    assert taken + (all - taken) == all;
  }

  lemma TakesTodo(w: World, i: int, todo: seq<Resource>)
    requires i in w.leases && w.leases[i].phase == Taking(todo) && 0 < |todo| <= 2
    requires |todo| == 2 ==> todo[0] != todo[1]
    ensures var t := Next(Next(Next(w, i, TakeNext(false)), i, TakeNext(false)), i, FinishTaking(false));
            && i in t.leases && t.leases[i].database == w.leases[i].database && t.leases[i].scope == w.leases[i].scope
            && if forall r :: r in todo ==> r !in w.table
               then t.leases[i].phase.Steady? && t.leases[i].locks == w.leases[i].locks + todo
               else t.leases[i].phase == Giving(t.leases[i].locks) && |t.leases[i].locks| < |w.leases[i].locks| + |todo|
  {
    hide Needed;
    var t := Next(w, i, TakeNext(false));
    assert todo[0] in todo;
    if |todo| == 1 {
      assert forall r :: r in todo ==> r == todo[0];
    } else {
      assert forall r :: r in todo ==> r == todo[0] || r == todo[1];
      assert w.leases[i].locks + [todo[0]] + [todo[1]] == w.leases[i].locks + todo;
    }
  }

  lemma TakesMissing(w: World, i: int)
    requires i in w.leases && w.leases[i].phase.Steady? && HolderInv(w.leases[i])
    requires Mirrors(w.table, i, w.leases[i]) && !w.leases[i].Held()
    ensures var t := TakeAlone(w, i);
            && i in t.leases
            && if Available(w.table, i, w.leases[i].Mine())
               then t.leases[i].phase.Steady? && t.leases[i].Held()
               else t.leases[i].phase == Giving(t.leases[i].locks) && |t.leases[i].locks| <= 1
  {
    var h := w.leases[i];
    MissingIsRest(w, i);
    hide Missing, Available;
    TakesTodo(Next(w, i, StartAcquire), i, Missing(h));
  }

  lemma GivesAll(w: World, i: int)
    requires i in w.leases && w.leases[i].phase == Giving(w.leases[i].locks) && |w.leases[i].locks| <= 1
    ensures var t := GiveAlone(w, i);
            i in t.leases && t.leases[i].locks == [] && t.leases[i].phase.Steady?
  {
  }

  lemma OthersKept(w: World, i: int, step: Step)
    requires Inv(w) && i in w.leases && !step.Die?
    ensures Inv(Next(w, i, step)) && i in Next(w, i, step).leases
    ensures Without(Next(w, i, step).table, i) == Without(w.table, i)
  {
    NextKeepsInv(w, i, step);
    HolderStep(w, i, step);
    var t := Next(w, i, step);
    hide Next, Inv;
    forall r ensures r in Without(t.table, i) <==> r in Without(w.table, i) {
      if r in t.table && t.table[r] != i { OthersUntouched(w, i, step, t.table[r], r); }
      if r in w.table && w.table[r] != i { OthersUntouched(w, i, step, w.table[r], r); }
    }
    forall r | r in Without(w.table, i) ensures t.table[r] == w.table[r] {
      OthersUntouched(w, i, step, w.table[r], r);
    }
  }

  lemma AloneKeepsOthers(w: World, i: int)
    requires Inv(w) && i in w.leases
    ensures Inv(TakeAlone(w, i)) && Inv(GiveAlone(w, i)) && i in TakeAlone(w, i).leases
    ensures Without(TakeAlone(w, i).table, i) == Without(w.table, i)
    ensures Without(GiveAlone(w, i).table, i) == Without(w.table, i)
  {
    hide Next, Inv;
    OthersKept(w, i, StartAcquire);
    var a := Next(w, i, StartAcquire);
    OthersKept(a, i, TakeNext(false));
    var b := Next(a, i, TakeNext(false));
    OthersKept(b, i, TakeNext(false));
    OthersKept(Next(b, i, TakeNext(false)), i, FinishTaking(false));
    OthersKept(w, i, GiveNext);
    var c := Next(w, i, GiveNext);
    OthersKept(c, i, GiveNext);
    OthersKept(Next(c, i, GiveNext), i, FinishGiving);
  }

  /** Run alone, the steps of an acquisition do what `Lease.RuntimeLease.Acquire` promises: the lease
      is held if and only if nobody else has what it needs, and otherwise it owns nothing. */
  lemma AcquireAlone(w: World, i: int)
    requires Inv(w) && i in w.leases && w.leases[i].phase.Steady? && !w.leases[i].Held()
    ensures var t := TakeAlone(w, i);
            && i in t.leases && Without(t.table, i) == Without(w.table, i)
            && if Available(w.table, i, w.leases[i].Mine())
               then t.leases[i].phase.Steady? && t.leases[i].Held()
               else && i in GiveAlone(t, i).leases && GiveAlone(t, i).leases[i].locks == []
                    && GiveAlone(t, i).table == Without(w.table, i)
  {
    hide TakeAlone, GiveAlone, Available, Needed;
    TakesMissing(w, i);
    hide Inv;
    AloneKeepsOthers(w, i);
    var t := TakeAlone(w, i);
    if !Available(w.table, i, w.leases[i].Mine()) {
      GivesAll(t, i);
      AloneKeepsOthers(t, i);
      OwnsNone(GiveAlone(t, i), i);
    }
  }

  lemma OwnsNone(w: World, i: int)
    requires Inv(w) && i in w.leases && w.leases[i].phase.Steady? && w.leases[i].locks == []
    ensures w.table == Without(w.table, i)
  {
    assert Mirrors(w.table, i, w.leases[i]);
    assert forall r :: r in w.table ==> !Owns(w.table, i, r);
  }

  // ---------------------------------------------------------------- main results

  const FRESH := World(map[], map[])

  lemma HeldTakesAll(h: Holder)
    requires HolderInv(h) && h.Held()
    ensures forall r :: r in h.Mine() ==> r in h.locks
  {
    if h.scope.None? {
      assert h.locks[0] in h.locks;
    } else {
      assert h.locks[0] in h.locks && h.locks[1] in h.locks && h.locks[0] != h.locks[1];
    }
  }

  /** No two leases that report held, neither of them inside release, share a database or an account. */
  lemma MutualExclusion(script: seq<(int, Step)>, i: int, j: int)
    requires var w := Run(FRESH, script);
             && i in w.leases && j in w.leases && i != j
             && w.leases[i].Held() && w.leases[j].Held()
             && !w.leases[i].phase.Giving? && !w.leases[j].phase.Giving?
    ensures var w := Run(FRESH, script);
            && w.leases[i].database != w.leases[j].database
            && (w.leases[i].scope.Some? ==> w.leases[i].scope != w.leases[j].scope)
  {
    RunKeepsInv(FRESH, script);
    var w := Run(FRESH, script);
    var a, b := w.leases[i], w.leases[j];
    HeldTakesAll(a);
    HeldTakesAll(b);
    assert Mirrors(w.table, i, a) && Mirrors(w.table, j, b);
    assert Owns(w.table, i, Database(a.database)) && Owns(w.table, j, Database(b.database));
    if a.scope.Some? {
      assert Owns(w.table, i, Account(a.scope.value));
      assert b.scope.Some? ==> Owns(w.table, j, Account(b.scope.value));
    }
  }

  /** Inside release a lease still reports held after its lock is gone: while it has not finished,
      a second lease of the same database can become held too. */
  lemma HeldWhileReleasing(w: World, i: int, j: int)
    requires Inv(w) && i in w.leases && j in w.leases && i != j
    requires var a, b := w.leases[i], w.leases[j];
             && a.scope.None? && a.Held() && a.phase.Steady?
             && b.scope.None? && b.locks == [] && b.phase.Steady? && b.database == a.database
    ensures var given := Next(Next(w, i, StartRelease), i, GiveNext);
            var t := Next(Next(given, j, StartAcquire), j, TakeNext(false));
            && i in t.leases && j in t.leases && t.leases[i].Held() && t.leases[j].Held()
            && t.leases[i].database == t.leases[j].database && t.leases[i].phase.Giving?
  {
    var a, b := w.leases[i], w.leases[j];
    var db := Database(a.database);
    HeldTakesAll(a);
    assert a.locks == [db] && b.Mine() == [db];
    hide Needed;
    var given := Next(Next(w, i, StartRelease), i, GiveNext);
    assert given.table == w.table - {db} && given.leases[j] == b;
    var taking := Next(given, j, StartAcquire);
    assert taking.leases[j].phase == Taking([db]);
  }

  /** The step with which taking locks fails: a file that does not open, a lock somebody has, or
      metadata that cannot be written. */
  predicate FailsTaking(w: World, i: int, step: Step)
    requires i in w.leases
  {
    var h := w.leases[i];
    h.phase.Taking? &&
    ((h.phase.todo != [] && step.TakeNext? && (step.openFails || h.phase.todo[0] in w.table)) ||
     (h.phase.todo == [] && step.FinishTaking? && step.metadataFails))
  }

  ghost predicate GivingUp(w: World, i: int) {
    i in w.leases && (w.leases[i].phase.Giving? || (w.leases[i].phase.Steady? && w.leases[i].locks == []))
  }

  lemma {:induction false} GivingUpGoesOn(w: World, script: seq<(int, Step)>, i: int)
    requires GivingUp(w, i)
    requires forall k :: 0 <= k < |script| && script[k].0 == i ==> script[k].1.GiveNext? || script[k].1.FinishGiving?
    ensures GivingUp(Run(w, script), i)
    decreases |script|
  {
    if script != [] {
      assert script[0].0 == i ==> script[0].1.GiveNext? || script[0].1.FinishGiving?;
      assert GivingUp(Next(w, script[0].0, script[0].1), i);
      hide Next, GivingUp;
      GivingUpGoesOn(Next(w, script[0].0, script[0].1), script[1..], i);
    }
  }

  /** In every interleaving, an acquisition that fails while taking locks ends with no lock: once the
      lease has run its release to the end, whatever the others did meanwhile, it owns nothing. */
  lemma FailureLeavesNoLock(script: seq<(int, Step)>, i: int, failing: Step, rest: seq<(int, Step)>, r: Resource)
    requires i in Run(FRESH, script).leases && FailsTaking(Run(FRESH, script), i, failing)
    requires forall k :: 0 <= k < |rest| && rest[k].0 == i ==> rest[k].1.GiveNext? || rest[k].1.FinishGiving?
    ensures var t := Run(Next(Run(FRESH, script), i, failing), rest);
            i in t.leases && (t.leases[i].phase.Steady? ==> t.leases[i].locks == [] && !Owns(t.table, i, r))
  {
    var w := Run(FRESH, script);
    RunKeepsInv(FRESH, script);
    NextKeepsInv(w, i, failing);
    var f := Next(w, i, failing);
    RunKeepsInv(f, rest);
    GivingUpGoesOn(f, rest, i);
    var t := Run(f, rest);
    assert Mirrors(t.table, i, t.leases[i]);
  }

  /** A lock changes hands only through its owner's release or death: binding never drops the
      database lock on the way, whatever the other leases do. */
  lemma {:induction false} LockIsKept(w: World, script: seq<(int, Step)>, i: int, r: Resource)
    requires Inv(w) && Owns(w.table, i, r)
    requires forall k :: 0 <= k < |script| && script[k].0 == i ==> !script[k].1.GiveNext? && !script[k].1.Die?
    ensures Owns(Run(w, script).table, i, r)
    decreases |script|
  {
    if script != [] {
      var j, step := script[0].0, script[0].1;
      NextKeepsInv(w, j, step);
      if j != i {
        OthersUntouched(w, j, step, i, r);
      } else {
        OwnStepKeeps(w, i, step, r);
      }
      LockIsKept(Next(w, j, step), script[1..], i, r);
    }
  }

  lemma OwnStepKeeps(w: World, i: int, step: Step, r: Resource)
    requires Owns(w.table, i, r) && !step.GiveNext? && !step.Die?
    ensures Owns(Next(w, i, step).table, i, r)
  {
  }

  /** A bind that fails before it reaches the locks leaves a lease that owns its database lock and
      yet does not report held. */
  lemma EarlyBindFailure(w: World, i: int, scope: string)
    requires Inv(w) && i in w.leases && w.leases[i].scope.None? && w.leases[i].phase.Steady? && w.leases[i].Held()
    ensures var t := Next(w, i, StartBind(Some(scope), true));
            && i in t.leases && !t.leases[i].Held() && t.leases[i].phase.Steady?
            && Owns(t.table, i, Database(t.leases[i].database))
  {
    HeldTakesAll(w.leases[i]);
    assert Mirrors(w.table, i, w.leases[i]);
  }
}
