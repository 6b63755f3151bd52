/**
 Fail-closed startup and teardown: an exception may be raised at every step of building the
 default runner, and whatever was armed or locked by then is undone.
 */
module Startup {
  import opened Options
  import opened Lease
  import opened EntryGate

  datatype Mode = Simulation | Demo | LiveSafe | LiveArmed {
    predicate SubmitsOrders() {
      Demo? || LiveArmed?
    }
  }

  const LEASE := "runtime_lease"

  datatype Event = SetUp(name: string) | TornDown(name: string) | Disarmed | LeaseReleased | CallbackRun

  /** What tearing one service down does; the lease service disarms before it releases. */
  function TearDownOne(name: string): (r: seq<Event>) {
    if name == LEASE then [Disarmed, LeaseReleased] else [TornDown(name)]
  }

  /** Services come down in reverse order of registration. */
  function TearDown(services: seq<string>): (r: seq<Event>) {
    if services == [] then []
    else TearDownOne(services[|services| - 1]) + TearDown(services[..|services| - 1])
  }

  function Callbacks(n: nat): (r: seq<Event>)
    ensures |r| == n && forall i :: 0 <= i < n ==> r[i] == CallbackRun
  {
    seq(n, i => CallbackRun)
  }

  /** What setting services up leaves behind: an event for each that did not fail, in order. */
  function SetUps(services: seq<string>, fails: set<string>): (r: seq<Event>) {
    if services == [] then []
    else
      var last := services[|services| - 1];
      SetUps(services[..|services| - 1], fails) + if last in fails then [] else [SetUp(last)]
  }

  function Failing(services: seq<string>, fails: set<string>): (r: set<string>) {
    set name | name in services && name in fails
  }

  lemma SetUpsExtend(services: seq<string>, fails: set<string>, i: nat)
    requires i < |services|
    ensures SetUps(services[..i + 1], fails) ==
            SetUps(services[..i], fails) + if services[i] in fails then [] else [SetUp(services[i])]
    ensures Failing(services[..i + 1], fails) ==
            Failing(services[..i], fails) + if services[i] in fails then {services[i]} else {}
  {
    assert services[..i + 1][..i] == services[..i];
    assert services[..i + 1] == services[..i] + [services[i]];
  }

  /** A service counts as set up exactly when it is registered and did not fail. */
  lemma {:induction false} SetUpIff(services: seq<string>, fails: set<string>, name: string)
    ensures SetUp(name) in SetUps(services, fails) <==> name in services && name !in fails
  {
    if services != [] {
      SetUpIff(services[..|services| - 1], fails, name);
      assert services == services[..|services| - 1] + [services[|services| - 1]];
    }
  }

  lemma UnfoldTearDown(log: seq<Event>, services: seq<string>, left: nat)
    requires 0 < left <= |services|
    ensures (log + TearDownOne(services[left - 1])) + TearDown(services[..left - 1]) == log + TearDown(services[..left])
    ensures services[left - 1..] == [services[left - 1]] + services[left..]
  {
    assert services[..left][..left - 1] == services[..left - 1];
  }

  lemma WithoutTwice(table: map<Resource, int>, owner: int)
    ensures Without(Without(table, owner), owner) == Without(table, owner)
  {
  }

  class DaemonRunner {
    const gate: OrderGate
    const lease: RuntimeLease
    var services: seq<string>
    var inactive: set<string>
    var setupComplete: bool
    var callbacks: nat
    var log: seq<Event>

    constructor (gate: OrderGate, lease: RuntimeLease)
      ensures this.gate == gate && this.lease == lease
      ensures services == [] && inactive == {} && !setupComplete && callbacks == 0 && log == []
    {
      this.gate, this.lease := gate, lease;
      services, inactive, setupComplete, callbacks, log := [], {}, false, 0, [];
    }

    method Register(name: string) returns (raised: bool)
      modifies this`services
      ensures raised <==> name in old(services)
      ensures services == if raised then old(services) else old(services) + [name]
    {
      raised := name in services;
      if !raised {
        services := services + [name];
      }
    }

    /** Tear one service down; the lease service disarms, then releases. */
    method TearService(name: string)
      requires lease.Valid()
      modifies this`log, gate, lease`locks, lease.os
      ensures lease.Valid() && log == old(log) + TearDownOne(name)
      ensures if name == LEASE
              then gate.Flags() == SAFE && lease.locks == [] && lease.os.owner == Without(old(lease.os.owner), lease.id)
              else gate.Flags() == old(gate.Flags()) && lease.locks == old(lease.locks) && lease.os.owner == old(lease.os.owner)
    {
      if name == LEASE {
        gate.DisarmOrderPlacement();
        lease.Release();
      }
      log := log + TearDownOne(name);
    }

    /** Tear every service down, newest first, ignoring what they raise; then run the callbacks. */
    method TeardownServices()
      requires lease.Valid()
      modifies this, gate, lease`locks, lease.os
      ensures services == old(services) && inactive == old(inactive) && lease.Valid()
      ensures log == old(log) + TearDown(services) + Callbacks(old(callbacks))
      ensures !setupComplete && callbacks == 0
      ensures if LEASE in services
              then gate.Flags() == SAFE && lease.locks == [] && lease.os.owner == Without(old(lease.os.owner), lease.id)
              else gate.Flags() == old(gate.Flags()) && lease.locks == old(lease.locks) && lease.os.owner == old(lease.os.owner)
    {
      hide TearDownOne, Without, Owns, Needed;
      ghost var log0, owner0, flags0, locks0 := log, lease.os.owner, gate.Flags(), lease.locks;
      var left := |services|;
      assert services[..left] == services;
      while left > 0
        invariant 0 <= left <= |services|
        invariant services == old(services) && callbacks == old(callbacks) && inactive == old(inactive)
        invariant lease.Valid()
        invariant log + TearDown(services[..left]) == log0 + TearDown(services)
        invariant if LEASE in services[left..]
                  then gate.Flags() == SAFE && lease.locks == [] && lease.os.owner == Without(owner0, lease.id)
                  else gate.Flags() == flags0 && lease.locks == locks0 && lease.os.owner == owner0
      {
        var name := services[left - 1];
        UnfoldTearDown(log, services, left);
        WithoutTwice(owner0, lease.id);
        TearService(name);
        left := left - 1;
      }
      assert services[..0] == [] && services[0..] == services;
      log := log + Callbacks(callbacks);
      callbacks := 0;
      setupComplete := false;
    }

    /** Set services up once; a required one that fails tears everything down again. */
    method SetupServices(required: set<string>, fails: set<string>) returns (raised: bool)
      requires lease.Valid() && lease.Held() && LEASE in services
      modifies this, gate, lease`locks, lease.os
      ensures services == old(services) && lease.Valid()
      ensures raised ==> gate.Flags() == SAFE && lease.locks == []
      ensures !raised ==> gate.Flags() == old(gate.Flags()) && lease.locks == old(lease.locks)
      ensures raised ==> lease.os.owner == Without(old(lease.os.owner), lease.id)
      ensures !raised ==> lease.os.owner == old(lease.os.owner)
      ensures raised <==> !old(setupComplete) && exists name :: name in services && name in fails && name in required
      ensures old(setupComplete) ==> setupComplete && inactive == old(inactive) && log == old(log)
      ensures !old(setupComplete) && !raised ==>
                setupComplete && inactive == old(inactive) + Failing(services, fails) && log == old(log) + SetUps(services, fails)
      ensures raised ==> !setupComplete && callbacks == 0
      ensures raised ==>
                exists n :: 0 <= n < |services| && services[n] in fails && services[n] in required
                            && inactive == old(inactive) + Failing(services[..n + 1], fails)
                            && log == old(log) + SetUps(services[..n], fails) + TearDown(services) + Callbacks(old(callbacks))
    {
      hide SetUps, TearDown, Callbacks, Failing;
      NothingSetUp(fails);
      if setupComplete {
        return false;
      }
      for i := 0 to |services|
        invariant services == old(services) && lease.Valid() && !setupComplete
        invariant gate.Flags() == old(gate.Flags()) && lease.locks == old(lease.locks)
        invariant lease.os.owner == old(lease.os.owner)
        invariant forall k :: 0 <= k < i ==> !(services[k] in fails && services[k] in required)
        invariant inactive == old(inactive) + Failing(services[..i], fails) && callbacks == old(callbacks)
        invariant log == old(log) + SetUps(services[..i], fails)
      {
        SetUpsExtend(services, fails, i);
        var name := services[i];
        if name == LEASE {
          var again := lease.Acquire(NoTrouble);
        }
        if name in fails {
          inactive := inactive + {name};
          if name in required {
            TeardownServices();
            return true;
          }
        } else {
          log := log + [SetUp(name)];
        }
      }
      assert services[..|services|] == services;
      setupComplete := true;
      raised := false;
    }
  }

  lemma NothingSetUp(fails: set<string>)
    ensures SetUps([], fails) == [] && Failing([], fails) == {}
  {
  }

  // ---------------------------------------------------------------- building the default runner

  datatype Preflight = PreflightRaises | Report(passed: bool, scope: string)

  /** Which steps raise. */
  datatype Plan = Plan(
    modeResolves: bool,
    storesOpen: bool,
    acquireTrouble: Trouble,
    riskStoreOk: bool,
    preflight: Preflight,
    bindTrouble: Trouble,
    buildFailsAt: Option<nat>,
    setupFails: set<string>,
    statusPublishes: bool)

  function ServiceNames(mode: Mode, strategy: bool): (names: seq<string>) {
    [LEASE]
    + (if mode.Simulation? then [] else ["account"])
    + ["btc_regime", "market_intelligence", "position_intent"]
    + (if mode.LiveSafe? then [] else ["position_manager"])
    + (if mode.Simulation? then [] else ["execution_fills"])
    + (if strategy then ["strategy"] else [])
    + ["lifecycle_notifications"]
  }

  function Required(mode: Mode, strategy: bool): (names: set<string>) {
    {LEASE, "account", "btc_regime", "execution_fills"}
    + (if mode.LiveSafe? then {} else {"position_manager"})
    + (if strategy then {"strategy"} else {})
  }

  predicate Passed(mode: Mode, plan: Plan) {
    mode.Simulation? || (plan.preflight.Report? && plan.preflight.passed)
  }

  ghost predicate OwnsNothing(os: LockTable, id: int)
    reads os
  {
    forall r :: !Owns(os.owner, id, r)
  }

  /** The lock and preflight steps all go through. */
  predicate LeaseAndPreflightPass(mode: Mode, plan: Plan, table: map<Resource, int>, id: int, database: string) {
    var db := Needed(database, None);
    && !Hits(plan.acquireTrouble, db, []) && Available(table, id, db) && plan.riskStoreOk
    && (mode.Simulation? ||
        (&& plan.preflight.Report? && plan.preflight.scope != ""
         && var both := Needed(database, Some(plan.preflight.scope));
            !Hits(plan.bindTrouble, both, db) && Available(table, id, both)))
  }

  /** Every service is built, and outside a simulation every required one sets up. */
  predicate ServicesComeUp(mode: Mode, includeStrategy: bool, plan: Plan) {
    var strategy := WithStrategy(mode, includeStrategy, plan);
    var names := ServiceNames(mode, strategy);
    && (plan.buildFailsAt.Some? ==> plan.buildFailsAt.value > |names|)
    && (mode.Simulation? ||
        (&& plan.statusPublishes
         && forall name :: name in names && name in plan.setupFails ==> name !in Required(mode, strategy)))
  }

  predicate WithStrategy(mode: Mode, includeStrategy: bool, plan: Plan) {
    includeStrategy && !mode.LiveSafe? && Passed(mode, plan)
  }

  /** Take the database lock, run preflight, and bind the account unless this is a simulation. */
  method AcquireAndPreflight(mode: Mode, plan: Plan, lease: RuntimeLease) returns (raised: bool)
    requires lease.Valid() && lease.locks == [] && lease.accountScope.None?
    modifies lease, lease.os
    ensures lease.Valid()
    ensures !raised ==> lease.Held()
    ensures !raised <==> LeaseAndPreflightPass(mode, plan, old(lease.os.owner), lease.id, lease.database)
    ensures !plan.riskStoreOk ==> raised
    ensures !mode.Simulation? && (plan.preflight.PreflightRaises? || plan.preflight.scope == "") ==> raised
    ensures !raised && !mode.Simulation? ==> lease.accountScope == Some(plan.preflight.scope)
    ensures !raised && mode.Simulation? ==> lease.accountScope.None?
  {
    var acquired := lease.Acquire(plan.acquireTrouble);
    if !acquired.Done? || !plan.riskStoreOk {
      return true;
    }
    if mode.Simulation? {
      return false;
    }
    assert lease.locks == Needed(lease.database, None) by {
      lease.HeldOwnsAll();
    }
    if plan.preflight.PreflightRaises? {
      return true;
    }
    var bound := lease.BindAccountScope(plan.preflight.scope, plan.bindTrouble);
    raised := !bound.Done?;
  }

  /** Register the services, set them up and arm orders as the mode and the report allow. */
  method BuildAndArm(mode: Mode, includeStrategy: bool, plan: Plan, runner: DaemonRunner) returns (raised: bool)
    requires runner.lease.Valid() && runner.lease.Held() && runner.services == [] && !runner.setupComplete
    requires !mode.Simulation? ==> plan.preflight.Report?
    requires runner.gate.Flags() == SAFE
    modifies runner, runner.gate, runner.lease`locks, runner.lease.os
    ensures runner.lease.Valid() && !runner.gate.entries
    ensures runner.lease.Held() || runner.lease.locks == []
    ensures !raised ==> runner.lease.Held()
    ensures !raised ==> (runner.gate.armed <==> mode.SubmitsOrders() && Passed(mode, plan))
    ensures !raised ==> runner.services == ServiceNames(mode, WithStrategy(mode, includeStrategy, plan))
    ensures !raised <==> ServicesComeUp(mode, includeStrategy, plan)
    ensures !raised ==> (runner.setupComplete <==> !mode.Simulation?)
    ensures !raised && !mode.Simulation? ==> runner.inactive == old(runner.inactive) + Failing(runner.services, plan.setupFails)
    ensures !mode.Simulation? && !plan.statusPublishes ==> raised
  {
    var strategy := WithStrategy(mode, includeStrategy, plan);
    NamesDistinct(mode, strategy);
    LeaseIsRegisteredFirst(mode, strategy);
    hide ServiceNames, Required, Without, Owns, Needed, Available, Hits;
    raised := RegisterAll(ServiceNames(mode, strategy), plan.buildFailsAt, runner);
    if raised {
      return true;
    }
    var again := runner.lease.Acquire(NoTrouble);
    if mode.Simulation? {
      return false;
    }
    raised := runner.SetupServices(Required(mode, strategy), plan.setupFails);
    if raised {
      return true;
    }
    if mode.SubmitsOrders() && plan.preflight.passed {
      raised := runner.gate.ArmOrderPlacement(true);
    } else {
      runner.gate.DisarmOrderPlacement();
    }
    raised := !plan.statusPublishes;
  }

  /** Construct and register each service; the step after the last is the lease service's own setup. */
  method RegisterAll(names: seq<string>, failsAt: Option<nat>, runner: DaemonRunner) returns (raised: bool)
    requires runner.services == []
    modifies runner`services
    requires forall i, j :: 0 <= i < j < |names| ==> names[i] != names[j]
    ensures !raised ==> runner.services == names
    ensures exists n :: 0 <= n <= |names| && runner.services == names[..n]
    ensures raised <==> failsAt.Some? && failsAt.value <= |names|
  {
    for i := 0 to |names|
      invariant runner.services == names[..i]
      invariant failsAt.Some? ==> i <= failsAt.value
    {
      if failsAt == Some(i) {
        return true;
      }
      raised := runner.Register(names[i]);
      if raised {
        return true;
      }
    }
    assert names[..|names|] == names;
    raised := failsAt == Some(|names|);
  }

  /** Startup returns ready or raises safe; only a mode that does not resolve raises before disarming. */
  method CreateDefaultRunner(mode: Mode, includeStrategy: bool, plan: Plan,
                             gate: OrderGate, os: LockTable, id: int, database: string)
    returns (raised: bool, lease: RuntimeLease, runner: DaemonRunner)
    requires forall r :: r in os.owner ==> os.owner[r] != id
    modifies gate, os
    ensures lease.id == id && lease.os == os && lease.Valid()
    ensures !raised ==> && plan.modeResolves && lease.Held() && !gate.entries
                        && (gate.armed <==> (mode.Demo? || mode.LiveArmed?) && plan.preflight.Report? && plan.preflight.passed)
    ensures !raised ==> && runner.lease == lease && runner.gate == gate
                        && runner.services == ServiceNames(mode, WithStrategy(mode, includeStrategy, plan))
                        && (runner.setupComplete <==> !mode.Simulation?)
                        && (!mode.Simulation? ==> runner.inactive == Failing(runner.services, plan.setupFails))
    ensures !raised <==> && plan.modeResolves && plan.storesOpen
                         && LeaseAndPreflightPass(mode, plan, old(os.owner), id, database)
                         && ServicesComeUp(mode, includeStrategy, plan)
    ensures raised && plan.modeResolves ==> gate.Flags() == SAFE && OwnsNothing(os, id)
    ensures !plan.modeResolves ==> raised && gate.Flags() == old(gate.Flags()) && os.owner == old(os.owner)
    ensures raised ==> ((gate.Flags() == SAFE && OwnsNothing(os, id)) <==>
                        (plan.modeResolves || old(gate.Flags()) == SAFE))
  {
    lease := new RuntimeLease(id, database, os);
    runner := new DaemonRunner(gate, lease);
    if !plan.modeResolves {
      return true, lease, runner;
    }
    gate.DisarmOrderPlacement();
    if !plan.storesOpen {
      return true, lease, runner;
    }
    raised := AcquireAndPreflight(mode, plan, lease);
    if raised {
      lease.Release();
      return true, lease, runner;
    }
    raised := BuildAndArm(mode, includeStrategy, plan, runner);
    if raised {
      gate.DisarmOrderPlacement();
      if lease.Held() {
        runner.TeardownServices();
      }
      if lease.Held() {
        lease.Release();
      }
    }
  }

  // ---------------------------------------------------------------- teardown order

  lemma {:induction false} TearDownConcat(a: seq<string>, b: seq<string>)
    ensures TearDown(a + b) == TearDown(b) + TearDown(a)
    decreases |b|
  {
    if b == [] {
      assert a + b == a;
    } else {
      assert (a + b)[..|a + b| - 1] == a + b[..|b| - 1];
      TearDownConcat(a, b[..|b| - 1]);
    }
  }

  lemma {:induction false} OthersTearDown(services: seq<string>)
    requires LEASE !in services
    ensures forall e :: e in TearDown(services) <==> e.TornDown? && e.name in services
    ensures |TearDown(services)| == |services|
  {
    if services != [] {
      var n := |services| - 1;
      OthersTearDown(services[..n]);
      assert services == services[..n] + [services[n]];
    }
  }

  /** The lease is registered first, so it is released last: every other service is down and
      orders are disarmed before it is given up. */
  lemma LeaseReleasedLast(services: seq<string>)
    requires services != [] && services[0] == LEASE && LEASE !in services[1..]
    ensures var log := TearDown(services);
            var n := |services| - 1;
            && |log| == n + 2
            && log[n] == Disarmed && log[n + 1] == LeaseReleased
            && (forall e :: e in log[..n] <==> e.TornDown? && e.name in services[1..])
  {
    assert services == [LEASE] + services[1..];
    TearDownConcat([LEASE], services[1..]);
    OthersTearDown(services[1..]);
    assert TearDown([LEASE]) == [Disarmed, LeaseReleased] + TearDown([]);
    assert TearDown(services)[..|services| - 1] == TearDown(services[1..]);
  }

  lemma NamesDistinct(mode: Mode, strategy: bool)
    ensures var names := ServiceNames(mode, strategy);
            forall i, j :: 0 <= i < j < |names| ==> names[i] != names[j]
  {
  }

  /** What runs in which mode, in registration order. */
  lemma ServicesIff(mode: Mode, strategy: bool, name: string)
    ensures name in ServiceNames(mode, strategy) <==>
            || name in {LEASE, "btc_regime", "market_intelligence", "position_intent", "lifecycle_notifications"}
            || (!mode.Simulation? && name in {"account", "execution_fills"})
            || (!mode.LiveSafe? && name == "position_manager")
            || (strategy && name == "strategy")
  {
  }

  /** The one order in which every mode registers the services it has. */
  const ORDER: seq<string> := [LEASE, "account", "btc_regime", "market_intelligence", "position_intent", "position_manager",
                               "execution_fills", "strategy", "lifecycle_notifications"]

  lemma ServicesInOrder(mode: Mode, strategy: bool, i: nat, j: nat)
    requires i < j < |ServiceNames(mode, strategy)|
    ensures var names := ServiceNames(mode, strategy);
            exists a: nat, b: nat :: a < b < |ORDER| && ORDER[a] == names[i] && ORDER[b] == names[j]
  {
    var a, b := Place(mode, strategy, i), Place(mode, strategy, j);
    assert ORDER[a] == ServiceNames(mode, strategy)[i] && ORDER[b] == ServiceNames(mode, strategy)[j];
  }

  /** Where a registered service stands in the order. */
  function Place(mode: Mode, strategy: bool, i: nat): (k: nat)
    requires i < |ServiceNames(mode, strategy)|
    ensures k < |ORDER| && ORDER[k] == ServiceNames(mode, strategy)[i]
  {
    if i == 0 then 0
    else
      var k := i + (if mode.Simulation? then 1 else 0);
      if k < 5 then k
      else
        var m := k + (if mode.LiveSafe? then 1 else 0);
        if m < 6 then m
        else
          var f := m + (if mode.Simulation? then 1 else 0);
          if f < 7 then f else if strategy then f else f + 1
  }

  /** Outside a simulation every required service is registered, and only market intelligence, the intents
      and the notifications may fail without ending the startup. */
  lemma OptionalServices(mode: Mode, strategy: bool, name: string)
    requires !mode.Simulation?
    ensures name in Required(mode, strategy) ==> name in ServiceNames(mode, strategy)
    ensures name in ServiceNames(mode, strategy) && name !in Required(mode, strategy) <==>
            name in {"market_intelligence", "position_intent", "lifecycle_notifications"}
  {
  }

  /** The strategy runs exactly when it is asked for, in a mode that may enter, and preflight passed. */
  lemma StrategyIff(mode: Mode, includeStrategy: bool, plan: Plan)
    ensures WithStrategy(mode, includeStrategy, plan) <==>
            includeStrategy && (mode.Simulation? || ((mode.Demo? || mode.LiveArmed?) && plan.preflight.Report? && plan.preflight.passed))
  {
  }

  /** Every mode registers the lease first and only once. */
  lemma LeaseIsRegisteredFirst(mode: Mode, strategy: bool)
    ensures var names := ServiceNames(mode, strategy); names != [] && names[0] == LEASE && LEASE !in names[1..]
  {
  }
}
