/**
 The trailing-stop rule of one position: waiting, active or stale, a water mark that follows
 the best price since activation, and a stop that follows the water mark.
 */
module TrailingStop {
  import opened Options

  datatype Side = Long | Short

  datatype Distance = Percent(pct: real) | Absolute(amount: real)

  datatype Rule = Rule(side: Side, activation: real, distance: Distance)

  datatype Status = Unset | Waiting | Active | StaleFeed

  /** The persisted trailing state and the value of the one enabled stop. */
  datatype Trail = Trail(status: Status, activated: bool, water: Option<real>, stop: real)

  /** How a stop amendment ends: `Interrupted` writes the stop but not the rule state. */
  datatype Amend = Applied | Refused | Interrupted

  datatype Tick = Stale | Fresh(price: real, amend: Amend)

  // ---------------------------------------------------------------- prices by side

  predicate Reaches(rule: Rule, price: real) {
    if rule.side.Long? then price >= rule.activation else price <= rule.activation
  }

  /** The more favourable of two prices. */
  function Better(side: Side, a: real, b: real): (r: real)
    ensures r == a || r == b
  {
    if side.Long? then (if a < b then b else a) else (if b < a then b else a)
  }

  /** a is at least as favourable as b. */
  predicate AtLeast(side: Side, a: real, b: real) {
    if side.Long? then a >= b else a <= b
  }

  /** A strictly tighter stop; also: strictly on the winning side of. */
  predicate Beyond(side: Side, a: real, b: real) {
    if side.Long? then a > b else a < b
  }

  function Factor(side: Side, pct: real): (k: real)
    ensures side.Short? && pct > 0.0 ==> k > 1.0
  {
    if side.Long? then 1.0 - pct else 1.0 + pct
  }

  function Candidate(rule: Rule, water: real): (stop: real) {
    match rule.distance
    case Percent(pct) => water * Factor(rule.side, pct)
    case Absolute(amount) => if rule.side.Long? then water - amount else water + amount
  }

  predicate Positive(d: Distance) {
    match d
    case Percent(pct) => pct > 0.0
    case Absolute(amount) => amount > 0.0
  }

  // ---------------------------------------------------------------- one tick

  function Advance(rule: Rule, t: Trail, tick: Tick): (r: Trail) {
    match tick
    case Stale => t.(status := StaleFeed)
    case Fresh(price, amend) =>
      var previous := t.water.GetOr(price);
      if !(t.activated || t.status.Active? || Reaches(rule, price)) then
        if t.status.Waiting? then t else Trail(Waiting, false, None, t.stop)
      else
        var water := Better(rule.side, previous, price);
        var candidate := Candidate(rule, water);
        if !Beyond(rule.side, price, candidate) then t
        else if !Beyond(rule.side, candidate, t.stop) then
          if water != previous || !t.status.Active? then Trail(Active, true, Some(water), t.stop) else t
        else match amend
          case Applied => Trail(Active, true, Some(water), candidate)
          case Refused => t
          case Interrupted => t.(stop := candidate)
  }

  /** The water mark an observation leads to. */
  function WaterAt(rule: Rule, t: Trail, price: real): (water: real) {
    Better(rule.side, t.water.GetOr(price), price)
  }

  /** The rule is running, or this price starts it. */
  predicate Running(rule: Rule, t: Trail, price: real) {
    t.activated || t.status.Active? || Reaches(rule, price)
  }

  /** The observation asks for a tighter stop that the price has not crossed yet. */
  predicate Tightens(rule: Rule, t: Trail, price: real) {
    var candidate := Candidate(rule, WaterAt(rule, t, price));
    Running(rule, t, price) && Beyond(rule.side, price, candidate) && Beyond(rule.side, candidate, t.stop)
  }

  function Run(rule: Rule, t: Trail, ticks: seq<Tick>): (r: Trail) {
    if ticks == [] then t else Advance(rule, Run(rule, t, ticks[..|ticks| - 1]), ticks[|ticks| - 1])
  }

  class TrailingRule {
    const rule: Rule
    var status: Status
    var activated: bool
    var water: Option<real>
    var stop: real

    constructor (rule: Rule, stop: real)
      ensures this.rule == rule && State() == Trail(Unset, false, None, stop)
    {
      this.rule := rule;
      status, activated, water := Unset, false, None;
      this.stop := stop;
    }

    ghost function State(): (t: Trail)
      reads this
    {
      Trail(status, activated, water, stop)
    }

    /** Advance the rule by one observation, persisting as the daemon does. */
    method AdvanceTrailingRule(tick: Tick)
      modifies this
      ensures State() == Advance(rule, old(State()), tick)
      ensures tick.Stale? ==> status.StaleFeed? && activated == old(activated) && water == old(water) && stop == old(stop)
      ensures tick.Fresh? && !Running(rule, old(State()), tick.price) ==>
                status.Waiting? && stop == old(stop) && (!old(status).Waiting? ==> !activated && water.None?)
      ensures tick.Fresh? && Running(rule, old(State()), tick.price) ==>
                var candidate := Candidate(rule, WaterAt(rule, old(State()), tick.price));
                if !Beyond(rule.side, tick.price, candidate) then State() == old(State())
                else Consistent(old(State())) && !Beyond(rule.side, candidate, old(stop)) ==>
                  status.Active? && activated && water == Some(WaterAt(rule, old(State()), tick.price)) && stop == old(stop)
      ensures stop != old(stop) <==>
                tick.Fresh? && Tightens(rule, old(State()), tick.price) && !tick.amend.Refused?
      ensures stop != old(stop) ==> stop == Candidate(rule, WaterAt(rule, old(State()), tick.price))
      ensures tick.Fresh? && Tightens(rule, old(State()), tick.price) ==>
                if tick.amend.Applied? then status.Active? && activated && water == Some(WaterAt(rule, old(State()), tick.price))
                else status == old(status) && activated == old(activated) && water == old(water)
    {
      if tick.Stale? {
        status := StaleFeed;
        return;
      }
      var current := tick.price;
      var previousWater := water.GetOr(current);
      var active := activated || status.Active? || Reaches(rule, current);
      if !active {
        if !status.Waiting? {
          status, activated, water := Waiting, false, None;
        }
        return;
      }
      var newWater := Better(rule.side, previousWater, current);
      var candidate := Candidate(rule, newWater);
      var improves := Beyond(rule.side, candidate, stop);
      var crossed := AtLeast(rule.side, candidate, current);
      if crossed {
        return;
      }
      if !improves {
        if newWater != previousWater || !status.Active? {
          status, activated, water := Active, true, Some(newWater);
        }
        return;
      }
      if tick.amend.Refused? {
        return;
      }
      stop := candidate;
      if tick.amend.Applied? {
        status, activated, water := Active, true, Some(newWater);
      }
    }
  }

  // ---------------------------------------------------------------- the closed form

  /** The best fresh price since the first one that reached the activation price. */
  function Mark(rule: Rule, ticks: seq<Tick>): (m: Option<real>) {
    if ticks == [] then None
    else
      var m, tick := Mark(rule, ticks[..|ticks| - 1]), ticks[|ticks| - 1];
      match tick
      case Stale => m
      case Fresh(price, _) =>
        if m.Some? then Some(Better(rule.side, m.value, price))
        else if Reaches(rule, price) then Some(price) else None
  }

  /** The tighter of the initial stop and the candidate of the mark. */
  function Tightest(rule: Rule, initial: real, m: Option<real>): (stop: real) {
    if m.None? then initial else Better(rule.side, initial, Candidate(rule, m.value))
  }

  /** Dry-run observations: positive prices, and every amendment is applied. */
  predicate DryRun(ticks: seq<Tick>) {
    forall i :: 0 <= i < |ticks| && ticks[i].Fresh? ==> ticks[i].price > 0.0 && ticks[i].amend.Applied?
  }

  ghost predicate Closed(rule: Rule, initial: real, m: Option<real>, t: Trail) {
    && t.water == m && t.activated == m.Some? && (t.status.Active? ==> m.Some?)
    && t.stop == Tightest(rule, initial, m)
    && (m.Some? ==> m.value > 0.0)
  }

  /** A positive distance puts the candidate of a water mark strictly behind it. */
  lemma CandidateBehind(rule: Rule, water: real)
    requires water > 0.0
    ensures Beyond(rule.side, water, Candidate(rule, water)) <==> Positive(rule.distance)
  {
  }

  lemma Scale(a: real, b: real, k: real)
    requires a >= b && b > 0.0
    ensures k >= 0.0 ==> a * k >= b * k
    ensures k < 0.0 ==> a * k < 0.0 && b * k < 0.0
  {
  }

  /** A better water mark never asks for a looser stop than a positive initial one. */
  lemma CandidateFollows(rule: Rule, initial: real, a: real, b: real)
    requires initial > 0.0 && a > 0.0 && b > 0.0 && AtLeast(rule.side, a, b) && Positive(rule.distance)
    ensures AtLeast(rule.side, Better(rule.side, initial, Candidate(rule, a)),
                    Better(rule.side, initial, Candidate(rule, b)))
  {
    if rule.distance.Percent? {
      PercentFollows(rule, a, b);
    }
  }

  lemma PercentFollows(rule: Rule, a: real, b: real)
    requires a > 0.0 && b > 0.0 && AtLeast(rule.side, a, b) && Positive(rule.distance) && rule.distance.Percent?
    ensures AtLeast(rule.side, Candidate(rule, a), Candidate(rule, b)) ||
            (rule.side.Long? && Candidate(rule, a) < 0.0 && Candidate(rule, b) < 0.0)
  {
    var k := Factor(rule.side, rule.distance.pct);
    var x, y := Candidate(rule, a), Candidate(rule, b);
    assert x == a * k && y == b * k;
    if rule.side.Long? {
      Scale(a, b, k);
    } else {
      assert k >= 0.0;
      Scale(b, a, k);
      assert b * k >= a * k;
    }
  }

  lemma AdvanceKeepsClosed(rule: Rule, initial: real, m: Option<real>, t: Trail, price: real)
    requires Closed(rule, initial, m, t) && initial > 0.0 && price > 0.0 && Positive(rule.distance)
    ensures var m' := if m.Some? then Some(Better(rule.side, m.value, price))
                      else if Reaches(rule, price) then Some(price) else None;
            Closed(rule, initial, m', Advance(rule, t, Fresh(price, Applied)))
  {
    if m.Some? || Reaches(rule, price) {
      var previous := m.GetOr(price);
      var water := Better(rule.side, previous, price);
      hide Candidate, Positive;
      CandidateBehind(rule, water);
      CandidateFollows(rule, initial, water, previous);
    }
  }

  /** In a dry run over any price sequence with stale gaps, the stored water mark is the best fresh
      price since activation and the stop is the tighter of the initial stop and its candidate. */
  lemma {:induction false} TrailingClosedForm(rule: Rule, initial: real, ticks: seq<Tick>)
    requires initial > 0.0 && Positive(rule.distance) && DryRun(ticks)
    ensures Closed(rule, initial, Mark(rule, ticks), Run(rule, Trail(Unset, false, None, initial), ticks))
  {
    if ticks != [] {
      TrailingClosedForm(rule, initial, ticks[..|ticks| - 1]);
      var t, tick := Run(rule, Trail(Unset, false, None, initial), ticks[..|ticks| - 1]), ticks[|ticks| - 1];
      if tick.Fresh? {
        AdvanceKeepsClosed(rule, initial, Mark(rule, ticks[..|ticks| - 1]), t, tick.price);
      }
    }
  }

  /** Without a positive distance every candidate is crossed and nothing is ever stored. */
  lemma {:induction false} NonPositiveNeverTrails(rule: Rule, initial: real, ticks: seq<Tick>)
    requires !Positive(rule.distance) && DryRun(ticks)
    ensures var t := Run(rule, Trail(Unset, false, None, initial), ticks);
            t.water.None? && !t.activated && !t.status.Active? && t.stop == initial
  {
    if ticks != [] {
      NonPositiveNeverTrails(rule, initial, ticks[..|ticks| - 1]);
      var tick := ticks[|ticks| - 1];
      if tick.Fresh? {
        CandidateBehind(rule, tick.price);
      }
    }
  }

  /** So the closed form needs exactly a positive distance, once a price has reached activation. */
  lemma ClosedFormIff(rule: Rule, initial: real, ticks: seq<Tick>)
    requires initial > 0.0 && DryRun(ticks)
    ensures var t := Run(rule, Trail(Unset, false, None, initial), ticks);
            (t.water == Mark(rule, ticks) && t.stop == Tightest(rule, initial, Mark(rule, ticks))) <==>
            (Positive(rule.distance) || Mark(rule, ticks).None?)
  {
    if Positive(rule.distance) {
      TrailingClosedForm(rule, initial, ticks);
    } else {
      NonPositiveNeverTrails(rule, initial, ticks);
    }
  }

  /** The mark is what it is called: attained, and at least as good as every fresh price from the
      activating one on. */
  lemma {:induction false} MarkIsBest(rule: Rule, ticks: seq<Tick>) returns (first: nat, best: nat)
    requires Mark(rule, ticks).Some?
    ensures first <= best < |ticks|
    ensures ticks[first].Fresh? && Reaches(rule, ticks[first].price)
    ensures ticks[best].Fresh? && ticks[best].price == Mark(rule, ticks).value
    ensures forall i :: 0 <= i < first ==> ticks[i].Fresh? ==> !Reaches(rule, ticks[i].price)
    ensures forall i :: first <= i < |ticks| && ticks[i].Fresh? ==>
              AtLeast(rule.side, Mark(rule, ticks).value, ticks[i].price)
  {
    var n := |ticks| - 1;
    var rest := ticks[..n];
    if Mark(rule, rest).None? {
      first, best := n, n;
      NoneBefore(rule, rest);
    } else {
      first, best := MarkIsBest(rule, rest);
      if ticks[n].Fresh? && Mark(rule, ticks).value == ticks[n].price {
        best := n;
      }
    }
  }

  /** There is a mark exactly once some fresh price was at the activation price or past it. */
  lemma {:induction false} MarkStartsIff(rule: Rule, ticks: seq<Tick>)
    ensures Mark(rule, ticks).Some? <==>
            exists i :: 0 <= i < |ticks| && ticks[i].Fresh? &&
              if rule.side.Long? then rule.activation <= ticks[i].price else ticks[i].price <= rule.activation
  {
    if Mark(rule, ticks).Some? {
      var first, _ := MarkIsBest(rule, ticks);
      assert ticks[first].Fresh? && Reaches(rule, ticks[first].price);
    } else {
      NoneBefore(rule, ticks);
    }
  }

  /** The room a stop leaves behind a price. */
  function Room(d: Distance, water: real): (room: real) {
    match d
    case Percent(pct) => water * pct
    case Absolute(amount) => amount
  }

  /** In a dry run the stop of a long position is the greater of the initial one and the mark less the
      distance, that of a short one the lesser of the initial one and the mark plus the distance. */
  lemma StopTrailsMark(rule: Rule, initial: real, ticks: seq<Tick>)
    requires initial > 0.0 && Positive(rule.distance) && DryRun(ticks) && Mark(rule, ticks).Some?
    ensures var stop, mark := Run(rule, Trail(Unset, false, None, initial), ticks).stop, Mark(rule, ticks).value;
            var level := if rule.side.Long? then mark - Room(rule.distance, mark) else mark + Room(rule.distance, mark);
            && (stop == initial || stop == level)
            && (if rule.side.Long? then initial <= stop && level <= stop else stop <= initial && stop <= level)
  {
    TrailingClosedForm(rule, initial, ticks);
    LevelIs(rule, Mark(rule, ticks).value);
    hide Candidate, Room, Positive, Mark, Run, DryRun;
  }

  lemma LevelIs(rule: Rule, mark: real)
    ensures Candidate(rule, mark) == if rule.side.Long? then mark - Room(rule.distance, mark) else mark + Room(rule.distance, mark)
  {
    if rule.distance.Percent? {
      Distributes(mark, rule.distance.pct);
    }
  }

  lemma Distributes(a: real, k: real)
    ensures a * (1.0 - k) == a - a * k && a * (1.0 + k) == a + a * k
  {
  }

  lemma {:induction false} NoneBefore(rule: Rule, ticks: seq<Tick>)
    requires Mark(rule, ticks).None?
    ensures forall i :: 0 <= i < |ticks| ==> ticks[i].Fresh? ==> !Reaches(rule, ticks[i].price)
  {
    if ticks != [] {
      NoneBefore(rule, ticks[..|ticks| - 1]);
    }
  }

  // ---------------------------------------------------------------- live mode, failing amendments

  ghost predicate Consistent(t: Trail) {
    (t.water.Some? <==> t.activated) && (t.status.Active? ==> t.activated)
  }

  /** Nothing the rule has secured is ever given back. */
  ghost predicate Holds(side: Side, before: Trail, after: Trail) {
    && AtLeast(side, after.stop, before.stop)
    && (before.activated ==> && after.activated && after.water.Some? && before.water.Some?
                             && AtLeast(side, after.water.value, before.water.value))
  }

  /** Every stop the rule writes is strictly tighter than the one before and strictly on the losing
      side of the price it was computed at. */
  lemma AdvanceIsSafe(rule: Rule, t: Trail, tick: Tick)
    requires Consistent(t)
    ensures var r := Advance(rule, t, tick);
            && Consistent(r) && Holds(rule.side, t, r)
            && (r.stop != t.stop ==> tick.Fresh? && Beyond(rule.side, r.stop, t.stop)
                                     && Beyond(rule.side, tick.price, r.stop))
            && (tick.Stale? ==> r.activated == t.activated && r.water == t.water && r.stop == t.stop)
  {
  }

  /** The stop moves exactly on an observation that tightens it and whose amendment was not refused, and
      then to the candidate; on such an observation the rule state is written only once the amendment
      was applied. */
  lemma AmendmentDecides(rule: Rule, t: Trail, tick: Tick)
    ensures var r := Advance(rule, t, tick);
            && (r.stop != t.stop <==> tick.Fresh? && Tightens(rule, t, tick.price) && !tick.amend.Refused?)
            && (r.stop != t.stop ==> r.stop == Candidate(rule, WaterAt(rule, t, tick.price)))
            && (tick.Fresh? && Tightens(rule, t, tick.price) ==>
                  if tick.amend.Applied?
                  then r.status.Active? && r.activated && r.water == Some(WaterAt(rule, t, tick.price))
                  else r.status == t.status && r.activated == t.activated && r.water == t.water)
  {
  }

  /** So every stop of every run is the initial one or the candidate of some observation whose amendment
      was not refused. */
  lemma {:induction false} StopWasAmended(rule: Rule, t: Trail, ticks: seq<Tick>)
    ensures || Run(rule, t, ticks).stop == t.stop
            || exists i :: 0 <= i < |ticks| && ticks[i].Fresh? && !ticks[i].amend.Refused? &&
                 Run(rule, t, ticks).stop == Candidate(rule, WaterAt(rule, Run(rule, t, ticks[..i]), ticks[i].price))
  {
    if ticks != [] {
      var n := |ticks| - 1;
      var rest := ticks[..n];
      StopWasAmended(rule, t, rest);
      AmendmentDecides(rule, Run(rule, t, rest), ticks[n]);
      hide Advance, Candidate, WaterAt;
      if Run(rule, t, ticks).stop == Run(rule, t, rest).stop && Run(rule, t, rest).stop != t.stop {
        var i :| 0 <= i < |rest| && rest[i].Fresh? && !rest[i].amend.Refused? &&
          Run(rule, t, rest).stop == Candidate(rule, WaterAt(rule, Run(rule, t, rest[..i]), rest[i].price));
        assert rest[..i] == ticks[..i] && rest[i] == ticks[i];
      }
    }
  }

  /** The water mark, too, only ever takes the price of some observation. */
  lemma {:induction false} WaterWasObserved(rule: Rule, t: Trail, ticks: seq<Tick>)
    requires t.water.None?
    ensures Run(rule, t, ticks).water.Some? ==>
              exists i :: 0 <= i < |ticks| && ticks[i].Fresh? && ticks[i].price == Run(rule, t, ticks).water.value
  {
    if ticks != [] {
      var n := |ticks| - 1;
      WaterWasObserved(rule, t, ticks[..n]);
      hide Candidate, Beyond;
      var before, after := Run(rule, t, ticks[..n]).water, Run(rule, t, ticks).water;
      if after.Some? && !(ticks[n].Fresh? && ticks[n].price == after.value) {
        assert after == before;
        var i :| 0 <= i < n && ticks[..n][i].Fresh? && ticks[..n][i].price == before.value;
        assert ticks[i].Fresh? && ticks[i].price == after.value;
      }
    }
  }

  /** Over any run, with amendments failing and crashes between the two writes. */
  lemma {:induction false} LiveRunIsSafe(rule: Rule, t: Trail, ticks: seq<Tick>, cut: nat)
    requires Consistent(t) && cut <= |ticks|
    ensures Consistent(Run(rule, t, ticks))
    ensures Holds(rule.side, Run(rule, t, ticks[..cut]), Run(rule, t, ticks))
    decreases |ticks|
  {
    if cut == |ticks| {
      assert ticks[..cut] == ticks;
      LiveRunIsConsistent(rule, t, ticks);
    } else {
      var rest := ticks[..|ticks| - 1];
      LiveRunIsSafe(rule, t, rest, cut);
      assert rest[..cut] == ticks[..cut];
      AdvanceIsSafe(rule, Run(rule, t, rest), ticks[|ticks| - 1]);
    }
  }

  lemma {:induction false} LiveRunIsConsistent(rule: Rule, t: Trail, ticks: seq<Tick>)
    requires Consistent(t)
    ensures Consistent(Run(rule, t, ticks))
  {
    if ticks != [] {
      LiveRunIsConsistent(rule, t, ticks[..|ticks| - 1]);
      AdvanceIsSafe(rule, Run(rule, t, ticks[..|ticks| - 1]), ticks[|ticks| - 1]);
    }
  }

  /** A price that reaches activation latches the rule exactly when it is not crossed by its own
      candidate and no needed amendment fails: a refused or interrupted one leaves the rule unactivated. */
  lemma ActivationLatchesIff(rule: Rule, t: Trail, price: real, amend: Amend)
    requires Consistent(t) && !t.activated && Reaches(rule, price)
    ensures var candidate := Candidate(rule, price);
            Advance(rule, t, Fresh(price, amend)).activated <==>
            Beyond(rule.side, price, candidate) && (Beyond(rule.side, candidate, t.stop) ==> amend.Applied?)
  {
  }
}
