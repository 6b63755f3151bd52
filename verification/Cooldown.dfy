/** The escalating cooldown for repeated identical notifications. */
module Cooldown {
  /** As the tracker clamps its arguments. */
  datatype Config = Config(cooldown: real, escalateAfter: nat, maxSeconds: real) {
    predicate Valid() {
      0.0 <= cooldown <= maxSeconds && 1 <= escalateAfter
    }
  }

  function Clamped(cooldown: real, escalateAfter: int, maxSeconds: real): (c: Config)
    ensures c.Valid()
    ensures c.cooldown == (if cooldown >= 0.0 then cooldown else 0.0)
    ensures c.escalateAfter >= escalateAfter && (c.escalateAfter > 1 ==> c.escalateAfter == escalateAfter)
    ensures c.maxSeconds >= maxSeconds && (c.maxSeconds > c.cooldown ==> c.maxSeconds == maxSeconds)
  {
    var base := if cooldown < 0.0 then 0.0 else cooldown;
    Config(base, if escalateAfter < 1 then 1 else escalateAfter, if maxSeconds < base then base else maxSeconds)
  }

  /** x doubled n times. */
  function Doubled(x: real, n: nat): (r: real)
    ensures x >= 0.0 ==> r >= x
  {
    if n == 0 then x else 2.0 * Doubled(x, n - 1)
  }

  /** The gap required after `sends` deliveries of one fingerprint. */
  function Gap(c: Config, sends: nat): (g: real) {
    if sends < c.escalateAfter then c.cooldown
    else
      var grown := Doubled(c.cooldown, sends - c.escalateAfter + 1);
      if grown < c.maxSeconds then grown else c.maxSeconds
  }

  /** Send times, send counts and muted fingerprints. */
  datatype Book = Book(sentAt: map<string, real>, sentCount: map<string, nat>, muted: set<string>)

  function Count(b: Book, fp: string): (n: nat) {
    if fp in b.sentCount then b.sentCount[fp] else 0
  }

  predicate Ready(c: Config, b: Book, fp: string, now: real) {
    && fp !in b.muted
    && (fp in b.sentAt ==> now - b.sentAt[fp] >= Gap(c, if fp in b.sentCount then b.sentCount[fp] else 1))
  }

  function Sent(b: Book, fp: string, now: real): (r: Book) {
    b.(sentAt := b.sentAt[fp := now], sentCount := b.sentCount[fp := Count(b, fp) + 1])
  }

  class RepeatCooldownTracker {
    const config: Config
    var sentAt: map<string, real>
    var sentCount: map<string, nat>
    var muted: set<string>

    constructor (cooldown: real, escalateAfter: int, maxSeconds: real)
      ensures config == Clamped(cooldown, escalateAfter, maxSeconds)
      ensures State() == Book(map[], map[], {})
    {
      config := Clamped(cooldown, escalateAfter, maxSeconds);
      sentAt, sentCount, muted := map[], map[], {};
    }

    ghost function State(): (b: Book)
      reads this
    {
      Book(sentAt, sentCount, muted)
    }

    method IsReady(fingerprint: string, now: real) returns (ready: bool)
      ensures ready <==> Ready(config, State(), fingerprint, now)
      ensures ready <==>
                && fingerprint !in muted
                && (fingerprint in sentAt ==>
                      now - sentAt[fingerprint] >= Gap(config, if fingerprint in sentCount then sentCount[fingerprint] else 1))
    {
      if fingerprint in muted {
        return false;
      }
      if fingerprint !in sentAt {
        return true;
      }
      var prior := if fingerprint in sentCount then sentCount[fingerprint] else 1;
      return now - sentAt[fingerprint] >= Gap(config, prior);
    }

    method RecordSent(fingerprint: string, now: real)
      modifies this
      ensures State() == Sent(old(State()), fingerprint, now)
      ensures sentAt == old(sentAt)[fingerprint := now] && muted == old(muted)
      ensures sentCount == old(sentCount)[fingerprint := if fingerprint in old(sentCount) then old(sentCount)[fingerprint] + 1 else 1]
    {
      sentAt := sentAt[fingerprint := now];
      sentCount := sentCount[fingerprint := (if fingerprint in sentCount then sentCount[fingerprint] else 0) + 1];
    }

    method Mute(fingerprint: string)
      modifies this
      ensures State() == old(State()).(muted := old(State()).muted + {fingerprint})
    {
      muted := muted + {fingerprint};
    }
  }

  // ---------------------------------------------------------------- the gaps

  lemma {:induction false} DoublingGrows(x: real, a: nat, b: nat)
    requires x >= 0.0 && a <= b
    ensures Doubled(x, a) <= Doubled(x, b)
    decreases b - a
  {
    if a < b {
      DoublingGrows(x, a, b - 1);
    }
  }

  /** Gaps never shrink, and stay between the cooldown and the maximum. */
  lemma GapsEscalate(c: Config, a: nat, b: nat)
    requires c.Valid() && a <= b
    ensures c.cooldown <= Gap(c, a) <= Gap(c, b) <= c.maxSeconds
  {
    if c.escalateAfter <= a {
      DoublingGrows(c.cooldown, a - c.escalateAfter + 1, b - c.escalateAfter + 1);
    }
  }

  /** The plain cooldown before escalation; from then on each gap is twice the one before, up to the maximum. */
  lemma GapDoubles(c: Config, n: nat)
    requires c.Valid()
    ensures n < c.escalateAfter ==> Gap(c, n) == c.cooldown
    ensures n + 1 >= c.escalateAfter ==>
              Gap(c, n + 1) == if 2.0 * Gap(c, n) < c.maxSeconds then 2.0 * Gap(c, n) else c.maxSeconds
  {
    if c.escalateAfter <= n {
      var e := n - c.escalateAfter + 1;
      DoublingGrows(c.cooldown, 0, e);
      assert Doubled(c.cooldown, e + 1) == 2.0 * Doubled(c.cooldown, e);
    } else if n + 1 == c.escalateAfter {
      assert Doubled(c.cooldown, 1) == 2.0 * Doubled(c.cooldown, 0);
    }
  }

  /** n copies of x added up. */
  function Repeated(n: nat, x: real): (r: real) {
    if n == 0 then 0.0 else Repeated(n - 1, x) + x
  }

  lemma {:induction false} RepeatedIsProduct(n: nat, x: real)
    ensures Repeated(n, x) == n as real * x
  {
    if n > 0 {
      RepeatedIsProduct(n - 1, x);
      assert ((n - 1) as real + 1.0) * x == (n - 1) as real * x + x;
    }
  }

  lemma {:induction false} DoublingOutgrows(x: real, n: nat)
    requires x >= 0.0
    ensures Doubled(x, n) >= Repeated(n, x) + x
  {
    if n > 0 {
      DoublingOutgrows(x, n - 1);
    }
  }

  /** From this many sends on every gap is the maximum. */
  function Saturation(c: Config): (k: nat)
    requires c.Valid() && c.cooldown > 0.0
  {
    c.escalateAfter + (c.maxSeconds / c.cooldown).Floor
  }

  lemma NonNegative(a: real, b: real)
    requires a >= 0.0 && b >= 0.0
    ensures a * b >= 0.0
  {
  }

  lemma Reaches(x: real, limit: real, n: nat)
    requires x > 0.0 && limit >= 0.0 && n >= (limit / x).Floor
    ensures n as real * x + x >= limit
  {
    var ratio := limit / x;
    var surplus := n as real + 1.0 - ratio;
    assert ratio * x == limit;
    NonNegative(surplus, x);
    assert surplus * x == n as real * x + x - ratio * x;
  }

  lemma GapsSaturate(c: Config, sends: nat)
    requires c.Valid() && c.cooldown > 0.0 && sends >= Saturation(c)
    ensures Gap(c, sends) == c.maxSeconds
  {
    var e := sends - c.escalateAfter;
    Reaches(c.cooldown, c.maxSeconds, e);
    RepeatedIsProduct(e, c.cooldown);
    DoublingOutgrows(c.cooldown, e);
    DoublingGrows(c.cooldown, e, e + 1);
  }

  // ---------------------------------------------------------------- whole runs

  datatype Op = Attempt(fp: string, now: real, delivered: bool) | MuteOp(fp: string)

  /** A send is recorded only when it was ready and delivered. */
  predicate Delivers(c: Config, b: Book, op: Op) {
    op.Attempt? && op.delivered && Ready(c, b, op.fp, op.now)
  }

  function Apply(c: Config, b: Book, op: Op): (r: Book) {
    match op
    case Attempt(fp, now, _) => if Delivers(c, b, op) then Sent(b, fp, now) else b
    case MuteOp(fp) => b.(muted := b.muted + {fp})
  }

  function Run(c: Config, b: Book, ops: seq<Op>): (r: Book) {
    if ops == [] then b else Apply(c, Run(c, b, ops[..|ops| - 1]), ops[|ops| - 1])
  }

  /** The delivery times of one fingerprint over a run. */
  function Times(c: Config, b: Book, ops: seq<Op>, fp: string): (ts: seq<real>) {
    if ops == [] then []
    else
      var op := ops[|ops| - 1];
      var rest := Times(c, b, ops[..|ops| - 1], fp);
      if op.fp == fp && Delivers(c, Run(c, b, ops[..|ops| - 1]), op) then rest + [op.now] else rest
  }

  ghost predicate Spaced(c: Config, ts: seq<real>) {
    forall k :: 1 <= k < |ts| ==> ts[k] - ts[k - 1] >= Gap(c, k)
  }

  const EMPTY := Book(map[], map[], {})

  /** Each delivery keeps the gap its predecessors require. */
  lemma {:induction false} DeliveriesSpaced(c: Config, ops: seq<Op>, fp: string)
    ensures var ts, b := Times(c, EMPTY, ops, fp), Run(c, EMPTY, ops);
            && Spaced(c, ts)
            && Count(b, fp) == |ts|
            && (fp in b.sentAt <==> ts != []) && (fp in b.sentCount <==> ts != [])
            && (ts != [] ==> b.sentAt[fp] == ts[|ts| - 1])
  {
    if ops != [] {
      DeliveriesSpaced(c, ops[..|ops| - 1], fp);
      hide Gap;
    }
  }

  /** In any run an attempt goes through if and only if the fingerprint was never muted and, unless it was
      never delivered, the gap that its deliveries so far require has passed since the last of them. */
  lemma DeliversIff(c: Config, ops: seq<Op>, fp: string, now: real)
    ensures var ts := Times(c, EMPTY, ops, fp);
            Delivers(c, Run(c, EMPTY, ops), Attempt(fp, now, true)) <==>
            MuteOp(fp) !in ops && (ts == [] || now - ts[|ts| - 1] >= Gap(c, |ts|))
  {
    DeliveriesSpaced(c, ops, fp);
    MutedIff(c, ops, fp);
    hide Gap;
  }

  lemma {:induction false} MutedIff(c: Config, ops: seq<Op>, fp: string)
    ensures fp in Run(c, EMPTY, ops).muted <==> MuteOp(fp) in ops
  {
    if ops != [] {
      MutedIff(c, ops[..|ops| - 1], fp);
      assert ops == ops[..|ops| - 1] + [ops[|ops| - 1]];
      hide Gap;
    }
  }

  /** The sum of the first n gaps. */
  function GapSum(c: Config, n: nat): (t: real) {
    if n == 0 then 0.0 else GapSum(c, n - 1) + Gap(c, n)
  }

  lemma {:induction false} SpanAtLeastGaps(c: Config, ts: seq<real>)
    requires Spaced(c, ts) && ts != []
    ensures ts[|ts| - 1] - ts[0] >= GapSum(c, |ts| - 1)
  {
    if |ts| > 1 {
      SpanAtLeastGaps(c, ts[..|ts| - 1]);
    }
  }

  lemma {:induction false} GapSumSaturates(c: Config, n: nat, k: nat)
    requires c.Valid() && k <= n
    requires forall i :: k < i <= n ==> Gap(c, i) == c.maxSeconds
    ensures GapSum(c, n) >= Repeated(n - k, c.maxSeconds)
    decreases n
  {
    if n > 0 {
      GapsEscalate(c, n, n);
      GapSumSaturates(c, n - 1, if k == n then n - 1 else k);
    }
  }

  lemma SpacedRate(c: Config, ts: seq<real>)
    requires c.Valid() && Spaced(c, ts) && ts != []
    ensures ts[|ts| - 1] - ts[0] >= GapSum(c, |ts| - 1)
    ensures c.cooldown > 0.0 && |ts| - 1 >= Saturation(c) ==>
              (|ts| - 1 - Saturation(c)) as real * c.maxSeconds <= ts[|ts| - 1] - ts[0]
  {
    SpanAtLeastGaps(c, ts);
    hide Gap, Spaced;
    var n := |ts| - 1;
    if c.cooldown > 0.0 && n >= Saturation(c) {
      var k := Saturation(c);
      hide Saturation;
      forall i | k < i <= n ensures Gap(c, i) == c.maxSeconds {
        GapsSaturate(c, i);
      }
      GapSumSaturates(c, n, k);
      RepeatedIsProduct(n - k, c.maxSeconds);
    }
  }

  /** n deliveries of one fingerprint take at least the first n-1 gaps, so beyond a constant number
      they come no faster than one per `maxSeconds`. */
  lemma DeliveryRate(c: Config, ops: seq<Op>, fp: string)
    requires c.Valid() && Times(c, EMPTY, ops, fp) != []
    ensures var ts := Times(c, EMPTY, ops, fp);
            var span := ts[|ts| - 1] - ts[0];
            && span >= GapSum(c, |ts| - 1)
            && (c.cooldown > 0.0 && |ts| - 1 >= Saturation(c) ==>
                  (|ts| - 1 - Saturation(c)) as real * c.maxSeconds <= span)
  {
    hide *;
    DeliveriesSpaced(c, ops, fp);
    SpacedRate(c, Times(c, EMPTY, ops, fp));
  }

  lemma ZeroGap(c: Config, sends: nat)
    requires c.Valid() && c.cooldown == 0.0
    ensures Gap(c, sends) == 0.0
  {
    if c.escalateAfter <= sends {
      ZeroDoubles(sends - c.escalateAfter + 1);
    }
  }

  lemma {:induction false} ZeroDoubles(n: nat)
    ensures Doubled(0.0, n) == 0.0
  {
    if n > 0 {
      ZeroDoubles(n - 1);
    }
  }

  /** A positive cooldown is needed for that: with a zero cooldown any number of deliveries fits
      into one instant. */
  lemma {:induction false} ZeroCooldownUnbounded(c: Config, fp: string, now: real, n: nat)
    requires c.Valid() && c.cooldown == 0.0
    ensures var ops := seq(n, i => Attempt(fp, now, true));
            && |Times(c, EMPTY, ops, fp)| == n
            && Run(c, EMPTY, ops).muted == {}
            && (n > 0 ==> fp in Run(c, EMPTY, ops).sentAt && Run(c, EMPTY, ops).sentAt[fp] == now)
  {
    var ops := seq(n, i => Attempt(fp, now, true));
    if n > 0 {
      ZeroCooldownUnbounded(c, fp, now, n - 1);
      assert ops[..n - 1] == seq(n - 1, i => Attempt(fp, now, true));
      ZeroGap(c, Count(Run(c, EMPTY, ops[..n - 1]), fp));
    }
  }

  /** A muted fingerprint is never delivered again. */
  lemma {:induction false} MutedIsSilent(c: Config, b: Book, ops: seq<Op>, fp: string)
    requires fp in b.muted
    ensures Times(c, b, ops, fp) == [] && fp in Run(c, b, ops).muted
    ensures forall now :: !Ready(c, Run(c, b, ops), fp, now)
  {
    if ops != [] {
      MutedIsSilent(c, b, ops[..|ops| - 1], fp);
    }
  }
}
