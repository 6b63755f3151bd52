/**
 Greedy clustering of pivots into support and resistance levels.  Every pivot searches all
 clusters against their current means; because pivots come sorted, only the newest cluster
 of the same kind can ever take it.
 */
module Clusters {
  import opened Pivots

  datatype Touch = Touch(kind: Kind, price: real, volumeRatio: real, wickRatio: real, age: real)

  datatype Direction = Bullish | Bearish | Unknown

  type Cluster = seq<Touch>

  // ---------------------------------------------------------------- the sort key

  /** Order by kind ("resistance" before "support"), then by price. */
  predicate Leq(a: Touch, b: Touch) {
    if a.kind == b.kind then a.price <= b.price else a.kind.Resistance?
  }

  predicate SortedTouches(s: seq<Touch>) {
    forall i, j :: 0 <= i < j < |s| ==> Leq(s[i], s[j])
  }

  ghost predicate Below(s: seq<Touch>, p: Touch) {
    forall x :: x in s ==> Leq(x, p)
  }

  function Insert(s: seq<Touch>, x: Touch): (r: seq<Touch>)
    ensures multiset(r) == multiset(s) + multiset{x}
  {
    if s == [] || Leq(s[|s| - 1], x) then s + [x]
    else
      assert s == s[..|s| - 1] + [s[|s| - 1]];
      Insert(s[..|s| - 1], x) + [s[|s| - 1]]
  }

  /** A stable insertion sort by the key. */
  function Sorted(s: seq<Touch>): (r: seq<Touch>)
    ensures multiset(r) == multiset(s)
  {
    if s == [] then []
    else
      assert s == s[..|s| - 1] + [s[|s| - 1]];
      Insert(Sorted(s[..|s| - 1]), s[|s| - 1])
  }

  lemma SortedSplit(s: seq<Touch>, p: Touch)
    ensures SortedTouches(s + [p]) <==> SortedTouches(s) && Below(s, p)
  {
    var r := s + [p];
    if SortedTouches(r) {
      forall i, j | 0 <= i < j < |s| ensures Leq(s[i], s[j]) {
        assert Leq(r[i], r[j]);
      }
      forall x | x in s ensures Leq(x, p) {
        var i :| 0 <= i < |s| && s[i] == x;
        assert Leq(r[i], r[|s|]);
      }
    }
  }

  lemma {:induction false} InsertSorts(s: seq<Touch>, x: Touch)
    requires SortedTouches(s)
    ensures SortedTouches(Insert(s, x))
    ensures forall y :: y in Insert(s, x) ==> y in s || y == x
  {
    hide SortedTouches;
    if s == [] {
      SortedSplit([], x);
    } else {
      var rest, last := s[..|s| - 1], s[|s| - 1];
      assert s == rest + [last];
      SortedSplit(rest, last);
      if Leq(last, x) {
        SortedSplit(s, x);
      } else {
        InsertSorts(rest, x);
        SortedSplit(Insert(rest, x), last);
      }
    }
  }

  lemma {:induction false} SortedSorts(s: seq<Touch>)
    ensures SortedTouches(Sorted(s))
  {
    if s != [] {
      SortedSorts(s[..|s| - 1]);
      InsertSorts(Sorted(s[..|s| - 1]), s[|s| - 1]);
    }
  }

  // ---------------------------------------------------------------- means

  function Sum(c: Cluster): (t: real) {
    if c == [] then 0.0 else Sum(c[..|c| - 1]) + c[|c| - 1].price
  }

  function Mean(c: Cluster): (m: real)
    requires c != []
  {
    Sum(c) / |c| as real
  }

  /** A new touch moves the mean by its share. */
  lemma MeanJoins(c: Cluster, p: Touch)
    requires c != []
    ensures Mean([p]) == p.price
    ensures Mean(c + [p]) * (|c| + 1) as real == Mean(c) * |c| as real + p.price
  {
    assert (c + [p])[..|c|] == c;
    assert Sum([p]) == p.price;
    MeanTimes(c);
    MeanTimes(c + [p]);
  }

  lemma MeanTimes(c: Cluster)
    requires c != []
    ensures Mean(c) * |c| as real == Sum(c)
  {
    Undivided(Sum(c), |c| as real);
  }

  lemma Undivided(t: real, n: real)
    requires n != 0.0
    ensures (t / n) * n == t
  {
  }

  lemma {:induction false} SumBounds(c: Cluster, lo: real, hi: real)
    requires forall i :: 0 <= i < |c| ==> lo <= c[i].price <= hi
    ensures lo * |c| as real <= Sum(c) <= hi * |c| as real
  {
    if c != [] {
      var n := (|c| - 1) as real;
      SumBounds(c[..|c| - 1], lo, hi);
      assert |c| as real == n + 1.0;
      assert lo * (n + 1.0) == lo * n + lo && hi * (n + 1.0) == hi * n + hi;
    }
  }

  lemma QuotientBetween(t: real, n: real, lo: real, hi: real)
    requires n > 0.0 && lo * n <= t <= hi * n
    ensures lo <= t / n <= hi
  {
  }

  /** A cluster's mean lies between its least and its greatest price. */
  lemma MeanBetween(c: Cluster, lo: real, hi: real)
    requires c != [] && forall i :: 0 <= i < |c| ==> lo <= c[i].price <= hi
    ensures lo <= Mean(c) <= hi
  {
    SumBounds(c, lo, hi);
    QuotientBetween(Sum(c), |c| as real, lo, hi);
  }

  // ---------------------------------------------------------------- the greedy search

  function Abs(x: real): real { if x < 0.0 then -x else x }

  predicate Matches(c: Cluster, p: Touch, distance: real) {
    c != [] && c[0].kind == p.kind && Abs(Mean(c) - p.price) <= distance
  }

  /** The first cluster that takes the pivot, |clusters| when none does. */
  function FirstMatch(clusters: seq<Cluster>, p: Touch, distance: real): (j: nat)
    ensures j <= |clusters|
    ensures j < |clusters| ==> Matches(clusters[j], p, distance)
    ensures forall k :: 0 <= k < j ==> !Matches(clusters[k], p, distance)
  {
    if clusters == [] then 0
    else if Matches(clusters[0], p, distance) then 0
    else
      assert forall k :: 1 <= k < |clusters| ==> clusters[k] == clusters[1..][k - 1];
      1 + FirstMatch(clusters[1..], p, distance)
  }

  function Place(clusters: seq<Cluster>, p: Touch, distance: real): (r: seq<Cluster>) {
    var j := FirstMatch(clusters, p, distance);
    if j == |clusters| then clusters + [[p]] else clusters[j := clusters[j] + [p]]
  }

  function Greedy(s: seq<Touch>, distance: real): (r: seq<Cluster>) {
    if s == [] then [] else Place(Greedy(s[..|s| - 1], distance), s[|s| - 1], distance)
  }

  /** The clustering loops: for each sorted pivot, search every cluster in order. */
  method GroupPivots(pivots: seq<Touch>, distance: real) returns (clusters: seq<Cluster>)
    ensures clusters == Greedy(Sorted(pivots), distance)
  {
    var s := Sorted(pivots);
    clusters := [];
    for i := 0 to |s|
      invariant clusters == Greedy(s[..i], distance)
    {
      var j := 0;
      while j < |clusters| && !Matches(clusters[j], s[i], distance)
        invariant 0 <= j <= |clusters|
        invariant forall k :: 0 <= k < j ==> !Matches(clusters[k], s[i], distance)
      {
        j := j + 1;
      }
      assert s[..i + 1][..i] == s[..i];
      if j == |clusters| {
        clusters := clusters + [[s[i]]];
      } else {
        clusters := clusters[j := clusters[j] + [s[i]]];
      }
    }
    assert s[..|s|] == s;
  }

  // ---------------------------------------------------------------- the hidden structure

  function Flatten(clusters: seq<Cluster>): (r: seq<Touch>) {
    if clusters == [] then [] else Flatten(clusters[..|clusters| - 1]) + clusters[|clusters| - 1]
  }

  /** Look only at the newest cluster. */
  function PlaceLast(clusters: seq<Cluster>, p: Touch, distance: real): (r: seq<Cluster>) {
    var last := |clusters| - 1;
    if clusters == [] || !Matches(clusters[last], p, distance) then clusters + [[p]]
    else clusters[..last] + [clusters[last] + [p]]
  }

  function ClusterRuns(s: seq<Touch>, distance: real): (r: seq<Cluster>) {
    if s == [] then [] else PlaceLast(ClusterRuns(s[..|s| - 1], distance), s[|s| - 1], distance)
  }

  /** One kind per cluster, first price least. */
  ghost predicate Uniform(c: Cluster) {
    && c != []
    && forall i :: 0 <= i < |c| ==> c[i].kind == c[0].kind && c[0].price <= c[i].price
  }

  /** A later cluster of the same kind starts more than `distance` above an earlier one's mean. */
  ghost predicate Apart(clusters: seq<Cluster>, distance: real) {
    forall j, k :: 0 <= j < k < |clusters| && clusters[j] != [] && clusters[k] != []
                   && clusters[j][0].kind == clusters[k][0].kind ==>
                     Mean(clusters[j]) + distance < clusters[k][0].price
  }

  ghost predicate Grouped(clusters: seq<Cluster>, distance: real, s: seq<Touch>) {
    && Flatten(clusters) == s
    && (forall j :: 0 <= j < |clusters| ==> Uniform(clusters[j]))
    && Apart(clusters, distance)
    && (forall j, i :: 0 <= j < |clusters| && 0 <= i < |clusters[j]| ==> clusters[j][i] in s)
    && (s == [] <==> clusters == [])
    && (s != [] ==> && clusters[|clusters| - 1] != []
                    && clusters[|clusters| - 1][|clusters[|clusters| - 1]| - 1] == s[|s| - 1])
    && (forall j :: 0 <= j < |clusters| ==> Leq(clusters[j][0], clusters[|clusters| - 1][0]))
  }

  /** A pivot that is not below anything clustered so far can only join the newest cluster. */
  lemma OnlyNewestMatches(clusters: seq<Cluster>, distance: real, s: seq<Touch>, p: Touch)
    requires Grouped(clusters, distance, s) && Below(s, p)
    ensures forall j :: 0 <= j < |clusters| - 1 ==> !Matches(clusters[j], p, distance)
    ensures FirstMatch(clusters, p, distance) >= |clusters| - 1
    ensures Place(clusters, p, distance) == PlaceLast(clusters, p, distance)
  {
  }

  lemma JoinKeepsGrouped(clusters: seq<Cluster>, distance: real, s: seq<Touch>, p: Touch)
    requires Grouped(clusters, distance, s) && clusters != []
    requires clusters[|clusters| - 1][0].kind == p.kind && clusters[|clusters| - 1][0].price <= p.price
    ensures Grouped(clusters[..|clusters| - 1] + [clusters[|clusters| - 1] + [p]], distance, s + [p])
  {
  }

  lemma AppendKeepsGrouped(clusters: seq<Cluster>, distance: real, s: seq<Touch>, p: Touch)
    requires Grouped(clusters, distance, s) && Below(s, p)
    requires Leq(p, p)
    requires forall j :: 0 <= j < |clusters| && clusters[j][0].kind == p.kind ==>
               Mean(clusters[j]) + distance < p.price
    ensures Grouped(clusters + [[p]], distance, s + [p])
  {
  }

  lemma PlaceKeepsGrouped(clusters: seq<Cluster>, distance: real, s: seq<Touch>, p: Touch)
    requires Grouped(clusters, distance, s) && Below(s, p)
    ensures Grouped(PlaceLast(clusters, p, distance), distance, s + [p])
  {
    var last := |clusters| - 1;
    if clusters != [] && Matches(clusters[last], p, distance) {
      assert clusters[last][0] in s;
      JoinKeepsGrouped(clusters, distance, s, p);
    } else {
      forall j | 0 <= j < |clusters| && clusters[j][0].kind == p.kind
        ensures Mean(clusters[j]) + distance < p.price
      {
        NewestIsBelow(clusters, distance, s, p, j);
      }
      AppendKeepsGrouped(clusters, distance, s, p);
    }
  }

  lemma NewestIsBelow(clusters: seq<Cluster>, distance: real, s: seq<Touch>, p: Touch, j: nat)
    requires Grouped(clusters, distance, s) && Below(s, p)
    requires j < |clusters| && clusters[j][0].kind == p.kind && !Matches(clusters[|clusters| - 1], p, distance)
    ensures Mean(clusters[j]) + distance < p.price
  {
    var last := |clusters| - 1;
    if j < last {
      assert Leq(clusters[j][0], clusters[last][0]) && clusters[last][0] in s;
      assert clusters[last][0].kind == p.kind;
    } else {
      var c := clusters[last];
      forall i | 0 <= i < |c| ensures c[0].price <= c[i].price <= p.price {
        assert c[i] in s;
      }
      MeanBetween(c, c[0].price, p.price);
    }
  }

  lemma GreedyStep(clusters: seq<Cluster>, distance: real, s: seq<Touch>, p: Touch)
    requires Grouped(clusters, distance, s) && Below(s, p)
    ensures Place(clusters, p, distance) == PlaceLast(clusters, p, distance)
    ensures Grouped(Place(clusters, p, distance), distance, s + [p])
  {
    OnlyNewestMatches(clusters, distance, s, p);
    PlaceKeepsGrouped(clusters, distance, s, p);
  }

  /** Greedy search over all clusters equals comparing with the newest one only, and its clusters
      are consecutive runs of the sorted pivots, one kind each, kept apart by the distance. */
  lemma {:induction false} GreedyIsRuns(s: seq<Touch>, distance: real)
    requires SortedTouches(s)
    ensures Greedy(s, distance) == ClusterRuns(s, distance)
    ensures Grouped(Greedy(s, distance), distance, s)
  {
    if s != [] {
      hide Grouped, Place, PlaceLast, Below, SortedTouches;
      var rest, p := s[..|s| - 1], s[|s| - 1];
      assert s == rest + [p];
      SortedSplit(rest, p);
      GreedyIsRuns(rest, distance);
      GreedyStep(Greedy(rest, distance), distance, rest, p);
    }
  }

  /** Every touch joined its level within the distance of the mean of those before it. */
  ghost predicate Close(clusters: seq<Cluster>, distance: real) {
    forall j, i :: 0 <= j < |clusters| && 0 < i < |clusters[j]| ==>
      Mean(clusters[j][..i]) - distance <= clusters[j][i].price <= Mean(clusters[j][..i]) + distance
  }

  lemma PlaceKeepsClose(clusters: seq<Cluster>, p: Touch, distance: real)
    requires Close(clusters, distance)
    ensures Close(Place(clusters, p, distance), distance)
  {
    var j, r := FirstMatch(clusters, p, distance), Place(clusters, p, distance);
    forall k, i | 0 <= k < |r| && 0 < i < |r[k]|
      ensures Mean(r[k][..i]) - distance <= r[k][i].price <= Mean(r[k][..i]) + distance
    {
      if k == j && j < |clusters| {
        assert r[k][..|clusters[j]|] == clusters[j];
        assert i < |clusters[j]| ==> r[k][..i] == clusters[j][..i] && r[k][i] == clusters[j][i];
      }
    }
  }

  /** With `LevelsApart` this is the grouping rule from both sides: within the distance of a level's mean a
      pivot joins it, beyond the distance it starts another. */
  lemma {:induction false} JoinsWithin(s: seq<Touch>, distance: real)
    ensures Close(Greedy(s, distance), distance)
  {
    if s != [] {
      JoinsWithin(s[..|s| - 1], distance);
      PlaceKeepsClose(Greedy(s[..|s| - 1], distance), s[|s| - 1], distance);
    }
  }

  function Touches(clusters: seq<Cluster>): (n: nat)
    ensures n == |Flatten(clusters)|
  {
    if clusters == [] then 0 else Touches(clusters[..|clusters| - 1]) + |clusters[|clusters| - 1]|
  }

  /** Two levels of the same kind lie more than the cluster distance apart. */
  lemma LevelsApart(pivots: seq<Touch>, distance: real, j: nat, k: nat)
    requires j < k < |Greedy(Sorted(pivots), distance)|
    requires var cs := Greedy(Sorted(pivots), distance);
             cs[j] != [] && cs[k] != [] && cs[j][0].kind == cs[k][0].kind
    ensures var cs := Greedy(Sorted(pivots), distance); Mean(cs[k]) - Mean(cs[j]) > distance
  {
    var s := Sorted(pivots);
    SortedSorts(pivots);
    GreedyIsRuns(s, distance);
    var c := Greedy(s, distance)[k];
    assert Uniform(c);
    var top := MaxPrice(c);
    MeanBetween(c, c[0].price, top);
  }

  ghost function MaxPrice(c: Cluster): (m: real)
    requires c != []
    ensures forall i :: 0 <= i < |c| ==> c[i].price <= m
  {
    if |c| == 1 then c[0].price else Max(MaxPrice(c[..|c| - 1]), c[|c| - 1].price)
  }

  /** Every pivot is a touch of exactly one level: the clusters together are the pivots, sorted. */
  lemma TouchesPartition(pivots: seq<Touch>, distance: real)
    ensures Touches(Greedy(Sorted(pivots), distance)) == |pivots|
    ensures multiset(Flatten(Greedy(Sorted(pivots), distance))) == multiset(pivots)
    ensures forall c :: c in Greedy(Sorted(pivots), distance) ==> Uniform(c)
  {
    SortedSorts(pivots);
    GreedyIsRuns(Sorted(pivots), distance);
    SameSize(Sorted(pivots), pivots);
  }

  lemma SameSize(a: seq<Touch>, b: seq<Touch>)
    requires multiset(a) == multiset(b)
    ensures |a| == |b|
  {
    assert |multiset(a)| == |a| && |multiset(b)| == |b|;
  }

  // ---------------------------------------------------------------- scores

  function Ratio(c: Cluster, volume: bool): (t: real) {
    if c == [] then 0.0
    else Ratio(c[..|c| - 1], volume) + if volume then c[|c| - 1].volumeRatio else c[|c| - 1].wickRatio
  }

  predicate Invalidated(c: Cluster, latest: real)
    requires c != []
  {
    if c[0].kind.Support? then latest < Mean(c) else latest > Mean(c)
  }

  function Volume(c: Cluster): (v: real)
    requires c != []
  {
    Ratio(c, true) / |c| as real
  }

  function Wick(c: Cluster): (v: real)
    requires c != []
  {
    Ratio(c, false) / |c| as real
  }

  function Regime(kind: Kind, btc: Direction): (adjustment: real) {
    match btc
    case Bullish => if kind.Support? then 0.05 else -0.05
    case Bearish => if kind.Resistance? then 0.05 else -0.05
    case Unknown => 0.0
  }

  function Score(c: Cluster, btc: Direction, latest: real): (score: real)
    requires c != []
    ensures 0.0 <= score <= 1.0
    ensures Invalidated(c, latest) ==> score <= 0.25
  {
    var raw := 0.2 + Min(|c| as real, 5.0) * 0.1 + Min(Volume(c), 3.0) * 0.1 + Wick(c) * 0.2;
    var score := Min(1.0, Max(0.0, raw + Regime(c[0].kind, btc)));
    if Invalidated(c, latest) then score * 0.25 else score
  }

  /** More touches, more volume or longer wicks never lower the score of a level. */
  lemma ScoreGrows(c: Cluster, d: Cluster, btc: Direction, latest: real)
    requires c != [] && d != [] && c[0].kind == d[0].kind && (Invalidated(c, latest) <==> Invalidated(d, latest))
    requires |c| <= |d| && Volume(c) <= Volume(d) && Wick(c) <= Wick(d)
    ensures Score(c, btc, latest) <= Score(d, btc, latest)
  {
    hide Volume, Wick, Invalidated;
  }

  /** How much each of them weighs while nothing is capped: a tenth a touch, a tenth the volume ratio, a
      fifth the wick ratio; and a level of one bare touch starts at 0.3. */
  lemma ScoreWeighs(c: Cluster, d: Cluster, latest: real)
    requires c != [] && d != [] && !Invalidated(c, latest) && !Invalidated(d, latest) && |c| <= 5 && |d| <= 5
    requires 0.0 <= Volume(c) <= 3.0 && 0.0 <= Volume(d) <= 3.0 && 0.0 <= Wick(c) && 0.0 <= Wick(d)
    requires Score(c, Unknown, latest) < 1.0 && Score(d, Unknown, latest) < 1.0
    ensures Score(d, Unknown, latest) - Score(c, Unknown, latest) ==
            0.1 * (|d| as real - |c| as real) + 0.1 * (Volume(d) - Volume(c)) + 0.2 * (Wick(d) - Wick(c))
    ensures |c| == 1 && Volume(c) == 0.0 && Wick(c) == 0.0 ==> Score(c, Unknown, latest) == 0.3
  {
    hide Volume, Wick, Invalidated;
  }

  /** The market's direction helps the levels on its side by a twentieth and costs the others as much. */
  lemma ScoreFollowsRegime(c: Cluster, latest: real)
    requires c != []
    ensures c[0].kind.Support? ==> Score(c, Bearish, latest) <= Score(c, Unknown, latest) <= Score(c, Bullish, latest)
    ensures c[0].kind.Resistance? ==> Score(c, Bullish, latest) <= Score(c, Unknown, latest) <= Score(c, Bearish, latest)
    ensures !Invalidated(c, latest) && 0.05 <= Score(c, Unknown, latest) <= 0.95 ==>
              forall btc :: Score(c, btc, latest) == Score(c, Unknown, latest) + Regime(c[0].kind, btc)
  {
    hide Volume, Wick, Invalidated;
  }

  /** A broken level keeps a quarter of the score it had while it held. */
  lemma BrokenIsQuartered(c: Cluster, btc: Direction, latest: real, earlier: real)
    requires c != [] && Invalidated(c, latest) && !Invalidated(c, earlier)
    ensures Score(c, btc, latest) == Score(c, btc, earlier) * 0.25
  {
  }

  // ---------------------------------------------------------------- levels

  /** What is reported of one cluster. */
  datatype Level = Level(kind: Kind, price: real, score: real, invalidated: bool, touches: nat, recency: real)

  ghost predicate Describes(l: Level, c: Cluster, btc: Direction, latest: real) {
    && c != [] && l.kind == c[0].kind && l.touches == |c|
    && l.price * |c| as real == Sum(c)
    && (l.invalidated <==> if l.kind.Support? then latest < l.price else latest > l.price)
    && l.score == Score(c, btc, latest)
    && (forall i :: 0 <= i < |c| ==> l.recency <= c[i].age)
    && (exists i :: 0 <= i < |c| && l.recency == c[i].age)
  }

  /** The sums over one cluster, and the age of its newest touch. */
  method DescribeLevel(c: Cluster, btc: Direction, latest: real) returns (l: Level)
    requires c != []
    ensures Describes(l, c, btc, latest)
  {
    var sum, recency := 0.0, c[0].age;
    for i := 0 to |c|
      invariant sum == Sum(c[..i])
      invariant forall k :: 0 <= k < i ==> recency <= c[k].age
      invariant exists k :: 0 <= k < |c| && recency == c[k].age
    {
      assert c[..i + 1][..i] == c[..i];
      sum := sum + c[i].price;
      if c[i].age < recency {
        recency := c[i].age;
      }
    }
    assert c[..|c|] == c;
    var price := sum / |c| as real;
    Undivided(sum, |c| as real);
    var invalidated := if c[0].kind.Support? then latest < price else latest > price;
    l := Level(c[0].kind, price, Score(c, btc, latest), invalidated, |c|, recency);
  }

  /** Group the pivots and describe each group. */
  method ClusterPivots(pivots: seq<Touch>, distance: real, btc: Direction, latest: real)
    returns (levels: seq<Level>, ghost clusters: seq<Cluster>)
    ensures clusters == Greedy(Sorted(pivots), distance) && |levels| == |clusters|
    ensures forall i :: 0 <= i < |levels| ==> Describes(levels[i], clusters[i], btc, latest)
    ensures forall i, j :: 0 <= i < j < |levels| && levels[i].kind == levels[j].kind ==> levels[j].price - levels[i].price > distance
    ensures forall l :: l in levels ==> 0.0 <= l.score <= 1.0 && l.touches > 0
  {
    var groups := GroupPivots(pivots, distance);
    clusters := groups;
    TouchesPartition(pivots, distance);
    hide Describes, Greedy, Sorted, Uniform;
    levels := [];
    for i := 0 to |groups|
      invariant |levels| == i
      invariant forall k :: 0 <= k < i ==> Describes(levels[k], groups[k], btc, latest)
    {
      IsUniform(groups[i], groups);
      var l := DescribeLevel(groups[i], btc, latest);
      levels := levels + [l];
    }
    forall i, j | 0 <= i < j < |levels| && levels[i].kind == levels[j].kind
      ensures levels[j].price - levels[i].price > distance
    {
      PriceIsMean(levels[i], groups[i], btc, latest);
      PriceIsMean(levels[j], groups[j], btc, latest);
      LevelsApart(pivots, distance, i, j);
    }
    forall l | l in levels ensures 0.0 <= l.score <= 1.0 && l.touches > 0 {
      var i :| 0 <= i < |levels| && levels[i] == l;
      PriceIsMean(l, groups[i], btc, latest);
    }
  }

  lemma IsUniform(c: Cluster, clusters: seq<Cluster>)
    requires c in clusters && forall d :: d in clusters ==> Uniform(d)
    ensures c != []
  {
  }

  lemma PriceIsMean(l: Level, c: Cluster, btc: Direction, latest: real)
    requires Describes(l, c, btc, latest)
    ensures c != [] && l.price == Mean(c) && l.kind == c[0].kind && 0.0 <= l.score <= 1.0 && l.touches > 0
  {
    MeanTimes(c);
    SameQuotient(l.price, Mean(c), |c| as real);
  }

  lemma SameQuotient(a: real, b: real, n: real)
    requires n > 0.0 && a * n == b * n
    ensures a == b
  {
    Undivided(a * n, n);
  }
}
