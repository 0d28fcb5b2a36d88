/** The community subsystem: the ring of influence, cascades over it, and what they leave behind. */
module Community {
  import opened Seqs
  import opened Cascade
  import opened Trends
  import opened CommunityRules
  import Ring

  /** A consumer as the community sees it. */
  class Shopper {
    const id: int
    var trend: Trend

    constructor (id: int)
      ensures this.id == id && trend == map[]
    {
      this.id, trend := id, map[];
    }
  }

  type Shoppers = map<int, Shopper>

  predicate Proper(consumers: Shoppers) {
    forall i :: i in consumers ==> consumers[i].id == i
  }

  // -------------------------------------------------------------- seeds

  /** Python's `queue[:limit]`. */
  function Upto(queue: seq<Share>, limit: int): seq<Share> {
    if limit >= |queue| then queue
    else if limit >= 0 then queue[..limit]
    else if |queue| + limit >= 0 then queue[..|queue| + limit]
    else []
  }

  lemma UptoTakes(queue: seq<Share>, limit: int)
    ensures limit >= |queue| ==> Upto(queue, limit) == queue
    ensures 0 <= limit < |queue| ==> Upto(queue, limit) == queue[..limit]
    ensures -|queue| <= limit < 0 ==> Upto(queue, limit) == queue[..|queue| + limit]
    ensures limit < -|queue| ==> Upto(queue, limit) == []
  {
  }

  /** The consumers that shared something of a category. */
  function SeedsOf(shares: seq<Share>, topic: string): set<int> {
    set x | x in shares && x.category == topic :: x.consumer
  }

  lemma SeedsSnoc(shares: seq<Share>, x: Share, topic: string)
    ensures SeedsOf(shares + [x], topic) == SeedsOf(shares, topic) + if x.category == topic then {x.consumer} else {}
  {
  }

  lemma SeedsShared(shares: seq<Share>, topic: string)
    ensures forall c :: c in SeedsOf(shares, topic) <==> Shared(shares, topic, c)
  {
  }

  /** A category first appears at position n, after the categories in `before`. */
  ghost predicate FirstAt(shares: seq<Share>, n: nat, topic: string, before: seq<string>) {
    && n < |shares| && shares[n].category == topic && topic !in before
    && forall m :: 0 <= m < n ==> shares[m].category in before
  }

  ghost predicate Appears(shares: seq<Share>, topics: seq<string>, k: nat)
    requires k < |topics|
  {
    exists n: nat :: FirstAt(shares, n, topics[k], topics[..k])
  }

  /** The categories stand in the order of their first appearance. */
  ghost predicate InOrder(shares: seq<Share>, topics: seq<string>) {
    forall k :: 0 <= k < |topics| ==> Appears(shares, topics, k)
  }

  lemma InOrderNext(shares: seq<Share>, topics: seq<string>, n: nat)
    requires n < |shares| && InOrder(shares, topics) && FirstAt(shares, n, shares[n].category, topics)
    ensures InOrder(shares, topics + [shares[n].category])
  {
    var all := topics + [shares[n].category];
    hide FirstAt;
    forall k | 0 <= k < |all| ensures Appears(shares, all, k) {
      if k < |topics| {
        assert all[..k] == topics[..k];
        assert Appears(shares, topics, k);
        var m: nat :| FirstAt(shares, m, topics[k], topics[..k]);
        assert FirstAt(shares, m, all[k], all[..k]);
      } else {
        assert all[..k] == topics;
        assert FirstAt(shares, n, all[k], all[..k]);
      }
    }
  }

  /** The first n shares have been grouped. */
  ghost predicate Grouped(shares: seq<Share>, n: nat, topics: seq<string>, seeds: map<string, set<int>>)
    requires n <= |shares|
  {
    && Distinct(topics) && (forall t :: t in topics <==> exists x :: x in shares[..n] && x.category == t)
    && seeds.Keys == (set t | t in topics) && (forall t :: t in topics ==> seeds[t] == SeedsOf(shares[..n], t))
    && InOrder(shares, topics)
  }

  lemma GroupNew(shares: seq<Share>, n: nat, topics: seq<string>, seeds: map<string, set<int>>)
    requires n < |shares| && Grouped(shares, n, topics, seeds) && shares[n].category !in seeds
    ensures var c := shares[n].category; Grouped(shares, n + 1, topics + [c], seeds[c := {shares[n].consumer}])
  {
    hide InOrder;
    var x := shares[n];
    assert shares[..n + 1] == shares[..n] + [x];
    assert SeedsOf(shares[..n], x.category) == {};
    forall t ensures SeedsOf(shares[..n + 1], t) == SeedsOf(shares[..n], t) + if x.category == t then {x.consumer} else {} {
      SeedsSnoc(shares[..n], x, t);
    }
    forall m | 0 <= m < n ensures shares[m].category in topics {
      assert shares[m] in shares[..n];
    }
    InOrderNext(shares, topics, n);
  }

  lemma GroupKnown(shares: seq<Share>, n: nat, topics: seq<string>, seeds: map<string, set<int>>)
    requires n < |shares| && Grouped(shares, n, topics, seeds) && shares[n].category in seeds
    ensures var c := shares[n].category; Grouped(shares, n + 1, topics, seeds[c := seeds[c] + {shares[n].consumer}])
  {
    hide InOrder;
    var x := shares[n];
    assert shares[..n + 1] == shares[..n] + [x];
    forall t ensures SeedsOf(shares[..n + 1], t) == SeedsOf(shares[..n], t) + if x.category == t then {x.consumer} else {} {
      SeedsSnoc(shares[..n], x, t);
    }
  }

  /** The categories shared, in the order of their first appearance. */
  method Group(shares: seq<Share>) returns (topics: seq<string>, seeds: map<string, set<int>>)
    ensures Distinct(topics) && (forall t :: t in topics <==> exists x :: x in shares && x.category == t)
    ensures InOrder(shares, topics)
    ensures seeds.Keys == (set t | t in topics) && forall t :: t in topics ==> seeds[t] == SeedsOf(shares, t)
  {
    topics, seeds := [], map[];
    for i := 0 to |shares|
      invariant Grouped(shares, i, topics, seeds)
    {
      hide Grouped;
      var x := shares[i];
      if x.category !in seeds {
        GroupNew(shares, i, topics, seeds);
        assert {} + {x.consumer} == {x.consumer};
        assert seeds[x.category := {}][x.category := {x.consumer}] == seeds[x.category := {x.consumer}];
        topics, seeds := topics + [x.category], seeds[x.category := {}];
      } else {
        GroupKnown(shares, i, topics, seeds);
      }
      seeds := seeds[x.category := seeds[x.category] + {x.consumer}];
    }
    assert shares[..|shares|] == shares;
  }

  // -------------------------------------------------------------- arcs that fired

  /** In how many of the forests an arc fired. */
  function Firings(forests: seq<seq<Arc>>, a: Arc): nat {
    if forests == [] then 0
    else Firings(forests[..|forests| - 1], a) + if a in forests[|forests| - 1] then 1 else 0
  }

  lemma {:induction false} FiringsCount(forests: seq<seq<Arc>>, a: Arc)
    ensures Firings(forests, a) == Count(forests, a)
  {
    if forests != [] {
      var most, last := forests[..|forests| - 1], forests[|forests| - 1];
      FiringsCount(most, a);
      CountNext(most, last, a);
      assert forests == most + [last];
    }
  }

  lemma {:induction false} TimesAppend(xs: seq<Arc>, ys: seq<Arc>, a: Arc)
    ensures Times(xs + ys, a) == Times(xs, a) + Times(ys, a)
  {
    if ys == [] {
      assert xs + ys == xs;
    } else {
      assert (xs + ys)[..|xs + ys| - 1] == xs + ys[..|ys| - 1];
      TimesAppend(xs, ys[..|ys| - 1], a);
    }
  }

  /** An arc fires at most once in one cascade. */
  lemma {:induction false} TimesOnce(arcs: seq<Arc>, a: Arc)
    requires OneEach(arcs)
    ensures Times(arcs, a) == if a in arcs then 1 else 0
  {
    if arcs != [] {
      var most, last := arcs[..|arcs| - 1], arcs[|arcs| - 1];
      assert arcs == most + [last];
      TimesOnce(most, a);
      if a == last {
        forall b | b in most ensures b != a {
          var j :| 0 <= j < |most| && most[j] == b;
          assert arcs[j].target != arcs[|arcs| - 1].target;
        }
      }
    }
  }

  // -------------------------------------------------------------- the ring as it grows

  /** Links added before the inner loop's round j of the outer loop's round i. */
  ghost predicate LinkedSoFar(ids: seq<int>, h: int, i: int, j: int, a: int, b: int) {
    a != b && exists i', d :: 0 <= i' < |ids| && 1 <= d <= h && (i' < i || (i' == i && d < j)) && Ring.Adds(ids, i', d, a, b)
  }

  lemma RoundAdds(ids: seq<int>, h: int, i: int, j: int, a: int, b: int)
    requires 0 <= i < |ids| && 1 <= j <= h
    ensures LinkedSoFar(ids, h, i, j + 1, a, b) <==> LinkedSoFar(ids, h, i, j, a, b) || (a != b && Ring.Adds(ids, i, j, a, b))
  {
    hide Ring.Adds;
  }

  lemma RoundEnds(ids: seq<int>, h: int, i: int, a: int, b: int)
    requires 0 <= i < |ids| && h >= 0
    ensures LinkedSoFar(ids, h, i, h + 1, a, b) <==> LinkedSoFar(ids, h, i + 1, 1, a, b)
  {
    hide Ring.Adds;
  }

  lemma AllRounds(ids: seq<int>, h: int, a: int, b: int)
    ensures LinkedSoFar(ids, h, |ids|, 1, a, b) <==> Ring.Linked(ids, h, a, b)
  {
    hide Ring.Adds;
  }

  /** The arcs of g are the links so far, each with the weight drawn for it. */
  ghost predicate Grown(g: Graph, ids: seq<int>, h: int, i: int, j: int) {
    && g.Keys == (set x | x in ids)
    && forall a, b :: Has(g, Arc(a, b)) <==> LinkedSoFar(ids, h, i, j, a, b)
  }

  ghost predicate Drawn(g: Graph, initial: Arc -> real) {
    forall a, b :: Has(g, Arc(a, b)) ==> g[a][b] == Edge(initial(Arc(a, b)), map[])
  }

  lemma StrengthenedTake(cfg: Config, g: Graph, arcs: seq<Arc>, n: nat)
    requires n < |arcs| && forall a :: a in arcs ==> Has(g, a)
    ensures var before := Strengthened(cfg, g, arcs[..n]);
            Strengthened(cfg, g, arcs[..n + 1])
              == if Has(before, arcs[n]) then SetWeight(before, arcs[n], Stronger(cfg, Weight(before, arcs[n]))) else before
  {
    assert arcs[..n + 1][..n] == arcs[..n] && arcs[..n + 1][n] == arcs[n];
  }

  /** The first n arcs have been strengthened, and the payload so far replays to the same graph. */
  ghost predicate StrengthenedTo(cfg: Config, g0: Graph, g: Graph, fired: seq<Arc>, n: nat, payload: seq<Update>)
    requires n <= |fired| && forall a :: a in fired ==> Has(g0, a)
  {
    && SameArcs(g0, g) && g == Strengthened(cfg, g0, fired[..n]) && g == Replay(g0, payload) && |payload| == n
    && forall i :: 0 <= i < n ==> payload[i].source == fired[i].source && payload[i].target == fired[i].target
  }

  lemma StrengthenOne(cfg: Config, g0: Graph, g: Graph, fired: seq<Arc>, n: nat, payload: seq<Update>)
    requires n < |fired| && (forall a :: a in fired ==> Has(g0, a)) && StrengthenedTo(cfg, g0, g, fired, n, payload)
    ensures Has(g, fired[n])
    ensures var a := fired[n];
            var w := Stronger(cfg, Weight(g, a));
            StrengthenedTo(cfg, g0, SetWeight(g, a, w), fired, n + 1, payload + [Update(a.source, a.target, w)])
  {
    hide Strengthened, Replay, SetWeight, Stronger;
    var a := fired[n];
    assert a in fired && Has(g0, a);
    StrengthenedTake(cfg, g0, fired, n);
    var w := Stronger(cfg, Weight(g, a));
    assert a == Arc(a.source, a.target);
    ReplaySnoc(g0, payload, Update(a.source, a.target, w));
    SameArcsSet(g, a, w);
  }

  lemma NoRing(degree: int, a: int, b: int)
    ensures !OnRing([], degree, a, b)
  {
  }

  lemma SameArcsSet(g: Graph, a: Arc, w: real)
    requires Has(g, a)
    ensures SameArcs(g, SetWeight(g, a, w))
  {
  }

  /** What one arc more makes of a graph. */
  ghost predicate OneArcMore(g: Graph, g1: Graph, a: int, b: int) {
    g1.Keys == g.Keys && forall x, y :: Has(g1, Arc(x, y)) <==> Has(g, Arc(x, y)) || (x == a && y == b && a != b)
  }

  lemma GrowRound(g: Graph, g1: Graph, g2: Graph, ids: seq<int>, h: int, i: int, j: int)
    requires 0 <= i < |ids| && 1 <= j <= h && Grown(g, ids, h, i, j)
    requires OneArcMore(g, g1, ids[i], ids[Ring.Ahead(|ids|, i, j)])
    requires OneArcMore(g1, g2, ids[i], ids[Ring.Behind(|ids|, i, j)])
    ensures Grown(g2, ids, h, i, j + 1)
  {
    hide LinkedSoFar, Has;
    forall a, b ensures Has(g2, Arc(a, b)) <==> LinkedSoFar(ids, h, i, j + 1, a, b) {
      RoundAdds(ids, h, i, j, a, b);
    }
  }

  lemma GrowNext(g: Graph, ids: seq<int>, h: int, i: int)
    requires 0 <= i < |ids| && h >= 0 && Grown(g, ids, h, i, h + 1)
    ensures Grown(g, ids, h, i + 1, 1)
  {
    hide LinkedSoFar, Has;
    forall a, b ensures Has(g, Arc(a, b)) <==> LinkedSoFar(ids, h, i + 1, 1, a, b) {
      RoundEnds(ids, h, i, a, b);
    }
  }

  /** Topics outside `waiting` have decayed. */
  ghost function PartlyDecayed(cfg: Config, trend: Trend, waiting: set<string>): Trend {
    map t | t in trend && (t in waiting || Survives(cfg, trend[t])) :: if t in waiting then trend[t] else Faded(cfg, trend[t])
  }

  lemma PartlyDecayedOne(cfg: Config, trend: Trend, waiting: set<string>, t: string)
    requires t in waiting && t in trend
    ensures PartlyDecayed(cfg, trend, waiting - {t})
         == if Survives(cfg, trend[t]) then PartlyDecayed(cfg, trend, waiting)[t := Faded(cfg, trend[t])]
            else PartlyDecayed(cfg, trend, waiting) - {t}
  {
  }

  function Boost(cfg: Config, trend: Trend, topic: string): Trend {
    trend[topic := Lifted(cfg, Current(trend, topic))]
  }

  ghost function Among(topics: seq<string>, newly: map<string, set<int>>, i: int): set<string>
    requires forall t :: t in topics ==> t in newly
  {
    set t | t in topics && i in newly[t]
  }

  lemma AmongSnoc(topics: seq<string>, newly: map<string, set<int>>, i: int, t: string)
    requires (forall x :: x in topics ==> x in newly) && t in newly
    ensures Among(topics + [t], newly, i) == Among(topics, newly, i) + if i in newly[t] then {t} else {}
  {
  }

  lemma RaisedAmong(cfg: Config, trend: Trend, topics: seq<string>, newly: map<string, set<int>>, i: int, t: string)
    requires forall x :: x in topics ==> x in newly
    ensures var after := Raised(cfg, trend, Among(topics, newly, i));
            if t in topics && i in newly[t] then IsBoosted(cfg, trend, after, t) else Unchanged(trend, after, t)
  {
    RaisedOrNot(cfg, trend, Among(topics, newly, i), t);
  }

  lemma RenewedAmong(cfg: Config, trend: Trend, topics: seq<string>, newly: map<string, set<int>>, i: int, t: string)
    requires forall x :: x in topics ==> x in newly
    ensures RunsTo(cfg, trend, Renewed(cfg, trend, Among(topics, newly, i)), t, t in topics && i in newly[t])
  {
    hide Renewed;
    RunRenews(cfg, trend, Among(topics, newly, i), t);
  }

  lemma AmongNone(newly: map<string, set<int>>, i: int)
    ensures Among([], newly, i) == {}
  {
  }

  lemma RaisedNext(cfg: Config, trend: Trend, topics: seq<string>, newly: map<string, set<int>>, i: int, n: nat)
    requires Distinct(topics) && n < |topics| && forall t :: t in topics ==> t in newly
    ensures var now := Raised(cfg, trend, Among(topics[..n], newly, i));
            Raised(cfg, trend, Among(topics[..n + 1], newly, i)) == if i in newly[topics[n]] then Boost(cfg, now, topics[n]) else now
  {
    hide Raised;
    assert topics[..n + 1] == topics[..n] + [topics[n]];
    AmongSnoc(topics[..n], newly, i, topics[n]);
    if i in newly[topics[n]] {
      RaisedOneMore(cfg, trend, Among(topics[..n], newly, i), topics[n]);
    } else {
      assert Among(topics[..n], newly, i) + {} == Among(topics[..n], newly, i);
    }
  }

  /** The consumers that the cascade of a topic newly activates. */
  function Newly(g: Graph, draw: Draws, shares: seq<Share>, hops: nat, topic: string): set<int> {
    Field(g, draw, topic).Ball(SeedsOf(shares, topic), hops) - SeedsOf(shares, topic)
  }

  /** The topics whose cascade newly activates consumer i. */
  function NewTopics(g: Graph, draw: Draws, shares: seq<Share>, hops: nat, i: int): set<string> {
    set x | x in shares && i in Newly(g, draw, shares, hops, x.category) :: x.category
  }

  lemma NewTopicsReached(g: Graph, draw: Draws, shares: seq<Share>, maxHops: int, i: int, t: string)
    ensures t in NewTopics(g, draw, shares, if maxHops < 0 then 0 else maxHops, i)
       <==> NewlyReached(g, draw, shares, maxHops, t, i)
  {
    hide Field.Ball, SeedsOf, Shared, Chain;
    var f, seeds := Field(g, draw, t), SeedsOf(shares, t);
    SeedsShared(shares, t);
    BallReached(f, seeds, shares, maxHops, i);
    if NewlyReached(g, draw, shares, maxHops, t, i) {
      var p :| 0 < |p| <= maxHops + 1 && Shared(shares, t, p[0]) && p[|p| - 1] == i && Chain(g, draw, t, p);
      SharedTopic(shares, t, p[0]);
    }
  }

  lemma SharedTopic(shares: seq<Share>, topic: string, c: int)
    requires Shared(shares, topic, c)
    ensures exists x :: x in shares && x.category == topic
  {
  }

  lemma CascadesReach(g: Graph, draw: Draws, shares: seq<Share>, maxHops: int, topics: seq<string>, forests: seq<seq<Arc>>)
    requires Cascades(g, draw, shares, if maxHops < 0 then 0 else maxHops, topics, forests)
    ensures Distinct(topics) && (forall t :: t in topics <==> exists x :: x in shares && x.category == t)
    ensures |forests| == |topics|
    ensures forall n :: 0 <= n < |topics| ==> OneArcEach(g, draw, shares, maxHops, topics[n], forests[n])
  {
    hide Forest, SeedsOf, Shared, OneArcEach;
    forall n | 0 <= n < |topics| ensures OneArcEach(g, draw, shares, maxHops, topics[n], forests[n]) {
      SeedsShared(shares, topics[n]);
      ForestReached(Field(g, draw, topics[n]), SeedsOf(shares, topics[n]), shares, maxHops, forests[n]);
    }
  }

  lemma SameTopics(g: Graph, draw: Draws, shares: seq<Share>, hops: nat, topics: seq<string>, newly: map<string,
          set<int>>, i: int)
    requires forall t :: t in topics <==> exists x :: x in shares && x.category == t
    requires forall t :: t in topics ==> t in newly && newly[t] == Newly(g, draw, shares, hops, t)
    ensures Among(topics, newly, i) == NewTopics(g, draw, shares, hops, i)
  {
    hide Newly;
  }

  lemma ForestArcs(f: Field, seeds: set<int>, n: nat, arcs: seq<Arc>, activated: set<int>)
    requires Forest(f, seeds, n, arcs, activated)
    ensures OneEach(arcs) && forall a :: a in arcs ==> Has(f.graph, a)
  {
    forall a | a in arcs ensures Has(f.graph, a) {
      assert Climbs(f, seeds, n, a);
    }
  }

  /** The cascades of a run: one forest for each topic shared, from the consumers that shared something of it. */
  ghost predicate Cascades(g: Graph, draw: Draws, shares: seq<Share>, hops: nat, topics: seq<string>,
                           forests: seq<seq<Arc>>)
  {
    && Distinct(topics) && (forall t :: t in topics <==> exists x :: x in shares && x.category == t)
    && |forests| == |topics|
    && forall i :: 0 <= i < |topics| ==>
         var f := Field(g, draw, topics[i]);
         var seeds := SeedsOf(shares, topics[i]);
         Forest(f, seeds, hops, forests[i], f.Ball(seeds, hops))
  }

  /** A list of the arcs that fire in a run: each arc once for each forest that it belongs to. */
  ghost predicate FiredBy(g: Graph, draw: Draws, shares: seq<Share>, hops: nat, fired: seq<Arc>) {
    && (forall a :: a in fired ==> Has(g, a))
    && exists topics, forests :: Cascades(g, draw, shares, hops, topics, forests)
                                 && forall a :: Times(fired, a) == Firings(forests, a)
  }

  lemma CascadesApart(g: Graph, draw: Draws, shares: seq<Share>, hops: nat, topics: seq<string>, forests: seq<seq<Arc>>)
    requires Cascades(g, draw, shares, hops, topics, forests)
    ensures Distinct(topics)
  {
  }

  // -------------------------------------------------------------- a series of runs

  /** One run: the graph and the shares it starts from, its draws, and the arcs that fire. */
  datatype Run = Run(graph: Graph, draw: Draws, shares: seq<Share>, fired: seq<Arc>)

  function FiredIn(runs: seq<Run>): (arcs: seq<seq<Arc>>)
    ensures |arcs| == |runs|
  {
    if runs == [] then [] else FiredIn(runs[..|runs| - 1]) + [runs[|runs| - 1].fired]
  }

  /** The topics that newly reach consumer i in each of the runs. */
  function ReachedIn(runs: seq<Run>, hops: nat, i: int): (topics: seq<set<string>>)
    ensures |topics| == |runs|
  {
    if runs == [] then [] else
      var last := runs[|runs| - 1];
      ReachedIn(runs[..|runs| - 1], hops, i) + [NewTopics(last.graph, last.draw, last.shares, hops, i)]
  }

  /** What waits in the queue when run number n starts: what was left before the series, and what arrived since. */
  function Waiting(queue: seq<Share>, arrivals: seq<seq<Share>>, n: nat): seq<Share>
    requires n < |arrivals|
  {
    (if n == 0 then queue else []) + arrivals[n]
  }

  /** The runs take up the arrivals one after the other, each on the graph that the runs before it have left. */
  ghost predicate Follow(cfg: Config, hops: nat, g: Graph, queue: seq<Share>, arrivals: seq<seq<Share>>, draws: seq<Draws>,
                         runs: seq<Run>)
    requires |draws| == |arrivals| && |runs| <= |arrivals|
  {
    runs != [] ==>
      var n := |runs| - 1;
      var last := runs[n];
      && Follow(cfg, hops, g, queue, arrivals, draws, runs[..n])
      && Within(g, FiredIn(runs[..n])) && last.graph == Reinforced(cfg, g, FiredIn(runs[..n]))
      && last.draw == draws[n] && last.shares == Upto(Waiting(queue, arrivals, n), cfg.maxActivations)
      && FiredBy(last.graph, last.draw, last.shares, hops, last.fired)
  }

  lemma OneRunMore(cfg: Config, g: Graph, runs: seq<Run>, r: Run)
    requires Within(g, FiredIn(runs)) && r.graph == Reinforced(cfg, g, FiredIn(runs))
    requires forall a :: a in r.fired ==> Has(r.graph, a)
    ensures FiredIn(runs + [r]) == FiredIn(runs) + [r.fired] && Within(g, FiredIn(runs + [r]))
    ensures Reinforced(cfg, g, FiredIn(runs + [r])) == Strengthened(cfg, r.graph, r.fired)
  {
    hide Strengthened;
    assert (runs + [r])[..|runs|] == runs;
    var arcs := FiredIn(runs) + [r.fired];
    assert arcs[..|runs|] == FiredIn(runs);
    forall i | 0 <= i < |arcs| ensures forall a :: a in arcs[i] ==> Has(g, a) {
      assert i < |runs| ==> arcs[i] == FiredIn(runs)[i];
    }
  }

  lemma NoRuns(cfg: Config, hops: nat, g: Graph, queue: seq<Share>, arrivals: seq<seq<Share>>, draws: seq<Draws>)
    requires |draws| == |arrivals|
    ensures Follow(cfg, hops, g, queue, arrivals, draws, []) && Within(g, FiredIn([]))
    ensures Reinforced(cfg, g, FiredIn([])) == g
  {
  }

  lemma NoneReached(cfg: Config, trend: Trend, hops: nat, i: int)
    ensures After(cfg, trend, ReachedIn([], hops, i)) == trend
  {
  }

  lemma FollowOn(cfg: Config, hops: nat, g: Graph, queue: seq<Share>, arrivals: seq<seq<Share>>, draws: seq<Draws>,
          runs: seq<Run>, r: Run)
    requires |draws| == |arrivals| && |runs| < |arrivals| && Follow(cfg, hops, g, queue, arrivals, draws, runs)
    requires Within(g, FiredIn(runs)) && r.graph == Reinforced(cfg, g, FiredIn(runs)) && r.draw == draws[|runs|]
    requires r.shares == Upto(Waiting(queue, arrivals, |runs|), cfg.maxActivations)
    requires FiredBy(r.graph, r.draw, r.shares, hops, r.fired)
    ensures Follow(cfg, hops, g, queue, arrivals, draws, runs + [r])
  {
    hide Reinforced, FiredIn, Within, Upto, FiredBy;
    assert (runs + [r])[..|runs|] == runs;
  }

  lemma OneMoreReached(cfg: Config, trend: Trend, runs: seq<Run>, r: Run, hops: nat, i: int)
    ensures After(cfg, trend, ReachedIn(runs + [r], hops, i))
         == Renewed(cfg, After(cfg, trend, ReachedIn(runs, hops, i)), NewTopics(r.graph, r.draw, r.shares, hops, i))
  {
    hide Renewed, NewTopics;
    assert (runs + [r])[..|runs|] == runs;
    var topics := ReachedIn(runs + [r], hops, i);
    assert topics[..|runs|] == ReachedIn(runs, hops, i);
  }

  /** Enough runs without a boost of a topic have left no multiplier for it. */
  ghost predicate FadesOut(cfg: Config, before: Trend, after: Trend, reached: seq<set<string>>) {
    Sane(cfg) && InRange(cfg, before) && |reached| as real * (1.0 - cfg.decay) >= (cfg.trendMax - 1.0) * cfg.decay ==>
      forall t :: Misses(reached, t) ==> t !in after
  }

  lemma Fading(cfg: Config, before: Trend, reached: seq<set<string>>)
    ensures FadesOut(cfg, before, After(cfg, before, reached), reached)
  {
    hide Misses, After;
    if Sane(cfg) && InRange(cfg, before) && |reached| as real * (1.0 - cfg.decay) >= (cfg.trendMax - 1.0) * cfg.decay {
      forall t | Misses(reached, t) ensures t !in After(cfg, before, reached) {
        Extinction(cfg, before, reached, t);
      }
    }
  }

  /** No weight within the maximum has gone down or beyond it. */
  ghost predicate OnlyGrow(cfg: Config, g: Graph, h: Graph) {
    cfg.edgeDelta >= 0.0 ==>
      forall a :: Has(g, a) && Weight(g, a) <= cfg.maxWeight ==> Has(h, a) && Weight(g, a) <= Weight(h, a) <= cfg.maxWeight
  }

  lemma Growing(cfg: Config, g: Graph, arcs: seq<seq<Arc>>)
    requires Within(g, arcs)
    ensures OnlyGrow(cfg, g, Reinforced(cfg, g, arcs))
  {
    hide Within;
    forall a | cfg.edgeDelta >= 0.0 && Has(g, a) && Weight(g, a) <= cfg.maxWeight
      ensures Has(Reinforced(cfg, g, arcs), a) && Weight(g, a) <= Weight(Reinforced(cfg, g, arcs), a) <= cfg.maxWeight
    {
      WeightsGrow(cfg, g, arcs, 0, a);
    }
  }

  class CommunitySubsystem {
    const config: Config
    var queue: seq<Share>
    var graph: Graph

    /** `__init__` */
    constructor (ids: seq<int>, config: Config, initial: Arc -> real)
      ensures this.config == config && queue == []
      ensures graph.Keys == (set x | x in ids) && Drawn(graph, initial)
      ensures forall a, b :: Has(graph, Arc(a, b)) <==>
                |ids| > 0 && Ring.Linked(ids, Ring.Reach(config.avgDegree, |ids|), a, b)
      ensures forall a, b :: a in graph && b in graph[a] <==> OnRing(ids, config.avgDegree, a, b)
    {
      this.config, queue := config, [];
      graph := map x | x in ids :: map[];
      new;
      InitializeGraph(ids, initial);
    }

    /** `_initialize_graph`: the ring lattice, each arc with the weight drawn for it. */
    method InitializeGraph(ids: seq<int>, initial: Arc -> real)
      requires graph.Keys == (set x | x in ids) && forall a, b :: !Has(graph, Arc(a, b))
      modifies this`graph
      ensures graph.Keys == old(graph.Keys) && Drawn(graph, initial)
      ensures forall a, b :: Has(graph, Arc(a, b)) <==>
                |ids| > 0 && Ring.Linked(ids, Ring.Reach(config.avgDegree, |ids|), a, b)
      ensures forall a, b :: a in graph && b in graph[a] <==> OnRing(ids, config.avgDegree, a, b)
    {
      hide OnRing;
      if ids == [] {
        forall a, b ensures !OnRing(ids, config.avgDegree, a, b) {
          NoRing(config.avgDegree, a, b);
        }
        return;
      }
      var n := |ids|;
      var h := Ring.Reach(config.avgDegree, n);
      var i := 0;
      while i < n
        invariant 0 <= i <= n && Grown(graph, ids, h, i, 1) && Drawn(graph, initial)
      {
        var j := 1;
        while j < h + 1
          invariant 1 <= j && (j <= h + 1 || j == 1)
          invariant Grown(graph, ids, h, i, j) && Drawn(graph, initial)
        {
          ghost var g0 := graph;
          AddEdge(ids[i], ids[(i + j) % n], initial);
          ghost var g1 := graph;
          AddEdge(ids[i], ids[(i - j) % n], initial);
          GrowRound(g0, g1, graph, ids, h, i, j);
          j := j + 1;
        }
        GrowEnd(graph, ids, h, i, j);
        i := i + 1;
      }
      forall a, b ensures Has(graph, Arc(a, b)) <==> Ring.Linked(ids, h, a, b) {
        AllRounds(ids, h, a, b);
      }
      forall a, b ensures a in graph && b in graph[a] <==> OnRing(ids, config.avgDegree, a, b) {
        LinkedOnRing(ids, config.avgDegree, a, b);
        assert Has(graph, Arc(a, b)) <==> Ring.Linked(ids, h, a, b);
      }
    }

    /** `_add_edge`: no loops, no second arc between the same two. */
    method AddEdge(source: int, target: int, initial: Arc -> real)
      requires source in graph
      modifies this`graph
      ensures OneArcMore(old(graph), graph, source, target)
      ensures Drawn(old(graph), initial) ==> Drawn(graph, initial)
      ensures forall x, y :: Has(old(graph), Arc(x, y)) ==> graph[x][y] == old(graph)[x][y]
    {
      if source == target {
        return;
      }
      if target !in graph[source] {
        graph := graph[source := graph[source][target := Edge(initial(Arc(source, target)), map[])]];
      }
    }

    /** `enqueue_activation` */
    method Enqueue(x: Share)
      modifies this`queue
      ensures queue == old(queue) + [x]
    {
      queue := queue + [x];
    }

    /** The inner loop of `run_propagation`: one source tries all its neighbours that are not yet activated. */
    method Expand(f: Field, source: int, activated: set<int>) returns (reached: set<int>, arcs: seq<Arc>,
            tosses: seq<Arc>)
      requires f.graph == graph
      ensures Tried(f, source, activated, {}, reached, arcs, tosses)
    {
      reached, arcs, tosses := {}, [], [];
      if source !in graph {
        return;
      }
      var waiting := graph[source].Keys;
      while waiting != {}
        invariant waiting <= graph[source].Keys
        invariant Tried(f, source, activated, waiting, reached, arcs, tosses)
        decreases |waiting|
      {
        hide Tried;
        ghost var some := Pick(waiting);
        var target :| target in waiting;
        var a := Arc(source, target);
        if target !in activated + reached {
          TryTossed(f, source, activated, waiting, reached, arcs, tosses, target);
          tosses := tosses + [a];
          if f.draw(f.topic, a) < f.Chance(a) {
            reached, arcs := reached + {target}, arcs + [a];
          }
        } else {
          TrySkipped(f, source, activated, waiting, reached, arcs, tosses, target);
        }
        waiting := waiting - {target};
      }
    }

    /** `k_max_hops`; a negative number allows no hop. */
    function Hops(): nat { if config.maxHops < 0 then 0 else config.maxHops }

    /** One hop of the cascade: every node of the current layer expands, in some order. */
    method Hop(f: Field, ghost seeds: set<int>, ghost h: nat, current: set<int>, activated: set<int>, arcs: seq<Arc>,
            tosses: seq<Arc>)
      returns (next: set<int>, activated': set<int>, arcs': seq<Arc>, tosses': seq<Arc>)
      requires f.graph == graph && current == f.Layer(seeds, h) && activated == f.Ball(seeds, h)
      requires Forest(f, seeds, h, arcs, activated) && TossedOnce(f, current, activated, tosses)
      ensures activated' == f.Ball(seeds, h + 1) && next == f.Layer(seeds, h + 1)
      ensures Forest(f, seeds, h + 1, arcs', activated') && TossedOnce(f, next, activated', tosses')
    {
      hide Forest, TossedOnce, Hopping, Tried, Field.Ball;
      HopBegins(f, seeds, h, activated, arcs);
      LayerInBall(f, seeds, h);
      next, activated', arcs', tosses' := {}, activated, arcs, tosses;
      var waiting := current;
      while waiting != {}
        invariant waiting <= current
        invariant Hopping(f, seeds, h, waiting, activated', next, arcs')
        invariant TossedOnce(f, waiting, activated, tosses')
        decreases |waiting|
      {
        ghost var some := Pick(waiting);
        var source :| source in waiting;
        var reached, more, tossed := Expand(f, source, activated');
        HopOn(f, seeds, h, waiting, activated', next, arcs', source, reached, more, tossed);
        TossOn(f, waiting, activated, tosses', source, activated', reached, more, tossed);
        next, activated', arcs', tosses' := next + reached, activated' + reached, arcs' + more, tosses' + tossed;
        waiting := waiting - {source};
      }
      HopEnds(f, seeds, h, activated', next, arcs');
      TossLater(f, activated, tosses', next, next);
      HopAdds(f, seeds, h);
    }

    /**
     * The cascade of one topic. Whatever the order in which sources and targets are taken, and in spite of
     * the early break, it activates the nodes within the allowed number of live arcs from the seeds.
     */
    method Spread(f: Field, seeds: set<int>) returns (activated: set<int>, arcs: seq<Arc>, tosses: seq<Arc>)
      requires f.graph == graph
      ensures Cascaded(f, seeds, Hops(), activated, arcs, tosses)
    {
      activated, arcs, tosses := seeds, [], [];
      var current := seeds;
      assert Targets([]) == {};
      var hop := 0;
      while hop < Hops()
        invariant 0 <= hop <= Hops() && current == f.Layer(seeds, hop)
        invariant activated == f.Ball(seeds, hop) && Forest(f, seeds, hop, arcs, activated)
        invariant TossedOnce(f, current, activated, tosses)
      {
        hide Forest, TossedOnce;
        var next;
        next, activated, arcs, tosses := Hop(f, seeds, hop, current, activated, arcs, tosses);
        if next == {} {
          StopsEarly(f, seeds, hop, Hops(), activated, arcs);
          Tosses(f, next, activated, tosses);
          return;
        }
        current := next;
        hop := hop + 1;
      }
    }

    // ------------------------------------------------------------ what a run leaves behind

    /** The inner loop of `_apply_decay`. */
    method DecayOne(c: Shopper)
      modifies c`trend
      ensures c.trend == Decayed(config, old(c.trend))
      ensures forall t :: Fades(config, old(c.trend), c.trend, t)
    {
      ghost var before := c.trend;
      var waiting := c.trend.Keys;
      while waiting != {}
        invariant waiting <= before.Keys
        invariant c.trend == PartlyDecayed(config, before, waiting)
        decreases |waiting|
      {
        var topic :| topic in waiting;
        var v := c.trend[topic];
        PartlyDecayedOne(config, before, waiting, topic);
        if v > 1.0 {
          var v' := Max(Scaled(config, v), 1.0);
          if v' == 1.0 {
            c.trend := c.trend - {topic};
          } else {
            c.trend := c.trend[topic := v'];
          }
        }
        waiting := waiting - {topic};
      }
      forall t ensures Fades(config, before, c.trend, t) {
        DecayFades(config, before, t);
      }
    }

    /** `_apply_decay` */
    method ApplyDecay(consumers: Shoppers)
      requires Proper(consumers)
      modifies (set i | i in consumers :: consumers[i])`trend
      ensures forall i :: i in consumers ==> consumers[i].trend == Decayed(config, old(consumers[i].trend))
      ensures forall i, t :: i in consumers ==> Fades(config, old(consumers[i].trend), consumers[i].trend, t)
    {
      hide Fades, Decayed;
      var waiting := consumers.Keys;
      while waiting != {}
        invariant waiting <= consumers.Keys
        invariant forall i :: i in consumers ==>
                    consumers[i].trend == if i in waiting then old(consumers[i].trend) else Decayed(config, old(consumers[i].trend))
        decreases |waiting|
      {
        ghost var some := Pick(waiting);
        var i :| i in waiting;
        DecayOne(consumers[i]);
        waiting := waiting - {i};
      }
      forall i, t | i in consumers ensures Fades(config, old(consumers[i].trend), consumers[i].trend, t) {
        DecayFades(config, old(consumers[i].trend), t);
      }
    }

    /** The boost of one topic, for all consumers that it newly reached. */
    method BoostTopic(consumers: Shoppers, topic: string, reached: set<int>)
      requires Proper(consumers)
      modifies (set i | i in consumers :: consumers[i])`trend
      ensures forall i :: i in consumers ==>
                consumers[i].trend == if i in reached then Boost(config, old(consumers[i].trend), topic) else old(consumers[i].trend)
      ensures forall i :: i in consumers && i in reached ==> IsBoosted(config, old(consumers[i].trend), consumers[i].trend, topic)
      ensures forall i, t :: i in consumers && (i !in reached || t != topic) ==>
                Unchanged(old(consumers[i].trend), consumers[i].trend, t)
    {
      var waiting := reached;
      while waiting != {}
        invariant waiting <= reached
        invariant forall i :: i in consumers ==>
                    consumers[i].trend == if i in reached - waiting then Boost(config, old(consumers[i].trend), topic)
                                          else old(consumers[i].trend)
        decreases |waiting|
      {
        ghost var some := Pick(waiting);
        var i :| i in waiting;
        if i in consumers {
          var c := consumers[i];
          c.trend := c.trend[topic := Lifted(config, Current(c.trend, topic))];
        }
        waiting := waiting - {i};
      }
    }

    /** The strengthening loop: the payload lists the new weights in the order in which they were set. */
    method Strengthen(fired: seq<Arc>) returns (payload: seq<Update>)
      requires forall a :: a in fired ==> Has(graph, a)
      modifies this`graph
      ensures graph == Strengthened(config, old(graph), fired) && graph == Replay(old(graph), payload)
      ensures |payload| == |fired|
      ensures forall i :: 0 <= i < |fired| ==> payload[i].source == fired[i].source && payload[i].target == fired[i].target
      ensures EdgesStrengthened(config, old(graph), graph, fired)
    {
      hide EdgesStrengthened;
      payload := [];
      for n := 0 to |fired|
        invariant StrengthenedTo(config, old(graph), graph, fired, n, payload)
      {
        hide StrengthenedTo, SetWeight;
        var a := fired[n];
        StrengthenOne(config, old(graph), graph, fired, n, payload);
        var w := Stronger(config, Weight(graph, a));
        graph := SetWeight(graph, a, w);
        payload := payload + [Update(a.source, a.target, w)];
      }
      assert fired[..|fired|] == fired;
      StrengthenedEdges(config, old(graph), fired);
    }

    /** The topic loop: one cascade for each topic, over the same graph. */
    method Propagate(topics: seq<string>, seeds: map<string, set<int>>, draw: Draws)
      returns (fired: seq<Arc>, newly: map<string, set<int>>, ghost forests: seq<seq<Arc>>)
      requires Distinct(topics) && forall t :: t in topics ==> t in seeds
      ensures newly.Keys == (set t | t in topics)
      ensures forall t :: t in topics ==> newly[t] == Field(graph, draw, t).Ball(seeds[t], Hops()) - seeds[t]
      ensures |forests| == |topics|
      ensures forall i :: 0 <= i < |topics| ==>
                var f := Field(graph, draw, topics[i]);
                Forest(f, seeds[topics[i]], Hops(), forests[i], f.Ball(seeds[topics[i]], Hops()))
      ensures forall a :: a in fired ==> Has(graph, a)
      ensures forall a :: Times(fired, a) == Firings(forests, a)
    {
      hide Field.Ball, Forest;
      fired, newly, forests := [], map[], [];
      for n := 0 to |topics|
        invariant newly.Keys == (set t | t in topics[..n])
        invariant forall t :: t in topics[..n] ==> newly[t] == Field(graph, draw, t).Ball(seeds[t], Hops()) - seeds[t]
        invariant |forests| == n
        invariant forall i :: 0 <= i < n ==>
                    var f := Field(graph, draw, topics[i]);
                    Forest(f, seeds[topics[i]], Hops(), forests[i], f.Ball(seeds[topics[i]], Hops()))
        invariant forall a :: a in fired ==> Has(graph, a)
        invariant forall a :: Times(fired, a) == Firings(forests, a)
      {
        var t := topics[n];
        var f := Field(graph, draw, t);
        var activated, arcs, tosses := Spread(f, seeds[t]);
        ForestArcs(f, seeds[t], Hops(), arcs, activated);
        forall a ensures Times(fired + arcs, a) == Firings(forests + [arcs], a) {
          TimesAppend(fired, arcs, a);
          TimesOnce(arcs, a);
          assert (forests + [arcs])[..n] == forests;
        }
        assert topics[..n + 1] == topics[..n] + [t];
        fired, newly, forests := fired + arcs, newly[t := activated - seeds[t]], forests + [arcs];
      }
      assert topics[..|topics|] == topics;
    }

    /** The boosts of all topics. */
    method BoostAll(consumers: Shoppers, topics: seq<string>, newly: map<string, set<int>>)
      requires Proper(consumers) && Distinct(topics) && forall t :: t in topics ==> t in newly
      modifies (set i | i in consumers :: consumers[i])`trend
      ensures forall i :: i in consumers ==>
                consumers[i].trend == Raised(config, old(consumers[i].trend), Among(topics, newly, i))
      ensures forall i, t :: i in consumers && t in topics && i in newly[t] ==>
                IsBoosted(config, old(consumers[i].trend), consumers[i].trend, t)
      ensures forall i, t :: i in consumers && (t !in topics || i !in newly[t]) ==>
                Unchanged(old(consumers[i].trend), consumers[i].trend, t)
    {
      hide Raised, Among, Boost, IsBoosted, Unchanged;
      forall i | i in consumers ensures Raised(config, consumers[i].trend, Among([], newly, i)) == consumers[i].trend {
        RaisedNone(config, consumers[i].trend);
        AmongNone(newly, i);
      }
      for n := 0 to |topics|
        invariant forall i :: i in consumers ==>
                    consumers[i].trend == Raised(config, old(consumers[i].trend), Among(topics[..n], newly, i))
      {
        BoostTopic(consumers, topics[n], newly[topics[n]]);
        forall i | i in consumers
          ensures consumers[i].trend == Raised(config, old(consumers[i].trend), Among(topics[..n + 1], newly, i))
        {
          RaisedNext(config, old(consumers[i].trend), topics, newly, i, n);
        }
      }
      assert topics[..|topics|] == topics;
      forall i, t | i in consumers
        ensures t in topics && i in newly[t] ==> IsBoosted(config, old(consumers[i].trend), consumers[i].trend, t)
        ensures t !in topics || i !in newly[t] ==> Unchanged(old(consumers[i].trend), consumers[i].trend, t)
      {
        RaisedAmong(config, old(consumers[i].trend), topics, newly, i, t);
      }
    }

    /** The consumers' part of a run: everything decays, and then the boosts. */
    method RenewAll(consumers: Shoppers, topics: seq<string>, newly: map<string, set<int>>)
      requires Proper(consumers) && Distinct(topics) && forall t :: t in topics ==> t in newly
      modifies (set i | i in consumers :: consumers[i])`trend
      ensures forall i :: i in consumers ==>
                consumers[i].trend == Renewed(config, old(consumers[i].trend), Among(topics, newly, i))
      ensures forall i, t :: i in consumers ==>
                RunsTo(config, old(consumers[i].trend), consumers[i].trend, t, t in topics && i in newly[t])
    {
      hide Raised, Decayed, Among, RunsTo, Fades, IsBoosted, Unchanged;
      ApplyDecay(consumers);
      BoostAll(consumers, topics, newly);
      forall i, t | i in consumers
        ensures RunsTo(config, old(consumers[i].trend), consumers[i].trend, t, t in topics && i in newly[t])
      {
        RenewedAmong(config, old(consumers[i].trend), topics, newly, i, t);
      }
    }

    /** The cascades of a run over the shares that are taken up. */
    method Activate(shares: seq<Share>, draw: Draws)
      returns (fired: seq<Arc>, topics: seq<string>, newly: map<string, set<int>>, ghost forests: seq<seq<Arc>>)
      ensures Cascades(graph, draw, shares, Hops(), topics, forests) && FiredBy(graph, draw, shares, Hops(), fired)
      ensures (forall a :: Times(fired, a) == Firings(forests, a)) && forall a :: a in fired ==> Has(graph, a)
      ensures forall t :: t in topics ==> t in newly
      ensures forall i :: Among(topics, newly, i) == NewTopics(graph, draw, shares, Hops(), i)
    {
      hide Forest, Firings, Times, Among, NewTopics;
      var seeds;
      topics, seeds := Group(shares);
      fired, newly, forests := Propagate(topics, seeds, draw);
      assert Cascades(graph, draw, shares, Hops(), topics, forests);
      forall i ensures Among(topics, newly, i) == NewTopics(graph, draw, shares, Hops(), i) {
        SameTopics(graph, draw, shares, Hops(), topics, newly, i);
      }
    }

    /**
     * `run_propagation`. Every consumer's multipliers decay, and the topics whose cascade newly reached it
     * are boosted; every edge is strengthened once for each topic in which it fired; the batch of updates
     * that is sent out, if any, reproduces the new graph from the old one; the queue is emptied.
     */
    method RunPropagation(consumers: Shoppers, draw: Draws)
      returns (batches: seq<seq<Update>>, ghost shares: seq<Share>, ghost topics: seq<string>,
               ghost forests: seq<seq<Arc>>, ghost fired: seq<Arc>)
      requires Proper(consumers)
      modifies this`queue, this`graph, (set i | i in consumers :: consumers[i])`trend
      ensures queue == []
      ensures config.maxActivations >= |old(queue)| ==> shares == old(queue)
      ensures 0 <= config.maxActivations < |old(queue)| ==> shares == old(queue)[..config.maxActivations]
      ensures -|old(queue)| <= config.maxActivations < 0 ==> shares == old(queue)[..|old(queue)| + config.maxActivations]
      ensures config.maxActivations < -|old(queue)| ==> shares == []
      ensures Distinct(topics) && (forall t :: t in topics <==> exists x :: x in shares && x.category == t)
      ensures |forests| == |topics|
      ensures forall n :: 0 <= n < |topics| ==>
                OneArcEach(old(graph), draw, shares, config.maxHops, topics[n], forests[n])
      ensures forall i, t :: i in consumers ==>
                RunsTo(config, old(consumers[i].trend), consumers[i].trend, t,
                       NewlyReached(old(graph), draw, shares, config.maxHops, t, i))
      ensures EdgesStrengthened(config, old(graph), graph, fired) && forall a :: Times(fired, a) == Count(forests, a)
      ensures fired == [] ==> batches == []
      ensures fired != [] ==>
                && |batches| == 1 && |batches[0]| == |fired|
                && forall n :: 0 <= n < |fired| ==> Arc(batches[0][n].source, batches[0][n].target) == fired[n]
      ensures shares == Upto(old(queue), config.maxActivations) && Cascades(old(graph), draw, shares, Hops(), topics, forests)
      ensures forall i :: i in consumers ==>
                consumers[i].trend == Renewed(config, old(consumers[i].trend), NewTopics(old(graph), draw, shares, Hops(), i))
      ensures FiredBy(old(graph), draw, shares, Hops(), fired)
      ensures forall a :: a in fired ==> Has(old(graph), a)
      ensures graph == Strengthened(config, old(graph), fired)
      ensures forall a :: Times(fired, a) == Firings(forests, a)
      ensures config.edgeDelta >= 0.0 ==>
                && SameArcs(old(graph), graph)
                && forall a :: Has(graph, a) ==> Weight(graph, a) == Boosted(config, Weight(old(graph), a), Firings(forests, a))
      ensures (batches == [] && graph == old(graph)) || (|batches| == 1 && batches[0] != [] && graph == Replay(old(graph), batches[0]))
    {
      hide Renewed, Strengthened, Boosted, Upto, Cascades, FiredBy, Firings, Times, Among, NewTopics;
      hide RunsTo, NewlyReached, EdgesStrengthened, OneArcEach, Count;
      var taken := Upto(queue, config.maxActivations);
      UptoTakes(queue, config.maxActivations);
      queue, shares := [], taken;
      var arcs, categories, newly;
      arcs, categories, newly, forests := Activate(taken, draw);
      topics, fired := categories, arcs;
      CascadesApart(graph, draw, shares, Hops(), topics, forests);
      RenewAll(consumers, categories, newly);
      var payload := Strengthen(arcs);
      if config.edgeDelta >= 0.0 {
        StrengthenedWeights(config, old(graph), arcs);
      }
      batches := if payload == [] then [] else [payload];
      CascadesReach(old(graph), draw, shares, config.maxHops, topics, forests);
      forall i, t | i in consumers
        ensures RunsTo(config, old(consumers[i].trend), consumers[i].trend, t,
                       NewlyReached(old(graph), draw, shares, config.maxHops, t, i))
      {
        NewTopicsReached(old(graph), draw, shares, config.maxHops, i, t);
        RunRenews(config, old(consumers[i].trend), NewTopics(old(graph), draw, shares, Hops(), i), t);
      }
      forall a ensures Times(fired, a) == Count(forests, a) {
        FiringsCount(forests, a);
      }
    }

    method EnqueueAll(xs: seq<Share>)
      modifies this`queue
      ensures queue == old(queue) + xs
    {
      for n := 0 to |xs|
        invariant queue == old(queue) + xs[..n]
      {
        assert xs[..n + 1] == xs[..n] + [xs[n]];
        Enqueue(xs[n]);
      }
      assert xs[..|xs|] == xs;
    }

    /** Shares arrive, and then there is a run. */
    method RunNext(consumers: Shoppers, arriving: seq<Share>, draw: Draws) returns (ghost r: Run)
      requires Proper(consumers)
      modifies this`queue, this`graph, (set i | i in consumers :: consumers[i])`trend
      ensures r.graph == old(graph) && r.draw == draw && r.shares == Upto(old(queue) + arriving, config.maxActivations)
      ensures FiredBy(r.graph, draw, r.shares, Hops(), r.fired) && (forall a :: a in r.fired ==> Has(r.graph, a))
      ensures graph == Strengthened(config, r.graph, r.fired) && queue == []
      ensures forall i :: i in consumers ==>
                consumers[i].trend == Renewed(config, old(consumers[i].trend), NewTopics(r.graph, draw, r.shares, Hops(), i))
    {
      hide Strengthened, Renewed, Cascades, NewTopics, Upto, FiredBy;
      EnqueueAll(arriving);
      hide RunsTo, NewlyReached, EdgesStrengthened, OneArcEach, Count;
      var batches;
      ghost var shares, topics, forests, fired;
      batches, shares, topics, forests, fired := RunPropagation(consumers, draw);
      r := Run(old(graph), draw, shares, fired);
    }

    /** A series of runs, with what arrives before each of them. */
    method RunEach(consumers: Shoppers, arrivals: seq<seq<Share>>, draws: seq<Draws>) returns (ghost runs: seq<Run>)
      requires Proper(consumers) && |draws| == |arrivals|
      modifies this`queue, this`graph, (set i | i in consumers :: consumers[i])`trend
      ensures |runs| == |arrivals| && Follow(config, Hops(), old(graph), old(queue), arrivals, draws, runs)
      ensures Within(old(graph), FiredIn(runs)) && graph == Reinforced(config, old(graph), FiredIn(runs))
      ensures forall i :: i in consumers ==>
                consumers[i].trend == After(config, old(consumers[i].trend), ReachedIn(runs, Hops(), i))
    {
      hide Reinforced, Strengthened, After, Renewed, ReachedIn, FiredIn, NewTopics, Within, Upto, Follow, FiredBy;
      runs := [];
      NoRuns(config, Hops(), graph, queue, arrivals, draws);
      forall i | i in consumers ensures After(config, consumers[i].trend, ReachedIn([], Hops(), i)) == consumers[i].trend {
        NoneReached(config, consumers[i].trend, Hops(), i);
      }
      for n := 0 to |arrivals|
        invariant |runs| == n && Follow(config, Hops(), old(graph), old(queue), arrivals, draws, runs)
        invariant queue == if n == 0 then old(queue) else []
        invariant Within(old(graph), FiredIn(runs)) && graph == Reinforced(config, old(graph), FiredIn(runs))
        invariant forall i :: i in consumers ==>
                    consumers[i].trend == After(config, old(consumers[i].trend), ReachedIn(runs, Hops(), i))
      {
        ghost var r := RunNext(consumers, arrivals[n], draws[n]);
        OneRunMore(config, old(graph), runs, r);
        FollowOn(config, Hops(), old(graph), old(queue), arrivals, draws, runs, r);
        forall i | i in consumers
          ensures consumers[i].trend == After(config, old(consumers[i].trend), ReachedIn(runs + [r], Hops(), i))
        {
          OneMoreReached(config, old(consumers[i].trend), runs, r, Hops(), i);
        }
        runs := runs + [r];
      }
    }

    /**
     * The multipliers and the graph after a series of runs are those of the series, so that extinction and the
     * growth of weights hold of the object.
     */
    method RunSeries(consumers: Shoppers, arrivals: seq<seq<Share>>, draws: seq<Draws>) returns (ghost runs: seq<Run>)
      requires Proper(consumers) && |draws| == |arrivals|
      modifies this`queue, this`graph, (set i | i in consumers :: consumers[i])`trend
      ensures |runs| == |arrivals| && Follow(config, Hops(), old(graph), old(queue), arrivals, draws, runs)
      ensures Within(old(graph), FiredIn(runs)) && graph == Reinforced(config, old(graph), FiredIn(runs))
      ensures forall i :: i in consumers ==>
                && consumers[i].trend == After(config, old(consumers[i].trend), ReachedIn(runs, Hops(), i))
                && FadesOut(config, old(consumers[i].trend), consumers[i].trend, ReachedIn(runs, Hops(), i))
      ensures OnlyGrow(config, old(graph), graph)
    {
      hide Reinforced, After, ReachedIn, FiredIn, Within, Follow, FadesOut, OnlyGrow;
      runs := RunEach(consumers, arrivals, draws);
      forall i | i in consumers
        ensures FadesOut(config, old(consumers[i].trend), consumers[i].trend, ReachedIn(runs, Hops(), i))
      {
        Fading(config, old(consumers[i].trend), ReachedIn(runs, Hops(), i));
      }
      Growing(config, old(graph), FiredIn(runs));
    }
  }

  lemma Tosses(f: Field, waiting: set<int>, known: set<int>, tosses: seq<Arc>)
    requires TossedOnce(f, waiting, known, tosses)
    ensures Distinct(tosses) && forall a :: a in tosses ==> f.HasArc(a)
  {
  }

  lemma GrowEnd(g: Graph, ids: seq<int>, h: int, i: int, j: int)
    requires 0 <= i < |ids| && Grown(g, ids, h, i, j) && j > h && (j <= h + 1 || j == 1)
    ensures Grown(g, ids, h, i + 1, 1)
  {
    if h >= 0 {
      GrowNext(g, ids, h, i);
    } else {
      forall a, b ensures LinkedSoFar(ids, h, i, j, a, b) <==> LinkedSoFar(ids, h, i + 1, 1, a, b) {
      }
    }
  }
}
