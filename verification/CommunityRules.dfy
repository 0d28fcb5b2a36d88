/**
 * What a run of the community does, spelled out on the queue, the walks, the multipliers and the edges,
 * and what the ring is, spelled out on positions.
 */
module CommunityRules {
  import opened Cascade
  import opened Trends
  import Ring

  datatype Share = Share(consumer: int, category: string, satisfaction: real)

  // -------------------------------------------------------------- who is reached

  ghost predicate Shared(shares: seq<Share>, topic: string, consumer: int) {
    exists x :: x in shares && x.category == topic && x.consumer == consumer
  }

  /** There is an edge, and the number drawn for it is below its weight times its weight for the topic, if it has one. */
  ghost predicate Conducts(g: Graph, draw: Draws, topic: string, a: int, b: int) {
    && a in g && b in g[a]
    && var e := g[a][b];
       draw(topic, Arc(a, b)) < if topic in e.topicWeights then e.weight * e.topicWeights[topic] else e.weight
  }

  ghost predicate Chain(g: Graph, draw: Draws, topic: string, p: seq<int>) {
    forall i :: 0 <= i < |p| - 1 ==> Conducts(g, draw, topic, p[i], p[i + 1])
  }

  /** A chain of at most maxHops edges leads from somebody who shared something of the topic to the consumer, who did not. */
  ghost predicate NewlyReached(g: Graph, draw: Draws, shares: seq<Share>, maxHops: int, topic: string, consumer: int) {
    && !Shared(shares, topic, consumer)
    && exists p :: 0 < |p| <= maxHops + 1 && Shared(shares, topic, p[0]) && p[|p| - 1] == consumer
                   && Chain(g, draw, topic, p)
  }

  lemma WalkConducts(f: Field, p: seq<int>)
    ensures f.Walk(p) <==> |p| > 0 && Chain(f.graph, f.draw, f.topic, p)
  {
    forall a, b ensures f.Live(Arc(a, b)) <==> Conducts(f.graph, f.draw, f.topic, a, b) {
    }
    if f.Walk(p) {
      forall i | 0 <= i < |p| - 1 ensures Conducts(f.graph, f.draw, f.topic, p[i], p[i + 1]) {
        assert f.Live(Arc(p[i], p[i + 1]));
      }
    }
    if |p| > 0 && Chain(f.graph, f.draw, f.topic, p) {
      forall i | 0 <= i < |p| - 1 ensures f.Live(Arc(p[i], p[i + 1])) {
        assert Conducts(f.graph, f.draw, f.topic, p[i], p[i + 1]);
      }
    }
  }

  lemma BallNone(f: Field, seeds: set<int>)
    ensures f.Ball(seeds, 0) == seeds
  {
  }

  /** The ball around those who shared, without them, holds those newly reached. */
  lemma BallReached(f: Field, seeds: set<int>, shares: seq<Share>, maxHops: int, i: int)
    requires forall c :: c in seeds <==> Shared(shares, f.topic, c)
    ensures i in f.Ball(seeds, if maxHops < 0 then 0 else maxHops) - seeds
       <==> NewlyReached(f.graph, f.draw, shares, maxHops, f.topic, i)
  {
    hide Field.Ball, Field.Walk, Shared, Chain;
    var n := if maxHops < 0 then 0 else maxHops;
    BallIsReach(f, seeds, n, i);
    BallNone(f, seeds);
    if maxHops >= 0 && i in f.Ball(seeds, n) - seeds {
      var p :| f.Reaches(seeds, p, i) && |p| <= n + 1;
      WalkConducts(f, p);
      assert p[0] in seeds;
    }
    if NewlyReached(f.graph, f.draw, shares, maxHops, f.topic, i) {
      var p :| 0 < |p| <= maxHops + 1 && Shared(shares, f.topic, p[0]) && p[|p| - 1] == i
               && Chain(f.graph, f.draw, f.topic, p);
      WalkConducts(f, p);
      assert f.Reaches(seeds, p, i);
    }
  }

  /** Exactly one arc of the list, over which the topic was passed on, leads to each consumer newly reached. */
  ghost predicate OneArcEach(g: Graph, draw: Draws, shares: seq<Share>, maxHops: int, topic: string, arcs: seq<Arc>) {
    && (forall a :: a in arcs ==>
          && Conducts(g, draw, topic, a.source, a.target)
          && (Shared(shares, topic, a.source) || NewlyReached(g, draw, shares, maxHops, topic, a.source)))
    && (forall n, m :: 0 <= n < m < |arcs| ==> arcs[n].target != arcs[m].target)
    && forall i :: NewlyReached(g, draw, shares, maxHops, topic, i) <==> exists a :: a in arcs && a.target == i
  }

  lemma ForestReached(f: Field, seeds: set<int>, shares: seq<Share>, maxHops: int, arcs: seq<Arc>)
    requires forall c :: c in seeds <==> Shared(shares, f.topic, c)
    requires var n := if maxHops < 0 then 0 else maxHops; Forest(f, seeds, n, arcs, f.Ball(seeds, n))
    ensures OneArcEach(f.graph, f.draw, shares, maxHops, f.topic, arcs)
  {
    hide Field.Ball, Shared, NewlyReached;
    var n := if maxHops < 0 then 0 else maxHops;
    forall i
      ensures NewlyReached(f.graph, f.draw, shares, maxHops, f.topic, i) <==> i in f.Ball(seeds, n) - seeds
    {
      BallReached(f, seeds, shares, maxHops, i);
    }
    forall a | a in arcs ensures Conducts(f.graph, f.draw, f.topic, a.source, a.target) {
      assert Climbs(f, seeds, n, a);
      assert a == Arc(a.source, a.target);
    }
  }

  // -------------------------------------------------------------- multipliers

  /**
   * One topic's multiplier after a decay: one above 1 is multiplied by the rate, and dropped unless it stays
   * above 1; any other remains as it is.
   */
  ghost predicate Fades(cfg: Config, before: Trend, after: Trend, t: string) {
    && (t in after <==> t in before && (before[t] <= 1.0 || before[t] * cfg.decay > 1.0))
    && (t in after ==> after[t] == if before[t] <= 1.0 then before[t] else before[t] * cfg.decay)
  }

  /** One topic's multiplier after its boost: the increment is added to it, or to 1, up to the maximum. */
  ghost predicate IsBoosted(cfg: Config, before: Trend, after: Trend, t: string) {
    && t in after
    && var lifted := if t in before then before[t] + cfg.boost else 1.0 + cfg.boost;
       after[t] == if lifted <= cfg.trendMax then lifted else cfg.trendMax
  }

  ghost predicate Unchanged(before: Trend, after: Trend, t: string) {
    (t in after <==> t in before) && (t in after ==> after[t] == before[t])
  }

  /** One topic's multiplier after a run: it decays, and is boosted from what is left, or from 1, if the run newly reached the consumer. */
  ghost predicate RunsTo(cfg: Config, before: Trend, after: Trend, t: string, reached: bool) {
    var left := t in before && (before[t] <= 1.0 || before[t] * cfg.decay > 1.0);
    var base := if !left then 1.0 else if before[t] <= 1.0 then before[t] else before[t] * cfg.decay;
    if reached then
      t in after && after[t] == if base + cfg.boost <= cfg.trendMax then base + cfg.boost else cfg.trendMax
    else
      (t in after <==> left) && (left ==> after[t] == base)
  }

  lemma FadesOrStays(cfg: Config, v: real)
    ensures Survives(cfg, v) <==> v <= 1.0 || v * cfg.decay > 1.0
    ensures Survives(cfg, v) ==> Faded(cfg, v) == if v <= 1.0 then v else v * cfg.decay
  {
    assert Scaled(cfg, v) == v * cfg.decay;
    hide Scaled;
  }

  lemma DecayFades(cfg: Config, trend: Trend, t: string)
    ensures Fades(cfg, trend, Decayed(cfg, trend), t)
  {
    if t in trend {
      hide Survives, Faded;
      FadesOrStays(cfg, trend[t]);
    }
  }

  lemma RaisedOrNot(cfg: Config, trend: Trend, newly: set<string>, t: string)
    ensures t in newly ==> IsBoosted(cfg, trend, Raised(cfg, trend, newly), t)
    ensures t !in newly ==> Unchanged(trend, Raised(cfg, trend, newly), t)
  {
  }

  lemma RunRenews(cfg: Config, trend: Trend, newly: set<string>, t: string)
    ensures RunsTo(cfg, trend, Renewed(cfg, trend, newly), t, t in newly)
  {
    hide Decayed, Raised;
    DecayFades(cfg, trend, t);
    RaisedOrNot(cfg, Decayed(cfg, trend), newly, t);
  }

  // -------------------------------------------------------------- edges

  /** In how many of the lists an arc stands. */
  ghost function Count(forests: seq<seq<Arc>>, a: Arc): nat {
    |set n | 0 <= n < |forests| && a in forests[n]|
  }

  lemma CountNext(forests: seq<seq<Arc>>, last: seq<Arc>, a: Arc)
    ensures Count(forests + [last], a) == Count(forests, a) + if a in last then 1 else 0
  {
    var all := forests + [last];
    var before := set n | 0 <= n < |forests| && a in forests[n];
    var after := set n | 0 <= n < |all| && a in all[n];
    assert after == before + if a in last then {|forests|} else {};
  }

  /**
   * An edge that was strengthened c times: c increments are added to its weight, and the result does not exceed
   * the maximum. A negative increment (the weight is then cut to the maximum once, if at all) is covered too.
   */
  ghost predicate Strengthens(cfg: Config, before: Edge, after: Edge, c: nat) {
    && after.topicWeights == before.topicWeights
    && after.weight ==
       if c == 0 then before.weight
       else if cfg.edgeDelta >= 0.0 then
         var w := before.weight + c as real * cfg.edgeDelta;
         if w <= cfg.maxWeight then w else cfg.maxWeight
       else
         var first := before.weight + cfg.edgeDelta;
         (if first <= cfg.maxWeight then first else cfg.maxWeight) + (c - 1) as real * cfg.edgeDelta
  }

  lemma StrengthensNone(cfg: Config, e: Edge)
    ensures Strengthens(cfg, e, e, 0)
  {
  }

  lemma OneStepMore(n: nat, d: real)
    ensures (n + 1) as real * d == n as real * d + d
    ensures d < 0.0 ==> n as real * d <= 0.0
  {
  }

  lemma StrengthensNext(cfg: Config, before: Edge, after: Edge, c: nat)
    requires Strengthens(cfg, before, after, c)
    ensures Strengthens(cfg, before, after.(weight := Stronger(cfg, after.weight)), c + 1)
  {
    OneStepMore(0, cfg.edgeDelta);
    OneStepMore(c, cfg.edgeDelta);
    if c > 0 {
      OneStepMore(c - 1, cfg.edgeDelta);
    }
  }

  /** Every edge, after a list of arcs fired: no edge comes or goes. */
  ghost predicate EdgesStrengthened(cfg: Config, g: Graph, h: Graph, fired: seq<Arc>) {
    && h.Keys == g.Keys
    && (forall a :: a in g ==> h[a].Keys == g[a].Keys)
    && forall a, b :: a in g && b in g[a] ==> Strengthens(cfg, g[a][b], h[a][b], Times(fired, Arc(a, b)))
  }

  lemma {:induction false} StrengthenedEdges(cfg: Config, g: Graph, fired: seq<Arc>)
    requires forall a :: a in fired ==> Has(g, a)
    ensures EdgesStrengthened(cfg, g, Strengthened(cfg, g, fired), fired)
  {
    hide Strengthens, Stronger;
    if fired == [] {
      forall a, b | a in g && b in g[a] ensures Strengthens(cfg, g[a][b], g[a][b], 0) {
        StrengthensNone(cfg, g[a][b]);
      }
    } else {
      var most, last := fired[..|fired| - 1], fired[|fired| - 1];
      assert last in fired;
      StrengthenedEdges(cfg, g, most);
      StrengthensNext(cfg, g[last.source][last.target], Strengthened(cfg, g, most)[last.source][last.target], Times(most, last));
    }
  }

  // -------------------------------------------------------------- the ring

  /** Position p is d positions before or after position i on a ring of n. */
  ghost predicate Apart(n: int, i: int, p: int, d: int)
    requires n > 0
  {
    (i + d) % n == p || (i - d) % n == p
  }

  /** Two different ids stand at positions on the ring that are at most half the degree, and half the others, apart. */
  ghost predicate OnRing(ids: seq<int>, degree: int, a: int, b: int) {
    a != b && exists i, p, d :: 0 <= i < |ids| && 0 <= p < |ids| && ids[i] == a && ids[p] == b
                                && 1 <= d && 2 * d <= degree && 2 * d <= |ids| - 1 && Apart(|ids|, i, p, d)
  }

  lemma LinkedOnRing(ids: seq<int>, degree: int, a: int, b: int)
    requires |ids| > 0
    ensures Ring.Linked(ids, Ring.Reach(degree, |ids|), a, b) <==> OnRing(ids, degree, a, b)
  {
    var n, h := |ids|, Ring.Reach(degree, |ids|);
    if Ring.Linked(ids, h, a, b) {
      var i, d :| 0 <= i < n && 1 <= d <= h && Ring.Adds(ids, i, d, a, b);
      var p := if b == ids[Ring.Ahead(n, i, d)] then Ring.Ahead(n, i, d) else Ring.Behind(n, i, d);
      assert Apart(n, i, p, d);
    }
    if OnRing(ids, degree, a, b) {
      var i, p, d :| 0 <= i < n && 0 <= p < n && ids[i] == a && ids[p] == b
                     && 1 <= d && 2 * d <= degree && 2 * d <= n - 1 && Apart(n, i, p, d);
      assert Ring.Adds(ids, i, d, a, b);
    }
  }
}
