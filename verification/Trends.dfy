/** Trend multipliers and edge weights: decay, boost, extinction, and strengthening. */
module Trends {
  import opened Cascade

  datatype Config = Config(maxHops: int, boost: real, trendMax: real, decay: real, edgeDelta: real, maxWeight: real,
                           maxActivations: int, lowWeight: real, highWeight: real, avgDegree: int)

  type Trend = map<string, real>

  function Min(a: real, b: real): real { if b < a then b else a }

  function Max(a: real, b: real): real { if b > a then b else a }

  // -------------------------------------------------------------- decay and boost

  function Scaled(cfg: Config, v: real): real { v * cfg.decay }

  predicate Survives(cfg: Config, v: real) { v <= 1.0 || Max(Scaled(cfg, v), 1.0) != 1.0 }

  function Faded(cfg: Config, v: real): real { if v > 1.0 then Max(Scaled(cfg, v), 1.0) else v }

  function Decayed(cfg: Config, trend: Trend): Trend {
    map t | t in trend && Survives(cfg, trend[t]) :: Faded(cfg, trend[t])
  }

  function Current(trend: Trend, topic: string): real { if topic in trend then trend[topic] else 1.0 }

  function Lifted(cfg: Config, v: real): real { Min(v + cfg.boost, cfg.trendMax) }

  /** The boost of the given topics, once each. */
  function Raised(cfg: Config, trend: Trend, newly: set<string>): Trend {
    map t | t in trend.Keys + newly :: if t in newly then Lifted(cfg, Current(trend, t)) else trend[t]
  }

  lemma RaisedOneMore(cfg: Config, trend: Trend, newly: set<string>, t: string)
    requires t !in newly
    ensures Raised(cfg, trend, newly + {t}) == Raised(cfg, trend, newly)[t := Lifted(cfg, Current(Raised(cfg, trend, newly), t))]
  {
  }

  lemma RaisedNone(cfg: Config, trend: Trend)
    ensures Raised(cfg, trend, {}) == trend
  {
  }

  /** One run's effect on a consumer: everything decays, then the topics that newly reached it are boosted. */
  function Renewed(cfg: Config, trend: Trend, newly: set<string>): Trend {
    Raised(cfg, Decayed(cfg, trend), newly)
  }

  predicate Sane(cfg: Config) { 0.0 < cfg.decay < 1.0 && cfg.boost > 0.0 && cfg.trendMax > 1.0 }

  /** Stored multipliers lie above 1 and do not exceed the maximum. */
  predicate InRange(cfg: Config, trend: Trend) {
    forall t :: t in trend ==> 1.0 < trend[t] <= cfg.trendMax
  }

  lemma ScaledLess(cfg: Config, v: real)
    requires Sane(cfg) && v > 1.0
    ensures Scaled(cfg, v) < v
  {
  }

  lemma FadedPoint(cfg: Config, v: real)
    requires Sane(cfg) && v > 1.0
    ensures Survives(cfg, v) <==> Scaled(cfg, v) > 1.0
    ensures Survives(cfg, v) ==> Faded(cfg, v) == Scaled(cfg, v) && 1.0 < Faded(cfg, v) < v
  {
    hide Scaled;
    ScaledLess(cfg, v);
  }

  lemma LiftedPoint(cfg: Config, v: real)
    requires Sane(cfg) && 1.0 <= v
    ensures 1.0 < Lifted(cfg, v) <= cfg.trendMax
  {
  }

  lemma DecayedPoint(cfg: Config, trend: Trend, t: string)
    requires Sane(cfg) && InRange(cfg, trend) && t in Decayed(cfg, trend)
    ensures 1.0 < Scaled(cfg, trend[t]) < trend[t] <= cfg.trendMax && Decayed(cfg, trend)[t] == Scaled(cfg, trend[t])
  {
    hide Scaled, Survives, Faded;
    FadedPoint(cfg, trend[t]);
  }

  /** The range of stored multipliers is kept by every run, and none grows without a boost. */
  lemma RangeKept(cfg: Config, trend: Trend, newly: set<string>)
    requires Sane(cfg) && InRange(cfg, trend)
    ensures InRange(cfg, Renewed(cfg, trend, newly))
    ensures forall t :: t in Renewed(cfg, trend, newly) && t !in newly ==>
              t in trend && Renewed(cfg, trend, newly)[t] == Scaled(cfg, trend[t]) && 1.0 < Scaled(cfg, trend[t]) < trend[t]
  {
    hide Scaled, Survives, Faded, Lifted;
    forall t | t in Renewed(cfg, trend, newly)
      ensures 1.0 < Renewed(cfg, trend, newly)[t] <= cfg.trendMax
      ensures t !in newly ==> t in trend && Renewed(cfg, trend, newly)[t] == Scaled(cfg, trend[t])
                              && 1.0 < Scaled(cfg, trend[t]) < trend[t]
    {
      if t in Decayed(cfg, trend) { DecayedPoint(cfg, trend, t); }
      if t in newly { LiftedPoint(cfg, Current(Decayed(cfg, trend), t)); }
    }
  }

  /** A consumer's multipliers after a series of runs, each given by the topics that newly reached the consumer. */
  function After(cfg: Config, trend: Trend, runs: seq<set<string>>): Trend {
    if runs == [] then trend else Renewed(cfg, After(cfg, trend, runs[..|runs| - 1]), runs[|runs| - 1])
  }

  /** None of the runs brings the topic to the consumer. */
  predicate Misses(runs: seq<set<string>>, t: string) {
    forall i :: 0 <= i < |runs| ==> t !in runs[i]
  }

  /** The ratio (1 - d) / d. */
  function Rate(cfg: Config): real
    requires cfg.decay != 0.0
  {
    (1.0 - cfg.decay) / cfg.decay
  }

  lemma Positive(a: real, d: real)
    requires a * d > 0.0 && d > 0.0
    ensures a > 0.0
  {
  }

  lemma OneRunLoses(cfg: Config, v: real)
    requires Sane(cfg) && Scaled(cfg, v) > 1.0
    ensures v > Scaled(cfg, v) + Rate(cfg)
  {
    var d := cfg.decay;
    var q := 1.0 / d;
    assert q * d == 1.0;
    assert (v - q) * d == Scaled(cfg, v) - 1.0;
    Positive(v - q, d);
    var r := 1.0 - d;
    assert (v - q) * r > 0.0;
    assert v * r - q * r == (v - q) * r;
    assert q * r == Rate(cfg) by { Quotient(d); }
    assert v * r == v - Scaled(cfg, v);
  }

  lemma Quotient(d: real)
    requires d != 0.0
    ensures (1.0 / d) * (1.0 - d) == (1.0 - d) / d
  {
  }

  lemma NextMultiple(n: nat, r: real)
    requires n > 0
    ensures n as real * r == (n - 1) as real * r + r
  {
    assert n as real == (n - 1) as real + 1.0;
  }

  /** Each run without a boost of the topic costs a surviving multiplier more than (1 - d) / d. */
  lemma {:induction false} SurvivorLoses(cfg: Config, trend: Trend, runs: seq<set<string>>, t: string)
    requires Sane(cfg) && InRange(cfg, trend) && Misses(runs, t) && t in After(cfg, trend, runs)
    ensures t in trend && trend[t] >= After(cfg, trend, runs)[t] + |runs| as real * Rate(cfg)
  {
    hide Rate, Renewed, Scaled;
    var n := |runs|;
    if n > 0 {
      var before := After(cfg, trend, runs[..n - 1]);
      AlwaysInRange(cfg, trend, runs[..n - 1]);
      RangeKept(cfg, before, runs[n - 1]);
      SurvivorLoses(cfg, trend, runs[..n - 1], t);
      OneRunLoses(cfg, before[t]);
      NextMultiple(n, Rate(cfg));
    } else {
      assert 0 as real * Rate(cfg) == 0.0;
    }
  }

  /** Whatever the runs boost, stored multipliers stay in their range. */
  lemma {:induction false} AlwaysInRange(cfg: Config, trend: Trend, runs: seq<set<string>>)
    requires Sane(cfg) && InRange(cfg, trend)
    ensures InRange(cfg, After(cfg, trend, runs))
  {
    if runs != [] {
      AlwaysInRange(cfg, trend, runs[..|runs| - 1]);
      RangeKept(cfg, After(cfg, trend, runs[..|runs| - 1]), runs[|runs| - 1]);
    }
  }

  /**
   * Extinction: after (max - 1) d / (1 - d) runs that do not boost a topic its multiplier is gone, whatever
   * happens to the other topics meanwhile.
   */
  lemma Extinction(cfg: Config, trend: Trend, runs: seq<set<string>>, t: string)
    requires Sane(cfg) && InRange(cfg, trend) && Misses(runs, t)
    requires |runs| as real * (1.0 - cfg.decay) >= (cfg.trendMax - 1.0) * cfg.decay
    ensures t !in After(cfg, trend, runs)
  {
    hide Rate, After;
    if t in After(cfg, trend, runs) {
      AlwaysInRange(cfg, trend, runs);
      assert After(cfg, trend, runs)[t] > 1.0;
      SurvivorLoses(cfg, trend, runs, t);
      TooMuch(cfg, |runs|, trend[t]);
      assert false;
    }
  }

  lemma TooMuch(cfg: Config, n: nat, v: real)
    requires Sane(cfg) && v <= cfg.trendMax
    requires n as real * (1.0 - cfg.decay) >= (cfg.trendMax - 1.0) * cfg.decay
    ensures v <= 1.0 + n as real * Rate(cfg)
  {
    var r := n as real * Rate(cfg);
    assert r * cfg.decay == n as real * (1.0 - cfg.decay);
    assert (v - 1.0) * cfg.decay <= r * cfg.decay;
  }

  const DEFAULTS := Config(3, 0.3, 3.0, 0.98, 0.01, 0.5, 10000, 0.01, 0.5, 6)

  /** With the default settings 98 runs without a boost are enough. */
  lemma DefaultExtinction(trend: Trend, runs: seq<set<string>>, t: string)
    requires InRange(DEFAULTS, trend) && Misses(runs, t) && |runs| >= 98
    ensures t !in After(DEFAULTS, trend, runs)
  {
    Extinction(DEFAULTS, trend, runs, t);
  }

  // -------------------------------------------------------------- edge weights

  datatype Update = Update(source: int, target: int, weight: real)

  predicate Has(g: Graph, a: Arc) { a.source in g && a.target in g[a.source] }

  function Weight(g: Graph, a: Arc): real
    requires Has(g, a)
  {
    g[a.source][a.target].weight
  }

  function SetWeight(g: Graph, a: Arc, w: real): Graph
    requires Has(g, a)
  {
    g[a.source := g[a.source][a.target := g[a.source][a.target].(weight := w)]]
  }

  /** The weight of an arc that has fired once more. */
  function Stronger(cfg: Config, w: real): real { Min(w + cfg.edgeDelta, cfg.maxWeight) }

  /** The graph after the listed arcs have fired, one by one. */
  function Strengthened(cfg: Config, g: Graph, arcs: seq<Arc>): Graph
    requires forall a :: a in arcs ==> Has(g, a)
  {
    if arcs == [] then g else
      var before := Strengthened(cfg, g, arcs[..|arcs| - 1]);
      var a := arcs[|arcs| - 1];
      if Has(before, a) then SetWeight(before, a, Stronger(cfg, Weight(before, a))) else before
  }

  /** The graph after a batch of weight updates, applied in order; updates of unknown edges have no effect. */
  function Replay(g: Graph, updates: seq<Update>): Graph {
    if updates == [] then g else
      var before := Replay(g, updates[..|updates| - 1]);
      var u := updates[|updates| - 1];
      if Has(before, Arc(u.source, u.target)) then SetWeight(before, Arc(u.source, u.target), u.weight) else before
  }

  lemma ReplaySnoc(g: Graph, updates: seq<Update>, u: Update)
    ensures Replay(g, updates + [u])
         == if Has(Replay(g, updates), Arc(u.source, u.target))
            then SetWeight(Replay(g, updates), Arc(u.source, u.target), u.weight) else Replay(g, updates)
  {
    assert (updates + [u])[..|updates|] == updates;
  }

  predicate SameArcs(g: Graph, h: Graph) {
    g.Keys == h.Keys && forall s :: s in g ==> g[s].Keys == h[s].Keys
  }

  function Times(arcs: seq<Arc>, a: Arc): nat {
    if arcs == [] then 0 else Times(arcs[..|arcs| - 1], a) + if arcs[|arcs| - 1] == a then 1 else 0
  }

  function Steps(cfg: Config, c: nat): real { c as real * cfg.edgeDelta }

  /** The closed form of c successive strengthenings. */
  function Boosted(cfg: Config, w: real, c: nat): real {
    if c == 0 then w else Min(w + Steps(cfg, c), cfg.maxWeight)
  }

  lemma OnceMore(cfg: Config, w: real, c: nat)
    requires cfg.edgeDelta >= 0.0
    ensures Stronger(cfg, Boosted(cfg, w, c)) == Boosted(cfg, w, c + 1)
  {
    NextMultiple(c + 1, cfg.edgeDelta);
    if c > 0 {
      assert w + (c + 1) as real * cfg.edgeDelta == w + c as real * cfg.edgeDelta + cfg.edgeDelta;
    } else {
      assert 0 as real * cfg.edgeDelta == 0.0;
    }
  }

  lemma {:induction false} StrengthenedWeights(cfg: Config, g: Graph, arcs: seq<Arc>)
    requires (forall a :: a in arcs ==> Has(g, a)) && cfg.edgeDelta >= 0.0
    ensures SameArcs(g, Strengthened(cfg, g, arcs))
    ensures forall a :: Has(g, a) ==> Weight(Strengthened(cfg, g, arcs), a) == Boosted(cfg, Weight(g, a), Times(arcs, a))
  {
    hide Stronger, Boosted;
    if arcs == [] {
      forall a | Has(g, a) ensures Boosted(cfg, Weight(g, a), 0) == Weight(g, a) {
        NotBoosted(cfg, Weight(g, a));
      }
    } else {
      var most := arcs[..|arcs| - 1];
      StrengthenedWeights(cfg, g, most);
      var last := arcs[|arcs| - 1];
      OnceMore(cfg, Weight(g, last), Times(most, last));
    }
  }

  lemma NotBoosted(cfg: Config, w: real)
    ensures Boosted(cfg, w, 0) == w
  {
  }

  /** In one run, weights within the maximum do not decrease and stay within it; only a weight beyond it is cut, when it fires. */
  lemma WeightsInRun(cfg: Config, g: Graph, arcs: seq<Arc>, a: Arc)
    requires (forall b :: b in arcs ==> Has(g, b)) && cfg.edgeDelta >= 0.0 && Has(g, a)
    ensures Has(Strengthened(cfg, g, arcs), a)
    ensures var w, w1 := Weight(g, a), Weight(Strengthened(cfg, g, arcs), a);
            && (w <= cfg.maxWeight ==>
                  w <= w1 <= cfg.maxWeight && w1 == Min(w + Steps(cfg, Times(arcs, a)), cfg.maxWeight))
            && (w1 < w <==> w > cfg.maxWeight && Times(arcs, a) > 0)
  {
    hide Boosted, Min, Steps;
    StrengthenedWeights(cfg, g, arcs);
    BoostedPoint(cfg, Weight(g, a), Times(arcs, a));
  }

  lemma BoostedPoint(cfg: Config, w: real, c: nat)
    requires cfg.edgeDelta >= 0.0
    ensures w <= cfg.maxWeight ==> w <= Boosted(cfg, w, c) <= cfg.maxWeight
    ensures w <= cfg.maxWeight ==> Boosted(cfg, w, c) == Min(w + Steps(cfg, c), cfg.maxWeight)
    ensures Boosted(cfg, w, c) < w <==> w > cfg.maxWeight && c > 0
  {
    assert c as real * cfg.edgeDelta >= 0.0;
    if c == 0 {
      assert c as real * cfg.edgeDelta == 0.0;
    }
  }

  // -------------------------------------------------------------- edge weights over a series of runs

  lemma {:induction false} StrengthenedArcs(cfg: Config, g: Graph, arcs: seq<Arc>)
    requires forall a :: a in arcs ==> Has(g, a)
    ensures SameArcs(g, Strengthened(cfg, g, arcs))
  {
    if arcs != [] {
      StrengthenedArcs(cfg, g, arcs[..|arcs| - 1]);
    }
  }

  /** All arcs that fire in the runs are arcs of the graph. */
  predicate Within(g: Graph, runs: seq<seq<Arc>>) {
    forall i :: 0 <= i < |runs| ==> forall a :: a in runs[i] ==> Has(g, a)
  }

  /** The graph after a series of runs, each given by the arcs that fired in it. */
  function Reinforced(cfg: Config, g: Graph, runs: seq<seq<Arc>>): (h: Graph)
    requires Within(g, runs)
    ensures SameArcs(g, h)
  {
    if runs == [] then g else
      var before := Reinforced(cfg, g, runs[..|runs| - 1]);
      var fired := runs[|runs| - 1];
      assert forall a :: a in fired ==> Has(before, a);
      StrengthenedArcs(cfg, before, fired);
      Strengthened(cfg, before, fired)
  }

  /** How often an arc fires in a series of runs. */
  function TimesInAll(runs: seq<seq<Arc>>, a: Arc): nat {
    if runs == [] then 0 else TimesInAll(runs[..|runs| - 1], a) + Times(runs[|runs| - 1], a)
  }

  lemma BoostedTwice(cfg: Config, w: real, c: nat, d: nat)
    requires cfg.edgeDelta >= 0.0
    ensures Boosted(cfg, Boosted(cfg, w, c), d) == Boosted(cfg, w, c + d)
  {
    assert c as real * cfg.edgeDelta >= 0.0 && d as real * cfg.edgeDelta >= 0.0;
    assert (c + d) as real == c as real + d as real;
    assert (c + d) as real * cfg.edgeDelta == c as real * cfg.edgeDelta + d as real * cfg.edgeDelta;
  }

  /** After any number of runs an edge has the weight that the number of its firings says. */
  lemma {:induction false} ReinforcedWeight(cfg: Config, g: Graph, runs: seq<seq<Arc>>, a: Arc)
    requires Within(g, runs) && cfg.edgeDelta >= 0.0 && Has(g, a)
    ensures Weight(Reinforced(cfg, g, runs), a) == Boosted(cfg, Weight(g, a), TimesInAll(runs, a))
  {
    hide Boosted, Strengthened;
    if runs == [] {
      NotBoosted(cfg, Weight(g, a));
    } else {
      var n := |runs| - 1;
      var before := Reinforced(cfg, g, runs[..n]);
      ReinforcedWeight(cfg, g, runs[..n], a);
      assert forall b :: b in runs[n] ==> Has(before, b);
      StrengthenedWeights(cfg, before, runs[n]);
      BoostedTwice(cfg, Weight(g, a), TimesInAll(runs[..n], a), Times(runs[n], a));
    }
  }

  lemma {:induction false} TimesGrow(runs: seq<seq<Arc>>, n: nat, a: Arc)
    requires n <= |runs|
    ensures TimesInAll(runs[..n], a) <= TimesInAll(runs, a)
  {
    if n < |runs| {
      assert runs[..|runs| - 1][..n] == runs[..n];
      TimesGrow(runs[..|runs| - 1], n, a);
    } else {
      assert runs[..n] == runs;
    }
  }

  lemma BoostedMonotone(cfg: Config, w: real, c: nat, d: nat)
    requires cfg.edgeDelta >= 0.0 && w <= cfg.maxWeight && c <= d
    ensures w <= Boosted(cfg, w, c) <= Boosted(cfg, w, d) <= cfg.maxWeight
  {
    hide Boosted;
    BoostedTwice(cfg, w, c, d - c);
    BoostedPoint(cfg, w, c);
    BoostedPoint(cfg, Boosted(cfg, w, c), d - c);
  }

  /**
   * Over any series of runs a weight that starts within the maximum never decreases and never exceeds it;
   * after the first n runs and after all of them it is what the number of firings says.
   */
  lemma WeightsGrow(cfg: Config, g: Graph, runs: seq<seq<Arc>>, n: nat, a: Arc)
    requires Within(g, runs) && cfg.edgeDelta >= 0.0 && Has(g, a) && n <= |runs| && Weight(g, a) <= cfg.maxWeight
    ensures var w, w1, w2 := Weight(g, a), Weight(Reinforced(cfg, g, runs[..n]), a), Weight(Reinforced(cfg, g, runs), a);
            && w <= w1 <= w2 <= cfg.maxWeight
            && w2 == Min(w + Steps(cfg, TimesInAll(runs, a)), cfg.maxWeight)
  {
    hide Boosted, Min, Steps, Strengthened, Reinforced, TimesInAll, Weight, Has;
    var most := runs[..n];
    assert Within(g, most);
    ReinforcedWeight(cfg, g, most, a);
    ReinforcedWeight(cfg, g, runs, a);
    TimesGrow(runs, n, a);
    BoostedMonotone(cfg, Weight(g, a), TimesInAll(runs[..n], a), TimesInAll(runs, a));
    BoostedPoint(cfg, Weight(g, a), TimesInAll(runs, a));
  }
}
