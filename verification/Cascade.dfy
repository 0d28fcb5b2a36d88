/**
 * The bounded cascade over a graph of influence: live arcs, the balls and layers around the seeds, and
 * the forest of the arcs that activated somebody.
 */
module Cascade {
  import opened Seqs

  datatype Edge = Edge(weight: real, topicWeights: map<string, real>)
  datatype Arc = Arc(source: int, target: int)

  type Graph = map<int, map<int, Edge>>

  /** One random number for each topic and arc. */
  type Draws = (string, Arc) -> real

  /** The graph, the draws and the topic of one cascade. */
  datatype Field = Field(graph: Graph, draw: Draws, topic: string) {
    predicate HasArc(a: Arc) { a.source in graph && a.target in graph[a.source] }

    function Chance(a: Arc): real
      requires HasArc(a)
    {
      var e := graph[a.source][a.target];
      e.weight * if topic in e.topicWeights then e.topicWeights[topic] else 1.0
    }

    /** The arc activates its target whenever it is tried. */
    predicate Live(a: Arc) { HasArc(a) && draw(topic, a) < Chance(a) }

    function Heads(source: int): set<int> {
      if source !in graph then {} else set t | t in graph[source] && Live(Arc(source, t)) :: t
    }

    function Next(from: set<int>): set<int> {
      set s, t | s in from && t in Heads(s) :: t
    }

    /** The nodes within n live arcs of the seeds. */
    function Ball(seeds: set<int>, n: nat): set<int> {
      if n == 0 then seeds else Ball(seeds, n - 1) + Next(Ball(seeds, n - 1))
    }

    /** The nodes at a distance of exactly n live arcs. */
    function Layer(seeds: set<int>, n: nat): set<int> {
      if n == 0 then seeds else Ball(seeds, n) - Ball(seeds, n - 1)
    }

    ghost predicate Walk(p: seq<int>) {
      |p| > 0 && forall i :: 0 <= i < |p| - 1 ==> Live(Arc(p[i], p[i + 1]))
    }

    /** A walk over live arcs from a seed to x. */
    ghost predicate Reaches(seeds: set<int>, p: seq<int>, x: int) {
      Walk(p) && p[0] in seeds && p[|p| - 1] == x
    }
  }

  lemma NextParts(f: Field, a: set<int>, b: set<int>)
    ensures f.Next(a + b) == f.Next(a) + f.Next(b)
  {
  }

  lemma NextOne(f: Field, s: int)
    ensures f.Next({s}) == f.Heads(s)
  {
  }

  lemma {:induction false} BallGrows(f: Field, seeds: set<int>, n: nat, m: nat)
    requires n <= m
    ensures f.Ball(seeds, n) <= f.Ball(seeds, m)
  {
    if n < m {
      BallGrows(f, seeds, n, m - 1);
    }
  }

  /** Once a hop adds nobody, no later hop does. */
  lemma {:induction false} BallStops(f: Field, seeds: set<int>, n: nat, m: nat)
    requires n <= m && f.Ball(seeds, n + 1) == f.Ball(seeds, n)
    ensures f.Ball(seeds, m) == f.Ball(seeds, n)
  {
    hide Field.Next;
    if n < m {
      BallStops(f, seeds, n, m - 1);
    }
  }

  /** A hop from the outermost layer reaches all that a hop from the whole ball reaches. */
  lemma HopFromLayer(f: Field, seeds: set<int>, n: nat)
    ensures f.Ball(seeds, n + 1) == f.Ball(seeds, n) + f.Next(f.Layer(seeds, n))
  {
    if n > 0 {
      var inner := f.Ball(seeds, n - 1);
      BallGrows(f, seeds, n - 1, n);
      assert f.Ball(seeds, n) == inner + f.Layer(seeds, n);
      NextParts(f, inner, f.Layer(seeds, n));
      assert f.Next(inner) <= f.Ball(seeds, n);
    }
  }

  lemma LayerBounds(f: Field, seeds: set<int>, n: nat, x: int)
    requires x in f.Layer(seeds, n)
    ensures x in f.Ball(seeds, n) && (n > 0 ==> x !in f.Ball(seeds, n - 1))
  {
    hide Field.Next;
  }

  lemma LayerOnce(f: Field, seeds: set<int>, n: nat, m: nat, x: int)
    requires x in f.Layer(seeds, n) && x in f.Layer(seeds, m)
    ensures n == m
  {
    hide Field.Ball, Field.Layer;
    LayerBounds(f, seeds, n, x);
    LayerBounds(f, seeds, m, x);
    if n < m {
      BallGrows(f, seeds, n, m - 1);
    } else if m < n {
      BallGrows(f, seeds, m, n - 1);
    }
  }

  lemma OneArcFurther(f: Field, seeds: set<int>, q: seq<int>, s: int, x: int)
    requires f.Reaches(seeds, q, s) && x in f.Heads(s)
    ensures f.Reaches(seeds, q + [x], x)
  {
    var p := q + [x];
    forall i | 0 <= i < |p| - 1 ensures f.Live(Arc(p[i], p[i + 1])) {
      if i == |q| - 1 {
        assert Arc(p[i], p[i + 1]) == Arc(s, x);
      } else {
        assert f.Live(Arc(q[i], q[i + 1]));
      }
    }
  }

  lemma {:induction false} WalkTo(f: Field, seeds: set<int>, n: nat, x: int) returns (p: seq<int>)
    requires x in f.Ball(seeds, n)
    ensures f.Reaches(seeds, p, x) && |p| <= n + 1
  {
    hide Field.Heads, Field.Live;
    if n == 0 {
      p := [x];
    } else if x in f.Ball(seeds, n - 1) {
      p := WalkTo(f, seeds, n - 1, x);
    } else {
      var s :| s in f.Ball(seeds, n - 1) && x in f.Heads(s);
      var q := WalkTo(f, seeds, n - 1, s);
      OneArcFurther(f, seeds, q, s, x);
      p := q + [x];
    }
  }

  lemma {:induction false} WalkStays(f: Field, seeds: set<int>, p: seq<int>, x: int)
    requires f.Reaches(seeds, p, x)
    ensures x in f.Ball(seeds, |p| - 1)
  {
    if |p| > 1 {
      var q := p[..|p| - 1];
      var s := q[|q| - 1];
      forall i | 0 <= i < |q| - 1 ensures f.Live(Arc(q[i], q[i + 1])) {
        assert q[i] == p[i] && q[i + 1] == p[i + 1];
      }
      WalkStays(f, seeds, q, s);
      assert f.Live(Arc(p[|p| - 2], p[|p| - 2 + 1]));
      assert x in f.Heads(s);
    }
  }

  /** Bounded reachability: the ball of radius n holds just the ends of walks of at most n live arcs from a seed. */
  lemma BallIsReach(f: Field, seeds: set<int>, n: nat, x: int)
    ensures x in f.Ball(seeds, n) <==> exists p :: f.Reaches(seeds, p, x) && |p| <= n + 1
  {
    if x in f.Ball(seeds, n) {
      var p := WalkTo(f, seeds, n, x);
    }
    if exists p :: f.Reaches(seeds, p, x) && |p| <= n + 1 {
      var p :| f.Reaches(seeds, p, x) && |p| <= n + 1;
      WalkStays(f, seeds, p, x);
      BallGrows(f, seeds, |p| - 1, n);
    }
  }

  // -------------------------------------------------------------- the forest

  function Targets(arcs: seq<Arc>): set<int> {
    set a | a in arcs :: a.target
  }

  ghost predicate OneEach(arcs: seq<Arc>) {
    forall i, j :: 0 <= i < j < |arcs| ==> arcs[i].target != arcs[j].target
  }

  /** A live arc from some layer below n to the next layer. */
  ghost predicate Climbs(f: Field, seeds: set<int>, n: nat, a: Arc) {
    f.Live(a) && exists m: nat :: m < n && a.source in f.Layer(seeds, m) && a.target in f.Layer(seeds, m + 1)
  }

  /**
   * The arcs form a forest over the activated nodes, rooted at the seeds: every other node is the target
   * of exactly one arc, which comes from one layer further in.
   */
  ghost predicate Forest(f: Field, seeds: set<int>, n: nat, arcs: seq<Arc>, activated: set<int>) {
    && activated == seeds + Targets(arcs) && seeds !! Targets(arcs) && OneEach(arcs)
    && forall a :: a in arcs ==> a.source in activated && Climbs(f, seeds, n, a)
  }

  lemma TargetsAppend(xs: seq<Arc>, ys: seq<Arc>)
    ensures Targets(xs + ys) == Targets(xs) + Targets(ys)
  {
  }

  lemma TargetsSnoc(arcs: seq<Arc>, a: Arc)
    requires a.target !in Targets(arcs)
    ensures Targets(arcs + [a]) == Targets(arcs) + {a.target}
    ensures OneEach(arcs) ==> OneEach(arcs + [a])
  {
    TargetsAppend(arcs, [a]);
    assert Targets([a]) == {a.target};
    forall i | 0 <= i < |arcs| ensures arcs[i].target != a.target {
      assert arcs[i] in arcs;
    }
  }

  // -------------------------------------------------------------- one source expands

  /** A source has tried its neighbours outside `waiting`, skipping those activated before. */
  ghost predicate Tried(f: Field, source: int, activated: set<int>, waiting: set<int>, reached: set<int>,
                        arcs: seq<Arc>, tosses: seq<Arc>) {
    && reached == (f.Heads(source) - waiting) - activated
    && reached == Targets(arcs) && OneEach(arcs) && OneEach(tosses)
    && (forall a :: a in arcs ==> a.source == source && f.Live(a))
    && (forall a :: a in tosses ==> a.source == source && f.HasArc(a) && a.target !in activated && a.target !in waiting)
  }

  lemma TrySkipped(f: Field, source: int, activated: set<int>, waiting: set<int>, reached: set<int>,
                   arcs: seq<Arc>, tosses: seq<Arc>, t: int)
    requires Tried(f, source, activated, waiting, reached, arcs, tosses) && t in waiting && t in activated
    ensures Tried(f, source, activated, waiting - {t}, reached, arcs, tosses)
  {
  }

  lemma TryTossed(f: Field, source: int, activated: set<int>, waiting: set<int>, reached: set<int>,
                  arcs: seq<Arc>, tosses: seq<Arc>, t: int)
    requires Tried(f, source, activated, waiting, reached, arcs, tosses) && t in waiting && t !in activated
    requires f.HasArc(Arc(source, t))
    ensures t !in reached
    ensures f.Live(Arc(source, t)) ==>
              Tried(f, source, activated, waiting - {t}, reached + {t}, arcs + [Arc(source, t)], tosses + [Arc(source, t)])
    ensures !f.Live(Arc(source, t)) ==>
              Tried(f, source, activated, waiting - {t}, reached, arcs, tosses + [Arc(source, t)])
  {
    TargetsSnoc(arcs, Arc(source, t));
    assert t !in Targets(tosses);
    TargetsSnoc(tosses, Arc(source, t));
  }

  // -------------------------------------------------------------- one hop

  /** In the hop out of layer h, all sources but those in `waiting` have expanded. */
  ghost predicate Hopping(f: Field, seeds: set<int>, h: nat, waiting: set<int>, activated: set<int>, next: set<int>,
                          arcs: seq<Arc>) {
    && waiting <= f.Layer(seeds, h)
    && activated == f.Ball(seeds, h) + f.Next(f.Layer(seeds, h) - waiting)
    && next == activated - f.Ball(seeds, h)
    && Forest(f, seeds, h + 1, arcs, activated)
  }

  /** The arcs tossed for so far: none twice, and none by a source that is yet to expand. */
  ghost predicate TossedOnce(f: Field, waiting: set<int>, known: set<int>, tosses: seq<Arc>) {
    && Distinct(tosses)
    && forall a :: a in tosses ==> f.HasArc(a) && a.source in known && a.source !in waiting
  }

  lemma ForestWidens(f: Field, seeds: set<int>, n: nat, m: nat, arcs: seq<Arc>, activated: set<int>)
    requires Forest(f, seeds, n, arcs, activated) && n <= m
    ensures Forest(f, seeds, m, arcs, activated)
  {
    hide Targets, OneEach;
    forall a | a in arcs ensures Climbs(f, seeds, m, a) {
      assert Climbs(f, seeds, n, a);
    }
  }

  lemma HopBegins(f: Field, seeds: set<int>, h: nat, activated: set<int>, arcs: seq<Arc>)
    requires activated == f.Ball(seeds, h) && Forest(f, seeds, h, arcs, activated)
    ensures Hopping(f, seeds, h, f.Layer(seeds, h), activated, {}, arcs)
  {
    hide Forest;
    assert f.Next({}) == {};
    ForestWidens(f, seeds, h, h + 1, arcs, activated);
  }

  lemma HopAdds(f: Field, seeds: set<int>, h: nat)
    ensures f.Ball(seeds, h + 1) == f.Ball(seeds, h) + f.Layer(seeds, h + 1)
    ensures f.Layer(seeds, h + 1) !! f.Ball(seeds, h)
  {
    BallGrows(f, seeds, h, h + 1);
  }

  lemma HopEnds(f: Field, seeds: set<int>, h: nat, activated: set<int>, next: set<int>, arcs: seq<Arc>)
    requires Hopping(f, seeds, h, {}, activated, next, arcs)
    ensures activated == f.Ball(seeds, h + 1) && next == f.Layer(seeds, h + 1)
    ensures Forest(f, seeds, h + 1, arcs, activated)
  {
    hide Forest;
    HopFromLayer(f, seeds, h);
    assert f.Layer(seeds, h) - {} == f.Layer(seeds, h);
  }

  lemma HopReaches(f: Field, seeds: set<int>, h: nat, source: int, t: int)
    requires source in f.Ball(seeds, h) && t in f.Heads(source)
    ensures t in f.Ball(seeds, h + 1)
  {
    hide Field.Heads;
  }

  lemma LayerInBall(f: Field, seeds: set<int>, h: nat)
    ensures f.Layer(seeds, h) <= f.Ball(seeds, h)
    ensures f.Layer(seeds, h + 1) == f.Ball(seeds, h + 1) - f.Ball(seeds, h)
  {
  }

  /** New arcs from one source of layer h to nodes not yet activated. */
  lemma NewClimbs(f: Field, seeds: set<int>, h: nat, source: int, a: Arc)
    requires a.source == source && source in f.Layer(seeds, h) && f.Live(a) && a.target !in f.Ball(seeds, h)
    ensures Climbs(f, seeds, h + 1, a)
  {
    hide Field.Ball, Field.Layer, Field.Next, Field.Chance;
    assert a == Arc(source, a.target);
    assert a.target in f.Heads(source);
    LayerInBall(f, seeds, h);
    HopReaches(f, seeds, h, source, a.target);
  }

  lemma OneEachAppend(xs: seq<Arc>, ys: seq<Arc>)
    requires OneEach(xs) && OneEach(ys) && Targets(xs) !! Targets(ys)
    ensures OneEach(xs + ys)
  {
    forall i, j | 0 <= i < |xs| && 0 <= j < |ys| ensures xs[i].target != ys[j].target {
      assert xs[i] in xs && ys[j] in ys;
      assert xs[i].target in Targets(xs) && ys[j].target in Targets(ys);
    }
  }

  lemma ForestGrows(f: Field, seeds: set<int>, h: nat, source: int, activated: set<int>, arcs: seq<Arc>,
                    reached: set<int>, more: seq<Arc>)
    requires Forest(f, seeds, h + 1, arcs, activated) && source in f.Layer(seeds, h)
    requires source in activated && f.Ball(seeds, h) <= activated
    requires reached == Targets(more) && OneEach(more) && reached !! activated
    requires forall a :: a in more ==> a.source == source && f.Live(a)
    ensures Forest(f, seeds, h + 1, arcs + more, activated + reached)
  {
    hide Climbs, Targets, OneEach;
    TargetsAppend(arcs, more);
    OneEachAppend(arcs, more);
    forall a | a in more ensures Climbs(f, seeds, h + 1, a) {
      TargetIn(more, a);
      NewClimbs(f, seeds, h, source, a);
    }
  }

  lemma TargetIn(arcs: seq<Arc>, a: Arc)
    requires a in arcs
    ensures a.target in Targets(arcs)
  {
  }

  lemma HopOn(f: Field, seeds: set<int>, h: nat, waiting: set<int>, activated: set<int>, next: set<int>, arcs: seq<Arc>,
              source: int, reached: set<int>, more: seq<Arc>, tossed: seq<Arc>)
    requires Hopping(f, seeds, h, waiting, activated, next, arcs) && source in waiting
    requires Tried(f, source, activated, {}, reached, more, tossed)
    ensures Hopping(f, seeds, h, waiting - {source}, activated + reached, next + reached, arcs + more)
  {
    hide Forest, Targets, OneEach;
    var layer := f.Layer(seeds, h);
    assert layer - (waiting - {source}) == (layer - waiting) + {source};
    NextParts(f, layer - waiting, {source});
    NextOne(f, source);
    assert source in f.Ball(seeds, h);
    ForestGrows(f, seeds, h, source, activated, arcs, reached, more);
  }

  lemma TossOn(f: Field, waiting: set<int>, known: set<int>, tosses: seq<Arc>, source: int, activated: set<int>,
               reached: set<int>, more: seq<Arc>, tossed: seq<Arc>)
    requires TossedOnce(f, waiting, known, tosses) && source in waiting && source in known
    requires Tried(f, source, activated, {}, reached, more, tossed)
    ensures TossedOnce(f, waiting - {source}, known, tosses + tossed)
  {
    var all := tosses + tossed;
    forall i, j | 0 <= i < j < |all| ensures all[i] != all[j] {
      if i < |tosses| <= j {
        assert all[i] in tosses && all[j] in tossed;
      } else if |tosses| <= i {
        assert tossed[i - |tosses|].target != tossed[j - |tosses|].target;
      }
    }
  }

  lemma TossLater(f: Field, known: set<int>, tosses: seq<Arc>, waiting: set<int>, more: set<int>)
    requires TossedOnce(f, {}, known, tosses) && waiting !! known
    ensures TossedOnce(f, waiting, known + more, tosses)
  {
  }

  /** The result of a cascade of at most n hops. */
  ghost predicate Cascaded(f: Field, seeds: set<int>, n: nat, activated: set<int>, arcs: seq<Arc>, tosses: seq<Arc>) {
    && activated == f.Ball(seeds, n) && Forest(f, seeds, n, arcs, activated)
    && Distinct(tosses) && forall a :: a in tosses ==> f.HasArc(a)
  }

  /** An empty hop may end the cascade early. */
  lemma StopsEarly(f: Field, seeds: set<int>, h: nat, n: nat, activated: set<int>, arcs: seq<Arc>)
    requires activated == f.Ball(seeds, h + 1) && f.Layer(seeds, h + 1) == {} && Forest(f, seeds, h + 1, arcs, activated)
    requires h + 1 <= n
    ensures activated == f.Ball(seeds, n) && Forest(f, seeds, n, arcs, activated)
  {
    BallGrows(f, seeds, h, h + 1);
    assert f.Ball(seeds, h + 1) == f.Ball(seeds, h);
    BallStops(f, seeds, h, n);
    ForestWidens(f, seeds, h + 1, n, arcs, activated);
  }

  lemma {:induction false} CountTargets(arcs: seq<Arc>)
    requires OneEach(arcs)
    ensures |Targets(arcs)| == |arcs|
  {
    if arcs == [] {
      assert Targets(arcs) == {};
    } else {
      var a, rest := arcs[0], arcs[1..];
      assert arcs == [a] + rest;
      assert Targets([a]) == {a.target};
      TargetsAppend([a], rest);
      assert a.target !in Targets(rest) by {
        forall b | b in rest ensures b.target != a.target {
          var j :| 0 <= j < |rest| && rest[j] == b;
          assert arcs[0].target != arcs[j + 1].target;
        }
      }
      assert OneEach(rest) by {
        forall i, j | 0 <= i < j < |rest| ensures rest[i].target != rest[j].target {
          assert arcs[i + 1].target != arcs[j + 1].target;
        }
      }
      CountTargets(rest);
      assert Targets(arcs) == {a.target} + Targets(rest);
    }
  }

  /** As many arcs as newly activated nodes. */
  lemma ForestSize(f: Field, seeds: set<int>, n: nat, arcs: seq<Arc>, activated: set<int>)
    requires Forest(f, seeds, n, arcs, activated)
    ensures |arcs| == |activated - seeds|
  {
    CountTargets(arcs);
    assert activated - seeds == Targets(arcs);
  }

  /** A path of the forest's own arcs. */
  ghost predicate Branch(arcs: seq<Arc>, p: seq<int>) {
    |p| > 0 && forall i :: 0 <= i < |p| - 1 ==> Arc(p[i], p[i + 1]) in arcs
  }

  lemma ClimbsFrom(f: Field, seeds: set<int>, n: nat, a: Arc, m: nat)
    requires Climbs(f, seeds, n, a) && a.target in f.Layer(seeds, m)
    ensures 0 < m <= n && a.source in f.Layer(seeds, m - 1)
  {
    var l: nat :| l < n && a.source in f.Layer(seeds, l) && a.target in f.Layer(seeds, l + 1);
    LayerOnce(f, seeds, m, l + 1, a.target);
  }

  lemma ArcTo(f: Field, seeds: set<int>, n: nat, arcs: seq<Arc>, activated: set<int>, x: int) returns (a: Arc)
    requires Forest(f, seeds, n, arcs, activated) && x in activated && x !in seeds
    ensures a in arcs && a.target == x && a.source in activated && Climbs(f, seeds, n, a)
  {
    hide Climbs;
    a :| a in arcs && a.target == x;
  }

  lemma Parent(f: Field, seeds: set<int>, n: nat, arcs: seq<Arc>, activated: set<int>, m: nat, x: int) returns (s: int)
    requires Forest(f, seeds, n, arcs, activated) && x in activated && x in f.Layer(seeds, m) && m > 0
    ensures Arc(s, x) in arcs && s in activated && s in f.Layer(seeds, m - 1) && m <= n
  {
    hide Forest, Climbs;
    BallGrows(f, seeds, 0, m - 1);
    var a := ArcTo(f, seeds, n, arcs, activated, x);
    ClimbsFrom(f, seeds, n, a, m);
    s := a.source;
    assert a == Arc(s, x);
  }

  lemma BranchGrows(arcs: seq<Arc>, q: seq<int>, s: int, x: int)
    requires Branch(arcs, q) && q[|q| - 1] == s && Arc(s, x) in arcs
    ensures Branch(arcs, q + [x])
  {
    var p := q + [x];
    forall i | 0 <= i < |p| - 1 ensures Arc(p[i], p[i + 1]) in arcs {
      if i == |q| - 1 {
        assert Arc(p[i], p[i + 1]) == Arc(s, x);
      } else {
        assert Arc(q[i], q[i + 1]) in arcs;
      }
    }
  }

  /**
   * From every node of the forest a branch of the forest's own arcs leads back to a seed. It is as short
   * as any live walk to that node, and has at most n arcs.
   */
  lemma {:induction false} BranchTo(f: Field, seeds: set<int>, n: nat, arcs: seq<Arc>, activated: set<int>, m: nat,
          x: int)
    returns (p: seq<int>)
    requires Forest(f, seeds, n, arcs, activated) && x in activated && x in f.Layer(seeds, m)
    ensures Branch(arcs, p) && p[0] in seeds && p[|p| - 1] == x && |p| == m + 1
    ensures m <= n
    decreases m
  {
    hide Forest, Branch, Field.Ball, Field.Next, Field.Heads, Field.Live, Field.Chance;
    if m == 0 {
      p := [x];
      assert Branch(arcs, p) by { OneNode(arcs, x); }
    } else {
      var s := Parent(f, seeds, n, arcs, activated, m, x);
      var q := BranchTo(f, seeds, n, arcs, activated, m - 1, s);
      BranchGrows(arcs, q, s, x);
      p := q + [x];
    }
  }

  lemma OneNode(arcs: seq<Arc>, x: int)
    ensures Branch(arcs, [x])
  {
  }
}
