/** The ring lattice: who is whose neighbour when every position links to the nearest positions on a ring. */
module Ring {
  import opened Seqs

  /** The position at a signed distance from i on a ring of n positions. */
  function Spot(n: int, i: int, d: int): (p: int)
    requires n > 0
    ensures 0 <= p < n
  {
    (i + d) % n
  }

  function Ahead(n: int, i: int, d: int): (p: int)
    requires n > 0
    ensures 0 <= p < n
  {
    Spot(n, i, d)
  }

  function Behind(n: int, i: int, d: int): (p: int)
    requires n > 0
    ensures 0 <= p < n
  {
    Spot(n, i, -d)
  }

  predicate Beside(n: int, i: int, d: int, p: int)
    requires n > 0
  {
    p == Ahead(n, i, d) || p == Behind(n, i, d)
  }

  /** Position p is one of the h positions before or after position i. */
  ghost predicate Near(n: int, h: int, i: int, p: int)
    requires n > 0
  {
    exists d :: 1 <= d <= h && Beside(n, i, d, p)
  }

  /** The loops of `_initialize_graph` add this link on behalf of position i, at distance d. */
  predicate Adds(ids: seq<int>, i: int, d: int, a: int, b: int)
    requires 0 <= i < |ids|
  {
    ids[i] == a && (b == ids[Ahead(|ids|, i, d)] || b == ids[Behind(|ids|, i, d)])
  }

  /** `k // 2` of `_initialize_graph`: how far links reach in each direction. */
  function Reach(degree: int, n: int): int {
    (if degree < n - 1 then degree else n - 1) / 2
  }

  /** The graph relation over ids that the loops build. */
  ghost predicate Linked(ids: seq<int>, h: int, a: int, b: int) {
    a != b && exists i, d :: 0 <= i < |ids| && 1 <= d <= h && Adds(ids, i, d, a, b)
  }

  lemma ModSame(n: int, x: int, y: int)
    requires n > 0 && x % n == y % n
    ensures exists q :: x - y == q * n
  {
    assert x - y == (x / n - y / n) * n;
  }

  lemma SmallMultiple(n: int, x: int, q: int)
    requires n > 0 && -n < x < n && x == q * n
    ensures x == 0
  {
    assert q >= 1 ==> q * n >= n;
    assert q <= -1 ==> q * n <= -n;
  }

  /** Positions at different distances, less than n apart, are different. */
  lemma SpotsDiffer(n: int, i: int, c: int, d: int)
    requires n > 0 && -n < c - d < n
    ensures Spot(n, i, c) == Spot(n, i, d) <==> c == d
  {
    if Spot(n, i, c) == Spot(n, i, d) {
      ModSame(n, i + c, i + d);
      var q :| (i + c) - (i + d) == q * n;
      SmallMultiple(n, c - d, q);
    }
  }

  lemma SpotBack(n: int, i: int, d: int)
    requires n > 0 && 0 <= i < n
    ensures Spot(n, Spot(n, i, d), -d) == i
  {
    var p := Spot(n, i, d);
    var q := (i + d) / n;
    assert i + d == q * n + p;
    assert p - d == i + (-q) * n;
    ModShift(n, i, -q);
  }

  lemma ModShift(n: int, i: int, q: int)
    requires n > 0 && 0 <= i < n
    ensures (i + q * n) % n == i
  {
    var x := i + q * n;
    assert x == (x / n) * n + x % n;
    assert (x / n - q) * n == i - x % n;
    SmallMultiple(n, i - x % n, x / n - q);
  }

  /** Neighbourhood is symmetric, and nobody is their own neighbour. */
  lemma NearSymmetric(n: int, h: int, i: int, p: int)
    requires n > 0 && 0 <= i < n && Near(n, h, i, p)
    ensures Near(n, h, p, i)
  {
    var d :| 1 <= d <= h && Beside(n, i, d, p);
    if p == Ahead(n, i, d) {
      SpotBack(n, i, d);
    } else {
      SpotBack(n, i, -d);
      assert Spot(n, p, d) == Spot(n, Spot(n, i, -d), -(-d));
    }
    assert Beside(n, p, d, i);
  }

  lemma NearNotSelf(n: int, h: int, i: int)
    requires n > 0 && 0 <= i < n && 2 * h < n
    ensures !Near(n, h, i, i)
  {
    forall d | 1 <= d <= h ensures !Beside(n, i, d, i) {
      ModShift(n, i, 0);
      assert Spot(n, i, 0) == i;
      SpotsDiffer(n, i, d, 0);
      SpotsDiffer(n, i, -d, 0);
    }
  }

  /** The neighbours of position i, as a set. */
  function Around(n: int, h: int, i: int): (spots: set<int>)
    requires n > 0
    ensures forall p :: p in spots ==> 0 <= p < n
  {
    (set d | 1 <= d <= h :: Ahead(n, i, d)) + (set d | 1 <= d <= h :: Behind(n, i, d))
  }

  lemma AroundGrows(n: int, h: int, i: int)
    requires n > 0 && h > 0
    ensures Around(n, h, i) == Around(n, h - 1, i) + {Ahead(n, i, h)} + {Behind(n, i, h)}
  {
    var more := Around(n, h - 1, i) + {Ahead(n, i, h)} + {Behind(n, i, h)};
    forall p | p in Around(n, h, i) ensures p in more {
      if d :| 1 <= d <= h && p == Ahead(n, i, d) {
        assert d < h ==> p in (set c | 1 <= c <= h - 1 :: Ahead(n, i, c));
      } else {
        var d :| 1 <= d <= h && p == Behind(n, i, d);
        assert d < h ==> p in (set c | 1 <= c <= h - 1 :: Behind(n, i, c));
      }
    }
  }

  lemma NewSpots(n: int, h: int, i: int)
    requires n > 0 && 1 <= h && 2 * h < n
    ensures Ahead(n, i, h) !in Around(n, h - 1, i) && Behind(n, i, h) !in Around(n, h - 1, i)
    ensures Ahead(n, i, h) != Behind(n, i, h)
  {
    hide Spot;
    forall d | 1 <= d <= h - 1
      ensures Ahead(n, i, d) != Ahead(n, i, h) && Behind(n, i, d) != Ahead(n, i, h)
      ensures Ahead(n, i, d) != Behind(n, i, h) && Behind(n, i, d) != Behind(n, i, h)
    {
      SpotsDiffer(n, i, d, h);
      SpotsDiffer(n, i, -d, h);
      SpotsDiffer(n, i, d, -h);
      SpotsDiffer(n, i, -d, -h);
    }
    SpotsDiffer(n, i, h, -h);
  }

  lemma {:induction false} AroundSize(n: int, h: int, i: int)
    requires n > 0 && 0 <= h && 2 * h < n
    ensures |Around(n, h, i)| == 2 * h
  {
    if h == 0 {
      assert Around(n, 0, i) == {};
    } else {
      hide Around, Ahead, Behind;
      AroundSize(n, h - 1, i);
      AroundGrows(n, h, i);
      NewSpots(n, h, i);
    }
  }

  lemma LinkedIsNear(ids: seq<int>, h: int, i: int, p: int)
    requires Distinct(ids) && 0 <= i < |ids| && 0 <= p < |ids| && 2 * h < |ids|
    ensures Linked(ids, h, ids[i], ids[p]) <==> Near(|ids|, h, i, p)
  {
    if Linked(ids, h, ids[i], ids[p]) {
      var i', d :| 0 <= i' < |ids| && 1 <= d <= h && Adds(ids, i', d, ids[i], ids[p]);
      assert i' == i;
      assert Beside(|ids|, i, d, p);
    }
    if Near(|ids|, h, i, p) {
      var d :| 1 <= d <= h && Beside(|ids|, i, d, p);
      NearNotSelf(|ids|, h, i);
      assert ids[i] != ids[p];
      assert Adds(ids, i, d, ids[i], ids[p]);
    }
  }

  function Image(ids: seq<int>, s: set<int>): set<int>
    requires forall x :: x in s ==> 0 <= x < |ids|
  {
    set x | x in s :: ids[x]
  }

  lemma {:induction false} ImageSize(ids: seq<int>, s: set<int>)
    requires Distinct(ids) && forall x :: x in s ==> 0 <= x < |ids|
    ensures |Image(ids, s)| == |s|
  {
    if s == {} {
      assert Image(ids, {}) == {};
    } else {
      var y := Pick(s);
      ImageSize(ids, s - {y});
      assert Image(ids, s) == Image(ids, s - {y}) + {ids[y]};
      assert ids[y] !in Image(ids, s - {y});
    }
  }

  /** The ids that are linked to the id at position i. */
  function Neighbours(ids: seq<int>, h: int, i: int): set<int>
    requires 0 <= i < |ids|
  {
    Image(ids, Around(|ids|, h, i))
  }

  lemma NeighbourSpot(ids: seq<int>, h: int, i: int, b: int) returns (p: int)
    requires Distinct(ids) && 0 <= i < |ids| && Linked(ids, h, ids[i], b)
    ensures 0 <= p < |ids| && ids[p] == b && Near(|ids|, h, i, p)
  {
    hide Ahead, Behind;
    var i', d :| 0 <= i' < |ids| && 1 <= d <= h && Adds(ids, i', d, ids[i], b);
    p := if b == ids[Ahead(|ids|, i', d)] then Ahead(|ids|, i', d) else Behind(|ids|, i', d);
    assert i' == i;
    assert Beside(|ids|, i, d, p);
  }

  lemma NearIsAround(n: int, h: int, i: int, p: int)
    requires n > 0
    ensures Near(n, h, i, p) <==> p in Around(n, h, i)
  {
    if Near(n, h, i, p) {
      var d :| 1 <= d <= h && Beside(n, i, d, p);
    }
    if p in Around(n, h, i) {
      if d :| 1 <= d <= h && p == Ahead(n, i, d) {
        assert Beside(n, i, d, p);
      } else {
        var d :| 1 <= d <= h && p == Behind(n, i, d);
        assert Beside(n, i, d, p);
      }
    }
  }

  /**
   * The ring lattice over distinct ids: linked to the id at position i are just the ids at positions
   * i - h .. i + h on the ring, except itself; they are 2 h many, and linking is symmetric.
   */
  lemma RingLattice(ids: seq<int>, degree: int, i: int, b: int)
    requires Distinct(ids) && 0 <= i < |ids| && degree >= 0
    ensures var h := Reach(degree, |ids|);
            && (Linked(ids, h, ids[i], b) <==> b in Neighbours(ids, h, i))
            && |Neighbours(ids, h, i)| == 2 * h
            && (Linked(ids, h, ids[i], b) ==> Linked(ids, h, b, ids[i]) && b != ids[i])
  {
    hide Linked, Near, Around, Beside;
    var n, h := |ids|, Reach(degree, |ids|);
    AroundSize(n, h, i);
    ImageSize(ids, Around(n, h, i));
    if Linked(ids, h, ids[i], b) {
      var p := NeighbourSpot(ids, h, i, b);
      NearIsAround(n, h, i, p);
      NearSymmetric(n, h, i, p);
      LinkedIsNear(ids, h, p, i);
      LinkedIsNear(ids, h, i, p);
      NotSelf(ids, h, b);
    }
    if b in Neighbours(ids, h, i) {
      var p :| p in Around(n, h, i) && b == ids[p];
      NearIsAround(n, h, i, p);
      LinkedIsNear(ids, h, i, p);
    }
  }

  lemma NotSelf(ids: seq<int>, h: int, a: int)
    ensures !Linked(ids, h, a, a)
  {
  }
}
