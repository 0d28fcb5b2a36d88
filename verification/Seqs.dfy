/** Sequences: filtering, stable sorting and summation, with the laws that tie them together. */
module Seqs {

  lemma Regroup<T>(a: seq<T>, b: seq<T>, c: seq<T>)
    ensures a + (b + c) == a + b + c
  {
  }

  lemma NothingAdded<T>(a: seq<T>)
    ensures a + [] == a
  {
  }

  function Filter<T>(p: T -> bool, xs: seq<T>): (ys: seq<T>)
    ensures |ys| <= |xs|
    ensures forall y :: y in ys ==> y in xs && p(y)
  {
    if xs == [] then []
    else if p(xs[0]) then [xs[0]] + Filter(p, xs[1..])
    else Filter(p, xs[1..])
  }

  lemma FilterAppend<T>(p: T -> bool, xs: seq<T>, ys: seq<T>)
    ensures Filter(p, xs + ys) == Filter(p, xs) + Filter(p, ys)
  {
    if xs == [] {
      assert xs + ys == ys;
    } else {
      assert (xs + ys)[1..] == xs[1..] + ys;
      FilterAppend(p, xs[1..], ys);
    }
  }

  lemma {:induction false} FilterSnoc<T>(p: T -> bool, xs: seq<T>, x: T)
    ensures Filter(p, xs + [x]) == Filter(p, xs) + if p(x) then [x] else []
  {
    FilterAppend(p, xs, [x]);
    assert [x][1..] == [];
  }

  lemma FilterTake<T>(p: T -> bool, xs: seq<T>, n: nat)
    requires n < |xs|
    ensures Filter(p, xs[..n + 1]) == Filter(p, xs[..n]) + if p(xs[n]) then [xs[n]] else []
  {
    assert xs[..n + 1] == xs[..n] + [xs[n]];
    FilterSnoc(p, xs[..n], xs[n]);
  }

  lemma FilterComplete<T>(p: T -> bool, xs: seq<T>, x: T)
    requires x in xs && p(x)
    ensures x in Filter(p, xs)
  {
    if xs[0] != x {
      FilterComplete(p, xs[1..], x);
    }
  }

  lemma FilterAll<T>(p: T -> bool, xs: seq<T>)
    requires forall x :: x in xs ==> p(x)
    ensures Filter(p, xs) == xs
  {
    if xs != [] {
      assert xs[0] in xs;
    }
  }

  /** Nothing survives exactly when no element satisfies the predicate. */
  lemma FilterNone<T>(p: T -> bool, xs: seq<T>)
    requires forall x :: x in xs ==> !p(x)
    ensures Filter(p, xs) == []
  {
  }

  /** A filter at least as strict as one already applied may be applied alone. */
  lemma FilterFilter<T>(p: T -> bool, q: T -> bool, xs: seq<T>)
    requires forall x :: x in xs && p(x) ==> q(x)
    ensures Filter(p, Filter(q, xs)) == Filter(p, xs)
  {
    if xs != [] {
      FilterFilter(p, q, xs[1..]);
      if q(xs[0]) {
        assert ([xs[0]] + Filter(q, xs[1..]))[1..] == Filter(q, xs[1..]);
      }
    }
  }

  lemma FilterAgree<T>(p: T -> bool, q: T -> bool, xs: seq<T>)
    requires forall x :: x in xs ==> p(x) == q(x)
    ensures Filter(p, xs) == Filter(q, xs)
  {
  }

  // ---------------------------------------------------------------- sorting

  /** Lexicographic sort key, as the tuples that the engine sorts by. */
  datatype Key = Key(major: int, minor: int)

  predicate Le(a: Key, b: Key) {
    a.major < b.major || (a.major == b.major && a.minor <= b.minor)
  }

  function Insert<T>(key: T -> Key, x: T, xs: seq<T>): seq<T> {
    if xs == [] then [x]
    else if Le(key(x), key(xs[0])) then [x] + xs
    else [xs[0]] + Insert(key, x, xs[1..])
  }

  /** The stable sort that the language's own sort performs: equal keys keep their order. */
  function Sort<T>(key: T -> Key, xs: seq<T>): seq<T> {
    if xs == [] then [] else Insert(key, xs[0], Sort(key, xs[1..]))
  }

  predicate Sorted<T>(key: T -> Key, xs: seq<T>) {
    forall i, j :: 0 <= i < j < |xs| ==> Le(key(xs[i]), key(xs[j]))
  }

  lemma InsertMembers<T>(key: T -> Key, x: T, xs: seq<T>)
    ensures multiset(Insert(key, x, xs)) == multiset(xs) + multiset{x}
  {
    if xs != [] {
      assert xs == [xs[0]] + xs[1..];
      if !Le(key(x), key(xs[0])) {
        InsertMembers(key, x, xs[1..]);
      }
    }
  }

  lemma SortMembers<T>(key: T -> Key, xs: seq<T>)
    ensures multiset(Sort(key, xs)) == multiset(xs)
    ensures forall x :: x in Sort(key, xs) <==> x in xs
  {
    if xs != [] {
      SortMembers(key, xs[1..]);
      InsertMembers(key, xs[0], Sort(key, xs[1..]));
      assert xs == [xs[0]] + xs[1..];
    }
    forall x ensures x in Sort(key, xs) <==> x in xs {
      assert x in Sort(key, xs) <==> x in multiset(Sort(key, xs));
      assert x in xs <==> x in multiset(xs);
    }
  }

  lemma InsertSorted<T>(key: T -> Key, x: T, xs: seq<T>)
    requires Sorted(key, xs)
    ensures Sorted(key, Insert(key, x, xs))
  {
    if xs != [] && !Le(key(x), key(xs[0])) {
      InsertSorted(key, x, xs[1..]);
      var rest := Insert(key, x, xs[1..]);
      InsertMembers(key, x, xs[1..]);
      forall j | 0 <= j < |rest| ensures Le(key(xs[0]), key(rest[j])) {
        assert rest[j] in multiset(rest);
        assert rest[j] == x || rest[j] in xs[1..];
      }
    }
  }

  lemma SortSorted<T>(key: T -> Key, xs: seq<T>)
    ensures Sorted(key, Sort(key, xs))
  {
    if xs != [] {
      SortSorted(key, xs[1..]);
      InsertSorted(key, xs[0], Sort(key, xs[1..]));
    }
  }

  lemma SortOfSorted<T>(key: T -> Key, xs: seq<T>)
    requires Sorted(key, xs)
    ensures Sort(key, xs) == xs
  {
    if xs != [] {
      SortOfSorted(key, xs[1..]);
      assert |xs| > 1 ==> Le(key(xs[0]), key(xs[1]));
    }
  }

  lemma FilterInsert<T>(key: T -> Key, p: T -> bool, x: T, xs: seq<T>)
    requires Sorted(key, xs)
    ensures Filter(p, Insert(key, x, xs)) == if p(x) then Insert(key, x, Filter(p, xs)) else Filter(p, xs)
  {
    if xs == [] {
    } else if Le(key(x), key(xs[0])) {
      assert ([x] + xs)[1..] == xs;
      var ys := Filter(p, xs);
      if ys != [] {
        assert ys[0] in xs;
        assert Le(key(x), key(ys[0]));
      }
    } else {
      FilterInsert(key, p, x, xs[1..]);
      assert Insert(key, x, xs)[1..] == Insert(key, x, xs[1..]);
      if p(xs[0]) {
        assert ([xs[0]] + Filter(p, xs[1..]))[1..] == Filter(p, xs[1..]);
      }
    }
  }

  /** Filtering and stable sorting commute. */
  lemma FilterSort<T>(key: T -> Key, p: T -> bool, xs: seq<T>)
    ensures Filter(p, Sort(key, xs)) == Sort(key, Filter(p, xs))
  {
    if xs != [] {
      FilterSort(key, p, xs[1..]);
      SortSorted(key, xs[1..]);
      FilterInsert(key, p, xs[0], Sort(key, xs[1..]));
      if p(xs[0]) {
        assert ([xs[0]] + Filter(p, xs[1..]))[1..] == Filter(p, xs[1..]);
      }
    }
  }

  function SameKey<T>(key: T -> Key, k: Key): T -> bool {
    x => key(x) == k
  }

  /** Two lists that agree on the elements of every single key. */
  ghost predicate AgreeByKey<T>(key: T -> Key, xs: seq<T>, ys: seq<T>) {
    forall k :: Filter(SameKey(key, k), xs) == Filter(SameKey(key, k), ys)
  }

  lemma SortedAgreeHeads<T>(key: T -> Key, xs: seq<T>, ys: seq<T>)
    requires Sorted(key, xs) && Sorted(key, ys) && AgreeByKey(key, xs, ys)
    requires xs != []
    ensures ys != [] && Le(key(ys[0]), key(xs[0]))
  {
    var k := key(xs[0]);
    FilterComplete(SameKey(key, k), xs, xs[0]);
    var ws := Filter(SameKey(key, k), ys);
    assert xs[0] in ws;
    var i :| 0 <= i < |ys| && ys[i] == xs[0];
    assert i == 0 || Le(key(ys[0]), key(ys[i]));
  }

  /** Lists already sorted are determined by their per-key sublists. */
  lemma {:induction false} SortedAgree<T>(key: T -> Key, xs: seq<T>, ys: seq<T>)
    requires Sorted(key, xs) && Sorted(key, ys) && AgreeByKey(key, xs, ys)
    ensures xs == ys
    decreases |xs| + |ys|
  {
    if xs == [] && ys == [] {
    } else {
      if xs != [] { SortedAgreeHeads(key, xs, ys); }
      if ys != [] { SortedAgreeHeads(key, ys, xs); }
      var k := key(xs[0]);
      assert key(ys[0]) == k;
      var p := SameKey(key, k);
      assert Filter(p, xs) == Filter(p, ys);
      assert Filter(p, xs)[0] == xs[0] && Filter(p, ys)[0] == ys[0];
      forall k' ensures Filter(SameKey(key, k'), xs[1..]) == Filter(SameKey(key, k'), ys[1..]) {
        var p' := SameKey(key, k');
        assert Filter(p', xs) == Filter(p', ys);
        if k' == k {
          assert Filter(p', xs)[1..] == Filter(p', xs[1..]);
          assert Filter(p', ys)[1..] == Filter(p', ys[1..]);
        }
      }
      SortedAgree(key, xs[1..], ys[1..]);
      assert xs == [xs[0]] + xs[1..] && ys == [ys[0]] + ys[1..];
    }
  }

  /** A stable sort depends only on the per-key sublists of its input. */
  lemma SortAgree<T>(key: T -> Key, xs: seq<T>, ys: seq<T>)
    requires AgreeByKey(key, xs, ys)
    ensures Sort(key, xs) == Sort(key, ys)
  {
    SortSorted(key, xs);
    SortSorted(key, ys);
    forall k ensures Filter(SameKey(key, k), Sort(key, xs)) == Filter(SameKey(key, k), Sort(key, ys)) {
      FilterSort(key, SameKey(key, k), xs);
      FilterSort(key, SameKey(key, k), ys);
      assert Filter(SameKey(key, k), xs) == Filter(SameKey(key, k), ys);
    }
    SortedAgree(key, Sort(key, xs), Sort(key, ys));
  }

  // ---------------------------------------------------------------- sums

  function Sum<T>(f: T -> int, xs: seq<T>): int {
    if xs == [] then 0 else f(xs[0]) + Sum(f, xs[1..])
  }

  lemma SumAppend<T>(f: T -> int, xs: seq<T>, ys: seq<T>)
    ensures Sum(f, xs + ys) == Sum(f, xs) + Sum(f, ys)
  {
    if xs == [] {
      assert xs + ys == ys;
    } else {
      assert (xs + ys)[1..] == xs[1..] + ys;
      SumAppend(f, xs[1..], ys);
    }
  }

  lemma SumOne<T>(f: T -> int, x: T)
    ensures Sum(f, [x]) == f(x)
  {
    assert [x][1..] == [];
  }

  lemma SumInsert<T>(f: T -> int, key: T -> Key, x: T, xs: seq<T>)
    ensures Sum(f, Insert(key, x, xs)) == f(x) + Sum(f, xs)
  {
    if xs == [] {
    } else if Le(key(x), key(xs[0])) {
      assert ([x] + xs)[1..] == xs;
    } else {
      SumInsert(f, key, x, xs[1..]);
      assert Insert(key, x, xs)[1..] == Insert(key, x, xs[1..]);
    }
  }

  /** Sorting does not change a sum. */
  lemma SumSort<T>(f: T -> int, key: T -> Key, xs: seq<T>)
    ensures Sum(f, Sort(key, xs)) == Sum(f, xs)
  {
    if xs != [] {
      SumSort(f, key, xs[1..]);
      SumInsert(f, key, xs[0], Sort(key, xs[1..]));
    }
  }

  lemma SumZero<T>(f: T -> int, xs: seq<T>)
    requires forall x :: x in xs ==> f(x) == 0
    ensures Sum(f, xs) == 0
  {
  }

  lemma SumAgree<T>(f: T -> int, g: T -> int, xs: seq<T>)
    requires forall x :: x in xs ==> f(x) == g(x)
    ensures Sum(f, xs) == Sum(g, xs)
  {
  }

  /** The members in ascending order with no repeats: `sorted(d.keys())`. */
  predicate Ascending(xs: seq<int>) {
    forall i, j :: 0 <= i < j < |xs| ==> xs[i] < xs[j]
  }

  predicate Distinct<T(==)>(xs: seq<T>) {
    forall i, j :: 0 <= i < j < |xs| ==> xs[i] != xs[j]
  }

  // ---------------------------------------------------------------- blocks

  /** The blocks of the listed members, one after the other. */
  function Cat<T>(g: int -> seq<T>, ids: seq<int>): seq<T> {
    if ids == [] then [] else g(ids[0]) + Cat(g, ids[1..])
  }

  lemma CatAppend<T>(g: int -> seq<T>, ids: seq<int>, more: seq<int>)
    ensures Cat(g, ids + more) == Cat(g, ids) + Cat(g, more)
  {
    if ids == [] {
      assert ids + more == more;
    } else {
      assert (ids + more)[1..] == ids[1..] + more;
      CatAppend(g, ids[1..], more);
    }
  }

  lemma CatMembers<T>(g: int -> seq<T>, ids: seq<int>, x: T)
    requires x in Cat(g, ids)
    ensures exists a :: a in ids && x in g(a)
  {
    var first := ids[0];
    assert first in ids;
    if x !in g(first) {
      CatMembers(g, ids[1..], x);
      var a :| a in ids[1..] && x in g(a);
      assert a in ids;
    }
  }

  lemma CatNone<T>(p: T -> bool, g: int -> seq<T>, ids: seq<int>)
    requires forall a :: a in ids ==> Filter(p, g(a)) == []
    ensures Filter(p, Cat(g, ids)) == []
  {
    if ids != [] {
      var first := ids[0];
      assert first in ids;
      FilterAppend(p, g(ids[0]), Cat(g, ids[1..]));
      CatNone(p, g, ids[1..]);
    }
  }

  /** If only one member's block holds elements of interest, the order of the blocks is irrelevant to them. */
  lemma CatOne<T>(p: T -> bool, g: int -> seq<T>, ids: seq<int>, a: int)
    requires Distinct(ids) && a in ids
    requires forall b :: b in ids && b != a ==> Filter(p, g(b)) == []
    ensures Filter(p, Cat(g, ids)) == Filter(p, g(a))
  {
    FilterAppend(p, g(ids[0]), Cat(g, ids[1..]));
    if ids[0] == a {
      CatNone(p, g, ids[1..]);
    } else {
      CatOne(p, g, ids[1..], a);
    }
  }

  /** Two members in ascending order: the lower one's elements come first. */
  lemma CatTwo<T>(p: T -> bool, g: int -> seq<T>, ids: seq<int>, a: int, b: int)
    requires Ascending(ids) && a in ids && b in ids && a < b
    requires forall c :: c in ids && c != a && c != b ==> Filter(p, g(c)) == []
    ensures Filter(p, Cat(g, ids)) == Filter(p, g(a)) + Filter(p, g(b))
  {
    FilterAppend(p, g(ids[0]), Cat(g, ids[1..]));
    if ids[0] == a {
      assert a !in ids[1..];
      CatOne(p, g, ids[1..], b);
    } else {
      assert ids[0] != b;
      CatTwo(p, g, ids[1..], a, b);
    }
  }

  function BlockSum<T>(f: T -> int, g: int -> seq<T>): int -> int {
    a => Sum(f, g(a))
  }

  lemma SumCat<T>(f: T -> int, g: int -> seq<T>, ids: seq<int>)
    ensures Sum(f, Cat(g, ids)) == Sum(BlockSum(f, g), ids)
  {
    if ids != [] {
      SumAppend(f, g(ids[0]), Cat(g, ids[1..]));
      SumCat(f, g, ids[1..]);
    }
  }

  lemma Pick<T>(s: set<T>) returns (x: T)
    requires s != {}
    ensures x in s
  {
    x :| x in s;
  }

  function Least(s: set<int>): (m: int)
    requires s != {}
    ensures m in s && forall x :: x in s ==> m <= x
  {
    LeastExists(s);
    var m :| m in s && forall x :: x in s ==> m <= x;
    m
  }

  lemma LeastExists(s: set<int>)
    requires s != {}
    ensures exists m :: m in s && forall x :: x in s ==> m <= x
  {
    var y := Pick(s);
    var rest := s - {y};
    if rest == {} {
      assert s == {y};
    } else {
      LeastExists(rest);
      var m :| m in rest && forall x :: x in rest ==> m <= x;
      var k := if m <= y then m else y;
      assert k in s;
      forall x | x in s ensures k <= x {
        assert x == y || x in rest;
      }
    }
  }

  /** `sorted(s)` */
  function SortedIds(s: set<int>): (ids: seq<int>)
    ensures Ascending(ids)
    ensures forall x :: x in ids <==> x in s
  {
    if s == {} then [] else
      var m := Least(s);
      [m] + SortedIds(s - {m})
  }

  // -------------------------------------------------------------- positions in a list

  /** A strictly increasing list of positions below n. */
  ghost predicate Rising(at: seq<nat>, n: nat) {
    && (forall i :: 0 <= i < |at| ==> at[i] < n)
    && forall i, j :: 0 <= i < j < |at| ==> at[i] < at[j]
  }

  function Shifted(at: seq<nat>): (later: seq<nat>)
    ensures |later| == |at| && forall i :: 0 <= i < |at| ==> later[i] == at[i] + 1
  {
    seq(|at|, i requires 0 <= i < |at| => at[i] + 1)
  }

  lemma ShiftedHas(at: seq<nat>, i: int)
    ensures i in Shifted(at) <==> i - 1 >= 0 && i - 1 in at
  {
    if i in Shifted(at) {
      var j :| 0 <= j < |at| && Shifted(at)[j] == i;
      assert at[j] == i - 1;
    }
    if i - 1 >= 0 && i - 1 in at {
      var j :| 0 <= j < |at| && at[j] == i - 1;
      assert Shifted(at)[j] == i;
    }
  }

  lemma Led(later: seq<nat>, n: nat)
    requires Rising(later, n) && n > 0 && forall i :: 0 <= i < |later| ==> later[i] >= 1
    ensures Rising([0] + later, n)
    ensures forall i :: i in [0] + later <==> i == 0 || i in later
  {
  }

  /** The positions of the elements that satisfy p, in their order. */
  ghost predicate KeptAt<T>(p: T -> bool, xs: seq<T>, at: seq<nat>, ys: seq<T>) {
    && Rising(at, |xs|) && |at| == |ys|
    && (forall i :: 0 <= i < |xs| ==> (i in at <==> p(xs[i])))
    && forall k :: 0 <= k < |at| ==> ys[k] == xs[at[k]]
  }

  lemma KeptLater<T>(p: T -> bool, xs: seq<T>, at: seq<nat>, ys: seq<T>)
    requires xs != [] && KeptAt(p, xs[1..], at, ys)
    ensures Rising(Shifted(at), |xs|) && 0 !in Shifted(at)
    ensures forall i :: 1 <= i < |xs| ==> (i in Shifted(at) <==> p(xs[i]))
    ensures forall k :: 0 <= k < |at| ==> ys[k] == xs[Shifted(at)[k]]
  {
    ShiftedHas(at, 0);
    forall i | 1 <= i < |xs| ensures i in Shifted(at) <==> p(xs[i]) {
      ShiftedHas(at, i);
      assert xs[i] == xs[1..][i - 1];
    }
  }

  lemma KeptFirst<T>(p: T -> bool, xs: seq<T>, at: seq<nat>, ys: seq<T>)
    requires xs != [] && p(xs[0]) && KeptAt(p, xs[1..], at, ys)
    ensures KeptAt(p, xs, [0] + Shifted(at), [xs[0]] + ys)
  {
    KeptLater(p, xs, at, ys);
    hide Rising, Shifted;
    Led(Shifted(at), |xs|);
  }

  /** The positions that a filter keeps. */
  lemma {:induction false} Kept<T>(p: T -> bool, xs: seq<T>) returns (at: seq<nat>)
    ensures KeptAt(p, xs, at, Filter(p, xs))
  {
    if xs == [] {
      at := [];
    } else {
      var rest := Kept(p, xs[1..]);
      if p(xs[0]) {
        KeptFirst(p, xs, rest, Filter(p, xs[1..]));
        at := [0] + Shifted(rest);
      } else {
        KeptLater(p, xs, rest, Filter(p, xs[1..]));
        at := Shifted(rest);
      }
    }
  }
}
