/** Routing, seen through a filter that only one or two agents can feed. Generic in the agents. */
module Routing {
  import opened Seqs
  import opened Messages
  import opened Engine

  /** What an agent emits in a turn is stamped with its id and the tick. */
  ghost predicate Stamped<S>(m: Machine<S>, w: World<S>, a: int) {
    forall x :: x in MailBlock(m, w)(a) ==> x.from == a && x.tickSent == w.tick + 1
  }

  lemma SameStampSorted(xs: seq<Message>, a: int, t: int)
    requires forall x :: x in xs ==> x.from == a && x.tickSent == t
    ensures Sorted(MailKey, xs)
  {
    forall i, j | 0 <= i < j < |xs| ensures Le(MailKey(xs[i]), MailKey(xs[j])) {
      assert xs[i] in xs && xs[j] in xs;
    }
  }

  lemma TwoStampsSorted(xs: seq<Message>, ys: seq<Message>, a: int, b: int, t: int)
    requires a < b
    requires forall x :: x in xs ==> x.from == a && x.tickSent == t
    requires forall y :: y in ys ==> y.from == b && y.tickSent == t
    ensures Sorted(MailKey, xs + ys)
  {
    var zs := xs + ys;
    forall i, j | 0 <= i < j < |zs| ensures Le(MailKey(zs[i]), MailKey(zs[j])) {
      assert if i < |xs| then zs[i] in xs else zs[i] in ys;
      assert if j < |xs| then zs[j] in xs else zs[j] in ys;
    }
  }

  lemma MailFilter<S>(m: Machine<S>, w: World<S>, p: Message -> bool)
    ensures Filter(p, Step(m, w).mail) == Sort(MailKey, Filter(p, Cat(MailBlock(m, w), SortedIds(w.agents.Keys))))
  {
    var ids := SortedIds(w.agents.Keys);
    MsgsCat(m, w, ids);
    FilterSort(MailKey, p, Cat(MailBlock(m, w), ids));
  }

  lemma MailFromOne<S>(m: Machine<S>, w: World<S>, p: Message -> bool, a: int)
    requires a in w.agents && Stamped(m, w, a)
    requires forall b :: b in w.agents && b != a ==> Filter(p, MailBlock(m, w)(b)) == []
    ensures Filter(p, Step(m, w).mail) == Filter(p, MailBlock(m, w)(a))
  {
    MailFilter(m, w, p);
    CatOne(p, MailBlock(m, w), SortedIds(w.agents.Keys), a);
    SameStampSorted(Filter(p, MailBlock(m, w)(a)), a, w.tick + 1);
    SortOfSorted(MailKey, Filter(p, MailBlock(m, w)(a)));
  }

  /** Two sources: the agent with the lower id comes first. */
  function InOrder<T>(a: int, xs: seq<T>, b: int, ys: seq<T>): seq<T> {
    if a < b then xs + ys else ys + xs
  }

  lemma MailFromTwo<S>(m: Machine<S>, w: World<S>, p: Message -> bool, a: int, b: int)
    requires a in w.agents && b in w.agents && a != b && Stamped(m, w, a) && Stamped(m, w, b)
    requires forall c :: c in w.agents && c != a && c != b ==> Filter(p, MailBlock(m, w)(c)) == []
    ensures Filter(p, Step(m, w).mail) == InOrder(a, Filter(p, MailBlock(m, w)(a)), b, Filter(p, MailBlock(m, w)(b)))
  {
    hide Filter, Sort, Cat, Step, Block, Distinct;
    MailFilter(m, w, p);
    var lo, hi := if a < b then a else b, if a < b then b else a;
    CatTwo(p, MailBlock(m, w), SortedIds(w.agents.Keys), lo, hi);
    var xs, ys := Filter(p, MailBlock(m, w)(lo)), Filter(p, MailBlock(m, w)(hi));
    TwoStampsSorted(xs, ys, lo, hi, w.tick + 1);
    SortOfSorted(MailKey, xs + ys);
  }

  lemma LogFromOne<S>(m: Machine<S>, w: World<S>, p: Event -> bool, a: int)
    requires a in w.agents
    requires forall b :: b in w.agents && b != a ==> Filter(p, Block(m, w)(b)) == []
    ensures Filter(p, Step(m, w).log) == Filter(p, w.log) + Filter(p, Block(m, w)(a))
  {
    var ids := SortedIds(w.agents.Keys);
    FilterAppend(p, w.log, Cat(Block(m, w), ids));
    CatOne(p, Block(m, w), ids, a);
  }

  lemma LogMailFromOne<S>(m: Machine<S>, w: World<S>, p: Message -> bool, a: int)
    requires a in w.agents
    requires forall b :: b in w.agents && b != a ==> Filter(p, MailBlock(m, w)(b)) == []
    ensures Filter(p, Msgs(Step(m, w).log)) == Filter(p, Msgs(w.log)) + Filter(p, MailBlock(m, w)(a))
  {
    var ids := SortedIds(w.agents.Keys);
    MsgsAppend(w.log, Cat(Block(m, w), ids));
    MsgsCat(m, w, ids);
    FilterAppend(p, Msgs(w.log), Cat(MailBlock(m, w), ids));
    CatOne(p, MailBlock(m, w), ids, a);
  }

  lemma LogMailFromNone<S>(m: Machine<S>, w: World<S>, p: Message -> bool)
    requires forall b :: b in w.agents ==> Filter(p, MailBlock(m, w)(b)) == []
    ensures Filter(p, Msgs(Step(m, w).log)) == Filter(p, Msgs(w.log))
  {
    var ids := SortedIds(w.agents.Keys);
    MsgsAppend(w.log, Cat(Block(m, w), ids));
    MsgsCat(m, w, ids);
    FilterAppend(p, Msgs(w.log), Cat(MailBlock(m, w), ids));
    CatNone(p, MailBlock(m, w), ids);
  }

  /** Results about a topic are the answers to the requests about it. */
  lemma AnswersFilter(answer: Request -> Reply, p: Reply -> bool, r: Request -> bool, reqs: seq<Request>)
    requires forall q :: p(answer(q)) == r(q)
    ensures Filter(p, Answers(answer, reqs)) == Answers(answer, Filter(r, reqs))
  {
    if reqs != [] {
      AnswersFilter(answer, p, r, reqs[1..]);
      assert Answers(answer, reqs)[1..] == Answers(answer, reqs[1..]);
      if r(reqs[0]) {
        assert ([reqs[0]] + Filter(r, reqs[1..]))[1..] == Filter(r, reqs[1..]);
      }
    }
  }

  lemma RepliesFromOne<S>(m: Machine<S>, w: World<S>, p: Reply -> bool, r: Request -> bool, a: int)
    requires a in w.agents && w.queued == []
    requires forall q :: p(m.answer(q)) == r(q)
    requires forall b :: b in w.agents && b != a ==> Filter(r, ReqBlock(m, w)(b)) == []
    ensures Filter(p, Step(m, w).replies) == Answers(m.answer, Filter(r, ReqBlock(m, w)(a)))
  {
    var ids := SortedIds(w.agents.Keys);
    MsgsCat(m, w, ids);
    assert w.queued + Cat(ReqBlock(m, w), ids) == Cat(ReqBlock(m, w), ids);
    AnswersFilter(m.answer, p, r, Cat(ReqBlock(m, w), ids));
    CatOne(r, ReqBlock(m, w), ids, a);
  }

  lemma AnswersMembers(answer: Request -> Reply, reqs: seq<Request>, x: Reply)
    requires x in Answers(answer, reqs)
    ensures exists q :: q in reqs && x == answer(q)
  {
    if x != answer(reqs[0]) {
      AnswersMembers(answer, reqs[1..], x);
    }
  }

  /** Everything routed by a step was emitted by some agent's turn. */
  lemma MailSource<S>(m: Machine<S>, w: World<S>, x: Message)
    requires x in Step(m, w).mail
    ensures exists a :: a in w.agents && x in MailBlock(m, w)(a)
  {
    var ids := SortedIds(w.agents.Keys);
    MsgsCat(m, w, ids);
    SortMembers(MailKey, Cat(MailBlock(m, w), ids));
    CatMembers(MailBlock(m, w), ids, x);
  }

  lemma {:induction false} InCat<T>(g: int -> seq<T>, ids: seq<int>, a: int, x: T)
    requires a in ids && x in g(a)
    ensures x in Cat(g, ids)
  {
    if ids[0] != a {
      InCat(g, ids[1..], a, x);
    }
  }

  /** What an agent's turn emits is in the mail of the next tick. */
  lemma MailArrives<S>(m: Machine<S>, w: World<S>, a: int, x: Message)
    requires a in w.agents && x in MailBlock(m, w)(a)
    ensures x in Step(m, w).mail
  {
    var ids := SortedIds(w.agents.Keys);
    assert a in w.agents.Keys;
    MsgsCat(m, w, ids);
    InCat(MailBlock(m, w), ids, a, x);
    SortMembers(MailKey, Cat(MailBlock(m, w), ids));
  }

  lemma ReplySource<S>(m: Machine<S>, w: World<S>, x: Reply)
    requires x in Step(m, w).replies && w.queued == []
    ensures exists a, q :: a in w.agents && q in ReqBlock(m, w)(a) && x == m.answer(q)
  {
    var ids := SortedIds(w.agents.Keys);
    MsgsCat(m, w, ids);
    assert w.queued + Cat(ReqBlock(m, w), ids) == Cat(ReqBlock(m, w), ids);
    AnswersMembers(m.answer, Cat(ReqBlock(m, w), ids), x);
    var q :| q in Cat(ReqBlock(m, w), ids) && x == m.answer(q);
    CatMembers(ReqBlock(m, w), ids, q);
  }
}
