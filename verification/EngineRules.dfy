/** How an inbox is put in order, and which actions are due, spelled out on the lists themselves. */
module EngineRules {
  import opened Seqs
  import opened Messages
  import opened Settings
  import opened Engine

  // -------------------------------------------------------------- inboxes

  function SentBy(a: int, tick: int): Item -> bool {
    (x: Item) => x.Msg? && x.message.from == a && x.message.tickSent == tick
  }

  function ResultOf(id: QueryId): Item -> bool {
    (x: Item) => x.Res? && x.reply.id == id
  }

  /** The first r items are results with ascending ranks, the others are messages with ascending ticks and then senders. */
  ghost predicate Ordered(rank: QueryId -> int, items: seq<Item>, r: nat) {
    && r <= |items|
    && (forall i :: 0 <= i < r ==> items[i].Res?) && (forall i :: r <= i < |items| ==> items[i].Msg?)
    && (forall i, j :: 0 <= i < j < r ==> rank(items[i].reply.id) <= rank(items[j].reply.id))
    && (forall i, j :: r <= i < j < |items| ==>
          var m, n := items[i].message, items[j].message;
          m.tickSent < n.tickSent || (m.tickSent == n.tickSent && m.from <= n.from))
  }

  /**
   * An inbox put in order: the same items, results first, with one sender's messages of one tick, and the
   * results of one query, in the order in which they stood before.
   */
  ghost predicate PutInOrder(rank: QueryId -> int, before: seq<Item>, after: seq<Item>) {
    && multiset(after) == multiset(before)
    && (exists r: nat :: Ordered(rank, after, r))
    && (forall a, t :: Filter(SentBy(a, t), after) == Filter(SentBy(a, t), before))
    && (forall id :: Filter(ResultOf(id), after) == Filter(ResultOf(id), before))
  }

  lemma CountHead<T>(xs: seq<T>, y: T)
    requires xs != []
    ensures multiset(xs)[y] == multiset(xs[1..])[y] + if xs[0] == y then 1 else 0
  {
    assert xs == [xs[0]] + xs[1..];
    assert multiset(xs) == multiset{xs[0]} + multiset(xs[1..]);
  }

  lemma {:induction false} MessageCount(items: seq<Item>, m: Message)
    ensures multiset(items)[Msg(m)] == multiset(MessagesOf(items))[m]
  {
    if items != [] {
      hide MessagesOf;
      MessageCount(items[1..], m);
      MessagesSplit(items);
      CountHead(items, Msg(m));
      if items[0].Msg? {
        CountHead(MessagesOf(items), m);
        assert MessagesOf(items)[1..] == MessagesOf(items[1..]);
      }
    } else {
      assert MessagesOf(items) == [];
    }
  }

  lemma {:induction false} ReplyCount(items: seq<Item>, x: Reply)
    ensures multiset(items)[Res(x)] == multiset(RepliesOf(items))[x]
  {
    if items != [] {
      hide RepliesOf;
      ReplyCount(items[1..], x);
      RepliesSplit(items);
      CountHead(items, Res(x));
      if items[0].Res? {
        CountHead(RepliesOf(items), x);
        assert RepliesOf(items)[1..] == RepliesOf(items[1..]);
      }
    } else {
      assert RepliesOf(items) == [];
    }
  }

  lemma MessagesSplit(items: seq<Item>)
    requires items != []
    ensures MessagesOf(items) == (if items[0].Msg? then [items[0].message] + MessagesOf(items[1..]) else MessagesOf(items[1..]))
  {
  }

  lemma RepliesSplit(items: seq<Item>)
    requires items != []
    ensures RepliesOf(items) == (if items[0].Res? then [items[0].reply] + RepliesOf(items[1..]) else RepliesOf(items[1..]))
  {
  }

  lemma SameItems(rank: QueryId -> int, items: seq<Item>)
    ensures multiset(Arrange(rank, items)) == multiset(items)
  {
    hide Arrange, Sort;
    var after := Arrange(rank, items);
    SplitArrange(rank, items);
    SortMembers(MailKey, MessagesOf(items));
    SortMembers(ReplyKey(rank), RepliesOf(items));
    forall x: Item ensures multiset(after)[x] == multiset(items)[x] {
      match x
      case Msg(m) =>
        MessageCount(after, m);
        MessageCount(items, m);
      case Res(y) =>
        ReplyCount(after, y);
        ReplyCount(items, y);
    }
  }

  lemma {:induction false} MessagesKept(p: Item -> bool, q: Message -> bool, items: seq<Item>)
    requires forall x: Item :: p(x) <==> x.Msg? && q(x.message)
    ensures Filter(p, items) == Wrap(Filter(q, MessagesOf(items)))
  {
    if items != [] {
      hide MessagesOf, Filter, Wrap;
      MessagesKept(p, q, items[1..]);
      MessagesSplit(items);
      FilterHead(p, items);
      if items[0].Msg? {
        FilterHead(q, MessagesOf(items));
        assert MessagesOf(items)[1..] == MessagesOf(items[1..]);
        WrapHead(items[0].message, Filter(q, MessagesOf(items[1..])));
      }
    }
  }

  lemma {:induction false} RepliesKept(p: Item -> bool, q: Reply -> bool, items: seq<Item>)
    requires forall x: Item :: p(x) <==> x.Res? && q(x.reply)
    ensures Filter(p, items) == WrapReplies(Filter(q, RepliesOf(items)))
  {
    if items != [] {
      hide RepliesOf, Filter, WrapReplies;
      RepliesKept(p, q, items[1..]);
      RepliesSplit(items);
      FilterHead(p, items);
      if items[0].Res? {
        FilterHead(q, RepliesOf(items));
        assert RepliesOf(items)[1..] == RepliesOf(items[1..]);
        WrapHeadReply(items[0].reply, Filter(q, RepliesOf(items[1..])));
      }
    }
  }

  lemma FilterHead<T>(p: T -> bool, xs: seq<T>)
    requires xs != []
    ensures Filter(p, xs) == if p(xs[0]) then [xs[0]] + Filter(p, xs[1..]) else Filter(p, xs[1..])
  {
  }

  lemma WrapHead(m: Message, ms: seq<Message>)
    ensures Wrap([m] + ms) == [Msg(m)] + Wrap(ms)
  {
  }

  lemma WrapHeadReply(x: Reply, xs: seq<Reply>)
    ensures WrapReplies([x] + xs) == [Res(x)] + WrapReplies(xs)
  {
  }

  lemma SortKeepsResults(rank: QueryId -> int, xs: seq<Reply>, id: QueryId)
    ensures Filter((x: Reply) => x.id == id, Sort(ReplyKey(rank), xs)) == Filter((x: Reply) => x.id == id, xs)
  {
    var p := (x: Reply) => x.id == id;
    var same := Filter(p, xs);
    FilterSort(ReplyKey(rank), p, xs);
    assert Sorted(ReplyKey(rank), same) by {
      forall i, j | 0 <= i < j < |same| ensures Le(ReplyKey(rank)(same[i]), ReplyKey(rank)(same[j])) {
        assert same[i] in same && same[j] in same;
      }
    }
    SortOfSorted(ReplyKey(rank), same);
  }

  lemma SendersOrder(rank: QueryId -> int, items: seq<Item>, a: int, t: int)
    ensures Filter(SentBy(a, t), Arrange(rank, items)) == Filter(SentBy(a, t), items)
  {
    hide Arrange, Sort;
    SplitArrange(rank, items);
    SortKeepsOrder(MessagesOf(items), a, t);
    MessagesKept(SentBy(a, t), FromAt(a, t), items);
    MessagesKept(SentBy(a, t), FromAt(a, t), Arrange(rank, items));
  }

  lemma ResultsOrder(rank: QueryId -> int, items: seq<Item>, id: QueryId)
    ensures Filter(ResultOf(id), Arrange(rank, items)) == Filter(ResultOf(id), items)
  {
    hide Arrange, Sort;
    SplitArrange(rank, items);
    SortKeepsResults(rank, RepliesOf(items), id);
    var p := (x: Reply) => x.id == id;
    RepliesKept(ResultOf(id), p, items);
    RepliesKept(ResultOf(id), p, Arrange(rank, items));
  }

  lemma ItemsOrdered(rank: QueryId -> int, items: seq<Item>)
    ensures Ordered(rank, Arrange(rank, items), |RepliesOf(items)|)
  {
    SortSorted(MailKey, MessagesOf(items));
    SortSorted(ReplyKey(rank), RepliesOf(items));
    SortMembers(ReplyKey(rank), RepliesOf(items));
    hide Sort, MessagesOf, RepliesOf;
    var xs, ms := Sort(ReplyKey(rank), RepliesOf(items)), Sort(MailKey, MessagesOf(items));
    var r := |RepliesOf(items)|;
    assert |xs| == r by { assert |multiset(xs)| == |multiset(RepliesOf(items))|; }
    var after := WrapReplies(xs) + Wrap(ms);
    forall i, j | 0 <= i < j < r ensures rank(after[i].reply.id) <= rank(after[j].reply.id) {
      assert Le(ReplyKey(rank)(xs[i]), ReplyKey(rank)(xs[j]));
    }
    forall i, j | r <= i < j < |after|
      ensures var m, n := after[i].message, after[j].message;
              m.tickSent < n.tickSent || (m.tickSent == n.tickSent && m.from <= n.from)
    {
      assert Le(MailKey(ms[i - r]), MailKey(ms[j - r]));
    }
  }

  /** Sorting the two kinds of items by their keys puts an inbox in order. */
  lemma Arranges(rank: QueryId -> int, items: seq<Item>)
    ensures PutInOrder(rank, items, Arrange(rank, items))
  {
    hide Arrange, Ordered;
    SameItems(rank, items);
    ItemsOrdered(rank, items);
    forall a, t ensures Filter(SentBy(a, t), Arrange(rank, items)) == Filter(SentBy(a, t), items) {
      SendersOrder(rank, items, a, t);
    }
    forall id ensures Filter(ResultOf(id), Arrange(rank, items)) == Filter(ResultOf(id), items) {
      ResultsOrder(rank, items, id);
    }
  }

  // -------------------------------------------------------------- schedules

  /**
   * Firing number m, from 0 on, of an action: the first is at its offset, the others follow at distances of its
   * cycle plus its offset; neither is taken to be less than 1.
   */
  ghost predicate IsFiring(timer: Timer, tick: int, m: nat) {
    tick == (if timer.offset <= 1 then 1 else timer.offset)
            + m * (if timer.cycle + timer.offset <= 1 then 1 else timer.cycle + timer.offset)
  }

  ghost predicate FiresOn(timer: Timer, tick: int) {
    exists m: nat :: IsFiring(timer, tick, m)
  }

  /** The due actions are those that fire at the tick, in their order. */
  ghost predicate AreDue(actions: seq<Action>, timers: map<Action, Timer>, tick: int, due: seq<Action>) {
    exists at: seq<nat> :: DueAt(actions, timers, tick, due, at)
  }

  ghost predicate DueAt(actions: seq<Action>, timers: map<Action, Timer>, tick: int, due: seq<Action>, at: seq<nat>) {
    && Rising(at, |actions|) && |due| == |at| && (forall k :: 0 <= k < |at| ==> due[k] == actions[at[k]])
    && forall i :: 0 <= i < |actions| ==>
         (i in at <==> actions[i] in timers && FiresOn(timers[actions[i]], tick))
  }
}
