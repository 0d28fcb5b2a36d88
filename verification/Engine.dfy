/**
 * The synchronous round of the tick engine: sort inboxes, step every agent, route what they emitted.
 * Generic in the agent state S; an agent is a function of its id, its state, its inbox and the tick.
 */
module Engine {
  import opened Seqs
  import opened Messages

  type Behaviour<!S> = (int, S, seq<Item>, int) -> (S, seq<Event>)

  /** Everything between two ticks. `mail` and `replies` are what the last tick routed. */
  datatype World<S> = World(tick: nat, agents: map<int, S>, mail: seq<Message>, replies: seq<Reply>,
                            queued: seq<Request>, log: seq<Event>)

  /** What is fixed for a run: the agents' code, the query handler, and the order of query ids as text. */
  datatype Machine<!S> = Machine(behave: Behaviour<S>, answer: Request -> Reply, rank: QueryId -> int)

  // -------------------------------------------------------------- inboxes

  function MailKey(m: Message): Key { Key(m.tickSent, m.from) }

  function ReplyKey(rank: QueryId -> int): Reply -> Key {
    (x: Reply) => Key(rank(x.id), 0)
  }

  function ToAgent(a: int): Message -> bool { (m: Message) => m.to == a }

  function ForAgent(a: int): Reply -> bool { (x: Reply) => x.agent == a }

  function Wrap(ms: seq<Message>): seq<Item> {
    seq(|ms|, i requires 0 <= i < |ms| => Msg(ms[i]))
  }

  function WrapReplies(xs: seq<Reply>): seq<Item> {
    seq(|xs|, i requires 0 <= i < |xs| => Res(xs[i]))
  }

  function MessageIn(item: Item): seq<Message> { if item.Msg? then [item.message] else [] }

  function ReplyIn(item: Item): seq<Reply> { if item.Res? then [item.reply] else [] }

  function MessagesOf(items: seq<Item>): seq<Message> {
    if items == [] then [] else MessageIn(items[0]) + MessagesOf(items[1..])
  }

  function RepliesOf(items: seq<Item>): seq<Reply> {
    if items == [] then [] else ReplyIn(items[0]) + RepliesOf(items[1..])
  }

  lemma {:induction false} MessagesAppend(xs: seq<Item>, ys: seq<Item>)
    ensures MessagesOf(xs + ys) == MessagesOf(xs) + MessagesOf(ys)
  {
    hide MessageIn;
    if xs == [] {
      assert xs + ys == ys;
    } else {
      assert (xs + ys)[0] == xs[0] && (xs + ys)[1..] == xs[1..] + ys;
      MessagesAppend(xs[1..], ys);
    }
  }

  lemma {:induction false} RepliesAppend(xs: seq<Item>, ys: seq<Item>)
    ensures RepliesOf(xs + ys) == RepliesOf(xs) + RepliesOf(ys)
  {
    hide ReplyIn;
    if xs == [] {
      assert xs + ys == ys;
    } else {
      assert (xs + ys)[0] == xs[0] && (xs + ys)[1..] == xs[1..] + ys;
      RepliesAppend(xs[1..], ys);
    }
  }

  lemma SplitAppend(xs: seq<Item>, ys: seq<Item>)
    ensures MessagesOf(xs + ys) == MessagesOf(xs) + MessagesOf(ys)
    ensures RepliesOf(xs + ys) == RepliesOf(xs) + RepliesOf(ys)
  {
    MessagesAppend(xs, ys);
    RepliesAppend(xs, ys);
  }

  lemma SplitWrap(ms: seq<Message>)
    ensures MessagesOf(Wrap(ms)) == ms && RepliesOf(Wrap(ms)) == []
  {
    if ms != [] {
      assert Wrap(ms)[1..] == Wrap(ms[1..]);
      SplitWrap(ms[1..]);
    }
  }

  lemma SplitWrapReplies(xs: seq<Reply>)
    ensures RepliesOf(WrapReplies(xs)) == xs && MessagesOf(WrapReplies(xs)) == []
  {
    if xs != [] {
      assert WrapReplies(xs)[1..] == WrapReplies(xs[1..]);
      SplitWrapReplies(xs[1..]);
    }
  }

  /** The inbox of agent a as the last tick left it: messages first, then query results. */
  function Inbox<S>(w: World<S>, a: int): seq<Item> {
    Wrap(Filter(ToAgent(a), w.mail)) + WrapReplies(Filter(ForAgent(a), w.replies))
  }

  /** Query results by id, then messages by (tick sent, sender). */
  function Arrange(rank: QueryId -> int, items: seq<Item>): seq<Item> {
    WrapReplies(Sort(ReplyKey(rank), RepliesOf(items))) + Wrap(Sort(MailKey, MessagesOf(items)))
  }

  function Prepared<S>(m: Machine<S>, w: World<S>, a: int): seq<Item> {
    Arrange(m.rank, Inbox(w, a))
  }

  lemma SplitInbox<S>(w: World<S>, a: int)
    ensures MessagesOf(Inbox(w, a)) == Filter(ToAgent(a), w.mail)
    ensures RepliesOf(Inbox(w, a)) == Filter(ForAgent(a), w.replies)
  {
    var ms, xs := Filter(ToAgent(a), w.mail), Filter(ForAgent(a), w.replies);
    SplitAppend(Wrap(ms), WrapReplies(xs));
    SplitWrap(ms);
    SplitWrapReplies(xs);
  }

  lemma SplitArrange(rank: QueryId -> int, items: seq<Item>)
    ensures MessagesOf(Arrange(rank, items)) == Sort(MailKey, MessagesOf(items))
    ensures RepliesOf(Arrange(rank, items)) == Sort(ReplyKey(rank), RepliesOf(items))
  {
    var ms, xs := Sort(MailKey, MessagesOf(items)), Sort(ReplyKey(rank), RepliesOf(items));
    SplitAppend(WrapReplies(xs), Wrap(ms));
    SplitWrap(ms);
    SplitWrapReplies(xs);
  }

  /** The engine sorts before the step and the agent sorts again while draining: the second sort is idle. */
  lemma ArrangeTwice(rank: QueryId -> int, items: seq<Item>)
    ensures Arrange(rank, Arrange(rank, items)) == Arrange(rank, items)
  {
    SplitArrange(rank, items);
    SortSorted(MailKey, MessagesOf(items));
    SortOfSorted(MailKey, Sort(MailKey, MessagesOf(items)));
    SortSorted(ReplyKey(rank), RepliesOf(items));
    SortOfSorted(ReplyKey(rank), Sort(ReplyKey(rank), RepliesOf(items)));
  }

  // -------------------------------------------------------------- one tick

  /** What agent a does at the next tick: a function of its own state and inbox alone. */
  function Turn<S>(m: Machine<S>, w: World<S>, a: int): (S, seq<Event>)
    requires a in w.agents
  {
    m.behave(a, w.agents[a], Prepared(m, w, a), w.tick + 1)
  }

  function Block<S>(m: Machine<S>, w: World<S>): int -> seq<Event> {
    a => if a in w.agents then Turn(m, w, a).1 else []
  }

  function MailBlock<S>(m: Machine<S>, w: World<S>): int -> seq<Message> {
    a => Msgs(Block(m, w)(a))
  }

  function ReqBlock<S>(m: Machine<S>, w: World<S>): int -> seq<Request> {
    a => Reqs(Block(m, w)(a))
  }

  function Answers(answer: Request -> Reply, reqs: seq<Request>): seq<Reply> {
    if reqs == [] then [] else [answer(reqs[0])] + Answers(answer, reqs[1..])
  }

  lemma AnswersAppend(answer: Request -> Reply, xs: seq<Request>, ys: seq<Request>)
    ensures Answers(answer, xs + ys) == Answers(answer, xs) + Answers(answer, ys)
  {
    if xs == [] {
      assert xs + ys == ys;
    } else {
      assert (xs + ys)[1..] == xs[1..] + ys;
      AnswersAppend(answer, xs[1..], ys);
    }
  }

  /** One tick, stepping the agents in the given order. */
  function StepIn<S>(m: Machine<S>, w: World<S>, order: seq<int>): World<S> {
    var events := Cat(Block(m, w), order);
    World(w.tick + 1,
          map a | a in w.agents :: Turn(m, w, a).0,
          Sort(MailKey, Msgs(events)),
          Answers(m.answer, w.queued + Reqs(events)),
          [],
          w.log + events)
  }

  /** One tick as the engine runs it: agents in ascending order of their ids. */
  function Step<S>(m: Machine<S>, w: World<S>): World<S> {
    StepIn(m, w, SortedIds(w.agents.Keys))
  }

  lemma MsgsCat<S>(m: Machine<S>, w: World<S>, order: seq<int>)
    ensures Msgs(Cat(Block(m, w), order)) == Cat(MailBlock(m, w), order)
    ensures Reqs(Cat(Block(m, w), order)) == Cat(ReqBlock(m, w), order)
  {
    if order != [] {
      MsgsAppend(Block(m, w)(order[0]), Cat(Block(m, w), order[1..]));
      MsgsCat(m, w, order[1..]);
    }
  }

  // -------------------------------------------------------------- confluence

  /** Agents sign what they emit: events, messages and query ids carry the emitter's id. */
  ghost predicate Signed<S>(m: Machine<S>, w: World<S>) {
    forall a, e :: a in w.agents && e in Turn(m, w, a).1 ==> SignedBy(e, a)
  }

  ghost predicate SignedBy(e: Event, a: int) {
    && e.agent == a
    && (forall i :: 0 <= i < |e.messages| ==> e.messages[i].from == a)
    && (forall i :: 0 <= i < |e.queries| ==> e.queries[i].id.agent == a)
  }

  lemma SignedMsgs(events: seq<Event>, a: int)
    requires forall e :: e in events ==> SignedBy(e, a)
    ensures forall x :: x in Msgs(events) ==> x.from == a
    ensures forall x :: x in Reqs(events) ==> x.id.agent == a
  {
    if events != [] {
      var first := events[0];
      assert SignedBy(first, a);
      SignedMsgs(events[1..], a);
    }
  }

  ghost predicate Rearranged(order: seq<int>, other: seq<int>) {
    Distinct(order) && Distinct(other) && forall a :: a in order <==> a in other
  }

  /** The blocks' elements of one kind agree under any order, if only one member can emit that kind. */
  lemma CatRearranged<T>(p: T -> bool, g: int -> seq<T>, order: seq<int>, other: seq<int>, a: int)
    requires Rearranged(order, other)
    requires forall b :: b in order && b != a ==> Filter(p, g(b)) == []
    ensures Filter(p, Cat(g, order)) == Filter(p, Cat(g, other))
  {
    if a in order {
      CatOne(p, g, order, a);
      CatOne(p, g, other, a);
    } else {
      CatNone(p, g, order);
      CatNone(p, g, other);
    }
  }

  lemma MailForeign<S>(m: Machine<S>, w: World<S>, k: Key, b: int)
    requires Signed(m, w) && b != k.minor
    ensures Filter(SameKey(MailKey, k), MailBlock(m, w)(b)) == []
  {
    var events := Block(m, w)(b);
    assert forall e :: e in events ==> SignedBy(e, b);
    SignedMsgs(events, b);
    forall x | x in Msgs(events) ensures !SameKey(MailKey, k)(x) {
      assert MailKey(x).minor == b;
    }
    FilterNone(SameKey(MailKey, k), MailBlock(m, w)(b));
  }

  lemma MailAgrees<S>(m: Machine<S>, w: World<S>, order: seq<int>, other: seq<int>, k: Key)
    requires Rearranged(order, other) && Signed(m, w)
    ensures Filter(SameKey(MailKey, k), Cat(MailBlock(m, w), order))
         == Filter(SameKey(MailKey, k), Cat(MailBlock(m, w), other))
  {
    forall b | b in order && b != k.minor ensures Filter(SameKey(MailKey, k), MailBlock(m, w)(b)) == [] {
      MailForeign(m, w, k, b);
    }
    CatRearranged(SameKey(MailKey, k), MailBlock(m, w), order, other, k.minor);
  }

  lemma MailConfluent<S>(m: Machine<S>, w: World<S>, order: seq<int>, other: seq<int>)
    requires Rearranged(order, other) && Signed(m, w)
    ensures StepIn(m, w, order).mail == StepIn(m, w, other).mail
  {
    var xs, ys := Cat(MailBlock(m, w), order), Cat(MailBlock(m, w), other);
    forall k ensures Filter(SameKey(MailKey, k), xs) == Filter(SameKey(MailKey, k), ys) {
      MailAgrees(m, w, order, other, k);
    }
    MsgsCat(m, w, order);
    MsgsCat(m, w, other);
    SortAgree(MailKey, xs, ys);
  }

  function AgentKey(e: Event): Key { Key(e.agent, 0) }

  lemma EventsForeign<S>(m: Machine<S>, w: World<S>, k: Key, b: int)
    requires Signed(m, w) && b != k.major
    ensures Filter(SameKey(AgentKey, k), Block(m, w)(b)) == []
  {
    forall e | e in Block(m, w)(b) ensures !SameKey(AgentKey, k)(e) {
      assert SignedBy(e, b);
      assert AgentKey(e).major == b;
    }
    FilterNone(SameKey(AgentKey, k), Block(m, w)(b));
  }

  lemma EventsAgree<S>(m: Machine<S>, w: World<S>, order: seq<int>, other: seq<int>, k: Key)
    requires Rearranged(order, other) && Signed(m, w)
    ensures Filter(SameKey(AgentKey, k), w.log + Cat(Block(m, w), order))
         == Filter(SameKey(AgentKey, k), w.log + Cat(Block(m, w), other))
  {
    forall b | b in order && b != k.major ensures Filter(SameKey(AgentKey, k), Block(m, w)(b)) == [] {
      EventsForeign(m, w, k, b);
    }
    CatRearranged(SameKey(AgentKey, k), Block(m, w), order, other, k.major);
    FilterAppend(SameKey(AgentKey, k), w.log, Cat(Block(m, w), order));
    FilterAppend(SameKey(AgentKey, k), w.log, Cat(Block(m, w), other));
  }

  lemma LogConfluent<S>(m: Machine<S>, w: World<S>, order: seq<int>, other: seq<int>)
    requires Rearranged(order, other) && Signed(m, w)
    ensures AgreeByKey(AgentKey, StepIn(m, w, order).log, StepIn(m, w, other).log)
  {
    forall k
      ensures Filter(SameKey(AgentKey, k), StepIn(m, w, order).log)
           == Filter(SameKey(AgentKey, k), StepIn(m, w, other).log)
    {
      EventsAgree(m, w, order, other, k);
    }
  }

  /** The results of requests with one sort key come from the requests with that key. */
  lemma FilterAnswers(m: Request -> Reply, rank: QueryId -> int, reqs: seq<Request>, k: Key)
    requires forall q :: m(q).id == q.id
    ensures Filter(SameKey(ReplyKey(rank), k), Answers(m, reqs))
         == Answers(m, Filter((q: Request) => Key(rank(q.id), 0) == k, reqs))
  {
    if reqs != [] {
      FilterAnswers(m, rank, reqs[1..], k);
      assert Answers(m, reqs)[0].id == reqs[0].id;
      assert Answers(m, reqs)[1..] == Answers(m, reqs[1..]);
      var p := (q: Request) => Key(rank(q.id), 0) == k;
      if p(reqs[0]) {
        assert ([reqs[0]] + Filter(p, reqs[1..]))[1..] == Filter(p, reqs[1..]);
      }
    }
  }

  lemma RepliesConfluent<S>(m: Machine<S>, w: World<S>, order: seq<int>, other: seq<int>)
    requires Rearranged(order, other) && Signed(m, w)
    requires forall q :: m.answer(q).id == q.id
    requires forall i, j :: m.rank(i) == m.rank(j) ==> i == j
    ensures AgreeByKey(ReplyKey(m.rank), StepIn(m, w, order).replies, StepIn(m, w, other).replies)
  {
    var g := ReqBlock(m, w);
    MsgsCat(m, w, order);
    MsgsCat(m, w, other);
    forall k
      ensures Filter(SameKey(ReplyKey(m.rank), k), StepIn(m, w, order).replies)
           == Filter(SameKey(ReplyKey(m.rank), k), StepIn(m, w, other).replies)
    {
      var p := (q: Request) => Key(m.rank(q.id), 0) == k;
      FilterAnswers(m.answer, m.rank, w.queued + Cat(g, order), k);
      FilterAnswers(m.answer, m.rank, w.queued + Cat(g, other), k);
      FilterAppend(p, w.queued, Cat(g, order));
      FilterAppend(p, w.queued, Cat(g, other));
      var a := if exists i :: m.rank(i) == k.major then (var i :| m.rank(i) == k.major; i.agent) else 0;
      forall b | b in order && b != a ensures Filter(p, g(b)) == [] {
        if b in w.agents {
          SignedMsgs(Turn(m, w, b).1, b);
        }
        FilterNone(p, g(b));
      }
      CatRearranged(p, g, order, other, a);
    }
  }

  /**
   * Tick confluence: the order in which a tick steps its agents shows nowhere but in the log, and
   * there only as a permutation of the agents' blocks.
   */
  lemma TickConfluence<S>(m: Machine<S>, w: World<S>, order: seq<int>, other: seq<int>)
    requires Rearranged(order, other) && Signed(m, w)
    requires forall q :: m.answer(q).id == q.id
    requires forall i, j :: m.rank(i) == m.rank(j) ==> i == j
    ensures var u, v := StepIn(m, w, order), StepIn(m, w, other);
            && u.agents == v.agents
            && (forall a :: Prepared(m, u, a) == Prepared(m, v, a))
            && AgreeByKey(AgentKey, u.log, v.log)
  {
    var u, v := StepIn(m, w, order), StepIn(m, w, other);
    MailConfluent(m, w, order, other);
    LogConfluent(m, w, order, other);
    RepliesConfluent(m, w, order, other);
    forall a ensures Prepared(m, u, a) == Prepared(m, v, a) {
      SplitInbox(u, a);
      SplitInbox(v, a);
      SortAgree(ReplyKey(m.rank), u.replies, v.replies);
      FilterSort(ReplyKey(m.rank), ForAgent(a), u.replies);
      FilterSort(ReplyKey(m.rank), ForAgent(a), v.replies);
    }
  }

  // -------------------------------------------------------------- the channel guarantee

  /** The messages that agent a handles at the next tick, in the order in which it handles them. */
  function Handled<S>(m: Machine<S>, w: World<S>, a: int): seq<Message> {
    Sort(MailKey, MessagesOf(Prepared(m, w, a)))
  }

  /** The results that agent a handles at the next tick, in the order in which it handles them. */
  function HandledReplies<S>(m: Machine<S>, w: World<S>, a: int): seq<Reply> {
    Sort(ReplyKey(m.rank), RepliesOf(Prepared(m, w, a)))
  }

  lemma HandledIs<S>(m: Machine<S>, w: World<S>, a: int)
    ensures Handled(m, w, a) == Sort(MailKey, Filter(ToAgent(a), w.mail))
    ensures HandledReplies(m, w, a) == Sort(ReplyKey(m.rank), Filter(ForAgent(a), w.replies))
  {
    SplitInbox(w, a);
    SplitArrange(m.rank, Inbox(w, a));
    ArrangeTwice(m.rank, Inbox(w, a));
    SplitArrange(m.rank, Prepared(m, w, a));
  }

  function FromAt(b: int, t: int): Message -> bool { (x: Message) => x.from == b && x.tickSent == t }

  lemma HandledNext<S>(m: Machine<S>, w: World<S>, a: int)
    ensures Handled(m, Step(m, w), a)
         == Sort(MailKey, Filter(ToAgent(a), Cat(MailBlock(m, w), SortedIds(w.agents.Keys))))
  {
    var ids := SortedIds(w.agents.Keys);
    var mine := Filter(ToAgent(a), Cat(MailBlock(m, w), ids));
    MsgsCat(m, w, ids);
    HandledIs(m, Step(m, w), a);
    FilterSort(MailKey, ToAgent(a), Cat(MailBlock(m, w), ids));
    SortSorted(MailKey, mine);
    SortOfSorted(MailKey, Sort(MailKey, mine));
  }

  lemma SortKeepsOrder(xs: seq<Message>, b: int, t: int)
    ensures Filter(FromAt(b, t), Sort(MailKey, xs)) == Filter(FromAt(b, t), xs)
  {
    var same := Filter(FromAt(b, t), xs);
    FilterSort(MailKey, FromAt(b, t), xs);
    assert Sorted(MailKey, same) by {
      forall i, j | 0 <= i < j < |same| ensures Le(MailKey(same[i]), MailKey(same[j])) {
        assert same[i] in same && same[j] in same;
      }
    }
    SortOfSorted(MailKey, same);
  }

  /**
   * Channels: what agent a handles at the tick after w's step is exactly what that step's agents
   * addressed to it, each message as often as it was sent; and of one sender's messages of one tick,
   * in the order in which they were emitted.
   */
  lemma ChannelGuarantee<S>(m: Machine<S>, w: World<S>, a: int)
    ensures var sent := Filter(ToAgent(a), Cat(MailBlock(m, w), SortedIds(w.agents.Keys)));
            var handled := Handled(m, Step(m, w), a);
            && multiset(handled) == multiset(sent)
            && forall b, t :: Filter(FromAt(b, t), handled) == Filter(FromAt(b, t), sent)
  {
    var sent := Filter(ToAgent(a), Cat(MailBlock(m, w), SortedIds(w.agents.Keys)));
    HandledNext(m, w, a);
    SortMembers(MailKey, sent);
    forall b, t ensures Filter(FromAt(b, t), Sort(MailKey, sent)) == Filter(FromAt(b, t), sent) {
      SortKeepsOrder(sent, b, t);
    }
  }

  // -------------------------------------------------------------- runs

  function Run<S>(m: Machine<S>, w: World<S>, t: nat): World<S> {
    if t == 0 then w else Step(m, Run(m, w, t - 1))
  }

  lemma StepShape<S>(m: Machine<S>, w: World<S>)
    ensures Step(m, w).tick == w.tick + 1 && Step(m, w).queued == []
    ensures Step(m, w).agents.Keys == w.agents.Keys
    ensures Sorted(MailKey, Step(m, w).mail)
  {
    SortSorted(MailKey, Msgs(Cat(Block(m, w), SortedIds(w.agents.Keys))));
  }

  /** Every agent's state after the tick is what its turn left. */
  lemma StepAgent<S>(m: Machine<S>, w: World<S>, a: int)
    ensures a in Step(m, w).agents <==> a in w.agents
    ensures a in w.agents ==> Step(m, w).agents[a] == Turn(m, w, a).0
  {
  }

  lemma BlockIs<S>(m: Machine<S>, w: World<S>, a: int)
    requires a in w.agents
    ensures Block(m, w)(a) == Turn(m, w, a).1 && MailBlock(m, w)(a) == Msgs(Turn(m, w, a).1)
  {
  }

  lemma RunShape<S>(m: Machine<S>, w: World<S>, t: nat)
    requires w.tick == 0 && w.queued == [] && Sorted(MailKey, w.mail)
    ensures Run(m, w, t).tick == t && Run(m, w, t).queued == []
    ensures Run(m, w, t).agents.Keys == w.agents.Keys
    ensures Sorted(MailKey, Run(m, w, t).mail)
  {
    if t > 0 {
      RunShape(m, w, t - 1);
      StepShape(m, Run(m, w, t - 1));
    }
  }

  /** Total amount carried by messages in flight and held by agents. */
  function Total<S>(w: World<S>, carry: Message -> int, hold: (int, S) -> int): int {
    Sum(carry, w.mail) + Sum(HoldBefore(w, hold), SortedIds(w.agents.Keys))
  }

  /** An agent's turn balances: what it took in, held and gained is what it sends on and still holds. */
  ghost predicate Balanced<S>(m: Machine<S>, w: World<S>, carry: Message -> int, hold: (int, S) -> int,
                              gain: Event -> int, a: int)
    requires a in w.agents
  {
    var (st, events) := Turn(m, w, a);
    Sum(carry, Msgs(events)) + hold(a, st)
      == Sum(carry, Filter(ToAgent(a), w.mail)) + hold(a, w.agents[a]) + Sum(gain, events)
  }

  function Received(carry: Message -> int, mail: seq<Message>): int -> int {
    a => Sum(carry, Filter(ToAgent(a), mail))
  }

  lemma {:induction false} MailByRecipient(carry: Message -> int, mail: seq<Message>, ids: seq<int>)
    requires Distinct(ids)
    requires forall x :: x in mail && carry(x) != 0 ==> x.to in ids
    ensures Sum(carry, mail) == Sum(Received(carry, mail), ids)
  {
    if mail == [] {
      SumZero(Received(carry, mail), ids);
    } else {
      var rest := mail[1..];
      MailByRecipient(carry, rest, ids);
      OneMore(carry, mail, ids);
    }
  }

  lemma {:induction false} OneMore(carry: Message -> int, mail: seq<Message>, ids: seq<int>)
    requires mail != [] && Distinct(ids)
    ensures Sum(Received(carry, mail), ids)
         == Sum(Received(carry, mail[1..]), ids)
            + if mail[0].to in ids then carry(mail[0]) else 0
  {
    if ids != [] {
      OneMore(carry, mail, ids[1..]);
      var a := ids[0];
      var mine := Filter(ToAgent(a), mail[1..]);
      assert ids == [a] + ids[1..];
      if mail[0].to == a {
        assert ([mail[0]] + mine)[1..] == mine;
        assert mail[0].to !in ids[1..];
      }
    }
  }

  /** Conservation: if every agent's turn balances, the total changes by exactly what the log says was gained. */
  lemma StepConserves<S>(m: Machine<S>, w: World<S>, carry: Message -> int, hold: (int, S) -> int,
                         gain: Event -> int)
    requires forall x :: x in w.mail && carry(x) != 0 ==> x.to in w.agents
    requires forall a :: a in w.agents ==> Balanced(m, w, carry, hold, gain, a)
    ensures Total(Step(m, w), carry, hold) - Sum(gain, Step(m, w).log)
         == Total(w, carry, hold) - Sum(gain, w.log)
  {
    var ids := SortedIds(w.agents.Keys);
    var w' := Step(m, w);
    assert w'.agents.Keys == w.agents.Keys;
    MsgsCat(m, w, ids);
    SumSort(carry, MailKey, Cat(MailBlock(m, w), ids));
    SumCat(carry, MailBlock(m, w), ids);
    SumCat(gain, Block(m, w), ids);
    SumAppend(gain, w.log, Cat(Block(m, w), ids));
    MailByRecipient(carry, w.mail, ids);
    BalanceAll(m, w, carry, hold, gain, ids);
    SumAgree(HoldBefore(w', hold), HoldAfter(m, w, hold), ids);
  }

  function HoldAfter<S>(m: Machine<S>, w: World<S>, hold: (int, S) -> int): int -> int {
    a => if a in w.agents then hold(a, Turn(m, w, a).0) else 0
  }

  function HoldBefore<S>(w: World<S>, hold: (int, S) -> int): int -> int {
    a => if a in w.agents then hold(a, w.agents[a]) else 0
  }

  lemma {:induction false} BalanceAll<S>(m: Machine<S>, w: World<S>, carry: Message -> int, hold: (int, S) -> int,
                      gain: Event -> int, ids: seq<int>)
    requires forall a :: a in ids ==> a in w.agents && Balanced(m, w, carry, hold, gain, a)
    ensures Sum(BlockSum(carry, MailBlock(m, w)), ids) + Sum(HoldAfter(m, w, hold), ids)
         == Sum(Received(carry, w.mail), ids) + Sum(HoldBefore(w, hold), ids)
            + Sum(BlockSum(gain, Block(m, w)), ids)
  {
    if ids != [] {
      var a := ids[0];
      assert a in ids && Balanced(m, w, carry, hold, gain, a);
      BalanceAll(m, w, carry, hold, gain, ids[1..]);
    }
  }
}
