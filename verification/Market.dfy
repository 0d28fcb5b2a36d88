/**
 * A small market, followed tick by tick: one consumer places two orders with one seller and asks to cancel the
 * first. It shows that what the theorems about orders assume can be met, and what equal store numbers lead to.
 */
module Market {
  import opened Seqs
  import opened Messages
  import opened Settings
  import opened Engine
  import opened Simulation
  import Consumer
  import Seller
  import Transport

  const BUYER := 1
  const SHOP := 2
  const CARRIER := 3

  const GOODS := "goods"
  const ON_SHOW := [Shown(11, GOODS), Shown(12, GOODS)]
  const PRICE := DEFAULT_PRICE
  const FIRST := OrderId(BUYER, 2, 0)
  const SECOND := OrderId(BUYER, 2, 1)
  const LOOK_FIRST := QueryId(BUYER, 1, 1, ProductDetails(11, GOODS))
  const LOOK_SECOND := QueryId(BUYER, 1, 2, ProductDetails(12, GOODS))
  const LOOK_BACK := QueryId(BUYER, 2, 2, OrderHistory)
  const CHECK_FIRST := QueryId(SHOP, 3, 0, InventoryCheck(FIRST))
  const CHECK_SECOND := QueryId(SHOP, 3, 1, InventoryCheck(SECOND))

  /** The consumer browses at tick 1 and looks at its history at tick 2, the carrier tracks at every tick, the seller never restocks. */
  function Timers(agent: int, action: Action): Option<Timer> {
    if agent == BUYER && action == BrowseCatalog then Some(Timer(1000, 1))
    else if agent == BUYER && action == HistoryCheck then Some(Timer(1000, 2))
    else if agent == CARRIER && action == UpdateTracking then Some(Timer(1, 0))
    else None
  }

  /** The history shows the first order as late and not yet paid; no other query brings any data. */
  function Found(q: Request): Data {
    if q.id.topic == OrderHistory then History([HistoryRow(FIRST, true, true)]) else NoData
  }

  function Number(rid: OrderId, a: nat, b: nat): nat {
    if rid == FIRST then a else if rid == SECOND then b else 0
  }

  /** The market in which the two orders draw the store numbers a and b. */
  function Town(a: nat, b: nat): Config {
    Config(Some(CARRIER), None, (sku: int) => [], (sku: int) => [], (sku: int) => [SHOP], (sku: int) => PRICE, 0,
           (agent: int, action: Action) => Timers(agent, action), (q: Request) => Found(q), (q: QueryId) => q.item,
           (agent: int, category: string) => 1.0, (agent: int, category: string) => 1.0, (agent: int) => 1.0,
           (agent: int, tick: int) => ON_SHOW, (agent: int, tick: int, item: int, roll: Roll) => 0.0,
           (agent: int, tick: int, item: int) => 0, (agent: int, tick: int, item: int, row: int) => true,
           (rid: OrderId) => Number(rid, a, b), (id: ShipmentId) => 0)
  }

  function People(c: Consumer.State, s: Seller.State): map<int, Agent> {
    map[BUYER := C(c), SHOP := S(s), CARRIER := T(Transport.FRESH)]
  }

  const OPENING: World<Agent> := World(0, People(Consumer.FRESH, Seller.FRESH), [], [], [], [])

  ghost predicate Stage(u: World<Agent>, t: nat, c: Consumer.State, s: Seller.State, mail: seq<Message>,
                        replies: seq<Reply>) {
    u.tick == t && u.agents == People(c, s) && u.mail == mail && u.replies == replies && u.queued == []
  }

  // -------------------------------------------------------------- one tick

  lemma LeadingId(s: set<int>, m: int)
    requires m in s && forall x :: x in s ==> m <= x
    ensures SortedIds(s) == [m] + SortedIds(s - {m})
  {
  }

  lemma InOrderOfIds()
    ensures SortedIds({BUYER, SHOP, CARRIER}) == [BUYER, SHOP, CARRIER]
  {
    hide SortedIds;
    assert {1, 2, 3} - {1} == {2, 3} && {2, 3} - {2} == {3} && {3} - {3} == {};
    LeadingId({1, 2, 3}, 1);
    LeadingId({2, 3}, 2);
    LeadingId({3}, 3);
    assert SortedIds({}) == [] by { NoIds(); }
  }

  lemma NoIds()
    ensures SortedIds({}) == []
  {
  }

  /** The results for one agent, when all results are for it and in the order of their ids. */
  ghost predicate Tidy(cfg: Config, replies: seq<Reply>, a: int) {
    Sorted(ReplyKey(cfg.rank), replies) && forall x :: x in replies ==> x.agent == a
  }

  lemma TidyReplies(cfg: Config, u: World<Agent>, a: int, b: int)
    requires Tidy(cfg, u.replies, b)
    ensures HandledReplies(TheMachine(cfg), u, a) == if a == b then u.replies else []
  {
    HandledIs(TheMachine(cfg), u, a);
    if a == b {
      FilterAll(ForAgent(a), u.replies);
      SortOfSorted(ReplyKey(cfg.rank), u.replies);
    } else {
      FilterNone(ForAgent(a), u.replies);
    }
  }

  /** The mail of one sender to one agent. */
  ghost predicate OneWay(mail: seq<Message>, from: int, to: int, tick: int) {
    forall x :: x in mail ==> x.from == from && x.to == to && x.tickSent == tick
  }

  lemma OneWaySorted(mail: seq<Message>, from: int, to: int, tick: int)
    requires OneWay(mail, from, to, tick)
    ensures Sorted(MailKey, mail)
  {
    forall i, j | 0 <= i < j < |mail| ensures Le(MailKey(mail[i]), MailKey(mail[j])) {
      assert mail[i] in mail && mail[j] in mail;
    }
  }

  lemma OneWayHandled(cfg: Config, u: World<Agent>, a: int, from: int, to: int, tick: int)
    requires OneWay(u.mail, from, to, tick)
    ensures Handled(TheMachine(cfg), u, a) == if a == to then u.mail else []
  {
    OneWaySorted(u.mail, from, to, tick);
    HandledInOrder(cfg, u, a);
    if a == to {
      FilterAll(ToAgent(a), u.mail);
    } else {
      FilterNone(ToAgent(a), u.mail);
    }
  }

  /** The steps of the three agents at the tick after a stage. */
  function BuyerStep(cfg: Config, t: nat, c: Consumer.State, mail: seq<Message>, to: int, replies: seq<Reply>, asker: int)
    : Consumer.Effect
  {
    Consumer.Step(cfg, BUYER, c, if asker == BUYER then replies else [], if to == BUYER then mail else [], t + 1)
  }

  function ShopStep(cfg: Config, t: nat, s: Seller.State, mail: seq<Message>, to: int, replies: seq<Reply>, asker: int)
    : Seller.Effect
  {
    Seller.Step(cfg, SHOP, s, if asker == SHOP then replies else [], if to == SHOP then mail else [], t + 1)
  }

  function CarrierStep(cfg: Config, t: nat, mail: seq<Message>, to: int, replies: seq<Reply>, asker: int): Transport.Effect {
    Transport.Step(cfg, CARRIER, Transport.FRESH, if to == CARRIER then mail else [], t + 1,
                   if asker == CARRIER then |replies| else 0)
  }

  lemma TurnsAre(cfg: Config, u: World<Agent>, t: nat, c: Consumer.State, s: Seller.State, mail: seq<Message>, from: int,
          to: int, replies: seq<Reply>, asker: int)
    requires Stage(u, t, c, s, mail, replies) && OneWay(mail, from, to, t) && Tidy(cfg, replies, asker)
    ensures var m := TheMachine(cfg);
            var (c1, ev1) := BuyerStep(cfg, t, c, mail, to, replies, asker);
            var (s1, ev2) := ShopStep(cfg, t, s, mail, to, replies, asker);
            var (h1, ev3) := CarrierStep(cfg, t, mail, to, replies, asker);
            Turn(m, u, BUYER) == (C(c1), ev1) && Turn(m, u, SHOP) == (S(s1), ev2) && Turn(m, u, CARRIER) == (T(h1), ev3)
  {
    hide Handled, HandledReplies, Consumer.Step, Seller.Step, Transport.Step, Turn, Tidy, OneWay;
    forall a | a == BUYER || a == SHOP || a == CARRIER
      ensures HandledReplies(TheMachine(cfg), u, a) == if a == asker then replies else []
      ensures Handled(TheMachine(cfg), u, a) == if a == to then mail else []
      ensures Turn(TheMachine(cfg), u, a)
           == ActOn(cfg, a, u.agents[a], if a == asker then replies else [], if a == to then mail else [], t + 1)
    {
      TidyReplies(cfg, u, a, asker);
      OneWayHandled(cfg, u, a, from, to, t);
      TurnIs(cfg, u, a);
    }
  }

  /** One tick of the market, put together from the steps of the three agents. */
  lemma Advance(cfg: Config, u: World<Agent>, t: nat, c: Consumer.State, s: Seller.State, mail: seq<Message>, from: int,
          to: int, replies: seq<Reply>, asker: int, mail1: seq<Message>, asked: seq<Request>)
    requires Stage(u, t, c, s, mail, replies) && OneWay(mail, from, to, t) && Tidy(cfg, replies, asker)
    requires var (c1, ev1) := BuyerStep(cfg, t, c, mail, to, replies, asker);
             var (s1, ev2) := ShopStep(cfg, t, s, mail, to, replies, asker);
             var (h1, ev3) := CarrierStep(cfg, t, mail, to, replies, asker);
             && h1 == Transport.FRESH && Sorted(MailKey, mail1)
             && mail1 == Msgs(ev1) + Msgs(ev2) + Msgs(ev3) && asked == Reqs(ev1) + Reqs(ev2) + Reqs(ev3)
    ensures Stage(Step(TheMachine(cfg), u), t + 1, BuyerStep(cfg, t, c, mail, to, replies, asker).0,
                  ShopStep(cfg, t, s, mail, to, replies, asker).0, mail1, Answers(Answer(cfg), asked))
  {
    hide BuyerStep, ShopStep, CarrierStep, Turn, Step, Sort, Answers, Sorted, OneWay, Tidy, Msgs, Reqs;
    var m := TheMachine(cfg);
    TurnsAre(cfg, u, t, c, s, mail, from, to, replies, asker);
    ThreeBlocks(m, u);
    SortOfSorted(MailKey, mail1);
    StepAgent(m, u, BUYER);
    StepAgent(m, u, SHOP);
    StepAgent(m, u, CARRIER);
    StepShape(m, u);
  }

  lemma ThreeBlocks(m: Machine<Agent>, u: World<Agent>)
    requires u.agents.Keys == {BUYER, SHOP, CARRIER} && u.queued == []
    ensures var ev1, ev2, ev3 := Turn(m, u, BUYER).1, Turn(m, u, SHOP).1, Turn(m, u, CARRIER).1;
            && Step(m, u).mail == Sort(MailKey, Msgs(ev1) + Msgs(ev2) + Msgs(ev3))
            && Step(m, u).replies == Answers(m.answer, Reqs(ev1) + Reqs(ev2) + Reqs(ev3))
  {
    hide Turn, Sort, Answers, SortedIds, Cat, Msgs, Reqs;
    var ev1, ev2, ev3 := Turn(m, u, BUYER).1, Turn(m, u, SHOP).1, Turn(m, u, CARRIER).1;
    InOrderOfIds();
    ThreeIn(Block(m, u), BUYER, SHOP, CARRIER);
    MsgsAppend(ev1 + ev2, ev3);
    MsgsAppend(ev1, ev2);
    assert [] + (Reqs(ev1) + Reqs(ev2) + Reqs(ev3)) == Reqs(ev1) + Reqs(ev2) + Reqs(ev3);
  }

  lemma ThreeIn<T>(g: int -> seq<T>, a: int, b: int, c: int)
    ensures Cat(g, [a, b, c]) == g(a) + g(b) + g(c)
  {
    assert [a, b, c][1..] == [b, c] && [b, c][1..] == [c] && [c][1..] == [];
    assert Cat(g, [c]) == g(c);
    assert Cat(g, [b, c]) == g(b) + g(c);
    Regroup(g(a), g(b), g(c));
  }

  // -------------------------------------------------------------- agents with nothing to do

  lemma WhatIsDue(a: nat, b: nat, t: int)
    requires 1 <= t <= 9
    ensures Due(Town(a, b), BUYER, HistoryCheck, t) <==> t == 2
    ensures Consumer.Browsed(Town(a, b), BUYER, t) == if t == 1 then ON_SHOW else []
    ensures Due(Town(a, b), CARRIER, UpdateTracking, t) && !Due(Town(a, b), SHOP, EvaluateInventory, t)
  {
    var n := t - 1;
    assert n % 1001 == n && (n >= 1 ==> (n - 1) % 1002 == n - 1);
    assert (t - 1) % 1 == 0;
  }

  lemma BuyerRests(a: nat, b: nat, c: Consumer.State, t: int)
    requires 3 <= t <= 9 && forall q :: q in c.queries ==> t - c.queries[q].issued <= QUERY_TTL
    ensures Consumer.Step(Town(a, b), BUYER, c, [], [], t) == (c, [])
  {
    var cfg := Town(a, b);
    WhatIsDue(a, b, t);
    assert Consumer.Replies(cfg, BUYER, c, [], t, 0) == (c, []);
    assert Consumer.Mail(BUYER, c, [], t) == (c, []);
    assert c.(queries := Expire(c.queries, t)) == c;
    assert Consumer.Views(cfg, BUYER, c, [], t, 1) == (c, []);
    NothingAdded<Event>([]);
  }

  lemma ShopRests(a: nat, b: nat, s: Seller.State, t: int)
    requires 1 <= t <= 9 && forall q :: q in s.queries ==> t - s.queries[q].issued <= QUERY_TTL
    ensures Seller.Step(Town(a, b), SHOP, s, [], [], t) == (s, [])
  {
    var cfg := Town(a, b);
    WhatIsDue(a, b, t);
    assert Seller.Replies(cfg, SHOP, s, [], t, 0) == (s, []);
    assert Seller.Mail(cfg, SHOP, s, [], t, 0) == (s, []);
    assert s.(queries := Expire(s.queries, t)) == s;
    NothingAdded<Event>([]);
  }

  lemma CarrierRests(a: nat, b: nat, t: int)
    requires 1 <= t <= 9
    ensures Transport.Step(Town(a, b), CARRIER, Transport.FRESH, [], t, 0) == (Transport.FRESH, [])
  {
    var cfg := Town(a, b);
    WhatIsDue(a, b, t);
    assert Transport.Mail(cfg, CARRIER, Transport.FRESH, [], t, 0) == Transport.FRESH;
    assert Transport.Track(CARRIER, [], t) == ([], []);
    NothingAdded<Event>([]);
  }

  // -------------------------------------------------------------- the run, tick by tick

  function Asked(id: QueryId): Request { Request(id, id.agent, id.tick) }

  /** After tick 1 the consumer waits for the details of two products. */
  const LOOKING := Consumer.FRESH.(queries := map[LOOK_FIRST := Pending(LOOK_FIRST.topic, 1),
                                                  LOOK_SECOND := Pending(LOOK_SECOND.topic, 1)])

  lemma BuyerLooks(a: nat, b: nat)
    ensures var (c, ev) := Consumer.Step(Town(a, b), BUYER, Consumer.FRESH, [], [], 1);
            c == LOOKING && Msgs(ev) == [] && Reqs(ev) == [Asked(LOOK_FIRST), Asked(LOOK_SECOND)]
  {
    hide Consumer.Views, Consumer.Browsed, Town;
    var cfg := Town(a, b);
    var c0 := Consumer.FRESH;
    WhatIsDue(a, b, 1);
    assert Consumer.Replies(cfg, BUYER, c0, [], 1, 0) == (c0, []) && Consumer.Mail(BUYER, c0, [], 1) == (c0, []);
    assert c0.(queries := Expire(c0.queries, 1)) == c0;
    var (c1, ev1) := Consumer.Ask(BUYER, c0, ProductDetails(11, GOODS), 1, 1);
    var (c2, ev2) := Consumer.Ask(BUYER, c1, ProductDetails(12, GOODS), 1, 2);
    ViewsOfTwo(a, b, c0, 1, 1);
    MsgsOne(ev1[0]);
    MsgsOne(ev2[0]);
    MsgsAppend(ev1, ev2);
    assert [] + [] + ([] + (ev1 + ev2)) == ev1 + ev2;
  }

  lemma ViewsOfTwo(a: nat, b: nat, st: Consumer.State, tick: int, item: int)
    ensures var (st1, ev1) := Consumer.Ask(BUYER, st, ProductDetails(11, GOODS), tick, item);
            var (st2, ev2) := Consumer.Ask(BUYER, st1, ProductDetails(12, GOODS), tick, item + 1);
            Consumer.Views(Town(a, b), BUYER, st, ON_SHOW, tick, item) == (st2, ev1 + ev2)
  {
    var cfg := Town(a, b);
    var (st1, ev1) := Consumer.Ask(BUYER, st, ProductDetails(11, GOODS), tick, item);
    var (st2, ev2) := Consumer.Ask(BUYER, st1, ProductDetails(12, GOODS), tick, item + 1);
    assert ON_SHOW[1..] == [Shown(12, GOODS)] && ON_SHOW[1..][1..] == [];
    assert forall x: Shown, n: int :: Consumer.Looks(cfg, BUYER, x, tick, n);
    assert Consumer.Views(cfg, BUYER, st1, ON_SHOW[1..], tick, item + 1) == (st2, ev2 + []);
    NothingAdded(ev2);
  }

  // -------------------------------------------------------------- short lists of results and messages

  lemma BuyerHears(cfg: Config, st: Consumer.State, x: Reply, y: Reply, tick: int)
    ensures var (st1, ev1) := Consumer.OnReply(cfg, BUYER, st, x, tick, 0);
            var (st2, ev2) := Consumer.OnReply(cfg, BUYER, st1, y, tick, 1);
            Consumer.Replies(cfg, BUYER, st, [x], tick, 0) == (st1, ev1)
            && Consumer.Replies(cfg, BUYER, st, [x, y], tick, 0) == (st2, ev1 + ev2)
  {
    hide Consumer.OnReply;
    assert [x, y][1..] == [y] && [y][1..] == [] && [x][1..] == [];
    NothingAdded(Consumer.OnReply(cfg, BUYER, st, x, tick, 0).1);
    var (st1, ev1) := Consumer.OnReply(cfg, BUYER, st, x, tick, 0);
    NothingAdded(Consumer.OnReply(cfg, BUYER, st1, y, tick, 1).1);
    assert Consumer.Replies(cfg, BUYER, st1, [y], tick, 1) == Consumer.OnReply(cfg, BUYER, st1, y, tick, 1);
  }

  lemma ShopHears(cfg: Config, st: Seller.State, x: Reply, y: Reply, tick: int)
    ensures var (st1, ev1) := Seller.OnReply(cfg, SHOP, st, x, tick, 0);
            var (st2, ev2) := Seller.OnReply(cfg, SHOP, st1, y, tick, 1);
            Seller.Replies(cfg, SHOP, st, [x, y], tick, 0) == (st2, ev1 + ev2)
  {
    hide Seller.OnReply;
    assert [x, y][1..] == [y] && [y][1..] == [];
    var (st1, ev1) := Seller.OnReply(cfg, SHOP, st, x, tick, 0);
    NothingAdded(Seller.OnReply(cfg, SHOP, st1, y, tick, 1).1);
    assert Seller.Replies(cfg, SHOP, st1, [y], tick, 1) == Seller.OnReply(cfg, SHOP, st1, y, tick, 1);
  }

  lemma ShopReads(cfg: Config, st: Seller.State, x: Message, y: Message, tick: int, item: int)
    ensures var (st1, ev1) := Seller.OnMessage(cfg, SHOP, st, x, tick, item);
            var (st2, ev2) := Seller.OnMessage(cfg, SHOP, st1, y, tick, item + 1);
            Seller.Mail(cfg, SHOP, st, [x], tick, item) == (st1, ev1)
            && Seller.Mail(cfg, SHOP, st, [x, y], tick, item) == (st2, ev1 + ev2)
  {
    hide Seller.OnMessage;
    assert [x, y][1..] == [y] && [y][1..] == [] && [x][1..] == [];
    NothingAdded(Seller.OnMessage(cfg, SHOP, st, x, tick, item).1);
    var (st1, ev1) := Seller.OnMessage(cfg, SHOP, st, x, tick, item);
    NothingAdded(Seller.OnMessage(cfg, SHOP, st1, y, tick, item + 1).1);
    assert Seller.Mail(cfg, SHOP, st1, [y], tick, item + 1) == Seller.OnMessage(cfg, SHOP, st1, y, tick, item + 1);
  }

  lemma BuyerReads(st: Consumer.State, x: Message, y: Message, z: Message, tick: int)
    ensures var (st1, ev1) := Consumer.OnMessage(BUYER, st, x, tick);
            var (st2, ev2) := Consumer.OnMessage(BUYER, st1, y, tick);
            var (st3, ev3) := Consumer.OnMessage(BUYER, st2, z, tick);
            Consumer.Mail(BUYER, st, [x, y, z], tick) == (st3, ev1 + (ev2 + ev3))
  {
    hide Consumer.OnMessage;
    var (st1, ev1) := Consumer.OnMessage(BUYER, st, x, tick);
    var (st2, ev2) := Consumer.OnMessage(BUYER, st1, y, tick);
    var (st3, ev3) := Consumer.OnMessage(BUYER, st2, z, tick);
    assert [x, y, z][1..] == [y, z] && [y, z][1..] == [z] && [z][1..] == [];
    NothingAdded(ev3);
    assert Consumer.Mail(BUYER, st2, [z], tick) == (st3, ev3);
    assert Consumer.Mail(BUYER, st1, [y, z], tick) == (st3, ev2 + ev3);
  }

  /** The messages and requests of two events, each with its own. */
  lemma OfTwo(x: Event, y: Event)
    ensures Msgs([x]) == x.messages && Reqs([x]) == x.queries
    ensures Msgs([x, y]) == x.messages + y.messages && Reqs([x, y]) == x.queries + y.queries
  {
    MsgsOne(x);
    MsgsOne(y);
    MsgsAppend([x], [y]);
    assert [x] + [y] == [x, y];
  }

  lemma OfThree(x: Event, y: Event, z: Event)
    ensures Msgs([x, y, z]) == x.messages + y.messages + z.messages
    ensures Reqs([x, y, z]) == x.queries + y.queries + z.queries
  {
    OfTwo(x, y);
    MsgsOne(z);
    MsgsAppend([x, y], [z]);
    assert [x, y] + [z] == [x, y, z];
  }

  // -------------------------------------------------------------- ticks 2 to 8

  const CART := [Consumer.CartLine(11, GOODS, PRICE), Consumer.CartLine(12, GOODS, PRICE)]

  function Wish(sku: int, status: Status, number: Option<int>): Consumer.Order {
    Consumer.Order(sku, 1, PRICE, SHOP, status, number)
  }

  function Placement(rid: OrderId, sku: int): Message { Message(BUYER, SHOP, 2, PlaceOrder(rid, sku, 1, PRICE)) }

  /** After tick 2 both orders are placed, and the consumer waits for its order history. */
  const ORDERED := Consumer.State(map[FIRST := Wish(11, Requested, None), SECOND := Wish(12, Requested, None)], [], CART,
                                  map[LOOK_BACK := Pending(OrderHistory, 2)])

  function Brought(id: QueryId): Reply { Reply(id, id.agent, Found(Asked(id))) }

  lemma Wanted(a: nat, b: nat, sku: int, item: int)
    ensures Consumer.Decide(Town(a, b), BUYER, sku, GOODS, NoData, 2, item) == Consumer.Buy(SHOP)
  {
    hide Consumer.CartChance;
    assert Consumer.CartChance(Town(a, b), BUYER, sku, PRICE, 4.0) == 1.0 by { Attractive(a, b, sku); }
  }

  lemma Attractive(a: nat, b: nat, sku: int)
    ensures Consumer.CartChance(Town(a, b), BUYER, sku, PRICE, 4.0) == 1.0
  {
  }

  lemma BuyerOrders(a: nat, b: nat)
    ensures var (c, ev) := Consumer.Step(Town(a, b), BUYER, LOOKING, [Brought(LOOK_FIRST), Brought(LOOK_SECOND)], [], 2);
            c == ORDERED && Msgs(ev) == [Placement(FIRST, 11), Placement(SECOND, 12)] && Reqs(ev) == [Asked(LOOK_BACK)]
  {
    var cfg := Town(a, b);
    hide Consumer.Decide, Consumer.Browsed;
    var x, y := Brought(LOOK_FIRST), Brought(LOOK_SECOND);
    WhatIsDue(a, b, 2);
    Wanted(a, b, 11, 0);
    Wanted(a, b, 12, 1);
    BuyerHears(cfg, LOOKING, x, y, 2);
    var (c1, ev1) := Consumer.OnReply(cfg, BUYER, LOOKING, x, 2, 0);
    var (c2, ev2) := Consumer.OnReply(cfg, BUYER, c1, y, 2, 1);
    assert |ev1| == 1 && ev1[0].messages == [Placement(FIRST, 11)];
    assert |ev2| == 1 && ev2[0].messages == [Placement(SECOND, 12)];
    assert c2 == ORDERED.(queries := map[]);
    assert Consumer.Mail(BUYER, c2, [], 2) == (c2, []);
    assert c2.(queries := Expire(c2.queries, 2)) == c2;
    var (c3, ev3) := Consumer.Ask(BUYER, c2, OrderHistory, 2, 2);
    assert Consumer.Scheduled(cfg, BUYER, c2, 2, 2) == (c3, ev3 + []);
    assert ev1 + ev2 + [] + (ev3 + []) == [ev1[0], ev2[0], ev3[0]];
    OfThree(ev1[0], ev2[0], ev3[0]);
    assert c3 == ORDERED;
  }

  /** After tick 3 the consumer has asked to cancel the first order, and the seller checks its stock for both. */
  const REGRETTING := ORDERED.(pending := map[FIRST := Wish(11, CancelRequested, None), SECOND := Wish(12, Requested, None)],
                               queries := map[])

  const REGRET := Message(BUYER, SHOP, 3, CancelRequest(FIRST))

  lemma BuyerRegrets(a: nat, b: nat)
    ensures var (c, ev) := Consumer.Step(Town(a, b), BUYER, ORDERED, [Brought(LOOK_BACK)], [], 3);
            c == REGRETTING && Msgs(ev) == [REGRET] && Reqs(ev) == []
  {
    var cfg := Town(a, b);
    var x := Brought(LOOK_BACK);
    WhatIsDue(a, b, 3);
    BuyerHears(cfg, ORDERED, x, x, 3);
    var rows := [HistoryRow(FIRST, true, true)];
    assert rows[1..] == [];
    var popped := ORDERED.(queries := map[]);
    assert ORDERED.queries - {LOOK_BACK} == map[];
    var (c1, ev1) := Consumer.Cancel(BUYER, popped, FIRST, 3);
    assert Consumer.CancelRows(cfg, BUYER, popped, rows, 3, 0, 0) == (c1, ev1 + []);
    assert c1 == REGRETTING;
    assert Consumer.Replies(cfg, BUYER, ORDERED, [x], 3, 0) == (c1, ev1 + []);
    assert Consumer.Mail(BUYER, c1, [], 3) == (c1, []);
    assert c1.(queries := Expire(c1.queries, 3)) == c1;
    assert Consumer.Scheduled(cfg, BUYER, c1, 3, 1) == (c1, []);
    assert ev1 + [] + [] + [] == [ev1[0]];
    OfTwo(ev1[0], ev1[0]);
  }

  function Waits(sku: int): Seller.Incoming { Seller.Incoming(sku, 1, BUYER, PRICE) }

  const CHECKING := Seller.FRESH.(incoming := map[FIRST := Waits(11), SECOND := Waits(12)],
                                  queries := map[CHECK_FIRST := Pending(CHECK_FIRST.topic, 3),
                                                 CHECK_SECOND := Pending(CHECK_SECOND.topic, 3)])

  lemma ShopChecks(a: nat, b: nat)
    ensures var (s, ev) := Seller.Step(Town(a, b), SHOP, Seller.FRESH, [], [Placement(FIRST, 11), Placement(SECOND, 12)], 3);
            s == CHECKING && Msgs(ev) == [] && Reqs(ev) == [Asked(CHECK_FIRST), Asked(CHECK_SECOND)]
  {
    var cfg := Town(a, b);
    var x, y := Placement(FIRST, 11), Placement(SECOND, 12);
    WhatIsDue(a, b, 3);
    assert Seller.Replies(cfg, SHOP, Seller.FRESH, [], 3, 0) == (Seller.FRESH, []);
    ShopReads(cfg, Seller.FRESH, x, y, 3, 0);
    var (s1, ev1) := Seller.OnMessage(cfg, SHOP, Seller.FRESH, x, 3, 0);
    var (s2, ev2) := Seller.OnMessage(cfg, SHOP, s1, y, 3, 1);
    assert s2 == CHECKING;
    assert s2.(queries := Expire(s2.queries, 3)) == s2;
    assert [] + (ev1 + ev2) + [] == [ev1[0], ev2[0]];
    OfTwo(ev1[0], ev2[0]);
  }

  function Entry(sku: int, number: int, status: Status): Seller.Order {
    Seller.Order(sku, 1, BUYER, PRICE, number, status)
  }

  /** The seller's state with both orders accepted or further. */
  function Sold(a: nat, b: nat, first: Status, second: Status): Seller.State {
    Seller.FRESH.(orders := map[FIRST := Entry(11, a, first), SECOND := Entry(12, b, second)], orderIds := [FIRST, SECOND])
  }

  function Acceptance(rid: OrderId, number: int): Message { Message(SHOP, BUYER, 4, OrderAccepted(rid, number, PRICE)) }

  const CONFIRMATION := Message(SHOP, BUYER, 4, CancelConfirmed(FIRST))

  predicate Drawable(a: nat, b: nat) { a < STORE_NUMBERS && b < STORE_NUMBERS }

  lemma ShopTakes(a: nat, b: nat)
    requires Drawable(a, b)
    ensures var (s, ev) := Seller.Replies(Town(a, b), SHOP, CHECKING, [Brought(CHECK_FIRST), Brought(CHECK_SECOND)], 4, 0);
            && s == Sold(a, b, Accepted, Accepted)
            && Msgs(ev) == [Acceptance(FIRST, a), Acceptance(SECOND, b)] && Reqs(ev) == []
  {
    var cfg := Town(a, b);
    var x, y := Brought(CHECK_FIRST), Brought(CHECK_SECOND);
    ShopHears(cfg, CHECKING, x, y, 4);
    var (s1, ev1) := Seller.OnReply(cfg, SHOP, CHECKING, x, 4, 0);
    var (s2, ev2) := Seller.OnReply(cfg, SHOP, s1, y, 4, 1);
    assert StoreNumber(cfg, FIRST) == a && StoreNumber(cfg, SECOND) == b;
    assert s2 == Sold(a, b, Accepted, Accepted);
    assert ev1 + ev2 == [ev1[0], ev2[0]];
    OfTwo(ev1[0], ev2[0]);
  }

  /** At tick 4 both orders are accepted, and then the first is cancelled. */
  lemma ShopAccepts(a: nat, b: nat)
    requires Drawable(a, b)
    ensures var (s, ev) := Seller.Step(Town(a, b), SHOP, CHECKING, [Brought(CHECK_FIRST), Brought(CHECK_SECOND)], [REGRET], 4);
            s == Sold(a, b, Cancelled, Accepted) && Reqs(ev) == []
            && Msgs(ev) == [Acceptance(FIRST, a), Acceptance(SECOND, b), CONFIRMATION]
  {
    hide Seller.Replies, Town;
    var cfg := Town(a, b);
    WhatIsDue(a, b, 4);
    var (s2, ev2) := Seller.Replies(cfg, SHOP, CHECKING, [Brought(CHECK_FIRST), Brought(CHECK_SECOND)], 4, 0);
    ShopTakes(a, b);
    ShopReads(cfg, s2, REGRET, REGRET, 4, 2);
    var (s3, ev3) := Seller.OnMessage(cfg, SHOP, s2, REGRET, 4, 2);
    assert s3 == Sold(a, b, Cancelled, Accepted);
    assert s3.(queries := Expire(s3.queries, 4)) == s3;
    assert ev3 == [ev3[0]];
    MsgsOne(ev3[0]);
    MsgsAppend(ev2, ev3);
    NothingAdded(ev2 + ev3);
  }

  /** After tick 5 the first order is closed as cancelled, and both have been paid for. */
  function Paying(a: nat, b: nat): Consumer.State {
    Consumer.State(map[SECOND := Wish(12, Accepted, Some(b))],
                   [Consumer.Closed(FIRST, Wish(11, Cancelled, Some(a)))], CART, map[])
  }

  function Money(rid: OrderId, number: int): Message { Message(BUYER, SHOP, 5, Payment(rid, number, PRICE)) }

  lemma BuyerPays(a: nat, b: nat)
    ensures var (c, ev) := Consumer.Step(Town(a, b), BUYER, REGRETTING, [],
                                         [Acceptance(FIRST, a), Acceptance(SECOND, b), CONFIRMATION], 5);
            c == Paying(a, b) && Msgs(ev) == [Money(FIRST, a), Money(SECOND, b)] && Reqs(ev) == []
  {
    var cfg := Town(a, b);
    WhatIsDue(a, b, 5);
    assert Consumer.Replies(cfg, BUYER, REGRETTING, [], 5, 0) == (REGRETTING, []);
    BuyerReads(REGRETTING, Acceptance(FIRST, a), Acceptance(SECOND, b), CONFIRMATION, 5);
    var (c1, ev1) := Consumer.OnMessage(BUYER, REGRETTING, Acceptance(FIRST, a), 5);
    var (c2, ev2) := Consumer.OnMessage(BUYER, c1, Acceptance(SECOND, b), 5);
    var (c3, ev3) := Consumer.OnMessage(BUYER, c2, CONFIRMATION, 5);
    assert c3 == Paying(a, b);
    assert c3.(queries := Expire(c3.queries, 5)) == c3;
    assert Consumer.Scheduled(cfg, BUYER, c3, 5, 3) == (c3, []) by { NothingAdded<Event>([]); }
    assert [] + (ev1 + (ev2 + ev3)) + [] == [ev1[0], ev2[0], ev3[0]];
    OfThree(ev1[0], ev2[0], ev3[0]);
  }

  function Freighted(b: nat): Message {
    Message(SHOP, CARRIER, 6, ShipRequest(Some(b), None, SHOP, BUYER, 12, 1, ConsumerOrder))
  }

  /** At tick 6 the payment of the cancelled order is ignored, the other order is shipped. */
  lemma ShopShips(a: nat, b: nat)
    ensures var (s, ev) := Seller.Step(Town(a, b), SHOP, Sold(a, b, Cancelled, Accepted), [],
                                       [Money(FIRST, a), Money(SECOND, b)], 6);
            s == Sold(a, b, Cancelled, Paid) && Msgs(ev) == [Freighted(b)] && Reqs(ev) == []
  {
    var cfg := Town(a, b);
    var s0 := Sold(a, b, Cancelled, Accepted);
    WhatIsDue(a, b, 6);
    assert Seller.Replies(cfg, SHOP, s0, [], 6, 0) == (s0, []);
    ShopReads(cfg, s0, Money(FIRST, a), Money(SECOND, b), 6, 0);
    assert Seller.OnMessage(cfg, SHOP, s0, Money(FIRST, a), 6, 0) == (s0, []);
    var (s2, ev2) := Seller.OnMessage(cfg, SHOP, s0, Money(SECOND, b), 6, 1);
    assert s2 == Sold(a, b, Cancelled, Paid);
    assert ev2[0].messages == [Freighted(b)] + [];
    assert s2.(queries := Expire(s2.queries, 6)) == s2;
    assert [] + ([] + ev2) + [] == [ev2[0]];
    OfTwo(ev2[0], ev2[0]);
  }

  const CRATE := ShipmentId(CARRIER, 7, 0)

  function Arrival(b: nat): Message {
    Message(CARRIER, SHOP, 7, DeliveryComplete(StoreRef(b), CRATE, ConsumerOrder))
  }

  lemma CarrierDelivers(a: nat, b: nat)
    requires b != 0
    ensures var (h, ev) := Transport.Step(Town(a, b), CARRIER, Transport.FRESH, [Freighted(b)], 7, 0);
            h == Transport.FRESH && Msgs(ev) == [Arrival(b)] && Reqs(ev) == []
  {
    var cfg := Town(a, b);
    WhatIsDue(a, b, 7);
    var m := Freighted(b);
    assert [m][1..] == [];
    var h1 := Transport.OnShipRequest(cfg, CARRIER, Transport.FRESH, m.payload, SHOP, 7, 0);
    assert Transport.Mail(cfg, CARRIER, Transport.FRESH, [m], 7, 0) == h1;
    var x := h1.active[0];
    assert h1.active == [x] && [x][1..] == [];
    assert Transport.Transit(cfg, CRATE) == 0;
    var e := Transport.DeliveryEvent(CARRIER, x, 7);
    assert Transport.Track(CARRIER, [x], 7) == ([] + [], [e] + []);
    assert h1.backlog + ([e] + []) == [h1.backlog[0], e];
    OfTwo(h1.backlog[0], e);
  }

  /** At tick 8 the delivery is booked on the first order that has its number. */
  lemma ShopBooks(a: nat, b: nat)
    requires b != 0
    ensures var (s, ev) := Seller.Step(Town(a, b), SHOP, Sold(a, b, Cancelled, Paid), [], [Arrival(b)], 8);
            && s == (if a == b then Sold(a, b, Delivered, Paid) else Sold(a, b, Cancelled, Delivered))
            && Msgs(ev) == [Message(SHOP, BUYER, 8, ShipmentNotification(if a == b then FIRST else SECOND, b, CRATE))]
            && Reqs(ev) == []
  {
    var cfg := Town(a, b);
    var s0 := Sold(a, b, Cancelled, Paid);
    WhatIsDue(a, b, 8);
    assert Seller.Replies(cfg, SHOP, s0, [], 8, 0) == (s0, []);
    ShopReads(cfg, s0, Arrival(b), Arrival(b), 8, 0);
    assert [FIRST, SECOND][1..] == [SECOND];
    assert Seller.Find(s0, [SECOND], StoreRef(b)) == Some(SECOND);
    assert Seller.Find(s0, [FIRST, SECOND], StoreRef(b)) == Some(if a == b then FIRST else SECOND);
    var (s1, ev1) := Seller.OnMessage(cfg, SHOP, s0, Arrival(b), 8, 0);
    assert s1 == if a == b then Sold(a, b, Delivered, Paid) else Sold(a, b, Cancelled, Delivered);
    assert s1.(queries := Expire(s1.queries, 8)) == s1;
    assert [] + ev1 + [] == [ev1[0]];
    OfTwo(ev1[0], ev1[0]);
  }

  // -------------------------------------------------------------- the run

  /** The consumer, the seller, the mail and the results after each of the first eight ticks. */
  ghost predicate Scene(a: nat, b: nat, t: nat, u: World<Agent>) {
    match t
    case 0 => Stage(u, 0, Consumer.FRESH, Seller.FRESH, [], [])
    case 1 => Stage(u, 1, LOOKING, Seller.FRESH, [], [Brought(LOOK_FIRST), Brought(LOOK_SECOND)])
    case 2 => Stage(u, 2, ORDERED, Seller.FRESH, [Placement(FIRST, 11), Placement(SECOND, 12)], [Brought(LOOK_BACK)])
    case 3 => Stage(u, 3, REGRETTING, CHECKING, [REGRET], [Brought(CHECK_FIRST), Brought(CHECK_SECOND)])
    case 4 => Stage(u, 4, REGRETTING, Sold(a, b, Cancelled, Accepted),
                    [Acceptance(FIRST, a), Acceptance(SECOND, b), CONFIRMATION], [])
    case 5 => Stage(u, 5, Paying(a, b), Sold(a, b, Cancelled, Accepted), [Money(FIRST, a), Money(SECOND, b)], [])
    case 6 => Stage(u, 6, Paying(a, b), Sold(a, b, Cancelled, Paid), [Freighted(b)], [])
    case 7 => Stage(u, 7, Paying(a, b), Sold(a, b, Cancelled, Paid), [Arrival(b)], [])
    case _ => u.agents == People(Paying(a, b), if a == b then Sold(a, b, Delivered, Paid) else Sold(a, b, Cancelled, Delivered))
  }

  lemma AnswersTo(a: nat, b: nat, x: QueryId, y: QueryId)
    ensures Answers(Answer(Town(a, b)), [Asked(x)]) == [Brought(x)]
    ensures Answers(Answer(Town(a, b)), [Asked(x), Asked(y)]) == [Brought(x), Brought(y)]
    ensures Answers(Answer(Town(a, b)), []) == [] && Msgs([]) == [] && Reqs([]) == []
  {
    var f := Answer(Town(a, b));
    assert [Asked(x), Asked(y)][1..] == [Asked(y)] && [Asked(y)][1..] == [] && [Asked(x)][1..] == [];
    assert Answers(f, [Asked(y)]) == [Brought(y)] + [];
  }

  lemma InIdOrder(a: nat, b: nat, x: QueryId, y: QueryId)
    requires x.agent == y.agent && x.item <= y.item
    ensures Tidy(Town(a, b), [Brought(x)], x.agent) && Tidy(Town(a, b), [Brought(x), Brought(y)], x.agent)
    ensures Tidy(Town(a, b), [], 0) && Sorted(MailKey, [])
  {
  }

  lemma Tick1(a: nat, b: nat, u: World<Agent>)
    requires Scene(a, b, 0, u)
    ensures Scene(a, b, 1, Step(TheMachine(Town(a, b)), u))
  {
    hide Step, Consumer.Step, Seller.Step, Transport.Step, Town, Answers, Sorted, Tidy, Msgs, Reqs;
    var cfg := Town(a, b);
    BuyerLooks(a, b);
    ShopRests(a, b, Seller.FRESH, 1);
    CarrierRests(a, b, 1);
    InIdOrder(a, b, LOOK_BACK, LOOK_BACK);
    AnswersTo(a, b, LOOK_FIRST, LOOK_SECOND);
    var asked := [Asked(LOOK_FIRST), Asked(LOOK_SECOND)];
    assert asked + [] + [] == asked;
    Advance(cfg, u, 0, Consumer.FRESH, Seller.FRESH, [], 0, 0, [], 0, [], asked);
  }

  lemma Tick2(a: nat, b: nat, u: World<Agent>)
    requires Scene(a, b, 1, u)
    ensures Scene(a, b, 2, Step(TheMachine(Town(a, b)), u))
  {
    hide Step, Consumer.Step, Seller.Step, Transport.Step, Town, Answers, Sorted, Tidy, Msgs, Reqs;
    var cfg := Town(a, b);
    BuyerOrders(a, b);
    ShopRests(a, b, Seller.FRESH, 2);
    CarrierRests(a, b, 2);
    InIdOrder(a, b, LOOK_FIRST, LOOK_SECOND);
    AnswersTo(a, b, LOOK_BACK, LOOK_BACK);
    var mail1 := [Placement(FIRST, 11), Placement(SECOND, 12)];
    OneWaySorted(mail1, BUYER, SHOP, 2);
    assert mail1 + [] + [] == mail1 && [Asked(LOOK_BACK)] + [] + [] == [Asked(LOOK_BACK)];
    Advance(cfg, u, 1, LOOKING, Seller.FRESH, [], 0, 0, [Brought(LOOK_FIRST), Brought(LOOK_SECOND)], BUYER, mail1,
            [Asked(LOOK_BACK)]);
  }

  lemma Tick3(a: nat, b: nat, u: World<Agent>)
    requires Scene(a, b, 2, u)
    ensures Scene(a, b, 3, Step(TheMachine(Town(a, b)), u))
  {
    hide Step, Consumer.Step, Seller.Step, Transport.Step, Town, Answers, Sorted, Tidy, Msgs, Reqs;
    var cfg := Town(a, b);
    BuyerRegrets(a, b);
    ShopChecks(a, b);
    CarrierRests(a, b, 3);
    InIdOrder(a, b, LOOK_BACK, LOOK_BACK);
    AnswersTo(a, b, CHECK_FIRST, CHECK_SECOND);
    var asked := [Asked(CHECK_FIRST), Asked(CHECK_SECOND)];
    OneWaySorted([REGRET], BUYER, SHOP, 3);
    assert [REGRET] + [] + [] == [REGRET] && [] + asked + [] == asked;
    Advance(cfg, u, 2, ORDERED, Seller.FRESH, [Placement(FIRST, 11), Placement(SECOND, 12)], BUYER, SHOP,
            [Brought(LOOK_BACK)], BUYER, [REGRET], asked);
  }

  lemma Tick4(a: nat, b: nat, u: World<Agent>)
    requires Scene(a, b, 3, u) && Drawable(a, b)
    ensures Scene(a, b, 4, Step(TheMachine(Town(a, b)), u))
  {
    hide Step, Consumer.Step, Seller.Step, Transport.Step, Town, Answers, Sorted, Tidy, Msgs, Reqs;
    var cfg := Town(a, b);
    BuyerRests(a, b, REGRETTING, 4);
    ShopAccepts(a, b);
    CarrierRests(a, b, 4);
    InIdOrder(a, b, CHECK_FIRST, CHECK_SECOND);
    AnswersTo(a, b, LOOK_BACK, LOOK_BACK);
    var mail1 := [Acceptance(FIRST, a), Acceptance(SECOND, b), CONFIRMATION];
    OneWaySorted(mail1, SHOP, BUYER, 4);
    assert [] + mail1 + [] == mail1;
    Advance(cfg, u, 3, REGRETTING, CHECKING, [REGRET], BUYER, SHOP, [Brought(CHECK_FIRST), Brought(CHECK_SECOND)], SHOP,
            mail1, []);
  }

  lemma Tick5(a: nat, b: nat, u: World<Agent>)
    requires Scene(a, b, 4, u)
    ensures Scene(a, b, 5, Step(TheMachine(Town(a, b)), u))
  {
    hide Step, Consumer.Step, Seller.Step, Transport.Step, Town, Answers, Sorted, Tidy, Msgs, Reqs;
    var cfg := Town(a, b);
    BuyerPays(a, b);
    ShopRests(a, b, Sold(a, b, Cancelled, Accepted), 5);
    CarrierRests(a, b, 5);
    InIdOrder(a, b, LOOK_BACK, LOOK_BACK);
    AnswersTo(a, b, LOOK_BACK, LOOK_BACK);
    var mail1 := [Money(FIRST, a), Money(SECOND, b)];
    OneWaySorted(mail1, BUYER, SHOP, 5);
    assert mail1 + [] + [] == mail1;
    Advance(cfg, u, 4, REGRETTING, Sold(a, b, Cancelled, Accepted), [Acceptance(FIRST, a), Acceptance(SECOND, b), CONFIRMATION],
            SHOP, BUYER, [], 0, mail1, []);
  }

  lemma Tick6(a: nat, b: nat, u: World<Agent>)
    requires Scene(a, b, 5, u)
    ensures Scene(a, b, 6, Step(TheMachine(Town(a, b)), u))
  {
    hide Step, Consumer.Step, Seller.Step, Transport.Step, Town, Answers, Sorted, Tidy, Msgs, Reqs;
    var cfg := Town(a, b);
    BuyerRests(a, b, Paying(a, b), 6);
    ShopShips(a, b);
    CarrierRests(a, b, 6);
    InIdOrder(a, b, LOOK_BACK, LOOK_BACK);
    AnswersTo(a, b, LOOK_BACK, LOOK_BACK);
    OneWaySorted([Freighted(b)], SHOP, CARRIER, 6);
    assert [] + [Freighted(b)] + [] == [Freighted(b)];
    Advance(cfg, u, 5, Paying(a, b), Sold(a, b, Cancelled, Accepted), [Money(FIRST, a), Money(SECOND, b)], BUYER, SHOP, [], 0,
            [Freighted(b)], []);
  }

  lemma Tick7(a: nat, b: nat, u: World<Agent>)
    requires Scene(a, b, 6, u) && b != 0
    ensures Scene(a, b, 7, Step(TheMachine(Town(a, b)), u))
  {
    hide Step, Consumer.Step, Seller.Step, Transport.Step, Town, Answers, Sorted, Tidy, Msgs, Reqs;
    var cfg := Town(a, b);
    BuyerRests(a, b, Paying(a, b), 7);
    ShopRests(a, b, Sold(a, b, Cancelled, Paid), 7);
    CarrierDelivers(a, b);
    InIdOrder(a, b, LOOK_BACK, LOOK_BACK);
    AnswersTo(a, b, LOOK_BACK, LOOK_BACK);
    OneWaySorted([Arrival(b)], CARRIER, SHOP, 7);
    assert [] + [] + [Arrival(b)] == [Arrival(b)];
    Advance(cfg, u, 6, Paying(a, b), Sold(a, b, Cancelled, Paid), [Freighted(b)], SHOP, CARRIER, [], 0, [Arrival(b)], []);
  }

  lemma Tick8(a: nat, b: nat, u: World<Agent>)
    requires Scene(a, b, 7, u) && b != 0
    ensures Scene(a, b, 8, Step(TheMachine(Town(a, b)), u))
  {
    hide Step, Consumer.Step, Seller.Step, Transport.Step, Town, Answers, Sorted, Tidy, Msgs, Reqs;
    var cfg := Town(a, b);
    BuyerRests(a, b, Paying(a, b), 8);
    ShopBooks(a, b);
    CarrierRests(a, b, 8);
    InIdOrder(a, b, LOOK_BACK, LOOK_BACK);
    AnswersTo(a, b, LOOK_BACK, LOOK_BACK);
    var notice := Message(SHOP, BUYER, 8, ShipmentNotification(if a == b then FIRST else SECOND, b, CRATE));
    OneWaySorted([notice], SHOP, BUYER, 8);
    assert [] + [notice] + [] == [notice];
    Advance(cfg, u, 7, Paying(a, b), Sold(a, b, Cancelled, Paid), [Arrival(b)], CARRIER, SHOP, [], 0, [notice], []);
  }

  /** The market run, for any store numbers that the two orders may draw. */
  lemma Played(a: nat, b: nat, t: nat)
    requires Drawable(a, b) && b != 0 && t <= 8
    ensures Scene(a, b, t, At(Town(a, b), OPENING, t))
  {
    hide Step, Scene, Town;
    if t == 0 {
      assert Scene(a, b, 0, OPENING) by { Opened(a, b); }
    } else {
      Played(a, b, t - 1);
      var u := At(Town(a, b), OPENING, t - 1);
      if t == 1 { Tick1(a, b, u); }
      if t == 2 { Tick2(a, b, u); }
      if t == 3 { Tick3(a, b, u); }
      if t == 4 { Tick4(a, b, u); }
      if t == 5 { Tick5(a, b, u); }
      if t == 6 { Tick6(a, b, u); }
      if t == 7 { Tick7(a, b, u); }
      if t == 8 { Tick8(a, b, u); }
    }
  }

  lemma Opened(a: nat, b: nat)
    ensures Scene(a, b, 0, OPENING)
  {
  }
}
