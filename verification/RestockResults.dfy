/** What conservation in the restock loop comes to: quantities credited, and every restock exactly once. */
module RestockResults {
  import opened Seqs
  import opened Messages
  import opened Settings
  import opened Engine
  import opened Routing
  import opened Simulation
  import opened Manners
  import opened Restocks
  import opened RestockLoop
  import Consumer
  import Seller
  import Supplier
  import Transport

  // -------------------------------------------------------------- credits

  /** The quantity of a SKU that a delivery message brings to a seller. */
  function Bringing(s: int, sku: int): Message -> int {
    (m: Message) => if m.payload.RestockDelivered? && m.to == s && m.payload.sku == sku then m.payload.qty else 0
  }

  function Ordering(s: int, sku: int): Message -> int {
    (m: Message) => if m.payload.RestockOrder? && m.from == s && m.payload.sku == sku then m.payload.qty else 0
  }

  function DeltaOf(sku: int): Write -> int {
    (x: Write) => if x.UpdateInventory? && x.sku == sku then x.delta else 0
  }

  /** What a log entry credits to a seller's stock of a SKU on account of a restock. */
  function Credit(s: int, sku: int): Event -> int {
    (e: Event) => if e.agent == s && e.kind == StoreInventoryUpdate then Sum(DeltaOf(sku), e.writes) else 0
  }

  function Settled(s: int, sku: int): Event -> int {
    (e: Event) => Sum(Bringing(s, sku), e.messages) - Credit(s, sku)(e)
  }

  lemma {:induction false} SettledSum(s: int, sku: int, ev: seq<Event>)
    ensures Sum(Settled(s, sku), ev) == Sum(Bringing(s, sku), Msgs(ev)) - Sum(Credit(s, sku), ev)
  {
    if ev != [] {
      SettledSum(s, sku, ev[1..]);
      SumAppend(Bringing(s, sku), ev[0].messages, Msgs(ev[1..]));
    }
  }

  lemma NoCredit(s: int, sku: int, ev: seq<Event>)
    requires forall e :: e in ev ==> e.agent != s || e.kind != StoreInventoryUpdate
    ensures Sum(Credit(s, sku), ev) == 0
  {
    SumZero(Credit(s, sku), ev);
  }

  lemma CreditMessage(cfg: Config, me: int, st: Seller.State, m: Message, tick: int, item: int, sku: int)
    requires m.to == me
    ensures Sum(Credit(me, sku), Seller.OnMessage(cfg, me, st, m, tick, item).1) == Bringing(me, sku)(m)
  {
    var ev := Seller.OnMessage(cfg, me, st, m, tick, item).1;
    if ev != [] {
      assert ev == [ev[0]];
      SumOne(Credit(me, sku), ev[0]);
      if m.payload.RestockDelivered? {
        SumOne(DeltaOf(sku), ev[0].writes[0]);
        assert ev[0].writes == [ev[0].writes[0]];
      }
    }
  }

  lemma {:induction false} CreditMail(cfg: Config, me: int, st: Seller.State, mail: seq<Message>, tick: int,
          item: int, sku: int)
    requires forall m :: m in mail ==> m.to == me
    ensures Sum(Credit(me, sku), Seller.Mail(cfg, me, st, mail, tick, item).1) == Sum(Bringing(me, sku), mail)
    decreases |mail|
  {
    if mail != [] {
      var (st1, ev1) := Seller.OnMessage(cfg, me, st, mail[0], tick, item);
      CreditMessage(cfg, me, st, mail[0], tick, item, sku);
      CreditMail(cfg, me, st1, mail[1..], tick, item + 1, sku);
      SumAppend(Credit(me, sku), ev1, Seller.Mail(cfg, me, st1, mail[1..], tick, item + 1).1);
    }
  }

  lemma {:induction false} RepliesCreditNothing(cfg: Config, me: int, st: Seller.State, xs: seq<Reply>, tick: int,
          item: int)
    ensures forall e :: e in Seller.Replies(cfg, me, st, xs, tick, item).1 ==> e.kind != StoreInventoryUpdate
    decreases |xs|
  {
    if xs != [] {
      RepliesCreditNothing(cfg, me, Seller.OnReply(cfg, me, st, xs[0], tick, item).0, xs[1..], tick, item + 1);
    }
  }

  /** A seller's step, in its three phases. */
  lemma StepSum(f: Event -> int, cfg: Config, me: int, st: Seller.State, xs: seq<Reply>, mail: seq<Message>, tick: int)
    ensures var (st1, ev1) := Seller.Replies(cfg, me, st, xs, tick, 0);
            var (st2, ev2) := Seller.Mail(cfg, me, st1, mail, tick, |xs|);
            var ev3 := Seller.Scheduled(cfg, me, st2.(queries := Expire(st2.queries, tick)), tick, |xs| + |mail|).1;
            Sum(f, Seller.Step(cfg, me, st, xs, mail, tick).1) == Sum(f, ev1) + Sum(f, ev2) + Sum(f, ev3)
  {
    hide Seller.Replies, Seller.Mail, Seller.Scheduled, Expire, Sum;
    var (st1, ev1) := Seller.Replies(cfg, me, st, xs, tick, 0);
    var (st2, ev2) := Seller.Mail(cfg, me, st1, mail, tick, |xs|);
    var ev3 := Seller.Scheduled(cfg, me, st2.(queries := Expire(st2.queries, tick)), tick, |xs| + |mail|).1;
    SumAppend(f, ev1, ev2);
    SumAppend(f, ev1 + ev2, ev3);
  }

  lemma ScheduleQuiet(cfg: Config, me: int, st: Seller.State, tick: int, item: int)
    ensures forall e :: e in Seller.Scheduled(cfg, me, st, tick, item).1 ==> e.kind == QueryRequested && e.writes == []
  {
  }

  lemma CreditStep(cfg: Config, me: int, st: Seller.State, xs: seq<Reply>, mail: seq<Message>, tick: int, sku: int)
    requires forall m :: m in mail ==> m.to == me
    ensures Sum(Credit(me, sku), Seller.Step(cfg, me, st, xs, mail, tick).1) == Sum(Bringing(me, sku), mail)
  {
    hide Seller.Replies, Seller.Mail, Seller.Scheduled, Seller.Step, Expire;
    var (st1, ev1) := Seller.Replies(cfg, me, st, xs, tick, 0);
    var (st2, ev2) := Seller.Mail(cfg, me, st1, mail, tick, |xs|);
    var st3 := st2.(queries := Expire(st2.queries, tick));
    StepSum(Credit(me, sku), cfg, me, st, xs, mail, tick);
    RepliesCreditNothing(cfg, me, st, xs, tick, 0);
    NoCredit(me, sku, ev1);
    CreditMail(cfg, me, st1, mail, tick, |xs|, sku);
    ScheduleQuiet(cfg, me, st3, tick, |xs| + |mail|);
    NoCredit(me, sku, Seller.Scheduled(cfg, me, st3, tick, |xs| + |mail|).1);
  }

  // -------------------------------------------------------------- credits over a run

  function Nothing(): (int, Agent) -> int { (a: int, st: Agent) => 0 }

  lemma TurnCredits(cfg: Config, w: World<Agent>, a: int, s: int, sku: int)
    requires Consistent(cfg, w) && IsSeller(w, s) && a in w.agents
    ensures Balanced(TheMachine(cfg), w, Bringing(s, sku), Nothing(), Settled(s, sku), a)
  {
    hide Seller.Step, Turn, Handled, HandledReplies;
    var m := TheMachine(cfg);
    var ev := Turn(m, w, a).1;
    var mine := Filter(ToAgent(a), w.mail);
    SettledSum(s, sku, ev);
    if a == s {
      HandledIsMail(cfg, w, a);
      TurnIs(cfg, w, a);
      CreditStep(cfg, a, w.agents[a].s, HandledReplies(m, w, a), mine, w.tick + 1, sku);
    } else {
      TurnSigned(cfg, w, a);
      NoCredit(s, sku, ev);
      SumZero(Bringing(s, sku), mine);
    }
  }

  lemma NothingCredited(cfg: Config, w: World<Agent>, s: int, sku: int)
    requires Initial(w)
    ensures At(cfg, w, 0) == w
    ensures Sum(Bringing(s, sku), Msgs(w.log)) == 0 && Sum(Credit(s, sku), w.log) == 0 && Sum(Bringing(s, sku), w.mail) == 0
  {
  }

  /** What was sent to a seller is what was credited there, but for what is in the mail right now. */
  lemma {:induction false} Credited(cfg: Config, w: World<Agent>, t: nat, s: int, sku: int)
    requires Initial(w) && LoopStaffed(cfg, w) && IsSeller(w, s)
    ensures var u := At(cfg, w, t);
            IsSeller(u, s)
            && Sum(Bringing(s, sku), Msgs(u.log)) == Sum(Credit(s, sku), u.log) + Sum(Bringing(s, sku), u.mail)
  {
    hide Step, Consistent, LoopStaffed, Bringing, Credit, IsSeller, Settled, Initial, Sum, Msgs;
    if t == 0 {
      NothingCredited(cfg, w, s, sku);
    } else {
      var u := At(cfg, w, t - 1);
      Credited(cfg, w, t - 1, s, sku);
      AlwaysConsistent(cfg, w, t - 1);
      assert At(cfg, w, t) == Step(TheMachine(cfg), u);
      RoleKept(cfg, u, s);
      CreditRound(cfg, u, s, sku);
      SettledSum(s, sku, u.log);
      SettledSum(s, sku, At(cfg, w, t).log);
    }
  }

  lemma AlwaysConsistent(cfg: Config, w: World<Agent>, t: nat)
    requires Initial(w) && LoopStaffed(cfg, w)
    ensures Consistent(cfg, At(cfg, w, t))
  {
    hide At, Consistent, LoopStaffed, Initial;
    RestockConserved(cfg, w, t, id => 0);
  }

  lemma CreditRound(cfg: Config, u: World<Agent>, s: int, sku: int)
    requires Consistent(cfg, u) && IsSeller(u, s)
    ensures var v := Step(TheMachine(cfg), u);
            Sum(Bringing(s, sku), v.mail) - Sum(Settled(s, sku), v.log)
              == Sum(Bringing(s, sku), u.mail) - Sum(Settled(s, sku), u.log)
  {
    hide Step, Consistent;
    var v := Step(TheMachine(cfg), u);
    forall a | a in u.agents ensures Balanced(TheMachine(cfg), u, Bringing(s, sku), Nothing(), Settled(s, sku), a) {
      TurnCredits(cfg, u, a, s, sku);
    }
    StepConserves(TheMachine(cfg), u, Bringing(s, sku), Nothing(), Settled(s, sku));
    SumZero(HoldBefore(u, Nothing()), SortedIds(u.agents.Keys));
    SumZero(HoldBefore(v, Nothing()), SortedIds(v.agents.Keys));
  }

  // -------------------------------------------------------------- quantities

  /** A message about a restock agrees with the restock's id. */
  predicate Faithful(m: Message) {
    match m.payload
    case RestockOrder(id, sku, qty, store) => m.from == id.seller && store == id.seller && sku == id.sku && qty == RESTOCK_QTY
    case RestockDelivered(id, sku, qty) => m.to == id.seller && sku == id.sku && qty == RESTOCK_QTY
    case _ => true
  }

  lemma {:induction false} LogFaithful(cfg: Config, w: World<Agent>, t: nat)
    requires Initial(w) && LoopStaffed(cfg, w)
    ensures forall m :: m in Msgs(At(cfg, w, t).log) ==> Faithful(m)
  {
    hide Step, Consistent, LoopStaffed, Faithful, Truthful;
    if t > 0 {
      LogFaithful(cfg, w, t - 1);
      AlwaysConsistent(cfg, w, t);
      var u := At(cfg, w, t - 1);
      forall m | m in Msgs(At(cfg, w, t).log) ensures Faithful(m) {
        NewInMail(TheMachine(cfg), u, m);
        if m !in Msgs(u.log) {
          MailFaithful(cfg, At(cfg, w, t), m);
        }
      }
    }
  }

  lemma MailFaithful(cfg: Config, w: World<Agent>, m: Message)
    requires Consistent(cfg, w) && m in w.mail
    ensures Faithful(m)
  {
    assert Truthful(w, m);
  }

  lemma NewInMail(m: Machine<Agent>, w: World<Agent>, x: Message)
    requires x in Msgs(Step(m, w).log)
    ensures x in Msgs(w.log) || x in Step(m, w).mail
  {
    var events := Cat(Block(m, w), SortedIds(w.agents.Keys));
    MsgsAppend(w.log, events);
    SortMembers(MailKey, Msgs(events));
  }

  /** Every restock of a SKU by a seller counts its quantity. */
  function Quantity(s: int, sku: int): Weight {
    (id: RestockId) => if id.seller == s && id.sku == sku then RESTOCK_QTY else 0
  }

  /** The quantity under way to a seller: orders, ship requests, shipments, delivery notices, and deliveries. */
  function InFlight(s: int, sku: int, w: World<Agent>): int {
    UnderWay(Quantity(s, sku), w) + Sum(Bringing(s, sku), w.mail)
  }

  /**
   * Restock conservation: at every tick of every run, for each seller and SKU, the quantity ordered is
   * the quantity credited to the stock plus the quantity in flight.
   */
  lemma RestockQuantities(cfg: Config, w: World<Agent>, t: nat, s: int, sku: int)
    requires Initial(w) && LoopStaffed(cfg, w) && IsSeller(w, s)
    ensures var u := At(cfg, w, t);
            Sum(Ordering(s, sku), Msgs(u.log)) == Sum(Credit(s, sku), u.log) + InFlight(s, sku, u)
  {
    hide Step, Consistent, LoopStaffed, IsSeller, Credit, UnderWay;
    var u := At(cfg, w, t);
    LogFaithful(cfg, w, t);
    Credited(cfg, w, t, s, sku);
    RestockConserved(cfg, w, t, Quantity(s, sku));
    SumAgree(Ordering(s, sku), Ordered(Quantity(s, sku)), Msgs(u.log));
    SumAgree(Bringing(s, sku), Forwarded(Quantity(s, sku)), Msgs(u.log));
  }

  // -------------------------------------------------------------- one by one

  function OrdersIt(id: RestockId): Message -> bool {
    (m: Message) => m.payload.RestockOrder? && m.payload.id == id
  }

  lemma RowsOnce(cfg: Config, me: int, st: Seller.State, rows: seq<StockRow>, tick: int, item: int, row: int,
          id: RestockId)
    ensures |Filter(OrdersIt(id), Seller.RestockRows(cfg, me, st, rows, tick, item, row).1)|
         <= if id.item == item && id.row >= row then 1 else 0
    decreases |rows|
  {
    if rows != [] && rows[0].qty < RESTOCK_BELOW && SupplierOf(cfg, rows[0].sku).Some? {
      var supplier := SupplierOf(cfg, rows[0].sku).value;
      var drawn := RestockId(me, tick, item, row, rows[0].sku);
      var st1 := st.(restocks := st.restocks[Seller.Uuid(drawn) := Seller.RestockEntry(rows[0].sku, RESTOCK_QTY, supplier, false)]);
      var rest := Seller.RestockRows(cfg, me, st1, rows[1..], tick, item, row + 1).1;
      var first := Message(me, supplier, tick, RestockOrder(drawn, rows[0].sku, RESTOCK_QTY, me));
      RowsOnce(cfg, me, st1, rows[1..], tick, item, row + 1, id);
      assert ([first] + rest)[1..] == rest;
    } else if rows != [] {
      RowsOnce(cfg, me, st, rows[1..], tick, item, row + 1, id);
    }
  }

  lemma ReplyOnce(cfg: Config, me: int, st: Seller.State, x: Reply, tick: int, item: int, id: RestockId)
    ensures |Filter(OrdersIt(id), Msgs(Seller.OnReply(cfg, me, st, x, tick, item).1))| <= if id.item == item then 1 else 0
  {
    var ev := Seller.OnReply(cfg, me, st, x, tick, item).1;
    if ev != [] {
      assert ev == [ev[0]];
      MsgsOne(ev[0]);
      if st.queries[x.id].topic.InventoryLevels? {
        RowsOnce(cfg, me, st.(queries := st.queries - {x.id}), Seller.StockRows(x.data), tick, item, 0, id);
      } else {
        FilterNone(OrdersIt(id), ev[0].messages);
      }
    }
  }

  lemma {:induction false} RepliesOnce(cfg: Config, me: int, st: Seller.State, xs: seq<Reply>, tick: int, item: int,
          id: RestockId)
    ensures |Filter(OrdersIt(id), Msgs(Seller.Replies(cfg, me, st, xs, tick, item).1))| <= if id.item >= item then 1 else 0
    decreases |xs|
  {
    if xs != [] {
      var (st1, ev1) := Seller.OnReply(cfg, me, st, xs[0], tick, item);
      var ev2 := Seller.Replies(cfg, me, st1, xs[1..], tick, item + 1).1;
      ReplyOnce(cfg, me, st, xs[0], tick, item, id);
      RepliesOnce(cfg, me, st1, xs[1..], tick, item + 1, id);
      MsgsAppend(ev1, ev2);
      FilterAppend(OrdersIt(id), Msgs(ev1), Msgs(ev2));
    }
  }

  /** Only on a result does a seller order a restock. */
  lemma MessageOrdersNothing(cfg: Config, me: int, st: Seller.State, m: Message, tick: int, item: int)
    ensures forall x :: x in Msgs(Seller.OnMessage(cfg, me, st, m, tick, item).1) ==> !x.payload.RestockOrder?
  {
    hide Seller.Find;
    var ev := Seller.OnMessage(cfg, me, st, m, tick, item).1;
    if ev != [] {
      assert ev == [ev[0]];
      MsgsOne(ev[0]);
    }
  }

  lemma {:induction false} MailOrdersNothing(cfg: Config, me: int, st: Seller.State, mail: seq<Message>, tick: int,
          item: int)
    ensures forall m :: m in Msgs(Seller.Mail(cfg, me, st, mail, tick, item).1) ==> !m.payload.RestockOrder?
    decreases |mail|
  {
    hide Seller.OnMessage;
    if mail != [] {
      var (st1, ev1) := Seller.OnMessage(cfg, me, st, mail[0], tick, item);
      MessageOrdersNothing(cfg, me, st, mail[0], tick, item);
      MailOrdersNothing(cfg, me, st1, mail[1..], tick, item + 1);
      MsgsAppend(ev1, Seller.Mail(cfg, me, st1, mail[1..], tick, item + 1).1);
    }
  }

  lemma SellerOnce(cfg: Config, me: int, st: Seller.State, xs: seq<Reply>, mail: seq<Message>, tick: int, id: RestockId)
    ensures |Filter(OrdersIt(id), Msgs(Seller.Step(cfg, me, st, xs, mail, tick).1))| <= 1
  {
    hide Seller.Replies, Seller.Mail, Expire;
    var (st1, ev1) := Seller.Replies(cfg, me, st, xs, tick, 0);
    var (st2, ev2) := Seller.Mail(cfg, me, st1, mail, tick, |xs|);
    var ev3 := Seller.Scheduled(cfg, me, st2.(queries := Expire(st2.queries, tick)), tick, |xs| + |mail|).1;
    RepliesOnce(cfg, me, st, xs, tick, 0, id);
    MailOrdersNothing(cfg, me, st1, mail, tick, |xs|);
    FilterNone(OrdersIt(id), Msgs(ev2));
    assert Msgs(ev3) == [];
    MsgsAppend(ev1, ev2);
    MsgsAppend(ev1 + ev2, ev3);
    FilterAppend(OrdersIt(id), Msgs(ev1), Msgs(ev2));
    assert Msgs(ev1) + Msgs(ev2) + [] == Msgs(ev1) + Msgs(ev2);
  }

  /** In a turn other than the one that drew the id, nobody orders it. */
  lemma OthersSilent(cfg: Config, w: World<Agent>, a: int, id: RestockId)
    requires Consistent(cfg, w) && a in w.agents && (a != id.seller || w.tick + 1 != id.tick || !w.agents[a].S?)
    ensures Filter(OrdersIt(id), MailBlock(TheMachine(cfg), w)(a)) == []
  {
    hide Step, Consistent;
    var m := TheMachine(cfg);
    var v := Step(m, w);
    BlockIs(m, w, a);
    forall x | x in Msgs(Turn(m, w, a).1) ensures !OrdersIt(id)(x) {
      if x.payload.RestockOrder? { TurnWords(cfg, w, a, x); }
    }
    FilterNone(OrdersIt(id), Msgs(Turn(m, w, a).1));
  }

  lemma TurnWords(cfg: Config, w: World<Agent>, a: int, x: Message)
    requires Consistent(cfg, w) && a in w.agents && x in Msgs(Turn(TheMachine(cfg), w, a).1) && x.payload.RestockOrder?
    ensures x.payload.id.seller == a && x.payload.id.tick == w.tick + 1 && w.agents[a].S?
  {
    hide Consumer.Step, Seller.Step, Supplier.Mail, Transport.Step, SupplierOf;
    var m := TheMachine(cfg);
    var (mail, xs, tick) := (Handled(m, w, a), HandledReplies(m, w, a), w.tick + 1);
    HandledIsMail(cfg, w, a);
    TurnIs(cfg, w, a);
    var ev := Turn(m, w, a).1;
    match w.agents[a]
    case C(c) => ConsumerStep(cfg, a, c, xs, mail, tick); Spoken(ev, a, tick, ConsumerSays(cfg), ConsumerAsks());
    case S(s) =>
      SellerStep(cfg, a, s, xs, mail, tick);
      Spoken(ev, a, tick, SellerSays(cfg), SellerAsks());
      SellerStepWords(cfg, a, s, xs, mail, tick);
      assert SellerWord(cfg, a, x);
    case P(p) => SupplierStep(cfg, a, p, mail, tick); Spoken(ev, a, tick, SupplierSays(cfg), NoTopic());
    case T(t) => CarrierStep(cfg, a, t, mail, tick, |xs|); Spoken(ev, a, tick, CarrierSays(cfg), NoTopic());
    case G => RecordsQuiet(a, mail, tick); QuietIntake(id => 0, ev);
  }

  lemma DrawnOnce(cfg: Config, w: World<Agent>, id: RestockId)
    requires Consistent(cfg, w) && id.seller in w.agents
    ensures |Filter(OrdersIt(id), MailBlock(TheMachine(cfg), w)(id.seller))| <= if w.tick + 1 == id.tick then 1 else 0
  {
    hide Seller.Step, Consistent;
    var m := TheMachine(cfg);
    var a := id.seller;
    if w.tick + 1 != id.tick || !w.agents[a].S? {
      OthersSilent(cfg, w, a, id);
    } else {
      BlockIs(m, w, a);
      TurnIs(cfg, w, a);
      SellerOnce(cfg, a, w.agents[a].s, HandledReplies(m, w, a), Handled(m, w, a), w.tick + 1, id);
    }
  }

  lemma {:induction false} OrderedOnce(cfg: Config, w: World<Agent>, t: nat, id: RestockId)
    requires Initial(w) && LoopStaffed(cfg, w)
    ensures |Filter(OrdersIt(id), Msgs(At(cfg, w, t).log))| <= if t >= id.tick then 1 else 0
  {
    hide Step, Consistent, LoopStaffed;
    if t > 0 {
      var u := At(cfg, w, t - 1);
      OrderedOnce(cfg, w, t - 1, id);
      AlwaysConsistent(cfg, w, t - 1);
      RunBasics(cfg, w, t - 1);
      assert At(cfg, w, t) == Step(TheMachine(cfg), u);
      OnceMore(cfg, u, id);
    }
  }

  lemma OnceMore(cfg: Config, u: World<Agent>, id: RestockId)
    requires Consistent(cfg, u)
    ensures |Filter(OrdersIt(id), Msgs(Step(TheMachine(cfg), u).log))|
         <= |Filter(OrdersIt(id), Msgs(u.log))| + if u.tick + 1 == id.tick then 1 else 0
  {
    hide Step, Consistent, LoopStaffed;
    var m := TheMachine(cfg);
    forall b | b in u.agents && b != id.seller ensures Filter(OrdersIt(id), MailBlock(m, u)(b)) == [] {
      OthersSilent(cfg, u, b, id);
    }
    if id.seller in u.agents {
      LogMailFromOne(m, u, OrdersIt(id), id.seller);
      DrawnOnce(cfg, u, id);
    } else {
      LogMailFromNone(m, u, OrdersIt(id));
    }
  }

  /** The weighting that counts one restock only. */
  function Only(id: RestockId): Weight {
    (x: RestockId) => if x == id then 1 else 0
  }

  lemma {:induction false} CountOrders(id: RestockId, ms: seq<Message>)
    ensures Sum(Ordered(Only(id)), ms) == |Filter(OrdersIt(id), ms)|
  {
    if ms != [] {
      CountOrders(id, ms[1..]);
    }
  }

  function ForwardsIt(id: RestockId): Message -> bool {
    (m: Message) => m.payload.RestockDelivered? && m.payload.id == id
  }

  lemma {:induction false} CountForwards(id: RestockId, ms: seq<Message>)
    ensures Sum(Forwarded(Only(id)), ms) == |Filter(ForwardsIt(id), ms)|
  {
    if ms != [] {
      CountForwards(id, ms[1..]);
    }
  }

  lemma {:induction false} SumNat<T>(f: T -> int, xs: seq<T>)
    requires forall x :: x in xs ==> f(x) >= 0
    ensures Sum(f, xs) >= 0
  {
    if xs != [] {
      assert xs[0] in xs;
      SumNat(f, xs[1..]);
    }
  }

  lemma NothingOwed(id: RestockId, w: World<Agent>)
    ensures UnderWay(Only(id), w) >= 0
  {
    forall a | a in SortedIds(w.agents.Keys) ensures HoldBefore(w, Stowed(Only(id)))(a) >= 0 {
      if w.agents[a].T? {
        SumNat(Aboard(Only(id)), w.agents[a].t.active);
      }
    }
    SumNat(Load(Only(id)), w.mail);
    SumNat(HoldBefore(w, Stowed(Only(id))), SortedIds(w.agents.Keys));
  }

  /**
   * Every restock is at one place: it is ordered at most once, and once ordered it is either in exactly
   * one order, ship request, shipment or delivery notice, or it has been delivered to the seller, once.
   */
  lemma RestockOnce(cfg: Config, w: World<Agent>, t: nat, id: RestockId)
    requires Initial(w) && LoopStaffed(cfg, w)
    ensures var u := At(cfg, w, t);
            var ordered, delivered := |Filter(OrdersIt(id), Msgs(u.log))|, |Filter(ForwardsIt(id), Msgs(u.log))|;
            && ordered <= 1 && delivered <= ordered
            && UnderWay(Only(id), u) == ordered - delivered
    ensures forall m :: m in Msgs(At(cfg, w, t).log) && ForwardsIt(id)(m) ==>
              m.to == id.seller && m.payload.sku == id.sku && m.payload.qty == RESTOCK_QTY
  {
    hide Step, Consistent, LoopStaffed, UnderWay;
    var u := At(cfg, w, t);
    OrderedOnce(cfg, w, t, id);
    RestockConserved(cfg, w, t, Only(id));
    CountOrders(id, Msgs(u.log));
    CountForwards(id, Msgs(u.log));
    NothingOwed(id, u);
    LogFaithful(cfg, w, t);
  }
}
