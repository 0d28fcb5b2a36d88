/** Every order that a consumer ever holds or has completed was placed at the tick of its id, with the seller of its record. */
module Placements {
  import opened Messages
  import opened Settings
  import opened Engine
  import opened Routing
  import opened Simulation
  import opened Manners
  import opened OneOrder
  import opened Orders
  import opened OrderTheorems
  import opened Ledger
  import opened Inventory
  import Consumer
  import Seller
  import Restocks
  import RestockLoop
  import SellerSide
  import Supplier
  import Transport

  // -------------------------------------------------------------- sellers speak of orders they have

  /** A message that closes an order at its consumer. */
  predicate Closing(m: Message) {
    m.payload.CancelConfirmed? || m.payload.ShipmentNotification?
  }

  lemma PaymentCloses(cfg: Config, me: int, st: Seller.State, rid: OrderId, number: int, amount: real, from: int, tick: int)
    ensures var (st1, ev) := Seller.OnPayment(cfg, me, st, rid, number, amount, from, tick);
            st.orders.Keys <= st1.orders.Keys && forall x :: x in Msgs(ev) ==> !Closing(x)
  {
    var ev := Seller.OnPayment(cfg, me, st, rid, number, amount, from, tick).1;
    if ev != [] {
      assert ev == [ev[0]];
      MsgsOne(ev[0]);
    }
  }

  lemma MessageCloses(cfg: Config, me: int, st: Seller.State, m: Message, tick: int, item: int)
    ensures var (st1, ev) := Seller.OnMessage(cfg, me, st, m, tick, item);
            && st.orders.Keys <= st1.orders.Keys
            && forall x :: x in Msgs(ev) && Closing(x) ==> x.payload.rid in st1.orders
  {
    hide Seller.Find, Seller.OnPayment;
    var ev := Seller.OnMessage(cfg, me, st, m, tick, item).1;
    if m.payload.Payment? {
      PaymentCloses(cfg, me, st, m.payload.rid, m.payload.number, m.payload.amount, m.from, tick);
    } else if ev != [] {
      assert ev == [ev[0]];
      MsgsOne(ev[0]);
    }
  }

  lemma {:induction false} MailCloses(cfg: Config, me: int, st: Seller.State, mail: seq<Message>, tick: int, item: int)
    ensures var (st1, ev) := Seller.Mail(cfg, me, st, mail, tick, item);
            && st.orders.Keys <= st1.orders.Keys
            && forall x :: x in Msgs(ev) && Closing(x) ==> x.payload.rid in st1.orders
    decreases |mail|
  {
    hide Seller.OnMessage;
    if mail != [] {
      var (st1, ev1) := Seller.OnMessage(cfg, me, st, mail[0], tick, item);
      var (st2, ev2) := Seller.Mail(cfg, me, st1, mail[1..], tick, item + 1);
      MessageCloses(cfg, me, st, mail[0], tick, item);
      MailCloses(cfg, me, st1, mail[1..], tick, item + 1);
      MsgsAppend(ev1, ev2);
      forall x | x in Msgs(ev1) && Closing(x) ensures x.payload.rid in st2.orders {
        assert x.payload.rid in st1.orders.Keys;
      }
    }
  }

  lemma StepCloses(cfg: Config, me: int, st: Seller.State, xs: seq<Reply>, mail: seq<Message>, tick: int)
    ensures var (st1, ev) := Seller.Step(cfg, me, st, xs, mail, tick);
            forall x :: x in Msgs(ev) && Closing(x) ==> x.payload.rid in st1.orders
  {
    hide Seller.Replies, Seller.Mail, Expire, Msgs, Due;
    var (st1, ev1) := Seller.Replies(cfg, me, st, xs, tick, 0);
    var (st2, ev2) := Seller.Mail(cfg, me, st1, mail, tick, |xs|);
    var ev3 := Seller.Scheduled(cfg, me, st2.(queries := Expire(st2.queries, tick)), tick, |xs| + |mail|).1;
    RepliesSay(cfg, me, st, xs, tick, 0);
    MailCloses(cfg, me, st1, mail, tick, |xs|);
    MsgsAppend(ev1, ev2);
    MsgsAppend(ev1 + ev2, ev3);
    ScheduleSilent(cfg, me, st2.(queries := Expire(st2.queries, tick)), tick, |xs| + |mail|);
  }

  // -------------------------------------------------------------- no message about an order before its draw

  /** What closes an order was sent after the order was placed. */
  ghost predicate NoForesight(w: World<Agent>) {
    forall m :: m in w.mail && Closing(m) ==> m.payload.rid.tick < w.tick
  }

  lemma ActCloses(cfg: Config, a: int, st: Agent, xs: seq<Reply>, mail: seq<Message>, tick: int)
    requires (forall m :: m in mail ==> SellerSide.Numbered(cfg, m)) && (st.T? ==> OwnBacklog(st.t, a)) && !st.S?
    ensures forall x :: x in Msgs(ActOn(cfg, a, st, xs, mail, tick).1) ==> !Closing(x)
  {
    hide Consumer.Step, Seller.Step, Supplier.Mail, Transport.Step, SellerSide.Numbered;
    var ev := ActOn(cfg, a, st, xs, mail, tick).1;
    match st
    case C(c) => ConsumerStep(cfg, a, c, xs, mail, tick); Spoken(ev, a, tick, ConsumerSays(cfg), ConsumerAsks());
    case P(p) => SupplierStep(cfg, a, p, mail, tick); Spoken(ev, a, tick, SupplierSays(cfg), NoTopic());
    case T(t) => CarrierStep(cfg, a, t, mail, tick, |xs|); Spoken(ev, a, tick, CarrierSays(cfg), NoTopic());
    case G => RestockLoop.RecordsQuiet(a, mail, tick); Restocks.QuietIntake(id => 0, ev);
  }

  lemma OnlySellersClose(cfg: Config, w: World<Agent>, a: int, x: Message)
    requires Accounted(cfg, w) && a in w.agents && x in MailBlock(TheMachine(cfg), w)(a) && Closing(x)
    ensures Restocks.IsSeller(w, a)
  {
    hide ActOn, Handled, HandledReplies, Turn, Closing;
    var m := TheMachine(cfg);
    InboxIs(cfg, w, a);
    TurnIs(cfg, w, a);
    BlockIs(m, w, a);
    assert Accountable(cfg, w, a, w.agents[a]);
    if !w.agents[a].S? {
      ActCloses(cfg, a, w.agents[a], HandledReplies(m, w, a), Handled(m, w, a), w.tick + 1);
    }
  }

  lemma SellerCloses(cfg: Config, w: World<Agent>, a: int, x: Message)
    requires Accounted(cfg, w) && Restocks.IsSeller(w, a) && x in MailBlock(TheMachine(cfg), w)(a) && Closing(x)
    ensures x.payload.rid.tick < w.tick + 1
  {
    hide Seller.Step, Handled, HandledReplies, Accounted;
    var m := TheMachine(cfg);
    TurnIs(cfg, w, a);
    BlockIs(m, w, a);
    StepCloses(cfg, a, w.agents[a].s, HandledReplies(m, w, a), Handled(m, w, a), w.tick + 1);
    SellerTurn(cfg, w, a);
  }

  lemma NoForesightStep(cfg: Config, w: World<Agent>)
    requires Accounted(cfg, w)
    ensures NoForesight(Step(TheMachine(cfg), w))
  {
    hide Step, Accounted, MailBlock;
    var m := TheMachine(cfg);
    StepShape(m, w);
    forall x | x in Step(m, w).mail && Closing(x) ensures x.payload.rid.tick < w.tick + 1 {
      MailSource(m, w, x);
      var a :| a in w.agents && x in MailBlock(m, w)(a);
      OnlySellersClose(cfg, w, a, x);
      SellerCloses(cfg, w, a, x);
    }
  }

  lemma NeverForesight(cfg: Config, w: World<Agent>, t: nat)
    requires Initial(w)
    ensures NoForesight(At(cfg, w, t))
  {
    hide Step, Accounted;
    if t > 0 {
      AlwaysAccounted(cfg, w, t - 1);
      NoForesightStep(cfg, At(cfg, w, t - 1));
    }
  }

  // -------------------------------------------------------------- a consumer's step

  /** Pending orders are old ones with the same seller, or drawn at this tick; nothing is completed. */
  ghost predicate Draws(me: int, st: Consumer.State, st1: Consumer.State, tick: int) {
    && st1.completed == st.completed
    && forall rid :: rid in st1.pending ==>
         (rid in st.pending && st1.pending[rid].seller == st.pending[rid].seller) || (rid.consumer == me && rid.tick == tick)
  }

  lemma {:induction false} RowsDraw(cfg: Config, me: int, st: Consumer.State, rows: seq<HistoryRow>, tick: int, item: int,
          row: int)
    ensures Draws(me, st, Consumer.CancelRows(cfg, me, st, rows, tick, item, row).0, tick)
    decreases |rows|
  {
    if rows != [] {
      var chosen := rows[0].late && rows[0].requested && cfg.cancels(me, tick, item, row);
      var st1 := if chosen then Consumer.Cancel(me, st, rows[0].rid, tick).0 else st;
      RowsDraw(cfg, me, st1, rows[1..], tick, item, row + 1);
    }
  }

  lemma ReplyDraws(cfg: Config, me: int, st: Consumer.State, x: Reply, tick: int, item: int)
    ensures Draws(me, st, Consumer.OnReply(cfg, me, st, x, tick, item).0, tick)
  {
    hide Consumer.Decide;
    if x.id in st.queries {
      RowsDraw(cfg, me, st.(queries := st.queries - {x.id}), Consumer.HistoryRows(x.data), tick, item, 0);
    }
  }

  lemma {:induction false} RepliesDraw(cfg: Config, me: int, st: Consumer.State, xs: seq<Reply>, tick: int, item: int)
    ensures Draws(me, st, Consumer.Replies(cfg, me, st, xs, tick, item).0, tick)
    decreases |xs|
  {
    hide Consumer.OnReply;
    if xs != [] {
      ReplyDraws(cfg, me, st, xs[0], tick, item);
      RepliesDraw(cfg, me, Consumer.OnReply(cfg, me, st, xs[0], tick, item).0, xs[1..], tick, item + 1);
    }
  }

  /** Orders leave the pending ones only for the completed ones, with their seller, and only older ones do. */
  ghost predicate Closes(st: Consumer.State, st1: Consumer.State, tick: int) {
    && (forall rid :: rid in st1.pending ==> rid in st.pending && st1.pending[rid].seller == st.pending[rid].seller)
    && (forall x :: x in st1.completed ==>
          x in st.completed
          || (x.rid.tick < tick && x.rid in st.pending && x.order.seller == st.pending[x.rid].seller))
  }

  lemma {:induction false} MailClosing(me: int, st: Consumer.State, mail: seq<Message>, tick: int)
    requires forall m :: m in mail && Closing(m) ==> m.payload.rid.tick < tick
    ensures Closes(st, Consumer.Mail(me, st, mail, tick).0, tick)
    decreases |mail|
  {
    hide Consumer.OnMessage;
    if mail != [] {
      assert mail[0] in mail;
      MessageClosing(me, st, mail[0], tick);
      MailClosing(me, Consumer.OnMessage(me, st, mail[0], tick).0, mail[1..], tick);
    }
  }

  lemma MessageClosing(me: int, st: Consumer.State, m: Message, tick: int)
    requires Closing(m) ==> m.payload.rid.tick < tick
    ensures Closes(st, Consumer.OnMessage(me, st, m, tick).0, tick)
  {
  }

  lemma {:induction false} ViewsKeep(cfg: Config, me: int, st: Consumer.State, shown: seq<Shown>, tick: int, item: int)
    ensures var st1 := Consumer.Views(cfg, me, st, shown, tick, item).0;
            st1.pending == st.pending && st1.completed == st.completed
    decreases |shown|
  {
    hide Consumer.Looks;
    if shown != [] {
      var st1 := if Consumer.Looks(cfg, me, shown[0], tick, item)
                 then Consumer.Ask(me, st, ProductDetails(shown[0].sku, shown[0].category), tick, item).0 else st;
      ViewsKeep(cfg, me, st1, shown[1..], tick, item + 1);
    }
  }

  lemma ScheduleKeeps(cfg: Config, me: int, st: Consumer.State, tick: int, item: int)
    ensures var st1 := Consumer.Scheduled(cfg, me, st, tick, item).0;
            st1.pending == st.pending && st1.completed == st.completed
  {
    hide Consumer.Views, Due;
    var st1 := if Due(cfg, me, HistoryCheck, tick) then Consumer.Ask(me, st, OrderHistory, tick, item).0 else st;
    ViewsKeep(cfg, me, st1, Consumer.Browsed(cfg, me, tick), tick, item + 1);
  }

  /** What a step makes of a consumer's orders: new ones are drawn now, completed ones were pending before. */
  ghost predicate Continues(me: int, st: Consumer.State, st1: Consumer.State, tick: int) {
    && (forall rid :: rid in st1.pending ==>
          (rid in st.pending && st1.pending[rid].seller == st.pending[rid].seller) || (rid.consumer == me && rid.tick == tick))
    && (forall x :: x in st1.completed ==>
          x in st.completed || (x.rid in st.pending && x.order.seller == st.pending[x.rid].seller))
  }

  lemma StepContinues(cfg: Config, me: int, st: Consumer.State, xs: seq<Reply>, mail: seq<Message>, tick: int)
    requires forall m :: m in mail && Closing(m) ==> m.payload.rid.tick < tick
    ensures Continues(me, st, Consumer.Step(cfg, me, st, xs, mail, tick).0, tick)
  {
    hide Consumer.Replies, Consumer.Mail, Consumer.Scheduled, Expire;
    var st1 := Consumer.Replies(cfg, me, st, xs, tick, 0).0;
    var st2 := Consumer.Mail(me, st1, mail, tick).0;
    RepliesDraw(cfg, me, st, xs, tick, 0);
    MailClosing(me, st1, mail, tick);
    ScheduleKeeps(cfg, me, st2.(queries := Expire(st2.queries, tick)), tick, |xs| + |mail|);
  }

  // -------------------------------------------------------------- over a run

  /** The order was placed by consumer a with the seller, at the tick of its id, not later than t. */
  ghost predicate PlacedBy(cfg: Config, w: World<Agent>, t: nat, a: int, rid: OrderId, seller: int) {
    rid.consumer == a && 1 <= rid.tick <= t && forall carrier :: IsPlaced(Case(cfg, rid, seller, carrier), w)
  }

  ghost predicate IsConsumer(w: World<Agent>, a: int) { a in w.agents && w.agents[a].C? }

  ghost predicate AllPlaced(cfg: Config, w: World<Agent>, t: nat, a: int, st: Consumer.State) {
    && (forall rid :: rid in st.pending ==> PlacedBy(cfg, w, t, a, rid, st.pending[rid].seller))
    && (forall x :: x in st.completed ==> PlacedBy(cfg, w, t, a, x.rid, x.order.seller))
  }

  lemma ConsumerContinues(cfg: Config, w: World<Agent>, a: int)
    requires Accounted(cfg, w) && NoForesight(w) && IsConsumer(w, a)
    ensures var v := Step(TheMachine(cfg), w);
            IsConsumer(v, a) && Continues(a, w.agents[a].c, v.agents[a].c, w.tick + 1)
  {
    hide Step, Consumer.Step, Handled, HandledReplies, Turn;
    var m := TheMachine(cfg);
    InboxIs(cfg, w, a);
    StepAgent(m, w, a);
    TurnIs(cfg, w, a);
    StepContinues(cfg, a, w.agents[a].c, HandledReplies(m, w, a), Handled(m, w, a), w.tick + 1);
  }

  lemma JustPlaced(cfg: Config, w: World<Agent>, t: nat, a: int, rid: OrderId)
    requires t >= 1 && IsConsumer(At(cfg, w, t), a) && rid in At(cfg, w, t).agents[a].c.pending
    requires rid.consumer == a && rid.tick == t
    ensures PlacedBy(cfg, w, t, a, rid, At(cfg, w, t).agents[a].c.pending[rid].seller)
  {
    hide At;
  }

  lemma StillPlaced(cfg: Config, w: World<Agent>, t: nat, a: int, rid: OrderId, seller: int)
    requires PlacedBy(cfg, w, t, a, rid, seller)
    ensures PlacedBy(cfg, w, t + 1, a, rid, seller)
  {
    hide IsPlaced;
  }

  /**
   * Every order that a consumer holds or has completed, at any tick of any run, was placed at the tick of its
   * id, by that consumer and with the seller of its record.
   */
  lemma {:induction false} EveryOrderPlaced(cfg: Config, w: World<Agent>, t: nat, a: int)
    requires Initial(w) && IsConsumer(w, a)
    ensures IsConsumer(At(cfg, w, t), a) && AllPlaced(cfg, w, t, a, At(cfg, w, t).agents[a].c)
  {
    hide Step, Accounted, NoForesight, PlacedBy, Continues;
    if t == 0 {
      assert FreshAgent(w.agents[a]);
    } else {
      var u := At(cfg, w, t - 1);
      EveryOrderPlaced(cfg, w, t - 1, a);
      AlwaysAccounted(cfg, w, t - 1);
      NeverForesight(cfg, w, t - 1);
      RunBasics(cfg, w, t - 1);
      ConsumerContinues(cfg, u, a);
      assert At(cfg, w, t) == Step(TheMachine(cfg), u);
      PlacedOn(cfg, w, t, a);
    }
  }

  lemma PlacedOn(cfg: Config, w: World<Agent>, t: nat, a: int)
    requires t >= 1 && IsConsumer(At(cfg, w, t - 1), a) && IsConsumer(At(cfg, w, t), a)
    requires AllPlaced(cfg, w, t - 1, a, At(cfg, w, t - 1).agents[a].c)
    requires Continues(a, At(cfg, w, t - 1).agents[a].c, At(cfg, w, t).agents[a].c, t)
    ensures AllPlaced(cfg, w, t, a, At(cfg, w, t).agents[a].c)
  {
    hide At, PlacedBy;
    var st, st1 := At(cfg, w, t - 1).agents[a].c, At(cfg, w, t).agents[a].c;
    forall rid | rid in st1.pending ensures PlacedBy(cfg, w, t, a, rid, st1.pending[rid].seller) {
      if rid in st.pending && st1.pending[rid].seller == st.pending[rid].seller {
        StillPlaced(cfg, w, t - 1, a, rid, st.pending[rid].seller);
      } else {
        JustPlaced(cfg, w, t, a, rid);
      }
    }
    forall x | x in st1.completed ensures PlacedBy(cfg, w, t, a, x.rid, x.order.seller) {
      StillPlaced(cfg, w, t - 1, a, x.rid, x.order.seller);
    }
  }

  // -------------------------------------------------------------- agreement for every order of a run

  /** The order is in consumer a's pending or completed orders at tick t, with the seller in its record. */
  ghost predicate IsFound(cfg: Config, w: World<Agent>, t: nat, a: int, rid: OrderId, seller: int) {
    var u := At(cfg, w, t);
    && IsConsumer(u, a)
    && (|| (rid in u.agents[a].c.pending && u.agents[a].c.pending[rid].seller == seller)
        || (exists x :: x in u.agents[a].c.completed && x.rid == rid && x.order.seller == seller))
  }

  lemma FoundIsPlaced(cfg: Config, w: World<Agent>, t: nat, a: int, rid: OrderId, seller: int)
    requires Initial(w) && IsConsumer(w, a) && IsFound(cfg, w, t, a, rid, seller)
    ensures PlacedBy(cfg, w, t, a, rid, seller)
  {
    hide At, PlacedBy, Initial;
    EveryOrderPlaced(cfg, w, t, a);
  }

  /**
   * Agreement, for whatever order is found with a consumer: if its seller and the carrier are registered and
   * its store number is not zero and not shared, then the consumer, the seller and the requests to ship agree
   * on it.
   */
  lemma EveryOrderAgrees(cfg: Config, w: World<Agent>, t: nat, a: int, rid: OrderId, seller: int, carrier: int)
    requires Initial(w) && IsConsumer(w, a) && IsFound(cfg, w, t, a, rid, seller)
    requires cfg.transport == Some(carrier) && carrier != 0 && carrier in w.agents && w.agents[carrier].T?
    requires Restocks.IsSeller(w, seller) && StoreNumber(cfg, rid) != 0
    requires NoClash(Case(cfg, rid, seller, carrier), w, t)
    ensures InAgreement(Case(cfg, rid, seller, carrier), At(cfg, w, t))
  {
    hide At, IsFound, IsPlaced, Initial, NoClash;
    var k := Case(cfg, rid, seller, carrier);
    FoundIsPlaced(cfg, w, t, a, rid, seller);
    assert IsPlaced(k, w);
    Agreement(k, w, t);
  }
}
