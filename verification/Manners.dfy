/** What each type of agent may emit at all. Whole classes of messages have only one type of author. */
module Manners {
  import opened Messages
  import opened Settings
  import opened SellerSide
  import Consumer
  import Seller
  import Supplier
  import Transport

  ghost predicate Says(e: Event, me: int, tick: int, said: Message -> bool, asked: Topic -> bool) {
    && e.agent == me
    && (forall i :: 0 <= i < |e.messages| ==> e.messages[i].from == me && e.messages[i].tickSent == tick && said(e.messages[i]))
    && (forall i :: 0 <= i < |e.queries| ==>
          e.queries[i].id.agent == me && e.queries[i].agent == me && e.queries[i].id.tick == tick && asked(e.queries[i].id.topic))
  }

  ghost predicate AllSay(ev: seq<Event>, me: int, tick: int, said: Message -> bool, asked: Topic -> bool) {
    forall e :: e in ev ==> Says(e, me, tick, said, asked)
  }

  lemma {:induction false} Spoken(ev: seq<Event>, me: int, tick: int, said: Message -> bool, asked: Topic -> bool)
    requires AllSay(ev, me, tick, said, asked)
    ensures forall m :: m in Msgs(ev) ==> m.from == me && m.tickSent == tick && said(m)
    ensures forall q :: q in Reqs(ev) ==> q.id.agent == me && q.agent == me && q.id.tick == tick && asked(q.id.topic)
  {
    if ev != [] {
      var e := ev[0];
      assert Says(e, me, tick, said, asked);
      Spoken(ev[1..], me, tick, said, asked);
    }
  }

  // -------------------------------------------------------------- consumers

  function ConsumerSays(cfg: Config): Message -> bool {
    (m: Message) => (m.payload.PlaceOrder? || m.payload.Payment? || m.payload.CancelRequest?) && Numbered(cfg, m)
                    && (m.payload.PlaceOrder? ==> m.payload.rid.tick == m.tickSent)
  }

  function ConsumerAsks(): Topic -> bool { (t: Topic) => t.ProductDetails? || t.OrderHistory? }

  ghost predicate Polite(cfg: Config, ev: seq<Event>, me: int, tick: int) {
    AllSay(ev, me, tick, ConsumerSays(cfg), ConsumerAsks())
  }

  lemma ConsumerRows(cfg: Config, me: int, st: Consumer.State, rows: seq<HistoryRow>, tick: int, item: int, row: int)
    ensures Polite(cfg, Consumer.CancelRows(cfg, me, st, rows, tick, item, row).1, me, tick)
    decreases |rows|
  {
  }

  lemma ConsumerReply(cfg: Config, me: int, st: Consumer.State, x: Reply, tick: int, item: int)
    ensures Polite(cfg, Consumer.OnReply(cfg, me, st, x, tick, item).1, me, tick)
  {
    if x.id in st.queries {
      ConsumerRows(cfg, me, st.(queries := st.queries - {x.id}), Consumer.HistoryRows(x.data), tick, item, 0);
    }
  }

  lemma {:induction false} ConsumerReplies(cfg: Config, me: int, st: Consumer.State, xs: seq<Reply>, tick: int,
          item: int)
    ensures Polite(cfg, Consumer.Replies(cfg, me, st, xs, tick, item).1, me, tick)
    decreases |xs|
  {
    if xs != [] {
      ConsumerReply(cfg, me, st, xs[0], tick, item);
      ConsumerReplies(cfg, me, Consumer.OnReply(cfg, me, st, xs[0], tick, item).0, xs[1..], tick, item + 1);
    }
  }

  lemma ConsumerMessage(cfg: Config, me: int, st: Consumer.State, m: Message, tick: int)
    requires Numbered(cfg, m)
    ensures Polite(cfg, Consumer.OnMessage(me, st, m, tick).1, me, tick)
  {
  }

  lemma {:induction false} ConsumerMail(cfg: Config, me: int, st: Consumer.State, mail: seq<Message>, tick: int)
    requires forall m :: m in mail ==> Numbered(cfg, m)
    ensures Polite(cfg, Consumer.Mail(me, st, mail, tick).1, me, tick)
    decreases |mail|
  {
    if mail != [] {
      ConsumerMessage(cfg, me, st, mail[0], tick);
      ConsumerMail(cfg, me, Consumer.OnMessage(me, st, mail[0], tick).0, mail[1..], tick);
    }
  }

  lemma ConsumerViews(cfg: Config, me: int, st: Consumer.State, shown: seq<Shown>, tick: int, item: int)
    ensures Polite(cfg, Consumer.Views(cfg, me, st, shown, tick, item).1, me, tick)
    decreases |shown|
  {
  }

  lemma ConsumerStep(cfg: Config, me: int, st: Consumer.State, xs: seq<Reply>, mail: seq<Message>, tick: int)
    requires forall m :: m in mail ==> Numbered(cfg, m)
    ensures Polite(cfg, Consumer.Step(cfg, me, st, xs, mail, tick).1, me, tick)
  {
    var st1 := Consumer.Replies(cfg, me, st, xs, tick, 0).0;
    var st2 := Consumer.Mail(me, st1, mail, tick).0;
    var st3 := st2.(queries := Expire(st2.queries, tick));
    var item := |xs| + |mail|;
    ConsumerReplies(cfg, me, st, xs, tick, 0);
    ConsumerMail(cfg, me, st1, mail, tick);
    ConsumerViews(cfg, me, if Due(cfg, me, HistoryCheck, tick) then Consumer.Ask(me, st3, OrderHistory, tick, item).0 else st3,
                  Consumer.Browsed(cfg, me, tick), tick, item + 1);
  }

  // -------------------------------------------------------------- sellers

  function SellerSays(cfg: Config): Message -> bool {
    (m: Message) =>
      && (m.payload.OrderAccepted? || m.payload.CancelConfirmed? || m.payload.CancelRejected?
          || m.payload.ShipmentNotification? || m.payload.RestockOrder? || m.payload.OrderReport?
          || (m.payload.ShipRequest? && m.payload.freight == ConsumerOrder && m.payload.restock == None))
      && Numbered(cfg, m)
  }

  function SellerAsks(): Topic -> bool { (t: Topic) => t.InventoryCheck? || t.InventoryLevels? }

  ghost predicate Proper(cfg: Config, ev: seq<Event>, me: int, tick: int) {
    AllSay(ev, me, tick, SellerSays(cfg), SellerAsks())
  }

  lemma SellerReply(cfg: Config, me: int, st: Seller.State, x: Reply, tick: int, item: int)
    ensures Proper(cfg, Seller.OnReply(cfg, me, st, x, tick, item).1, me, tick)
  {
    if x.id in st.queries {
      RestockRowsKeep(cfg, me, st.(queries := st.queries - {x.id}), Seller.StockRows(x.data), tick, item, 0);
    }
  }

  lemma {:induction false} SellerReplies(cfg: Config, me: int, st: Seller.State, xs: seq<Reply>, tick: int, item: int)
    ensures Proper(cfg, Seller.Replies(cfg, me, st, xs, tick, item).1, me, tick)
    decreases |xs|
  {
    if xs != [] {
      SellerReply(cfg, me, st, xs[0], tick, item);
      SellerReplies(cfg, me, Seller.OnReply(cfg, me, st, xs[0], tick, item).0, xs[1..], tick, item + 1);
    }
  }

  lemma SellerMessage(cfg: Config, me: int, st: Seller.State, m: Message, tick: int, item: int)
    ensures Proper(cfg, Seller.OnMessage(cfg, me, st, m, tick, item).1, me, tick)
  {
  }

  lemma {:induction false} SellerMail(cfg: Config, me: int, st: Seller.State, mail: seq<Message>, tick: int, item: int)
    ensures Proper(cfg, Seller.Mail(cfg, me, st, mail, tick, item).1, me, tick)
    decreases |mail|
  {
    if mail != [] {
      SellerMessage(cfg, me, st, mail[0], tick, item);
      SellerMail(cfg, me, Seller.OnMessage(cfg, me, st, mail[0], tick, item).0, mail[1..], tick, item + 1);
    }
  }

  lemma SellerStep(cfg: Config, me: int, st: Seller.State, xs: seq<Reply>, mail: seq<Message>, tick: int)
    ensures Proper(cfg, Seller.Step(cfg, me, st, xs, mail, tick).1, me, tick)
  {
    SellerReplies(cfg, me, st, xs, tick, 0);
    SellerMail(cfg, me, Seller.Replies(cfg, me, st, xs, tick, 0).0, mail, tick, |xs|);
  }

  // -------------------------------------------------------------- suppliers and carriers

  function SupplierSays(cfg: Config): Message -> bool {
    (m: Message) => m.payload.RestockDelivered? || (m.payload.ShipRequest? && m.payload.freight == Restock)
  }

  function NoTopic(): Topic -> bool { (t: Topic) => false }

  lemma {:induction false} SupplierStep(cfg: Config, me: int, st: Supplier.State, mail: seq<Message>, tick: int)
    ensures AllSay(Supplier.Mail(cfg, me, st, mail, tick).1, me, tick, SupplierSays(cfg), NoTopic())
    decreases |mail|
  {
    if mail != [] {
      SupplierStep(cfg, me, Supplier.OnMessage(cfg, me, st, mail[0], tick).0, mail[1..], tick);
    }
  }

  function CarrierSays(cfg: Config): Message -> bool { (m: Message) => m.payload.DeliveryComplete? }

  /** Events waiting in a carrier's backlog are its own, and carry no messages. */
  ghost predicate OwnBacklog(st: Transport.State, me: int) {
    forall e :: e in st.backlog ==> e.agent == me && e.kind == ShipmentCreated && e.messages == [] && e.queries == []
  }

  lemma {:induction false} CarrierMail(cfg: Config, me: int, st: Transport.State, mail: seq<Message>, tick: int,
          item: int)
    requires OwnBacklog(st, me)
    ensures OwnBacklog(Transport.Mail(cfg, me, st, mail, tick, item), me)
    decreases |mail|
  {
    if mail != [] {
      var st1 := if mail[0].payload.ShipRequest?
                 then Transport.OnShipRequest(cfg, me, st, mail[0].payload, mail[0].from, tick, item) else st;
      CarrierMail(cfg, me, st1, mail[1..], tick, item + 1);
    }
  }

  lemma CarrierTrack(cfg: Config, me: int, active: seq<Transport.Shipment>, tick: int)
    ensures AllSay(Transport.Track(me, active, tick).1, me, tick, CarrierSays(cfg), NoTopic())
  {
  }

  lemma CarrierStep(cfg: Config, me: int, st: Transport.State, mail: seq<Message>, tick: int, item: int)
    requires OwnBacklog(st, me)
    ensures AllSay(Transport.Step(cfg, me, st, mail, tick, item).1, me, tick, CarrierSays(cfg), NoTopic())
    ensures OwnBacklog(Transport.Step(cfg, me, st, mail, tick, item).0, me)
  {
    CarrierMail(cfg, me, st, mail, tick, item);
    CarrierTrack(cfg, me, Transport.Mail(cfg, me, st, mail, tick, item).active, tick);
  }

  // -------------------------------------------------------------- strangers

  /** A seller that has never heard of an order. */
  ghost predicate Unaware(st: Seller.State, rid: OrderId) {
    && rid !in st.incoming && rid !in st.orders
    && forall q :: q in st.queries ==> st.queries[q].topic == q.topic && q.topic != InventoryCheck(rid)
  }

  ghost predicate Mentions(rid: OrderId, m: Message) {
    match m.payload
    case PlaceOrder(r, _, _, _) => r == rid
    case OrderAccepted(r, _, _) => r == rid
    case CancelConfirmed(r) => r == rid
    case ShipmentNotification(r, _, _) => r == rid
    case _ => false
  }

  ghost predicate Mute(ev: seq<Event>, rid: OrderId) {
    forall e :: e in ev ==>
      && (forall i :: 0 <= i < |e.messages| ==> !Mentions(rid, e.messages[i]))
      && (forall i :: 0 <= i < |e.queries| ==> e.queries[i].id.topic != InventoryCheck(rid))
  }

  lemma UnawareReply(cfg: Config, me: int, st: Seller.State, x: Reply, tick: int, item: int, rid: OrderId)
    requires Unaware(st, rid)
    ensures Unaware(Seller.OnReply(cfg, me, st, x, tick, item).0, rid)
    ensures Mute(Seller.OnReply(cfg, me, st, x, tick, item).1, rid)
  {
    if x.id in st.queries {
      RestockRowsKeep(cfg, me, st.(queries := st.queries - {x.id}), Seller.StockRows(x.data), tick, item, 0);
    }
  }

  lemma {:induction false} UnawareReplies(cfg: Config, me: int, st: Seller.State, xs: seq<Reply>, tick: int,
          item: int, rid: OrderId)
    requires Unaware(st, rid)
    ensures Unaware(Seller.Replies(cfg, me, st, xs, tick, item).0, rid)
    ensures Mute(Seller.Replies(cfg, me, st, xs, tick, item).1, rid)
    decreases |xs|
  {
    if xs != [] {
      UnawareReply(cfg, me, st, xs[0], tick, item, rid);
      UnawareReplies(cfg, me, Seller.OnReply(cfg, me, st, xs[0], tick, item).0, xs[1..], tick, item + 1, rid);
    }
  }

  lemma UnawareMessage(cfg: Config, me: int, st: Seller.State, m: Message, tick: int, item: int, rid: OrderId)
    requires Unaware(st, rid) && !Mentions(rid, m)
    ensures Unaware(Seller.OnMessage(cfg, me, st, m, tick, item).0, rid)
    ensures Mute(Seller.OnMessage(cfg, me, st, m, tick, item).1, rid)
  {
    hide Seller.Find, Seller.PaymentMessages;
    match m.payload
    case DeliveryComplete(ref, _, _) => FindAny(st, st.orderIds, ref);
    case Payment(r, number, amount) => PaymentMute(cfg, me, st, r, number, amount, m.from, tick, rid);
    case _ =>
  }

  lemma PaymentMute(cfg: Config, me: int, st: Seller.State, r: OrderId, number: int, amount: real, from: int,
          tick: int, rid: OrderId)
    ensures Mute(Seller.OnPayment(cfg, me, st, r, number, amount, from, tick).1, rid)
  {
  }

  lemma {:induction false} UnawareMail(cfg: Config, me: int, st: Seller.State, mail: seq<Message>, tick: int,
          item: int, rid: OrderId)
    requires Unaware(st, rid) && forall m :: m in mail ==> !Mentions(rid, m)
    ensures Unaware(Seller.Mail(cfg, me, st, mail, tick, item).0, rid)
    ensures Mute(Seller.Mail(cfg, me, st, mail, tick, item).1, rid)
    decreases |mail|
  {
    if mail != [] {
      UnawareMessage(cfg, me, st, mail[0], tick, item, rid);
      UnawareMail(cfg, me, Seller.OnMessage(cfg, me, st, mail[0], tick, item).0, mail[1..], tick, item + 1, rid);
    }
  }

  lemma UnawareStep(cfg: Config, me: int, st: Seller.State, xs: seq<Reply>, mail: seq<Message>, tick: int, rid: OrderId)
    requires Unaware(st, rid) && forall m :: m in mail ==> !Mentions(rid, m)
    ensures Unaware(Seller.Step(cfg, me, st, xs, mail, tick).0, rid)
    ensures Mute(Seller.Step(cfg, me, st, xs, mail, tick).1, rid)
  {
    UnawareReplies(cfg, me, st, xs, tick, 0, rid);
    UnawareMail(cfg, me, Seller.Replies(cfg, me, st, xs, tick, 0).0, mail, tick, |xs|, rid);
  }
}
