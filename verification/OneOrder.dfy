/**
 * What concerns one order: which messages, query results and shipments are about it, and the small
 * state that each agent keeps for it.
 */
module OneOrder {
  import opened Seqs
  import opened Messages
  import opened Settings
  import Consumer
  import Seller
  import Transport

  /** The order under study, the seller it is placed with, and the carrier. */
  datatype Case = Case(cfg: Config, rid: OrderId, seller: int, carrier: int) {
    function Number(): int { StoreNumber(cfg, rid) }
  }

  predicate IsDelivery(k: Case, m: Message) {
    && m.payload.DeliveryComplete? && m.to == k.seller
    && m.payload.ref == StoreRef(k.Number()) && m.payload.freight == ConsumerOrder
  }

  predicate IsCancel(k: Case, m: Message) {
    m.payload == CancelRequest(k.rid)
  }

  predicate IsPlace(k: Case, m: Message) {
    m.payload.PlaceOrder? && m.payload.rid == k.rid
  }

  predicate IsPayment(k: Case, m: Message) {
    m.payload.Payment? && m.payload.rid == k.rid
  }

  function ToSeller(k: Case): Message -> bool {
    (m: Message) => IsPlace(k, m) || IsPayment(k, m) || IsCancel(k, m) || IsDelivery(k, m)
  }

  function ToConsumer(k: Case): Message -> bool {
    (m: Message) =>
      || (m.payload.OrderAccepted? && m.payload.rid == k.rid)
      || m.payload == CancelConfirmed(k.rid)
      || (m.payload.ShipmentNotification? && m.payload.rid == k.rid)
  }

  function ToCarrier(k: Case): Message -> bool {
    (m: Message) => m.payload.ShipRequest? && m.payload.freight == ConsumerOrder && m.from == k.seller
                    && m.payload.order == Some(k.Number())
  }

  function AboutIt(k: Case): Reply -> bool {
    (x: Reply) => x.id.topic == InventoryCheck(k.rid)
  }

  function AsksIt(k: Case): Request -> bool {
    (q: Request) => q.id.topic == InventoryCheck(k.rid)
  }

  function Carries(k: Case): Transport.Shipment -> bool {
    (x: Transport.Shipment) => x.freight == ConsumerOrder && x.from == k.seller && x.ref == StoreRef(k.Number())
  }

  // -------------------------------------------------------------- the consumer's part

  datatype Deal = Deal(sku: int, qty: int, price: real, seller: int)
  datatype Outcome = Outcome(deal: Deal, status: Status)

  /** What a consumer holds for the order: the pending deal, and the records of its completion. */
  datatype ConsumerView = ConsumerView(deal: Option<Deal>, done: seq<Outcome>)

  function DealOf(o: Consumer.Order): Deal { Deal(o.sku, o.qty, o.price, o.seller) }

  function Outcomes(completed: seq<Consumer.Closed>, rid: OrderId): seq<Outcome> {
    if completed == [] then []
    else (if completed[0].rid == rid then [Outcome(DealOf(completed[0].order), completed[0].order.status)] else [])
         + Outcomes(completed[1..], rid)
  }

  lemma OutcomesSnoc(completed: seq<Consumer.Closed>, x: Consumer.Closed, rid: OrderId)
    ensures Outcomes(completed + [x], rid) == Outcomes(completed, rid)
              + if x.rid == rid then [Outcome(DealOf(x.order), x.order.status)] else []
  {
    if completed == [] {
      assert (completed + [x])[1..] == [];
    } else {
      assert (completed + [x])[1..] == completed[1..] + [x];
      OutcomesSnoc(completed[1..], x, rid);
    }
  }

  function ViewC(st: Consumer.State, rid: OrderId): ConsumerView {
    ConsumerView(if rid in st.pending then Some(DealOf(st.pending[rid])) else None, Outcomes(st.completed, rid))
  }

  function Finish(v: ConsumerView, status: Status): ConsumerView {
    if v.deal.None? then v else ConsumerView(None, v.done + [Outcome(v.deal.value, status)])
  }

  /** The consumer's reaction to one message about the order. */
  function ConsumerReact(me: int, v: ConsumerView, m: Message, tick: int): (ConsumerView, seq<Message>) {
    match m.payload
    case OrderAccepted(rid, number, price) =>
      (v, if v.deal.None? then [] else [Message(me, m.from, tick, Payment(rid, number, price))])
    case CancelConfirmed(_) => (Finish(v, Cancelled), [])
    case ShipmentNotification(_, _, _) => (Finish(v, Delivered), [])
    case _ => (v, [])
  }

  function ConsumerFold(me: int, v: ConsumerView, ms: seq<Message>, tick: int): (ConsumerView, seq<Message>)
    decreases |ms|
  {
    if ms == [] then (v, []) else
      var (v1, out1) := ConsumerReact(me, v, ms[0], tick);
      var (v2, out2) := ConsumerFold(me, v1, ms[1..], tick);
      (v2, out1 + out2)
  }

  /** Cancel requests for the order, from one consumer to one seller. */
  ghost predicate Cancels(k: Case, from: int, to: int, ms: seq<Message>) {
    forall m :: m in ms ==> IsCancel(k, m) && m.from == from && m.to == to
  }

  // -------------------------------------------------------------- the seller's part

  datatype SellerView = SellerView(incoming: Option<Seller.Incoming>, order: Option<Seller.Order>, asks: set<QueryId>)

  function ViewS(st: Seller.State, rid: OrderId): SellerView {
    SellerView(if rid in st.incoming then Some(st.incoming[rid]) else None,
               if rid in st.orders then Some(st.orders[rid]) else None,
               set q | q in st.queries && q.topic == InventoryCheck(rid))
  }

  /** What the seller sends and logs about the order in a batch of reactions. */
  datatype SellerOut = SellerOut(toConsumer: seq<Message>, toCarrier: seq<Message>, requests: seq<Request>, trail: seq<Event>)

  const SILENT := SellerOut([], [], [], [])

  function Join(a: SellerOut, b: SellerOut): SellerOut {
    SellerOut(a.toConsumer + b.toConsumer, a.toCarrier + b.toCarrier, a.requests + b.requests, a.trail + b.trail)
  }

  /** Events of the seller that write the order's record or log its payment. */
  function InTrail(k: Case): Event -> bool {
    (e: Event) => e.agent == k.seller && |e.writes| > 0 && WritesIt(k, e.writes[0])
  }

  predicate WritesIt(k: Case, w: Write) {
    || (w.InsertStoreOrder? && w.rid == k.rid)
    || (w.UpdateStoreOrder? && w.rid == k.rid)
    || (w.InsertPaymentLog? && w.number == k.Number())
  }

  function PaymentEvent(k: Case, o: Seller.Order, m: Message, tick: int): Event
    requires m.payload.Payment?
  {
    Event(StorePaymentReceived, k.seller, tick, [InsertPaymentLog(m.payload.number, m.payload.amount, m.from, tick)],
          Seller.PaymentMessages(k.cfg, k.seller, o, m.payload.number, m.payload.amount, m.from, tick), [])
  }

  function CancelEvent(k: Case, o: Seller.Order, m: Message, tick: int): Event {
    Event(StoreOrderCancelled, k.seller, tick, [UpdateStoreOrder(k.rid, Cancelled), UpdateInventory(o.sku, o.qty)],
          [Message(k.seller, m.from, tick, CancelConfirmed(k.rid))], [])
  }

  function Ships(k: Case, ms: seq<Message>): seq<Message> { Filter(ToCarrier(k), ms) }

  /** The seller's reaction to one message about the order; `q` is the id of the query that a placement asks. */
  function SellerReact(k: Case, v: SellerView, m: Message, tick: int, q: QueryId): (SellerView, SellerOut) {
    match m.payload
    case PlaceOrder(_, sku, qty, price) =>
      (v.(incoming := Some(Seller.Incoming(sku, qty, m.from, price)), asks := v.asks + {q}),
       SILENT.(requests := [Request(q, k.seller, tick)]))
    case Payment(_, _, _) =>
      if v.order.None? || v.order.value.status != Accepted then (v, SILENT) else
        var e := PaymentEvent(k, v.order.value, m, tick);
        (v.(order := Some(v.order.value.(status := Paid))),
         SILENT.(toCarrier := Ships(k, e.messages), trail := if InTrail(k)(e) then [e] else []))
    case CancelRequest(_) =>
      if v.order.None? || v.order.value.status != Accepted then (v, SILENT) else
        var e := CancelEvent(k, v.order.value, m, tick);
        (v.(order := Some(v.order.value.(status := Cancelled))),
         SILENT.(toConsumer := e.messages, trail := [e]))
    case DeliveryComplete(_, shipment, _) =>
      if v.order.None? then (v, SILENT) else
        (v.(order := Some(v.order.value.(status := Delivered))),
         SILENT.(toConsumer := [Message(k.seller, v.order.value.consumer, tick,
                                        ShipmentNotification(k.rid, v.order.value.number, shipment))]))
    case _ => (v, SILENT)
  }

  function SellerFold(k: Case, v: SellerView, ms: seq<Message>, tick: int, q: QueryId): (SellerView, SellerOut)
    decreases |ms|
  {
    if ms == [] then (v, SILENT) else
      var (v1, out1) := SellerReact(k, v, ms[0], tick, q);
      var (v2, out2) := SellerFold(k, v1, ms[1..], tick, q);
      (v2, Join(out1, out2))
  }

  /** Accepting an order on the result of its inventory check. */
  function Accept(k: Case, v: SellerView, tick: int): (SellerView, SellerOut) {
    if v.incoming.None? then (v, SILENT) else
      var o := v.incoming.value;
      var e := Seller.AcceptEvent(k.cfg, k.seller, k.rid, o, tick);
      (v.(incoming := None, order := Some(Seller.Order(o.sku, o.qty, o.consumer, o.price, k.Number(), Accepted))),
       SILENT.(toConsumer := e.messages, trail := [e]))
  }

  /** The seller's reaction to one result of an inventory check for the order. */
  function SellerHear(k: Case, v: SellerView, x: Reply, tick: int): (SellerView, SellerOut) {
    if x.id !in v.asks then (v, SILENT) else Accept(k, v.(asks := v.asks - {x.id}), tick)
  }

  function SellerHearAll(k: Case, v: SellerView, xs: seq<Reply>, tick: int): (SellerView, SellerOut)
    decreases |xs|
  {
    if xs == [] then (v, SILENT) else
      var (v1, out1) := SellerHear(k, v, xs[0], tick);
      var (v2, out2) := SellerHearAll(k, v1, xs[1..], tick);
      (v2, Join(out1, out2))
  }

  // -------------------------------------------------------------- the carrier's part

  function CarrierTake(k: Case, me: int, moving: seq<Transport.Shipment>, ms: seq<Message>, tick: int, id: ShipmentId)
    : seq<Transport.Shipment>
    requires forall m :: m in ms ==> m.payload.ShipRequest?
    decreases |ms|
  {
    if ms == [] then moving else
      var p := ms[0].payload;
      var s := Transport.Shipment(id, Transport.OrderRef(p.order, p.restock), p.origin, p.destination, p.sku, p.qty,
                                  p.freight, tick, tick + Transport.Transit(k.cfg, id), ms[0].from, {});
      CarrierTake(k, me, moving + [s], ms[1..], tick, id)
  }
}
