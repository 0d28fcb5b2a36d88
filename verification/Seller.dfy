/** The seller: it accepts orders, takes payment, ships, confirms or rejects cancellations, and restocks. */
module Seller {
  import opened Messages
  import opened Settings

  datatype Incoming = Incoming(sku: int, qty: int, consumer: int, price: real)
  datatype Order = Order(sku: int, qty: int, consumer: int, price: real, number: int, status: Status)
  datatype RestockEntry = RestockEntry(sku: int, qty: int, supplier: int, received: bool)

  /**
   * `pending_restocks` is keyed by UUID objects, but the message about a delivery brings the id as text,
   * and a text never equals a UUID.
   */
  datatype RestockKey = Uuid(id: RestockId) | Text(id: RestockId)

  /** `orderIds` lists the keys of `orders` in the order of their insertion, as a Python dict does. */
  datatype State = State(incoming: map<OrderId, Incoming>, orders: map<OrderId, Order>, orderIds: seq<OrderId>,
                         restocks: map<RestockKey, RestockEntry>, queries: map<QueryId, Pending>)

  const FRESH := State(map[], map[], [], map[], map[])

  type Effect = (State, seq<Event>)

  function Ask(me: int, st: State, topic: Topic, tick: int, item: int): Effect {
    var id := QueryId(me, tick, item, topic);
    (st.(queries := st.queries[id := Pending(topic, tick)]),
     [Event(QueryRequested, me, tick, [], [], [Request(id, me, tick)])])
  }

  /** `on_place_order` */
  function OnPlaceOrder(me: int, st: State, rid: OrderId, sku: int, qty: int, price: real, from: int,
                        tick: int, item: int): Effect {
    Ask(me, st.(incoming := st.incoming[rid := Incoming(sku, qty, from, price)]), InventoryCheck(rid), tick, item)
  }

  function AcceptEvent(cfg: Config, me: int, rid: OrderId, o: Incoming, tick: int): Event {
    Event(StoreOrderAccepted, me, tick,
          [InsertStoreOrder(rid, o.sku, o.qty, o.price, o.consumer), UpdateInventory(o.sku, -o.qty)],
          [Message(me, o.consumer, tick, OrderAccepted(rid, StoreNumber(cfg, rid), o.price))], [])
  }

  /** `on_inventory_check_result`. The data of the result is not looked at. */
  function OnInventoryCheck(cfg: Config, me: int, st: State, rid: OrderId, tick: int): Effect {
    if rid !in st.incoming then (st, []) else
      var o := st.incoming[rid];
      (st.(incoming := st.incoming - {rid},
           orders := st.orders[rid := Order(o.sku, o.qty, o.consumer, o.price, StoreNumber(cfg, rid), Accepted)],
           orderIds := if rid in st.orders then st.orderIds else st.orderIds + [rid]),
       [AcceptEvent(cfg, me, rid, o, tick)])
  }

  function PaymentMessages(cfg: Config, me: int, o: Order, number: int, amount: real, payer: int,
          tick: int): seq<Message> {
    (if Truthy(cfg.transport)
     then [Message(me, cfg.transport.value, tick,
                   ShipRequest(Some(number), None, me, payer, o.sku, o.qty, ConsumerOrder))]
     else [])
    + (if Truthy(cfg.government)
       then [Message(me, cfg.government.value, tick, OrderReport(number, me, o.sku, o.qty, amount))]
       else [])
  }

  /** `on_payment` */
  function OnPayment(cfg: Config, me: int, st: State, rid: OrderId, number: int, amount: real, from: int,
          tick: int): Effect {
    if rid !in st.orders || st.orders[rid].status != Accepted then (st, []) else
      var o := st.orders[rid];
      (st.(orders := st.orders[rid := o.(status := Paid)]),
       [Event(StorePaymentReceived, me, tick, [InsertPaymentLog(number, amount, from, tick)],
              PaymentMessages(cfg, me, o, number, amount, from, tick), [])])
  }

  /** The first order, in insertion order, with the given store order number. */
  function Find(st: State, ids: seq<OrderId>, ref: Ref): Option<OrderId> {
    if ids == [] then None
    else if ids[0] in st.orders && StoreRef(st.orders[ids[0]].number) == ref then Some(ids[0])
    else Find(st, ids[1..], ref)
  }

  /** `on_delivery_complete` */
  function OnDelivery(me: int, st: State, ref: Ref, shipment: ShipmentId, freight: Freight, tick: int): Effect {
    if freight != ConsumerOrder then (st, []) else
      match Find(st, st.orderIds, ref)
      case None => (st, [])
      case Some(rid) =>
        if rid !in st.orders then (st, []) else
        var o := st.orders[rid];
        (st.(orders := st.orders[rid := o.(status := Delivered)]),
         [Event(StoreDeliveryConfirmed, me, tick, [],
                [Message(me, o.consumer, tick, ShipmentNotification(rid, o.number, shipment))], [])])
  }

  /** `on_restock_delivered` */
  function OnRestockDelivered(me: int, st: State, id: RestockId, sku: int, qty: int, tick: int): Effect {
    (if Text(id) in st.restocks then st.(restocks := st.restocks[Text(id) := st.restocks[Text(id)].(received := true)]) else st,
     [Event(StoreInventoryUpdate, me, tick, [UpdateInventory(sku, qty)], [], [])])
  }

  /** `on_cancel_request` */
  function OnCancelRequest(me: int, st: State, rid: OrderId, from: int, tick: int): Effect {
    if rid !in st.orders then (st, [])
    else if st.orders[rid].status == Accepted then
      var o := st.orders[rid];
      (st.(orders := st.orders[rid := o.(status := Cancelled)]),
       [Event(StoreOrderCancelled, me, tick, [UpdateStoreOrder(rid, Cancelled), UpdateInventory(o.sku, o.qty)],
              [Message(me, from, tick, CancelConfirmed(rid))], [])])
    else
      (st, [Event(StoreCancelRejected, me, tick, [], [Message(me, from, tick, CancelRejected(rid))], [])])
  }

  /** The loop of `on_inventory_levels_result` from row number `row` on: the new state and the restock orders. */
  function RestockRows(cfg: Config, me: int, st: State, rows: seq<StockRow>, tick: int, item: int, row: int)
    : (State, seq<Message>)
    decreases |rows|
  {
    if rows == [] then (st, [])
    else if rows[0].qty < RESTOCK_BELOW && SupplierOf(cfg, rows[0].sku).Some? then
      var supplier := SupplierOf(cfg, rows[0].sku).value;
      var id := RestockId(me, tick, item, row, rows[0].sku);
      var st1 := st.(restocks := st.restocks[Uuid(id) := RestockEntry(rows[0].sku, RESTOCK_QTY, supplier, false)]);
      var (st2, ms) := RestockRows(cfg, me, st1, rows[1..], tick, item, row + 1);
      (st2, [Message(me, supplier, tick, RestockOrder(id, rows[0].sku, RESTOCK_QTY, me))] + ms)
    else RestockRows(cfg, me, st, rows[1..], tick, item, row + 1)
  }

  function StockRows(data: Data): seq<StockRow> {
    if data.Levels? then data.stock else []
  }

  /** `on_inventory_levels_result` */
  function OnInventoryLevels(cfg: Config, me: int, st: State, data: Data, tick: int, item: int): Effect {
    var (st1, ms) := RestockRows(cfg, me, st, StockRows(data), tick, item, 0);
    (st1, if ms == [] then [] else [Event(StoreRestockInitiated, me, tick, [], ms, [])])
  }

  /** `_process_query_result` */
  function OnReply(cfg: Config, me: int, st: State, reply: Reply, tick: int, item: int): Effect {
    if reply.id !in st.queries then (st, []) else
      var popped := st.(queries := st.queries - {reply.id});
      match st.queries[reply.id].topic
      case InventoryCheck(rid) => OnInventoryCheck(cfg, me, popped, rid, tick)
      case InventoryLevels => OnInventoryLevels(cfg, me, popped, reply.data, tick, item)
      case _ => (popped, [])
  }

  /** `_process_message` */
  function OnMessage(cfg: Config, me: int, st: State, m: Message, tick: int, item: int): Effect {
    match m.payload
    case PlaceOrder(rid, sku, qty, price) => OnPlaceOrder(me, st, rid, sku, qty, price, m.from, tick, item)
    case Payment(rid, number, amount) => OnPayment(cfg, me, st, rid, number, amount, m.from, tick)
    case CancelRequest(rid) => OnCancelRequest(me, st, rid, m.from, tick)
    case DeliveryComplete(ref, shipment, freight) => OnDelivery(me, st, ref, shipment, freight, tick)
    case RestockDelivered(id, sku, qty) => OnRestockDelivered(me, st, id, sku, qty, tick)
    case _ => (st, [])
  }

  function Replies(cfg: Config, me: int, st: State, replies: seq<Reply>, tick: int, item: int): Effect
    decreases |replies|
  {
    if replies == [] then (st, []) else
      var (st1, ev1) := OnReply(cfg, me, st, replies[0], tick, item);
      var (st2, ev2) := Replies(cfg, me, st1, replies[1..], tick, item + 1);
      (st2, ev1 + ev2)
  }

  function Mail(cfg: Config, me: int, st: State, mail: seq<Message>, tick: int, item: int): Effect
    decreases |mail|
  {
    if mail == [] then (st, []) else
      var (st1, ev1) := OnMessage(cfg, me, st, mail[0], tick, item);
      var (st2, ev2) := Mail(cfg, me, st1, mail[1..], tick, item + 1);
      (st2, ev1 + ev2)
  }

  function Scheduled(cfg: Config, me: int, st: State, tick: int, item: int): Effect {
    if Due(cfg, me, EvaluateInventory, tick) then Ask(me, st, InventoryLevels, tick, item) else (st, [])
  }

  /** `BaseAgent.step`. The replies and the mail come in handling order. */
  function Step(cfg: Config, me: int, st: State, replies: seq<Reply>, mail: seq<Message>, tick: int): Effect {
    var (st1, ev1) := Replies(cfg, me, st, replies, tick, 0);
    var (st2, ev2) := Mail(cfg, me, st1, mail, tick, |replies|);
    var (st3, ev3) := Scheduled(cfg, me, st2.(queries := Expire(st2.queries, tick)), tick, |replies| + |mail|);
    (st3, ev1 + ev2 + ev3)
  }
}
