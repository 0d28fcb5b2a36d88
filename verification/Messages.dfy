/**
 * What agents exchange: identifiers, inter-agent messages, query requests and results, and the
 * action events that are logged for the database translator.
 */
module Messages {

  datatype Option<+T> = None | Some(value: T)

  // A random UUID is modelled by the circumstances of its draw: who drew it, at which tick, while
  // handling which item of the tick, and what for. Two draws then never coincide, which is all that
  // the protocol expects of a UUID.
  datatype OrderId = OrderId(consumer: int, tick: int, item: int)
  datatype RestockId = RestockId(seller: int, tick: int, item: int, row: int, sku: int)
  datatype ShipmentId = ShipmentId(carrier: int, tick: int, item: int)
  datatype QueryId = QueryId(agent: int, tick: int, item: int, topic: Topic)

  /** The correlation context that a pending query keeps for its result. */
  datatype Topic = ProductDetails(sku: int, category: string) | OrderHistory | InventoryCheck(order: OrderId) | InventoryLevels

  datatype Freight = ConsumerOrder | Restock

  /** The reference that a shipment carries: a store order number, a restock id, or nothing. */
  datatype Ref = StoreRef(number: int) | RestockRef(restock: RestockId) | NoRef

  datatype Payload =
    | PlaceOrder(rid: OrderId, sku: int, qty: int, price: real)
    | OrderAccepted(rid: OrderId, number: int, price: real)
    | Payment(rid: OrderId, number: int, amount: real)
    | CancelRequest(rid: OrderId)
    | CancelConfirmed(rid: OrderId)
    | CancelRejected(rid: OrderId)
    | ShipRequest(order: Option<int>, restock: Option<RestockId>, origin: int, destination: int,
                  sku: int, qty: int, freight: Freight)
    | DeliveryComplete(ref: Ref, shipment: ShipmentId, freight: Freight)
    | ShipmentNotification(rid: OrderId, number: int, shipment: ShipmentId)
    | RestockOrder(id: RestockId, sku: int, qty: int, store: int)
    | RestockDelivered(id: RestockId, sku: int, qty: int)
    | OrderReport(number: int, seller: int, sku: int, qty: int, amount: real)

  datatype Message = Message(from: int, to: int, tickSent: int, payload: Payload)

  /** The data of a query result. Which data a query yields is up to the query handler. */
  datatype Data =
    | Product(price: Option<real>, review: Option<real>)
    | History(rows: seq<HistoryRow>)
    | Levels(stock: seq<StockRow>)
    | NoData

  datatype HistoryRow = HistoryRow(rid: OrderId, late: bool, requested: bool)
  datatype StockRow = StockRow(sku: int, qty: int)

  datatype Request = Request(id: QueryId, agent: int, tick: int)
  datatype Reply = Reply(id: QueryId, agent: int, data: Data)

  datatype Item = Msg(message: Message) | Res(reply: Reply)

  datatype Status = Requested | CancelRequested | Accepted | Paid | Delivered | Cancelled

  datatype Track = PickedUp | Progress(percent: int) | Arrived

  datatype Write =
    | InsertConsumerOrder(rid: OrderId, sku: int, qty: int, seller: int, price: real)
    | UpdateConsumerOrder(rid: OrderId, status: Status)
    | InsertStoreOrder(rid: OrderId, sku: int, qty: int, price: real, consumer: int)
    | UpdateStoreOrder(rid: OrderId, status: Status)
    | UpdateInventory(sku: int, delta: int)
    | InsertPaymentLog(number: int, amount: real, payer: int, tick: int)
    | InsertShipment(shipment: ShipmentId, ref: Ref, origin: int, destination: int, eta: int)
    | UpdateShipment(shipment: ShipmentId, tick: int)
    | InsertTracking(shipment: ShipmentId, mark: Track, tick: int)
    | InsertPurchaseOrder(id: RestockId, sku: int, qty: int, store: int, parts: seq<int>)
    | UpdatePurchaseOrder(id: RestockId, status: Status)
    | InsertGovRecord(seller: int, number: int)

  datatype Kind =
    | PurchaseIntent | ConsumerStatusUpdate | QueryRequested
    | StoreOrderAccepted | StorePaymentReceived | StoreDeliveryConfirmed | StoreInventoryUpdate
    | StoreOrderCancelled | StoreCancelRejected | StoreRestockInitiated
    | ShipmentCreated | TrackingUpdate | DeliveryCompleted
    | RestockFulfilled | RestockForwarded | GovRecordInsert

  datatype Event = Event(kind: Kind, agent: int, tick: int, writes: seq<Write>,
                         messages: seq<Message>, queries: seq<Request>)

  /** All messages of a list of events, in order. */
  function Msgs(events: seq<Event>): seq<Message> {
    if events == [] then [] else events[0].messages + Msgs(events[1..])
  }

  /** All query requests of a list of events, in order. */
  function Reqs(events: seq<Event>): seq<Request> {
    if events == [] then [] else events[0].queries + Reqs(events[1..])
  }

  lemma MsgsAppend(xs: seq<Event>, ys: seq<Event>)
    ensures Msgs(xs + ys) == Msgs(xs) + Msgs(ys)
    ensures Reqs(xs + ys) == Reqs(xs) + Reqs(ys)
  {
    if xs == [] {
      assert xs + ys == ys;
    } else {
      assert (xs + ys)[1..] == xs[1..] + ys;
      MsgsAppend(xs[1..], ys);
    }
  }

  lemma MsgsOne(e: Event)
    ensures Msgs([e]) == e.messages && Reqs([e]) == e.queries
  {
    assert [e][1..] == [];
  }
}
