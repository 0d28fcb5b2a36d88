/** The supplier: it has every restock order shipped, and forwards the delivery to the seller. */
module Supplier {
  import opened Messages
  import opened Settings

  datatype Sale = Sale(seller: int, sku: int, qty: int)
  datatype State = State(orders: map<RestockId, Sale>)

  const FRESH := State(map[])

  type Effect = (State, seq<Event>)

  /** `on_restock_order` */
  function OnRestockOrder(cfg: Config, me: int, st: State, id: RestockId, sku: int, qty: int, store: int,
                          from: int, tick: int): Effect {
    (State(st.orders[id := Sale(from, sku, qty)]),
     [Event(RestockFulfilled, me, tick, [InsertPurchaseOrder(id, sku, qty, store, cfg.parts(sku))],
            if Truthy(cfg.transport)
            then [Message(me, cfg.transport.value, tick, ShipRequest(None, Some(id), me, store, sku, qty, Restock))]
            else [],
            [])])
  }

  /** `on_delivery_complete` */
  function OnDelivery(me: int, st: State, ref: Ref, tick: int): Effect {
    if !ref.RestockRef? || ref.restock !in st.orders then (st, []) else
      var sale := st.orders[ref.restock];
      (st, [Event(RestockForwarded, me, tick, [UpdatePurchaseOrder(ref.restock, Delivered)],
                  [Message(me, sale.seller, tick, RestockDelivered(ref.restock, sale.sku, sale.qty))], [])])
  }

  /** `_process_message` */
  function OnMessage(cfg: Config, me: int, st: State, m: Message, tick: int): Effect {
    match m.payload
    case RestockOrder(id, sku, qty, store) => OnRestockOrder(cfg, me, st, id, sku, qty, store, m.from, tick)
    case DeliveryComplete(ref, _, _) => OnDelivery(me, st, ref, tick)
    case _ => (st, [])
  }

  function Mail(cfg: Config, me: int, st: State, mail: seq<Message>, tick: int): Effect
    decreases |mail|
  {
    if mail == [] then (st, []) else
      var (st1, ev1) := OnMessage(cfg, me, st, mail[0], tick);
      var (st2, ev2) := Mail(cfg, me, st1, mail[1..], tick);
      (st2, ev1 + ev2)
  }
}
