/** The supplier as an object: it keeps the restock orders it has accepted. */
module SupplierAgent {
  import opened Seqs
  import opened Messages
  import opened Settings
  import opened Engine
  import opened EngineRules
  import opened BaseAgent
  import Supplier

  class SupplierAgent {
    const cfg: Config
    const base: BaseAgent
    var orders: map<RestockId, Supplier.Sale>

    constructor (cfg: Config, base: BaseAgent)
      ensures this.cfg == cfg && this.base == base && Supplier.State(orders) == Supplier.FRESH
    {
      this.cfg, this.base, orders := cfg, base, map[];
    }

    method OnRestockOrder(id: RestockId, sku: int, qty: int, store: int, from: int,
            tick: int) returns (events: seq<Event>)
      modifies this`orders
      ensures (Supplier.State(orders), events)
           == Supplier.OnRestockOrder(cfg, base.me, Supplier.State(old(orders)), id, sku, qty, store, from, tick)
      ensures orders == old(orders)[id := Supplier.Sale(from, sku, qty)]
      ensures |events| == 1 && events[0].kind == RestockFulfilled && events[0].agent == base.me && events[0].tick == tick && events[0].queries == []
      ensures events[0].writes == [InsertPurchaseOrder(id, sku, qty, store, cfg.parts(sku))]
      ensures cfg.transport == None || cfg.transport.value == 0 ==> events[0].messages == []
      ensures cfg.transport.Some? && cfg.transport.value != 0 ==>
                events[0].messages == [Message(base.me, cfg.transport.value, tick,
                                               ShipRequest(None, Some(id), base.me, store, sku, qty, Restock))]
    {
      orders := orders[id := Supplier.Sale(from, sku, qty)];
      var messages := [];
      if Truthy(cfg.transport) {
        messages := [Message(base.me, cfg.transport.value, tick,
                             ShipRequest(None, Some(id), base.me, store, sku, qty, Restock))];
      }
      events := [Event(RestockFulfilled, base.me, tick, [InsertPurchaseOrder(id, sku, qty, store, cfg.parts(sku))], messages, [])];
    }

    /** `on_delivery_complete` only reads the orders. */
    method OnDeliveryComplete(ref: Ref, tick: int) returns (events: seq<Event>)
      ensures (Supplier.State(orders), events) == Supplier.OnDelivery(base.me, Supplier.State(orders), ref, tick)
      ensures events != [] <==> ref.RestockRef? && ref.restock in orders
      ensures events != [] ==>
                var sale := orders[ref.restock];
                events == [Event(RestockForwarded, base.me, tick, [UpdatePurchaseOrder(ref.restock, Delivered)],
                                 [Message(base.me, sale.seller, tick, RestockDelivered(ref.restock, sale.sku, sale.qty))], [])]
    {
      if !ref.RestockRef? || ref.restock !in orders {
        return [];
      }
      var sale := orders[ref.restock];
      events := [Event(RestockForwarded, base.me, tick, [UpdatePurchaseOrder(ref.restock, Delivered)],
                       [Message(base.me, sale.seller, tick, RestockDelivered(ref.restock, sale.sku, sale.qty))], [])];
    }

    method ProcessMessage(m: Message, tick: int) returns (events: seq<Event>)
      modifies this`orders
      ensures (Supplier.State(orders), events) == Supplier.OnMessage(cfg, base.me, Supplier.State(old(orders)), m, tick)
    {
      match m.payload
      case RestockOrder(id, sku, qty, store) => events := OnRestockOrder(id, sku, qty, store, m.from, tick);
      case DeliveryComplete(ref, _, _) => events := OnDeliveryComplete(ref, tick);
      case _ => events := [];
    }

    /** `step`, for the messages that the supplier handles. */
    method Step(tick: int) returns (events: seq<Event>)
      modifies this`orders, base`inbox
      ensures base.inbox == []
      ensures (Supplier.State(orders), events)
           == Supplier.Mail(cfg, base.me, Supplier.State(old(orders)), Sort(MailKey, MessagesOf(old(base.inbox))), tick)
    {
      hide Supplier.OnMessage, PutInOrder;
      var replies, mail := base.Drain(cfg.rank);
      events := [];
      ghost var start := Supplier.Mail(cfg, base.me, Supplier.State(orders), mail, tick);
      assert mail[0..] == mail && [] + start.1 == start.1;
      for n := 0 to |mail|
        invariant base.inbox == []
        invariant var (st, ev) := Supplier.Mail(cfg, base.me, Supplier.State(orders), mail[n..], tick);
                  (st, events + ev) == start
      {
        assert mail[n..][0] == mail[n] && mail[n..][1..] == mail[n + 1..];
        var more := ProcessMessage(mail[n], tick);
        Regroup(events, more, Supplier.Mail(cfg, base.me, Supplier.State(orders), mail[n + 1..], tick).1);
        events := events + more;
      }
      assert events + [] == events;
    }
  }
}
