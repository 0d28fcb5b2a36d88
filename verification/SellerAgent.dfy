/** The seller as an object: its handlers update its books in place. */
module SellerAgent {
  import opened Seqs
  import opened Messages
  import opened Settings
  import opened Engine
  import opened EngineRules
  import opened BaseAgent
  import opened SellerRules
  import Seller

  class SellerAgent {
    const cfg: Config
    const base: BaseAgent
    var incoming: map<OrderId, Seller.Incoming>
    var orders: map<OrderId, Seller.Order>
    var orderIds: seq<OrderId>
    var restocks: map<Seller.RestockKey, Seller.RestockEntry>

    /** The state that the object stands for. */
    ghost function State(): Seller.State
      reads this, base`pending
    {
      Seller.State(incoming, orders, orderIds, restocks, base.pending)
    }

    constructor (cfg: Config, base: BaseAgent)
      requires base.pending == map[]
      ensures this.cfg == cfg && this.base == base && State() == Seller.FRESH
    {
      this.cfg, this.base := cfg, base;
      incoming, orders, orderIds, restocks := map[], map[], [], map[];
    }

    method Ask(topic: Topic, tick: int, item: int) returns (events: seq<Event>)
      requires base.currentTick == tick
      modifies base`pending
      ensures (State(), events) == Seller.Ask(base.me, old(State()), topic, tick, item)
    {
      var request := base.EmitQuery(topic, item);
      events := [Event(QueryRequested, base.me, tick, [], [], [request])];
    }

    method OnPlaceOrder(rid: OrderId, sku: int, qty: int, price: real, from: int, tick: int, item: int)
      returns (events: seq<Event>)
      requires base.currentTick == tick
      modifies this`incoming, base`pending
      ensures (State(), events) == Seller.OnPlaceOrder(base.me, old(State()), rid, sku, qty, price, from, tick, item)
      ensures incoming == old(incoming)[rid := Seller.Incoming(sku, qty, from, price)]
      ensures var id := QueryId(base.me, tick, item, InventoryCheck(rid));
              && base.pending == old(base.pending)[id := Pending(InventoryCheck(rid), tick)]
              && events == [Event(QueryRequested, base.me, tick, [], [], [Request(id, base.me, tick)])]
    {
      incoming := incoming[rid := Seller.Incoming(sku, qty, from, price)];
      events := Ask(InventoryCheck(rid), tick, item);
    }

    method OnInventoryCheckResult(rid: OrderId, tick: int) returns (events: seq<Event>)
      modifies this`incoming, this`orders, this`orderIds
      ensures (State(), events) == Seller.OnInventoryCheck(cfg, base.me, old(State()), rid, tick)
      ensures LetsIn(cfg, base.me, old(State()), rid, tick, State(), events)
    {
      CheckLetsIn(cfg, base.me, State(), rid, tick);
      hide LetsIn;
      if rid !in incoming {
        return [];
      }
      var order := incoming[rid];
      incoming := incoming - {rid};
      var number := StoreNumber(cfg, rid);
      if rid !in orders {
        orderIds := orderIds + [rid];
      }
      orders := orders[rid := Seller.Order(order.sku, order.qty, order.consumer, order.price, number, Accepted)];
      events := [Event(StoreOrderAccepted, base.me, tick,
                       [InsertStoreOrder(rid, order.sku, order.qty, order.price, order.consumer),
                        UpdateInventory(order.sku, -order.qty)],
                       [Message(base.me, order.consumer, tick, OrderAccepted(rid, number, order.price))], [])];
    }

    method OnPayment(rid: OrderId, number: int, amount: real, from: int, tick: int) returns (events: seq<Event>)
      modifies this`orders
      ensures (State(), events) == Seller.OnPayment(cfg, base.me, old(State()), rid, number, amount, from, tick)
      ensures rid !in old(orders) || old(orders)[rid].status != Accepted ==> events == [] && orders == old(orders)
      ensures rid in old(orders) && old(orders)[rid].status == Accepted ==>
                var o := old(orders)[rid];
                && orders == old(orders)[rid := o.(status := Paid)]
                && |events| == 1 && Passes(cfg, base.me, o, number, amount, from, tick, events[0].messages)
                && events == [Event(StorePaymentReceived, base.me, tick, [InsertPaymentLog(number, amount, from, tick)],
                                    events[0].messages, [])]
    {
      if rid !in orders || orders[rid].status != Accepted {
        return [];
      }
      var order := orders[rid];
      orders := orders[rid := order.(status := Paid)];
      var messages := [];
      if Truthy(cfg.transport) {
        messages := messages + [Message(base.me, cfg.transport.value, tick,
                                        ShipRequest(Some(number), None, base.me, from, order.sku, order.qty, ConsumerOrder))];
      }
      if Truthy(cfg.government) {
        messages := messages + [Message(base.me, cfg.government.value, tick,
                                        OrderReport(number, base.me, order.sku, order.qty, amount))];
      }
      assert messages == Seller.PaymentMessages(cfg, base.me, order, number, amount, from, tick);
      PaymentPasses(cfg, base.me, order, number, amount, from, tick);
      events := [Event(StorePaymentReceived, base.me, tick, [InsertPaymentLog(number, amount, from, tick)], messages, [])];
    }

    /** The n-th known order has the store order number of the reference. */
    ghost predicate Bears(n: nat, ref: Ref)
      requires n < |orderIds|
      reads this
    {
      orderIds[n] in orders && StoreRef(orders[orderIds[n]].number) == ref
    }

    /** The search loop of `on_delivery_complete`: the first order with the number, or none if no order has it. */
    method FindOrder(ref: Ref) returns (found: Option<OrderId>)
      ensures found == Seller.Find(State(), orderIds, ref)
      ensures found == None <==> forall n :: 0 <= n < |orderIds| ==> !Bears(n, ref)
      ensures found != None ==> exists n :: 0 <= n < |orderIds| && Bears(n, ref) && found.value == orderIds[n]
                                            && forall j :: 0 <= j < n ==> !Bears(j, ref)
    {
      var n := 0;
      while n < |orderIds|
        invariant 0 <= n <= |orderIds| && forall j :: 0 <= j < n ==> !Bears(j, ref)
        invariant Seller.Find(State(), orderIds, ref) == Seller.Find(State(), orderIds[n..], ref)
      {
        var rid := orderIds[n];
        assert orderIds[n..][1..] == orderIds[n + 1..];
        if rid in orders && StoreRef(orders[rid].number) == ref {
          assert Bears(n, ref);
          return Some(rid);
        }
        n := n + 1;
      }
      return None;
    }

    /** The order's consumer is told of the delivery of the order with the reference's number. */
    ghost predicate Confirms(before: map<OrderId, Seller.Order>, rid: OrderId, ref: Ref, shipment: ShipmentId, tick: int,
                             events: seq<Event>)
    {
      && rid in before && ref == StoreRef(before[rid].number)
      && events == [Event(StoreDeliveryConfirmed, base.me, tick, [],
                          [Message(base.me, before[rid].consumer, tick, ShipmentNotification(rid, before[rid].number, shipment))], [])]
    }

    method OnDeliveryComplete(ref: Ref, shipment: ShipmentId, freight: Freight, tick: int) returns (events: seq<Event>)
      modifies this`orders
      ensures (State(), events) == Seller.OnDelivery(base.me, old(State()), ref, shipment, freight, tick)
      ensures events != [] <==> freight == ConsumerOrder && exists n :: 0 <= n < |orderIds| && old(Bears(n, ref))
      ensures events == [] ==> orders == old(orders)
      ensures events != [] ==>
                exists n :: 0 <= n < |orderIds| && old(Bears(n, ref)) && (forall j :: 0 <= j < n ==> !old(Bears(j, ref)))
                            && Confirms(old(orders), orderIds[n], ref, shipment, tick, events)
                            && orders == old(orders)[orderIds[n] := old(orders)[orderIds[n]].(status := Delivered)]
    {
      if freight != ConsumerOrder {
        return [];
      }
      var found := FindOrder(ref);
      forall n | 0 <= n < |orderIds| ensures old(Bears(n, ref)) == Bears(n, ref) {
      }
      if found == None || found.value !in orders {
        return [];
      }
      var rid := found.value;
      orders := orders[rid := orders[rid].(status := Delivered)];
      events := [Event(StoreDeliveryConfirmed, base.me, tick, [],
                       [Message(base.me, orders[rid].consumer, tick, ShipmentNotification(rid, orders[rid].number, shipment))],
                       [])];
    }

    method OnRestockDelivered(id: RestockId, sku: int, qty: int, tick: int) returns (events: seq<Event>)
      modifies this`restocks
      ensures (State(), events) == Seller.OnRestockDelivered(base.me, old(State()), id, sku, qty, tick)
      ensures events == [Event(StoreInventoryUpdate, base.me, tick, [UpdateInventory(sku, qty)], [], [])]
      ensures forall key :: key in restocks <==> key in old(restocks)
      ensures forall key :: key in restocks ==>
                restocks[key] == if key == Seller.Text(id) then old(restocks)[key].(received := true) else old(restocks)[key]
    {
      var key := Seller.Text(id);
      if key in restocks {
        restocks := restocks[key := restocks[key].(received := true)];
      }
      events := [Event(StoreInventoryUpdate, base.me, tick, [UpdateInventory(sku, qty)], [], [])];
    }

    method OnCancelRequest(rid: OrderId, from: int, tick: int) returns (events: seq<Event>)
      modifies this`orders
      ensures (State(), events) == Seller.OnCancelRequest(base.me, old(State()), rid, from, tick)
      ensures rid !in old(orders) ==> events == [] && orders == old(orders)
      ensures rid in old(orders) && old(orders)[rid].status == Accepted ==>
                var o := old(orders)[rid];
                && orders == old(orders)[rid := o.(status := Cancelled)]
                && events == [Event(StoreOrderCancelled, base.me, tick,
                                    [UpdateStoreOrder(rid, Cancelled), UpdateInventory(o.sku, o.qty)],
                                    [Message(base.me, from, tick, CancelConfirmed(rid))], [])]
      ensures rid in old(orders) && old(orders)[rid].status != Accepted ==>
                && orders == old(orders)
                && events == [Event(StoreCancelRejected, base.me, tick, [], [Message(base.me, from, tick, CancelRejected(rid))], [])]
    {
      if rid !in orders {
        return [];
      }
      var order := orders[rid];
      if order.status == Accepted {
        orders := orders[rid := order.(status := Cancelled)];
        events := [Event(StoreOrderCancelled, base.me, tick,
                         [UpdateStoreOrder(rid, Cancelled), UpdateInventory(order.sku, order.qty)],
                         [Message(base.me, from, tick, CancelConfirmed(rid))], [])];
      } else {
        events := [Event(StoreCancelRejected, base.me, tick, [],
                         [Message(base.me, from, tick, CancelRejected(rid))], [])];
      }
    }

    /** The choice of a supplier in `on_inventory_levels_result`: the first primary source, else the first source. */
    method ChooseSupplier(sku: int) returns (supplier: Option<int>)
      ensures supplier == SupplierOf(cfg, sku)
      ensures Chosen(cfg.sources(sku), supplier)
    {
      var sources := cfg.sources(sku);
      var primary := [];
      assert sources[0..] == sources;
      for n := 0 to |sources|
        invariant FirstPrimary(sources) == if primary == [] then FirstPrimary(sources[n..]) else Some(primary[0])
        invariant primary == [] <==> forall i :: 0 <= i < n ==> !sources[i].primary
        invariant forall i :: 0 <= i < n && sources[i].primary && (forall j :: 0 <= j < i ==> !sources[j].primary)
                              ==> primary[0] == sources[i]
      {
        assert sources[n..][0] == sources[n] && sources[n..][1..] == sources[n + 1..];
        if sources[n].primary {
          primary := primary + [sources[n]];
        }
      }
      if primary != [] {
        supplier := primary[0].supplier;
      } else if sources != [] {
        supplier := sources[0].supplier;
      } else {
        supplier := None;
      }
    }

    /** The body of the loop of `on_inventory_levels_result`, for one row of the result. */
    method CheckRow(line: StockRow, tick: int, item: int, row: int) returns (messages: seq<Message>)
      modifies this`restocks
      ensures State() == old(State()).(restocks := restocks)
      ensures messages == [] <==> forall supplier :: !Needs(cfg, line, supplier)
      ensures messages != [] ==> |messages| == 1 && Restocks(cfg, base.me, line, tick, item, row, messages[0])
      ensures Recorded(old(restocks), restocks, messages)
      ensures forall rest :: var (st, ms) := Seller.RestockRows(cfg, base.me, State(), rest, tick, item, row + 1);
                Seller.RestockRows(cfg, base.me, old(State()), [line] + rest, tick, item, row) == (st, messages + ms)
    {
      messages := [];
      forall supplier ensures Chosen(cfg.sources(line.sku), Some(supplier)) <==> SupplierOf(cfg, line.sku) == Some(supplier) {
        ChosenIs(cfg, line.sku, Some(supplier));
      }
      hide Chosen, SupplierOf, Recorded;
      if line.qty < RESTOCK_BELOW {
        var choice := ChooseSupplier(line.sku);
        if choice.Some? {
          var supplier := choice.value;
          var id := RestockId(base.me, tick, item, row, line.sku);
          restocks := restocks[Seller.Uuid(id) := Seller.RestockEntry(line.sku, RESTOCK_QTY, supplier, false)];
          messages := [Message(base.me, supplier, tick, RestockOrder(id, line.sku, RESTOCK_QTY, base.me))];
          assert Needs(cfg, line, supplier);
          OneRecorded(old(restocks), messages[0]);
        }
      }
      NoneRecorded(restocks);
      forall rest
        ensures var (st, ms) := Seller.RestockRows(cfg, base.me, State(), rest, tick, item, row + 1);
                Seller.RestockRows(cfg, base.me, old(State()), [line] + rest, tick, item, row) == (st, messages + ms)
      {
        assert ([line] + rest)[1..] == rest;
        assert [] + Seller.RestockRows(cfg, base.me, State(), rest, tick, item, row + 1).1
            == Seller.RestockRows(cfg, base.me, State(), rest, tick, item, row + 1).1;
      }
    }

    method OnInventoryLevelsResult(data: Data, tick: int, item: int) returns (events: seq<Event>)
      modifies this`restocks
      ensures (State(), events) == Seller.OnInventoryLevels(cfg, base.me, old(State()), data, tick, item)
      ensures Reviewed(cfg, base.me, data, tick, item, old(restocks), restocks, events)
    {
      hide Reviewed, Orders, Recorded, Needs, Restocks, Seller.RestockRows;
      var rows := if data.Levels? then data.stock else [];
      var messages := [];
      ghost var start := Seller.RestockRows(cfg, base.me, State(), rows, tick, item, 0);
      assert rows[0..] == rows && [] + start.1 == start.1;
      for row := 0 to |rows|
        invariant var (st, ms) := Seller.RestockRows(cfg, base.me, State(), rows[row..], tick, item, row);
                  (st, messages + ms) == start
        invariant State() == old(State()).(restocks := restocks)
      {
        assert rows[row..] == [rows[row]] + rows[row + 1..];
        var more := CheckRow(rows[row], tick, item, row);
        Regroup(messages, more, Seller.RestockRows(cfg, base.me, State(), rows[row + 1..], tick, item, row + 1).1);
        messages := messages + more;
      }
      RowsDone(cfg, base.me, State(), tick, item, |rows|);
      NothingAdded(messages);
      events := if messages != [] then [Event(StoreRestockInitiated, base.me, tick, [], messages, [])] else [];
      LevelsReviewed(cfg, base.me, old(State()), data, tick, item);
    }

    method ProcessQueryResult(reply: Reply, tick: int, item: int) returns (events: seq<Event>)
      modifies this, base`pending
      ensures (State(), events) == Seller.OnReply(cfg, base.me, old(State()), reply, tick, item)
      ensures reply.id in old(base.pending) && old(base.pending)[reply.id].topic == InventoryLevels ==>
                Reviewed(cfg, base.me, reply.data, tick, item, old(restocks), restocks, events)
      ensures reply.id !in old(base.pending) ==> events == [] && State() == old(State())
      ensures reply.id in old(base.pending) && old(base.pending)[reply.id].topic.InventoryCheck? ==>
                LetsIn(cfg, base.me, old(State()).(queries := old(base.pending) - {reply.id}),
                       old(base.pending)[reply.id].topic.order, tick, State(), events)
    {
      hide Seller.OnInventoryCheck, Seller.OnInventoryLevels, Reviewed, LetsIn;
      var pending := base.Pop(reply.id);
      if pending == None {
        assert State() == old(State());
        return [];
      }
      match pending.value.topic
      case InventoryCheck(rid) => events := OnInventoryCheckResult(rid, tick);
      case InventoryLevels => events := OnInventoryLevelsResult(reply.data, tick, item);
      case _ => events := [];
    }

    method ProcessMessage(m: Message, tick: int, item: int) returns (events: seq<Event>)
      requires base.currentTick == tick
      modifies this, base`pending
      ensures (State(), events) == Seller.OnMessage(cfg, base.me, old(State()), m, tick, item)
      ensures Handles(cfg, base.me, old(State()), m, tick, item, State(), events)
    {
      MessageHandled(cfg, base.me, State(), m, tick, item);
      hide Seller.OnPlaceOrder, Seller.OnPayment, Seller.OnCancelRequest, Seller.OnDelivery, Seller.OnRestockDelivered, Handles;
      match m.payload
      case PlaceOrder(rid, sku, qty, price) => events := OnPlaceOrder(rid, sku, qty, price, m.from, tick, item);
      case Payment(rid, number, amount) => events := OnPayment(rid, number, amount, m.from, tick);
      case CancelRequest(rid) => events := OnCancelRequest(rid, m.from, tick);
      case DeliveryComplete(ref, shipment, freight) => events := OnDeliveryComplete(ref, shipment, freight, tick);
      case RestockDelivered(id, sku, qty) => events := OnRestockDelivered(id, sku, qty, tick);
      case _ => events := [];
    }

    /** The loop over query results in `_drain_inbox`. */
    method ProcessReplies(replies: seq<Reply>, tick: int) returns (events: seq<Event>)
      modifies this, base`pending
      ensures (State(), events) == Seller.Replies(cfg, base.me, old(State()), replies, tick, 0)
    {
      hide Seller.OnReply;
      events := [];
      ghost var start := Seller.Replies(cfg, base.me, State(), replies, tick, 0);
      assert replies[0..] == replies && [] + start.1 == start.1;
      for n := 0 to |replies|
        invariant var (st, ev) := Seller.Replies(cfg, base.me, State(), replies[n..], tick, n);
                  (st, events + ev) == start
      {
        assert replies[n..][0] == replies[n] && replies[n..][1..] == replies[n + 1..];
        var more := ProcessQueryResult(replies[n], tick, n);
        Regroup(events, more, Seller.Replies(cfg, base.me, State(), replies[n + 1..], tick, n + 1).1);
        events := events + more;
      }
      assert events + [] == events;
    }

    /** The loop over messages in `_drain_inbox`. */
    method ProcessMail(mail: seq<Message>, tick: int, item: int) returns (events: seq<Event>)
      requires base.currentTick == tick
      modifies this, base`pending
      ensures (State(), events) == Seller.Mail(cfg, base.me, old(State()), mail, tick, item)
    {
      hide Seller.OnMessage;
      events := [];
      ghost var start := Seller.Mail(cfg, base.me, State(), mail, tick, item);
      assert mail[0..] == mail && [] + start.1 == start.1;
      for n := 0 to |mail|
        invariant var (st, ev) := Seller.Mail(cfg, base.me, State(), mail[n..], tick, item + n);
                  (st, events + ev) == start
      {
        assert mail[n..][0] == mail[n] && mail[n..][1..] == mail[n + 1..];
        var more := ProcessMessage(mail[n], tick, item + n);
        Regroup(events, more, Seller.Mail(cfg, base.me, State(), mail[n + 1..], tick, item + n + 1).1);
        events := events + more;
      }
      assert events + [] == events;
    }

    /** The schedule loop of `step`. */
    method FireSchedule(tick: int, item: int) returns (events: seq<Event>)
      requires tick >= 1 && base.OnSchedule(tick - 1) && Scheduled(cfg, base) && base.currentTick == tick
      modifies base`pending, base`lastFired
      ensures base.OnSchedule(tick)
      ensures (State(), events) == Seller.Scheduled(cfg, base.me, old(State()), tick, item)
      ensures !Due(cfg, base.me, EvaluateInventory, tick) ==> events == [] && base.pending == old(base.pending)
      ensures Due(cfg, base.me, EvaluateInventory, tick) ==>
                var id := QueryId(base.me, tick, item, InventoryLevels);
                && base.pending == old(base.pending)[id := Pending(InventoryLevels, tick)]
                && events == [Event(QueryRequested, base.me, tick, [], [], [Request(id, base.me, tick)])]
      ensures Recent(old(base.pending), tick) ==> Recent(base.pending, tick)
    {
      hide Fires;
      var due := base.DueActions(tick);
      DueMeans(cfg, base, EvaluateInventory, tick, due);
      events := [];
      if EvaluateInventory in due {
        events := Ask(InventoryLevels, tick, item);
      }
    }

    /** `step`: drain the inbox, expire queries, fire the schedule. */
    method Step(tick: int) returns (events: seq<Event>)
      requires tick >= 1 && base.OnSchedule(tick - 1) && Scheduled(cfg, base)
      modifies this, base
      ensures base.OnSchedule(tick) && base.inbox == []
      ensures (State(), events) == Seller.Step(cfg, base.me, old(State()),
                                               Sort(ReplyKey(cfg.rank), RepliesOf(old(base.inbox))),
                                               Sort(MailKey, MessagesOf(old(base.inbox))), tick)
      ensures Recent(base.pending, tick)
    {
      hide Seller.Replies, Seller.Mail, Seller.Scheduled, Recent, OnlyRecent, Fires, Expire, PutInOrder;
      base.currentTick := tick;
      var replies, mail := base.Drain(cfg.rank);
      var fromReplies := ProcessReplies(replies, tick);
      var fromMail := ProcessMail(mail, tick, |replies|);
      base.ExpirePending(tick);
      var fired := FireSchedule(tick, |replies| + |mail|);
      events := fromReplies + fromMail + fired;
    }
  }
}
