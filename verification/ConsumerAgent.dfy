/** The consumer as an object: its handlers update its orders and its cart in place. */
module ConsumerAgent {
  import opened Seqs
  import opened Messages
  import opened Settings
  import opened Engine
  import opened EngineRules
  import opened BaseAgent
  import opened ConsumerRules
  import Consumer

  class ConsumerAgent {
    const cfg: Config
    const base: BaseAgent
    var pendingOrders: map<OrderId, Consumer.Order>
    var completedOrders: seq<Consumer.Closed>
    var cart: seq<Consumer.CartLine>
    var skusToView: seq<Shown>

    /** The state that the object stands for. */
    ghost function State(): Consumer.State
      reads this, base`pending
    {
      Consumer.State(pendingOrders, completedOrders, cart, base.pending)
    }

    /** One log entry with the order's new status, and the given messages. */
    ghost predicate Reports(rid: OrderId, status: Status, messages: seq<Message>, tick: int, events: seq<Event>) {
      events == [Event(ConsumerStatusUpdate, base.me, tick, [UpdateConsumerOrder(rid, status)], messages, [])]
    }

    /** The order has left the pending ones for the end of the completed ones, with the status. */
    ghost predicate Moved(pending: Pendings, completed: seq<Consumer.Closed>, rid: OrderId, status: Status)
      reads this`pendingOrders, this`completedOrders
    {
      && rid in pending && pendingOrders == pending - {rid}
      && completedOrders == completed + [Consumer.Closed(rid, pending[rid].(status := status))]
    }

    constructor (cfg: Config, base: BaseAgent)
      requires base.pending == map[]
      ensures this.cfg == cfg && this.base == base && State() == Consumer.FRESH && skusToView == []
    {
      this.cfg, this.base := cfg, base;
      pendingOrders, completedOrders, cart, skusToView := map[], [], [], [];
    }

    method StatusUpdate(tick: int, rid: OrderId, status: Status, messages: seq<Message>) returns (events: seq<Event>)
      ensures events == [Consumer.StatusEvent(base.me, tick, rid, status, messages)]
      ensures Reports(rid, status, messages, tick, events)
    {
      events := [Event(ConsumerStatusUpdate, base.me, tick, [UpdateConsumerOrder(rid, status)], messages, [])];
    }

    method InitiatePurchase(sku: int, qty: int, price: real, seller: int, tick: int,
            item: int) returns (events: seq<Event>)
      modifies this`pendingOrders
      ensures (State(), events) == Consumer.Purchase(base.me, old(State()), sku, qty, price, seller, tick, item)
      ensures var rid := OrderId(base.me, tick, item);
              && pendingOrders == old(pendingOrders)[rid := Consumer.Order(sku, qty, price, seller, Requested, None)]
              && events == [Event(PurchaseIntent, base.me, tick, [InsertConsumerOrder(rid, sku, qty, seller, price)],
                                  [Message(base.me, seller, tick, PlaceOrder(rid, sku, qty, price))], [])]
    {
      var rid := OrderId(base.me, tick, item);
      pendingOrders := pendingOrders[rid := Consumer.Order(sku, qty, price, seller, Requested, None)];
      var m := Message(base.me, seller, tick, PlaceOrder(rid, sku, qty, price));
      events := [Event(PurchaseIntent, base.me, tick, [InsertConsumerOrder(rid, sku, qty, seller, price)], [m], [])];
    }

    /** The first draw is for the cart, the second, taken only if the first succeeds, for the purchase. */
    method OnProductDetailsResult(sku: int, category: string, data: Data, tick: int, item: int) returns (events: seq<Event>)
      modifies this`pendingOrders, this`cart
      ensures (State(), events) == Consumer.OnProductDetails(cfg, base.me, old(State()), sku, category, data, tick, item)
      ensures Shops(cfg, base.me, sku, category, data, tick, item, old(State()), State(), events)
    {
      DetailsShop(cfg, base.me, State(), sku, category, data, tick, item);
      hide Shops;
      var price := if data.Product? && data.price.Some? then data.price.value else DEFAULT_PRICE;
      var review := if data.Product? && data.review.Some? then data.review.value else Consumer.DEFAULT_REVIEW;
      events := [];
      if cfg.roll(base.me, tick, item, CartRoll) < Consumer.CartChance(cfg, base.me, sku, price, review) {
        cart := cart + [Consumer.CartLine(sku, category, price)];
        if cfg.roll(base.me, tick, item, PurchaseRoll) < Consumer.PurchaseChance(cfg, base.me, category) {
          events := InitiatePurchase(sku, 1, price, Consumer.ChosenSeller(cfg, base.me, sku, tick, item), tick, item);
        }
      }
    }

    method CancelOrder(rid: OrderId, tick: int) returns (events: seq<Event>)
      modifies this`pendingOrders
      ensures (State(), events) == Consumer.Cancel(base.me, old(State()), rid, tick)
      ensures rid !in old(pendingOrders) ==> events == [] && pendingOrders == old(pendingOrders)
      ensures rid in old(pendingOrders) ==>
                && pendingOrders == old(pendingOrders)[rid := old(pendingOrders)[rid].(status := CancelRequested)]
                && Reports(rid, CancelRequested, [Message(base.me, old(pendingOrders)[rid].seller, tick, CancelRequest(rid))], tick, events)
    {
      if rid !in pendingOrders {
        return [];
      }
      pendingOrders := pendingOrders[rid := pendingOrders[rid].(status := CancelRequested)];
      var m := Message(base.me, pendingOrders[rid].seller, tick, CancelRequest(rid));
      events := StatusUpdate(tick, rid, CancelRequested, [m]);
    }

    method OnOrderHistoryResult(data: Data, tick: int, item: int) returns (events: seq<Event>)
      modifies this`pendingOrders
      ensures (State(), events) == Consumer.CancelRows(cfg, base.me, old(State()), Consumer.HistoryRows(data), tick, item, 0)
      ensures Reconsidered(cfg, base.me, data, tick, item, old(pendingOrders), pendingOrders, events)
    {
      HistoryReconsidered(cfg, base.me, State(), data, tick, item);
      hide Consumer.Cancel, Reconsidered;
      var rows := if data.History? then data.rows else [];
      events := [];
      ghost var start := Consumer.CancelRows(cfg, base.me, State(), rows, tick, item, 0);
      assert rows[0..] == rows && [] + start.1 == start.1;
      for n := 0 to |rows|
        invariant var (st, ev) := Consumer.CancelRows(cfg, base.me, State(), rows[n..], tick, item, n);
                  (st, events + ev) == start
      {
        assert rows[n..][0] == rows[n] && rows[n..][1..] == rows[n + 1..];
        var more := [];
        if rows[n].late && rows[n].requested && cfg.cancels(base.me, tick, item, n) {
          more := CancelOrder(rows[n].rid, tick);
        }
        Regroup(events, more, Consumer.CancelRows(cfg, base.me, State(), rows[n + 1..], tick, item, n + 1).1);
        events := events + more;
      }
      assert events + [] == events;
    }

    method OnOrderAccepted(rid: OrderId, number: int, price: real, from: int, tick: int) returns (events: seq<Event>)
      modifies this`pendingOrders
      ensures (State(), events) == Consumer.OnAccepted(base.me, old(State()), rid, number, price, from, tick)
      ensures rid !in old(pendingOrders) ==> events == [] && pendingOrders == old(pendingOrders)
      ensures rid in old(pendingOrders) ==>
                && pendingOrders == old(pendingOrders)[rid := old(pendingOrders)[rid].(status := Accepted, number := Some(number))]
                && Reports(rid, Accepted, [Message(base.me, from, tick, Payment(rid, number, price))], tick, events)
    {
      if rid !in pendingOrders {
        return [];
      }
      pendingOrders := pendingOrders[rid := pendingOrders[rid].(status := Accepted, number := Some(number))];
      events := StatusUpdate(tick, rid, Accepted, [Message(base.me, from, tick, Payment(rid, number, price))]);
    }

    /** `order = pending_orders.pop(rid)`, its new status, and `completed_orders.append(order)` */
    method Complete(rid: OrderId, status: Status)
      requires rid in pendingOrders
      modifies this`pendingOrders, this`completedOrders
      ensures State() == Consumer.Close(old(State()), rid, status)
      ensures Moved(old(pendingOrders), old(completedOrders), rid, status)
    {
      var order := pendingOrders[rid].(status := status);
      pendingOrders := pendingOrders - {rid};
      completedOrders := completedOrders + [Consumer.Closed(rid, order)];
    }

    method OnShipmentNotification(rid: OrderId, tick: int) returns (events: seq<Event>)
      modifies this`pendingOrders, this`completedOrders
      ensures (State(), events) == Consumer.OnShipped(base.me, old(State()), rid, tick)
      ensures rid !in old(pendingOrders) ==> events == [] && State() == old(State())
      ensures rid in old(pendingOrders) ==>
                Moved(old(pendingOrders), old(completedOrders), rid, Delivered) && Reports(rid, Delivered, [], tick, events)
    {
      if rid !in pendingOrders {
        return [];
      }
      Complete(rid, Delivered);
      events := StatusUpdate(tick, rid, Delivered, []);
    }

    method OnCancelConfirmed(rid: OrderId, tick: int) returns (events: seq<Event>)
      modifies this`pendingOrders, this`completedOrders
      ensures (State(), events) == Consumer.OnCancelConfirmed(base.me, old(State()), rid, tick)
      ensures Reports(rid, Cancelled, [], tick, events)
      ensures if rid in old(pendingOrders) then Moved(old(pendingOrders), old(completedOrders), rid, Cancelled)
              else State() == old(State())
    {
      if rid in pendingOrders {
        Complete(rid, Cancelled);
      }
      events := StatusUpdate(tick, rid, Cancelled, []);
    }

    method OnCancelRejected(rid: OrderId, tick: int) returns (events: seq<Event>)
      modifies this`pendingOrders
      ensures (State(), events) == Consumer.OnCancelRejected(base.me, old(State()), rid, tick)
      ensures Reports(rid, Accepted, [], tick, events)
      ensures pendingOrders == if rid in old(pendingOrders)
                               then old(pendingOrders)[rid := old(pendingOrders)[rid].(status := Accepted)] else old(pendingOrders)
    {
      if rid in pendingOrders {
        pendingOrders := pendingOrders[rid := pendingOrders[rid].(status := Accepted)];
      }
      events := StatusUpdate(tick, rid, Accepted, []);
    }

    method ProcessQueryResult(reply: Reply, tick: int, item: int) returns (events: seq<Event>)
      modifies this`pendingOrders, this`cart, base`pending
      ensures (State(), events) == Consumer.OnReply(cfg, base.me, old(State()), reply, tick, item)
      ensures reply.id !in old(base.pending) ==> events == [] && State() == old(State())
      ensures reply.id in old(base.pending) ==>
                match old(base.pending)[reply.id].topic
                case ProductDetails(sku, category) =>
                  Shops(cfg, base.me, sku, category, reply.data, tick, item,
                        old(State()).(queries := old(base.pending) - {reply.id}), State(), events)
                case OrderHistory => Reconsidered(cfg, base.me, reply.data, tick, item, old(pendingOrders), pendingOrders, events)
                case _ => events == [] && pendingOrders == old(pendingOrders)
    {
      hide Consumer.OnProductDetails, Consumer.CancelRows, Shops, Reconsidered;
      var pending := base.Pop(reply.id);
      if pending == None {
        assert State() == old(State());
        return [];
      }
      match pending.value.topic
      case ProductDetails(sku, category) => events := OnProductDetailsResult(sku, category, reply.data, tick, item);
      case OrderHistory => events := OnOrderHistoryResult(reply.data, tick, item);
      case _ => events := [];
    }

    method ProcessMessage(m: Message, tick: int) returns (events: seq<Event>)
      modifies this`pendingOrders, this`completedOrders
      ensures (State(), events) == Consumer.OnMessage(base.me, old(State()), m, tick)
      ensures Handles(base.me, old(State()), m, tick, State(), events)
    {
      MessageHandled(base.me, State(), m, tick);
      hide Consumer.OnAccepted, Consumer.OnShipped, Consumer.OnCancelConfirmed, Consumer.OnCancelRejected, Handles;
      match m.payload
      case OrderAccepted(rid, number, price) => events := OnOrderAccepted(rid, number, price, m.from, tick);
      case ShipmentNotification(rid, _, _) => events := OnShipmentNotification(rid, tick);
      case CancelConfirmed(rid) => events := OnCancelConfirmed(rid, tick);
      case CancelRejected(rid) => events := OnCancelRejected(rid, tick);
      case _ => events := [];
    }

    /** The loop over query results in `_drain_inbox`. */
    method ProcessReplies(replies: seq<Reply>, tick: int) returns (events: seq<Event>)
      modifies this`pendingOrders, this`cart, base`pending
      ensures (State(), events) == Consumer.Replies(cfg, base.me, old(State()), replies, tick, 0)
    {
      hide Consumer.OnReply;
      events := [];
      ghost var start := Consumer.Replies(cfg, base.me, State(), replies, tick, 0);
      assert replies[0..] == replies && [] + start.1 == start.1;
      for n := 0 to |replies|
        invariant var (st, ev) := Consumer.Replies(cfg, base.me, State(), replies[n..], tick, n);
                  (st, events + ev) == start
      {
        assert replies[n..][0] == replies[n] && replies[n..][1..] == replies[n + 1..];
        var more := ProcessQueryResult(replies[n], tick, n);
        Regroup(events, more, Consumer.Replies(cfg, base.me, State(), replies[n + 1..], tick, n + 1).1);
        events := events + more;
      }
      assert events + [] == events;
    }

    /** The loop over messages in `_drain_inbox`. */
    method ProcessMail(mail: seq<Message>, tick: int) returns (events: seq<Event>)
      modifies this`pendingOrders, this`completedOrders
      ensures (State(), events) == Consumer.Mail(base.me, old(State()), mail, tick)
    {
      hide Consumer.OnMessage;
      events := [];
      ghost var start := Consumer.Mail(base.me, State(), mail, tick);
      assert mail[0..] == mail && [] + start.1 == start.1;
      for n := 0 to |mail|
        invariant var (st, ev) := Consumer.Mail(base.me, State(), mail[n..], tick);
                  (st, events + ev) == start
      {
        assert mail[n..][0] == mail[n] && mail[n..][1..] == mail[n + 1..];
        var more := ProcessMessage(mail[n], tick);
        Regroup(events, more, Consumer.Mail(base.me, State(), mail[n + 1..], tick).1);
        events := events + more;
      }
      assert events + [] == events;
    }

    method Ask(topic: Topic, tick: int, item: int) returns (events: seq<Event>)
      requires base.currentTick == tick
      modifies base`pending
      ensures (State(), events) == Consumer.Ask(base.me, old(State()), topic, tick, item)
    {
      var request := base.EmitQuery(topic, item);
      events := [Event(QueryRequested, base.me, tick, [], [], [request])];
    }

    /** `handle_view_product` */
    method HandleViewProduct(tick: int, item: int) returns (events: seq<Event>)
      requires base.currentTick == tick
      modifies base`pending
      ensures (State(), events) == Consumer.Views(cfg, base.me, old(State()), skusToView, tick, item)
      ensures exists at :: Looks(cfg, base.me, skusToView, tick, item, at, Reqs(events))
      ensures Awaits(old(base.pending), base.pending, Reqs(events), tick)
    {
      hide Looks, Awaits, Consumer.Ask;
      events := [];
      ghost var start := Consumer.Views(cfg, base.me, State(), skusToView, tick, item);
      assert skusToView[0..] == skusToView && [] + start.1 == start.1;
      for n := 0 to |skusToView|
        invariant var (st, ev) := Consumer.Views(cfg, base.me, State(), skusToView[n..], tick, item + n);
                  (st, events + ev) == start
      {
        assert skusToView[n..][0] == skusToView[n] && skusToView[n..][1..] == skusToView[n + 1..];
        var more := [];
        if cfg.roll(base.me, tick, item + n, ViewRoll) < Consumer.Clamp(cfg.interest(base.me, skusToView[n].category)) {
          more := Ask(ProductDetails(skusToView[n].sku, skusToView[n].category), tick, item + n);
        }
        Regroup(events, more, Consumer.Views(cfg, base.me, State(), skusToView[n + 1..], tick, item + n + 1).1);
        events := events + more;
      }
      assert events + [] == events;
      hide Consumer.Views;
      ghost var at := ViewsLook(cfg, base.me, old(State()), skusToView, tick, item);
    }

    /** The actions that are due, and the view pipeline after them. */
    method Fire(history: bool, browsing: bool, tick: int, item: int) returns (events: seq<Event>)
      requires base.currentTick == tick
      requires history == Due(cfg, base.me, HistoryCheck, tick) && browsing == Due(cfg, base.me, BrowseCatalog, tick)
      modifies this`skusToView, base`pending
      ensures skusToView == [] && (State(), events) == Consumer.Scheduled(cfg, base.me, old(State()), tick, item)
    {
      hide Consumer.Views, Due, Looks, Awaits;
      events := [];
      if history {
        events := Ask(OrderHistory, tick, item);
      }
      skusToView := if browsing then cfg.browse(base.me, tick) else [];
      var views := HandleViewProduct(tick, item + 1);
      skusToView := [];
      events := events + views;
    }

    /** The schedule and the view pipeline after it. */
    method FireSchedule(tick: int, item: int) returns (events: seq<Event>)
      requires tick >= 1 && base.OnSchedule(tick - 1) && Scheduled(cfg, base) && base.currentTick == tick
      modifies this`skusToView, base`pending, base`lastFired
      ensures base.OnSchedule(tick) && skusToView == []
      ensures (State(), events) == Consumer.Scheduled(cfg, base.me, old(State()), tick, item)
      ensures Surveys(cfg, base.me, tick, item, old(base.pending), base.pending, Reqs(events))
      ensures Recent(old(base.pending), tick) ==> Recent(base.pending, tick)
    {
      ScheduleSurveys(cfg, base.me, State(), tick, item);
      hide Consumer.Scheduled, Fires, Surveys, Recent;
      var due := base.DueActions(tick);
      DueMeans(cfg, base, HistoryCheck, tick, due);
      DueMeans(cfg, base, BrowseCatalog, tick, due);
      events := Fire(HistoryCheck in due, BrowseCatalog in due, tick, item);
      SurveysRecent(cfg, base.me, tick, item, old(base.pending), base.pending, Reqs(events));
    }

    /** `step`: the steps of every agent, and then the products that the consumer has chosen to look at. */
    method Step(tick: int) returns (events: seq<Event>)
      requires tick >= 1 && base.OnSchedule(tick - 1) && Scheduled(cfg, base)
      modifies this, base
      ensures base.OnSchedule(tick) && base.inbox == [] && skusToView == []
      ensures (State(), events) == Consumer.Step(cfg, base.me, old(State()),
                                                 Sort(ReplyKey(cfg.rank), RepliesOf(old(base.inbox))),
                                                 Sort(MailKey, MessagesOf(old(base.inbox))), tick)
      ensures Recent(base.pending, tick)
    {
      hide Consumer.Replies, Consumer.Mail, Consumer.Scheduled, Recent, OnlyRecent, Surveys, Expire, PutInOrder;
      base.currentTick := tick;
      var replies, mail := base.Drain(cfg.rank);
      var fromReplies := ProcessReplies(replies, tick);
      var fromMail := ProcessMail(mail, tick);
      base.ExpirePending(tick);
      var fired := FireSchedule(tick, |replies| + |mail|);
      events := fromReplies + fromMail + fired;
    }
  }
}
