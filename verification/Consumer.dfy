/** The consumer: it places orders, pays for accepted ones, and may ask to cancel late ones. */
module Consumer {
  import opened Messages
  import opened Settings

  const DEFAULT_REVIEW := 4.0
  const CART_ABANDONMENT := 0.25

  datatype Order = Order(sku: int, qty: int, price: real, seller: int, status: Status, number: Option<int>)
  datatype Closed = Closed(rid: OrderId, order: Order)
  datatype CartLine = CartLine(sku: int, category: string, price: real)

  datatype State = State(pending: map<OrderId, Order>, completed: seq<Closed>, cart: seq<CartLine>,
                         queries: map<QueryId, Pending>)

  const FRESH := State(map[], [], [], map[])

  type Effect = (State, seq<Event>)

  function StatusEvent(me: int, tick: int, rid: OrderId, status: Status, messages: seq<Message>): Event {
    Event(ConsumerStatusUpdate, me, tick, [UpdateConsumerOrder(rid, status)], messages, [])
  }

  /** `_initiate_purchase` */
  function Purchase(me: int, st: State, sku: int, qty: int, price: real, seller: int, tick: int, item: int): Effect {
    var rid := OrderId(me, tick, item);
    (st.(pending := st.pending[rid := Order(sku, qty, price, seller, Requested, None)]),
     [Event(PurchaseIntent, me, tick, [InsertConsumerOrder(rid, sku, qty, seller, price)],
            [Message(me, seller, tick, PlaceOrder(rid, sku, qty, price))], [])])
  }

  function OfferedPrice(data: Data): real {
    if data.Product? && data.price.Some? then data.price.value else DEFAULT_PRICE
  }

  function Review(data: Data): real {
    if data.Product? && data.review.Some? then data.review.value else DEFAULT_REVIEW
  }

  /** `min(max(x, 0.0), 1.0)` */
  function Clamp(x: real): (p: real)
    ensures 0.0 <= p <= 1.0
  {
    var low := if x < 0.0 then 0.0 else x;
    if low > 1.0 then 1.0 else low
  }

  /** How far a price is above the base price, in proportion to it. */
  function PriceRatio(cfg: Config, sku: int, price: real): real {
    (price - cfg.basePrice(sku)) / cfg.basePrice(sku)
  }

  function ReviewFactor(review: real): real {
    if review / DEFAULT_REVIEW > 1.0 then 1.0 else review / DEFAULT_REVIEW
  }

  function Appeal(cfg: Config, me: int, sku: int, price: real, review: real): real {
    (1.0 - PriceRatio(cfg, sku, price) * cfg.sensitivity(me)) * ReviewFactor(review)
  }

  /** The chance that a product goes to the cart, by its price and its reviews. */
  function CartChance(cfg: Config, me: int, sku: int, price: real, review: real): (p: real)
    ensures 0.0 <= p <= 1.0
  {
    Clamp(Appeal(cfg, me, sku, price, review))
  }

  function PurchaseChance(cfg: Config, me: int, category: string): real {
    cfg.urgency(me, category) * (1.0 - CART_ABANDONMENT)
  }

  /** One of the catalog's sellers of the SKU, or any of 1 to 10. */
  function ChosenSeller(cfg: Config, me: int, sku: int, tick: int, item: int): int {
    var sellers := cfg.sellersOf(sku);
    var draw := cfg.pick(me, tick, item);
    if sellers != [] then sellers[draw % |sellers|] else 1 + draw % 10
  }

  /** What a consumer decides on the details of a product: nothing, cart only, or cart and purchase from a seller. */
  datatype Decision = Ignore | ToCart | Buy(seller: int)

  function Decide(cfg: Config, me: int, sku: int, category: string, data: Data, tick: int, item: int): Decision {
    if cfg.roll(me, tick, item, CartRoll) >= CartChance(cfg, me, sku, OfferedPrice(data), Review(data)) then Ignore
    else if cfg.roll(me, tick, item, PurchaseRoll) >= PurchaseChance(cfg, me, category) then ToCart
    else Buy(ChosenSeller(cfg, me, sku, tick, item))
  }

  lemma Scales(x: real, y: real, f: real)
    requires x <= y && f >= 0.0
    ensures x * f <= y * f
  {
  }

  lemma RatioGrows(cfg: Config, sku: int, p: real, q: real)
    requires p <= q && cfg.basePrice(sku) > 0.0
    ensures PriceRatio(cfg, sku, p) <= PriceRatio(cfg, sku, q)
  {
    var b := cfg.basePrice(sku);
    var low, high := (p - b) / b, (q - b) / b;
    assert low * b == p - b && high * b == q - b;
    assert low > high ==> low * b > high * b;
  }

  lemma AppealFalls(cfg: Config, me: int, sku: int, p: real, q: real, review: real)
    requires p <= q && cfg.basePrice(sku) > 0.0 && cfg.sensitivity(me) >= 0.0 && review >= 0.0
    ensures Appeal(cfg, me, sku, p, review) >= Appeal(cfg, me, sku, q, review)
  {
    var s, factor := cfg.sensitivity(me), ReviewFactor(review);
    assert factor >= 0.0;
    hide PriceRatio, ReviewFactor;
    var low, high := PriceRatio(cfg, sku, p), PriceRatio(cfg, sku, q);
    RatioGrows(cfg, sku, p, q);
    Scales(low, high, s);
    Scales(1.0 - high * s, 1.0 - low * s, factor);
  }

  lemma Clamps(x: real, y: real)
    requires x <= y
    ensures Clamp(x) <= Clamp(y)
  {
  }

  /** A higher price makes no product more attractive: whatever is bought at it would be bought for less. */
  lemma PriceDeters(cfg: Config, me: int, sku: int, category: string, p: real, q: real, review: Option<real>, tick: int,
          item: int)
    requires p <= q && cfg.basePrice(sku) > 0.0 && cfg.sensitivity(me) >= 0.0
    requires review.Some? ==> review.value >= 0.0
    ensures var (low, high) := (Product(Some(p), review), Product(Some(q), review));
            Decide(cfg, me, sku, category, high, tick, item) != Ignore ==>
              Decide(cfg, me, sku, category, low, tick, item) == Decide(cfg, me, sku, category, high, tick, item)
  {
    hide Clamp, Appeal, ChosenSeller, PurchaseChance;
    var r := Review(Product(Some(p), review));
    AppealFalls(cfg, me, sku, p, q, r);
    Clamps(Appeal(cfg, me, sku, q, r), Appeal(cfg, me, sku, p, r));
  }

  /** `on_product_details_result` */
  function OnProductDetails(cfg: Config, me: int, st: State, sku: int, category: string, data: Data, tick: int,
                            item: int): Effect {
    var price := OfferedPrice(data);
    var carted := st.(cart := st.cart + [CartLine(sku, category, price)]);
    match Decide(cfg, me, sku, category, data, tick, item)
    case Ignore => (st, [])
    case ToCart => (carted, [])
    case Buy(seller) => Purchase(me, carted, sku, 1, price, seller, tick, item)
  }

  /** `_cancel_order` */
  function Cancel(me: int, st: State, rid: OrderId, tick: int): Effect {
    if rid !in st.pending then (st, []) else
      var order := st.pending[rid];
      (st.(pending := st.pending[rid := order.(status := CancelRequested)]),
       [StatusEvent(me, tick, rid, CancelRequested, [Message(me, order.seller, tick, CancelRequest(rid))])])
  }

  /** The loop of `on_order_history_result` from row number `row` on. */
  function CancelRows(cfg: Config, me: int, st: State, rows: seq<HistoryRow>, tick: int, item: int, row: int): Effect
    decreases |rows|
  {
    if rows == [] then (st, []) else
      var chosen := rows[0].late && rows[0].requested && cfg.cancels(me, tick, item, row);
      var (st1, ev1) := if chosen then Cancel(me, st, rows[0].rid, tick) else (st, []);
      var (st2, ev2) := CancelRows(cfg, me, st1, rows[1..], tick, item, row + 1);
      (st2, ev1 + ev2)
  }

  function HistoryRows(data: Data): seq<HistoryRow> {
    if data.History? then data.rows else []
  }

  /** `_process_query_result` */
  function OnReply(cfg: Config, me: int, st: State, reply: Reply, tick: int, item: int): Effect {
    if reply.id !in st.queries then (st, []) else
      var popped := st.(queries := st.queries - {reply.id});
      match st.queries[reply.id].topic
      case ProductDetails(sku, category) => OnProductDetails(cfg, me, popped, sku, category, reply.data, tick, item)
      case OrderHistory => CancelRows(cfg, me, popped, HistoryRows(reply.data), tick, item, 0)
      case _ => (popped, [])
  }

  /** `on_order_accepted` */
  function OnAccepted(me: int, st: State, rid: OrderId, number: int, price: real, from: int, tick: int): Effect {
    if rid !in st.pending then (st, []) else
      (st.(pending := st.pending[rid := st.pending[rid].(status := Accepted, number := Some(number))]),
       [StatusEvent(me, tick, rid, Accepted, [Message(me, from, tick, Payment(rid, number, price))])])
  }

  function Close(st: State, rid: OrderId, status: Status): State
    requires rid in st.pending
  {
    st.(pending := st.pending - {rid},
        completed := st.completed + [Closed(rid, st.pending[rid].(status := status))])
  }

  /** `on_shipment_notification` */
  function OnShipped(me: int, st: State, rid: OrderId, tick: int): Effect {
    if rid !in st.pending then (st, []) else
      (Close(st, rid, Delivered), [StatusEvent(me, tick, rid, Delivered, [])])
  }

  /** `on_cancel_confirmed` */
  function OnCancelConfirmed(me: int, st: State, rid: OrderId, tick: int): Effect {
    (if rid in st.pending then Close(st, rid, Cancelled) else st,
     [StatusEvent(me, tick, rid, Cancelled, [])])
  }

  /** `on_cancel_rejected` */
  function OnCancelRejected(me: int, st: State, rid: OrderId, tick: int): Effect {
    (if rid in st.pending then st.(pending := st.pending[rid := st.pending[rid].(status := Accepted)]) else st,
     [StatusEvent(me, tick, rid, Accepted, [])])
  }

  /** `_process_message` */
  function OnMessage(me: int, st: State, m: Message, tick: int): Effect {
    match m.payload
    case OrderAccepted(rid, number, price) => OnAccepted(me, st, rid, number, price, m.from, tick)
    case ShipmentNotification(rid, _, _) => OnShipped(me, st, rid, tick)
    case CancelConfirmed(rid) => OnCancelConfirmed(me, st, rid, tick)
    case CancelRejected(rid) => OnCancelRejected(me, st, rid, tick)
    case _ => (st, [])
  }

  function Replies(cfg: Config, me: int, st: State, replies: seq<Reply>, tick: int, item: int): Effect
    decreases |replies|
  {
    if replies == [] then (st, []) else
      var (st1, ev1) := OnReply(cfg, me, st, replies[0], tick, item);
      var (st2, ev2) := Replies(cfg, me, st1, replies[1..], tick, item + 1);
      (st2, ev1 + ev2)
  }

  function Mail(me: int, st: State, mail: seq<Message>, tick: int): Effect
    decreases |mail|
  {
    if mail == [] then (st, []) else
      var (st1, ev1) := OnMessage(me, st, mail[0], tick);
      var (st2, ev2) := Mail(me, st1, mail[1..], tick);
      (st2, ev1 + ev2)
  }

  function Ask(me: int, st: State, topic: Topic, tick: int, item: int): Effect {
    var id := QueryId(me, tick, item, topic);
    (st.(queries := st.queries[id := Pending(topic, tick)]),
     [Event(QueryRequested, me, tick, [], [], [Request(id, me, tick)])])
  }

  /** A product that was browsed is looked at with the chance that the consumer's interest in its category gives. */
  predicate Looks(cfg: Config, me: int, shown: Shown, tick: int, item: int) {
    cfg.roll(me, tick, item, ViewRoll) < Clamp(cfg.interest(me, shown.category))
  }

  /** The loop of `handle_view_product`. */
  function Views(cfg: Config, me: int, st: State, shown: seq<Shown>, tick: int, item: int): Effect
    decreases |shown|
  {
    if shown == [] then (st, []) else
      var (st1, ev1) := if Looks(cfg, me, shown[0], tick, item)
                        then Ask(me, st, ProductDetails(shown[0].sku, shown[0].category), tick, item) else (st, []);
      var (st2, ev2) := Views(cfg, me, st1, shown[1..], tick, item + 1);
      (st2, ev1 + ev2)
  }

  /** The products that the consumer has browsed at the tick. */
  function Browsed(cfg: Config, me: int, tick: int): seq<Shown> {
    if Due(cfg, me, BrowseCatalog, tick) then cfg.browse(me, tick) else []
  }

  function Scheduled(cfg: Config, me: int, st: State, tick: int, item: int): Effect {
    var (st1, ev1) := if Due(cfg, me, HistoryCheck, tick) then Ask(me, st, OrderHistory, tick, item) else (st, []);
    var (st2, ev2) := Views(cfg, me, st1, Browsed(cfg, me, tick), tick, item + 1);
    (st2, ev1 + ev2)
  }

  /** `BaseAgent.step` and the view pipeline after it. The replies and the mail come in handling order. */
  function Step(cfg: Config, me: int, st: State, replies: seq<Reply>, mail: seq<Message>, tick: int): Effect {
    var (st1, ev1) := Replies(cfg, me, st, replies, tick, 0);
    var (st2, ev2) := Mail(me, st1, mail, tick);
    var (st3, ev3) := Scheduled(cfg, me, st2.(queries := Expire(st2.queries, tick)), tick, |replies| + |mail|);
    (st3, ev1 + ev2 + ev3)
  }
}
