/**
 * The life of one order: the phases it passes through, each stated exactly, and the step from each
 * phase to the next.
 */
module OrderLife {
  import opened Seqs
  import opened Messages
  import opened Settings
  import opened Engine
  import opened Routing
  import opened Simulation
  import opened OneOrder
  import opened SellerSide
  import opened Projection
  import ConsumerSide
  import CarrierSide
  import Seller
  import Transport

  // -------------------------------------------------------------- the pieces

  function Buyer(k: Case): int { k.rid.consumer }

  function Start(k: Case): int { k.rid.tick }

  function OrderAs(k: Case, d: Deal, status: Status): Seller.Order {
    Seller.Order(d.sku, d.qty, Buyer(k), d.price, k.Number(), status)
  }

  function PlaceMessage(k: Case, d: Deal): Message {
    Message(Buyer(k), k.seller, Start(k), PlaceOrder(k.rid, d.sku, d.qty, d.price))
  }

  function AcceptMessage(k: Case, d: Deal): Message {
    Message(k.seller, Buyer(k), Start(k) + 2, OrderAccepted(k.rid, k.Number(), d.price))
  }

  function PayMessage(k: Case, d: Deal): Message {
    Message(Buyer(k), k.seller, Start(k) + 3, Payment(k.rid, k.Number(), d.price))
  }

  function ShipMessage(k: Case, d: Deal): Message {
    Message(k.seller, k.carrier, Start(k) + 4,
            ShipRequest(Some(k.Number()), None, k.seller, Buyer(k), d.sku, d.qty, ConsumerOrder))
  }

  predicate IsConfirm(k: Case, m: Message) {
    m.payload == CancelConfirmed(k.rid) && m.from == k.seller && m.to == Buyer(k)
  }

  /** The seller's log entry for the accepted order: the price is the consumer's, the stock goes down. */
  function AcceptEntry(k: Case, d: Deal): Event {
    Event(StoreOrderAccepted, k.seller, Start(k) + 2,
          [InsertStoreOrder(k.rid, d.sku, d.qty, d.price, Buyer(k)), UpdateInventory(d.sku, -d.qty)],
          [AcceptMessage(k, d)], [])
  }

  /** The payment logged is the price the order was placed and accepted at. */
  predicate IsPaymentEntry(k: Case, d: Deal, e: Event) {
    && e.kind == StorePaymentReceived && e.agent == k.seller && e.tick == Start(k) + 4
    && e.writes == [InsertPaymentLog(k.Number(), d.price, Buyer(k), Start(k) + 4)]
  }

  /** Cancellation puts back what acceptance took. */
  predicate IsCancelEntry(k: Case, d: Deal, e: Event) {
    && e.kind == StoreOrderCancelled && e.agent == k.seller
    && e.writes == [UpdateStoreOrder(k.rid, Cancelled), UpdateInventory(d.sku, d.qty)]
  }

  /** A shipment of the order, started when the carrier got the request. */
  predicate IsShipment(k: Case, id: ShipmentId, s: Transport.Shipment) {
    && s.id == id && s.ref == StoreRef(k.Number()) && s.from == k.seller && s.freight == ConsumerOrder
    && s.start == Start(k) + 5 && s.eta == Eta(k, id)
  }

  function Eta(k: Case, id: ShipmentId): int { Start(k) + 5 + Transport.Transit(k.cfg, id) }

  predicate IsArrival(k: Case, id: ShipmentId, m: Message) {
    m.from == k.carrier && m.to == k.seller && m.payload == DeliveryComplete(StoreRef(k.Number()), id, ConsumerOrder)
  }

  predicate IsNotice(k: Case, id: ShipmentId, m: Message) {
    m.from == k.seller && m.to == Buyer(k) && m.payload == ShipmentNotification(k.rid, k.Number(), id)
  }

  // -------------------------------------------------------------- the phases

  ghost predicate JustCancels(k: Case, ms: seq<Message>) {
    Cancels(k, Buyer(k), k.seller, ms)
  }

  /** Requests to cancel, or the payment: what a consumer may still send for an order it cannot change. */
  ghost predicate Residue(k: Case, ms: seq<Message>) {
    forall m :: m in ms ==> (IsCancel(k, m) || IsPayment(k, m)) && m.from == Buyer(k) && m.to == k.seller
  }

  const NOTHING := Snapshot(ConsumerView(None, []), SellerView(None, None, {}), [], [], [], [], [], [], [])

  /** Nothing anywhere is about the order. */
  predicate Blank(x: Snapshot) { x == NOTHING }

  function Open(d: Deal): ConsumerView { ConsumerView(Some(d), []) }

  function Done(d: Deal, status: Status): ConsumerView { ConsumerView(None, [Outcome(d, status)]) }

  function Sale(k: Case, d: Deal, status: Status): SellerView {
    SellerView(None, Some(OrderAs(k, d, status)), {})
  }

  ghost predicate InPlaced(k: Case, d: Deal, x: Snapshot) {
    && x == NOTHING.(consumer := Open(d), toSeller := x.toSeller)
    && |x.toSeller| > 0 && x.toSeller[0] == PlaceMessage(k, d) && JustCancels(k, x.toSeller[1..])
  }

  ghost predicate InChecking(k: Case, d: Deal, x: Snapshot) {
    && |x.answers| == 1
    && AskFor(k, x.answers[0].id, Start(k) + 1)
    && x == NOTHING.(consumer := Open(d),
                     seller := SellerView(Some(Seller.Incoming(d.sku, d.qty, Buyer(k), d.price)), None, {x.answers[0].id}),
                     toSeller := x.toSeller, answers := [x.answers[0]])
    && x.answers[0].agent == k.seller
    && JustCancels(k, x.toSeller)
  }

  ghost predicate InAgreed(k: Case, d: Deal, x: Snapshot) {
    && x == NOTHING.(consumer := Open(d), seller := Sale(k, d, Accepted), toSeller := x.toSeller,
                     toConsumer := [AcceptMessage(k, d)], trail := [AcceptEntry(k, d)])
    && JustCancels(k, x.toSeller)
  }

  ghost predicate InPaying(k: Case, d: Deal, x: Snapshot) {
    && x == NOTHING.(consumer := Open(d), seller := Sale(k, d, Accepted), toSeller := x.toSeller, trail := [AcceptEntry(k, d)])
    && |x.toSeller| > 0 && x.toSeller[|x.toSeller| - 1] == PayMessage(k, d)
    && JustCancels(k, x.toSeller[..|x.toSeller| - 1])
  }

  /** Paid: exactly one payment is logged and exactly one shipment was requested. */
  ghost predicate PaidFor(k: Case, d: Deal, x: Snapshot) {
    && x.answers == [] && x.shipped == [ShipMessage(k, d)]
    && |x.trail| == 2 && x.trail[0] == AcceptEntry(k, d) && IsPaymentEntry(k, d, x.trail[1])
  }

  ghost predicate InShipping(k: Case, d: Deal, x: Snapshot) {
    && PaidFor(k, d, x) && x.consumer == Open(d) && x.seller == Sale(k, d, Paid)
    && x.moving == [] && x.toConsumer == [] && x.toCarrier == [ShipMessage(k, d)] && JustCancels(k, x.toSeller)
  }

  ghost predicate InMoving(k: Case, d: Deal, id: ShipmentId, x: Snapshot) {
    && PaidFor(k, d, x) && x.consumer == Open(d) && x.seller == Sale(k, d, Paid)
    && |x.moving| == 1 && IsShipment(k, id, x.moving[0])
    && x.toConsumer == [] && x.toCarrier == [] && JustCancels(k, x.toSeller)
  }

  ghost predicate InLanded(k: Case, d: Deal, id: ShipmentId, x: Snapshot) {
    && PaidFor(k, d, x) && x.consumer == Open(d) && x.seller == Sale(k, d, Paid)
    && x.moving == [] && x.toConsumer == [] && x.toCarrier == []
    && exists cancels, arrival :: JustCancels(k, cancels) && IsArrival(k, id, arrival)
         && x.toSeller == InOrder(Buyer(k), cancels, k.carrier, [arrival])
  }

  ghost predicate InTold(k: Case, d: Deal, id: ShipmentId, x: Snapshot) {
    && PaidFor(k, d, x) && x.consumer == Open(d) && x.seller == Sale(k, d, Delivered)
    && x.moving == [] && x.toCarrier == [] && JustCancels(k, x.toSeller)
    && |x.toConsumer| == 1 && IsNotice(k, id, x.toConsumer[0])
  }

  ghost predicate InClosed(k: Case, d: Deal, x: Snapshot) {
    && PaidFor(k, d, x) && x.consumer == Done(d, Delivered) && x.seller == Sale(k, d, Delivered)
    && x.moving == [] && x.toCarrier == [] && JustCancels(k, x.toSeller) && x.toConsumer == []
  }

  /** Cancelled at the seller. The consumer knows, or is about to: the confirmation is on its way. */
  ghost predicate InDropped(k: Case, d: Deal, x: Snapshot) {
    && x.seller == Sale(k, d, Cancelled)
    && x.moving == [] && x.toCarrier == [] && x.answers == [] && x.shipped == []
    && |x.trail| == 2 && x.trail[0] == AcceptEntry(k, d) && IsCancelEntry(k, d, x.trail[1])
    && Residue(k, x.toSeller)
    && (|| (x.consumer == Open(d) && |x.toConsumer| == 1 && IsConfirm(k, x.toConsumer[0]))
        || (x.consumer == Open(d) && |x.toConsumer| == 2 && x.toConsumer[0] == AcceptMessage(k, d) && IsConfirm(k, x.toConsumer[1]))
        || (x.consumer == Done(d, Cancelled) && x.toConsumer == []))
  }

  /** Some message on its way to the seller asks to cancel the order. */
  ghost predicate CancelSent(k: Case, x: Snapshot) {
    exists m :: m in x.toSeller && IsCancel(k, m)
  }

  // -------------------------------------------------------------- folds over small batches

  lemma JoinLaws(a: SellerOut, b: SellerOut, c: SellerOut)
    ensures Join(Join(a, b), c) == Join(a, Join(b, c))
    ensures Join(SILENT, a) == a && Join(a, SILENT) == a
  {
  }

  function After(k: Case, v1: SellerView, out1: SellerOut, ms: seq<Message>, tick: int, q: QueryId): (SellerView,
          SellerOut) {
    var (v2, out2) := SellerFold(k, v1, ms, tick, q);
    (v2, Join(out1, out2))
  }

  lemma {:induction false} FoldAppend(k: Case, v: SellerView, xs: seq<Message>, ys: seq<Message>, tick: int, q: QueryId)
    ensures SellerFold(k, v, xs + ys, tick, q)
         == After(k, SellerFold(k, v, xs, tick, q).0, SellerFold(k, v, xs, tick, q).1, ys, tick, q)
    decreases |xs|
  {
    if xs == [] {
      assert xs + ys == ys;
      JoinLaws(SellerFold(k, v, ys, tick, q).1, SILENT, SILENT);
    } else {
      assert (xs + ys)[1..] == xs[1..] + ys && (xs + ys)[0] == xs[0];
      var (v1, out1) := SellerReact(k, v, xs[0], tick, q);
      FoldAppend(k, v1, xs[1..], ys, tick, q);
      var (v2, out2) := SellerFold(k, v1, xs[1..], tick, q);
      JoinLaws(out1, out2, SellerFold(k, v2, ys, tick, q).1);
    }
  }

  /** An order that is not open to change ignores payments and requests to cancel. */
  lemma {:induction false} FoldIdle(k: Case, v: SellerView, ms: seq<Message>, tick: int, q: QueryId)
    requires v.order.None? || v.order.value.status != Accepted
    requires forall m :: m in ms ==> IsCancel(k, m) || IsPayment(k, m)
    ensures SellerFold(k, v, ms, tick, q) == (v, SILENT)
    decreases |ms|
  {
    if ms != [] {
      assert ms[0] in ms;
      FoldIdle(k, v, ms[1..], tick, q);
    }
  }

  /** The first of several requests to cancel an accepted order succeeds, the others change nothing. */
  lemma FoldCancel(k: Case, d: Deal, ms: seq<Message>, tick: int, q: QueryId)
    requires JustCancels(k, ms) && ms != []
    ensures var (v, out) := SellerFold(k, Sale(k, d, Accepted), ms, tick, q);
            && v == Sale(k, d, Cancelled)
            && out.requests == [] && out.toCarrier == []
            && |out.toConsumer| == 1 && IsConfirm(k, out.toConsumer[0])
            && |out.trail| == 1 && IsCancelEntry(k, d, out.trail[0])
  {
    assert ms[0] in ms;
    var (v1, out1) := SellerReact(k, Sale(k, d, Accepted), ms[0], tick, q);
    FoldIdle(k, v1, ms[1..], tick, q);
    assert Join(out1, SILENT) == out1;
  }

  lemma FoldOne(k: Case, v: SellerView, m: Message, tick: int, q: QueryId)
    ensures SellerFold(k, v, [m], tick, q) == SellerReact(k, v, m, tick, q)
  {
    assert [m][1..] == [];
    var (v1, out1) := SellerReact(k, v, m, tick, q);
    assert Join(out1, SILENT) == out1;
  }

  // -------------------------------------------------------------- from phase to phase

  /** One tick of the order, when its consumer sends `cancels` of its own accord. */
  function NextOf(k: Case, x: Snapshot, cancels: seq<Message>, q: QueryId, id: ShipmentId, tick: int): Snapshot
    requires forall m :: m in x.toCarrier ==> m.payload.ShipRequest?
  {
    var (consumer, out) := ConsumerFold(Buyer(k), x.consumer, x.toConsumer, tick);
    Assemble(k, x, consumer, cancels + out, q, id, tick)
  }

  /** What the consumer may send on its own: requests to cancel, while the order is pending with it. */
  ghost predicate Initiative(k: Case, x: Snapshot, cancels: seq<Message>) {
    ConsumerSide.ProperCancels(k, Buyer(k), x.consumer, cancels)
  }

  ghost predicate Parties(k: Case) {
    k.Number() != 0 && k.cfg.transport == Some(k.carrier) && k.carrier != 0 && Buyer(k) != k.carrier
  }

  lemma NoFreight(k: Case, tick: int, id: ShipmentId)
    ensures CarrierSide.CarrierTurn(k, k.carrier, [], [], tick, id) == ([], [])
  {
  }

  lemma JustOrder(c: int, xs: seq<Message>, t: int)
    ensures InOrder(c, xs, t, []) == xs
  {
  }

  /** With no query results at hand, the seller's turn is its fold over the mail. */
  lemma TurnOnMail(k: Case, v: SellerView, ms: seq<Message>, tick: int, q: QueryId)
    ensures SellerTurn(k, v, [], ms, tick, q)
         == (Unexpired(SellerFold(k, v, ms, tick, q).0, tick), SellerFold(k, v, ms, tick, q).1)
  {
    JoinLaws(SellerFold(k, v, ms, tick, q).1, SILENT, SILENT);
  }

  lemma OneAnswer(k: Case, r: Request)
    ensures Answers(Answer(k.cfg), [r]) == [Answer(k.cfg)(r)]
  {
    assert [r][1..] == [];
  }

  lemma PlacedFold(k: Case, d: Deal, x: Snapshot, tick: int, q: QueryId)
    requires InPlaced(k, d, x)
    ensures SellerFold(k, x.seller, x.toSeller, tick, q)
         == (SellerView(Some(Seller.Incoming(d.sku, d.qty, Buyer(k), d.price)), None, {q}),
             SILENT.(requests := [Request(q, k.seller, tick)]))
  {
    var m := x.toSeller[0];
    assert x.toSeller == [m] + x.toSeller[1..];
    FoldAppend(k, x.seller, [m], x.toSeller[1..], tick, q);
    FoldOne(k, x.seller, m, tick, q);
    var (v1, out1) := SellerReact(k, x.seller, m, tick, q);
    FoldIdle(k, v1, x.toSeller[1..], tick, q);
    JoinLaws(out1, SILENT, SILENT);
    assert {} + {q} == {q};
  }

  lemma StepPlaced(k: Case, d: Deal, x: Snapshot, cancels: seq<Message>, q: QueryId, id: ShipmentId)
    requires InPlaced(k, d, x) && d.seller == k.seller && Initiative(k, x, cancels) && AskFor(k, q, Start(k) + 1)
    ensures InChecking(k, d, NextOf(k, x, cancels, q, id, Start(k) + 1))
    ensures NextOf(k, x, cancels, q, id, Start(k) + 1).toSeller == cancels
  {
    var tick := Start(k) + 1;
    TurnOnMail(k, x.seller, x.toSeller, tick, q);
    PlacedFold(k, d, x, tick, q);
    NoFreight(k, tick, id);
    JustOrder(Buyer(k), cancels + [], k.carrier);
    assert cancels + [] == cancels;
    OneAnswer(k, Request(q, k.seller, tick));
    var v := SellerFold(k, x.seller, x.toSeller, tick, q).0;
    assert Unexpired(v, tick).asks == {q};
  }

  lemma CheckingHears(k: Case, d: Deal, x: Snapshot)
    requires InChecking(k, d, x)
    ensures SellerHearAll(k, x.seller, x.answers, Start(k) + 2)
         == (Sale(k, d, Accepted), SILENT.(toConsumer := [AcceptMessage(k, d)], trail := [AcceptEntry(k, d)]))
  {
    var (v1, out1) := SellerHear(k, x.seller, x.answers[0], Start(k) + 2);
    assert x.answers == [x.answers[0]] && [x.answers[0]][1..] == [];
    assert x.seller.asks - {x.answers[0].id} == {};
    JoinLaws(out1, SILENT, SILENT);
  }

  lemma NoAsks(v: SellerView, tick: int)
    requires v.asks == {}
    ensures Unexpired(v, tick) == v
  {
  }

  lemma Remains(k: Case, x: Snapshot, cancels: seq<Message>)
    requires Initiative(k, x, cancels) && x.consumer.deal.Some? && x.consumer.deal.value.seller == k.seller
    ensures JustCancels(k, cancels) && Residue(k, cancels)
  {
  }

  lemma CheckingNext(k: Case, d: Deal, x: Snapshot, cancels: seq<Message>, q: QueryId, id: ShipmentId)
    requires InChecking(k, d, x)
    ensures var (v, out) := SellerFold(k, Sale(k, d, Accepted), x.toSeller, Start(k) + 2, q);
            v.asks == {} && out.requests == [] ==>
              NextOf(k, x, cancels, q, id, Start(k) + 2)
                == NOTHING.(consumer := Open(d), seller := v, toSeller := cancels,
                            toConsumer := [AcceptMessage(k, d)] + out.toConsumer, toCarrier := out.toCarrier,
                            trail := [AcceptEntry(k, d)] + out.trail, shipped := out.toCarrier)
  {
    hide SellerFold, SellerHearAll, AcceptMessage, AcceptEntry;
    var tick := Start(k) + 2;
    var (v, out) := SellerFold(k, Sale(k, d, Accepted), x.toSeller, tick, q);
    CheckingHears(k, d, x);
    if v.asks == {} {
      NoAsks(v, tick);
    }
    NoFreight(k, tick, id);
    JustOrder(Buyer(k), cancels + [], k.carrier);
    NothingAdded(cancels);
    assert [] + out.toCarrier == out.toCarrier;
  }

  lemma StepChecking(k: Case, d: Deal, x: Snapshot, cancels: seq<Message>, q: QueryId, id: ShipmentId)
    requires InChecking(k, d, x) && d.seller == k.seller && Initiative(k, x, cancels)
    ensures var y := NextOf(k, x, cancels, q, id, Start(k) + 2);
            if x.toSeller == [] then InAgreed(k, d, y) else InDropped(k, d, y)
    ensures NextOf(k, x, cancels, q, id, Start(k) + 2).toSeller == cancels
  {
    hide Initiative, SellerFold, NextOf, AcceptEntry, AcceptMessage, IsCancelEntry, IsConfirm, JustCancels, Residue;
    var tick := Start(k) + 2;
    CheckingNext(k, d, x, cancels, q, id);
    Remains(k, x, cancels);
    if x.toSeller != [] {
      FoldCancel(k, d, x.toSeller, tick, q);
    } else {
      assert SellerFold(k, Sale(k, d, Accepted), [], tick, q) == (Sale(k, d, Accepted), SILENT) by { EmptyFold(k, d, tick, q); }
      NothingAdded([AcceptMessage(k, d)]);
      NothingAdded([AcceptEntry(k, d)]);
    }
  }

  lemma EmptyFold(k: Case, d: Deal, tick: int, q: QueryId)
    ensures SellerFold(k, Sale(k, d, Accepted), [], tick, q) == (Sale(k, d, Accepted), SILENT)
  {
  }

  lemma StepAgreed(k: Case, d: Deal, x: Snapshot, cancels: seq<Message>, q: QueryId, id: ShipmentId)
    requires InAgreed(k, d, x) && d.seller == k.seller && Initiative(k, x, cancels)
    ensures var y := NextOf(k, x, cancels, q, id, Start(k) + 3);
            if x.toSeller == [] then InPaying(k, d, y) else InDropped(k, d, y)
    ensures NextOf(k, x, cancels, q, id, Start(k) + 3).toSeller == cancels + [PayMessage(k, d)]
  {
    var tick := Start(k) + 3;
    TurnOnMail(k, x.seller, x.toSeller, tick, q);
    if x.toSeller != [] {
      FoldCancel(k, d, x.toSeller, tick, q);
    }
    NoAsks(SellerFold(k, Sale(k, d, Accepted), x.toSeller, tick, q).0, tick);
    assert ConsumerFold(Buyer(k), x.consumer, x.toConsumer, tick) == (Open(d), [PayMessage(k, d)]) by {
      assert [AcceptMessage(k, d)][1..] == [];
      assert [PayMessage(k, d)] + [] == [PayMessage(k, d)];
    }
    NoFreight(k, tick, id);
    JustOrder(Buyer(k), cancels + [PayMessage(k, d)], k.carrier);
    assert (cancels + [PayMessage(k, d)])[..|cancels|] == cancels;
  }

  lemma PaymentShips(k: Case, d: Deal, tick: int)
    requires Parties(k) && tick == Start(k) + 4
    ensures Filter(ToCarrier(k), Seller.PaymentMessages(k.cfg, k.seller, OrderAs(k, d, Accepted), k.Number(), d.price, Buyer(k), tick))
         == [ShipMessage(k, d)]
  {
    var ms := Seller.PaymentMessages(k.cfg, k.seller, OrderAs(k, d, Accepted), k.Number(), d.price, Buyer(k), tick);
    assert ms[0] == ShipMessage(k, d);
    assert ms == [ms[0]] + ms[1..];
    FilterAppend(ToCarrier(k), [ms[0]], ms[1..]);
    ConsumerSide.FilterOne(ToCarrier(k), ms[0]);
    FilterNone(ToCarrier(k), ms[1..]);
  }

  lemma PaidFold(k: Case, d: Deal, tick: int, q: QueryId)
    requires Parties(k) && tick == Start(k) + 4
    ensures var (v, out) := SellerReact(k, Sale(k, d, Accepted), PayMessage(k, d), tick, q);
            && v == Sale(k, d, Paid)
            && out.toConsumer == [] && out.requests == [] && out.toCarrier == [ShipMessage(k, d)]
            && |out.trail| == 1 && IsPaymentEntry(k, d, out.trail[0])
  {
    PaymentShips(k, d, tick);
  }

  lemma PayingFold(k: Case, d: Deal, x: Snapshot, tick: int, q: QueryId)
    requires InPaying(k, d, x) && Parties(k) && tick == Start(k) + 4
    ensures var (v, out) := SellerFold(k, x.seller, x.toSeller, tick, q);
            && out.requests == [] && |out.trail| == 1
            && if |x.toSeller| == 1
               then v == Sale(k, d, Paid) && out.toConsumer == [] && out.toCarrier == [ShipMessage(k, d)]
                    && IsPaymentEntry(k, d, out.trail[0])
               else v == Sale(k, d, Cancelled) && out.toCarrier == [] && |out.toConsumer| == 1
                    && IsConfirm(k, out.toConsumer[0]) && IsCancelEntry(k, d, out.trail[0])
  {
    var cancels := x.toSeller[..|x.toSeller| - 1];
    assert x.toSeller == cancels + [PayMessage(k, d)];
    FoldAppend(k, x.seller, cancels, [PayMessage(k, d)], tick, q);
    if cancels == [] {
      FoldOne(k, Sale(k, d, Accepted), PayMessage(k, d), tick, q);
      PaidFold(k, d, tick, q);
      JoinLaws(SellerReact(k, Sale(k, d, Accepted), PayMessage(k, d), tick, q).1, SILENT, SILENT);
    } else {
      FoldCancel(k, d, cancels, tick, q);
      FoldIdle(k, Sale(k, d, Cancelled), [PayMessage(k, d)], tick, q);
      JoinLaws(SellerFold(k, x.seller, cancels, tick, q).1, SILENT, SILENT);
    }
  }

  /** Before the order ships, a tick changes nothing but what the seller makes of its mail. */
  lemma PayingNext(k: Case, d: Deal, x: Snapshot, cancels: seq<Message>, q: QueryId, id: ShipmentId)
    requires InPaying(k, d, x) && Parties(k)
    ensures var (v, out) := SellerFold(k, x.seller, x.toSeller, Start(k) + 4, q);
            v.asks == {} && out.requests == [] ==>
              NextOf(k, x, cancels, q, id, Start(k) + 4)
                == NOTHING.(consumer := Open(d), seller := v, toSeller := cancels, toConsumer := out.toConsumer,
                            toCarrier := out.toCarrier, trail := [AcceptEntry(k, d)] + out.trail, shipped := out.toCarrier)
  {
    hide SellerFold;
    var tick := Start(k) + 4;
    var (v, out) := SellerFold(k, x.seller, x.toSeller, tick, q);
    TurnOnMail(k, x.seller, x.toSeller, tick, q);
    if v.asks == {} {
      NoAsks(v, tick);
    }
    NoFreight(k, tick, id);
    JustOrder(Buyer(k), cancels + [], k.carrier);
    NothingAdded(cancels);
    assert [] + out.toCarrier == out.toCarrier;
  }

  lemma StepPaying(k: Case, d: Deal, x: Snapshot, cancels: seq<Message>, q: QueryId, id: ShipmentId)
    requires InPaying(k, d, x) && d.seller == k.seller && Parties(k) && Initiative(k, x, cancels)
    ensures var y := NextOf(k, x, cancels, q, id, Start(k) + 4);
            if |x.toSeller| == 1 then InShipping(k, d, y) else InDropped(k, d, y)
    ensures NextOf(k, x, cancels, q, id, Start(k) + 4).toSeller == cancels
  {
    hide Initiative, SellerFold, NextOf, Parties, AcceptEntry, IsPaymentEntry, IsCancelEntry, IsConfirm, JustCancels, Residue;
    PayingFold(k, d, x, Start(k) + 4, q);
    PayingNext(k, d, x, cancels, q, id);
    Remains(k, x, cancels);
  }

  lemma TrackSingle(k: Case, id: ShipmentId, s: Transport.Shipment, tick: int)
    requires IsShipment(k, id, s)
    ensures var (kept, ev) := Transport.Track(k.carrier, [s], tick);
            if tick >= Eta(k, id) then kept == [] && |Msgs(ev)| == 1 && IsArrival(k, id, Msgs(ev)[0])
            else |kept| == 1 && IsShipment(k, id, kept[0]) && Msgs(ev) == []
  {
    assert [s][1..] == [];
    var (kept, ev) := Transport.TrackOne(k.carrier, s, tick);
    assert kept + [] == kept && ev + [] == ev;
    if ev != [] {
      assert ev == [ev[0]];
      MsgsOne(ev[0]);
    }
  }

  /** A carrier's round with one shipment of the order under way. */
  lemma Haul(k: Case, id: ShipmentId, moving: seq<Transport.Shipment>, tick: int, id': ShipmentId)
    requires |moving| == 1 && IsShipment(k, id, moving[0])
    ensures var (kept, out) := CarrierSide.CarrierTurn(k, k.carrier, moving, [], tick, id');
            if Due(k.cfg, k.carrier, UpdateTracking, tick) && tick >= Eta(k, id)
            then kept == [] && |out| == 1 && IsArrival(k, id, out[0])
            else |kept| == 1 && IsShipment(k, id, kept[0]) && out == []
  {
    assert moving == [moving[0]];
    TrackSingle(k, id, moving[0], tick);
  }

  lemma PickUp(k: Case, d: Deal, tick: int, id: ShipmentId)
    requires Parties(k) && tick == Start(k) + 5
    ensures var taken := CarrierTake(k, k.carrier, [], [ShipMessage(k, d)], tick, id);
            |taken| == 1 && IsShipment(k, id, taken[0])
  {
    var ms := [ShipMessage(k, d)];
    assert ms[1..] == [];
    var p := ms[0].payload;
    var s := Transport.Shipment(id, Transport.OrderRef(p.order, p.restock), p.origin, p.destination, p.sku, p.qty,
                                p.freight, tick, tick + Transport.Transit(k.cfg, id), ms[0].from, {});
    assert CarrierTake(k, k.carrier, [], ms, tick, id) == CarrierTake(k, k.carrier, [] + [s], [], tick, id);
  }

  /** The phase of a paid order whose shipment is under way after a tracking round. */
  ghost predicate InHaul(k: Case, d: Deal, id: ShipmentId, x: Snapshot, tick: int) {
    if Due(k.cfg, k.carrier, UpdateTracking, tick) && tick >= Eta(k, id) then InLanded(k, d, id, x) else InMoving(k, d, id, x)
  }

  lemma StepPaid(k: Case, d: Deal, x: Snapshot, cancels: seq<Message>, q: QueryId, id: ShipmentId, tick: int)
    requires PaidFor(k, d, x) && x.consumer == Open(d) && x.seller == Sale(k, d, Paid)
    requires x.toConsumer == [] && JustCancels(k, x.toSeller)
    requires forall m :: m in x.toCarrier ==> m.payload.ShipRequest?
    ensures var y := NextOf(k, x, cancels, q, id, tick);
            var (moving, out) := CarrierSide.CarrierTurn(k, k.carrier, x.moving, x.toCarrier, tick, id);
            && PaidFor(k, d, y) && y.consumer == Open(d) && y.seller == Sale(k, d, Paid)
            && y.toConsumer == [] && y.toCarrier == [] && y.moving == moving
            && y.toSeller == InOrder(Buyer(k), cancels, k.carrier, out)
  {
    TurnOnMail(k, x.seller, x.toSeller, tick, q);
    FoldIdle(k, x.seller, x.toSeller, tick, q);
    NoAsks(x.seller, tick);
    assert cancels + [] == cancels;
    assert x.trail + [] == x.trail && x.shipped + [] == x.shipped;
  }

  lemma StepShipping(k: Case, d: Deal, x: Snapshot, cancels: seq<Message>, q: QueryId, id: ShipmentId)
    requires InShipping(k, d, x) && d.seller == k.seller && Parties(k) && Initiative(k, x, cancels)
    ensures InHaul(k, d, id, NextOf(k, x, cancels, q, id, Start(k) + 5), Start(k) + 5)
  {
    var tick := Start(k) + 5;
    StepPaid(k, d, x, cancels, q, id, tick);
    PickUp(k, d, tick, id);
    var taken := CarrierTake(k, k.carrier, [], [ShipMessage(k, d)], tick, id);
    assert taken == [taken[0]];
    TrackSingle(k, id, taken[0], tick);
    var out := CarrierSide.CarrierTurn(k, k.carrier, x.moving, x.toCarrier, tick, id).1;
    Settle(k, d, id, NextOf(k, x, cancels, q, id, tick), cancels, out, tick);
  }

  lemma Settle(k: Case, d: Deal, id: ShipmentId, y: Snapshot, cancels: seq<Message>, out: seq<Message>, tick: int)
    requires PaidFor(k, d, y) && y.consumer == Open(d) && y.seller == Sale(k, d, Paid)
    requires y.toConsumer == [] && y.toCarrier == [] && JustCancels(k, cancels)
    requires y.toSeller == InOrder(Buyer(k), cancels, k.carrier, out)
    requires if Due(k.cfg, k.carrier, UpdateTracking, tick) && tick >= Eta(k, id)
             then y.moving == [] && |out| == 1 && IsArrival(k, id, out[0])
             else |y.moving| == 1 && IsShipment(k, id, y.moving[0]) && out == []
    ensures InHaul(k, d, id, y, tick)
  {
    if out == [] {
      JustOrder(Buyer(k), cancels, k.carrier);
    } else {
      assert out == [out[0]];
    }
  }

  lemma StepMoving(k: Case, d: Deal, id: ShipmentId, x: Snapshot, cancels: seq<Message>, q: QueryId, id': ShipmentId,
          tick: int)
    requires InMoving(k, d, id, x) && d.seller == k.seller && Initiative(k, x, cancels)
    ensures InHaul(k, d, id, NextOf(k, x, cancels, q, id', tick), tick)
  {
    StepPaid(k, d, x, cancels, q, id', tick);
    Haul(k, id, x.moving, tick, id');
    var out := CarrierSide.CarrierTurn(k, k.carrier, x.moving, x.toCarrier, tick, id').1;
    Settle(k, d, id, NextOf(k, x, cancels, q, id', tick), cancels, out, tick);
  }

  lemma LandedFold(k: Case, d: Deal, id: ShipmentId, cancels: seq<Message>, arrival: Message, tick: int, q: QueryId)
    requires JustCancels(k, cancels) && IsArrival(k, id, arrival)
    ensures var (v, out) := SellerFold(k, Sale(k, d, Paid), InOrder(Buyer(k), cancels, k.carrier, [arrival]), tick, q);
            && v == Sale(k, d, Delivered) && out.toCarrier == [] && out.requests == [] && out.trail == []
            && |out.toConsumer| == 1 && IsNotice(k, id, out.toConsumer[0])
  {
    var paid, told := Sale(k, d, Paid), Sale(k, d, Delivered);
    var (v, out) := SellerReact(k, paid, arrival, tick, q);
    FoldOne(k, paid, arrival, tick, q);
    JoinLaws(out, SILENT, SILENT);
    if Buyer(k) < k.carrier {
      FoldAppend(k, paid, cancels, [arrival], tick, q);
      FoldIdle(k, paid, cancels, tick, q);
    } else {
      FoldAppend(k, paid, [arrival], cancels, tick, q);
      FoldIdle(k, told, cancels, tick, q);
    }
  }

  lemma StepLanded(k: Case, d: Deal, id: ShipmentId, x: Snapshot, cancels: seq<Message>, q: QueryId, id': ShipmentId,
          tick: int)
    requires InLanded(k, d, id, x) && d.seller == k.seller && Initiative(k, x, cancels)
    ensures InTold(k, d, id, NextOf(k, x, cancels, q, id', tick))
  {
    hide SellerFold, SellerReact, InOrder;
    var asked, arrival :| JustCancels(k, asked) && IsArrival(k, id, arrival)
                          && x.toSeller == InOrder(Buyer(k), asked, k.carrier, [arrival]);
    TurnOnMail(k, x.seller, x.toSeller, tick, q);
    LandedFold(k, d, id, asked, arrival, tick, q);
    NoAsks(Sale(k, d, Delivered), tick);
    NoFreight(k, tick, id');
    JustOrder(Buyer(k), cancels + [], k.carrier);
    assert cancels + [] == cancels;
    assert x.trail + [] == x.trail && x.shipped + [] == x.shipped;
  }

  lemma ConsumerOne(k: Case, v: ConsumerView, m: Message, tick: int)
    ensures ConsumerFold(Buyer(k), v, [m], tick) == ConsumerReact(Buyer(k), v, m, tick)
  {
    assert [m][1..] == [];
    var (v1, out1) := ConsumerReact(Buyer(k), v, m, tick);
    assert out1 + [] == out1;
  }

  lemma NoticeFold(k: Case, d: Deal, id: ShipmentId, ms: seq<Message>, tick: int)
    requires |ms| == 1 && IsNotice(k, id, ms[0])
    ensures ConsumerFold(Buyer(k), Open(d), ms, tick) == (Done(d, Delivered), [])
  {
    assert ms == [ms[0]];
    ConsumerOne(k, Open(d), ms[0], tick);
    assert [] + [Outcome(d, Delivered)] == [Outcome(d, Delivered)];
  }

  lemma StepTold(k: Case, d: Deal, id: ShipmentId, x: Snapshot, cancels: seq<Message>, q: QueryId, id': ShipmentId,
          tick: int)
    requires InTold(k, d, id, x) && d.seller == k.seller && Initiative(k, x, cancels)
    ensures InClosed(k, d, NextOf(k, x, cancels, q, id', tick))
  {
    TurnOnMail(k, x.seller, x.toSeller, tick, q);
    FoldIdle(k, x.seller, x.toSeller, tick, q);
    NoticeFold(k, d, id, x.toConsumer, tick);
    NoAsks(x.seller, tick);
    NoFreight(k, tick, id');
    JustOrder(Buyer(k), cancels + [], k.carrier);
    assert cancels + [] == cancels;
    assert x.trail + [] == x.trail && x.shipped + [] == x.shipped;
  }

  lemma StepClosed(k: Case, d: Deal, x: Snapshot, cancels: seq<Message>, q: QueryId, id: ShipmentId, tick: int)
    requires InClosed(k, d, x) && Initiative(k, x, cancels)
    ensures InClosed(k, d, NextOf(k, x, cancels, q, id, tick))
  {
    TurnOnMail(k, x.seller, x.toSeller, tick, q);
    FoldIdle(k, x.seller, x.toSeller, tick, q);
    NoAsks(x.seller, tick);
    NoFreight(k, tick, id);
    JustOrder(Buyer(k), [] + [], k.carrier);
    assert x.trail + [] == x.trail && x.shipped + [] == x.shipped;
  }

  lemma ConfirmFold(k: Case, d: Deal, x: Snapshot, tick: int)
    requires InDropped(k, d, x)
    ensures var (v, out) := ConsumerFold(Buyer(k), x.consumer, x.toConsumer, tick);
            v == Done(d, Cancelled) && Residue(k, out)
  {
    assert [] + [Outcome(d, Cancelled)] == [Outcome(d, Cancelled)];
    if |x.toConsumer| == 1 {
      assert x.toConsumer == [x.toConsumer[0]];
      ConsumerOne(k, Open(d), x.toConsumer[0], tick);
    } else if |x.toConsumer| == 2 {
      assert x.toConsumer[1..] == [x.toConsumer[1]];
      ConsumerOne(k, Open(d), x.toConsumer[1], tick);
      assert ConsumerReact(Buyer(k), Open(d), x.toConsumer[0], tick).0 == Open(d);
    }
  }

  lemma StepDropped(k: Case, d: Deal, x: Snapshot, cancels: seq<Message>, q: QueryId, id: ShipmentId, tick: int)
    requires InDropped(k, d, x) && d.seller == k.seller && Initiative(k, x, cancels)
    ensures InDropped(k, d, NextOf(k, x, cancels, q, id, tick))
    ensures NextOf(k, x, cancels, q, id, tick).consumer == Done(d, Cancelled)
  {
    TurnOnMail(k, x.seller, x.toSeller, tick, q);
    FoldIdle(k, x.seller, x.toSeller, tick, q);
    ConfirmFold(k, d, x, tick);
    var out := ConsumerFold(Buyer(k), x.consumer, x.toConsumer, tick).1;
    NoAsks(x.seller, tick);
    NoFreight(k, tick, id);
    JustOrder(Buyer(k), cancels + out, k.carrier);
    assert Residue(k, cancels + out);
    assert x.trail + [] == x.trail && x.shipped + [] == x.shipped;
  }
}
