/** A seller's step, seen from one order. */
module SellerSide {
  import opened Seqs
  import opened Messages
  import opened Settings
  import opened OneOrder
  import Seller
  import opened ConsumerSide

  /** The seller's own bookkeeping is consistent: numbers, insertion order, and query contexts. */
  ghost predicate Books(cfg: Config, st: Seller.State) {
    && (forall rid :: rid in st.orders ==> st.orders[rid].number == StoreNumber(cfg, rid))
    && (forall rid :: rid in st.orderIds <==> rid in st.orders)
    && (forall q :: q in st.queries ==> st.queries[q] == Pending(q.topic, q.tick))
  }

  /** No other order of the seller has drawn the same store order number. */
  ghost predicate Unmistakable(k: Case, st: Seller.State) {
    forall rid :: rid in st.orders && rid != k.rid ==> StoreNumber(k.cfg, rid) != k.Number()
  }

  /** Order numbers travel with their order. */
  predicate Numbered(cfg: Config, m: Message) {
    match m.payload
    case OrderAccepted(rid, number, _) => number == StoreNumber(cfg, rid)
    case Payment(rid, number, _) => number == StoreNumber(cfg, rid)
    case _ => true
  }

  function OutOf(k: Case, ev: seq<Event>): SellerOut {
    SellerOut(Filter(ToConsumer(k), Msgs(ev)), Filter(ToCarrier(k), Msgs(ev)), Filter(AsksIt(k), Reqs(ev)),
              Filter(InTrail(k), ev))
  }

  lemma OutAppend(k: Case, xs: seq<Event>, ys: seq<Event>)
    ensures OutOf(k, xs + ys) == Join(OutOf(k, xs), OutOf(k, ys))
  {
    MsgsAppend(xs, ys);
    FilterAppend(ToConsumer(k), Msgs(xs), Msgs(ys));
    FilterAppend(ToCarrier(k), Msgs(xs), Msgs(ys));
    FilterAppend(AsksIt(k), Reqs(xs), Reqs(ys));
    FilterAppend(InTrail(k), xs, ys);
  }

  lemma OutOne(k: Case, e: Event)
    ensures OutOf(k, [e]) == SellerOut(Filter(ToConsumer(k), e.messages), Filter(ToCarrier(k), e.messages),
                                       Filter(AsksIt(k), e.queries), if InTrail(k)(e) then [e] else [])
  {
    MsgsOne(e);
    FilterOne(InTrail(k), e);
  }

  lemma OutNone(k: Case)
    ensures OutOf(k, []) == SILENT
  {
  }

  lemma FindIt(k: Case, st: Seller.State, ids: seq<OrderId>, ref: Ref)
    requires Books(k.cfg, st) && Unmistakable(k, st)
    ensures ref == StoreRef(k.Number()) ==>
              Seller.Find(st, ids, ref) == if k.rid in ids && k.rid in st.orders then Some(k.rid) else None
    ensures ref != StoreRef(k.Number()) ==> Seller.Find(st, ids, ref) != Some(k.rid)
  {
    if ids != [] {
      FindIt(k, st, ids[1..], ref);
      if ids[0] in st.orders && StoreRef(st.orders[ids[0]].number) == ref && ref == StoreRef(k.Number()) {
        assert ids[0] == k.rid;
      }
    }
  }

  lemma FindAny(st: Seller.State, ids: seq<OrderId>, ref: Ref)
    ensures Seller.Find(st, ids, ref).Some? ==> Seller.Find(st, ids, ref).value in st.orders
  {
    if ids != [] {
      FindAny(st, ids[1..], ref);
    }
  }

  // -------------------------------------------------------------- bookkeeping

  /** A change that touches no number and no key keeps the books. */
  lemma BooksAfter(cfg: Config, st: Seller.State, st1: Seller.State)
    requires Books(cfg, st) && st1.orderIds == st.orderIds && st1.orders.Keys == st.orders.Keys
    requires forall rid :: rid in st.orders ==> rid in st1.orders && st1.orders[rid].number == st.orders[rid].number
    requires forall q :: q in st1.queries ==> q in st.queries || st1.queries[q] == Pending(q.topic, q.tick)
    requires forall q :: q in st1.queries && q in st.queries ==> st1.queries[q] == st.queries[q] || st1.queries[q] == Pending(q.topic, q.tick)
    ensures Books(cfg, st1)
  {
  }

  lemma BooksOrders(cfg: Config, st: Seller.State, rid: OrderId, status: Status)
    requires Books(cfg, st) && rid in st.orders
    ensures var st1 := st.(orders := st.orders[rid := st.orders[rid].(status := status)]);
            Books(cfg, st1) && st1.orders.Keys == st.orders.Keys
  {
    BooksAfter(cfg, st, st.(orders := st.orders[rid := st.orders[rid].(status := status)]));
  }

  lemma BooksMessage(cfg: Config, me: int, st: Seller.State, m: Message, tick: int, item: int)
    requires Books(cfg, st)
    ensures Books(cfg, Seller.OnMessage(cfg, me, st, m, tick, item).0)
    ensures Seller.OnMessage(cfg, me, st, m, tick, item).0.orders.Keys == st.orders.Keys
  {
    hide Seller.Find, Seller.PaymentMessages, Books;
    match m.payload
    case PlaceOrder(_, _, _, _) => BooksAfter(cfg, st, Seller.OnMessage(cfg, me, st, m, tick, item).0);
    case Payment(rid, _, _) => if rid in st.orders { BooksOrders(cfg, st, rid, Paid); }
    case CancelRequest(rid) => if rid in st.orders { BooksOrders(cfg, st, rid, Cancelled); }
    case DeliveryComplete(ref, _, _) =>
      FindAny(st, st.orderIds, ref);
      var found := Seller.Find(st, st.orderIds, ref);
      if found.Some? { BooksOrders(cfg, st, found.value, Delivered); }
    case _ => BooksAfter(cfg, st, Seller.OnMessage(cfg, me, st, m, tick, item).0);
  }

  lemma RestockRowsKeep(cfg: Config, me: int, st: Seller.State, rows: seq<StockRow>, tick: int, item: int, row: int)
    ensures var st1 := Seller.RestockRows(cfg, me, st, rows, tick, item, row).0;
            st1 == st.(restocks := st1.restocks)
    ensures forall x :: x in Seller.RestockRows(cfg, me, st, rows, tick, item, row).1 ==>
              x.payload.RestockOrder? && x.from == me && x.tickSent == tick
    decreases |rows|
  {
  }

  lemma BooksReply(cfg: Config, me: int, st: Seller.State, x: Reply, tick: int, item: int)
    requires Books(cfg, st)
    ensures Books(cfg, Seller.OnReply(cfg, me, st, x, tick, item).0)
    ensures st.orders.Keys <= Seller.OnReply(cfg, me, st, x, tick, item).0.orders.Keys
  {
    if x.id in st.queries {
      var popped := st.(queries := st.queries - {x.id});
      match st.queries[x.id].topic
      case InventoryLevels => RestockRowsKeep(cfg, me, popped, Seller.StockRows(x.data), tick, item, 0);
      case _ =>
    }
  }

  lemma {:induction false} BooksMail(cfg: Config, me: int, st: Seller.State, mail: seq<Message>, tick: int, item: int)
    requires Books(cfg, st)
    ensures Books(cfg, Seller.Mail(cfg, me, st, mail, tick, item).0)
    ensures Seller.Mail(cfg, me, st, mail, tick, item).0.orders.Keys == st.orders.Keys
    decreases |mail|
  {
    if mail != [] {
      BooksMessage(cfg, me, st, mail[0], tick, item);
      BooksMail(cfg, me, Seller.OnMessage(cfg, me, st, mail[0], tick, item).0, mail[1..], tick, item + 1);
    }
  }

  lemma {:induction false} BooksReplies(cfg: Config, me: int, st: Seller.State, xs: seq<Reply>, tick: int, item: int)
    requires Books(cfg, st)
    ensures Books(cfg, Seller.Replies(cfg, me, st, xs, tick, item).0)
    ensures st.orders.Keys <= Seller.Replies(cfg, me, st, xs, tick, item).0.orders.Keys
    decreases |xs|
  {
    if xs != [] {
      BooksReply(cfg, me, st, xs[0], tick, item);
      BooksReplies(cfg, me, Seller.OnReply(cfg, me, st, xs[0], tick, item).0, xs[1..], tick, item + 1);
    }
  }

  // -------------------------------------------------------------- messages

  lemma OtherPayment(k: Case, o: Seller.Order, rid: OrderId, number: int, amount: real, from: int, tick: int)
    requires number != k.Number()
    ensures var ms := Seller.PaymentMessages(k.cfg, k.seller, o, number, amount, from, tick);
            Filter(ToCarrier(k), ms) == [] && Filter(ToConsumer(k), ms) == []
  {
    var ms := Seller.PaymentMessages(k.cfg, k.seller, o, number, amount, from, tick);
    FilterNone(ToCarrier(k), ms);
    FilterNone(ToConsumer(k), ms);
  }

  lemma OnePair(k: Case, m: Message)
    ensures Filter(ToConsumer(k), [m]) == (if ToConsumer(k)(m) then [m] else [])
    ensures Filter(ToCarrier(k), [m]) == (if ToCarrier(k)(m) then [m] else [])
  {
    FilterOne(ToConsumer(k), m);
    FilterOne(ToCarrier(k), m);
  }

  /** The claim about one message: the seller's view of the order and its output change as the reaction says. */
  ghost predicate Seen(k: Case, st: Seller.State, m: Message, tick: int, q: QueryId, st1: Seller.State,
          ev: seq<Event>) {
    var (v, out) := if ToSeller(k)(m) then SellerReact(k, ViewS(st, k.rid), m, tick, q) else (ViewS(st, k.rid), SILENT);
    ViewS(st1, k.rid) == v && OutOf(k, ev) == out
  }

  lemma OnOwnPayment(k: Case, st: Seller.State, m: Message, tick: int, q: QueryId)
    requires m.payload.Payment? && m.payload.rid == k.rid && Numbered(k.cfg, m)
    ensures var (st1, ev) := Seller.OnPayment(k.cfg, k.seller, st, m.payload.rid, m.payload.number, m.payload.amount, m.from, tick);
            Seen(k, st, m, tick, q, st1, ev)
  {
    hide Seller.PaymentMessages;
    var (st1, ev) := Seller.OnPayment(k.cfg, k.seller, st, m.payload.rid, m.payload.number, m.payload.amount, m.from, tick);
    if ev != [] {
      assert ev == [ev[0]];
      OutOne(k, ev[0]);
      PaymentToNobody(k, st.orders[k.rid], m.payload.number, m.payload.amount, m.from, tick);
    } else {
      OutNone(k);
    }
  }

  lemma PaymentToNobody(k: Case, o: Seller.Order, number: int, amount: real, from: int, tick: int)
    ensures Filter(ToConsumer(k), Seller.PaymentMessages(k.cfg, k.seller, o, number, amount, from, tick)) == []
  {
    FilterNone(ToConsumer(k), Seller.PaymentMessages(k.cfg, k.seller, o, number, amount, from, tick));
  }

  lemma OnOtherPayment(k: Case, st: Seller.State, m: Message, tick: int, q: QueryId)
    requires m.payload.Payment? && m.payload.rid != k.rid && Numbered(k.cfg, m)
    requires Books(k.cfg, st) && Unmistakable(k, st)
    ensures var (st1, ev) := Seller.OnPayment(k.cfg, k.seller, st, m.payload.rid, m.payload.number, m.payload.amount, m.from, tick);
            Seen(k, st, m, tick, q, st1, ev)
  {
    hide Seller.PaymentMessages;
    var (st1, ev) := Seller.OnPayment(k.cfg, k.seller, st, m.payload.rid, m.payload.number, m.payload.amount, m.from, tick);
    OutNone(k);
    if ev != [] {
      assert ev == [ev[0]];
      OutOne(k, ev[0]);
      OtherPayment(k, st.orders[m.payload.rid], m.payload.rid, m.payload.number, m.payload.amount, m.from, tick);
    }
  }

  lemma OnCancelMessage(k: Case, st: Seller.State, m: Message, tick: int, q: QueryId)
    requires m.payload.CancelRequest?
    ensures var (st1, ev) := Seller.OnCancelRequest(k.seller, st, m.payload.rid, m.from, tick);
            Seen(k, st, m, tick, q, st1, ev)
  {
    hide Filter, OutOf;
    var (st1, ev) := Seller.OnCancelRequest(k.seller, st, m.payload.rid, m.from, tick);
    OutNone(k);
    if ev != [] {
      assert ev == [ev[0]];
      OutOne(k, ev[0]);
      assert ev[0].messages == [ev[0].messages[0]];
      OnePair(k, ev[0].messages[0]);
      NoQueries(k);
    }
  }

  lemma NoQueries(k: Case)
    ensures Filter(AsksIt(k), []) == [] && Filter(ToConsumer(k), []) == [] && Filter(ToCarrier(k), []) == []
  {
  }

  lemma OnDeliveryMessage(k: Case, st: Seller.State, m: Message, tick: int, q: QueryId)
    requires m.payload.DeliveryComplete? && m.to == k.seller
    requires Books(k.cfg, st) && Unmistakable(k, st)
    ensures var (st1, ev) := Seller.OnDelivery(k.seller, st, m.payload.ref, m.payload.shipment, m.payload.freight, tick);
            Seen(k, st, m, tick, q, st1, ev)
  {
    hide Seller.Find, Filter, OutOf, Unmistakable;
    NoQueries(k);
    var (st1, ev) := Seller.OnDelivery(k.seller, st, m.payload.ref, m.payload.shipment, m.payload.freight, tick);
    FindIt(k, st, st.orderIds, m.payload.ref);
    FindAny(st, st.orderIds, m.payload.ref);
    OutNone(k);
    if ev != [] {
      assert ev == [ev[0]];
      OutOne(k, ev[0]);
      assert ev[0].messages == [ev[0].messages[0]];
      OnePair(k, ev[0].messages[0]);
    }
  }

  lemma OnPlaceMessage(k: Case, st: Seller.State, m: Message, tick: int, item: int, q: QueryId)
    requires m.payload.PlaceOrder? && (IsPlace(k, m) ==> q == QueryId(k.seller, tick, item, InventoryCheck(k.rid)))
    ensures var p := m.payload;
            var (st1, ev) := Seller.OnPlaceOrder(k.seller, st, p.rid, p.sku, p.qty, p.price, m.from, tick, item);
            Seen(k, st, m, tick, q, st1, ev)
  {
    hide Filter, OutOf;
    NoQueries(k);
    var p := m.payload;
    var (st1, ev) := Seller.OnPlaceOrder(k.seller, st, p.rid, p.sku, p.qty, p.price, m.from, tick, item);
    OutOne(k, ev[0]);
    FilterOne(AsksIt(k), ev[0].queries[0]);
    assert ev == [ev[0]] && ev[0].queries == [ev[0].queries[0]];
  }

  lemma OnRestockMessage(k: Case, st: Seller.State, m: Message, tick: int, q: QueryId)
    requires m.payload.RestockDelivered?
    ensures var (st1, ev) := Seller.OnRestockDelivered(k.seller, st, m.payload.id, m.payload.sku, m.payload.qty, tick);
            Seen(k, st, m, tick, q, st1, ev)
  {
    var ev := Seller.OnRestockDelivered(k.seller, st, m.payload.id, m.payload.sku, m.payload.qty, tick).1;
    OutOne(k, ev[0]);
    assert ev == [ev[0]];
  }

  lemma NothingSeen(k: Case, st: Seller.State, m: Message, tick: int, q: QueryId)
    requires !ToSeller(k)(m)
    ensures Seen(k, st, m, tick, q, st, [])
  {
    OutNone(k);
  }

  lemma OnOneMessage(k: Case, st: Seller.State, m: Message, tick: int, item: int, q: QueryId)
    requires m.to == k.seller && Numbered(k.cfg, m)
    requires Books(k.cfg, st) && Unmistakable(k, st)
    requires IsPlace(k, m) ==> q == QueryId(k.seller, tick, item, InventoryCheck(k.rid))
    ensures var (st1, ev) := Seller.OnMessage(k.cfg, k.seller, st, m, tick, item);
            Seen(k, st, m, tick, q, st1, ev)
  {
    hide Seen, Seller.OnPlaceOrder, Seller.OnPayment, Seller.OnCancelRequest, Seller.OnDelivery,
            Seller.OnRestockDelivered,
         Books, Unmistakable;
    match m.payload
    case PlaceOrder(_, _, _, _) => OnPlaceMessage(k, st, m, tick, item, q);
    case Payment(rid, _, _) => if rid == k.rid { OnOwnPayment(k, st, m, tick, q); } else { OnOtherPayment(k, st, m, tick, q); }
    case CancelRequest(_) => OnCancelMessage(k, st, m, tick, q);
    case DeliveryComplete(_, _, _) => OnDeliveryMessage(k, st, m, tick, q);
    case RestockDelivered(_, _, _) => OnRestockMessage(k, st, m, tick, q);
    case _ => NothingSeen(k, st, m, tick, q);
  }

  ghost predicate OnePlace(k: Case, ms: seq<Message>) {
    forall i, j :: 0 <= i < j < |ms| ==> !(IsPlace(k, ms[i]) && IsPlace(k, ms[j]))
  }

  ghost predicate NoPlace(k: Case, ms: seq<Message>) {
    forall m :: m in ms ==> !IsPlace(k, m)
  }

  /** Without a placement in the batch the query id plays no part. */
  lemma {:induction false} AnyQuery(k: Case, v: SellerView, ms: seq<Message>, tick: int, q: QueryId, q': QueryId)
    requires NoPlace(k, ms) && forall m :: m in ms ==> ToSeller(k)(m)
    ensures SellerFold(k, v, ms, tick, q) == SellerFold(k, v, ms, tick, q')
    decreases |ms|
  {
    if ms != [] {
      assert !IsPlace(k, ms[0]) && ToSeller(k)(ms[0]);
      AnyQuery(k, SellerReact(k, v, ms[0], tick, q).0, ms[1..], tick, q, q');
    }
  }

  ghost predicate AskFor(k: Case, q: QueryId, tick: int) {
    q.topic == InventoryCheck(k.rid) && q.agent == k.seller && q.tick == tick
  }

  lemma OnePlaceTail(k: Case, m: Message, rest: seq<Message>)
    requires OnePlace(k, [m] + rest)
    ensures OnePlace(k, rest)
    ensures IsPlace(k, m) ==> NoPlace(k, rest)
  {
    var all := [m] + rest;
    forall i, j | 0 <= i < j < |rest| ensures !(IsPlace(k, rest[i]) && IsPlace(k, rest[j])) {
      assert all[i + 1] == rest[i] && all[j + 1] == rest[j];
    }
    if IsPlace(k, m) {
      forall x | x in rest ensures !IsPlace(k, x) {
        var i :| 0 <= i < |rest| && rest[i] == x;
        assert all[0] == m && all[i + 1] == x;
      }
    }
  }

  lemma TailPlaces(k: Case, mail: seq<Message>)
    requires mail != [] && OnePlace(k, Filter(ToSeller(k), mail))
    ensures OnePlace(k, Filter(ToSeller(k), mail[1..]))
    ensures IsPlace(k, mail[0]) ==> NoPlace(k, Filter(ToSeller(k), mail[1..]))
  {
    hide OnePlace, NoPlace;
    if ToSeller(k)(mail[0]) {
      OnePlaceTail(k, mail[0], Filter(ToSeller(k), mail[1..]));
    }
  }

  /** The claim of OnMail, for a given query id. */
  ghost predicate MailSeen(k: Case, st: Seller.State, mail: seq<Message>, tick: int, item: int, q: QueryId) {
    var (st1, ev) := Seller.Mail(k.cfg, k.seller, st, mail, tick, item);
    var (v, out) := SellerFold(k, ViewS(st, k.rid), Filter(ToSeller(k), mail), tick, q);
    ViewS(st1, k.rid) == v && OutOf(k, ev) == out
  }

  lemma MailCons(k: Case, st: Seller.State, m: Message, rest: seq<Message>, tick: int, item: int, q: QueryId,
                 st1: Seller.State, ev1: seq<Event>)
    requires (st1, ev1) == Seller.OnMessage(k.cfg, k.seller, st, m, tick, item)
    requires Seen(k, st, m, tick, q, st1, ev1)
    requires MailSeen(k, st1, rest, tick, item + 1, q)
    ensures MailSeen(k, st, [m] + rest, tick, item, q)
  {
    assert ([m] + rest)[1..] == rest;
    var (st2, ev2) := Seller.Mail(k.cfg, k.seller, st1, rest, tick, item + 1);
    OutAppend(k, ev1, ev2);
    if ToSeller(k)(m) {
      assert Filter(ToSeller(k), [m] + rest)[1..] == Filter(ToSeller(k), rest);
    } else {
      assert Join(SILENT, OutOf(k, ev2)) == OutOf(k, ev2);
    }
  }

  lemma {:induction false} OnMail(k: Case, st: Seller.State, mail: seq<Message>, tick: int,
          item: int) returns (q: QueryId)
    requires forall m :: m in mail ==> m.to == k.seller && Numbered(k.cfg, m)
    requires Books(k.cfg, st) && Unmistakable(k, st)
    requires OnePlace(k, Filter(ToSeller(k), mail))
    ensures AskFor(k, q, tick)
    ensures MailSeen(k, st, mail, tick, item, q)
    decreases |mail|
  {
    if mail == [] {
      q := QueryId(k.seller, tick, item, InventoryCheck(k.rid));
      OutNone(k);
    } else {
      var m, rest := mail[0], mail[1..];
      assert mail == [m] + rest;
      var (st1, ev1) := Seller.OnMessage(k.cfg, k.seller, st, m, tick, item);
      BooksMessage(k.cfg, k.seller, st, m, tick, item);
      TailPlaces(k, mail);
      q := OnMail(k, st1, rest, tick, item + 1);
      if IsPlace(k, m) {
        var q' := QueryId(k.seller, tick, item, InventoryCheck(k.rid));
        AnyQuery(k, ViewS(st1, k.rid), Filter(ToSeller(k), rest), tick, q, q');
        q := q';
      }
      OnOneMessage(k, st, m, tick, item, q);
      MailCons(k, st, m, rest, tick, item, q, st1, ev1);
    }
  }

  // -------------------------------------------------------------- query results

  lemma OnLevels(k: Case, st: Seller.State, data: Data, tick: int, item: int)
    ensures var (st1, ev) := Seller.OnInventoryLevels(k.cfg, k.seller, st, data, tick, item);
            ViewS(st1, k.rid) == ViewS(st, k.rid) && OutOf(k, ev) == SILENT
  {
    var (st1, ev) := Seller.OnInventoryLevels(k.cfg, k.seller, st, data, tick, item);
    RestockRowsKeep(k.cfg, k.seller, st, Seller.StockRows(data), tick, item, 0);
    OutNone(k);
    if ev != [] {
      assert ev == [ev[0]];
      OutOne(k, ev[0]);
      FilterNone(ToConsumer(k), ev[0].messages);
      FilterNone(ToCarrier(k), ev[0].messages);
    }
  }

  lemma OnCheck(k: Case, st: Seller.State, rid: OrderId, tick: int)
    ensures var (st1, ev) := Seller.OnInventoryCheck(k.cfg, k.seller, st, rid, tick);
            (ViewS(st1, k.rid), OutOf(k, ev))
              == if rid == k.rid then Accept(k, ViewS(st, k.rid), tick) else (ViewS(st, k.rid), SILENT)
  {
    var (st1, ev) := Seller.OnInventoryCheck(k.cfg, k.seller, st, rid, tick);
    OutNone(k);
    if ev != [] {
      assert ev == [ev[0]];
      OutOne(k, ev[0]);
      assert ev[0].messages == [ev[0].messages[0]];
      OnePair(k, ev[0].messages[0]);
    }
  }

  lemma Popped(k: Case, st: Seller.State, id: QueryId)
    ensures ViewS(st.(queries := st.queries - {id}), k.rid)
         == ViewS(st, k.rid).(asks := ViewS(st, k.rid).asks - {id})
  {
  }

  lemma OnOneReply(k: Case, st: Seller.State, x: Reply, tick: int, item: int)
    requires Books(k.cfg, st)
    ensures var (st1, ev) := Seller.OnReply(k.cfg, k.seller, st, x, tick, item);
            (ViewS(st1, k.rid), OutOf(k, ev))
              == if AboutIt(k)(x) then SellerHear(k, ViewS(st, k.rid), x, tick) else (ViewS(st, k.rid), SILENT)
  {
    OutNone(k);
    if x.id in st.queries {
      var popped := st.(queries := st.queries - {x.id});
      Popped(k, st, x.id);
      assert !AboutIt(k)(x) ==> ViewS(st, k.rid).asks - {x.id} == ViewS(st, k.rid).asks;
      match st.queries[x.id].topic
      case InventoryLevels => OnLevels(k, popped, x.data, tick, item);
      case InventoryCheck(rid) => OnCheck(k, popped, rid, tick);
      case _ =>
    }
  }

  lemma {:induction false} OnReplies(k: Case, st: Seller.State, xs: seq<Reply>, tick: int, item: int)
    requires Books(k.cfg, st)
    ensures var (st1, ev) := Seller.Replies(k.cfg, k.seller, st, xs, tick, item);
            var (v, out) := SellerHearAll(k, ViewS(st, k.rid), Filter(AboutIt(k), xs), tick);
            ViewS(st1, k.rid) == v && OutOf(k, ev) == out
    decreases |xs|
  {
    if xs == [] {
      OutNone(k);
    } else {
      var (st1, ev1) := Seller.OnReply(k.cfg, k.seller, st, xs[0], tick, item);
      var (st2, ev2) := Seller.Replies(k.cfg, k.seller, st1, xs[1..], tick, item + 1);
      OnOneReply(k, st, xs[0], tick, item);
      BooksReply(k.cfg, k.seller, st, xs[0], tick, item);
      OnReplies(k, st1, xs[1..], tick, item + 1);
      OutAppend(k, ev1, ev2);
      if AboutIt(k)(xs[0]) {
        assert Filter(AboutIt(k), xs)[1..] == Filter(AboutIt(k), xs[1..]);
      }
    }
  }

  // -------------------------------------------------------------- the step

  function Unexpired(v: SellerView, tick: int): SellerView {
    v.(asks := set q | q in v.asks && tick - q.tick <= QUERY_TTL)
  }

  /** The seller's whole step on the order: results first, then mail, then the expiry of queries. */
  function SellerTurn(k: Case, v: SellerView, xs: seq<Reply>, ms: seq<Message>, tick: int, q: QueryId): (SellerView,
          SellerOut) {
    var (v1, out1) := SellerHearAll(k, v, xs, tick);
    var (v2, out2) := SellerFold(k, v1, ms, tick, q);
    (Unexpired(v2, tick), Join(out1, out2))
  }

  lemma OnTail(k: Case, st: Seller.State, tick: int, item: int)
    requires Books(k.cfg, st)
    ensures var (st1, ev) := Seller.Scheduled(k.cfg, k.seller, st.(queries := Expire(st.queries, tick)), tick, item);
            && ViewS(st1, k.rid) == Unexpired(ViewS(st, k.rid), tick)
            && OutOf(k, ev) == SILENT && Books(k.cfg, st1) && st1.orders == st.orders
  {
    var st0 := st.(queries := Expire(st.queries, tick));
    var (st1, ev) := Seller.Scheduled(k.cfg, k.seller, st0, tick, item);
    OutNone(k);
    if ev != [] {
      assert ev == [ev[0]];
      OutOne(k, ev[0]);
      FilterOne(AsksIt(k), ev[0].queries[0]);
      assert ev[0].queries == [ev[0].queries[0]];
    }
    assert ViewS(st1, k.rid).asks == Unexpired(ViewS(st, k.rid), tick).asks;
  }

  lemma BooksStep(cfg: Config, me: int, st: Seller.State, xs: seq<Reply>, mail: seq<Message>, tick: int)
    requires Books(cfg, st)
    ensures Books(cfg, Seller.Step(cfg, me, st, xs, mail, tick).0)
    ensures st.orders.Keys <= Seller.Step(cfg, me, st, xs, mail, tick).0.orders.Keys
  {
    BooksReplies(cfg, me, st, xs, tick, 0);
    var st1 := Seller.Replies(cfg, me, st, xs, tick, 0).0;
    BooksMail(cfg, me, st1, mail, tick, |xs|);
  }

  /** The parts of a step, and the books in between. */
  lemma StepBooks(k: Case, st: Seller.State, xs: seq<Reply>, mail: seq<Message>, tick: int)
    requires Books(k.cfg, st)
    requires Unmistakable(k, Seller.Step(k.cfg, k.seller, st, xs, mail, tick).0)
    ensures var st1 := Seller.Replies(k.cfg, k.seller, st, xs, tick, 0).0;
            var st2 := Seller.Mail(k.cfg, k.seller, st1, mail, tick, |xs|).0;
            var st3 := Seller.Step(k.cfg, k.seller, st, xs, mail, tick).0;
            && Books(k.cfg, st1) && Unmistakable(k, st1) && Books(k.cfg, st2) && Books(k.cfg, st3)
            && st.orders.Keys <= st3.orders.Keys
  {
    var st1 := Seller.Replies(k.cfg, k.seller, st, xs, tick, 0).0;
    var st2 := Seller.Mail(k.cfg, k.seller, st1, mail, tick, |xs|).0;
    var st3 := Seller.Step(k.cfg, k.seller, st, xs, mail, tick).0;
    BooksReplies(k.cfg, k.seller, st, xs, tick, 0);
    BooksMail(k.cfg, k.seller, st1, mail, tick, |xs|);
    OnTail(k, st2, tick, |xs| + |mail|);
    forall rid | rid in st1.orders && rid != k.rid ensures StoreNumber(k.cfg, rid) != k.Number() {
      assert rid in st3.orders.Keys;
    }
  }

  lemma StepOut(k: Case, st: Seller.State, xs: seq<Reply>, mail: seq<Message>, tick: int)
    requires Books(k.cfg, st)
    requires Unmistakable(k, Seller.Step(k.cfg, k.seller, st, xs, mail, tick).0)
    ensures var (st1, ev1) := Seller.Replies(k.cfg, k.seller, st, xs, tick, 0);
            var (st2, ev2) := Seller.Mail(k.cfg, k.seller, st1, mail, tick, |xs|);
            var (st3, ev) := Seller.Step(k.cfg, k.seller, st, xs, mail, tick);
            && ViewS(st3, k.rid) == Unexpired(ViewS(st2, k.rid), tick)
            && OutOf(k, ev) == Join(OutOf(k, ev1), OutOf(k, ev2))
  {
    hide Seller.Replies, Seller.Mail, Expire, Books, Unmistakable, Unexpired;
    StepBooks(k, st, xs, mail, tick);
    var (st1, ev1) := Seller.Replies(k.cfg, k.seller, st, xs, tick, 0);
    var (st2, ev2) := Seller.Mail(k.cfg, k.seller, st1, mail, tick, |xs|);
    var (st3, ev3) := Seller.Scheduled(k.cfg, k.seller, st2.(queries := Expire(st2.queries, tick)), tick, |xs| + |mail|);
    OnTail(k, st2, tick, |xs| + |mail|);
    OutAppend(k, ev1 + ev2, ev3);
    OutAppend(k, ev1, ev2);
    JoinSilent(OutOf(k, ev1 + ev2));
  }

  lemma JoinSilent(a: SellerOut)
    ensures Join(a, SILENT) == a
  {
  }

  lemma StepMid(k: Case, st: Seller.State, xs: seq<Reply>, mail: seq<Message>, tick: int)
    returns (q: QueryId, v1: SellerView, out1: SellerOut, v2: SellerView, out2: SellerOut)
    requires forall m :: m in mail ==> m.to == k.seller && Numbered(k.cfg, m)
    requires Books(k.cfg, st)
    requires Unmistakable(k, Seller.Step(k.cfg, k.seller, st, xs, mail, tick).0)
    requires OnePlace(k, Filter(ToSeller(k), mail))
    ensures AskFor(k, q, tick)
    ensures (v1, out1) == SellerHearAll(k, ViewS(st, k.rid), Filter(AboutIt(k), xs), tick)
    ensures (v2, out2) == SellerFold(k, v1, Filter(ToSeller(k), mail), tick, q)
    ensures var (st3, ev) := Seller.Step(k.cfg, k.seller, st, xs, mail, tick);
            ViewS(st3, k.rid) == Unexpired(v2, tick) && OutOf(k, ev) == Join(out1, out2)
  {
    StepBooks(k, st, xs, mail, tick);
    var (st1, ev1) := Seller.Replies(k.cfg, k.seller, st, xs, tick, 0);
    OnReplies(k, st, xs, tick, 0);
    v1, out1 := ViewS(st1, k.rid), OutOf(k, ev1);
    q := OnMail(k, st1, mail, tick, |xs|);
    var (st2, ev2) := Seller.Mail(k.cfg, k.seller, st1, mail, tick, |xs|);
    v2, out2 := ViewS(st2, k.rid), OutOf(k, ev2);
    StepOut(k, st, xs, mail, tick);
  }

  lemma OnStep(k: Case, st: Seller.State, xs: seq<Reply>, mail: seq<Message>, tick: int) returns (q: QueryId)
    requires forall m :: m in mail ==> m.to == k.seller && Numbered(k.cfg, m)
    requires Books(k.cfg, st)
    requires Unmistakable(k, Seller.Step(k.cfg, k.seller, st, xs, mail, tick).0)
    requires OnePlace(k, Filter(ToSeller(k), mail))
    ensures AskFor(k, q, tick)
    ensures var (st1, ev) := Seller.Step(k.cfg, k.seller, st, xs, mail, tick);
            var (v, out) := SellerTurn(k, ViewS(st, k.rid), Filter(AboutIt(k), xs), Filter(ToSeller(k), mail), tick, q);
            ViewS(st1, k.rid) == v && OutOf(k, ev) == out
  {
    var v1, out1, v2, out2;
    q, v1, out1, v2, out2 := StepMid(k, st, xs, mail, tick);
  }
}
