/** The inventory ledger: what a seller's logged stock changes add up to. */
module Ledger {
  import opened Seqs
  import opened Messages
  import opened Settings
  import opened SellerSide
  import opened RestockResults
  import Seller
  import Transport

  predicate Settled(o: Seller.Order) { o.status == Paid || o.status == Delivered }

  predicate Standing(o: Seller.Order) { o.status == Accepted || Settled(o) }

  /** The quantity of a SKU that an order holds: its own, while it is accepted, paid or delivered. */
  function Held(st: Seller.State, sku: int): OrderId -> int {
    (rid: OrderId) =>
      if rid in st.orders && st.orders[rid].sku == sku && Standing(st.orders[rid]) then st.orders[rid].qty else 0
  }

  /** The quantity of a SKU that a seller's standing orders hold. */
  function HeldInAll(st: Seller.State, sku: int): int {
    Sum(Held(st, sku), st.orderIds)
  }

  /** What a log entry changes in a seller's stock of a SKU. */
  function Delta(s: int, sku: int): Event -> int {
    (e: Event) => if e.agent == s then Sum(DeltaOf(sku), e.writes) else 0
  }

  /** A stock change that is not a restock. */
  function Drift(s: int, sku: int): Event -> int {
    (e: Event) => Delta(s, sku)(e) - Credit(s, sku)(e)
  }

  lemma {:induction false} DriftSum(s: int, sku: int, ev: seq<Event>)
    ensures Sum(Drift(s, sku), ev) == Sum(Delta(s, sku), ev) - Sum(Credit(s, sku), ev)
  {
    if ev != [] {
      DriftSum(s, sku, ev[1..]);
    }
  }

  // -------------------------------------------------------------- a seller in order

  /** Every known order was placed before the given tick; none is both waiting and accepted; each is listed once. */
  ghost predicate Orderly(cfg: Config, st: Seller.State, tick: int) {
    && Books(cfg, st) && Distinct(st.orderIds)
    && (forall rid :: rid in st.incoming ==> rid.tick < tick && rid !in st.orders)
    && (forall rid :: rid in st.orders ==> rid.tick < tick)
  }

  /** In the course of a tick: orders older than the last tick, whatever waits is not yet accepted. */
  ghost predicate InTick(cfg: Config, st: Seller.State, placed: int) {
    Orderly(cfg, st, placed + 1) && forall rid :: rid in st.orders ==> rid.tick < placed
  }

  /** No two orders of the seller have drawn the same store order number. */
  ghost predicate SoleNumbers(st: Seller.State) {
    forall x, y :: x in st.orders && y in st.orders && x != y ==> st.orders[x].number != st.orders[y].number
  }

  /** Some order with this number is paid or delivered. */
  ghost predicate PaidFor(st: Seller.State, number: int) {
    exists rid :: rid in st.orders && st.orders[rid].number == number && Settled(st.orders[rid])
  }

  /** Paid and delivered orders stay so. */
  ghost predicate Advances(st: Seller.State, st1: Seller.State) {
    forall rid :: rid in st.orders && Settled(st.orders[rid]) ==>
      rid in st1.orders && st1.orders[rid].number == st.orders[rid].number && Settled(st1.orders[rid])
  }

  lemma AdvancesPaid(st: Seller.State, st1: Seller.State, number: int)
    requires Advances(st, st1) && PaidFor(st, number)
    ensures PaidFor(st1, number)
  {
    var rid :| rid in st.orders && st.orders[rid].number == number && Settled(st.orders[rid]);
    assert rid in st1.orders && st1.orders[rid].number == number && Settled(st1.orders[rid]);
  }

  /** What a seller may be sent: placements younger than all it knows, deliveries of what is paid. */
  ghost predicate Expected(cfg: Config, st: Seller.State, tick: int, m: Message) {
    && Numbered(cfg, m)
    && (m.payload.PlaceOrder? ==> m.payload.rid.tick == tick)
    && (m.payload.DeliveryComplete? && m.payload.freight == ConsumerOrder && m.payload.ref.StoreRef? ==>
          PaidFor(st, m.payload.ref.number))
  }

  // -------------------------------------------------------------- one order changes

  lemma {:induction false} OneChanges<T>(f: T -> int, g: T -> int, xs: seq<T>, x: T)
    requires Distinct(xs) && x in xs && forall y :: y in xs && y != x ==> f(y) == g(y)
    ensures Sum(g, xs) == Sum(f, xs) + g(x) - f(x)
  {
    if xs[0] == x {
      assert forall y :: y in xs[1..] ==> y in xs && y != x;
      SumAgree(f, g, xs[1..]);
    } else {
      assert forall y :: y in xs[1..] ==> y in xs;
      OneChanges(f, g, xs[1..], x);
    }
  }

  /** A change of status moves the order's quantity if the order gains or loses its standing. */
  lemma StatusChanges(cfg: Config, st: Seller.State, rid: OrderId, status: Status, sku: int)
    requires Books(cfg, st) && Distinct(st.orderIds) && rid in st.orders
    ensures var st1 := st.(orders := st.orders[rid := st.orders[rid].(status := status)]);
            HeldInAll(st1, sku) == HeldInAll(st, sku) + Held(st1, sku)(rid) - Held(st, sku)(rid)
  {
    var st1 := st.(orders := st.orders[rid := st.orders[rid].(status := status)]);
    OneChanges(Held(st, sku), Held(st1, sku), st.orderIds, rid);
  }

  lemma FewWrites(sku: int, xs: seq<Write>)
    requires |xs| <= 2
    ensures Sum(DeltaOf(sku), xs)
         == if xs == [] then 0 else DeltaOf(sku)(xs[0]) + if |xs| == 2 then DeltaOf(sku)(xs[1]) else 0
  {
    if |xs| == 1 {
      assert xs == [xs[0]];
      SumOne(DeltaOf(sku), xs[0]);
    } else if |xs| == 2 {
      assert xs == [xs[0]] + [xs[1]];
      SumAppend(DeltaOf(sku), [xs[0]], [xs[1]]);
      SumOne(DeltaOf(sku), xs[0]);
      SumOne(DeltaOf(sku), xs[1]);
    }
  }

  /** The drift of an event with at most two writes. */
  lemma OneEvent(s: int, sku: int, e: Event)
    requires |e.writes| <= 2
    ensures Sum(Drift(s, sku), [e])
         == if e.agent != s || e.kind == StoreInventoryUpdate || e.writes == [] then 0
            else DeltaOf(sku)(e.writes[0]) + if |e.writes| == 2 then DeltaOf(sku)(e.writes[1]) else 0
  {
    SumOne(Drift(s, sku), e);
    FewWrites(sku, e.writes);
    assert Drift(s, sku)(e) == Delta(s, sku)(e) - Credit(s, sku)(e);
    assert Delta(s, sku)(e) == if e.agent == s then Sum(DeltaOf(sku), e.writes) else 0;
    assert Credit(s, sku)(e) == if e.agent == s && e.kind == StoreInventoryUpdate then Sum(DeltaOf(sku), e.writes) else 0;
  }

  // -------------------------------------------------------------- messages

  lemma FindNumber(st: Seller.State, ids: seq<OrderId>, ref: Ref)
    ensures var found := Seller.Find(st, ids, ref);
            found.Some? ==> found.value in st.orders && StoreRef(st.orders[found.value].number) == ref
  {
    if ids != [] {
      FindNumber(st, ids[1..], ref);
    }
  }

  /**
   * The delivery of an order finds the order if and only if its number is not zero and no order accepted
   * before it has the same number; otherwise it finds an earlier order, or none at all.
   */
  lemma DeliveryFinds(cfg: Config, st: Seller.State, i: nat)
    requires Books(cfg, st) && Distinct(st.orderIds) && i < |st.orderIds|
    ensures var number := st.orders[st.orderIds[i]].number;
            Seller.Find(st, st.orderIds, Transport.OrderRef(Some(number), None)) == Some(st.orderIds[i]) <==>
              number != 0 && forall j :: 0 <= j < i ==> st.orders[st.orderIds[j]].number != number
  {
    var rid := st.orderIds[i];
    assert rid in st.orderIds;
    var number := st.orders[rid].number;
    if number == 0 {
      FindNumber(st, st.orderIds, NoRef);
    } else {
      FindFirst(cfg, st, st.orderIds, i, number);
    }
  }

  lemma {:induction false} FindFirst(cfg: Config, st: Seller.State, ids: seq<OrderId>, i: nat, number: int)
    requires Distinct(ids) && i < |ids| && (forall rid :: rid in ids ==> rid in st.orders) && st.orders[ids[i]].number == number
    ensures Seller.Find(st, ids, StoreRef(number)) == Some(ids[i]) <==>
              forall j :: 0 <= j < i ==> st.orders[ids[j]].number != number
  {
    assert ids[0] in ids;
    if i > 0 && st.orders[ids[0]].number != number {
      FindFirst(cfg, st, ids[1..], i - 1, number);
      forall j | 0 <= j < i - 1 ensures ids[1..][j] == ids[j + 1] {
      }
      if forall j :: 0 <= j < i - 1 ==> st.orders[ids[1..][j]].number != number {
        forall j | 0 <= j < i ensures st.orders[ids[j]].number != number {
          assert j > 0 ==> ids[j] == ids[1..][j - 1];
        }
      }
    }
  }

  lemma CancelDrift(cfg: Config, me: int, st: Seller.State, rid: OrderId, from: int, tick: int, sku: int)
    requires Books(cfg, st) && Distinct(st.orderIds)
    ensures var (st1, ev) := Seller.OnCancelRequest(me, st, rid, from, tick);
            Sum(Drift(me, sku), ev) == HeldInAll(st, sku) - HeldInAll(st1, sku)
  {
    var (st1, ev) := Seller.OnCancelRequest(me, st, rid, from, tick);
    if ev != [] {
      assert ev == [ev[0]];
      OneEvent(me, sku, ev[0]);
      if st.orders[rid].status == Accepted {
        StatusChanges(cfg, st, rid, Cancelled, sku);
      }
    }
  }

  lemma PaymentDrift(cfg: Config, me: int, st: Seller.State, rid: OrderId, number: int, amount: real, from: int,
          tick: int, sku: int)
    requires Books(cfg, st) && Distinct(st.orderIds)
    ensures var (st1, ev) := Seller.OnPayment(cfg, me, st, rid, number, amount, from, tick);
            Sum(Drift(me, sku), ev) == HeldInAll(st, sku) - HeldInAll(st1, sku)
  {
    hide Seller.PaymentMessages;
    var (st1, ev) := Seller.OnPayment(cfg, me, st, rid, number, amount, from, tick);
    if ev != [] {
      assert ev == [ev[0]];
      OneEvent(me, sku, ev[0]);
      StatusChanges(cfg, st, rid, Paid, sku);
    }
  }

  /**
   * A delivery notice leaves the ledger in balance if and only if it does not revive a cancelled order:
   * the order found by its number, which is the first with that number, must hold its quantity already.
   */
  lemma DeliveryDrift(cfg: Config, me: int, st: Seller.State, ref: Ref, shipment: ShipmentId, freight: Freight,
          tick: int, sku: int)
    requires Books(cfg, st) && Distinct(st.orderIds)
    ensures var (st1, ev) := Seller.OnDelivery(me, st, ref, shipment, freight, tick);
            var found := Seller.Find(st, st.orderIds, ref);
            Sum(Drift(me, sku), ev) == HeldInAll(st, sku) - HeldInAll(st1, sku) <==>
              (freight == ConsumerOrder && found.Some? && found.value in st.orders
               && st.orders[found.value].sku == sku && st.orders[found.value].qty != 0
               ==> Standing(st.orders[found.value]))
  {
    var (st1, ev) := Seller.OnDelivery(me, st, ref, shipment, freight, tick);
    FindNumber(st, st.orderIds, ref);
    if ev != [] {
      assert ev == [ev[0]];
      OneEvent(me, sku, ev[0]);
      StatusChanges(cfg, st, Seller.Find(st, st.orderIds, ref).value, Delivered, sku);
    }
  }

  lemma OtherDrift(cfg: Config, me: int, st: Seller.State, m: Message, tick: int, item: int, sku: int)
    requires !m.payload.Payment? && !m.payload.CancelRequest? && !m.payload.DeliveryComplete?
    ensures var (st1, ev) := Seller.OnMessage(cfg, me, st, m, tick, item);
            Sum(Drift(me, sku), ev) == HeldInAll(st, sku) - HeldInAll(st1, sku)
  {
    var (st1, ev) := Seller.OnMessage(cfg, me, st, m, tick, item);
    SumAgree(Held(st, sku), Held(st1, sku), st.orderIds);
    if ev != [] {
      assert ev == [ev[0]];
      OneEvent(me, sku, ev[0]);
    }
  }

  lemma MessageDrift(cfg: Config, me: int, st: Seller.State, m: Message, tick: int, item: int, placed: int, sku: int)
    requires InTick(cfg, st, placed) && SoleNumbers(st) && Expected(cfg, st, placed, m)
    ensures var (st1, ev) := Seller.OnMessage(cfg, me, st, m, tick, item);
            Sum(Drift(me, sku), ev) == HeldInAll(st, sku) - HeldInAll(st1, sku)
  {
    hide HeldInAll, Seller.OnPayment, Seller.OnCancelRequest, Seller.OnDelivery, Drift;
    match m.payload
    case Payment(rid, number, amount) => PaymentDrift(cfg, me, st, rid, number, amount, m.from, tick, sku);
    case CancelRequest(rid) => CancelDrift(cfg, me, st, rid, m.from, tick, sku);
    case DeliveryComplete(ref, shipment, freight) =>
      FindNumber(st, st.orderIds, ref);
      DeliveryDrift(cfg, me, st, ref, shipment, freight, tick, sku);
    case _ => OtherDrift(cfg, me, st, m, tick, item, sku);
  }

  /** A change that keeps keys, numbers and waiting orders, and takes nothing back. */
  lemma OrderlyAfter(cfg: Config, st: Seller.State, st1: Seller.State, placed: int)
    requires InTick(cfg, st, placed) && Books(cfg, st1) && st1.orderIds == st.orderIds && st1.orders.Keys == st.orders.Keys
    requires forall rid :: rid in st1.incoming ==> rid in st.incoming || rid.tick == placed
    ensures InTick(cfg, st1, placed)
  {
    hide Books;
    forall rid | rid in st1.orders ensures rid.tick < placed {
      assert rid in st1.orders.Keys;
    }
    forall rid | rid in st1.incoming ensures rid.tick < placed + 1 && rid !in st1.orders {
      assert rid in st1.orders <==> rid in st1.orders.Keys;
      assert rid in st.orders <==> rid in st.orders.Keys;
    }
  }

  lemma MessageAdvances(cfg: Config, me: int, st: Seller.State, m: Message, tick: int, item: int)
    requires Books(cfg, st)
    ensures Advances(st, Seller.OnMessage(cfg, me, st, m, tick, item).0)
  {
    hide Seller.Find, Seller.PaymentMessages, Books;
    match m.payload
    case DeliveryComplete(ref, _, _) => FindNumber(st, st.orderIds, ref); BooksAgree(cfg, st);
    case _ =>
  }

  lemma MessageOrderly(cfg: Config, me: int, st: Seller.State, m: Message, tick: int, item: int, placed: int)
    requires InTick(cfg, st, placed) && Expected(cfg, st, placed, m)
    ensures var st1 := Seller.OnMessage(cfg, me, st, m, tick, item).0;
            InTick(cfg, st1, placed) && st1.orders.Keys == st.orders.Keys && Advances(st, st1)
  {
    hide Seller.Find, Seller.PaymentMessages, Books, PaidFor, Advances, InTick;
    assert Books(cfg, st) by { InTickBooks(cfg, st, placed); }
    var st1 := Seller.OnMessage(cfg, me, st, m, tick, item).0;
    BooksMessage(cfg, me, st, m, tick, item);
    MessageAdvances(cfg, me, st, m, tick, item);
    OrderlyAfter(cfg, st, st1, placed);
  }

  lemma InTickBooks(cfg: Config, st: Seller.State, placed: int)
    requires InTick(cfg, st, placed)
    ensures Books(cfg, st)
  {
  }

  lemma BooksAgree(cfg: Config, st: Seller.State)
    requires Books(cfg, st)
    ensures forall rid :: rid in st.orderIds <==> rid in st.orders
  {
  }

  /** A seller's requests to ship are for orders that it has just taken the payment of. */
  lemma MessageShips(cfg: Config, me: int, st: Seller.State, m: Message, tick: int, item: int)
    requires Books(cfg, st) && Numbered(cfg, m)
    ensures var (st1, ev) := Seller.OnMessage(cfg, me, st, m, tick, item);
            forall x :: x in Msgs(ev) && x.payload.ShipRequest? ==> x.payload.order.Some? && PaidFor(st1, x.payload.order.value)
  {
    var (st1, ev) := Seller.OnMessage(cfg, me, st, m, tick, item);
    if ev != [] {
      assert ev == [ev[0]];
      MsgsOne(ev[0]);
      if m.payload.Payment? {
        assert m.payload.rid in st1.orders && Settled(st1.orders[m.payload.rid]);
      }
    }
  }

  // -------------------------------------------------------------- a tick's mail

  lemma ExpectedLater(cfg: Config, st: Seller.State, st1: Seller.State, placed: int, m: Message)
    requires Expected(cfg, st, placed, m) && Advances(st, st1)
    ensures Expected(cfg, st1, placed, m)
  {
    if m.payload.DeliveryComplete? && m.payload.freight == ConsumerOrder && m.payload.ref.StoreRef? {
      AdvancesPaid(st, st1, m.payload.ref.number);
    }
  }

  lemma SameNumbers(cfg: Config, st: Seller.State, st1: Seller.State)
    requires Books(cfg, st) && Books(cfg, st1) && st.orders.Keys <= st1.orders.Keys && SoleNumbers(st1)
    ensures SoleNumbers(st)
  {
    forall x, y | x in st.orders && y in st.orders && x != y ensures st.orders[x].number != st.orders[y].number {
      assert x in st1.orders.Keys && y in st1.orders.Keys;
    }
  }

  lemma {:induction false} MailOrderly(cfg: Config, me: int, st: Seller.State, mail: seq<Message>, tick: int,
          item: int, placed: int)
    requires InTick(cfg, st, placed) && forall m :: m in mail ==> Expected(cfg, st, placed, m)
    ensures var st1 := Seller.Mail(cfg, me, st, mail, tick, item).0;
            InTick(cfg, st1, placed) && st1.orders.Keys == st.orders.Keys && Advances(st, st1)
    decreases |mail|
  {
    if mail != [] {
      var st1 := Seller.OnMessage(cfg, me, st, mail[0], tick, item).0;
      MessageOrderly(cfg, me, st, mail[0], tick, item, placed);
      forall m | m in mail[1..] ensures Expected(cfg, st1, placed, m) {
        assert m in mail;
        ExpectedLater(cfg, st, st1, placed, m);
      }
      MailOrderly(cfg, me, st1, mail[1..], tick, item + 1, placed);
    }
  }

  lemma {:induction false} MailDrift(cfg: Config, me: int, st: Seller.State, mail: seq<Message>, tick: int,
          item: int, placed: int, sku: int)
    requires InTick(cfg, st, placed) && SoleNumbers(st) && forall m :: m in mail ==> Expected(cfg, st, placed, m)
    ensures var (st1, ev) := Seller.Mail(cfg, me, st, mail, tick, item);
            Sum(Drift(me, sku), ev) == HeldInAll(st, sku) - HeldInAll(st1, sku)
    decreases |mail|
  {
    hide HeldInAll, Drift, Seller.OnMessage, SoleNumbers, Expected;
    if mail != [] {
      var (st1, ev1) := Seller.OnMessage(cfg, me, st, mail[0], tick, item);
      var (st2, ev2) := Seller.Mail(cfg, me, st1, mail[1..], tick, item + 1);
      MessageOrderly(cfg, me, st, mail[0], tick, item, placed);
      MessageDrift(cfg, me, st, mail[0], tick, item, placed, sku);
      forall m | m in mail[1..] ensures Expected(cfg, st1, placed, m) {
        assert m in mail;
        ExpectedLater(cfg, st, st1, placed, m);
      }
      SameNumbers(cfg, st1, st);
      MailDrift(cfg, me, st1, mail[1..], tick, item + 1, placed, sku);
      SumAppend(Drift(me, sku), ev1, ev2);
    }
  }

  lemma {:induction false} MailShips(cfg: Config, me: int, st: Seller.State, mail: seq<Message>, tick: int,
          item: int, placed: int)
    requires InTick(cfg, st, placed) && forall m :: m in mail ==> Expected(cfg, st, placed, m)
    ensures var (st1, ev) := Seller.Mail(cfg, me, st, mail, tick, item);
            forall x :: x in Msgs(ev) && x.payload.ShipRequest? ==> x.payload.order.Some? && PaidFor(st1, x.payload.order.value)
    decreases |mail|
  {
    hide Seller.OnMessage, PaidFor, Expected;
    if mail != [] {
      var (st1, ev1) := Seller.OnMessage(cfg, me, st, mail[0], tick, item);
      var (st2, ev2) := Seller.Mail(cfg, me, st1, mail[1..], tick, item + 1);
      MessageOrderly(cfg, me, st, mail[0], tick, item, placed);
      assert Numbered(cfg, mail[0]) by { ExpectedNumbered(cfg, st, placed, mail[0]); }
      MessageShips(cfg, me, st, mail[0], tick, item);
      forall m | m in mail[1..] ensures Expected(cfg, st1, placed, m) {
        assert m in mail;
        ExpectedLater(cfg, st, st1, placed, m);
      }
      MailOrderly(cfg, me, st1, mail[1..], tick, item + 1, placed);
      MailShips(cfg, me, st1, mail[1..], tick, item + 1, placed);
      MsgsAppend(ev1, ev2);
      forall x | x in Msgs(ev1) && x.payload.ShipRequest? ensures PaidFor(st2, x.payload.order.value) {
        AdvancesPaid(st1, st2, x.payload.order.value);
      }
    }
  }

  lemma ExpectedNumbered(cfg: Config, st: Seller.State, placed: int, m: Message)
    requires Expected(cfg, st, placed, m)
    ensures Numbered(cfg, m)
  {
  }

  // -------------------------------------------------------------- a tick's results

  /** Accepting a waiting order takes its quantity off the stock. */
  lemma AcceptDrift(cfg: Config, me: int, st: Seller.State, rid: OrderId, tick: int, sku: int)
    requires Books(cfg, st) && (rid in st.incoming ==> rid !in st.orders)
    ensures var (st1, ev) := Seller.OnInventoryCheck(cfg, me, st, rid, tick);
            Sum(Drift(me, sku), ev) == HeldInAll(st, sku) - HeldInAll(st1, sku)
  {
    var (st1, ev) := Seller.OnInventoryCheck(cfg, me, st, rid, tick);
    if rid in st.incoming {
      OneEvent(me, sku, ev[0]);
      assert ev == [ev[0]] && rid !in st.orderIds;
      SumAppend(Held(st1, sku), st.orderIds, [rid]);
      SumOne(Held(st1, sku), rid);
      SumAgree(Held(st, sku), Held(st1, sku), st.orderIds);
    }
  }

  lemma AcceptOrderly(cfg: Config, me: int, st: Seller.State, rid: OrderId, tick: int, placed: int)
    requires Orderly(cfg, st, placed)
    ensures var st1 := Seller.OnInventoryCheck(cfg, me, st, rid, tick).0;
            && (Books(cfg, st1) ==> Orderly(cfg, st1, placed)) && st.orders.Keys <= st1.orders.Keys && Advances(st, st1)
  {
    hide Seller.AcceptEvent;
    if rid in st.incoming {
      assert rid !in st.orderIds;
    }
  }

  lemma LevelsOrderly(cfg: Config, me: int, st: Seller.State, data: Data, tick: int, item: int, placed: int)
    requires Orderly(cfg, st, placed)
    ensures var st1 := Seller.OnInventoryLevels(cfg, me, st, data, tick, item).0;
            && Orderly(cfg, st1, placed) && st1.orders == st.orders
  {
    RestockRowsKeep(cfg, me, st, Seller.StockRows(data), tick, item, 0);
  }

  lemma ReplyOrderly(cfg: Config, me: int, st: Seller.State, x: Reply, tick: int, item: int, placed: int)
    requires Orderly(cfg, st, placed)
    ensures var st1 := Seller.OnReply(cfg, me, st, x, tick, item).0;
            Orderly(cfg, st1, placed) && st.orders.Keys <= st1.orders.Keys && Advances(st, st1)
  {
    hide Seller.OnInventoryCheck, Seller.OnInventoryLevels;
    BooksReply(cfg, me, st, x, tick, item);
    if x.id in st.queries {
      var popped := st.(queries := st.queries - {x.id});
      assert Orderly(cfg, popped, placed);
      if st.queries[x.id].topic.InventoryCheck? {
        AcceptOrderly(cfg, me, popped, st.queries[x.id].topic.order, tick, placed);
      } else if st.queries[x.id].topic.InventoryLevels? {
        LevelsOrderly(cfg, me, popped, x.data, tick, item, placed);
      }
    }
  }

  lemma ReplyDrift(cfg: Config, me: int, st: Seller.State, x: Reply, tick: int, item: int, placed: int, sku: int)
    requires Orderly(cfg, st, placed)
    ensures var (st1, ev) := Seller.OnReply(cfg, me, st, x, tick, item);
            Sum(Drift(me, sku), ev) == HeldInAll(st, sku) - HeldInAll(st1, sku)
  {
    hide Drift, HeldInAll, Seller.OnInventoryCheck, Seller.OnInventoryLevels;
    if x.id in st.queries {
      var popped := st.(queries := st.queries - {x.id});
      SameHeld(st, popped, sku);
      if st.queries[x.id].topic.InventoryCheck? {
        AcceptDrift(cfg, me, popped, st.queries[x.id].topic.order, tick, sku);
      } else {
        LevelsDrift(cfg, me, popped, x.data, tick, item, sku);
      }
    }
  }

  lemma SameHeld(st: Seller.State, st1: Seller.State, sku: int)
    requires st.orders == st1.orders && st.orderIds == st1.orderIds
    ensures HeldInAll(st, sku) == HeldInAll(st1, sku)
  {
    SumAgree(Held(st, sku), Held(st1, sku), st.orderIds);
  }

  lemma LevelsDrift(cfg: Config, me: int, st: Seller.State, data: Data, tick: int, item: int, sku: int)
    ensures var (st1, ev) := Seller.OnInventoryLevels(cfg, me, st, data, tick, item);
            && st1 == st.(restocks := st1.restocks)
            && Sum(Drift(me, sku), ev) == 0 && HeldInAll(st1, sku) == HeldInAll(st, sku)
  {
    var (st1, ev) := Seller.OnInventoryLevels(cfg, me, st, data, tick, item);
    RestockRowsKeep(cfg, me, st, Seller.StockRows(data), tick, item, 0);
    SameHeld(st, st1, sku);
    if ev != [] {
      assert ev == [ev[0]];
      OneEvent(me, sku, ev[0]);
    }
  }

  lemma {:induction false} RepliesDrift(cfg: Config, me: int, st: Seller.State, xs: seq<Reply>, tick: int, item: int,
          placed: int, sku: int)
    requires Orderly(cfg, st, placed)
    ensures var (st1, ev) := Seller.Replies(cfg, me, st, xs, tick, item);
            && Orderly(cfg, st1, placed) && st.orders.Keys <= st1.orders.Keys && Advances(st, st1)
            && Sum(Drift(me, sku), ev) == HeldInAll(st, sku) - HeldInAll(st1, sku)
    decreases |xs|
  {
    hide HeldInAll, Drift, Seller.OnReply, Orderly;
    if xs != [] {
      var (st1, ev1) := Seller.OnReply(cfg, me, st, xs[0], tick, item);
      var (st2, ev2) := Seller.Replies(cfg, me, st1, xs[1..], tick, item + 1);
      ReplyOrderly(cfg, me, st, xs[0], tick, item, placed);
      ReplyDrift(cfg, me, st, xs[0], tick, item, placed, sku);
      RepliesDrift(cfg, me, st1, xs[1..], tick, item + 1, placed, sku);
      SumAppend(Drift(me, sku), ev1, ev2);
    }
  }

  // -------------------------------------------------------------- a whole step

  /** What a step of a seller leaves: order, nothing taken back, and shipments for paid orders only. */
  ghost predicate KeepsOrder(cfg: Config, st: Seller.State, st1: Seller.State, ev: seq<Event>, placed: int) {
    && Orderly(cfg, st1, placed + 1) && st.orders.Keys <= st1.orders.Keys && Advances(st, st1)
    && forall x :: x in Msgs(ev) && x.payload.ShipRequest? ==> x.payload.order.Some? && PaidFor(st1, x.payload.order.value)
  }

  /** The state in which the mail of a tick finds the seller. */
  lemma MidStep(cfg: Config, me: int, st: Seller.State, xs: seq<Reply>, mail: seq<Message>, tick: int, placed: int)
    requires Orderly(cfg, st, placed) && forall m :: m in mail ==> Expected(cfg, st, placed, m)
    ensures var st1 := Seller.Replies(cfg, me, st, xs, tick, 0).0;
            && InTick(cfg, st1, placed) && st.orders.Keys <= st1.orders.Keys && Advances(st, st1)
            && forall m :: m in mail ==> Expected(cfg, st1, placed, m)
  {
    hide Seller.Replies, HeldInAll, Drift, Expected;
    var st1 := Seller.Replies(cfg, me, st, xs, tick, 0).0;
    RepliesDrift(cfg, me, st, xs, tick, 0, placed, 0);
    forall m | m in mail ensures Expected(cfg, st1, placed, m) {
      ExpectedLater(cfg, st, st1, placed, m);
    }
  }

  lemma TailOrderly(cfg: Config, me: int, st: Seller.State, tick: int, item: int, placed: int)
    requires Orderly(cfg, st, placed)
    ensures var st1 := Seller.Scheduled(cfg, me, st.(queries := Expire(st.queries, tick)), tick, item).0;
            Orderly(cfg, st1, placed) && st1.orders == st.orders && st1.orderIds == st.orderIds
  {
  }

  lemma AdvancesOn(st: Seller.State, st1: Seller.State, st2: Seller.State)
    requires Advances(st, st1) && Advances(st1, st2)
    ensures Advances(st, st2)
  {
  }

  lemma StepOrderly(cfg: Config, me: int, st: Seller.State, xs: seq<Reply>, mail: seq<Message>, tick: int, placed: int)
    requires Orderly(cfg, st, placed) && forall m :: m in mail ==> Expected(cfg, st, placed, m)
    ensures var (st1, ev) := Seller.Step(cfg, me, st, xs, mail, tick);
            KeepsOrder(cfg, st, st1, ev, placed)
  {
    hide Seller.Replies, Seller.Mail, Seller.Scheduled, Expected, PaidFor, Orderly, Expire;
    var st1 := Seller.Replies(cfg, me, st, xs, tick, 0).0;
    var st2 := Seller.Mail(cfg, me, st1, mail, tick, |xs|).0;
    var (st3, ev) := Seller.Step(cfg, me, st, xs, mail, tick);
    MidStep(cfg, me, st, xs, mail, tick, placed);
    MailOrderly(cfg, me, st1, mail, tick, |xs|, placed);
    TailOrderly(cfg, me, st2, tick, |xs| + |mail|, placed + 1);
    assert Advances(st2, st3);
    AdvancesOn(st, st1, st2);
    AdvancesOn(st, st2, st3);
    StepShips(cfg, me, st, xs, mail, tick, placed);
    forall x | x in Msgs(ev) && x.payload.ShipRequest?
      ensures x.payload.order.Some? && PaidFor(st3, x.payload.order.value)
    {
      AdvancesPaid(st2, st3, x.payload.order.value);
    }
  }

  lemma ScheduleSilent(cfg: Config, me: int, st: Seller.State, tick: int, item: int)
    ensures Msgs(Seller.Scheduled(cfg, me, st, tick, item).1) == []
  {
  }

  lemma StepShips(cfg: Config, me: int, st: Seller.State, xs: seq<Reply>, mail: seq<Message>, tick: int, placed: int)
    requires Orderly(cfg, st, placed) && forall m :: m in mail ==> Expected(cfg, st, placed, m)
    ensures var st1 := Seller.Replies(cfg, me, st, xs, tick, 0).0;
            var st2 := Seller.Mail(cfg, me, st1, mail, tick, |xs|).0;
            forall x :: x in Msgs(Seller.Step(cfg, me, st, xs, mail, tick).1) && x.payload.ShipRequest? ==>
              x.payload.order.Some? && PaidFor(st2, x.payload.order.value)
  {
    hide Seller.Replies, Seller.Mail, Expected, PaidFor, InTick, Orderly, Advances, Expire, Msgs, Seller.Scheduled;
    var (st1, ev1) := Seller.Replies(cfg, me, st, xs, tick, 0);
    var (st2, ev2) := Seller.Mail(cfg, me, st1, mail, tick, |xs|);
    var ev3 := Seller.Scheduled(cfg, me, st2.(queries := Expire(st2.queries, tick)), tick, |xs| + |mail|).1;
    MidStep(cfg, me, st, xs, mail, tick, placed);
    MailShips(cfg, me, st1, mail, tick, |xs|, placed);
    RepliesSay(cfg, me, st, xs, tick, 0);
    MsgsAppend(ev1, ev2);
    MsgsAppend(ev1 + ev2, ev3);
    ScheduleSilent(cfg, me, st2.(queries := Expire(st2.queries, tick)), tick, |xs| + |mail|);
  }

  lemma {:induction false} RepliesSay(cfg: Config, me: int, st: Seller.State, xs: seq<Reply>, tick: int,
          item: int)
    ensures forall x :: x in Msgs(Seller.Replies(cfg, me, st, xs, tick, item).1) ==>
              x.payload.OrderAccepted? || x.payload.RestockOrder?
    decreases |xs|
  {
    if xs != [] {
      var (st1, ev1) := Seller.OnReply(cfg, me, st, xs[0], tick, item);
      RepliesSay(cfg, me, st1, xs[1..], tick, item + 1);
      MsgsAppend(ev1, Seller.Replies(cfg, me, st1, xs[1..], tick, item + 1).1);
      if ev1 != [] {
        assert ev1 == [ev1[0]];
        MsgsOne(ev1[0]);
        RestockRowsKeep(cfg, me, st.(queries := st.queries - {xs[0].id}), Seller.StockRows(xs[0].data), tick, item, 0);
      }
    }
  }

  lemma StepDrift(cfg: Config, me: int, st: Seller.State, xs: seq<Reply>, mail: seq<Message>, tick: int, placed: int,
          sku: int)
    requires Orderly(cfg, st, placed) && forall m :: m in mail ==> Expected(cfg, st, placed, m)
    requires SoleNumbers(Seller.Step(cfg, me, st, xs, mail, tick).0)
    ensures var (st1, ev) := Seller.Step(cfg, me, st, xs, mail, tick);
            Sum(Drift(me, sku), ev) == HeldInAll(st, sku) - HeldInAll(st1, sku)
  {
    hide Seller.Replies, Seller.Mail, Seller.Scheduled, Expected, Drift, Advances, HeldInAll, Expire, Books,
            SoleNumbers;
    var (st1, ev1) := Seller.Replies(cfg, me, st, xs, tick, 0);
    var (st2, ev2) := Seller.Mail(cfg, me, st1, mail, tick, |xs|);
    var st2' := st2.(queries := Expire(st2.queries, tick));
    var (st3, ev3) := Seller.Scheduled(cfg, me, st2', tick, |xs| + |mail|);
    MidStep(cfg, me, st, xs, mail, tick, placed);
    RepliesDrift(cfg, me, st, xs, tick, 0, placed, sku);
    MailOrderly(cfg, me, st1, mail, tick, |xs|, placed);
    TailOrderly(cfg, me, st2, tick, |xs| + |mail|, placed + 1);
    SameNumbers(cfg, st1, st3);
    MailDrift(cfg, me, st1, mail, tick, |xs|, placed, sku);
    SameHeld(st2, st3, sku);
    TailDrift(cfg, me, st2', tick, |xs| + |mail|, sku);
    StepSum(Drift(me, sku), cfg, me, st, xs, mail, tick);
  }

  lemma TailDrift(cfg: Config, me: int, st: Seller.State, tick: int, item: int, sku: int)
    ensures Sum(Drift(me, sku), Seller.Scheduled(cfg, me, st, tick, item).1) == 0
  {
    var ev := Seller.Scheduled(cfg, me, st, tick, item).1;
    if ev != [] {
      assert ev == [ev[0]];
      OneEvent(me, sku, ev[0]);
    }
  }
}
