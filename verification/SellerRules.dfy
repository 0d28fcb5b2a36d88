/** What a seller's inventory review orders, said of the rows of the result and of the catalog alone. */
module SellerRules {
  import opened Seqs
  import opened Messages
  import opened Settings
  import Seller

  /** The supplier among the sources of a SKU: that of the first primary source, else of the first source. */
  ghost predicate Chosen(sources: seq<Source>, supplier: Option<int>) {
    && (sources == [] ==> supplier == None)
    && (forall i :: 0 <= i < |sources| && sources[i].primary && (forall j :: 0 <= j < i ==> !sources[j].primary)
                    ==> supplier == sources[i].supplier)
    && (sources != [] && (forall i :: 0 <= i < |sources| ==> !sources[i].primary) ==> supplier == sources[0].supplier)
  }

  lemma {:induction false} FirstOfAll(sources: seq<Source>)
    ensures match FirstPrimary(sources)
            case None => forall i :: 0 <= i < |sources| ==> !sources[i].primary
            case Some(s) => exists i :: 0 <= i < |sources| && sources[i] == s && s.primary
                                        && forall j :: 0 <= j < i ==> !sources[j].primary
  {
    if sources != [] && !sources[0].primary {
      FirstOfAll(sources[1..]);
      if FirstPrimary(sources[1..]).Some? {
        var i :| 0 <= i < |sources[1..]| && sources[1..][i] == FirstPrimary(sources[1..]).value
                 && forall j :: 0 <= j < i ==> !sources[1..][j].primary;
        assert sources[i + 1] == FirstPrimary(sources).value;
        forall j | 0 <= j < i + 1 ensures !sources[j].primary {
          assert j > 0 ==> sources[j] == sources[1..][j - 1];
        }
      } else {
        forall i | 0 <= i < |sources| ensures !sources[i].primary {
          assert i > 0 ==> sources[i] == sources[1..][i - 1];
        }
      }
    }
  }

  /** The choice is determined by the sources. */
  lemma ChosenIs(cfg: Config, sku: int, supplier: Option<int>)
    ensures Chosen(cfg.sources(sku), supplier) <==> supplier == SupplierOf(cfg, sku)
  {
    FirstOfAll(cfg.sources(sku));
  }

  /** The stock of the row is below ten pieces, and its SKU has the supplier. */
  ghost predicate Needs(cfg: Config, line: StockRow, supplier: int) {
    line.qty < 10 && Chosen(cfg.sources(line.sku), Some(supplier))
  }

  /** A restock order of fifty pieces for a row of the result, under a new id. */
  ghost predicate Restocks(cfg: Config, me: int, line: StockRow, tick: int, item: int, row: int, m: Message) {
    && m.payload.RestockOrder? && Needs(cfg, line, m.to)
    && m == Message(me, m.to, tick, RestockOrder(RestockId(me, tick, item, row, line.sku), line.sku, 50, me))
  }

  /** `at` lists, in their order, just the rows that need a restock; the messages are one restock order for each. */
  ghost predicate Orders(cfg: Config, me: int, rows: seq<StockRow>, tick: int, item: int, row: int, at: seq<nat>,
                         messages: seq<Message>)
  {
    && Rising(at, |rows|) && |messages| == |at|
    && (forall i :: 0 <= i < |rows| ==> (i in at <==> exists supplier :: Needs(cfg, rows[i], supplier)))
    && (forall n :: 0 <= n < |at| ==> Restocks(cfg, me, rows[at[n]], tick, item, row + at[n], messages[n]))
  }

  /** What is on record as ordered is what was before, and what the messages order. */
  ghost predicate Recorded(before: map<Seller.RestockKey, Seller.RestockEntry>,
                           after: map<Seller.RestockKey, Seller.RestockEntry>, messages: seq<Message>)
  {
    && (forall key :: key in after <==> key in before || exists m :: m in messages && Notes(m, key))
    && (forall m :: m in messages ==> Entered(after, m))
    && (forall key :: key in before && (forall m :: m in messages ==> !Notes(m, key)) ==> after[key] == before[key])
  }

  predicate Notes(m: Message, key: Seller.RestockKey) {
    m.payload.RestockOrder? && key == Seller.Uuid(m.payload.id)
  }

  ghost predicate Entered(after: map<Seller.RestockKey, Seller.RestockEntry>, m: Message) {
    && m.payload.RestockOrder? && Seller.Uuid(m.payload.id) in after
    && after[Seller.Uuid(m.payload.id)] == Seller.RestockEntry(m.payload.sku, m.payload.qty, m.to, false)
  }

  lemma LaterRows(cfg: Config, me: int, rows: seq<StockRow>, tick: int, item: int, row: int, at: seq<nat>,
          messages: seq<Message>, id: RestockId)
    requires Orders(cfg, me, rows, tick, item, row, at, messages) && id.row < row
    ensures forall m :: m in messages ==> !Notes(m, Seller.Uuid(id))
  {
    forall m | m in messages ensures !Notes(m, Seller.Uuid(id)) {
      var n :| 0 <= n < |messages| && messages[n] == m;
      assert Restocks(cfg, me, rows[at[n]], tick, item, row + at[n], messages[n]);
    }
  }

  /** The positions among all rows of what was found among all but the first. */
  lemma RestOfRows(cfg: Config, me: int, rows: seq<StockRow>, tick: int, item: int, row: int, at: seq<nat>,
          messages: seq<Message>)
    requires rows != [] && Orders(cfg, me, rows[1..], tick, item, row + 1, at, messages)
    ensures Rising(Shifted(at), |rows|)
    ensures forall i :: 1 <= i < |rows| ==> (i in Shifted(at) <==> exists supplier :: Needs(cfg, rows[i], supplier))
    ensures forall n :: 0 <= n < |at| ==>
              Restocks(cfg, me, rows[Shifted(at)[n]], tick, item, row + Shifted(at)[n], messages[n])
  {
    hide Needs, Restocks;
    forall i | 1 <= i < |rows| ensures i in Shifted(at) <==> exists supplier :: Needs(cfg, rows[i], supplier) {
      ShiftedHas(at, i);
      assert rows[i] == rows[1..][i - 1];
    }
    forall n | 0 <= n < |at| ensures Restocks(cfg, me, rows[Shifted(at)[n]], tick, item, row + Shifted(at)[n], messages[n]) {
      assert rows[at[n] + 1] == rows[1..][at[n]];
      assert row + 1 + at[n] == row + Shifted(at)[n];
    }
  }

  lemma SkipRow(cfg: Config, me: int, rows: seq<StockRow>, tick: int, item: int, row: int, at: seq<nat>,
          messages: seq<Message>)
    requires rows != [] && forall supplier :: !Needs(cfg, rows[0], supplier)
    requires Orders(cfg, me, rows[1..], tick, item, row + 1, at, messages)
    ensures Orders(cfg, me, rows, tick, item, row, Shifted(at), messages)
  {
    hide Needs, Restocks;
    RestOfRows(cfg, me, rows, tick, item, row, at, messages);
    ShiftedHas(at, 0);
  }

  lemma TakeRow(cfg: Config, me: int, rows: seq<StockRow>, tick: int, item: int, row: int, at: seq<nat>,
          messages: seq<Message>, m: Message)
    requires rows != [] && Restocks(cfg, me, rows[0], tick, item, row, m)
    requires Orders(cfg, me, rows[1..], tick, item, row + 1, at, messages)
    ensures Orders(cfg, me, rows, tick, item, row, [0] + Shifted(at), [m] + messages)
  {
    assert Needs(cfg, rows[0], m.to);
    hide Needs, Restocks, Rising;
    RestOfRows(cfg, me, rows, tick, item, row, at, messages);
    var later := Shifted(at);
    Led(later, |rows|);
    var all, ms := [0] + later, [m] + messages;
    forall n | 0 <= n < |all| ensures all[n] < |rows| && Restocks(cfg, me, rows[all[n]], tick, item, row + all[n], ms[n]) {
      AnyRow(cfg, me, rows, tick, item, row, later, messages, m, n);
    }
  }

  lemma AnyRow(cfg: Config, me: int, rows: seq<StockRow>, tick: int, item: int, row: int, later: seq<nat>,
          messages: seq<Message>, m: Message, n: nat)
    requires rows != [] && Restocks(cfg, me, rows[0], tick, item, row, m) && Rising(later, |rows|)
    requires |messages| == |later| && n <= |later|
    requires forall j :: 0 <= j < |later| ==> Restocks(cfg, me, rows[later[j]], tick, item, row + later[j], messages[j])
    ensures var i := ([0] + later)[n];
            i < |rows| && Restocks(cfg, me, rows[i], tick, item, row + i, ([m] + messages)[n])
  {
    hide Restocks;
    if n > 0 {
      assert ([0] + later)[n] == later[n - 1] && ([m] + messages)[n] == messages[n - 1];
    }
  }

  /** The note of the first message is kept by the others, as theirs are under other ids. */
  lemma RecordedOnce(before: map<Seller.RestockKey, Seller.RestockEntry>,
          after: map<Seller.RestockKey, Seller.RestockEntry>, messages: seq<Message>, m: Message)
    requires m.payload.RestockOrder? && forall x :: x in messages ==> !Notes(x, Seller.Uuid(m.payload.id))
    requires Recorded(before[Seller.Uuid(m.payload.id) := Seller.RestockEntry(m.payload.sku, m.payload.qty, m.to, false)],
                      after, messages)
    ensures Recorded(before, after, [m] + messages)
  {
    var ms := [m] + messages;
    assert m in ms && Notes(m, Seller.Uuid(m.payload.id));
    forall key ensures key in after <==> key in before || exists x :: x in ms && Notes(x, key) {
      if x :| x in messages && Notes(x, key) {
        assert x in ms;
      }
    }
    forall key | key in before && (forall x :: x in ms ==> !Notes(x, key)) ensures after[key] == before[key] {
      assert forall x :: x in messages ==> x in ms;
    }
  }

  lemma RowsDone(cfg: Config, me: int, st: Seller.State, tick: int, item: int, row: int)
    ensures Seller.RestockRows(cfg, me, st, [], tick, item, row) == (st, [])
  {
  }

  lemma NoneRecorded(restocks: map<Seller.RestockKey, Seller.RestockEntry>)
    ensures Recorded(restocks, restocks, [])
  {
  }

  lemma OneRecorded(before: map<Seller.RestockKey, Seller.RestockEntry>, m: Message)
    requires m.payload.RestockOrder?
    ensures var entry := Seller.RestockEntry(m.payload.sku, m.payload.qty, m.to, false);
            Recorded(before, before[Seller.Uuid(m.payload.id) := entry], [m])
  {
    var after := before[Seller.Uuid(m.payload.id) := Seller.RestockEntry(m.payload.sku, m.payload.qty, m.to, false)];
    NoneRecorded(after);
    RecordedOnce(before, after, [], m);
    assert [m] + [] == [m];
  }

  /**
   * The rows of a stock result lead to just the restock orders that they need: one of fifty pieces for each row
   * with less than ten, if its SKU has a supplier, in the order of the rows; and just these go on record.
   */
  lemma {:induction false} RowsReplenish(cfg: Config, me: int, st: Seller.State, rows: seq<StockRow>, tick: int, item: int,
          row: int) returns (at: seq<nat>)
    ensures var (st1, messages) := Seller.RestockRows(cfg, me, st, rows, tick, item, row);
            && st1 == st.(restocks := st1.restocks)
            && Orders(cfg, me, rows, tick, item, row, at, messages) && Recorded(st.restocks, st1.restocks, messages)
    decreases |rows|
  {
    hide Orders, Recorded, Chosen, SupplierOf;
    if rows == [] {
      at := [];
      NoRows(cfg, me, tick, item, row, st.restocks);
    } else {
      var line, choice := rows[0], SupplierOf(cfg, rows[0].sku);
      forall supplier ensures Needs(cfg, line, supplier) <==> line.qty < 10 && choice == Some(supplier) {
        ChosenIs(cfg, line.sku, Some(supplier));
      }
      if line.qty < 10 && choice.Some? {
        var m := Message(me, choice.value, tick, RestockOrder(RestockId(me, tick, item, row, line.sku), line.sku, 50, me));
        var entry := Seller.RestockEntry(line.sku, 50, choice.value, false);
        var st1 := st.(restocks := st.restocks[Seller.Uuid(m.payload.id) := entry]);
        var later := RowsReplenish(cfg, me, st1, rows[1..], tick, item, row + 1);
        var (st2, ms) := Seller.RestockRows(cfg, me, st1, rows[1..], tick, item, row + 1);
        at := [0] + Shifted(later);
        TakeRow(cfg, me, rows, tick, item, row, later, ms, m);
        LaterRows(cfg, me, rows[1..], tick, item, row + 1, later, ms, m.payload.id);
        RecordedOnce(st.restocks, st2.restocks, ms, m);
      } else {
        var later := RowsReplenish(cfg, me, st, rows[1..], tick, item, row + 1);
        var (st2, ms) := Seller.RestockRows(cfg, me, st, rows[1..], tick, item, row + 1);
        at := Shifted(later);
        SkipRow(cfg, me, rows, tick, item, row, later, ms);
      }
    }
  }

  lemma NoRows(cfg: Config, me: int, tick: int, item: int, row: int, restocks: map<Seller.RestockKey, Seller.RestockEntry>)
    ensures Orders(cfg, me, [], tick, item, row, [], []) && Recorded(restocks, restocks, [])
  {
  }

  /** What the review of a stock result comes to: its restock orders, in one event if there are any. */
  ghost predicate Reviewed(cfg: Config, me: int, data: Data, tick: int, item: int,
                           before: map<Seller.RestockKey, Seller.RestockEntry>,
                           after: map<Seller.RestockKey, Seller.RestockEntry>, events: seq<Event>)
  {
    var rows := if data.Levels? then data.stock else [];
    exists at, messages ::
      && Orders(cfg, me, rows, tick, item, 0, at, messages)
      && Recorded(before, after, messages)
      && events == if messages == [] then [] else [Event(StoreRestockInitiated, me, tick, [], messages, [])]
  }

  lemma LevelsReviewed(cfg: Config, me: int, st: Seller.State, data: Data, tick: int, item: int)
    ensures var (st1, events) := Seller.OnInventoryLevels(cfg, me, st, data, tick, item);
            st1 == st.(restocks := st1.restocks) && Reviewed(cfg, me, data, tick, item, st.restocks, st1.restocks, events)
  {
    hide Orders, Recorded;
    var at := RowsReplenish(cfg, me, st, Seller.StockRows(data), tick, item, 0);
  }

  // -------------------------------------------------------------- messages

  /** What is sent on a payment: a ship request to the payer if there is a carrier, then a report if there is a government. */
  ghost predicate Passes(cfg: Config, me: int, o: Seller.Order, number: int, amount: real, payer: int, tick: int,
                         messages: seq<Message>)
  {
    var ship := ShipRequest(Some(number), None, me, payer, o.sku, o.qty, ConsumerOrder);
    var report := OrderReport(number, me, o.sku, o.qty, amount);
    match (cfg.transport, cfg.government)
    case (None, None) => messages == []
    case (Some(t), None) => messages == if t != 0 then [Message(me, t, tick, ship)] else []
    case (None, Some(g)) => messages == if g != 0 then [Message(me, g, tick, report)] else []
    case (Some(t), Some(g)) =>
      if t != 0 && g != 0 then messages == [Message(me, t, tick, ship), Message(me, g, tick, report)]
      else if t != 0 then messages == [Message(me, t, tick, ship)]
      else if g != 0 then messages == [Message(me, g, tick, report)]
      else messages == []
  }

  lemma PaymentPasses(cfg: Config, me: int, o: Seller.Order, number: int, amount: real, payer: int, tick: int)
    ensures Passes(cfg, me, o, number, amount, payer, tick, Seller.PaymentMessages(cfg, me, o, number, amount, payer, tick))
  {
  }

  /** The n-th known order is the first that has the store order number of the reference. */
  ghost predicate FirstWith(orders: map<OrderId, Seller.Order>, ids: seq<OrderId>, ref: Ref, n: int) {
    && 0 <= n < |ids| && ids[n] in orders && ref == StoreRef(orders[ids[n]].number)
    && forall j :: 0 <= j < n && ids[j] in orders ==> ref != StoreRef(orders[ids[j]].number)
  }

  lemma {:induction false} FindsFirst(st: Seller.State, ids: seq<OrderId>, ref: Ref)
    ensures match Seller.Find(st, ids, ref)
            case None => forall n :: !FirstWith(st.orders, ids, ref, n)
            case Some(rid) => exists n :: 0 <= n < |ids| && FirstWith(st.orders, ids, ref, n) && ids[n] == rid
  {
    if ids != [] {
      if ids[0] in st.orders && StoreRef(st.orders[ids[0]].number) == ref {
        assert FirstWith(st.orders, ids, ref, 0);
      } else {
        FindsFirst(st, ids[1..], ref);
        var rest := ids[1..];
        if Seller.Find(st, rest, ref).Some? {
          var n :| 0 <= n < |rest| && FirstWith(st.orders, rest, ref, n) && rest[n] == Seller.Find(st, rest, ref).value;
          assert ids[n + 1] == rest[n];
        }
        forall n ensures FirstWith(st.orders, rest, ref, n) ==> FirstWith(st.orders, ids, ref, n + 1) {
          forall j | FirstWith(st.orders, rest, ref, n) && 0 <= j < n + 1 && ids[j] in st.orders
            ensures ref != StoreRef(st.orders[ids[j]].number)
          {
            assert j > 0 ==> ids[j] == rest[j - 1];
          }
        }
        forall n ensures FirstWith(st.orders, ids, ref, n) ==> n > 0 && FirstWith(st.orders, rest, ref, n - 1) {
          forall j | FirstWith(st.orders, ids, ref, n) && 0 <= j < n - 1 && rest[j] in st.orders
            ensures ref != StoreRef(st.orders[rest[j]].number)
          {
            assert ids[j + 1] == rest[j];
          }
        }
      }
    }
  }

  /** What a message makes of the seller's books, and what is sent and written on it. */
  ghost predicate Handles(cfg: Config, me: int, st: Seller.State, m: Message, tick: int, item: int, st1: Seller.State,
                          events: seq<Event>)
  {
    match m.payload
    case PlaceOrder(rid, sku, qty, price) =>
      var id := QueryId(me, tick, item, InventoryCheck(rid));
      && st1 == st.(incoming := st.incoming[rid := Seller.Incoming(sku, qty, m.from, price)],
                    queries := st.queries[id := Pending(InventoryCheck(rid), tick)])
      && events == [Event(QueryRequested, me, tick, [], [], [Request(id, me, tick)])]
    case Payment(rid, number, amount) =>
      if rid in st.orders && st.orders[rid].status == Accepted then
        && st1 == st.(orders := st.orders[rid := st.orders[rid].(status := Paid)])
        && |events| == 1 && Passes(cfg, me, st.orders[rid], number, amount, m.from, tick, events[0].messages)
        && events == [Event(StorePaymentReceived, me, tick, [InsertPaymentLog(number, amount, m.from, tick)], events[0].messages, [])]
      else st1 == st && events == []
    case CancelRequest(rid) =>
      if rid !in st.orders then st1 == st && events == []
      else if st.orders[rid].status == Accepted then
        var o := st.orders[rid];
        && st1 == st.(orders := st.orders[rid := o.(status := Cancelled)])
        && events == [Event(StoreOrderCancelled, me, tick, [UpdateStoreOrder(rid, Cancelled), UpdateInventory(o.sku, o.qty)],
                            [Message(me, m.from, tick, CancelConfirmed(rid))], [])]
      else
        && st1 == st
        && events == [Event(StoreCancelRejected, me, tick, [], [Message(me, m.from, tick, CancelRejected(rid))], [])]
    case DeliveryComplete(ref, shipment, freight) =>
      if freight == ConsumerOrder && exists n :: FirstWith(st.orders, st.orderIds, ref, n) then
        exists n :: 0 <= n < |st.orderIds| && FirstWith(st.orders, st.orderIds, ref, n)
                    && Notified(me, st, st.orderIds[n], shipment, tick, st1, events)
      else st1 == st && events == []
    case RestockDelivered(id, sku, qty) =>
      && st1 == st.(restocks := st1.restocks) && st1.restocks.Keys == st.restocks.Keys
      && (forall key :: key in st.restocks ==>
            st1.restocks[key] == if key == Seller.Text(id) then st.restocks[key].(received := true) else st.restocks[key])
      && events == [Event(StoreInventoryUpdate, me, tick, [UpdateInventory(sku, qty)], [], [])]
    case _ => st1 == st && events == []
  }

  /** The order is delivered, and its consumer is told. */
  ghost predicate Notified(me: int, st: Seller.State, rid: OrderId, shipment: ShipmentId, tick: int, st1: Seller.State,
                           events: seq<Event>)
  {
    && rid in st.orders && st1 == st.(orders := st.orders[rid := st.orders[rid].(status := Delivered)])
    && events == [Event(StoreDeliveryConfirmed, me, tick, [],
                        [Message(me, st.orders[rid].consumer, tick,
                                 ShipmentNotification(rid, st.orders[rid].number, shipment))], [])]
  }

  lemma MessageHandled(cfg: Config, me: int, st: Seller.State, m: Message, tick: int, item: int)
    ensures var (st1, events) := Seller.OnMessage(cfg, me, st, m, tick, item);
            Handles(cfg, me, st, m, tick, item, st1, events)
  {
    hide Passes, Seller.PaymentMessages, FirstWith, Seller.Find;
    match m.payload
    case Payment(rid, number, amount) =>
      if rid in st.orders {
        PaymentPasses(cfg, me, st.orders[rid], number, amount, m.from, tick);
      }
    case DeliveryComplete(ref, shipment, freight) =>
      FindsFirst(st, st.orderIds, ref);
      if Seller.Find(st, st.orderIds, ref).Some? {
        FirstIsKnown(st, ref);
      }
    case _ =>
  }

  lemma FirstIsKnown(st: Seller.State, ref: Ref)
    ensures forall n :: FirstWith(st.orders, st.orderIds, ref, n) ==> 0 <= n < |st.orderIds| && st.orderIds[n] in st.orders
  {
  }

  /** An inventory check lets a waiting order in, whatever its result is. */
  ghost predicate LetsIn(cfg: Config, me: int, st: Seller.State, rid: OrderId, tick: int, st1: Seller.State, events: seq<Event>) {
    if rid !in st.incoming then st1 == st && events == []
    else
      var o, number := st.incoming[rid], cfg.hash(rid) % 100_000_000;
      && st1 == st.(incoming := st.incoming - {rid},
                    orders := st.orders[rid := Seller.Order(o.sku, o.qty, o.consumer, o.price, number, Accepted)],
                    orderIds := if rid in st.orders then st.orderIds else st.orderIds + [rid])
      && events == [Event(StoreOrderAccepted, me, tick,
                          [InsertStoreOrder(rid, o.sku, o.qty, o.price, o.consumer), UpdateInventory(o.sku, -o.qty)],
                          [Message(me, o.consumer, tick, OrderAccepted(rid, number, o.price))], [])]
  }

  lemma CheckLetsIn(cfg: Config, me: int, st: Seller.State, rid: OrderId, tick: int)
    ensures var (st1, events) := Seller.OnInventoryCheck(cfg, me, st, rid, tick); LetsIn(cfg, me, st, rid, tick, st1, events)
  {
  }
}
