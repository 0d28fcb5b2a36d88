/** What a consumer's handlers decide on query results, said of the results, the profile and the draws alone. */
module ConsumerRules {
  import opened Seqs
  import opened Messages
  import opened Settings
  import Consumer

  type Pendings = map<OrderId, Consumer.Order>

  // -------------------------------------------------------------- the order history

  /** Row i of a history result asks for the cancellation of its order: late, requested, and drawn. */
  predicate Regretted(cfg: Config, me: int, rows: seq<HistoryRow>, tick: int, item: int, row: int, i: nat)
    requires i < |rows|
  {
    rows[i].late && rows[i].requested && cfg.cancels(me, tick, item, row + i)
  }

  /** Some row asks for the cancellation of the order. */
  ghost predicate Unwanted(cfg: Config, me: int, rows: seq<HistoryRow>, tick: int, item: int, row: int, rid: OrderId) {
    exists i :: 0 <= i < |rows| && rows[i].rid == rid && Regretted(cfg, me, rows, tick, item, row, i)
  }

  /** The request to cancel a pending order, to the seller it was placed with, and its log entry. */
  predicate AsksToCancel(me: int, pending: Pendings, rid: OrderId, tick: int, e: Event) {
    && rid in pending
    && e == Event(ConsumerStatusUpdate, me, tick, [UpdateConsumerOrder(rid, CancelRequested)],
                  [Message(me, pending[rid].seller, tick, CancelRequest(rid))], [])
  }

  /** `at` lists just the rows that ask for the cancellation of a pending order; there is one event for each. */
  ghost predicate Requests(cfg: Config, me: int, pending: Pendings, rows: seq<HistoryRow>, tick: int, item: int, row: int,
                           at: seq<nat>, events: seq<Event>)
  {
    && Rising(at, |rows|) && |events| == |at|
    && (forall i :: 0 <= i < |rows| ==>
          (i in at <==> Regretted(cfg, me, rows, tick, item, row, i) && rows[i].rid in pending))
    && (forall n :: 0 <= n < |at| ==> AsksToCancel(me, pending, rows[at[n]].rid, tick, events[n]))
  }

  /** Just the orders whose cancellation is asked for change, and only in their status. */
  ghost predicate Marked(cfg: Config, me: int, before: Pendings, after: Pendings, rows: seq<HistoryRow>, tick: int, item: int,
                         row: int)
  {
    && after.Keys == before.Keys
    && forall rid :: rid in before ==>
         after[rid] == if Unwanted(cfg, me, rows, tick, item, row, rid) then before[rid].(status := CancelRequested)
                       else before[rid]
  }

  lemma SamePlace(cfg: Config, me: int, rows: seq<HistoryRow>, tick: int, item: int, row: int, i: nat)
    requires 1 <= i < |rows|
    ensures rows[1..][i - 1] == rows[i]
    ensures Regretted(cfg, me, rows[1..], tick, item, row + 1, i - 1) == Regretted(cfg, me, rows, tick, item, row, i)
  {
    assert row + 1 + (i - 1) == row + i;
  }

  lemma UnwantedHead(cfg: Config, me: int, rows: seq<HistoryRow>, tick: int, item: int, row: int, rid: OrderId)
    requires rows != []
    ensures Unwanted(cfg, me, rows, tick, item, row, rid) <==>
              (rows[0].rid == rid && Regretted(cfg, me, rows, tick, item, row, 0))
              || Unwanted(cfg, me, rows[1..], tick, item, row + 1, rid)
  {
    hide Regretted;
    if Unwanted(cfg, me, rows, tick, item, row, rid) {
      var i :| 0 <= i < |rows| && rows[i].rid == rid && Regretted(cfg, me, rows, tick, item, row, i);
      if i > 0 {
        SamePlace(cfg, me, rows, tick, item, row, i);
      }
    }
    if Unwanted(cfg, me, rows[1..], tick, item, row + 1, rid) {
      var i :| 0 <= i < |rows[1..]| && rows[1..][i].rid == rid && Regretted(cfg, me, rows[1..], tick, item, row + 1, i);
      SamePlace(cfg, me, rows, tick, item, row, i + 1);
    }
  }

  lemma RestOfHistory(cfg: Config, me: int, pending: Pendings, rows: seq<HistoryRow>, tick: int, item: int, row: int,
          at: seq<nat>, events: seq<Event>)
    requires rows != [] && Requests(cfg, me, pending, rows[1..], tick, item, row + 1, at, events)
    ensures Rising(Shifted(at), |rows|) && 0 !in Shifted(at)
    ensures forall i :: 1 <= i < |rows| ==>
              (i in Shifted(at) <==> Regretted(cfg, me, rows, tick, item, row, i) && rows[i].rid in pending)
    ensures forall n :: 0 <= n < |at| ==> AsksToCancel(me, pending, rows[Shifted(at)[n]].rid, tick, events[n])
  {
    hide Regretted, AsksToCancel;
    ShiftedHas(at, 0);
    forall i | 1 <= i < |rows|
      ensures i in Shifted(at) <==> Regretted(cfg, me, rows, tick, item, row, i) && rows[i].rid in pending
    {
      ShiftedHas(at, i);
      SamePlace(cfg, me, rows, tick, item, row, i);
    }
    forall n | 0 <= n < |at| ensures AsksToCancel(me, pending, rows[Shifted(at)[n]].rid, tick, events[n]) {
      assert rows[at[n] + 1] == rows[1..][at[n]];
    }
  }

  lemma SkipHistory(cfg: Config, me: int, pending: Pendings, rows: seq<HistoryRow>, tick: int, item: int, row: int,
          at: seq<nat>, events: seq<Event>)
    requires rows != [] && Requests(cfg, me, pending, rows[1..], tick, item, row + 1, at, events)
    requires !Regretted(cfg, me, rows, tick, item, row, 0) || rows[0].rid !in pending
    ensures Requests(cfg, me, pending, rows, tick, item, row, Shifted(at), events)
  {
    hide Regretted, AsksToCancel, Rising;
    RestOfHistory(cfg, me, pending, rows, tick, item, row, at, events);
  }

  lemma TakeHistory(cfg: Config, me: int, pending: Pendings, rows: seq<HistoryRow>, tick: int, item: int, row: int,
          at: seq<nat>, events: seq<Event>, e: Event)
    requires rows != [] && Requests(cfg, me, pending, rows[1..], tick, item, row + 1, at, events)
    requires Regretted(cfg, me, rows, tick, item, row, 0) && AsksToCancel(me, pending, rows[0].rid, tick, e)
    ensures Requests(cfg, me, pending, rows, tick, item, row, [0] + Shifted(at), [e] + events)
  {
    assert rows[0].rid in pending;
    hide Regretted, AsksToCancel, Rising;
    RestOfHistory(cfg, me, pending, rows, tick, item, row, at, events);
    var later, all := Shifted(at), [0] + Shifted(at);
    Led(later, |rows|);
    forall n | 0 <= n < |all| ensures all[n] < |rows| && AsksToCancel(me, pending, rows[all[n]].rid, tick, ([e] + events)[n]) {
      AnyRequest(me, pending, rows, tick, later, events, e, n);
    }
  }

  lemma AnyRequest(me: int, pending: Pendings, rows: seq<HistoryRow>, tick: int, later: seq<nat>, events: seq<Event>,
          e: Event, n: nat)
    requires rows != [] && Rising(later, |rows|) && |events| == |later| && n <= |later|
    requires AsksToCancel(me, pending, rows[0].rid, tick, e)
    requires forall j :: 0 <= j < |later| ==> AsksToCancel(me, pending, rows[later[j]].rid, tick, events[j])
    ensures var i := ([0] + later)[n];
            i < |rows| && AsksToCancel(me, pending, rows[i].rid, tick, ([e] + events)[n])
  {
    hide AsksToCancel;
    if n > 0 {
      assert ([0] + later)[n] == later[n - 1] && ([e] + events)[n] == events[n - 1];
    }
  }

  /** Asking again for an order whose status has changed is the same request. */
  lemma SameRequests(cfg: Config, me: int, before: Pendings, after: Pendings, rows: seq<HistoryRow>, tick: int, item: int,
          row: int, at: seq<nat>, events: seq<Event>)
    requires after.Keys == before.Keys && forall rid :: rid in before ==> after[rid].seller == before[rid].seller
    requires Requests(cfg, me, after, rows, tick, item, row, at, events)
    ensures Requests(cfg, me, before, rows, tick, item, row, at, events)
  {
    hide Regretted;
    forall i | 0 <= i < |rows| ensures rows[i].rid in after <==> rows[i].rid in before {
      assert rows[i].rid in after.Keys <==> rows[i].rid in before.Keys;
    }
    forall n | 0 <= n < |at| ensures AsksToCancel(me, before, rows[at[n]].rid, tick, events[n]) {
      assert AsksToCancel(me, after, rows[at[n]].rid, tick, events[n]);
      assert rows[at[n]].rid in after.Keys;
    }
  }

  lemma MarkSkipped(cfg: Config, me: int, before: Pendings, after: Pendings, rows: seq<HistoryRow>, tick: int, item: int,
          row: int)
    requires rows != [] && Marked(cfg, me, before, after, rows[1..], tick, item, row + 1)
    requires !Regretted(cfg, me, rows, tick, item, row, 0) || rows[0].rid !in before
    ensures Marked(cfg, me, before, after, rows, tick, item, row)
  {
    hide Regretted, Unwanted;
    forall rid | rid in before
      ensures Unwanted(cfg, me, rows, tick, item, row, rid) == Unwanted(cfg, me, rows[1..], tick, item, row + 1, rid)
    {
      UnwantedHead(cfg, me, rows, tick, item, row, rid);
    }
  }

  lemma MarkTaken(cfg: Config, me: int, before: Pendings, after: Pendings, rows: seq<HistoryRow>, tick: int, item: int,
          row: int)
    requires rows != [] && rows[0].rid in before && Regretted(cfg, me, rows, tick, item, row, 0)
    requires var marked := before[rows[0].rid := before[rows[0].rid].(status := CancelRequested)];
             Marked(cfg, me, marked, after, rows[1..], tick, item, row + 1)
    ensures Marked(cfg, me, before, after, rows, tick, item, row)
  {
    hide Regretted, Unwanted;
    var marked := before[rows[0].rid := before[rows[0].rid].(status := CancelRequested)];
    assert marked.Keys == before.Keys;
    forall rid | rid in before
      ensures after[rid] == if Unwanted(cfg, me, rows, tick, item, row, rid) then before[rid].(status := CancelRequested)
                            else before[rid]
    {
      assert rid in marked;
      UnwantedHead(cfg, me, rows, tick, item, row, rid);
    }
  }

  /**
   * A history result leads to just the requests to cancel that it asks for: one for each row of a pending order
   * that is late, is still requested, and whose draw succeeds; and just those orders are marked.
   */
  lemma {:induction false} HistoryDecides(cfg: Config, me: int, st: Consumer.State, rows: seq<HistoryRow>, tick: int,
          item: int, row: int) returns (at: seq<nat>)
    ensures var (st1, events) := Consumer.CancelRows(cfg, me, st, rows, tick, item, row);
            && st1 == st.(pending := st1.pending)
            && Requests(cfg, me, st.pending, rows, tick, item, row, at, events)
            && Marked(cfg, me, st.pending, st1.pending, rows, tick, item, row)
    decreases |rows|
  {
    hide Requests, Marked;
    if rows == [] {
      at := [];
      NoHistory(cfg, me, st.pending, tick, item, row);
    } else {
      var rid := rows[0].rid;
      if Regretted(cfg, me, rows, tick, item, row, 0) && rid in st.pending {
        var st1 := st.(pending := st.pending[rid := st.pending[rid].(status := CancelRequested)]);
        var later := HistoryDecides(cfg, me, st1, rows[1..], tick, item, row + 1);
        var (st2, events) := Consumer.CancelRows(cfg, me, st1, rows[1..], tick, item, row + 1);
        var e := Event(ConsumerStatusUpdate, me, tick, [UpdateConsumerOrder(rid, CancelRequested)],
                       [Message(me, st.pending[rid].seller, tick, CancelRequest(rid))], []);
        assert st1.pending.Keys == st.pending.Keys;
        SameRequests(cfg, me, st.pending, st1.pending, rows[1..], tick, item, row + 1, later, events);
        TakeHistory(cfg, me, st.pending, rows, tick, item, row, later, events, e);
        MarkTaken(cfg, me, st.pending, st2.pending, rows, tick, item, row);
        at := [0] + Shifted(later);
      } else {
        var later := HistoryDecides(cfg, me, st, rows[1..], tick, item, row + 1);
        var (st2, events) := Consumer.CancelRows(cfg, me, st, rows[1..], tick, item, row + 1);
        assert [] + events == events;
        SkipHistory(cfg, me, st.pending, rows, tick, item, row, later, events);
        MarkSkipped(cfg, me, st.pending, st2.pending, rows, tick, item, row);
        at := Shifted(later);
      }
    }
  }

  lemma NoHistory(cfg: Config, me: int, pending: Pendings, tick: int, item: int, row: int)
    ensures Requests(cfg, me, pending, [], tick, item, row, [], []) && Marked(cfg, me, pending, pending, [], tick, item, row)
  {
  }

  lemma {:induction false} MsgsOfEach(events: seq<Event>, m: Message)
    ensures m in Msgs(events) <==> exists e :: e in events && m in e.messages
  {
    if events != [] {
      MsgsOfEach(events[1..], m);
      if m in events[0].messages {
        assert events[0] in events;
      }
      if e :| e in events[1..] && m in e.messages {
        assert e in events;
      }
    }
  }

  /** The messages of a history result are the requests to cancel pending orders that some row asks for, and no others. */
  lemma RequestsSent(cfg: Config, me: int, pending: Pendings, rows: seq<HistoryRow>, tick: int, item: int, row: int,
          at: seq<nat>, events: seq<Event>, m: Message)
    requires Requests(cfg, me, pending, rows, tick, item, row, at, events)
    ensures m in Msgs(events) <==>
              && m.payload.CancelRequest? && m.payload.rid in pending
              && Unwanted(cfg, me, rows, tick, item, row, m.payload.rid)
              && m == Message(me, pending[m.payload.rid].seller, tick, CancelRequest(m.payload.rid))
  {
    hide Regretted;
    MsgsOfEach(events, m);
    if m in Msgs(events) {
      var e :| e in events && m in e.messages;
      var n :| 0 <= n < |events| && events[n] == e;
      assert at[n] in at;
      assert AsksToCancel(me, pending, rows[at[n]].rid, tick, events[n]);
    }
    if m.payload.CancelRequest? && m.payload.rid in pending && Unwanted(cfg, me, rows, tick, item, row, m.payload.rid)
       && m == Message(me, pending[m.payload.rid].seller, tick, CancelRequest(m.payload.rid)) {
      var i :| 0 <= i < |rows| && rows[i].rid == m.payload.rid && Regretted(cfg, me, rows, tick, item, row, i);
      var n :| 0 <= n < |at| && at[n] == i;
      assert AsksToCancel(me, pending, rows[at[n]].rid, tick, events[n]);
      assert events[n] in events && events[n].messages[0] in events[n].messages;
    }
  }

  /** What a history result comes to, with requests exactly where they are asked for. */
  ghost predicate Reconsidered(cfg: Config, me: int, data: Data, tick: int, item: int, before: Pendings, after: Pendings,
                               events: seq<Event>)
  {
    var rows := if data.History? then data.rows else [];
    && (exists at :: Requests(cfg, me, before, rows, tick, item, 0, at, events))
    && Marked(cfg, me, before, after, rows, tick, item, 0)
    && forall m :: m in Msgs(events) <==>
         && m.payload.CancelRequest? && m.payload.rid in before && Unwanted(cfg, me, rows, tick, item, 0, m.payload.rid)
         && m == Message(me, before[m.payload.rid].seller, tick, CancelRequest(m.payload.rid))
  }

  lemma HistoryReconsidered(cfg: Config, me: int, st: Consumer.State, data: Data, tick: int, item: int)
    ensures var (st1, events) := Consumer.CancelRows(cfg, me, st, Consumer.HistoryRows(data), tick, item, 0);
            st1 == st.(pending := st1.pending) && Reconsidered(cfg, me, data, tick, item, st.pending, st1.pending, events)
  {
    hide Requests, Marked, Unwanted;
    var rows := Consumer.HistoryRows(data);
    var at := HistoryDecides(cfg, me, st, rows, tick, item, 0);
    var events := Consumer.CancelRows(cfg, me, st, rows, tick, item, 0).1;
    forall m
      ensures m in Msgs(events) <==>
                && m.payload.CancelRequest? && m.payload.rid in st.pending
                && Unwanted(cfg, me, rows, tick, item, 0, m.payload.rid)
                && m == Message(me, st.pending[m.payload.rid].seller, tick, CancelRequest(m.payload.rid))
    {
      RequestsSent(cfg, me, st.pending, rows, tick, item, 0, at, events, m);
    }
  }

  // -------------------------------------------------------------- product details

  /** The price and the review of a result, with the code's defaults. */
  function PriceOf(data: Data): real {
    if data.Product? && data.price.Some? then data.price.value else 100.0
  }

  function ReviewOf(data: Data): real {
    if data.Product? && data.review.Some? then data.review.value else 4.0
  }

  /** A draw falls below a chance that is cut off at 0 and 1. */
  predicate Below(roll: real, chance: real) {
    (roll < chance && roll < 1.0) || roll < 0.0
  }

  /** The product goes to the cart: the draw falls below (1 - (price - base) / base * sensitivity) * min(review / 4, 1). */
  predicate Tempted(cfg: Config, me: int, sku: int, data: Data, tick: int, item: int) {
    var base := cfg.basePrice(sku);
    var ratio := (PriceOf(data) - base) / base;
    var factor := if ReviewOf(data) / 4.0 > 1.0 then 1.0 else ReviewOf(data) / 4.0;
    Below(cfg.roll(me, tick, item, CartRoll), (1.0 - ratio * cfg.sensitivity(me)) * factor)
  }

  predicate Urgent(cfg: Config, me: int, category: string, tick: int, item: int) {
    cfg.roll(me, tick, item, PurchaseRoll) < cfg.urgency(me, category) * 0.75
  }

  /** One piece is ordered at the given price: as a new pending order, in the log, and of the seller. */
  predicate Orders(me: int, before: Pendings, after: Pendings, sku: int, price: real, seller: int, tick: int, item: int,
                   events: seq<Event>)
  {
    var rid := OrderId(me, tick, item);
    && after == before[rid := Consumer.Order(sku, 1, price, seller, Requested, None)]
    && events == [Event(PurchaseIntent, me, tick, [InsertConsumerOrder(rid, sku, 1, seller, price)],
                        [Message(me, seller, tick, PlaceOrder(rid, sku, 1, price))], [])]
  }

  /** A seller of the SKU in the catalog, or any of 1 to 10 if there is none. */
  predicate Sells(cfg: Config, sku: int, seller: int) {
    if cfg.sellersOf(sku) != [] then seller in cfg.sellersOf(sku) else 1 <= seller <= 10
  }

  /** What the details of a product come to: a cart line at the price found, and an order at that price. */
  ghost predicate Shops(cfg: Config, me: int, sku: int, category: string, data: Data, tick: int, item: int,
                        st: Consumer.State, st1: Consumer.State, events: seq<Event>)
  {
    && st1 == st.(cart := st1.cart, pending := st1.pending)
    && st1.cart == st.cart + (if Tempted(cfg, me, sku, data, tick, item)
                              then [Consumer.CartLine(sku, category, PriceOf(data))] else [])
    && if Tempted(cfg, me, sku, data, tick, item) && Urgent(cfg, me, category, tick, item)
       then exists seller :: Sells(cfg, sku, seller)
                             && Orders(me, st.pending, st1.pending, sku, PriceOf(data), seller, tick, item, events)
       else st1.pending == st.pending && events == []
  }

  lemma InList<T>(xs: seq<T>, i: int)
    requires 0 <= i < |xs|
    ensures xs[i] in xs
  {
  }

  lemma SellerSells(cfg: Config, me: int, sku: int, tick: int, item: int)
    ensures Sells(cfg, sku, Consumer.ChosenSeller(cfg, me, sku, tick, item))
  {
    var sellers := cfg.sellersOf(sku);
    if sellers != [] {
      InList(sellers, cfg.pick(me, tick, item) % |sellers|);
    }
  }

  lemma CartIsTempted(cfg: Config, me: int, sku: int, data: Data, tick: int, item: int)
    ensures cfg.roll(me, tick, item, CartRoll)
              < Consumer.CartChance(cfg, me, sku, Consumer.OfferedPrice(data), Consumer.Review(data))
            <==> Tempted(cfg, me, sku, data, tick, item)
  {
    var base := cfg.basePrice(sku);
    var ratio := (PriceOf(data) - base) / base;
    var factor := if ReviewOf(data) / 4.0 > 1.0 then 1.0 else ReviewOf(data) / 4.0;
    assert ratio == Consumer.PriceRatio(cfg, sku, Consumer.OfferedPrice(data));
    assert factor == Consumer.ReviewFactor(Consumer.Review(data));
    hide Consumer.PriceRatio, Consumer.ReviewFactor;
    var appeal := Consumer.Appeal(cfg, me, sku, Consumer.OfferedPrice(data), Consumer.Review(data));
    assert appeal == (1.0 - ratio * cfg.sensitivity(me)) * factor;
    hide Consumer.Appeal;
  }

  /** An order is placed at the price that the query brought, for the product asked about, and put in the cart. */
  lemma DetailsShop(cfg: Config, me: int, st: Consumer.State, sku: int, category: string, data: Data, tick: int, item: int)
    ensures var (st1, events) := Consumer.OnProductDetails(cfg, me, st, sku, category, data, tick, item);
            Shops(cfg, me, sku, category, data, tick, item, st, st1, events)
  {
    CartIsTempted(cfg, me, sku, data, tick, item);
    SellerSells(cfg, me, sku, tick, item);
    hide Tempted, Consumer.CartChance, Sells, Consumer.ChosenSeller;
    var seller := Consumer.ChosenSeller(cfg, me, sku, tick, item);
    var (st1, events) := Consumer.OnProductDetails(cfg, me, st, sku, category, data, tick, item);
    if Tempted(cfg, me, sku, data, tick, item) && Urgent(cfg, me, category, tick, item) {
      assert Orders(me, st.pending, st1.pending, sku, PriceOf(data), seller, tick, item, events);
    }
  }

  // -------------------------------------------------------------- products that were browsed

  /** The consumer looks at product i: the draw falls below the interest in its category. */
  predicate Curious(cfg: Config, me: int, shown: seq<Shown>, tick: int, item: int, i: nat)
    requires i < |shown|
  {
    Below(cfg.roll(me, tick, item + i, ViewRoll), cfg.interest(me, shown[i].category))
  }

  /** The request for the details of product i. */
  predicate AsksFor(me: int, shown: seq<Shown>, tick: int, item: int, i: nat, r: Request)
    requires i < |shown|
  {
    r == Request(QueryId(me, tick, item + i, ProductDetails(shown[i].sku, shown[i].category)), me, tick)
  }

  /** The requests for the details of just the products that the consumer looks at, in their order. */
  ghost predicate Looks(cfg: Config, me: int, shown: seq<Shown>, tick: int, item: int, at: seq<nat>, requests: seq<Request>) {
    && Rising(at, |shown|) && |requests| == |at|
    && (forall i :: 0 <= i < |shown| ==> (i in at <==> Curious(cfg, me, shown, tick, item, i)))
    && (forall n :: 0 <= n < |at| ==> AsksFor(me, shown, tick, item, at[n], requests[n]))
  }

  lemma OneLater(cfg: Config, me: int, shown: seq<Shown>, tick: int, item: int, i: nat, r: Request)
    requires 1 <= i < |shown|
    ensures Curious(cfg, me, shown[1..], tick, item + 1, i - 1) == Curious(cfg, me, shown, tick, item, i)
    ensures AsksFor(me, shown[1..], tick, item + 1, i - 1, r) == AsksFor(me, shown, tick, item, i, r)
  {
    assert item + 1 + (i - 1) == item + i && shown[1..][i - 1] == shown[i];
  }

  lemma RestOfShown(cfg: Config, me: int, shown: seq<Shown>, tick: int, item: int, at: seq<nat>, requests: seq<Request>)
    requires shown != [] && Looks(cfg, me, shown[1..], tick, item + 1, at, requests)
    ensures Rising(Shifted(at), |shown|) && 0 !in Shifted(at) && |requests| == |at|
    ensures forall i :: 1 <= i < |shown| ==> (i in Shifted(at) <==> Curious(cfg, me, shown, tick, item, i))
    ensures forall n :: 0 <= n < |at| ==> AsksFor(me, shown, tick, item, Shifted(at)[n], requests[n])
  {
    hide Curious, AsksFor;
    ShiftedHas(at, 0);
    forall i | 1 <= i < |shown| ensures i in Shifted(at) <==> Curious(cfg, me, shown, tick, item, i) {
      ShiftedHas(at, i);
      OneLater(cfg, me, shown, tick, item, i, Request(QueryId(me, tick, item, OrderHistory), me, tick));
    }
    forall n | 0 <= n < |at| ensures AsksFor(me, shown, tick, item, Shifted(at)[n], requests[n]) {
      OneLater(cfg, me, shown, tick, item, at[n] + 1, requests[n]);
    }
  }

  lemma NotShown(cfg: Config, me: int, shown: seq<Shown>, tick: int, item: int, at: seq<nat>, requests: seq<Request>)
    requires shown != [] && Looks(cfg, me, shown[1..], tick, item + 1, at, requests) && !Curious(cfg, me, shown, tick, item, 0)
    ensures Looks(cfg, me, shown, tick, item, Shifted(at), requests)
  {
    hide Curious, Rising, AsksFor;
    RestOfShown(cfg, me, shown, tick, item, at, requests);
  }

  lemma TakeShown(cfg: Config, me: int, shown: seq<Shown>, tick: int, item: int, at: seq<nat>, requests: seq<Request>,
          r: Request)
    requires shown != [] && Looks(cfg, me, shown[1..], tick, item + 1, at, requests) && Curious(cfg, me, shown, tick, item, 0)
    requires AsksFor(me, shown, tick, item, 0, r)
    ensures Looks(cfg, me, shown, tick, item, [0] + Shifted(at), [r] + requests)
  {
    hide Curious, Rising, AsksFor;
    RestOfShown(cfg, me, shown, tick, item, at, requests);
    var later, all := Shifted(at), [0] + Shifted(at);
    Led(later, |shown|);
    forall n | 0 <= n < |all| ensures all[n] < |shown| && AsksFor(me, shown, tick, item, all[n], ([r] + requests)[n]) {
      AnyShown(me, shown, tick, item, later, requests, r, n);
    }
  }

  lemma AnyShown(me: int, shown: seq<Shown>, tick: int, item: int, later: seq<nat>, requests: seq<Request>, r: Request, n: nat)
    requires shown != [] && Rising(later, |shown|) && |requests| == |later| && n <= |later|
    requires AsksFor(me, shown, tick, item, 0, r)
    requires forall j :: 0 <= j < |later| ==> AsksFor(me, shown, tick, item, later[j], requests[j])
    ensures var i := ([0] + later)[n];
            i < |shown| && AsksFor(me, shown, tick, item, i, ([r] + requests)[n])
  {
    hide AsksFor;
    if n > 0 {
      assert ([0] + later)[n] == later[n - 1] && ([r] + requests)[n] == requests[n - 1];
    }
  }

  /** The pending queries after a list of requests: those before, and one for each request. */
  ghost predicate Awaits(before: map<QueryId, Pending>, after: map<QueryId, Pending>, requests: seq<Request>, tick: int) {
    && (forall q :: q in after <==> q in before || exists r :: r in requests && r.id == q)
    && (forall r :: r in requests ==> r.id in after && after[r.id] == Pending(r.id.topic, tick))
    && (forall q :: q in before && (forall r :: r in requests ==> r.id != q) ==> after[q] == before[q])
  }

  lemma AwaitsNone(queries: map<QueryId, Pending>, tick: int)
    ensures Awaits(queries, queries, [], tick)
  {
  }

  lemma AwaitsOneMore(before: map<QueryId, Pending>, after: map<QueryId, Pending>, r: Request, requests: seq<Request>, tick: int)
    requires Awaits(before[r.id := Pending(r.id.topic, tick)], after, requests, tick)
    ensures Awaits(before, after, [r] + requests, tick)
  {
    var rs, now := [r] + requests, before[r.id := Pending(r.id.topic, tick)];
    assert r in rs && r.id in now;
    forall q ensures q in after <==> q in before || exists x :: x in rs && x.id == q {
      if x :| x in requests && x.id == q {
        assert x in rs;
      }
    }
    forall q | q in before && (forall x :: x in rs ==> x.id != q) ensures after[q] == before[q] {
      assert forall x :: x in requests ==> x in rs;
    }
  }

  /** Of the products browsed, just those that the consumer looks at are asked about, and waited for. */
  lemma {:induction false} ViewsLook(cfg: Config, me: int, st: Consumer.State, shown: seq<Shown>, tick: int, item: int)
    returns (at: seq<nat>)
    ensures var (st1, events) := Consumer.Views(cfg, me, st, shown, tick, item);
            && Looks(cfg, me, shown, tick, item, at, Reqs(events)) && Awaits(st.queries, st1.queries, Reqs(events), tick)
            && st1 == st.(queries := st1.queries) && forall e :: e in events ==> e.kind == QueryRequested && e.messages == []
    decreases |shown|
  {
    hide Looks, Awaits;
    if shown == [] {
      at := [];
      NoneShown(cfg, me, tick, item);
      AwaitsNone(st.queries, tick);
    } else {
      assert Consumer.Looks(cfg, me, shown[0], tick, item) == Curious(cfg, me, shown, tick, item, 0);
      hide Consumer.Looks, Curious;
      if Curious(cfg, me, shown, tick, item, 0) {
        var (st1, ev1) := Consumer.Ask(me, st, ProductDetails(shown[0].sku, shown[0].category), tick, item);
        var later := ViewsLook(cfg, me, st1, shown[1..], tick, item + 1);
        var (st2, ev2) := Consumer.Views(cfg, me, st1, shown[1..], tick, item + 1);
        assert ev1 == [ev1[0]];
        MsgsOne(ev1[0]);
        MsgsAppend(ev1, ev2);
        var r := ev1[0].queries[0];
        TakeShown(cfg, me, shown, tick, item, later, Reqs(ev2), r);
        AwaitsOneMore(st.queries, st2.queries, r, Reqs(ev2), tick);
        at := [0] + Shifted(later);
      } else {
        var later := ViewsLook(cfg, me, st, shown[1..], tick, item + 1);
        var ev2 := Consumer.Views(cfg, me, st, shown[1..], tick, item + 1).1;
        assert [] + ev2 == ev2;
        NotShown(cfg, me, shown, tick, item, later, Reqs(ev2));
        at := Shifted(later);
      }
    }
  }

  lemma NoneShown(cfg: Config, me: int, tick: int, item: int)
    ensures Looks(cfg, me, [], tick, item, [], [])
  {
  }

  /** What a consumer asks at the end of a step: for its history when that is due, then for what it browsed. */
  ghost predicate Surveys(cfg: Config, me: int, tick: int, item: int, before: map<QueryId, Pending>,
                          after: map<QueryId, Pending>, requests: seq<Request>)
  {
    var history := Request(QueryId(me, tick, item, OrderHistory), me, tick);
    var shown := if Due(cfg, me, BrowseCatalog, tick) then cfg.browse(me, tick) else [];
    var next := item + 1;
    exists at, looked :: Looks(cfg, me, shown, tick, next, at, looked)
                         && requests == (if Due(cfg, me, HistoryCheck, tick) then [history] else []) + looked
                         && Awaits(before, after, requests, tick)
  }

  lemma SurveysRecent(cfg: Config, me: int, tick: int, item: int, before: map<QueryId, Pending>,
                      after: map<QueryId, Pending>, requests: seq<Request>)
    requires Surveys(cfg, me, tick, item, before, after, requests)
    ensures Recent(before, tick) ==> Recent(after, tick)
  {
    hide Looks, Due;
    if Recent(before, tick) {
      forall q | q in after ensures tick - after[q].issued <= 10 {
        if r :| r in requests && r.id == q {
          assert after[q] == Pending(r.id.topic, tick);
        }
      }
    }
  }

  lemma ScheduleSurveys(cfg: Config, me: int, st: Consumer.State, tick: int, item: int)
    ensures var (st1, events) := Consumer.Scheduled(cfg, me, st, tick, item);
            st1 == st.(queries := st1.queries) && Surveys(cfg, me, tick, item, st.queries, st1.queries, Reqs(events))
  {
    hide Looks, Awaits, Consumer.Views, Due;
    var shown := if Due(cfg, me, BrowseCatalog, tick) then cfg.browse(me, tick) else [];
    if Due(cfg, me, HistoryCheck, tick) {
      var (st1, ev1) := Consumer.Ask(me, st, OrderHistory, tick, item);
      var at := ViewsLook(cfg, me, st1, shown, tick, item + 1);
      var (st2, ev2) := Consumer.Views(cfg, me, st1, shown, tick, item + 1);
      assert ev1 == [ev1[0]];
      MsgsOne(ev1[0]);
      MsgsAppend(ev1, ev2);
      AwaitsOneMore(st.queries, st2.queries, Request(QueryId(me, tick, item, OrderHistory), me, tick), Reqs(ev2), tick);
      assert Looks(cfg, me, shown, tick, item + 1, at, Reqs(ev2));
    } else {
      var at := ViewsLook(cfg, me, st, shown, tick, item + 1);
      var ev2 := Consumer.Views(cfg, me, st, shown, tick, item + 1).1;
      assert [] + ev2 == ev2 && [] + Reqs(ev2) == Reqs(ev2);
      assert Looks(cfg, me, shown, tick, item + 1, at, Reqs(ev2));
    }
  }

  // -------------------------------------------------------------- messages

  predicate TellsStatus(me: int, tick: int, rid: OrderId, status: Status, messages: seq<Message>, events: seq<Event>) {
    events == [Event(ConsumerStatusUpdate, me, tick, [UpdateConsumerOrder(rid, status)], messages, [])]
  }

  /** The order has left the pending ones for the end of the completed ones, with the status. */
  predicate IsClosed(st: Consumer.State, rid: OrderId, status: Status, st1: Consumer.State) {
    && rid in st.pending
    && st1 == st.(pending := st.pending - {rid},
                  completed := st.completed + [Consumer.Closed(rid, st.pending[rid].(status := status))])
  }

  /** What a message makes of the consumer's orders, and what is sent and written on it. */
  ghost predicate Handles(me: int, st: Consumer.State, m: Message, tick: int, st1: Consumer.State, events: seq<Event>) {
    match m.payload
    case OrderAccepted(rid, number, price) =>
      if rid in st.pending then
        && st1 == st.(pending := st.pending[rid := st.pending[rid].(status := Accepted, number := Some(number))])
        && TellsStatus(me, tick, rid, Accepted, [Message(me, m.from, tick, Payment(rid, number, price))], events)
      else st1 == st && events == []
    case ShipmentNotification(rid, _, _) =>
      if rid in st.pending then IsClosed(st, rid, Delivered, st1) && TellsStatus(me, tick, rid, Delivered, [], events)
      else st1 == st && events == []
    case CancelConfirmed(rid) =>
      && (if rid in st.pending then IsClosed(st, rid, Cancelled, st1) else st1 == st)
      && TellsStatus(me, tick, rid, Cancelled, [], events)
    case CancelRejected(rid) =>
      && st1 == (if rid in st.pending then st.(pending := st.pending[rid := st.pending[rid].(status := Accepted)]) else st)
      && TellsStatus(me, tick, rid, Accepted, [], events)
    case _ => st1 == st && events == []
  }

  lemma MessageHandled(me: int, st: Consumer.State, m: Message, tick: int)
    ensures var (st1, events) := Consumer.OnMessage(me, st, m, tick); Handles(me, st, m, tick, st1, events)
  {
  }
}
