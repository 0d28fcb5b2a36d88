/**
 * The stock ledger of every run, with no assumption on store order numbers: it is out of balance by exactly
 * the quantities of the orders that stand although their cancellation is in the log.
 */
module Revivals {
  import opened Seqs
  import opened Messages
  import opened Settings
  import opened Engine
  import opened Routing
  import opened Simulation
  import opened SellerSide
  import opened RestockResults
  import opened Ledger
  import opened Inventory
  import Restocks
  import Seller

  predicate CancelsIt(s: int, rid: OrderId, e: Event) {
    e.agent == s && |e.writes| > 0 && e.writes[0] == UpdateStoreOrder(rid, Cancelled)
  }

  /** The log has the cancellation of the order by the seller. */
  predicate CancelLogged(s: int, log: seq<Event>, rid: OrderId) {
    exists e :: e in log && CancelsIt(s, rid, e)
  }

  /** The quantity of a SKU that an order has taken and that no cancellation has put back. */
  function Taken(s: int, log: seq<Event>, st: Seller.State, sku: int): OrderId -> int {
    (rid: OrderId) =>
      if rid in st.orders && st.orders[rid].sku == sku && !CancelLogged(s, log, rid) then st.orders[rid].qty else 0
  }

  function TakenInAll(s: int, log: seq<Event>, st: Seller.State, sku: int): int {
    Sum(Taken(s, log, st, sku), st.orderIds)
  }

  /** The quantity of a SKU that an order holds although its cancellation has put it back. */
  function Revived(s: int, log: seq<Event>, st: Seller.State, sku: int): OrderId -> int {
    (rid: OrderId) =>
      if rid in st.orders && st.orders[rid].sku == sku && CancelLogged(s, log, rid) && Standing(st.orders[rid])
      then st.orders[rid].qty else 0
  }

  function RevivedInAll(s: int, log: seq<Event>, st: Seller.State, sku: int): int {
    Sum(Revived(s, log, st, sku), st.orderIds)
  }

  /** Only cancelled orders, or delivered ones, have a cancellation in the log, and every cancelled order has one. */
  ghost predicate Recorded(s: int, log: seq<Event>, st: Seller.State) {
    && (forall rid :: CancelLogged(s, log, rid) ==>
          rid in st.orders && (st.orders[rid].status == Cancelled || st.orders[rid].status == Delivered))
    && (forall rid :: rid in st.orders ==> Standing(st.orders[rid]) || CancelLogged(s, log, rid))
  }

  lemma LoggedAppend(s: int, log: seq<Event>, ev: seq<Event>, rid: OrderId)
    ensures CancelLogged(s, log + ev, rid) <==> CancelLogged(s, log, rid) || CancelLogged(s, ev, rid)
  {
    if CancelLogged(s, log, rid) {
      var e :| e in log && CancelsIt(s, rid, e);
      assert e in log + ev;
    }
    if CancelLogged(s, ev, rid) {
      var e :| e in ev && CancelsIt(s, rid, e);
      assert e in log + ev;
    }
  }

  /** The held quantity is what was taken, and what was revived. */
  lemma {:induction false} TakenAndRevived(s: int, log: seq<Event>, st: Seller.State, sku: int, ids: seq<OrderId>)
    requires Recorded(s, log, st)
    ensures Sum(Held(st, sku), ids) == Sum(Taken(s, log, st, sku), ids) + Sum(Revived(s, log, st, sku), ids)
  {
    hide CancelLogged, Standing;
    if ids != [] {
      TakenAndRevived(s, log, st, sku, ids[1..]);
    }
  }

  // -------------------------------------------------------------- a seller's step

  /** A reaction of the seller keeps the record, and its stock changes are what its orders take or put back. */
  ghost predicate Settles(s: int, log: seq<Event>, st: Seller.State, st1: Seller.State, ev: seq<Event>, sku: int) {
    Recorded(s, log + ev, st1) && Sum(Drift(s, sku), ev) == TakenInAll(s, log, st, sku) - TakenInAll(s, log + ev, st1, sku)
  }

  /** A reaction that neither cancels nor accepts, and changes no stock. */
  lemma Untouched(s: int, log: seq<Event>, st: Seller.State, st1: Seller.State, ev: seq<Event>, sku: int)
    requires Recorded(s, log, st) && st1.orderIds == st.orderIds && st1.orders.Keys == st.orders.Keys
    requires forall rid :: rid in st.orders ==>
               && st1.orders[rid].sku == st.orders[rid].sku && st1.orders[rid].qty == st.orders[rid].qty
               && (st1.orders[rid].status == st.orders[rid].status || st1.orders[rid].status == Delivered
                   || (st.orders[rid].status == Accepted && st1.orders[rid].status == Paid))
    requires (forall rid :: !CancelLogged(s, ev, rid)) && Sum(Drift(s, sku), ev) == 0
    ensures Settles(s, log, st, st1, ev, sku)
  {
    hide CancelLogged, Drift;
    forall rid ensures CancelLogged(s, log + ev, rid) <==> CancelLogged(s, log, rid) {
      LoggedAppend(s, log, ev, rid);
    }
    forall rid ensures rid in st1.orders <==> rid in st.orders {
      assert rid in st1.orders <==> rid in st1.orders.Keys;
    }
    SumAgree(Taken(s, log, st, sku), Taken(s, log + ev, st1, sku), st.orderIds);
  }

  lemma NoneLogged(s: int, ev: seq<Event>)
    requires forall e :: e in ev ==> e.writes == [] || !e.writes[0].UpdateStoreOrder?
    ensures forall rid :: !CancelLogged(s, ev, rid)
  {
  }

  /** A cancellation puts the order's quantity back and is recorded. */
  lemma CancelRecords(s: int, log: seq<Event>, st: Seller.State, rid: OrderId, e: Event)
    requires Recorded(s, log, st) && rid in st.orders && st.orders[rid].status == Accepted && CancelsIt(s, rid, e)
    ensures !CancelLogged(s, log, rid)
    ensures forall x :: CancelLogged(s, log + [e], x) <==> CancelLogged(s, log, x) || x == rid
    ensures Recorded(s, log + [e], st.(orders := st.orders[rid := st.orders[rid].(status := Cancelled)]))
  {
    hide CancelLogged;
    forall x ensures CancelLogged(s, log + [e], x) <==> CancelLogged(s, log, x) || x == rid {
      LoggedAppend(s, log, [e], x);
      OneLogged(s, e, x, rid);
    }
  }

  lemma OneLogged(s: int, e: Event, x: OrderId, rid: OrderId)
    requires CancelsIt(s, rid, e)
    ensures CancelLogged(s, [e], x) <==> x == rid
  {
    assert e in [e];
  }

  lemma CancelTakes(s: int, log: seq<Event>, st: Seller.State, rid: OrderId, e: Event, sku: int)
    requires Recorded(s, log, st) && rid in st.orderIds && Distinct(st.orderIds) && rid in st.orders
    requires st.orders[rid].status == Accepted && CancelsIt(s, rid, e)
    ensures var st1 := st.(orders := st.orders[rid := st.orders[rid].(status := Cancelled)]);
            TakenInAll(s, log + [e], st1, sku)
              == TakenInAll(s, log, st, sku) - if st.orders[rid].sku == sku then st.orders[rid].qty else 0
  {
    hide CancelLogged, Sum, Recorded;
    var st1 := st.(orders := st.orders[rid := st.orders[rid].(status := Cancelled)]);
    CancelRecords(s, log, st, rid, e);
    OneChanges(Taken(s, log, st, sku), Taken(s, log + [e], st1, sku), st.orderIds, rid);
  }

  lemma CancelSettles(cfg: Config, s: int, log: seq<Event>, st: Seller.State, rid: OrderId, from: int, tick: int,
          sku: int)
    requires Books(cfg, st) && Distinct(st.orderIds) && Recorded(s, log, st)
    ensures var (st1, ev) := Seller.OnCancelRequest(s, st, rid, from, tick);
            Settles(s, log, st, st1, ev, sku)
  {
    hide Drift, Sum, Recorded, CancelLogged, TakenInAll;
    var (st1, ev) := Seller.OnCancelRequest(s, st, rid, from, tick);
    if ev != [] {
      assert ev == [ev[0]];
      OneEvent(s, sku, ev[0]);
    } else {
      NoDrift(s, sku);
    }
    if rid in st.orders && st.orders[rid].status == Accepted {
      CancelRecords(s, log, st, rid, ev[0]);
      CancelTakes(s, log, st, rid, ev[0], sku);
    } else {
      NoneLogged(s, ev);
      Untouched(s, log, st, st1, ev, sku);
    }
  }

  lemma NoDrift(s: int, sku: int)
    ensures Sum(Drift(s, sku), []) == 0
  {
  }

  lemma MessageSettles(cfg: Config, s: int, log: seq<Event>, st: Seller.State, m: Message, tick: int, item: int,
          sku: int)
    requires Books(cfg, st) && Distinct(st.orderIds) && Recorded(s, log, st)
    ensures var (st1, ev) := Seller.OnMessage(cfg, s, st, m, tick, item);
            Settles(s, log, st, st1, ev, sku) && Distinct(st1.orderIds)
  {
    hide Drift, Sum, Recorded, Books, CancelLogged, Seller.PaymentMessages;
    var (st1, ev) := Seller.OnMessage(cfg, s, st, m, tick, item);
    if m.payload.CancelRequest? {
      CancelSettles(cfg, s, log, st, m.payload.rid, m.from, tick, sku);
    } else {
      if ev != [] {
        assert ev == [ev[0]];
        OneEvent(s, sku, ev[0]);
      } else {
        NoDrift(s, sku);
      }
      NoneLogged(s, ev);
      Untouched(s, log, st, st1, ev, sku);
    }
  }

  /** Accepting a new order takes its quantity. */
  lemma AcceptTakes(s: int, log: seq<Event>, st: Seller.State, rid: OrderId, o: Seller.Order, e: Event, sku: int)
    requires Recorded(s, log, st) && rid !in st.orders && rid !in st.orderIds && Standing(o)
    requires e.writes == [] || !e.writes[0].UpdateStoreOrder?
    ensures var st1 := st.(orders := st.orders[rid := o], orderIds := st.orderIds + [rid]);
            && Recorded(s, log + [e], st1)
            && TakenInAll(s, log + [e], st1, sku) == TakenInAll(s, log, st, sku) + if o.sku == sku then o.qty else 0
  {
    hide Sum, CancelLogged, Standing;
    var st1 := st.(orders := st.orders[rid := o], orderIds := st.orderIds + [rid]);
    NoneLogged(s, [e]);
    forall x ensures CancelLogged(s, log + [e], x) <==> CancelLogged(s, log, x) {
      LoggedAppend(s, log, [e], x);
    }
    SumAppend(Taken(s, log + [e], st1, sku), st.orderIds, [rid]);
    SumOne(Taken(s, log + [e], st1, sku), rid);
    SumAgree(Taken(s, log, st, sku), Taken(s, log + [e], st1, sku), st.orderIds);
  }

  lemma AcceptSettles(cfg: Config, s: int, log: seq<Event>, st: Seller.State, rid: OrderId, tick: int, sku: int)
    requires Books(cfg, st) && (rid in st.incoming ==> rid !in st.orders) && Recorded(s, log, st)
    ensures var (st1, ev) := Seller.OnInventoryCheck(cfg, s, st, rid, tick);
            Settles(s, log, st, st1, ev, sku)
  {
    hide Drift, Sum, Recorded, CancelLogged, TakenInAll;
    var (st1, ev) := Seller.OnInventoryCheck(cfg, s, st, rid, tick);
    if rid in st.incoming {
      OneEvent(s, sku, ev[0]);
      assert ev == [ev[0]] && rid !in st.orderIds;
      AcceptTakes(s, log, st, rid, st1.orders[rid], ev[0], sku);
      Popped(s, log + ev, st.(orders := st1.orders, orderIds := st1.orderIds), st1, sku);
    } else {
      NoDrift(s, sku);
      NoneLogged(s, ev);
      Untouched(s, log, st, st1, ev, sku);
    }
  }

  lemma LevelsSettle(cfg: Config, s: int, log: seq<Event>, st: Seller.State, data: Data, tick: int, item: int,
          sku: int)
    requires Recorded(s, log, st)
    ensures var (st1, ev) := Seller.OnInventoryLevels(cfg, s, st, data, tick, item);
            Settles(s, log, st, st1, ev, sku)
  {
    hide Drift, Sum, Recorded, CancelLogged;
    var (st1, ev) := Seller.OnInventoryLevels(cfg, s, st, data, tick, item);
    LevelsDrift(cfg, s, st, data, tick, item, sku);
    NoneLogged(s, ev);
    Untouched(s, log, st, st1, ev, sku);
  }

  lemma Popped(s: int, log: seq<Event>, st: Seller.State, st1: Seller.State, sku: int)
    requires st.orders == st1.orders && st.orderIds == st1.orderIds
    ensures TakenInAll(s, log, st, sku) == TakenInAll(s, log, st1, sku)
    ensures Recorded(s, log, st) ==> Recorded(s, log, st1)
  {
    SumAgree(Taken(s, log, st, sku), Taken(s, log, st1, sku), st.orderIds);
  }

  lemma ReplySettles(cfg: Config, s: int, log: seq<Event>, st: Seller.State, x: Reply, tick: int, item: int,
          placed: int, sku: int)
    requires Orderly(cfg, st, placed) && Recorded(s, log, st)
    ensures var (st1, ev) := Seller.OnReply(cfg, s, st, x, tick, item);
            Settles(s, log, st, st1, ev, sku)
  {
    hide Drift, Recorded, Seller.OnInventoryCheck, Seller.OnInventoryLevels, TakenInAll;
    NothingAdded(log);
    NoDrift(s, sku);
    if x.id in st.queries {
      var popped := st.(queries := st.queries - {x.id});
      Popped(s, log, st, popped, sku);
      if st.queries[x.id].topic.InventoryCheck? {
        AcceptSettles(cfg, s, log, popped, st.queries[x.id].topic.order, tick, sku);
      } else if st.queries[x.id].topic.InventoryLevels? {
        LevelsSettle(cfg, s, log, popped, x.data, tick, item, sku);
      }
    }
  }

  lemma SettlesOn(s: int, log: seq<Event>, st: Seller.State, st1: Seller.State, ev1: seq<Event>, st2: Seller.State,
          ev2: seq<Event>, sku: int)
    requires Settles(s, log, st, st1, ev1, sku) && Settles(s, log + ev1, st1, st2, ev2, sku)
    ensures Settles(s, log, st, st2, ev1 + ev2, sku)
  {
    hide Recorded, Drift, TakenInAll;
    Regroup(log, ev1, ev2);
    SumAppend(Drift(s, sku), ev1, ev2);
  }

  lemma {:induction false} RepliesSettle(cfg: Config, s: int, log: seq<Event>, st: Seller.State, xs: seq<Reply>,
          tick: int, item: int, placed: int, sku: int)
    requires Orderly(cfg, st, placed) && Recorded(s, log, st)
    ensures var (st1, ev) := Seller.Replies(cfg, s, st, xs, tick, item);
            Settles(s, log, st, st1, ev, sku) && Orderly(cfg, st1, placed)
    decreases |xs|
  {
    hide Drift, Recorded, Seller.OnReply, Orderly, TakenInAll;
    if xs == [] {
      NothingAdded(log);
      NoDrift(s, sku);
    } else {
      var (st1, ev1) := Seller.OnReply(cfg, s, st, xs[0], tick, item);
      var (st2, ev2) := Seller.Replies(cfg, s, st1, xs[1..], tick, item + 1);
      ReplySettles(cfg, s, log, st, xs[0], tick, item, placed, sku);
      ReplyOrderly(cfg, s, st, xs[0], tick, item, placed);
      RepliesSettle(cfg, s, log + ev1, st1, xs[1..], tick, item + 1, placed, sku);
      SettlesOn(s, log, st, st1, ev1, st2, ev2, sku);
    }
  }

  lemma {:induction false} MailSettles(cfg: Config, s: int, log: seq<Event>, st: Seller.State, mail: seq<Message>,
          tick: int, item: int, sku: int)
    requires Books(cfg, st) && Distinct(st.orderIds) && Recorded(s, log, st) && forall m :: m in mail ==> Numbered(cfg, m)
    ensures var (st1, ev) := Seller.Mail(cfg, s, st, mail, tick, item);
            Settles(s, log, st, st1, ev, sku)
    decreases |mail|
  {
    hide Drift, Recorded, Seller.OnMessage, Books, TakenInAll;
    if mail == [] {
      NothingAdded(log);
      NoDrift(s, sku);
    } else {
      var (st1, ev1) := Seller.OnMessage(cfg, s, st, mail[0], tick, item);
      var (st2, ev2) := Seller.Mail(cfg, s, st1, mail[1..], tick, item + 1);
      MessageSettles(cfg, s, log, st, mail[0], tick, item, sku);
      BooksMessage(cfg, s, st, mail[0], tick, item);
      MailSettles(cfg, s, log + ev1, st1, mail[1..], tick, item + 1, sku);
      SettlesOn(s, log, st, st1, ev1, st2, ev2, sku);
    }
  }

  lemma TailSettles(cfg: Config, s: int, log: seq<Event>, st: Seller.State, tick: int, item: int, sku: int)
    requires Recorded(s, log, st)
    ensures var st0 := st.(queries := Expire(st.queries, tick));
            var (st1, ev) := Seller.Scheduled(cfg, s, st0, tick, item);
            Settles(s, log, st, st1, ev, sku)
  {
    hide Drift, Recorded, CancelLogged, Expire, Due;
    var st0 := st.(queries := Expire(st.queries, tick));
    var (st1, ev) := Seller.Scheduled(cfg, s, st0, tick, item);
    TailDrift(cfg, s, st0, tick, item, sku);
    NoneLogged(s, ev);
    Untouched(s, log, st, st1, ev, sku);
  }

  lemma StepSettles(cfg: Config, s: int, log: seq<Event>, st: Seller.State, xs: seq<Reply>, mail: seq<Message>,
          tick: int, placed: int, sku: int)
    requires Orderly(cfg, st, placed) && Recorded(s, log, st) && forall m :: m in mail ==> Numbered(cfg, m)
    ensures var (st1, ev) := Seller.Step(cfg, s, st, xs, mail, tick);
            Settles(s, log, st, st1, ev, sku)
  {
    hide Seller.Replies, Seller.Mail, Seller.Scheduled, Drift, Recorded, Expire, TakenInAll, Numbered;
    var (st1, ev1) := Seller.Replies(cfg, s, st, xs, tick, 0);
    var (st2, ev2) := Seller.Mail(cfg, s, st1, mail, tick, |xs|);
    var (st3, ev3) := Seller.Scheduled(cfg, s, st2.(queries := Expire(st2.queries, tick)), tick, |xs| + |mail|);
    RepliesSettle(cfg, s, log, st, xs, tick, 0, placed, sku);
    MailSettles(cfg, s, log + ev1, st1, mail, tick, |xs|, sku);
    SettlesOn(s, log, st, st1, ev1, st2, ev2, sku);
    TailSettles(cfg, s, log + (ev1 + ev2), st2, tick, |xs| + |mail|, sku);
    SettlesOn(s, log, st, st2, ev1 + ev2, st3, ev3, sku);
  }

  // -------------------------------------------------------------- over a run

  function Nil(): int -> int { (a: int) => 0 }

  /** Of a tick's log entries only the seller's own change its stock. */
  lemma BlocksDrift(cfg: Config, w: World<Agent>, s: int, sku: int)
    requires Accounted(cfg, w) && Restocks.IsSeller(w, s)
    ensures var m := TheMachine(cfg);
            Sum(Drift(s, sku), Step(m, w).log) == Sum(Drift(s, sku), w.log) + Sum(Drift(s, sku), Turn(m, w, s).1)
  {
    hide Turn, Drift, Accounted;
    var m := TheMachine(cfg);
    var ids := SortedIds(w.agents.Keys);
    SumAppend(Drift(s, sku), w.log, Cat(Block(m, w), ids));
    SumCat(Drift(s, sku), Block(m, w), ids);
    forall a | a in ids && a != s ensures Nil()(a) == BlockSum(Drift(s, sku), Block(m, w))(a) {
      OthersDriftNot(cfg, w, a, s, sku);
    }
    assert s in w.agents.Keys;
    OneChanges(Nil(), BlockSum(Drift(s, sku), Block(m, w)), ids, s);
    SumZero(Nil(), ids);
  }

  /** Of a tick's log entries only the seller's own record its cancellations. */
  lemma BlocksCancel(cfg: Config, w: World<Agent>, s: int, rid: OrderId)
    requires Accounted(cfg, w) && Restocks.IsSeller(w, s)
    ensures var m := TheMachine(cfg);
            CancelLogged(s, Step(m, w).log, rid) <==> CancelLogged(s, w.log + Turn(m, w, s).1, rid)
  {
    hide Turn, Accounted, CancelLogged;
    var m := TheMachine(cfg);
    var ids := SortedIds(w.agents.Keys);
    LoggedAppend(s, w.log, Cat(Block(m, w), ids), rid);
    LoggedAppend(s, w.log, Turn(m, w, s).1, rid);
    OwnCancels(cfg, w, s, rid);
  }

  lemma OwnCancels(cfg: Config, w: World<Agent>, s: int, rid: OrderId)
    requires Accounted(cfg, w) && Restocks.IsSeller(w, s)
    ensures var m := TheMachine(cfg);
            CancelLogged(s, Cat(Block(m, w), SortedIds(w.agents.Keys)), rid) <==> CancelLogged(s, Turn(m, w, s).1, rid)
  {
    hide Turn, Accounted;
    var m := TheMachine(cfg);
    var ids := SortedIds(w.agents.Keys);
    assert s in w.agents.Keys;
    BlockIs(m, w, s);
    if CancelLogged(s, Cat(Block(m, w), ids), rid) {
      var e :| e in Cat(Block(m, w), ids) && CancelsIt(s, rid, e);
      var a := CatSource(Block(m, w), ids, e);
      OthersSign(cfg, w, a, e);
    }
    if CancelLogged(s, Turn(m, w, s).1, rid) {
      var e :| e in Turn(m, w, s).1 && CancelsIt(s, rid, e);
      InCat(Block(m, w), ids, s, e);
    }
  }

  lemma OthersSign(cfg: Config, w: World<Agent>, a: int, e: Event)
    requires Accounted(cfg, w) && a in w.agents && e in Block(TheMachine(cfg), w)(a)
    ensures e.agent == a
  {
    hide Turn;
    AccountedSigns(cfg, w, a);
    assert SignedBy(e, a);
  }

  lemma {:induction false} CatSource<T>(g: int -> seq<T>, ids: seq<int>, x: T) returns (a: int)
    requires x in Cat(g, ids)
    ensures a in ids && x in g(a)
  {
    if x in g(ids[0]) {
      a := ids[0];
    } else {
      a := CatSource(g, ids[1..], x);
    }
  }

  /** The seller's record and its stock changes agree at the tick after w if they agree at w. */
  lemma RunSettles(cfg: Config, w: World<Agent>, s: int, sku: int)
    requires Accounted(cfg, w) && Restocks.IsSeller(w, s) && Recorded(s, w.log, w.agents[s].s)
    ensures var w1 := Step(TheMachine(cfg), w);
            && Restocks.IsSeller(w1, s) && Recorded(s, w1.log, w1.agents[s].s)
            && Sum(Drift(s, sku), w1.log) + TakenInAll(s, w1.log, w1.agents[s].s, sku)
               == Sum(Drift(s, sku), w.log) + TakenInAll(s, w.log, w.agents[s].s, sku)
  {
    hide Step, Turn, Drift, Seller.Step, Handled, HandledReplies, Orderly, TakenInAll, CancelLogged, Numbered;
    var m := TheMachine(cfg);
    var w1 := Step(m, w);
    StepAgent(m, w, s);
    TurnIs(cfg, w, s);
    InboxIs(cfg, w, s);
    assert Accountable(cfg, w, s, w.agents[s]);
    var ev := Turn(m, w, s).1;
    StepSettles(cfg, s, w.log, w.agents[s].s, HandledReplies(m, w, s), Handled(m, w, s), w.tick + 1, w.tick, sku);
    BlocksDrift(cfg, w, s, sku);
    forall rid ensures CancelLogged(s, w1.log, rid) <==> CancelLogged(s, w.log + ev, rid) {
      BlocksCancel(cfg, w, s, rid);
    }
    SameCancels(s, w1.log, w.log + ev, w1.agents[s].s, sku);
  }

  lemma SameCancels(s: int, log: seq<Event>, log1: seq<Event>, st: Seller.State, sku: int)
    requires forall rid :: CancelLogged(s, log, rid) <==> CancelLogged(s, log1, rid)
    ensures Recorded(s, log, st) == Recorded(s, log1, st) && TakenInAll(s, log, st, sku) == TakenInAll(s, log1, st, sku)
  {
    hide CancelLogged;
    SumAgree(Taken(s, log, st, sku), Taken(s, log1, st, sku), st.orderIds);
  }

  lemma {:induction false} AlwaysSettles(cfg: Config, w: World<Agent>, t: nat, s: int, sku: int)
    requires Initial(w) && Restocks.IsSeller(w, s)
    ensures var u := At(cfg, w, t);
            && Restocks.IsSeller(u, s) && Recorded(s, u.log, u.agents[s].s)
            && Sum(Drift(s, sku), u.log) + TakenInAll(s, u.log, u.agents[s].s, sku) == 0
  {
    hide Step, Accounted, Drift;
    if t == 0 {
      assert FreshAgent(w.agents[s]);
    } else {
      AlwaysSettles(cfg, w, t - 1, s, sku);
      AlwaysAccounted(cfg, w, t - 1);
      RunSettles(cfg, At(cfg, w, t - 1), s, sku);
    }
  }

  /**
   * The inventory ledger of every run: all logged changes of a seller's stock of a SKU add up to the restocks
   * credited, less what its standing orders hold, plus what those of them hold whose cancellation is logged.
   */
  lemma ExactLedger(cfg: Config, w: World<Agent>, t: nat, s: int, sku: int)
    requires Initial(w) && Restocks.IsSeller(w, s)
    ensures Restocks.IsSeller(At(cfg, w, t), s)
    ensures var u := At(cfg, w, t);
            var st := u.agents[s].s;
            Sum(Delta(s, sku), u.log) == Sum(Credit(s, sku), u.log) - HeldInAll(st, sku) + RevivedInAll(s, u.log, st, sku)
  {
    hide At, Drift, Delta, Credit, Recorded, Taken, Revived, Held;
    AlwaysSettles(cfg, w, t, s, sku);
    var u := At(cfg, w, t);
    DriftSum(s, sku, u.log);
    TakenAndRevived(s, u.log, u.agents[s].s, sku, u.agents[s].s.orderIds);
  }

  /** With the carrier and the suppliers registered, the credits are the restocks ordered less those on their way. */
  lemma ExactAccount(cfg: Config, w: World<Agent>, t: nat, s: int, sku: int)
    requires Initial(w) && Restocks.LoopStaffed(cfg, w) && Restocks.IsSeller(w, s)
    ensures Restocks.IsSeller(At(cfg, w, t), s)
    ensures var u := At(cfg, w, t);
            var st := u.agents[s].s;
            Sum(Delta(s, sku), u.log)
              == Sum(Ordering(s, sku), Msgs(u.log)) - InFlight(s, sku, u) - HeldInAll(st, sku)
                 + RevivedInAll(s, u.log, st, sku)
  {
    hide At, Delta, Credit, HeldInAll, InFlight, RevivedInAll, Restocks.LoopStaffed;
    ExactLedger(cfg, w, t, s, sku);
    RestockQuantities(cfg, w, t, s, sku);
  }
}
