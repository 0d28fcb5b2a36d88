/** When a restock arrives: with tracking at every tick, four ticks and a transit time after it was ordered. */
module RestockDates {
  import opened Seqs
  import opened Messages
  import opened Settings
  import opened Engine
  import opened Routing
  import opened Simulation
  import opened Restocks
  import opened RestockLoop
  import opened RestockResults
  import Inventory
  import Tracking
  import Shipments
  import Seller
  import Supplier
  import Transport

  // -------------------------------------------------------------- the supplier's two hops

  function ShipOrder(cfg: Config, me: int, tick: int, id: RestockId, store: int): Message
    requires Truthy(cfg.transport)
  {
    Message(me, cfg.transport.value, tick, ShipRequest(None, Some(id), me, store, id.sku, RESTOCK_QTY, Restock))
  }

  lemma {:induction false} SupplierShips(cfg: Config, me: int, st: Supplier.State, mail: seq<Message>, tick: int,
          m: Message)
    requires Truthy(cfg.transport) && m in mail && m.payload.RestockOrder?
    requires m.payload.sku == m.payload.id.sku && m.payload.qty == RESTOCK_QTY
    ensures ShipOrder(cfg, me, tick, m.payload.id, m.payload.store) in Msgs(Supplier.Mail(cfg, me, st, mail, tick).1)
    decreases |mail|
  {
    var (st1, ev1) := Supplier.OnMessage(cfg, me, st, mail[0], tick);
    MsgsAppend(ev1, Supplier.Mail(cfg, me, st1, mail[1..], tick).1);
    if mail[0] == m {
      MsgsOne(ev1[0]);
      assert ev1 == [ev1[0]];
    } else {
      SupplierShips(cfg, me, st1, mail[1..], tick, m);
    }
  }

  function Handover(me: int, tick: int, id: RestockId): Message {
    Message(me, id.seller, tick, RestockDelivered(id, id.sku, RESTOCK_QTY))
  }

  lemma {:induction false} SupplierForwards(cfg: Config, me: int, st: Supplier.State, mail: seq<Message>, tick: int,
          m: Message)
    requires Truthy(cfg.transport) && HonestBooks(st.orders) && forall x :: x in mail ==> ForSupplier(st.orders, x)
    requires m in mail && m.payload.DeliveryComplete? && m.payload.ref.RestockRef?
    ensures Handover(me, tick, m.payload.ref.restock) in Msgs(Supplier.Mail(cfg, me, st, mail, tick).1)
    decreases |mail|
  {
    var (st1, ev1) := Supplier.OnMessage(cfg, me, st, mail[0], tick);
    MsgsAppend(ev1, Supplier.Mail(cfg, me, st1, mail[1..], tick).1);
    if mail[0] == m {
      MsgsOne(ev1[0]);
      assert ev1 == [ev1[0]];
    } else {
      SupplierOne(cfg, me, st, mail[0], tick, id => 0);
      forall x | x in mail[1..] ensures ForSupplier(st1.orders, x) {
        assert ForSupplier(st.orders, x);
      }
      SupplierForwards(cfg, me, st1, mail[1..], tick, m);
    }
  }

  lemma HopShips(cfg: Config, u: World<Agent>, m: Message)
    requires Consistent(cfg, u) && m in u.mail && m.payload.RestockOrder?
    ensures ShipOrder(cfg, m.to, u.tick + 1, m.payload.id, m.payload.store) in Step(TheMachine(cfg), u).mail
  {
    hide Step, Supplier.Mail, Seller.Step, Transport.Step, Handled, HandledReplies, Filter;
    var p := m.to;
    assert Truthful(u, m) && IsSupplier(u, p);
    HandledIsMail(cfg, u, p);
    FilterComplete(ToAgent(p), u.mail, m);
    TurnIs(cfg, u, p);
    SupplierShips(cfg, p, u.agents[p].p, Filter(ToAgent(p), u.mail), u.tick + 1, m);
    BlockIs(TheMachine(cfg), u, p);
    MailArrives(TheMachine(cfg), u, p, ShipOrder(cfg, p, u.tick + 1, m.payload.id, m.payload.store));
  }

  lemma HopForwards(cfg: Config, u: World<Agent>, m: Message)
    requires Consistent(cfg, u) && m in u.mail && m.payload.DeliveryComplete? && m.payload.freight == Restock
    ensures m.payload.ref.RestockRef? && Handover(m.to, u.tick + 1, m.payload.ref.restock) in Step(TheMachine(cfg), u).mail
  {
    hide Step, Supplier.Mail, Seller.Step, Transport.Step, Handled, HandledReplies, Filter;
    var p := m.to;
    assert Truthful(u, m) && IsSupplier(u, p);
    HandledIsMail(cfg, u, p);
    FilterComplete(ToAgent(p), u.mail, m);
    TurnIs(cfg, u, p);
    SupplierReceives(cfg, u, p);
    SupplierForwards(cfg, p, u.agents[p].p, Filter(ToAgent(p), u.mail), u.tick + 1, m);
    BlockIs(TheMachine(cfg), u, p);
    MailArrives(TheMachine(cfg), u, p, Handover(p, u.tick + 1, m.payload.ref.restock));
  }

  // -------------------------------------------------------------- the carrier's hop

  /** The shipment that a restock's ship request starts. */
  ghost predicate Carries(cfg: Config, w: World<Agent>, id: RestockId, from: int, s: Tracking.Shipment) {
    && Shipments.IsStarted(cfg, w, s.id, s) && cfg.transport == Some(s.id.carrier)
    && s.ref == RestockRef(id) && s.freight == Restock && s.from == from
  }

  lemma StartedFrom(cfg: Config, a: int, mail: seq<Message>, tick: int, item: int,
          m: Message) returns (s: Tracking.Shipment)
    requires m in mail && m.payload.ShipRequest?
    ensures s.id.carrier == a && s.id.tick == tick && Tracking.Started(cfg, a, mail, tick, item, s.id) == [s]
    ensures s == Transport.NewShipment(cfg, a, m.payload, m.from, tick, s.id.item)
  {
    var n :| 0 <= n < |mail| && mail[n] == m;
    s := Transport.NewShipment(cfg, a, m.payload, m.from, tick, item + n);
  }

  lemma CarrierGets(cfg: Config, u: World<Agent>, m: Message)
    requires Consistent(cfg, u) && m in u.mail
    ensures m in Handled(TheMachine(cfg), u, m.to)
  {
    HandledIsMail(cfg, u, m.to);
    FilterComplete(ToAgent(m.to), u.mail, m);
  }

  lemma HopStarts(cfg: Config, w: World<Agent>, t: nat, m: Message, id: RestockId) returns (s: Tracking.Shipment)
    requires Initial(w) && LoopStaffed(cfg, w) && Consistent(cfg, At(cfg, w, t))
    requires m in At(cfg, w, t).mail && m.to == cfg.transport.value
    requires m.payload.ShipRequest? && m.payload.restock == Some(id) && m.payload.order == None && m.payload.freight == Restock
    ensures Carries(cfg, w, id, m.from, s) && s.start == t + 1 && s.eta == t + 1 + Transport.Transit(cfg, s.id)
  {
    hide At, Handled, HandledReplies, Consistent, Initial, Tracking.Started;
    var u := At(cfg, w, t);
    var a := cfg.transport.value;
    RunBasics(cfg, w, t);
    CarrierGets(cfg, u, m);
    s := StartedFrom(cfg, a, Handled(TheMachine(cfg), u, a), t + 1, |HandledReplies(TheMachine(cfg), u, a)|, m);
    assert Shipments.StartsNow(cfg, u, s.id) == [s];
  }

  /** The same shipment, but for the milestones it has passed. */
  predicate Same(s: Tracking.Shipment, s1: Tracking.Shipment) {
    s1.(milestones := {}) == s.(milestones := {})
  }

  lemma RoundOf(cfg: Config, a: int, s: Tracking.Shipment, tick: int)
    requires Due(cfg, a, Action.UpdateTracking, tick)
    ensures var (kept, ev) := Shipments.Round(cfg, a, [s], tick);
            if tick < s.eta then |kept| == 1 && Same(s, kept[0])
            else kept == [] && ev == [Transport.DeliveryEvent(a, s, tick)]
  {
    hide Transport.Milestone, Fires;
    Tracking.TrackSingle(a, s, tick);
  }

  lemma {:induction false} MessageOf(ev: seq<Event>, e: Event, m: Message)
    requires e in ev && m in e.messages
    ensures m in Msgs(ev)
  {
    if ev[0] != e {
      MessageOf(ev[1..], e, m);
    }
  }

  /** The shipment stays under way until it is due; then it leaves, with a notice to whoever sent it. */
  ghost predicate OnItsWay(cfg: Config, w: World<Agent>, s: Tracking.Shipment, t: nat) {
    var u := At(cfg, w, t);
    && IsCarrier(u, s.id.carrier)
    && (t < s.eta ==> |Shipments.UnderWay(u, s.id)| == 1 && Same(s, Shipments.UnderWay(u, s.id)[0]))
    && (t == s.eta ==> Message(s.id.carrier, s.from, t, DeliveryComplete(s.ref, s.id, s.freight)) in u.mail)
  }

  lemma HaulRound(cfg: Config, u: World<Agent>, s: Tracking.Shipment, s1: Tracking.Shipment)
    requires Inventory.Accounted(cfg, u) && IsCarrier(u, s.id.carrier)
    requires Shipments.UnderWay(u, s.id) + Shipments.StartsNow(cfg, u, s.id) == [s1] && Same(s, s1)
    requires Due(cfg, s.id.carrier, Action.UpdateTracking, u.tick + 1) && u.tick + 1 <= s.eta
    ensures var v := Step(TheMachine(cfg), u);
            && IsCarrier(v, s.id.carrier)
            && (u.tick + 1 < s.eta ==> |Shipments.UnderWay(v, s.id)| == 1 && Same(s, Shipments.UnderWay(v, s.id)[0]))
            && (u.tick + 1 == s.eta ==>
                  Message(s.id.carrier, s.from, u.tick + 1, DeliveryComplete(s.ref, s.id, s.freight)) in v.mail)
  {
    hide Step, Turn, Inventory.Accounted, Shipments.StartsNow, Shipments.UnderWay, Shipments.Round, Fires,
            Shipments.Reported, Block;
    var m := TheMachine(cfg);
    var a := s.id.carrier;
    Shipments.ShipmentTick(cfg, u, s.id);
    Shipments.ShipmentBlock(cfg, u, s.id);
    RoundOf(cfg, a, s1, u.tick + 1);
    if u.tick + 1 == s.eta {
      var e := Transport.DeliveryEvent(a, s1, u.tick + 1);
      assert e in [e];
      assert e in Block(m, u)(a);
      assert e.messages[0] in e.messages;
      MessageOf(Block(m, u)(a), e, e.messages[0]);
      MailArrives(m, u, a, e.messages[0]);
    }
  }

  lemma {:induction false} Hauled(cfg: Config, w: World<Agent>, s: Tracking.Shipment, t: nat)
    requires Initial(w) && IsCarrier(w, s.id.carrier) && TracksAlways(cfg, s.id.carrier)
    requires Shipments.IsStarted(cfg, w, s.id, s) && s.start == s.id.tick <= t <= s.eta
    ensures OnItsWay(cfg, w, s, t)
  {
    hide Step, Inventory.Accounted, Initial, Shipments.StartsNow, Shipments.UnderWay, Fires;
    var u := At(cfg, w, t - 1);
    RunBasics(cfg, w, t - 1);
    Inventory.AlwaysAccounted(cfg, w, t - 1);
    assert Due(cfg, s.id.carrier, Action.UpdateTracking, t);
    if t == s.start {
      Shipments.NotBefore(cfg, w, s.id, t - 1);
      assert [] + [s] == [s];
      HaulRound(cfg, u, s, s);
    } else {
      Hauled(cfg, w, s, t - 1);
      NotAgain(cfg, u, s.id);
      var s1 := Shipments.UnderWay(u, s.id)[0];
      assert Shipments.UnderWay(u, s.id) + [] == [s1];
      HaulRound(cfg, u, s, s1);
    }
    assert At(cfg, w, t) == Step(TheMachine(cfg), u);
  }

  lemma NotAgain(cfg: Config, u: World<Agent>, id: ShipmentId)
    requires u.tick + 1 != id.tick
    ensures Shipments.StartsNow(cfg, u, id) == []
  {
  }

  // -------------------------------------------------------------- the whole way

  /** The log shows the restock's credit, in a seller's entry of the given tick. */
  ghost predicate CreditedAt(w: World<Agent>, id: RestockId, tick: int) {
    exists e :: e in w.log && e.agent == id.seller && e.tick == tick && e.kind == StoreInventoryUpdate
                && e.writes == [UpdateInventory(id.sku, RESTOCK_QTY)]
  }

  lemma {:induction false} SellerCredits(cfg: Config, me: int, st: Seller.State, mail: seq<Message>, tick: int,
          item: int, m: Message)
    requires m in mail && m.payload.RestockDelivered?
    ensures Event(StoreInventoryUpdate, me, tick, [UpdateInventory(m.payload.sku, m.payload.qty)], [], [])
            in Seller.Mail(cfg, me, st, mail, tick, item).1
    decreases |mail|
  {
    var (st1, ev1) := Seller.OnMessage(cfg, me, st, mail[0], tick, item);
    if mail[0] != m {
      SellerCredits(cfg, me, st1, mail[1..], tick, item + 1, m);
    }
  }

  lemma HopCredits(cfg: Config, u: World<Agent>, m: Message, id: RestockId)
    requires Consistent(cfg, u) && m in u.mail && m.payload == RestockDelivered(id, id.sku, RESTOCK_QTY)
    ensures CreditedAt(Step(TheMachine(cfg), u), id, u.tick + 1)
  {
    hide Seller.Replies, Seller.Mail, Expire;
    var s := id.seller;
    var machine := TheMachine(cfg);
    assert Truthful(u, m) && IsSeller(u, s) && m.to == s;
    HandledIsMail(cfg, u, s);
    FilterComplete(ToAgent(s), u.mail, m);
    TurnIs(cfg, u, s);
    var xs := HandledReplies(machine, u, s);
    var st1 := Seller.Replies(cfg, s, u.agents[s].s, xs, u.tick + 1, 0).0;
    SellerCredits(cfg, s, st1, Handled(machine, u, s), u.tick + 1, |xs|, m);
    var e := Event(StoreInventoryUpdate, s, u.tick + 1, [UpdateInventory(id.sku, RESTOCK_QTY)], [], []);
    assert e in Turn(machine, u, s).1;
    EventLogged(machine, u, s, e);
  }

  lemma EventLogged(m: Machine<Agent>, w: World<Agent>, a: int, e: Event)
    requires a in w.agents && e in Turn(m, w, a).1
    ensures e in Step(m, w).log
  {
    assert a in w.agents.Keys;
    BlockIs(m, w, a);
    InCat(Block(m, w), SortedIds(w.agents.Keys), a, e);
  }

  /**
   * Every restock arrives, and on a known date: if tracking fires at every tick, a restock ordered at
   * tick t is started as a shipment of its own at t + 2, handed over to its seller at t + 3 + transit, and
   * credited to the seller's stock, with its SKU and quantity, at t + 4 + transit, where transit is the
   * transit time of that shipment.
   */
  lemma RestockDate(cfg: Config, w: World<Agent>, t: nat, m: Message) returns (s: Tracking.Shipment, transit: nat)
    requires Initial(w) && LoopStaffed(cfg, w) && TracksAlways(cfg, cfg.transport.value) && cfg.baseTransit >= 0
    requires m in At(cfg, w, t).mail && m.payload.RestockOrder?
    ensures transit == Transport.Transit(cfg, s.id) && cfg.baseTransit <= transit <= cfg.baseTransit + 2
    ensures Shipments.IsStarted(cfg, w, s.id, s) && s.ref == RestockRef(m.payload.id) && s.from == m.to
    ensures s.id.carrier == cfg.transport.value && s.id.tick == t + 2
    ensures Handover(s.from, t + 3 + transit, m.payload.id) in At(cfg, w, t + 3 + transit).mail
    ensures CreditedAt(At(cfg, w, t + 4 + transit), m.payload.id, t + 4 + transit)
  {
    hide Step, Consistent, Truthful, Initial, Shipments.IsStarted, TracksAlways, CreditedAt, OnItsWay;
    var id := m.payload.id;
    AlwaysConsistent(cfg, w, t);
    AlwaysConsistent(cfg, w, t + 1);
    Ticks(cfg, w, t);
    HopShips(cfg, At(cfg, w, t), m);
    assert id.seller == m.payload.store by { OrderTruth(cfg, At(cfg, w, t), m); }
    var order := ShipOrder(cfg, m.to, t + 1, id, m.payload.store);
    s := HopStarts(cfg, w, t + 1, order, id);
    transit := Transport.Transit(cfg, s.id);
    var eta: nat := t + 2 + transit;
    StartTick(cfg, w, s);
    Hauled(cfg, w, s, eta);
    var notice := Message(s.id.carrier, s.from, eta, DeliveryComplete(s.ref, s.id, s.freight));
    assert notice in At(cfg, w, eta).mail by { Arrived(cfg, w, s, eta); }
    AlwaysConsistent(cfg, w, eta);
    Ticks(cfg, w, eta);
    HopForwards(cfg, At(cfg, w, eta), notice);
    AlwaysConsistent(cfg, w, eta + 1);
    Ticks(cfg, w, eta + 1);
    HopCredits(cfg, At(cfg, w, eta + 1), Handover(s.from, eta + 1, id), id);
  }

  lemma Ticks(cfg: Config, w: World<Agent>, t: nat)
    requires Initial(w)
    ensures At(cfg, w, t).tick == t && At(cfg, w, t + 1) == Step(TheMachine(cfg), At(cfg, w, t))
  {
    hide Step;
    RunBasics(cfg, w, t);
  }

  lemma OrderTruth(cfg: Config, u: World<Agent>, m: Message)
    requires Consistent(cfg, u) && m in u.mail && m.payload.RestockOrder?
    ensures m.payload.store == m.payload.id.seller
  {
    assert Truthful(u, m);
  }

  lemma StartTick(cfg: Config, w: World<Agent>, s: Tracking.Shipment)
    requires Initial(w) && Shipments.IsStarted(cfg, w, s.id, s)
    ensures s.start == s.id.tick
  {
    Shipments.StartedAs(cfg, w, s.id, s);
  }

  lemma Arrived(cfg: Config, w: World<Agent>, s: Tracking.Shipment, t: nat)
    requires OnItsWay(cfg, w, s, t) && t == s.eta
    ensures Message(s.id.carrier, s.from, t, DeliveryComplete(s.ref, s.id, s.freight)) in At(cfg, w, t).mail
  {
  }
}
