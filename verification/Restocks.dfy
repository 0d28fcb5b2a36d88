/**
 * The restock loop: seller, supplier, carrier, supplier, seller. Weights on restock ids are conserved
 * along the loop, for every weighting; so quantities are, and so is every single restock.
 */
module Restocks {
  import opened Seqs
  import opened Messages
  import opened Settings
  import opened Engine
  import opened Simulation
  import opened Manners
  import SellerSide
  import Seller
  import Supplier
  import Transport

  type Weight = RestockId -> int

  /** The peers of the loop are registered: the carrier, and every supplier of the catalog. */
  ghost predicate LoopStaffed(cfg: Config, w: World<Agent>) {
    && Truthy(cfg.transport) && cfg.transport.value in w.agents && w.agents[cfg.transport.value].T?
    && forall sku :: SupplierOf(cfg, sku).Some? ==> IsSupplier(w, SupplierOf(cfg, sku).value)
  }

  predicate IsSupplier(w: World<Agent>, a: int) { a in w.agents && w.agents[a].P? }

  predicate IsSeller(w: World<Agent>, a: int) { a in w.agents && w.agents[a].S? }

  predicate IsCarrier(w: World<Agent>, a: int) { a in w.agents && w.agents[a].T? }

  /** A supplier that has the restock on its books. */
  predicate Booked(w: World<Agent>, a: int, id: RestockId) {
    IsSupplier(w, a) && id in w.agents[a].p.orders
  }

  // -------------------------------------------------------------- what is on its way

  /** The weight that a message carries towards its supplier's forwarding. */
  function Load(f: Weight): Message -> int {
    (m: Message) =>
      match m.payload
      case RestockOrder(id, _, _, _) => f(id)
      case ShipRequest(_, restock, _, _, _, _, freight) => if freight == Restock && restock.Some? then f(restock.value) else 0
      case DeliveryComplete(ref, _, freight) => if freight == Restock && ref.RestockRef? then f(ref.restock) else 0
      case _ => 0
  }

  function Aboard(f: Weight): Transport.Shipment -> int {
    (s: Transport.Shipment) => if s.freight == Restock && s.ref.RestockRef? then f(s.ref.restock) else 0
  }

  function Stowed(f: Weight): (int, Agent) -> int {
    (a: int, st: Agent) => if st.T? then Sum(Aboard(f), st.t.active) else 0
  }

  function Ordered(f: Weight): Message -> int {
    (m: Message) => if m.payload.RestockOrder? then f(m.payload.id) else 0
  }

  function Forwarded(f: Weight): Message -> int {
    (m: Message) => if m.payload.RestockDelivered? then f(m.payload.id) else 0
  }

  /** What an event adds to the loop: what it orders, less what it forwards. */
  function Intake(f: Weight): Event -> int {
    (e: Event) => Sum(Ordered(f), e.messages) - Sum(Forwarded(f), e.messages)
  }

  lemma {:induction false} IntakeSum(f: Weight, ev: seq<Event>)
    ensures Sum(Intake(f), ev) == Sum(Ordered(f), Msgs(ev)) - Sum(Forwarded(f), Msgs(ev))
  {
    if ev != [] {
      IntakeSum(f, ev[1..]);
      SumAppend(Ordered(f), ev[0].messages, Msgs(ev[1..]));
      SumAppend(Forwarded(f), ev[0].messages, Msgs(ev[1..]));
    }
  }

  // -------------------------------------------------------------- consistency

  /** A restock id tells who ordered it and what; messages about it agree with it. */
  ghost predicate Truthful(w: World<Agent>, m: Message) {
    match m.payload
    case RestockOrder(id, sku, qty, store) =>
      id.seller == m.from && store == m.from && id.sku == sku && qty == RESTOCK_QTY
      && IsSupplier(w, m.to) && IsSeller(w, id.seller)
    case ShipRequest(order, restock, origin, destination, sku, qty, freight) =>
      if freight == Restock
      then order == None && restock.Some? && IsCarrier(w, m.to) && Booked(w, m.from, restock.value)
           && origin == m.from && destination == restock.value.seller && sku == restock.value.sku && qty == RESTOCK_QTY
      else IsSeller(w, m.from)
    case DeliveryComplete(ref, _, freight) =>
      if freight == Restock then ref.RestockRef? && Booked(w, m.to, ref.restock) else IsSeller(w, m.to)
    case RestockDelivered(id, sku, qty) =>
      m.to == id.seller && sku == id.sku && qty == RESTOCK_QTY && IsSeller(w, id.seller)
    case _ => true
  }

  ghost predicate Honest(w: World<Agent>, st: Agent) {
    match st
    case P(p) => forall id :: id in p.orders ==> p.orders[id] == Supplier.Sale(id.seller, id.sku, RESTOCK_QTY) && IsSeller(w, id.seller)
    case T(t) => forall s :: s in t.active ==>
                   if s.freight == Restock then s.ref.RestockRef? && Booked(w, s.from, s.ref.restock) else IsSeller(w, s.from)
    case _ => true
  }

  ghost predicate Consistent(cfg: Config, w: World<Agent>) {
    && LoopStaffed(cfg, w) && Sorted(MailKey, w.mail) && w.queued == []
    && (forall m :: m in w.mail ==> Truthful(w, m) && SellerSide.Numbered(cfg, m))
    && (forall a :: a in w.agents ==> Honest(w, w.agents[a]))
    && (forall a :: a in w.agents && w.agents[a].T? ==> OwnBacklog(w.agents[a].t, a))
    && (forall a :: a in w.agents && w.agents[a].S? ==> SellerSide.Books(cfg, w.agents[a].s))
  }

  // -------------------------------------------------------------- suppliers

  ghost predicate HonestBooks(orders: map<RestockId, Supplier.Sale>) {
    forall id :: id in orders ==> orders[id] == Supplier.Sale(id.seller, id.sku, RESTOCK_QTY)
  }

  /** What a supplier may be sent about restocks. */
  ghost predicate ForSupplier(orders: map<RestockId, Supplier.Sale>, m: Message) {
    match m.payload
    case RestockOrder(id, sku, qty, store) => id.seller == m.from && store == m.from && id.sku == sku && qty == RESTOCK_QTY
    case ShipRequest(_, _, _, _, _, _, freight) => freight != Restock
    case DeliveryComplete(ref, _, freight) => freight == Restock && ref.RestockRef? && ref.restock in orders
    case _ => true
  }

  lemma OneMessageSum(f: Weight, e: Event, m: Message)
    requires e.messages == [m]
    ensures Msgs([e]) == [m] && Sum(Load(f), Msgs([e])) == Load(f)(m)
    ensures Sum(Intake(f), [e]) == Ordered(f)(m) - Forwarded(f)(m)
  {
    MsgsOne(e);
    SumOne(Load(f), m);
    SumOne(Ordered(f), m);
    SumOne(Forwarded(f), m);
    SumOne(Intake(f), e);
  }

  lemma SupplierOne(cfg: Config, me: int, st: Supplier.State, m: Message, tick: int, f: Weight)
    requires Truthy(cfg.transport) && HonestBooks(st.orders) && ForSupplier(st.orders, m)
    requires m.payload.DeliveryComplete? ==> m.payload.freight == Restock
    ensures var (st1, ev) := Supplier.OnMessage(cfg, me, st, m, tick);
            && HonestBooks(st1.orders) && st.orders.Keys <= st1.orders.Keys
            && Sum(Load(f), Msgs(ev)) == Load(f)(m) + Sum(Intake(f), ev)
  {
    var (st1, ev) := Supplier.OnMessage(cfg, me, st, m, tick);
    if ev != [] {
      assert ev == [ev[0]] && ev[0].messages == [ev[0].messages[0]];
      OneMessageSum(f, ev[0], ev[0].messages[0]);
    }
  }

  lemma {:induction false} SupplierMail(cfg: Config, me: int, st: Supplier.State, mail: seq<Message>, tick: int,
          f: Weight)
    requires Truthy(cfg.transport) && HonestBooks(st.orders)
    requires forall m :: m in mail ==> ForSupplier(st.orders, m)
    ensures var (st1, ev) := Supplier.Mail(cfg, me, st, mail, tick);
            && HonestBooks(st1.orders) && st.orders.Keys <= st1.orders.Keys
            && Sum(Load(f), Msgs(ev)) == Sum(Load(f), mail) + Sum(Intake(f), ev)
    decreases |mail|
  {
    if mail != [] {
      var (st1, ev1) := Supplier.OnMessage(cfg, me, st, mail[0], tick);
      var (st2, ev2) := Supplier.Mail(cfg, me, st1, mail[1..], tick);
      SupplierOne(cfg, me, st, mail[0], tick, f);
      forall m | m in mail[1..] ensures ForSupplier(st1.orders, m) {
        assert ForSupplier(st.orders, m);
      }
      SupplierMail(cfg, me, st1, mail[1..], tick, f);
      MsgsAppend(ev1, ev2);
      SumAppend(Load(f), Msgs(ev1), Msgs(ev2));
      SumAppend(Intake(f), ev1, ev2);
    }
  }

  /** A supplier tells the truth: what it ships is on its books, what it forwards is what was ordered. */
  ghost predicate SupplierWord(orders: map<RestockId, Supplier.Sale>, transport: Option<int>, me: int, m: Message) {
    match m.payload
    case ShipRequest(order, restock, origin, destination, sku, qty, freight) =>
      freight == Restock && order == None && restock.Some? && restock.value in orders
      && origin == m.from && destination == restock.value.seller && sku == restock.value.sku && qty == RESTOCK_QTY
      && m.from == me && Truthy(transport) && m.to == transport.value
    case RestockDelivered(id, sku, qty) => id in orders && m.to == id.seller && sku == id.sku && qty == RESTOCK_QTY
    case _ => false
  }

  ghost predicate AllWords(orders: map<RestockId, Supplier.Sale>, transport: Option<int>, me: int, ev: seq<Event>) {
    forall m :: m in Msgs(ev) ==> SupplierWord(orders, transport, me, m)
  }

  lemma SupplierWordsOne(cfg: Config, me: int, st: Supplier.State, m: Message, tick: int)
    requires Truthy(cfg.transport) && HonestBooks(st.orders) && ForSupplier(st.orders, m)
    ensures var (st1, ev) := Supplier.OnMessage(cfg, me, st, m, tick);
            HonestBooks(st1.orders) && st.orders.Keys <= st1.orders.Keys && AllWords(st1.orders, cfg.transport, me, ev)
  {
    var ev := Supplier.OnMessage(cfg, me, st, m, tick).1;
    if ev != [] {
      assert ev == [ev[0]] && ev[0].messages == [ev[0].messages[0]];
      MsgsOne(ev[0]);
    }
  }

  lemma ForSupplierLater(orders: map<RestockId, Supplier.Sale>, orders1: map<RestockId, Supplier.Sale>, m: Message)
    requires ForSupplier(orders, m) && orders.Keys <= orders1.Keys
    ensures ForSupplier(orders1, m)
  {
    assert forall id :: id in orders ==> id in orders1.Keys;
  }

  lemma WordsLater(orders: map<RestockId, Supplier.Sale>, orders1: map<RestockId, Supplier.Sale>,
          transport: Option<int>, me: int,
                   ev: seq<Event>)
    requires AllWords(orders, transport, me, ev) && orders.Keys <= orders1.Keys
    ensures AllWords(orders1, transport, me, ev)
  {
    assert forall id :: id in orders ==> id in orders1.Keys;
    forall m | m in Msgs(ev) ensures SupplierWord(orders1, transport, me, m) {
      assert SupplierWord(orders, transport, me, m);
    }
  }

  lemma WordsAppend(orders: map<RestockId, Supplier.Sale>, transport: Option<int>, me: int, ev1: seq<Event>,
          ev2: seq<Event>)
    requires AllWords(orders, transport, me, ev1) && AllWords(orders, transport, me, ev2)
    ensures AllWords(orders, transport, me, ev1 + ev2)
  {
    MsgsAppend(ev1, ev2);
  }

  lemma {:induction false} SupplierWords(cfg: Config, me: int, st: Supplier.State, mail: seq<Message>, tick: int)
    requires Truthy(cfg.transport) && HonestBooks(st.orders)
    requires forall m :: m in mail ==> ForSupplier(st.orders, m)
    ensures var (st1, ev) := Supplier.Mail(cfg, me, st, mail, tick);
            HonestBooks(st1.orders) && st.orders.Keys <= st1.orders.Keys && AllWords(st1.orders, cfg.transport, me, ev)
    decreases |mail|
  {
    if mail != [] {
      hide Supplier.OnMessage, ForSupplier, HonestBooks, AllWords;
      var (st1, ev1) := Supplier.OnMessage(cfg, me, st, mail[0], tick);
      var (st2, ev2) := Supplier.Mail(cfg, me, st1, mail[1..], tick);
      SupplierWordsOne(cfg, me, st, mail[0], tick);
      forall m | m in mail[1..] ensures ForSupplier(st1.orders, m) {
        assert m in mail;
        ForSupplierLater(st.orders, st1.orders, m);
      }
      SupplierWords(cfg, me, st1, mail[1..], tick);
      WordsLater(st1.orders, st2.orders, cfg.transport, me, ev1);
      WordsAppend(st2.orders, cfg.transport, me, ev1, ev2);
    }
  }

  /** The seller of every restock on a supplier's books ordered it. */
  lemma {:induction false} SupplierSellers(cfg: Config, w: World<Agent>, me: int, st: Supplier.State,
          mail: seq<Message>, tick: int)
    requires forall id :: id in st.orders ==> IsSeller(w, id.seller)
    requires forall m :: m in mail && m.payload.RestockOrder? ==> IsSeller(w, m.payload.id.seller)
    ensures forall id :: id in Supplier.Mail(cfg, me, st, mail, tick).0.orders ==> IsSeller(w, id.seller)
    decreases |mail|
  {
    if mail != [] {
      SupplierSellers(cfg, w, me, Supplier.OnMessage(cfg, me, st, mail[0], tick).0, mail[1..], tick);
    }
  }

  // -------------------------------------------------------------- carriers

  lemma CarrierMail(cfg: Config, me: int, st: Transport.State, mail: seq<Message>, tick: int, item: int, f: Weight)
    requires forall m :: m in mail && m.payload.ShipRequest? && m.payload.freight == Restock ==>
               m.payload.order == None && m.payload.restock.Some?
    requires forall m :: m in mail ==> m.payload.ShipRequest? || Load(f)(m) == 0
    ensures Sum(Aboard(f), Transport.Mail(cfg, me, st, mail, tick, item).active)
         == Sum(Aboard(f), st.active) + Sum(Load(f), mail)
    decreases |mail|
  {
    if mail != [] {
      var m := mail[0];
      assert m in mail;
      if m.payload.ShipRequest? {
        var s := Transport.NewShipment(cfg, me, m.payload, m.from, tick, item);
        SumAppend(Aboard(f), st.active, [s]);
        SumOne(Aboard(f), s);
        CarrierMail(cfg, me, Transport.OnShipRequest(cfg, me, st, m.payload, m.from, tick, item), mail[1..], tick, item + 1, f);
      } else {
        CarrierMail(cfg, me, st, mail[1..], tick, item + 1, f);
      }
    }
  }

  lemma TrackOneSum(me: int, s: Transport.Shipment, tick: int, f: Weight)
    ensures var (kept, ev) := Transport.TrackOne(me, s, tick);
            Sum(Aboard(f), kept) + Sum(Load(f), Msgs(ev)) == Aboard(f)(s) && Sum(Intake(f), ev) == 0
  {
    var (kept, ev) := Transport.TrackOne(me, s, tick);
    if kept != [] {
      assert kept == [kept[0]];
      SumOne(Aboard(f), kept[0]);
    }
    if ev != [] {
      assert ev == [ev[0]];
      if ev[0].messages != [] {
        assert ev[0].messages == [ev[0].messages[0]];
        OneMessageSum(f, ev[0], ev[0].messages[0]);
      } else {
        MsgsOne(ev[0]);
        SumOne(Intake(f), ev[0]);
      }
    }
  }

  lemma {:induction false} TrackSum(me: int, active: seq<Transport.Shipment>, tick: int, f: Weight)
    ensures var (kept, ev) := Transport.Track(me, active, tick);
            Sum(Aboard(f), kept) + Sum(Load(f), Msgs(ev)) == Sum(Aboard(f), active) && Sum(Intake(f), ev) == 0
    decreases |active|
  {
    if active != [] {
      var (kept1, ev1) := Transport.TrackOne(me, active[0], tick);
      var (kept2, ev2) := Transport.Track(me, active[1..], tick);
      TrackOneSum(me, active[0], tick, f);
      TrackSum(me, active[1..], tick, f);
      SumAppend(Aboard(f), kept1, kept2);
      MsgsAppend(ev1, ev2);
      SumAppend(Load(f), Msgs(ev1), Msgs(ev2));
      SumAppend(Intake(f), ev1, ev2);
    }
  }

  lemma {:induction false} QuietIntake(f: Weight, ev: seq<Event>)
    requires forall e :: e in ev ==> e.messages == []
    ensures Sum(Intake(f), ev) == 0 && Msgs(ev) == []
  {
    if ev != [] {
      var e := ev[0];
      assert e in ev;
      QuietIntake(f, ev[1..]);
    }
  }

  lemma CarrierSum(cfg: Config, me: int, st: Transport.State, mail: seq<Message>, tick: int, item: int, f: Weight)
    requires OwnBacklog(st, me)
    requires forall m :: m in mail && m.payload.ShipRequest? && m.payload.freight == Restock ==>
               m.payload.order == None && m.payload.restock.Some?
    requires forall m :: m in mail ==> m.payload.ShipRequest? || Load(f)(m) == 0
    ensures var (st1, ev) := Transport.Step(cfg, me, st, mail, tick, item);
            Sum(Aboard(f), st1.active) + Sum(Load(f), Msgs(ev))
              == Sum(Aboard(f), st.active) + Sum(Load(f), mail) + Sum(Intake(f), ev)
  {
    hide Transport.Mail, Transport.Track, Aboard, Load, Intake, Fires;
    var st1 := Transport.Mail(cfg, me, st, mail, tick, item);
    CarrierMail(cfg, me, st, mail, tick, item, f);
    Manners.CarrierMail(cfg, me, st, mail, tick, item);
    if Due(cfg, me, Action.UpdateTracking, tick) {
      var (kept, ev) := Transport.Track(me, st1.active, tick);
      TrackSum(me, st1.active, tick, f);
      QuietIntake(f, st1.backlog);
      MsgsAppend(st1.backlog, ev);
      SumAppend(Intake(f), st1.backlog, ev);
      assert [] + Msgs(ev) == Msgs(ev);
    }
  }

  // -------------------------------------------------------------- everyone else

  /** Agents that neither take nor pass on restocks: what they send on is what they order. */
  lemma {:induction false} SpeechSums(f: Weight, ms: seq<Message>)
    requires forall m :: m in ms ==> !m.payload.RestockDelivered? && !m.payload.DeliveryComplete?
                                      && (m.payload.ShipRequest? ==> m.payload.freight == ConsumerOrder)
    ensures Sum(Load(f), ms) == Sum(Ordered(f), ms) && Sum(Forwarded(f), ms) == 0
  {
    if ms != [] {
      assert ms[0] in ms;
      SpeechSums(f, ms[1..]);
    }
  }

  lemma SpeakersBalance(f: Weight, ev: seq<Event>, me: int, tick: int, said: Message -> bool, asked: Topic -> bool)
    requires AllSay(ev, me, tick, said, asked)
    requires forall m :: said(m) ==> !m.payload.RestockDelivered? && !m.payload.DeliveryComplete?
                                      && (m.payload.ShipRequest? ==> m.payload.freight == ConsumerOrder)
    ensures Sum(Load(f), Msgs(ev)) == Sum(Intake(f), ev)
  {
    Spoken(ev, me, tick, said, asked);
    SpeechSums(f, Msgs(ev));
    IntakeSum(f, ev);
  }

  // -------------------------------------------------------------- words of sellers and carriers

  /** A seller's restock order names itself, its catalog's supplier, and what it orders. */
  ghost predicate SellerWord(cfg: Config, me: int, m: Message) {
    m.payload.RestockOrder? ==>
      && m.payload.id.seller == me && m.payload.store == me && m.from == me && m.payload.id.tick == m.tickSent
      && m.payload.sku == m.payload.id.sku && m.payload.qty == RESTOCK_QTY
      && SupplierOf(cfg, m.payload.sku) == Some(m.to)
  }

  lemma SellerRows(cfg: Config, me: int, st: Seller.State, rows: seq<StockRow>, tick: int, item: int, row: int)
    ensures forall m :: m in Seller.RestockRows(cfg, me, st, rows, tick, item, row).1 ==> SellerWord(cfg, me, m)
    decreases |rows|
  {
  }

  ghost predicate SellerWords(cfg: Config, me: int, ev: seq<Event>) {
    forall e :: e in ev ==> forall i :: 0 <= i < |e.messages| ==> SellerWord(cfg, me, e.messages[i])
  }

  lemma {:induction false} WordsOf(cfg: Config, me: int, ev: seq<Event>)
    requires SellerWords(cfg, me, ev)
    ensures forall m :: m in Msgs(ev) ==> SellerWord(cfg, me, m)
  {
    if ev != [] {
      var e := ev[0];
      assert e in ev;
      WordsOf(cfg, me, ev[1..]);
    }
  }

  lemma SellerReplyWords(cfg: Config, me: int, st: Seller.State, x: Reply, tick: int, item: int)
    ensures SellerWords(cfg, me, Seller.OnReply(cfg, me, st, x, tick, item).1)
  {
    if x.id in st.queries {
      SellerRows(cfg, me, st.(queries := st.queries - {x.id}), Seller.StockRows(x.data), tick, item, 0);
    }
  }

  lemma {:induction false} SellerRepliesWords(cfg: Config, me: int, st: Seller.State, xs: seq<Reply>, tick: int,
          item: int)
    ensures SellerWords(cfg, me, Seller.Replies(cfg, me, st, xs, tick, item).1)
    decreases |xs|
  {
    if xs != [] {
      SellerReplyWords(cfg, me, st, xs[0], tick, item);
      SellerRepliesWords(cfg, me, Seller.OnReply(cfg, me, st, xs[0], tick, item).0, xs[1..], tick, item + 1);
    }
  }

  lemma {:induction false} SellerMailWords(cfg: Config, me: int, st: Seller.State, mail: seq<Message>, tick: int,
          item: int)
    ensures SellerWords(cfg, me, Seller.Mail(cfg, me, st, mail, tick, item).1)
    decreases |mail|
  {
    if mail != [] {
      SellerMailWords(cfg, me, Seller.OnMessage(cfg, me, st, mail[0], tick, item).0, mail[1..], tick, item + 1);
    }
  }

  lemma SellerStepWords(cfg: Config, me: int, st: Seller.State, xs: seq<Reply>, mail: seq<Message>, tick: int)
    ensures forall m :: m in Msgs(Seller.Step(cfg, me, st, xs, mail, tick).1) ==> SellerWord(cfg, me, m)
  {
    SellerRepliesWords(cfg, me, st, xs, tick, 0);
    SellerMailWords(cfg, me, Seller.Replies(cfg, me, st, xs, tick, 0).0, mail, tick, |xs|);
    WordsOf(cfg, me, Seller.Step(cfg, me, st, xs, mail, tick).1);
  }

  type Trait = (Freight, Ref, int) -> bool

  ghost predicate AllAre(q: Trait, active: seq<Transport.Shipment>) {
    forall s :: s in active ==> q(s.freight, s.ref, s.from)
  }

  lemma {:induction false} TakenAre(cfg: Config, me: int, st: Transport.State, mail: seq<Message>, tick: int,
          item: int, q: Trait)
    requires AllAre(q, st.active)
    requires forall m :: m in mail && m.payload.ShipRequest? ==>
               q(m.payload.freight, Transport.OrderRef(m.payload.order, m.payload.restock), m.from)
    ensures AllAre(q, Transport.Mail(cfg, me, st, mail, tick, item).active)
    decreases |mail|
  {
    if mail != [] {
      var m := mail[0];
      assert m in mail;
      var st1 := if m.payload.ShipRequest? then Transport.OnShipRequest(cfg, me, st, m.payload, m.from, tick, item) else st;
      TakenAre(cfg, me, st1, mail[1..], tick, item + 1, q);
    }
  }

  lemma {:induction false} TrackedAre(me: int, active: seq<Transport.Shipment>, tick: int, q: Trait)
    requires AllAre(q, active)
    ensures var (kept, ev) := Transport.Track(me, active, tick);
            AllAre(q, kept)
            && forall m :: m in Msgs(ev) ==> m.payload.DeliveryComplete? && q(m.payload.freight, m.payload.ref, m.to)
    decreases |active|
  {
    if active != [] {
      var s := active[0];
      assert s in active;
      var (kept1, ev1) := Transport.TrackOne(me, s, tick);
      var (kept2, ev2) := Transport.Track(me, active[1..], tick);
      TrackedAre(me, active[1..], tick, q);
      MsgsAppend(ev1, ev2);
      if ev1 != [] {
        assert ev1 == [ev1[0]];
        MsgsOne(ev1[0]);
      }
    }
  }

  lemma CarrierWords(cfg: Config, me: int, st: Transport.State, mail: seq<Message>, tick: int, item: int, q: Trait)
    requires OwnBacklog(st, me) && AllAre(q, st.active)
    requires forall m :: m in mail && m.payload.ShipRequest? ==>
               q(m.payload.freight, Transport.OrderRef(m.payload.order, m.payload.restock), m.from)
    ensures var (st1, ev) := Transport.Step(cfg, me, st, mail, tick, item);
            AllAre(q, st1.active)
            && forall m :: m in Msgs(ev) ==> m.payload.DeliveryComplete? && q(m.payload.freight, m.payload.ref, m.to)
  {
    var st1 := Transport.Mail(cfg, me, st, mail, tick, item);
    TakenAre(cfg, me, st, mail, tick, item, q);
    Manners.CarrierMail(cfg, me, st, mail, tick, item);
    TrackedAre(me, st1.active, tick, q);
    QuietIntake(id => 0, st1.backlog);
    MsgsAppend(st1.backlog, Transport.Track(me, st1.active, tick).1);
  }
}
