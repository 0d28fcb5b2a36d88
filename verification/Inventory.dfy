/** The inventory ledger over whole runs. */
module Inventory {
  import opened Seqs
  import opened Messages
  import opened Settings
  import opened Engine
  import opened Routing
  import opened Simulation
  import opened Manners
  import opened SellerSide
  import opened RestockResults
  import opened Ledger
  import Restocks
  import RestockLoop
  import Consumer
  import Seller
  import Supplier
  import Transport

  // -------------------------------------------------------------- what must hold between ticks

  /** If s is a seller, then it has been paid for the order that the reference names. */
  ghost predicate Owes(w: World<Agent>, s: int, ref: Ref) {
    ref.StoreRef? && Restocks.IsSeller(w, s) ==> PaidFor(w.agents[s].s, ref.number)
  }

  /** Shipments of consumer orders are under way only for orders that have been paid. */
  ghost predicate Backed(w: World<Agent>, m: Message) {
    match m.payload
    case ShipRequest(order, restock, _, _, _, _, freight) =>
      freight == ConsumerOrder ==> Owes(w, m.from, Transport.OrderRef(order, restock))
    case DeliveryComplete(ref, _, freight) => freight == ConsumerOrder ==> Owes(w, m.to, ref)
    case PlaceOrder(rid, _, _, _) => rid.tick == w.tick
    case _ => true
  }

  ghost function Laden(w: World<Agent>): Restocks.Trait {
    (freight: Freight, ref: Ref, from: int) => freight == ConsumerOrder ==> Owes(w, from, ref)
  }

  ghost predicate Accountable(cfg: Config, w: World<Agent>, a: int, st: Agent) {
    match st
    case S(s) => Orderly(cfg, s, w.tick)
    case T(t) => OwnBacklog(t, a) && Restocks.AllAre(Laden(w), t.active)
    case _ => true
  }

  ghost predicate Accounted(cfg: Config, w: World<Agent>) {
    && Sorted(MailKey, w.mail)
    && (forall m :: m in w.mail ==> Numbered(cfg, m) && Backed(w, m))
    && (forall a :: a in w.agents ==> Accountable(cfg, w, a, w.agents[a]))
  }

  // -------------------------------------------------------------- one turn

  lemma InboxIs(cfg: Config, w: World<Agent>, a: int)
    requires Accounted(cfg, w)
    ensures var mail := Handled(TheMachine(cfg), w, a);
            mail == Filter(ToAgent(a), w.mail) && forall m :: m in mail ==> Numbered(cfg, m) && Backed(w, m) && m.to == a
  {
    HandledInOrder(cfg, w, a);
  }

  lemma SellerExpects(cfg: Config, w: World<Agent>, a: int)
    requires Accounted(cfg, w) && Restocks.IsSeller(w, a)
    ensures forall m :: m in Handled(TheMachine(cfg), w, a) ==> Expected(cfg, w.agents[a].s, w.tick, m)
  {
    InboxIs(cfg, w, a);
    forall m | m in Handled(TheMachine(cfg), w, a) ensures Expected(cfg, w.agents[a].s, w.tick, m) {
      assert Backed(w, m);
    }
  }

  lemma SellerTurn(cfg: Config, w: World<Agent>, a: int)
    requires Accounted(cfg, w) && Restocks.IsSeller(w, a)
    ensures var (st1, ev) := Turn(TheMachine(cfg), w, a);
            st1.S? && KeepsOrder(cfg, w.agents[a].s, st1.s, ev, w.tick)
  {
    hide Seller.Step, KeepsOrder, Expected, Handled, HandledReplies, Turn;
    var m := TheMachine(cfg);
    TurnIs(cfg, w, a);
    SellerExpects(cfg, w, a);
    assert Accountable(cfg, w, a, w.agents[a]);
    StepOrderly(cfg, a, w.agents[a].s, HandledReplies(m, w, a), Handled(m, w, a), w.tick + 1, w.tick);
  }

  lemma OwesLater(cfg: Config, w: World<Agent>, s: int, ref: Ref)
    requires Accounted(cfg, w) && Owes(w, s, ref)
    ensures Owes(Step(TheMachine(cfg), w), s, ref)
  {
    hide Step, Turn, Accounted, PaidFor;
    var w1 := Step(TheMachine(cfg), w);
    RestockLoop.RoleKept(cfg, w, s);
    StepAgent(TheMachine(cfg), w, s);
    if Restocks.IsSeller(w, s) && ref.StoreRef? {
      SellerTurn(cfg, w, s);
      AdvancesPaid(w.agents[s].s, w1.agents[s].s, ref.number);
    }
  }

  /** What one agent's turn must leave for the world to stay accounted for. */
  ghost predicate TurnAccounts(cfg: Config, w: World<Agent>, w1: World<Agent>, a: int)
    requires a in w.agents
  {
    var (st1, ev) := Turn(TheMachine(cfg), w, a);
    Accountable(cfg, w1, a, st1) && forall m :: m in Msgs(ev) ==> Numbered(cfg, m) && Backed(w1, m)
  }

  lemma ConsumerAccounts(cfg: Config, w: World<Agent>, w1: World<Agent>, a: int)
    requires Accounted(cfg, w) && w1.tick == w.tick + 1 && a in w.agents && w.agents[a].C?
    ensures TurnAccounts(cfg, w, w1, a)
  {
    hide Consumer.Step;
    var m := TheMachine(cfg);
    InboxIs(cfg, w, a);
    TurnIs(cfg, w, a);
    ConsumerStep(cfg, a, w.agents[a].c, HandledReplies(m, w, a), Handled(m, w, a), w.tick + 1);
    Spoken(Turn(m, w, a).1, a, w.tick + 1, ConsumerSays(cfg), ConsumerAsks());
  }

  lemma SellerAccounts(cfg: Config, w: World<Agent>, w1: World<Agent>, a: int)
    requires Accounted(cfg, w) && w1.tick == w.tick + 1 && Restocks.IsSeller(w, a)
    requires a in w1.agents && w1.agents[a] == Turn(TheMachine(cfg), w, a).0
    ensures TurnAccounts(cfg, w, w1, a)
  {
    hide Seller.Step, Accounted, Turn, PaidFor, Orderly, Advances;
    var m := TheMachine(cfg);
    var (st1, ev) := Turn(m, w, a);
    SellerTurn(cfg, w, a);
    SellerSpeaks(cfg, w, a);
    forall x | x in Msgs(ev) ensures Numbered(cfg, x) && Backed(w1, x) {
      assert x.payload.ShipRequest? ==> PaidFor(st1.s, x.payload.order.value);
    }
  }

  lemma SellerSpeaks(cfg: Config, w: World<Agent>, a: int)
    requires Restocks.IsSeller(w, a)
    ensures forall x :: x in Msgs(Turn(TheMachine(cfg), w, a).1) ==> x.from == a && SellerSays(cfg)(x)
  {
    hide Seller.Step;
    var m := TheMachine(cfg);
    TurnIs(cfg, w, a);
    SellerStep(cfg, a, w.agents[a].s, HandledReplies(m, w, a), Handled(m, w, a), w.tick + 1);
    Spoken(Turn(m, w, a).1, a, w.tick + 1, SellerSays(cfg), SellerAsks());
  }

  lemma SupplierAccounts(cfg: Config, w: World<Agent>, w1: World<Agent>, a: int)
    requires a in w.agents && w.agents[a].P?
    ensures TurnAccounts(cfg, w, w1, a)
  {
    hide Supplier.Mail;
    var m := TheMachine(cfg);
    TurnIs(cfg, w, a);
    Manners.SupplierStep(cfg, a, w.agents[a].p, Handled(m, w, a), w.tick + 1);
    Spoken(Turn(m, w, a).1, a, w.tick + 1, SupplierSays(cfg), NoTopic());
  }

  lemma CarrierTurn(cfg: Config, w: World<Agent>, a: int)
    requires Accounted(cfg, w) && a in w.agents && w.agents[a].T?
    ensures var (st1, ev) := Turn(TheMachine(cfg), w, a);
            && st1.T? && OwnBacklog(st1.t, a) && Restocks.AllAre(Laden(w), st1.t.active)
            && forall m :: m in Msgs(ev) ==> m.payload.DeliveryComplete? && Laden(w)(m.payload.freight, m.payload.ref, m.to)
  {
    hide Transport.Step, Turn, Handled, HandledReplies, Owes;
    var m := TheMachine(cfg);
    var (mail, xs) := (Handled(m, w, a), HandledReplies(m, w, a));
    InboxIs(cfg, w, a);
    TurnIs(cfg, w, a);
    assert Accountable(cfg, w, a, w.agents[a]);
    Restocks.CarrierWords(cfg, a, w.agents[a].t, mail, w.tick + 1, |xs|, Laden(w));
    CarrierStep(cfg, a, w.agents[a].t, mail, w.tick + 1, |xs|);
  }

  lemma CarrierAccounts(cfg: Config, w: World<Agent>, a: int)
    requires Accounted(cfg, w) && a in w.agents && w.agents[a].T?
    ensures TurnAccounts(cfg, w, Step(TheMachine(cfg), w), a)
  {
    hide Turn, Step, Owes, Accounted;
    var m := TheMachine(cfg);
    CarrierTurn(cfg, w, a);
    forall s, ref | Owes(w, s, ref) ensures Owes(Step(m, w), s, ref) {
      OwesLater(cfg, w, s, ref);
    }
  }

  lemma GovernmentAccounts(cfg: Config, w: World<Agent>, w1: World<Agent>, a: int)
    requires a in w.agents && w.agents[a].G?
    ensures TurnAccounts(cfg, w, w1, a)
  {
    var m := TheMachine(cfg);
    TurnIs(cfg, w, a);
    RestockLoop.RecordsQuiet(a, Handled(m, w, a), w.tick + 1);
    Restocks.QuietIntake(id => 0, Records(a, Handled(m, w, a), w.tick + 1));
  }

  lemma EveryoneAccounts(cfg: Config, w: World<Agent>, a: int)
    requires Accounted(cfg, w) && a in w.agents
    ensures TurnAccounts(cfg, w, Step(TheMachine(cfg), w), a)
  {
    hide Step, Turn, TurnAccounts, Accounted;
    var w1 := Step(TheMachine(cfg), w);
    StepAgent(TheMachine(cfg), w, a);
    StepShape(TheMachine(cfg), w);
    match w.agents[a]
    case C(_) => ConsumerAccounts(cfg, w, w1, a);
    case S(_) => SellerAccounts(cfg, w, w1, a);
    case P(_) => SupplierAccounts(cfg, w, w1, a);
    case T(_) => CarrierAccounts(cfg, w, a);
    case G => GovernmentAccounts(cfg, w, w1, a);
  }

  lemma AccountedStep(cfg: Config, w: World<Agent>)
    requires Accounted(cfg, w)
    ensures Accounted(cfg, Step(TheMachine(cfg), w))
  {
    hide Step, Numbered, Backed, Accountable;
    var m := TheMachine(cfg);
    var w1 := Step(m, w);
    StepShape(m, w);
    forall x | x in w1.mail ensures Numbered(cfg, x) && Backed(w1, x) {
      MailSource(m, w, x);
      var a :| a in w.agents && x in MailBlock(m, w)(a);
      BlockIs(m, w, a);
      EveryoneAccounts(cfg, w, a);
    }
    forall a | a in w1.agents ensures Accountable(cfg, w1, a, w1.agents[a]) {
      StepAgent(m, w, a);
      EveryoneAccounts(cfg, w, a);
    }
  }

  lemma {:induction false} AlwaysAccounted(cfg: Config, w: World<Agent>, t: nat)
    requires Initial(w)
    ensures Accounted(cfg, At(cfg, w, t))
  {
    hide Step;
    if t == 0 {
      forall a | a in w.agents ensures Accountable(cfg, w, a, w.agents[a]) {
        assert FreshAgent(w.agents[a]);
      }
    } else {
      AlwaysAccounted(cfg, w, t - 1);
      AccountedStep(cfg, At(cfg, w, t - 1));
    }
  }

  // -------------------------------------------------------------- the ledger

  function Minus(s: int, sku: int): (int, Agent) -> int {
    (a: int, st: Agent) => if a == s && st.S? then -HeldInAll(st.s, sku) else 0
  }

  function Zero(): Message -> int { (m: Message) => 0 }

  lemma TurnLedger(cfg: Config, w: World<Agent>, a: int, s: int, sku: int)
    requires Accounted(cfg, w) && Restocks.IsSeller(w, s) && a in w.agents
    requires Restocks.IsSeller(Step(TheMachine(cfg), w), s) && SoleNumbers(Step(TheMachine(cfg), w).agents[s].s)
    ensures Balanced(TheMachine(cfg), w, Zero(), Minus(s, sku), Drift(s, sku), a)
  {
    hide Seller.Step, Turn, Handled, HandledReplies, Step, HeldInAll, Drift, SoleNumbers, Expected;
    var m := TheMachine(cfg);
    var (st1, ev) := Turn(m, w, a);
    SumZero(Zero(), Msgs(ev));
    SumZero(Zero(), Filter(ToAgent(a), w.mail));
    StepAgent(m, w, a);
    if a == s {
      TurnIs(cfg, w, a);
      SellerExpects(cfg, w, a);
      assert Accountable(cfg, w, a, w.agents[a]);
      StepDrift(cfg, a, w.agents[a].s, HandledReplies(m, w, a), Handled(m, w, a), w.tick + 1, w.tick, sku);
    } else {
      OthersDriftNot(cfg, w, a, s, sku);
    }
  }

  lemma AccountedSigns(cfg: Config, w: World<Agent>, a: int)
    requires Accounted(cfg, w) && a in w.agents
    ensures forall e :: e in Turn(TheMachine(cfg), w, a).1 ==> SignedBy(e, a)
  {
    assert Accountable(cfg, w, a, w.agents[a]);
    RestockLoop.TurnSigned(cfg, w, a);
  }

  lemma OthersDriftNot(cfg: Config, w: World<Agent>, a: int, s: int, sku: int)
    requires Accounted(cfg, w) && a in w.agents && a != s
    ensures Sum(Drift(s, sku), Turn(TheMachine(cfg), w, a).1) == 0
  {
    hide Turn;
    AccountedSigns(cfg, w, a);
    forall e | e in Turn(TheMachine(cfg), w, a).1 ensures Drift(s, sku)(e) == 0 {
      assert SignedBy(e, a);
      assert Drift(s, sku)(e) == Delta(s, sku)(e) - Credit(s, sku)(e);
    }
    SumZero(Drift(s, sku), Turn(TheMachine(cfg), w, a).1);
  }

  lemma {:induction false} HoldsOne(w: World<Agent>, s: int, sku: int, ids: seq<int>)
    requires Distinct(ids)
    ensures Sum(HoldBefore(w, Minus(s, sku)), ids)
         == if s in ids && Restocks.IsSeller(w, s) then -HeldInAll(w.agents[s].s, sku) else 0
  {
    hide HeldInAll;
    if ids != [] {
      HoldsOne(w, s, sku, ids[1..]);
      var first := ids[0];
      assert ids == [first] + ids[1..];
      assert first !in ids[1..];
    }
  }

  lemma HeldTotal(w: World<Agent>, s: int, sku: int)
    requires Restocks.IsSeller(w, s)
    ensures Total(w, Zero(), Minus(s, sku)) == -HeldInAll(w.agents[s].s, sku)
  {
    hide HeldInAll;
    SumZero(Zero(), w.mail);
    HoldsOne(w, s, sku, SortedIds(w.agents.Keys));
  }

  lemma LedgerRound(cfg: Config, w: World<Agent>, s: int, sku: int)
    requires Accounted(cfg, w) && Restocks.IsSeller(w, s)
    requires Restocks.IsSeller(Step(TheMachine(cfg), w), s) && SoleNumbers(Step(TheMachine(cfg), w).agents[s].s)
    ensures var w1 := Step(TheMachine(cfg), w);
            Sum(Drift(s, sku), w1.log) + HeldInAll(w1.agents[s].s, sku)
              == Sum(Drift(s, sku), w.log) + HeldInAll(w.agents[s].s, sku)
  {
    hide Step, Turn, HeldInAll, SoleNumbers, Drift, Accounted;
    var m := TheMachine(cfg);
    RestockLoop.RoleKept(cfg, w, s);
    forall a | a in w.agents ensures Balanced(m, w, Zero(), Minus(s, sku), Drift(s, sku), a) {
      TurnLedger(cfg, w, a, s, sku);
    }
    StepConserves(m, w, Zero(), Minus(s, sku), Drift(s, sku));
    HeldTotal(w, s, sku);
    HeldTotal(Step(m, w), s, sku);
  }

  lemma SoleBefore(cfg: Config, w: World<Agent>, s: int)
    requires Accounted(cfg, w) && Restocks.IsSeller(w, s) && Restocks.IsSeller(Step(TheMachine(cfg), w), s)
    requires SoleNumbers(Step(TheMachine(cfg), w).agents[s].s)
    ensures SoleNumbers(w.agents[s].s)
  {
    hide Step, Turn, SoleNumbers;
    StepAgent(TheMachine(cfg), w, s);
    SellerTurn(cfg, w, s);
    SameNumbers(cfg, w.agents[s].s, Step(TheMachine(cfg), w).agents[s].s);
  }

  /**
   * The inventory ledger: at every tick of every run, all logged changes of a seller's stock of a SKU
   * add up to the restocks credited, less what the orders that are accepted, paid or delivered hold.
   */
  lemma {:induction false} InventoryLedger(cfg: Config, w: World<Agent>, t: nat, s: int, sku: int)
    requires Initial(w) && Restocks.IsSeller(w, s)
    requires Restocks.IsSeller(At(cfg, w, t), s) ==> SoleNumbers(At(cfg, w, t).agents[s].s)
    ensures Restocks.IsSeller(At(cfg, w, t), s)
    ensures var u := At(cfg, w, t);
            Sum(Delta(s, sku), u.log) == Sum(Credit(s, sku), u.log) - HeldInAll(u.agents[s].s, sku)
  {
    hide Step, Accounted, SoleNumbers, Delta, Credit, Drift, HeldInAll;
    if t == 0 {
      assert FreshAgent(w.agents[s]);
      NothingHeld(w.agents[s].s, sku);
    } else {
      var u := At(cfg, w, t - 1);
      AlwaysAccounted(cfg, w, t - 1);
      AlwaysSeller(cfg, w, t - 1, s);
      AlwaysSeller(cfg, w, t, s);
      assert At(cfg, w, t) == Step(TheMachine(cfg), u);
      SoleBefore(cfg, u, s);
      InventoryLedger(cfg, w, t - 1, s, sku);
      LedgerRound(cfg, u, s, sku);
      DriftSum(s, sku, u.log);
      DriftSum(s, sku, At(cfg, w, t).log);
    }
  }

  lemma NothingHeld(st: Seller.State, sku: int)
    requires st.orderIds == []
    ensures HeldInAll(st, sku) == 0
  {
  }

  lemma {:induction false} AlwaysSeller(cfg: Config, w: World<Agent>, t: nat, s: int)
    requires Restocks.IsSeller(w, s)
    ensures Restocks.IsSeller(At(cfg, w, t), s)
  {
    hide Step, Restocks.IsSeller;
    if t > 0 {
      AlwaysSeller(cfg, w, t - 1, s);
      RestockLoop.RoleKept(cfg, At(cfg, w, t - 1), s);
    }
  }

  /**
   * Stock and restocks together: all stock changes are what was ordered of suppliers, less what is still
   * on its way, less what the standing orders hold.
   */
  lemma StockAccount(cfg: Config, w: World<Agent>, t: nat, s: int, sku: int)
    requires Initial(w) && Restocks.LoopStaffed(cfg, w) && Restocks.IsSeller(w, s)
    requires Restocks.IsSeller(At(cfg, w, t), s) ==> SoleNumbers(At(cfg, w, t).agents[s].s)
    ensures Restocks.IsSeller(At(cfg, w, t), s)
    ensures var u := At(cfg, w, t);
            Sum(Delta(s, sku), u.log)
              == Sum(Ordering(s, sku), Msgs(u.log)) - InFlight(s, sku, u) - HeldInAll(u.agents[s].s, sku)
  {
    hide At, Delta, Credit, HeldInAll, InFlight, SoleNumbers, Restocks.LoopStaffed;
    InventoryLedger(cfg, w, t, s, sku);
    RestockQuantities(cfg, w, t, s, sku);
  }
}
