/** Conservation in the restock loop, over whole runs. */
module RestockLoop {
  import opened Seqs
  import opened Messages
  import opened Settings
  import opened Engine
  import opened Routing
  import opened Simulation
  import opened Manners
  import opened Restocks
  import SellerSide
  import Consumer
  import Seller
  import Supplier
  import Transport

  lemma HandledIsMail(cfg: Config, w: World<Agent>, a: int)
    requires Consistent(cfg, w)
    ensures Handled(TheMachine(cfg), w, a) == Filter(ToAgent(a), w.mail)
  {
    HandledInOrder(cfg, w, a);
  }

  /** Mail to agents outside the loop carries nothing of it. */
  lemma {:induction false} NoLoad(cfg: Config, w: World<Agent>, a: int, ms: seq<Message>, f: Weight)
    requires Consistent(cfg, w) && a in w.agents && !w.agents[a].P? && !w.agents[a].T?
    requires forall m :: m in ms ==> m in w.mail && m.to == a
    ensures Sum(Load(f), ms) == 0
  {
    forall m | m in ms ensures Load(f)(m) == 0 {
      assert Truthful(w, m);
    }
    SumZero(Load(f), ms);
  }

  /** The balance of one agent's act. */
  ghost predicate ActBalances(f: Weight, a: int, st: Agent, mail: seq<Message>, st1: Agent, ev: seq<Event>) {
    Sum(Load(f), Msgs(ev)) + Stowed(f)(a, st1) == Sum(Load(f), mail) + Stowed(f)(a, st) + Sum(Intake(f), ev)
  }

  lemma ConsumerBalances(cfg: Config, a: int, st: Consumer.State, xs: seq<Reply>, mail: seq<Message>, tick: int,
          f: Weight)
    requires forall m :: m in mail ==> SellerSide.Numbered(cfg, m)
    requires Sum(Load(f), mail) == 0
    ensures var (st1, ev) := ActOn(cfg, a, C(st), xs, mail, tick);
            ActBalances(f, a, C(st), mail, st1, ev)
  {
    hide Consumer.Step;
    ConsumerStep(cfg, a, st, xs, mail, tick);
    SpeakersBalance(f, Consumer.Step(cfg, a, st, xs, mail, tick).1, a, tick, ConsumerSays(cfg), ConsumerAsks());
  }

  lemma SellerBalances(cfg: Config, a: int, st: Seller.State, xs: seq<Reply>, mail: seq<Message>, tick: int, f: Weight)
    requires Sum(Load(f), mail) == 0
    ensures var (st1, ev) := ActOn(cfg, a, S(st), xs, mail, tick);
            ActBalances(f, a, S(st), mail, st1, ev)
  {
    hide Seller.Step;
    SellerStep(cfg, a, st, xs, mail, tick);
    SpeakersBalance(f, Seller.Step(cfg, a, st, xs, mail, tick).1, a, tick, SellerSays(cfg), SellerAsks());
  }

  lemma {:induction false} RecordsQuiet(a: int, mail: seq<Message>, tick: int)
    ensures forall e :: e in Records(a, mail, tick) ==> e.messages == [] && e.queries == [] && e.agent == a && e.kind == GovRecordInsert
  {
    if mail != [] {
      RecordsQuiet(a, mail[1..], tick);
    }
  }

  lemma GovernmentBalances(cfg: Config, a: int, xs: seq<Reply>, mail: seq<Message>, tick: int, f: Weight)
    requires Sum(Load(f), mail) == 0
    ensures var (st1, ev) := ActOn(cfg, a, G, xs, mail, tick);
            ActBalances(f, a, G, mail, st1, ev)
  {
    RecordsQuiet(a, mail, tick);
    QuietIntake(f, Records(a, mail, tick));
  }

  lemma MailTo(cfg: Config, w: World<Agent>, a: int)
    requires Consistent(cfg, w)
    ensures forall m :: m in Filter(ToAgent(a), w.mail) ==> m in w.mail && m.to == a && Truthful(w, m)
  {
  }

  lemma LoopMail(cfg: Config, w: World<Agent>, a: int, f: Weight)
    requires Consistent(cfg, w) && a in w.agents
    ensures var mail := Filter(ToAgent(a), w.mail);
            && (w.agents[a].P? ==> forall m :: m in mail ==> ForSupplier(w.agents[a].p.orders, m))
            && (w.agents[a].T? ==> forall m :: m in mail ==> m.payload.ShipRequest? || Load(f)(m) == 0)
            && (!w.agents[a].P? && !w.agents[a].T? ==> Sum(Load(f), mail) == 0)
  {
    MailTo(cfg, w, a);
    if !w.agents[a].P? && !w.agents[a].T? {
      NoLoad(cfg, w, a, Filter(ToAgent(a), w.mail), f);
    }
  }

  lemma TurnBalances(cfg: Config, w: World<Agent>, a: int, f: Weight)
    requires Consistent(cfg, w) && a in w.agents
    ensures Balanced(TheMachine(cfg), w, Load(f), Stowed(f), Intake(f), a)
  {
    hide Consumer.Step, Seller.Step, Handled, HandledReplies, Supplier.Mail, Transport.Step;
    var m := TheMachine(cfg);
    var mail, xs, tick := Filter(ToAgent(a), w.mail), HandledReplies(m, w, a), w.tick + 1;
    HandledIsMail(cfg, w, a);
    TurnIs(cfg, w, a);
    MailTo(cfg, w, a);
    LoopMail(cfg, w, a, f);
    match w.agents[a]
    case C(c) => ConsumerBalances(cfg, a, c, xs, mail, tick, f);
    case S(s) => SellerBalances(cfg, a, s, xs, mail, tick, f);
    case P(p) => SupplierMail(cfg, a, p, mail, tick, f);
    case T(t) => CarrierSum(cfg, a, t, mail, tick, |xs|, f);
    case G => GovernmentBalances(cfg, a, xs, mail, tick, f);
  }

  // -------------------------------------------------------------- consistency is kept

  lemma TypeKept(cfg: Config, a: int, st: Agent, xs: seq<Reply>, mail: seq<Message>, tick: int)
    ensures var st1 := ActOn(cfg, a, st, xs, mail, tick).0;
            st1.C? == st.C? && st1.S? == st.S? && st1.P? == st.P? && st1.T? == st.T? && st1.G? == st.G?
  {
    hide Consumer.Step, Seller.Step, Supplier.Mail, Transport.Step;
  }

  /** Whatever an agent emits carries its id. */
  lemma ActSigned(cfg: Config, a: int, st: Agent, xs: seq<Reply>, mail: seq<Message>, tick: int)
    requires forall m :: m in mail ==> SellerSide.Numbered(cfg, m)
    requires st.T? ==> OwnBacklog(st.t, a)
    ensures forall e :: e in ActOn(cfg, a, st, xs, mail, tick).1 ==> SignedBy(e, a)
  {
    hide Consumer.Step, Seller.Step, Supplier.Mail, Transport.Step;
    match st
    case C(c) => ConsumerStep(cfg, a, c, xs, mail, tick);
    case S(s) => SellerStep(cfg, a, s, xs, mail, tick);
    case P(p) => SupplierStep(cfg, a, p, mail, tick);
    case T(t) => CarrierStep(cfg, a, t, mail, tick, |xs|);
    case G => RecordsQuiet(a, mail, tick);
  }

  lemma TurnSigned(cfg: Config, w: World<Agent>, a: int)
    requires a in w.agents && Sorted(MailKey, w.mail) && forall m :: m in w.mail ==> SellerSide.Numbered(cfg, m)
    requires w.agents[a].T? ==> OwnBacklog(w.agents[a].t, a)
    ensures forall e :: e in Turn(TheMachine(cfg), w, a).1 ==> SignedBy(e, a)
  {
    var m := TheMachine(cfg);
    HandledInOrder(cfg, w, a);
    TurnIs(cfg, w, a);
    ActSigned(cfg, a, w.agents[a], HandledReplies(m, w, a), Handled(m, w, a), w.tick + 1);
  }

  lemma BooksGrow(cfg: Config, w: World<Agent>, a: int)
    requires Consistent(cfg, w) && IsSupplier(w, a)
    ensures var m := TheMachine(cfg);
            var st1 := Turn(m, w, a).0;
            st1.P? && w.agents[a].p.orders.Keys <= st1.p.orders.Keys && HonestBooks(st1.p.orders)
  {
    HandledIsMail(cfg, w, a);
    TurnIs(cfg, w, a);
    LoopMail(cfg, w, a, id => 0);
    SupplierMail(cfg, a, w.agents[a].p, Filter(ToAgent(a), w.mail), w.tick + 1, id => 0);
  }

  /** Roles are for life, and books only grow. */
  ghost predicate Grown(w: World<Agent>, w1: World<Agent>) {
    && (forall a :: IsSupplier(w, a) == IsSupplier(w1, a))
    && (forall a :: IsSeller(w, a) == IsSeller(w1, a))
    && (forall a :: IsCarrier(w, a) == IsCarrier(w1, a))
    && (forall a, id :: Booked(w, a, id) ==> Booked(w1, a, id))
  }

  lemma RoleKept(cfg: Config, w: World<Agent>, a: int)
    ensures var w1 := Step(TheMachine(cfg), w);
            IsSupplier(w, a) == IsSupplier(w1, a) && IsSeller(w, a) == IsSeller(w1, a) && IsCarrier(w, a) == IsCarrier(w1, a)
  {
    hide ActOn, Step, Turn, Handled, HandledReplies;
    var m := TheMachine(cfg);
    StepAgent(m, w, a);
    if a in w.agents {
      TurnIs(cfg, w, a);
      TypeKept(cfg, a, w.agents[a], HandledReplies(m, w, a), Handled(m, w, a), w.tick + 1);
    }
  }

  lemma BookingKept(cfg: Config, w: World<Agent>, a: int, id: RestockId)
    requires Consistent(cfg, w) && Booked(w, a, id)
    ensures Booked(Step(TheMachine(cfg), w), a, id)
  {
    hide Step, Turn, Consistent;
    StepAgent(TheMachine(cfg), w, a);
    BooksGrow(cfg, w, a);
  }

  lemma StepGrows(cfg: Config, w: World<Agent>)
    requires Consistent(cfg, w)
    ensures Grown(w, Step(TheMachine(cfg), w))
  {
    hide Step, Consistent, IsSupplier, IsSeller, IsCarrier, Booked;
    var w1 := Step(TheMachine(cfg), w);
    forall a ensures IsSupplier(w, a) == IsSupplier(w1, a) && IsSeller(w, a) == IsSeller(w1, a) && IsCarrier(w, a) == IsCarrier(w1, a) {
      RoleKept(cfg, w, a);
    }
    forall a, id | Booked(w, a, id) ensures Booked(w1, a, id) {
      BookingKept(cfg, w, a, id);
    }
  }

  /** What one agent's turn must satisfy for consistency to be kept. */
  ghost predicate TurnTells(cfg: Config, w: World<Agent>, w1: World<Agent>, a: int)
    requires a in w.agents
  {
    var (st1, ev) := Turn(TheMachine(cfg), w, a);
    && Honest(w1, st1)
    && (forall m :: m in Msgs(ev) ==> Truthful(w1, m) && SellerSide.Numbered(cfg, m))
    && (st1.T? ==> OwnBacklog(st1.t, a))
    && (st1.S? ==> SellerSide.Books(cfg, st1.s))
  }

  lemma ConsumerTells(cfg: Config, w: World<Agent>, w1: World<Agent>, a: int)
    requires Consistent(cfg, w) && a in w.agents && w.agents[a].C?
    ensures TurnTells(cfg, w, w1, a)
  {
    hide Consumer.Step;
    var m := TheMachine(cfg);
    HandledIsMail(cfg, w, a);
    TurnIs(cfg, w, a);
    ConsumerStep(cfg, a, w.agents[a].c, HandledReplies(m, w, a), Handled(m, w, a), w.tick + 1);
    Spoken(Turn(m, w, a).1, a, w.tick + 1, ConsumerSays(cfg), ConsumerAsks());
  }

  lemma SellerTells(cfg: Config, w: World<Agent>, w1: World<Agent>, a: int)
    requires Consistent(cfg, w) && Grown(w, w1) && a in w.agents && w.agents[a].S?
    ensures TurnTells(cfg, w, w1, a)
  {
    hide Seller.Step, Consumer.Step, Supplier.Mail, Transport.Step, Handled, HandledReplies, SellerSide.Books,
            SupplierOf;
    var m := TheMachine(cfg);
    var mail, xs := Handled(m, w, a), HandledReplies(m, w, a);
    TurnIs(cfg, w, a);
    SellerStep(cfg, a, w.agents[a].s, xs, mail, w.tick + 1);
    SellerSide.BooksStep(cfg, a, w.agents[a].s, xs, mail, w.tick + 1);
    SellerStepWords(cfg, a, w.agents[a].s, xs, mail, w.tick + 1);
    Spoken(Turn(m, w, a).1, a, w.tick + 1, SellerSays(cfg), SellerAsks());
    assert IsSeller(w, a);
    forall x | x in Msgs(Turn(m, w, a).1) ensures Truthful(w1, x) {
      assert SellerWord(cfg, a, x);
    }
  }

  lemma SupplierTurn(cfg: Config, w: World<Agent>, a: int)
    requires Consistent(cfg, w) && a in w.agents && w.agents[a].P?
    ensures var (st1, ev) := Turn(TheMachine(cfg), w, a);
            && st1.P? && HonestBooks(st1.p.orders)
            && (forall id :: id in st1.p.orders ==> IsSeller(w, id.seller))
            && (forall x :: x in Msgs(ev) ==> SupplierWord(st1.p.orders, cfg.transport, a, x))
  {
    hide Turn, Supplier.Mail, Handled, HandledReplies;
    var mail, p := Filter(ToAgent(a), w.mail), w.agents[a].p;
    HandledIsMail(cfg, w, a);
    TurnIs(cfg, w, a);
    SupplierReceives(cfg, w, a);
    SupplierMail(cfg, a, p, mail, w.tick + 1, id => 0);
    SupplierWords(cfg, a, p, mail, w.tick + 1);
    SupplierSellers(cfg, w, a, p, mail, w.tick + 1);
  }

  lemma SupplierReceives(cfg: Config, w: World<Agent>, a: int)
    requires Consistent(cfg, w) && a in w.agents && w.agents[a].P?
    ensures var (mail, p) := (Filter(ToAgent(a), w.mail), w.agents[a].p);
            && Truthy(cfg.transport) && HonestBooks(p.orders)
            && (forall m :: m in mail ==> ForSupplier(p.orders, m))
            && (forall id :: id in p.orders ==> IsSeller(w, id.seller))
            && (forall m :: m in mail && m.payload.RestockOrder? ==> IsSeller(w, m.payload.id.seller))
  {
    LoopMail(cfg, w, a, id => 0);
    MailTo(cfg, w, a);
    assert Honest(w, w.agents[a]);
  }

  lemma SupplierTells(cfg: Config, w: World<Agent>, w1: World<Agent>, a: int)
    requires Consistent(cfg, w) && Grown(w, w1) && a in w.agents && w.agents[a].P?
    requires a in w1.agents && w1.agents[a] == Turn(TheMachine(cfg), w, a).0
    ensures TurnTells(cfg, w, w1, a)
  {
    hide Turn;
    var (st1, ev) := Turn(TheMachine(cfg), w, a);
    SupplierTurn(cfg, w, a);
    assert IsSupplier(w1, a);
    forall x | x in Msgs(ev) ensures Truthful(w1, x) && SellerSide.Numbered(cfg, x) {
      assert SupplierWord(st1.p.orders, cfg.transport, a, x);
      if x.payload.RestockDelivered? {
        assert IsSeller(w, x.payload.id.seller);
      } else {
        assert IsCarrier(w, cfg.transport.value);
        assert Booked(w1, a, x.payload.restock.value);
      }
    }
  }

  function Origin(w: World<Agent>): Trait {
    (freight: Freight, ref: Ref, from: int) =>
      if freight == Restock then ref.RestockRef? && Booked(w, from, ref.restock) else IsSeller(w, from)
  }

  /** What a carrier's turn keeps and says, in terms of the origin of its shipments. */
  lemma CarrierTurn(cfg: Config, w: World<Agent>, a: int)
    requires Consistent(cfg, w) && a in w.agents && w.agents[a].T?
    ensures var (st1, ev) := Turn(TheMachine(cfg), w, a);
            && st1.T? && OwnBacklog(st1.t, a) && AllAre(Origin(w), st1.t.active)
            && forall m :: m in Msgs(ev) ==> m.payload.DeliveryComplete? && Origin(w)(m.payload.freight, m.payload.ref, m.to)
  {
    hide Transport.Step, Handled, HandledReplies, Turn;
    var m := TheMachine(cfg);
    var mail, xs := Filter(ToAgent(a), w.mail), HandledReplies(m, w, a);
    HandledIsMail(cfg, w, a);
    TurnIs(cfg, w, a);
    CarrierReceives(cfg, w, a);
    CarrierWords(cfg, a, w.agents[a].t, mail, w.tick + 1, |xs|, Origin(w));
    CarrierStep(cfg, a, w.agents[a].t, mail, w.tick + 1, |xs|);
  }

  lemma CarrierReceives(cfg: Config, w: World<Agent>, a: int)
    requires Consistent(cfg, w) && a in w.agents && w.agents[a].T?
    ensures OwnBacklog(w.agents[a].t, a) && AllAre(Origin(w), w.agents[a].t.active)
    ensures forall m :: m in Filter(ToAgent(a), w.mail) && m.payload.ShipRequest? ==>
              Origin(w)(m.payload.freight, Transport.OrderRef(m.payload.order, m.payload.restock), m.from)
  {
    MailTo(cfg, w, a);
    assert Honest(w, w.agents[a]);
  }

  lemma CarrierTells(cfg: Config, w: World<Agent>, w1: World<Agent>, a: int)
    requires Consistent(cfg, w) && Grown(w, w1) && a in w.agents && w.agents[a].T?
    ensures TurnTells(cfg, w, w1, a)
  {
    hide Turn, Consistent;
    var (st1, ev) := Turn(TheMachine(cfg), w, a);
    CarrierTurn(cfg, w, a);
    forall x | x in Msgs(ev) ensures Truthful(w1, x) && SellerSide.Numbered(cfg, x) {
      assert Origin(w)(x.payload.freight, x.payload.ref, x.to);
    }
    forall s | s in st1.t.active
      ensures if s.freight == Restock then s.ref.RestockRef? && Booked(w1, s.from, s.ref.restock) else IsSeller(w1, s.from)
    {
      assert Origin(w)(s.freight, s.ref, s.from);
    }
  }

  lemma GovernmentTells(cfg: Config, w: World<Agent>, w1: World<Agent>, a: int)
    requires a in w.agents && w.agents[a].G?
    ensures TurnTells(cfg, w, w1, a)
  {
    var m := TheMachine(cfg);
    TurnIs(cfg, w, a);
    RecordsQuiet(a, Handled(m, w, a), w.tick + 1);
    QuietIntake(id => 0, Records(a, Handled(m, w, a), w.tick + 1));
  }

  lemma EveryoneTells(cfg: Config, w: World<Agent>, a: int)
    requires Consistent(cfg, w) && a in w.agents
    ensures TurnTells(cfg, w, Step(TheMachine(cfg), w), a)
  {
    hide Step, Turn, TurnTells, Consistent, Grown;
    var w1 := Step(TheMachine(cfg), w);
    StepGrows(cfg, w);
    StepAgent(TheMachine(cfg), w, a);
    match w.agents[a]
    case C(_) => ConsumerTells(cfg, w, w1, a);
    case S(_) => SellerTells(cfg, w, w1, a);
    case P(_) => SupplierTells(cfg, w, w1, a);
    case T(_) => CarrierTells(cfg, w, w1, a);
    case G => GovernmentTells(cfg, w, w1, a);
  }

  lemma MailStaysTrue(cfg: Config, w: World<Agent>, x: Message)
    requires Consistent(cfg, w) && x in Step(TheMachine(cfg), w).mail
    ensures Truthful(Step(TheMachine(cfg), w), x) && SellerSide.Numbered(cfg, x)
  {
    hide Step, Consistent, Truthful, Honest;
    var m := TheMachine(cfg);
    MailSource(m, w, x);
    var a :| a in w.agents && x in MailBlock(m, w)(a);
    BlockIs(m, w, a);
    EveryoneTells(cfg, w, a);
  }

  ghost predicate InOrder(cfg: Config, w: World<Agent>, a: int)
    requires a in w.agents
  {
    && Honest(w, w.agents[a]) && (w.agents[a].T? ==> OwnBacklog(w.agents[a].t, a))
    && (w.agents[a].S? ==> SellerSide.Books(cfg, w.agents[a].s))
  }

  lemma AgentStaysTrue(cfg: Config, w: World<Agent>, a: int)
    requires Consistent(cfg, w) && a in Step(TheMachine(cfg), w).agents
    ensures InOrder(cfg, Step(TheMachine(cfg), w), a)
  {
    hide Step, Turn, Consistent, Truthful, Honest;
    StepAgent(TheMachine(cfg), w, a);
    EveryoneTells(cfg, w, a);
  }

  lemma ConsistentStep(cfg: Config, w: World<Agent>)
    requires Consistent(cfg, w)
    ensures Consistent(cfg, Step(TheMachine(cfg), w))
  {
    hide Step, Turn, Truthful, Honest, OwnBacklog, SellerSide.Books, SellerSide.Numbered;
    var m := TheMachine(cfg);
    var w1 := Step(m, w);
    StepShape(m, w);
    StepGrows(cfg, w);
    assert IsCarrier(w, cfg.transport.value);
    forall x | x in w1.mail ensures Truthful(w1, x) && SellerSide.Numbered(cfg, x) {
      MailStaysTrue(cfg, w, x);
    }
    forall a | a in w1.agents ensures InOrder(cfg, w1, a) {
      AgentStaysTrue(cfg, w, a);
    }
  }

  // -------------------------------------------------------------- the run

  /** Weight under way: ordered, not yet forwarded by the supplier. */
  function UnderWay(f: Weight, w: World<Agent>): int {
    Total(w, Load(f), Stowed(f))
  }

  lemma NothingYet(f: Weight, w: World<Agent>)
    requires Initial(w)
    ensures UnderWay(f, w) == 0 && Sum(Intake(f), w.log) == 0
  {
    SumZero(HoldBefore(w, Stowed(f)), SortedIds(w.agents.Keys));
  }

  /**
   * Restock conservation, for every weighting of restocks: at every tick of every run, what has been
   * ordered is what has been forwarded to sellers plus what is under way in orders, ship requests,
   * shipments and delivery notices.
   */
  lemma {:induction false} RestockConserved(cfg: Config, w: World<Agent>, t: nat, f: Weight)
    requires Initial(w) && LoopStaffed(cfg, w)
    ensures Consistent(cfg, At(cfg, w, t))
    ensures var u := At(cfg, w, t);
            Sum(Ordered(f), Msgs(u.log)) == Sum(Forwarded(f), Msgs(u.log)) + UnderWay(f, u)
  {
    hide ActOn, Step, Consistent, LoopStaffed, UnderWay;
    if t == 0 {
      StartsConsistent(cfg, w);
      NothingYet(f, w);
    } else {
      RestockConserved(cfg, w, t - 1, f);
      var u := At(cfg, w, t - 1);
      var v := At(cfg, w, t);
      assert v == Step(TheMachine(cfg), u);
      ConsistentStep(cfg, u);
      OneRound(cfg, u, f);
      IntakeSum(f, u.log);
      IntakeSum(f, v.log);
    }
  }

  lemma StartsConsistent(cfg: Config, w: World<Agent>)
    requires Initial(w) && LoopStaffed(cfg, w)
    ensures Consistent(cfg, w)
  {
  }

  lemma OneRound(cfg: Config, u: World<Agent>, f: Weight)
    requires Consistent(cfg, u)
    ensures var v := Step(TheMachine(cfg), u);
            UnderWay(f, v) - Sum(Intake(f), v.log) == UnderWay(f, u) - Sum(Intake(f), u.log)
  {
    hide ActOn, Step;
    forall m | m in u.mail && Load(f)(m) != 0 ensures m.to in u.agents {
      assert Truthful(u, m);
    }
    forall a | a in u.agents ensures Balanced(TheMachine(cfg), u, Load(f), Stowed(f), Intake(f), a) {
      TurnBalances(cfg, u, a, f);
    }
    StepConserves(TheMachine(cfg), u, Load(f), Stowed(f), Intake(f));
  }
}
