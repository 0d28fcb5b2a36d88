/**
 * The whole simulation, projected on one order: what the order's consumer, seller and carrier hold and
 * exchange about it evolves by itself, whatever else the agents are busy with.
 */
module Projection {
  import opened Seqs
  import opened Messages
  import opened Engine
  import opened Routing
  import opened Simulation
  import opened OneOrder
  import opened SellerSide
  import opened Manners
  import ConsumerSide
  import CarrierSide
  import Consumer
  import Seller
  import Supplier
  import Transport

  /** The order's three parties are registered, as agents of the right types. */
  ghost predicate Cast(k: Case, w: World<Agent>) {
    && k.rid.consumer in w.agents && w.agents[k.rid.consumer].C?
    && k.seller in w.agents && w.agents[k.seller].S?
    && k.carrier in w.agents && w.agents[k.carrier].T?
  }

  /** An agent's state is in order, and a stranger to the order holds nothing of it. */
  ghost predicate Sound(k: Case, a: int, st: Agent) {
    match st
    case C(c) => a != k.rid.consumer ==> k.rid !in c.pending
    case S(s) => Books(k.cfg, s) && (a != k.seller ==> Unaware(s, k.rid))
    case P(p) => true
    case T(t) => OwnBacklog(t, a) && (a != k.carrier ==> Filter(Carries(k), t.active) == [])
    case G => true
  }

  /** Messages about the order are addressed to its parties. */
  ghost predicate Addressed(k: Case, m: Message) {
    && Numbered(k.cfg, m)
    && (ToSeller(k)(m) ==> m.to == k.seller)
    && (ToConsumer(k)(m) ==> m.to == k.rid.consumer)
    && (ToCarrier(k)(m) ==> m.to == k.carrier)
  }

  ghost predicate Health(k: Case, w: World<Agent>) {
    && k.Number() != 0 && Cast(k, w) && Sorted(MailKey, w.mail) && w.queued == []
    && (forall m :: m in w.mail ==> Addressed(k, m))
    && (forall x :: x in w.replies && AboutIt(k)(x) ==> x.agent == k.seller)
    && (forall a :: a in w.agents ==> Sound(k, a, w.agents[a]))
  }

  // -------------------------------------------------------------- one agent's turn

  ghost predicate MailFor(k: Case, b: int, mail: seq<Message>) {
    forall m :: m in mail ==> m.to == b && Addressed(k, m)
  }

  /** What an agent's events may contain about the order, by the agent's part in it. */
  ghost predicate Harmless(k: Case, ev: seq<Event>, b: int, tick: int) {
    && (forall m :: m in Msgs(ev) ==> m.from == b && m.tickSent == tick && Numbered(k.cfg, m))
    && (forall q :: q in Reqs(ev) ==> q.agent == b)
    && (b != k.seller ==>
          && Filter(ToConsumer(k), Msgs(ev)) == [] && Filter(ToCarrier(k), Msgs(ev)) == []
          && Filter(AsksIt(k), Reqs(ev)) == [] && Filter(InTrail(k), ev) == [])
    && (b != k.rid.consumer && b != k.carrier ==> Filter(ToSeller(k), Msgs(ev)) == [])
  }

  lemma HarmlessBySpeech(k: Case, ev: seq<Event>, b: int, tick: int, said: Message -> bool, asked: Topic -> bool)
    requires AllSay(ev, b, tick, said, asked)
    requires forall m :: said(m) ==> Numbered(k.cfg, m)
    requires b != k.seller ==> forall m :: said(m) ==> !ToConsumer(k)(m)
    requires b != k.seller ==> forall t :: asked(t) ==> !t.InventoryCheck?
    requires b != k.rid.consumer && b != k.carrier ==> Filter(ToSeller(k), Msgs(ev)) == []
    ensures Harmless(k, ev, b, tick)
  {
    Spoken(ev, b, tick, said, asked);
    if b != k.seller {
      FilterNone(ToConsumer(k), Msgs(ev));
      FilterNone(ToCarrier(k), Msgs(ev));
      FilterNone(AsksIt(k), Reqs(ev));
      FilterNone(InTrail(k), ev);
    }
  }

  lemma ConsumerTurn(k: Case, b: int, st: Consumer.State, xs: seq<Reply>, mail: seq<Message>, tick: int)
    requires MailFor(k, b, mail) && Sound(k, b, C(st)) && b != k.seller && b != k.carrier
    ensures var (st1, ev) := Consumer.Step(k.cfg, b, st, xs, mail, tick);
            Harmless(k, ev, b, tick) && Sound(k, b, C(st1))
  {
    var (st1, ev) := Consumer.Step(k.cfg, b, st, xs, mail, tick);
    if b != k.rid.consumer {
      FilterNone(ToConsumer(k), mail);
      var cancels := ConsumerSide.OnStep(k, b, st, xs, mail, tick);
      assert ViewC(st, k.rid).deal == None;
      assert ViewC(st1, k.rid).deal == None;
    }
    ConsumerStep(k.cfg, b, st, xs, mail, tick);
    HarmlessBySpeech(k, ev, b, tick, ConsumerSays(k.cfg), ConsumerAsks());
  }

  lemma UnawareMailFor(k: Case, b: int, mail: seq<Message>)
    requires MailFor(k, b, mail) && b != k.seller && b != k.rid.consumer
    ensures forall m :: m in mail ==> !Mentions(k.rid, m)
  {
    forall m | m in mail ensures !Mentions(k.rid, m) {
      assert Addressed(k, m);
    }
  }

  lemma {:induction false} Muted(ev: seq<Event>, rid: OrderId)
    requires Mute(ev, rid)
    ensures forall m :: m in Msgs(ev) ==> !Mentions(rid, m)
    ensures forall q :: q in Reqs(ev) ==> q.id.topic != InventoryCheck(rid)
  {
    if ev != [] {
      var e := ev[0];
      assert e in ev;
      Muted(ev[1..], rid);
    }
  }

  lemma MuteFilters(k: Case, ev: seq<Event>, b: int, tick: int)
    requires Mute(ev, k.rid) && b != k.seller && Proper(k.cfg, ev, b, tick)
    requires b != k.rid.consumer && b != k.carrier
    ensures Harmless(k, ev, b, tick)
  {
    Spoken(ev, b, tick, SellerSays(k.cfg), SellerAsks());
    Muted(ev, k.rid);
    FilterNone(ToConsumer(k), Msgs(ev));
    FilterNone(ToCarrier(k), Msgs(ev));
    FilterNone(ToSeller(k), Msgs(ev));
    FilterNone(AsksIt(k), Reqs(ev));
    FilterNone(InTrail(k), ev);
  }

  lemma ProperFilters(k: Case, ev: seq<Event>, b: int, tick: int)
    requires b == k.seller && Proper(k.cfg, ev, b, tick)
    ensures Harmless(k, ev, b, tick)
  {
    Spoken(ev, b, tick, SellerSays(k.cfg), SellerAsks());
    FilterNone(ToSeller(k), Msgs(ev));
  }

  lemma SellerTurnOf(k: Case, b: int, st: Seller.State, xs: seq<Reply>, mail: seq<Message>, tick: int)
    requires MailFor(k, b, mail) && Sound(k, b, S(st)) && b != k.rid.consumer && b != k.carrier
    ensures Harmless(k, Seller.Step(k.cfg, b, st, xs, mail, tick).1, b, tick)
    ensures Sound(k, b, S(Seller.Step(k.cfg, b, st, xs, mail, tick).0))
  {
    SellerStep(k.cfg, b, st, xs, mail, tick);
    BooksStep(k.cfg, b, st, xs, mail, tick);
    if b == k.seller {
      ProperFilters(k, Seller.Step(k.cfg, b, st, xs, mail, tick).1, b, tick);
    } else {
      UnawareMailFor(k, b, mail);
      UnawareStep(k.cfg, b, st, xs, mail, tick, k.rid);
      MuteFilters(k, Seller.Step(k.cfg, b, st, xs, mail, tick).1, b, tick);
    }
  }

  lemma SupplierTurn(k: Case, b: int, st: Supplier.State, mail: seq<Message>, tick: int)
    requires b != k.rid.consumer && b != k.carrier && b != k.seller
    ensures Harmless(k, Supplier.Mail(k.cfg, b, st, mail, tick).1, b, tick)
  {
    var ev := Supplier.Mail(k.cfg, b, st, mail, tick).1;
    SupplierStep(k.cfg, b, st, mail, tick);
    Spoken(ev, b, tick, SupplierSays(k.cfg), NoTopic());
    FilterNone(ToSeller(k), Msgs(ev));
    HarmlessBySpeech(k, ev, b, tick, SupplierSays(k.cfg), NoTopic());
  }

  lemma {:induction false} SilentEvents(ev: seq<Event>)
    requires forall e :: e in ev ==> e.messages == [] && e.queries == []
    ensures Msgs(ev) == [] && Reqs(ev) == []
  {
    if ev != [] {
      var e := ev[0];
      assert e in ev;
      SilentEvents(ev[1..]);
    }
  }

  lemma CarrierTurnOf(k: Case, b: int, st: Transport.State, mail: seq<Message>, tick: int, item: int)
    requires MailFor(k, b, mail) && Sound(k, b, T(st)) && b != k.seller && b != k.rid.consumer && k.Number() != 0
    ensures var (st1, ev) := Transport.Step(k.cfg, b, st, mail, tick, item);
            Harmless(k, ev, b, tick) && Sound(k, b, T(st1))
  {
    var (st1, ev) := Transport.Step(k.cfg, b, st, mail, tick, item);
    CarrierStep(k.cfg, b, st, mail, tick, item);
    if b != k.carrier {
      SilentEvents(st.backlog);
      FilterNone(ToCarrier(k), mail);
      var id := CarrierSide.OnStep(k, b, st, mail, tick, item);
      assert CarrierSide.CarrierTurn(k, b, [], [], tick, id) == ([], []);
    }
    HarmlessBySpeech(k, ev, b, tick, CarrierSays(k.cfg), NoTopic());
  }

  lemma {:induction false} RecordsSay(k: Case, b: int, mail: seq<Message>, tick: int)
    ensures AllSay(Records(b, mail, tick), b, tick, CarrierSays(k.cfg), NoTopic())
    ensures Msgs(Records(b, mail, tick)) == []
  {
    if mail != [] {
      RecordsSay(k, b, mail[1..], tick);
      var rest := Records(b, mail[1..], tick);
      if mail[0].payload.OrderReport? {
        var e := Records(b, mail, tick)[0];
        assert Records(b, mail, tick) == [e] + rest;
        MsgsAppend([e], rest);
        MsgsOne(e);
      } else {
        assert Records(b, mail, tick) == rest;
      }
    }
  }

  lemma RecordTurn(k: Case, b: int, mail: seq<Message>, tick: int)
    requires b != k.rid.consumer && b != k.carrier && b != k.seller
    ensures Harmless(k, Records(b, mail, tick), b, tick)
  {
    RecordsSay(k, b, mail, tick);
    HarmlessBySpeech(k, Records(b, mail, tick), b, tick, CarrierSays(k.cfg), NoTopic());
  }

  /** Which role in the order an agent of each type may have. */
  ghost predicate Typed(k: Case, b: int, st: Agent) {
    && (b == k.rid.consumer ==> st.C?) && (b == k.seller ==> st.S?) && (b == k.carrier ==> st.T?)
  }

  lemma AgentTurn(k: Case, b: int, st: Agent, xs: seq<Reply>, mail: seq<Message>, tick: int)
    requires Typed(k, b, st) && MailFor(k, b, mail) && Sound(k, b, st) && k.Number() != 0
    ensures Harmless(k, ActOn(k.cfg, b, st, xs, mail, tick).1, b, tick)
    ensures Sound(k, b, ActOn(k.cfg, b, st, xs, mail, tick).0)
    ensures Typed(k, b, ActOn(k.cfg, b, st, xs, mail, tick).0)
  {
    match st
    case C(c) => ConsumerTurn(k, b, c, xs, mail, tick);
    case S(s) => SellerTurnOf(k, b, s, xs, mail, tick);
    case P(p) => SupplierTurn(k, b, p, mail, tick);
    case T(t) => CarrierTurnOf(k, b, t, mail, tick, |xs|);
    case G => RecordTurn(k, b, mail, tick);
  }

  // -------------------------------------------------------------- the world's step

  lemma HandledMail(k: Case, w: World<Agent>, b: int)
    requires Health(k, w)
    ensures Handled(TheMachine(k.cfg), w, b) == Filter(ToAgent(b), w.mail)
    ensures MailFor(k, b, Handled(TheMachine(k.cfg), w, b))
  {
    HandledInOrder(k.cfg, w, b);
  }

  /** Every agent's turn keeps it in order, and strangers to the order stay silent about it. */
  lemma TurnHealth(k: Case, w: World<Agent>, b: int)
    requires Health(k, w) && b in w.agents
    ensures Harmless(k, Turn(TheMachine(k.cfg), w, b).1, b, w.tick + 1)
    ensures Sound(k, b, Turn(TheMachine(k.cfg), w, b).0) && Typed(k, b, Turn(TheMachine(k.cfg), w, b).0)
  {
    HandledMail(k, w, b);
    TurnIs(k.cfg, w, b);
    var m := TheMachine(k.cfg);
    AgentTurn(k, b, w.agents[b], HandledReplies(m, w, b), Handled(m, w, b), w.tick + 1);
  }

  datatype Snapshot = Snapshot(consumer: ConsumerView, seller: SellerView, moving: seq<Transport.Shipment>,
                               toSeller: seq<Message>, toConsumer: seq<Message>, toCarrier: seq<Message>,
                               answers: seq<Reply>, trail: seq<Event>, shipped: seq<Message>)

  /** Everything in the world that is about the order. */
  function Snap(k: Case, w: World<Agent>): Snapshot
    requires k.rid.consumer in w.agents && w.agents[k.rid.consumer].C?
    requires k.seller in w.agents && w.agents[k.seller].S?
    requires k.carrier in w.agents && w.agents[k.carrier].T?
  {
    Snapshot(ViewC(w.agents[k.rid.consumer].c, k.rid), ViewS(w.agents[k.seller].s, k.rid),
             Filter(Carries(k), w.agents[k.carrier].t.active),
             Filter(ToSeller(k), w.mail), Filter(ToConsumer(k), w.mail), Filter(ToCarrier(k), w.mail),
             Filter(AboutIt(k), w.replies), Filter(InTrail(k), w.log), Filter(ToCarrier(k), Msgs(w.log)))
  }

  /** Restrictions that the order's own traffic must obey for the projection to be exact. */
  ghost predicate Tame(k: Case, x: Snapshot) {
    |x.answers| <= 1 && |x.toCarrier| <= 1 && OnePlace(k, x.toSeller)
  }

  /** The order's next snapshot, from what its consumer, seller and carrier make of the present one. */
  function Assemble(k: Case, x: Snapshot, consumer: ConsumerView, fromConsumer: seq<Message>, q: QueryId,
          id: ShipmentId,
                    tick: int): Snapshot
    requires forall m :: m in x.toCarrier ==> m.payload.ShipRequest?
  {
    var (seller, out) := SellerTurn(k, x.seller, x.answers, x.toSeller, tick, q);
    var (moving, fromCarrier) := CarrierSide.CarrierTurn(k, k.carrier, x.moving, x.toCarrier, tick, id);
    Snapshot(consumer, seller, moving, InOrder(k.rid.consumer, fromConsumer, k.carrier, fromCarrier),
             out.toConsumer, out.toCarrier, Answers(Answer(k.cfg), out.requests), x.trail + out.trail, x.shipped + out.toCarrier)
  }

  /** What one agent's block holds for the order's channels. */
  ghost predicate Feeds(k: Case, w: World<Agent>, b: int) {
    var m := TheMachine(k.cfg);
    && Stamped(m, w, b)
    && (b != k.seller ==>
          && Filter(ToConsumer(k), MailBlock(m, w)(b)) == [] && Filter(ToCarrier(k), MailBlock(m, w)(b)) == []
          && Filter(AsksIt(k), ReqBlock(m, w)(b)) == [] && Filter(InTrail(k), Block(m, w)(b)) == [])
    && (b != k.rid.consumer && b != k.carrier ==> Filter(ToSeller(k), MailBlock(m, w)(b)) == [])
  }

  lemma Source(k: Case, w: World<Agent>, b: int)
    requires Health(k, w) && b in w.agents
    ensures Feeds(k, w, b)
  {
    hide Health, Turn;
    BlockIs(TheMachine(k.cfg), w, b);
    TurnHealth(k, w, b);
    assert Block(TheMachine(k.cfg), w)(b) == Turn(TheMachine(k.cfg), w, b).1;
  }

  /** The blocks that feed each of the order's channels. */
  lemma Sources(k: Case, w: World<Agent>)
    requires Health(k, w)
    ensures var m := TheMachine(k.cfg);
            && (forall b :: b in w.agents ==> Stamped(m, w, b))
            && (forall b :: b in w.agents && b != k.seller ==>
                  && Filter(ToConsumer(k), MailBlock(m, w)(b)) == [] && Filter(ToCarrier(k), MailBlock(m, w)(b)) == []
                  && Filter(AsksIt(k), ReqBlock(m, w)(b)) == [] && Filter(InTrail(k), Block(m, w)(b)) == [])
            && (forall b :: b in w.agents && b != k.rid.consumer && b != k.carrier ==>
                  Filter(ToSeller(k), MailBlock(m, w)(b)) == [])
  {
    hide Health, Turn, Stamped, Block, MailBlock, ReqBlock;
    forall b | b in w.agents ensures Feeds(k, w, b) {
      Source(k, w, b);
    }
  }

  /** The channels after the step, each from its one source (or two, for the seller's). */
  lemma Channels(k: Case, w: World<Agent>)
    requires Health(k, w)
    ensures Cast(k, Step(TheMachine(k.cfg), w))
    ensures var m := TheMachine(k.cfg);
            var w' := Step(m, w);
            var (c, s, t) := (k.rid.consumer, k.seller, k.carrier);
            && Filter(ToSeller(k), w'.mail)
               == InOrder(c, Filter(ToSeller(k), MailBlock(m, w)(c)), t, Filter(ToSeller(k), MailBlock(m, w)(t)))
            && Filter(ToConsumer(k), w'.mail) == Filter(ToConsumer(k), MailBlock(m, w)(s))
            && Filter(ToCarrier(k), w'.mail) == Filter(ToCarrier(k), MailBlock(m, w)(s))
            && Filter(AboutIt(k), w'.replies) == Answers(Answer(k.cfg), Filter(AsksIt(k), ReqBlock(m, w)(s)))
            && Filter(InTrail(k), w'.log) == Filter(InTrail(k), w.log) + Filter(InTrail(k), Block(m, w)(s))
            && Filter(ToCarrier(k), Msgs(w'.log)) == Filter(ToCarrier(k), Msgs(w.log)) + Filter(ToCarrier(k), MailBlock(m, w)(s))
  {
    var m := TheMachine(k.cfg);
    Sources(k, w);
    MailFromTwo(m, w, ToSeller(k), k.rid.consumer, k.carrier);
    MailFromOne(m, w, ToConsumer(k), k.seller);
    MailFromOne(m, w, ToCarrier(k), k.seller);
    RepliesFromOne(m, w, AboutIt(k), AsksIt(k), k.seller);
    LogFromOne(m, w, InTrail(k), k.seller);
    LogMailFromOne(m, w, ToCarrier(k), k.seller);
    TurnHealth(k, w, k.rid.consumer);
    TurnHealth(k, w, k.seller);
    TurnHealth(k, w, k.carrier);
  }

  /** The part of each party's inbox that is about the order. */
  lemma PartyInbox(k: Case, w: World<Agent>)
    requires Health(k, w) && Tame(k, Snap(k, w))
    ensures var m := TheMachine(k.cfg);
            && Filter(ToConsumer(k), Handled(m, w, k.rid.consumer)) == Filter(ToConsumer(k), w.mail)
            && Filter(ToSeller(k), Handled(m, w, k.seller)) == Filter(ToSeller(k), w.mail)
            && Filter(ToCarrier(k), Handled(m, w, k.carrier)) == Filter(ToCarrier(k), w.mail)
            && Filter(AboutIt(k), HandledReplies(m, w, k.seller)) == Filter(AboutIt(k), w.replies)
  {
    var m := TheMachine(k.cfg);
    HandledMail(k, w, k.rid.consumer);
    HandledMail(k, w, k.seller);
    HandledMail(k, w, k.carrier);
    FilterFilter(ToConsumer(k), ToAgent(k.rid.consumer), w.mail);
    FilterFilter(ToSeller(k), ToAgent(k.seller), w.mail);
    FilterFilter(ToCarrier(k), ToAgent(k.carrier), w.mail);
    HandledIs(m, w, k.seller);
    FilterSort(ReplyKey(m.rank), AboutIt(k), Filter(ForAgent(k.seller), w.replies));
    FilterFilter(AboutIt(k), ForAgent(k.seller), w.replies);
    SortOfSorted(ReplyKey(m.rank), Filter(AboutIt(k), w.replies));
  }

  lemma SellerPart(k: Case, w: World<Agent>) returns (q: QueryId)
    requires Health(k, w) && Tame(k, Snap(k, w))
    requires Unmistakable(k, SellerAfter(k, w))
    ensures AskFor(k, q, w.tick + 1)
    ensures var (st, ev) := Turn(TheMachine(k.cfg), w, k.seller);
            var x := Snap(k, w);
            && st == S(SellerAfter(k, w))
            && (ViewS(SellerAfter(k, w), k.rid), OutOf(k, ev)) == SellerTurn(k, x.seller, x.answers, x.toSeller, w.tick + 1, q)
  {
    hide Handled, HandledReplies, Seller.Step, Transport.Step, Consumer.Step, Turn, Filter;
    var m := TheMachine(k.cfg);
    var s := k.seller;
    TurnIs(k.cfg, w, s);
    HandledMail(k, w, s);
    PartyInbox(k, w);
    q := SellerSide.OnStep(k, w.agents[s].s, HandledReplies(m, w, s), Handled(m, w, s), w.tick + 1);
  }

  function SellerAfter(k: Case, w: World<Agent>): Seller.State
    requires k.seller in w.agents && w.agents[k.seller].S?
  {
    var m := TheMachine(k.cfg);
    Seller.Step(k.cfg, k.seller, w.agents[k.seller].s, HandledReplies(m, w, k.seller), Handled(m, w, k.seller), w.tick + 1).0
  }

  lemma CarrierPart(k: Case, w: World<Agent>) returns (id: ShipmentId)
    requires Health(k, w) && Tame(k, Snap(k, w))
    ensures id.carrier == k.carrier && id.tick == w.tick + 1
    ensures var (st, ev) := Turn(TheMachine(k.cfg), w, k.carrier);
            var x := Snap(k, w);
            st.T? && (Filter(Carries(k), st.t.active), Filter(ToSeller(k), Msgs(ev)))
              == CarrierSide.CarrierTurn(k, k.carrier, x.moving, x.toCarrier, w.tick + 1, id)
  {
    hide Handled, HandledReplies, Seller.Step, Transport.Step, Consumer.Step, Turn, Filter, CarrierSide.CarrierTurn;
    var m := TheMachine(k.cfg);
    var t := k.carrier;
    TurnIs(k.cfg, w, t);
    PartyInbox(k, w);
    SilentEvents(w.agents[t].t.backlog);
    id := CarrierSide.OnStep(k, t, w.agents[t].t, Handled(m, w, t), w.tick + 1, |HandledReplies(m, w, t)|);
  }

  /** The consumer's new view of the order, and what it sends the seller about it. */
  function ConsumerAfter(k: Case, w: World<Agent>): (ConsumerView, seq<Message>)
    requires k.rid.consumer in w.agents && w.agents[k.rid.consumer].C?
  {
    var m := TheMachine(k.cfg);
    var c := k.rid.consumer;
    var (st, ev) := Consumer.Step(k.cfg, c, w.agents[c].c, HandledReplies(m, w, c), Handled(m, w, c), w.tick + 1);
    (ViewC(st, k.rid), Filter(ToSeller(k), Msgs(ev)))
  }

  /** Projection: the order's next snapshot is determined by the present one and the consumer's own initiative. */
  lemma Projected(k: Case, w: World<Agent>) returns (q: QueryId, id: ShipmentId)
    requires Health(k, w) && Tame(k, Snap(k, w))
    requires Unmistakable(k, SellerAfter(k, w))
    ensures AskFor(k, q, w.tick + 1) && id.carrier == k.carrier && id.tick == w.tick + 1
    ensures Cast(k, Step(TheMachine(k.cfg), w))
    ensures Snap(k, Step(TheMachine(k.cfg), w))
         == Assemble(k, Snap(k, w), ConsumerAfter(k, w).0, ConsumerAfter(k, w).1, q, id, w.tick + 1)
  {
    hide Step, Tame, Handled, HandledReplies, Consumer.Step, Seller.Step, Transport.Step, Answers, Unmistakable, ViewS,
            ViewC, SellerTurn, CarrierSide.CarrierTurn, Turn;
    var m := TheMachine(k.cfg);
    Channels(k, w);
    StepAgent(m, w, k.rid.consumer);
    StepAgent(m, w, k.seller);
    StepAgent(m, w, k.carrier);
    TurnIs(k.cfg, w, k.rid.consumer);
    q := SellerPart(k, w);
    id := CarrierPart(k, w);
  }

  /** The world stays healthy as long as the order's messages go to its parties. */
  lemma HealthKept(k: Case, w: World<Agent>)
    requires Health(k, w)
    requires var w' := Step(TheMachine(k.cfg), w);
             && (forall m :: m in w'.mail && ToSeller(k)(m) ==> m.to == k.seller)
             && (forall m :: m in w'.mail && ToConsumer(k)(m) ==> m.to == k.rid.consumer)
             && (forall m :: m in w'.mail && ToCarrier(k)(m) ==> m.to == k.carrier)
    ensures Health(k, Step(TheMachine(k.cfg), w))
  {
    var m := TheMachine(k.cfg);
    var w' := Step(m, w);
    StepShape(m, w);
    Channels(k, w);
    Sources(k, w);
    forall x | x in w'.mail ensures Addressed(k, x) {
      MailSource(m, w, x);
      var a :| a in w.agents && x in MailBlock(m, w)(a);
      TurnHealth(k, w, a);
    }
    forall x | x in w'.replies && AboutIt(k)(x) ensures x.agent == k.seller {
      ReplySource(m, w, x);
      var a, q :| a in w.agents && q in ReqBlock(m, w)(a) && x == m.answer(q);
      TurnHealth(k, w, a);
      if a != k.seller {
        FilterComplete(AsksIt(k), ReqBlock(m, w)(a), q);
      }
    }
    forall a | a in w'.agents ensures Sound(k, a, w'.agents[a]) {
      TurnHealth(k, w, a);
    }
  }
}
