/** Every order over every run: agreement of seller and consumer, the cancel window, delivery, payment. */
module Orders {
  import opened Seqs
  import opened Messages
  import opened Settings
  import opened Engine
  import opened Simulation
  import opened OneOrder
  import opened SellerSide
  import opened Projection
  import opened OrderLife
  import opened OrderTimeline
  import ConsumerSide
  import Consumer
  import Seller

  /** A run in which the order's parties take part. */
  ghost predicate Setting(k: Case, w: World<Agent>) {
    Initial(w) && Cast(k, w) && Parties(k)
  }

  /** Up to tick t no other order of the seller draws the order's store number. */
  ghost predicate NoClash(k: Case, w: World<Agent>, t: nat) {
    forall u: nat :: u <= t && SellerPresent(k, At(k.cfg, w, u)) ==> Unmistakable(k, At(k.cfg, w, u).agents[k.seller].s)
  }

  predicate SellerPresent(k: Case, w: World<Agent>) {
    k.seller in w.agents && w.agents[k.seller].S?
  }

  /** The order is placed, with the seller of the case, at the tick of its id. */
  ghost predicate IsPlaced(k: Case, w: World<Agent>) {
    Start(k) >= 1 &&
    var u := At(k.cfg, w, Start(k));
    && Buyer(k) in u.agents && u.agents[Buyer(k)].C?
    && k.rid in u.agents[Buyer(k)].c.pending
    && u.agents[Buyer(k)].c.pending[k.rid].seller == k.seller
  }

  /** The order is not placed with any other seller. */
  ghost predicate NotElsewhere(k: Case, w: World<Agent>) {
    Start(k) >= 1 ==>
      var u := At(k.cfg, w, Start(k));
      (Buyer(k) in u.agents && u.agents[Buyer(k)].C? && k.rid in u.agents[Buyer(k)].c.pending)
      ==> u.agents[Buyer(k)].c.pending[k.rid].seller == k.seller
  }

  // -------------------------------------------------------------- one tick

  lemma ConsumerPart(k: Case, w: World<Agent>) returns (cancels: seq<Message>)
    requires Health(k, w) && Tame(k, Snap(k, w)) && w.tick + 1 != Start(k)
    ensures Initiative(k, Snap(k, w), cancels)
    ensures var x := Snap(k, w);
            var (v, out) := ConsumerFold(Buyer(k), x.consumer, x.toConsumer, w.tick + 1);
            ConsumerAfter(k, w) == (v, cancels + out)
  {
    hide Consumer.Step, Handled, HandledReplies, Tame, Turn, Seller.Step, Transport.Step;
    var m := TheMachine(k.cfg);
    var c := Buyer(k);
    assert Filter(ToConsumer(k), Handled(m, w, c)) == Snap(k, w).toConsumer by { PartyInbox(k, w); }
    cancels := ConsumerSide.OnStep(k, c, w.agents[c].c, HandledReplies(m, w, c), Handled(m, w, c), w.tick + 1);
  }

  lemma OneTick(k: Case, w: World<Agent>) returns (cancels: seq<Message>, q: QueryId, id: ShipmentId)
    requires Health(k, w) && Tame(k, Snap(k, w)) && w.tick + 1 != Start(k)
    requires Unmistakable(k, SellerAfter(k, w))
    ensures Initiative(k, Snap(k, w), cancels)
    ensures AskFor(k, q, w.tick + 1) && id.carrier == k.carrier && id.tick == w.tick + 1
    ensures Cast(k, Step(TheMachine(k.cfg), w))
    ensures Snap(k, Step(TheMachine(k.cfg), w)) == NextOf(k, Snap(k, w), cancels, q, id, w.tick + 1)
  {
    cancels := ConsumerPart(k, w);
    q, id := Projected(k, w);
  }

  lemma SellerNext(k: Case, w: World<Agent>)
    requires SellerPresent(k, w)
    ensures SellerPresent(k, Step(TheMachine(k.cfg), w))
    ensures Step(TheMachine(k.cfg), w).agents[k.seller].s == SellerAfter(k, w)
  {
    hide Step, Turn, Handled, HandledReplies, Seller.Step;
    StepAgent(TheMachine(k.cfg), w, k.seller);
    TurnIs(k.cfg, w, k.seller);
  }

  lemma AtNext(cfg: Config, w: World<Agent>, t: nat)
    ensures At(cfg, w, t + 1) == Step(TheMachine(cfg), At(cfg, w, t))
  {
    hide Step;
  }

  lemma HealthyCast(k: Case, u: World<Agent>)
    requires Health(k, u)
    ensures Cast(k, u) && SellerPresent(k, u)
  {
  }

  /** A tick from a reachable state, with the book-keeping that all phases share. */
  lemma TickAt(k: Case, w: World<Agent>, t: nat) returns (cancels: seq<Message>, q: QueryId, id: ShipmentId)
    requires Setting(k, w) && NoClash(k, w, t + 1)
    requires Health(k, At(k.cfg, w, t)) && Tame(k, Snap(k, At(k.cfg, w, t))) && t + 1 != Start(k)
    ensures Initiative(k, Snap(k, At(k.cfg, w, t)), cancels)
    ensures AskFor(k, q, t + 1) && id.carrier == k.carrier && id.tick == t + 1
    ensures Cast(k, At(k.cfg, w, t + 1))
    ensures Snap(k, At(k.cfg, w, t + 1)) == NextOf(k, Snap(k, At(k.cfg, w, t)), cancels, q, id, t + 1)
  {
    hide At, Tame, Health, NextOf, Initiative, Initial, Unmistakable, SellerAfter, Assemble, Snap, Step, TheMachine,
            Parties;
    var u := At(k.cfg, w, t);
    RunBasics(k.cfg, w, t);
    AtNext(k.cfg, w, t);
    HealthyCast(k, u);
    SellerNext(k, u);
    assert SellerPresent(k, At(k.cfg, w, t + 1));
    cancels, q, id := OneTick(k, u);
  }

  lemma KeepHealth(k: Case, w: World<Agent>, t: nat)
    requires Setting(k, w) && Health(k, At(k.cfg, w, t)) && Cast(k, At(k.cfg, w, t + 1))
    requires WellSent(k, Snap(k, At(k.cfg, w, t + 1)))
    ensures Health(k, At(k.cfg, w, t + 1))
  {
    var u := At(k.cfg, w, t + 1);
    forall m | m in u.mail
      ensures ToSeller(k)(m) ==> m.to == k.seller
      ensures ToConsumer(k)(m) ==> m.to == Buyer(k)
      ensures ToCarrier(k)(m) ==> m.to == k.carrier
    {
      if ToSeller(k)(m) { FilterComplete(ToSeller(k), u.mail, m); }
      if ToConsumer(k)(m) { FilterComplete(ToConsumer(k), u.mail, m); }
      if ToCarrier(k)(m) { FilterComplete(ToCarrier(k), u.mail, m); }
    }
    HealthKept(k, At(k.cfg, w, t));
  }

  // -------------------------------------------------------------- before the order exists

  lemma AtTheStart(k: Case, w: World<Agent>)
    requires Setting(k, w)
    ensures Health(k, w) && Blank(Snap(k, w))
  {
  }

  lemma NothingFromNothing(k: Case, cancels: seq<Message>, q: QueryId, id: ShipmentId, tick: int)
    requires Initiative(k, NOTHING, cancels)
    ensures NextOf(k, NOTHING, cancels, q, id, tick) == NOTHING
  {
    NoFreight(k, tick, id);
    NoAsks(NOTHING.seller, tick);
    TurnOnMail(k, NOTHING.seller, [], tick, q);
  }

  lemma {:induction false} Before(k: Case, w: World<Agent>, t: nat)
    requires Setting(k, w) && NoClash(k, w, t) && t < Start(k)
    ensures Health(k, At(k.cfg, w, t)) && Blank(Snap(k, At(k.cfg, w, t)))
  {
    hide Step, Health, AskFor, Initial, NextOf, Initiative;
    if t == 0 {
      AtTheStart(k, w);
    } else {
      Before(k, w, t - 1);
      HealthyCast(k, At(k.cfg, w, t - 1));
      BlankTame(k, Snap(k, At(k.cfg, w, t - 1)));
      var cancels, q, id := TickAt(k, w, t - 1);
      NothingFromNothing(k, cancels, q, id, t);
      KeepHealth(k, w, t - 1);
    }
  }

  // -------------------------------------------------------------- the placement

  lemma OpeningPart(k: Case, w: World<Agent>)
    requires Health(k, w) && Blank(Snap(k, w)) && w.tick + 1 == Start(k)
    ensures var (v, out) := ConsumerAfter(k, w);
            ConsumerSide.MayOpen(k, Buyer(k), ConsumerView(None, []), v, Start(k), out)
  {
    hide Consumer.Step, Handled, HandledReplies, ConsumerSide.MayOpen;
    var m := TheMachine(k.cfg);
    var c := Buyer(k);
    PartyInbox(k, w);
    ConsumerSide.OnOpeningStep(k, c, w.agents[c].c, HandledReplies(m, w, c), Handled(m, w, c), w.tick + 1);
  }

  lemma Assembled(k: Case, v: ConsumerView, out: seq<Message>, q: QueryId, id: ShipmentId, tick: int)
    ensures Assemble(k, NOTHING, v, out, q, id, tick) == NOTHING.(consumer := v, toSeller := out)
  {
    NoFreight(k, tick, id);
    NoAsks(NOTHING.seller, tick);
    TurnOnMail(k, NOTHING.seller, [], tick, q);
    JustOrder(Buyer(k), out, k.carrier);
  }

  lemma BlankTame(k: Case, x: Snapshot)
    requires Blank(x)
    ensures Tame(k, x) && x == NOTHING
  {
  }

  lemma OpeningTick(k: Case, w: World<Agent>, t: nat) returns (v: ConsumerView, out: seq<Message>)
    requires Setting(k, w) && NoClash(k, w, t + 1) && t + 1 == Start(k)
    ensures Health(k, At(k.cfg, w, t)) && Cast(k, At(k.cfg, w, t + 1))
    ensures Snap(k, At(k.cfg, w, t + 1)) == NOTHING.(consumer := v, toSeller := out)
    ensures ConsumerSide.MayOpen(k, Buyer(k), ConsumerView(None, []), v, Start(k), out)
  {
    hide At, Health, Assemble, Cast, AskFor, Initial, Unmistakable, SellerAfter, ConsumerAfter, ConsumerSide.MayOpen,
            Step, TheMachine, Parties, Snap;
    Before(k, w, t);
    var u := At(k.cfg, w, t);
    RunBasics(k.cfg, w, t);
    AtNext(k.cfg, w, t);
    HealthyCast(k, u);
    SellerNext(k, u);
    assert SellerPresent(k, At(k.cfg, w, t + 1));
    OpeningPart(k, u);
    BlankTame(k, Snap(k, u));
    var q, id := Projected(k, u);
    v, out := ConsumerAfter(k, u).0, ConsumerAfter(k, u).1;
    Assembled(k, v, out, q, id, t + 1);
  }

  /** At the tick of its id an order is either placed, or still nowhere. */
  lemma Opens(k: Case, w: World<Agent>)
    requires Setting(k, w) && Start(k) >= 1 && NoClash(k, w, Start(k)) && NotElsewhere(k, w)
    ensures Health(k, At(k.cfg, w, Start(k)))
    ensures var x := Snap(k, At(k.cfg, w, Start(k)));
            if IsPlaced(k, w) then x.consumer.deal.Some? && x.consumer.deal.value.seller == k.seller
                                   && InPlaced(k, x.consumer.deal.value, x)
            else Blank(x)
  {
    hide ActOn, Step;
    var v, out := OpeningTick(k, w, Start(k) - 1);
    if v.deal.Some? {
      assert IsPlaced(k, w);
      forall m | m in out ensures m.to == k.seller {
        assert m == out[0] || m in out[1..];
      }
    }
    KeepHealth(k, w, Start(k) - 1);
  }

  // -------------------------------------------------------------- the whole life

  ghost predicate Matches(k: Case, w: World<Agent>, t: nat, x: Snapshot) {
    Health(k, At(k.cfg, w, t)) && x == Snap(k, At(k.cfg, w, t))
  }

  /** The snapshots of a placed order form a life, and the world stays healthy. */
  ghost predicate Lives(k: Case, w: World<Agent>, d: Deal, xs: seq<Snapshot>) {
    && Start(k) >= 1 && d.seller == k.seller && Life(k, d, xs)
    && forall j :: 0 <= j < |xs| ==> Matches(k, w, Start(k) + j, xs[j])
  }

  lemma Extend(k: Case, w: World<Agent>, d: Deal, xs: seq<Snapshot>, t: nat) returns (y: Snapshot)
    requires xs != [] && Setting(k, w) && Lives(k, w, d, xs) && t == Start(k) + |xs| - 1 && NoClash(k, w, t + 1)
    ensures Evolves(k, xs[|xs| - 1], y, t + 1) && Matches(k, w, t + 1, y)
  {
    hide ActOn, Step, Snap, Legit, NextOf, Life, Initiative;
    var j := |xs| - 1;
    assert Life(k, d, xs);
    LifeIsLegit(k, d, xs, j);
    LegitIsTame(k, d, j, xs[j]);
    assert Matches(k, w, Start(k) + j, xs[j]);
    var cancels, q, id := TickAt(k, w, t);
    y := Snap(k, At(k.cfg, w, t + 1));
    assert EvolvesBy(k, xs[j], y, t + 1, cancels, q, id);
    LegitStep(k, d, j, xs[j], y);
    LegitIsTame(k, d, j + 1, y);
    KeepHealth(k, w, t);
  }

  lemma {:induction false} Living(k: Case, w: World<Agent>, n: nat) returns (d: Deal, xs: seq<Snapshot>)
    requires Setting(k, w) && IsPlaced(k, w) && NoClash(k, w, Start(k) + n)
    ensures |xs| == n + 1 && Lives(k, w, d, xs)
  {
    hide ActOn, Step, InPlaced, EvolvesBy, Snap;
    if n == 0 {
      Opens(k, w);
      var x := Snap(k, At(k.cfg, w, Start(k)));
      d, xs := x.consumer.deal.value, [x];
    } else {
      d, xs := Living(k, w, n - 1);
      var y := Extend(k, w, d, xs, Start(k) + n - 1);
      xs := xs + [y];
    }
  }
}
