/** Shipments over whole runs: the tracking timetable, one report of each kind, and none lost. */
module Shipments {
  import opened Seqs
  import opened Messages
  import opened Settings
  import opened Engine
  import opened Routing
  import opened Simulation
  import opened Manners
  import opened Tracking
  import opened Inventory
  import Restocks
  import RestockLoop
  import Transport

  /** The carrier's shipments with the given id. */
  function UnderWay(w: World<Agent>, id: ShipmentId): seq<Shipment>
    requires id.carrier in w.agents && w.agents[id.carrier].T?
  {
    Filter(HasId(id), w.agents[id.carrier].t.active)
  }

  /** The reports on a shipment in the log. */
  function Reported(w: World<Agent>, id: ShipmentId): seq<Event> {
    Filter(About(id), w.log)
  }

  /** The shipment that starts under the id at the tick after u. */
  function StartsNow(cfg: Config, u: World<Agent>, id: ShipmentId): seq<Shipment> {
    var m := TheMachine(cfg);
    Started(cfg, id.carrier, Handled(m, u, id.carrier), u.tick + 1, |HandledReplies(m, u, id.carrier)|, id)
  }

  function Round(cfg: Config, a: int, taken: seq<Shipment>, tick: int): (seq<Shipment>, seq<Event>) {
    if Due(cfg, a, Action.UpdateTracking, tick) then Transport.Track(a, taken, tick) else (taken, [])
  }

  lemma FilterQuiet<T>(p: T -> bool, xs: seq<T>, ys: seq<T>)
    requires Filter(p, xs) == []
    ensures Filter(p, xs + ys) == Filter(p, ys)
  {
    FilterAppend(p, xs, ys);
    assert [] + Filter(p, ys) == Filter(p, ys);
  }

  lemma CarrierStepOn(cfg: Config, a: int, st: Transport.State, mail: seq<Message>, tick: int, item: int,
          id: ShipmentId)
    requires id.carrier == a && OwnBacklog(st, a)
    ensures var (st1, ev) := Transport.Step(cfg, a, st, mail, tick, item);
            (Filter(HasId(id), st1.active), Filter(About(id), ev))
              == Round(cfg, a, Filter(HasId(id), st.active) + Started(cfg, a, mail, tick, item, id), tick)
  {
    hide Transport.Track, Transport.Mail, Started, Fires;
    var st1 := Transport.Mail(cfg, a, st, mail, tick, item);
    MailStarts(cfg, a, st, mail, tick, item, id);
    CarrierMail(cfg, a, st, mail, tick, item);
    if Due(cfg, a, Action.UpdateTracking, tick) {
      TrackEach(a, st1.active, tick, id);
      FilterNone(About(id), st1.backlog);
      FilterQuiet(About(id), st1.backlog, Transport.Track(a, st1.active, tick).1);
    }
  }

  /** What the carrier's turn reports on the shipment, and what it leaves of it. */
  lemma ShipmentTurn(cfg: Config, u: World<Agent>, id: ShipmentId)
    requires Accounted(cfg, u) && Restocks.IsCarrier(u, id.carrier)
    ensures var m := TheMachine(cfg);
            var (kept, ev) := Round(cfg, id.carrier, UnderWay(u, id) + StartsNow(cfg, u, id), u.tick + 1);
            var (st1, events) := Turn(m, u, id.carrier);
            && st1.T? && Filter(HasId(id), st1.t.active) == kept && Filter(About(id), events) == ev
  {
    hide Transport.Step, Round, Started, Handled, HandledReplies, Turn;
    var m := TheMachine(cfg);
    var a := id.carrier;
    TurnIs(cfg, u, a);
    assert Accountable(cfg, u, a, u.agents[a]);
    CarrierStepOn(cfg, a, u.agents[a].t, Handled(m, u, a), u.tick + 1, |HandledReplies(m, u, a)|, id);
  }

  lemma ShipmentBlock(cfg: Config, u: World<Agent>, id: ShipmentId)
    requires Accounted(cfg, u) && Restocks.IsCarrier(u, id.carrier)
    ensures Filter(About(id), Block(TheMachine(cfg), u)(id.carrier))
         == Round(cfg, id.carrier, UnderWay(u, id) + StartsNow(cfg, u, id), u.tick + 1).1
  {
    hide Accounted, Round, StartsNow, UnderWay, Turn;
    ShipmentTurn(cfg, u, id);
    BlockIs(TheMachine(cfg), u, id.carrier);
  }

  /** A tick, seen from one shipment id. */
  lemma ShipmentTick(cfg: Config, u: World<Agent>, id: ShipmentId)
    requires Accounted(cfg, u) && Restocks.IsCarrier(u, id.carrier)
    ensures var v := Step(TheMachine(cfg), u);
            var (kept, ev) := Round(cfg, id.carrier, UnderWay(u, id) + StartsNow(cfg, u, id), u.tick + 1);
            && Restocks.IsCarrier(v, id.carrier)
            && UnderWay(v, id) == kept && Reported(v, id) == Reported(u, id) + ev
  {
    hide Accounted, Round, StartsNow, Step, Turn, Block;
    var m := TheMachine(cfg);
    StepAgent(m, u, id.carrier);
    ShipmentTurn(cfg, u, id);
    ShipmentBlock(cfg, u, id);
    forall b | b in u.agents && b != id.carrier ensures Filter(About(id), Block(m, u)(b)) == [] {
      OthersReportNothing(cfg, u, b, id);
    }
    LogFromOne(m, u, About(id), id.carrier);
  }

  lemma RoundTracks(cfg: Config, a: int, taken: seq<Shipment>, tick: int)
    requires Due(cfg, a, Action.UpdateTracking, tick)
    ensures Round(cfg, a, taken, tick) == Transport.Track(a, taken, tick)
  {
    hide Fires, Transport.Track;
  }

  lemma OthersReportNothing(cfg: Config, u: World<Agent>, b: int, id: ShipmentId)
    requires Accounted(cfg, u) && b in u.agents && b != id.carrier
    ensures Filter(About(id), Block(TheMachine(cfg), u)(b)) == []
  {
    hide Turn, Accounted;
    BlockIs(TheMachine(cfg), u, b);
    AccountedSigns(cfg, u, b);
    forall e | e in Turn(TheMachine(cfg), u, b).1 ensures !About(id)(e) {
      assert SignedBy(e, b);
    }
    FilterNone(About(id), Turn(TheMachine(cfg), u, b).1);
  }

  // -------------------------------------------------------------- before and at the start

  lemma {:induction false} NotBefore(cfg: Config, w: World<Agent>, id: ShipmentId, t: nat)
    requires Initial(w) && Restocks.IsCarrier(w, id.carrier) && t < id.tick
    ensures Restocks.IsCarrier(At(cfg, w, t), id.carrier)
    ensures UnderWay(At(cfg, w, t), id) == [] && Reported(At(cfg, w, t), id) == []
  {
    hide Step, Accounted;
    if t == 0 {
      assert FreshAgent(w.agents[id.carrier]);
    } else {
      NotBefore(cfg, w, id, t - 1);
      AlwaysAccounted(cfg, w, t - 1);
      RunBasics(cfg, w, t - 1);
      ShipmentTick(cfg, At(cfg, w, t - 1), id);
      RoundNothing(cfg, id.carrier, t);
      assert StartsNow(cfg, At(cfg, w, t - 1), id) == [];
    }
  }

  lemma RoundNothing(cfg: Config, a: int, tick: int)
    ensures Round(cfg, a, [], tick) == ([], [])
  {
  }

  /** A shipment is taken on under the id, at the tick of the id. */
  ghost predicate IsStarted(cfg: Config, w: World<Agent>, id: ShipmentId, s: Shipment) {
    id.tick >= 1 && StartsNow(cfg, At(cfg, w, id.tick - 1), id) == [s]
  }

  lemma StartedAs(cfg: Config, w: World<Agent>, id: ShipmentId, s: Shipment)
    requires Initial(w) && IsStarted(cfg, w, id, s)
    ensures s.id == id && s.start == id.tick && s.eta == id.tick + Transport.Transit(cfg, id) && s.milestones == {}
  {
    hide At, Handled, HandledReplies, Transport.OrderRef;
    RunBasics(cfg, w, id.tick - 1);
  }

  lemma TimetableBegins(cfg: Config, w: World<Agent>, id: ShipmentId, s: Shipment)
    requires Initial(w) && Restocks.IsCarrier(w, id.carrier) && TracksAlways(cfg, id.carrier)
    requires IsStarted(cfg, w, id, s) && Transport.Transit(cfg, id) >= 4
    ensures Restocks.IsCarrier(At(cfg, w, id.tick), id.carrier)
    ensures UnderWay(At(cfg, w, id.tick), id) == Left(s, id.tick)
    ensures Reported(At(cfg, w, id.tick), id) == Timetable(id.carrier, s, id.tick)
  {
    hide Step, Accounted, Timetable, Left, Fires, Transport.Track, Initial, StartsNow, Round;
    var t: nat := id.tick;
    var u := At(cfg, w, t - 1);
    RunBasics(cfg, w, t - 1);
    AlwaysAccounted(cfg, w, t - 1);
    StartedAs(cfg, w, id, s);
    NotBefore(cfg, w, id, t - 1);
    ShipmentTick(cfg, u, id);
    assert Due(cfg, id.carrier, Action.UpdateTracking, t);
    assert s == s.(milestones := {});
    assert [] + [s] == [s];
    RoundTracks(cfg, id.carrier, [s], t);
    FirstRound(id.carrier, s);
    assert At(cfg, w, t) == Step(TheMachine(cfg), u);
  }

  lemma TimetableContinues(cfg: Config, w: World<Agent>, id: ShipmentId, s: Shipment, u: World<Agent>)
    requires Accounted(cfg, u) && Restocks.IsCarrier(u, id.carrier) && TracksAlways(cfg, id.carrier)
    requires s.eta - s.start >= 4 && u.tick >= s.start == id.tick >= 1
    requires UnderWay(u, id) == Left(s, u.tick) && Reported(u, id) == Timetable(id.carrier, s, u.tick)
    ensures var v := Step(TheMachine(cfg), u);
            && Restocks.IsCarrier(v, id.carrier)
            && UnderWay(v, id) == Left(s, u.tick + 1) && Reported(v, id) == Timetable(id.carrier, s, u.tick + 1)
  {
    hide Step, Accounted, Timetable, Left, Fires, Transport.Track, Handled, HandledReplies, Round;
    ShipmentTick(cfg, u, id);
    assert Due(cfg, id.carrier, Action.UpdateTracking, u.tick + 1);
    assert StartsNow(cfg, u, id) == [];
    assert Left(s, u.tick) + [] == Left(s, u.tick);
    RoundTracks(cfg, id.carrier, Left(s, u.tick), u.tick + 1);
    OneRound(id.carrier, s, u.tick + 1);
  }

  /**
   * The tracking timetable: if tracking fires at every tick, a shipment with a transit time of at least
   * four is reported at a quarter, a half and three quarters of its way, each rounded up to the tick,
   * then delivered when it is due, and on no other occasion.
   */
  lemma {:induction false} TrackingTimetable(cfg: Config, w: World<Agent>, id: ShipmentId, s: Shipment, t: nat)
    requires Initial(w) && Restocks.IsCarrier(w, id.carrier) && TracksAlways(cfg, id.carrier)
    requires IsStarted(cfg, w, id, s) && Transport.Transit(cfg, id) >= 4 && t >= id.tick
    ensures Restocks.IsCarrier(At(cfg, w, t), id.carrier)
    ensures UnderWay(At(cfg, w, t), id) == Left(s, t)
    ensures Reported(At(cfg, w, t), id) == Timetable(id.carrier, s, t)
  {
    hide Step, Accounted, Timetable, Left, Initial, TracksAlways, UnderWay, Reported, StartsNow;
    if t == id.tick {
      TimetableBegins(cfg, w, id, s);
    } else {
      TrackingTimetable(cfg, w, id, s, t - 1);
      RunBasics(cfg, w, t - 1);
      AlwaysAccounted(cfg, w, t - 1);
      StartedAs(cfg, w, id, s);
      TimetableContinues(cfg, w, id, s, At(cfg, w, t - 1));
      assert At(cfg, w, t) == Step(TheMachine(cfg), At(cfg, w, t - 1));
    }
  }

  // -------------------------------------------------------------- any cadence

  /** What a report says: a share of the way, or the arrival. */
  function Mark(e: Event): Track {
    if e.kind == TrackingUpdate && |e.writes| > 0 && e.writes[0].InsertTracking? then e.writes[0].mark else Arrived
  }

  /** Reports so far: all different; while the shipment is under way, just its milestones. */
  ghost predicate Tidy(reports: seq<Event>, under: seq<Shipment>) {
    && (forall i, j :: 0 <= i < j < |reports| ==> Mark(reports[i]) != Mark(reports[j]))
    && |under| <= 1
    && (under != [] ==> forall e :: e in reports ==> Mark(e).Progress? && Mark(e).percent in under[0].milestones)
  }

  lemma RoundTidy(cfg: Config, a: int, reports: seq<Event>, taken: seq<Shipment>, tick: int)
    requires Tidy(reports, taken)
    ensures var (kept, ev) := Round(cfg, a, taken, tick);
            Tidy(reports + ev, kept)
  {
    hide Transport.Milestone;
    var (kept, ev) := Round(cfg, a, taken, tick);
    if taken == [] || !Due(cfg, a, Action.UpdateTracking, tick) {
      assert ev == [] && reports + ev == reports;
    } else {
      assert taken == [taken[0]];
      TrackSingle(a, taken[0], tick);
      MilestoneNew(taken[0], tick);
      if ev != [] {
        assert ev == [ev[0]];
        forall i | 0 <= i < |reports| ensures Mark(reports[i]) != Mark(ev[0]) {
          assert reports[i] in reports;
        }
      } else {
        assert reports + ev == reports;
      }
    }
  }

  lemma MilestoneNew(s: Shipment, tick: int)
    ensures Transport.Milestone(s, tick) !in s.milestones || Transport.Milestone(s, tick) == 0
  {
  }

  /** However often tracking fires, each milestone and the delivery of a shipment are reported at most once. */
  lemma {:induction false} ReportedOnce(cfg: Config, w: World<Agent>, id: ShipmentId, t: nat)
    requires Initial(w) && Restocks.IsCarrier(w, id.carrier)
    ensures Restocks.IsCarrier(At(cfg, w, t), id.carrier)
    ensures Tidy(Reported(At(cfg, w, t), id), UnderWay(At(cfg, w, t), id))
  {
    hide Step, Accounted, Round, Tidy, StartsNow, UnderWay, Reported;
    if t < id.tick {
      NotBefore(cfg, w, id, t);
      NothingTidy();
    } else if t == 0 {
      NothingAtStart(w, id);
      NothingTidy();
    } else {
      var u := At(cfg, w, t - 1);
      ReportedOnce(cfg, w, id, t - 1);
      RunBasics(cfg, w, t - 1);
      AlwaysAccounted(cfg, w, t - 1);
      ShipmentTick(cfg, u, id);
      var taken := UnderWay(u, id) + StartsNow(cfg, u, id);
      if t == id.tick {
        NotBefore(cfg, w, id, t - 1);
        assert [] + StartsNow(cfg, u, id) == StartsNow(cfg, u, id);
        StartsOne(cfg, u, id);
        FirstTidy(StartsNow(cfg, u, id));
      } else {
        StartsOne(cfg, u, id);
        assert taken == UnderWay(u, id);
      }
      RoundTidy(cfg, id.carrier, Reported(u, id), taken, t);
    }
  }

  lemma StartsOne(cfg: Config, u: World<Agent>, id: ShipmentId)
    ensures |StartsNow(cfg, u, id)| <= 1
    ensures u.tick + 1 != id.tick ==> StartsNow(cfg, u, id) == []
  {
  }

  lemma NothingTidy()
    ensures Tidy([], [])
  {
  }

  lemma FirstTidy(started: seq<Shipment>)
    requires |started| <= 1
    ensures Tidy([], started)
  {
  }

  lemma NothingAtStart(w: World<Agent>, id: ShipmentId)
    requires Initial(w) && Restocks.IsCarrier(w, id.carrier)
    ensures UnderWay(w, id) == [] && Reported(w, id) == []
  {
    assert FreshAgent(w.agents[id.carrier]);
  }

  // -------------------------------------------------------------- none lost

  /** Shipments created less shipments delivered, by the log entries of a carrier. */
  function Outstanding(a: int): Event -> int {
    (e: Event) => if e.agent != a then 0 else if e.kind == ShipmentCreated then 1 else if e.kind == DeliveryCompleted then -1 else 0
  }

  /** Shipments that a carrier has under way, less those whose creation is yet to be reported. */
  function Carried(a: int): (int, Agent) -> int {
    (b: int, st: Agent) => if b == a && st.T? then |st.t.active| - |st.t.backlog| else 0
  }

  lemma {:induction false} MailBalance(cfg: Config, me: int, st: Transport.State, mail: seq<Message>, tick: int,
          item: int)
    ensures var st1 := Transport.Mail(cfg, me, st, mail, tick, item);
            |st1.active| - |st1.backlog| == |st.active| - |st.backlog|
    decreases |mail|
  {
    if mail != [] {
      var st1 := if mail[0].payload.ShipRequest?
                 then Transport.OnShipRequest(cfg, me, st, mail[0].payload, mail[0].from, tick, item) else st;
      MailBalance(cfg, me, st1, mail[1..], tick, item + 1);
    }
  }

  lemma {:induction false} BacklogSum(me: int, backlog: seq<Event>)
    requires forall e :: e in backlog ==> e.agent == me && e.kind == ShipmentCreated
    ensures Sum(Outstanding(me), backlog) == |backlog|
  {
    if backlog != [] {
      assert backlog[0] in backlog;
      BacklogSum(me, backlog[1..]);
    }
  }

  lemma {:induction false} TrackBalance(me: int, active: seq<Shipment>, tick: int)
    ensures var (kept, ev) := Transport.Track(me, active, tick);
            |kept| == |active| + Sum(Outstanding(me), ev)
    decreases |active|
  {
    if active != [] {
      var (kept1, ev1) := Transport.TrackOne(me, active[0], tick);
      var (kept2, ev2) := Transport.Track(me, active[1..], tick);
      TrackBalance(me, active[1..], tick);
      SumAppend(Outstanding(me), ev1, ev2);
      if ev1 != [] {
        assert ev1 == [ev1[0]];
        SumOne(Outstanding(me), ev1[0]);
      }
    }
  }

  lemma StepBalance(cfg: Config, me: int, st: Transport.State, mail: seq<Message>, tick: int, item: int)
    requires OwnBacklog(st, me)
    ensures var (st1, ev) := Transport.Step(cfg, me, st, mail, tick, item);
            |st1.active| - |st1.backlog| == |st.active| - |st.backlog| + Sum(Outstanding(me), ev)
  {
    var st1 := Transport.Mail(cfg, me, st, mail, tick, item);
    MailBalance(cfg, me, st, mail, tick, item);
    CarrierMail(cfg, me, st, mail, tick, item);
    BacklogSum(me, st1.backlog);
    TrackBalance(me, st1.active, tick);
    SumAppend(Outstanding(me), st1.backlog, Transport.Track(me, st1.active, tick).1);
  }

  lemma TurnBalance(cfg: Config, w: World<Agent>, a: int, b: int)
    requires Accounted(cfg, w) && Restocks.IsCarrier(w, a) && b in w.agents
    ensures Balanced(TheMachine(cfg), w, Zero(), Carried(a), Outstanding(a), b)
  {
    hide Transport.Step, Turn, Handled, HandledReplies;
    var m := TheMachine(cfg);
    var ev := Turn(m, w, b).1;
    SumZero(Zero(), Msgs(ev));
    SumZero(Zero(), Filter(ToAgent(b), w.mail));
    if a == b {
      TurnIs(cfg, w, a);
      assert Accountable(cfg, w, a, w.agents[a]);
      StepBalance(cfg, a, w.agents[a].t, Handled(m, w, a), w.tick + 1, |HandledReplies(m, w, a)|);
    } else {
      AccountedSigns(cfg, w, b);
      forall e | e in ev ensures Outstanding(a)(e) == 0 {
        assert SignedBy(e, b);
      }
      SumZero(Outstanding(a), ev);
    }
  }

  lemma {:induction false} CarriesOne(w: World<Agent>, a: int, ids: seq<int>)
    requires Distinct(ids)
    ensures Sum(HoldBefore(w, Carried(a)), ids)
         == if a in ids && Restocks.IsCarrier(w, a) then |w.agents[a].t.active| - |w.agents[a].t.backlog| else 0
  {
    if ids != [] {
      CarriesOne(w, a, ids[1..]);
      var first := ids[0];
      assert ids == [first] + ids[1..];
      assert first !in ids[1..];
    }
  }

  /**
   * No shipment is lost: at every tick of every run, the shipments that a carrier has created, whether
   * reported or still waiting to be, are those under way and those delivered.
   */
  lemma {:induction false} ShipmentsConserved(cfg: Config, w: World<Agent>, a: int, t: nat)
    requires Initial(w) && Restocks.IsCarrier(w, a)
    ensures Restocks.IsCarrier(At(cfg, w, t), a)
    ensures var u := At(cfg, w, t);
            Sum(Outstanding(a), u.log) + |u.agents[a].t.backlog| == |u.agents[a].t.active|
  {
    hide Step, Turn, Accounted, Outstanding;
    if t == 0 {
      assert FreshAgent(w.agents[a]);
    } else {
      var u := At(cfg, w, t - 1);
      ShipmentsConserved(cfg, w, a, t - 1);
      AlwaysAccounted(cfg, w, t - 1);
      assert At(cfg, w, t) == Step(TheMachine(cfg), u);
      BalanceRound(cfg, u, a);
    }
  }

  lemma BalanceRound(cfg: Config, u: World<Agent>, a: int)
    requires Accounted(cfg, u) && Restocks.IsCarrier(u, a)
    ensures var v := Step(TheMachine(cfg), u);
            && Restocks.IsCarrier(v, a)
            && |v.agents[a].t.active| - |v.agents[a].t.backlog| - Sum(Outstanding(a), v.log)
               == |u.agents[a].t.active| - |u.agents[a].t.backlog| - Sum(Outstanding(a), u.log)
  {
    hide Step, Turn, Accounted, Outstanding;
    var m := TheMachine(cfg);
    var v := Step(m, u);
    RestockLoop.RoleKept(cfg, u, a);
    assert Restocks.IsCarrier(u, a);
    forall b | b in u.agents ensures Balanced(m, u, Zero(), Carried(a), Outstanding(a), b) {
      TurnBalance(cfg, u, a, b);
    }
    StepConserves(m, u, Zero(), Carried(a), Outstanding(a));
    SumZero(Zero(), u.mail);
    SumZero(Zero(), v.mail);
    CarriesOne(u, a, SortedIds(u.agents.Keys));
    CarriesOne(v, a, SortedIds(v.agents.Keys));
  }
}
