/** The tracking of shipments: which updates a shipment gets, and when it is delivered. */
module Tracking {
  import opened Seqs
  import opened Messages
  import opened Settings
  import Transport

  type Shipment = Transport.Shipment

  function HasId(id: ShipmentId): Shipment -> bool { (s: Shipment) => s.id == id }

  /** A log entry of a carrier that reports progress or the delivery of the shipment. */
  predicate Reports(id: ShipmentId, e: Event) {
    && e.agent == id.carrier && |e.writes| > 0
    && ((e.kind == TrackingUpdate && e.writes[0].InsertTracking? && e.writes[0].shipment == id)
        || (e.kind == DeliveryCompleted && e.writes[0].UpdateShipment? && e.writes[0].shipment == id))
  }

  function About(id: ShipmentId): Event -> bool { (e: Event) => Reports(id, e) }

  // -------------------------------------------------------------- one shipment among the others

  /** The shipment that the mail of a tick starts under an id, if any. */
  function Started(cfg: Config, me: int, mail: seq<Message>, tick: int, item: int, id: ShipmentId): seq<Shipment> {
    if id.carrier == me && id.tick == tick && item <= id.item < item + |mail| && mail[id.item - item].payload.ShipRequest?
    then [Transport.NewShipment(cfg, me, mail[id.item - item].payload, mail[id.item - item].from, tick, id.item)]
    else []
  }

  lemma StartedCons(cfg: Config, me: int, m: Message, rest: seq<Message>, tick: int, item: int, id: ShipmentId)
    ensures Started(cfg, me, [m] + rest, tick, item, id)
         == (if m.payload.ShipRequest? && id == ShipmentId(me, tick, item)
             then [Transport.NewShipment(cfg, me, m.payload, m.from, tick, item)] else [])
            + Started(cfg, me, rest, tick, item + 1, id)
  {
    var all := [m] + rest;
    assert item < id.item < item + |all| ==> all[id.item - item] == rest[id.item - (item + 1)];
  }

  lemma {:induction false} MailStarts(cfg: Config, me: int, st: Transport.State, mail: seq<Message>, tick: int,
          item: int, id: ShipmentId)
    ensures Filter(HasId(id), Transport.Mail(cfg, me, st, mail, tick, item).active)
         == Filter(HasId(id), st.active) + Started(cfg, me, mail, tick, item, id)
    decreases |mail|
  {
    hide Started, Filter, Transport.NewShipment;
    if mail == [] {
      assert Started(cfg, me, [], tick, item, id) == [] by { NoneStarted(cfg, me, tick, item, id); }
    } else {
      var m, rest := mail[0], mail[1..];
      assert mail == [m] + rest;
      StartedCons(cfg, me, m, rest, tick, item, id);
      if m.payload.ShipRequest? {
        var s := Transport.NewShipment(cfg, me, m.payload, m.from, tick, item);
        FilterSnoc(HasId(id), st.active, s);
        assert s.id == ShipmentId(me, tick, item) by { NewId(cfg, me, m.payload, m.from, tick, item); }
        MailStarts(cfg, me, Transport.OnShipRequest(cfg, me, st, m.payload, m.from, tick, item), rest, tick, item + 1, id);
        Regroup(Filter(HasId(id), st.active), if s.id == id then [s] else [], Started(cfg, me, rest, tick, item + 1, id));
      } else {
        MailStarts(cfg, me, st, rest, tick, item + 1, id);
        assert [] + Started(cfg, me, rest, tick, item + 1, id) == Started(cfg, me, rest, tick, item + 1, id);
      }
    }
  }

  lemma NewId(cfg: Config, me: int, p: Payload, from: int, tick: int, item: int)
    requires p.ShipRequest?
    ensures Transport.NewShipment(cfg, me, p, from, tick, item).id == ShipmentId(me, tick, item)
  {
  }

  lemma NoneStarted(cfg: Config, me: int, tick: int, item: int, id: ShipmentId)
    ensures Started(cfg, me, [], tick, item, id) == []
  {
  }

  /** A tracking round, seen from the shipments with one id. */
  lemma {:induction false} TrackEach(me: int, active: seq<Shipment>, tick: int, id: ShipmentId)
    requires id.carrier == me
    ensures var (kept, ev) := Transport.Track(me, active, tick);
            var (kept1, ev1) := Transport.Track(me, Filter(HasId(id), active), tick);
            Filter(HasId(id), kept) == kept1 && Filter(About(id), ev) == ev1
    decreases |active|
  {
    if active != [] {
      var s, rest := active[0], active[1..];
      var (kept1, ev1) := Transport.TrackOne(me, s, tick);
      var (kept2, ev2) := Transport.Track(me, rest, tick);
      TrackEach(me, rest, tick, id);
      FilterAppend(HasId(id), kept1, kept2);
      FilterAppend(About(id), ev1, ev2);
      TrackOneIs(me, s, tick, id);
      if s.id == id {
        assert Filter(HasId(id), active) == [s] + Filter(HasId(id), rest);
        assert ([s] + Filter(HasId(id), rest))[1..] == Filter(HasId(id), rest);
      }
    }
  }

  lemma TrackOneIs(me: int, s: Shipment, tick: int, id: ShipmentId)
    requires id.carrier == me
    ensures var (kept, ev) := Transport.TrackOne(me, s, tick);
            && Filter(HasId(id), kept) == (if s.id == id then kept else [])
            && Filter(About(id), ev) == (if s.id == id then ev else [])
  {
    var (kept, ev) := Transport.TrackOne(me, s, tick);
    if kept != [] { assert kept == [kept[0]] && kept[1..] == []; }
    if ev != [] { assert ev == [ev[0]] && ev[1..] == []; }
  }

  lemma TrackSingle(me: int, s: Shipment, tick: int)
    ensures Transport.Track(me, [s], tick) == Transport.TrackOne(me, s, tick)
    ensures Transport.Track(me, [], tick) == ([], [])
  {
    var (kept, ev) := Transport.TrackOne(me, s, tick);
    assert [s][1..] == [] && kept + [] == kept && ev + [] == ev;
  }

  // -------------------------------------------------------------- the timetable

  /** When a share of num/4 of the way is reached: the time from the start, rounded up. */
  function Quarter(total: int, num: int): int { (num * total + 3) / 4 }

  lemma QuarterIs(total: int, num: int, elapsed: int)
    ensures 4 * elapsed >= num * total <==> elapsed >= Quarter(total, num)
  {
  }

  /** The reports due up to the given tick if tracking fires at every tick. */
  function Timetable(me: int, s: Shipment, tick: int): seq<Event> {
    var total := s.eta - s.start;
    (if tick >= s.start + Quarter(total, 1) then [Transport.MilestoneEvent(me, s, 25, s.start + Quarter(total, 1))] else [])
    + (if tick >= s.start + Quarter(total, 2) then [Transport.MilestoneEvent(me, s, 50, s.start + Quarter(total, 2))] else [])
    + (if tick >= s.start + Quarter(total, 3) then [Transport.MilestoneEvent(me, s, 75, s.start + Quarter(total, 3))] else [])
    + (if tick >= s.eta then [Transport.DeliveryEvent(me, s, s.eta)] else [])
  }

  function Passed(s: Shipment, tick: int): set<int> {
    var total := s.eta - s.start;
    (if tick >= s.start + Quarter(total, 1) then {25} else {})
    + (if tick >= s.start + Quarter(total, 2) then {50} else {})
    + (if tick >= s.start + Quarter(total, 3) then {75} else {})
  }

  /** What is left of the shipment after the round at the given tick. */
  function Left(s: Shipment, tick: int): seq<Shipment> {
    if tick >= s.eta then [] else [s.(milestones := Passed(s, tick))]
  }

  /** The milestone found at a round on schedule: the one that falls due just then. */
  lemma DueMilestone(s: Shipment, tick: int)
    requires s.eta - s.start >= 4 && s.start < tick < s.eta
    ensures var total := s.eta - s.start;
            var found := Transport.Milestone(s.(milestones := Passed(s, tick - 1)), tick);
            && found == (if tick == s.start + Quarter(total, 1) then 25
                         else if tick == s.start + Quarter(total, 2) then 50
                         else if tick == s.start + Quarter(total, 3) then 75 else 0)
            && Passed(s, tick) == Passed(s, tick - 1) + if found == 0 then {} else {found}
  {
    var total := s.eta - s.start;
    QuarterIs(total, 1, tick - s.start);
    QuarterIs(total, 2, tick - s.start);
    QuarterIs(total, 3, tick - s.start);
    assert 0 < Quarter(total, 1) < Quarter(total, 2) < Quarter(total, 3) < total;
  }

  lemma FirstRound(me: int, s: Shipment)
    requires s.eta - s.start >= 4
    ensures Transport.Track(me, [s.(milestones := {})], s.start) == (Left(s, s.start), Timetable(me, s, s.start))
  {
    var total := s.eta - s.start;
    assert 0 < Quarter(total, 1) < Quarter(total, 2) < Quarter(total, 3) < total;
    TrackSingle(me, s.(milestones := {}), s.start);
    assert Passed(s, s.start) == {};
  }

  /** One round takes the timetable from tick to tick. */
  lemma OneRound(me: int, s: Shipment, tick: int)
    requires s.eta - s.start >= 4 && tick > s.start
    ensures var (kept, ev) := Transport.Track(me, Left(s, tick - 1), tick);
            kept == Left(s, tick) && Timetable(me, s, tick) == Timetable(me, s, tick - 1) + ev
  {
    hide Transport.Milestone;
    var total := s.eta - s.start;
    assert 0 < Quarter(total, 1) < Quarter(total, 2) < Quarter(total, 3) < total;
    if tick > s.eta {
      TrackSingle(me, s, tick);
    } else {
      TrackSingle(me, s.(milestones := Passed(s, tick - 1)), tick);
      if tick < s.eta {
        DueMilestone(s, tick);
      }
    }
  }
}
