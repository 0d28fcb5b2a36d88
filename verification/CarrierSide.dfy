/** A carrier's step, seen from one order. */
module CarrierSide {
  import opened Seqs
  import opened Messages
  import opened Settings
  import opened OneOrder
  import opened ConsumerSide
  import Transport

  ghost predicate OneShip(k: Case, ms: seq<Message>) {
    |Filter(ToCarrier(k), ms)| <= 1
  }

  lemma NewShipmentCarries(k: Case, me: int, m: Message, tick: int, item: int)
    requires m.payload.ShipRequest? && k.Number() != 0
    ensures Carries(k)(Transport.NewShipment(k.cfg, me, m.payload, m.from, tick, item)) == ToCarrier(k)(m)
  {
  }

  lemma OneOrNone(k: Case, m: Message, rest: seq<Message>)
    requires OneShip(k, [m] + rest)
    ensures OneShip(k, rest)
    ensures ToCarrier(k)(m) ==> Filter(ToCarrier(k), rest) == []
    ensures Filter(ToCarrier(k), [m] + rest)
         == (if ToCarrier(k)(m) then [m] else []) + Filter(ToCarrier(k), rest)
  {
    assert ([m] + rest)[1..] == rest;
  }

  lemma MailCons(k: Case, me: int, st: Transport.State, m: Message, rest: seq<Message>, tick: int, item: int)
    requires k.Number() != 0 && OneShip(k, [m] + rest)
    ensures var st1 := if m.payload.ShipRequest?
                       then Transport.OnShipRequest(k.cfg, me, st, m.payload, m.from, tick, item) else st;
            && Transport.Mail(k.cfg, me, st, [m] + rest, tick, item) == Transport.Mail(k.cfg, me, st1, rest, tick, item + 1)
            && Filter(Carries(k), st1.active)
               == CarrierTake(k, me, Filter(Carries(k), st.active), if ToCarrier(k)(m) then [m] else [], tick,
                              ShipmentId(me, tick, item))
  {
    assert ([m] + rest)[1..] == rest;
    if m.payload.ShipRequest? {
      var s := Transport.NewShipment(k.cfg, me, m.payload, m.from, tick, item);
      NewShipmentCarries(k, me, m, tick, item);
      FilterAppend(Carries(k), st.active, [s]);
      FilterOne(Carries(k), s);
      assert [m][1..] == [];
    }
  }

  /** Ship requests about the order become shipments of it; other requests do not. */
  lemma {:induction false} OnMail(k: Case, me: int, st: Transport.State, mail: seq<Message>, tick: int,
          item: int) returns (id: ShipmentId)
    requires k.Number() != 0 && OneShip(k, mail)
    ensures id.carrier == me && id.tick == tick
    ensures Filter(Carries(k), Transport.Mail(k.cfg, me, st, mail, tick, item).active)
         == CarrierTake(k, me, Filter(Carries(k), st.active), Filter(ToCarrier(k), mail), tick, id)
    decreases |mail|
  {
    if mail == [] {
      id := ShipmentId(me, tick, item);
    } else {
      var m, rest := mail[0], mail[1..];
      assert mail == [m] + rest;
      OneOrNone(k, m, rest);
      MailCons(k, me, st, m, rest, tick, item);
      var st1 := if m.payload.ShipRequest? then Transport.OnShipRequest(k.cfg, me, st, m.payload, m.from, tick, item) else st;
      id := OnMail(k, me, st1, rest, tick, item + 1);
      if ToCarrier(k)(m) {
        id := ShipmentId(me, tick, item);
        assert [m] + Filter(ToCarrier(k), rest) == [m];
      } else {
        assert [] + Filter(ToCarrier(k), rest) == Filter(ToCarrier(k), rest);
      }
    }
  }

  lemma TrackOneView(k: Case, me: int, s: Transport.Shipment, tick: int)
    ensures var (kept, ev) := Transport.TrackOne(me, s, tick);
            && Filter(Carries(k), kept) == (if Carries(k)(s) then kept else [])
            && Filter(ToSeller(k), Msgs(ev)) == (if Carries(k)(s) then Msgs(ev) else [])
  {
    var (kept, ev) := Transport.TrackOne(me, s, tick);
    if kept != [] {
      assert kept == [kept[0]];
      FilterOne(Carries(k), kept[0]);
    }
    if ev != [] {
      assert ev == [ev[0]];
      MsgsOne(ev[0]);
      if ev[0].messages != [] {
        assert ev[0].messages == [ev[0].messages[0]];
        FilterOne(ToSeller(k), ev[0].messages[0]);
      }
    }
  }

  /** Tracking treats the shipments of an order as if they were alone. */
  lemma {:induction false} OnTrack(k: Case, me: int, active: seq<Transport.Shipment>, tick: int)
    ensures var (kept, ev) := Transport.Track(me, active, tick);
            var (kept', ev') := Transport.Track(me, Filter(Carries(k), active), tick);
            Filter(Carries(k), kept) == kept' && Filter(ToSeller(k), Msgs(ev)) == Msgs(ev')
    decreases |active|
  {
    if active != [] {
      var (kept1, ev1) := Transport.TrackOne(me, active[0], tick);
      var (kept2, ev2) := Transport.Track(me, active[1..], tick);
      OnTrack(k, me, active[1..], tick);
      TrackOneView(k, me, active[0], tick);
      FilterAppend(Carries(k), kept1, kept2);
      MsgsAppend(ev1, ev2);
      FilterAppend(ToSeller(k), Msgs(ev1), Msgs(ev2));
      if Carries(k)(active[0]) {
        var mine := Filter(Carries(k), active[1..]);
        assert Filter(Carries(k), active)[1..] == mine;
        MsgsAppend(ev1, Transport.Track(me, mine, tick).1);
      }
    }
  }

  /** The carrier's whole step on the order. */
  function CarrierTurn(k: Case, me: int, moving: seq<Transport.Shipment>, ms: seq<Message>, tick: int, id: ShipmentId)
    : (seq<Transport.Shipment>, seq<Message>)
    requires forall m :: m in ms ==> m.payload.ShipRequest?
  {
    var taken := CarrierTake(k, me, moving, ms, tick, id);
    if Due(k.cfg, me, UpdateTracking, tick)
    then (Transport.Track(me, taken, tick).0, Msgs(Transport.Track(me, taken, tick).1))
    else (taken, [])
  }

  lemma {:induction false} BacklogSilent(cfg: Config, me: int, st: Transport.State, mail: seq<Message>, tick: int,
          item: int)
    requires Msgs(st.backlog) == []
    ensures Msgs(Transport.Mail(cfg, me, st, mail, tick, item).backlog) == []
    decreases |mail|
  {
    if mail != [] {
      var st1 := if mail[0].payload.ShipRequest?
                 then Transport.OnShipRequest(cfg, me, st, mail[0].payload, mail[0].from, tick, item) else st;
      if mail[0].payload.ShipRequest? {
        var e := st1.backlog[|st.backlog|];
        assert st1.backlog == st.backlog + [e];
        MsgsAppend(st.backlog, [e]);
        MsgsOne(e);
      }
      BacklogSilent(cfg, me, st1, mail[1..], tick, item + 1);
    }
  }

  lemma OnStep(k: Case, me: int, st: Transport.State, mail: seq<Message>, tick: int, item: int) returns (id: ShipmentId)
    requires k.Number() != 0 && OneShip(k, mail) && Msgs(st.backlog) == []
    ensures id.carrier == me && id.tick == tick
    ensures var (st1, ev) := Transport.Step(k.cfg, me, st, mail, tick, item);
            var (moving, out) := CarrierTurn(k, me, Filter(Carries(k), st.active), Filter(ToCarrier(k), mail), tick, id);
            && Filter(Carries(k), st1.active) == moving && Filter(ToSeller(k), Msgs(ev)) == out
            && Msgs(st1.backlog) == []
  {
    id := OnMail(k, me, st, mail, tick, item);
    var st1 := Transport.Mail(k.cfg, me, st, mail, tick, item);
    BacklogSilent(k.cfg, me, st, mail, tick, item);
    OnTrack(k, me, st1.active, tick);
    var tracked := Transport.Track(me, st1.active, tick).1;
    MsgsAppend(st1.backlog, tracked);
    assert [] + Msgs(tracked) == Msgs(tracked);
  }
}
