/** What a carrier reports of a shipment, said of the request and of the shipment alone. */
module CarrierRules {
  import opened Messages
  import opened Settings
  import Transport

  /** The shipment's due tick lies a transit time after its start: the base, plus the remainder of its hash by three. */
  ghost predicate DueAfter(cfg: Config, s: Transport.Shipment) {
    exists q :: cfg.shipHash(s.id) == 3 * q + (s.eta - s.start - cfg.baseTransit) && 0 <= s.eta - s.start - cfg.baseTransit <= 2
  }

  lemma TransitIs(cfg: Config, s: Transport.Shipment)
    ensures s.eta == s.start + Transport.Transit(cfg, s.id) <==> DueAfter(cfg, s)
  {
    var h, r := cfg.shipHash(s.id), s.eta - s.start - cfg.baseTransit;
    if s.eta == s.start + Transport.Transit(cfg, s.id) {
      assert h == 3 * (h / 3) + r;
    }
  }

  /** The shipment that a request starts; a store order number counts if it is not zero, else the restock. */
  ghost predicate Starts(cfg: Config, me: int, p: Payload, from: int, tick: int, item: int, s: Transport.Shipment)
    requires p.ShipRequest?
  {
    && s.id == ShipmentId(me, tick, item) && s.origin == p.origin && s.destination == p.destination
    && s.sku == p.sku && s.qty == p.qty && s.freight == p.freight && s.from == from
    && s.start == tick && DueAfter(cfg, s) && s.milestones == {}
    && s.ref == (if p.order.Some? && p.order.value != 0 then StoreRef(p.order.value)
                 else if p.restock.Some? then RestockRef(p.restock.value) else NoRef)
  }

  /** The entry of a new shipment: from its origin to its destination, due at its eta, and picked up at its start. */
  predicate Creates(me: int, s: Transport.Shipment, e: Event) {
    e == Event(ShipmentCreated, me, s.start,
               [InsertShipment(s.id, s.ref, s.origin, s.destination, s.eta), InsertTracking(s.id, PickedUp, s.start)], [], [])
  }

  lemma RequestStarts(cfg: Config, me: int, st: Transport.State, p: Payload, from: int, tick: int, item: int)
    requires p.ShipRequest?
    ensures var st1 := Transport.OnShipRequest(cfg, me, st, p, from, tick, item);
            && |st1.active| == |st.active| + 1 && st1.active[..|st.active|] == st.active
            && |st1.backlog| == |st.backlog| + 1 && st1.backlog[..|st.backlog|] == st.backlog
            && Starts(cfg, me, p, from, tick, item, st1.active[|st.active|])
            && Creates(me, st1.active[|st.active|], st1.backlog[|st.backlog|])
  {
    var s := Transport.NewShipment(cfg, me, p, from, tick, item);
    TransitIs(cfg, s);
  }

  /** The delivery of a shipment: the entry of its arrival, and a notice to whoever sent it. */
  predicate Delivers(me: int, s: Transport.Shipment, tick: int, e: Event) {
    e == Event(DeliveryCompleted, me, tick, [UpdateShipment(s.id, tick), InsertTracking(s.id, Arrived, tick)],
               [Message(me, s.from, tick, DeliveryComplete(s.ref, s.id, s.freight))], [])
  }

  predicate Passes(me: int, s: Transport.Shipment, percent: int, tick: int, e: Event) {
    e == Event(TrackingUpdate, me, tick, [InsertTracking(s.id, Progress(percent), tick)], [], [])
  }

  /** The highest of 25, 50 and 75 percent that the shipment has covered and not yet reported. */
  ghost predicate Passing(s: Transport.Shipment, tick: int, percent: int) {
    && percent in {25, 50, 75} && percent !in s.milestones && Transport.Reached(s, tick, percent)
    && forall p :: p in {25, 50, 75} && p !in s.milestones && Transport.Reached(s, tick, p) ==> p <= percent
  }

  /** What a tracking round makes of one shipment. */
  ghost predicate Tracked(me: int, s: Transport.Shipment, tick: int, kept: seq<Transport.Shipment>, events: seq<Event>) {
    if tick >= s.eta then kept == [] && |events| == 1 && Delivers(me, s, tick, events[0])
    else if exists percent :: Passing(s, tick, percent) then
      exists percent :: Passing(s, tick, percent) && kept == [s.(milestones := s.milestones + {percent})]
                        && |events| == 1 && Passes(me, s, percent, tick, events[0])
    else kept == [s] && events == []
  }

  lemma OneIsTracked(me: int, s: Transport.Shipment, tick: int)
    ensures Tracked(me, s, tick, Transport.TrackOne(me, s, tick).0, Transport.TrackOne(me, s, tick).1)
  {
    var percent := Transport.Milestone(s, tick);
    assert percent != 0 ==> Passing(s, tick, percent);
    forall p | Passing(s, tick, p) ensures p == percent {
    }
  }

  /** What a tracking round makes of a list of shipments, each by itself and in their order. */
  ghost predicate AllTracked(me: int, active: seq<Transport.Shipment>, tick: int, kept: seq<Transport.Shipment>,
                             events: seq<Event>)
  {
    if active == [] then kept == [] && events == []
    else exists k, e :: 0 <= k <= |kept| && 0 <= e <= |events| && Tracked(me, active[0], tick, kept[..k], events[..e])
                        && AllTracked(me, active[1..], tick, kept[k..], events[e..])
  }

  lemma {:induction false} RoundTracks(me: int, active: seq<Transport.Shipment>, tick: int)
    ensures AllTracked(me, active, tick, Transport.Track(me, active, tick).0, Transport.Track(me, active, tick).1)
  {
    hide Tracked, Transport.TrackOne;
    if active != [] {
      var (kept1, ev1) := Transport.TrackOne(me, active[0], tick);
      var (kept2, ev2) := Transport.Track(me, active[1..], tick);
      OneIsTracked(me, active[0], tick);
      RoundTracks(me, active[1..], tick);
      var k, e := |kept1|, |ev1|;
      assert (kept1 + kept2)[..k] == kept1 && (kept1 + kept2)[k..] == kept2;
      assert (ev1 + ev2)[..e] == ev1 && (ev1 + ev2)[e..] == ev2;
    }
  }
}
