/** The carrier: it turns ship requests into shipments, reports their milestones and delivers them. */
module Transport {
  import opened Messages
  import opened Settings

  datatype Shipment = Shipment(id: ShipmentId, ref: Ref, origin: int, destination: int, sku: int, qty: int,
                               freight: Freight, start: int, eta: int, from: int, milestones: set<int>)

  /** The active shipments in the order of their creation, and the creation events not yet emitted. */
  datatype State = State(active: seq<Shipment>, backlog: seq<Event>)

  const FRESH := State([], [])

  type Effect = (State, seq<Event>)

  /** `payload.get("store_order_id") or payload.get("restock_order_id")`: a zero order number counts as absent. */
  function OrderRef(order: Option<int>, restock: Option<RestockId>): Ref {
    if Truthy(order) then StoreRef(order.value)
    else if restock.Some? then RestockRef(restock.value)
    else NoRef
  }

  function Transit(cfg: Config, id: ShipmentId): int {
    cfg.baseTransit + cfg.shipHash(id) % 3
  }

  function NewShipment(cfg: Config, me: int, p: Payload, from: int, tick: int, item: int): Shipment
    requires p.ShipRequest?
  {
    var id := ShipmentId(me, tick, item);
    Shipment(id, OrderRef(p.order, p.restock), p.origin, p.destination, p.sku, p.qty, p.freight,
             tick, tick + Transit(cfg, id), from, {})
  }

  /** `on_ship_request`: nothing is emitted now, the creation event waits for the next tracking round. */
  function OnShipRequest(cfg: Config, me: int, st: State, p: Payload, from: int, tick: int, item: int): State
    requires p.ShipRequest?
  {
    var s := NewShipment(cfg, me, p, from, tick, item);
    State(st.active + [s],
          st.backlog + [Event(ShipmentCreated, me, tick,
                              [InsertShipment(s.id, s.ref, s.origin, s.destination, s.eta),
                               InsertTracking(s.id, PickedUp, tick)], [], [])])
  }

  function Mail(cfg: Config, me: int, st: State, mail: seq<Message>, tick: int, item: int): State
    decreases |mail|
  {
    if mail == [] then st else
      var st1 := if mail[0].payload.ShipRequest?
                 then OnShipRequest(cfg, me, st, mail[0].payload, mail[0].from, tick, item) else st;
      Mail(cfg, me, st1, mail[1..], tick, item + 1)
  }

  /** A shipment has covered the given percentage of its way; an instant transit has covered all of it. */
  predicate Reached(s: Shipment, tick: int, percent: int) {
    s.eta <= s.start || 100 * (tick - s.start) >= percent * (s.eta - s.start)
  }

  /** The milestone that a shipment under way reaches at this tick, or 0. Progress is elapsed / total. */
  function Milestone(s: Shipment, tick: int): int {
    var total := s.eta - s.start;
    var elapsed := tick - s.start;
    if (total <= 0 || 4 * elapsed >= 3 * total) && 75 !in s.milestones then 75
    else if (total <= 0 || 2 * elapsed >= total) && 50 !in s.milestones then 50
    else if (total <= 0 || 4 * elapsed >= total) && 25 !in s.milestones then 25
    else 0
  }

  /** `_complete_delivery` */
  function DeliveryEvent(me: int, s: Shipment, tick: int): Event {
    Event(DeliveryCompleted, me, tick,
          [UpdateShipment(s.id, tick), InsertTracking(s.id, Arrived, tick)],
          [Message(me, s.from, tick, DeliveryComplete(s.ref, s.id, s.freight))], [])
  }

  function MilestoneEvent(me: int, s: Shipment, percent: int, tick: int): Event {
    Event(TrackingUpdate, me, tick, [InsertTracking(s.id, Progress(percent), tick)], [], [])
  }

  /** One shipment in a tracking round: what is left of it, and what is emitted. */
  function TrackOne(me: int, s: Shipment, tick: int): (seq<Shipment>, seq<Event>) {
    if tick >= s.eta then ([], [DeliveryEvent(me, s, tick)])
    else if Milestone(s, tick) != 0 then
      ([s.(milestones := s.milestones + {Milestone(s, tick)})], [MilestoneEvent(me, s, Milestone(s, tick), tick)])
    else ([s], [])
  }

  function Track(me: int, active: seq<Shipment>, tick: int): (seq<Shipment>, seq<Event>) {
    if active == [] then ([], []) else
      var (kept1, ev1) := TrackOne(me, active[0], tick);
      var (kept2, ev2) := Track(me, active[1..], tick);
      (kept1 + kept2, ev1 + ev2)
  }

  /** `handle_update_tracking` */
  function UpdateTracking(me: int, st: State, tick: int): Effect {
    var (kept, events) := Track(me, st.active, tick);
    (State(kept, []), st.backlog + events)
  }

  /** `BaseAgent.step` for the carrier. */
  function Step(cfg: Config, me: int, st: State, mail: seq<Message>, tick: int, item: int): Effect {
    var st1 := Mail(cfg, me, st, mail, tick, item);
    if Due(cfg, me, Action.UpdateTracking, tick) then UpdateTracking(me, st1, tick) else (st1, [])
  }
}
