/** The carrier as an object: shipments under way and the creation events not yet emitted. */
module TransportAgent {
  import opened Seqs
  import opened Messages
  import opened Settings
  import opened Engine
  import opened EngineRules
  import opened BaseAgent
  import opened CarrierRules
  import Transport

  class TransportAgent {
    const cfg: Config
    const base: BaseAgent
    var active: seq<Transport.Shipment>
    var backlog: seq<Event>

    /** The state that the object stands for. */
    ghost function State(): Transport.State
      reads this
    {
      Transport.State(active, backlog)
    }

    constructor (cfg: Config, base: BaseAgent)
      ensures this.cfg == cfg && this.base == base && State() == Transport.FRESH
    {
      this.cfg, this.base, active, backlog := cfg, base, [], [];
    }

    method OnShipRequest(p: Payload, from: int, tick: int, item: int)
      requires p.ShipRequest?
      modifies this
      ensures State() == Transport.OnShipRequest(cfg, base.me, old(State()), p, from, tick, item)
      ensures |active| == old(|active|) + 1 && active[..|active| - 1] == old(active)
      ensures |backlog| == old(|backlog|) + 1 && backlog[..|backlog| - 1] == old(backlog)
      ensures Starts(cfg, base.me, p, from, tick, item, active[|active| - 1])
      ensures Creates(base.me, active[|active| - 1], backlog[|backlog| - 1])
    {
      RequestStarts(cfg, base.me, State(), p, from, tick, item);
      hide Starts, Creates;
      var id := ShipmentId(base.me, tick, item);
      var eta := tick + Transport.Transit(cfg, id);
      var ref := Transport.OrderRef(p.order, p.restock);
      active := active + [Transport.Shipment(id, ref, p.origin, p.destination, p.sku, p.qty, p.freight, tick, eta, from, {})];
      backlog := backlog + [Event(ShipmentCreated, base.me, tick,
                                  [InsertShipment(id, ref, p.origin, p.destination, eta), InsertTracking(id, PickedUp, tick)],
                                  [], [])];
    }

    method ProcessMail(mail: seq<Message>, tick: int, item: int)
      modifies this
      ensures State() == Transport.Mail(cfg, base.me, old(State()), mail, tick, item)
    {
      hide Transport.OnShipRequest;
      assert mail[0..] == mail;
      for n := 0 to |mail|
        invariant Transport.Mail(cfg, base.me, State(), mail[n..], tick, item + n)
               == Transport.Mail(cfg, base.me, old(State()), mail, tick, item)
      {
        assert mail[n..][0] == mail[n] && mail[n..][1..] == mail[n + 1..];
        if mail[n].payload.ShipRequest? {
          OnShipRequest(mail[n].payload, mail[n].from, tick, item + n);
        }
      }
    }

    /** The highest milestone that a shipment has reached and not yet reported, or 0. */
    method NextMilestone(s: Transport.Shipment, tick: int) returns (milestone: int)
      ensures milestone == Transport.Milestone(s, tick) && milestone in {0, 25, 50, 75}
      ensures milestone != 0 ==> milestone !in s.milestones && Transport.Reached(s, tick, milestone)
      ensures forall p :: p in {25, 50, 75} && p !in s.milestones && Transport.Reached(s, tick, p) ==> p <= milestone
    {
      var total, elapsed := s.eta - s.start, tick - s.start;
      milestone := 0;
      if (total <= 0 || 4 * elapsed >= 3 * total) && 75 !in s.milestones {
        milestone := 75;
      } else if (total <= 0 || 2 * elapsed >= total) && 50 !in s.milestones {
        milestone := 50;
      } else if (total <= 0 || 4 * elapsed >= total) && 25 !in s.milestones {
        milestone := 25;
      }
    }

    /** `handle_update_tracking`: the shipments that are delivered leave the list, the others stay in order. */
    method HandleUpdateTracking(tick: int) returns (events: seq<Event>)
      modifies this
      ensures (State(), events) == Transport.UpdateTracking(base.me, old(State()), tick)
      ensures backlog == [] && |events| >= old(|backlog|) && events[..old(|backlog|)] == old(backlog)
      ensures AllTracked(base.me, old(active), tick, active, events[old(|backlog|)..])
    {
      RoundTracks(base.me, active, tick);
      hide Transport.Milestone, AllTracked;
      var kept, news := [], [];
      ghost var start := Transport.Track(base.me, active, tick);
      assert active[0..] == active && [] + start.0 == start.0 && [] + start.1 == start.1;
      for n := 0 to |active|
        invariant active == old(active) && backlog == old(backlog)
        invariant var (rest, ev) := Transport.Track(base.me, active[n..], tick);
                  (kept + rest, news + ev) == start
      {
        var s := active[n];
        assert active[n..][0] == s && active[n..][1..] == active[n + 1..];
        ghost var one := Transport.TrackOne(base.me, s, tick);
        ghost var (rest, ev) := Transport.Track(base.me, active[n + 1..], tick);
        Regroup(kept, one.0, rest);
        Regroup(news, one.1, ev);
        if tick >= s.eta {
          news := news + [Transport.DeliveryEvent(base.me, s, tick)];
          assert kept + [] == kept;
        } else {
          var milestone := NextMilestone(s, tick);
          if milestone != 0 {
            kept := kept + [s.(milestones := s.milestones + {milestone})];
            news := news + [Transport.MilestoneEvent(base.me, s, milestone, tick)];
          } else {
            kept := kept + [s];
            assert news + [] == news;
          }
        }
      }
      assert kept + [] == kept && news + [] == news;
      events := backlog + news;
      active, backlog := kept, [];
    }

    /** `step`: drain the inbox, fire the schedule. */
    method Step(tick: int) returns (events: seq<Event>)
      requires tick >= 1 && base.OnSchedule(tick - 1) && Scheduled(cfg, base)
      modifies this, base
      ensures base.OnSchedule(tick) && base.inbox == []
      ensures (State(), events) == Transport.Step(cfg, base.me, old(State()), Sort(MailKey, MessagesOf(old(base.inbox))), tick,
                                                  |Sort(ReplyKey(cfg.rank), RepliesOf(old(base.inbox)))|)
    {
      hide Transport.Mail, Transport.UpdateTracking, Fires, PutInOrder, OnlyRecent, AreDue;
      var replies, mail := base.Drain(cfg.rank);
      ProcessMail(mail, tick, |replies|);
      base.ExpirePending(tick);
      var due := base.DueActions(tick);
      DueMeans(cfg, base, Action.UpdateTracking, tick, due);
      events := [];
      if Action.UpdateTracking in due {
        events := HandleUpdateTracking(tick);
      }
    }
  }
}
