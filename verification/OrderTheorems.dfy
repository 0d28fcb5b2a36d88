/** The main results about orders, stated on the agents, the mail and the log of a run. */
module OrderTheorems {
  import opened Seqs
  import opened Messages
  import opened Settings
  import opened Engine
  import opened Routing
  import opened Simulation
  import opened OneOrder
  import opened SellerSide
  import opened Projection
  import opened OrderLife
  import opened OrderTimeline
  import opened Orders
  import Seller
  import Transport

  /** A placed order in a run without a clash of store order numbers up to tick t. */
  ghost predicate Followed(k: Case, w: World<Agent>, t: nat) {
    Setting(k, w) && IsPlaced(k, w) && NoClash(k, w, t) && t >= Start(k)
  }

  ghost predicate Staffed(k: Case, w: World<Agent>) {
    && Buyer(k) in w.agents && w.agents[Buyer(k)].C?
    && k.seller in w.agents && w.agents[k.seller].S?
  }

  /** How the consumer has recorded the completion of the order. */
  function Records(k: Case, w: World<Agent>): seq<Outcome>
    requires Buyer(k) in w.agents && w.agents[Buyer(k)].C?
  {
    Outcomes(w.agents[Buyer(k)].c.completed, k.rid)
  }

  predicate StillPending(k: Case, w: World<Agent>)
    requires Buyer(k) in w.agents && w.agents[Buyer(k)].C?
  {
    k.rid in w.agents[Buyer(k)].c.pending
  }

  /** The status of the order at the seller, once the seller has accepted it. */
  function SellerStatus(k: Case, w: World<Agent>): Option<Status>
    requires k.seller in w.agents && w.agents[k.seller].S?
  {
    var orders := w.agents[k.seller].s.orders;
    if k.rid in orders then Some(orders[k.rid].status) else None
  }

  /** All requests to ship the order in the log. */
  function ShipRequests(k: Case, w: World<Agent>): seq<Message> {
    Filter(ToCarrier(k), Msgs(w.log))
  }

  predicate LogsPayment(k: Case, e: Event) {
    e.agent == k.seller && |e.writes| > 0 && e.writes[0].InsertPaymentLog? && e.writes[0].number == k.Number()
  }

  predicate LogsOrder(k: Case, e: Event) {
    e.agent == k.seller && |e.writes| > 0 && e.writes[0].InsertStoreOrder? && e.writes[0].rid == k.rid
  }

  function PaysIt(k: Case): Event -> bool { (e: Event) => LogsPayment(k, e) }

  function RecordsIt(k: Case): Event -> bool { (e: Event) => LogsOrder(k, e) }

  /** The log entries that record a payment of the order. */
  function Payments(k: Case, w: World<Agent>): seq<Event> {
    Filter(PaysIt(k), w.log)
  }

  /** The log entries that record the order at the seller. */
  function StoreRecords(k: Case, w: World<Agent>): seq<Event> {
    Filter(RecordsIt(k), w.log)
  }

  /** A request to cancel the order was sent at tick t. */
  ghost predicate CancelMailed(k: Case, w: World<Agent>, t: int) {
    t >= 0 && exists m :: m in At(k.cfg, w, t).mail && IsCancel(k, m)
  }

  /** The offer that the order was placed at. */
  ghost predicate Offered(k: Case, w: World<Agent>, d: Deal) {
    var u := At(k.cfg, w, if Start(k) >= 0 then Start(k) else 0);
    && Buyer(k) in u.agents && u.agents[Buyer(k)].C? && k.rid in u.agents[Buyer(k)].c.pending
    && d == DealOf(u.agents[Buyer(k)].c.pending[k.rid])
  }

  // -------------------------------------------------------------- reading a snapshot

  /** What each phase means for the two parties. */
  ghost predicate Agreed(k: Case, d: Deal, x: Snapshot) {
    && |x.consumer.done| + (if x.consumer.deal.Some? then 1 else 0) == 1
    && (x.consumer.done != [] ==>
          x.seller.order.Some? && x.consumer.done == [Outcome(d, x.seller.order.value.status)]
          && (x.seller.order.value.status == Delivered || x.seller.order.value.status == Cancelled))
    && (if x.seller.order.Some? && (x.seller.order.value.status == Paid || x.seller.order.value.status == Delivered)
        then x.shipped == [ShipMessage(k, d)] else x.shipped == [])
  }

  lemma LegitAgrees(k: Case, d: Deal, j: nat, x: Snapshot)
    requires Legit(k, d, j, x)
    ensures Agreed(k, d, x)
  {
  }

  lemma SnapshotAt(k: Case, w: World<Agent>, t: nat) returns (d: Deal, xs: seq<Snapshot>)
    requires Followed(k, w, t)
    ensures |xs| == t - Start(k) + 1 && Lives(k, w, d, xs)
    ensures Matches(k, w, t, xs[t - Start(k)])
    ensures Legit(k, d, t - Start(k), xs[t - Start(k)])
  {
    hide ActOn, Step, Legit, InPlaced, EvolvesBy, Snap, Health;
    var n: nat := t - Start(k);
    d, xs := Living(k, w, n);
    LifeIsLegit(k, d, xs, n);
    assert Matches(k, w, Start(k) + n, xs[n]);
  }

  /** A snapshot shows the consumer's records, the seller's status and the requests to ship. */
  lemma SnapshotShows(k: Case, w: World<Agent>, t: nat, x: Snapshot)
    requires Matches(k, w, t, x)
    ensures var u := At(k.cfg, w, t);
            && Staffed(k, u) && Records(k, u) == x.consumer.done && StillPending(k, u) == x.consumer.deal.Some?
            && SellerStatus(k, u) == StatusIn(x) && ShipRequests(k, u) == x.shipped
  {
    hide ActOn, Step, At;
  }

  lemma LivesIs(k: Case, w: World<Agent>, d: Deal, xs: seq<Snapshot>)
    requires Lives(k, w, d, xs)
    ensures Life(k, d, xs) && d.seller == k.seller && Start(k) >= 1
  {
    hide Life, Matches;
  }

  /**
   * The consumer holds the order either as pending or in exactly one record; the record's status is the
   * seller's; and the seller has asked for shipment, once, exactly if the order is paid or delivered.
   */
  ghost predicate InAgreement(k: Case, u: World<Agent>) {
    && Staffed(k, u)
    && |Records(k, u)| + (if StillPending(k, u) then 1 else 0) == 1
    && (Records(k, u) != [] ==>
          SellerStatus(k, u) == Some(Records(k, u)[0].status)
          && (Records(k, u)[0].status == Delivered || Records(k, u)[0].status == Cancelled))
    && |ShipRequests(k, u)|
       == if SellerStatus(k, u) == Some(Paid) || SellerStatus(k, u) == Some(Delivered) then 1 else 0
  }

  /** Agreement, at every tick from the placement on. So no cancelled order is ever shipped. */
  lemma Agreement(k: Case, w: World<Agent>, t: nat)
    requires Followed(k, w, t)
    ensures InAgreement(k, At(k.cfg, w, t))
  {
    hide At, Matches, Legit, Lives, Followed, Staffed, Records, StillPending, SellerStatus, ShipRequests;
    assert t >= Start(k) by { FollowedFrom(k, w, t); }
    var d, xs := SnapshotAt(k, w, t);
    LegitAgrees(k, d, t - Start(k), xs[t - Start(k)]);
    SnapshotShows(k, w, t, xs[t - Start(k)]);
  }

  lemma FollowedFrom(k: Case, w: World<Agent>, t: nat)
    requires Followed(k, w, t)
    ensures t >= Start(k)
  {
  }

  // -------------------------------------------------------------- the seller's state machine

  function StatusIn(x: Snapshot): Option<Status> {
    if x.seller.order.Some? then Some(x.seller.order.value.status) else None
  }

  /** One tick moves an order only along: unknown, accepted, paid, delivered; or from unknown or accepted to cancelled. */
  predicate Allowed(a: Option<Status>, b: Option<Status>) {
    || a == b
    || (a == None && (b == Some(Accepted) || b == Some(Cancelled)))
    || (a == Some(Accepted) && (b == Some(Paid) || b == Some(Cancelled)))
    || (a == Some(Paid) && b == Some(Delivered))
  }

  lemma StatusStep(k: Case, d: Deal, j: nat, x: Snapshot, y: Snapshot)
    requires Legit(k, d, j, x) && d.seller == k.seller && Parties(k) && Evolves(k, x, y, Start(k) + j + 1)
    ensures Allowed(StatusIn(x), StatusIn(y))
  {
    hide EvolvesBy, NextOf;
    if j >= 2 && InDropped(k, d, x) {
      DroppedStays(k, d, x, y, Start(k) + j + 1);
    } else if j == 0 {
      FromPlaced(k, d, x, y);
    } else if j == 1 {
      FromChecking(k, d, x, y);
    } else if j == 2 {
      FromAgreed(k, d, x, y);
    } else if j == 3 {
      FromPaying(k, d, x, y);
    } else if j == 4 {
      var id := FromShipping(k, d, x, y);
    } else {
      var id :| Late(k, d, id, x);
      LateStep(k, d, id, x, y, Start(k) + j + 1);
    }
  }

  lemma PairAt(k: Case, w: World<Agent>, t: nat) returns (d: Deal, x: Snapshot, y: Snapshot)
    requires Followed(k, w, t + 1) && t >= Start(k)
    ensures Matches(k, w, t, x) && Matches(k, w, t + 1, y) && d.seller == k.seller && Parties(k)
    ensures Legit(k, d, t - Start(k), x) && Evolves(k, x, y, t + 1)
  {
    hide ActOn, Step, Legit, EvolvesBy, Snap, Health, Matches;
    var xs;
    d, xs := Living(k, w, t + 1 - Start(k));
    var j: nat := t - Start(k);
    LifeIsLegit(k, d, xs, j);
    x, y := xs[j], xs[j + 1];
    assert Matches(k, w, Start(k) + j, xs[j]) && Matches(k, w, Start(k) + (j + 1), xs[j + 1]);
    assert Evolves(k, xs[j], xs[j + 1], Start(k) + j + 1);
  }

  /** The seller's order state machine, over every tick of every run. */
  lemma StatusPath(k: Case, w: World<Agent>, t: nat)
    requires Followed(k, w, t + 1) && t >= Start(k)
    ensures Staffed(k, At(k.cfg, w, t)) && Staffed(k, At(k.cfg, w, t + 1))
    ensures Allowed(SellerStatus(k, At(k.cfg, w, t)), SellerStatus(k, At(k.cfg, w, t + 1)))
  {
    hide At, Matches, Legit, Evolves, Followed, Staffed, SellerStatus, Parties;
    var d, x, y := PairAt(k, w, t);
    StatusStep(k, d, t - Start(k), x, y);
    SnapshotShows(k, w, t, x);
    SnapshotShows(k, w, t + 1, y);
  }

  // -------------------------------------------------------------- the cancel window

  lemma MailedIsSent(k: Case, w: World<Agent>, t: nat, x: Snapshot)
    requires Matches(k, w, t, x)
    ensures CancelMailed(k, w, t) <==> CancelSent(k, x)
  {
    hide ActOn, Step;
    var u := At(k.cfg, w, t);
    if CancelMailed(k, w, t) {
      var m :| m in u.mail && IsCancel(k, m);
      FilterComplete(ToSeller(k), u.mail, m);
    }
  }

  lemma InTimeIsMailed(k: Case, w: World<Agent>, d: Deal, xs: seq<Snapshot>)
    requires Lives(k, w, d, xs) && |xs| >= 5
    ensures CancelledInTime(k, xs) <==>
            CancelMailed(k, w, Start(k) + 1) || CancelMailed(k, w, Start(k) + 2) || CancelMailed(k, w, Start(k) + 3)
  {
    hide Matches, CancelMailed, CancelSent, Life;
    assert Matches(k, w, Start(k) + 1, xs[1]) && Matches(k, w, Start(k) + 2, xs[2]) && Matches(k, w, Start(k) + 3, xs[3]);
    MailedIsSent(k, w, Start(k) + 1, xs[1]);
    MailedIsSent(k, w, Start(k) + 2, xs[2]);
    MailedIsSent(k, w, Start(k) + 3, xs[3]);
  }

  lemma CancelDecides(k: Case, d: Deal, xs: seq<Snapshot>, j: nat)
    requires Life(k, d, xs) && d.seller == k.seller && Parties(k) && 4 <= j < |xs|
    ensures CancelledInTime(k, xs) <==> StatusIn(xs[j]) == Some(Cancelled)
    ensures j > 4 ==> (CancelledInTime(k, xs) <==> xs[j].consumer == Done(d, Cancelled))
  {
    hide EvolvesBy;
    FirstTicks(k, d, xs);
    if CancelledInTime(k, xs) {
      OnceDropped(k, d, xs, 4, j);
    } else if j > 4 {
      var id := PickUpOf(k, d, xs);
      PaidLife(k, d, xs, id, j);
    }
  }

  /**
   * The cancel window is exact: from four ticks after its placement on, an order is cancelled at the
   * seller if and only if a request to cancel it was sent one, two or three ticks after the placement;
   * one tick later the consumer has recorded just that.
   */
  lemma CancelWindow(k: Case, w: World<Agent>, t: nat)
    requires Followed(k, w, t) && t >= Start(k) + 4
    ensures Staffed(k, At(k.cfg, w, t))
    ensures SellerStatus(k, At(k.cfg, w, t)) == Some(Cancelled) <==>
            CancelMailed(k, w, Start(k) + 1) || CancelMailed(k, w, Start(k) + 2) || CancelMailed(k, w, Start(k) + 3)
    ensures t > Start(k) + 4 ==>
            (SellerStatus(k, At(k.cfg, w, t)) == Some(Cancelled) <==>
             Records(k, At(k.cfg, w, t)) != [] && Records(k, At(k.cfg, w, t))[0].status == Cancelled)
  {
    hide At, Matches, Legit, CancelMailed, CancelledInTime, Lives, Life, Staffed, Records, SellerStatus;
    var d, xs := SnapshotAt(k, w, t);
    LivesIs(k, w, d, xs);
    InTimeIsMailed(k, w, d, xs);
    CancelDecides(k, d, xs, t - Start(k));
    LegitAgrees(k, d, t - Start(k), xs[t - Start(k)]);
    SnapshotShows(k, w, t, xs[t - Start(k)]);
  }

  // -------------------------------------------------------------- late requests

  /** The seller can no longer change its mind about the order. */
  predicate Decided(st: Seller.State, rid: OrderId) {
    rid in st.orders && st.orders[rid].status != Accepted
  }

  lemma {:induction false} RepliesDecided(cfg: Config, me: int, st: Seller.State, xs: seq<Reply>, tick: int,
          item: int, rid: OrderId)
    requires Decided(st, rid) && rid !in st.incoming
    ensures Decided(Seller.Replies(cfg, me, st, xs, tick, item).0, rid)
    decreases |xs|
  {
    if xs != [] {
      if xs[0].id in st.queries {
        RestockRowsKeep(cfg, me, st.(queries := st.queries - {xs[0].id}), Seller.StockRows(xs[0].data), tick, item, 0);
      }
      RepliesDecided(cfg, me, Seller.OnReply(cfg, me, st, xs[0], tick, item).0, xs[1..], tick, item + 1, rid);
    }
  }

  lemma MessageDecided(cfg: Config, me: int, st: Seller.State, m: Message, tick: int, item: int, rid: OrderId)
    requires Decided(st, rid)
    ensures var (st1, ev) := Seller.OnMessage(cfg, me, st, m, tick, item);
            && Decided(st1, rid)
            && (m.payload == CancelRequest(rid) ==> Msgs(ev) == [Message(me, m.from, tick, CancelRejected(rid))])
  {
    var (st1, ev) := Seller.OnMessage(cfg, me, st, m, tick, item);
    if m.payload == CancelRequest(rid) {
      MsgsOne(ev[0]);
      assert ev == [ev[0]];
    }
    match m.payload
    case DeliveryComplete(ref, _, _) => FindAny(st, st.orderIds, ref);
    case _ =>
  }

  lemma {:induction false} MailRejects(cfg: Config, me: int, st: Seller.State, mail: seq<Message>, tick: int, item: int,
                                       rid: OrderId, m: Message)
    requires Decided(st, rid) && m in mail && m.payload == CancelRequest(rid)
    ensures Message(me, m.from, tick, CancelRejected(rid)) in Msgs(Seller.Mail(cfg, me, st, mail, tick, item).1)
    decreases |mail|
  {
    hide Seller.OnMessage;
    var (st1, ev1) := Seller.OnMessage(cfg, me, st, mail[0], tick, item);
    MessageDecided(cfg, me, st, mail[0], tick, item, rid);
    MsgsAppend(ev1, Seller.Mail(cfg, me, st1, mail[1..], tick, item + 1).1);
    if mail[0] != m {
      MailRejects(cfg, me, st1, mail[1..], tick, item + 1, rid, m);
    }
  }

  lemma StepRejects(cfg: Config, me: int, st: Seller.State, xs: seq<Reply>, mail: seq<Message>, tick: int,
          rid: OrderId, m: Message)
    requires Decided(st, rid) && rid !in st.incoming && m in mail && m.payload == CancelRequest(rid)
    ensures Message(me, m.from, tick, CancelRejected(rid)) in Msgs(Seller.Step(cfg, me, st, xs, mail, tick).1)
  {
    hide Seller.Replies, Seller.Mail, Seller.Scheduled, Expire;
    var (st1, ev1) := Seller.Replies(cfg, me, st, xs, tick, 0);
    var (st2, ev2) := Seller.Mail(cfg, me, st1, mail, tick, |xs|);
    var ev3 := Seller.Scheduled(cfg, me, st2.(queries := Expire(st2.queries, tick)), tick, |xs| + |mail|).1;
    RepliesDecided(cfg, me, st, xs, tick, 0, rid);
    MailRejects(cfg, me, st1, mail, tick, |xs|, rid, m);
    MsgsAppend(ev1, ev2);
    MsgsAppend(ev1 + ev2, ev3);
  }

  lemma LegitDecided(k: Case, d: Deal, j: nat, x: Snapshot)
    requires Legit(k, d, j, x) && j >= 4
    ensures x.seller.incoming.None? && x.seller.order.Some? && x.seller.order.value.status != Accepted
  {
  }

  /**
   * Too late: a request to cancel that is sent four ticks after the placement or later is answered at the
   * next tick with a rejection, to whoever sent it.
   */
  lemma LateCancelRejected(k: Case, w: World<Agent>, t: nat, m: Message)
    requires Followed(k, w, t) && t >= Start(k) + 4 && m in At(k.cfg, w, t).mail && IsCancel(k, m)
    ensures Message(k.seller, m.from, t + 1, CancelRejected(k.rid)) in At(k.cfg, w, t + 1).mail
  {
    hide ActOn, Step, Legit, Seller.Step, Snap;
    var d, xs := SnapshotAt(k, w, t);
    var x := xs[t - Start(k)];
    LegitDecided(k, d, t - Start(k), x);
    LateReply(k, At(k.cfg, w, t), x, m);
    RunBasics(k.cfg, w, t);
  }

  lemma LateReply(k: Case, u: World<Agent>, x: Snapshot, m: Message)
    requires Health(k, u) && x == Snap(k, u) && m in u.mail && IsCancel(k, m)
    requires x.seller.incoming.None? && x.seller.order.Some? && x.seller.order.value.status != Accepted
    ensures Message(k.seller, m.from, u.tick + 1, CancelRejected(k.rid)) in Step(TheMachine(k.cfg), u).mail
  {
    hide Step, Seller.Step;
    var machine := TheMachine(k.cfg);
    HandledMail(k, u, k.seller);
    assert Addressed(k, m) && m.to == k.seller;
    FilterComplete(ToAgent(k.seller), u.mail, m);
    TurnIs(k.cfg, u, k.seller);
    StepRejects(k.cfg, k.seller, u.agents[k.seller].s, HandledReplies(machine, u, k.seller), Handled(machine, u, k.seller),
                u.tick + 1, k.rid, m);
    BlockIs(machine, u, k.seller);
    MailArrives(machine, u, k.seller, Message(k.seller, m.from, u.tick + 1, CancelRejected(k.rid)));
  }

  // -------------------------------------------------------------- delivery

  /** The consumer has recorded the order as delivered. */
  ghost predicate DeliveredAt(k: Case, w: World<Agent>, t: nat) {
    var u := At(k.cfg, w, t);
    Staffed(k, u) && Records(k, u) != [] && Records(k, u)[0].status == Delivered
  }

  ghost predicate Cancellable(k: Case, w: World<Agent>) {
    CancelMailed(k, w, Start(k) + 1) || CancelMailed(k, w, Start(k) + 2) || CancelMailed(k, w, Start(k) + 3)
  }

  /** The paid order's records: delivered two ticks after its shipment's arrival is due. */
  lemma OnTimeRecords(k: Case, d: Deal, id: ShipmentId, x: Snapshot, t: int)
    requires OnTime(k, d, id, x, t)
    ensures x.consumer.done != [] && x.consumer.done[0].status == Delivered <==> t >= Eta(k, id) + 2
  {
  }

  /** Two lives of one order agree where both reach. */
  lemma SameLife(k: Case, w: World<Agent>, d: Deal, xs: seq<Snapshot>, d': Deal, ys: seq<Snapshot>, j: nat)
    requires Lives(k, w, d, xs) && Lives(k, w, d', ys) && j < |xs| && j < |ys|
    ensures xs[j] == ys[j] && d == d'
  {
    hide ActOn, Step, Evolves, Health, Snap;
    assert Matches(k, w, Start(k) + j, xs[j]) && Matches(k, w, Start(k) + j, ys[j]);
    assert Matches(k, w, Start(k) + 0, xs[0]) && Matches(k, w, Start(k) + 0, ys[0]);
  }

  lemma NotYet(k: Case, d: Deal, j: nat, x: Snapshot)
    requires Legit(k, d, j, x) && j <= 4
    ensures x.consumer.done != [] ==> x.consumer.done[0].status == Cancelled
  {
  }

  /** The shipment whose pick-up starts the order's late phases. */
  ghost predicate PicksUp(k: Case, w: World<Agent>, d: Deal, id: ShipmentId) {
    exists xs :: |xs| == 6 && Lives(k, w, d, xs) && InHaul(k, d, id, xs[5], Start(k) + 5)
  }

  lemma PickedUpAlso(k: Case, w: World<Agent>, d: Deal, id: ShipmentId, d': Deal, xs: seq<Snapshot>)
    requires PicksUp(k, w, d, id) && Lives(k, w, d', xs) && |xs| >= 6
    ensures d == d' && InHaul(k, d, id, xs[5], Start(k) + 5)
  {
    hide Lives, InHaul;
    var ys :| |ys| == 6 && Lives(k, w, d, ys) && InHaul(k, d, id, ys[5], Start(k) + 5);
    SameLife(k, w, d', xs, d, ys, 5);
  }

  lemma DeliveredFrom(k: Case, w: World<Agent>, d: Deal, id: ShipmentId, t: nat)
    requires Followed(k, w, t) && PicksUp(k, w, d, id)
    requires TracksAlways(k.cfg, k.carrier) && k.cfg.baseTransit >= 0
    ensures DeliveredAt(k, w, t) <==> t >= Eta(k, id) + 2
  {
    hide At, Matches, Legit, InHaul, Lives, Life, OnTime, PicksUp, TracksAlways, Staffed, Records;
    var j: nat := t - Start(k);
    var d', xs := SnapshotAt(k, w, t);
    LivesIs(k, w, d', xs);
    SnapshotShows(k, w, t, xs[j]);
    if j <= 4 {
      NotYet(k, d', j, xs[j]);
    } else {
      PickedUpAlso(k, w, d, id, d', xs);
      PaidLife(k, d, xs, id, j);
      OnTimeRecords(k, d, id, xs[j], t);
    }
  }

  lemma ItIsPickedUp(k: Case, w: World<Agent>) returns (d: Deal, id: ShipmentId)
    requires Setting(k, w) && IsPlaced(k, w) && NoClash(k, w, Start(k) + 5) && !Cancellable(k, w)
    ensures PicksUp(k, w, d, id) && id.carrier == k.carrier && id.tick == Start(k) + 5
  {
    hide At, Matches, CancelMailed, CancelledInTime, InHaul, Lives, Life, NoClash;
    var xs;
    d, xs := Living(k, w, 5);
    LivesIs(k, w, d, xs);
    InTimeIsMailed(k, w, d, xs);
    id := PickUpOf(k, d, xs);
  }

  /** A landed shipment's notice of arrival is among the mail to the seller. */
  lemma LandedNotice(k: Case, d: Deal, id: ShipmentId, x: Snapshot) returns (m: Message)
    requires InLanded(k, d, id, x)
    ensures m in x.toSeller && IsArrival(k, id, m)
  {
    var cancels, arrival :| JustCancels(k, cancels) && IsArrival(k, id, arrival)
                            && x.toSeller == InOrder(Buyer(k), cancels, k.carrier, [arrival]);
    assert arrival in [arrival];
    m := arrival;
  }

  lemma SeenIsMailed(k: Case, w: World<Agent>, t: nat, x: Snapshot, m: Message)
    requires Matches(k, w, t, x) && m in x.toSeller
    ensures m in At(k.cfg, w, t).mail
  {
    hide ActOn, Step;
  }

  /** When the order's shipment is due, its notice of arrival is in the mail. */
  lemma ArrivesWhenDue(k: Case, w: World<Agent>, d: Deal, id: ShipmentId, t: nat) returns (m: Message)
    requires Followed(k, w, t) && PicksUp(k, w, d, id) && t == Eta(k, id)
    requires TracksAlways(k.cfg, k.carrier) && k.cfg.baseTransit >= 0
    ensures m in At(k.cfg, w, t).mail && IsArrival(k, id, m)
  {
    hide At, Matches, Legit, InHaul, InLanded, Lives, Life, PicksUp, TracksAlways, IsArrival;
    var j: nat := t - Start(k);
    var d', xs := SnapshotAt(k, w, t);
    LivesIs(k, w, d', xs);
    PickedUpAlso(k, w, d, id, d', xs);
    PaidLife(k, d, xs, id, j);
    m := LandedNotice(k, d, id, xs[j]);
    SeenIsMailed(k, w, t, xs[j], m);
  }

  /**
   * Delivery has an exact date: if tracking fires at every tick, an order placed at N that was not
   * cancelled in time has one shipment, whose arrival is announced to the seller at N + 5 + transit, and
   * the order is on record as delivered at tick t exactly when t >= N + 7 + transit, where transit is the
   * transit time of that shipment.
   */
  lemma DeliveryDate(k: Case, w: World<Agent>) returns (id: ShipmentId, arrival: Message)
    requires Setting(k, w) && IsPlaced(k, w) && TracksAlways(k.cfg, k.carrier) && k.cfg.baseTransit >= 0
    requires !Cancellable(k, w) && forall t: nat :: NoClash(k, w, t)
    ensures k.cfg.baseTransit <= Transport.Transit(k.cfg, id) <= k.cfg.baseTransit + 2
    ensures Eta(k, id) >= 0 && arrival in At(k.cfg, w, Eta(k, id)).mail && IsArrival(k, id, arrival)
    ensures id.carrier == k.carrier && id.tick == Start(k) + 5
    ensures forall t: nat :: t >= Start(k) ==>
              (DeliveredAt(k, w, t) <==> t >= Start(k) + 7 + Transport.Transit(k.cfg, id))
  {
    hide ActOn, Step, Health, Lives, DeliveredAt, TracksAlways, Cancellable, InHaul, IsArrival;
    assert NoClash(k, w, Start(k) + 5);
    var d;
    d, id := ItIsPickedUp(k, w);
    assert NoClash(k, w, Eta(k, id));
    arrival := ArrivesWhenDue(k, w, d, id, Eta(k, id));
    forall t: nat | t >= Start(k)
      ensures DeliveredAt(k, w, t) <==> t >= Start(k) + 7 + Transport.Transit(k.cfg, id)
    {
      assert NoClash(k, w, t);
      DeliveredFrom(k, w, d, id, t);
    }
  }

  // -------------------------------------------------------------- payment

  /** The trail of an order in the log: what has been recorded of it, and at which price. */
  ghost predicate TrailIs(k: Case, d: Deal, trail: seq<Event>) {
    || trail == []
    || (trail[0] == AcceptEntry(k, d)
        && (|trail| == 1 || (|trail| == 2 && (IsPaymentEntry(k, d, trail[1]) || IsCancelEntry(k, d, trail[1])))))
  }

  lemma LegitTrail(k: Case, d: Deal, j: nat, x: Snapshot)
    requires Legit(k, d, j, x)
    ensures TrailIs(k, d, x.trail)
    ensures x.shipped == [] || (x.shipped == [ShipMessage(k, d)] && |x.trail| == 2 && IsPaymentEntry(k, d, x.trail[1]))
  {
  }

  lemma FirstDeal(k: Case, w: World<Agent>, d: Deal, xs: seq<Snapshot>)
    requires Lives(k, w, d, xs)
    ensures Offered(k, w, d)
  {
    hide ActOn, Step;
    assert Matches(k, w, Start(k) + 0, xs[0]);
  }

  lemma {:induction false} TrailPayments(k: Case, d: Deal, trail: seq<Event>)
    requires TrailIs(k, d, trail)
    ensures var ps := Filter(PaysIt(k), trail);
            ps == [] || (ps == [trail[1]] && |trail| == 2 && IsPaymentEntry(k, d, trail[1]))
    ensures |trail| == 2 && IsPaymentEntry(k, d, trail[1]) ==> Filter(PaysIt(k), trail) == [trail[1]]
    ensures Filter(RecordsIt(k), trail) == if trail == [] then [] else [AcceptEntry(k, d)]
  {
    if |trail| == 1 {
      assert trail[1..] == [];
    } else if |trail| == 2 {
      assert trail[1..] == [trail[1]] && [trail[1]][1..] == [];
    }
  }

  /**
   * Payment and price: over any run an order has at most one payment entry and at most one request for
   * shipment, never a shipment without the payment; and the amount logged, the price in the seller's
   * record of the order and the price that the consumer placed the order at are all the same.
   */
  lemma PaymentOnce(k: Case, w: World<Agent>, t: nat) returns (d: Deal)
    requires Followed(k, w, t)
    ensures Offered(k, w, d)
    ensures var ps := Payments(k, At(k.cfg, w, t));
            |ps| <= 1 && forall e :: e in ps ==> IsPaymentEntry(k, d, e)
    ensures var os := StoreRecords(k, At(k.cfg, w, t));
            |os| <= 1 && forall e :: e in os ==> e == AcceptEntry(k, d)
    ensures var ss := ShipRequests(k, At(k.cfg, w, t));
            |ss| <= 1 && (ss != [] ==> ss == [ShipMessage(k, d)] && |Payments(k, At(k.cfg, w, t))| == 1)
  {
    hide At, Matches, Legit, Lives, Life, TrailIs, IsPaymentEntry, AcceptEntry, ShipMessage, Payments, StoreRecords,
            ShipRequests, Offered;
    var xs;
    d, xs := SnapshotAt(k, w, t);
    var x := xs[t - Start(k)];
    FirstDeal(k, w, d, xs);
    LegitTrail(k, d, t - Start(k), x);
    TrailPayments(k, d, x.trail);
    TrailFilters(k, w, t, x);
  }

  lemma TrailFilters(k: Case, w: World<Agent>, t: nat, x: Snapshot)
    requires Matches(k, w, t, x)
    ensures Payments(k, At(k.cfg, w, t)) == Filter(PaysIt(k), x.trail)
    ensures StoreRecords(k, At(k.cfg, w, t)) == Filter(RecordsIt(k), x.trail)
    ensures ShipRequests(k, At(k.cfg, w, t)) == x.shipped
  {
    hide ActOn, Step;
    FilterFilter(PaysIt(k), InTrail(k), At(k.cfg, w, t).log);
    FilterFilter(RecordsIt(k), InTrail(k), At(k.cfg, w, t).log);
  }
}
