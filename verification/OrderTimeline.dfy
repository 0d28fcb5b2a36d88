/** The order's snapshots from tick to tick: which phases are possible when, and which are certain. */
module OrderTimeline {
  import opened Messages
  import opened Settings
  import opened Routing
  import opened OneOrder
  import opened SellerSide
  import opened Projection
  import opened OrderLife
  import Transport

  ghost predicate Deliverable(x: Snapshot) {
    forall m :: m in x.toCarrier ==> m.payload.ShipRequest?
  }

  /** y follows x by the tick `tick`. */
  ghost predicate Evolves(k: Case, x: Snapshot, y: Snapshot, tick: int) {
    Deliverable(x) && exists cancels, q, id :: EvolvesBy(k, x, y, tick, cancels, q, id)
  }

  ghost predicate EvolvesBy(k: Case, x: Snapshot, y: Snapshot, tick: int, cancels: seq<Message>, q: QueryId,
          id: ShipmentId)
    requires Deliverable(x)
  {
    Initiative(k, x, cancels) && AskFor(k, q, tick) && id.carrier == k.carrier && id.tick == tick
    && y == NextOf(k, x, cancels, q, id, tick)
  }

  /** A paid order, from the carrier's pick-up on. */
  ghost predicate Late(k: Case, d: Deal, id: ShipmentId, x: Snapshot) {
    InMoving(k, d, id, x) || InLanded(k, d, id, x) || InTold(k, d, id, x) || InClosed(k, d, x)
  }

  /** The phases in which an order can be j ticks after it was placed. */
  ghost predicate Legit(k: Case, d: Deal, j: nat, x: Snapshot) {
    match j
    case 0 => InPlaced(k, d, x)
    case 1 => InChecking(k, d, x)
    case 2 => InAgreed(k, d, x) || InDropped(k, d, x)
    case 3 => InPaying(k, d, x) || InDropped(k, d, x)
    case 4 => InShipping(k, d, x) || InDropped(k, d, x)
    case _ => InDropped(k, d, x) || exists id :: Late(k, d, id, x)
  }

  /** The order's messages go to its parties. */
  ghost predicate WellSent(k: Case, x: Snapshot) {
    && (forall m :: m in x.toSeller ==> m.to == k.seller)
    && (forall m :: m in x.toConsumer ==> m.to == Buyer(k))
    && (forall m :: m in x.toCarrier ==> m.to == k.carrier)
  }

  lemma LandedWellSent(k: Case, d: Deal, id: ShipmentId, x: Snapshot)
    requires InLanded(k, d, id, x)
    ensures forall m :: m in x.toSeller ==> m.to == k.seller && !IsPlace(k, m)
  {
    var cancels, arrival :| JustCancels(k, cancels) && IsArrival(k, id, arrival)
                            && x.toSeller == InOrder(Buyer(k), cancels, k.carrier, [arrival]);
    forall m | m in x.toSeller ensures m.to == k.seller && !IsPlace(k, m) {
      assert m in cancels || m == arrival;
    }
  }

  lemma NoPlaceOnePlace(k: Case, ms: seq<Message>)
    requires forall m :: m in ms ==> !IsPlace(k, m)
    ensures OnePlace(k, ms)
  {
    forall i, j | 0 <= i < j < |ms| ensures !(IsPlace(k, ms[i]) && IsPlace(k, ms[j])) {
      assert ms[i] in ms;
    }
  }

  /** An order in a legitimate phase keeps its traffic to its parties and within bounds. */
  lemma EarlyTame(k: Case, d: Deal, j: nat, x: Snapshot)
    requires Legit(k, d, j, x) && d.seller == k.seller && j < 4
    ensures Tame(k, x) && Deliverable(x) && WellSent(k, x)
  {
    if j == 0 {
      forall i, l | 0 <= i < l < |x.toSeller| ensures !(IsPlace(k, x.toSeller[i]) && IsPlace(k, x.toSeller[l])) {
        assert x.toSeller[l] == x.toSeller[1..][l - 1];
      }
      forall m | m in x.toSeller ensures m.to == k.seller {
        assert m == x.toSeller[0] || m in x.toSeller[1..];
      }
    } else if j == 3 && InPaying(k, d, x) {
      var n := |x.toSeller| - 1;
      forall m | m in x.toSeller ensures m.to == k.seller && !IsPlace(k, m) {
        assert m == x.toSeller[n] || m in x.toSeller[..n];
      }
      NoPlaceOnePlace(k, x.toSeller);
    } else {
      NoPlaceOnePlace(k, x.toSeller);
    }
  }

  lemma LegitIsTame(k: Case, d: Deal, j: nat, x: Snapshot)
    requires Legit(k, d, j, x) && d.seller == k.seller
    ensures Tame(k, x) && Deliverable(x) && WellSent(k, x)
  {
    if j < 4 {
      EarlyTame(k, d, j, x);
    } else if j == 4 || InDropped(k, d, x) {
      NoPlaceOnePlace(k, x.toSeller);
    } else {
      var id :| Late(k, d, id, x);
      if InLanded(k, d, id, x) {
        LandedWellSent(k, d, id, x);
      }
      NoPlaceOnePlace(k, x.toSeller);
    }
  }

  // -------------------------------------------------------------- one step

  lemma DroppedStays(k: Case, d: Deal, x: Snapshot, y: Snapshot, tick: int)
    requires InDropped(k, d, x) && d.seller == k.seller && Evolves(k, x, y, tick)
    ensures InDropped(k, d, y) && y.consumer == Done(d, Cancelled)
  {
    var cancels, q, id :| EvolvesBy(k, x, y, tick, cancels, q, id);
    StepDropped(k, d, x, cancels, q, id, tick);
  }

  lemma LateStep(k: Case, d: Deal, id: ShipmentId, x: Snapshot, y: Snapshot, tick: int)
    requires Late(k, d, id, x) && d.seller == k.seller && Evolves(k, x, y, tick)
    ensures Late(k, d, id, y)
    ensures InMoving(k, d, id, x) ==> InHaul(k, d, id, y, tick)
    ensures InLanded(k, d, id, x) ==> InTold(k, d, id, y)
    ensures InTold(k, d, id, x) ==> InClosed(k, d, y)
    ensures InClosed(k, d, x) ==> InClosed(k, d, y)
  {
    var cancels, q, id' :| EvolvesBy(k, x, y, tick, cancels, q, id');
    if InMoving(k, d, id, x) { StepMoving(k, d, id, x, cancels, q, id', tick); }
    if InLanded(k, d, id, x) { StepLanded(k, d, id, x, cancels, q, id', tick); }
    if InTold(k, d, id, x) { StepTold(k, d, id, x, cancels, q, id', tick); }
    if InClosed(k, d, x) { StepClosed(k, d, x, cancels, q, id', tick); }
  }

  lemma FromPlaced(k: Case, d: Deal, x: Snapshot, y: Snapshot)
    requires InPlaced(k, d, x) && d.seller == k.seller && Evolves(k, x, y, Start(k) + 1)
    ensures InChecking(k, d, y)
  {
    var cancels, q, id :| EvolvesBy(k, x, y, Start(k) + 1, cancels, q, id);
    StepPlaced(k, d, x, cancels, q, id);
  }

  lemma FromChecking(k: Case, d: Deal, x: Snapshot, y: Snapshot)
    requires InChecking(k, d, x) && d.seller == k.seller && Evolves(k, x, y, Start(k) + 2)
    ensures if CancelSent(k, x) then InDropped(k, d, y) else InAgreed(k, d, y)
  {
    var cancels, q, id :| EvolvesBy(k, x, y, Start(k) + 2, cancels, q, id);
    SomeCancel(k, x);
    StepChecking(k, d, x, cancels, q, id);
  }

  lemma FromAgreed(k: Case, d: Deal, x: Snapshot, y: Snapshot)
    requires InAgreed(k, d, x) && d.seller == k.seller && Evolves(k, x, y, Start(k) + 3)
    ensures if CancelSent(k, x) then InDropped(k, d, y) else InPaying(k, d, y)
  {
    var cancels, q, id :| EvolvesBy(k, x, y, Start(k) + 3, cancels, q, id);
    SomeCancel(k, x);
    StepAgreed(k, d, x, cancels, q, id);
  }

  lemma FromPaying(k: Case, d: Deal, x: Snapshot, y: Snapshot)
    requires InPaying(k, d, x) && d.seller == k.seller && Parties(k) && Evolves(k, x, y, Start(k) + 4)
    ensures if CancelSent(k, x) then InDropped(k, d, y) else InShipping(k, d, y)
  {
    var cancels, q, id :| EvolvesBy(k, x, y, Start(k) + 4, cancels, q, id);
    PayOrCancel(k, d, x);
    StepPaying(k, d, x, cancels, q, id);
  }

  lemma SomeCancel(k: Case, x: Snapshot)
    requires JustCancels(k, x.toSeller)
    ensures CancelSent(k, x) <==> x.toSeller != []
  {
    if x.toSeller != [] {
      assert x.toSeller[0] in x.toSeller;
    }
  }

  lemma PayOrCancel(k: Case, d: Deal, x: Snapshot)
    requires InPaying(k, d, x)
    ensures CancelSent(k, x) <==> |x.toSeller| != 1
  {
    var n := |x.toSeller| - 1;
    assert x.toSeller == x.toSeller[..n] + [x.toSeller[n]];
    if n > 0 {
      assert x.toSeller[0] == x.toSeller[..n][0];
      assert x.toSeller[0] in x.toSeller[..n];
    }
  }

  lemma FromShipping(k: Case, d: Deal, x: Snapshot, y: Snapshot) returns (id: ShipmentId)
    requires InShipping(k, d, x) && d.seller == k.seller && Parties(k) && Evolves(k, x, y, Start(k) + 5)
    ensures InHaul(k, d, id, y, Start(k) + 5) && id.carrier == k.carrier && id.tick == Start(k) + 5
  {
    var cancels, q, id' :| EvolvesBy(k, x, y, Start(k) + 5, cancels, q, id');
    id := id';
    StepShipping(k, d, x, cancels, q, id);
  }

  lemma LegitStep(k: Case, d: Deal, j: nat, x: Snapshot, y: Snapshot)
    requires Legit(k, d, j, x) && d.seller == k.seller && Parties(k) && Evolves(k, x, y, Start(k) + j + 1)
    ensures Legit(k, d, j + 1, y)
  {
    hide InPlaced, InChecking, InAgreed, InPaying, InShipping, InMoving, InLanded, InTold, InClosed, InDropped,
            InHaul, Evolves, Parties;
    if j >= 2 && InDropped(k, d, x) {
      DroppedStays(k, d, x, y, Start(k) + j + 1);
    } else if j == 0 {
      FromPlaced(k, d, x, y);
    } else if j == 1 {
      FromChecking(k, d, x, y);
    } else if j == 2 {
      FromAgreed(k, d, x, y);
    } else if j == 3 {
      FromPaying(k, d, x, y);
    } else if j == 4 {
      var id := FromShipping(k, d, x, y);
      assert Late(k, d, id, y);
    } else {
      var id :| Late(k, d, id, x);
      LateStep(k, d, id, x, y, Start(k) + j + 1);
    }
  }

  // -------------------------------------------------------------- whole lives

  /** The snapshots of an order from its placement on. */
  ghost predicate Life(k: Case, d: Deal, xs: seq<Snapshot>) {
    && |xs| > 0 && InPlaced(k, d, xs[0])
    && forall j :: 0 <= j < |xs| - 1 ==> Evolves(k, xs[j], xs[j + 1], Start(k) + j + 1)
  }

  lemma {:induction false} LifeIsLegit(k: Case, d: Deal, xs: seq<Snapshot>, j: nat)
    requires Life(k, d, xs) && j < |xs| && d.seller == k.seller && Parties(k)
    ensures Legit(k, d, j, xs[j])
  {
    hide InPlaced, InChecking, InAgreed, InPaying, InShipping, InDropped, Late, EvolvesBy;
    if j > 0 {
      LifeIsLegit(k, d, xs, j - 1);
      assert Evolves(k, xs[j - 1], xs[j - 1 + 1], Start(k) + (j - 1) + 1);
      LegitStep(k, d, j - 1, xs[j - 1], xs[j]);
    }
  }

  /** A request to cancel was sent one, two or three ticks after the placement. */
  ghost predicate CancelledInTime(k: Case, xs: seq<Snapshot>) {
    exists i :: 1 <= i <= 3 && i < |xs| && CancelSent(k, xs[i])
  }

  lemma {:induction false} OnceDropped(k: Case, d: Deal, xs: seq<Snapshot>, i: nat, j: nat)
    requires Life(k, d, xs) && i <= j < |xs| && d.seller == k.seller && InDropped(k, d, xs[i])
    ensures InDropped(k, d, xs[j])
    ensures j > i ==> xs[j].consumer == Done(d, Cancelled)
  {
    hide Evolves, InDropped, InPlaced;
    if i < j {
      OnceDropped(k, d, xs, i, j - 1);
      assert Evolves(k, xs[j - 1], xs[j - 1 + 1], Start(k) + (j - 1) + 1);
      DroppedStays(k, d, xs[j - 1], xs[j], Start(k) + j);
    }
  }

  /** The first four ticks decide: the order is dropped exactly if a request to cancel came in time. */
  lemma FirstTicks(k: Case, d: Deal, xs: seq<Snapshot>)
    requires Life(k, d, xs) && |xs| >= 5 && d.seller == k.seller && Parties(k)
    ensures InChecking(k, d, xs[1])
    ensures if CancelSent(k, xs[1]) then InDropped(k, d, xs[2]) else InAgreed(k, d, xs[2])
    ensures if CancelSent(k, xs[1]) || CancelSent(k, xs[2]) then InDropped(k, d, xs[3]) else InPaying(k, d, xs[3])
    ensures if CancelledInTime(k, xs) then InDropped(k, d, xs[4]) else InShipping(k, d, xs[4])
  {
    hide Evolves, InChecking, InAgreed, InPaying, InShipping, InDropped, InPlaced, Parties;
    assert Evolves(k, xs[0], xs[0 + 1], Start(k) + 0 + 1);
    FromPlaced(k, d, xs[0], xs[1]);
    assert Evolves(k, xs[1], xs[1 + 1], Start(k) + 1 + 1);
    FromChecking(k, d, xs[1], xs[2]);
    assert Evolves(k, xs[2], xs[2 + 1], Start(k) + 2 + 1);
    if CancelSent(k, xs[1]) {
      OnceDropped(k, d, xs, 2, 3);
      OnceDropped(k, d, xs, 2, 4);
    } else {
      FromAgreed(k, d, xs[2], xs[3]);
      assert Evolves(k, xs[3], xs[3 + 1], Start(k) + 3 + 1);
      if CancelSent(k, xs[2]) {
        OnceDropped(k, d, xs, 3, 4);
      } else {
        FromPaying(k, d, xs[3], xs[4]);
      }
    }
  }

  /** When each late phase holds, if tracking never pauses. */
  ghost predicate OnTime(k: Case, d: Deal, id: ShipmentId, x: Snapshot, t: int) {
    if t < Eta(k, id) then InMoving(k, d, id, x)
    else if t == Eta(k, id) then InLanded(k, d, id, x)
    else if t == Eta(k, id) + 1 then InTold(k, d, id, x)
    else InClosed(k, d, x)
  }

  lemma {:induction false} PaidLife(k: Case, d: Deal, xs: seq<Snapshot>, id: ShipmentId, j: nat)
    requires Life(k, d, xs) && 5 <= j < |xs| && d.seller == k.seller && Parties(k)
    requires InHaul(k, d, id, xs[5], Start(k) + 5)
    ensures Late(k, d, id, xs[j])
    ensures TracksAlways(k.cfg, k.carrier) && Start(k) >= 0 && Transport.Transit(k.cfg, id) >= 0 ==> OnTime(k, d, id, xs[j], Start(k) + j)
  {
    hide Evolves, InPlaced, InMoving, InLanded, InTold, InClosed, Parties;
    if j > 5 {
      PaidLife(k, d, xs, id, j - 1);
      assert Evolves(k, xs[j - 1], xs[j - 1 + 1], Start(k) + (j - 1) + 1);
      LateStep(k, d, id, xs[j - 1], xs[j], Start(k) + j);
    }
  }

  /** A life whose order was not cancelled in time runs through pick-up, delivery and notice. */
  lemma PickUpOf(k: Case, d: Deal, xs: seq<Snapshot>) returns (id: ShipmentId)
    requires Life(k, d, xs) && |xs| >= 6 && d.seller == k.seller && Parties(k) && !CancelledInTime(k, xs)
    ensures InHaul(k, d, id, xs[5], Start(k) + 5) && id.carrier == k.carrier && id.tick == Start(k) + 5
  {
    FirstTicks(k, d, xs);
    assert Evolves(k, xs[4], xs[4 + 1], Start(k) + 4 + 1);
    id := FromShipping(k, d, xs[4], xs[5]);
  }
}
