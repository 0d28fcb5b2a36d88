/**
 * What the small market shows: the assumptions of the theorems about orders are met in it, and when its two
 * orders draw the same store number the stock ledger is out of balance.
 */
module MarketResults {
  import opened Seqs
  import opened Messages
  import opened Settings
  import opened Engine
  import opened Simulation
  import opened OneOrder
  import opened OrderLife
  import opened Orders
  import opened OrderTheorems
  import opened Market
  import Ledger
  import RestockResults
  import Restocks
  import Revivals
  import SellerSide
  import Seller
  import Transport

  function Followable(a: nat, b: nat, rid: OrderId): Case {
    Case(Town(a, b), rid, SHOP, CARRIER)
  }

  /** Two different numbers, neither of them zero. */
  predicate Apart(a: nat, b: nat) { Drawable(a, b) && a != 0 && b != 0 && a != b }

  lemma NumberIs(a: nat, b: nat, rid: OrderId)
    requires Drawable(a, b)
    ensures StoreNumber(Town(a, b), rid) == if rid == FIRST then a else if rid == SECOND then b else 0
  {
  }

  lemma NeverClashes(a: nat, b: nat, rid: OrderId, t: nat)
    requires Apart(a, b) && (rid == FIRST || rid == SECOND)
    ensures NoClash(Followable(a, b, rid), OPENING, t)
  {
    hide At, Town, StoreNumber;
    var k := Followable(a, b, rid);
    forall st: Seller.State ensures SellerSide.Unmistakable(k, st) {
      forall x ensures StoreNumber(k.cfg, x) == if x == FIRST then a else if x == SECOND then b else 0 {
        NumberIs(a, b, x);
      }
    }
  }

  lemma TracksThere(a: nat, b: nat)
    ensures TracksAlways(Town(a, b), CARRIER)
  {
    forall t: int | t >= 1 ensures Due(Town(a, b), CARRIER, UpdateTracking, t) {
      assert (t - 1) % 1 == 0;
    }
  }

  /** In the market both orders meet the assumptions of the theorems about orders. */
  lemma AssumptionsMet(a: nat, b: nat, rid: OrderId)
    requires Apart(a, b) && (rid == FIRST || rid == SECOND)
    ensures var k := Followable(a, b, rid);
            && Setting(k, OPENING) && IsPlaced(k, OPENING) && (forall t: nat :: NoClash(k, OPENING, t))
            && TracksAlways(k.cfg, k.carrier) && k.cfg.baseTransit >= 0
  {
    hide At, NoClash;
    var k := Followable(a, b, rid);
    NumberIs(a, b, rid);
    Played(a, b, 2);
    TracksThere(a, b);
    forall t: nat ensures NoClash(k, OPENING, t) {
      NeverClashes(a, b, rid, t);
    }
  }

  /** The first order is asked to be cancelled in time, the second is not. */
  lemma Requests(a: nat, b: nat)
    requires Drawable(a, b) && b != 0
    ensures Cancellable(Followable(a, b, FIRST), OPENING) && !Cancellable(Followable(a, b, SECOND), OPENING)
  {
    hide At;
    Played(a, b, 3);
    Played(a, b, 4);
    Played(a, b, 5);
    assert REGRET in At(Town(a, b), OPENING, 3).mail;
  }

  lemma CancelledInWindow(k: Case, w: World<Agent>, t: nat)
    requires Followed(k, w, t) && t >= Start(k) + 4 && Cancellable(k, w)
    ensures Staffed(k, At(k.cfg, w, t)) && SellerStatus(k, At(k.cfg, w, t)) == Some(Cancelled)
  {
    hide At, Followed, CancelMailed, Staffed, SellerStatus;
    CancelWindow(k, w, t);
  }

  /**
   * So the theorems apply to it: from tick 6 on the first order is cancelled at the seller, and the second is
   * on record as delivered from tick 9 on.
   */
  lemma BothEnds(a: nat, b: nat, t: nat)
    requires Apart(a, b) && t >= 2
    ensures var k := Followable(a, b, FIRST);
            t >= 6 ==> var u := At(k.cfg, OPENING, t);
                       Staffed(k, u) && SellerStatus(k, u) == Some(Cancelled)
    ensures DeliveredAt(Followable(a, b, SECOND), OPENING, t) <==> t >= 9
  {
    hide At, Setting, IsPlaced, NoClash, TracksAlways, Cancellable, DeliveredAt, SellerStatus, Staffed;
    var first, second := Followable(a, b, FIRST), Followable(a, b, SECOND);
    AssumptionsMet(a, b, FIRST);
    AssumptionsMet(a, b, SECOND);
    Requests(a, b);
    assert NoClash(first, OPENING, t);
    if t >= 6 {
      CancelledInWindow(first, OPENING, t);
    }
    var id, arrival := DeliveryDate(second, OPENING);
    assert Transport.Transit(second.cfg, id) == 0;
  }

  // -------------------------------------------------------------- equal store numbers

  lemma StillLogged(m: Machine<Agent>, u: World<Agent>, s: int, rid: OrderId)
    requires Revivals.CancelLogged(s, u.log, rid)
    ensures Revivals.CancelLogged(s, Step(m, u).log, rid)
  {
    hide Revivals.CancelLogged, Turn, Block, Cat, SortedIds;
    Revivals.LoggedAppend(s, u.log, Cat(Block(m, u), SortedIds(u.agents.Keys)), rid);
  }

  lemma {:induction false} LogGrows(cfg: Config, w: World<Agent>, t: nat, n: nat, s: int, rid: OrderId)
    requires Revivals.CancelLogged(s, At(cfg, w, t).log, rid)
    ensures Revivals.CancelLogged(s, At(cfg, w, t + n).log, rid)
  {
    hide Revivals.CancelLogged, Step, TheMachine;
    if n > 0 {
      LogGrows(cfg, w, t, n - 1, s, rid);
      StillLogged(TheMachine(cfg), At(cfg, w, t + n - 1), s, rid);
    }
  }

  lemma FirstIsLogged(a: nat)
    requires Drawable(a, a) && a != 0
    ensures Revivals.CancelLogged(SHOP, At(Town(a, a), OPENING, 8).log, FIRST)
  {
    hide At, Revivals.CancelLogged;
    Played(a, a, 4);
    Revivals.AlwaysSettles(Town(a, a), OPENING, 4, SHOP, 11);
    assert Sold(a, a, Cancelled, Accepted).orders[FIRST].status == Cancelled;
    LogGrows(Town(a, a), OPENING, 4, 4, SHOP, FIRST);
  }

  /**
   * A reachable run out of balance: both orders have the number a, the first is cancelled at tick 4, and at
   * tick 8 the delivery of the second makes the first one delivered. The stock is then one piece more than the
   * ledger says.
   */
  lemma LedgerBreaks(a: nat)
    requires Drawable(a, a) && a != 0
    ensures Initial(OPENING)
    ensures var u := At(Town(a, a), OPENING, 8);
            && Restocks.IsSeller(u, SHOP) && u.agents[SHOP].s == Sold(a, a, Delivered, Paid)
            && Sum(Ledger.Delta(SHOP, 11), u.log)
               == Sum(RestockResults.Credit(SHOP, 11), u.log) - Ledger.HeldInAll(u.agents[SHOP].s, 11) + 1
  {
    hide At, Ledger.Delta, RestockResults.Credit, Revivals.CancelLogged;
    var cfg := Town(a, a);
    var u := At(cfg, OPENING, 8);
    Played(a, a, 8);
    FirstIsLogged(a);
    Revivals.ExactLedger(cfg, OPENING, 8, SHOP, 11);
    var f := Revivals.Revived(SHOP, u.log, Sold(a, a, Delivered, Paid), 11);
    assert [FIRST] + [SECOND] == [FIRST, SECOND];
    SumAppend(f, [FIRST], [SECOND]);
    SumOne(f, FIRST);
    SumOne(f, SECOND);
    assert f(FIRST) == 1 && f(SECOND) == 0;
  }
}
