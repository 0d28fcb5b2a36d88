/** Laws of the round for the simulation itself: confluence, channels, and a status that is never reached. */
module Rounds {
  import opened Seqs
  import opened Messages
  import opened Settings
  import opened Engine
  import opened Routing
  import opened Simulation
  import opened Manners
  import opened SellerSide
  import opened Inventory
  import Restocks
  import RestockLoop
  import Consumer
  import Seller
  import Supplier
  import Transport

  // -------------------------------------------------------------- confluence of the simulation

  /**
   * Tick confluence for the simulation: from every reachable world, stepping the agents in any order
   * gives the same agents and the same prepared inboxes, and a log that differs only between agents.
   */
  lemma SimulationConfluence(cfg: Config, w: World<Agent>, t: nat, order: seq<int>)
    requires Initial(w) && (forall i, j :: cfg.rank(i) == cfg.rank(j) ==> i == j)
    requires Distinct(order) && forall a :: a in order <==> a in w.agents
    ensures var m := TheMachine(cfg);
            var u := StepIn(m, At(cfg, w, t), order);
            var v := At(cfg, w, t + 1);
            && u.agents == v.agents
            && (forall a :: Prepared(m, u, a) == Prepared(m, v, a))
            && AgreeByKey(AgentKey, u.log, v.log)
  {
    hide Turn, Accounted;
    var m := TheMachine(cfg);
    var u := At(cfg, w, t);
    AlwaysAccounted(cfg, w, t);
    RunBasics(cfg, w, t);
    forall a, e | a in u.agents && e in Turn(m, u, a).1 ensures SignedBy(e, a) {
      AccountedSigns(cfg, u, a);
    }
    TickConfluence(m, u, order, SortedIds(u.agents.Keys));
  }

  // -------------------------------------------------------------- channels

  lemma ActStamped(cfg: Config, a: int, st: Agent, xs: seq<Reply>, mail: seq<Message>, tick: int)
    requires (forall m :: m in mail ==> Numbered(cfg, m)) && (st.T? ==> OwnBacklog(st.t, a))
    ensures forall x :: x in Msgs(ActOn(cfg, a, st, xs, mail, tick).1) ==> x.from == a && x.tickSent == tick
  {
    hide Consumer.Step, Seller.Step, Supplier.Mail, Transport.Step;
    var ev := ActOn(cfg, a, st, xs, mail, tick).1;
    match st
    case C(c) => ConsumerStep(cfg, a, c, xs, mail, tick); Spoken(ev, a, tick, ConsumerSays(cfg), ConsumerAsks());
    case S(s) => SellerStep(cfg, a, s, xs, mail, tick); Spoken(ev, a, tick, SellerSays(cfg), SellerAsks());
    case P(p) => SupplierStep(cfg, a, p, mail, tick); Spoken(ev, a, tick, SupplierSays(cfg), NoTopic());
    case T(t) => CarrierStep(cfg, a, t, mail, tick, |xs|); Spoken(ev, a, tick, CarrierSays(cfg), NoTopic());
    case G => RestockLoop.RecordsQuiet(a, mail, tick); Restocks.QuietIntake(id => 0, ev);
  }

  lemma TurnStamped(cfg: Config, u: World<Agent>, a: int, x: Message)
    requires Accounted(cfg, u) && a in u.agents && x in MailBlock(TheMachine(cfg), u)(a)
    ensures x.from == a && x.tickSent == u.tick + 1
  {
    hide Handled, HandledReplies;
    var m := TheMachine(cfg);
    InboxIs(cfg, u, a);
    TurnIs(cfg, u, a);
    BlockIs(m, u, a);
    assert Accountable(cfg, u, a, u.agents[a]);
    ActStamped(cfg, a, u.agents[a], HandledReplies(m, u, a), Handled(m, u, a), u.tick + 1);
  }

  /** The messages that agent b sends to agent a at the tick after u, in the order of their emission. */
  function SentTo(cfg: Config, u: World<Agent>, b: int, a: int): seq<Message> {
    Filter(ToAgent(a), MailBlock(TheMachine(cfg), u)(b))
  }

  /**
   * Channels, over every run: what an agent handles at tick t + 2 was sent to it at tick t + 1, by a
   * registered agent; and of each sender it handles just what that sender addressed to it at that tick,
   * in the order of emission.
   */
  lemma Channels(cfg: Config, w: World<Agent>, t: nat, a: int, b: int)
    requires Initial(w) && b in w.agents
    ensures var handled := Handled(TheMachine(cfg), At(cfg, w, t + 1), a);
            && (forall x :: x in handled ==> x.to == a && x.tickSent == t + 1 && x.from in w.agents)
            && Filter(FromAt(b, t + 1), handled) == SentTo(cfg, At(cfg, w, t), b, a)
  {
    hide Accounted, Step, Handled, MailBlock, Filter, Cat, SentTo, Initial;
    var u := At(cfg, w, t);
    RunBasics(cfg, w, t);
    AlwaysAccounted(cfg, w, t);
    assert At(cfg, w, t + 1) == Step(TheMachine(cfg), u);
    HandledStamped(cfg, u, a);
    HandledFrom(cfg, u, a, b);
  }

  lemma HandledFrom(cfg: Config, u: World<Agent>, a: int, b: int)
    requires Accounted(cfg, u) && b in u.agents
    ensures Filter(FromAt(b, u.tick + 1), Handled(TheMachine(cfg), Step(TheMachine(cfg), u), a)) == SentTo(cfg, u, b, a)
  {
    hide Accounted, Step, Handled, MailBlock, Filter, Cat, SentTo;
    ChannelGuarantee(TheMachine(cfg), u, a);
    FromOne(cfg, u, a, b);
  }

  lemma HandledStamped(cfg: Config, u: World<Agent>, a: int)
    requires Accounted(cfg, u)
    ensures forall x :: x in Handled(TheMachine(cfg), Step(TheMachine(cfg), u), a) ==>
              x.to == a && x.tickSent == u.tick + 1 && x.from in u.agents
  {
    hide Accounted, Step, Handled, MailBlock;
    var m := TheMachine(cfg);
    HandledIs(m, Step(m, u), a);
    SortMembers(MailKey, Filter(ToAgent(a), Step(m, u).mail));
    forall x | x in Handled(m, Step(m, u), a) ensures x.to == a && x.tickSent == u.tick + 1 && x.from in u.agents {
      MailSource(m, u, x);
      var c :| c in u.agents && x in MailBlock(m, u)(c);
      TurnStamped(cfg, u, c, x);
    }
  }

  /** The part of a tick's mail that one agent sent to another is what its own turn emitted. */
  lemma FromOne(cfg: Config, u: World<Agent>, a: int, b: int)
    requires Accounted(cfg, u) && b in u.agents
    ensures var m := TheMachine(cfg);
            Filter(FromAt(b, u.tick + 1), Filter(ToAgent(a), Cat(MailBlock(m, u), SortedIds(u.agents.Keys))))
              == SentTo(cfg, u, b, a)
  {
    hide Accounted, MailBlock;
    var m := TheMachine(cfg);
    var ids, p := SortedIds(u.agents.Keys), FromTo(b, u.tick + 1, a);
    var all := Cat(MailBlock(m, u), ids);
    forall c | c in ids && c != b ensures Filter(p, MailBlock(m, u)(c)) == [] {
      forall x | x in MailBlock(m, u)(c) ensures !p(x) {
        TurnStamped(cfg, u, c, x);
      }
      FilterNone(p, MailBlock(m, u)(c));
    }
    assert b in u.agents.Keys;
    CatOne(p, MailBlock(m, u), ids, b);
    FilterBoth(FromAt(b, u.tick + 1), ToAgent(a), p, all);
    forall x | x in MailBlock(m, u)(b) ensures p(x) == ToAgent(a)(x) {
      TurnStamped(cfg, u, b, x);
    }
    FilterAgree(p, ToAgent(a), MailBlock(m, u)(b));
  }

  function FromTo(b: int, t: int, a: int): Message -> bool {
    (x: Message) => x.from == b && x.tickSent == t && x.to == a
  }

  lemma {:induction false} FilterBoth<T>(p: T -> bool, q: T -> bool, r: T -> bool, xs: seq<T>)
    requires forall x :: x in xs ==> r(x) == (p(x) && q(x))
    ensures Filter(p, Filter(q, xs)) == Filter(r, xs)
  {
    if xs != [] {
      assert xs[0] in xs;
      FilterBoth(p, q, r, xs[1..]);
      if q(xs[0]) {
        assert ([xs[0]] + Filter(q, xs[1..]))[1..] == Filter(q, xs[1..]);
      }
    }
  }

  // -------------------------------------------------------------- restocks are never marked as received

  /** Every entry is keyed by its UUID and still marked as ordered. */
  ghost predicate StillOrdered(st: Seller.State) {
    forall key :: key in st.restocks ==> key.Uuid? && !st.restocks[key].received
  }

  lemma {:induction false} RowsStillOrdered(cfg: Config, me: int, st: Seller.State, rows: seq<StockRow>, tick: int,
          item: int, row: int)
    requires StillOrdered(st)
    ensures StillOrdered(Seller.RestockRows(cfg, me, st, rows, tick, item, row).0)
    decreases |rows|
  {
    if rows != [] {
      if rows[0].qty < RESTOCK_BELOW && SupplierOf(cfg, rows[0].sku).Some? {
        var entry := Seller.RestockEntry(rows[0].sku, RESTOCK_QTY, SupplierOf(cfg, rows[0].sku).value, false);
        var st1 := st.(restocks := st.restocks[Seller.Uuid(RestockId(me, tick, item, row, rows[0].sku)) := entry]);
        RowsStillOrdered(cfg, me, st1, rows[1..], tick, item, row + 1);
      } else {
        RowsStillOrdered(cfg, me, st, rows[1..], tick, item, row + 1);
      }
    }
  }

  lemma {:induction false} RepliesStillOrdered(cfg: Config, me: int, st: Seller.State, xs: seq<Reply>, tick: int,
          item: int)
    requires StillOrdered(st)
    ensures StillOrdered(Seller.Replies(cfg, me, st, xs, tick, item).0)
    decreases |xs|
  {
    if xs != [] {
      RowsStillOrdered(cfg, me, st.(queries := st.queries - {xs[0].id}), Seller.StockRows(xs[0].data), tick, item, 0);
      RepliesStillOrdered(cfg, me, Seller.OnReply(cfg, me, st, xs[0], tick, item).0, xs[1..], tick, item + 1);
    }
  }

  lemma {:induction false} MailStillOrdered(cfg: Config, me: int, st: Seller.State, mail: seq<Message>, tick: int,
          item: int)
    requires StillOrdered(st)
    ensures StillOrdered(Seller.Mail(cfg, me, st, mail, tick, item).0)
    decreases |mail|
  {
    if mail != [] {
      MailStillOrdered(cfg, me, Seller.OnMessage(cfg, me, st, mail[0], tick, item).0, mail[1..], tick, item + 1);
    }
  }

  /**
   * No seller ever marks a restock as received, in any run: its entries are keyed by UUID objects, the
   * deliveries name them by text.
   */
  lemma {:induction false} NeverReceived(cfg: Config, w: World<Agent>, t: nat, s: int)
    requires Initial(w) && Restocks.IsSeller(w, s)
    ensures Restocks.IsSeller(At(cfg, w, t), s) && StillOrdered(At(cfg, w, t).agents[s].s)
  {
    hide Step, Seller.Replies, Seller.Mail;
    if t == 0 {
      assert FreshAgent(w.agents[s]);
    } else {
      var m := TheMachine(cfg);
      var u := At(cfg, w, t - 1);
      NeverReceived(cfg, w, t - 1, s);
      StepAgent(m, u, s);
      TurnIs(cfg, u, s);
      RepliesStillOrdered(cfg, s, u.agents[s].s, HandledReplies(m, u, s), u.tick + 1, 0);
      MailStillOrdered(cfg, s, Seller.Replies(cfg, s, u.agents[s].s, HandledReplies(m, u, s), u.tick + 1, 0).0,
                       Handled(m, u, s), u.tick + 1, |HandledReplies(m, u, s)|);
    }
  }
}
