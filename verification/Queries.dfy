/** Every query is answered at the next tick, so that none ever grows old. */
module Queries {
  import opened Seqs
  import opened Messages
  import opened Settings
  import opened Engine
  import opened Routing
  import opened Simulation
  import opened SellerSide
  import Consumer
  import Seller
  import Supplier
  import Transport

  function QueriesOf(st: Agent): map<QueryId, Pending> {
    match st
    case C(c) => c.queries
    case S(s) => s.queries
    case _ => map[]
  }

  /** The pending queries that no result of a list answers. */
  function Unanswered(queries: map<QueryId, Pending>, xs: seq<Reply>): map<QueryId, Pending> {
    map q | q in queries && (forall i :: 0 <= i < |xs| ==> xs[i].id != q) :: queries[q]
  }

  lemma UnansweredCons(queries: map<QueryId, Pending>, xs: seq<Reply>)
    requires xs != []
    ensures Unanswered(queries, xs) == Unanswered(queries - {xs[0].id}, xs[1..])
  {
    forall q | q in queries ensures q in Unanswered(queries, xs) <==> q in Unanswered(queries - {xs[0].id}, xs[1..]) {
      assert forall i :: 0 <= i < |xs| - 1 ==> xs[1..][i] == xs[i + 1];
      if q in Unanswered(queries - {xs[0].id}, xs[1..]) {
        forall i | 0 <= i < |xs| ensures xs[i].id != q {
          assert i > 0 ==> xs[i] == xs[1..][i - 1];
        }
      }
    }
  }

  lemma UnansweredNone(queries: map<QueryId, Pending>)
    ensures Unanswered(queries, []) == queries
  {
  }

  /** A query and its request belong together: pending since the tick, and asked for in it. */
  ghost predicate Asked(queries: map<QueryId, Pending>, ev: seq<Event>, me: int, tick: int) {
    forall q :: q in queries ==> queries[q].issued == tick && Request(q, me, tick) in Reqs(ev)
  }

  lemma AskedAppend(queries: map<QueryId, Pending>, more: map<QueryId, Pending>, ev1: seq<Event>, ev2: seq<Event>,
          me: int, tick: int)
    requires Asked(queries, ev1, me, tick)
    requires forall q :: q in more ==> (q in queries && more[q] == queries[q]) || (more[q].issued == tick && Request(q, me, tick) in Reqs(ev2))
    ensures Asked(more, ev1 + ev2, me, tick)
  {
    MsgsAppend(ev1, ev2);
  }

  // -------------------------------------------------------------- consumers

  lemma {:induction false} RowsKeep(cfg: Config, me: int, st: Consumer.State, rows: seq<HistoryRow>, tick: int,
          item: int, row: int)
    ensures Consumer.CancelRows(cfg, me, st, rows, tick, item, row).0.queries == st.queries
    decreases |rows|
  {
    if rows != [] {
      var chosen := rows[0].late && rows[0].requested && cfg.cancels(me, tick, item, row);
      var st1 := if chosen then Consumer.Cancel(me, st, rows[0].rid, tick).0 else st;
      RowsKeep(cfg, me, st1, rows[1..], tick, item, row + 1);
    }
  }

  lemma ConsumerPops(cfg: Config, me: int, st: Consumer.State, x: Reply, tick: int, item: int)
    ensures Consumer.OnReply(cfg, me, st, x, tick, item).0.queries == st.queries - {x.id}
  {
    if x.id in st.queries {
      RowsKeep(cfg, me, st.(queries := st.queries - {x.id}), Consumer.HistoryRows(x.data), tick, item, 0);
    } else {
      assert st.queries - {x.id} == st.queries;
    }
  }

  lemma {:induction false} ConsumerHears(cfg: Config, me: int, st: Consumer.State, xs: seq<Reply>, tick: int, item: int)
    ensures Consumer.Replies(cfg, me, st, xs, tick, item).0.queries == Unanswered(st.queries, xs)
    decreases |xs|
  {
    hide Consumer.OnReply, Unanswered;
    if xs == [] {
      UnansweredNone(st.queries);
    } else {
      ConsumerPops(cfg, me, st, xs[0], tick, item);
      ConsumerHears(cfg, me, Consumer.OnReply(cfg, me, st, xs[0], tick, item).0, xs[1..], tick, item + 1);
      UnansweredCons(st.queries, xs);
    }
  }

  lemma {:induction false} ConsumerMailKeeps(me: int, st: Consumer.State, mail: seq<Message>, tick: int)
    ensures Consumer.Mail(me, st, mail, tick).0.queries == st.queries
    decreases |mail|
  {
    if mail != [] {
      ConsumerMailKeeps(me, Consumer.OnMessage(me, st, mail[0], tick).0, mail[1..], tick);
    }
  }

  lemma {:induction false} ViewsAsk(cfg: Config, me: int, st: Consumer.State, shown: seq<Shown>, tick: int, item: int)
    ensures var (st1, ev) := Consumer.Views(cfg, me, st, shown, tick, item);
            forall q :: q in st1.queries ==>
              (q in st.queries && st1.queries[q] == st.queries[q])
              || (st1.queries[q].issued == tick && Request(q, me, tick) in Reqs(ev))
    decreases |shown|
  {
    hide Consumer.Looks;
    if shown != [] {
      var (st1, ev1) := if Consumer.Looks(cfg, me, shown[0], tick, item)
                        then Consumer.Ask(me, st, ProductDetails(shown[0].sku, shown[0].category), tick, item) else (st, []);
      var (st2, ev2) := Consumer.Views(cfg, me, st1, shown[1..], tick, item + 1);
      ViewsAsk(cfg, me, st1, shown[1..], tick, item + 1);
      if ev1 != [] {
        MsgsOne(ev1[0]);
        assert ev1 == [ev1[0]];
      }
      MsgsAppend(ev1, ev2);
    }
  }

  lemma ConsumerSchedules(cfg: Config, me: int, st: Consumer.State, tick: int, item: int)
    requires st.queries == map[]
    ensures var (st1, ev) := Consumer.Scheduled(cfg, me, st, tick, item);
            Asked(st1.queries, ev, me, tick)
  {
    hide Fires;
    var (st1, ev1) := if Due(cfg, me, HistoryCheck, tick) then Consumer.Ask(me, st, OrderHistory, tick, item) else (st, []);
    if ev1 != [] {
      MsgsOne(ev1[0]);
      assert ev1 == [ev1[0]];
    }
    ViewsAsk(cfg, me, st1, Consumer.Browsed(cfg, me, tick), tick, item + 1);
    AskedAppend(st1.queries, Consumer.Views(cfg, me, st1, Consumer.Browsed(cfg, me, tick), tick, item + 1).0.queries,
                ev1, Consumer.Views(cfg, me, st1, Consumer.Browsed(cfg, me, tick), tick, item + 1).1, me, tick);
  }

  lemma AskedLater(queries: map<QueryId, Pending>, ev1: seq<Event>, ev2: seq<Event>, me: int, tick: int)
    requires Asked(queries, ev2, me, tick)
    ensures Asked(queries, ev1 + ev2, me, tick)
  {
    MsgsAppend(ev1, ev2);
  }

  /** If every pending query is answered, a consumer's step leaves just the queries that it asks. */
  lemma ConsumerAsksAnew(cfg: Config, me: int, st: Consumer.State, xs: seq<Reply>, mail: seq<Message>, tick: int)
    requires Unanswered(st.queries, xs) == map[]
    ensures var (st1, ev) := Consumer.Step(cfg, me, st, xs, mail, tick);
            Asked(st1.queries, ev, me, tick)
  {
    hide Consumer.Replies, Consumer.Mail, Consumer.Scheduled, Unanswered, Asked;
    var (st1, ev1) := Consumer.Replies(cfg, me, st, xs, tick, 0);
    var (st2, ev2) := Consumer.Mail(me, st1, mail, tick);
    ConsumerHears(cfg, me, st, xs, tick, 0);
    ConsumerMailKeeps(me, st1, mail, tick);
    var st3 := st2.(queries := Expire(st2.queries, tick));
    assert st3.queries == map[];
    ConsumerSchedules(cfg, me, st3, tick, |xs| + |mail|);
    var (st4, ev4) := Consumer.Scheduled(cfg, me, st3, tick, |xs| + |mail|);
    AskedLater(st4.queries, ev1 + ev2, ev4, me, tick);
  }

  // -------------------------------------------------------------- sellers

  lemma SellerPops(cfg: Config, me: int, st: Seller.State, x: Reply, tick: int, item: int)
    ensures Seller.OnReply(cfg, me, st, x, tick, item).0.queries == st.queries - {x.id}
  {
    if x.id in st.queries {
      RestockRowsKeep(cfg, me, st.(queries := st.queries - {x.id}), Seller.StockRows(x.data), tick, item, 0);
    } else {
      assert st.queries - {x.id} == st.queries;
    }
  }

  lemma {:induction false} SellerHears(cfg: Config, me: int, st: Seller.State, xs: seq<Reply>, tick: int, item: int)
    ensures Seller.Replies(cfg, me, st, xs, tick, item).0.queries == Unanswered(st.queries, xs)
    decreases |xs|
  {
    hide Seller.OnReply, Unanswered;
    if xs == [] {
      UnansweredNone(st.queries);
    } else {
      SellerPops(cfg, me, st, xs[0], tick, item);
      SellerHears(cfg, me, Seller.OnReply(cfg, me, st, xs[0], tick, item).0, xs[1..], tick, item + 1);
      UnansweredCons(st.queries, xs);
    }
  }

  lemma MessageAsks(cfg: Config, me: int, st: Seller.State, m: Message, tick: int, item: int)
    ensures var (st1, ev) := Seller.OnMessage(cfg, me, st, m, tick, item);
            forall q :: q in st1.queries ==>
              (q in st.queries && st1.queries[q] == st.queries[q])
              || (st1.queries[q].issued == tick && Request(q, me, tick) in Reqs(ev))
  {
    hide Seller.Find, Seller.PaymentMessages;
    var ev := Seller.OnMessage(cfg, me, st, m, tick, item).1;
    if m.payload.PlaceOrder? {
      MsgsOne(ev[0]);
      assert ev == [ev[0]];
    }
  }

  lemma {:induction false} SellerMailAsks(cfg: Config, me: int, st: Seller.State, mail: seq<Message>, tick: int,
          item: int)
    ensures var (st1, ev) := Seller.Mail(cfg, me, st, mail, tick, item);
            forall q :: q in st1.queries ==>
              (q in st.queries && st1.queries[q] == st.queries[q])
              || (st1.queries[q].issued == tick && Request(q, me, tick) in Reqs(ev))
    decreases |mail|
  {
    hide Seller.OnMessage;
    if mail != [] {
      var (st1, ev1) := Seller.OnMessage(cfg, me, st, mail[0], tick, item);
      var (st2, ev2) := Seller.Mail(cfg, me, st1, mail[1..], tick, item + 1);
      MessageAsks(cfg, me, st, mail[0], tick, item);
      SellerMailAsks(cfg, me, st1, mail[1..], tick, item + 1);
      MsgsAppend(ev1, ev2);
    }
  }

  lemma SellerSchedules(cfg: Config, me: int, st: Seller.State, ev: seq<Event>, tick: int, item: int)
    requires Asked(st.queries, ev, me, tick)
    ensures var (st1, ev1) := Seller.Scheduled(cfg, me, st, tick, item);
            Asked(st1.queries, ev + ev1, me, tick)
  {
    hide Fires;
    var (st1, ev1) := Seller.Scheduled(cfg, me, st, tick, item);
    if ev1 != [] {
      MsgsOne(ev1[0]);
      assert ev1 == [ev1[0]];
    }
    AskedAppend(st.queries, st1.queries, ev, ev1, me, tick);
  }

  lemma NoneExpires(queries: map<QueryId, Pending>, ev: seq<Event>, me: int, tick: int)
    requires Asked(queries, ev, me, tick)
    ensures Expire(queries, tick) == queries
  {
  }

  /** If every pending query is answered, a seller's step leaves just the queries that it asks. */
  lemma SellerAsksAnew(cfg: Config, me: int, st: Seller.State, xs: seq<Reply>, mail: seq<Message>, tick: int)
    requires Unanswered(st.queries, xs) == map[]
    ensures var (st1, ev) := Seller.Step(cfg, me, st, xs, mail, tick);
            Asked(st1.queries, ev, me, tick)
  {
    hide Seller.Replies, Seller.Mail, Seller.Scheduled, Unanswered;
    var (st1, ev1) := Seller.Replies(cfg, me, st, xs, tick, 0);
    var (st2, ev2) := Seller.Mail(cfg, me, st1, mail, tick, |xs|);
    SellerHears(cfg, me, st, xs, tick, 0);
    SellerMailAsks(cfg, me, st1, mail, tick, |xs|);
    AskedAppend(map[], st2.queries, ev1, ev2, me, tick);
    NoneExpires(st2.queries, ev1 + ev2, me, tick);
    SellerSchedules(cfg, me, st2.(queries := Expire(st2.queries, tick)), ev1 + ev2, tick, |xs| + |mail|);
  }

  // -------------------------------------------------------------- runs

  /** The result of the query is in the mail of agent a. */
  ghost predicate Answered(w: World<Agent>, a: int, q: QueryId) {
    exists x :: x in w.replies && x.id == q && x.agent == a
  }

  /** Every pending query was issued in this very tick, and its result is on its way. */
  ghost predicate AllAnswered(w: World<Agent>, a: int)
    requires a in w.agents
  {
    forall q :: q in QueriesOf(w.agents[a]) ==> QueriesOf(w.agents[a])[q].issued == w.tick && Answered(w, a, q)
  }

  lemma ResultHeard(cfg: Config, w: World<Agent>, a: int)
    requires a in w.agents && AllAnswered(w, a)
    ensures Unanswered(QueriesOf(w.agents[a]), HandledReplies(TheMachine(cfg), w, a)) == map[]
  {
    hide HandledReplies;
    var m := TheMachine(cfg);
    var queries, xs := QueriesOf(w.agents[a]), HandledReplies(m, w, a);
    HandledIs(m, w, a);
    SortMembers(ReplyKey(m.rank), Filter(ForAgent(a), w.replies));
    forall q | q in queries ensures q !in Unanswered(queries, xs) {
      assert Answered(w, a, q);
      var x :| x in w.replies && x.id == q && x.agent == a;
      FilterComplete(ForAgent(a), w.replies, x);
      assert x in xs;
      var i :| 0 <= i < |xs| && xs[i] == x;
    }
  }

  lemma TurnAsks(cfg: Config, w: World<Agent>, a: int)
    requires a in w.agents && AllAnswered(w, a)
    ensures var (st1, ev) := Turn(TheMachine(cfg), w, a);
            Asked(QueriesOf(st1), ev, a, w.tick + 1)
  {
    hide Consumer.Step, Seller.Step, Supplier.Mail, Transport.Step, Unanswered, Asked, Handled, HandledReplies;
    var m := TheMachine(cfg);
    var xs, mail, tick := HandledReplies(m, w, a), Handled(m, w, a), w.tick + 1;
    TurnIs(cfg, w, a);
    ResultHeard(cfg, w, a);
    match w.agents[a]
    case C(c) => ConsumerAsksAnew(cfg, a, c, xs, mail, tick);
    case S(s) => SellerAsksAnew(cfg, a, s, xs, mail, tick);
    case _ => NothingAsked(Turn(m, w, a).1, a, tick);
  }

  lemma NothingAsked(ev: seq<Event>, me: int, tick: int)
    ensures Asked(map[], ev, me, tick)
  {
  }

  lemma {:induction false} AnswersHold(answer: Request -> Reply, reqs: seq<Request>, r: Request)
    requires r in reqs
    ensures answer(r) in Answers(answer, reqs)
  {
    if reqs[0] != r {
      AnswersHold(answer, reqs[1..], r);
    }
  }

  lemma ReplyArrives(cfg: Config, w: World<Agent>, a: int, r: Request)
    requires a in w.agents && r in Reqs(Turn(TheMachine(cfg), w, a).1)
    ensures Answer(cfg)(r) in Step(TheMachine(cfg), w).replies
  {
    var m := TheMachine(cfg);
    var ids := SortedIds(w.agents.Keys);
    assert a in w.agents.Keys;
    MsgsCat(m, w, ids);
    assert ReqBlock(m, w)(a) == Reqs(Turn(m, w, a).1);
    InCat(ReqBlock(m, w), ids, a, r);
    AnswersHold(m.answer, w.queued + Cat(ReqBlock(m, w), ids), r);
  }

  lemma RoundAnswers(cfg: Config, w: World<Agent>, a: int)
    requires a in w.agents && AllAnswered(w, a)
    ensures a in Step(TheMachine(cfg), w).agents && AllAnswered(Step(TheMachine(cfg), w), a)
  {
    hide Step, Turn;
    var m := TheMachine(cfg);
    var v := Step(m, w);
    StepAgent(m, w, a);
    StepShape(m, w);
    TurnAsks(cfg, w, a);
    var queries, ev := QueriesOf(v.agents[a]), Turn(m, w, a).1;
    forall q | q in queries ensures queries[q].issued == v.tick && Answered(v, a, q) {
      ReplyArrives(cfg, w, a, Request(q, a, v.tick));
      assert Answer(cfg)(Request(q, a, v.tick)).id == q;
    }
  }

  /**
   * Every query is answered: after every tick of every run, each query that a consumer or a seller has
   * pending was issued in that tick, and its result is there for the next. So no query ever expires.
   */
  lemma {:induction false} QueriesAnswered(cfg: Config, w: World<Agent>, t: nat, a: int)
    requires Initial(w) && a in w.agents
    ensures a in At(cfg, w, t).agents && AllAnswered(At(cfg, w, t), a)
  {
    hide Step, AllAnswered;
    if t == 0 {
      assert FreshAgent(w.agents[a]);
      assert AllAnswered(w, a) by { NoQueries(w, a); }
    } else {
      QueriesAnswered(cfg, w, t - 1, a);
      RoundAnswers(cfg, At(cfg, w, t - 1), a);
    }
  }

  lemma NoQueries(w: World<Agent>, a: int)
    requires a in w.agents && FreshAgent(w.agents[a])
    ensures AllAnswered(w, a)
  {
  }
}
