/** The whole simulator: the engine's machine with the agents of the simulation plugged in. */
module Simulation {
  import opened Seqs
  import opened Messages
  import opened Settings
  import opened Engine
  import Consumer
  import Seller
  import Supplier
  import Transport

  /** An agent of any type. A government agent keeps no state that others depend on. */
  datatype Agent =
    | C(c: Consumer.State)
    | S(s: Seller.State)
    | P(p: Supplier.State)
    | T(t: Transport.State)
    | G

  /** `on_order_report` of the government agent, for a list of messages. */
  function Records(me: int, mail: seq<Message>, tick: int): seq<Event> {
    if mail == [] then []
    else
      (if mail[0].payload.OrderReport?
       then [Event(GovRecordInsert, me, tick, [InsertGovRecord(mail[0].payload.seller, mail[0].payload.number)], [], [])]
       else [])
      + Records(me, mail[1..], tick)
  }

  function Reports(): Message -> bool { (m: Message) => m.payload.OrderReport? }

  /** The entry for a report: a record of the seller and the order number that it names. */
  ghost predicate Recorded(me: int, tick: int, m: Message, e: Event) {
    && m.payload.OrderReport?
    && e == Event(GovRecordInsert, me, tick, [InsertGovRecord(m.payload.seller, m.payload.number)], [], [])
  }

  /** One entry for each report among the messages, in their order. */
  ghost predicate AllRecorded(me: int, mail: seq<Message>, tick: int, events: seq<Event>) {
    exists at: seq<nat> :: RecordedAt(me, mail, tick, events, at)
  }

  ghost predicate RecordedAt(me: int, mail: seq<Message>, tick: int, events: seq<Event>, at: seq<nat>) {
    && Rising(at, |mail|) && |events| == |at|
    && (forall i :: 0 <= i < |mail| ==> (i in at <==> mail[i].payload.OrderReport?))
    && forall k :: 0 <= k < |at| ==> Recorded(me, tick, mail[at[k]], events[k])
  }

  lemma {:induction false} RecordsFilter(me: int, mail: seq<Message>, tick: int)
    ensures var reports := Filter(Reports(), mail);
            && |Records(me, mail, tick)| == |reports|
            && forall k :: 0 <= k < |reports| ==> Recorded(me, tick, reports[k], Records(me, mail, tick)[k])
  {
    if mail != [] {
      RecordsFilter(me, mail[1..], tick);
    }
  }

  lemma ReportsRecorded(me: int, mail: seq<Message>, tick: int)
    ensures AllRecorded(me, mail, tick, Records(me, mail, tick))
  {
    hide Records, Recorded;
    RecordsFilter(me, mail, tick);
    var at := Kept(Reports(), mail);
    assert RecordedAt(me, mail, tick, Records(me, mail, tick), at);
  }

  function ActOn(cfg: Config, me: int, st: Agent, replies: seq<Reply>, mail: seq<Message>, tick: int): (Agent,
          seq<Event>) {
    match st
    case C(c) => var (c1, ev) := Consumer.Step(cfg, me, c, replies, mail, tick); (C(c1), ev)
    case S(s) => var (s1, ev) := Seller.Step(cfg, me, s, replies, mail, tick); (S(s1), ev)
    case P(p) => var (p1, ev) := Supplier.Mail(cfg, me, p, mail, tick); (P(p1), ev)
    case T(t) => var (t1, ev) := Transport.Step(cfg, me, t, mail, tick, |replies|); (T(t1), ev)
    case G => (G, Records(me, mail, tick))
  }

  /** `BaseAgent.step`: split the inbox, sort both halves, and act. */
  function Act(cfg: Config, me: int, st: Agent, items: seq<Item>, tick: int): (Agent, seq<Event>) {
    ActOn(cfg, me, st, Sort(ReplyKey(cfg.rank), RepliesOf(items)), Sort(MailKey, MessagesOf(items)), tick)
  }

  function Answer(cfg: Config): Request -> Reply {
    (q: Request) => Reply(q.id, q.agent, cfg.answer(q))
  }

  function Behave(cfg: Config): Behaviour<Agent> {
    (me: int, st: Agent, items: seq<Item>, tick: int) => Act(cfg, me, st, items, tick)
  }

  function TheMachine(cfg: Config): Machine<Agent> {
    Machine(Behave(cfg), Answer(cfg), cfg.rank)
  }

  predicate FreshAgent(a: Agent) {
    match a
    case C(c) => c == Consumer.FRESH
    case S(s) => s == Seller.FRESH
    case P(p) => p == Supplier.FRESH
    case T(t) => t == Transport.FRESH
    case G => true
  }

  /** Before the first tick: new agents, empty inboxes, nothing logged. */
  ghost predicate Initial(w: World<Agent>) {
    && w.tick == 0 && w.mail == [] && w.replies == [] && w.queued == [] && w.log == []
    && forall a :: a in w.agents ==> FreshAgent(w.agents[a])
  }

  /** The world after t ticks. */
  function At(cfg: Config, w: World<Agent>, t: nat): World<Agent> {
    Run(TheMachine(cfg), w, t)
  }

  /** What the turn of agent a consists of, once the sorting is done. */
  lemma TurnIs(cfg: Config, w: World<Agent>, a: int)
    requires a in w.agents
    ensures var m := TheMachine(cfg);
            Turn(m, w, a) == ActOn(cfg, a, w.agents[a], HandledReplies(m, w, a), Handled(m, w, a), w.tick + 1)
  {
  }

  lemma RunBasics(cfg: Config, w: World<Agent>, t: nat)
    requires Initial(w)
    ensures At(cfg, w, t).tick == t && At(cfg, w, t).queued == []
    ensures At(cfg, w, t).agents.Keys == w.agents.Keys
    ensures Sorted(MailKey, At(cfg, w, t).mail)
  {
    RunShape(TheMachine(cfg), w, t);
  }

  /** Mail is routed sorted, so that an agent handles its part of it in the order of the list. */
  lemma HandledInOrder(cfg: Config, w: World<Agent>, a: int)
    requires Sorted(MailKey, w.mail)
    ensures Handled(TheMachine(cfg), w, a) == Filter(ToAgent(a), w.mail)
  {
    HandledIs(TheMachine(cfg), w, a);
    SortOfSorted(MailKey, w.mail);
    FilterSort(MailKey, ToAgent(a), w.mail);
  }
}
