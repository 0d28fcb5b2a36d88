/** A consumer's step, seen from one order: only messages about the order matter to it. */
module ConsumerSide {
  import opened Seqs
  import opened Messages
  import opened Settings
  import opened OneOrder
  import Consumer

  lemma FilterOne<T>(p: T -> bool, x: T)
    ensures Filter(p, [x]) == if p(x) then [x] else []
  {
    assert [x][1..] == [];
  }

  lemma OneEvent(k: Case, e: Event)
    requires |e.messages| <= 1
    ensures Filter(ToSeller(k), Msgs([e])) == if e.messages != [] && ToSeller(k)(e.messages[0]) then e.messages else []
  {
    MsgsOne(e);
    if e.messages != [] {
      assert e.messages == [e.messages[0]];
      FilterOne(ToSeller(k), e.messages[0]);
    }
  }

  /** The claim of OnOneMessage. */
  ghost predicate MessageSeen(k: Case, me: int, st: Consumer.State, m: Message, tick: int) {
    var (st1, ev) := Consumer.OnMessage(me, st, m, tick);
    var (v, out) := if ToConsumer(k)(m) then ConsumerReact(me, ViewC(st, k.rid), m, tick) else (ViewC(st, k.rid), []);
    ViewC(st1, k.rid) == v && Filter(ToSeller(k), Msgs(ev)) == out
  }

  lemma OnAcceptedOne(k: Case, me: int, st: Consumer.State, m: Message, tick: int)
    requires m.payload.OrderAccepted?
    ensures MessageSeen(k, me, st, m, tick)
  {
    var ev := Consumer.OnMessage(me, st, m, tick).1;
    if ev != [] {
      assert ev == [ev[0]];
      OneEvent(k, ev[0]);
    }
  }

  lemma OnClosingOne(k: Case, me: int, st: Consumer.State, m: Message, tick: int, rid: OrderId)
    requires (m.payload.ShipmentNotification? && m.payload.rid == rid) || m.payload == CancelConfirmed(rid)
    ensures MessageSeen(k, me, st, m, tick)
  {
    var ev := Consumer.OnMessage(me, st, m, tick).1;
    if ev != [] {
      assert ev == [ev[0]];
      OneEvent(k, ev[0]);
    }
    if rid in st.pending {
      var status := if m.payload.ShipmentNotification? then Delivered else Cancelled;
      OutcomesSnoc(st.completed, Consumer.Closed(rid, st.pending[rid].(status := status)), k.rid);
    }
  }

  lemma OnOtherOne(k: Case, me: int, st: Consumer.State, m: Message, tick: int)
    requires !m.payload.OrderAccepted? && !m.payload.ShipmentNotification? && !m.payload.CancelConfirmed?
    ensures MessageSeen(k, me, st, m, tick)
  {
    var ev := Consumer.OnMessage(me, st, m, tick).1;
    if ev != [] {
      assert ev == [ev[0]];
      OneEvent(k, ev[0]);
    }
  }

  lemma OnOneMessage(k: Case, me: int, st: Consumer.State, m: Message, tick: int)
    ensures MessageSeen(k, me, st, m, tick)
  {
    hide MessageSeen;
    match m.payload
    case OrderAccepted(_, _, _) => OnAcceptedOne(k, me, st, m, tick);
    case ShipmentNotification(rid, _, _) => OnClosingOne(k, me, st, m, tick, rid);
    case CancelConfirmed(rid) => OnClosingOne(k, me, st, m, tick, rid);
    case _ => OnOtherOne(k, me, st, m, tick);
  }

  lemma {:induction false} OnMail(k: Case, me: int, st: Consumer.State, mail: seq<Message>, tick: int)
    ensures var (st1, ev) := Consumer.Mail(me, st, mail, tick);
            var (v, out) := ConsumerFold(me, ViewC(st, k.rid), Filter(ToConsumer(k), mail), tick);
            ViewC(st1, k.rid) == v && Filter(ToSeller(k), Msgs(ev)) == out
    decreases |mail|
  {
    hide Consumer.OnMessage, ConsumerReact, ViewC;
    if mail != [] {
      var (st1, ev1) := Consumer.OnMessage(me, st, mail[0], tick);
      var (st2, ev2) := Consumer.Mail(me, st1, mail[1..], tick);
      OnOneMessage(k, me, st, mail[0], tick);
      OnMail(k, me, st1, mail[1..], tick);
      MsgsAppend(ev1, ev2);
      FilterAppend(ToSeller(k), Msgs(ev1), Msgs(ev2));
      if ToConsumer(k)(mail[0]) {
        assert Filter(ToConsumer(k), mail)[1..] == Filter(ToConsumer(k), mail[1..]);
      }
    }
  }

  /** The order's deal decides whether a consumer may ask to cancel it, and whom it asks. */
  ghost predicate ProperCancels(k: Case, me: int, v: ConsumerView, ms: seq<Message>) {
    if v.deal.None? then ms == [] else Cancels(k, me, v.deal.value.seller, ms)
  }

  lemma OnCancel(k: Case, me: int, st: Consumer.State, rid: OrderId, tick: int)
    ensures var (st1, ev) := Consumer.Cancel(me, st, rid, tick);
            ViewC(st1, k.rid) == ViewC(st, k.rid)
            && ProperCancels(k, me, ViewC(st, k.rid), Filter(ToSeller(k), Msgs(ev)))
  {
    var (st1, ev) := Consumer.Cancel(me, st, rid, tick);
    if ev != [] {
      assert ev == [ev[0]];
      OneEvent(k, ev[0]);
    }
  }

  lemma {:induction false} OnRows(k: Case, me: int, st: Consumer.State, rows: seq<HistoryRow>, tick: int, item: int,
          row: int)
    ensures var (st1, ev) := Consumer.CancelRows(k.cfg, me, st, rows, tick, item, row);
            ViewC(st1, k.rid) == ViewC(st, k.rid)
            && ProperCancels(k, me, ViewC(st, k.rid), Filter(ToSeller(k), Msgs(ev)))
    decreases |rows|
  {
    hide Consumer.Cancel, ViewC;
    if rows != [] {
      var chosen := rows[0].late && rows[0].requested && k.cfg.cancels(me, tick, item, row);
      var (st1, ev1) := if chosen then Consumer.Cancel(me, st, rows[0].rid, tick) else (st, []);
      var (st2, ev2) := Consumer.CancelRows(k.cfg, me, st1, rows[1..], tick, item, row + 1);
      OnCancel(k, me, st, rows[0].rid, tick);
      OnRows(k, me, st1, rows[1..], tick, item, row + 1);
      MsgsAppend(ev1, ev2);
      FilterAppend(ToSeller(k), Msgs(ev1), Msgs(ev2));
    }
  }

  /** The draw that creates the order happens at one item of one tick of one agent. */
  predicate Creates(k: Case, me: int, tick: int, item: int) {
    OrderId(me, tick, item) == k.rid
  }

  lemma OnQuietReply(k: Case, me: int, st: Consumer.State, reply: Reply, tick: int, item: int)
    requires !Creates(k, me, tick, item)
    ensures var (st1, ev) := Consumer.OnReply(k.cfg, me, st, reply, tick, item);
            ViewC(st1, k.rid) == ViewC(st, k.rid)
            && ProperCancels(k, me, ViewC(st, k.rid), Filter(ToSeller(k), Msgs(ev)))
  {
    var (st1, ev) := Consumer.OnReply(k.cfg, me, st, reply, tick, item);
    if reply.id in st.queries {
      var popped := st.(queries := st.queries - {reply.id});
      match st.queries[reply.id].topic
      case ProductDetails(_, _) =>
        if ev != [] {
          assert ev == [ev[0]];
          OneEvent(k, ev[0]);
        }
      case OrderHistory => OnRows(k, me, popped, Consumer.HistoryRows(reply.data), tick, item, 0);
      case _ =>
    }
  }

  predicate QuietFrom(k: Case, me: int, tick: int, item: int) {
    me != k.rid.consumer || tick != k.rid.tick || item > k.rid.item
  }

  lemma {:induction false} OnQuietReplies(k: Case, me: int, st: Consumer.State, replies: seq<Reply>, tick: int,
          item: int)
    requires QuietFrom(k, me, tick, item)
    ensures var (st1, ev) := Consumer.Replies(k.cfg, me, st, replies, tick, item);
            ViewC(st1, k.rid) == ViewC(st, k.rid)
            && ProperCancels(k, me, ViewC(st, k.rid), Filter(ToSeller(k), Msgs(ev)))
    decreases |replies|
  {
    hide Consumer.OnReply, ViewC;
    if replies != [] {
      var (st1, ev1) := Consumer.OnReply(k.cfg, me, st, replies[0], tick, item);
      var (st2, ev2) := Consumer.Replies(k.cfg, me, st1, replies[1..], tick, item + 1);
      OnQuietReply(k, me, st, replies[0], tick, item);
      OnQuietReplies(k, me, st1, replies[1..], tick, item + 1);
      MsgsAppend(ev1, ev2);
      FilterAppend(ToSeller(k), Msgs(ev1), Msgs(ev2));
    }
  }

  /** A placement followed by requests to cancel it within the same tick. */
  ghost predicate Opening(k: Case, me: int, deal: Deal, tick: int, out: seq<Message>) {
    && |out| > 0
    && out[0] == Message(me, deal.seller, tick, PlaceOrder(k.rid, deal.sku, deal.qty, deal.price))
    && Cancels(k, me, deal.seller, out[1..])
  }

  /** From no record of the order: either it is placed, or still nothing is known of it. */
  ghost predicate MayOpen(k: Case, me: int, v: ConsumerView, v1: ConsumerView, tick: int, out: seq<Message>) {
    && v1.done == v.done
    && if v1.deal.None? then out == [] else Opening(k, me, v1.deal.value, tick, out)
  }

  lemma OnOpeningReply(k: Case, me: int, st: Consumer.State, reply: Reply, tick: int, item: int)
    requires k.rid !in st.pending
    ensures var (st1, ev) := Consumer.OnReply(k.cfg, me, st, reply, tick, item);
            MayOpen(k, me, ViewC(st, k.rid), ViewC(st1, k.rid), tick, Filter(ToSeller(k), Msgs(ev)))
  {
    if !Creates(k, me, tick, item) {
      OnQuietReply(k, me, st, reply, tick, item);
    } else {
      var (st1, ev) := Consumer.OnReply(k.cfg, me, st, reply, tick, item);
      if reply.id in st.queries {
        var popped := st.(queries := st.queries - {reply.id});
        match st.queries[reply.id].topic
        case ProductDetails(_, _) =>
          if ev != [] {
            assert ev == [ev[0]];
            OneEvent(k, ev[0]);
          }
        case OrderHistory => OnRows(k, me, popped, Consumer.HistoryRows(reply.data), tick, item, 0);
        case _ =>
      }
    }
  }

  /** The claim of OnOpeningReplies. */
  ghost predicate OpenedBy(k: Case, me: int, st: Consumer.State, st1: Consumer.State, ev: seq<Event>, tick: int) {
    MayOpen(k, me, ViewC(st, k.rid), ViewC(st1, k.rid), tick, Filter(ToSeller(k), Msgs(ev)))
  }

  lemma OpenThenOpen(k: Case, me: int, st: Consumer.State, st1: Consumer.State, st2: Consumer.State,
                     ev1: seq<Event>, ev2: seq<Event>, tick: int)
    requires k.rid !in st1.pending && OpenedBy(k, me, st, st1, ev1, tick) && OpenedBy(k, me, st1, st2, ev2, tick)
    ensures OpenedBy(k, me, st, st2, ev1 + ev2, tick)
  {
    hide Filter, Msgs, Outcomes;
    MsgsAppend(ev1, ev2);
    FilterAppend(ToSeller(k), Msgs(ev1), Msgs(ev2));
    assert [] + Filter(ToSeller(k), Msgs(ev2)) == Filter(ToSeller(k), Msgs(ev2));
  }

  lemma OpenThenQuiet(k: Case, me: int, st: Consumer.State, st1: Consumer.State, st2: Consumer.State,
                      ev1: seq<Event>, ev2: seq<Event>, tick: int)
    requires k.rid in st1.pending && OpenedBy(k, me, st, st1, ev1, tick)
    requires ViewC(st2, k.rid) == ViewC(st1, k.rid) && ProperCancels(k, me, ViewC(st1, k.rid), Filter(ToSeller(k), Msgs(ev2)))
    ensures OpenedBy(k, me, st, st2, ev1 + ev2, tick)
  {
    hide Filter, Msgs, Outcomes, MayOpen, ProperCancels;
    MsgsAppend(ev1, ev2);
    FilterAppend(ToSeller(k), Msgs(ev1), Msgs(ev2));
    OpeningGoesOn(k, me, ViewC(st, k.rid), ViewC(st1, k.rid), tick,
                  Filter(ToSeller(k), Msgs(ev1)), Filter(ToSeller(k), Msgs(ev2)));
  }

  lemma OpeningGoesOn(k: Case, me: int, v: ConsumerView, v1: ConsumerView, tick: int, out1: seq<Message>,
          out2: seq<Message>)
    requires v1.deal.Some? && MayOpen(k, me, v, v1, tick, out1) && ProperCancels(k, me, v1, out2)
    ensures MayOpen(k, me, v, v1, tick, out1 + out2)
  {
    assert (out1 + out2)[1..] == out1[1..] + out2;
  }

  lemma {:induction false} OnOpeningReplies(k: Case, me: int, st: Consumer.State, replies: seq<Reply>, tick: int,
          item: int)
    requires k.rid !in st.pending
    ensures var (st1, ev) := Consumer.Replies(k.cfg, me, st, replies, tick, item);
            OpenedBy(k, me, st, st1, ev, tick)
    decreases |replies|
  {
    hide Consumer.OnReply;
    if replies != [] {
      hide OpenedBy;
      var (st1, ev1) := Consumer.OnReply(k.cfg, me, st, replies[0], tick, item);
      var (st2, ev2) := Consumer.Replies(k.cfg, me, st1, replies[1..], tick, item + 1);
      assert OpenedBy(k, me, st, st1, ev1, tick) by { OneOpens(k, me, st, replies[0], tick, item); }
      if k.rid !in st1.pending {
        OnOpeningReplies(k, me, st1, replies[1..], tick, item + 1);
        OpenThenOpen(k, me, st, st1, st2, ev1, ev2, tick);
      } else {
        if !Creates(k, me, tick, item) {
          OnQuietReply(k, me, st, replies[0], tick, item);
        }
        OnQuietReplies(k, me, st1, replies[1..], tick, item + 1);
        OpenThenQuiet(k, me, st, st1, st2, ev1, ev2, tick);
      }
    }
  }

  lemma OneOpens(k: Case, me: int, st: Consumer.State, reply: Reply, tick: int, item: int)
    requires k.rid !in st.pending
    ensures var (st1, ev) := Consumer.OnReply(k.cfg, me, st, reply, tick, item);
            OpenedBy(k, me, st, st1, ev, tick)
  {
    hide Consumer.OnReply;
    OnOpeningReply(k, me, st, reply, tick, item);
  }

  lemma {:induction false} OnViews(cfg: Config, me: int, st: Consumer.State, shown: seq<Shown>, tick: int, item: int)
    ensures var (st1, ev) := Consumer.Views(cfg, me, st, shown, tick, item);
            st1.pending == st.pending && st1.completed == st.completed && Msgs(ev) == []
    decreases |shown|
  {
    hide Consumer.Looks;
    if shown != [] {
      var (st1, ev1) := if Consumer.Looks(cfg, me, shown[0], tick, item)
                        then Consumer.Ask(me, st, ProductDetails(shown[0].sku, shown[0].category), tick, item) else (st, []);
      var (st2, ev2) := Consumer.Views(cfg, me, st1, shown[1..], tick, item + 1);
      OnViews(cfg, me, st1, shown[1..], tick, item + 1);
      if ev1 != [] {
        MsgsOne(ev1[0]);
        assert ev1 == [ev1[0]];
      }
      MsgsAppend(ev1, ev2);
    }
  }

  lemma OnScheduled(k: Case, me: int, st: Consumer.State, tick: int, item: int)
    ensures var (st1, ev) := Consumer.Scheduled(k.cfg, me, st, tick, item);
            ViewC(st1, k.rid) == ViewC(st, k.rid) && Msgs(ev) == []
  {
    var (st1, ev1) := if Due(k.cfg, me, HistoryCheck, tick) then Consumer.Ask(me, st, OrderHistory, tick, item) else (st, []);
    var (st2, ev2) := Consumer.Views(k.cfg, me, st1, Consumer.Browsed(k.cfg, me, tick), tick, item + 1);
    OnViews(k.cfg, me, st1, Consumer.Browsed(k.cfg, me, tick), tick, item + 1);
    MsgsAppend(ev1, ev2);
    if ev1 != [] {
      MsgsOne(ev1[0]);
      assert ev1 == [ev1[0]];
    }
  }

  /** The three parts of a consumer's step, and how their effects on the order add up. */
  lemma StepParts(k: Case, me: int, st: Consumer.State, replies: seq<Reply>, mail: seq<Message>, tick: int)
    returns (st1: Consumer.State, out1: seq<Message>)
    ensures st1 == Consumer.Replies(k.cfg, me, st, replies, tick, 0).0
    ensures out1 == Filter(ToSeller(k), Msgs(Consumer.Replies(k.cfg, me, st, replies, tick, 0).1))
    ensures var (st3, ev) := Consumer.Step(k.cfg, me, st, replies, mail, tick);
            var (v, out2) := ConsumerFold(me, ViewC(st1, k.rid), Filter(ToConsumer(k), mail), tick);
            ViewC(st3, k.rid) == v && Filter(ToSeller(k), Msgs(ev)) == out1 + out2
  {
    hide Consumer.Replies, Consumer.Mail, Consumer.Scheduled, ConsumerFold, Expire;
    var (s1, ev1) := Consumer.Replies(k.cfg, me, st, replies, tick, 0);
    var (s2, ev2) := Consumer.Mail(me, s1, mail, tick);
    var s2' := s2.(queries := Expire(s2.queries, tick));
    var (s3, ev3) := Consumer.Scheduled(k.cfg, me, s2', tick, |replies| + |mail|);
    OnMail(k, me, s1, mail, tick);
    OnScheduled(k, me, s2', tick, |replies| + |mail|);
    MsgsAppend(ev1 + ev2, ev3);
    MsgsAppend(ev1, ev2);
    FilterAppend(ToSeller(k), Msgs(ev1), Msgs(ev2));
    assert Msgs(ev1 + ev2 + ev3) == Msgs(ev1) + Msgs(ev2);
    st1, out1 := s1, Filter(ToSeller(k), Msgs(ev1));
  }

  /** A consumer's step at a tick that does not create the order: cancel requests first, then the reactions to mail. */
  lemma OnStep(k: Case, me: int, st: Consumer.State, replies: seq<Reply>, mail: seq<Message>, tick: int)
    returns (cancels: seq<Message>)
    requires QuietFrom(k, me, tick, 0)
    ensures ProperCancels(k, me, ViewC(st, k.rid), cancels)
    ensures var (st1, ev) := Consumer.Step(k.cfg, me, st, replies, mail, tick);
            var (v, out) := ConsumerFold(me, ViewC(st, k.rid), Filter(ToConsumer(k), mail), tick);
            ViewC(st1, k.rid) == v && Filter(ToSeller(k), Msgs(ev)) == cancels + out
  {
    var st1, out1 := StepParts(k, me, st, replies, mail, tick);
    OnQuietReplies(k, me, st, replies, tick, 0);
    cancels := out1;
  }

  /** A consumer's step at a tick that may create the order. */
  lemma OnOpeningStep(k: Case, me: int, st: Consumer.State, replies: seq<Reply>, mail: seq<Message>, tick: int)
    requires k.rid !in st.pending && Filter(ToConsumer(k), mail) == []
    ensures var (st1, ev) := Consumer.Step(k.cfg, me, st, replies, mail, tick);
            MayOpen(k, me, ViewC(st, k.rid), ViewC(st1, k.rid), tick, Filter(ToSeller(k), Msgs(ev)))
  {
    var st1, out1 := StepParts(k, me, st, replies, mail, tick);
    OnOpeningReplies(k, me, st, replies, tick, 0);
  }
}
