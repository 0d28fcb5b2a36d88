/** What every agent has: an inbox, pending queries and a schedule, all updated in place. */
module BaseAgent {
  import opened Seqs
  import opened Messages
  import opened Settings
  import opened Engine
  import opened EngineRules

  // -------------------------------------------------------------- the schedule in closed form

  /** What `_last_fired` holds after the given tick: the last firing so far, or the initial value. */
  function LastFiring(timer: Timer, tick: int): int {
    if tick < FirstFiring(timer) then -timer.cycle
    else tick - (tick - FirstFiring(timer)) % Period(timer)
  }

  lemma ModStep(x: int, p: int)
    requires p >= 1
    ensures (x + 1) % p == if x % p == p - 1 then 0 else x % p + 1
  {
    var q, r := x / p, x % p;
    assert x == q * p + r;
    if r == p - 1 {
      assert x + 1 == (q + 1) * p;
      ModOf(q + 1, 0, p);
    } else {
      ModOf(q, r + 1, p);
    }
  }

  lemma ModOf(q: int, r: int, p: int)
    requires p >= 1 && 0 <= r < p
    ensures (q * p + r) % p == r
  {
    var x := q * p + r;
    var d := x / p - q;
    assert x == (x / p) * p + x % p;
    assert d * p == r - x % p;
    assert d >= 1 ==> d * p >= p;
    assert d <= -1 ==> d * p <= -p;
  }

  /** The test on `_last_fired` succeeds exactly at the ticks of the progression. */
  lemma TestIsFires(timer: Timer, tick: int)
    requires tick >= 1
    ensures LastFiring(timer, tick - 1) + timer.cycle + timer.offset <= tick <==> Fires(timer, tick)
  {
    var f, p := FirstFiring(timer), Period(timer);
    if tick - 1 >= f {
      ModStep(tick - 1 - f, p);
    } else {
      assert tick == f ==> (tick - f) % p == 0;
    }
  }

  /** `_last_fired` is set exactly when the action fires. */
  lemma NextFiring(timer: Timer, tick: int)
    requires tick >= 1
    ensures LastFiring(timer, tick) == if Fires(timer, tick) then tick else LastFiring(timer, tick - 1)
  {
    var f, p := FirstFiring(timer), Period(timer);
    if tick - 1 >= f {
      ModStep(tick - 1 - f, p);
    } else if tick == f {
      assert (tick - f) % p == 0;
    }
  }

  /** The firings of an action are the arithmetic progression from its first firing on. */
  lemma FiresAt(timer: Timer, tick: int)
    ensures Fires(timer, tick) <==> exists m: nat :: tick == FirstFiring(timer) + m * Period(timer)
  {
    var f, p := FirstFiring(timer), Period(timer);
    if Fires(timer, tick) {
      var m: nat := (tick - f) / p;
      assert tick == f + m * p;
    }
    if exists m: nat :: tick == f + m * p {
      var m: nat :| tick == f + m * p;
      ModOf(m, 0, p);
      assert m * p >= 0;
    }
  }

  lemma FiresSpelledOut(timer: Timer, tick: int)
    ensures Fires(timer, tick) <==> FiresOn(timer, tick)
  {
    hide Fires;
    FiresAt(timer, tick);
    if Fires(timer, tick) {
      var m: nat :| tick == FirstFiring(timer) + m * Period(timer);
      assert IsFiring(timer, tick, m);
    }
    if FiresOn(timer, tick) {
      var m: nat :| IsFiring(timer, tick, m);
      assert tick == FirstFiring(timer) + m * Period(timer);
    }
  }

  /** Keeping the actions that fire now yields the due ones. */
  lemma FiringAreDue(actions: seq<Action>, timers: map<Action, Timer>, tick: int)
    ensures AreDue(actions, timers, tick, Filter(FiresNow(timers, tick), actions))
  {
    hide Fires, FiresOn;
    var due := Filter(FiresNow(timers, tick), actions);
    var at := Kept(FiresNow(timers, tick), actions);
    forall i | 0 <= i < |actions| ensures i in at <==> actions[i] in timers && FiresOn(timers[actions[i]], tick) {
      if actions[i] in timers {
        FiresSpelledOut(timers[actions[i]], tick);
      }
    }
    assert DueAt(actions, timers, tick, due, at);
  }

  /** The schedule loop has dealt with the first n actions of the tick. */
  ghost predicate FiredTo(actions: seq<Action>, timers: map<Action, Timer>, last: map<Action, int>, tick: int, n: nat) {
    && Distinct(actions) && (forall a :: a in actions <==> a in timers) && last.Keys == timers.Keys
    && (forall i :: 0 <= i < |actions| ==>
          actions[i] in timers && last[actions[i]] == LastFiring(timers[actions[i]], if i < n then tick else tick - 1))
  }

  lemma FiredOne(actions: seq<Action>, timers: map<Action, Timer>, last: map<Action, int>, tick: int, n: nat)
    requires tick >= 1 && n < |actions| && FiredTo(actions, timers, last, tick, n)
    ensures actions[n] in timers && actions[n] in last
    ensures var a := actions[n];
            var fires := last[a] + timers[a].cycle + timers[a].offset <= tick;
            && (fires <==> FiresNow(timers, tick)(a))
            && FiredTo(actions, timers, if fires then last[a := tick] else last, tick, n + 1)
  {
    hide LastFiring, Fires;
    var a := actions[n];
    TestIsFires(timers[a], tick);
    NextFiring(timers[a], tick);
  }

  lemma FiredAll(actions: seq<Action>, timers: map<Action, Timer>, last: map<Action, int>, tick: int)
    requires FiredTo(actions, timers, last, tick, |actions|)
    ensures forall a :: a in timers ==> last[a] == LastFiring(timers[a], tick)
  {
    hide LastFiring;
    forall a | a in timers ensures last[a] == LastFiring(timers[a], tick) {
      var i :| 0 <= i < |actions| && actions[i] == a;
    }
  }

  lemma OneModulo(p: int)
    requires p >= 1
    ensures 1 % p == 0 <==> p == 1
  {
  }

  /** An action fires at every tick if and only if neither its offset nor its period delays it. */
  lemma EveryTick(timer: Timer)
    ensures (forall t :: t >= 1 ==> Fires(timer, t)) <==> timer.offset <= 1 && timer.cycle + timer.offset <= 1
  {
    if forall t :: t >= 1 ==> Fires(timer, t) {
      assert Fires(timer, 1) && Fires(timer, 2);
      OneModulo(Period(timer));
    }
    if timer.offset <= 1 && timer.cycle + timer.offset <= 1 {
      forall t | t >= 1 ensures Fires(timer, t) {
        assert (t - 1) % 1 == 0;
      }
    }
  }

  function FiresNow(timers: map<Action, Timer>, tick: int): Action -> bool {
    (a: Action) => a in timers && Fires(timers[a], tick)
  }

  lemma FilterMembers<T>(p: T -> bool, xs: seq<T>, x: T)
    ensures x in Filter(p, xs) <==> x in xs && p(x)
  {
    if x in xs && p(x) {
      FilterComplete(p, xs, x);
    }
  }

  /** The first item of an inbox joins those of its kind that were taken before. */
  lemma FirstItem(items: seq<Item>, replies: seq<Reply>, mail: seq<Message>)
    requires items != []
    ensures replies + RepliesOf(items) == (if items[0].Res? then replies + [items[0].reply] else replies) + RepliesOf(items[1..])
    ensures mail + MessagesOf(items) == (if items[0].Msg? then mail + [items[0].message] else mail) + MessagesOf(items[1..])
  {
    hide MessagesOf, RepliesOf;
    Unfolded(items);
    Regroup(replies, ReplyIn(items[0]), RepliesOf(items[1..]));
    Regroup(mail, MessageIn(items[0]), MessagesOf(items[1..]));
    NothingAdded(replies);
    NothingAdded(mail);
  }

  lemma Unfolded(items: seq<Item>)
    requires items != []
    ensures RepliesOf(items) == ReplyIn(items[0]) + RepliesOf(items[1..])
    ensures MessagesOf(items) == MessageIn(items[0]) + MessagesOf(items[1..])
  {
  }

  // -------------------------------------------------------------- the object

  class BaseAgent {
    const me: int
    /** The scheduled actions in their order, and their cycles and jitter offsets. */
    const actions: seq<Action>
    const timers: map<Action, Timer>
    var inbox: seq<Item>
    var pending: map<QueryId, Pending>
    var lastFired: map<Action, int>
    var currentTick: int

    /** All steps up to the given tick have been taken. */
    ghost predicate OnSchedule(tick: int)
      reads this`lastFired
    {
      && Distinct(actions) && (forall a :: a in actions <==> a in timers) && lastFired.Keys == timers.Keys
      && forall a :: a in timers ==> lastFired[a] == LastFiring(timers[a], tick)
    }

    constructor (me: int, actions: seq<Action>, timers: map<Action, Timer>)
      requires Distinct(actions) && forall a :: a in actions <==> a in timers
      ensures this.me == me && this.actions == actions && this.timers == timers
      ensures inbox == [] && pending == map[] && currentTick == 0 && OnSchedule(0)
    {
      this.me, this.actions, this.timers := me, actions, timers;
      inbox, pending, currentTick := [], map[], 0;
      lastFired := map a | a in timers :: -timers[a].cycle;
    }

    /** The first half of `_drain_inbox`: the inbox is emptied and both kinds of items are sorted. */
    method Drain(rank: QueryId -> int) returns (replies: seq<Reply>, mail: seq<Message>)
      modifies this`inbox
      ensures inbox == []
      ensures replies == Sort(ReplyKey(rank), RepliesOf(old(inbox))) && mail == Sort(MailKey, MessagesOf(old(inbox)))
      ensures PutInOrder(rank, old(inbox), WrapReplies(replies) + Wrap(mail))
    {
      replies, mail := [], [];
      while inbox != []
        invariant replies + RepliesOf(inbox) == RepliesOf(old(inbox))
        invariant mail + MessagesOf(inbox) == MessagesOf(old(inbox))
        decreases |inbox|
      {
        hide MessagesOf, RepliesOf;
        var item := inbox[0];
        FirstItem(inbox, replies, mail);
        inbox := inbox[1..];
        match item
        case Res(reply) => replies := replies + [reply];
        case Msg(message) => mail := mail + [message];
      }
      assert replies == replies + [] && mail == mail + [];
      replies, mail := Sort(ReplyKey(rank), replies), Sort(MailKey, mail);
      hide PutInOrder;
      Arranges(rank, old(inbox));
    }

    /** `pending_queries.pop(query_id, None)` */
    method Pop(id: QueryId) returns (p: Option<Pending>)
      modifies this`pending
      ensures pending == old(pending) - {id}
      ensures p == if id in old(pending) then Some(old(pending)[id]) else None
    {
      if id in pending {
        p := Some(pending[id]);
        pending := pending - {id};
      } else {
        p := None;
        assert pending - {id} == pending;
      }
    }

    /** `_expire_pending_queries` */
    method ExpirePending(tick: int)
      modifies this`pending
      ensures pending == Expire(old(pending), tick)
      ensures OnlyRecent(old(pending), pending, tick) && Recent(pending, tick)
    {
      var waiting := pending.Keys;
      while waiting != {}
        invariant waiting <= pending.Keys <= old(pending).Keys
        invariant forall q :: q in old(pending) ==>
                    (q in pending <==> q in waiting || tick - old(pending)[q].issued <= QUERY_TTL)
        invariant forall q :: q in pending ==> pending[q] == old(pending)[q]
        decreases |waiting|
      {
        var q :| q in waiting;
        waiting := waiting - {q};
        if tick - pending[q].issued > QUERY_TTL {
          pending := pending - {q};
        }
      }
    }

    /** `emit_query`; the query id is the draw for the given item of the tick. */
    method EmitQuery(topic: Topic, item: int) returns (request: Request)
      modifies this`pending
      ensures request == Request(QueryId(me, currentTick, item, topic), me, currentTick)
      ensures pending == old(pending)[request.id := Pending(topic, currentTick)]
    {
      var id := QueryId(me, currentTick, item, topic);
      pending := pending[id := Pending(topic, currentTick)];
      request := Request(id, me, currentTick);
    }

    /** The schedule loop of `step`: the actions that fire are those whose progression contains the tick. */
    method DueActions(tick: int) returns (due: seq<Action>)
      requires tick >= 1 && OnSchedule(tick - 1)
      modifies this`lastFired
      ensures OnSchedule(tick) && due == Filter(FiresNow(timers, tick), actions)
      ensures AreDue(actions, timers, tick, due)
    {
      hide LastFiring, FiredTo, AreDue;
      due := [];
      FiredNone(actions, timers, lastFired, tick);
      for n := 0 to |actions|
        invariant FiredTo(actions, timers, lastFired, tick, n)
        invariant due == Filter(FiresNow(timers, tick), actions[..n])
      {
        var a := actions[n];
        FiredOne(actions, timers, lastFired, tick, n);
        FilterTake(FiresNow(timers, tick), actions, n);
        if lastFired[a] + timers[a].cycle + timers[a].offset <= tick {
          due := due + [a];
          lastFired := lastFired[a := tick];
        }
      }
      assert actions[..|actions|] == actions;
      FiredAll(actions, timers, lastFired, tick);
      assert lastFired.Keys == timers.Keys by { FiredKeys(actions, timers, lastFired, tick); }
      FiringAreDue(actions, timers, tick);
    }
  }

  lemma FiredNone(actions: seq<Action>, timers: map<Action, Timer>, last: map<Action, int>, tick: int)
    requires Distinct(actions) && (forall a :: a in actions <==> a in timers) && last.Keys == timers.Keys
    requires forall a :: a in timers ==> last[a] == LastFiring(timers[a], tick - 1)
    ensures FiredTo(actions, timers, last, tick, 0)
  {
    hide LastFiring;
    forall i | 0 <= i < |actions| ensures actions[i] in timers {
      assert actions[i] in actions;
    }
  }

  lemma FiredKeys(actions: seq<Action>, timers: map<Action, Timer>, last: map<Action, int>, tick: int)
    requires FiredTo(actions, timers, last, tick, |actions|)
    ensures last.Keys == timers.Keys
  {
  }

  /** Whether a schedule is the one that the settings give to an agent. */
  ghost predicate Scheduled(cfg: Config, base: BaseAgent) {
    forall a :: cfg.timers(base.me, a) == if a in base.timers then Some(base.timers[a]) else None
  }

  lemma DueMeans(cfg: Config, base: BaseAgent, a: Action, tick: int, due: seq<Action>)
    requires Scheduled(cfg, base) && base.OnSchedule(tick) && due == Filter(FiresNow(base.timers, tick), base.actions)
    ensures a in due <==> Due(cfg, base.me, a, tick)
  {
    FilterMembers(FiresNow(base.timers, tick), base.actions, a);
    assert cfg.timers(base.me, a) == if a in base.timers then Some(base.timers[a]) else None;
  }
}
