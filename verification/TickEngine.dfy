/**
 * The tick engine as an object: its step updates the agents, their inboxes and the log in place. The
 * agents' own code is the `behave` of the machine.
 */
module TickEngine {
  import opened Seqs
  import opened Messages
  import opened Engine
  import opened EngineRules

  lemma {:induction false} CatSnoc<T>(g: int -> seq<T>, ids: seq<int>, a: int)
    ensures Cat(g, ids + [a]) == Cat(g, ids) + g(a)
  {
    CatAppend(g, ids, [a]);
    assert [a][1..] == [];
  }

  lemma NoRepeats(ids: seq<int>)
    requires Ascending(ids)
    ensures Distinct(ids)
  {
  }

  lemma CatNothing<T>(g: int -> seq<T>)
    ensures Cat(g, []) == []
  {
  }

  lemma CatTake<T>(g: int -> seq<T>, ids: seq<int>, n: nat)
    requires n < |ids|
    ensures Cat(g, ids[..n + 1]) == Cat(g, ids[..n]) + g(ids[n]) && ids[n] in ids
  {
    assert ids[..n + 1] == ids[..n] + [ids[n]];
    CatSnoc(g, ids[..n], ids[n]);
  }

  lemma AllListed(ids: seq<int>, keys: set<int>, done: set<int>)
    requires (forall a :: a in ids <==> a in keys) && forall i :: 0 <= i < |ids| ==> ids[i] in done
    ensures keys <= done
  {
    forall a | a in keys ensures a in done {
      assert a in ids;
      var i :| 0 <= i < |ids| && ids[i] == a;
    }
  }

  lemma EventsTake(events: seq<Event>, n: nat)
    requires n < |events|
    ensures Msgs(events[..n + 1]) == Msgs(events[..n]) + events[n].messages
    ensures Reqs(events[..n + 1]) == Reqs(events[..n]) + events[n].queries
  {
    assert events[..n + 1] == events[..n] + [events[n]];
    MsgsAppend(events[..n], [events[n]]);
    MsgsOne(events[n]);
  }

  /** One message more to route, seen from agent a. */
  lemma OneMoreMessage(ms: seq<Message>, m: Message, a: int)
    ensures Wrap(Filter(ToAgent(a), ms + [m])) == Wrap(Filter(ToAgent(a), ms)) + if m.to == a then [Msg(m)] else []
  {
    FilterSnoc(ToAgent(a), ms, m);
  }

  /** One request more to answer, seen from agent a. */
  lemma OneMoreReply(answer: Request -> Reply, reqs: seq<Request>, q: Request, a: int)
    ensures WrapReplies(Filter(ForAgent(a), Answers(answer, reqs + [q])))
         == WrapReplies(Filter(ForAgent(a), Answers(answer, reqs))) + if answer(q).agent == a then [Res(answer(q))] else []
  {
    AnswersAppend(answer, reqs, [q]);
    assert [q][1..] == [];
    assert Answers(answer, [q]) == [answer(q)];
    FilterSnoc(ForAgent(a), Answers(answer, reqs), answer(q));
  }

  /** Part of the agents have stepped: those have a new state and an empty inbox, the others are as before. */
  ghost predicate Halfway<S(!new)>(m: Machine<S>, w: World<S>, done: set<int>, agents: map<int, S>, inbox: map<int,
          seq<Item>>) {
    && agents.Keys == w.agents.Keys && inbox.Keys == agents.Keys
    && forall a :: a in w.agents ==>
         if a in done then agents[a] == Turn(m, w, a).0 && inbox[a] == []
         else agents[a] == w.agents[a] && inbox[a] == Prepared(m, w, a)
  }

  lemma NoneStepped<S(!new)>(m: Machine<S>, w: World<S>, agents: map<int, S>, inbox: map<int, seq<Item>>)
    requires agents == w.agents && inbox.Keys == agents.Keys && forall a :: a in agents ==> inbox[a] == Prepared(m, w, a)
    ensures Halfway(m, w, {}, agents, inbox)
  {
  }

  lemma HalfwayOn<S(!new)>(m: Machine<S>, w: World<S>, done: set<int>, agents: map<int, S>, inbox: map<int,
          seq<Item>>, a: int)
    requires Halfway(m, w, done, agents, inbox) && a in w.agents && a !in done
    ensures Halfway(m, w, done + {a}, agents[a := Turn(m, w, a).0], inbox[a := []])
    ensures a in agents && a in inbox && agents[a] == w.agents[a] && inbox[a] == Prepared(m, w, a)
  {
    hide Turn, Prepared;
  }

  lemma AllStepped<S(!new)>(m: Machine<S>, w: World<S>, done: set<int>, agents: map<int, S>, inbox: map<int, seq<Item>>)
    requires Halfway(m, w, done, agents, inbox) && w.agents.Keys <= done
    ensures agents == (map a | a in w.agents :: Turn(m, w, a).0)
    ensures inbox.Keys == agents.Keys && forall a :: a in agents ==> inbox[a] == []
  {
    hide Turn, Prepared;
    forall a | a in w.agents ensures agents[a] == Turn(m, w, a).0 && inbox[a] == [] {
      assert a in w.agents.Keys;
    }
  }

  lemma NoReplies(answer: Request -> Reply)
    ensures forall a :: WrapReplies(Filter(ForAgent(a), Answers(answer, []))) == []
  {
  }

  lemma NoMessages()
    ensures forall a :: Wrap(Filter(ToAgent(a), [])) == []
  {
  }

  class TickEngine<S(!new)> {
    const machine: Machine<S>
    var currentTick: nat
    var agents: map<int, S>
    var inbox: map<int, seq<Item>>
    var actionLog: seq<Event>
    var requests: seq<Request>

    /** The object stands for the world w. */
    ghost predicate Shows(w: World<S>)
      reads this
    {
      && currentTick == w.tick && agents == w.agents && actionLog == w.log && requests == w.queued
      && inbox.Keys == agents.Keys && forall a :: a in agents ==> inbox[a] == Inbox(w, a)
    }

    /** `__init__` */
    constructor (agents: map<int, S>, machine: Machine<S>)
      ensures this.machine == machine && Shows(World(0, agents, [], [], [], []))
    {
      this.machine, this.agents := machine, agents;
      currentTick, actionLog, requests := 0, [], [];
      inbox := map a | a in agents :: [];
      new;
      forall a | a in agents ensures inbox[a] == Inbox(World(0, agents, [], [], [], []), a) {
        SplitInbox(World(0, agents, [], [], [], []), a);
      }
    }

    /** `register_query` */
    method RegisterQuery(request: Request)
      modifies this`requests
      ensures requests == old(requests) + [request]
    {
      requests := requests + [request];
    }

    /** `_prepare_agent_inboxes` */
    method PrepareInboxes()
      requires inbox.Keys == agents.Keys
      modifies this`inbox
      ensures inbox.Keys == agents.Keys && forall a :: a in agents ==> inbox[a] == Arrange(machine.rank, old(inbox[a]))
      ensures forall a :: a in agents ==> PutInOrder(machine.rank, old(inbox[a]), inbox[a])
    {
      hide Arrange, PutInOrder;
      var waiting := agents.Keys;
      while waiting != {}
        invariant waiting <= agents.Keys && inbox.Keys == agents.Keys
        invariant forall a :: a in agents ==>
                    inbox[a] == if a in waiting then old(inbox[a]) else Arrange(machine.rank, old(inbox[a]))
        decreases |waiting|
      {
        ghost var some := Pick(waiting);
        var a :| a in waiting;
        inbox := inbox[a := Arrange(machine.rank, inbox[a])];
        waiting := waiting - {a};
      }
      forall a | a in agents ensures PutInOrder(machine.rank, old(inbox[a]), inbox[a]) {
        Arranges(machine.rank, old(inbox[a]));
      }
    }

    /** The first loop of `_emit_and_route`: all queries of the tick are registered. */
    method RegisterAll(actions: seq<Event>)
      modifies this`requests
      ensures requests == old(requests) + Reqs(actions)
    {
      for n := 0 to |actions|
        invariant requests == old(requests) + Reqs(actions[..n])
      {
        hide Reqs, Msgs;
        var queries := actions[n].queries;
        EventsTake(actions, n);
        for i := 0 to |queries|
          invariant requests == old(requests) + Reqs(actions[..n]) + queries[..i]
        {
          RegisterQuery(queries[i]);
        }
        assert queries[..|queries|] == queries;
      }
      assert actions[..|actions|] == actions;
    }

    method CollectMessages(actions: seq<Event>) returns (messages: seq<Message>)
      ensures messages == Msgs(actions)
    {
      messages := [];
      for n := 0 to |actions|
        invariant messages == Msgs(actions[..n])
      {
        EventsTake(actions, n);
        messages := messages + actions[n].messages;
      }
      assert actions[..|actions|] == actions;
    }

    /** Each message goes to the inbox of its addressee, if there is one. */
    method Route(messages: seq<Message>)
      requires inbox.Keys == agents.Keys
      modifies this`inbox
      ensures inbox.Keys == agents.Keys
      ensures forall a :: a in agents ==> inbox[a] == old(inbox[a]) + Wrap(Filter(ToAgent(a), messages))
    {
      hide Wrap, Filter;
      NoMessages();
      for n := 0 to |messages|
        invariant inbox.Keys == agents.Keys
        invariant forall a :: a in agents ==> inbox[a] == old(inbox[a]) + Wrap(Filter(ToAgent(a), messages[..n]))
      {
        var m := messages[n];
        assert messages[..n + 1] == messages[..n] + [m];
        forall a ensures Wrap(Filter(ToAgent(a), messages[..n + 1]))
                      == Wrap(Filter(ToAgent(a), messages[..n])) + if m.to == a then [Msg(m)] else []
        {
          OneMoreMessage(messages[..n], m, a);
        }
        if m.to in agents {
          inbox := inbox[m.to := inbox[m.to] + [Msg(m)]];
        }
      }
      assert messages[..|messages|] == messages;
    }

    /** Each registered query is answered, and the result goes to the inbox of its agent. */
    method AnswerQueries()
      requires inbox.Keys == agents.Keys
      modifies this`inbox
      ensures inbox.Keys == agents.Keys
      ensures forall a :: a in agents ==>
                inbox[a] == old(inbox[a]) + WrapReplies(Filter(ForAgent(a), Answers(machine.answer, requests)))
    {
      hide Answers, Filter, WrapReplies;
      NoReplies(machine.answer);
      for n := 0 to |requests|
        invariant inbox.Keys == agents.Keys
        invariant forall a :: a in agents ==>
                    inbox[a] == old(inbox[a]) + WrapReplies(Filter(ForAgent(a), Answers(machine.answer, requests[..n])))
      {
        var result := machine.answer(requests[n]);
        assert requests[..n + 1] == requests[..n] + [requests[n]];
        forall a ensures WrapReplies(Filter(ForAgent(a), Answers(machine.answer, requests[..n + 1])))
                      == WrapReplies(Filter(ForAgent(a), Answers(machine.answer, requests[..n])))
                         + if result.agent == a then [Res(result)] else []
        {
          OneMoreReply(machine.answer, requests[..n], requests[n], a);
        }
        if result.agent in agents {
          inbox := inbox[result.agent := inbox[result.agent] + [Res(result)]];
        }
      }
      assert requests[..|requests|] == requests;
    }

    /** `_emit_and_route` */
    method EmitAndRoute(actions: seq<Event>)
      requires inbox.Keys == agents.Keys && forall a :: a in agents ==> inbox[a] == []
      modifies this`actionLog, this`requests, this`inbox
      ensures actionLog == old(actionLog) + actions && inbox.Keys == agents.Keys
      ensures forall a :: a in agents ==>
                inbox[a] == Wrap(Filter(ToAgent(a), Sort(MailKey, Msgs(actions))))
                            + WrapReplies(Filter(ForAgent(a), Answers(machine.answer, old(requests) + Reqs(actions))))
    {
      hide Filter, Sort, Wrap, WrapReplies, Reqs, Msgs, Answers;
      actionLog := actionLog + actions;
      RegisterAll(actions);
      var messages := CollectMessages(actions);
      messages := Sort(MailKey, messages);
      Route(messages);
      AnswerQueries();
    }

    /** One agent empties its inbox and acts. */
    method StepAgent(aid: int, ghost w: World<S>) returns (events: seq<Event>)
      requires aid in agents && aid in w.agents && aid in inbox && currentTick == w.tick + 1
      requires agents[aid] == w.agents[aid] && inbox[aid] == Prepared(machine, w, aid)
      modifies this`agents, this`inbox
      ensures agents == old(agents)[aid := Turn(machine, w, aid).0] && inbox == old(inbox)[aid := []]
      ensures events == Block(machine, w)(aid)
    {
      hide Prepared;
      var (st, emitted) := machine.behave(aid, agents[aid], inbox[aid], currentTick);
      agents, inbox := agents[aid := st], inbox[aid := []];
      events := emitted;
    }

    /** The agents' loop of `step`, in ascending order of their ids. */
    method StepAgents(ghost w: World<S>) returns (actions: seq<Event>)
      requires agents == w.agents && currentTick == w.tick + 1 && inbox.Keys == agents.Keys
      requires forall a :: a in agents ==> inbox[a] == Prepared(machine, w, a)
      modifies this`agents, this`inbox
      ensures actions == Cat(Block(machine, w), SortedIds(w.agents.Keys))
      ensures agents == (map a | a in w.agents :: Turn(machine, w, a).0)
      ensures inbox.Keys == agents.Keys && forall a :: a in agents ==> inbox[a] == []
    {
      hide Prepared, Turn, Block, Halfway, Cat, Ascending;
      assert Cat(Block(machine, w), []) == [] by { CatNothing(Block(machine, w)); }
      var ids := SortedIds(agents.Keys);
      NoRepeats(ids);
      ghost var done: set<int> := {};
      NoneStepped(machine, w, agents, inbox);
      actions := [];
      for n := 0 to |ids|
        invariant Halfway(machine, w, done, agents, inbox)
        invariant actions == Cat(Block(machine, w), ids[..n])
        invariant forall i :: 0 <= i < |ids| ==> (ids[i] in done <==> i < n)
      {
        var aid := ids[n];
        CatTake(Block(machine, w), ids, n);
        HalfwayOn(machine, w, done, agents, inbox, aid);
        var events := StepAgent(aid, w);
        done := done + {aid};
        actions := actions + events;
      }
      assert ids[..|ids|] == ids;
      AllListed(ids, w.agents.Keys, done);
      AllStepped(machine, w, done, agents, inbox);
    }

    /** `step`: the object goes from one world to the next. */
    method Step(ghost w: World<S>)
      requires Shows(w)
      modifies this
      ensures Shows(Engine.Step(machine, w))
    {
      currentTick := currentTick + 1;
      PrepareInboxes();
      var actions := StepAgents(w);
      EmitAndRoute(actions);
      requests := [];
    }

    /** Any number of steps from an initial state follow the run. */
    method RunFor(ticks: nat, ghost w: World<S>)
      requires Shows(w)
      modifies this
      ensures Shows(Run(machine, w, ticks))
    {
      for t := 0 to ticks
        invariant Shows(Run(machine, w, t))
      {
        Step(Run(machine, w, t));
      }
    }
  }
}
