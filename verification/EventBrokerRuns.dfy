/** What the broker guarantees over whole runs. */
module EventBrokerRuns {
  import opened Basics
  import opened EventBroker

  /** A broker nobody has used yet. */
  ghost predicate Init(s: State)
  {
    s.topics == map[] && s.channels == [] && s.subs == map[] && s.tasks == map[] && s.history == []
  }

  lemma InitHolds(s: State)
    requires Init(s)
    ensures Inv(s)
  {
  }

  /** The state after `actions`, or `None` when one of them is not possible. */
  ghost function Run(s: State, actions: seq<Action>): (r: Option<State>)
    requires Inv(s)
    ensures r.Some? ==> Inv(r.value)
    decreases |actions|
  {
    if actions == [] then Some(s)
    else
      match Next(s, actions[0])
      case None => None
      case Some(s') =>
        NextKeeps(s, actions[0]);
        Run(s', actions[1..])
  }

  // ---- Topics are never replaced ---------------------------------------------------------

  ghost predicate SubExtends(a: Subscription, b: Subscription)
  {
    && b.topic == a.topic && b.wants == a.wants && b.chan == a.chan && b.start == a.start && b.since == a.since
    && (b.alive ==> a.alive) && (a.lagged ==> b.lagged) && a.cursor <= b.cursor && a.delivered <= b.delivered
  }

  ghost predicate TopicsStay(s: State, s': State)
  {
    forall topic :: topic in s.topics ==> topic in s'.topics && s'.topics[topic] == s.topics[topic]
  }

  ghost predicate ChannelsGrow(s: State, s': State)
  {
    && |s.channels| <= |s'.channels|
    && (forall i :: 0 <= i < |s.channels| ==> s.channels[i].log <= s'.channels[i].log)
  }

  ghost predicate SubsStay(s: State, s': State)
  {
    forall u :: u in s.subs ==> u in s'.subs && SubExtends(s.subs[u], s'.subs[u])
  }

  /** Whatever exists stays: a topic keeps its channel, channels and history only grow. */
  ghost predicate Extends(s: State, s': State)
  {
    && TopicsStay(s, s') && ChannelsGrow(s, s') && SubsStay(s, s')
    && s.history <= s'.history && s.tasks.Keys <= s'.tasks.Keys && s'.capacity == s.capacity
  }

  lemma Transitive(a: State, b: State, c: State)
    requires Extends(a, b) && Extends(b, c)
    ensures Extends(a, c)
  {
    forall i | 0 <= i < |a.channels| ensures a.channels[i].log <= c.channels[i].log {
      assert a.channels[i].log <= b.channels[i].log <= c.channels[i].log;
    }
    forall u | u in a.subs ensures u in c.subs && SubExtends(a.subs[u], c.subs[u]) {
      assert SubExtends(a.subs[u], b.subs[u]) && SubExtends(b.subs[u], c.subs[u]);
    }
  }

  lemma WithTopicExtends(s: State, topic: Topic)
    ensures Extends(s, WithTopic(s, topic))
  {
  }

  lemma SendExtends(s: State, t: TaskId, topic: Topic, e: Event, pc: Pc)
    requires topic in s.topics && s.topics[topic] < |s.channels|
    ensures Extends(s, Move(Send(s, t, topic, e), t, pc))
  {
  }

  lemma SubscribeExtends(s: State, t: TaskId, topic: Topic, wants: string -> bool)
    requires topic in s.topics && s.topics[topic] < |s.channels| && t !in s.subs
    ensures Extends(s, Subscribe(s, t, topic, wants))
  {
  }

  lemma PollExtends(s: State, u: TaskId)
    requires Inv(s) && u in s.subs && Poll(s, u).Some?
    ensures Extends(s, Poll(s, u).value)
  {
    assert SubOk(s, u);
  }

  lemma TaskExtends(s: State, t: TaskId)
    requires Inv(s) && t in s.tasks && StepOf(s, t).Some?
    ensures Extends(s, StepOf(s, t).value)
  {
    assert TaskOk(s, t);
    match s.tasks[t]
    case Publishing(e, order, k) =>
      if order[k] in s.topics { SendExtends(s, t, order[k], e, Publishing(e, order, k + 1)); }
    case CreatingToPublish(e, order, k) =>
      var s1 := WithTopic(s, order[k]);
      WithTopicExtends(s, order[k]);
      SendExtends(s1, t, order[k], e, Publishing(e, order, k + 1));
      Transitive(s, s1, StepOf(s, t).value);
    case Subscribing(topic, wants) =>
      if topic in s.topics { SubscribeExtends(s, t, topic, wants); }
    case CreatingToSubscribe(topic, wants) =>
      var s1 := WithTopic(s, topic);
      WithTopicExtends(s, topic);
      SubscribeExtends(s1, t, topic, wants);
      Transitive(s, s1, StepOf(s, t).value);
    case Subscribed =>
  }

  lemma StepExtends(s: State, a: Action)
    requires Inv(s) && Next(s, a).Some?
    ensures Extends(s, Next(s, a).value)
  {
    if a.Act? { TaskExtends(s, a.t); }
    if a.Receive? { PollExtends(s, a.u); }
  }

  lemma {:induction false} RunExtends(s: State, actions: seq<Action>)
    requires Inv(s) && Run(s, actions).Some?
    ensures Extends(s, Run(s, actions).value)
    decreases |actions|
  {
    if actions != [] {
      var s' := Next(s, actions[0]).value;
      StepExtends(s, actions[0]);
      NextKeeps(s, actions[0]);
      RunExtends(s', actions[1..]);
      Transitive(s, s', Run(s, actions).value);
    }
  }

  /** A topic has one channel from the moment any task creates it, however many tasks found it
      missing at the same time, and no two topics share one. */
  lemma OneChannelForever(s: State, actions: seq<Action>, topic: Topic, other: Topic)
    requires Inv(s) && Run(s, actions).Some? && topic in s.topics
    ensures var s' := Run(s, actions).value;
      && topic in s'.topics && s'.topics[topic] == s.topics[topic]
      && s.topics[topic] < |s.channels| <= |s'.channels|
      && s.channels[s.topics[topic]].log <= s'.channels[s.topics[topic]].log
      && (forall i :: 0 <= i < |s'.channels| && s'.channels[i].topic == topic ==> i == s.topics[topic])
      && (other in s'.topics && other != topic ==> s'.topics[other] != s'.topics[topic])
  {
    RunExtends(s, actions);
  }

  // ---- Every event published after a subscription reaches it -----------------------------

  lemma {:induction false} ProjectAppends(a: seq<Sent>, b: seq<Sent>, topic: Topic)
    ensures Project(a + b, topic) == Project(a, topic) + Project(b, topic)
    decreases |b|
  {
    if b == [] {
      assert a + b == a;
    } else {
      var n := |b| - 1;
      assert a + b == (a + b[..n]) + [b[n]];
      Snoc(a + b[..n], b[n], topic, 0);
      ProjectAppends(a, b[..n], topic);
    }
  }

  lemma {:induction false} ByAppends(a: seq<Sent>, b: seq<Sent>, t: TaskId)
    ensures By(a + b, t) == By(a, t) + By(b, t)
    decreases |b|
  {
    if b == [] {
      assert a + b == a;
    } else {
      var n := |b| - 1;
      assert a + b == (a + b[..n]) + [b[n]];
      Snoc(a + b[..n], b[n], "", t);
      ByAppends(a, b[..n], t);
    }
  }

  lemma {:induction false} ByIsSent(h: seq<Sent>, t: TaskId, x: Sent)
    requires x in By(h, t)
    ensures x in h && x.event in Project(h, x.topic)
    decreases |h|
  {
    var n := |h| - 1;
    if x != h[n] { ByIsSent(h[..n], t, x); }
  }

  lemma TailGrows(log: seq<Event>, log': seq<Event>, start: nat, more: seq<Event>)
    requires log <= log' && start <= |log| && log'[start..] == log[start..] + more
    ensures log' == log + more
  {
    assert log' == log'[..start] + log'[start..];
    assert log == log[..start] + log[start..];
  }

  lemma GrowsByProjection(log: seq<Event>, log': seq<Event>, start: nat, h: seq<Sent>, h': seq<Sent>, since: nat,
                          topic: Topic)
    requires log <= log' && start <= |log| && h <= h' && since <= |h|
    requires log[start..] == Project(h[since..], topic) && log'[start..] == Project(h'[since..], topic)
    ensures log' == log + Project(h'[|h|..], topic)
  {
    assert h'[since..] == h[since..] + h'[|h|..];
    ProjectAppends(h[since..], h'[|h|..], topic);
    TailGrows(log, log', start, Project(h'[|h|..], topic));
  }

  /** While a subscription lives, its channel gains exactly what is sent to its topic, in order. */
  lemma ChannelGainsWhatIsSent(s: State, s': State, u: TaskId)
    requires Inv(s) && Inv(s') && Extends(s, s') && u in s.subs && s'.subs[u].alive
    ensures var chan := s.subs[u].chan;
      && chan < |s.channels| <= |s'.channels|
      && s'.channels[chan].log == s.channels[chan].log + Project(s'.history[|s.history|..], s.subs[u].topic)
  {
    assert SubOk(s, u) && SubOk(s', u) && SubExtends(s.subs[u], s'.subs[u]);
    var sub := s.subs[u];
    GrowsByProjection(s.channels[sub.chan].log, s'.channels[sub.chan].log, sub.start, s.history, s'.history,
        sub.since, sub.topic);
  }

  /** What a publisher that was not there at `s` and has finished by `s'` sent in between. */
  lemma PublisherSendsOnceEach(s: State, s': State, t: TaskId, e: Event, order: seq<Topic>, topic: Topic)
    requires Inv(s) && Inv(s') && s.history <= s'.history && t !in s.tasks
    requires t in s'.tasks && s'.tasks[t] == Publishing(e, order, |order|) && topic in e.tags
    ensures By(s'.history[|s.history|..], t) == SentSoFar(t, e, order, |order|) && IsOrder(order, e.tags.Keys)
    ensures e in Project(s'.history[|s.history|..], topic)
  {
    assert TaskOk(s', t) && TaskOk(s, t);
    var i :| 0 <= i < |order| && order[i] == topic;
    assert SentSoFar(t, e, order, |order|)[i] == Sent(t, topic, e);
    var later := s'.history[|s.history|..];
    assert s'.history == s.history + later;
    ByAppends(s.history, later, t);
    ByIsSent(later, t, Sent(t, topic, e));
  }

  /** A publisher that starts after a subscription exists and runs to its end sends its event once
      to each of its topics, so the event reaches the subscription's channel. */
  lemma PublishedEventArrives(s: State, actions: seq<Action>, u: TaskId, t: TaskId, e: Event, order: seq<Topic>)
    requires Inv(s) && Run(s, actions).Some? && u in s.subs && t !in s.tasks
    requires u in Run(s, actions).value.subs && Run(s, actions).value.subs[u].alive
    requires t in Run(s, actions).value.tasks && Run(s, actions).value.tasks[t] == Publishing(e, order, |order|)
    requires s.subs[u].topic in e.tags
    ensures var s' := Run(s, actions).value; var chan := s.subs[u].chan;
      && s.history <= s'.history
      && By(s'.history[|s.history|..], t) == SentSoFar(t, e, order, |order|) && IsOrder(order, e.tags.Keys)
      && chan < |s.channels| <= |s'.channels| && s.channels[chan].log <= s'.channels[chan].log
      && e in s'.channels[chan].log[|s.channels[chan].log|..]
  {
    var s' := Run(s, actions).value;
    RunExtends(s, actions);
    ChannelGainsWhatIsSent(s, s', u);
    PublisherSendsOnceEach(s, s', t, e, order, s.subs[u].topic);
  }

  // ---- What a subscriber sees ------------------------------------------------------------

  /** What a live subscriber that never lagged has been given, followed by what it wants of the
      events still waiting for it, is what it wants of everything sent since it subscribed. */
  lemma NothingLostWithoutLag(s: State, u: TaskId)
    requires Inv(s) && u in s.subs && s.subs[u].alive && !s.subs[u].lagged
    ensures var sub := s.subs[u];
      && sub.chan < |s.channels| && sub.cursor <= |s.channels[sub.chan].log| && sub.since <= |s.history|
      && sub.delivered + Select(s.channels[sub.chan].log[sub.cursor..], sub.topic, sub.wants)
         == Select(Project(s.history[sub.since..], sub.topic), sub.topic, sub.wants)
  {
    assert SubOk(s, u);
    var sub := s.subs[u];
    var log := s.channels[sub.chan].log;
    assert log[sub.start..] == log[sub.start..sub.cursor] + log[sub.cursor..];
    SelectAppends(log[sub.start..sub.cursor], log[sub.cursor..], sub.topic, sub.wants);
  }

  /** Every poll of `u` in the run finds at most `capacity` events waiting. */
  ghost predicate KeepsUp(s: State, actions: seq<Action>, u: TaskId)
    requires Inv(s)
    decreases |actions|
  {
    actions == [] || Next(s, actions[0]).None? ||
    (&& (actions[0] == Receive(u) && u in s.subs ==> |s.channels[s.subs[u].chan].log| - s.subs[u].cursor <= s.capacity)
     && (NextKeeps(s, actions[0]); KeepsUp(Next(s, actions[0]).value, actions[1..], u)))
  }

  lemma LagsWhenBehind(s: State, a: Action, u: TaskId)
    requires Inv(s) && Next(s, a).Some? && u in s.subs
    ensures u in Next(s, a).value.subs
    ensures Next(s, a).value.subs[u].lagged <==>
      (s.subs[u].lagged || (a == Receive(u) && |s.channels[s.subs[u].chan].log| - s.subs[u].cursor > s.capacity))
  {
    assert SubOk(s, u);
    if a.Act? { assert TaskOk(s, a.t); }
  }

  /** A subscriber lags exactly when some poll of it finds more waiting than the capacity. */
  lemma {:induction false} LagsExactlyWhen(s: State, actions: seq<Action>, u: TaskId)
    requires Inv(s) && Run(s, actions).Some? && u in s.subs && !s.subs[u].lagged
    ensures u in Run(s, actions).value.subs
    ensures !Run(s, actions).value.subs[u].lagged <==> KeepsUp(s, actions, u)
    decreases |actions|
  {
    if actions != [] {
      var s' := Next(s, actions[0]).value;
      NextKeeps(s, actions[0]);
      LagsWhenBehind(s, actions[0], u);
      if s'.subs[u].lagged {
        RunExtends(s', actions[1..]);
        assert SubExtends(s'.subs[u], Run(s', actions[1..]).value.subs[u]);
      } else {
        LagsExactlyWhen(s', actions[1..], u);
      }
    }
  }

  // ---- Nothing is given twice ------------------------------------------------------------

  /** Lagging or not, alive or not, a subscriber is given no event more often than it was sent. */
  ghost predicate OnceOk(s: State, u: TaskId)
    requires u in s.subs && SubOk(s, u)
  {
    var sub := s.subs[u];
    && multiset(sub.delivered) <= multiset(s.channels[sub.chan].log[sub.start..sub.cursor])
    && multiset(sub.delivered) <= multiset(Project(s.history[sub.since..], sub.topic))
  }

  lemma PrefixCounts(log: seq<Event>, start: nat, cursor: nat, later: nat)
    requires start <= cursor <= later <= |log|
    ensures multiset(log[start..cursor]) <= multiset(log[start..later]) <= multiset(log[start..])
    ensures cursor < later ==> multiset(log[start..cursor]) + multiset{log[cursor]} <= multiset(log[start..later])
  {
    assert log[start..later] == log[start..cursor] + log[cursor..later];
    assert log[start..] == log[start..later] + log[later..];
    if cursor < later { assert log[cursor..later] == [log[cursor]] + log[cursor + 1..later]; }
  }

  lemma HistoryCounts(h: seq<Sent>, h': seq<Sent>, since: nat, topic: Topic)
    requires since <= |h| && h <= h'
    ensures multiset(Project(h[since..], topic)) <= multiset(Project(h'[since..], topic))
    ensures multiset(Project(h'[since..], topic)) <= multiset(Project(h', topic))
  {
    assert h'[since..] == h[since..] + h'[|h|..];
    ProjectAppends(h[since..], h'[|h|..], topic);
    assert h' == h'[..since] + h'[since..];
    ProjectAppends(h'[..since], h'[since..], topic);
  }

  lemma PollOnce(s: State, u: TaskId)
    requires Inv(s) && u in s.subs && OnceOk(s, u) && Poll(s, u).Some?
    ensures var s' := Poll(s, u).value; SubOk(s', u) && OnceOk(s', u)
  {
    var s' := Poll(s, u).value;
    PollReads(s, u);
    assert SubOk(s, u);
    var sub := s.subs[u];
    PrefixCounts(s.channels[sub.chan].log, sub.start, sub.cursor, s'.subs[u].cursor);
  }

  lemma SameSubOnce(s: State, s': State, u: TaskId)
    requires u in s.subs && SubOk(s, u) && OnceOk(s, u) && Extends(s, s') && u in s'.subs && SubOk(s', u)
    requires s'.subs[u].delivered == s.subs[u].delivered && s'.subs[u].cursor == s.subs[u].cursor
    ensures OnceOk(s', u)
  {
    assert SubExtends(s.subs[u], s'.subs[u]);
    var sub := s.subs[u];
    assert s'.channels[sub.chan].log[sub.start..sub.cursor] == s.channels[sub.chan].log[sub.start..sub.cursor];
    HistoryCounts(s.history, s'.history, sub.since, sub.topic);
  }

  ghost predicate Once(s: State)
    requires Inv(s)
  {
    forall u {:trigger OnceOk(s, u)} :: u in s.subs ==> OnceOk(s, u)
  }

  /** Only a poll changes what an existing subscription has been given. */
  lemma OnlyPollsDeliver(s: State, a: Action, u: TaskId)
    requires Inv(s) && Next(s, a).Some? && u in s.subs && a != Receive(u)
    ensures u in Next(s, a).value.subs
    ensures Next(s, a).value.subs[u].delivered == s.subs[u].delivered
        && Next(s, a).value.subs[u].cursor == s.subs[u].cursor
  {
    if a.Act? { assert TaskOk(s, a.t); }
  }

  lemma NewSubIsEmpty(s: State, a: Action, u: TaskId)
    requires Inv(s) && Next(s, a).Some? && u !in s.subs && u in Next(s, a).value.subs
    ensures Next(s, a).value.subs[u].delivered == []
  {
  }

  lemma NextOnce(s: State, a: Action)
    requires Inv(s) && Once(s) && Next(s, a).Some?
    ensures Inv(Next(s, a).value) && Once(Next(s, a).value)
  {
    var s' := Next(s, a).value;
    NextKeeps(s, a);
    StepExtends(s, a);
    forall u {:trigger OnceOk(s', u)} | u in s'.subs ensures OnceOk(s', u) {
      if u !in s.subs {
        NewSubIsEmpty(s, a, u);
        assert multiset(s'.subs[u].delivered) == multiset{};
      } else {
        assert OnceOk(s, u);
        if a == Receive(u) { PollOnce(s, u); }
        else {
          OnlyPollsDeliver(s, a, u);
          SameSubOnce(s, s', u);
        }
      }
    }
  }
}
