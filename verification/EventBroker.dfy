/** The event broker (src/mgmt-server/events/broker.rs): named topics, each with one bounded
    broadcast channel, shared by any number of publishing and subscribing tasks. Every section
    under the read or the write guard runs without an await, so each is one atomic step. */
module EventBroker {
  import opened Basics
  import opened OperationTrace

  type Topic = string
  type TaskId = nat

  /** What an event carries; the JSON text of the message is not modelled. */
  datatype Content = Request(id: string) | Reply(id: string, status: Status) | Line(text: string)

  datatype Event = Event(tags: map<Topic, string>, content: Content)

  /** A broadcast channel with everything ever put into it; only the last `capacity` are kept. */
  datatype Channel = Channel(topic: Topic, log: seq<Event>)

  /** A receiver with its filter. `start` and `since` are the lengths of the channel's log and of
      the history when it was created, `cursor` is the log position it reads next. */
  datatype Subscription = Subscription(
    topic: Topic, wants: string -> bool, chan: nat, start: nat, since: nat,
    cursor: nat, delivered: seq<Event>, lagged: bool, alive: bool)

  /** Task `sender` sent `event` to `topic`. */
  datatype Sent = Sent(sender: TaskId, topic: Topic, event: Event)

  /** `Publishing` has sent to the first `sent` topics of `order`. The two `Creating` points come
      after finding the topic missing and dropping the read guard. */
  datatype Pc =
    | Publishing(event: Event, order: seq<Topic>, sent: nat)
    | CreatingToPublish(event: Event, order: seq<Topic>, sent: nat)
    | Subscribing(topic: Topic, wants: string -> bool)
    | CreatingToSubscribe(topic: Topic, wants: string -> bool)
    | Subscribed

  /** `history` is every send in order; the subscription made by task `t` is `subs[t]`. */
  datatype State = State(
    capacity: nat,
    topics: map<Topic, nat>,
    channels: seq<Channel>,
    subs: map<TaskId, Subscription>,
    tasks: map<TaskId, Pc>,
    history: seq<Sent>)

  datatype Action = Spawn(t: TaskId, pc: Pc) | Act(t: TaskId) | Receive(u: TaskId) | Drop(u: TaskId)

  // ---- Steps -----------------------------------------------------------------------------

  /** `order` is one of the orders in which a hash map yields its keys. */
  predicate IsOrder(order: seq<Topic>, keys: set<Topic>)
  {
    && (forall i, j :: 0 <= i < j < |order| ==> order[i] != order[j])
    && (forall k :: k in order ==> k in keys) && (forall k :: k in keys ==> k in order)
  }

  predicate HasReceiver(s: State, chan: nat)
  {
    exists u :: u in s.subs && s.subs[u].alive && s.subs[u].chan == chan
  }

  /** `Sender::send`: an event without any receiver is dropped. */
  function Send(s: State, t: TaskId, topic: Topic, event: Event): State
    requires topic in s.topics && s.topics[topic] < |s.channels|
  {
    var chan := s.topics[topic];
    s.(channels := if HasReceiver(s, chan)
                   then s.channels[chan := s.channels[chan].(log := s.channels[chan].log + [event])]
                   else s.channels,
       history := s.history + [Sent(t, topic, event)])
  }

  /** The write-locked check again: the entry is created only if it is still vacant. */
  function WithTopic(s: State, topic: Topic): State
  {
    if topic in s.topics then s
    else s.(topics := s.topics[topic := |s.channels|], channels := s.channels + [Channel(topic, [])])
  }

  function Subscribe(s: State, t: TaskId, topic: Topic, wants: string -> bool): State
    requires topic in s.topics && s.topics[topic] < |s.channels|
  {
    var at := |s.channels[s.topics[topic]].log|;
    s.(subs := s.subs[t := Subscription(topic, wants, s.topics[topic], at, |s.history|, at, [], false, true)],
       tasks := s.tasks[t := Subscribed])
  }

  function Move(s: State, t: TaskId, pc: Pc): State { s.(tasks := s.tasks[t := pc]) }

  predicate Wanted(topic: Topic, wants: string -> bool, e: Event)
  {
    topic in e.tags && wants(e.tags[topic])
  }

  /** One poll of the receiver: skip to the oldest kept event when it lags, else take one. */
  function Poll(s: State, u: TaskId): Option<State>
    requires u in s.subs && s.subs[u].chan < |s.channels|
  {
    var sub, log := s.subs[u], s.channels[s.subs[u].chan].log;
    if !sub.alive || |log| <= sub.cursor then None
    else if |log| - sub.cursor > s.capacity then
      Some(s.(subs := s.subs[u := sub.(cursor := |log| - s.capacity, lagged := true)]))
    else
      var e := log[sub.cursor];
      Some(s.(subs := s.subs[u := sub.(cursor := sub.cursor + 1,
        delivered := if Wanted(sub.topic, sub.wants, e) then sub.delivered + [e] else sub.delivered)]))
  }

  function StepOf(s: State, t: TaskId): Option<State>
    requires t in s.tasks && Sound(s)
  {
    match s.tasks[t]
    case Publishing(e, order, k) =>
      if k >= |order| then None
      else if order[k] in s.topics then Some(Move(Send(s, t, order[k], e), t, Publishing(e, order, k + 1)))
      else Some(Move(s, t, CreatingToPublish(e, order, k)))
    case CreatingToPublish(e, order, k) =>
      if k >= |order| then None
      else Some(Move(Send(WithTopic(s, order[k]), t, order[k], e), t, Publishing(e, order, k + 1)))
    case Subscribing(topic, wants) =>
      if topic in s.topics then Some(Subscribe(s, t, topic, wants))
      else Some(Move(s, t, CreatingToSubscribe(topic, wants)))
    case CreatingToSubscribe(topic, wants) => Some(Subscribe(WithTopic(s, topic), t, topic, wants))
    case Subscribed => None
  }

  predicate IsFirst(pc: Pc)
  {
    pc.Subscribing? || (pc.Publishing? && pc.sent == 0 && IsOrder(pc.order, pc.event.tags.Keys))
  }

  /** Indices stay in range; what the steps need to be defined. */
  predicate Sound(s: State)
  {
    && (forall topic :: topic in s.topics ==> s.topics[topic] < |s.channels|)
    && (forall u :: u in s.subs ==> s.subs[u].chan < |s.channels|)
  }

  function Next(s: State, a: Action): Option<State>
    requires Sound(s)
  {
    match a
    case Spawn(t, pc) => if t !in s.tasks && IsFirst(pc) then Some(Move(s, t, pc)) else None
    case Act(t) => if t in s.tasks then StepOf(s, t) else None
    case Receive(u) => if u in s.subs then Poll(s, u) else None
    case Drop(u) => if u in s.subs then Some(s.(subs := s.subs[u := s.subs[u].(alive := false)])) else None
  }

  // ---- What was sent ---------------------------------------------------------------------

  /** The events sent to `topic`, in order. */
  function Project(h: seq<Sent>, topic: Topic): seq<Event>
  {
    if h == [] then []
    else
      var x := h[|h| - 1];
      Project(h[..|h| - 1], topic) + if x.topic == topic then [x.event] else []
  }

  /** The sends of task `t`, in order. */
  function By(h: seq<Sent>, t: TaskId): seq<Sent>
  {
    if h == [] then []
    else
      var x := h[|h| - 1];
      By(h[..|h| - 1], t) + if x.sender == t then [x] else []
  }

  /** What a subscription to `topic` lets through. */
  function Select(log: seq<Event>, topic: Topic, wants: string -> bool): seq<Event>
  {
    if log == [] then []
    else
      var e := log[|log| - 1];
      Select(log[..|log| - 1], topic, wants) + if Wanted(topic, wants, e) then [e] else []
  }

  lemma Snoc(h: seq<Sent>, x: Sent, topic: Topic, t: TaskId)
    ensures Project(h + [x], topic) == Project(h, topic) + if x.topic == topic then [x.event] else []
    ensures By(h + [x], t) == By(h, t) + if x.sender == t then [x] else []
  {
    assert (h + [x])[..|h|] == h;
  }

  lemma SelectSnoc(log: seq<Event>, e: Event, topic: Topic, wants: string -> bool)
    ensures Select(log + [e], topic, wants) == Select(log, topic, wants) + if Wanted(topic, wants, e) then [e] else []
  {
    assert (log + [e])[..|log|] == log;
  }

  lemma SelectNext(log: seq<Event>, start: nat, cursor: nat, topic: Topic, wants: string -> bool)
    requires start <= cursor < |log|
    ensures Select(log[start..cursor + 1], topic, wants)
         == Select(log[start..cursor], topic, wants) + if Wanted(topic, wants, log[cursor]) then [log[cursor]] else []
  {
    SelectSnoc(log[start..cursor], log[cursor], topic, wants);
    assert log[start..cursor + 1] == log[start..cursor] + [log[cursor]];
  }

  lemma {:induction false} SelectAppends(a: seq<Event>, b: seq<Event>, topic: Topic, wants: string -> bool)
    ensures Select(a + b, topic, wants) == Select(a, topic, wants) + Select(b, topic, wants)
    decreases |b|
  {
    if b == [] {
      assert a + b == a;
    } else {
      var n := |b| - 1;
      assert a + b == (a + b[..n]) + [b[n]];
      SelectSnoc(a + b[..n], b[n], topic, wants);
      SelectAppends(a, b[..n], topic, wants);
    }
  }

  // ---- What holds in every run -----------------------------------------------------------

  /** Topics and channels correspond one to one. */
  ghost predicate OneChannelEach(s: State)
  {
    && (forall topic :: topic in s.topics ==>
        s.topics[topic] < |s.channels| && s.channels[s.topics[topic]].topic == topic)
    && (forall i {:trigger s.channels[i]} :: 0 <= i < |s.channels| ==>
          s.channels[i].topic in s.topics && s.topics[s.channels[i].topic] == i)
  }

  /** While a subscription lives its channel has gained exactly what was sent to its topic since,
      and unless it lagged it has passed on what it wants of the part it has read. */
  ghost predicate SubOk(s: State, u: TaskId)
    requires u in s.subs
  {
    var sub := s.subs[u];
    && sub.chan < |s.channels| && s.channels[sub.chan].topic == sub.topic
    && sub.since <= |s.history|
    && var log := s.channels[sub.chan].log;
    && sub.start <= sub.cursor <= |log|
    && (sub.alive ==> log[sub.start..] == Project(s.history[sub.since..], sub.topic))
    && (!sub.lagged ==> sub.delivered == Select(log[sub.start..sub.cursor], sub.topic, sub.wants))
  }

  /** The sends a publisher has made after `k` topics. */
  function SentSoFar(t: TaskId, event: Event, order: seq<Topic>, k: nat): seq<Sent>
    requires k <= |order|
  {
    seq(k, i requires 0 <= i < k => Sent(t, order[i], event))
  }

  ghost predicate TaskOk(s: State, t: TaskId)
  {
    if t !in s.tasks then By(s.history, t) == [] && t !in s.subs
    else match s.tasks[t]
      case Publishing(e, order, k) =>
        IsOrder(order, e.tags.Keys) && k <= |order| && By(s.history, t) == SentSoFar(t, e, order, k)
      case CreatingToPublish(e, order, k) =>
        IsOrder(order, e.tags.Keys) && k < |order| && By(s.history, t) == SentSoFar(t, e, order, k)
      case Subscribed => By(s.history, t) == []
      case _ => By(s.history, t) == [] && t !in s.subs
  }

  ghost predicate Inv(s: State)
  {
    && Sound(s)
    && OneChannelEach(s)
    && (forall u {:trigger SubOk(s, u)} :: u in s.subs ==> SubOk(s, u))
    && (forall t {:trigger TaskOk(s, t)} :: TaskOk(s, t))
  }

  lemma SendKeepsSubs(s: State, t: TaskId, topic: Topic, event: Event, u: TaskId)
    requires Inv(s) && topic in s.topics && u in s.subs
    ensures SubOk(Send(s, t, topic, event), u)
  {
    var s' := Send(s, t, topic, event);
    assert SubOk(s, u);
    var sub := s.subs[u];
    var log, log' := s.channels[sub.chan].log, s'.channels[sub.chan].log;
    assert s'.history[sub.since..] == s.history[sub.since..] + [Sent(t, topic, event)];
    Snoc(s.history[sub.since..], Sent(t, topic, event), sub.topic, t);
    assert log'[sub.start..sub.cursor] == log[sub.start..sub.cursor];
    if log' != log { assert log'[sub.start..] == log[sub.start..] + [event]; }
  }

  lemma WithTopicOneEach(s: State, topic: Topic)
    requires OneChannelEach(s)
    ensures OneChannelEach(WithTopic(s, topic)) && topic in WithTopic(s, topic).topics
  {
    var s' := WithTopic(s, topic);
    forall i {:trigger s'.channels[i]} | 0 <= i < |s'.channels|
      ensures s'.channels[i].topic in s'.topics && s'.topics[s'.channels[i].topic] == i
    {
      if i < |s.channels| { assert s'.channels[i] == s.channels[i]; }
    }
  }

  lemma WithTopicKeeps(s: State, topic: Topic)
    requires Inv(s)
    ensures Inv(WithTopic(s, topic)) && topic in WithTopic(s, topic).topics
  {
    WithTopicOneEach(s, topic);
    var s' := WithTopic(s, topic);
    forall u {:trigger SubOk(s', u)} | u in s'.subs ensures SubOk(s', u) { assert SubOk(s, u); }
    forall t {:trigger TaskOk(s', t)} ensures TaskOk(s', t) { assert TaskOk(s, t); }
  }

  lemma MoveKeeps(s: State, t: TaskId, pc: Pc)
    requires Inv(s) && TaskOk(Move(s, t, pc), t)
    ensures Inv(Move(s, t, pc))
  {
    var s' := Move(s, t, pc);
    forall u {:trigger SubOk(s', u)} | u in s'.subs ensures SubOk(s', u) { assert SubOk(s, u); }
    forall u {:trigger TaskOk(s', u)} ensures TaskOk(s', u) { assert TaskOk(s, u); }
  }

  lemma SendKeeps(s: State, t: TaskId, e: Event, order: seq<Topic>, k: nat)
    requires Inv(s) && t in s.tasks && k < |order| && order[k] in s.topics
    requires s.tasks[t] == Publishing(e, order, k) || s.tasks[t] == CreatingToPublish(e, order, k)
    ensures Inv(Move(Send(s, t, order[k], e), t, Publishing(e, order, k + 1)))
  {
    var x := Sent(t, order[k], e);
    var s1 := Send(s, t, order[k], e);
    var s' := Move(s1, t, Publishing(e, order, k + 1));
    forall u {:trigger SubOk(s', u)} | u in s'.subs ensures SubOk(s', u) {
      SendKeepsSubs(s, t, order[k], e, u);
      assert SubOk(s1, u);
    }
    forall u {:trigger TaskOk(s', u)} ensures TaskOk(s', u) {
      assert TaskOk(s, u) && TaskOk(s, t);
      Snoc(s.history, x, "", u);
      assert SentSoFar(t, e, order, k + 1) == SentSoFar(t, e, order, k) + [x];
    }
  }

  lemma SubscribeKeeps(s: State, t: TaskId, topic: Topic, wants: string -> bool)
    requires Inv(s) && topic in s.topics && t in s.tasks && By(s.history, t) == []
    ensures Inv(Subscribe(s, t, topic, wants))
  {
    var s' := Subscribe(s, t, topic, wants);
    forall u {:trigger SubOk(s', u)} | u in s'.subs ensures SubOk(s', u) {
      if u != t { assert SubOk(s, u); }
    }
    forall u {:trigger TaskOk(s', u)} ensures TaskOk(s', u) { assert TaskOk(s, u); }
  }

  lemma PublishKeeps(s: State, t: TaskId, e: Event, order: seq<Topic>, k: nat)
    requires Inv(s) && t in s.tasks && StepOf(s, t).Some?
    requires s.tasks[t] == Publishing(e, order, k) || s.tasks[t] == CreatingToPublish(e, order, k)
    ensures Inv(StepOf(s, t).value)
  {
    assert TaskOk(s, t);
    if s.tasks[t].CreatingToPublish? {
      WithTopicKeeps(s, order[k]);
      SendKeeps(WithTopic(s, order[k]), t, e, order, k);
    } else if order[k] in s.topics {
      SendKeeps(s, t, e, order, k);
    } else {
      MoveKeeps(s, t, CreatingToPublish(e, order, k));
    }
  }

  lemma SubscriberKeeps(s: State, t: TaskId, topic: Topic, wants: string -> bool)
    requires Inv(s) && t in s.tasks
    requires s.tasks[t] == Subscribing(topic, wants) || s.tasks[t] == CreatingToSubscribe(topic, wants)
    ensures Inv(StepOf(s, t).value)
  {
    assert TaskOk(s, t);
    if s.tasks[t].CreatingToSubscribe? {
      WithTopicKeeps(s, topic);
      SubscribeKeeps(WithTopic(s, topic), t, topic, wants);
    } else if topic in s.topics {
      SubscribeKeeps(s, t, topic, wants);
    } else {
      MoveKeeps(s, t, CreatingToSubscribe(topic, wants));
    }
  }

  lemma StepKeeps(s: State, t: TaskId)
    requires Inv(s) && t in s.tasks && StepOf(s, t).Some?
    ensures Inv(StepOf(s, t).value)
  {
    match s.tasks[t]
    case Publishing(e, order, k) => PublishKeeps(s, t, e, order, k);
    case CreatingToPublish(e, order, k) => PublishKeeps(s, t, e, order, k);
    case Subscribing(topic, wants) => SubscriberKeeps(s, t, topic, wants);
    case CreatingToSubscribe(topic, wants) => SubscriberKeeps(s, t, topic, wants);
    case Subscribed =>
  }

  lemma PollReads(s: State, u: TaskId)
    requires Inv(s) && u in s.subs && Poll(s, u).Some?
    ensures SubOk(Poll(s, u).value, u)
  {
    assert SubOk(s, u);
    var sub := s.subs[u];
    SelectNext(s.channels[sub.chan].log, sub.start, sub.cursor, sub.topic, sub.wants);
  }

  lemma PollKeeps(s: State, u: TaskId)
    requires Inv(s) && u in s.subs && Poll(s, u).Some?
    ensures Inv(Poll(s, u).value)
  {
    var s' := Poll(s, u).value;
    forall w {:trigger SubOk(s', w)} | w in s'.subs ensures SubOk(s', w) {
      assert SubOk(s, w);
      if w == u { PollReads(s, u); }
    }
    forall t {:trigger TaskOk(s', t)} ensures TaskOk(s', t) { assert TaskOk(s, t); }
  }

  lemma DropKeeps(s: State, u: TaskId)
    requires Inv(s) && u in s.subs
    ensures Inv(Next(s, Drop(u)).value)
  {
    var s' := Next(s, Drop(u)).value;
    forall w {:trigger SubOk(s', w)} | w in s'.subs ensures SubOk(s', w) { assert SubOk(s, w); }
    forall t {:trigger TaskOk(s', t)} ensures TaskOk(s', t) { assert TaskOk(s, t); }
  }

  lemma NextKeeps(s: State, a: Action)
    requires Inv(s) && Next(s, a).Some?
    ensures Inv(Next(s, a).value)
  {
    match a
    case Spawn(t, pc) => assert TaskOk(s, t); MoveKeeps(s, t, pc);
    case Act(t) => StepKeeps(s, t);
    case Receive(u) => PollKeeps(s, u);
    case Drop(u) => DropKeeps(s, u);
  }
}
