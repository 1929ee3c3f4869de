/** Every run of the agent inside a run of the protocol: each request reaches the agent through the
    broker and the connection, and each operation emits exactly its handler's replies. */
module AgentProtocol {
  import opened Basics
  import opened OperationTrace
  import opened AgentMachine
  import opened AgentInvariant
  import opened AgentRuns
  import opened AgentReplies
  import B = EventBroker
  import O = Operations
  import P = OperationProofs
  import C = OperationClients

  // ---- Building runs of the world --------------------------------------------------------

  lemma {:induction false} Join(w: O.World, first: seq<O.Action>, now: O.World, second: seq<O.Action>, w': O.World)
    requires Leads(w, first, now) && Leads(now, second, w')
    ensures Leads(w, first + second, w')
    decreases |first|
  {
    if first == [] {
      assert first + second == second;
    } else {
      var next := O.Next(w, first[0]).value;
      Join(next, first[1..], now, second, w');
      LeadsFirst(w, first[0], next, first[1..] + second, w');
      assert [first[0]] + (first[1..] + second) == first + second;
    }
  }

  /** One more action. */
  lemma Onward(w: O.World, actions: seq<O.Action>, now: O.World, a: O.Action)
    returns (longer: seq<O.Action>, w': O.World)
    requires Leads(w, actions, now) && B.Sound(now.broker) && O.Next(now, a).Some?
    ensures Leads(w, longer, w') && O.Next(now, a) == Some(w')
  {
    longer, w' := actions + [a], O.Next(now, a).value;
    assert [a][1..] == [] && Leads(w', [], w');
    Join(w, actions, now, [a], w');
  }

  // ---- The connection --------------------------------------------------------------------

  /** The connection is up, has not lagged behind, and the agent has been handed all it was given. */
  ghost predicate Attached(w: O.World)
  {
    && B.Sound(w.broker) && w.broker.capacity >= 1 && w.broker.subs.Keys <= w.broker.tasks.Keys
    && w.link.Some? && w.link.value in w.broker.subs
    && var sub := w.broker.subs[w.link.value];
    && sub.alive && sub.topic == O.OUTGOING && sub.wants == O.Is(w.addr)
    && sub.cursor == |w.broker.channels[sub.chan].log| && w.taken == |sub.delivered|
    && O.OUTGOING in w.broker.topics && w.broker.topics[O.OUTGOING] == sub.chan
    && (O.OPERATION in w.broker.topics ==> w.broker.topics[O.OPERATION] != sub.chan)
  }

  /** Subscriber `u` listens to the replies and has read all that were published. */
  ghost predicate Tuned(b: B.State, u: TaskId)
  {
    && u in b.subs && O.OPERATION in b.topics && b.topics[O.OPERATION] < |b.channels|
    && var sub := b.subs[u];
    && sub.alive && !sub.lagged && sub.topic == O.OPERATION && sub.chan == b.topics[O.OPERATION]
    && sub.cursor == |b.channels[sub.chan].log|
  }

  /** Listening clients keep listening, and no reply is on its way that was not before. */
  ghost predicate Kept(w: O.World, w': O.World)
  {
    && (forall u :: Tuned(w.broker, u) ==> Tuned(w'.broker, u))
    && (forall id :: id in w.clients ==> id in w'.clients && w'.clients[id].sub == w.clients[id].sub)
    && w'.wire == w.wire && w'.incoming == w.incoming
  }

  lemma Connects(w: O.World) returns (actions: seq<O.Action>, w': O.World)
    requires C.Init(w) && w.broker.capacity >= 1
    ensures Leads(w, actions, w') && Attached(w')
    ensures w'.replies == map[] && w'.clients == map[] && w'.wire == [] && w'.incoming.None?
  {
    actions, w' := Onward(w, [], w, O.Connect(0));
    actions, w' := Onward(w, actions, w', O.Broker(B.Act(0)));
    assert w'.broker.tasks[0].CreatingToSubscribe?;
    actions, w' := Onward(w, actions, w', O.Broker(B.Act(0)));
  }

  /** The client of `id` listens, and its request is not out yet. */
  ghost predicate Subscribed(w: O.World, id: O.OpId)
  {
    id in w.clients && w.clients[id].request.None? && Tuned(w.broker, w.clients[id].sub)
  }

  /** Nothing the agent has to do with has changed. */
  ghost predicate SameAgent(w: O.World, w': O.World) { w'.replies == w.replies && Kept(w, w') }

  /** The client of `id` is about to listen. */
  ghost predicate Subscribing(w: O.World, id: O.OpId)
  {
    && id in w.clients && w.clients[id].request.None?
    && C.AboutToSubscribe(w.broker, w.clients[id].sub, O.OPERATION, O.Is(id))
  }

  lemma ClientBegins(w: O.World, id: O.OpId) returns (actions: seq<O.Action>, w': O.World)
    requires Attached(w) && id !in w.clients
    ensures Leads(w, actions, w') && Attached(w') && Subscribing(w', id)
    ensures SameAgent(w, w') && w'.clients.Keys == w.clients.Keys + {id}
  {
    var t := UnusedNumber(w.broker.tasks.Keys);
    actions, w' := Onward(w, [], w, O.Begin(id, t));
  }

  lemma ClientMissesTopic(w: O.World, id: O.OpId) returns (actions: seq<O.Action>, w': O.World)
    requires Attached(w) && Subscribing(w, id)
    ensures Leads(w, actions, w') && Attached(w') && Subscribing(w', id) && SameAgent(w, w') && w'.clients == w.clients
    ensures O.OPERATION in w'.broker.topics || w'.broker.tasks[w'.clients[id].sub].CreatingToSubscribe?
  {
    actions, w' := [], w;
    if O.OPERATION !in w.broker.topics && w.broker.tasks[w.clients[id].sub].Subscribing? {
      actions, w' := Onward(w, [], w, O.Broker(B.Act(w.clients[id].sub)));
    }
  }

  lemma ClientFindsTopic(w: O.World, id: O.OpId) returns (actions: seq<O.Action>, w': O.World)
    requires Attached(w) && Subscribing(w, id)
    requires O.OPERATION in w.broker.topics
    ensures Leads(w, actions, w') && Attached(w') && Subscribed(w', id) && SameAgent(w, w') && w'.clients == w.clients
  {
    actions, w' := Onward(w, [], w, O.Broker(B.Act(w.clients[id].sub)));
  }

  lemma ClientCreatesTopic(w: O.World, id: O.OpId) returns (actions: seq<O.Action>, w': O.World)
    requires Attached(w) && Subscribing(w, id)
    requires O.OPERATION !in w.broker.topics && w.broker.tasks[w.clients[id].sub].CreatingToSubscribe?
    ensures Leads(w, actions, w') && Attached(w') && Subscribed(w', id) && SameAgent(w, w') && w'.clients == w.clients
  {
    actions, w' := Onward(w, [], w, O.Broker(B.Act(w.clients[id].sub)));
  }

  lemma ClientListens(w: O.World, id: O.OpId) returns (actions: seq<O.Action>, w': O.World)
    requires Attached(w) && Subscribing(w, id)
    requires O.OPERATION in w.broker.topics || w.broker.tasks[w.clients[id].sub].CreatingToSubscribe?
    ensures Leads(w, actions, w') && Attached(w') && Subscribed(w', id) && SameAgent(w, w') && w'.clients == w.clients
  {
    if O.OPERATION in w.broker.topics { actions, w' := ClientFindsTopic(w, id); }
    else { actions, w' := ClientCreatesTopic(w, id); }
  }

  lemma ClientSubscribes(w: O.World, id: O.OpId) returns (actions: seq<O.Action>, w': O.World)
    requires Attached(w) && id !in w.clients
    ensures Leads(w, actions, w') && Attached(w') && Subscribed(w', id)
    ensures SameAgent(w, w') && w'.clients.Keys == w.clients.Keys + {id}
  {
    var begin, w1 := ClientBegins(w, id);
    var miss, w2 := ClientMissesTopic(w1, id);
    var listen;
    listen, w' := ClientListens(w2, id);
    Join(w, begin, w1, miss, w2);
    Join(w, begin + miss, w2, listen, w');
    actions := begin + miss + listen;
  }

  /** The request of `id` is all the connection has still to be given. */
  ghost predicate Requested(w: O.World, id: O.OpId)
  {
    && B.Sound(w.broker) && w.broker.capacity >= 1 && w.broker.subs.Keys <= w.broker.tasks.Keys
    && w.link.Some? && w.link.value in w.broker.subs
    && var sub := w.broker.subs[w.link.value];
    && var log := w.broker.channels[sub.chan].log;
    && sub.alive && sub.topic == O.OUTGOING && sub.wants == O.Is(w.addr)
    && sub.cursor + 1 == |log| && log[sub.cursor] == O.RequestEvent(w.addr, id)
    && w.taken == |sub.delivered|
    && O.OUTGOING in w.broker.topics && w.broker.topics[O.OUTGOING] == sub.chan
    && (O.OPERATION in w.broker.topics ==> w.broker.topics[O.OPERATION] != sub.chan)
  }

  lemma RequestBegins(w: O.World, id: O.OpId) returns (actions: seq<O.Action>, t: TaskId, w': O.World)
    requires Attached(w) && Subscribed(w, id)
    ensures Leads(w, actions, w') && Attached(w') && SameAgent(w, w') && w'.clients.Keys == w.clients.Keys
    ensures t in w'.broker.tasks && w'.broker.tasks[t] == B.Publishing(O.RequestEvent(w'.addr, id), [O.OUTGOING], 0)
  {
    t := UnusedNumber(w.broker.tasks.Keys);
    actions, w' := Onward(w, [], w, O.Ask(id, t));
  }

  lemma RequestIsSent(w: O.World, id: O.OpId, t: TaskId) returns (actions: seq<O.Action>, w': O.World)
    requires Attached(w)
    requires t in w.broker.tasks && w.broker.tasks[t] == B.Publishing(O.RequestEvent(w.addr, id), [O.OUTGOING], 0)
    ensures Leads(w, actions, w') && Requested(w', id) && SameAgent(w, w') && w'.clients == w.clients
  {
    assert B.HasReceiver(w.broker, w.broker.subs[w.link.value].chan);
    actions, w' := Onward(w, [], w, O.Broker(B.Act(t)));
  }

  lemma ClientAsks(w: O.World, id: O.OpId) returns (actions: seq<O.Action>, w': O.World)
    requires Attached(w) && Subscribed(w, id)
    ensures Leads(w, actions, w') && Requested(w', id)
    ensures SameAgent(w, w') && w'.clients.Keys == w.clients.Keys && Tuned(w'.broker, w'.clients[id].sub)
  {
    var begin, t, w1 := RequestBegins(w, id);
    var send;
    send, w' := RequestIsSent(w1, id, t);
    Join(w, begin, w1, send, w');
    actions := begin + send;
  }

  lemma AgentIsHanded(w: O.World, id: O.OpId) returns (actions: seq<O.Action>, w': O.World)
    requires Requested(w, id) && id !in w.replies
    ensures Leads(w, actions, w') && Attached(w')
    ensures w'.replies == w.replies[id := []] && w'.clients == w.clients && Kept(w, w')
  {
    actions, w' := Onward(w, [], w, O.Broker(B.Receive(w.link.value)));
    actions, w' := Onward(w, actions, w', O.Serve);
  }

  /** A new operation, from its client's subscription to the start of its handler. */
  lemma OperationStarts(w: O.World, id: O.OpId) returns (actions: seq<O.Action>, w': O.World)
    requires Attached(w) && id !in w.clients && id !in w.replies
    ensures Leads(w, actions, w') && Attached(w')
    ensures w'.replies == w.replies[id := []] && w'.clients.Keys == w.clients.Keys + {id}
    ensures Kept(w, w') && Tuned(w'.broker, w'.clients[id].sub)
  {
    var subscribe, w1 := ClientSubscribes(w, id);
    var ask, w2 := ClientAsks(w1, id);
    var hand;
    hand, w' := AgentIsHanded(w2, id);
    Join(w, subscribe, w1, ask, w2);
    Join(w, subscribe + ask, w2, hand, w');
    actions := subscribe + ask + hand;
  }

  /** Between two steps of the agent: every client listens, and what is on the wire are replies. */
  ghost predicate Settled(w: O.World)
  {
    && Attached(w) && w.incoming.None?
    && (forall id :: id in w.clients ==> Tuned(w.broker, w.clients[id].sub))
    && (forall e :: e in w.wire ==> O.IsReply(e))
    && (w.wire != [] ==> O.OPERATION in w.broker.topics)
  }

  lemma StartSettles(w: O.World, id: O.OpId) returns (actions: seq<O.Action>, w': O.World)
    requires Settled(w) && id !in w.clients && id !in w.replies
    ensures Leads(w, actions, w') && Settled(w')
    ensures w'.replies == w.replies[id := []] && w'.clients.Keys == w.clients.Keys + {id}
  {
    actions, w' := OperationStarts(w, id);
    forall k | k in w'.clients ensures Tuned(w'.broker, w'.clients[k].sub) {
      if k != id { assert k in w.clients && Tuned(w.broker, w.clients[k].sub); }
    }
  }

  lemma SendSettles(before: Task, after: Task, w: O.World, id: O.OpId) returns (actions: seq<O.Action>, w': O.World)
    requires Conforms(before, after) && Settled(w) && id in w.clients
    requires id in w.replies && w.replies[id] == before.trace
    ensures Leads(w, actions, w') && Settled(w') && w'.clients == w.clients
    ensures w'.replies == w.replies[id := after.trace]
  {
    actions, w' := TaskSends(before, after, w, id);
  }

  // ---- Agent and world together ----------------------------------------------------------

  /** Different tasks serve different operations. */
  ghost predicate Distinct(ids: TaskId -> O.OpId) { forall t, u :: ids(t) == ids(u) ==> t == u }

  ghost function Served(tasks: map<TaskId, Task>, ids: TaskId -> O.OpId): set<O.OpId> { set t | t in tasks :: ids(t) }

  /** The operations are those of the tasks, and each has the replies of its task. */
  ghost predicate Matches(tasks: map<TaskId, Task>, replies: map<O.OpId, seq<Status>>, ids: TaskId -> O.OpId)
  {
    replies.Keys == Served(tasks, ids) && forall t :: t in tasks ==> replies[ids(t)] == tasks[t].trace
  }

  ghost predicate Mirrors(s: State, w: O.World, ids: TaskId -> O.OpId)
  {
    Matches(s.tasks, w.replies, ids) && w.clients.Keys == w.replies.Keys
  }

  lemma UnusedId(tasks: map<TaskId, Task>, t: TaskId, ids: TaskId -> O.OpId)
    requires t !in tasks && Distinct(ids)
    ensures ids(t) !in Served(tasks, ids)
  {
  }

  /** A task that is new or has sent more still matches its operation. */
  lemma OneMoves(tasks: map<TaskId, Task>, t: TaskId, task: Task, replies: map<O.OpId, seq<Status>>,
                 ids: TaskId -> O.OpId)
    requires Distinct(ids) && Matches(tasks, replies, ids)
    ensures Matches(tasks[t := task], replies[ids(t) := task.trace], ids)
  {
    assert Served(tasks[t := task], ids) == Served(tasks, ids) + {ids(t)};
    forall u | u in tasks ensures ids(u) in replies && (u != t ==> ids(u) != ids(t)) {
      assert ids(u) in Served(tasks, ids);
    }
  }

  lemma NewTaskMirrored(tasks: map<TaskId, Task>, t: TaskId, task: Task, w: O.World, ids: TaskId -> O.OpId)
    returns (actions: seq<O.Action>, w': O.World)
    requires t !in tasks && task.trace == [] && Distinct(ids)
    requires Settled(w) && Matches(tasks, w.replies, ids) && w.clients.Keys == w.replies.Keys
    ensures Leads(w, actions, w') && Settled(w')
    ensures Matches(tasks[t := task], w'.replies, ids) && w'.clients.Keys == w'.replies.Keys
  {
    UnusedId(tasks, t, ids);
    actions, w' := StartSettles(w, ids(t));
    OneMoves(tasks, t, task, w.replies, ids);
  }

  lemma ActMirrored(s: State, t: TaskId, c: Choice, s': State, w: O.World, ids: TaskId -> O.OpId)
    returns (actions: seq<O.Action>, w': O.World)
    requires Inv(s) && TracesOk(s) && t in s.tasks && NextOf(s, t, c) == Some(s')
    requires Distinct(ids) && Settled(w) && Mirrors(s, w, ids)
    ensures Leads(w, actions, w') && Settled(w') && Mirrors(s', w', ids)
  {
    assert ids(t) in Served(s.tasks, ids);
    StepConforms(s, t, c, s');
    actions, w' := SendSettles(s.tasks[t], s'.tasks[t], w, ids(t));
    ActKeeps(s, t, c, s');
    OneMoves(s.tasks, t, s'.tasks[t], w.replies, ids);
  }

  lemma StepMirrored(s: State, a: Action, s': State, w: O.World, ids: TaskId -> O.OpId)
    returns (world: seq<O.Action>, w': O.World)
    requires Inv(s) && TracesOk(s) && Next(s, a) == Some(s')
    requires Distinct(ids) && Settled(w) && Mirrors(s, w, ids)
    ensures Leads(w, world, w') && Settled(w') && Mirrors(s', w', ids)
  {
    match a
    case Spawn(t, pc) => world, w' := NewTaskMirrored(s.tasks, t, s'.tasks[t], w, ids);
    case Act(t, c) => world, w' := ActMirrored(s, t, c, s', w, ids);
    case Exit(_) =>
      world, w' := [], w;
  }

  lemma {:induction false} RunMirrored(s: State, actions: seq<Action>, w: O.World, ids: TaskId -> O.OpId)
    returns (world: seq<O.Action>, w': O.World)
    requires Inv(s) && TracesOk(s) && Run(s, actions).Some?
    requires Distinct(ids) && Settled(w) && Mirrors(s, w, ids)
    ensures Leads(w, world, w') && Settled(w') && Mirrors(Run(s, actions).value, w', ids)
    decreases |actions|
  {
    if actions == [] {
      world, w' := [], w;
    } else {
      var next := Next(s, actions[0]).value;
      NextKeeps(s, actions[0], next);
      var first, now := StepMirrored(s, actions[0], next, w, ids);
      var rest;
      rest, w' := RunMirrored(next, actions[1..], now, ids);
      Join(w, first, now, rest, w');
      world := first + rest;
    }
  }

  /** Every run of the agent is part of a run of the whole protocol, from nothing exchanged on: every
      request came from a client that was listening first, through the broker and the connection;
      every operation has emitted exactly its handler's replies, and nothing else was emitted. */
  lemma EveryRunIsServed(s: State, actions: seq<Action>, now: State, w: O.World, ids: TaskId -> O.OpId)
    returns (world: seq<O.Action>, w': O.World)
    requires Init(s) && Run(s, actions) == Some(now) && Distinct(ids) && C.Init(w) && w.broker.capacity >= 1
    ensures P.FlowInv(w) && C.ClientInv(w) && C.Run(w, world) == Some(w')
    ensures w'.replies.Keys == w'.clients.Keys == Served(now.tasks, ids)
    ensures forall t :: t in now.tasks ==> O.Emitted(w', ids(t)) == now.tasks[t].trace
    ensures forall t :: t in now.tasks && !now.tasks[t].acks ==> Ack !in O.Emitted(w', ids(t))
  {
    var connect, w1 := Connects(w);
    assert Mirrors(s, w1, ids);
    var rest;
    rest, w' := RunMirrored(s, actions, w1, ids);
    Join(w, connect, w1, rest, w');
    world := connect + rest;
    C.InitHolds(w);
    LeadsIsRun(w, world, w');
    RunKeeps(s, actions);
    forall t | t in now.tasks && !now.tasks[t].acks ensures Ack !in O.Emitted(w', ids(t)) { TraceShape(now.tasks[t]); }
  }
}
