/** From the agent's handlers to the clients: every run of the agent is part of a run of the protocol
    at whose end each client has been given exactly its handler's replies. */
module AgentDelivery {
  import opened Basics
  import opened OperationTrace
  import opened AgentMachine
  import opened AgentInvariant
  import opened AgentRuns
  import opened AgentReplies
  import opened AgentProtocol
  import B = EventBroker
  import O = Operations
  import P = OperationProofs
  import C = OperationClients

  // ---- Publishing what is on the wire ----------------------------------------------------

  /** Subscriber `u` has one reply still to read. */
  ghost predicate Behind(b: B.State, u: TaskId)
  {
    && u in b.subs && O.OPERATION in b.topics && b.topics[O.OPERATION] < |b.channels|
    && var sub := b.subs[u];
    && sub.alive && !sub.lagged && sub.topic == O.OPERATION && sub.chan == b.topics[O.OPERATION]
    && sub.cursor + 1 == |b.channels[sub.chan].log|
  }

  /** What is on the wire can be published and read. */
  ghost predicate Draining(w: O.World)
  {
    && B.Sound(w.broker) && w.broker.capacity >= 1 && O.Ready(w)
    && (forall e :: e in w.wire ==> O.IsReply(e))
    && (w.wire != [] ==> O.OPERATION in w.broker.topics)
  }

  ghost predicate AllTuned(w: O.World) { forall id :: id in w.clients ==> Tuned(w.broker, w.clients[id].sub) }

  /** Every client is tuned, or among `left` and one reply behind. */
  ghost predicate AllButTuned(w: O.World, left: set<TaskId>)
  {
    forall id :: id in w.clients ==>
      var u := w.clients[id].sub; Tuned(w.broker, u) || (u in left && Behind(w.broker, u))
  }

  lemma Reads(w: O.World, u: TaskId) returns (actions: seq<O.Action>, w': O.World)
    requires Draining(w) && Behind(w.broker, u)
    ensures Leads(w, actions, w') && w' == w.(broker := w'.broker) && Draining(w') && Tuned(w'.broker, u)
    ensures forall v :: v != u && Tuned(w.broker, v) ==> Tuned(w'.broker, v)
    ensures forall v :: v != u && Behind(w.broker, v) ==> Behind(w'.broker, v)
  {
    actions, w' := Onward(w, [], w, O.Broker(B.Receive(u)));
  }

  /** Everybody reads the reply that was published last. */
  lemma {:induction false} CatchUp(w: O.World, left: set<TaskId>) returns (actions: seq<O.Action>, w': O.World)
    requires Draining(w) && AllButTuned(w, left)
    ensures Leads(w, actions, w') && w' == w.(broker := w'.broker) && Draining(w') && AllTuned(w')
    decreases left
  {
    if left == {} {
      actions, w' := [], w;
    } else {
      var u :| u in left;
      var now, rest := w, [];
      actions := [];
      if Behind(w.broker, u) { actions, now := Reads(w, u); }
      rest, w' := CatchUp(now, left - {u});
      Join(w, actions, now, rest, w');
      actions := actions + rest;
    }
  }

  /** The next message is taken off the wire. */
  lemma TakesNext(w: O.World) returns (actions: seq<O.Action>, t: TaskId, w': O.World)
    requires Draining(w) && w.wire != []
    ensures Leads(w, actions, w') && t !in w.broker.tasks && w'.wire == w.wire[1..] && w'.incoming == Some(t)
    ensures w' == w.(broker := w'.broker, wire := w'.wire, incoming := w'.incoming)
    ensures w'.broker == B.Move(w.broker, t, B.Publishing(w.wire[0], [O.OPERATION], 0))
  {
    t := UnusedNumber(w.broker.tasks.Keys);
    assert w.wire[0] in w.wire;
    actions, w' := Onward(w, [], w, O.Publish(t, [O.OPERATION]));
  }

  /** And sent to everybody who listens. */
  lemma SendsNext(w: O.World, t: TaskId) returns (actions: seq<O.Action>, w': O.World)
    requires B.Sound(w.broker) && w.broker.capacity >= 1 && O.OPERATION in w.broker.topics && w.incoming == Some(t)
    requires t in w.broker.tasks && w.broker.tasks[t].Publishing? && w.broker.tasks[t].order == [O.OPERATION]
    requires w.broker.tasks[t].sent == 0 && AllTuned(w) && forall e :: e in w.wire ==> O.IsReply(e)
    ensures Leads(w, actions, w') && w' == w.(broker := w'.broker) && Draining(w')
    ensures AllButTuned(w', w'.broker.subs.Keys)
  {
    actions, w' := Onward(w, [], w, O.Broker(B.Act(t)));
    forall id | id in w'.clients ensures Behind(w'.broker, w'.clients[id].sub) {
      assert Tuned(w.broker, w.clients[id].sub);
      assert B.HasReceiver(w.broker, w.broker.topics[O.OPERATION]);
    }
  }

  lemma DeliversOne(w: O.World) returns (actions: seq<O.Action>, w': O.World)
    requires Draining(w) && AllTuned(w) && w.wire != []
    ensures Leads(w, actions, w') && Draining(w') && AllTuned(w')
    ensures w'.replies == w.replies && w'.clients == w.clients && w'.wire == w.wire[1..]
  {
    var take, t, w1 := TakesNext(w);
    assert forall u :: Tuned(w.broker, u) ==> Tuned(w1.broker, u);
    var send, w2 := SendsNext(w1, t);
    var read;
    read, w' := CatchUp(w2, w2.broker.subs.Keys);
    Join(w, take, w1, send, w2);
    Join(w, take + send, w2, read, w');
    actions := take + send + read;
  }

  /** Everything on the wire reaches every client. */
  lemma {:induction false} DeliversAll(w: O.World) returns (actions: seq<O.Action>, w': O.World)
    requires Draining(w) && AllTuned(w)
    ensures Leads(w, actions, w') && Draining(w') && AllTuned(w') && w'.wire == []
    ensures w'.replies == w.replies && w'.clients == w.clients
    decreases |w.wire|
  {
    if w.wire == [] {
      actions, w' := [], w;
    } else {
      var first, now := DeliversOne(w);
      var rest;
      rest, w' := DeliversAll(now);
      Join(w, first, now, rest, w');
      actions := first + rest;
    }
  }

  // ---- What the clients are given --------------------------------------------------------

  /** When nothing is on its way, a client that has read everything has the whole trace. */
  lemma TunedIsGivenAll(w: O.World, id: O.OpId)
    requires P.FlowInv(w) && C.ClientInv(w) && O.Ready(w) && w.wire == []
    requires id in w.clients && Tuned(w.broker, w.clients[id].sub)
    ensures C.Listening(w, id) && C.Given(w, id) == O.Emitted(w, id)
  {
    C.Receives(w, id);
    P.ReadyMeansSent(w, id);
    var sub := w.broker.subs[w.clients[id].sub];
    assert w.broker.channels[sub.chan].log[sub.cursor..] == [];
    assert C.Waiting(w, w.clients[id].sub) == [];
  }

  /** What a client makes of the replies of a handler that has ended: an acknowledged operation's
      stream closes with the final status, any other gives its one answer. */
  predicate Concluded(given: seq<Status>)
  {
    && given != []
    && (given[0] == Ack ==>
          C.AckOrTimeout(given) == C.Stream(given[1..]) && C.MayClose(given[1..], |given| - 1))
    && (given[0] != Ack ==> C.ResponseOrTimeout(given) == C.Response(given[0]) && SingleReply(given))
  }

  lemma FinishedConcludes(given: seq<Status>)
    requires Finished(given)
    ensures Concluded(given)
  {
    if given[0] == Ack { assert given[1..][|given| - 2] == given[|given| - 1]; }
  }

  /** The client of `id` has been given exactly what `task` has sent, and has its answer once the task
      has ended. */
  ghost predicate Hears(w: O.World, id: O.OpId, task: Task)
  {
    && C.Listening(w, id) && C.Given(w, id) == task.trace
    && (task.pc.Done? ==> Concluded(C.Given(w, id)))
  }

  lemma TunedHears(w: O.World, id: O.OpId, task: Task)
    requires P.FlowInv(w) && C.ClientInv(w) && O.Ready(w) && w.wire == []
    requires id in w.clients && Tuned(w.broker, w.clients[id].sub) && O.Emitted(w, id) == task.trace && TraceOk(task)
    ensures Hears(w, id, task)
  {
    TunedIsGivenAll(w, id);
    TraceShape(task);
    if task.pc.Done? { FinishedConcludes(task.trace); }
  }

  /** Every run of the agent is part of a run of the whole protocol, from nothing exchanged on, at whose
      end every operation's client is listening and has been given exactly its handler's replies;
      the client of a handler that has ended has its answer, or its stream may close. */
  lemma EveryClientHears(s: State, actions: seq<Action>, now: State, w: O.World, ids: TaskId -> O.OpId)
    returns (world: seq<O.Action>, w': O.World)
    requires Init(s) && Run(s, actions) == Some(now) && Distinct(ids) && C.Init(w) && w.broker.capacity >= 1
    ensures P.FlowInv(w) && C.ClientInv(w) && C.Run(w, world) == Some(w')
    ensures w'.replies.Keys == w'.clients.Keys == Served(now.tasks, ids)
    ensures forall t :: t in now.tasks ==> Hears(w', ids(t), now.tasks[t])
  {
    var connect, w1 := Connects(w);
    var serve, w2 := RunMirrored(s, actions, w1, ids);
    var deliver;
    deliver, w' := DeliversAll(w2);
    Join(w, connect, w1, serve, w2);
    Join(w, connect + serve, w2, deliver, w');
    world := connect + serve + deliver;
    C.InitHolds(w);
    LeadsIsRun(w, world, w');
    RunKeeps(s, actions);
    forall t | t in now.tasks ensures Hears(w', ids(t), now.tasks[t]) {
      assert ids(t) in Served(now.tasks, ids);
      TunedHears(w', ids(t), now.tasks[t]);
    }
  }
}
