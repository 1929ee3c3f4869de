/** What the protocol keeps at every step, and what each client therefore receives. */
module OperationProofs {
  import opened Basics
  import opened OperationTrace
  import opened Operations
  import B = EventBroker
  import R = EventBrokerRuns

  // ---- Steps of the broker ---------------------------------------------------------------

  ghost predicate SamePublisher(p: B.Pc, q: B.Pc)
  {
    && IsPublisher(p) && IsPublisher(q) && q.event == p.event && q.order == p.order && q.sent == p.sent
    && (Finishes(p) ==> q == p)
  }

  /** A step that sends nothing leaves every publisher where it is. */
  ghost predicate SendsNothing(b: B.State, b': B.State)
  {
    && b'.history == b.history
    && (forall t :: t in b.tasks && IsPublisher(b.tasks[t]) ==> t in b'.tasks && SamePublisher(b.tasks[t], b'.tasks[t]))
    && (forall t :: t in b'.tasks && IsPublisher(b'.tasks[t]) ==> t in b.tasks && IsPublisher(b.tasks[t]))
  }

  /** A step in which publisher `t` sends its event to the next of its topics. */
  ghost predicate Sends(b: B.State, b': B.State, t: TaskId)
  {
    && t in b.tasks && IsPublisher(b.tasks[t])
    && var pc := b.tasks[t];
    && pc.sent < |pc.order| && B.IsOrder(pc.order, pc.event.tags.Keys)
    && b'.history == b.history + [B.Sent(t, pc.order[pc.sent], pc.event)]
    && b'.tasks == b.tasks[t := B.Publishing(pc.event, pc.order, pc.sent + 1)]
    && b'.subs == b.subs
  }

  lemma PublishShape(b: B.State, t: TaskId)
    requires B.Inv(b) && t in b.tasks && B.StepOf(b, t).Some? && IsPublisher(b.tasks[t])
    ensures SendsNothing(b, B.StepOf(b, t).value) || Sends(b, B.StepOf(b, t).value, t)
  {
    assert B.TaskOk(b, t);
  }

  lemma SubscribeShape(b: B.State, t: TaskId)
    requires B.Inv(b) && t in b.tasks && B.StepOf(b, t).Some? && !IsPublisher(b.tasks[t])
    ensures SendsNothing(b, B.StepOf(b, t).value)
  {
    assert B.TaskOk(b, t);
  }

  lemma StepShape(b: B.State, a: B.Action)
    requires B.Inv(b) && B.Next(b, a).Some? && !(a.Spawn? && IsPublisher(a.pc))
    ensures SendsNothing(b, B.Next(b, a).value) || (a.Act? && Sends(b, B.Next(b, a).value, a.t))
  {
    if a.Act? {
      if IsPublisher(b.tasks[a.t]) { PublishShape(b, a.t); } else { SubscribeShape(b, a.t); }
    }
  }

  // ---- Replies flow through unchanged ----------------------------------------------------

  /** A publisher has finished, or is the incoming task, or carries some client's request. */
  ghost predicate PubOk(w: World, t: TaskId)
    requires t in w.broker.tasks
  {
    var pc := w.broker.tasks[t];
    IsPublisher(pc) ==>
      || Finishes(pc)
      || (w.incoming == Some(t) && (IsReply(pc.event) || IsLine(pc.event)))
      || (pc.event.content.Request? && pc.event.content.id in w.clients
          && w.clients[pc.event.content.id].request == Some(t)
          && pc.event == RequestEvent(w.addr, pc.event.content.id))
  }

  ghost predicate IncomingOk(w: World)
  {
    w.incoming.Some? ==>
      && w.incoming.value in w.broker.tasks
      && var pc := w.broker.tasks[w.incoming.value];
      && IsPublisher(pc) && (IsReply(pc.event) || IsLine(pc.event)) && B.IsOrder(pc.order, pc.event.tags.Keys)
  }

  ghost predicate WireOk(w: World)
  {
    forall i :: 0 <= i < |w.wire| ==> IsReply(w.wire[i]) || IsLine(w.wire[i])
  }

  /** What the agent sent is in the channel, in the incoming task's hands or on the wire. */
  ghost predicate FlowOk(w: World, id: OpId)
  {
    Emitted(w, id) == Told(B.Project(w.broker.history, OPERATION), id) + Unsent(w, id) + Told(w.wire, id)
  }

  ghost predicate FlowInv(w: World)
  {
    && B.Inv(w.broker) && R.Once(w.broker)
    && IncomingOk(w) && WireOk(w)
    && (forall t {:trigger PubOk(w, t)} :: t in w.broker.tasks ==> PubOk(w, t))
    && (forall id {:trigger FlowOk(w, id)} :: FlowOk(w, id))
  }

  lemma SingleOrder(order: seq<B.Topic>, topic: B.Topic)
    requires B.IsOrder(order, {topic})
    ensures order == [topic]
  {
    assert topic in order;
    assert order[0] in order && order[|order| - 1] in order;
  }

  lemma IncomingOrder(w: World)
    requires IncomingOk(w) && w.incoming.Some?
    ensures var pc := w.broker.tasks[w.incoming.value]; IsReply(pc.event) ==> pc.order == [OPERATION]
  {
    var pc := w.broker.tasks[w.incoming.value];
    if IsReply(pc.event) {
      assert pc.event.tags.Keys == {OPERATION};
      SingleOrder(pc.order, OPERATION);
    }
  }

  lemma NotOutside(w: World, t: TaskId, b': B.State)
    requires FlowInv(w) && Sends(w.broker, b', t)
    ensures var pc := w.broker.tasks[t];
      && pc.order[pc.sent] in pc.event.tags
      && (w.incoming != Some(t) ==>
            && pc.event.content.Request? && pc.event == RequestEvent(w.addr, pc.event.content.id)
            && pc.order[pc.sent] == OUTGOING)
  {
    var pc := w.broker.tasks[t];
    assert pc.order[pc.sent] in pc.order;
    assert PubOk(w, t);
  }

  /** A send adds to the operation topic exactly what the incoming task still had to send. */
  lemma SendAdds(w: World, b': B.State, t: TaskId, id: OpId)
    requires FlowInv(w) && Sends(w.broker, b', t)
    ensures Told(B.Project(b'.history, OPERATION), id) + Unsent(w.(broker := b'), id)
         == Told(B.Project(w.broker.history, OPERATION), id) + Unsent(w, id)
  {
    var pc := w.broker.tasks[t];
    NotOutside(w, t, b');
    TopicsDiffer();
    B.Snoc(w.broker.history, B.Sent(t, pc.order[pc.sent], pc.event), OPERATION, t);
    ToldOne(pc.event, id);
    if w.incoming == Some(t) && IsReply(pc.event) {
      IncomingOrder(w);
      ToldSnoc(B.Project(w.broker.history, OPERATION), pc.event, id);
      assert Unsent(w, id) == Told([pc.event], id) && Unsent(w.(broker := b'), id) == [];
    } else {
      assert pc.order[pc.sent] != OPERATION;
      assert B.Project(b'.history, OPERATION) == B.Project(w.broker.history, OPERATION);
      assert Unsent(w.(broker := b'), id) == Unsent(w, id);
    }
  }

  lemma SendFlows(w: World, b': B.State, t: TaskId, id: OpId)
    requires FlowInv(w) && Sends(w.broker, b', t)
    ensures FlowOk(w.(broker := b'), id)
  {
    assert FlowOk(w, id);
    SendAdds(w, b', t, id);
  }

  lemma QuietFlows(w: World, b': B.State, id: OpId)
    requires FlowInv(w) && SendsNothing(w.broker, b')
    ensures FlowOk(w.(broker := b'), id)
  {
    assert FlowOk(w, id);
  }

  lemma PublishersStay(w: World, b': B.State, t: TaskId)
    requires FlowInv(w) && t in b'.tasks
    requires SendsNothing(w.broker, b') || exists u :: Sends(w.broker, b', u)
    ensures PubOk(w.(broker := b'), t) && IncomingOk(w.(broker := b'))
  {
    if t in w.broker.tasks { assert PubOk(w, t); }
  }

  lemma BrokerFlows(w: World, a: B.Action, w': World)
    requires FlowInv(w) && B.Next(w.broker, a) == Some(w'.broker) && !(a.Spawn? && IsPublisher(a.pc))
    requires w' == w.(broker := w'.broker)
    ensures FlowInv(w')
  {
    R.NextOnce(w.broker, a);
    StepShape(w.broker, a);
    forall id {:trigger FlowOk(w', id)} ensures FlowOk(w', id) {
      if SendsNothing(w.broker, w'.broker) { QuietFlows(w, w'.broker, id); } else { SendFlows(w, w'.broker, a.t, id); }
    }
    forall t {:trigger PubOk(w', t)} | t in w'.broker.tasks ensures PubOk(w', t) { PublishersStay(w, w'.broker, t); }
    if w.incoming.Some? { PublishersStay(w, w'.broker, w.incoming.value); }
  }

  /** The client map matters only for requests under way. */
  lemma ClientsFlow(w: World, clients: map<OpId, Client>)
    requires FlowInv(w)
    requires forall id :: id in w.clients ==>
      id in clients && (w.clients[id].request.Some? ==> clients[id].request == w.clients[id].request)
    ensures FlowInv(w.(clients := clients))
  {
    var w' := w.(clients := clients);
    forall t {:trigger PubOk(w', t)} | t in w'.broker.tasks ensures PubOk(w', t) { assert PubOk(w, t); }
    forall id {:trigger FlowOk(w', id)} ensures FlowOk(w', id) { assert FlowOk(w, id); }
  }

  lemma AskFlows(w: World, id: OpId, t: TaskId)
    requires FlowInv(w) && Next(w, Ask(id, t)).Some?
    ensures FlowInv(Next(w, Ask(id, t)).value)
  {
    var w' := Next(w, Ask(id, t)).value;
    R.NextOnce(w.broker, B.Spawn(t, B.Publishing(RequestEvent(w.addr, id), [OUTGOING], 0)));
    forall u {:trigger PubOk(w', u)} | u in w'.broker.tasks ensures PubOk(w', u) {
      if u != t { assert PubOk(w, u); }
    }
    forall x {:trigger FlowOk(w', x)} ensures FlowOk(w', x) { assert FlowOk(w, x); }
  }

  lemma ReadyMeansSent(w: World, id: OpId)
    requires IncomingOk(w) && Ready(w)
    ensures Unsent(w, id) == []
  {
    if w.incoming.Some? {
      IncomingOrder(w);
      ToldOne(w.broker.tasks[w.incoming.value].event, id);
    }
  }

  lemma TakesFromWire(w: World, w': World, id: OpId)
    requires FlowOk(w, id) && Unsent(w, id) == [] && w.wire != [] && w'.wire == w.wire[1..]
    requires w'.replies == w.replies && w'.broker.history == w.broker.history && Unsent(w', id) == Told([w.wire[0]], id)
    ensures FlowOk(w', id)
  {
    assert w.wire == [w.wire[0]] + w'.wire;
    ToldAppends([w.wire[0]], w'.wire, id);
  }

  lemma PublishFlows(w: World, t: TaskId, order: seq<B.Topic>)
    requires FlowInv(w) && Next(w, Publish(t, order)).Some?
    ensures FlowInv(Next(w, Publish(t, order)).value)
  {
    var w' := Next(w, Publish(t, order)).value;
    R.NextOnce(w.broker, B.Spawn(t, B.Publishing(w.wire[0], order, 0)));
    forall u {:trigger PubOk(w', u)} | u in w'.broker.tasks ensures PubOk(w', u) {
      if u != t { assert PubOk(w, u); }
    }
    forall id {:trigger FlowOk(w', id)} ensures FlowOk(w', id) {
      assert FlowOk(w, id);
      ReadyMeansSent(w, id);
      TakesFromWire(w, w', id);
    }
  }

  lemma PutsOnWire(w: World, w': World, e: B.Event, id: OpId)
    requires FlowOk(w, id) && w'.wire == w.wire + [e] && w'.broker == w.broker && w'.incoming == w.incoming
    requires Emitted(w', id) == Emitted(w, id) + Told([e], id)
    ensures FlowOk(w', id)
  {
    ToldSnoc(w.wire, e, id);
  }

  lemma EmitFlows(w: World, id: OpId, status: Status)
    requires FlowInv(w) && Next(w, Emit(id, status)).Some?
    ensures FlowInv(Next(w, Emit(id, status)).value)
  {
    var w' := Next(w, Emit(id, status)).value;
    forall t {:trigger PubOk(w', t)} | t in w'.broker.tasks ensures PubOk(w', t) { assert PubOk(w, t); }
    forall x {:trigger FlowOk(w', x)} ensures FlowOk(w', x) {
      assert FlowOk(w, x);
      ToldOne(ReplyEvent(id, status), x);
      PutsOnWire(w, w', ReplyEvent(id, status), x);
    }
  }

  lemma ChatterFlows(w: World, line: B.Event)
    requires FlowInv(w) && Next(w, Chatter(line)).Some?
    ensures FlowInv(Next(w, Chatter(line)).value)
  {
    var w' := Next(w, Chatter(line)).value;
    forall t {:trigger PubOk(w', t)} | t in w'.broker.tasks ensures PubOk(w', t) { assert PubOk(w, t); }
    forall x {:trigger FlowOk(w', x)} ensures FlowOk(w', x) {
      assert FlowOk(w, x);
      ToldOne(line, x);
      PutsOnWire(w, w', line, x);
    }
  }

  lemma ServeFlows(w: World)
    requires FlowInv(w) && Next(w, Serve).Some?
    ensures FlowInv(Next(w, Serve).value)
  {
    var w' := Next(w, Serve).value;
    forall t {:trigger PubOk(w', t)} | t in w'.broker.tasks ensures PubOk(w', t) { assert PubOk(w, t); }
    forall x {:trigger FlowOk(w', x)} ensures FlowOk(w', x) { assert FlowOk(w, x); }
  }

  lemma FlowStep(w: World, a: Action)
    requires FlowInv(w) && Next(w, a).Some?
    ensures FlowInv(Next(w, a).value)
  {
    var w' := Next(w, a).value;
    match a
    case Begin(id, t) =>
      var w1 := Spawned(w, t, B.Subscribing(OPERATION, Is(id))).value;
      BrokerFlows(w, B.Spawn(t, B.Subscribing(OPERATION, Is(id))), w1);
      ClientsFlow(w1, w'.clients);
    case Ask(id, t) => AskFlows(w, id, t);
    case Connect(t) =>
      var w1 := Spawned(w, t, B.Subscribing(OUTGOING, Is(w.addr))).value;
      BrokerFlows(w, B.Spawn(t, B.Subscribing(OUTGOING, Is(w.addr))), w1);
      LinkFlows(w1, w');
    case Serve => ServeFlows(w);
    case Emit(id, status) => EmitFlows(w, id, status);
    case Chatter(line) => ChatterFlows(w, line);
    case Publish(t, order) => PublishFlows(w, t, order);
    case Broker(b) => BrokerFlows(w, b, w');
  }

  lemma LinkFlows(w: World, w': World)
    requires FlowInv(w) && w' == w.(link := w'.link)
    ensures FlowInv(w')
  {
    forall t {:trigger PubOk(w', t)} | t in w'.broker.tasks ensures PubOk(w', t) { assert PubOk(w, t); }
    forall x {:trigger FlowOk(w', x)} ensures FlowOk(w', x) { assert FlowOk(w, x); }
  }
}
