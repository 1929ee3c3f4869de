/** Each client receives exactly the replies to its own operation. */
module OperationClients {
  import opened Basics
  import opened OperationTrace
  import opened Operations
  import opened OperationProofs
  import B = EventBroker
  import R = EventBrokerRuns

  // ---- Invariant -------------------------------------------------------------------------

  predicate IsRequest(w: World, e: B.Event) { e.content.Request? && e == RequestEvent(w.addr, e.content.id) }

  /** Only replies go to the operation topic, only requests to the outgoing topic. */
  ghost predicate HistoryOk(w: World)
  {
    forall i {:trigger w.broker.history[i]} :: 0 <= i < |w.broker.history| ==>
      && (w.broker.history[i].topic == OPERATION ==> IsReply(w.broker.history[i].event))
      && (w.broker.history[i].topic == OUTGOING ==> IsRequest(w, w.broker.history[i].event))
  }

  /** How often operation `id` has been requested, and whether its client has sent the request. */
  ghost function Asked(w: World, id: OpId): nat
  {
    multiset(B.Project(w.broker.history, OUTGOING))[RequestEvent(w.addr, id)]
  }

  function HasAsked(w: World, id: OpId): nat
  {
    if id in w.clients && w.clients[id].request.Some? && w.clients[id].request.value in w.broker.tasks
       && w.broker.tasks[w.clients[id].request.value].Publishing?
       && w.broker.tasks[w.clients[id].request.value].sent >= 1
    then 1 else 0
  }

  ghost predicate AskedOk(w: World, id: OpId) { Asked(w, id) <= HasAsked(w, id) }

  ghost predicate RequestOk(w: World, id: OpId)
    requires id in w.clients
  {
    w.clients[id].request.Some? ==>
      && w.clients[id].request.value in w.broker.tasks
      && var pc := w.broker.tasks[w.clients[id].request.value];
      && IsPublisher(pc) && pc.event == RequestEvent(w.addr, id) && pc.order == [OUTGOING]
  }

  ghost predicate AboutToSubscribe(b: B.State, u: TaskId, topic: B.Topic, wants: string -> bool)
  {
    && u in b.tasks && u !in b.subs
    && (b.tasks[u] == B.Subscribing(topic, wants) || b.tasks[u] == B.CreatingToSubscribe(topic, wants))
  }

  /** Nothing about `id` was in the channel before its client's subscription. */
  ghost predicate SubscriberOk(w: World, id: OpId)
    requires id in w.clients
  {
    var u := w.clients[id].sub;
    if u in w.broker.subs then
      var sub := w.broker.subs[u];
      && sub.topic == OPERATION && sub.wants == Is(id) && sub.since <= |w.broker.history|
      && Told(B.Project(w.broker.history[..sub.since], OPERATION), id) == []
    else w.clients[id].request.None? && AboutToSubscribe(w.broker, u, OPERATION, Is(id))
  }

  ghost predicate LinkOk(w: World)
  {
    if w.link.Some? && w.link.value in w.broker.subs then
      w.broker.subs[w.link.value].topic == OUTGOING && w.taken <= |w.broker.subs[w.link.value].delivered|
    else
      && w.taken == 0 && w.replies == map[]
      && (w.link.Some? ==> AboutToSubscribe(w.broker, w.link.value, OUTGOING, Is(w.addr)))
  }

  /** A running handler was started by a request that the connection handed over. */
  ghost predicate StartedOk(w: World, id: OpId)
    requires id in w.replies
  {
    && w.link.Some? && w.link.value in w.broker.subs && w.taken <= |w.broker.subs[w.link.value].delivered|
    && RequestEvent(w.addr, id) in w.broker.subs[w.link.value].delivered[..w.taken]
    && (Unfinished(w.replies[id]) || Finished(w.replies[id]))
  }

  ghost predicate ClientInv(w: World)
  {
    && HistoryOk(w) && LinkOk(w)
    && (forall id {:trigger AskedOk(w, id)} :: AskedOk(w, id))
    && (forall id {:trigger RequestOk(w, id)} :: id in w.clients ==> RequestOk(w, id))
    && (forall id {:trigger SubscriberOk(w, id)} :: id in w.clients ==> SubscriberOk(w, id))
    && (forall id {:trigger StartedOk(w, id)} :: id in w.replies ==> StartedOk(w, id))
  }

  // ---- A request starts one handler ------------------------------------------------------

  lemma {:induction false} ProjectMember(h: seq<B.Sent>, topic: B.Topic, e: B.Event) returns (i: nat)
    requires e in B.Project(h, topic)
    ensures i < |h| && h[i].topic == topic && h[i].event == e
    decreases |h|
  {
    var n := |h| - 1;
    if h[n].topic == topic && h[n].event == e { i := n; } else { i := ProjectMember(h[..n], topic, e); }
  }

  /** What the connection has been given was sent, as often at least. */
  lemma GivenWasSent(w: World, e: B.Event)
    requires FlowInv(w) && LinkOk(w) && w.link.Some? && w.link.value in w.broker.subs
    ensures multiset(w.broker.subs[w.link.value].delivered)[e] <= multiset(B.Project(w.broker.history, OUTGOING))[e]
  {
    var l := w.link.value;
    assert B.SubOk(w.broker, l) && R.OnceOk(w.broker, l);
    R.HistoryCounts(w.broker.history, w.broker.history, w.broker.subs[l].since, OUTGOING);
  }

  lemma ServedWasAsked(w: World, id: OpId)
    requires FlowInv(w) && ClientInv(w) && id in w.replies
    ensures HasAsked(w, id) == 1
  {
    assert StartedOk(w, id) && AskedOk(w, id);
    var delivered := w.broker.subs[w.link.value].delivered;
    assert RequestEvent(w.addr, id) in delivered;
    GivenWasSent(w, RequestEvent(w.addr, id));
  }

  lemma TwiceCounts(s: seq<B.Event>, k: nat, e: B.Event)
    requires k < |s| && e in s[..k] && s[k] == e
    ensures multiset(s)[e] >= 2
  {
    assert s == s[..k] + [s[k]] + s[k + 1..];
    assert multiset(s[..k])[e] >= 1;
  }

  /** Whatever the connection hands over next is a request for an operation not started yet. */
  lemma HandedOverIsNew(w: World)
    requires FlowInv(w) && ClientInv(w) && w.link.Some? && w.link.value in w.broker.subs
    requires w.taken < |w.broker.subs[w.link.value].delivered|
    ensures var e := w.broker.subs[w.link.value].delivered[w.taken]; IsRequest(w, e) && e.content.id !in w.replies
    ensures Next(w, Serve).Some?
  {
    var delivered := w.broker.subs[w.link.value].delivered;
    var e := delivered[w.taken];
    assert e in delivered;
    GivenWasSent(w, e);
    var i := ProjectMember(w.broker.history, OUTGOING, e);
    assert AskedOk(w, e.content.id);
    if e.content.id in w.replies {
      assert StartedOk(w, e.content.id);
      TwiceCounts(delivered, w.taken, e);
    }
  }

  // ---- Steps of the broker ---------------------------------------------------------------

  lemma OthersLeaveIt(b: B.State, a: B.Action, b': B.State, u: TaskId)
    requires B.Inv(b) && B.Next(b, a) == Some(b') && a != B.Act(u) && u in b.tasks && u !in b.subs
    ensures u in b'.tasks && b'.tasks[u] == b.tasks[u] && u !in b'.subs
  {
    if a.Act? { assert B.TaskOk(b, a.t); }
  }

  /** A task about to subscribe stays so or gets its subscription, at the history's end. */
  lemma SubscriberStep(b: B.State, a: B.Action, b': B.State, u: TaskId, topic: B.Topic, wants: string -> bool)
    requires B.Inv(b) && B.Next(b, a) == Some(b') && AboutToSubscribe(b, u, topic, wants)
    ensures if u in b'.subs
      then b'.subs[u].topic == topic && b'.subs[u].wants == wants && b'.subs[u].since == |b'.history| == |b.history|
           && b'.subs[u].delivered == []
      else AboutToSubscribe(b', u, topic, wants)
  {
    if a != B.Act(u) { OthersLeaveIt(b, a, b', u); }
  }

  lemma HistoryStep(w: World, a: B.Action, w': World)
    requires FlowInv(w) && ClientInv(w) && B.Next(w.broker, a) == Some(w'.broker) && w' == w.(broker := w'.broker)
    requires a.Act? && Sends(w.broker, w'.broker, a.t)
    ensures HistoryOk(w')
  {
    var pc := w.broker.tasks[a.t];
    NotOutside(w, a.t, w'.broker);
    TopicsDiffer();
    assert PubOk(w, a.t);
    forall i {:trigger w'.broker.history[i]} | 0 <= i < |w'.broker.history|
      ensures w'.broker.history[i].topic == OPERATION ==> IsReply(w'.broker.history[i].event)
      ensures w'.broker.history[i].topic == OUTGOING ==> IsRequest(w', w'.broker.history[i].event)
    {
      if i < |w.broker.history| { assert w'.broker.history[i] == w.broker.history[i]; }
    }
  }

  lemma AskedGrows(w: World, b': B.State, t: TaskId, id: OpId)
    requires Sends(w.broker, b', t)
    ensures var pc := w.broker.tasks[t];
      Asked(w.(broker := b'), id)
      == Asked(w, id) + if pc.order[pc.sent] == OUTGOING && pc.event == RequestEvent(w.addr, id) then 1 else 0
  {
    var pc := w.broker.tasks[t];
    B.Snoc(w.broker.history, B.Sent(t, pc.order[pc.sent], pc.event), OUTGOING, t);
  }

  lemma HasAskedGrows(w: World, b': B.State, t: TaskId, id: OpId)
    requires Sends(w.broker, b', t) && PubOk(w, t) && (id in w.clients ==> RequestOk(w, id))
    ensures HasAsked(w.(broker := b'), id) >= HasAsked(w, id)
    ensures w.incoming != Some(t) && w.broker.tasks[t].event == RequestEvent(w.addr, id)
      ==> HasAsked(w, id) == 0 && HasAsked(w.(broker := b'), id) == 1
  {
  }

  lemma AskedStep(w: World, b': B.State, t: TaskId, id: OpId)
    requires FlowInv(w) && ClientInv(w) && Sends(w.broker, b', t)
    ensures AskedOk(w.(broker := b'), id)
  {
    NotOutside(w, t, b');
    assert PubOk(w, t) && AskedOk(w, id);
    if id in w.clients { assert RequestOk(w, id); }
    AskedGrows(w, b', t, id);
    HasAskedGrows(w, b', t, id);
    assert w.incoming == Some(t) ==> w.broker.tasks[t].event != RequestEvent(w.addr, id);
  }

  lemma AskedStays(w: World, b': B.State, id: OpId)
    requires ClientInv(w) && SendsNothing(w.broker, b')
    ensures AskedOk(w.(broker := b'), id)
  {
    assert AskedOk(w, id);
    if id in w.clients { assert RequestOk(w, id); }
  }

  lemma RequestStep(w: World, b': B.State, id: OpId)
    requires ClientInv(w) && id in w.clients
    requires SendsNothing(w.broker, b') || exists u :: Sends(w.broker, b', u)
    ensures RequestOk(w.(broker := b'), id)
  {
    assert RequestOk(w, id);
  }

  /** When a client's subscription is made its request is not out yet, so nothing is known of it. */
  lemma NothingToldYet(w: World, id: OpId)
    requires FlowInv(w) && ClientInv(w) && id in w.clients && w.clients[id].request.None?
    ensures Told(B.Project(w.broker.history, OPERATION), id) == []
  {
    if id in w.replies { ServedWasAsked(w, id); }
    assert FlowOk(w, id);
  }

  lemma SubscriberStays(w: World, a: B.Action, b': B.State, id: OpId)
    requires FlowInv(w) && ClientInv(w) && id in w.clients && B.Next(w.broker, a) == Some(b')
    ensures SubscriberOk(w.(broker := b'), id)
  {
    var u := w.clients[id].sub;
    assert SubscriberOk(w, id);
    R.StepExtends(w.broker, a);
    if u in w.broker.subs {
      assert R.SubExtends(w.broker.subs[u], b'.subs[u]);
      assert b'.history[..b'.subs[u].since] == w.broker.history[..b'.subs[u].since];
    } else {
      SubscriberStep(w.broker, a, b', u, OPERATION, Is(id));
      NothingToldYet(w, id);
      assert u in b'.subs ==> b'.history[..b'.subs[u].since] == w.broker.history;
    }
  }

  lemma LinkStep(w: World, a: B.Action, b': B.State)
    requires FlowInv(w) && ClientInv(w) && B.Next(w.broker, a) == Some(b')
    ensures LinkOk(w.(broker := b'))
    ensures forall id :: id in w.replies ==> StartedOk(w.(broker := b'), id)
  {
    R.StepExtends(w.broker, a);
    if w.link.Some? {
      var l := w.link.value;
      if l in w.broker.subs {
        assert R.SubExtends(w.broker.subs[l], b'.subs[l]);
        forall id | id in w.replies ensures StartedOk(w.(broker := b'), id) {
          assert StartedOk(w, id);
          assert b'.subs[l].delivered[..w.taken] == w.broker.subs[l].delivered[..w.taken];
        }
      } else {
        SubscriberStep(w.broker, a, b', l, OUTGOING, Is(w.addr));
      }
    }
  }

  lemma BrokerClients(w: World, a: B.Action, w': World)
    requires FlowInv(w) && ClientInv(w) && B.Next(w.broker, a) == Some(w'.broker) && !(a.Spawn? && IsPublisher(a.pc))
    requires w' == w.(broker := w'.broker)
    ensures ClientInv(w')
  {
    StepShape(w.broker, a);
    forall id {:trigger AskedOk(w', id)} ensures AskedOk(w', id) {
      if SendsNothing(w.broker, w'.broker) { AskedStays(w, w'.broker, id); } else { AskedStep(w, w'.broker, a.t, id); }
    }
    if !SendsNothing(w.broker, w'.broker) { HistoryStep(w, a, w'); }
    forall id {:trigger RequestOk(w', id)} | id in w'.clients ensures RequestOk(w', id) {
      RequestStep(w, w'.broker, id);
    }
    forall id {:trigger SubscriberOk(w', id)} | id in w'.clients ensures SubscriberOk(w', id) {
      SubscriberStays(w, a, w'.broker, id);
    }
    LinkStep(w, a, w'.broker);
  }

  // ---- The other steps -------------------------------------------------------------------

  lemma SpawnClients(w: World, t: TaskId, pc: B.Pc)
    requires FlowInv(w) && ClientInv(w) && t !in w.broker.tasks
    ensures ClientInv(w.(broker := B.Move(w.broker, t, pc)))
  {
    var w' := w.(broker := B.Move(w.broker, t, pc));
    forall id {:trigger RequestOk(w', id)} | id in w'.clients ensures RequestOk(w', id) { assert RequestOk(w, id); }
    forall id {:trigger AskedOk(w', id)} ensures AskedOk(w', id) {
      assert AskedOk(w, id);
      if id in w.clients { assert RequestOk(w, id); }
    }
    forall id {:trigger SubscriberOk(w', id)} | id in w'.clients ensures SubscriberOk(w', id) {
      assert SubscriberOk(w, id);
    }
    forall id {:trigger StartedOk(w', id)} | id in w'.replies ensures StartedOk(w', id) { assert StartedOk(w, id); }
  }

  /** Changing one client's entry, as `Begin` and `Ask` do. */
  lemma EntryClients(w: World, id: OpId, c: Client)
    requires ClientInv(w) && Asked(w, id) == 0
    requires var w' := w.(clients := w.clients[id := c]); RequestOk(w', id) && SubscriberOk(w', id)
    ensures ClientInv(w.(clients := w.clients[id := c]))
  {
    var w' := w.(clients := w.clients[id := c]);
    forall x {:trigger AskedOk(w', x)} ensures AskedOk(w', x) { assert AskedOk(w, x); }
    forall x {:trigger RequestOk(w', x)} | x in w'.clients ensures RequestOk(w', x) {
      if x != id { assert RequestOk(w, x); }
    }
    forall x {:trigger SubscriberOk(w', x)} | x in w'.clients ensures SubscriberOk(w', x) {
      if x != id { assert SubscriberOk(w, x); }
    }
    forall x {:trigger StartedOk(w', x)} | x in w'.replies ensures StartedOk(w', x) { assert StartedOk(w, x); }
  }

  lemma BeginClients(w: World, id: OpId, t: TaskId)
    requires FlowInv(w) && ClientInv(w) && Next(w, Begin(id, t)).Some?
    ensures ClientInv(Next(w, Begin(id, t)).value)
  {
    assert B.TaskOk(w.broker, t) && AskedOk(w, id);
    SpawnClients(w, t, B.Subscribing(OPERATION, Is(id)));
    EntryClients(w.(broker := B.Move(w.broker, t, B.Subscribing(OPERATION, Is(id)))), id, Client(t, None));
  }

  lemma AskClients(w: World, id: OpId, t: TaskId)
    requires FlowInv(w) && ClientInv(w) && Next(w, Ask(id, t)).Some?
    ensures ClientInv(Next(w, Ask(id, t)).value)
  {
    assert AskedOk(w, id) && SubscriberOk(w, id);
    var pc := B.Publishing(RequestEvent(w.addr, id), [OUTGOING], 0);
    SpawnClients(w, t, pc);
    EntryClients(w.(broker := B.Move(w.broker, t, pc)), id, w.clients[id].(request := Some(t)));
  }

  /** Nothing here depends on the wire or on which task is the incoming one. */
  lemma WireClients(w: World, wire: seq<B.Event>, incoming: Option<TaskId>)
    requires ClientInv(w)
    ensures ClientInv(w.(wire := wire, incoming := incoming))
  {
    var w' := w.(wire := wire, incoming := incoming);
    forall x {:trigger AskedOk(w', x)} ensures AskedOk(w', x) { assert AskedOk(w, x); }
    forall x {:trigger RequestOk(w', x)} | x in w'.clients ensures RequestOk(w', x) { assert RequestOk(w, x); }
    forall x {:trigger SubscriberOk(w', x)} | x in w'.clients ensures SubscriberOk(w', x) { assert SubscriberOk(w, x); }
    forall x {:trigger StartedOk(w', x)} | x in w'.replies ensures StartedOk(w', x) { assert StartedOk(w, x); }
  }

  /** Changing only the agent's side, as `Connect`, `Serve` and `Emit` do. */
  lemma AgentClients(w: World, link: Option<TaskId>, taken: nat, replies: map<OpId, seq<Status>>)
    requires ClientInv(w)
    requires var w' := w.(link := link, taken := taken, replies := replies);
      LinkOk(w') && forall x :: x in replies ==> StartedOk(w', x)
    ensures ClientInv(w.(link := link, taken := taken, replies := replies))
  {
    var w' := w.(link := link, taken := taken, replies := replies);
    forall x {:trigger AskedOk(w', x)} ensures AskedOk(w', x) { assert AskedOk(w, x); }
    forall x {:trigger RequestOk(w', x)} | x in w'.clients ensures RequestOk(w', x) { assert RequestOk(w, x); }
    forall x {:trigger SubscriberOk(w', x)} | x in w'.clients ensures SubscriberOk(w', x) { assert SubscriberOk(w, x); }
  }

  lemma ConnectClients(w: World, t: TaskId)
    requires FlowInv(w) && ClientInv(w) && Next(w, Connect(t)).Some?
    ensures ClientInv(Next(w, Connect(t)).value)
  {
    assert B.TaskOk(w.broker, t);
    var pc := B.Subscribing(OUTGOING, Is(w.addr));
    SpawnClients(w, t, pc);
    AgentClients(w.(broker := B.Move(w.broker, t, pc)), Some(t), w.taken, w.replies);
  }

  lemma ServeClients(w: World)
    requires FlowInv(w) && ClientInv(w) && Next(w, Serve).Some?
    ensures ClientInv(Next(w, Serve).value)
  {
    var w' := Next(w, Serve).value;
    HandedOverIsNew(w);
    var delivered := w.broker.subs[w.link.value].delivered;
    assert delivered[..w.taken + 1] == delivered[..w.taken] + [delivered[w.taken]];
    forall x | x in w'.replies ensures StartedOk(w', x) {
      if x in w.replies { assert StartedOk(w, x); }
    }
    AgentClients(w, w.link, w'.taken, w'.replies);
  }

  lemma EmitClients(w: World, id: OpId, status: Status)
    requires FlowInv(w) && ClientInv(w) && Next(w, Emit(id, status)).Some?
    ensures ClientInv(Next(w, Emit(id, status)).value)
  {
    var w1 := w.(replies := w.replies[id := w.replies[id] + [status]]);
    forall x | x in w1.replies ensures StartedOk(w1, x) { assert StartedOk(w, x); }
    AgentClients(w, w.link, w.taken, w1.replies);
    WireClients(w1, w.wire + [ReplyEvent(id, status)], w.incoming);
  }

  lemma ClientStep(w: World, a: Action)
    requires FlowInv(w) && ClientInv(w) && Next(w, a).Some?
    ensures ClientInv(Next(w, a).value)
  {
    var w' := Next(w, a).value;
    match a
    case Begin(id, t) => BeginClients(w, id, t);
    case Ask(id, t) => AskClients(w, id, t);
    case Connect(t) => ConnectClients(w, t);
    case Serve => ServeClients(w);
    case Emit(id, status) => EmitClients(w, id, status);
    case Chatter(line) => WireClients(w, w'.wire, w.incoming);
    case Publish(t, order) =>
      SpawnClients(w, t, B.Publishing(w.wire[0], order, 0));
      WireClients(w.(broker := w'.broker), w'.wire, w'.incoming);
    case Broker(b) => BrokerClients(w, b, w');
  }

  // ---- Whole runs ------------------------------------------------------------------------

  /** A management server and an agent that have not exchanged anything. */
  ghost predicate Init(w: World)
  {
    && R.Init(w.broker) && w.clients == map[] && w.link.None? && w.taken == 0
    && w.replies == map[] && w.wire == [] && w.incoming.None?
  }

  lemma InitHolds(w: World)
    requires Init(w)
    ensures FlowInv(w) && ClientInv(w)
  {
    R.InitHolds(w.broker);
  }

  ghost function Run(w: World, actions: seq<Action>): (r: Option<World>)
    requires FlowInv(w) && ClientInv(w)
    ensures r.Some? ==> FlowInv(r.value) && ClientInv(r.value)
    decreases |actions|
  {
    if actions == [] then Some(w)
    else
      match Next(w, actions[0])
      case None => None
      case Some(w') =>
        FlowStep(w, actions[0]);
        ClientStep(w, actions[0]);
        Run(w', actions[1..])
  }

  // ---- What a client receives ------------------------------------------------------------

  lemma WantedIsOwn(e: B.Event, id: OpId)
    requires IsReply(e)
    ensures B.Wanted(OPERATION, Is(id), e) <==> e.content.id == id
  {
  }

  lemma {:induction false} SelectedIsOwn(events: seq<B.Event>, id: OpId)
    requires forall i :: 0 <= i < |events| ==> IsReply(events[i])
    ensures forall e :: e in B.Select(events, OPERATION, Is(id)) ==> IsReply(e) && e.content.id == id
    decreases |events|
  {
    if events != [] {
      SelectedIsOwn(events[..|events| - 1], id);
      WantedIsOwn(events[|events| - 1], id);
    }
  }

  lemma TellOneMore(kept: seq<B.Event>, e: B.Event, id: OpId)
    requires IsReply(e)
    ensures Told(kept + (if B.Wanted(OPERATION, Is(id), e) then [e] else []), id) == Told(kept, id) + Told([e], id)
  {
    WantedIsOwn(e, id);
    if B.Wanted(OPERATION, Is(id), e) {
      ToldSnoc(kept, e, id);
    } else {
      ToldOne(e, id);
      assert kept + [] == kept;
    }
  }

  /** Selecting by operation id loses nothing of that operation. */
  lemma {:induction false} SelectingKeepsTold(events: seq<B.Event>, id: OpId)
    requires forall i :: 0 <= i < |events| ==> IsReply(events[i])
    ensures Told(B.Select(events, OPERATION, Is(id)), id) == Told(events, id)
    decreases |events|
  {
    if events != [] {
      var n := |events| - 1;
      var head, e := events[..n], events[n];
      SelectingKeepsTold(head, id);
      TellOneMore(B.Select(head, OPERATION, Is(id)), e, id);
      assert events == head + [e];
      B.SelectSnoc(head, e, OPERATION, Is(id));
      ToldSnoc(head, e, id);
    }
  }

  lemma ToldSince(w: World, id: OpId)
    requires ClientInv(w) && id in w.clients && w.clients[id].sub in w.broker.subs
    ensures var since := w.broker.subs[w.clients[id].sub].since;
      && since <= |w.broker.history|
      && Told(B.Project(w.broker.history[since..], OPERATION), id) == Told(B.Project(w.broker.history, OPERATION), id)
  {
    assert SubscriberOk(w, id);
    var since := w.broker.subs[w.clients[id].sub].since;
    var early, late := w.broker.history[..since], w.broker.history[since..];
    assert w.broker.history == early + late;
    R.ProjectAppends(early, late, OPERATION);
    ToldAppends(B.Project(early, OPERATION), B.Project(late, OPERATION), id);
  }

  lemma OnlyRepliesSince(w: World, since: nat, e: B.Event)
    requires HistoryOk(w) && since <= |w.broker.history| && e in B.Project(w.broker.history[since..], OPERATION)
    ensures IsReply(e)
  {
    var i := ProjectMember(w.broker.history[since..], OPERATION, e);
    assert w.broker.history[since + i].event == e;
  }

  /** The replies a client has been given or that wait in its channel. */
  ghost function Waiting(w: World, u: TaskId): seq<B.Event>
    requires u in w.broker.subs && B.SubOk(w.broker, u)
  {
    var sub := w.broker.subs[u];
    B.Select(w.broker.channels[sub.chan].log[sub.cursor..], sub.topic, sub.wants)
  }

  /** The client of `id` is subscribed, still listening, and has never lagged. */
  ghost predicate Listening(w: World, id: OpId)
  {
    && id in w.clients && w.clients[id].sub in w.broker.subs
    && w.broker.subs[w.clients[id].sub].alive && !w.broker.subs[w.clients[id].sub].lagged
  }

  /** The statuses the client of `id` has been given. */
  function Given(w: World, id: OpId): seq<Status>
    requires id in w.clients && w.clients[id].sub in w.broker.subs
  {
    Told(w.broker.subs[w.clients[id].sub].delivered, id)
  }

  /** What it has been given, what waits for it, what is being published and what is on the wire,
      in this order, is what the agent's handler has sent; and it is given nothing else. */
  ghost predicate ReceivesItsTrace(w: World, id: OpId)
    requires Listening(w, id)
  {
    var u := w.clients[id].sub;
    && B.SubOk(w.broker, u)
    && Given(w, id) + Told(Waiting(w, u), id) + Unsent(w, id) + Told(w.wire, id) == Emitted(w, id)
    && (forall e :: e in w.broker.subs[u].delivered ==> IsReply(e) && e.content.id == id)
    && (Unfinished(Emitted(w, id)) || Finished(Emitted(w, id)))
  }

  lemma GivenAndWaiting(w: World, id: OpId)
    requires FlowInv(w) && ClientInv(w) && Listening(w, id)
    ensures var u := w.clients[id].sub;
      && B.SubOk(w.broker, u) && w.broker.subs[u].topic == OPERATION && w.broker.subs[u].wants == Is(id)
      && w.broker.subs[u].delivered + Waiting(w, u)
         == B.Select(B.Project(w.broker.history[w.broker.subs[u].since..], OPERATION), OPERATION, Is(id))
  {
    assert B.SubOk(w.broker, w.clients[id].sub) && SubscriberOk(w, id);
    R.NothingLostWithoutLag(w.broker, w.clients[id].sub);
  }

  lemma GivenIsTold(w: World, id: OpId)
    requires FlowInv(w) && ClientInv(w) && Listening(w, id)
    ensures var u := w.clients[id].sub;
      && B.SubOk(w.broker, u)
      && Given(w, id) + Told(Waiting(w, u), id) == Told(B.Project(w.broker.history, OPERATION), id)
      && (forall e :: e in w.broker.subs[u].delivered ==> IsReply(e) && e.content.id == id)
  {
    GivenAndWaiting(w, id);
    var u := w.clients[id].sub;
    var sub := w.broker.subs[u];
    var since := B.Project(w.broker.history[sub.since..], OPERATION);
    forall i | 0 <= i < |since| ensures IsReply(since[i]) { OnlyRepliesSince(w, sub.since, since[i]); }
    SelectingKeepsTold(since, id);
    SelectedIsOwn(since, id);
    ToldAppends(sub.delivered, Waiting(w, u), id);
    ToldSince(w, id);
    assert forall e :: e in sub.delivered ==> e in sub.delivered + Waiting(w, u);
  }

  lemma Receives(w: World, id: OpId)
    requires FlowInv(w) && ClientInv(w) && Listening(w, id)
    ensures ReceivesItsTrace(w, id)
  {
    GivenIsTold(w, id);
    assert FlowOk(w, id);
    if id in w.replies { assert StartedOk(w, id); }
  }

  /** The connection holds a request the agent has not been handed yet. */
  predicate HasNext(w: World)
  {
    w.link.Some? && w.link.value in w.broker.subs && w.taken < |w.broker.subs[w.link.value].delivered|
  }

  /** In every run, a listening client receives exactly its own operation's trace, in order and
      once, whatever other operations interleave; and every request handed to the agent starts a
      handler for an operation that has none yet. */
  lemma EveryRunDelivers(w: World, actions: seq<Action>, id: OpId)
    requires Init(w)
    ensures FlowInv(w) && ClientInv(w)
    ensures Run(w, actions).Some? && Listening(Run(w, actions).value, id) ==>
        ReceivesItsTrace(Run(w, actions).value, id)
    ensures Run(w, actions).Some? && HasNext(Run(w, actions).value) ==> Next(Run(w, actions).value, Serve).Some?
  {
    InitHolds(w);
    if Run(w, actions).Some? {
      var now := Run(w, actions).value;
      if Listening(now, id) { Receives(now, id); }
      if HasNext(now) { HandedOverIsNew(now); }
    }
  }

  // ---- What the client does with it ------------------------------------------------------

  datatype Answer = Response(status: Status) | Stream(rest: seq<Status>) | Refused(status: Status) | NothingYet

  /** `response_or_timeout` takes the first event, whatever its status. */
  function ResponseOrTimeout(given: seq<Status>): Answer { if given == [] then NothingYet else Response(given[0]) }

  /** `ack_or_timeout` goes on with the rest only after an acknowledgement. */
  function AckOrTimeout(given: seq<Status>): Answer
  {
    if given == [] then NothingYet else if given[0] == Ack then Stream(given[1..]) else Refused(given[0])
  }

  /** `fuse_agent_response_stream` may close after `k` items: some time after a final one. */
  predicate MayClose(items: seq<Status>, k: nat)
  {
    k <= |items| && exists j :: 0 <= j < k && IsFinal(items[j])
  }

  lemma PrefixOf(given: seq<Status>, waiting: seq<Status>, unsent: seq<Status>, wire: seq<Status>, whole: seq<Status>)
    requires given + waiting + unsent + wire == whole
    ensures given <= whole
  {
    assert whole[..|given|] == given;
  }

  lemma GivenIsPrefix(w: World, id: OpId)
    requires Listening(w, id) && ReceivesItsTrace(w, id)
    ensures Given(w, id) <= Emitted(w, id)
  {
    var u := w.clients[id].sub;
    PrefixOf(Given(w, id), Told(Waiting(w, u), id), Unsent(w, id), Told(w.wire, id), Emitted(w, id));
  }

  /** A closed stream over part of a trace has seen all of it. */
  lemma ClosedStreamIsWhole(emitted: seq<Status>, given: seq<Status>, rest: seq<Status>, k: nat)
    requires Unfinished(emitted) || Finished(emitted)
    requires given <= emitted && AckOrTimeout(given) == Stream(rest) && MayClose(rest, k)
    ensures Finished(emitted) && [Ack] + rest[..k] == emitted && IsFinal(rest[k - 1])
  {
    var j :| 0 <= j < k && IsFinal(rest[j]);
    assert emitted[j + 1] == given[j + 1] == rest[j];
    assert j == |emitted| - 2 && k == j + 1;
  }

  /** When a client's fused stream closes it has passed on all that followed the acknowledgement,
      the operation has ended, and the last item is its final status. */
  lemma FusedStreamIsTheTrace(w: World, id: OpId, rest: seq<Status>, k: nat)
    requires FlowInv(w) && ClientInv(w) && Listening(w, id)
    requires AckOrTimeout(Given(w, id)) == Stream(rest) && MayClose(rest, k)
    ensures Finished(Emitted(w, id)) && [Ack] + rest[..k] == Emitted(w, id) && IsFinal(rest[k - 1])
  {
    Receives(w, id);
    GivenIsPrefix(w, id);
    ClosedStreamIsWhole(Emitted(w, id), Given(w, id), rest, k);
  }

  /** A stream whose operation still runs is not closed. */
  lemma OpenWhileRunning(w: World, id: OpId, rest: seq<Status>, k: nat)
    requires FlowInv(w) && ClientInv(w) && Listening(w, id) && Unfinished(Emitted(w, id))
    requires AckOrTimeout(Given(w, id)) == Stream(rest)
    ensures !MayClose(rest, k)
  {
    if MayClose(rest, k) { FusedStreamIsTheTrace(w, id, rest, k); }
  }

  /** What both calls return depends on the first status of the operation alone, whatever has arrived
      since: `response_or_timeout` returns it, `ack_or_timeout` goes on exactly if it is an Ack. */
  lemma FirstDecides(w: World, id: OpId)
    requires FlowInv(w) && ClientInv(w) && Listening(w, id) && Given(w, id) != []
    ensures Emitted(w, id) != []
    ensures ResponseOrTimeout(Given(w, id)) == Response(Emitted(w, id)[0])
    ensures AckOrTimeout(Given(w, id)).Stream? <==> Emitted(w, id)[0] == Ack
    ensures AckOrTimeout(Given(w, id)).Refused? <==> IsFinal(Emitted(w, id)[0])
  {
    Receives(w, id);
    GivenIsPrefix(w, id);
    assert Given(w, id)[0] == Emitted(w, id)[0];
  }

  /** An operation that answers without acknowledging gives its client the whole answer at once:
      `response_or_timeout` sees the only status there is, and `ack_or_timeout` refuses. */
  lemma SingleAnswer(w: World, id: OpId, status: Status)
    requires FlowInv(w) && ClientInv(w) && Listening(w, id) && Ack !in Emitted(w, id)
    requires ResponseOrTimeout(Given(w, id)) == Response(status)
    ensures Emitted(w, id) == [status] && IsFinal(status) && AckOrTimeout(Given(w, id)) == Refused(status)
  {
    Receives(w, id);
    GivenIsPrefix(w, id);
    assert Emitted(w, id)[0] == status;
  }
}
