/** The request/response protocol between the management server and the agent
    (src/mgmt-server/clients.rs, src/agent/main.rs), on top of the event broker: clients subscribe
    to their operation's id and then publish the request; one connection forwards requests to the
    agent and publishes what comes back, one message at a time. */
module Operations {
  import opened Basics
  import opened OperationTrace
  import B = EventBroker

  type OpId = string
  type TaskId = B.TaskId

  const OPERATION := "operation"
  const OUTGOING := "_AGENT_OUTGOING"

  lemma TopicsDiffer()
    ensures OPERATION != OUTGOING
  {
    assert OPERATION[0] == 'o' && OUTGOING[0] == '_';
  }

  /** The filter of a subscription: exactly this tag value. */
  function Is(value: string): string -> bool { v => v == value }

  function RequestEvent(addr: string, id: OpId): B.Event { B.Event(map[OUTGOING := addr], B.Request(id)) }

  /** `tag_incoming_message` on a response. */
  function ReplyEvent(id: OpId, status: Status): B.Event { B.Event(map[OPERATION := id], B.Reply(id, status)) }

  predicate IsReply(e: B.Event) { e.content.Reply? && e == ReplyEvent(e.content.id, e.content.status) }

  /** `tag_incoming_message` on a streamed line: other topics only. */
  predicate IsLine(e: B.Event) { e.content.Line? && OPERATION !in e.tags && OUTGOING !in e.tags }

  /** `send_request_and_subscribe`: the task of the subscription, then that of the request. */
  datatype Client = Client(sub: TaskId, request: Option<TaskId>)

  /** `link` is the connection's subscription to outgoing requests, of which the agent has been
      handed the first `taken`; `replies` has what each started handler has sent; `wire` is on its
      way back; `incoming` is the publish of the message taken off the wire last. */
  datatype World = World(
    addr: string,
    broker: B.State,
    clients: map<OpId, Client>,
    link: Option<TaskId>,
    taken: nat,
    replies: map<OpId, seq<Status>>,
    wire: seq<B.Event>,
    incoming: Option<TaskId>)

  datatype Action =
    | Begin(id: OpId, t: TaskId)
    | Ask(id: OpId, t: TaskId)
    | Connect(t: TaskId)
    | Serve
    | Emit(id: OpId, status: Status)
    | Chatter(line: B.Event)
    | Publish(t: TaskId, order: seq<B.Topic>)
    | Broker(a: B.Action)

  /** The next status a handler may send after `trace`. */
  predicate MayFollow(trace: seq<Status>, status: Status)
  {
    Unfinished(trace) && (Unfinished(trace + [status]) || Finished(trace + [status]))
  }

  predicate IsPublisher(pc: B.Pc) { pc.Publishing? || pc.CreatingToPublish? }

  predicate Finishes(pc: B.Pc) { pc.Publishing? && pc.sent >= |pc.order| }

  /** The incoming task is ready for the next message. */
  predicate Ready(w: World)
  {
    w.incoming.None? || (w.incoming.value in w.broker.tasks && Finishes(w.broker.tasks[w.incoming.value]))
  }

  function Spawned(w: World, t: TaskId, pc: B.Pc): Option<World>
    requires B.Sound(w.broker)
  {
    match B.Next(w.broker, B.Spawn(t, pc))
    case None => None
    case Some(b) => Some(w.(broker := b))
  }

  function Next(w: World, a: Action): Option<World>
    requires B.Sound(w.broker)
  {
    match a
    case Begin(id, t) =>
      if id in w.clients then None
      else
        (match Spawned(w, t, B.Subscribing(OPERATION, Is(id)))
         case None => None
         case Some(w') => Some(w'.(clients := w.clients[id := Client(t, None)])))
    case Ask(id, t) =>
      if id in w.clients && w.clients[id].request.None? && w.clients[id].sub in w.broker.subs then
        (match Spawned(w, t, B.Publishing(RequestEvent(w.addr, id), [OUTGOING], 0))
         case None => None
         case Some(w') => Some(w'.(clients := w.clients[id := w.clients[id].(request := Some(t))])))
      else None
    case Connect(t) =>
      if w.link.Some? then None
      else
        (match Spawned(w, t, B.Subscribing(OUTGOING, Is(w.addr)))
         case None => None
         case Some(w') => Some(w'.(link := Some(t))))
    case Serve =>
      if w.link.Some? && w.link.value in w.broker.subs && w.taken < |w.broker.subs[w.link.value].delivered| then
        var request := w.broker.subs[w.link.value].delivered[w.taken].content;
        if request.Request? && request.id !in w.replies
        then Some(w.(taken := w.taken + 1, replies := w.replies[request.id := []]))
        else None
      else None
    case Emit(id, status) =>
      if id in w.replies && MayFollow(w.replies[id], status)
      then Some(w.(replies := w.replies[id := w.replies[id] + [status]], wire := w.wire + [ReplyEvent(id, status)]))
      else None
    case Chatter(line) => if IsLine(line) then Some(w.(wire := w.wire + [line])) else None
    case Publish(t, order) =>
      if Ready(w) && w.wire != [] then
        (match Spawned(w, t, B.Publishing(w.wire[0], order, 0))
         case None => None
         case Some(w') => Some(w'.(wire := w.wire[1..], incoming := Some(t))))
      else None
    case Broker(b) =>
      if b.Spawn? && IsPublisher(b.pc) then None
      else
        (match B.Next(w.broker, b)
         case None => None
         case Some(broker) => Some(w.(broker := broker)))
  }

  // ---- What was told ---------------------------------------------------------------------

  /** The statuses sent for operation `id` among `events`. */
  function Told(events: seq<B.Event>, id: OpId): seq<Status>
  {
    if events == [] then []
    else
      var e := events[|events| - 1];
      Told(events[..|events| - 1], id) + if e.content.Reply? && e.content.id == id then [e.content.status] else []
  }

  /** What the agent's handler for `id` has sent so far. */
  function Emitted(w: World, id: OpId): seq<Status> { if id in w.replies then w.replies[id] else [] }

  /** What the incoming task has taken off the wire and not sent to the channel yet. */
  function Unsent(w: World, id: OpId): seq<Status>
  {
    if w.incoming.Some? && w.incoming.value in w.broker.tasks && IsPublisher(w.broker.tasks[w.incoming.value])
       && w.broker.tasks[w.incoming.value].sent == 0
    then Told([w.broker.tasks[w.incoming.value].event], id) else []
  }

  lemma ToldOne(e: B.Event, id: OpId)
    ensures Told([e], id) == if e.content.Reply? && e.content.id == id then [e.content.status] else []
  {
    assert [e][..0] == [];
  }

  lemma ToldSnoc(events: seq<B.Event>, e: B.Event, id: OpId)
    ensures Told(events + [e], id) == Told(events, id) + Told([e], id)
  {
    assert (events + [e])[..|events|] == events;
  }

  lemma {:induction false} ToldAppends(a: seq<B.Event>, b: seq<B.Event>, id: OpId)
    ensures Told(a + b, id) == Told(a, id) + Told(b, id)
    decreases |b|
  {
    if b == [] {
      assert a + b == a;
    } else {
      var n := |b| - 1;
      assert a + b == (a + b[..n]) + [b[n]];
      ToldSnoc(a + b[..n], b[n], id);
      ToldAppends(a, b[..n], id);
      assert b == b[..n] + [b[n]];
      ToldSnoc(b[..n], b[n], id);
    }
  }
}
