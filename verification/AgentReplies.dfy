/** The agent's handlers against the protocol: whatever a handler sends in one step, the protocol's
    world can send too, so what its clients receive is what the handlers reply. */
module AgentReplies {
  import opened Basics
  import opened OperationTrace
  import opened AgentMachine
  import opened AgentInvariant
  import opened AgentRuns
  import B = EventBroker
  import O = Operations
  import P = OperationProofs
  import C = OperationClients

  /** Each of `more` may be sent after those before it. */
  predicate AllowedAfter(trace: seq<Status>, more: seq<Status>)
    decreases |more|
  {
    more == [] || (O.MayFollow(trace, more[0]) && AllowedAfter(trace + [more[0]], more[1..]))
  }

  lemma {:induction false} ShapeAllows(trace: seq<Status>, more: seq<Status>)
    requires Unfinished(trace) || more == []
    requires Unfinished(trace + more) || Finished(trace + more)
    ensures AllowedAfter(trace, more)
    decreases |more|
  {
    if more != [] {
      var next := trace + [more[0]];
      assert next + more[1..] == trace + more;
      if |more| == 1 { assert next == trace + more; } else { PrefixIsUnfinished(next, trace + more); }
      ShapeAllows(next, more[1..]);
    }
  }

  lemma PrefixIsUnfinished(trace: seq<Status>, whole: seq<Status>)
    requires trace < whole && (Unfinished(whole) || Finished(whole))
    ensures Unfinished(trace)
  {
    assert forall i :: 0 <= i < |trace| ==> trace[i] == whole[i];
  }

  /** What a task sends in a step. */
  function Replies(before: Task, after: Task): seq<Status>
    requires before.trace <= after.trace
  {
    after.trace[|before.trace|..]
  }

  /** The replies of a task's step are allowed after those it had sent, and a task whose client
      expects no acknowledgement has sent none. */
  predicate Conforms(before: Task, after: Task)
  {
    && before.trace <= after.trace && AllowedAfter(before.trace, Replies(before, after))
    && (!before.acks ==> Ack !in after.trace)
  }

  lemma TaskConforms(before: Task, after: Task)
    requires TraceOk(before) && TraceOk(after) && !before.pc.Done? && Grows(before, after)
    ensures Conforms(before, after)
  {
    TraceShape(before);
    TraceShape(after);
    assert before.trace + Replies(before, after) == after.trace;
    ShapeAllows(before.trace, Replies(before, after));
  }

  lemma StepConforms(s: State, t: TaskId, c: Choice, s': State)
    requires Inv(s) && TracesOk(s) && t in s.tasks && NextOf(s, t, c) == Some(s')
    ensures t in s'.tasks && Conforms(s.tasks[t], s'.tasks[t])
  {
    ActTrace(s, t, c, s');
    OnlyUnfinishedTasksAct(s, t, c);
    TaskConforms(s.tasks[t], s'.tasks[t]);
  }

  /** Every reply of every handler, in any run, is one the protocol allows after those before. */
  lemma EveryReplyMayFollow(s: State, actions: seq<Action>, t: TaskId, c: Choice, s': State)
    requires Init(s) && Run(s, actions).Some? && t in Run(s, actions).value.tasks
    requires NextOf(Run(s, actions).value, t, c) == Some(s')
    ensures t in s'.tasks && Conforms(Run(s, actions).value.tasks[t], s'.tasks[t])
  {
    RunKeeps(s, actions);
    StepConforms(Run(s, actions).value, t, c, s');
  }

  /** The world's actions that send `more` for operation `id`. */
  function Emits(id: O.OpId, more: seq<Status>): seq<O.Action>
  {
    if more == [] then [] else [O.Emit(id, more[0])] + Emits(id, more[1..])
  }

  lemma RunFirst(w: O.World, a: O.Action, w': O.World, rest: seq<O.Action>)
    requires P.FlowInv(w) && C.ClientInv(w) && O.Next(w, a) == Some(w') && P.FlowInv(w') && C.ClientInv(w')
    ensures C.Run(w, [a] + rest) == C.Run(w', rest)
  {
    assert ([a] + rest)[1..] == rest;
  }

  /** The actions lead from `w` to `w'`. */
  ghost predicate Leads(w: O.World, actions: seq<O.Action>, w': O.World)
    decreases |actions|
  {
    if actions == [] then w' == w
    else B.Sound(w.broker) && O.Next(w, actions[0]).Some? && Leads(O.Next(w, actions[0]).value, actions[1..], w')
  }

  lemma {:induction false} LeadsIsRun(w: O.World, actions: seq<O.Action>, w': O.World)
    requires P.FlowInv(w) && C.ClientInv(w) && Leads(w, actions, w')
    ensures C.Run(w, actions) == Some(w')
    decreases |actions|
  {
    if actions != [] {
      var next := O.Next(w, actions[0]).value;
      P.FlowStep(w, actions[0]);
      C.ClientStep(w, actions[0]);
      LeadsIsRun(next, actions[1..], w');
      RunFirst(w, actions[0], next, actions[1..]);
      assert [actions[0]] + actions[1..] == actions;
    }
  }

  lemma LeadsFirst(w: O.World, a: O.Action, next: O.World, rest: seq<O.Action>, w': O.World)
    requires B.Sound(w.broker) && O.Next(w, a) == Some(next) && Leads(next, rest, w')
    ensures Leads(w, [a] + rest, w')
  {
    assert ([a] + rest)[1..] == rest;
  }

  /** Only these replies of operation `id` have been sent. */
  ghost predicate Sent(w: O.World, id: O.OpId, all: seq<Status>, w': O.World)
  {
    && w' == w.(replies := w.replies[id := all], wire := w'.wire)
    && forall e :: e in w'.wire ==> e in w.wire || O.IsReply(e)
  }

  lemma SendsOne(w: O.World, id: O.OpId, status: Status) returns (w': O.World)
    requires B.Sound(w.broker) && id in w.replies && O.MayFollow(w.replies[id], status)
    ensures O.Next(w, O.Emit(id, status)) == Some(w') && Sent(w, id, w.replies[id] + [status], w')
  {
    w' := O.Next(w, O.Emit(id, status)).value;
  }

  lemma {:induction false} SendsAll(w: O.World, id: O.OpId, more: seq<Status>) returns (w': O.World)
    requires B.Sound(w.broker) && id in w.replies && AllowedAfter(w.replies[id], more)
    ensures Leads(w, Emits(id, more), w') && Sent(w, id, w.replies[id] + more, w')
    decreases |more|
  {
    if more == [] {
      w' := w;
      assert w.replies[id] + more == w.replies[id];
    } else {
      var next := SendsOne(w, id, more[0]);
      w' := SendsAll(next, id, more[1..]);
      LeadsFirst(w, O.Emit(id, more[0]), next, Emits(id, more[1..]), w');
      assert w.replies[id] + [more[0]] + more[1..] == w.replies[id] + more;
    }
  }

  /** What a task sends in a step, a world that has emitted what it had sent can emit next. */
  lemma TaskSends(before: Task, after: Task, w: O.World, id: O.OpId) returns (actions: seq<O.Action>, w': O.World)
    requires Conforms(before, after) && B.Sound(w.broker) && id in w.replies && w.replies[id] == before.trace
    ensures Leads(w, actions, w') && Sent(w, id, after.trace, w')
  {
    assert before.trace + Replies(before, after) == after.trace;
    actions := Emits(id, Replies(before, after));
    w' := SendsAll(w, id, Replies(before, after));
  }

  /** A handler of the agent that serves operation `id` moves, and the world follows: afterwards it
      has emitted exactly the handler's replies, and no acknowledgement for a handler whose
      client expects none. */
  lemma WorldFollowsHandler(s: State, actions: seq<Action>, t: TaskId, c: Choice, s': State, w: O.World, id: O.OpId)
    returns (emits: seq<O.Action>)
    requires Init(s) && Run(s, actions).Some? && t in Run(s, actions).value.tasks
    requires NextOf(Run(s, actions).value, t, c) == Some(s')
    requires P.FlowInv(w) && C.ClientInv(w)
    requires id in w.replies && w.replies[id] == Run(s, actions).value.tasks[t].trace
    ensures t in s'.tasks && C.Run(w, emits).Some? && O.Emitted(C.Run(w, emits).value, id) == s'.tasks[t].trace
    ensures !Run(s, actions).value.tasks[t].acks ==> Ack !in O.Emitted(C.Run(w, emits).value, id)
  {
    EveryReplyMayFollow(s, actions, t, c, s');
    var w';
    emits, w' := TaskSends(Run(s, actions).value.tasks[t], s'.tasks[t], w, id);
    LeadsIsRun(w, emits, w');
  }
}
