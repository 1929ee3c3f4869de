/** What holds over whole runs of the agent. */
module AgentRuns {
  import opened Basics
  import opened OperationTrace
  import opened AgentMachine
  import opened AgentInvariant
  import opened AgentVersions

  /** The agent when it starts serving: at most one version, nothing running. */
  ghost predicate Init(s: State)
  {
    && s.slot.None? && s.live == {} && s.tasks == map[]
    && s.writer.None? && s.readers == {} && s.mutex.None?
    && Named(s.versions) && AtMostOne(s.versions)
  }

  /** The state after `actions`, or `None` when one of them is not possible. */
  function Run(s: State, actions: seq<Action>): Option<State>
    decreases |actions|
  {
    if actions == [] then Some(s)
    else match Next(s, actions[0])
      case None => None
      case Some(s') => Run(s', actions[1..])
  }

  /** In this run every removal of a previous version succeeds. */
  predicate RemovalsSucceed(actions: seq<Action>)
  {
    forall i :: 0 <= i < |actions| ==> !(actions[i].Act? && actions[i].choice == RemovalFails)
  }

  lemma {:induction false} RunsCompose(s: State, first: seq<Action>, second: seq<Action>)
    requires Run(s, first).Some?
    ensures Run(s, first + second) == Run(Run(s, first).value, second)
    decreases |first|
  {
    if first == [] {
      assert first + second == second;
    } else {
      RunsCompose(Next(s, first[0]).value, first[1..], second);
      assert (first + second)[1..] == first[1..] + second;
    }
  }

  lemma {:induction false} RunKeeps(s: State, actions: seq<Action>)
    requires Inv(s) && TracesOk(s) && Run(s, actions).Some?
    ensures Inv(Run(s, actions).value) && TracesOk(Run(s, actions).value)
    decreases |actions|
  {
    if actions != [] {
      var s' := Next(s, actions[0]).value;
      NextKeeps(s, actions[0], s');
      RunKeeps(s', actions[1..]);
    }
  }

  lemma {:induction false} RunKeepsVersions(s: State, actions: seq<Action>)
    requires Inv(s) && TracesOk(s) && VersionOk(s) && Run(s, actions).Some? && RemovalsSucceed(actions)
    ensures VersionOk(Run(s, actions).value)
    decreases |actions|
  {
    if actions != [] {
      var s' := Next(s, actions[0]).value;
      NextKeeps(s, actions[0], s');
      NextVersions(s, actions[0], s');
      RunKeepsVersions(s', actions[1..]);
    }
  }

  // ---- Processes -------------------------------------------------------------------------

  /** Hosted and save-creating processes together, at most one is alive. */
  lemma AtMostOneProcess(s: State, actions: seq<Action>, p: Proc, q: Proc)
    requires Init(s) && Run(s, actions).Some?
    requires p in Run(s, actions).value.live && q in Run(s, actions).value.live
    ensures p == q
  {
    RunKeeps(s, actions);
    var now := Run(s, actions).value;
    if now.mutex.Some? { assert TaskOk(now, now.mutex.value); }
  }

  /** Between the stop and the restart nothing can fill the slot, whatever any task does next; so
      the restart finds the slot empty and the version it unwraps. */
  lemma RestartIsUndisturbed(s: State, actions: seq<Action>, t: TaskId, a: Action)
    requires Init(s) && Run(s, actions).Some?
    requires t in Run(s, actions).value.tasks && NeedsQuiet(Run(s, actions).value.tasks[t].pc)
    ensures var now := Run(s, actions).value;
      && now.slot.None? && now.live == {} && now.tasks[t].pc.v in now.versions
      && (Next(now, a).Some? && (a.Act? ==> a.t != t) ==> Quiet(Next(now, a).value))
      && (now.tasks[t].pc.InstallRestart? && now.mutex.None? ==>
            Next(now, Act(t, Proceed)).Some? && Next(now, Act(t, Proceed)).value.tasks[t].pc.InstallSpawn?)
  {
    RunKeeps(s, actions);
    var now := Run(s, actions).value;
    assert TaskOk(now, t);
    if Next(now, a).Some? && (a.Act? ==> a.t != t) {
      var s' := Next(now, a).value;
      NextKeeps(now, a, s');
      if a.Act? { ActKeeps(now, a.t, a.choice, s'); }
      assert s'.tasks[t] == now.tasks[t];
      assert TaskOk(s', t);
    }
  }

  /** The last reply of `t` once it has ended. */
  predicate EndedWith(s: State, t: TaskId, reply: Status)
  {
    && t in s.tasks && s.tasks[t].pc.Done?
    && s.tasks[t].trace != [] && s.tasks[t].trace[|s.tasks[t].trace| - 1] == reply
  }

  /** Task `t` has its result and is about to send `reply`. */
  predicate Reports(s: State, t: TaskId, reply: Status)
  {
    t in s.tasks && s.tasks[t].pc.Replying? && s.tasks[t].pc.reply == reply
  }

  /** From `s` to `s'` a process has been started that is now hosted with savefile `save`, as the only
      one alive. */
  predicate HostsNew(s: State, s': State, save: string)
  {
    && s'.slot.Some? && s'.slot.value.save == save
    && s'.slot.value.proc.id == s.nextId && s'.live == {s'.slot.value.proc}
  }

  lemma StartHosts(s: State, t: TaskId, c: Choice, s': State)
    requires Inv(s) && t in s.tasks && NextStart(s, t, c) == Some(s')
    ensures IsStart(s.tasks[t].pc)
    ensures Reports(s', t, Completed) ==> s.tasks[t].pc.StartSpawn? && HostsNew(s, s', s.tasks[t].pc.save)
    ensures Reports(s', t, Completed) ==> s'.slot.value.proc.dir == s.tasks[t].pc.dir && s'.versions == s.versions
    ensures Reports(s', t, Failed) ==> s'.slot == s.slot && s'.live == s.live
  {
    assert TaskOk(s, t);
  }

  lemma StopLeavesNothing(s: State, t: TaskId, c: Choice, s': State)
    requires Inv(s) && t in s.tasks && NextServer(s, t, c) == Some(s') && Reports(s', t, Completed)
    ensures Quiet(s')
  {
    assert TaskOk(s, t);
  }

  lemma CreateLeavesNothing(s: State, t: TaskId, c: Choice, s': State)
    requires Inv(s) && t in s.tasks && NextCreate(s, t, c) == Some(s') && Reports(s', t, Completed)
    ensures Quiet(s')
  {
    assert TaskOk(s, t);
  }

  /** The second look of `server_status`, after a stop has emptied the slot meanwhile. */
  lemma SecondLookFindsNothing(s: State, t: TaskId, c: Choice, s': State)
    requires Inv(s) && t in s.tasks && s.tasks[t].pc.PeekHold? && s.slot.None? && NextLook(s, t, c) == Some(s')
    ensures Quiet(s) && Quiet(s')
  {
    assert TaskOk(s, t);
  }

  predicate IsStart(pc: Pc) { pc.StartBegin? || pc.StartPrepare? || pc.StartSpawn? }

  /** Where a handler that succeeds has nothing running any more. */
  predicate Ceases(s: State, pc: Pc)
  {
    pc.Stopping? || pc.CreateRunning? || pc.StatusPoll? || (pc.PeekHold? && s.slot.None?)
  }

  /** At the step that settles its result, a successful `server_start` has its own process as the
      only one alive, with the savefile it was asked for;
      `server_stop` and `save_create` have nothing alive; nor has a `server_status` that finds
      nothing running, at its first look, where it cleans up, or at its second. A
      `server_start` that fails leaves the slot and all processes as they were. */
  lemma HandlersDeliver(s: State, actions: seq<Action>, t: TaskId, c: Choice, s': State)
    requires Init(s) && Run(s, actions).Some? && t in Run(s, actions).value.tasks
    requires NextOf(Run(s, actions).value, t, c) == Some(s')
    ensures var now := Run(s, actions).value; var pc := now.tasks[t].pc;
      && (IsStart(pc) && Reports(s', t, Completed) ==> HostsNew(now, s', pc.save))
      && (IsStart(pc) && Reports(s', t, Failed) ==> s'.slot == now.slot && s'.live == now.live)
      && (Ceases(now, pc) && Reports(s', t, Completed) ==> Quiet(s'))
  {
    RunKeeps(s, actions);
    var now := Run(s, actions).value;
    var pc := now.tasks[t].pc;
    if IsStart(pc) { StartHosts(now, t, c, s'); }
    if (pc.Stopping? || pc.StatusPoll?) && Reports(s', t, Completed) { StopLeavesNothing(now, t, c, s'); }
    if pc.CreateRunning? && Reports(s', t, Completed) { CreateLeavesNothing(now, t, c, s'); }
    if pc.PeekHold? && now.slot.None? && Reports(s', t, Completed) { SecondLookFindsNothing(now, t, c, s'); }
  }

  // ---- Replies ---------------------------------------------------------------------------

  lemma TraceShape(task: Task)
    requires TraceOk(task)
    ensures if task.pc.Done? then Finished(task.trace) else Unfinished(task.trace)
    ensures !task.acks ==> Ack !in task.trace && (task.pc.Done? ==> SingleReply(task.trace))
  {
  }

  /** Every handler replies with an optional acknowledgement, progress only after one, and one
      final status when it ends; a handler whose client expects no acknowledgement sends only
      the final status. */
  lemma RepliesConform(s: State, actions: seq<Action>, t: TaskId, c: Choice)
    requires Init(s) && Run(s, actions).Some? && t in Run(s, actions).value.tasks
    ensures var now := Run(s, actions).value; var task := now.tasks[t];
      && (if task.pc.Done? then Finished(task.trace) else Unfinished(task.trace))
      && (!task.acks ==> Ack !in task.trace && (task.pc.Done? ==> SingleReply(task.trace)))
      && (task.pc.Done? ==> Next(now, Act(t, c)).None?)
  {
    RunKeeps(s, actions);
    var now := Run(s, actions).value;
    TraceShape(now.tasks[t]);
    if Next(now, Act(t, c)).Some? { OnlyUnfinishedTasksAct(now, t, c); }
  }

  // ---- Versions --------------------------------------------------------------------------

  /** Between installs there is at most one version, and what runs is installed. */
  lemma RunningVersionsAreInstalled(s: State, actions: seq<Action>)
    requires Init(s) && Run(s, actions).Some? && RemovalsSucceed(actions)
    ensures var now := Run(s, actions).value;
      && (now.writer.None? ==> AtMostOne(now.versions))
      && forall p :: p in now.live ==> Installed(now.versions, p.dir)
  {
    RunKeeps(s, actions);
    RunKeepsVersions(s, actions);
  }

  /** A task at `pc` is not unpacking over the installation `p` runs from, nor deleting one. */
  predicate Spares(pc: Pc, p: Proc)
  {
    (pc.InstallUnpack? ==> DirText(p.dir) != DirText(InstallDir(pc.v))) && !pc.InstallRemove?
  }

  ghost predicate Safe(s: State)
  {
    forall t, p {:trigger Spares(s.tasks[t].pc, p)} :: t in s.tasks && p in s.live ==> Spares(s.tasks[t].pc, p)
  }

  lemma VersionsKeepSafe(s: State)
    requires Inv(s) && VersionOk(s)
    ensures Safe(s)
  {
    forall t, p {:trigger Spares(s.tasks[t].pc, p)} | t in s.tasks && p in s.live ensures Spares(s.tasks[t].pc, p) {
      assert TaskOk(s, t);
      var pc := s.tasks[t].pc;
      if pc.InstallUnpack? && DirText(p.dir) == DirText(InstallDir(pc.v)) { DirNamesDiffer(p.dir, InstallDir(pc.v)); }
    }
  }

  /** While a process runs from an installation, nobody overwrites or deletes that installation. */
  lemma InstallationsInUseAreSafe(s: State, actions: seq<Action>)
    requires Init(s) && Run(s, actions).Some? && RemovalsSucceed(actions)
    ensures Safe(Run(s, actions).value)
  {
    RunKeeps(s, actions);
    RunKeepsVersions(s, actions);
    VersionsKeepSafe(Run(s, actions).value);
  }
}
