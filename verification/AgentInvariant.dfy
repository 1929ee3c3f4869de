/** What every step of the agent keeps: who holds which guard, who owns which process, and what
    `version_install` may rely on after each of its steps. */
module AgentInvariant {
  import opened Basics
  import opened OperationTrace
  import opened AgentMachine

  /** `version_install` with the write lock, before its last reply. */
  predicate Installing(pc: Pc) { IsInstallPc(pc) && !pc.InstallBegin? }

  predicate HoldsWrite(pc: Pc) { Installing(pc) || (pc.Replying? && pc.guard.Writing?) }

  predicate HoldsRead(pc: Pc)
  {
    || pc.StartPrepare? || pc.StartSpawn? || pc.CreatePrepare? || pc.CreateSpawn? || pc.CreateRunning?
    || pc.InspectHold? || (pc.Replying? && pc.guard.Reading?)
  }

  predicate HoldsMutex(pc: Pc)
  {
    HasEmptySlot(pc) || pc.StatusPoll? || pc.PeekHold?
  }

  /** The holder of the mutex has taken the slot's content or seen it empty. */
  predicate HasEmptySlot(pc: Pc)
  {
    pc.InstallStopping? || pc.InstallSpawn? || pc.StartSpawn? || pc.Stopping? || pc.CreateSpawn? || pc.CreateRunning?
  }

  /** Past the stop, `version_install` relies on nothing running. */
  predicate NeedsQuiet(pc: Pc)
  {
    pc.InstallRemove? || pc.InstallRestart? || pc.InstallSpawn? || (pc.InstallUnpack? && pc.plan.Reinstall?)
  }

  /** The process whose handle the task owns itself. */
  function Hand(pc: Pc): Option<Proc>
  {
    match pc
    case InstallStopping(_, _, Some(i)) => Some(i.proc)
    case Stopping(Some(i)) => Some(i.proc)
    case CreateRunning(p) => Some(p)
    case _ => None
  }

  /** The handle the holder of the mutex owns. */
  function Held(s: State): Option<Proc>
  {
    if s.mutex.Some? && s.mutex.value in s.tasks then Hand(s.tasks[s.mutex.value].pc) else None
  }

  predicate Quiet(s: State) { s.slot.None? && s.live == {} }

  predicate HaltOk(h: Halt) { h.returned == h.found || h.returned == None }

  predicate PlanOk(s: State, pc: Pc)
  {
    match pc
    case InstallUnpack(v, Reinstall(h)) => v in s.versions && HaltOk(h)
    case InstallStopWait(v, _) => v in s.versions
    case InstallStopping(v, _, _) => v in s.versions
    case InstallRemove(v, from, h) => v in s.versions && v != from && HaltOk(h)
    case InstallRestart(v, h) => v in s.versions && HaltOk(h) && h.returned.Some?
    case InstallSpawn(v, h) => v in s.versions && HaltOk(h) && h.returned.Some?
    case InstallUnpack(v, Upgrade(from, seen)) => seen == s.versions && from in seen && from != v
    case _ => true
  }

  predicate UpgradeOk(pc: Pc)
  {
    match pc
    case InstallStopWait(v, Some(from)) => from != v
    case InstallStopping(v, Some(from), _) => from != v
    case _ => true
  }

  /** How far the replies have got at each point of a handler. */
  predicate TraceOk(task: Task) { if task.acks then LongTraceOk(task) else ShortTraceOk(task) }

  predicate LongTraceOk(task: Task)
  {
    var pc := task.pc;
    if pc.Done? then Finished(task.trace)
    else if pc.Replying? then IsFinal(pc.reply) && Unfinished(task.trace)
    else if IsAcked(pc) then Opened(task.trace)
    else (pc.InstallBegin? || IsCreatePc(pc) || (pc.DetachedBegin? && pc.long)) && task.trace == []
  }

  predicate ShortTraceOk(task: Task)
  {
    var pc := task.pc;
    if pc.Done? then SingleReply(task.trace)
    else if pc.Replying? then IsFinal(pc.reply) && task.trace == []
    else !IsInstallPc(pc) && !IsCreatePc(pc) && !pc.DetachedGoing? && !IsLong(pc) && task.trace == []
  }

  predicate IsAcked(pc: Pc) { Installing(pc) || (IsCreatePc(pc) && HoldsRead(pc)) || pc.DetachedGoing? }

  predicate HoldsWhatItSays(s: State, t: TaskId)
    requires t in s.tasks
  {
    var pc := s.tasks[t].pc;
    && (HoldsWrite(pc) <==> s.writer == Some(t))
    && (HoldsRead(pc) <==> t in s.readers)
    && (HoldsMutex(pc) <==> s.mutex == Some(t))
  }

  predicate FindsWhatItNeeds(s: State, pc: Pc)
  {
    && (HasEmptySlot(pc) ==> s.slot.None?)
    && (NeedsQuiet(pc) ==> Quiet(s))
    && PlanOk(s, pc) && UpgradeOk(pc)
  }

  predicate TaskOk(s: State, t: TaskId)
    requires t in s.tasks
  {
    HoldsWhatItSays(s, t) && FindsWhatItNeeds(s, s.tasks[t].pc)
  }

  ghost predicate Guards(s: State)
  {
    && (s.writer.Some? ==> s.readers == {} && s.writer.value in s.tasks)
    && s.readers <= s.tasks.Keys
    && (s.mutex.Some? ==> s.mutex.value in s.tasks)
  }

  /** Every live process has exactly one owner: the slot, or the holder of the mutex. */
  ghost predicate Owned(s: State)
  {
    forall p :: p in s.live ==> (s.slot.Some? && s.slot.value.proc == p) || Held(s) == Some(p)
  }

  ghost predicate Inv(s: State)
  {
    && Guards(s)
    && Owned(s)
    && (forall t {:trigger TaskOk(s, t)} :: t in s.tasks ==> TaskOk(s, t))
  }

  /** What a step of `t` may change under the other tasks. */
  predicate Rely(s: State, s': State, t: TaskId)
  {
    && s'.tasks.Keys == s.tasks.Keys
    && (s'.writer == s.writer || (s.writer.None? && s'.writer == Some(t)) || (s.writer == Some(t) && s'.writer.None?))
    && (s'.mutex == s.mutex || (s.mutex.None? && s'.mutex == Some(t)) || (s.mutex == Some(t) && s'.mutex.None?))
    && (s'.readers == s.readers || s'.readers == s.readers + {t} || s'.readers == s.readers - {t})
    && (s'.versions == s.versions || s.writer == Some(t))
    && (s'.slot == s.slot || s.mutex == Some(t) || s'.mutex == Some(t))
    && (s'.slot == s.slot || s'.slot.None? || t in s.readers || s.writer == Some(t))
    && (s'.live <= s.live || t in s.readers || s.writer == Some(t))
  }

  lemma OthersKeep(s: State, s': State, t: TaskId, u: TaskId)
    requires Inv(s) && t in s.tasks && u in s.tasks && u != t
    requires Rely(s, s', t) && s'.tasks[u] == s.tasks[u]
    ensures TaskOk(s', u)
  {
    assert TaskOk(s, u) && TaskOk(s, t);
  }

  lemma Assemble(s: State, s': State, t: TaskId)
    requires Inv(s) && t in s.tasks && Rely(s, s', t) && s'.tasks == s.tasks[t := s'.tasks[t]]
    requires TaskOk(s', t) && Guards(s') && Owned(s')
    ensures Inv(s')
  {
    forall u {:trigger TaskOk(s', u)} | u in s'.tasks ensures TaskOk(s', u) {
      if u != t { OthersKeep(s, s', t, u); }
    }
  }

  /** A step only adds replies. */
  predicate Grows(before: Task, after: Task) { before.trace <= after.trace && after.acks == before.acks }

  lemma TracesGrow(trace: seq<Status>)
    ensures Opened([Ack])
    ensures Opened(trace) ==> Opened(trace + [Ongoing]) && Opened(trace + [Ongoing, Ongoing])
    ensures Unfinished(trace) ==> Finished(trace + [Completed]) && Finished(trace + [Failed])
    ensures Opened(trace) ==> Finished(trace + [Ongoing] + [Completed])
    ensures trace == [] ==> Finished(trace + [Ack] + [Failed])
    ensures trace + [] == trace
  {
  }

  lemma InstallRelies(s: State, t: TaskId, c: Choice, s': State)
    requires Inv(s) && t in s.tasks && NextInstall(s, t, c) == Some(s')
    ensures Rely(s, s', t) && s'.tasks == s.tasks[t := s'.tasks[t]] && Guards(s') && Owned(s')
  {
    assert TaskOk(s, t);
  }

  lemma UnpackTask(s: State, t: TaskId, c: Choice, s': State)
    requires Inv(s) && t in s.tasks && NextInstall(s, t, c) == Some(s') && s.tasks[t].pc.InstallUnpack?
    ensures t in s'.tasks && TaskOk(s', t)
  {
    assert TaskOk(s, t);
  }

  lemma BeginTask(s: State, t: TaskId, c: Choice, s': State)
    requires Inv(s) && t in s.tasks && NextInstall(s, t, c) == Some(s') && s.tasks[t].pc.InstallBegin?
    ensures t in s'.tasks && TaskOk(s', t)
  {
    assert TaskOk(s, t);
  }

  lemma DecideTask(s: State, t: TaskId, c: Choice, s': State)
    requires Inv(s) && t in s.tasks && NextInstall(s, t, c) == Some(s') && s.tasks[t].pc.InstallDecide?
    ensures t in s'.tasks && TaskOk(s', t)
  {
    assert TaskOk(s, t);
  }

  lemma InstallTrace(s: State, t: TaskId, c: Choice, s': State)
    requires t in s.tasks && NextInstall(s, t, c) == Some(s') && LongTraceOk(s.tasks[t])
    ensures t in s'.tasks && Grows(s.tasks[t], s'.tasks[t]) && LongTraceOk(s'.tasks[t])
  {
    TracesGrow(s.tasks[t].trace);
  }

  lemma HaltRelies(s: State, t: TaskId, c: Choice, s': State)
    requires Inv(s) && t in s.tasks && NextHalt(s, t, c) == Some(s')
    ensures Rely(s, s', t) && s'.tasks == s.tasks[t := s'.tasks[t]] && Guards(s') && Owned(s')
  {
    assert TaskOk(s, t);
  }

  lemma StopWaitTask(s: State, t: TaskId, c: Choice, s': State)
    requires Inv(s) && t in s.tasks && NextHalt(s, t, c) == Some(s') && s.tasks[t].pc.InstallStopWait?
    ensures t in s'.tasks && TaskOk(s', t)
  {
    assert TaskOk(s, t);
  }

  lemma StoppingTask(s: State, t: TaskId, c: Choice, s': State)
    requires Inv(s) && t in s.tasks && NextHalt(s, t, c) == Some(s') && s.tasks[t].pc.InstallStopping?
    ensures t in s'.tasks && TaskOk(s', t)
  {
    assert TaskOk(s, t);
  }

  lemma HaltTrace(s: State, t: TaskId, c: Choice, s': State)
    requires t in s.tasks && NextHalt(s, t, c) == Some(s') && LongTraceOk(s.tasks[t])
    ensures t in s'.tasks && Grows(s.tasks[t], s'.tasks[t]) && LongTraceOk(s'.tasks[t])
  {
    TracesGrow(s.tasks[t].trace);
  }

  lemma SwapRelies(s: State, t: TaskId, c: Choice, s': State)
    requires Inv(s) && t in s.tasks && NextSwap(s, t, c) == Some(s')
    ensures Rely(s, s', t) && s'.tasks == s.tasks[t := s'.tasks[t]] && Guards(s') && Owned(s')
  {
    assert TaskOk(s, t);
  }

  lemma RemoveTask(s: State, t: TaskId, c: Choice, s': State)
    requires Inv(s) && t in s.tasks && NextSwap(s, t, c) == Some(s') && s.tasks[t].pc.InstallRemove?
    ensures t in s'.tasks && TaskOk(s', t)
  {
    assert TaskOk(s, t);
  }

  lemma RestartTask(s: State, t: TaskId, c: Choice, s': State)
    requires Inv(s) && t in s.tasks && NextSwap(s, t, c) == Some(s')
    requires s.tasks[t].pc.InstallRestart? || s.tasks[t].pc.InstallSpawn?
    ensures t in s'.tasks && TaskOk(s', t)
  {
    assert TaskOk(s, t);
  }

  lemma SwapTrace(s: State, t: TaskId, c: Choice, s': State)
    requires t in s.tasks && NextSwap(s, t, c) == Some(s') && LongTraceOk(s.tasks[t])
    ensures t in s'.tasks && Grows(s.tasks[t], s'.tasks[t]) && LongTraceOk(s'.tasks[t])
  {
    TracesGrow(s.tasks[t].trace);
  }

  lemma StartRelies(s: State, t: TaskId, c: Choice, s': State)
    requires Inv(s) && t in s.tasks && NextStart(s, t, c) == Some(s')
    ensures Rely(s, s', t) && s'.tasks == s.tasks[t := s'.tasks[t]] && Guards(s') && Owned(s')
  {
    assert TaskOk(s, t);
  }

  lemma StartTask(s: State, t: TaskId, c: Choice, s': State)
    requires Inv(s) && t in s.tasks && NextStart(s, t, c) == Some(s')
    ensures t in s'.tasks && TaskOk(s', t)
  {
    assert TaskOk(s, t);
  }

  lemma StartTrace(s: State, t: TaskId, c: Choice, s': State)
    requires t in s.tasks && NextStart(s, t, c) == Some(s') && ShortTraceOk(s.tasks[t])
    ensures t in s'.tasks && Grows(s.tasks[t], s'.tasks[t]) && ShortTraceOk(s'.tasks[t])
  {
  }

  lemma CreateRelies(s: State, t: TaskId, c: Choice, s': State)
    requires Inv(s) && t in s.tasks && NextCreate(s, t, c) == Some(s')
    ensures Rely(s, s', t) && s'.tasks == s.tasks[t := s'.tasks[t]] && Guards(s') && Owned(s')
  {
    assert TaskOk(s, t);
  }

  lemma CreateBeginTask(s: State, t: TaskId, c: Choice, s': State)
    requires Inv(s) && t in s.tasks && NextCreate(s, t, c) == Some(s')
    requires s.tasks[t].pc.CreateBegin? || s.tasks[t].pc.CreateWait?
    ensures t in s'.tasks && TaskOk(s', t)
  {
    assert TaskOk(s, t);
  }

  lemma CreatePrepareTask(s: State, t: TaskId, c: Choice, s': State)
    requires Inv(s) && t in s.tasks && NextCreate(s, t, c) == Some(s') && s.tasks[t].pc.CreatePrepare?
    ensures t in s'.tasks && TaskOk(s', t)
  {
    assert TaskOk(s, t);
  }

  lemma CreateRunTask(s: State, t: TaskId, c: Choice, s': State)
    requires Inv(s) && t in s.tasks && NextCreate(s, t, c) == Some(s')
    requires s.tasks[t].pc.CreateSpawn? || s.tasks[t].pc.CreateRunning?
    ensures t in s'.tasks && TaskOk(s', t)
  {
    assert TaskOk(s, t);
  }

  lemma CreateBeginTrace(s: State, t: TaskId, c: Choice, s': State)
    requires t in s.tasks && NextCreate(s, t, c) == Some(s') && LongTraceOk(s.tasks[t]) && !HoldsRead(s.tasks[t].pc)
    ensures t in s'.tasks && Grows(s.tasks[t], s'.tasks[t]) && LongTraceOk(s'.tasks[t])
  {
    TracesGrow(s.tasks[t].trace);
  }

  lemma CreateRunTrace(s: State, t: TaskId, c: Choice, s': State)
    requires t in s.tasks && NextCreate(s, t, c) == Some(s') && LongTraceOk(s.tasks[t]) && HoldsRead(s.tasks[t].pc)
    ensures t in s'.tasks && Grows(s.tasks[t], s'.tasks[t]) && LongTraceOk(s'.tasks[t])
  {
    TracesGrow(s.tasks[t].trace);
  }

  lemma ServerRelies(s: State, t: TaskId, c: Choice, s': State)
    requires Inv(s) && t in s.tasks && NextServer(s, t, c) == Some(s')
    ensures Rely(s, s', t) && s'.tasks == s.tasks[t := s'.tasks[t]] && Guards(s') && Owned(s')
  {
    assert TaskOk(s, t);
  }

  lemma StopTask(s: State, t: TaskId, c: Choice, s': State)
    requires Inv(s) && t in s.tasks && NextServer(s, t, c) == Some(s')
    requires s.tasks[t].pc.StopBegin? || s.tasks[t].pc.Stopping?
    ensures t in s'.tasks && TaskOk(s', t)
  {
    assert TaskOk(s, t);
  }

  lemma StatusTask(s: State, t: TaskId, c: Choice, s': State)
    requires Inv(s) && t in s.tasks && NextServer(s, t, c) == Some(s')
    requires s.tasks[t].pc.StatusBegin? || s.tasks[t].pc.StatusPoll?
    ensures t in s'.tasks && TaskOk(s', t)
  {
    assert TaskOk(s, t);
  }

  lemma ServerTrace(s: State, t: TaskId, c: Choice, s': State)
    requires t in s.tasks && NextServer(s, t, c) == Some(s') && ShortTraceOk(s.tasks[t])
    ensures t in s'.tasks && Grows(s.tasks[t], s'.tasks[t]) && ShortTraceOk(s'.tasks[t])
  {
  }

  lemma LookRelies(s: State, t: TaskId, c: Choice, s': State)
    requires Inv(s) && t in s.tasks && NextLook(s, t, c) == Some(s')
    ensures Rely(s, s', t) && s'.tasks == s.tasks[t := s'.tasks[t]] && Guards(s') && Owned(s')
  {
    assert TaskOk(s, t);
  }

  lemma LookTask(s: State, t: TaskId, c: Choice, s': State)
    requires Inv(s) && t in s.tasks && NextLook(s, t, c) == Some(s')
    ensures t in s'.tasks && TaskOk(s', t)
  {
    assert TaskOk(s, t);
  }

  lemma LookTrace(s: State, t: TaskId, c: Choice, s': State)
    requires t in s.tasks && NextLook(s, t, c) == Some(s') && TraceOk(s.tasks[t])
    ensures t in s'.tasks && Grows(s.tasks[t], s'.tasks[t]) && TraceOk(s'.tasks[t])
  {
    TracesGrow(s.tasks[t].trace);
  }

  lemma ReplyTask(s: State, t: TaskId, c: Choice, s': State)
    requires Inv(s) && t in s.tasks && NextReply(s, t, c) == Some(s')
    ensures Rely(s, s', t) && s'.tasks == s.tasks[t := s'.tasks[t]] && Guards(s') && Owned(s') && TaskOk(s', t)
  {
    assert TaskOk(s, t);
    assert Held(s') == Held(s);
  }

  lemma ReplyTrace(s: State, t: TaskId, c: Choice, s': State)
    requires t in s.tasks && NextReply(s, t, c) == Some(s') && TraceOk(s.tasks[t])
    ensures t in s'.tasks && Grows(s.tasks[t], s'.tasks[t]) && TraceOk(s'.tasks[t])
  {
    TracesGrow(s.tasks[t].trace);
  }

  /** Every step of a task keeps the invariant and the shape of its replies. */
  lemma ActKeeps(s: State, t: TaskId, c: Choice, s': State)
    requires Inv(s) && t in s.tasks && NextOf(s, t, c) == Some(s')
    ensures Inv(s') && Rely(s, s', t) && s'.tasks == s.tasks[t := s'.tasks[t]]
  {
    var pc := s.tasks[t].pc;
    if pc.InstallBegin? || pc.InstallDecide? || pc.InstallUnpack? {
      InstallRelies(s, t, c, s');
      if pc.InstallUnpack? { UnpackTask(s, t, c, s'); }
      else if pc.InstallBegin? { BeginTask(s, t, c, s'); }
      else { DecideTask(s, t, c, s'); }
    } else if pc.InstallStopWait? || pc.InstallStopping? {
      HaltRelies(s, t, c, s');
      if pc.InstallStopWait? { StopWaitTask(s, t, c, s'); } else { StoppingTask(s, t, c, s'); }
    } else if IsInstallPc(pc) {
      SwapRelies(s, t, c, s');
      if pc.InstallRemove? { RemoveTask(s, t, c, s'); } else { RestartTask(s, t, c, s'); }
    } else if IsCreatePc(pc) {
      CreateRelies(s, t, c, s');
      if pc.CreateBegin? || pc.CreateWait? { CreateBeginTask(s, t, c, s'); }
      else if pc.CreatePrepare? { CreatePrepareTask(s, t, c, s'); }
      else { CreateRunTask(s, t, c, s'); }
    } else if pc.StartBegin? || pc.StartPrepare? || pc.StartSpawn? {
      StartRelies(s, t, c, s'); StartTask(s, t, c, s');
    } else if pc.StopBegin? || pc.Stopping? || pc.StatusBegin? || pc.StatusPoll? {
      ServerRelies(s, t, c, s');
      if pc.StopBegin? || pc.Stopping? { StopTask(s, t, c, s'); } else { StatusTask(s, t, c, s'); }
    } else if pc.Replying? {
      ReplyTask(s, t, c, s');
    } else {
      LookRelies(s, t, c, s'); LookTask(s, t, c, s');
    }
    Assemble(s, s', t);
  }

  lemma ActTrace(s: State, t: TaskId, c: Choice, s': State)
    requires t in s.tasks && NextOf(s, t, c) == Some(s') && TraceOk(s.tasks[t])
    ensures t in s'.tasks && Grows(s.tasks[t], s'.tasks[t]) && TraceOk(s'.tasks[t])
  {
    var pc := s.tasks[t].pc;
    if pc.InstallBegin? || pc.InstallDecide? || pc.InstallUnpack? { InstallTrace(s, t, c, s'); }
    else if pc.InstallStopWait? || pc.InstallStopping? { HaltTrace(s, t, c, s'); }
    else if IsInstallPc(pc) { SwapTrace(s, t, c, s'); }
    else if IsCreatePc(pc) && HoldsRead(pc) { CreateRunTrace(s, t, c, s'); }
    else if IsCreatePc(pc) { CreateBeginTrace(s, t, c, s'); }
    else if pc.StartBegin? || pc.StartPrepare? || pc.StartSpawn? { StartTrace(s, t, c, s'); }
    else if pc.StopBegin? || pc.Stopping? || pc.StatusBegin? || pc.StatusPoll? { ServerTrace(s, t, c, s'); }
    else if pc.Replying? { ReplyTrace(s, t, c, s'); }
    else { LookTrace(s, t, c, s'); }
  }

  lemma SpawnKeeps(s: State, t: TaskId, pc: Pc, s': State)
    requires Inv(s) && Next(s, Spawn(t, pc)) == Some(s')
    ensures Inv(s')
  {
    assert Held(s') == Held(s);
    forall u {:trigger TaskOk(s', u)} | u in s'.tasks ensures TaskOk(s', u) {
      if u != t { assert TaskOk(s, u); }
    }
  }

  lemma ExitKeeps(s: State, proc: Proc, s': State)
    requires Inv(s) && Next(s, Exit(proc)) == Some(s')
    ensures Inv(s')
  {
    assert Held(s') == Held(s);
    forall u {:trigger TaskOk(s', u)} | u in s'.tasks ensures TaskOk(s', u) { assert TaskOk(s, u); }
  }

  lemma OnlyUnfinishedTasksAct(s: State, t: TaskId, c: Choice)
    requires t in s.tasks && NextOf(s, t, c).Some?
    ensures !s.tasks[t].pc.Done?
  {
  }

  ghost predicate TracesOk(s: State) { forall t {:trigger s.tasks[t]} :: t in s.tasks ==> TraceOk(s.tasks[t]) }

  lemma NextKeeps(s: State, a: Action, s': State)
    requires Inv(s) && TracesOk(s) && Next(s, a) == Some(s')
    ensures Inv(s') && TracesOk(s')
  {
    match a
    case Spawn(t, pc) => SpawnKeeps(s, t, pc, s');
    case Exit(proc) => ExitKeeps(s, proc, s');
    case Act(t, c) => ActKeeps(s, t, c, s'); ActTrace(s, t, c, s');
  }
}
