/** Each handler from its request to its reply, with every other task interleaved: when it fails, and
    what it has done when it succeeds. */
module AgentOutcomes {
  import opened Basics
  import opened OperationTrace
  import opened AgentMachine
  import opened AgentInvariant
  import opened AgentRuns
  import opened AgentReports

  // ---- When a handler fails --------------------------------------------------------------

  /** Errors here are logged and the handler goes on: stopping a server, asking whether it runs. */
  predicate Tolerates(pc: Pc) { pc.InstallStopping? || pc.Stopping? || pc.StatusPoll? }

  /** Here a handler needs an installed version, an empty slot, or a running server. */
  predicate Refused(s: State, pc: Pc)
  {
    || ((pc.StartBegin? || pc.CreateWait?) && s.versions == map[])
    || ((pc.StartPrepare? || pc.CreatePrepare? || pc.InstallRestart?) && s.slot.Some?)
    || (pc.PeekHold? && pc.rcon && s.slot.None?)
    || (pc.InstallRemove? && pc.from !in s.versions)
  }

  /** This step of `t` meets an error: a time-out, a failure it does not tolerate, or a refusal. */
  predicate Fault(s: State, t: TaskId, c: Choice)
    requires t in s.tasks
  {
    c.TimedOut? || c.RemovalFails? || (c.Fails? && !Tolerates(s.tasks[t].pc)) || Refused(s, s.tasks[t].pc)
  }

  /** After the step `t` is about to report a failure exactly when the step met an error. */
  predicate Decides(s: State, t: TaskId, c: Choice, s': State)
    requires t in s.tasks
  {
    && t in s'.tasks && !s'.tasks[t].pc.Done?
    && (s'.tasks[t].pc.Replying? ==> IsFinal(s'.tasks[t].pc.reply))
    && (Reports(s', t, Failed) <==> Fault(s, t, c))
  }

  lemma InstallDecides(s: State, t: TaskId, c: Choice, s': State)
    requires t in s.tasks && NextInstall(s, t, c) == Some(s')
    ensures Decides(s, t, c, s')
  {
  }

  lemma HaltDecides(s: State, t: TaskId, c: Choice, s': State)
    requires t in s.tasks && NextHalt(s, t, c) == Some(s')
    ensures Decides(s, t, c, s')
  {
  }

  lemma SwapDecides(s: State, t: TaskId, c: Choice, s': State)
    requires t in s.tasks && NextSwap(s, t, c) == Some(s')
    ensures Decides(s, t, c, s')
  {
  }

  lemma StartDecides(s: State, t: TaskId, c: Choice, s': State)
    requires t in s.tasks && NextStart(s, t, c) == Some(s')
    ensures Decides(s, t, c, s')
  {
  }

  lemma CreateDecides(s: State, t: TaskId, c: Choice, s': State)
    requires t in s.tasks && NextCreate(s, t, c) == Some(s')
    ensures Decides(s, t, c, s')
  {
  }

  lemma ServerDecides(s: State, t: TaskId, c: Choice, s': State)
    requires t in s.tasks && NextServer(s, t, c) == Some(s')
    ensures Decides(s, t, c, s')
  {
  }

  lemma LookDecides(s: State, t: TaskId, c: Choice, s': State)
    requires t in s.tasks && NextLook(s, t, c) == Some(s')
    ensures Decides(s, t, c, s')
  {
  }

  lemma ActDecides(s: State, t: TaskId, c: Choice, s': State)
    requires t in s.tasks && NextOf(s, t, c) == Some(s') && !s.tasks[t].pc.Replying?
    ensures Decides(s, t, c, s')
  {
    var pc := s.tasks[t].pc;
    if pc.InstallBegin? || pc.InstallDecide? || pc.InstallUnpack? { InstallDecides(s, t, c, s'); }
    else if pc.InstallStopWait? || pc.InstallStopping? { HaltDecides(s, t, c, s'); }
    else if IsInstallPc(pc) { SwapDecides(s, t, c, s'); }
    else if IsCreatePc(pc) { CreateDecides(s, t, c, s'); }
    else if IsStart(pc) { StartDecides(s, t, c, s'); }
    else if pc.StopBegin? || pc.Stopping? || pc.StatusBegin? || pc.StatusPoll? { ServerDecides(s, t, c, s'); }
    else { LookDecides(s, t, c, s'); }
  }

  /** Whether some step of `t` itself met an error during the run. */
  predicate Faulted(s: State, actions: seq<Action>, t: TaskId)
    decreases |actions|
  {
    actions != [] &&
    match Next(s, actions[0])
    case None => false
    case Some(s') => FaultBy(s, actions[0], t) || Faulted(s', actions[1..], t)
  }

  predicate FaultBy(s: State, a: Action, t: TaskId) { a.Act? && a.t == t && t in s.tasks && Fault(s, t, a.choice) }

  /** The reply of a task, sent or about to be sent, tells whether it met an error. */
  predicate Verdict(task: Task, faulted: bool)
  {
    match task.pc
    case Replying(reply, _) => reply == if faulted then Failed else Completed
    case Done => task.trace != [] && task.trace[|task.trace| - 1] == if faulted then Failed else Completed
    case _ => !faulted
  }

  lemma StepVerdict(s: State, a: Action, s': State, t: TaskId, faulted: bool)
    requires Inv(s) && t in s.tasks && Next(s, a) == Some(s') && Verdict(s.tasks[t], faulted)
    ensures t in s'.tasks && Verdict(s'.tasks[t], faulted || FaultBy(s, a, t))
  {
    if a.Act? && a.t == t {
      if !s.tasks[t].pc.Replying? {
        OnlyUnfinishedTasksAct(s, t, a.choice);
        ActDecides(s, t, a.choice, s');
      }
    } else if a.Act? {
      ActKeeps(s, a.t, a.choice, s');
    }
  }

  lemma {:induction false} RunVerdict(s: State, actions: seq<Action>, t: TaskId, faulted: bool)
    requires Inv(s) && TracesOk(s) && t in s.tasks && Run(s, actions).Some? && Verdict(s.tasks[t], faulted)
    ensures t in Run(s, actions).value.tasks
    ensures Verdict(Run(s, actions).value.tasks[t], faulted || Faulted(s, actions, t))
    decreases |actions|
  {
    if actions != [] {
      var a, s' := actions[0], Next(s, actions[0]).value;
      NextKeeps(s, a, s');
      StepVerdict(s, a, s', t, faulted);
      RunVerdict(s', actions[1..], t, faulted || FaultBy(s, a, t));
    }
  }

  /** From its request on, any handler reports Failed if one of its own steps met an error, and
      Completed if none did; as long as it has no result it has met none. */
  lemma FailsExactlyWhen(s: State, before: seq<Action>, now: State, t: TaskId, actions: seq<Action>)
    requires Init(s) && Run(s, before) == Some(now) && t in now.tasks && IsFirstPc(now.tasks[t].pc)
    requires Run(now, actions).Some?
    ensures t in Run(now, actions).value.tasks
    ensures Verdict(Run(now, actions).value.tasks[t], Faulted(now, actions, t))
  {
    RunKeeps(s, before);
    RunVerdict(now, actions, t, false);
  }

  /** `t` serves a `server_stop` or a `server_status`. */
  predicate NeverFails(pc: Pc)
  {
    || pc.StopBegin? || pc.Stopping? || pc.StatusBegin? || pc.StatusPoll? || (pc.PeekBegin? && !pc.rcon)
    || (pc.PeekHold? && !pc.rcon) || (pc.Replying? && pc.reply == Completed) || pc.Done?
  }

  lemma OwnNeverFails(s: State, t: TaskId, c: Choice, s': State)
    requires t in s.tasks && NeverFails(s.tasks[t].pc) && NextOf(s, t, c) == Some(s')
    ensures t in s'.tasks && NeverFails(s'.tasks[t].pc)
  {
  }

  lemma {:induction false} RunNeverFails(s: State, actions: seq<Action>, t: TaskId)
    requires Inv(s) && TracesOk(s) && t in s.tasks && NeverFails(s.tasks[t].pc) && Run(s, actions).Some?
    ensures t in Run(s, actions).value.tasks && NeverFails(Run(s, actions).value.tasks[t].pc)
    decreases |actions|
  {
    if actions != [] {
      var a, s' := actions[0], Next(s, actions[0]).value;
      NextKeeps(s, a, s');
      if a.Act? && a.t == t { OwnNeverFails(s, t, a.choice, s'); }
      else if a.Act? { ActKeeps(s, a.t, a.choice, s'); }
      RunNeverFails(s', actions[1..], t);
    }
  }

  /** Whatever happens, `server_stop` and `server_status` never report a failure. */
  lemma StopAndStatusNeverFail(s: State, before: seq<Action>, now: State, t: TaskId, actions: seq<Action>)
    requires Init(s) && Run(s, before) == Some(now) && t in now.tasks
    requires now.tasks[t].pc.StopBegin? || now.tasks[t].pc.StatusBegin?
    requires Run(now, actions).Some?
    ensures !Reports(Run(now, actions).value, t, Failed)
  {
    RunKeeps(s, before);
    RunNeverFails(now, actions, t);
  }

  /** When `server_start` or `save_create` is refused for want of a version, there is still none when the
      refusal goes out. */
  lemma NotInstalledIsCurrent(s: State, before: seq<Action>, now: State, t: TaskId, s': State, rest: seq<Action>)
    requires Init(s) && Run(s, before) == Some(now) && t in now.tasks
    requires (now.tasks[t].pc.StartBegin? || now.tasks[t].pc.CreateWait?) && now.versions == map[]
    requires NextOf(now, t, Proceed) == Some(s') && Run(s', rest).Some?
    requires Reports(Run(s', rest).value, t, Failed)
    ensures Run(s', rest).value.versions == map[]
  {
    RunKeeps(s, before);
    NextKeeps(now, Act(t, Proceed), s');
    VersionsAreHeld(s', rest, t, Failed);
  }

  /** `t` serves an `rcon_command`. */
  predicate IsRcon(pc: Pc)
  {
    (pc.PeekBegin? && pc.rcon) || (pc.PeekHold? && pc.rcon) || pc.Replying? || pc.Done?
  }

  lemma OwnRcon(s: State, t: TaskId, c: Choice, s': State)
    requires t in s.tasks && IsRcon(s.tasks[t].pc) && NextOf(s, t, c) == Some(s')
    ensures t in s'.tasks && IsRcon(s'.tasks[t].pc)
    ensures Reports(s', t, Completed) ==> s.slot.Some?
  {
  }

  lemma {:induction false} RunRcon(s: State, actions: seq<Action>, t: TaskId)
    requires Inv(s) && TracesOk(s) && t in s.tasks && IsRcon(s.tasks[t].pc) && Run(s, actions).Some?
    ensures t in Run(s, actions).value.tasks && IsRcon(Run(s, actions).value.tasks[t].pc)
    decreases |actions|
  {
    if actions != [] {
      var a, s' := actions[0], Next(s, actions[0]).value;
      NextKeeps(s, a, s');
      if a.Act? && a.t == t { OwnRcon(s, t, a.choice, s'); }
      else if a.Act? { ActKeeps(s, a.t, a.choice, s'); }
      RunRcon(s', actions[1..], t);
    }
  }

  /** An `rcon_command` succeeds only where a server is in the slot. */
  lemma RconNeedsServer(s: State, before: seq<Action>, now: State, t: TaskId, actions: seq<Action>, at: State,
                        c: Choice, s': State)
    requires Init(s) && Run(s, before) == Some(now) && t in now.tasks && now.tasks[t].pc == PeekBegin(true)
    requires Run(now, actions) == Some(at) && t in at.tasks && NextOf(at, t, c) == Some(s') && Reports(s', t, Completed)
    ensures at.slot.Some?
  {
    RunKeeps(s, before);
    RunRcon(now, actions, t);
    OwnRcon(at, t, c, s');
  }

  // ---- When the acknowledgement goes out -------------------------------------------------

  /** The task has acknowledged exactly if it holds the version lock. */
  predicate AcksWithLock(task: Task)
  {
    match task.pc
    case Replying(_, guard) => task.trace != [] <==> !guard.Unguarded?
    case pc => pc.Done? || IsInstallPc(pc) || IsCreatePc(pc)
  }

  lemma InstallAcks(s: State, t: TaskId, c: Choice, s': State)
    requires Inv(s) && t in s.tasks && LongTraceOk(s.tasks[t]) && NextInstall(s, t, c) == Some(s')
    ensures t in s'.tasks && AcksWithLock(s'.tasks[t])
  {
    assert TaskOk(s, t);
  }

  lemma SwapAcks(s: State, t: TaskId, c: Choice, s': State)
    requires Inv(s) && t in s.tasks && LongTraceOk(s.tasks[t])
    requires NextHalt(s, t, c) == Some(s') || NextSwap(s, t, c) == Some(s')
    ensures t in s'.tasks && AcksWithLock(s'.tasks[t])
  {
    assert TaskOk(s, t);
  }

  lemma CreateAcks(s: State, t: TaskId, c: Choice, s': State)
    requires Inv(s) && t in s.tasks && LongTraceOk(s.tasks[t]) && NextCreate(s, t, c) == Some(s')
    ensures t in s'.tasks && AcksWithLock(s'.tasks[t])
  {
    assert TaskOk(s, t);
  }

  lemma OwnAcks(s: State, t: TaskId, c: Choice, s': State)
    requires Inv(s) && t in s.tasks && TraceOk(s.tasks[t]) && s.tasks[t].acks && AcksWithLock(s.tasks[t])
    requires NextOf(s, t, c) == Some(s')
    ensures t in s'.tasks && AcksWithLock(s'.tasks[t])
  {
    var pc := s.tasks[t].pc;
    if pc.InstallBegin? || pc.InstallDecide? || pc.InstallUnpack? { InstallAcks(s, t, c, s'); }
    else if IsInstallPc(pc) { SwapAcks(s, t, c, s'); }
    else if IsCreatePc(pc) { CreateAcks(s, t, c, s'); }
    else { RepliesThenDone(s, Act(t, c), s', t); }
  }

  lemma {:induction false} RunAcks(s: State, actions: seq<Action>, t: TaskId)
    requires Inv(s) && TracesOk(s) && t in s.tasks && s.tasks[t].acks && AcksWithLock(s.tasks[t])
    requires Run(s, actions).Some?
    ensures t in Run(s, actions).value.tasks && AcksWithLock(Run(s, actions).value.tasks[t])
    decreases |actions|
  {
    if actions != [] {
      var a, s' := actions[0], Next(s, actions[0]).value;
      NextKeeps(s, a, s');
      if a.Act? && a.t == t {
        OwnAcks(s, t, a.choice, s');
        ActTrace(s, t, a.choice, s');
      } else if a.Act? {
        ActKeeps(s, a.t, a.choice, s');
      }
      RunAcks(s', actions[1..], t);
    }
  }

  /** When `version_install` or `save_create` is about to report, it has acknowledged if and only if it got
      the version lock, which it then still holds; a client whose request timed out at the lock sees
      the failure alone. */
  lemma AcknowledgesWithLock(s: State, before: seq<Action>, now: State, t: TaskId, actions: seq<Action>)
    requires Init(s) && Run(s, before) == Some(now) && t in now.tasks && now.tasks[t].acks
    requires now.tasks[t].pc.InstallBegin? || now.tasks[t].pc.CreateBegin?
    requires Run(now, actions).Some?
    ensures var last := Run(now, actions).value;
      t in last.tasks && (last.tasks[t].pc.Replying? ==>
        (last.tasks[t].trace != [] <==> last.writer == Some(t) || t in last.readers))
  {
    RunKeeps(s, before);
    RunAcks(now, actions, t);
    RunKeeps(now, actions);
    assert TaskOk(Run(now, actions).value, t);
  }

  // ---- server_start ----------------------------------------------------------------------

  predicate Versioned(s: State, d: Dir) { exists v :: v in s.versions && s.versions[v] == d }

  /** `t` serves a request to start `save`, from an installation that is in place once chosen. */
  ghost predicate StartsSave(s: State, t: TaskId, save: string)
  {
    && t in s.tasks
    && match s.tasks[t].pc
       case StartBegin(x) => x == save
       case StartPrepare(x, d) => x == save && Versioned(s, d)
       case StartSpawn(x, d) => x == save && Versioned(s, d)
       case Replying(_, _) => true
       case Done => true
       case _ => false
  }

  lemma OwnStartStep(s: State, t: TaskId, c: Choice, s': State, save: string)
    requires Inv(s) && StartsSave(s, t, save) && NextOf(s, t, c) == Some(s')
    ensures StartsSave(s', t, save)
    ensures Reports(s', t, Completed) ==> HostsNew(s, s', save) && Versioned(s', s'.slot.value.proc.dir)
  {
    if IsStart(s.tasks[t].pc) { StartHosts(s, t, c, s'); }
  }

  /** Nobody changes the versions while a reader has chosen one. */
  lemma ReaderKeepsVersions(s: State, a: Action, s': State, t: TaskId)
    requires Inv(s) && t in s.tasks && HoldsRead(s.tasks[t].pc) && Next(s, a) == Some(s') && !(a.Act? && a.t == t)
    ensures t in s'.tasks && s'.tasks[t] == s.tasks[t] && s'.versions == s.versions
  {
    assert TaskOk(s, t);
    if a.Act? {
      assert TaskOk(s, a.t);
      ActKeeps(s, a.t, a.choice, s');
    }
  }

  lemma StartStep(s: State, a: Action, s': State, t: TaskId, save: string)
    requires Inv(s) && StartsSave(s, t, save) && Next(s, a) == Some(s')
    ensures StartsSave(s', t, save)
  {
    if a.Act? && a.t == t { OwnStartStep(s, t, a.choice, s', save); }
    else if HoldsRead(s.tasks[t].pc) { ReaderKeepsVersions(s, a, s', t); }
    else if a.Act? { ActKeeps(s, a.t, a.choice, s'); }
  }

  lemma {:induction false} RunStart(s: State, actions: seq<Action>, t: TaskId, save: string)
    requires Inv(s) && TracesOk(s) && StartsSave(s, t, save) && Run(s, actions).Some?
    ensures StartsSave(Run(s, actions).value, t, save)
    decreases |actions|
  {
    if actions != [] {
      var s' := Next(s, actions[0]).value;
      NextKeeps(s, actions[0], s');
      StartStep(s, actions[0], s', t, save);
      RunStart(s', actions[1..], t, save);
    }
  }

  /** A `server_start` for `save` that settles on Completed has just started a process that hosts
      `save`, from an installation in place, as the only one alive. */
  lemma StartDelivers(s: State, before: seq<Action>, now: State, t: TaskId, save: string, actions: seq<Action>,
                      at: State, c: Choice, s': State)
    requires Init(s) && Run(s, before) == Some(now) && t in now.tasks && now.tasks[t].pc == StartBegin(save)
    requires Run(now, actions) == Some(at) && t in at.tasks && NextOf(at, t, c) == Some(s') && Reports(s', t, Completed)
    ensures HostsNew(at, s', save) && Versioned(s', s'.slot.value.proc.dir)
  {
    RunKeeps(s, before);
    RunStart(now, actions, t, save);
    RunKeeps(now, actions);
    OwnStartStep(at, t, c, s', save);
  }

  // ---- save_create -----------------------------------------------------------------------

  /** The processes task `t` itself starts during the run, and those that exit by themselves. */
  function LaunchedBy(s: State, actions: seq<Action>, t: TaskId): set<Proc>
    decreases |actions|
  {
    if actions == [] || Next(s, actions[0]).None? then {}
    else OwnLaunch(s, actions[0], t) + LaunchedBy(Next(s, actions[0]).value, actions[1..], t)
  }

  function OwnLaunch(s: State, a: Action, t: TaskId): set<Proc> { if a.Act? && a.t == t then Launched(s, a) else {} }

  /** `t` has started `launched` so far, and `actions` is what has happened since its request. */
  ghost predicate Creates(s: State, t: TaskId, launched: set<Proc>, actions: seq<Action>)
  {
    && t in s.tasks && (forall p :: p in launched ==> p.id < s.nextId)
    && match s.tasks[t].pc
       case CreateRunning(p) => launched == {p} && (p in s.live || Exit(p) in actions)
       case Replying(reply, _) => launched !! s.live && (reply == Completed ==> WroteSave(launched, actions))
       case Done => launched !! s.live
       case pc => IsCreatePc(pc) && launched == {}
  }

  /** One process was started, and it has exited by itself. */
  ghost predicate WroteSave(launched: set<Proc>, actions: seq<Action>)
  {
    exists p :: launched == {p} && Exit(p) in actions
  }

  lemma OwnCreateStep(s: State, t: TaskId, c: Choice, s': State, launched: set<Proc>, actions: seq<Action>)
    requires Inv(s) && Numbered(s) && Creates(s, t, launched, actions) && NextOf(s, t, c) == Some(s')
    ensures Creates(s', t, launched + OwnLaunch(s, Act(t, c), t), actions)
  {
    if s.tasks[t].pc.CreateRunning? { SaveEnds(s, t, c, s', launched, actions); }
    else if IsCreatePc(s.tasks[t].pc) { SaveBegins(s, t, c, s', launched, actions); }
  }

  lemma SaveBegins(s: State, t: TaskId, c: Choice, s': State, launched: set<Proc>, actions: seq<Action>)
    requires Numbered(s) && Creates(s, t, launched, actions) && NextCreate(s, t, c) == Some(s')
    requires !s.tasks[t].pc.CreateRunning?
    ensures Creates(s', t, launched + OwnLaunch(s, Act(t, c), t), actions)
  {
  }

  lemma SaveEnds(s: State, t: TaskId, c: Choice, s': State, launched: set<Proc>, actions: seq<Action>)
    requires Numbered(s) && Creates(s, t, launched, actions) && NextCreate(s, t, c) == Some(s')
    requires s.tasks[t].pc.CreateRunning?
    ensures Creates(s', t, launched + OwnLaunch(s, Act(t, c), t), actions)
  {
    assert launched == {s.tasks[t].pc.proc};
  }

  lemma OtherCreateStep(s: State, a: Action, s': State, t: TaskId, launched: set<Proc>, actions: seq<Action>)
    requires Inv(s) && Numbered(s) && Next(s, a) == Some(s') && !(a.Act? && a.t == t)
    requires Creates(s, t, launched, actions)
    ensures Creates(s', t, launched, actions + [a])
  {
    StepBalances(s, a, s');
    assert forall b :: b in actions ==> b in actions + [a];
    if a.Act? {
      ActKeeps(s, a.t, a.choice, s');
      assert TaskOk(s, t) && TaskOk(s, a.t);
    }
    if s.tasks[t].pc.Replying? && s.tasks[t].pc.reply == Completed {
      var p :| launched == {p} && Exit(p) in actions;
      assert launched == {p} && Exit(p) in actions + [a];
    }
  }

  lemma CreateStep(s: State, a: Action, s': State, t: TaskId, launched: set<Proc>, actions: seq<Action>)
    requires Inv(s) && Numbered(s) && Next(s, a) == Some(s') && Creates(s, t, launched, actions)
    ensures Creates(s', t, launched + OwnLaunch(s, a, t), actions + [a])
  {
    if a.Act? && a.t == t {
      OwnCreateStep(s, t, a.choice, s', launched, actions);
      MoreHappened(s', t, launched + OwnLaunch(s, a, t), actions, a);
    } else {
      OtherCreateStep(s, a, s', t, launched, actions);
      assert launched + OwnLaunch(s, a, t) == launched;
    }
  }

  lemma MoreHappened(s: State, t: TaskId, launched: set<Proc>, actions: seq<Action>, a: Action)
    requires Creates(s, t, launched, actions)
    ensures Creates(s, t, launched, actions + [a])
  {
    assert forall b :: b in actions ==> b in actions + [a];
    if s.tasks[t].pc.Replying? && s.tasks[t].pc.reply == Completed {
      var p :| launched == {p} && Exit(p) in actions;
      assert launched == {p} && Exit(p) in actions + [a];
    }
  }

  lemma {:induction false} RunCreates(s: State, actions: seq<Action>, t: TaskId, launched: set<Proc>,
                                      earlier: seq<Action>)
    requires Inv(s) && TracesOk(s) && Numbered(s) && Run(s, actions).Some? && Creates(s, t, launched, earlier)
    ensures Creates(Run(s, actions).value, t, launched + LaunchedBy(s, actions, t), earlier + actions)
    decreases |actions|
  {
    if actions == [] {
      assert earlier + actions == earlier && launched + {} == launched;
    } else {
      var a, s' := actions[0], Next(s, actions[0]).value;
      NextKeeps(s, a, s');
      StepBalances(s, a, s');
      CreateStep(s, a, s', t, launched, earlier);
      RunCreates(s', actions[1..], t, launched + OwnLaunch(s, a, t), earlier + [a]);
      assert earlier + [a] + actions[1..] == earlier + actions;
      assert launched + OwnLaunch(s, a, t) + LaunchedBy(s', actions[1..], t) == launched + LaunchedBy(s, actions, t);
    }
  }

  /** A `save_create` that is about to report, or has reported, has left no process of its own alive;
      it reports Completed only when it has started one process and that has exited by itself. */
  lemma CreateDelivers(s: State, before: seq<Action>, now: State, t: TaskId, actions: seq<Action>)
    requires Init(s) && Run(s, before) == Some(now) && t in now.tasks && now.tasks[t].pc == CreateBegin
    requires Run(now, actions).Some?
    ensures var last := Run(now, actions).value;
      && t in last.tasks
      && (last.tasks[t].pc.Replying? || last.tasks[t].pc.Done? ==> LaunchedBy(now, actions, t) !! last.live)
      && (Reports(last, t, Completed) ==> WroteSave(LaunchedBy(now, actions, t), actions))
  {
    RunKeeps(s, before);
    ProcessesBalance(s, before);
    RunCreates(now, actions, t, {}, []);
    assert [] + actions == actions;
    assert {} + LaunchedBy(now, actions, t) == LaunchedBy(now, actions, t);
  }

  // ---- server_status ---------------------------------------------------------------------

  /** A `server_status` whose poll works clears the slot exactly when the hosted process is gone; a poll
      that reports an error changes nothing. */
  lemma PollFindsOut(s: State, before: seq<Action>, now: State, t: TaskId, c: Choice, s': State)
    requires Init(s) && Run(s, before) == Some(now) && t in now.tasks && now.tasks[t].pc.StatusPoll?
    requires NextOf(now, t, c) == Some(s')
    ensures s'.live == now.live
    ensures c.Fails? ==> s'.slot == now.slot
    ensures c.Proceed? ==> (s'.slot.Some? <==> now.slot.Some? && Hosts(now, now.slot.value))
    ensures s'.slot.Some? ==> s'.slot == now.slot && s'.tasks[t].pc.PeekBegin?
    ensures s'.slot.None? ==> Reports(s', t, Completed) && Quiet(s')
  {
    RunKeeps(s, before);
    assert TaskOk(now, t);
    if s'.slot.None? { StopLeavesNothing(now, t, c, s'); }
  }
}
