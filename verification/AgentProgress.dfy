/** No handler waits for ever: the locks cannot form a cycle, since whoever holds the instance mutex
    waits for no other lock, and every handler takes a bounded number of steps. */
module AgentProgress {
  import opened Basics
  import opened AgentMachine
  import opened AgentInvariant
  import opened AgentRuns
  import opened AgentReports

  // ---- Who waits for whom ----------------------------------------------------------------

  predicate AwaitsMutex(pc: Pc)
  {
    || pc.InstallStopWait? || pc.InstallRestart? || pc.StartPrepare? || pc.CreatePrepare?
    || pc.StopBegin? || pc.StatusBegin? || pc.PeekBegin?
  }

  predicate AwaitsRead(pc: Pc) { pc.StartBegin? || pc.CreateWait? || pc.InspectBegin? }

  /** A task at `pc` needs a lock that is taken. */
  predicate Blocked(s: State, pc: Pc)
  {
    || (AwaitsMutex(pc) && s.mutex.Some?)
    || (AwaitsRead(pc) && s.writer.Some?)
    || (pc.InstallBegin? && (s.writer.Some? || s.readers != {}))
  }

  predicate Active(s: State, t: TaskId) { t in s.tasks && !s.tasks[t].pc.Done? }

  lemma HolderIsFree(s: State, t: TaskId) returns (u: TaskId)
    requires Inv(s) && Active(s, t) && !AwaitsRead(s.tasks[t].pc) && !s.tasks[t].pc.InstallBegin?
    ensures Active(s, u) && !Blocked(s, s.tasks[u].pc)
  {
    u := t;
    if AwaitsMutex(s.tasks[t].pc) && s.mutex.Some? {
      u := s.mutex.value;
      assert TaskOk(s, u);
    }
  }

  /** Where anybody is unfinished, somebody is not waiting for a lock: a holder of the version lock
      waits for the mutex at most, and a holder of the mutex for nothing. */
  lemma SomeoneIsFree(s: State, t: TaskId) returns (u: TaskId)
    requires Inv(s) && Active(s, t)
    ensures Active(s, u) && !Blocked(s, s.tasks[u].pc)
  {
    var pc := s.tasks[t].pc;
    if AwaitsRead(pc) || pc.InstallBegin? {
      if s.writer.Some? {
        assert TaskOk(s, s.writer.value);
        u := HolderIsFree(s, s.writer.value);
      } else if pc.InstallBegin? && s.readers != {} {
        var r :| r in s.readers;
        assert TaskOk(s, r);
        u := HolderIsFree(s, r);
      } else {
        u := t;
      }
    } else {
      u := HolderIsFree(s, t);
    }
  }

  // ---- Going on --------------------------------------------------------------------------

  /** `p` is the process of a `save_create`, which ends by itself when the save is written. */
  predicate CreatesSave(s: State, p: Proc)
  {
    s.mutex.Some? && s.mutex.value in s.tasks && s.tasks[s.mutex.value].pc == CreateRunning(p)
  }

  /** Nothing times out, nothing fails, no server exits by itself, and no new request comes in. */
  predicate Smooth(s: State, a: Action)
  {
    match a
    case Spawn(_, _) => false
    case Exit(p) => CreatesSave(s, p)
    case Act(_, c) => c.Proceed? || c.Choose? || c.Succeeds?
  }

  /** A task reports progress and stays where it is. */
  predicate OnlyReports(s: State, a: Action)
  {
    a.Act? && a.t in s.tasks && s.tasks[a.t].pc.DetachedGoing? && a.choice.Proceed?
  }

  predicate GoesOn(s: State, a: Action) { Next(s, a).Some? && Smooth(s, a) && !OnlyReports(s, a) }

  predicate AwaitsOutcome(pc: Pc)
  {
    || pc.InstallUnpack? || pc.InstallStopping? || pc.InstallRemove? || pc.InstallSpawn? || pc.StartSpawn?
    || pc.Stopping? || pc.CreateSpawn? || pc.CreateRunning? || pc.PeekHold? || pc.InspectHold?
    || pc.DetachedBegin? || pc.DetachedGoing?
  }

  predicate ChoosesVersion(pc: Pc) { pc.InstallDecide? || pc.StartBegin? || pc.CreateWait? }

  lemma InstallGoesOn(s: State, t: TaskId) returns (a: Action)
    requires Inv(s) && Active(s, t) && IsInstallPc(s.tasks[t].pc) && !Blocked(s, s.tasks[t].pc)
    ensures GoesOn(s, a)
  {
    var pc := s.tasks[t].pc;
    assert TaskOk(s, t);
    a := Act(t, if AwaitsOutcome(pc) then Succeeds else Proceed);
    if pc.InstallDecide? && s.versions != map[] {
      var v :| v in s.versions;
      a := Act(t, Choose(v));
    }
  }

  lemma OtherGoesOn(s: State, t: TaskId) returns (a: Action)
    requires Inv(s) && Active(s, t) && !IsInstallPc(s.tasks[t].pc) && !Blocked(s, s.tasks[t].pc)
    ensures GoesOn(s, a)
  {
    var pc := s.tasks[t].pc;
    assert TaskOk(s, t);
    a := Act(t, if AwaitsOutcome(pc) then Succeeds else Proceed);
    if ChoosesVersion(pc) && s.versions != map[] {
      var v :| v in s.versions;
      a := Act(t, Choose(v));
    } else if pc.CreateRunning? && pc.proc in s.live {
      a := Exit(pc.proc);
    }
  }

  /** Where anybody is unfinished, something can happen without a time-out, a failure or the end of a
      server. */
  lemma SomeoneGoesOn(s: State, t: TaskId) returns (a: Action)
    requires Inv(s) && Active(s, t)
    ensures GoesOn(s, a)
  {
    var u := SomeoneIsFree(s, t);
    if IsInstallPc(s.tasks[u].pc) { a := InstallGoesOn(s, u); } else { a := OtherGoesOn(s, u); }
  }

  // ---- Every handler gets nearer to its end ----------------------------------------------

  /** More than the steps a handler has still to take, counting the exit of a process it starts. */
  function Rank(pc: Pc): nat
  {
    match pc
    case Done => 0
    case Replying(_, _) => 1
    case Stopping(_) => 2
    case CreateRunning(_) => 2
    case PeekHold(_) => 2
    case InspectHold => 2
    case DetachedGoing => 2
    case InstallSpawn(_, _) => 3
    case StartSpawn(_, _) => 3
    case StopBegin => 3
    case PeekBegin(_) => 3
    case InspectBegin => 3
    case DetachedBegin(_) => 3
    case InstallRestart(_, _) => 4
    case StartPrepare(_, _) => 4
    case CreateSpawn(_) => 4
    case StatusPoll => 4
    case InstallRemove(_, _, _) => 5
    case StartBegin(_) => 5
    case CreatePrepare(_) => 5
    case StatusBegin => 5
    case InstallUnpack(_, plan) => if plan.Reinstall? then 5 else 8
    case InstallStopping(_, _, _) => 6
    case CreateWait => 6
    case InstallStopWait(_, _) => 7
    case CreateBegin => 7
    case InstallDecide(_, _) => 9
    case InstallBegin(_, _) => 10
  }

  ghost function Total(tasks: map<TaskId, Task>): nat
  {
    if tasks == map[] then 0 else var t :| t in tasks; Rank(tasks[t].pc) + Total(tasks - {t})
  }

  lemma {:induction false} TotalSplits(tasks: map<TaskId, Task>, t: TaskId)
    requires t in tasks
    ensures Total(tasks) == Rank(tasks[t].pc) + Total(tasks - {t})
    decreases |tasks|
  {
    var u :| u in tasks && Total(tasks) == Rank(tasks[u].pc) + Total(tasks - {u});
    if u != t {
      TotalSplits(tasks - {u}, t);
      TotalSplits(tasks - {t}, u);
      assert tasks - {u} - {t} == tasks - {t} - {u};
    }
  }

  lemma TotalMoves(tasks: map<TaskId, Task>, t: TaskId, task: Task)
    requires t in tasks
    ensures Total(tasks[t := task]) + Rank(tasks[t].pc) == Total(tasks) + Rank(task.pc)
  {
    TotalSplits(tasks, t);
    TotalSplits(tasks[t := task], t);
    assert tasks[t := task] - {t} == tasks - {t};
  }

  ghost function Measure(s: State): nat { Total(s.tasks) + |s.live| }

  /** A step of `t` brings it nearer to its end, by two when it starts a process. */
  predicate Nearer(s: State, t: TaskId, c: Choice, s': State)
  {
    && t in s.tasks && t in s'.tasks
    && Rank(s'.tasks[t].pc) + (if Launched(s, Act(t, c)) == {} then 0 else 1) < Rank(s.tasks[t].pc)
  }

  lemma InstallNearer(s: State, t: TaskId, c: Choice, s': State)
    requires t in s.tasks && NextInstall(s, t, c) == Some(s')
    ensures Nearer(s, t, c, s')
  {
  }

  lemma HaltNearer(s: State, t: TaskId, c: Choice, s': State)
    requires t in s.tasks && NextHalt(s, t, c) == Some(s')
    ensures Nearer(s, t, c, s')
  {
  }

  lemma SwapNearer(s: State, t: TaskId, c: Choice, s': State)
    requires t in s.tasks && NextSwap(s, t, c) == Some(s')
    ensures Nearer(s, t, c, s')
  {
  }

  lemma CreateNearer(s: State, t: TaskId, c: Choice, s': State)
    requires t in s.tasks && NextCreate(s, t, c) == Some(s')
    ensures Nearer(s, t, c, s')
  {
  }

  lemma StartNearer(s: State, t: TaskId, c: Choice, s': State)
    requires t in s.tasks && NextStart(s, t, c) == Some(s')
    ensures Nearer(s, t, c, s')
  {
  }

  lemma ServerNearer(s: State, t: TaskId, c: Choice, s': State)
    requires t in s.tasks && NextServer(s, t, c) == Some(s')
    ensures Nearer(s, t, c, s')
  {
  }

  lemma LookNearer(s: State, t: TaskId, c: Choice, s': State)
    requires t in s.tasks && NextLook(s, t, c) == Some(s') && !OnlyReports(s, Act(t, c))
    ensures Nearer(s, t, c, s')
  {
  }

  lemma ActNearer(s: State, t: TaskId, c: Choice, s': State)
    requires t in s.tasks && NextOf(s, t, c) == Some(s') && !OnlyReports(s, Act(t, c))
    ensures Nearer(s, t, c, s')
  {
    var pc := s.tasks[t].pc;
    if pc.InstallBegin? || pc.InstallDecide? || pc.InstallUnpack? { InstallNearer(s, t, c, s'); }
    else if pc.InstallStopWait? || pc.InstallStopping? { HaltNearer(s, t, c, s'); }
    else if IsInstallPc(pc) { SwapNearer(s, t, c, s'); }
    else if IsCreatePc(pc) { CreateNearer(s, t, c, s'); }
    else if IsStart(pc) { StartNearer(s, t, c, s'); }
    else if pc.StopBegin? || pc.Stopping? || pc.StatusBegin? || pc.StatusPoll? { ServerNearer(s, t, c, s'); }
    else if !pc.Replying? { LookNearer(s, t, c, s'); }
  }

  lemma Smaller(a: set<Proc>, b: set<Proc>)
    requires a <= b
    ensures |a| <= |b|
  {
    assert b == a + (b - a);
  }

  lemma LaunchesOne(s: State, a: Action)
    ensures |Launched(s, a)| == if Launched(s, a) == {} then 0 else 1
  {
  }

  lemma ActShrinks(s: State, t: TaskId, c: Choice, s': State)
    requires Inv(s) && t in s.tasks && NextOf(s, t, c) == Some(s') && Nearer(s, t, c, s')
    requires Balanced(s, Act(t, c), s')
    ensures Measure(s') < Measure(s)
  {
    ActKeeps(s, t, c, s');
    TotalMoves(s.tasks, t, s'.tasks[t]);
    LaunchesOne(s, Act(t, c));
    Smaller(s'.live, s.live + Launched(s, Act(t, c)));
  }

  lemma StepShrinks(s: State, a: Action, s': State)
    requires Inv(s) && Numbered(s) && Next(s, a) == Some(s') && !a.Spawn? && !OnlyReports(s, a)
    ensures Measure(s') < Measure(s)
  {
    StepBalances(s, a, s');
    if a.Act? {
      ActNearer(s, a.t, a.choice, s');
      ActShrinks(s, a.t, a.choice, s');
    }
  }

  lemma ReportKeepsMeasure(s: State, a: Action, s': State)
    requires Next(s, a) == Some(s') && OnlyReports(s, a)
    ensures Measure(s') == Measure(s)
  {
    TotalMoves(s.tasks, a.t, s'.tasks[a.t]);
  }

  // ---- Runs ------------------------------------------------------------------------------

  predicate NoRequests(actions: seq<Action>) { forall i :: 0 <= i < |actions| ==> !actions[i].Spawn? }

  function ReportsIn(s: State, actions: seq<Action>): nat
    decreases |actions|
  {
    if actions == [] || Next(s, actions[0]).None? then 0
    else (if OnlyReports(s, actions[0]) then 1 else 0) + ReportsIn(Next(s, actions[0]).value, actions[1..])
  }

  /** Without new requests a run is no longer than the measure of its first state, progress reports
      apart. */
  lemma {:induction false} RunIsBounded(s: State, actions: seq<Action>)
    requires Inv(s) && TracesOk(s) && Numbered(s) && Run(s, actions).Some? && NoRequests(actions)
    ensures |actions| + Measure(Run(s, actions).value) <= Measure(s) + ReportsIn(s, actions)
    decreases |actions|
  {
    if actions != [] {
      var a, s' := actions[0], Next(s, actions[0]).value;
      NextKeeps(s, a, s');
      StepBalances(s, a, s');
      if OnlyReports(s, a) { ReportKeepsMeasure(s, a, s'); } else { StepShrinks(s, a, s'); }
      RunIsBounded(s', actions[1..]);
    }
  }

  /** Every handler has ended and every lock is free. */
  ghost predicate AllEnded(s: State)
  {
    && (forall t :: t in s.tasks ==> s.tasks[t].pc.Done?)
    && s.writer.None? && s.readers == {} && s.mutex.None?
  }

  lemma DoneHoldsNothing(s: State)
    requires Inv(s) && forall t :: t in s.tasks ==> s.tasks[t].pc.Done?
    ensures AllEnded(s)
  {
    forall t | t in s.tasks ensures s.writer != Some(t) && t !in s.readers && s.mutex != Some(t) {
      assert TaskOk(s, t);
    }
  }

  /** No deadlock and no livelock: whatever the agent has done so far and however its tasks are
      scheduled from now on, without new requests the run stays within a bound (progress reports
      apart), and where nothing can go on but by a time-out, a failure or the exit of a server,
      every handler has ended and every lock is free. */
  lemma EveryScheduleEnds(s: State, before: seq<Action>, now: State, more: seq<Action>)
    requires Init(s) && Run(s, before) == Some(now) && Run(now, more).Some? && NoRequests(more)
    ensures |more| <= Measure(now) + ReportsIn(now, more)
    ensures (forall a :: !GoesOn(Run(now, more).value, a)) ==> AllEnded(Run(now, more).value)
  {
    RunKeeps(s, before);
    ProcessesBalance(s, before);
    RunKeeps(now, more);
    RunIsBounded(now, more);
    var last := Run(now, more).value;
    if forall a :: !GoesOn(last, a) {
      forall t | t in last.tasks ensures last.tasks[t].pc.Done? {
        if Active(last, t) { var a := SomeoneGoesOn(last, t); }
      }
      DoneHoldsNothing(last);
    }
  }

  // ---- While a server runs ---------------------------------------------------------------

  /** A handler at `pc` is none that stops a server. */
  predicate Harmless(pc: Pc) { !IsInstallPc(pc) && !pc.StopBegin? }

  ghost predicate AllHarmless(s: State) { forall t :: t in s.tasks ==> Harmless(s.tasks[t].pc) }

  lemma CreateStaysHarmless(s: State, t: TaskId, c: Choice, s': State)
    requires t in s.tasks && NextCreate(s, t, c) == Some(s')
    ensures t in s'.tasks && Harmless(s'.tasks[t].pc)
  {
  }

  lemma StartStaysHarmless(s: State, t: TaskId, c: Choice, s': State)
    requires t in s.tasks && NextStart(s, t, c) == Some(s')
    ensures t in s'.tasks && Harmless(s'.tasks[t].pc)
  {
  }

  lemma ServerStaysHarmless(s: State, t: TaskId, c: Choice, s': State)
    requires t in s.tasks && NextServer(s, t, c) == Some(s')
    ensures t in s'.tasks && Harmless(s'.tasks[t].pc)
  {
  }

  lemma LookStaysHarmless(s: State, t: TaskId, c: Choice, s': State)
    requires t in s.tasks && NextLook(s, t, c) == Some(s')
    ensures t in s'.tasks && Harmless(s'.tasks[t].pc)
  {
  }

  lemma ActStaysHarmless(s: State, t: TaskId, c: Choice, s': State)
    requires t in s.tasks && Harmless(s.tasks[t].pc) && NextOf(s, t, c) == Some(s')
    ensures t in s'.tasks && Harmless(s'.tasks[t].pc)
  {
    var pc := s.tasks[t].pc;
    if IsCreatePc(pc) { CreateStaysHarmless(s, t, c, s'); }
    else if IsStart(pc) { StartStaysHarmless(s, t, c, s'); }
    else if pc.Stopping? || pc.StatusBegin? || pc.StatusPoll? { ServerStaysHarmless(s, t, c, s'); }
    else if !pc.Replying? { LookStaysHarmless(s, t, c, s'); }
  }

  /** Where no handler stops servers, a smooth step leaves the hosted server running. */
  lemma StepKeepsServer(s: State, a: Action, s': State, i: Instance)
    requires Inv(s) && Numbered(s) && Next(s, a) == Some(s') && Smooth(s, a) && AllHarmless(s) && Hosts(s, i)
    ensures AllHarmless(s') && Hosts(s', i)
  {
    if s.mutex.Some? { assert TaskOk(s, s.mutex.value); }
    StepHosts(s, a, s', i);
    if a.Act? {
      ActStaysHarmless(s, a.t, a.choice, s');
      ActKeeps(s, a.t, a.choice, s');
    }
  }

  /** Every action of the run is smooth where it happens. */
  predicate SmoothRun(s: State, actions: seq<Action>)
    decreases |actions|
  {
    actions == [] || (Smooth(s, actions[0]) &&
      match Next(s, actions[0])
      case None => true
      case Some(s') => SmoothRun(s', actions[1..]))
  }

  lemma {:induction false} RunKeepsServer(s: State, actions: seq<Action>, i: Instance)
    requires Inv(s) && TracesOk(s) && Numbered(s) && Run(s, actions).Some? && SmoothRun(s, actions)
    requires AllHarmless(s) && Hosts(s, i)
    ensures Hosts(Run(s, actions).value, i)
    decreases |actions|
  {
    if actions != [] {
      var a, s' := actions[0], Next(s, actions[0]).value;
      NextKeeps(s, a, s');
      StepBalances(s, a, s');
      StepKeepsServer(s, a, s', i);
      RunKeepsServer(s', actions[1..], i);
    }
  }

  // ---- Everybody ends --------------------------------------------------------------------

  lemma {:induction false} Finish(s: State) returns (more: seq<Action>, s': State)
    requires Inv(s) && TracesOk(s) && Numbered(s)
    ensures Run(s, more) == Some(s') && AllEnded(s')
    ensures SmoothRun(s, more)
    decreases Measure(s)
  {
    if t :| Active(s, t) {
      var a := SomeoneGoesOn(s, t);
      var next := Next(s, a).value;
      NextKeeps(s, a, next);
      StepBalances(s, a, next);
      StepShrinks(s, a, next);
      var rest;
      rest, s' := Finish(next);
      more := [a] + rest;
      assert more[1..] == rest;
    } else {
      more, s' := [], s;
      forall t | t in s.tasks ensures s.tasks[t].pc.Done? { assert !Active(s, t); }
      DoneHoldsNothing(s);
    }
  }

  /** From every reachable state there is a continuation without a time-out, a failure, the exit of a
      server or a new request in which every handler ends; and if no handler is one that stops
      servers, the hosted server runs on. */
  lemma EveryHandlerCanEnd(s: State, before: seq<Action>, now: State) returns (more: seq<Action>, s': State)
    requires Init(s) && Run(s, before) == Some(now)
    ensures Run(now, more) == Some(s') && AllEnded(s') && SmoothRun(now, more)
    ensures forall i :: AllHarmless(now) && Hosts(now, i) ==> Hosts(s', i)
  {
    RunKeeps(s, before);
    ProcessesBalance(s, before);
    more, s' := Finish(now);
    forall i | AllHarmless(now) && Hosts(now, i) ensures Hosts(s', i) { RunKeepsServer(now, more, i); }
  }
}
