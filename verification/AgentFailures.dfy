/** Runs of the agent in which something fails, and what follows from them: a removal that leaves two
    versions, a stop that reports an error, and a server that starts or exits between a handler's
    result and its reply. */
module AgentFailures {
  import opened Basics
  import opened OperationTrace
  import opened AgentMachine
  import opened AgentInvariant
  import opened AgentVersions
  import opened AgentRuns
  import opened AgentReports

  // ---- Building runs ---------------------------------------------------------------------

  /** One more action. */
  lemma Extend(s: State, actions: seq<Action>, now: State, a: Action) returns (longer: seq<Action>, s': State)
    requires Run(s, actions) == Some(now) && Next(now, a).Some?
    ensures Run(s, longer) == Some(s') && Next(now, a) == Some(s') && longer == actions + [a]
  {
    longer, s' := actions + [a], Next(now, a).value;
    RunsCompose(s, actions, [a]);
    assert [a][1..] == [] && Run(s', []) == Some(s');
  }

  /** One more stretch of actions. */
  lemma Join(s: State, first: seq<Action>, now: State, second: seq<Action>, s': State) returns (actions: seq<Action>)
    requires Run(s, first) == Some(now) && Run(now, second) == Some(s')
    ensures actions == first + second && Run(s, actions) == Some(s')
  {
    actions := first + second;
    RunsCompose(s, first, second);
  }

  /** The final reply of a task that has its result. */
  lemma SendReply(s: State, actions: seq<Action>, now: State, t: TaskId, reply: Status)
    returns (longer: seq<Action>, s': State)
    requires Run(s, actions) == Some(now) && Reports(now, t, reply)
    ensures longer == actions + [Act(t, Proceed)]
    ensures Run(s, longer) == Some(s') && Next(now, Act(t, Proceed)) == Some(s')
    ensures EndedWith(s', t, reply) && s'.versions == now.versions && SameServer(now, s')
    ensures s'.mutex == now.mutex && s'.tasks == now.tasks[t := s'.tasks[t]]
    ensures s'.writer == if now.tasks[t].pc.guard.Writing? then None else now.writer
    ensures s'.readers == if now.tasks[t].pc.guard.Reading? then now.readers - {t} else now.readers
  {
    ReplyOnlyReplies(now, t, reply);
    longer, s' := Extend(s, actions, now, Act(t, Proceed));
  }

  /** Nobody holds a guard. */
  predicate Idle(s: State) { s.writer.None? && s.readers == {} && s.mutex.None? }

  // ---- A server is started ---------------------------------------------------------------

  /** `t` has chosen to start a server from `d`. */
  predicate Starting(s: State, t: TaskId, d: Dir)
  {
    && t in s.tasks && s.tasks[t].pc == StartPrepare("world", d)
    && s.writer.None? && s.readers == {t} && s.mutex.None? && s.slot.None?
  }

  lemma StartChooses(s: State, t: TaskId, v: Version) returns (actions: seq<Action>, s': State)
    requires Idle(s) && Quiet(s) && v in s.versions && t !in s.tasks
    ensures Run(s, actions) == Some(s') && RemovalsSucceed(actions) && Starting(s', t, s.versions[v])
    ensures s'.versions == s.versions && SameServer(s, s') && s'.tasks == s.tasks[t := s'.tasks[t]]
  {
    assert s.versions != map[];
    actions, s' := Extend(s, [], s, Spawn(t, StartBegin("world")));
    actions, s' := Extend(s, actions, s', Act(t, Choose(v)));
  }

  lemma StartSpawns(s: State, t: TaskId, d: Dir) returns (actions: seq<Action>, s': State)
    requires Starting(s, t, d) && Quiet(s)
    ensures Run(s, actions) == Some(s') && RemovalsSucceed(actions) && Reports(s', t, Completed)
    ensures s'.tasks[t].pc.guard.Reading? && s'.versions == s.versions && s'.tasks == s.tasks[t := s'.tasks[t]]
    ensures s'.writer.None? && s'.readers == {t} && s'.mutex.None?
    ensures var p := Proc(s.nextId, d); s'.live == {p} && s'.slot == Some(Instance(p, "world"))
  {
    actions, s' := Extend(s, [], s, Act(t, Proceed));
    assert s'.tasks[t].pc == StartSpawn("world", d);
    actions, s' := Extend(s, actions, s', Act(t, Succeeds));
  }

  /** A `server_start` from version `v`, from its request to its reply. */
  lemma StartServer(s: State, t: TaskId, v: Version) returns (actions: seq<Action>, s': State)
    requires Idle(s) && Quiet(s) && v in s.versions && t !in s.tasks
    ensures Run(s, actions) == Some(s') && RemovalsSucceed(actions) && Idle(s')
    ensures s'.versions == s.versions && t in s'.tasks && s'.tasks == s.tasks[t := s'.tasks[t]]
    ensures var p := Proc(s.nextId, s.versions[v]); s'.live == {p} && s'.slot == Some(Instance(p, "world"))
  {
    var choose, s1 := StartChooses(s, t, v);
    var run, s2 := StartSpawns(s1, t, s.versions[v]);
    actions := Join(s, choose, s1, run, s2);
    actions, s' := SendReply(s, actions, s2, t, Completed);
  }

  // ---- When a removal fails --------------------------------------------------------------

  /** A failed removal leaves both versions installed and nothing running until the failure has
      been reported. */
  lemma FailedRemovalLeavesBoth(s: State, t: TaskId, rest: seq<Action>)
    requires Inv(s) && TracesOk(s) && VersionOk(s) && t in s.tasks && s.tasks[t].pc.InstallRemove?
    ensures var pc := s.tasks[t].pc;
      && pc.v != pc.from && Next(s, Act(t, RemovalFails)).Some?
      && var s' := Next(s, Act(t, RemovalFails)).value;
         && Reports(s', t, Failed)
         && (Run(s', rest).Some? && Reports(Run(s', rest).value, t, Failed) ==>
               Run(s', rest).value.versions.Keys == {pc.v, pc.from} && Quiet(Run(s', rest).value))
  {
    assert TaskOk(s, t);
    var s' := Next(s, Act(t, RemovalFails)).value;
    NextKeeps(s, Act(t, RemovalFails), s');
    if Run(s', rest).Some? && Reports(Run(s', rest).value, t, Failed) {
      VersionsAreHeld(s', rest, t, Failed);
      RunQuiet(s', rest, s'.nextId);
      QuietAtTheEnd(s', rest);
    }
  }

  lemma {:induction false} QuietAtTheEnd(s: State, actions: seq<Action>)
    requires QuietThroughout(s, actions) && Run(s, actions).Some?
    ensures Quiet(Run(s, actions).value)
    decreases |actions|
  {
    if actions != [] { QuietAtTheEnd(Next(s, actions[0]).value, actions[1..]); }
  }

  /** An install of `v` that looks at the other version `from`, up to its download. */
  lemma UpgradeDownloads(s: State, u: TaskId, from: Version, v: Version) returns (actions: seq<Action>, s': State)
    requires Idle(s) && u !in s.tasks && from in s.versions && from != v
    ensures Run(s, actions) == Some(s') && RemovalsSucceed(actions)
    ensures u in s'.tasks && s'.tasks[u].pc == InstallUnpack(v, Upgrade(from, s.versions))
    ensures s'.versions == s.versions && SameServer(s, s') && s'.tasks.Keys == s.tasks.Keys + {u}
    ensures s'.writer == Some(u) && s'.readers == {} && s'.mutex.None?
  {
    actions, s' := Extend(s, [], s, Spawn(u, InstallBegin(v, false)));
    actions, s' := Extend(s, actions, s', Act(u, Proceed));
    actions, s' := Extend(s, actions, s', Act(u, Choose(from)));
  }

  lemma UpgradeReachesRemoval(s: State, u: TaskId, from: Version, v: Version) returns (actions: seq<Action>, s': State)
    requires u in s.tasks && s.tasks[u].pc == InstallUnpack(v, Upgrade(from, s.versions))
    requires s.writer == Some(u) && s.readers == {} && s.mutex.None? && Quiet(s)
    ensures Run(s, actions) == Some(s')
    ensures u in s'.tasks && s'.tasks[u].pc.InstallRemove? && s'.tasks[u].pc.v == v && s'.tasks[u].pc.from == from
    ensures s'.versions == s.versions[v := InstallDir(v)] && Quiet(s') && s'.tasks.Keys == s.tasks.Keys
    ensures s'.writer == Some(u) && s'.readers == {} && s'.mutex.None?
  {
    actions, s' := Extend(s, [], s, Act(u, Succeeds));
    actions, s' := Extend(s, actions, s', Act(u, Proceed));
    assert s'.tasks[u].pc == InstallStopping(v, Some(from), None);
    actions, s' := Extend(s, actions, s', Act(u, Succeeds));
  }

  /** A whole upgrade whose removal fails. */
  lemma UpgradeLeavesBoth(s: State, u: TaskId, from: Version, v: Version) returns (actions: seq<Action>, s': State)
    requires Idle(s) && Quiet(s) && u !in s.tasks && from in s.versions && from != v
    ensures Run(s, actions) == Some(s') && Idle(s') && Quiet(s')
    ensures s'.versions == s.versions[v := InstallDir(v)] && s'.tasks.Keys == s.tasks.Keys + {u}
  {
    var download, s1 := UpgradeDownloads(s, u, from, v);
    var swap, s2 := UpgradeReachesRemoval(s1, u, from, v);
    actions := Join(s, download, s1, swap, s2);
    actions, s' := Extend(s, actions, s2, Act(u, RemovalFails));
    assert Reports(s', u, Failed) && s'.tasks[u].pc.guard.Writing?;
    actions, s' := SendReply(s, actions, s', u, Failed);
  }

  /** With two versions in place, an installation can be overwritten while a process runs from
      it, in a run whose own removals all succeed. */
  lemma LeftoverIsOverwritten(s: State, t: TaskId, u: TaskId, from: Version, v: Version)
    returns (actions: seq<Action>, s': State)
    requires Idle(s) && Quiet(s) && t != u && t !in s.tasks && u !in s.tasks
    requires from in s.versions && v in s.versions && from != v && s.versions[v] == InstallDir(v)
    ensures Run(s, actions) == Some(s') && RemovalsSucceed(actions)
    ensures u in s'.tasks && s'.tasks[u].pc.InstallUnpack? && s'.tasks[u].pc.v == v
    ensures Proc(s.nextId, InstallDir(v)) in s'.live && !Safe(s')
  {
    var start, s1 := StartServer(s, t, v);
    var download;
    download, s' := UpgradeDownloads(s1, u, from, v);
    actions := Join(s, start, s1, download, s');
    assert !Spares(s'.tasks[u].pc, Proc(s.nextId, InstallDir(v)));
  }

  /** From the agent's start with version `from` installed: an upgrade to `v` whose removal fails,
      then a server started from `v`, then an install of `v` that overwrites it. */
  lemma FailedRemovalLeadsToOverwrite(s: State, from: Version, v: Version) returns (actions: seq<Action>, s': State)
    requires Init(s) && from in s.versions && from != v
    ensures Run(s, actions) == Some(s') && !Safe(s') && !RemovalsSucceed(actions)
  {
    var upgrade, s1 := UpgradeLeavesBoth(s, 0, from, v);
    var more;
    more, s' := LeftoverIsOverwritten(s1, 1, 2, from, v);
    actions := Join(s, upgrade, s1, more, s');
    if RemovalsSucceed(actions) { InstallationsInUseAreSafe(s, actions); }
  }

  /** Every continuation in which removals succeed is safe. */
  ghost predicate AlwaysSafe(s: State)
  {
    forall actions :: RemovalsSucceed(actions) && Run(s, actions).Some? ==> Safe(Run(s, actions).value)
  }

  /** At any point of any run where nobody holds a guard and nothing runs, installations in use
      stay safe from then on if and only if at most one version is installed. */
  lemma SafeExactlyWhen(start: State, before: seq<Action>, s: State)
    requires Init(start) && Run(start, before) == Some(s) && Idle(s) && Quiet(s)
    requires forall v :: v in s.versions ==> s.versions[v] == InstallDir(v)
    ensures AlwaysSafe(s) <==> AtMostOne(s.versions)
  {
    RunKeeps(start, before);
    if AtMostOne(s.versions) {
      IdleIsVersionOk(s);
      forall actions | RemovalsSucceed(actions) && Run(s, actions).Some? ensures Safe(Run(s, actions).value) {
        RunKeeps(s, actions);
        RunKeepsVersions(s, actions);
        VersionsKeepSafe(Run(s, actions).value);
      }
    } else {
      var from, v :| from in s.versions && v in s.versions && from != v;
      var t := UnusedNumber(s.tasks.Keys);
      var actions, s' := LeftoverIsOverwritten(s, t, t + 1, from, v);
    }
  }

  lemma IdleIsVersionOk(s: State)
    requires Inv(s) && Idle(s) && Quiet(s) && AtMostOne(s.versions)
    requires forall v :: v in s.versions ==> s.versions[v] == InstallDir(v)
    ensures VersionOk(s)
  {
    forall t {:trigger ChosenOk(s, t)} | t in s.tasks ensures ChosenOk(s, t) { assert TaskOk(s, t); }
  }

  // ---- When a stop reports an error ------------------------------------------------------

  /** A forced reinstall of `v` up to the point where it has taken the running server. */
  lemma ReinstallStops(s: State, u: TaskId, v: Version) returns (actions: seq<Action>, s': State)
    requires Idle(s) && u !in s.tasks && v in s.versions
    ensures Run(s, actions) == Some(s') && u in s'.tasks && s'.tasks[u].pc == InstallStopping(v, None, s.slot)
    ensures s'.versions == s.versions && s'.live == s.live && s'.slot.None?
    ensures s'.writer == Some(u) && s'.mutex == Some(u)
  {
    actions, s' := Extend(s, [], s, Spawn(u, InstallBegin(v, true)));
    actions, s' := Extend(s, actions, s', Act(u, Proceed));
    assert s'.tasks[u].pc == InstallDecide(v, true);
    actions, s' := Extend(s, actions, s', Act(u, Choose(v)));
    assert s'.tasks[u].pc == InstallStopWait(v, None);
    actions, s' := Extend(s, actions, s', Act(u, Proceed));
  }

  /** A stop that errs: the reinstall completes without a server. */
  lemma ReinstallWithoutRestart(s: State, u: TaskId, v: Version, i: Instance) returns (actions: seq<Action>, s': State)
    requires u in s.tasks && s.tasks[u].pc == InstallStopping(v, None, Some(i)) && s.live == {i.proc} && s.slot.None?
    requires s.writer == Some(u) && s.mutex == Some(u)
    ensures Run(s, actions) == Some(s') && EndedWith(s', u, Completed) && Quiet(s')
    ensures actions != [] && actions[0] == Act(u, Fails)
  {
    actions, s' := Extend(s, [], s, Act(u, Fails));
    assert s'.tasks[u].pc == InstallUnpack(v, Reinstall(Halt(Some(i), None))) && Quiet(s');
    actions, s' := Extend(s, actions, s', Act(u, Succeeds));
    assert Reports(s', u, Completed) && Quiet(s');
    actions, s' := SendReply(s, actions, s', u, Completed);
  }

  /** From the agent's start: a forced reinstall (task 1) is stopping the live server `i` when its
      `k`th action reports an error; the reinstall reports Completed with nothing running. */
  lemma StopErrorLosesTheServer(s: State, v: Version)
    returns (actions: seq<Action>, k: nat, stopping: State, i: Instance, s': State)
    requires Init(s) && v in s.versions
    ensures k < |actions| && actions[k] == Act(1, Fails) && Run(s, actions[..k]) == Some(stopping)
    ensures 1 in stopping.tasks && stopping.tasks[1].pc == InstallStopping(v, None, Some(i)) && i.proc in stopping.live
    ensures Run(s, actions) == Some(s') && EndedWith(s', 1, Completed) && Quiet(s')
  {
    var start, s1 := StartServer(s, 0, v);
    i := s1.slot.value;
    var stop, finish;
    stop, stopping := ReinstallStops(s1, 1, v);
    finish, s' := ReinstallWithoutRestart(stopping, 1, v, i);
    var upToStop := Join(s, start, s1, stop, stopping);
    actions := Join(s, upToStop, stopping, finish, s');
    k := |upToStop|;
    assert actions[..k] == upToStop && actions[k] == finish[0];
  }

  // ---- Between a stop and its reply ------------------------------------------------------

  /** A `server_stop` that has taken the running server. */
  lemma StopTakes(s: State, t: TaskId) returns (actions: seq<Action>, s': State)
    requires Idle(s) && t !in s.tasks && s.slot.Some?
    ensures Run(s, actions) == Some(s') && s' == s.(slot := None, mutex := Some(t), tasks := s'.tasks)
    ensures s'.tasks == s.tasks[t := Task(Stopping(s.slot), [], false)]
  {
    actions, s' := Extend(s, [], s, Spawn(t, StopBegin));
    assert s'.tasks == s.tasks[t := Task(StopBegin, [], false)];
    actions, s' := Extend(s, actions, s', Act(t, Proceed));
    assert s'.tasks[t] == Task(Stopping(s.slot), [], false);
  }

  /** The stop succeeds; its reply is not out yet. */
  lemma StopSettles(s: State, t: TaskId) returns (actions: seq<Action>, s': State)
    requires t in s.tasks && s.tasks[t].pc.Stopping? && s.tasks[t].pc.taken.Some? && s.slot.None?
    requires s.live == {s.tasks[t].pc.taken.value.proc} && s.writer.None? && s.readers == {} && s.mutex == Some(t)
    ensures Run(s, actions) == Some(s') && Reports(s', t, Completed) && Idle(s') && Quiet(s')
    ensures s'.versions == s.versions && s'.nextId == s.nextId
    ensures s'.tasks.Keys == s.tasks.Keys && s'.tasks[t].pc.guard.Unguarded?
  {
    actions, s' := Extend(s, [], s, Act(t, Succeeds));
  }

  /** From the agent's start: a `server_stop` (task 1) is stopping a server; at the end of the run
      it is about to report Completed and hosted is another server, numbered after that point;
      the reply goes out and the server still runs. */
  lemma StopReportsWhileAnotherRuns(s: State, v: Version)
    returns (actions: seq<Action>, k: nat, stopping: State, now: State, s': State)
    requires Init(s) && v in s.versions
    ensures k <= |actions| && Run(s, actions[..k]) == Some(stopping)
    ensures 1 in stopping.tasks && stopping.tasks[1].pc.Stopping? && stopping.live != {}
    ensures Run(s, actions) == Some(now) && Reports(now, 1, Completed)
    ensures now.slot.Some? && Hosts(now, now.slot.value) && now.slot.value.proc.id >= stopping.nextId
    ensures Next(now, Act(1, Proceed)) == Some(s') && EndedWith(s', 1, Completed) && Hosts(s', now.slot.value)
  {
    var first, s1 := StartServer(s, 0, v);
    var take, settle, s2, again, longer;
    take, stopping := StopTakes(s1, 1);
    settle, s2 := StopSettles(stopping, 1);
    again, now := StartServer(s2, 2, v);
    var upToStop := Join(s, first, s1, take, stopping);
    k := |upToStop|;
    actions := Join(s, upToStop, stopping, settle, s2);
    actions := Join(s, actions, s2, again, now);
    assert actions[..k] == upToStop;
    assert now.tasks[1] == s2.tasks[1];
    longer, s' := SendReply(s, actions, now, 1, Completed);
  }

  // ---- Between a start and its reply -----------------------------------------------------

  /** From the agent's start: a `server_start` (task 0) has hosted its server `i` after `k` actions;
      the server exits, and Completed is sent with nothing alive. */
  lemma StartReportsAfterExit(s: State, v: Version)
    returns (actions: seq<Action>, k: nat, hosting: State, i: Instance, now: State, s': State)
    requires Init(s) && v in s.versions
    ensures k < |actions| && Run(s, actions[..k]) == Some(hosting)
    ensures Reports(hosting, 0, Completed) && Hosts(hosting, i)
    ensures Run(s, actions) == Some(now) && Reports(now, 0, Completed) && now.live == {}
    ensures Next(now, Act(0, Proceed)) == Some(s') && EndedWith(s', 0, Completed) && s'.live == {}
  {
    var choose, s1 := StartChooses(s, 0, v);
    var spawn, longer;
    spawn, hosting := StartSpawns(s1, 0, s.versions[v]);
    i := hosting.slot.value;
    var upToHosting := Join(s, choose, s1, spawn, hosting);
    k := |upToHosting|;
    actions, now := Extend(s, upToHosting, hosting, Exit(i.proc));
    assert actions[..k] == upToHosting;
    longer, s' := SendReply(s, actions, now, 0, Completed);
  }

  // ---- After a server has crashed --------------------------------------------------------

  lemma StatusClears(s: State, t: TaskId) returns (actions: seq<Action>, s': State)
    requires Idle(s) && t !in s.tasks && s.slot.Some? && s.slot.value.proc !in s.live
    ensures Run(s, actions) == Some(s') && Reports(s', t, Completed) && s'.slot.None? && s'.live == s.live
    ensures s'.versions == s.versions && s'.tasks.Keys == s.tasks.Keys + {t} && Idle(s')
    ensures s'.tasks[t].pc.guard.Unguarded?
  {
    actions, s' := Extend(s, [], s, Spawn(t, StatusBegin));
    actions, s' := Extend(s, actions, s', Act(t, Proceed));
    assert s'.tasks[t].pc == StatusPoll;
    actions, s' := Extend(s, actions, s', Act(t, Proceed));
  }

  /** A server that has crashed still fills the slot; asking for the status clears it, and a new server
      can be started. */
  lemma CrashedServerIsReplaced(s: State, t: TaskId, u: TaskId, v: Version) returns (actions: seq<Action>, s': State)
    requires Idle(s) && s.slot.Some? && s.live == {} && v in s.versions && t !in s.tasks && u !in s.tasks && t != u
    ensures Run(s, actions) == Some(s') && EndedWith(s', t, Completed)
    ensures s'.slot.Some? && Hosts(s', s'.slot.value) && s'.slot.value.proc.dir == s.versions[v]
  {
    var s1, s2, start;
    actions, s1 := StatusClears(s, t);
    actions, s2 := SendReply(s, actions, s1, t, Completed);
    start, s' := StartServer(s2, u, v);
    actions := Join(s, actions, s2, start, s');
    assert s'.tasks[t] == s2.tasks[t];
  }

  /** Until then no server can be started: a `server_start` that gets the mutex is refused. */
  lemma CrashedServerBlocksStart(s: State, t: TaskId, c: Choice)
    requires t in s.tasks && s.tasks[t].pc.StartPrepare? && s.slot.Some? && NextOf(s, t, c).Some?
    ensures Reports(NextOf(s, t, c).value, t, Failed) && NextOf(s, t, c).value.slot == s.slot
  {
  }
}
