/** One `version_install` from its decision to its end, with every other task interleaved. */
module AgentUpgrade {
  import opened Basics
  import opened OperationTrace
  import opened AgentMachine
  import opened AgentInvariant
  import opened AgentVersions
  import opened AgentRuns
  import opened AgentReports

  /** The instance that task `t`'s stop took out of the slot during the run; `taken` before it. */
  function Took(s: State, actions: seq<Action>, t: TaskId, taken: Option<Instance>): Option<Instance>
    decreases |actions|
  {
    if actions == [] then taken
    else match Next(s, actions[0])
      case None => taken
      case Some(s') => Took(s', actions[1..], t, TookBy(s, actions[0], t, taken))
  }

  function TookBy(s: State, a: Action, t: TaskId, taken: Option<Instance>): Option<Instance>
  {
    if a.Act? && a.t == t && t in s.tasks && s.tasks[t].pc.InstallStopWait? then s.slot else taken
  }

  function HaltIn(pc: Pc): Option<Halt>
  {
    match pc
    case InstallUnpack(_, Reinstall(h)) => Some(h)
    case InstallRemove(_, _, h) => Some(h)
    case InstallRestart(_, h) => Some(h)
    case InstallSpawn(_, h) => Some(h)
    case _ => None
  }

  /** Task `t` is installing `v` on top of `before`, its stop took `taken`, and `failed` says
      whether that stop reported an error. */
  ghost predicate Tracked(s: State, t: TaskId, v: Version, before: map<Version, Dir>, taken: Option<Instance>,
                          failed: bool)
  {
    && t in s.tasks && Installing(s.tasks[t].pc) && s.tasks[t].pc.v == v
    && KeysOk(s.versions, s.tasks[t].pc)
    && Remembers(s.tasks[t].pc, s.versions == before, taken, failed)
  }

  predicate Remembers(pc: Pc, untouched: bool, taken: Option<Instance>, failed: bool)
  {
    match pc
    case InstallStopWait(_, _) => taken.None? && !failed
    case InstallStopping(_, _, x) => x == taken && !failed
    case _ =>
      if HaltIn(pc).Some? then HaltIn(pc).value == Halt(taken, if failed then None else taken)
      else untouched && taken.None? && !failed
  }

  lemma DecideTracked(s: State, t: TaskId, c: Choice, s': State, v: Version, before: map<Version, Dir>,
                      taken: Option<Instance>, failed: bool)
    requires Inv(s) && Tracked(s, t, v, before, taken, failed) && NextInstall(s, t, c) == Some(s')
    requires s.tasks[t].pc.InstallDecide? && t in s'.tasks && Installing(s'.tasks[t].pc)
    ensures Tracked(s', t, v, before, TookBy(s, Act(t, c), t, taken), failed || c == Fails)
  {
    assert TaskOk(s, t);
  }

  lemma UnpackTracked(s: State, t: TaskId, c: Choice, s': State, v: Version, before: map<Version, Dir>,
                      taken: Option<Instance>, failed: bool)
    requires Inv(s) && Tracked(s, t, v, before, taken, failed) && NextInstall(s, t, c) == Some(s')
    requires s.tasks[t].pc.InstallUnpack? && t in s'.tasks && Installing(s'.tasks[t].pc)
    ensures Tracked(s', t, v, before, TookBy(s, Act(t, c), t, taken), failed || c == Fails)
  {
    assert TaskOk(s, t);
  }

  lemma HaltTracked(s: State, t: TaskId, c: Choice, s': State, v: Version, before: map<Version, Dir>,
                    taken: Option<Instance>, failed: bool)
    requires Inv(s) && Tracked(s, t, v, before, taken, failed) && NextHalt(s, t, c) == Some(s')
    requires t in s'.tasks && Installing(s'.tasks[t].pc)
    ensures Tracked(s', t, v, before, TookBy(s, Act(t, c), t, taken), failed || c == Fails)
  {
    assert TaskOk(s, t);
  }

  lemma SwapTracked(s: State, t: TaskId, c: Choice, s': State, v: Version, before: map<Version, Dir>,
                    taken: Option<Instance>, failed: bool)
    requires Inv(s) && Tracked(s, t, v, before, taken, failed) && NextSwap(s, t, c) == Some(s')
    requires t in s'.tasks && Installing(s'.tasks[t].pc)
    ensures Tracked(s', t, v, before, TookBy(s, Act(t, c), t, taken), failed || c == Fails)
  {
    assert TaskOk(s, t);
  }

  lemma NextTracked(s: State, a: Action, s': State, t: TaskId, v: Version, before: map<Version, Dir>,
                    taken: Option<Instance>, failed: bool)
    requires Inv(s) && Tracked(s, t, v, before, taken, failed) && Next(s, a) == Some(s')
    requires t in s'.tasks && Installing(s'.tasks[t].pc)
    ensures Tracked(s', t, v, before, TookBy(s, a, t, taken), failed || a == Act(t, Fails))
  {
    if a.Act? && a.t == t {
      var pc := s.tasks[t].pc;
      if pc.InstallDecide? { DecideTracked(s, t, a.choice, s', v, before, taken, failed); }
      else if pc.InstallUnpack? { UnpackTracked(s, t, a.choice, s', v, before, taken, failed); }
      else if pc.InstallStopWait? || pc.InstallStopping? { HaltTracked(s, t, a.choice, s', v, before, taken, failed); }
      else { SwapTracked(s, t, a.choice, s', v, before, taken, failed); }
    } else {
      assert TaskOk(s, t);
      if a.Act? { ActKeeps(s, a.t, a.choice, s'); }
    }
  }

  /** The result of the handler is settled. */
  predicate Settled(pc: Pc) { pc.Replying? || pc.Done? }

  lemma SettledStep(s: State, a: Action, s': State, t: TaskId)
    requires Inv(s) && t in s.tasks && Next(s, a) == Some(s')
    ensures t in s'.tasks
    ensures Settled(s.tasks[t].pc) ==> Settled(s'.tasks[t].pc)
    ensures Installing(s.tasks[t].pc) ==> Installing(s'.tasks[t].pc) || Settled(s'.tasks[t].pc)
  {
    if a.Act? {
      ActKeeps(s, a.t, a.choice, s');
      if a.t == t && Settled(s.tasks[t].pc) { RepliesThenDone(s, a, s', t); }
      if a.t == t && Installing(s.tasks[t].pc) { EarlyStep(s, t, a.choice, s'); }
    }
  }

  lemma {:induction false} SettledStays(s: State, actions: seq<Action>, t: TaskId)
    requires Inv(s) && TracesOk(s) && t in s.tasks && Run(s, actions).Some?
    ensures t in Run(s, actions).value.tasks
    ensures Settled(s.tasks[t].pc) ==> Settled(Run(s, actions).value.tasks[t].pc)
    decreases |actions|
  {
    if actions != [] {
      var a, s' := actions[0], Next(s, actions[0]).value;
      NextKeeps(s, a, s');
      SettledStep(s, a, s', t);
      SettledStays(s', actions[1..], t);
    }
  }

  /** An install that is still going on after a run was going on after its first step. */
  lemma StaysInstalling(s: State, a: Action, s': State, rest: seq<Action>, t: TaskId)
    requires Inv(s) && TracesOk(s) && Next(s, a) == Some(s') && Run(s', rest).Some?
    requires t in s.tasks && Installing(s.tasks[t].pc)
    requires t in Run(s', rest).value.tasks && Installing(Run(s', rest).value.tasks[t].pc)
    ensures Inv(s') && TracesOk(s') && t in s'.tasks && Installing(s'.tasks[t].pc)
  {
    NextKeeps(s, a, s');
    SettledStep(s, a, s', t);
    SettledStays(s', rest, t);
  }

  lemma {:induction false} RunTracked(s: State, actions: seq<Action>, t: TaskId, v: Version, before: map<Version, Dir>,
                                      taken: Option<Instance>, failed: bool)
    requires Inv(s) && TracesOk(s) && Tracked(s, t, v, before, taken, failed) && Run(s, actions).Some?
    requires t in Run(s, actions).value.tasks && Installing(Run(s, actions).value.tasks[t].pc)
    ensures Tracked(Run(s, actions).value, t, v, before, Took(s, actions, t, taken), failed || Act(t, Fails) in actions)
    decreases |actions|
  {
    if actions != [] {
      var a, s' := actions[0], Next(s, actions[0]).value;
      StaysInstalling(s, a, s', actions[1..], t);
      NextTracked(s, a, s', t, v, before, taken, failed);
      RunTracked(s', actions[1..], t, v, before, TookBy(s, a, t, taken), failed || a == Act(t, Fails));
      assert actions == [a] + actions[1..];
    }
  }

  /** The server `was` runs again, on version `v` and with the same savefile. */
  predicate RunsAgain(s: State, was: Instance, v: Version)
  {
    s.slot.Some? && s.slot.value.save == was.save && s.slot.value.proc in s.live
    && v in s.versions && s.slot.value.proc.dir == s.versions[v]
  }

  lemma InstallCompletes(s: State, t: TaskId, c: Choice, s': State, v: Version, before: map<Version, Dir>,
                         taken: Option<Instance>, failed: bool)
    requires Inv(s) && Tracked(s, t, v, before, taken, failed)
    requires NextInstall(s, t, c) == Some(s') && Reports(s', t, Completed)
    ensures s'.versions.Keys == {v} && s'.tasks[t].pc.guard.Writing?
    ensures taken.Some? && failed ==> Quiet(s')
    ensures taken.Some? && !failed ==>
      s'.nextId > s.nextId && Hosts(s', Instance(Proc(s.nextId, s'.versions[v]), taken.value.save))
  {
    assert TaskOk(s, t);
  }

  lemma SwapCompletes(s: State, t: TaskId, c: Choice, s': State, v: Version, before: map<Version, Dir>,
                      taken: Option<Instance>, failed: bool)
    requires Inv(s) && Tracked(s, t, v, before, taken, failed)
    requires NextSwap(s, t, c) == Some(s') && Reports(s', t, Completed)
    ensures s'.versions.Keys == {v} && s'.tasks[t].pc.guard.Writing?
    ensures taken.Some? && failed ==> Quiet(s')
    ensures taken.Some? && !failed ==>
      s'.nextId > s.nextId && Hosts(s', Instance(Proc(s.nextId, s'.versions[v]), taken.value.save))
  {
    assert TaskOk(s, t);
  }

  lemma Completes(s: State, t: TaskId, c: Choice, s': State, v: Version, before: map<Version, Dir>,
                  taken: Option<Instance>, failed: bool)
    requires Inv(s) && Tracked(s, t, v, before, taken, failed)
    requires NextOf(s, t, c) == Some(s') && Reports(s', t, Completed)
    ensures s'.versions.Keys == {v} && s'.tasks[t].pc.guard.Writing?
    ensures taken.Some? && failed ==> Quiet(s')
    ensures taken.Some? && !failed ==>
      s'.nextId > s.nextId && Hosts(s', Instance(Proc(s.nextId, s'.versions[v]), taken.value.save))
  {
    var pc := s.tasks[t].pc;
    if pc.InstallDecide? || pc.InstallUnpack? { InstallCompletes(s, t, c, s', v, before, taken, failed); }
    else { SwapCompletes(s, t, c, s', v, before, taken, failed); }
  }

  /** The restarted server while the reply is pending. */
  lemma RestartedAtReply(s: State, rest: seq<Action>, t: TaskId, v: Version, was: Instance, p: Proc)
    requires Inv(s) && TracesOk(s) && Run(s, rest).Some?
    requires Reports(s, t, Completed) && s.tasks[t].pc.guard.Writing? && Reports(Run(s, rest).value, t, Completed)
    requires Hosts(s, Instance(p, was.save)) && v in s.versions && p.dir == s.versions[v] && p.id < s.nextId
    ensures RunsAgain(s, was, v) && (RunsAgain(Run(s, rest).value, was, v) <==> Undisturbed(s, rest, p))
  {
    VersionsAreHeld(s, rest, t, Completed);
    RunHosts(s, rest, Instance(p, was.save));
  }

  /** A whole `version_install` up to the step that settles its success. */
  lemma InstallSettles(s: State, actions: seq<Action>, t: TaskId, v: Version, c: Choice, s': State)
    requires Inv(s) && TracesOk(s) && AtMostOne(s.versions) && Run(s, actions).Some?
    requires t in s.tasks && s.tasks[t].pc.InstallDecide? && s.tasks[t].pc.v == v
    requires t in Run(s, actions).value.tasks && Installing(Run(s, actions).value.tasks[t].pc)
    requires NextOf(Run(s, actions).value, t, c) == Some(s') && Reports(s', t, Completed)
    ensures Inv(s') && TracesOk(s') && s'.versions.Keys == {v} && s'.tasks[t].pc.guard.Writing?
    ensures var n := Run(s, actions).value.nextId; var taken := Took(s, actions, t, None);
      taken.Some? ==>
        if Act(t, Fails) in actions then Quiet(s')
        else s'.nextId > n && Hosts(s', Instance(Proc(n, s'.versions[v]), taken.value.save))
  {
    var now := Run(s, actions).value;
    RunKeeps(s, actions);
    RunTracked(s, actions, t, v, s.versions, None, false);
    Completes(now, t, c, s', v, s.versions, Took(s, actions, t, None), Act(t, Fails) in actions);
    NextKeeps(now, Act(t, c), s');
  }

  /** Starting with at most one version, a `version_install` that succeeds leaves exactly the
      requested version, and the server it stopped runs again on that version with the same
      savefile precisely when stopping it reported no error. When the reply goes out the version
      is still the only one, and the server still runs precisely when in addition it has not
      exited and no stop has begun since the restart. */
  lemma CompletedInstall(s: State, actions: seq<Action>, t: TaskId, v: Version, c: Choice, s': State, rest: seq<Action>)
    requires Inv(s) && TracesOk(s) && AtMostOne(s.versions) && Run(s, actions).Some?
    requires t in s.tasks && s.tasks[t].pc.InstallDecide? && s.tasks[t].pc.v == v
    requires t in Run(s, actions).value.tasks && Installing(Run(s, actions).value.tasks[t].pc)
    requires NextOf(Run(s, actions).value, t, c) == Some(s') && Reports(s', t, Completed)
    requires Run(s', rest).Some? && Reports(Run(s', rest).value, t, Completed)
    ensures var now, last := Run(s, actions).value, Run(s', rest).value; var taken := Took(s, actions, t, None);
      && last.versions.Keys == {v}
      && (taken.Some? ==>
            && (RunsAgain(s', taken.value, v) <==> Act(t, Fails) !in actions)
            && (RunsAgain(last, taken.value, v) <==>
                  Act(t, Fails) !in actions && Undisturbed(s', rest, Proc(now.nextId, last.versions[v]))))
  {
    var n, taken := Run(s, actions).value.nextId, Took(s, actions, t, None);
    InstallSettles(s, actions, t, v, c, s');
    VersionsAreHeld(s', rest, t, Completed);
    if taken.Some? && Act(t, Fails) !in actions {
      RestartedAtReply(s', rest, t, v, taken.value, Proc(n, s'.versions[v]));
    }
  }

  // ---- A failed download -----------------------------------------------------------------

  predicate BeforeTheStop(pc: Pc) { pc.InstallDecide? || (pc.InstallUnpack? && !pc.plan.Reinstall?) }

  /** No step of `t` itself changes the slot or a process during the run. */
  predicate LeavesServerAlone(s: State, actions: seq<Action>, t: TaskId)
    decreases |actions|
  {
    actions == [] ||
    match Next(s, actions[0])
    case None => true
    case Some(s') =>
      && (actions[0].Act? && actions[0].t == t ==> s'.slot == s.slot && s'.live == s.live)
      && LeavesServerAlone(s', actions[1..], t)
  }

  lemma EarlyStep(s: State, t: TaskId, c: Choice, s': State)
    requires t in s.tasks && NextOf(s, t, c) == Some(s') && Installing(s.tasks[t].pc)
    ensures t in s'.tasks && (Installing(s'.tasks[t].pc) || Settled(s'.tasks[t].pc))
    ensures BeforeTheStop(s'.tasks[t].pc) ==> BeforeTheStop(s.tasks[t].pc)
    ensures BeforeTheStop(s.tasks[t].pc) ==> s'.slot == s.slot && s'.live == s.live
  {
  }

  lemma {:induction false} StaysBeforeTheStop(s: State, actions: seq<Action>, t: TaskId)
    requires Inv(s) && TracesOk(s) && Run(s, actions).Some?
    requires t in s.tasks && Installing(s.tasks[t].pc) && t in Run(s, actions).value.tasks
    requires BeforeTheStop(Run(s, actions).value.tasks[t].pc)
    ensures BeforeTheStop(s.tasks[t].pc) && LeavesServerAlone(s, actions, t)
    decreases |actions|
  {
    if actions != [] {
      var a, s' := actions[0], Next(s, actions[0]).value;
      NextKeeps(s, a, s');
      SettledStep(s, a, s', t);
      SettledStays(s', actions[1..], t);
      if a.Act? && a.t == t { EarlyStep(s, t, a.choice, s'); }
      else if a.Act? { ActKeeps(s, a.t, a.choice, s'); }
      StaysBeforeTheStop(s', actions[1..], t);
    }
  }

  /** A failed download in an upgrade leaves the versions as the operation found them until its
      reply has gone out, and no step of the operation has touched the slot or a process. */
  lemma FailedDownload(s: State, actions: seq<Action>, t: TaskId, rest: seq<Action>)
    requires Inv(s) && TracesOk(s) && AtMostOne(s.versions) && Run(s, actions).Some?
    requires t in s.tasks && s.tasks[t].pc.InstallDecide? && t in Run(s, actions).value.tasks
    requires Run(s, actions).value.tasks[t].pc.InstallUnpack? && Run(s, actions).value.tasks[t].pc.plan.Upgrade?
    ensures var now := Run(s, actions).value;
      && LeavesServerAlone(s, actions, t)
      && NextOf(now, t, Fails).Some?
      && var s' := NextOf(now, t, Fails).value;
         && Reports(s', t, Failed) && s'.versions == s.versions && s'.slot == now.slot && s'.live == now.live
         && (Run(s', rest).Some? && Reports(Run(s', rest).value, t, Failed) ==>
             Run(s', rest).value.versions == s.versions)
  {
    StaysBeforeTheStop(s, actions, t);
    RunTracked(s, actions, t, s.tasks[t].pc.v, s.versions, None, false);
    var now := Run(s, actions).value;
    RunKeeps(s, actions);
    assert TaskOk(now, t);
    var s' := NextOf(now, t, Fails).value;
    NextKeeps(now, Act(t, Fails), s');
    if Run(s', rest).Some? && Reports(Run(s', rest).value, t, Failed) { VersionsAreHeld(s', rest, t, Failed); }
  }
}
