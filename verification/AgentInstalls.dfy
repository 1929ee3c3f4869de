/** `version_install` from its request on: when it does nothing, when it downloads, and what it tells its
    client, with every other task interleaved. */
module AgentInstalls {
  import opened Basics
  import opened OperationTrace
  import opened AgentMachine
  import opened AgentInvariant
  import opened AgentVersions
  import opened AgentRuns
  import opened AgentReports

  // ---- What was asked for ----------------------------------------------------------------

  /** Until it has decided, an install remembers what it was asked for. */
  predicate Asked(pc: Pc, v: Version, force: bool)
  {
    match pc
    case InstallBegin(x, f) => x == v && f == force
    case InstallDecide(x, f) => x == v && f == force
    case _ => IsInstallPc(pc) || pc.Replying? || pc.Done?
  }

  lemma InstallAsked(s: State, t: TaskId, c: Choice, s': State, v: Version, force: bool)
    requires t in s.tasks && Asked(s.tasks[t].pc, v, force) && NextInstall(s, t, c) == Some(s')
    ensures t in s'.tasks && Asked(s'.tasks[t].pc, v, force)
  {
  }

  lemma HaltAsked(s: State, t: TaskId, c: Choice, s': State, v: Version, force: bool)
    requires t in s.tasks && Asked(s.tasks[t].pc, v, force) && NextHalt(s, t, c) == Some(s')
    ensures t in s'.tasks && Asked(s'.tasks[t].pc, v, force)
  {
  }

  lemma SwapAsked(s: State, t: TaskId, c: Choice, s': State, v: Version, force: bool)
    requires t in s.tasks && Asked(s.tasks[t].pc, v, force) && NextSwap(s, t, c) == Some(s')
    ensures t in s'.tasks && Asked(s'.tasks[t].pc, v, force)
  {
  }

  lemma OwnAsked(s: State, t: TaskId, c: Choice, s': State, v: Version, force: bool)
    requires t in s.tasks && Asked(s.tasks[t].pc, v, force) && NextOf(s, t, c) == Some(s')
    ensures t in s'.tasks && Asked(s'.tasks[t].pc, v, force)
  {
    var pc := s.tasks[t].pc;
    if pc.InstallBegin? || pc.InstallDecide? || pc.InstallUnpack? { InstallAsked(s, t, c, s', v, force); }
    else if pc.InstallStopWait? || pc.InstallStopping? { HaltAsked(s, t, c, s', v, force); }
    else if IsInstallPc(pc) { SwapAsked(s, t, c, s', v, force); }
  }

  lemma {:induction false} RunAsked(s: State, actions: seq<Action>, t: TaskId, v: Version, force: bool)
    requires Inv(s) && TracesOk(s) && t in s.tasks && Asked(s.tasks[t].pc, v, force) && Run(s, actions).Some?
    ensures t in Run(s, actions).value.tasks && Asked(Run(s, actions).value.tasks[t].pc, v, force)
    decreases |actions|
  {
    if actions != [] {
      var a, s' := actions[0], Next(s, actions[0]).value;
      NextKeeps(s, a, s');
      if a.Act? && a.t == t { OwnAsked(s, t, a.choice, s', v, force); }
      else if a.Act? { ActKeeps(s, a.t, a.choice, s'); }
      RunAsked(s', actions[1..], t, v, force);
    }
  }

  // ---- Doing nothing, or something -------------------------------------------------------

  /** The step leaves versions, slot and processes as they are and begins no download. */
  predicate Idles(s: State, s': State, t: TaskId)
  {
    && s'.versions == s.versions && s'.slot == s.slot && s'.live == s.live && s'.nextId == s.nextId
    && t in s'.tasks && !s'.tasks[t].pc.InstallUnpack?
  }

  predicate OwnStepsIdle(s: State, actions: seq<Action>, t: TaskId)
    decreases |actions|
  {
    actions == [] ||
    match Next(s, actions[0])
    case None => true
    case Some(s') => (actions[0].Act? && actions[0].t == t ==> Idles(s, s', t)) && OwnStepsIdle(s', actions[1..], t)
  }

  /** Some step of `t` unpacks a version. */
  predicate Downloads(s: State, actions: seq<Action>, t: TaskId)
    decreases |actions|
  {
    actions != [] &&
    match Next(s, actions[0])
    case None => false
    case Some(s') => DownloadBy(s, actions[0], t) || Downloads(s', actions[1..], t)
  }

  predicate DownloadBy(s: State, a: Action, t: TaskId)
  {
    a == Act(t, Succeeds) && t in s.tasks && s.tasks[t].pc.InstallUnpack?
  }

  /** `t` has nothing to install, and says so. */
  ghost predicate NothingToDo(s: State, t: TaskId, versions: map<Version, Dir>)
  {
    && t in s.tasks
    && match s.tasks[t].pc
       case InstallDecide(v, force) => !force && versions.Keys == {v} && s.versions == versions
       case Replying(reply, guard) => reply == Completed && guard == Writing && s.versions == versions
       case Done => EndedWith(s, t, Completed)
       case _ => false
  }

  lemma OwnNothing(s: State, t: TaskId, c: Choice, s': State, versions: map<Version, Dir>)
    requires Inv(s) && NothingToDo(s, t, versions) && NextOf(s, t, c) == Some(s')
    ensures NothingToDo(s', t, versions) && Idles(s, s', t)
  {
    assert TaskOk(s, t);
    if s.tasks[t].pc.InstallDecide? { assert s.tasks[t].pc.v in s.versions; }
  }

  lemma OthersNothing(s: State, a: Action, s': State, t: TaskId, versions: map<Version, Dir>)
    requires Inv(s) && NothingToDo(s, t, versions) && Next(s, a) == Some(s') && !(a.Act? && a.t == t)
    ensures NothingToDo(s', t, versions)
  {
    assert TaskOk(s, t);
    if a.Act? { ActKeeps(s, a.t, a.choice, s'); }
  }

  lemma {:induction false} RunNothing(s: State, actions: seq<Action>, t: TaskId, versions: map<Version, Dir>)
    requires Inv(s) && TracesOk(s) && NothingToDo(s, t, versions) && Run(s, actions).Some?
    ensures NothingToDo(Run(s, actions).value, t, versions) && OwnStepsIdle(s, actions, t)
    decreases |actions|
  {
    if actions != [] {
      var a, s' := actions[0], Next(s, actions[0]).value;
      NextKeeps(s, a, s');
      if a.Act? && a.t == t { OwnNothing(s, t, a.choice, s', versions); } else { OthersNothing(s, a, s', t, versions); }
      RunNothing(s', actions[1..], t, versions);
    }
  }

  /** `t` has something to install; what comes after the download comes after a download. */
  ghost predicate SomethingToDo(s: State, t: TaskId, downloaded: bool)
  {
    && t in s.tasks
    && match s.tasks[t].pc
       case InstallDecide(v, force) => force || v !in s.versions
       case InstallUnpack(_, _) => true
       case InstallStopWait(_, None) => true
       case InstallStopping(_, None, _) => true
       case Replying(reply, _) => reply == Completed ==> downloaded
       case Done => true
       case pc => Installing(pc) && downloaded
  }

  lemma InstallSomething(s: State, t: TaskId, c: Choice, s': State, downloaded: bool)
    requires SomethingToDo(s, t, downloaded) && NextInstall(s, t, c) == Some(s')
    ensures SomethingToDo(s', t, downloaded || DownloadBy(s, Act(t, c), t))
  {
  }

  lemma HaltSomething(s: State, t: TaskId, c: Choice, s': State, downloaded: bool)
    requires SomethingToDo(s, t, downloaded) && NextHalt(s, t, c) == Some(s')
    ensures SomethingToDo(s', t, downloaded || DownloadBy(s, Act(t, c), t))
  {
  }

  lemma SwapSomething(s: State, t: TaskId, c: Choice, s': State, downloaded: bool)
    requires SomethingToDo(s, t, downloaded) && NextSwap(s, t, c) == Some(s')
    ensures SomethingToDo(s', t, downloaded || DownloadBy(s, Act(t, c), t))
  {
  }

  lemma OwnSomething(s: State, t: TaskId, c: Choice, s': State, downloaded: bool)
    requires SomethingToDo(s, t, downloaded) && NextOf(s, t, c) == Some(s') && Installing(s.tasks[t].pc)
    ensures SomethingToDo(s', t, downloaded || DownloadBy(s, Act(t, c), t))
  {
    var pc := s.tasks[t].pc;
    if pc.InstallDecide? || pc.InstallUnpack? { InstallSomething(s, t, c, s', downloaded); }
    else if pc.InstallStopWait? || pc.InstallStopping? { HaltSomething(s, t, c, s', downloaded); }
    else { SwapSomething(s, t, c, s', downloaded); }
  }

  lemma StepSomething(s: State, a: Action, s': State, t: TaskId, downloaded: bool)
    requires Inv(s) && SomethingToDo(s, t, downloaded) && Next(s, a) == Some(s')
    ensures SomethingToDo(s', t, downloaded || DownloadBy(s, a, t))
  {
    assert TaskOk(s, t);
    if a.Act? && a.t == t {
      if Installing(s.tasks[t].pc) { OwnSomething(s, t, a.choice, s', downloaded); }
      else { RepliesThenDone(s, a, s', t); }
    } else if a.Act? {
      ActKeeps(s, a.t, a.choice, s');
    }
  }

  lemma {:induction false} RunSomething(s: State, actions: seq<Action>, t: TaskId, downloaded: bool)
    requires Inv(s) && TracesOk(s) && SomethingToDo(s, t, downloaded) && Run(s, actions).Some?
    ensures SomethingToDo(Run(s, actions).value, t, downloaded || Downloads(s, actions, t))
    decreases |actions|
  {
    if actions != [] {
      var a, s' := actions[0], Next(s, actions[0]).value;
      NextKeeps(s, a, s');
      StepSomething(s, a, s', t, downloaded);
      RunSomething(s', actions[1..], t, downloaded || DownloadBy(s, a, t));
    }
  }

  lemma {:induction false} IdleDownloadsNothing(s: State, actions: seq<Action>, t: TaskId)
    requires OwnStepsIdle(s, actions, t) && t in s.tasks && !s.tasks[t].pc.InstallUnpack?
    requires Inv(s) && TracesOk(s) && Run(s, actions).Some?
    ensures !Downloads(s, actions, t)
    decreases |actions|
  {
    if actions != [] {
      var a, s' := actions[0], Next(s, actions[0]).value;
      NextKeeps(s, a, s');
      if a.Act? { ActKeeps(s, a.t, a.choice, s'); }
      IdleDownloadsNothing(s', actions[1..], t);
    }
  }

  /** A request to install `v` that has got the lock, at `begun`, with at most one version in place.
      If `v` is installed and the request is not forced, its steps change nothing and begin no
      download, whatever it is interleaved with; until its reply is out the versions are as it
      found them, and the reply is Completed. */
  lemma UnforcedInstallChangesNothing(s: State, before: seq<Action>, now: State, t: TaskId, v: Version,
                                      waiting: seq<Action>, begun: State, actions: seq<Action>)
    requires Init(s) && Run(s, before) == Some(now) && t in now.tasks && now.tasks[t].pc == InstallBegin(v, false)
    requires Run(now, waiting) == Some(begun) && t in begun.tasks && begun.tasks[t].pc.InstallDecide?
    requires begun.versions.Keys == {v} && Run(begun, actions).Some?
    ensures var last := Run(begun, actions).value;
      && OwnStepsIdle(begun, actions, t) && t in last.tasks
      && (last.tasks[t].pc.Done? || last.versions == begun.versions)
      && (last.tasks[t].pc.InstallDecide? || Reports(last, t, Completed) || EndedWith(last, t, Completed))
  {
    RunKeeps(s, before);
    RunAsked(now, waiting, t, v, false);
    RunKeeps(now, waiting);
    RunNothing(begun, actions, t, begun.versions);
  }

  /** Such a request, forced or not, that is about to report Completed has unpacked `v` if and only
      if it was forced or found `v` missing. */
  lemma DownloadsExactlyWhen(s: State, before: seq<Action>, now: State, t: TaskId, v: Version, force: bool,
                             waiting: seq<Action>, begun: State, actions: seq<Action>)
    requires Init(s) && Run(s, before) == Some(now) && t in now.tasks && now.tasks[t].pc == InstallBegin(v, force)
    requires Run(now, waiting) == Some(begun) && t in begun.tasks && begun.tasks[t].pc.InstallDecide?
    requires AtMostOne(begun.versions)
    requires Run(begun, actions).Some? && Reports(Run(begun, actions).value, t, Completed)
    ensures Downloads(begun, actions, t) <==> force || v !in begun.versions
  {
    RunKeeps(s, before);
    RunAsked(now, waiting, t, v, force);
    RunKeeps(now, waiting);
    if force || v !in begun.versions {
      RunSomething(begun, actions, t, false);
    } else {
      assert begun.versions.Keys == {v};
      RunNothing(begun, actions, t, begun.versions);
      IdleDownloadsNothing(begun, actions, t);
    }
  }

  // ---- What the client is told -----------------------------------------------------------

  /** What an install finds when it has the lock. */
  datatype Found = Nothing | Other | Same(force: bool)

  function Finds(versions: map<Version, Dir>, v: Version, force: bool): Found
  {
    if versions == map[] then Nothing else if v in versions then Same(force) else Other
  }

  /** How many progress messages a successful install sends: one for a first install; for an upgrade
      starting, installed and removed; for a reinstall starting and reinstalled; two more about the
      server when it is stopped and restarted. */
  function Messages(found: Found, restarted: bool): nat
  {
    match found
    case Nothing => 1
    case Other => if restarted then 5 else 3
    case Same(force) => if !force then 0 else if restarted then 4 else 2
  }

  /** This step of `t` got the stopped instance back. */
  predicate StopReturns(s: State, a: Action, t: TaskId)
  {
    a == Act(t, Succeeds) && t in s.tasks && s.tasks[t].pc.InstallStopping? && s.tasks[t].pc.taken.Some?
  }

  predicate Returned(s: State, actions: seq<Action>, t: TaskId)
    decreases |actions|
  {
    actions != [] &&
    match Next(s, actions[0])
    case None => false
    case Some(s') => StopReturns(s, actions[0], t) || Returned(s', actions[1..], t)
  }

  /** How many messages have been sent at each point. */
  ghost predicate Told(s: State, t: TaskId, found: Found, back: bool)
  {
    && t in s.tasks
    && var n := |s.tasks[t].trace| - 1;
       match s.tasks[t].pc
       case InstallDecide(v, force) =>
         n == 0 && !back && AtMostOne(s.versions) && found == Finds(s.versions, v, force)
       case InstallUnpack(_, Fresh) => n == 1 && !back && found.Nothing?
       case InstallUnpack(_, Upgrade(_, _)) => n == 1 && !back && found.Other?
       case InstallUnpack(_, Reinstall(h)) => ToldReinstall(n, found, back) && back == h.returned.Some?
       case InstallStopWait(_, from) => ToldWaiting(n, found, from) && !back
       case InstallStopping(_, from, _) => ToldWaiting(n, found, from) && !back
       case InstallRemove(_, _, h) => n == (if back then 3 else 2) && back == h.returned.Some? && found.Other?
       case InstallRestart(_, _) => n == Messages(found, true) && back && !found.Nothing? && found != Same(false)
       case InstallSpawn(_, _) => n == Messages(found, true) && back && !found.Nothing? && found != Same(false)
       case Replying(reply, _) => reply == Completed ==> n == Messages(found, back)
       case Done => true
       case _ => false
  }

  predicate ToldReinstall(n: int, found: Found, back: bool) { n == (if back then 2 else 1) && found == Same(true) }

  predicate ToldWaiting(n: int, found: Found, from: Option<Version>)
  {
    if from.Some? then n == 2 && found.Other? else n == 0 && found == Same(true)
  }

  lemma InstallTells(s: State, t: TaskId, c: Choice, s': State, found: Found, back: bool)
    requires Told(s, t, found, back) && NextInstall(s, t, c) == Some(s')
    ensures Told(s', t, found, back || StopReturns(s, Act(t, c), t))
  {
  }

  lemma HaltTells(s: State, t: TaskId, c: Choice, s': State, found: Found, back: bool)
    requires Told(s, t, found, back) && NextHalt(s, t, c) == Some(s')
    ensures Told(s', t, found, back || StopReturns(s, Act(t, c), t))
  {
  }

  lemma SwapTells(s: State, t: TaskId, c: Choice, s': State, found: Found, back: bool)
    requires Told(s, t, found, back) && NextSwap(s, t, c) == Some(s')
    ensures Told(s', t, found, back || StopReturns(s, Act(t, c), t))
  {
  }

  lemma StepTells(s: State, a: Action, s': State, t: TaskId, found: Found, back: bool)
    requires Inv(s) && Told(s, t, found, back) && Next(s, a) == Some(s')
    ensures Told(s', t, found, back || StopReturns(s, a, t))
  {
    assert TaskOk(s, t);
    var pc := s.tasks[t].pc;
    if a.Act? && a.t == t {
      if pc.InstallDecide? || pc.InstallUnpack? { InstallTells(s, t, a.choice, s', found, back); }
      else if pc.InstallStopWait? || pc.InstallStopping? { HaltTells(s, t, a.choice, s', found, back); }
      else if IsInstallPc(pc) { SwapTells(s, t, a.choice, s', found, back); }
      else { RepliesThenDone(s, a, s', t); }
    } else if a.Act? {
      ActKeeps(s, a.t, a.choice, s');
    }
  }

  lemma {:induction false} RunTells(s: State, actions: seq<Action>, t: TaskId, found: Found, back: bool)
    requires Inv(s) && TracesOk(s) && Told(s, t, found, back) && Run(s, actions).Some?
    ensures Told(Run(s, actions).value, t, found, back || Returned(s, actions, t))
    decreases |actions|
  {
    if actions != [] {
      var a, s' := actions[0], Next(s, actions[0]).value;
      NextKeeps(s, a, s');
      StepTells(s, a, s', t, found, back);
      RunTells(s', actions[1..], t, found, back || StopReturns(s, a, t));
    }
  }

  /** An install that is about to report success has sent its acknowledgement and exactly the progress
      messages that belong to what it found and whether the stopped server came back. */
  lemma InstallNarrates(s: State, before: seq<Action>, now: State, t: TaskId, v: Version, force: bool,
                        begun: State, actions: seq<Action>)
    requires Init(s) && Run(s, before) == Some(now) && t in now.tasks && now.tasks[t].pc == InstallBegin(v, force)
    requires now.tasks[t].trace == [] && Next(now, Act(t, Proceed)) == Some(begun) && AtMostOne(begun.versions)
    requires Run(begun, actions).Some? && Reports(Run(begun, actions).value, t, Completed)
    ensures var trace := Run(begun, actions).value.tasks[t].trace;
      && Opened(trace)
      && |trace| - 1 == Messages(Finds(begun.versions, v, force), Returned(begun, actions, t))
  {
    RunKeeps(s, before);
    NextKeeps(now, Act(t, Proceed), begun);
    RunTells(begun, actions, t, Finds(begun.versions, v, force), false);
    RunKeeps(begun, actions);
    assert begun.tasks[t].trace == [Ack];
    TraceShape(Run(begun, actions).value.tasks[t]);
  }
}
