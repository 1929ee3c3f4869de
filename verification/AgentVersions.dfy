/** Runs in which removing the previous version never fails: which versions are installed at each
    point, and that nothing in use is overwritten or deleted. */
module AgentVersions {
  import opened Basics
  import opened AgentMachine
  import opened AgentInvariant

  predicate AtMostOne(versions: map<Version, Dir>)
  {
    forall v, w :: v in versions && w in versions ==> v == w
  }

  predicate Installed(versions: map<Version, Dir>, d: Dir)
  {
    d.version in versions && versions[d.version] == d
  }

  /** The installation a task has chosen and will start a process from. */
  function Chosen(pc: Pc): Option<Dir>
  {
    match pc
    case StartPrepare(_, d) => Some(d)
    case StartSpawn(_, d) => Some(d)
    case CreatePrepare(d) => Some(d)
    case CreateSpawn(d) => Some(d)
    case _ => None
  }

  /** The versions installed while the holder of the write lock is at `pc`. */
  predicate KeysOk(versions: map<Version, Dir>, pc: Pc)
  {
    match pc
    case InstallDecide(_, _) => AtMostOne(versions)
    case InstallUnpack(_, Fresh) => versions == map[]
    case InstallUnpack(_, Upgrade(from, _)) => versions.Keys == {from}
    case InstallUnpack(v, Reinstall(_)) => versions.Keys == {v}
    case InstallStopWait(v, Some(from)) => versions.Keys == {v, from}
    case InstallStopWait(v, None) => versions.Keys == {v}
    case InstallStopping(v, Some(from), _) => versions.Keys == {v, from}
    case InstallStopping(v, None, _) => versions.Keys == {v}
    case InstallRemove(v, from, _) => versions.Keys == {v, from}
    case InstallRestart(v, _) => versions.Keys == {v}
    case InstallSpawn(v, _) => versions.Keys == {v}
    case Replying(_, _) => AtMostOne(versions)
    case _ => true
  }

  predicate Named(versions: map<Version, Dir>)
  {
    forall v :: v in versions ==> versions[v].version == v
  }

  ghost predicate Counted(s: State)
  {
    && Named(s.versions)
    && (s.writer.None? ==> AtMostOne(s.versions))
    && (s.writer.Some? && s.writer.value in s.tasks ==> KeysOk(s.versions, s.tasks[s.writer.value].pc))
  }

  ghost predicate InUse(s: State)
  {
    forall p :: p in s.live ==> Installed(s.versions, p.dir)
  }

  predicate ChosenOk(s: State, t: TaskId)
    requires t in s.tasks
  {
    Chosen(s.tasks[t].pc).Some? ==> Installed(s.versions, Chosen(s.tasks[t].pc).value)
  }

  ghost predicate VersionOk(s: State)
  {
    && Counted(s)
    && InUse(s)
    && (forall t {:trigger ChosenOk(s, t)} :: t in s.tasks ==> ChosenOk(s, t))
  }

  /** A step that changes the version map happens while no reader has chosen from it. */
  lemma OthersChosen(s: State, s': State, t: TaskId)
    requires Inv(s) && VersionOk(s) && t in s.tasks
    requires s'.tasks.Keys == s.tasks.Keys && s'.tasks == s.tasks[t := s'.tasks[t]] && ChosenOk(s', t)
    requires s'.versions == s.versions || s.writer == Some(t)
    requires Counted(s') && InUse(s')
    ensures VersionOk(s')
  {
    forall u {:trigger ChosenOk(s', u)} | u in s'.tasks ensures ChosenOk(s', u) {
      assert ChosenOk(s, u) && TaskOk(s, u);
    }
  }

  lemma DecideCounted(s: State, t: TaskId, c: Choice, s': State)
    requires Inv(s) && VersionOk(s) && t in s.tasks && NextInstall(s, t, c) == Some(s') && !s.tasks[t].pc.InstallUnpack?
    ensures Counted(s')
  {
    assert TaskOk(s, t);
  }

  lemma UnpackCounted(s: State, t: TaskId, c: Choice, s': State)
    requires Inv(s) && VersionOk(s) && t in s.tasks && NextInstall(s, t, c) == Some(s') && s.tasks[t].pc.InstallUnpack?
    ensures Counted(s')
  {
    assert TaskOk(s, t);
  }

  lemma InstallInUse(s: State, t: TaskId, c: Choice, s': State)
    requires Inv(s) && VersionOk(s) && t in s.tasks && NextInstall(s, t, c) == Some(s')
    ensures InUse(s') && t in s'.tasks && ChosenOk(s', t)
  {
    assert TaskOk(s, t);
  }

  lemma HaltVersions(s: State, t: TaskId, c: Choice, s': State)
    requires Inv(s) && VersionOk(s) && t in s.tasks && NextHalt(s, t, c) == Some(s')
    ensures Counted(s') && InUse(s') && t in s'.tasks && ChosenOk(s', t)
  {
    assert TaskOk(s, t);
  }

  lemma SwapCounted(s: State, t: TaskId, c: Choice, s': State)
    requires Inv(s) && VersionOk(s) && t in s.tasks && NextSwap(s, t, c) == Some(s') && c != RemovalFails
    ensures Counted(s')
  {
    assert TaskOk(s, t);
  }

  lemma SwapInUse(s: State, t: TaskId, c: Choice, s': State)
    requires Inv(s) && VersionOk(s) && t in s.tasks && NextSwap(s, t, c) == Some(s') && c != RemovalFails
    ensures InUse(s') && t in s'.tasks && ChosenOk(s', t)
  {
    assert TaskOk(s, t);
  }

  lemma StartVersions(s: State, t: TaskId, c: Choice, s': State)
    requires Inv(s) && VersionOk(s) && t in s.tasks && NextStart(s, t, c) == Some(s')
    ensures Counted(s') && InUse(s') && t in s'.tasks && ChosenOk(s', t)
  {
    assert TaskOk(s, t) && ChosenOk(s, t);
  }

  lemma CreateCounted(s: State, t: TaskId, c: Choice, s': State)
    requires Inv(s) && VersionOk(s) && t in s.tasks && NextCreate(s, t, c) == Some(s')
    ensures Counted(s')
  {
    assert TaskOk(s, t);
  }

  lemma CreateInUse(s: State, t: TaskId, c: Choice, s': State)
    requires Inv(s) && VersionOk(s) && t in s.tasks && NextCreate(s, t, c) == Some(s')
    ensures InUse(s') && t in s'.tasks && ChosenOk(s', t)
  {
    assert TaskOk(s, t) && ChosenOk(s, t);
  }

  lemma ServerCounted(s: State, t: TaskId, c: Choice, s': State)
    requires Inv(s) && VersionOk(s) && t in s.tasks && NextServer(s, t, c) == Some(s')
    ensures Counted(s')
  {
    assert TaskOk(s, t);
  }

  lemma ServerInUse(s: State, t: TaskId, c: Choice, s': State)
    requires Inv(s) && VersionOk(s) && t in s.tasks && NextServer(s, t, c) == Some(s')
    ensures InUse(s') && t in s'.tasks && ChosenOk(s', t)
  {
    assert TaskOk(s, t);
  }

  lemma LookVersions(s: State, t: TaskId, c: Choice, s': State)
    requires Inv(s) && VersionOk(s) && t in s.tasks && NextLook(s, t, c) == Some(s')
    ensures Counted(s') && InUse(s') && t in s'.tasks && ChosenOk(s', t)
  {
    assert TaskOk(s, t);
  }

  lemma ReplyVersions(s: State, t: TaskId, c: Choice, s': State)
    requires Inv(s) && VersionOk(s) && t in s.tasks && NextReply(s, t, c) == Some(s')
    ensures Counted(s') && InUse(s') && t in s'.tasks && ChosenOk(s', t)
  {
    assert TaskOk(s, t);
  }

  lemma ActVersions(s: State, t: TaskId, c: Choice, s': State)
    requires Inv(s) && VersionOk(s) && t in s.tasks && NextOf(s, t, c) == Some(s') && c != RemovalFails
    ensures VersionOk(s')
  {
    ActKeeps(s, t, c, s');
    var pc := s.tasks[t].pc;
    if pc.InstallBegin? || pc.InstallDecide? || pc.InstallUnpack? {
      if pc.InstallUnpack? { UnpackCounted(s, t, c, s'); } else { DecideCounted(s, t, c, s'); }
      InstallInUse(s, t, c, s');
    } else if pc.InstallStopWait? || pc.InstallStopping? {
      HaltVersions(s, t, c, s');
    } else if IsInstallPc(pc) {
      SwapCounted(s, t, c, s'); SwapInUse(s, t, c, s');
    } else if IsCreatePc(pc) {
      CreateCounted(s, t, c, s'); CreateInUse(s, t, c, s');
    } else if pc.StartBegin? || pc.StartPrepare? || pc.StartSpawn? {
      StartVersions(s, t, c, s');
    } else if pc.StopBegin? || pc.Stopping? || pc.StatusBegin? || pc.StatusPoll? {
      ServerCounted(s, t, c, s'); ServerInUse(s, t, c, s');
    } else if pc.Replying? {
      ReplyVersions(s, t, c, s');
    } else {
      LookVersions(s, t, c, s');
    }
    OthersChosen(s, s', t);
  }

  lemma NextVersions(s: State, a: Action, s': State)
    requires Inv(s) && VersionOk(s) && Next(s, a) == Some(s') && !(a.Act? && a.choice == RemovalFails)
    ensures VersionOk(s')
  {
    if a.Act? {
      ActVersions(s, a.t, a.choice, s');
    } else {
      forall u {:trigger ChosenOk(s', u)} | u in s'.tasks ensures ChosenOk(s', u) {
        if u in s.tasks { assert ChosenOk(s, u); }
      }
    }
  }
}
