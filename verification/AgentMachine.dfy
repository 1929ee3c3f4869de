/** The agent's request handlers as concurrent tasks (src/agent/main.rs, src/agent/server/proc.rs,
    src/agent/factorio.rs). Tasks interleave wherever a handler waits for a lock, a download, a
    process or its final reply; a step is what happens in between. An acknowledgement or a progress
    reply goes out with the step it follows, since it changes nothing but the task's own trace. The
    final reply is a step of its own: by then the instance mutex is free again, while the version
    guard is still held. */
module AgentMachine {
  import opened Basics
  import opened OperationTrace

  type TaskId = nat
  type Version = string

  // ---- Installations ---------------------------------------------------------------------

  /** An installation directory, named after its version in the legacy or the modern scheme. */
  datatype Dir = Dir(modern: bool, version: Version)

  /** The directory's name below the install directory. */
  function DirText(d: Dir): string
  {
    (if d.modern then "factorio-headless_linux_" else "factorio_headless_x64_") + d.version
  }

  /** Directory names determine the directory, so no two versions share one. */
  lemma DirNamesDiffer(d: Dir, e: Dir)
    requires DirText(d) == DirText(e)
    ensures d == e
  {
    assert DirText(d)[8] == (if d.modern then '-' else '_');
    assert DirText(e)[8] == (if e.modern then '-' else '_');
    var n := if d.modern then 24 else 22;
    assert DirText(d)[n..] == d.version && DirText(e)[n..] == e.version;
  }

  predicate IsNewFileScheme(v: Version) { "2." <= v || "1.2" <= v }

  /** `get_install_path`. */
  function InstallDir(v: Version): Dir { Dir(IsNewFileScheme(v), v) }

  // ---- State -----------------------------------------------------------------------------

  datatype Proc = Proc(id: nat, dir: Dir)

  /** A started instance: the process handle and the savefile it hosts. */
  datatype Instance = Instance(proc: Proc, save: string)

  /** What `stop_instance` found in the slot and what it returned: nothing after an error. */
  datatype Halt = Halt(found: Option<Instance>, returned: Option<Instance>)

  datatype Plan = Fresh | Upgrade(from: Version, seen: map<Version, Dir>) | Reinstall(halt: Halt)

  /** What of the version lock a handler still holds. */
  datatype Guard = Unguarded | Reading | Writing

  /** Where a handler is suspended. Names say what it waits for or holds. */
  datatype Pc =
    // version_install; from `InstallDecide` on it holds the version write lock
    | InstallBegin(v: Version, force: bool)
    | InstallDecide(v: Version, force: bool)
    | InstallUnpack(v: Version, plan: Plan)
    | InstallStopWait(v: Version, upgradeFrom: Option<Version>)
    | InstallStopping(v: Version, upgradeFrom: Option<Version>, taken: Option<Instance>)
    | InstallRemove(v: Version, from: Version, halt: Halt)
    | InstallRestart(v: Version, halt: Halt)
    | InstallSpawn(v: Version, halt: Halt)
    // server_start; holds the version read lock once a version is chosen
    | StartBegin(save: string)
    | StartPrepare(save: string, dir: Dir)
    | StartSpawn(save: string, dir: Dir)
    // server_stop
    | StopBegin
    | Stopping(taken: Option<Instance>)
    // save_create; holds the read lock once a version is chosen
    | CreateBegin
    | CreateWait
    | CreatePrepare(dir: Dir)
    | CreateSpawn(dir: Dir)
    | CreateRunning(proc: Proc)
    // server_status, whose second look is `PeekBegin(false)`; rcon_command is `PeekBegin(true)`
    | StatusBegin
    | StatusPoll
    | PeekBegin(rcon: bool)
    | PeekHold(rcon: bool)
    // handlers that only read the version map
    | InspectBegin
    | InspectHold
    // handlers that touch neither versions nor processes; `long` for save_get and mod_list_set
    | DetachedBegin(long: bool)
    | DetachedGoing
    // any handler, about to send its last reply
    | Replying(reply: Status, guard: Guard)
    | Done

  /** `acks` says whether the handler is one the client awaits with `ack_or_timeout`. */
  datatype Task = Task(pc: Pc, trace: seq<Status>, acks: bool)

  datatype State = State(
    versions: map<Version, Dir>,
    slot: Option<Instance>,
    live: set<Proc>,
    nextId: nat,
    writer: Option<TaskId>,
    readers: set<TaskId>,
    mutex: Option<TaskId>,
    tasks: map<TaskId, Task>)

  /** What the environment decides at a step. `Proceed` takes a free lock or goes on; `Choose`
      is the entry the version map's iterator yields first. */
  datatype Choice = Proceed | Choose(version: Version) | TimedOut | Succeeds | Fails | RemovalFails

  datatype Action = Spawn(t: TaskId, pc: Pc) | Exit(proc: Proc) | Act(t: TaskId, choice: Choice)

  // ---- Steps -----------------------------------------------------------------------------

  /** Task `t` sends `replies` and goes to `pc`. */
  function Goto(s: State, t: TaskId, pc: Pc, replies: seq<Status>): State
    requires t in s.tasks
  {
    s.(tasks := s.tasks[t := Task(pc, s.tasks[t].trace + replies, s.tasks[t].acks)])
  }

  function GuardOf(s: State, t: TaskId): Guard
  {
    if s.writer == Some(t) then Writing else if t in s.readers then Reading else Unguarded
  }

  function Release(s: State, t: TaskId): State
  {
    s.(mutex := if s.mutex == Some(t) then None else s.mutex)
  }

  /** Task `t` is through with the instance, gives the mutex back and is about to reply. */
  function Report(s: State, t: TaskId, reply: Status): State
    requires t in s.tasks
  {
    Release(Goto(s, t, Replying(reply, GuardOf(s, t)), []), t)
  }

  /** Task `t` sends its last reply, drops its version guard and ends. */
  function NextReply(s: State, t: TaskId, c: Choice): Option<State>
    requires t in s.tasks
  {
    match s.tasks[t].pc
    case Replying(reply, guard) =>
      if c.Proceed? then
        Some(Goto(s, t, Done, [reply]).(
               writer := if guard.Writing? then None else s.writer,
               readers := if guard.Reading? then s.readers - {t} else s.readers))
      else None
    case _ => None
  }

  /** `cmd.spawn` with the handle kept in the slot. */
  function SpawnHosted(s: State, dir: Dir, save: string): State
  {
    var proc := Proc(s.nextId, dir);
    s.(live := s.live + {proc}, nextId := s.nextId + 1, slot := Some(Instance(proc, save)))
  }

  /** The process of a taken handle is gone once `stop` returns: it exited, or the handle was
      dropped and killed it. */
  function Stopped(s: State, taken: Option<Instance>): State
  {
    if taken.Some? then s.(live := s.live - {taken.value.proc}) else s
  }

  /** After installing and removing: restart what was stopped, or report success. */
  function Conclude(s: State, t: TaskId, v: Version, halt: Halt): State
    requires t in s.tasks
  {
    if halt.returned.Some? then Goto(s, t, InstallRestart(v, halt), [Ongoing, Ongoing])
    else Report(Goto(s, t, s.tasks[t].pc, [Ongoing]), t, Completed)
  }

  function NextInstall(s: State, t: TaskId, c: Choice): Option<State>
    requires t in s.tasks
  {
    match s.tasks[t].pc
    case InstallBegin(v, force) =>
      if c.TimedOut? then Some(Report(s, t, Failed))
      else if c.Proceed? && s.writer.None? && s.readers == {} then
        Some(Goto(s, t, InstallDecide(v, force), [Ack]).(writer := Some(t)))
      else None
    case InstallDecide(v, force) =>
      if s.versions == map[] then
        if c.Proceed? then Some(Goto(s, t, InstallUnpack(v, Fresh), [Ongoing])) else None
      else if c.Choose? && c.version in s.versions then
        if c.version == v && !force then Some(Report(s, t, Completed))
        else if c.version == v then Some(Goto(s, t, InstallStopWait(v, None), []))
        else Some(Goto(s, t, InstallUnpack(v, Upgrade(c.version, s.versions)), [Ongoing]))
      else None
    case InstallUnpack(v, plan) =>
      if c.Fails? then Some(Report(s, t, Failed))
      else if c.Succeeds? then
        var s' := s.(versions := s.versions[v := InstallDir(v)]);
        match plan
        case Fresh => Some(Report(s', t, Completed))
        case Upgrade(from, _) => Some(Goto(s', t, InstallStopWait(v, Some(from)), [Ongoing]))
        case Reinstall(halt) => Some(Conclude(s', t, v, halt))
      else None
    case _ => None
  }

  /** `stop_instance` inside `version_install`. */
  function NextHalt(s: State, t: TaskId, c: Choice): Option<State>
    requires t in s.tasks
  {
    match s.tasks[t].pc
    case InstallStopWait(v, upgradeFrom) =>
      if c.Proceed? && s.mutex.None? then
        Some(Goto(s, t, InstallStopping(v, upgradeFrom, s.slot), []).(mutex := Some(t), slot := None))
      else None
    case InstallStopping(v, upgradeFrom, taken) =>
      if c.Succeeds? || (c.Fails? && taken.Some?) then
        var halt := Halt(taken, if c.Succeeds? then taken else None);
        var told := if halt.returned.Some? then [Ongoing] else [];
        var s' := Release(Stopped(s, taken), t);
        match upgradeFrom
        case Some(from) => Some(Goto(s', t, InstallRemove(v, from, halt), told))
        case None => Some(Goto(s', t, InstallUnpack(v, Reinstall(halt)), told + [Ongoing]))
      else None
    case _ => None
  }

  /** The rest of `version_install`: remove the previous version, restart what was stopped. */
  function NextSwap(s: State, t: TaskId, c: Choice): Option<State>
    requires t in s.tasks
  {
    match s.tasks[t].pc
    case InstallRemove(v, from, halt) =>
      if c.RemovalFails? || from !in s.versions then Some(Report(s, t, Failed))
      else if c.Succeeds? then Some(Conclude(s.(versions := s.versions - {from}), t, v, halt))
      else None
    case InstallRestart(v, halt) =>
      if c.Fails? then Some(Report(s, t, Failed))
      else if c.Proceed? && s.mutex.None? then
        if s.slot.Some? then Some(Report(s, t, Failed))
        else Some(Goto(s, t, InstallSpawn(v, halt), []).(mutex := Some(t)))
      else None
    case InstallSpawn(v, halt) =>
      if c.Fails? then Some(Report(s, t, Failed))
      else if c.Succeeds? && v in s.versions && halt.returned.Some? then
        Some(Report(SpawnHosted(s, s.versions[v], halt.returned.value.save), t, Completed))
      else None
    case _ => None
  }

  function NextStart(s: State, t: TaskId, c: Choice): Option<State>
    requires t in s.tasks
  {
    match s.tasks[t].pc
    case StartBegin(save) =>
      if c.TimedOut? then Some(Report(s, t, Failed))
      else if s.writer.Some? then None
      else if s.versions == map[] then
        if c.Proceed? then Some(Report(s.(readers := s.readers + {t}), t, Failed)) else None
      else if c.Choose? && c.version in s.versions then
        Some(Goto(s, t, StartPrepare(save, s.versions[c.version]), []).(readers := s.readers + {t}))
      else None
    case StartPrepare(save, dir) =>
      if c.Fails? then Some(Report(s, t, Failed))
      else if c.Proceed? && s.mutex.None? then
        if s.slot.Some? then Some(Report(s, t, Failed))
        else Some(Goto(s, t, StartSpawn(save, dir), []).(mutex := Some(t)))
      else None
    case StartSpawn(save, dir) =>
      if c.Fails? then Some(Report(s, t, Failed))
      else if c.Succeeds? then Some(Report(SpawnHosted(s, dir, save), t, Completed))
      else None
    case _ => None
  }

  /** `server_stop`, and `server_status` with its clean-up of an exited process. */
  function NextServer(s: State, t: TaskId, c: Choice): Option<State>
    requires t in s.tasks
  {
    match s.tasks[t].pc
    case StopBegin =>
      if c.Proceed? && s.mutex.None? then Some(Goto(s, t, Stopping(s.slot), []).(mutex := Some(t), slot := None))
      else None
    case Stopping(taken) =>
      if c.Succeeds? || (c.Fails? && taken.Some?) then Some(Report(Stopped(s, taken), t, Completed)) else None
    case StatusBegin =>
      if c.Proceed? && s.mutex.None? then Some(Goto(s, t, StatusPoll, []).(mutex := Some(t))) else None
    case StatusPoll =>
      if s.slot.None? then if c.Proceed? then Some(Report(s, t, Completed)) else None
      else if c.Fails? || (c.Proceed? && s.slot.value.proc in s.live) then
        Some(Release(Goto(s, t, PeekBegin(false), []), t))
      else if c.Proceed? then Some(Report(s.(slot := None), t, Completed))
      else None
    case _ => None
  }

  /** Handlers that only look, at the slot under the mutex or at the versions under the read lock,
      and those that touch neither. */
  function NextLook(s: State, t: TaskId, c: Choice): Option<State>
    requires t in s.tasks
  {
    match s.tasks[t].pc
    case PeekBegin(rcon) =>
      if c.Proceed? && s.mutex.None? then Some(Goto(s, t, PeekHold(rcon), []).(mutex := Some(t))) else None
    case PeekHold(rcon) =>
      if rcon && (c.Fails? || (c.Succeeds? && s.slot.None?)) then Some(Report(s, t, Failed))
      else if c.Succeeds? then Some(Report(s, t, Completed))
      else None
    case InspectBegin =>
      if c.TimedOut? then Some(Report(s, t, Failed))
      else if c.Proceed? && s.writer.None? then Some(Goto(s, t, InspectHold, []).(readers := s.readers + {t}))
      else None
    case InspectHold =>
      if c.Succeeds? then Some(Report(s, t, Completed)) else if c.Fails? then Some(Report(s, t, Failed)) else None
    case DetachedBegin(long) =>
      if c.Fails? then Some(Report(s, t, Failed))
      else if c.Succeeds? then Some(if long then Goto(s, t, DetachedGoing, [Ack]) else Report(s, t, Completed))
      else None
    case DetachedGoing =>
      if c.Proceed? then Some(Goto(s, t, DetachedGoing, [Ongoing]))
      else if c.Succeeds? then Some(Report(s, t, Completed))
      else if c.Fails? then Some(Report(s, t, Failed))
      else None
    case _ => None
  }

  function NextCreate(s: State, t: TaskId, c: Choice): Option<State>
    requires t in s.tasks
  {
    match s.tasks[t].pc
    case CreateBegin =>
      if c.Fails? then Some(Report(s, t, Failed))
      else if c.Proceed? then Some(Goto(s, t, CreateWait, []))
      else None
    case CreateWait =>
      if c.TimedOut? then Some(Report(s, t, Failed))
      else if s.writer.Some? then None
      else if s.versions == map[] then
        if c.Proceed? then Some(Report(Goto(s, t, CreateWait, [Ack]).(readers := s.readers + {t}), t, Failed)) else None
      else if c.Choose? && c.version in s.versions then
        Some(Goto(s, t, CreatePrepare(s.versions[c.version]), [Ack]).(readers := s.readers + {t}))
      else None
    case CreatePrepare(dir) =>
      if c.Fails? then Some(Report(s, t, Failed))
      else if c.Proceed? && s.mutex.None? then
        if s.slot.Some? then Some(Report(s, t, Failed))
        else Some(Goto(s, t, CreateSpawn(dir), []).(mutex := Some(t)))
      else None
    case CreateSpawn(dir) =>
      if c.Fails? then Some(Report(s, t, Failed))
      else if c.Succeeds? then
        var proc := Proc(s.nextId, dir);
        Some(Goto(s, t, CreateRunning(proc), []).(live := s.live + {proc}, nextId := s.nextId + 1))
      else None
    case CreateRunning(proc) =>
      if c.Succeeds? && proc !in s.live then Some(Report(s, t, Completed))
      else if c.Fails? then Some(Report(s.(live := s.live - {proc}), t, Failed))
      else None
    case _ => None
  }

  predicate IsInstallPc(pc: Pc)
  {
    pc.InstallBegin? || pc.InstallDecide? || pc.InstallUnpack? || pc.InstallStopWait? || pc.InstallStopping?
    || pc.InstallRemove? || pc.InstallRestart? || pc.InstallSpawn?
  }

  predicate IsCreatePc(pc: Pc)
  {
    pc.CreateBegin? || pc.CreateWait? || pc.CreatePrepare? || pc.CreateSpawn? || pc.CreateRunning?
  }

  predicate IsFirstPc(pc: Pc)
  {
    pc.InstallBegin? || pc.StartBegin? || pc.StopBegin? || pc.CreateBegin? || pc.StatusBegin?
    || (pc.PeekBegin? && pc.rcon) || pc.InspectBegin? || pc.DetachedBegin?
  }

  /** The handlers whose client awaits an acknowledgement. */
  predicate IsLong(pc: Pc) { pc.InstallBegin? || pc.CreateBegin? || (pc.DetachedBegin? && pc.long) }

  function NextOf(s: State, t: TaskId, c: Choice): Option<State>
    requires t in s.tasks
  {
    var pc := s.tasks[t].pc;
    if pc.InstallBegin? || pc.InstallDecide? || pc.InstallUnpack? then NextInstall(s, t, c)
    else if pc.InstallStopWait? || pc.InstallStopping? then NextHalt(s, t, c)
    else if IsInstallPc(pc) then NextSwap(s, t, c)
    else if IsCreatePc(pc) then NextCreate(s, t, c)
    else if pc.StartBegin? || pc.StartPrepare? || pc.StartSpawn? then NextStart(s, t, c)
    else if pc.StopBegin? || pc.Stopping? || pc.StatusBegin? || pc.StatusPoll? then NextServer(s, t, c)
    else if pc.Replying? then NextReply(s, t, c)
    else NextLook(s, t, c)
  }

  /** One step of the whole agent; `None` when the action is not possible. */
  function Next(s: State, a: Action): Option<State>
  {
    match a
    case Spawn(t, pc) =>
      if t !in s.tasks && IsFirstPc(pc)
      then Some(s.(tasks := s.tasks[t := Task(pc, [], IsLong(pc))]))
      else None
    case Exit(proc) => if proc in s.live then Some(s.(live := s.live - {proc})) else None
    case Act(t, c) => if t in s.tasks then NextOf(s, t, c) else None
  }
}
