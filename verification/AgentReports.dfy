/** What a handler's result is still worth when its final reply goes out. By then the instance mutex
    is free again, so processes may have exited and other tasks may have gone on. */
module AgentReports {
  import opened Basics
  import opened OperationTrace
  import opened AgentMachine
  import opened AgentInvariant
  import opened AgentRuns

  // ---- What one step may do to the server ------------------------------------------------

  /** The next step takes the hosted server out of the slot to stop it. */
  predicate Taking(pc: Pc) { pc.StopBegin? || pc.InstallStopWait? }

  predicate SameServer(s: State, s': State) { s'.slot == s.slot && s'.live == s.live && s'.nextId == s.nextId }

  /** A new process is started; it may be put into the slot. */
  predicate Started(s: State, s': State)
  {
    && s'.nextId == s.nextId + 1 && s.live <= s'.live && s'.live != {}
    && (forall p :: p in s'.live ==> p in s.live || p.id == s.nextId)
    && (s'.slot == s.slot || (s'.slot.Some? && s'.slot.value.proc.id == s.nextId))
  }

  /** A task at `pc` leaves the server alone, takes it, or ends or starts a process while the slot is
      known to be empty, or clears a slot whose process has exited. */
  predicate Serves(s: State, pc: Pc, s': State)
  {
    if Taking(pc) then s'.slot.None? && s'.live == s.live && s'.nextId == s.nextId
    else
      || SameServer(s, s')
      || (HasEmptySlot(pc) && s'.slot == s.slot && s'.live <= s.live && s'.nextId == s.nextId)
      || (HasEmptySlot(pc) && Started(s, s'))
      || (s.slot.Some? && s.slot.value.proc !in s.live && s'.slot.None? && s'.live == s.live && s'.nextId == s.nextId)
  }

  lemma InstallServes(s: State, t: TaskId, c: Choice, s': State)
    requires t in s.tasks && IsInstallPc(s.tasks[t].pc) && NextOf(s, t, c) == Some(s')
    ensures Serves(s, s.tasks[t].pc, s')
  {
  }

  lemma CreateServes(s: State, t: TaskId, c: Choice, s': State)
    requires t in s.tasks && IsCreatePc(s.tasks[t].pc) && NextOf(s, t, c) == Some(s')
    ensures Serves(s, s.tasks[t].pc, s')
  {
  }

  lemma OtherServes(s: State, t: TaskId, c: Choice, s': State)
    requires t in s.tasks && !IsInstallPc(s.tasks[t].pc) && !IsCreatePc(s.tasks[t].pc) && NextOf(s, t, c) == Some(s')
    ensures Serves(s, s.tasks[t].pc, s')
  {
  }

  lemma ActServes(s: State, t: TaskId, c: Choice, s': State)
    requires t in s.tasks && NextOf(s, t, c) == Some(s')
    ensures Serves(s, s.tasks[t].pc, s')
  {
    if IsInstallPc(s.tasks[t].pc) { InstallServes(s, t, c, s'); }
    else if IsCreatePc(s.tasks[t].pc) { CreateServes(s, t, c, s'); }
    else { OtherServes(s, t, c, s'); }
  }

  // ---- A started server ------------------------------------------------------------------

  /** Instance `i` is in the slot and its process is alive. */
  predicate Hosts(s: State, i: Instance) { s.slot == Some(i) && i.proc in s.live }

  /** A step that ends the hosting of `p`: its exit, or the start of a stop. */
  predicate Disturbs(s: State, a: Action, p: Proc)
  {
    a == Exit(p) || (a.Act? && a.t in s.tasks && Taking(s.tasks[a.t].pc))
  }

  predicate Undisturbed(s: State, actions: seq<Action>, p: Proc)
    decreases |actions|
  {
    actions == [] || (!Disturbs(s, actions[0], p) &&
      match Next(s, actions[0])
      case None => true
      case Some(s') => Undisturbed(s', actions[1..], p))
  }

  lemma StepHosts(s: State, a: Action, s': State, i: Instance)
    requires Inv(s) && Next(s, a) == Some(s') && i.proc.id < s.nextId
    ensures s.nextId <= s'.nextId
    ensures Hosts(s', i) <==> Hosts(s, i) && !Disturbs(s, a, i.proc)
  {
    if a.Act? {
      ActServes(s, a.t, a.choice, s');
      assert TaskOk(s, a.t);
    }
  }

  /** A hosted server is still hosted after a run if and only if it has not exited and nobody has
      started to stop it; nothing brings it back. */
  lemma {:induction false} RunHosts(s: State, actions: seq<Action>, i: Instance)
    requires Inv(s) && TracesOk(s) && Run(s, actions).Some? && i.proc.id < s.nextId
    ensures Hosts(Run(s, actions).value, i) <==> Hosts(s, i) && Undisturbed(s, actions, i.proc)
    decreases |actions|
  {
    if actions != [] {
      var a, s' := actions[0], Next(s, actions[0]).value;
      NextKeeps(s, a, s');
      StepHosts(s, a, s', i);
      RunHosts(s', actions[1..], i);
    }
  }

  // ---- A stopped server ------------------------------------------------------------------

  /** Nothing is alive or in the slot at any point of the run. */
  predicate QuietThroughout(s: State, actions: seq<Action>)
    decreases |actions|
  {
    Quiet(s) && (actions == [] ||
      match Next(s, actions[0])
      case None => true
      case Some(s') => QuietThroughout(s', actions[1..]))
  }

  ghost predicate OnlyNewer(s: State, n: nat) { n <= s.nextId && forall p :: p in s.live ==> p.id >= n }

  lemma StepQuiet(s: State, a: Action, s': State, n: nat)
    requires Inv(s) && Next(s, a) == Some(s') && OnlyNewer(s, n)
    ensures OnlyNewer(s', n) && s.nextId <= s'.nextId
    ensures Quiet(s) ==> (Quiet(s') <==> s'.nextId == s.nextId)
  {
    if a.Act? { ActServes(s, a.t, a.choice, s'); }
  }

  /** Once nothing runs, it stays so as long as nobody starts a process, and whatever runs later
      was started later. */
  lemma {:induction false} RunQuiet(s: State, actions: seq<Action>, n: nat)
    requires Inv(s) && TracesOk(s) && Run(s, actions).Some? && OnlyNewer(s, n)
    ensures OnlyNewer(Run(s, actions).value, n) && s.nextId <= Run(s, actions).value.nextId
    ensures Quiet(s) ==> (QuietThroughout(s, actions) <==> Run(s, actions).value.nextId == s.nextId)
    decreases |actions|
  {
    if actions != [] {
      var a, s' := actions[0], Next(s, actions[0]).value;
      NextKeeps(s, a, s');
      StepQuiet(s, a, s', n);
      RunQuiet(s', actions[1..], n);
    }
  }

  /** Every live process has been numbered. */
  ghost predicate Numbered(s: State) { forall p :: p in s.live ==> p.id < s.nextId }

  // ---- Every process that was started ----------------------------------------------------

  /** The process an action starts. */
  function Launched(s: State, a: Action): set<Proc>
  {
    if a.Act? && a.t in s.tasks && a.choice.Succeeds? then
      match s.tasks[a.t].pc
      case StartSpawn(_, dir) => {Proc(s.nextId, dir)}
      case CreateSpawn(dir) => {Proc(s.nextId, dir)}
      case InstallSpawn(v, _) => if v in s.versions then {Proc(s.nextId, s.versions[v])} else {}
      case _ => {}
    else {}
  }

  /** The live process an action ends: it exits by itself, or the task that owns its handle is
      through with it. */
  function Ended(s: State, a: Action): set<Proc>
  {
    match a
    case Spawn(_, _) => {}
    case Exit(p) => {p}
    case Act(t, _) => if t in s.tasks && Hand(s.tasks[t].pc).Some? then {Hand(s.tasks[t].pc).value} * s.live else {}
  }

  function LaunchedIn(s: State, actions: seq<Action>): set<Proc>
    decreases |actions|
  {
    if actions == [] || Next(s, actions[0]).None? then {}
    else Launched(s, actions[0]) + LaunchedIn(Next(s, actions[0]).value, actions[1..])
  }

  function EndedIn(s: State, actions: seq<Action>): set<Proc>
    decreases |actions|
  {
    if actions == [] || Next(s, actions[0]).None? then {}
    else Ended(s, actions[0]) + EndedIn(Next(s, actions[0]).value, actions[1..])
  }

  /** What is alive after a step is what was alive and what it started, less what it ended. */
  predicate Balanced(s: State, a: Action, s': State)
  {
    && s'.live == (s.live + Launched(s, a)) - Ended(s, a)
    && s.nextId <= s'.nextId && forall p :: p in Launched(s, a) ==> s.nextId <= p.id < s'.nextId
  }

  lemma InstallBalances(s: State, t: TaskId, c: Choice, s': State)
    requires t in s.tasks && IsInstallPc(s.tasks[t].pc) && NextOf(s, t, c) == Some(s') && Numbered(s)
    ensures Balanced(s, Act(t, c), s')
  {
  }

  lemma CreateBalances(s: State, t: TaskId, c: Choice, s': State)
    requires t in s.tasks && IsCreatePc(s.tasks[t].pc) && NextOf(s, t, c) == Some(s') && Numbered(s)
    ensures Balanced(s, Act(t, c), s')
  {
  }

  lemma OtherBalances(s: State, t: TaskId, c: Choice, s': State)
    requires t in s.tasks && !IsInstallPc(s.tasks[t].pc) && !IsCreatePc(s.tasks[t].pc) && NextOf(s, t, c) == Some(s')
    requires Numbered(s)
    ensures Balanced(s, Act(t, c), s')
  {
  }

  lemma StepBalances(s: State, a: Action, s': State)
    requires Numbered(s) && Next(s, a) == Some(s')
    ensures Balanced(s, a, s') && Numbered(s')
  {
    if a.Act? {
      if IsInstallPc(s.tasks[a.t].pc) { InstallBalances(s, a.t, a.choice, s'); }
      else if IsCreatePc(s.tasks[a.t].pc) { CreateBalances(s, a.t, a.choice, s'); }
      else { OtherBalances(s, a.t, a.choice, s'); }
    }
  }

  /** No process is lost or comes back: over any run, what is alive at the end is what was alive and
      what was started, less what has exited or been stopped. */
  lemma {:induction false} ProcessesBalance(s: State, actions: seq<Action>)
    requires Numbered(s) && Run(s, actions).Some?
    ensures Run(s, actions).value.live == (s.live + LaunchedIn(s, actions)) - EndedIn(s, actions)
    ensures forall p :: p in LaunchedIn(s, actions) ==> p.id >= s.nextId
    ensures Numbered(Run(s, actions).value)
    decreases |actions|
  {
    if actions != [] {
      var s' := Next(s, actions[0]).value;
      StepBalances(s, actions[0], s');
      ProcessesBalance(s', actions[1..]);
      assert Ended(s, actions[0]) <= s.live;
    }
  }

  // ---- At the reply ----------------------------------------------------------------------

  /** Sending the last reply changes neither versions nor processes. */
  lemma ReplyOnlyReplies(s: State, t: TaskId, reply: Status)
    requires Reports(s, t, reply)
    ensures Next(s, Act(t, Proceed)).Some?
    ensures var s' := Next(s, Act(t, Proceed)).value;
      EndedWith(s', t, reply) && s'.versions == s.versions && SameServer(s, s')
  {
  }

  lemma HeldStep(s: State, a: Action, s': State, t: TaskId)
    requires Inv(s) && Next(s, a) == Some(s')
    requires t in s.tasks && s.tasks[t].pc.Replying? && !s.tasks[t].pc.guard.Unguarded? && !(a.Act? && a.t == t)
    ensures t in s'.tasks && s'.tasks[t] == s.tasks[t] && s'.versions == s.versions
    ensures s.tasks[t].pc.guard.Writing? ==> s'.nextId == s.nextId && (s'.slot == s.slot || s'.slot.None?)
  {
    assert TaskOk(s, t);
    if a.Act? {
      assert TaskOk(s, a.t);
      ActKeeps(s, a.t, a.choice, s');
      ActServes(s, a.t, a.choice, s');
    }
  }

  lemma RepliesThenDone(s: State, a: Action, s': State, t: TaskId)
    requires Inv(s) && t in s.tasks && (s.tasks[t].pc.Replying? || s.tasks[t].pc.Done?) && Next(s, a) == Some(s')
    ensures t in s'.tasks
    ensures if a.Act? && a.t == t then s'.tasks[t].pc.Done? else s'.tasks[t] == s.tasks[t]
  {
    if a.Act? { ActKeeps(s, a.t, a.choice, s'); }
  }

  lemma {:induction false} DoneStaysDone(s: State, actions: seq<Action>, t: TaskId)
    requires Inv(s) && TracesOk(s) && t in s.tasks && s.tasks[t].pc.Done? && Run(s, actions).Some?
    ensures t in Run(s, actions).value.tasks && Run(s, actions).value.tasks[t].pc.Done?
    decreases |actions|
  {
    if actions != [] {
      var a, s' := actions[0], Next(s, actions[0]).value;
      NextKeeps(s, a, s');
      RepliesThenDone(s, a, s', t);
      DoneStaysDone(s', actions[1..], t);
    }
  }

  /** While a task with a version guard waits to reply, the versions stay as they are; with the
      write guard nobody can start a process either. */
  lemma {:induction false} VersionsAreHeld(s: State, actions: seq<Action>, t: TaskId, reply: Status)
    requires Inv(s) && TracesOk(s) && Run(s, actions).Some?
    requires Reports(s, t, reply) && !s.tasks[t].pc.guard.Unguarded? && Reports(Run(s, actions).value, t, reply)
    ensures var last := Run(s, actions).value;
      && last.versions == s.versions
      && (s.tasks[t].pc.guard.Writing? ==> last.nextId == s.nextId && (last.slot == s.slot || last.slot.None?))
    decreases |actions|
  {
    if actions != [] {
      var a, s' := actions[0], Next(s, actions[0]).value;
      NextKeeps(s, a, s');
      RepliesThenDone(s, a, s', t);
      if a.Act? && a.t == t { DoneStaysDone(s', actions[1..], t); }
      HeldStep(s, a, s', t);
      VersionsAreHeld(s', actions[1..], t, reply);
    }
  }

  /** When `server_start` sends Completed after any interleaving, its process still serves the
      requested savefile if and only if it has not exited and no stop has begun since it was
      started, and it is then the only one alive; the version it was started from is in place. */
  lemma StartedServerAtReply(s: State, actions: seq<Action>, t: TaskId, c: Choice, s': State, rest: seq<Action>)
    requires Init(s) && Run(s, actions).Some? && t in Run(s, actions).value.tasks
    requires IsStart(Run(s, actions).value.tasks[t].pc) && NextOf(Run(s, actions).value, t, c) == Some(s')
    requires Reports(s', t, Completed) && Run(s', rest).Some? && Reports(Run(s', rest).value, t, Completed)
    ensures var now, last := Run(s, actions).value, Run(s', rest).value;
      && HostsNew(now, s', now.tasks[t].pc.save)
      && var i := s'.slot.value;
      && (Hosts(last, i) <==> Undisturbed(s', rest, i.proc))
      && (Hosts(last, i) ==> last.live == {i.proc})
      && last.versions == now.versions
  {
    var now := Run(s, actions).value;
    RunKeeps(s, actions);
    HandlersDeliver(s, actions, t, c, s');
    StartHosts(now, t, c, s');
    var i := s'.slot.value;
    NextKeeps(now, Act(t, c), s');
    assert TaskOk(now, t) && TaskOk(s', t);
    RunHosts(s', rest, i);
    VersionsAreHeld(s', rest, t, Completed);
    RunKeeps(s', rest);
    OneAlive(Run(s', rest).value);
  }

  lemma OneAlive(s: State)
    requires Inv(s)
    ensures forall p, q :: p in s.live && q in s.live ==> p == q
  {
    if s.mutex.Some? { assert TaskOk(s, s.mutex.value); }
  }

  /** When `server_stop`, `save_create` or a `server_status` that found nothing running sends
      Completed after any interleaving, no process from before is alive. Nothing has run since if
      and only if nobody has started a process meanwhile, and nothing runs now if and only if
      every process started meanwhile has exited or been stopped. */
  lemma NothingOldAtReply(s: State, actions: seq<Action>, t: TaskId, c: Choice, s': State, rest: seq<Action>)
    requires Init(s) && Run(s, actions).Some? && t in Run(s, actions).value.tasks
    requires Ceases(Run(s, actions).value, Run(s, actions).value.tasks[t].pc)
    requires NextOf(Run(s, actions).value, t, c) == Some(s')
    requires Reports(s', t, Completed) && Run(s', rest).Some?
    ensures var now, last := Run(s, actions).value, Run(s', rest).value;
      && (forall p :: p in last.live ==> p !in now.live && p.id >= s'.nextId)
      && (QuietThroughout(s', rest) <==> last.nextId == s'.nextId)
      && (last.live == {} <==> LaunchedIn(s', rest) <= EndedIn(s', rest))
  {
    var now := Run(s, actions).value;
    RunKeeps(s, actions);
    HandlersDeliver(s, actions, t, c, s');
    NextKeeps(now, Act(t, c), s');
    ProcessesBalance(s, actions);
    ActServes(now, t, c, s');
    RunQuiet(s', rest, s'.nextId);
    ProcessesBalance(s', rest);
  }
}
