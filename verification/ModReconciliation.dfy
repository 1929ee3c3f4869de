/** Reconciling the mod directory with a desired list (src/agent/server/mods.rs). */
module ModReconciliation {
  import opened Basics
  import opened ModFilenames

  datatype Dlc = Base | ElevatedRails | Quality | SpaceAge

  datatype ModListElem = ModListElem(name: string, enabled: bool, version: Option<string>)

  /** File contents; serialising the mod list to JSON and back is taken to be the identity. */
  datatype Content = Json(elems: seq<ModListElem>) | Bytes(text: string)

  const MOD_LIST := "mod-list.json"
  const MOD_SETTINGS := "mod-settings.dat"

  type Files = map<string, Content>

  // ---- The delta -------------------------------------------------------------------------

  function AsSet<T(==)>(s: seq<T>): set<T>
  {
    set x | x in s
  }

  /** `calculate_mod_delta`: install what is desired and absent, delete what is present and not
      desired. */
  method CalculateModDelta(currentlyInstalled: seq<Mod>, desiredState: seq<Mod>)
    returns (install: set<Mod>, delete: set<Mod>)
    ensures install == AsSet(desiredState) - AsSet(currentlyInstalled)
    ensures delete == AsSet(currentlyInstalled) - AsSet(desiredState)
  {
    install := AsSet(desiredState);
    for i := 0 to |desiredState|
      invariant install == AsSet(desiredState) - (AsSet(desiredState[..i]) * AsSet(currentlyInstalled))
    {
      var requestedMod := desiredState[i];
      if requestedMod in currentlyInstalled {
        install := install - {requestedMod};
      }
      assert desiredState[..i + 1] == desiredState[..i] + [requestedMod];
    }
    assert desiredState[..|desiredState|] == desiredState;
    delete := {};
    for i := 0 to |currentlyInstalled|
      invariant delete == AsSet(currentlyInstalled[..i]) - AsSet(desiredState)
    {
      var existingMod := currentlyInstalled[i];
      if existingMod !in desiredState {
        delete := delete + {existingMod};
      }
      assert currentlyInstalled[..i + 1] == currentlyInstalled[..i] + [existingMod];
    }
    assert currentlyInstalled[..|currentlyInstalled|] == currentlyInstalled;
  }

  // ---- Reading back ----------------------------------------------------------------------

  /** The mods whose archives are in the directory. */
  function InstalledMods(files: Files): (mods: set<Mod>)
  {
    set f | f in files && TryFromFilename(f).Some? :: TryFromFilename(f).value
  }

  lemma InstalledIff(files: Files, m: Mod)
    ensures m in InstalledMods(files) <==> WellFormed(m) && Filename(m) in files
  {
    if m in InstalledMods(files) {
      var f :| f in files && TryFromFilename(f).Some? && TryFromFilename(f).value == m;
      PrintsBack(f);
    }
    if WellFormed(m) && Filename(m) in files {
      ParsesBack(m);
    }
  }

  lemma MetadataIsNoMod(m: Mod)
    ensures Filename(m) != MOD_LIST && Filename(m) != MOD_SETTINGS
  {
    var s := Filename(m);
    assert s[|s| - 4..] == SUFFIX;
    assert MOD_LIST[|MOD_LIST| - 4..] == "json";
    assert MOD_SETTINGS[|MOD_SETTINGS| - 4..] == ".dat";
    assert s[|s| - 4..][1] == 'z';
  }

  /** The directory loop of `read`, in whatever order the entries come. */
  method ReadMods(files: Files) returns (mods: seq<Mod>)
    ensures AsSet(mods) == InstalledMods(files)
  {
    mods := [];
    var entries := files.Keys;
    ghost var done: set<string> := {};
    while entries != {}
      invariant entries <= files.Keys && done == files.Keys - entries
      invariant forall m :: m in mods <==> exists f :: f in done && TryFromFilename(f) == Some(m)
    {
      var f :| f in entries;
      ghost var before := mods;
      var parsed := TryFromFilename(f);
      if f != MOD_LIST && f != MOD_SETTINGS && parsed.Some? {
        mods := mods + [parsed.value];
      }
      if parsed.Some? {
        PrintsBack(f);
        MetadataIsNoMod(parsed.value);
      }
      done := done + {f};
      entries := entries - {f};
      forall m ensures m in mods <==> exists g :: g in done && TryFromFilename(g) == Some(m) {
        if parsed == Some(m) { assert f in done; }
      }
    }
    assert done == files.Keys;
    forall m ensures m in AsSet(mods) <==> m in InstalledMods(files) {
      if m in mods {
        var f :| f in done && TryFromFilename(f) == Some(m);
        assert f in files && TryFromFilename(f).Some?;
      }
    }
  }

  // ---- The tasks -------------------------------------------------------------------------

  datatype Task = Install(m: Mod) | Delete(m: Mod) | Metadata(file: string, content: Content)

  /** How a spawned task ends. A failed download may leave a file behind, a complete one leaves
      the archive; a panicked task leaves the directory alone. */
  datatype Ending = Done(archive: Content) | Failed(leftover: Option<Content>) | Panicked

  function FileOf(task: Task): string
  {
    match task
    case Install(m) => Filename(m)
    case Delete(m) => Filename(m)
    case Metadata(file, _) => file
  }

  datatype Effect = Write(content: Content) | Erase | Nothing

  function EffectOf(task: Task, ending: Ending): Effect
  {
    match task
    case Metadata(_, content) => Write(content)
    case Install(_) =>
      (match ending
       case Done(archive) => Write(archive)
       case Failed(Some(leftover)) => Write(leftover)
       case Failed(None) => Nothing
       case Panicked => Nothing)
    case Delete(_) => if ending.Done? then Erase else Nothing
  }

  function Perform(files: Files, task: Task, ending: Ending): Files
  {
    match EffectOf(task, ending)
    case Write(content) => files[FileOf(task) := content]
    case Erase => files - {FileOf(task)}
    case Nothing => files
  }

  /** What is left at `f` once the tasks in `done` have ended, said without an order: the effect
      of the task that owns the file, or the file as it was. */
  ghost predicate LeavesAt(before: Files, files: Files, done: set<Task>, endings: Task -> Ending, f: string)
  {
    && ((forall t :: t in done ==> FileOf(t) != f) ==>
          (f in files <==> f in before) && (f in files ==> files[f] == before[f]))
    && (forall t :: t in done && FileOf(t) == f ==>
          match EffectOf(t, endings(t))
          case Write(content) => f in files && files[f] == content
          case Erase => f !in files
          case Nothing => (f in files <==> f in before) && (f in files ==> files[f] == before[f]))
  }

  ghost predicate Leaves(before: Files, files: Files, done: set<Task>, endings: Task -> Ending)
  {
    forall f :: LeavesAt(before, files, done, endings, f)
  }

  ghost predicate Independent(tasks: set<Task>)
  {
    forall t, u :: t in tasks && u in tasks && t != u ==> FileOf(t) != FileOf(u)
  }

  /** The order-free description determines the directory. */
  lemma LeavesDetermines(before: Files, a: Files, b: Files, tasks: set<Task>, endings: Task -> Ending)
    requires Leaves(before, a, tasks, endings) && Leaves(before, b, tasks, endings)
    ensures a == b
  {
    forall f ensures (f in a <==> f in b) && (f in a ==> a[f] == b[f]) {
      assert LeavesAt(before, a, tasks, endings, f) && LeavesAt(before, b, tasks, endings, f);
      if t :| t in tasks && FileOf(t) == f {
        var effect := EffectOf(t, endings(t));
      }
    }
  }

  lemma OneMoreTask(before: Files, files: Files, done: set<Task>, endings: Task -> Ending, t: Task)
    requires t !in done && Independent(done + {t})
    requires Leaves(before, files, done, endings)
    ensures Leaves(before, Perform(files, t, endings(t)), done + {t}, endings)
  {
    forall f ensures LeavesAt(before, Perform(files, t, endings(t)), done + {t}, endings, f) {
      assert LeavesAt(before, files, done, endings, f);
      assert t in done + {t};
    }
  }

  /** The spawned tasks of `apply` for one delta, and the metadata it writes meanwhile. */
  function Tasks(install: set<Mod>, delete: set<Mod>, metadata: map<string, Content>): set<Task>
  {
    (set m | m in install :: Install(m)) + (set m | m in delete :: Delete(m))
    + (set f | f in metadata :: Metadata(f, metadata[f]))
  }

  lemma TasksAreIndependent(install: set<Mod>, delete: set<Mod>, metadata: map<string, Content>)
    requires forall m :: m in install || m in delete ==> WellFormed(m)
    requires install !! delete && metadata.Keys <= {MOD_LIST, MOD_SETTINGS}
    ensures Independent(Tasks(install, delete, metadata))
  {
    var tasks := Tasks(install, delete, metadata);
    forall t, u | t in tasks && u in tasks && t != u ensures FileOf(t) != FileOf(u) {
      if !t.Metadata? {
        MetadataIsNoMod(t.m);
        if !u.Metadata? {
          FilenamesDiffer(t.m, u.m);
        }
      } else if !u.Metadata? {
        MetadataIsNoMod(u.m);
      }
    }
  }

  /** The mods the directory holds afterwards, whatever each task's ending was: the desired ones,
      less the installs that left no file, plus the deletions that did not happen. */
  function ModsLeft(desired: set<Mod>, install: set<Mod>, delete: set<Mod>, endings: Task -> Ending): set<Mod>
  {
    (desired - (set m | m in install && LeavesNoFile(endings(Install(m)))))
    + (set m | m in delete && !endings(Delete(m)).Done?)
  }

  /** An install that ends this way leaves no archive. */
  predicate LeavesNoFile(ending: Ending) { ending.Panicked? || ending == Failed(None) }

  /** What was left by the tasks for one delta. */
  ghost predicate LeftByDelta(before: Files, files: Files, desired: set<Mod>, install: set<Mod>, delete: set<Mod>,
                              metadata: map<string, Content>, endings: Task -> Ending)
  {
    && (forall m :: m in desired ==> WellFormed(m))
    && install == desired - InstalledMods(before) && delete == InstalledMods(before) - desired
    && metadata.Keys <= {MOD_LIST, MOD_SETTINGS}
    && Leaves(before, files, Tasks(install, delete, metadata), endings)
  }

  lemma ReadsBack(before: Files, files: Files, desired: set<Mod>, install: set<Mod>, delete: set<Mod>,
                  metadata: map<string, Content>, endings: Task -> Ending)
    requires LeftByDelta(before, files, desired, install, delete, metadata, endings)
    ensures InstalledMods(files) == ModsLeft(desired, install, delete, endings)
  {
    forall m ensures m in InstalledMods(files) <==> m in ModsLeft(desired, install, delete, endings) {
      if m in install { InstallReadsBack(before, files, desired, install, delete, metadata, endings, m); }
      else if m in delete { DeleteReadsBack(before, files, desired, install, delete, metadata, endings, m); }
      else { OtherReadsBack(before, files, desired, install, delete, metadata, endings, m); }
    }
  }

  lemma InstallReadsBack(before: Files, files: Files, desired: set<Mod>, install: set<Mod>, delete: set<Mod>,
                         metadata: map<string, Content>, endings: Task -> Ending, m: Mod)
    requires LeftByDelta(before, files, desired, install, delete, metadata, endings) && m in install
    ensures m in InstalledMods(files) <==> !LeavesNoFile(endings(Install(m)))
  {
    InstalledIff(before, m);
    InstalledIff(files, m);
    assert Install(m) in Tasks(install, delete, metadata);
    assert LeavesAt(before, files, Tasks(install, delete, metadata), endings, Filename(m));
  }

  lemma DeleteReadsBack(before: Files, files: Files, desired: set<Mod>, install: set<Mod>, delete: set<Mod>,
                        metadata: map<string, Content>, endings: Task -> Ending, m: Mod)
    requires LeftByDelta(before, files, desired, install, delete, metadata, endings) && m in delete
    ensures m in InstalledMods(files) <==> !endings(Delete(m)).Done?
  {
    InstalledIff(before, m);
    InstalledIff(files, m);
    assert Delete(m) in Tasks(install, delete, metadata);
    assert LeavesAt(before, files, Tasks(install, delete, metadata), endings, Filename(m));
  }

  lemma OtherReadsBack(before: Files, files: Files, desired: set<Mod>, install: set<Mod>, delete: set<Mod>,
                       metadata: map<string, Content>, endings: Task -> Ending, m: Mod)
    requires LeftByDelta(before, files, desired, install, delete, metadata, endings) && m !in install && m !in delete
    ensures m in InstalledMods(files) <==> m in InstalledMods(before)
  {
    InstalledIff(before, m);
    InstalledIff(files, m);
    var tasks := Tasks(install, delete, metadata);
    if WellFormed(m) {
      forall t | t in tasks ensures FileOf(t) != Filename(m) {
        MetadataIsNoMod(m);
        if !t.Metadata? {
          InstalledIff(before, t.m);
          FilenamesDiffer(t.m, m);
        }
      }
      assert LeavesAt(before, files, tasks, endings, Filename(m));
    }
  }

  // ---- Applying --------------------------------------------------------------------------

  function RunTasks(files: Files, order: seq<Task>, endings: Task -> Ending): Files
  {
    if order == [] then files
    else
      var last := order[|order| - 1];
      Perform(RunTasks(files, order[..|order| - 1], endings), last, endings(last))
  }

  lemma {:induction false} RunLeaves(before: Files, order: seq<Task>, endings: Task -> Ending)
    requires Independent(AsSet(order))
    requires forall i, j :: 0 <= i < j < |order| ==> order[i] != order[j]
    ensures Leaves(before, RunTasks(before, order, endings), AsSet(order), endings)
    decreases |order|
  {
    if order != [] {
      var rest, last := order[..|order| - 1], order[|order| - 1];
      assert AsSet(order) == AsSet(rest) + {last};
      assert forall t :: t in AsSet(rest) ==> t in AsSet(order);
      RunLeaves(before, rest, endings);
      OneMoreTask(before, RunTasks(before, rest, endings), AsSet(rest), endings, last);
    } else {
      forall f ensures LeavesAt(before, before, {}, endings, f) {}
    }
  }

  /** Every completion order of the same tasks leaves the same directory, whatever their endings. */
  lemma AnyOrderSameDirectory(before: Files, a: seq<Task>, b: seq<Task>, endings: Task -> Ending)
    requires AsSet(a) == AsSet(b) && Independent(AsSet(a))
    requires forall i, j :: 0 <= i < j < |a| ==> a[i] != a[j]
    requires forall i, j :: 0 <= i < j < |b| ==> b[i] != b[j]
    ensures RunTasks(before, a, endings) == RunTasks(before, b, endings)
  {
    RunLeaves(before, a, endings);
    RunLeaves(before, b, endings);
    LeavesDetermines(before, RunTasks(before, a, endings), RunTasks(before, b, endings), AsSet(a), endings);
  }

  class ModDirectory {
    var files: Files

    constructor (files: Files)
      ensures this.files == files
    {
      this.files := files;
    }

    /** `apply`: reads the directory, spawns a task per change, writes the metadata while they
        run, and reports the failures. Tasks end in an arbitrary order. */
    method Apply(desired: seq<Mod>, metadata: map<string, Content>, endings: Task -> Ending) returns (ok: bool)
      requires metadata.Keys <= {MOD_LIST, MOD_SETTINGS}
      modifies this
      ensures ok <==> forall t :: t in ApplyTasks(old(files), AsSet(desired), metadata) && !t.Metadata? ==>
          !endings(t).Failed?
      ensures (forall m :: m in AsSet(desired) ==> WellFormed(m)) ==>
                IsApplied(old(files), files, AsSet(desired), metadata, endings)
    {
      var currentlyInstalled := ReadMods(files);
      var install, delete := CalculateModDelta(currentlyInstalled, desired);
      ghost var tasks := Tasks(install, delete, metadata);
      ghost var before := files;
      ghost var wellFormed := forall m :: m in AsSet(desired) ==> WellFormed(m);
      ghost var done: set<Task> := {};
      var pending := Tasks(install, delete, metadata);
      ok := true;
      if wellFormed {
        forall m | m in install || m in delete ensures WellFormed(m) { InstalledIff(files, m); }
        TasksAreIndependent(install, delete, metadata);
        forall f ensures LeavesAt(before, files, {}, endings, f) {}
      }
      while pending != {}
        invariant pending <= tasks && done == tasks - pending
        invariant ok <==> forall t :: t in done && !t.Metadata? ==> !endings(t).Failed?
        invariant wellFormed ==> Independent(tasks) && Leaves(before, files, done, endings)
      {
        var t :| t in pending;
        if wellFormed {
          assert done + {t} <= tasks;
          OneMoreTask(before, files, done, endings, t);
        }
        files := Perform(files, t, endings(t));
        if !t.Metadata? && endings(t).Failed? {
          ok := false;
        }
        done := done + {t};
        pending := pending - {t};
      }
      assert done == tasks;
    }
  }

  /** The tasks of applying `desired` to a directory. */
  function ApplyTasks(before: Files, desired: set<Mod>, metadata: map<string, Content>): set<Task>
  {
    Tasks(desired - InstalledMods(before), InstalledMods(before) - desired, metadata)
  }

  /** `files` is what applying expressible mods to `before` leaves. */
  ghost predicate IsApplied(before: Files, files: Files, desired: set<Mod>, metadata: map<string, Content>,
                            endings: Task -> Ending)
  {
    && (forall m :: m in desired ==> WellFormed(m))
    && metadata.Keys <= {MOD_LIST, MOD_SETTINGS}
    && Leaves(before, files, ApplyTasks(before, desired, metadata), endings)
  }

  ghost predicate AllDone(tasks: set<Task>, endings: Task -> Ending)
  {
    forall t :: t in tasks && !t.Metadata? ==> endings(t).Done?
  }

  /** When no task fails or panics, reading back gives exactly the desired mods, so applying
      again has nothing to install and nothing to delete. */
  lemma AppliedExactly(before: Files, files: Files, desired: set<Mod>, metadata: map<string, Content>,
                       endings: Task -> Ending)
    requires IsApplied(before, files, desired, metadata, endings)
    requires AllDone(ApplyTasks(before, desired, metadata), endings)
    ensures InstalledMods(files) == desired
    ensures ApplyTasks(files, desired, map[]) == {}
  {
    var install, delete := desired - InstalledMods(before), InstalledMods(before) - desired;
    var tasks := ApplyTasks(before, desired, metadata);
    ReadsBack(before, files, desired, install, delete, metadata, endings);
    forall m | m in install ensures endings(Install(m)).Done? { assert Install(m) in tasks; }
    forall m | m in delete ensures endings(Delete(m)).Done? { assert Delete(m) in tasks; }
  }

  /** What is in the directory afterwards: the metadata files as given, whatever happened to the tasks;
      the archive of each mod that was downloaded; and what a failed download left behind. */
  lemma AppliedContents(before: Files, files: Files, desired: set<Mod>, metadata: map<string, Content>,
                        endings: Task -> Ending)
    requires IsApplied(before, files, desired, metadata, endings)
    ensures forall f :: f in metadata ==> f in files && files[f] == metadata[f]
    ensures forall m :: m in desired && m !in InstalledMods(before) ==>
      match endings(Install(m))
      case Done(archive) => Filename(m) in files && files[Filename(m)] == archive
      case Failed(Some(leftover)) => Filename(m) in files && files[Filename(m)] == leftover
      case _ => Filename(m) !in files
  {
    var tasks := ApplyTasks(before, desired, metadata);
    forall f | f in metadata ensures f in files && files[f] == metadata[f] {
      assert Metadata(f, metadata[f]) in tasks && LeavesAt(before, files, tasks, endings, f);
    }
    forall m | m in desired && m !in InstalledMods(before)
      ensures match endings(Install(m))
              case Done(archive) => Filename(m) in files && files[Filename(m)] == archive
              case Failed(Some(leftover)) => Filename(m) in files && files[Filename(m)] == leftover
              case _ => Filename(m) !in files
    {
      InstalledIff(before, m);
      assert Install(m) in tasks && LeavesAt(before, files, tasks, endings, Filename(m));
    }
  }

  predicate SameAt(before: Files, files: Files, f: string)
  {
    (f in files <==> f in before) && (f in files ==> files[f] == before[f])
  }

  /** Whatever happens to the tasks, a file that is no mod archive and no metadata is untouched,
      and so is the archive of a mod that was present and stays desired. */
  lemma UnrelatedFilesUntouched(before: Files, files: Files, desired: set<Mod>, metadata: map<string, Content>,
                                endings: Task -> Ending, f: string)
    requires IsApplied(before, files, desired, metadata, endings) && f !in metadata
    requires match TryFromFilename(f)
             case None => true
             case Some(m) => m in desired && m in InstalledMods(before)
    ensures SameAt(before, files, f)
  {
    var tasks := ApplyTasks(before, desired, metadata);
    PrintsBack(f);
    forall t | t in tasks ensures FileOf(t) != f {
      if !t.Metadata? {
        InstalledIff(before, t.m);
        ParsesBack(t.m);
      }
    }
    assert LeavesAt(before, files, tasks, endings, f);
  }

  /** An `apply` that reported success left the desired mods if and only if no task panicked: a
      panic is logged but not reported. */
  lemma OkIsExactWhen(before: Files, files: Files, desired: set<Mod>, metadata: map<string, Content>,
                      endings: Task -> Ending)
    requires IsApplied(before, files, desired, metadata, endings)
    requires forall t :: t in ApplyTasks(before, desired, metadata) && !t.Metadata? ==> !endings(t).Failed?
    ensures InstalledMods(files) == desired <==> AllDone(ApplyTasks(before, desired, metadata), endings)
  {
    var install, delete := desired - InstalledMods(before), InstalledMods(before) - desired;
    var tasks := ApplyTasks(before, desired, metadata);
    if t :| t in tasks && !t.Metadata? && !endings(t).Done? {
      ReadsBack(before, files, desired, install, delete, metadata, endings);
      assert t.m in install <==> t.Install?;
      assert t.m in InstalledMods(files) <==> t.m !in desired;
    } else {
      AppliedExactly(before, files, desired, metadata, endings);
    }
  }

  /** Applying one mod to an empty directory with its install panicking: no task returned an error,
      so success is reported, and the directory has no mod. */
  lemma PanicIsReportedAsSuccess(m: Mod, files: Files, endings: Task -> Ending)
    requires WellFormed(m) && endings(Install(m)).Panicked?
    requires IsApplied(map[], files, {m}, map[], endings)
    ensures Install(m) in ApplyTasks(map[], {m}, map[])
    ensures forall t :: t in ApplyTasks(map[], {m}, map[]) && !t.Metadata? ==> !endings(t).Failed?
    ensures InstalledMods(files) == {}
  {
    assert InstalledMods(map[]) == {};
    ReadsBack(map[], files, {m}, {m}, {}, map[], endings);
  }

  // ---- The mod list ----------------------------------------------------------------------

  function DlcName(d: Dlc): string
  {
    match d
    case Base => "base"
    case ElevatedRails => "elevated-rails"
    case Quality => "quality"
    case SpaceAge => "space-age"
  }

  lemma DlcNamesDiffer(d: Dlc, e: Dlc)
    ensures DlcName(d) == DlcName(e) ==> d == e
  {
    assert |DlcName(Base)| == 4 && |DlcName(ElevatedRails)| == 14 && |DlcName(Quality)| == 7
        && |DlcName(SpaceAge)| == 9;
  }

  /** `Dlc::from_str`. */
  function DlcOf(name: string): Option<Dlc>
  {
    if exists d :: DlcName(d) == name then
      assert forall d, e :: DlcName(d) == DlcName(e) ==> d == e by {
        forall d, e ensures DlcName(d) == DlcName(e) ==> d == e { DlcNamesDiffer(d, e); }
      }
      var d :| DlcName(d) == name;
      Some(d)
    else None
  }

  lemma DlcOfName(d: Dlc)
    ensures DlcOf(DlcName(d)) == Some(d)
  {
    var e :| DlcName(e) == DlcName(d) && DlcOf(DlcName(d)) == Some(e);
    DlcNamesDiffer(d, e);
  }

  /** `ModList::from`; `dlcs` is the DLC set in the order its hash set yields it. */
  function ModListFrom(dlcs: seq<Dlc>, mods: seq<Mod>): seq<ModListElem>
  {
    seq(|dlcs|, i requires 0 <= i < |dlcs| => ModListElem(DlcName(dlcs[i]), true, None))
    + seq(|mods|, i requires 0 <= i < |mods| => ModListElem(mods[i].name, true, Some(mods[i].version)))
  }

  /** The DLCs an element list enables. */
  function EnabledDlcs(elems: seq<ModListElem>): set<Dlc>
  {
    set e | e in elems && e.enabled && DlcOf(e.name).Some? :: DlcOf(e.name).value
  }

  /** `read_dlcs_from_mod_list`: `None` is the malformed-list error, when base is missing. */
  method ReadDlcsFromModList(elems: seq<ModListElem>) returns (r: Option<set<Dlc>>)
    ensures r == if Base in EnabledDlcs(elems) then Some(EnabledDlcs(elems)) else None
  {
    var dlcs: set<Dlc> := {};
    for i := 0 to |elems|
      invariant dlcs == EnabledDlcs(elems[..i])
    {
      var d := DlcOf(elems[i].name);
      assert elems[..i + 1] == elems[..i] + [elems[i]];
      assert EnabledDlcs(elems[..i + 1]) == EnabledDlcs(elems[..i]) + EnabledDlcs([elems[i]]);
      if d.Some? && elems[i].enabled {
        assert elems[i] in [elems[i]];
        assert EnabledDlcs([elems[i]]) == {d.value};
        dlcs := dlcs + {d.value};
      }
    }
    assert elems[..|elems|] == elems;
    return if Base !in dlcs then None else Some(dlcs);
  }

  /** A DLC is read from a list exactly when an enabled element has its name. */
  lemma EnabledIsNamed(elems: seq<ModListElem>, d: Dlc)
    ensures d in EnabledDlcs(elems) <==> exists e :: e in elems && e.enabled && e.name == DlcName(d)
  {
    DlcOfName(d);
    if d in EnabledDlcs(elems) {
      var e :| e in elems && e.enabled && DlcOf(e.name) == Some(d);
      var named :| DlcName(named) == e.name && DlcOf(e.name) == Some(named);
      assert e.name == DlcName(d);
    }
  }

  /** The list that is written has exactly the DLCs, without a version, and the mods, each with its
      version; all of them enabled. */
  lemma ListedExactly(dlcs: seq<Dlc>, mods: seq<Mod>, e: ModListElem)
    ensures e in ModListFrom(dlcs, mods)
       <==> e.enabled && ((e.version.None? && exists d :: d in dlcs && DlcName(d) == e.name)
                          || (e.version.Some? && Mod(e.name, e.version.value) in mods))
  {
    var elems := ModListFrom(dlcs, mods);
    if d :| d in dlcs && DlcName(d) == e.name && e == ModListElem(e.name, true, None) {
      var i :| 0 <= i < |dlcs| && dlcs[i] == d;
      assert elems[i] == e;
    }
    if e.enabled && e.version.Some? && Mod(e.name, e.version.value) in mods {
      var i :| 0 <= i < |mods| && mods[i] == Mod(e.name, e.version.value);
      assert elems[|dlcs| + i] == e;
    }
    if e in elems {
      var i :| 0 <= i < |elems| && elems[i] == e;
      if i < |dlcs| { assert dlcs[i] in dlcs; } else { assert mods[i - |dlcs|] in mods; }
    }
  }

  /** Writing the mod list and reading the DLCs back gives the same set if and only if every mod
      that shares its name with a DLC names one already in the set. */
  lemma DlcsReadBackExactlyWhen(dlcs: seq<Dlc>, mods: seq<Mod>)
    ensures EnabledDlcs(ModListFrom(dlcs, mods)) == AsSet(dlcs)
       <==> forall m :: m in mods && DlcOf(m.name).Some? ==> DlcOf(m.name).value in dlcs
  {
    var elems := ModListFrom(dlcs, mods);
    forall d | d in dlcs ensures d in EnabledDlcs(elems) {
      var i :| 0 <= i < |dlcs| && dlcs[i] == d;
      DlcOfName(d);
      assert elems[i] in elems;
    }
    forall m | m in mods && DlcOf(m.name).Some? ensures DlcOf(m.name).value in EnabledDlcs(elems) {
      var i :| 0 <= i < |mods| && mods[i] == m;
      assert elems[|dlcs| + i] in elems && elems[|dlcs| + i].name == m.name;
    }
    forall d | d in EnabledDlcs(elems) ensures d in dlcs || exists m :: m in mods && DlcOf(m.name) == Some(d) {
      var e :| e in elems && e.enabled && DlcOf(e.name) == Some(d);
      var i :| 0 <= i < |elems| && elems[i] == e;
      if i < |dlcs| {
        DlcOfName(dlcs[i]);
      } else {
        assert mods[i - |dlcs|] in mods;
      }
    }
  }

  /** After any apply that was given this mod list, however its tasks ended, the file holds the list, and
      the DLCs read from it are those written unless a mod names another one. */
  lemma DlcsAfterApply(before: Files, files: Files, desired: set<Mod>, metadata: map<string, Content>,
                       endings: Task -> Ending, dlcs: seq<Dlc>, mods: seq<Mod>)
    requires IsApplied(before, files, desired, metadata, endings)
    requires MOD_LIST in metadata && metadata[MOD_LIST] == Json(ModListFrom(dlcs, mods))
    ensures MOD_LIST in files && files[MOD_LIST].Json?
    ensures EnabledDlcs(files[MOD_LIST].elems) == AsSet(dlcs)
       <==> forall m :: m in mods && DlcOf(m.name).Some? ==> DlcOf(m.name).value in dlcs
  {
    AppliedContents(before, files, desired, metadata, endings);
    DlcsReadBackExactlyWhen(dlcs, mods);
  }

  /** A mod called "space-age", listed beside the base game, is read back as that DLC. */
  lemma ModReadAsDlc(version: string)
    ensures EnabledDlcs(ModListFrom([Base], [Mod("space-age", version)])) == {Base, SpaceAge}
    ensures {Base, SpaceAge} != AsSet([Base])
  {
    var m := Mod("space-age", version);
    var elems := ModListFrom([Base], [m]);
    DlcOfName(SpaceAge);
    DlcOfName(Base);
    assert elems == [ModListElem("base", true, None), ModListElem("space-age", true, Some(version))];
    assert elems[0] in elems && elems[1] in elems;
    assert SpaceAge in {Base, SpaceAge} && SpaceAge !in AsSet([Base]);
  }
}
