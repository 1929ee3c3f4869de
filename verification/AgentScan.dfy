/** What the agent finds installed when it starts (`VersionManager::new`, src/agent/factorio.rs). */
module AgentScan {
  import opened Basics
  import opened AgentMachine

  const LEGACY_PREFIX := "factorio_headless_x64_"

  /** `strip_prefix` on a directory name. */
  function VersionOf(name: string): Option<Version>
  {
    if LEGACY_PREFIX <= name then Some(name[|LEGACY_PREFIX|..]) else None
  }

  /** The scan's loop, in whatever order the directories come. */
  method ScanInstallDir(names: set<string>) returns (versions: map<Version, Dir>)
    ensures forall v :: v in versions <==> LEGACY_PREFIX + v in names
    ensures forall v :: v in versions ==> DirText(versions[v]) == LEGACY_PREFIX + v && versions[v].version == v
  {
    versions := map[];
    var entries := names;
    ghost var done: set<string> := {};
    while entries != {}
      invariant done == names - entries && entries <= names
      invariant forall v :: v in versions <==> LEGACY_PREFIX + v in done
      invariant forall v :: v in versions ==> versions[v] == Dir(false, v)
    {
      var name :| name in entries;
      var version := VersionOf(name);
      if version.Some? {
        assert name == LEGACY_PREFIX + version.value;
        versions := versions[version.value := Dir(false, version.value)];
      }
      forall v | LEGACY_PREFIX + v == name ensures version == Some(v) {
        assert name[|LEGACY_PREFIX|..] == v;
      }
      done := done + {name};
      entries := entries - {name};
    }
  }

  /** The names of the installation directories. */
  function OnDisk(versions: map<Version, Dir>): set<string> { set v | v in versions :: DirText(versions[v]) }

  /** A directory of the modern scheme is not recognised. */
  lemma OnlyLegacyIsFound(d: Dir)
    ensures VersionOf(DirText(d)) == if d.modern then None else Some(d.version)
  {
    if d.modern { assert DirText(d)[8] == '-' && LEGACY_PREFIX[8] == '_'; }
    else { assert DirText(d)[|LEGACY_PREFIX|..] == d.version; }
  }

  /** The versions of the two numbering eras that the repository's own tests install. */
  lemma TwoEras()
    ensures DirText(InstallDir("2.0.28")) == "factorio-headless_linux_2.0.28"
    ensures DirText(InstallDir("1.1.104")) == "factorio_headless_x64_1.1.104"
  {
    assert "1.1.104"[0] == '1' && "1.1.104"[2] == '1' && "2."[0] == '2' && "1.2"[2] == '2';
    assert "2.0.28"[..2] == "2.";
  }

  /** A version is modern when it starts with 2. or with 1.2. */
  lemma ModernExactlyWhen(v: Version)
    ensures InstallDir(v).modern <==>
      (|v| >= 2 && v[0] == '2' && v[1] == '.') || (|v| >= 3 && v[0] == '1' && v[1] == '.' && v[2] == '2')
  {
    if |v| >= 2 { assert v[..2] == [v[0], v[1]]; }
    if |v| >= 3 { assert v[..3] == [v[0], v[1], v[2]]; }
  }

  /** An agent that is started again finds the versions that were installed if and only if none of them
      is of the modern scheme; the others are no longer seen. */
  lemma RestartFindsExactlyWhen(versions: map<Version, Dir>, found: map<Version, Dir>)
    requires forall v :: v in versions ==> versions[v] == InstallDir(v)
    requires forall v :: v in found <==> LEGACY_PREFIX + v in OnDisk(versions)
    requires forall v :: v in found ==> DirText(found[v]) == LEGACY_PREFIX + v && found[v].version == v
    ensures forall v :: v in found <==> v in versions && !IsNewFileScheme(v)
    ensures found == versions <==> forall v :: v in versions ==> !IsNewFileScheme(v)
  {
    forall v ensures v in found <==> v in versions && !IsNewFileScheme(v) {
      if LEGACY_PREFIX + v in OnDisk(versions) {
        var w :| w in versions && DirText(versions[w]) == LEGACY_PREFIX + v;
        OnlyLegacyIsFound(versions[w]);
        assert (LEGACY_PREFIX + v)[|LEGACY_PREFIX|..] == v;
      }
      if v in versions && !IsNewFileScheme(v) { assert DirText(versions[v]) == LEGACY_PREFIX + v; }
    }
    forall v | v in found ensures found[v] == Dir(false, v) { DirNamesDiffer(found[v], Dir(false, v)); }
    if forall v :: v in versions ==> !IsNewFileScheme(v) { assert found.Keys == versions.Keys; }
  }

  /** With 2.0.28 installed a new agent finds nothing, with 1.1.104 it finds just that. */
  method ModernVersionIsLost() returns (modern: map<Version, Dir>, legacy: map<Version, Dir>)
    ensures modern == map[] && legacy == map["1.1.104" := InstallDir("1.1.104")]
  {
    var v, w := "2.0.28", "1.1.104";
    assert v[..2] == "2." && w[2] == '1' && w[0] == '1' && "1.2"[2] == '2';
    ModernExactlyWhen(v);
    ModernExactlyWhen(w);
    modern := ScanInstallDir(OnDisk(map[v := InstallDir(v)]));
    RestartFindsExactlyWhen(map[v := InstallDir(v)], modern);
    legacy := ScanInstallDir(OnDisk(map[w := InstallDir(w)]));
    RestartFindsExactlyWhen(map[w := InstallDir(w)], legacy);
  }
}
