/** Mod archives are named `{name}_{version}.zip` (`MOD_FILENAME_RE`, src/schema.rs; printing and
    parsing in src/agent/server/mods.rs). Digits are the ASCII ones. */
module ModFilenames {
  import opened Basics

  datatype Mod = Mod(name: string, version: string)

  /** `\d+` followed by `groups` times `\.\d+`. */
  predicate DottedDigits(v: string, groups: nat)
    decreases |v|, 1
  {
    v != [] && IsDigit(v[0]) && MoreDigits(v[1..], groups)
  }

  predicate MoreDigits(v: string, groups: nat)
    decreases |v|, 0
  {
    if v == [] then groups == 0
    else if v[0] == '.' then groups > 0 && DottedDigits(v[1..], groups - 1)
    else IsDigit(v[0]) && MoreDigits(v[1..], groups)
  }

  predicate IsVersion(v: string) { DottedDigits(v, 2) }

  /** `\d+`. */
  predicate AllDigits(s: string) { s != [] && forall i :: 0 <= i < |s| ==> IsDigit(s[i]) }

  lemma {:induction false} DigitsThenDot(a: string, rest: string, groups: nat)
    requires AllDigits(a) && DottedDigits(rest, groups)
    ensures DottedDigits(a + "." + rest, groups + 1)
  {
    var v := a + "." + rest;
    if |a| == 1 {
      assert v[1..] == "." + rest && v[1..][1..] == rest;
    } else {
      DigitsThenDot(a[1..], rest, groups);
      assert v[1..] == a[1..] + "." + rest;
    }
  }

  lemma {:induction false} OnlyDigits(a: string)
    ensures DottedDigits(a, 0) <==> AllDigits(a)
  {
    if |a| > 1 {
      OnlyDigits(a[1..]);
      assert a[1..][0] == a[1] && forall i :: 0 < i < |a| ==> a[i] == a[1..][i - 1];
    }
  }

  lemma {:induction false} FirstGroup(v: string, groups: nat) returns (a: string, rest: string)
    requires DottedDigits(v, groups + 1)
    ensures AllDigits(a) && DottedDigits(rest, groups) && v == a + "." + rest
    decreases |v|
  {
    if v[1] == '.' {
      a, rest := v[..1], v[2..];
    } else {
      a, rest := FirstGroup(v[1..], groups);
      a := v[..1] + a;
    }
  }

  /** A version is three groups of digits with dots between them. */
  lemma IsThreeNumbers(v: string)
    ensures IsVersion(v)
       <==> exists a, b, c :: AllDigits(a) && AllDigits(b) && AllDigits(c) && v == a + "." + (b + "." + c)
  {
    if IsVersion(v) {
      var a, rest := FirstGroup(v, 1);
      var b, c := FirstGroup(rest, 0);
      OnlyDigits(c);
      assert v == a + "." + (b + "." + c);
    }
    forall a, b, c | AllDigits(a) && AllDigits(b) && AllDigits(c) && v == a + "." + (b + "." + c)
      ensures IsVersion(v)
    {
      OnlyDigits(c);
      DigitsThenDot(b, c, 0);
      DigitsThenDot(a, b + "." + c, 1);
    }
  }

  lemma {:induction false} NoUnderscore(v: string, groups: nat)
    ensures DottedDigits(v, groups) || MoreDigits(v, groups) ==> '_' !in v
    decreases |v|
  {
    if v != [] {
      NoUnderscore(v[1..], groups);
      if v[0] == '.' && groups > 0 { NoUnderscore(v[1..], groups - 1); }
    }
  }

  const SUFFIX := ".zip"

  function Filename(m: Mod): string { m.name + "_" + m.version + SUFFIX }

  /** `(.+)` takes one or more characters, none of them a newline. */
  predicate IsModName(name: string) { name != [] && '\n' !in name }

  /** A desired mod that the naming scheme can express. */
  predicate WellFormed(m: Mod) { IsModName(m.name) && IsVersion(m.version) }

  /** Where the last underscore is, or the length when there is none. */
  function LastUnderscore(s: string): (u: nat)
    ensures u <= |s|
    ensures u < |s| ==> s[u] == '_' && '_' !in s[u + 1..]
    ensures u == |s| ==> '_' !in s
  {
    if s == [] then 0
    else if s[|s| - 1] == '_' then |s| - 1
    else
      var u := LastUnderscore(s[..|s| - 1]);
      if u == |s| - 1 then
        assert s == s[..|s| - 1] + [s[|s| - 1]];
        |s|
      else
        assert s[u + 1..] == s[..|s| - 1][u + 1..] + [s[|s| - 1]];
        u
  }

  lemma {:induction false} LastUnderscoreIs(s: string, k: nat)
    requires k < |s| && s[k] == '_' && '_' !in s[k + 1..]
    ensures LastUnderscore(s) == k
  {
    if k < |s| - 1 {
      assert s[|s| - 1] == s[k + 1..][|s| - k - 2];
      var front := s[..|s| - 1];
      assert s[k + 1..] == front[k + 1..] + [s[|s| - 1]];
      LastUnderscoreIs(front, k);
    }
  }

  /** `Mod::try_from_filename`. */
  function TryFromFilename(s: string): Option<Mod>
  {
    if |s| < 4 || s[|s| - 4..] != SUFFIX then None
    else
      var stem := s[..|s| - 4];
      var u := LastUnderscore(stem);
      if u == |stem| then None
      else
        var m := Mod(stem[..u], stem[u + 1..]);
        if WellFormed(m) then Some(m) else None
  }

  /** Printing then parsing is the identity on exactly the well-formed mods. */
  lemma ParsesBack(m: Mod)
    ensures TryFromFilename(Filename(m)) == Some(m) <==> WellFormed(m)
  {
    if WellFormed(m) {
      var s := Filename(m);
      var stem := s[..|s| - 4];
      assert stem == m.name + "_" + m.version;
      NoUnderscore(m.version, 2);
      assert stem[|m.name| + 1..] == m.version;
      LastUnderscoreIs(stem, |m.name|);
      assert stem[..|m.name|] == m.name;
    }
  }

  /** Parsing then printing gives back the file name, so a file stands for one mod at most. */
  lemma PrintsBack(s: string)
    ensures TryFromFilename(s).Some? ==>
      WellFormed(TryFromFilename(s).value) && Filename(TryFromFilename(s).value) == s
  {
    if TryFromFilename(s).Some? {
      var stem := s[..|s| - 4];
      var u := LastUnderscore(stem);
      assert stem == stem[..u] + "_" + stem[u + 1..];
      assert s == stem + SUFFIX;
    }
  }

  /** The regular expression `(.+)_(\d+\.\d+\.\d+)\.zip`, as a relation: the split it finds is the only
      one there is. */
  lemma ParsesExactlyTheExpression(s: string, m: Mod)
    ensures TryFromFilename(s) == Some(m)
       <==> && s == m.name + "_" + m.version + ".zip" && |m.name| >= 1 && '\n' !in m.name
            && exists a, b, c :: AllDigits(a) && AllDigits(b) && AllDigits(c) && m.version == a + "." + (b + "." + c)
  {
    IsThreeNumbers(m.version);
    ParsesBack(m);
    PrintsBack(s);
  }

  lemma FilenamesDiffer(m: Mod, n: Mod)
    requires WellFormed(m) && WellFormed(n) && m != n
    ensures Filename(m) != Filename(n)
  {
    ParsesBack(m);
    ParsesBack(n);
  }
}
