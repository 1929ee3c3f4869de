/** One RocksDB column family as records in ascending key order, and the range reads over it
    (src/mgmt-server/db.rs). */
module SortedStore {
  import opened Basics
  import opened ByteOrder

  datatype Record<+V> = Record(key: string, value: V)

  datatype Direction = Forward | Backward

  /** `rocksdb::IteratorMode`. */
  datatype Mode = Start | End | From(key: string, direction: Direction)

  /** `ReadRange`: a page and the key it continues from. */
  datatype Page<+V> = Page(records: seq<Record<V>>, continueFrom: Option<string>)

  ghost predicate Sorted<V>(s: seq<Record<V>>)
  {
    forall i, j {:trigger Less(s[i].key, s[j].key)} :: 0 <= i < j < |s| ==> Less(s[i].key, s[j].key)
  }

  // ---- Writing ---------------------------------------------------------------------------

  /** `put_cf`: replaces the value of an existing key, otherwise inserts in key order. */
  function Put<V>(s: seq<Record<V>>, key: string, value: V): seq<Record<V>>
  {
    if s == [] || Less(key, s[0].key) then [Record(key, value)] + s
    else if s[0].key == key then [Record(key, value)] + s[1..]
    else [s[0]] + Put(s[1..], key, value)
  }

  ghost function Contents<V>(s: seq<Record<V>>): map<string, V>
  {
    if s == [] then map[] else Contents(s[1..])[s[0].key := s[0].value]
  }

  lemma {:induction false} PutMembers<V>(s: seq<Record<V>>, key: string, value: V, r: Record<V>)
    requires Sorted(s)
    ensures r in Put(s, key, value) <==> r == Record(key, value) || (r in s && r.key != key)
  {
    if s == [] {
    } else if Less(key, s[0].key) {
      if r in s && r.key == key {
        var i :| 0 <= i < |s| && s[i] == r;
        if i > 0 { Transitive(key, s[0].key, s[i].key); }
        Irreflexive(key);
      }
    } else if s[0].key == key {
      if r in s[1..] {
        var i :| 1 <= i < |s| && s[i] == r;
        Irreflexive(key);
      }
      assert r in s <==> r == s[0] || r in s[1..];
    } else {
      PutMembers(s[1..], key, value, r);
      assert r in s <==> r == s[0] || r in s[1..];
    }
  }

  lemma {:induction false} PutKeepsSorted<V>(s: seq<Record<V>>, key: string, value: V)
    requires Sorted(s)
    ensures Sorted(Put(s, key, value))
  {
    var p := Put(s, key, value);
    if s == [] {
    } else if Less(key, s[0].key) {
      forall j | 0 < j < |s| ensures Less(key, s[j].key) { Transitive(key, s[0].key, s[j].key); }
    } else if s[0].key == key {
    } else {
      Trichotomy(s[0].key, key);
      PutKeepsSorted(s[1..], key, value);
      forall j | 0 < j < |p| ensures Less(p[0].key, p[j].key) {
        PutMembers(s[1..], key, value, p[j]);
        assert p[j] in Put(s[1..], key, value);
      }
    }
  }

  /** Writing is a map update. */
  lemma {:induction false} PutUpdates<V>(s: seq<Record<V>>, key: string, value: V)
    requires Sorted(s)
    ensures Contents(Put(s, key, value)) == Contents(s)[key := value]
  {
    if s != [] && !Less(key, s[0].key) && s[0].key != key {
      PutUpdates(s[1..], key, value);
    }
  }

  // ---- Iterating -------------------------------------------------------------------------

  function Reverse<T>(s: seq<T>): (r: seq<T>)
    ensures |r| == |s| && forall i :: 0 <= i < |s| ==> r[i] == s[|s| - 1 - i]
  {
    seq(|s|, i requires 0 <= i < |s| => s[|s| - 1 - i])
  }

  /** How many records have a key before `key`: an inclusive forward seek lands here. */
  function CountBelow<V>(s: seq<Record<V>>, key: string): (n: nat)
    ensures n <= |s|
  {
    if s == [] || !Less(s[0].key, key) then 0 else 1 + CountBelow(s[1..], key)
  }

  /** How many records have a key at or before `key`: an inclusive reverse seek ends here. */
  function CountUpTo<V>(s: seq<Record<V>>, key: string): (n: nat)
    ensures n <= |s|
  {
    if s == [] || Less(key, s[0].key) then 0 else 1 + CountUpTo(s[1..], key)
  }

  /** Everything the iterator would yield. */
  function Scan<V>(s: seq<Record<V>>, mode: Mode): seq<Record<V>>
  {
    match mode
    case Start => s
    case End => Reverse(s)
    case From(key, Forward) => s[CountBelow(s, key)..]
    case From(key, Backward) => Reverse(s[..CountUpTo(s, key)])
  }

  lemma {:induction false} CountBelowSplits<V>(s: seq<Record<V>>, key: string)
    requires Sorted(s)
    ensures forall i :: 0 <= i < |s| ==> (i < CountBelow(s, key) <==> Less(s[i].key, key))
  {
    if s != [] {
      if Less(s[0].key, key) {
        CountBelowSplits(s[1..], key);
        assert forall i :: 0 < i < |s| ==> s[i] == s[1..][i - 1];
      } else {
        forall i | 0 < i < |s| ensures !Less(s[i].key, key) {
          if Less(s[i].key, key) { Transitive(s[0].key, s[i].key, key); }
        }
      }
    }
  }

  lemma {:induction false} CountUpToSplits<V>(s: seq<Record<V>>, key: string)
    requires Sorted(s)
    ensures forall i :: 0 <= i < |s| ==> (i < CountUpTo(s, key) <==> !Less(key, s[i].key))
  {
    if s != [] {
      if !Less(key, s[0].key) {
        CountUpToSplits(s[1..], key);
        assert forall i :: 0 < i < |s| ==> s[i] == s[1..][i - 1];
      } else {
        forall i | 0 < i < |s| ensures Less(key, s[i].key) { Transitive(key, s[0].key, s[i].key); }
      }
    }
  }

  /** Seeking to the key of record `n` starts exactly at record `n`, in either direction. */
  lemma SeekLands<V>(s: seq<Record<V>>, n: nat)
    requires Sorted(s) && n < |s|
    ensures CountBelow(s, s[n].key) == n
    ensures CountUpTo(s, s[n].key) == n + 1
  {
    var key := s[n].key;
    CountBelowSplits(s, key);
    CountUpToSplits(s, key);
    Irreflexive(key);
    var below, upTo := CountBelow(s, key), CountUpTo(s, key);
    assert below == |s| || !Less(s[below].key, key);
    assert upTo == |s| || Less(key, s[upTo].key);
  }

  /** A seek yields exactly the records at or past the key, in the asked direction and order. */
  lemma SeekYields<V>(s: seq<Record<V>>, key: string, direction: Direction)
    requires Sorted(s)
    ensures var scan := Scan(s, From(key, direction));
      && (forall i :: 0 <= i < |scan| ==> scan[i] in s && !Precedes(direction, scan[i].key, key))
      && (forall r :: r in s && !Precedes(direction, r.key, key) ==> r in scan)
      && (forall i, j :: 0 <= i < j < |scan| ==> Precedes(direction, scan[i].key, scan[j].key))
  {
    CountBelowSplits(s, key);
    CountUpToSplits(s, key);
    var scan := Scan(s, From(key, direction));
    forall r | r in s && !Precedes(direction, r.key, key) ensures r in scan {
      var i :| 0 <= i < |s| && s[i] == r;
      if direction.Forward? {
        assert scan[i - CountBelow(s, key)] == r;
      } else {
        assert scan[CountUpTo(s, key) - 1 - i] == r;
      }
    }
  }

  /** Reading from the head or the tail sees every record, in ascending or descending key order. */
  lemma EndsYield<V>(s: seq<Record<V>>, mode: Mode)
    requires Sorted(s) && (mode.Start? || mode.End?)
    ensures var scan := Scan(s, mode);
      && |scan| == |s| && (forall r :: r in scan <==> r in s)
      && (forall i, j :: 0 <= i < j < |scan| ==> if mode.Start? then Less(scan[i].key, scan[j].key)
                                                 else Less(scan[j].key, scan[i].key))
  {
    var scan := Scan(s, mode);
    forall r | r in s ensures r in scan {
      var i :| 0 <= i < |s| && s[i] == r;
      assert scan[if mode.Start? then i else |s| - 1 - i] == r;
    }
  }

  predicate Precedes(direction: Direction, a: string, b: string)
  {
    if direction.Forward? then Less(a, b) else Less(b, a)
  }

  // ---- Paging ----------------------------------------------------------------------------

  /** The first `count` records of a scan, and the key of the one after them. */
  function FirstPage<V>(scan: seq<Record<V>>, count: nat): Page<V>
  {
    if |scan| <= count then Page(scan, None)
    else if count == 0 then Page([], None)
    else Page(scan[..count], Some(scan[count].key))
  }

  /** `read_range_internal`: pull up to `count` records, then one more for the continuation. */
  method ReadRangeInternal<V>(scan: seq<Record<V>>, count: nat) returns (page: Page<V>)
    ensures page == FirstPage(scan, count)
  {
    var next := 0;
    var continueFrom: Option<string> := None;
    var records: seq<Record<V>> := [];
    var i := 0;
    while i < count
      invariant 0 <= i <= count
      invariant next <= |scan|
      invariant i < count ==> next == i && records == scan[..i] && continueFrom == None
      invariant i == count ==> Page(records, continueFrom) == FirstPage(scan, count)
    {
      if next < |scan| {
        records := records + [scan[next]];
        next := next + 1;
      } else {
        break;
      }
      if i == count - 1 {
        if next < |scan| {
          continueFrom := Some(scan[next].key);
          next := next + 1;
        }
      }
      i := i + 1;
    }
    return Page(records, continueFrom);
  }

  function DirectionOf(mode: Mode): Direction
  {
    match mode
    case Start => Forward
    case End => Backward
    case From(_, d) => d
  }

  /** A scan is a suffix of the store, or the reverse of a prefix. */
  lemma ScanShape<V>(s: seq<Record<V>>, mode: Mode)
    ensures |Scan(s, mode)| <= |s|
    ensures Scan(s, mode) == if DirectionOf(mode).Forward? then s[|s| - |Scan(s, mode)|..]
                                                          else Reverse(s[..|Scan(s, mode)|])
  {
    if mode.Start? { assert s[0..] == s; }
    if mode.End? { assert s[..|s|] == s; }
  }

  lemma ResumesForward<V>(s: seq<Record<V>>, mode: Mode, count: nat)
    requires Sorted(s) && DirectionOf(mode).Forward? && count < |Scan(s, mode)|
    ensures Scan(s, From(Scan(s, mode)[count].key, Forward)) == Scan(s, mode)[count..]
  {
    var scan := Scan(s, mode);
    ScanShape(s, mode);
    var n := |s| - |scan| + count;
    assert scan[count] == s[n];
    SeekLands(s, n);
    assert s[n..] == scan[count..];
  }

  lemma ResumesBackward<V>(s: seq<Record<V>>, mode: Mode, count: nat)
    requires Sorted(s) && !DirectionOf(mode).Forward? && count < |Scan(s, mode)|
    ensures Scan(s, From(Scan(s, mode)[count].key, DirectionOf(mode))) == Scan(s, mode)[count..]
  {
    var scan := Scan(s, mode);
    ScanShape(s, mode);
    var n := |scan| - 1 - count;
    assert scan[count] == s[n];
    SeekLands(s, n);
    assert Reverse(s[..n + 1]) == scan[count..];
  }

  /** A continuation resumes the same scan, right after the page. */
  lemma ContinuationResumes<V>(s: seq<Record<V>>, mode: Mode, count: nat)
    requires Sorted(s)
    requires FirstPage(Scan(s, mode), count).continueFrom.Some?
    ensures var key := FirstPage(Scan(s, mode), count).continueFrom.value;
      Scan(s, From(key, DirectionOf(mode))) == Scan(s, mode)[count..]
  {
    if DirectionOf(mode).Forward? { ResumesForward(s, mode, count); } else { ResumesBackward(s, mode, count); }
  }

  /** Following continuations from any start, in either direction, stops and yields the scan:
      nothing lost, nothing repeated. */
  function FollowPages<V>(s: seq<Record<V>>, mode: Mode, count: nat): (all: seq<Record<V>>)
    requires Sorted(s) && count >= 1
    ensures all == Scan(s, mode)
    decreases |Scan(s, mode)|
  {
    var page := FirstPage(Scan(s, mode), count);
    match page.continueFrom
    case None => page.records
    case Some(key) =>
      ContinuationResumes(s, mode, count);
      page.records + FollowPages(s, From(key, DirectionOf(mode)), count)
  }

  // ---- The store as an object ------------------------------------------------------------

  /** `Db`: a family is created on first use, also when it is only read. */
  class Db<V> {
    var families: map<string, seq<Record<V>>>

    ghost predicate Valid()
      reads this
    {
      forall cf :: cf in families ==> Sorted(families[cf])
    }

    function Family(cf: string): seq<Record<V>>
      reads this
    {
      if cf in families then families[cf] else []
    }

    constructor ()
      ensures Valid() && families == map[]
    {
      families := map[];
    }

    /** `get_or_create_cf_handle`. */
    method GetOrCreate(cf: string)
      requires Valid()
      modifies this
      ensures Valid() && cf in families
      ensures forall f :: Family(f) == old(Family(f))
    {
      if cf !in families {
        families := families[cf := []];
      }
    }

    method Write(cf: string, key: string, value: V)
      requires Valid()
      modifies this
      ensures Valid()
      ensures Family(cf) == Put(old(Family(cf)), key, value)
      ensures forall f :: f != cf ==> Family(f) == old(Family(f))
    {
      GetOrCreate(cf);
      PutKeepsSorted(families[cf], key, value);
      families := families[cf := Put(families[cf], key, value)];
    }

    /** `read_range`, `read_range_head` and `read_range_tail` differ only in the iterator mode. */
    method ReadRange(cf: string, mode: Mode, count: nat) returns (page: Page<V>)
      requires Valid()
      modifies this
      ensures Valid() && forall f :: Family(f) == old(Family(f))
      ensures page == FirstPage(Scan(Family(cf), mode), count)
    {
      GetOrCreate(cf);
      page := ReadRangeInternal(Scan(families[cf], mode), count);
    }
  }
}
