/** The metric route agrees with its reference, and exactly when following `next` is sound. */
module MetricRouteProofs {
  import opened ByteOrder
  import opened MetricKeys
  import opened Basics
  import opened SortedStore
  import opened MetricRoute

  /** Which ticks of the metric a lookup at `from` reaches: a number past `MAX_TICK` acts like
      its leading twelve digits, and forward it skips that tick. */
  predicate Reaches(direction: Direction, from: nat, t: nat)
  {
    if direction.Backward? then t <= Lead(from)
    else if from <= MAX_TICK then from <= t
    else Lead(from) < t
  }

  /** Where a stored key sorts against any lookup key of the same period. */
  lemma StoredAgainstLookup(period: Period, id: PointId, name: string, from: nat)
    requires ValidId(id) && ValidName(name)
    ensures var key, lookup := LookupKey(period, id.0, id.1), LookupKey(period, name, from);
      && (Less(key, lookup) <==> Less(Pad(id.0), Pad(name)) || (id.0 == name && !Reaches(Forward, from, id.1)))
      && (Less(lookup, key) <==> Less(Pad(name), Pad(id.0)) || (id.0 == name && !Reaches(Backward, from, id.1)))
  {
    KeyBlocks(period, id.0, id.1, name, from);
    KeyBlocks(period, name, from, id.0, id.1);
    if Pad(id.0) == Pad(name) { PadIsInjective(id.0, name); }
    TickTextOrder(id.1, from);
    Trichotomy(TickText(id.1), TickText(from));
    if Less(TickText(id.1), TickText(from)) { Asymmetric(TickText(id.1), TickText(from)); }
    Irreflexive(TickText(from));
  }

  predicate IsOf(name: string, r: Record<Stored>) { IdOf(r).0 == name }

  /** How many leading elements satisfy `p`. */
  function LeadingCount<T>(s: seq<T>, p: T -> bool): (n: nat)
    ensures n <= |s|
    ensures forall i :: 0 <= i < n ==> p(s[i])
    ensures n < |s| ==> !p(s[n])
  {
    if s == [] || !p(s[0]) then 0 else 1 + LeadingCount(s[1..], p)
  }

  /** How many leading records belong to the metric. */
  function MatchLength(scan: seq<Record<Stored>>, name: string): (n: nat)
    ensures n <= |scan|
    ensures forall i {:trigger IsOf(name, scan[i])} :: 0 <= i < n ==> IsOf(name, scan[i])
    ensures n < |scan| ==> !IsOf(name, scan[n])
  {
    LeadingCount(scan, (r: Record<Stored>) => IsOf(name, r))
  }

  /** The scan a lookup of `name` at `from` starts. */
  function Seek(s: seq<Record<Stored>>, period: Period, name: string, from: nat,
                direction: Direction): seq<Record<Stored>>
    requires |name| <= MAX_NAME
  {
    Scan(s, From(LookupKey(period, name, from), direction))
  }

  /** What a scanned record can be: a reached point of the metric, or one of a metric that
      comes later in the asked direction. */
  lemma ScannedRecord(period: Period, s: seq<Record<Stored>>, points: map<PointId, real>,
                      name: string, from: nat, direction: Direction, i: nat)
    requires Mirrors(period, s, points) && ValidName(name)
    requires i < |Seek(s, period, name, from, direction)|
    ensures var r := Seek(s, period, name, from, direction)[i];
      && Holds(period, r, points)
      && (if IsOf(name, r) then Reaches(direction, from, IdOf(r).1)
          else Precedes(direction, Pad(name), Pad(IdOf(r).0)))
  {
    SeekYields(s, LookupKey(period, name, from), direction);
    var r := Seek(s, period, name, from, direction)[i];
    var k :| 0 <= k < |s| && s[k] == r;
    assert Holds(period, s[k], points);
    StoredAgainstLookup(period, IdOf(r), name, from);
    Trichotomy(Pad(IdOf(r).0), Pad(name));
    if Pad(IdOf(r).0) == Pad(name) { PadIsInjective(IdOf(r).0, name); }
  }

  /** Scanned records ascend or descend by (padded name, tick). */
  lemma ScannedPair(period: Period, s: seq<Record<Stored>>, points: map<PointId, real>,
                    name: string, from: nat, direction: Direction, i: nat, j: nat)
    requires Mirrors(period, s, points) && ValidName(name)
    requires i < j < |Seek(s, period, name, from, direction)|
    ensures var scan := Seek(s, period, name, from, direction);
      var a, b := IdOf(scan[i]), IdOf(scan[j]);
      ValidId(a) && ValidId(b)
      && (Precedes(direction, Pad(a.0), Pad(b.0)) || (a.0 == b.0 && Before(direction, a.1, b.1)))
  {
    SeekYields(s, LookupKey(period, name, from), direction);
    ScannedRecord(period, s, points, name, from, direction, i);
    ScannedRecord(period, s, points, name, from, direction, j);
    var scan := Seek(s, period, name, from, direction);
    assert Precedes(direction, scan[i].key, scan[j].key);
    var a, b := IdOf(scan[i]), IdOf(scan[j]);
    KeyOrder(period, a.0, a.1, b.0, b.1);
    KeyOrder(period, b.0, b.1, a.0, a.1);
  }

  /** Once the scan has left the metric it never comes back. */
  lemma BlockEnds(period: Period, s: seq<Record<Stored>>, points: map<PointId, real>,
                  name: string, from: nat, direction: Direction, i: nat, j: nat)
    requires Mirrors(period, s, points) && ValidName(name)
    requires i <= j < |Seek(s, period, name, from, direction)|
    requires !IsOf(name, Seek(s, period, name, from, direction)[i])
    ensures !IsOf(name, Seek(s, period, name, from, direction)[j])
  {
    if i < j {
      ScannedRecord(period, s, points, name, from, direction, i);
      ScannedPair(period, s, points, name, from, direction, i, j);
      var a := IdOf(Seek(s, period, name, from, direction)[i]);
      if direction.Forward? { Asymmetric(Pad(name), Pad(a.0)); } else { Asymmetric(Pad(a.0), Pad(name)); }
    }
  }

  /** The ticks of the metric that a lookup at `from` reaches. */
  ghost function ReachedTicks(points: map<PointId, real>, name: string, from: nat, direction: Direction): set<nat>
  {
    set id | id in points && id.0 == name && Reaches(direction, from, id.1) :: id.1
  }

  function LeadingTicks(scan: seq<Record<Stored>>, name: string): (q: seq<nat>)
    ensures |q| == MatchLength(scan, name)
  {
    seq(MatchLength(scan, name), i requires 0 <= i < MatchLength(scan, name) => IdOf(scan[i]).1)
  }

  lemma LeadingIsReached(period: Period, s: seq<Record<Stored>>, points: map<PointId, real>,
                         name: string, from: nat, direction: Direction, i: nat)
    requires Mirrors(period, s, points) && ValidName(name)
    requires i < MatchLength(Seek(s, period, name, from, direction), name)
    ensures LeadingTicks(Seek(s, period, name, from, direction), name)[i] in ReachedTicks(points, name, from, direction)
  {
    var r := Seek(s, period, name, from, direction)[i];
    ScannedRecord(period, s, points, name, from, direction, i);
    assert IsOf(name, r);
    assert (name, IdOf(r).1) in points;
  }

  /** A stored point that the lookup reaches is scanned. */
  lemma ReachedIsScanned(period: Period, s: seq<Record<Stored>>, points: map<PointId, real>,
                         name: string, from: nat, direction: Direction, t: nat) returns (i: nat)
    requires Mirrors(period, s, points) && ValidName(name)
    requires (name, t) in points && Reaches(direction, from, t)
    ensures i < |Seek(s, period, name, from, direction)| && IdOf(Seek(s, period, name, from, direction)[i]) == (name, t)
  {
    var id := (name, t);
    assert IsStored(period, s, points, id);
    var r := Encode(period, id, points[id]);
    IdOfEncode(period, id, points[id]);
    StoredAgainstLookup(period, id, name, from);
    Irreflexive(Pad(name));
    SeekYields(s, LookupKey(period, name, from), direction);
    var scan := Seek(s, period, name, from, direction);
    assert r in scan;
    i :| 0 <= i < |scan| && scan[i] == r;
  }

  lemma ReachedIsLeading(period: Period, s: seq<Record<Stored>>, points: map<PointId, real>,
                         name: string, from: nat, direction: Direction, t: nat)
    requires Mirrors(period, s, points) && ValidName(name)
    requires t in ReachedTicks(points, name, from, direction)
    ensures t in LeadingTicks(Seek(s, period, name, from, direction), name)
  {
    var scan := Seek(s, period, name, from, direction);
    var q := LeadingTicks(scan, name);
    var i := ReachedIsScanned(period, s, points, name, from, direction, t);
    assert IsOf(name, scan[i]);
    if i >= |q| {
      BlockEnds(period, s, points, name, from, direction, |q|, i);
    }
    assert q[i] == t;
  }

  lemma LeadingPair(period: Period, s: seq<Record<Stored>>, points: map<PointId, real>,
                    name: string, from: nat, direction: Direction, i: nat, j: nat)
    requires Mirrors(period, s, points) && ValidName(name)
    requires i < j < MatchLength(Seek(s, period, name, from, direction), name)
    ensures var q := LeadingTicks(Seek(s, period, name, from, direction), name);
      Before(direction, q[i], q[j])
  {
    var scan := Seek(s, period, name, from, direction);
    ScannedPair(period, s, points, name, from, direction, i, j);
    assert IsOf(name, scan[i]) && IsOf(name, scan[j]);
    Irreflexive(Pad(name));
  }

  /** The leading records of the scan are the reached ticks of the metric, sorted. */
  lemma LeadingIsSorted(period: Period, s: seq<Record<Stored>>, points: map<PointId, real>,
                        name: string, from: nat, direction: Direction)
    requires Mirrors(period, s, points) && ValidName(name)
    ensures LeadingTicks(Seek(s, period, name, from, direction), name)
         == InOrder(ReachedTicks(points, name, from, direction), direction)
  {
    var q := LeadingTicks(Seek(s, period, name, from, direction), name);
    forall i, j | 0 <= i < j < |q| ensures Before(direction, q[i], q[j]) {
      LeadingPair(period, s, points, name, from, direction, i, j);
    }
    forall t ensures t in q <==> t in ReachedTicks(points, name, from, direction) {
      if t in q {
        var i :| 0 <= i < |q| && q[i] == t;
        LeadingIsReached(period, s, points, name, from, direction, i);
      }
      if t in ReachedTicks(points, name, from, direction) {
        ReachedIsLeading(period, s, points, name, from, direction, t);
      }
    }
    InOrderIsUnique(q, ReachedTicks(points, name, from, direction), direction);
  }

  // ---- One page --------------------------------------------------------------------------

  function Least(a: nat, b: nat): nat { if a < b then a else b }

  lemma {:induction false} LeadingCountOfPrefix<T>(s: seq<T>, p: T -> bool, c: nat)
    requires c <= |s|
    ensures LeadingCount(s[..c], p) == Least(c, LeadingCount(s, p))
  {
    if c > 0 && p(s[0]) {
      assert s[..c][1..] == s[1..][..c - 1];
      LeadingCountOfPrefix(s[1..], p, c - 1);
    }
  }

  lemma {:induction false} LeadingCountOfSuffix<T>(s: seq<T>, p: T -> bool, c: nat)
    requires c <= LeadingCount(s, p)
    ensures LeadingCount(s[c..], p) == LeadingCount(s, p) - c
  {
    if c > 0 {
      assert s[c..] == s[1..][c - 1..];
      LeadingCountOfSuffix(s[1..], p, c - 1);
    } else {
      assert s[0..] == s;
    }
  }

  lemma HeldRecordParses(period: Period, r: Record<Stored>, points: map<PointId, real>, v: real)
    requires Holds(period, r, points)
    ensures r.value == Number(points[IdOf(r)])
    ensures TryFrom(r.key, v) == Ok(DataPoint(IdOf(r).0, period, IdOf(r).1, v))
  {
    KeyRoundTrip(period, IdOf(r).0, IdOf(r).1, v);
  }

  lemma CollectStep(period: Period, r: Record<Stored>, rest: seq<Record<Stored>>, points: map<PointId, real>,
                    name: string)
    requires Holds(period, r, points)
    requires Collect(rest, name).Points?
    ensures Collect([r] + rest, name) ==
      if IsOf(name, r)
      then Points([DataPoint(name, period, IdOf(r).1, points[IdOf(r)])] + Collect(rest, name).points,
                  Collect(rest, name).cut)
      else Points([], true)
  {
    HeldRecordParses(period, r, points, points[IdOf(r)]);
    assert ([r] + rest)[1..] == rest;
  }

  lemma LeadingStep(r: Record<Stored>, rest: seq<Record<Stored>>, name: string)
    ensures LeadingTicks([r] + rest, name) == if IsOf(name, r) then [IdOf(r).1] + LeadingTicks(rest, name) else []
  {
    assert ([r] + rest)[1..] == rest;
  }

  /** `samples` are the metric's points at `ticks`. */
  ghost predicate PointsAt(period: Period, points: map<PointId, real>, name: string, samples: seq<DataPoint>,
                           ticks: seq<nat>)
  {
    && |samples| == |ticks|
    && (forall i :: 0 <= i < |ticks| ==>
          (name, ticks[i]) in points && samples[i] == DataPoint(name, period, ticks[i], points[(name, ticks[i])]))
  }

  lemma OneMorePoint(period: Period, points: map<PointId, real>, name: string, samples: seq<DataPoint>,
                     ticks: seq<nat>, tick: nat)
    requires PointsAt(period, points, name, samples, ticks) && (name, tick) in points
    ensures PointsAt(period, points, name, [DataPoint(name, period, tick, points[(name, tick)])] + samples,
        [tick] + ticks)
  {
  }

  /** What collecting held records yields: the leading ones of the metric, with their values,
      cut exactly when another metric follows. */
  ghost predicate CollectsLeading(period: Period, records: seq<Record<Stored>>, points: map<PointId, real>,
                                  name: string)
  {
    var c, ticks := Collect(records, name), LeadingTicks(records, name);
    && c.Points?
    && c.cut == (|ticks| < |records|)
    && PointsAt(period, points, name, c.points, ticks)
  }

  lemma CollectsOneMore(period: Period, r: Record<Stored>, rest: seq<Record<Stored>>, points: map<PointId, real>,
                        name: string)
    requires Holds(period, r, points) && CollectsLeading(period, rest, points, name)
    ensures CollectsLeading(period, [r] + rest, points, name)
  {
    CollectStep(period, r, rest, points, name);
    LeadingStep(r, rest, name);
    if IsOf(name, r) {
      OneMorePoint(period, points, name, Collect(rest, name).points, LeadingTicks(rest, name), IdOf(r).1);
    }
  }

  lemma {:induction false} CollectLeading(period: Period, records: seq<Record<Stored>>, points: map<PointId, real>,
                                          name: string)
    requires forall i {:trigger Holds(period, records[i], points)} :: 0 <= i < |records| ==>
        Holds(period, records[i], points)
    ensures CollectsLeading(period, records, points, name)
  {
    if records != [] {
      var r, rest := records[0], records[1..];
      assert Holds(period, records[0], points);
      forall i {:trigger Holds(period, rest[i], points)} | 0 <= i < |rest| ensures Holds(period, rest[i], points) {
        assert Holds(period, records[i + 1], points);
      }
      CollectLeading(period, rest, points, name);
      CollectsOneMore(period, r, rest, points, name);
      assert records == [r] + rest;
    }
  }

  lemma ReachedAreStored(points: map<PointId, real>, name: string, from: nat, direction: Direction)
    ensures forall t :: t in InOrder(ReachedTicks(points, name, from, direction), direction) ==> (name, t) in points
  {
    InOrderMembers(ReachedTicks(points, name, from, direction), direction);
  }

  /** Everything the metric has at or past `from`, as the lookup sees it. */
  ghost function Reached(points: map<PointId, real>, name: string, from: nat, direction: Direction): seq<Sample>
  {
    ReachedAreStored(points, name, from, direction);
    SamplesAt(points, name, InOrder(ReachedTicks(points, name, from, direction), direction))
  }

  /** The tick the route would continue from: the next record's, whatever metric it is of. */
  function NextTick(scan: seq<Record<Stored>>, count: nat): Option<nat>
  {
    if |scan| <= count then None else Some(IdOf(scan[count]).1)
  }

  lemma LeadingOfPrefix(scan: seq<Record<Stored>>, name: string, c: nat)
    requires c <= |scan|
    ensures LeadingTicks(scan[..c], name) == LeadingTicks(scan, name)[..Least(c, MatchLength(scan, name))]
  {
    LeadingCountOfPrefix(scan, (r: Record<Stored>) => IsOf(name, r), c);
  }

  /** The reached points are the leading records' points. */
  lemma ReachedAreLeading(period: Period, s: seq<Record<Stored>>, points: map<PointId, real>,
                          name: string, from: nat, direction: Direction)
    requires Mirrors(period, s, points) && ValidName(name)
    ensures var q := LeadingTicks(Seek(s, period, name, from, direction), name);
      var all := Reached(points, name, from, direction);
      |all| == |q| && forall i :: 0 <= i < |q| ==>
          (name, q[i]) in points && all[i] == Sample(q[i], points[(name, q[i])])
  {
    LeadingIsSorted(period, s, points, name, from, direction);
    ReachedAreStored(points, name, from, direction);
  }

  lemma ScannedHold(period: Period, s: seq<Record<Stored>>, points: map<PointId, real>,
                    name: string, from: nat, direction: Direction, c: nat)
    requires Mirrors(period, s, points) && ValidName(name)
    requires c <= |Seek(s, period, name, from, direction)|
    ensures var records := Seek(s, period, name, from, direction)[..c];
      forall i {:trigger Holds(period, records[i], points)} :: 0 <= i < |records| ==> Holds(period, records[i], points)
  {
    var records := Seek(s, period, name, from, direction)[..c];
    forall i {:trigger Holds(period, records[i], points)} | 0 <= i < |records|
      ensures Holds(period, records[i], points)
    {
      ScannedRecord(period, s, points, name, from, direction, i);
    }
  }

  lemma PageCollects(period: Period, s: seq<Record<Stored>>, points: map<PointId, real>,
                     name: string, from: nat, direction: Direction, c: nat)
    requires Mirrors(period, s, points) && ValidName(name)
    requires c <= |Seek(s, period, name, from, direction)|
    ensures var all := Reached(points, name, from, direction);
      var collected := Collect(Seek(s, period, name, from, direction)[..c], name);
      && collected.Points?
      && collected.cut == (|all| < c)
      && ToSamples(collected.points) == all[..Least(c, |all|)]
  {
    var scan := Seek(s, period, name, from, direction);
    ReachedAreLeading(period, s, points, name, from, direction);
    ScannedHold(period, s, points, name, from, direction, c);
    CollectLeading(period, scan[..c], points, name);
    LeadingOfPrefix(scan, name, c);
  }

  lemma NextKeyParses(period: Period, s: seq<Record<Stored>>, points: map<PointId, real>,
                      name: string, from: nat, direction: Direction, c: nat)
    requires Mirrors(period, s, points) && ValidName(name)
    requires c < |Seek(s, period, name, from, direction)|
    ensures var r := Seek(s, period, name, from, direction)[c];
      TryFrom(r.key, 0.0) == Ok(DataPoint(IdOf(r).0, period, IdOf(r).1, 0.0))
  {
    ScannedRecord(period, s, points, name, from, direction, c);
    HeldRecordParses(period, Seek(s, period, name, from, direction)[c], points, 0.0);
  }

  /** One page, exactly: the first `count` reached points, and the next record's tick when the
      page is full of this metric. The request never fails on a written store. */
  lemma RouteAnswers(period: Period, s: seq<Record<Stored>>, points: map<PointId, real>,
                     name: string, from: nat, direction: Direction, count: nat)
    requires Mirrors(period, s, points) && ValidName(name)
    ensures var all := Reached(points, name, from, direction);
      Route(s, period, name, from, direction, count)
        == Found(MetricsPage(
                   if count == 0 || |all| < count then None
                   else NextTick(Seek(s, period, name, from, direction), count),
                   all[..Least(count, |all|)]))
  {
    var scan := Seek(s, period, name, from, direction);
    var all := Reached(points, name, from, direction);
    var c := Least(count, |scan|);
    ReachedAreLeading(period, s, points, name, from, direction);
    PageCollects(period, s, points, name, from, direction, c);
    assert FirstPage(scan, count).records == scan[..c];
    assert all[..Least(c, |all|)] == all[..Least(count, |all|)];
    if 0 < count < |scan| {
      NextKeyParses(period, s, points, name, from, direction, count);
    }
  }

  // ---- Agreement with the reference ------------------------------------------------------

  /** A start tick the key format can express, or one that starts with twelve nines. */
  predicate FaithfulStart(from: nat) { from <= MAX_TICK || Lead(from) == MAX_TICK }

  /** From a faithful start the lookup reaches exactly the wanted points. */
  lemma ReachedIsWanted(period: Period, s: seq<Record<Stored>>, points: map<PointId, real>,
                        name: string, from: nat, direction: Direction)
    requires Mirrors(period, s, points) && FaithfulStart(from)
    ensures Reached(points, name, from, direction) == AllWanted(points, name, from, direction)
  {
    var reached, wanted := ReachedTicks(points, name, from, direction), WantedTicks(points, name, from, direction);
    forall id | id in points && id.0 == name
      ensures Reaches(direction, from, id.1) <==> Wanted(direction, from, id.1)
    {
      assert IsStored(period, s, points, id);
    }
    forall t ensures t in reached <==> t in wanted {
      if t in reached { var id :| id in points && id.0 == name && Reaches(direction, from, id.1) && id.1 == t; }
      if t in wanted { var id :| id in points && id.0 == name && Wanted(direction, from, id.1) && id.1 == t; }
    }
    assert reached == wanted;
  }

  /** The route's points are the reference's: filter by name and tick, sort, take `count`. */
  lemma RouteMatchesReference(period: Period, s: seq<Record<Stored>>, points: map<PointId, real>,
                              name: string, from: nat, direction: Direction, count: nat)
    requires Mirrors(period, s, points) && ValidName(name) && FaithfulStart(from)
    ensures Route(s, period, name, from, direction, count).Found?
    ensures Route(s, period, name, from, direction, count).page.samples
         == Reference(points, name, from, direction, count)
  {
    RouteAnswers(period, s, points, name, from, direction, count);
    ReachedIsWanted(period, s, points, name, from, direction);
  }

  ghost predicate AgreesOn(period: Period, s: seq<Record<Stored>>, points: map<PointId, real>,
                           name: string, from: nat, direction: Direction, count: nat)
    requires ValidName(name)
  {
    var response := Route(s, period, name, from, direction, count);
    response.Found? && response.page.samples == Reference(points, name, from, direction, count)
  }

  ghost predicate AgreesOnEveryStore(period: Period, name: string, from: nat, direction: Direction)
    requires ValidName(name)
  {
    forall s, points, count :: Mirrors(period, s, points) ==> AgreesOn(period, s, points, name, from, direction, count)
  }

  lemma OnePointMirrors(period: Period, id: PointId, value: real)
    requires ValidId(id)
    ensures Mirrors(period, [Encode(period, id, value)], map[id := value])
  {
    var s, points := [Encode(period, id, value)], map[id := value];
    IdOfEncode(period, id, value);
    assert Holds(period, s[0], points) && IsStored(period, s, points, id);
  }

  lemma OnePointTicks(points: map<PointId, real>, name: string, from: nat, direction: Direction, value: real)
    requires points == map[(name, MAX_TICK) := value] && !FaithfulStart(from)
    ensures ReachedTicks(points, name, from, direction) == if direction.Forward? then {MAX_TICK} else {}
    ensures WantedTicks(points, name, from, direction) == if direction.Forward? then {} else {MAX_TICK}
  {
    assert (name, MAX_TICK) in points;
    assert Reaches(direction, from, MAX_TICK) == direction.Forward?;
    assert Wanted(direction, from, MAX_TICK) == direction.Backward?;
  }

  lemma InOrderSmall(direction: Direction, t: nat)
    ensures InOrder({}, direction) == [] && InOrder({t}, direction) == [t]
  {
    InOrderIsUnique([t], {t}, direction);
  }

  /** A start past `MAX_TICK` that does not begin with twelve nines goes wrong already on a
      store holding one point, at the largest tick: forward it is returned although it lies
      before `from`, backward it is missed. */
  lemma UnfaithfulStartFails(period: Period, s: seq<Record<Stored>>, points: map<PointId, real>,
                             name: string, from: nat, direction: Direction, value: real)
    requires ValidName(name) && !FaithfulStart(from)
    requires points == map[(name, MAX_TICK) := value] && Mirrors(period, s, points)
    ensures Route(s, period, name, from, direction, 1).Found?
    ensures |Reference(points, name, from, direction, 1)| == if direction.Forward? then 0 else 1
    ensures |Route(s, period, name, from, direction, 1).page.samples| == if direction.Forward? then 1 else 0
  {
    OnePointTicks(points, name, from, direction, value);
    InOrderSmall(direction, MAX_TICK);
    RouteAnswers(period, s, points, name, from, direction, 1);
  }

  /** The route agrees with the reference on every written store exactly when `from` is at most
      `MAX_TICK` or begins with twelve nines. */
  lemma RouteAgreesExactlyWhen(period: Period, name: string, from: nat, direction: Direction)
    requires ValidName(name) && IsText(name)
    ensures AgreesOnEveryStore(period, name, from, direction) <==> FaithfulStart(from)
  {
    if FaithfulStart(from) {
      forall s, points, count | Mirrors(period, s, points)
        ensures AgreesOn(period, s, points, name, from, direction, count)
      {
        RouteMatchesReference(period, s, points, name, from, direction, count);
      }
    } else {
      var id := (name, MAX_TICK);
      OnePointMirrors(period, id, 0.0);
      var s, points := [Encode(period, id, 0.0)], map[id := 0.0];
      UnfaithfulStartFails(period, s, points, name, from, direction, 0.0);
      assert !AgreesOn(period, s, points, name, from, direction, 1);
    }
  }

  // ---- The handler -----------------------------------------------------------------------

  /** All ticks of exactly that metric. */
  ghost function TicksOf(points: map<PointId, real>, name: string): set<nat>
  {
    set id | id in points && id.0 == name :: id.1
  }

  /** The first `count` of all the metric's points in the asked direction. */
  ghost function FirstPoints(points: map<PointId, real>, name: string, direction: Direction, count: nat): seq<Sample>
  {
    InOrderMembers(TicksOf(points, name), direction);
    var all := SamplesAt(points, name, InOrder(TicksOf(points, name), direction));
    if |all| <= count then all else all[..count]
  }

  /** Without a start everything is wanted. */
  lemma DefaultStartWantsAll(period: Period, s: seq<Record<Stored>>, points: map<PointId, real>, name: string,
                             direction: Direction, count: nat)
    requires Mirrors(period, s, points)
    ensures Reference(points, name, StartTick(direction, None), direction, count)
         == FirstPoints(points, name, direction, count)
  {
    var from := StartTick(direction, None);
    forall id | id in points && id.0 == name ensures Wanted(direction, from, id.1) {
      assert IsStored(period, s, points, id);
    }
    var wanted := WantedTicks(points, name, from, direction);
    forall t ensures t in wanted <==> t in TicksOf(points, name) {
      if t in TicksOf(points, name) { var id :| id in points && id.0 == name && id.1 == t; }
    }
    assert wanted == TicksOf(points, name);
  }

  /** `get`. The period and direction come already parsed; `None` is text that did not parse. `points`
      are the stored points, if the family holds any such set. */
  method Get(db: Db<Stored>, name: string, period: Option<Period>, count: nat, direction: Option<Direction>,
             from: Option<nat>, ghost points: map<PointId, real>)
    returns (response: Response)
    requires db.Valid()
    modifies db
    ensures db.Valid() && forall f :: db.Family(f) == old(db.Family(f))
    ensures period.None? ==> response == BadRequest
    ensures period.Some? && !ValidName(name) ==> response == InvalidKey
    ensures period.Some? && ValidName(name) && direction.None? ==> response == BadRequest
    ensures period.Some? && ValidName(name) && direction.Some? ==>
      response == Route(db.Family(FamilyName(period.value)), period.value, name,
                        StartTick(direction.value, from), direction.value, count)
    ensures period.Some? && ValidName(name) && direction.Some?
            && Mirrors(period.value, db.Family(FamilyName(period.value)), points) ==>
      && (from.None? ==> response.Found? && response.page.samples == FirstPoints(points, name, direction.value, count))
      && (from.Some? && FaithfulStart(from.value) ==>
            response.Found? && response.page.samples == Reference(points, name, from.value, direction.value, count))
  {
    if period.None? { return BadRequest; }
    if !ValidName(name) { return InvalidKey; }
    if direction.None? { return BadRequest; }
    var tick := StartTick(direction.value, from);
    ghost var s := db.Family(FamilyName(period.value));
    if Mirrors(period.value, s, points) {
      if from.None? { DefaultStartWantsAll(period.value, s, points, name, direction.value, count); }
      if FaithfulStart(tick) { RouteMatchesReference(period.value, s, points, name, tick, direction.value, count); }
    }
    var ret := db.ReadRange(FamilyName(period.value), From(LookupKey(period.value, name, tick), direction.value),
        count);

    var next: Option<nat> := None;
    if ret.continueFrom.Some? {
      var parsed := TryFrom(ret.continueFrom.value, 0.0);
      if parsed.Err? { return InvalidKey; }
      if parsed.Panic? { return Crashed; }
      next := Some(parsed.value.tick);
    }

    var collected := CollectRecords(ret.records, name);
    if collected.Crash? { return Crashed; }
    if collected.cut { next := None; }
    return Found(MetricsPage(next, ToSamples(collected.points)));
  }
}
