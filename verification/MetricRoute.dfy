/** The metric store, its only writer (src/mgmt-server/rpc.rs) and the route that reads it
    (src/mgmt-server/routes/metrics.rs). */
module MetricRoute {
  import opened MetricKeys
  import opened Basics
  import opened SortedStore

  /** A stored value: text that parses as an `f64`, or text that does not. */
  datatype Stored = Number(value: real) | Garbled

  datatype Sample = Sample(tick: nat, value: real)

  /** What identifies a stored point, given its period. */
  type PointId = (string, nat)

  datatype MetricsPage = MetricsPage(next: Option<nat>, samples: seq<Sample>)

  datatype Response = Found(page: MetricsPage) | BadRequest | InvalidKey | Crashed

  predicate ValidId(id: PointId) { ValidName(id.0) && IsText(id.0) && id.1 <= MAX_TICK }

  function Encode(period: Period, id: PointId, value: real): Record<Stored>
    requires |id.0| <= MAX_NAME
  {
    Record(LookupKey(period, id.0, id.1), Number(value))
  }

  /** The point a record's key names, when it names one. */
  function IdOf(r: Record<Stored>): PointId
  {
    match TryFrom(r.key, 0.0)
    case Ok(dp) => (dp.name, dp.tick)
    case Err => ("", 0)
    case Panic => ("", 0)
  }

  lemma IdOfEncode(period: Period, id: PointId, value: real)
    requires ValidId(id)
    ensures IdOf(Encode(period, id, value)) == id
  {
    KeyRoundTrip(period, id.0, id.1, 0.0);
  }

  predicate Holds(period: Period, r: Record<Stored>, points: map<PointId, real>)
  {
    var id := IdOf(r);
    id in points && ValidId(id) && r == Encode(period, id, points[id])
  }

  /** The family of `period` stores exactly `points`. */
  ghost predicate Mirrors(period: Period, s: seq<Record<Stored>>, points: map<PointId, real>)
  {
    && Sorted(s)
    && (forall i {:trigger Holds(period, s[i], points)} :: 0 <= i < |s| ==> Holds(period, s[i], points))
    && (forall id {:trigger IsStored(period, s, points, id)} :: id in points ==> IsStored(period, s, points, id))
  }

  predicate IsStored(period: Period, s: seq<Record<Stored>>, points: map<PointId, real>, id: PointId)
    requires id in points
  {
    ValidId(id) && Encode(period, id, points[id]) in s
  }

  // ---- Writing ---------------------------------------------------------------------------

  lemma WrittenHolds(period: Period, points: map<PointId, real>, id: PointId, value: real)
    requires ValidId(id)
    ensures Holds(period, Encode(period, id, value), points[id := value])
  {
    IdOfEncode(period, id, value);
  }

  /** Records under other keys keep holding their point. */
  lemma KeptHolds(period: Period, r: Record<Stored>, points: map<PointId, real>, id: PointId, value: real)
    requires Holds(period, r, points) && ValidId(id)
    requires r.key != LookupKey(period, id.0, id.1)
    ensures Holds(period, r, points[id := value])
  {
  }

  lemma PutStores(period: Period, s: seq<Record<Stored>>, points: map<PointId, real>, id: PointId, value: real,
                  k: PointId)
    requires Sorted(s) && ValidId(id) && ValidId(k)
    requires k == id || (k in points && IsStored(period, s, points, k))
    ensures IsStored(period, Put(s, LookupKey(period, id.0, id.1), Number(value)), points[id := value], k)
  {
    var key := LookupKey(period, id.0, id.1);
    PutMembers(s, key, Number(value), Encode(period, k, points[id := value][k]));
    if k != id && LookupKey(period, k.0, k.1) == key {
      KeysAreInjective(period, k.0, k.1, period, id.0, id.1);
    }
  }

  /** Writing a point is a map update on the points stored. */
  lemma PutMirrors(period: Period, s: seq<Record<Stored>>, points: map<PointId, real>, id: PointId, value: real)
    requires Mirrors(period, s, points) && ValidId(id)
    ensures Mirrors(period, Put(s, LookupKey(period, id.0, id.1), Number(value)), points[id := value])
  {
    var written := Encode(period, id, value);
    var s', points' := Put(s, written.key, written.value), points[id := value];
    PutKeepsSorted(s, written.key, written.value);
    forall i | 0 <= i < |s'| ensures Holds(period, s'[i], points') {
      PutMembers(s, written.key, written.value, s'[i]);
      if s'[i] == written {
        WrittenHolds(period, points, id, value);
      } else {
        var j :| 0 <= j < |s| && s[j] == s'[i];
        assert Holds(period, s[j], points);
        KeptHolds(period, s[j], points, id, value);
      }
    }
    forall k | k in points' ensures IsStored(period, s', points', k) {
      assert k == id || IsStored(period, s, points, k);
      PutStores(period, s, points, id, value, k);
    }
  }

  /** The points one `stream` batch should store: its timestamp with each valid name, and
      nothing at all past `MAX_TICK`. */
  function BatchPoints(timestamp: nat, data: map<string, real>): map<PointId, real>
  {
    map n | n in data && ValidName(n) && timestamp <= MAX_TICK :: (n, timestamp) := data[n]
  }

  function FamilyName(period: Period): string { "metrics_" + PeriodText(period) }

  /** Each period has a family of its own. */
  lemma FamiliesDiffer(p: Period, q: Period)
    requires p != q
    ensures FamilyName(p) != FamilyName(q)
  {
    PeriodTexts(p, q);
    assert FamilyName(p)[8..] == PeriodText(p) && FamilyName(q)[8..] == PeriodText(q);
  }

  lemma BatchGrows(points: map<PointId, real>, timestamp: nat, done: map<string, real>, n: string, value: real)
    requires n !in done
    ensures var before := points + BatchPoints(timestamp, done);
      var after := points + BatchPoints(timestamp, done[n := value]);
      after == if ValidName(n) && timestamp <= MAX_TICK then before[(n, timestamp) := value] else before
  {
  }

  /** Builds the record of one data point and writes it to the family of its period. */
  method WritePoint(db: Db<Stored>, dp: DataPoint, ghost points: map<PointId, real>)
    requires db.Valid() && Mirrors(dp.period, db.Family(FamilyName(dp.period)), points)
    requires ValidId((dp.name, dp.tick))
    modifies db
    ensures db.Valid()
    ensures Mirrors(dp.period, db.Family(FamilyName(dp.period)), points[(dp.name, dp.tick) := dp.value])
    ensures forall f :: f != FamilyName(dp.period) ==> db.Family(f) == old(db.Family(f))
  {
    PutMirrors(dp.period, db.Family(FamilyName(dp.period)), points, (dp.name, dp.tick), dp.value);
    db.Write(FamilyName(dp.period), LookupKey(dp.period, dp.name, dp.tick), Number(dp.value));
  }

  /** The `stream` arm: every accepted point of the batch is stored, in whatever order the
      hash map yields them, and rejected points change nothing. */
  method Stream(db: Db<Stored>, timestamp: nat, data: map<string, real>, ghost points: map<PointId, real>)
    requires db.Valid() && Mirrors(PT05S, db.Family(FamilyName(PT05S)), points)
    requires forall n :: n in data ==> IsText(n)
    modifies db
    ensures db.Valid()
    ensures Mirrors(PT05S, db.Family(FamilyName(PT05S)), points + BatchPoints(timestamp, data))
    ensures forall f :: f != FamilyName(PT05S) ==> db.Family(f) == old(db.Family(f))
    ensures forall p :: p != PT05S ==> db.Family(FamilyName(p)) == old(db.Family(FamilyName(p)))
  {
    forall p | p != PT05S ensures FamilyName(p) != FamilyName(PT05S) { FamiliesDiffer(p, PT05S); }
    var todo := data.Keys;
    ghost var done: map<string, real> := map[];
    ghost var stored := points;
    while todo != {}
      invariant db.Valid()
      invariant todo <= data.Keys && done.Keys == data.Keys - todo
      invariant forall n :: n in done ==> done[n] == data[n]
      invariant stored == points + BatchPoints(timestamp, done)
      invariant Mirrors(PT05S, db.Family(FamilyName(PT05S)), stored)
      invariant forall f :: f != FamilyName(PT05S) ==> db.Family(f) == old(db.Family(f))
    {
      var n :| n in todo;
      BatchGrows(points, timestamp, done, n, data[n]);
      NewAccepts(n, PT05S, timestamp, data[n]);
      var made := New(n, PT05S, timestamp, data[n]);
      if made.Ok? {
        WritePoint(db, made.value, stored);
        stored := stored[(n, timestamp) := data[n]];
      }
      done := done[n := data[n]];
      todo := todo - {n};
    }
    assert done == data;
  }

  // ---- The route -------------------------------------------------------------------------

  datatype Collected = Points(points: seq<DataPoint>, cut: bool) | Crash

  /** The data points a page contributes: unreadable records are skipped, and the first record
      of another metric ends the page. */
  function Collect(records: seq<Record<Stored>>, name: string): Collected
  {
    if records == [] then Points([], false)
    else
      match records[0].value
      case Garbled => Collect(records[1..], name)
      case Number(v) =>
        match TryFrom(records[0].key, v)
        case Panic => Crash
        case Err => Collect(records[1..], name)
        case Ok(dp) =>
          if dp.name != name then Points([], true)
          else
            match Collect(records[1..], name)
            case Crash => Crash
            case Points(rest, cut) => Points([dp] + rest, cut)
  }

  function ToSamples(points: seq<DataPoint>): (r: seq<Sample>)
    ensures |r| == |points|
  {
    seq(|points|, i requires 0 <= i < |points| => Sample(points[i].tick, points[i].value))
  }

  /** The route's answer, given the page read from the store. */
  function Answer(page: Page<Stored>, name: string): Response
  {
    var next := match page.continueFrom
      case None => Ok(None)
      case Some(key) =>
        (match TryFrom(key, 0.0) case Ok(dp) => Ok(Some(dp.tick)) case Err => Err case Panic => Panic);
    match next
    case Err => InvalidKey
    case Panic => Crashed
    case Ok(n) =>
      match Collect(page.records, name)
      case Crash => Crashed
      case Points(points, cut) => Found(MetricsPage(if cut then None else n, ToSamples(points)))
  }

  function StartTick(direction: Direction, from: Option<nat>): nat
  {
    match from
    case Some(tick) => tick
    case None => if direction.Forward? then 0 else MAX_TICK
  }

  function Route(s: seq<Record<Stored>>, period: Period, name: string, from: nat, direction: Direction,
                 count: nat): Response
    requires ValidName(name)
  {
    Answer(FirstPage(Scan(s, From(LookupKey(period, name, from), direction)), count), name)
  }

  /** The record loop of `get`. */
  method CollectRecords(records: seq<Record<Stored>>, name: string) returns (collected: Collected)
    ensures collected == Collect(records, name)
  {
    var datapoints: seq<DataPoint> := [];
    var i := 0;
    ghost var whole := Collect(records, name);
    assert records[0..] == records;
    while i < |records|
      invariant 0 <= i <= |records|
      invariant match Collect(records[i..], name)
                case Crash => whole == Crash
                case Points(rest, cut) => whole == Points(datapoints + rest, cut)
    {
      var r := records[i];
      assert records[i..][1..] == records[i + 1..];
      if r.value.Number? {
        var parsed := TryFrom(r.key, r.value.value);
        if parsed.Panic? {
          return Crash;
        } else if parsed.Ok? {
          if parsed.value.name != name {
            return Points(datapoints, true);
          }
          datapoints := datapoints + [parsed.value];
        }
      }
      i := i + 1;
    }
    return Points(datapoints, false);
  }

  // ---- The reference: filter, sort, take -------------------------------------------------

  predicate Before(direction: Direction, a: nat, b: nat)
  {
    if direction.Forward? then a < b else b < a
  }

  /** At or past `from`, in the asked direction. */
  predicate Wanted(direction: Direction, from: nat, t: nat)
  {
    if direction.Forward? then from <= t else t <= from
  }

  /** The ticks of exactly that metric, at or past `from`. */
  ghost function WantedTicks(points: map<PointId, real>, name: string, from: nat, direction: Direction): set<nat>
  {
    set id | id in points && id.0 == name && Wanted(direction, from, id.1) :: id.1
  }

  lemma FirstExists(ticks: set<nat>, direction: Direction)
    requires ticks != {}
    ensures exists t :: t in ticks && forall u :: u in ticks ==> u == t || Before(direction, t, u)
  {
    var t :| t in ticks;
    if ticks - {t} != {} {
      FirstExists(ticks - {t}, direction);
      var m :| m in ticks - {t} && forall u :: u in ticks - {t} ==> u == m || Before(direction, m, u);
      var best := if Before(direction, t, m) then t else m;
      assert forall u :: u in ticks ==> u == t || u in ticks - {t};
      assert best in ticks && forall u :: u in ticks ==> u == best || Before(direction, best, u);
    } else {
      assert ticks == {t};
    }
  }

  ghost function FirstOf(ticks: set<nat>, direction: Direction): (t: nat)
    requires ticks != {}
    ensures t in ticks && forall u :: u in ticks ==> u == t || Before(direction, t, u)
  {
    FirstExists(ticks, direction);
    var t :| t in ticks && forall u :: u in ticks ==> u == t || Before(direction, t, u);
    t
  }

  ghost function InOrder(ticks: set<nat>, direction: Direction): seq<nat>
  {
    if ticks == {} then []
    else
      var t := FirstOf(ticks, direction);
      [t] + InOrder(ticks - {t}, direction)
  }

  /** The samples of `name` at the given ticks, in the asked direction. */
  ghost function SamplesAt(points: map<PointId, real>, name: string, ticks: seq<nat>): (r: seq<Sample>)
    requires forall t :: t in ticks ==> (name, t) in points
    ensures |r| == |ticks|
  {
    seq(|ticks|, i requires 0 <= i < |ticks| => Sample(ticks[i], points[(name, ticks[i])]))
  }

  lemma {:induction false} InOrderMembers(ticks: set<nat>, direction: Direction)
    ensures forall t :: t in InOrder(ticks, direction) <==> t in ticks
  {
    if ticks != {} {
      InOrderMembers(ticks - {FirstOf(ticks, direction)}, direction);
    }
  }

  lemma {:induction false} InOrderSorted(ticks: set<nat>, direction: Direction, i: nat, j: nat)
    requires i < j < |InOrder(ticks, direction)|
    ensures Before(direction, InOrder(ticks, direction)[i], InOrder(ticks, direction)[j])
  {
    var t := FirstOf(ticks, direction);
    var rest := InOrder(ticks - {t}, direction);
    if i == 0 {
      InOrderMembers(ticks - {t}, direction);
      assert rest[j - 1] in rest;
    } else {
      InOrderSorted(ticks - {t}, direction, i - 1, j - 1);
    }
  }

  /** Filter by name and tick, sort. */
  ghost function AllWanted(points: map<PointId, real>, name: string, from: nat, direction: Direction): seq<Sample>
  {
    InOrderMembers(WantedTicks(points, name, from, direction), direction);
    SamplesAt(points, name, InOrder(WantedTicks(points, name, from, direction), direction))
  }

  /** Filter by name and tick, sort, take `count`. */
  ghost function Reference(points: map<PointId, real>, name: string, from: nat, direction: Direction, count: nat)
    : seq<Sample>
  {
    var all := AllWanted(points, name, from, direction);
    if |all| <= count then all else all[..count]
  }

  /** A sequence already in order is the sorted form of its elements. */
  lemma {:induction false} InOrderIsUnique(q: seq<nat>, ticks: set<nat>, direction: Direction)
    requires forall i, j :: 0 <= i < j < |q| ==> Before(direction, q[i], q[j])
    requires forall t :: t in q <==> t in ticks
    ensures q == InOrder(ticks, direction)
    decreases |q|
  {
    if q == [] {
      assert ticks == {};
    } else {
      assert q[0] in ticks;
      var t := FirstOf(ticks, direction);
      assert t in q && t == q[0];
      assert q == [t] + q[1..];
      forall u ensures u in q[1..] <==> u in ticks - {t} {
        if u in q[1..] { assert u in q && u != t; }
      }
      InOrderIsUnique(q[1..], ticks - {t}, direction);
    }
  }
}
