/** Following the metric route's `next` (src/mgmt-server/routes/metrics.rs): exactly when it
    visits the metric's points once each, and what happens when it does not. */
module MetricPaging {
  import opened ByteOrder
  import opened MetricKeys
  import opened Basics
  import opened SortedStore
  import opened MetricRoute
  import opened MetricRouteProofs

  datatype Walked = Walked(samples: seq<Sample>, done: bool)

  /** A client asking again from `next` until there is none, for at most `fuel` requests. */
  function Walk(ask: nat -> MetricsPage, from: nat, fuel: nat): Walked
    decreases fuel
  {
    if fuel == 0 then Walked([], false)
    else
      var page := ask(from);
      match page.next
      case None => Walked(page.samples, true)
      case Some(tick) =>
        var rest := Walk(ask, tick, fuel - 1);
        Walked(page.samples + rest.samples, rest.done)
  }

  /** `n` points fill a whole number of pages. */
  predicate WholePages(n: nat, count: nat)
    requires count >= 1
  {
    n == 0 || (n >= count && WholePages(n - count, count))
  }

  // ---- Walking, for any paged source -----------------------------------------------------

  /** What paging needs of a source: `all(from)` is everything at or past `from`, and
      `after(from)` the tick of the first foreign record behind it. */
  ghost predicate PageFacts(ask: nat -> MetricsPage, all: nat -> seq<Sample>, after: nat -> Option<nat>,
                            direction: Direction, count: nat, from: nat)
  {
    var a := all(from);
    && ask(from).samples == a[..Least(count, |a|)]
    && ask(from).next == (if |a| < count then None else if |a| == count then after(from) else Some(a[count].tick))
    && (|a| > count ==> all(a[count].tick) == a[count..] && after(a[count].tick) == after(from))
    && (|a| == count > 0 && after(from).Some? ==>
          (all(after(from).value) == [] <==> Before(direction, a[|a| - 1].tick, after(from).value)))
  }

  ghost predicate Paged(ask: nat -> MetricsPage, all: nat -> seq<Sample>, after: nat -> Option<nat>,
                        direction: Direction, count: nat)
  {
    forall from: nat :: PageFacts(ask, all, after, direction, count, from)
  }

  /** The pages end exactly on the last point, a foreign record follows, and its tick does not
      lie past that point. */
  ghost predicate Stalls(all: seq<Sample>, after: Option<nat>, direction: Direction, count: nat)
    requires count >= 1
  {
    && all != []
    && WholePages(|all|, count)
    && after.Some?
    && !Before(direction, all[|all| - 1].tick, after.value)
  }

  /** Unless the pages stall, following `next` ends and yields every point once. */
  lemma {:induction false} WalkVisitsOnce(ask: nat -> MetricsPage, all: nat -> seq<Sample>, after: nat -> Option<nat>,
                                          direction: Direction, count: nat, from: nat, fuel: nat)
    requires count >= 1 && Paged(ask, all, after, direction, count)
    requires !Stalls(all(from), after(from), direction, count)
    requires fuel >= |all(from)| + 2
    ensures Walk(ask, from, fuel) == Walked(all(from), true)
    decreases fuel
  {
    var a := all(from);
    assert PageFacts(ask, all, after, direction, count, from);
    if |a| > count {
      assert a[count..][|a| - count - 1] == a[|a| - 1];
      WalkVisitsOnce(ask, all, after, direction, count, a[count].tick, fuel - 1);
      assert a[..count] + a[count..] == a;
    } else if |a| == count && after(from).Some? {
      assert WholePages(0, count);
      assert PageFacts(ask, all, after, direction, count, after(from).value);
      assert a + [] == a;
    }
  }

  /** When they stall, a walk that ends at all has returned more samples than there are. */
  lemma {:induction false} WalkRepeats(ask: nat -> MetricsPage, all: nat -> seq<Sample>, after: nat -> Option<nat>,
                                       direction: Direction, count: nat, from: nat, fuel: nat)
    requires count >= 1 && Paged(ask, all, after, direction, count)
    requires Stalls(all(from), after(from), direction, count)
    requires Walk(ask, from, fuel).done
    ensures |Walk(ask, from, fuel).samples| > |all(from)|
    decreases fuel
  {
    var a := all(from);
    assert PageFacts(ask, all, after, direction, count, from);
    if |a| > count {
      assert a[count..][|a| - count - 1] == a[|a| - 1];
      WalkRepeats(ask, all, after, direction, count, a[count].tick, fuel - 1);
    } else {
      assert PageFacts(ask, all, after, direction, count, after(from).value);
      assert Walk(ask, after(from).value, fuel - 1).done;
    }
  }

  /** Some number of requests yields exactly `all`, and the last one has no `next`. */
  ghost predicate YieldsExactly(ask: nat -> MetricsPage, from: nat, all: seq<Sample>)
  {
    exists fuel :: Walk(ask, from, fuel) == Walked(all, true)
  }

  /** Following `next` yields exactly the points if and only if the pages do not stall. */
  lemma WalkIsExactWhen(ask: nat -> MetricsPage, all: nat -> seq<Sample>, after: nat -> Option<nat>,
                        direction: Direction, count: nat, from: nat)
    requires count >= 1 && Paged(ask, all, after, direction, count)
    ensures YieldsExactly(ask, from, all(from))
       <==> !Stalls(all(from), after(from), direction, count)
  {
    if Stalls(all(from), after(from), direction, count) {
      forall fuel ensures Walk(ask, from, fuel) != Walked(all(from), true) {
        if Walk(ask, from, fuel).done {
          WalkRepeats(ask, all, after, direction, count, from, fuel);
        }
      }
    } else {
      WalkVisitsOnce(ask, all, after, direction, count, from, |all(from)| + 2);
    }
  }

  // ---- The metric route is a paged source ------------------------------------------------

  lemma SeekResumes(period: Period, s: seq<Record<Stored>>, points: map<PointId, real>,
                    name: string, from: nat, direction: Direction, count: nat)
    requires Mirrors(period, s, points) && ValidName(name) && count >= 1
    requires count < MatchLength(Seek(s, period, name, from, direction), name)
    ensures var scan := Seek(s, period, name, from, direction);
      Seek(s, period, name, IdOf(scan[count]).1, direction) == scan[count..]
  {
    var scan := Seek(s, period, name, from, direction);
    ScannedRecord(period, s, points, name, from, direction, count);
    assert IsOf(name, scan[count]);
    assert scan[count].key == LookupKey(period, name, IdOf(scan[count]).1);
    ContinuationResumes(s, From(LookupKey(period, name, from), direction), count);
  }

  lemma LeadingOfSuffix(scan: seq<Record<Stored>>, name: string, c: nat)
    requires c <= MatchLength(scan, name)
    ensures LeadingTicks(scan[c..], name) == LeadingTicks(scan, name)[c..]
  {
    LeadingCountOfSuffix(scan, (r: Record<Stored>) => IsOf(name, r), c);
  }

  /** A continuation inside the metric resumes exactly after the page. */
  lemma ResumesInside(period: Period, s: seq<Record<Stored>>, points: map<PointId, real>,
                      name: string, from: nat, direction: Direction, count: nat)
    requires Mirrors(period, s, points) && ValidName(name) && count >= 1
    requires count < |Reached(points, name, from, direction)|
    ensures var scan, all := Seek(s, period, name, from, direction), Reached(points, name, from, direction);
      && |all| <= |scan|
      && NextTick(scan, count) == Some(all[count].tick)
      && Seek(s, period, name, all[count].tick, direction) == scan[count..]
      && Reached(points, name, all[count].tick, direction) == all[count..]
  {
    var scan, all := Seek(s, period, name, from, direction), Reached(points, name, from, direction);
    ReachedAreLeading(period, s, points, name, from, direction);
    SeekResumes(period, s, points, name, from, direction, count);
    ReachedAreLeading(period, s, points, name, all[count].tick, direction);
    LeadingOfSuffix(scan, name, count);
  }

  /** Nothing the lookup reaches lies past the last sample, which is itself reached. */
  lemma LastIsLast(points: map<PointId, real>, name: string, from: nat, direction: Direction)
    requires Reached(points, name, from, direction) != []
    ensures var all := Reached(points, name, from, direction);
      var last := all[|all| - 1].tick;
      && last in ReachedTicks(points, name, from, direction)
      && forall t :: t in ReachedTicks(points, name, from, direction) ==> !Before(direction, last, t)
  {
    var ticks := ReachedTicks(points, name, from, direction);
    var q := InOrder(ticks, direction);
    InOrderMembers(ticks, direction);
    var last := q[|q| - 1];
    assert last in q;
    forall t | t in ticks ensures !Before(direction, last, t) {
      var i :| 0 <= i < |q| && q[i] == t;
      if i < |q| - 1 { InOrderSorted(ticks, direction, i, |q| - 1); }
    }
  }

  lemma ReachedMember(points: map<PointId, real>, name: string, from: nat, direction: Direction, t: nat)
    requires (name, t) in points && Reaches(direction, from, t)
    ensures t in ReachedTicks(points, name, from, direction)
  {
    assert (name, t).1 == t;
  }

  /** Asking on from a tick past the last sample finds nothing; asking on from any other tick
      finds that sample again. */
  lemma AskingOn(period: Period, s: seq<Record<Stored>>, points: map<PointId, real>,
                 name: string, from: nat, direction: Direction, on: nat)
    requires Mirrors(period, s, points) && ValidName(name) && on <= MAX_TICK
    requires Reached(points, name, from, direction) != []
    ensures var all := Reached(points, name, from, direction);
      Reached(points, name, on, direction) == [] <==> Before(direction, all[|all| - 1].tick, on)
  {
    var all := Reached(points, name, from, direction);
    var last := all[|all| - 1].tick;
    LastIsLast(points, name, from, direction);
    assert IsStored(period, s, points, (name, last));
    InOrderMembers(ReachedTicks(points, name, on, direction), direction);
    var found := InOrder(ReachedTicks(points, name, on, direction), direction);
    if Before(direction, last, on) {
      if found != [] {
        var t := found[0];
        assert t in found && (name, t) in points;
        ReachedMember(points, name, from, direction, t);
      }
    } else {
      assert (name, last) in points && Reaches(direction, on, last);
      assert last in found;
    }
  }

  lemma NextTickInRange(period: Period, s: seq<Record<Stored>>, points: map<PointId, real>,
                        name: string, from: nat, direction: Direction, count: nat)
    requires Mirrors(period, s, points) && ValidName(name)
    ensures var next := NextTick(Seek(s, period, name, from, direction), count);
      next.Some? ==> next.value <= MAX_TICK
  {
    if count < |Seek(s, period, name, from, direction)| {
      ScannedRecord(period, s, points, name, from, direction, count);
    }
  }

  /** The page the route answers; on a written store every request is answered. */
  function PageOf(response: Response): MetricsPage
  {
    match response
    case Found(page) => page
    case BadRequest => MetricsPage(None, [])
    case InvalidKey => MetricsPage(None, [])
    case Crashed => MetricsPage(None, [])
  }

  /** The tick of the first record behind the metric's block, if there is one. */
  ghost function Behind(s: seq<Record<Stored>>, period: Period, points: map<PointId, real>,
                        name: string, from: nat, direction: Direction): Option<nat>
    requires ValidName(name)
  {
    NextTick(Seek(s, period, name, from, direction), |Reached(points, name, from, direction)|)
  }

  /** One answer, in the terms of paging. */
  lemma RoutePage(period: Period, s: seq<Record<Stored>>, points: map<PointId, real>,
                  name: string, direction: Direction, count: nat, from: nat)
    requires Mirrors(period, s, points) && ValidName(name) && count >= 1
    ensures var a := Reached(points, name, from, direction);
      var page := PageOf(Route(s, period, name, from, direction, count));
      && page.samples == a[..Least(count, |a|)]
      && page.next == (if |a| < count then None
                       else if |a| == count then Behind(s, period, points, name, from, direction)
                       else Some(a[count].tick))
  {
    RouteAnswers(period, s, points, name, from, direction, count);
    if count < |Reached(points, name, from, direction)| {
      ResumesInside(period, s, points, name, from, direction, count);
    }
  }

  lemma BehindInside(period: Period, s: seq<Record<Stored>>, points: map<PointId, real>,
                     name: string, direction: Direction, count: nat, from: nat)
    requires Mirrors(period, s, points) && ValidName(name) && count >= 1
    requires count < |Reached(points, name, from, direction)|
    ensures var a := Reached(points, name, from, direction);
      && Reached(points, name, a[count].tick, direction) == a[count..]
      && Behind(s, period, points, name, a[count].tick, direction) == Behind(s, period, points, name, from, direction)
  {
    ResumesInside(period, s, points, name, from, direction, count);
  }

  function RouteAsk(s: seq<Record<Stored>>, period: Period, name: string, direction: Direction,
                    count: nat): nat -> MetricsPage
    requires ValidName(name)
  {
    (f: nat) => PageOf(Route(s, period, name, f, direction, count))
  }

  ghost function RouteAll(points: map<PointId, real>, name: string, direction: Direction): nat -> seq<Sample>
  {
    (f: nat) => Reached(points, name, f, direction)
  }

  ghost function RouteAfter(s: seq<Record<Stored>>, period: Period, points: map<PointId, real>,
                            name: string, direction: Direction): nat -> Option<nat>
    requires ValidName(name)
  {
    (f: nat) => Behind(s, period, points, name, f, direction)
  }

  lemma RouteIsPaged(period: Period, s: seq<Record<Stored>>, points: map<PointId, real>,
                     name: string, direction: Direction, count: nat)
    requires Mirrors(period, s, points) && ValidName(name) && count >= 1
    ensures Paged(RouteAsk(s, period, name, direction, count), RouteAll(points, name, direction),
                  RouteAfter(s, period, points, name, direction), direction, count)
  {
    forall f: nat
      ensures PageFacts(RouteAsk(s, period, name, direction, count), RouteAll(points, name, direction),
                        RouteAfter(s, period, points, name, direction), direction, count, f)
    {
      RoutePage(period, s, points, name, direction, count, f);
      var a, behind := Reached(points, name, f, direction), Behind(s, period, points, name, f, direction);
      if count < |a| {
        BehindInside(period, s, points, name, direction, count, f);
      } else if count == |a| && behind.Some? {
        NextTickInRange(period, s, points, name, f, direction, count);
        AskingOn(period, s, points, name, f, direction, behind.value);
      }
    }
  }

  /** From any `from`: following `next` visits each point the lookup reaches exactly once, and
      ends, if and only if the pages do not stall. */
  lemma FollowingNextFromAnywhere(period: Period, s: seq<Record<Stored>>, points: map<PointId, real>,
                                  name: string, from: nat, direction: Direction, count: nat)
    requires Mirrors(period, s, points) && ValidName(name) && count >= 1
    ensures var all := Reached(points, name, from, direction);
      YieldsExactly(RouteAsk(s, period, name, direction, count), from, all)
      <==> !Stalls(all, Behind(s, period, points, name, from, direction), direction, count)
  {
    RouteIsPaged(period, s, points, name, direction, count);
    var all, after := RouteAll(points, name, direction), RouteAfter(s, period, points, name, direction);
    WalkIsExactWhen(RouteAsk(s, period, name, direction, count), all, after, direction, count, from);
    assert all(from) == Reached(points, name, from, direction);
    assert after(from) == Behind(s, period, points, name, from, direction);
  }

  /** Following the route's `next` on a written store, from a start the key format can express,
      visits each point of the metric at or past `from` exactly once, in order, and ends, if and
      only if the pages do not stall. */
  lemma FollowingNextIsExactWhen(period: Period, s: seq<Record<Stored>>, points: map<PointId, real>,
                                 name: string, from: nat, direction: Direction, count: nat)
    requires Mirrors(period, s, points) && ValidName(name) && count >= 1 && FaithfulStart(from)
    ensures var all := AllWanted(points, name, from, direction);
      YieldsExactly(RouteAsk(s, period, name, direction, count), from, all)
      <==> !Stalls(all, Behind(s, period, points, name, from, direction), direction, count)
  {
    ReachedIsWanted(period, s, points, name, from, direction);
    FollowingNextFromAnywhere(period, s, points, name, from, direction, count);
  }

  // ---- A walk that never ends ------------------------------------------------------------

  lemma {:induction false} SamePageForever(ask: nat -> MetricsPage, tick: nat, fuel: nat)
    requires ask(tick).next == Some(tick)
    ensures !Walk(ask, tick, fuel).done
  {
    if fuel > 0 { SamePageForever(ask, tick, fuel - 1); }
  }

  /** After one batch with two metrics, reading the one that sorts first, one point a page,
      answers the same page forever. */
  lemma TwoMetricsLoopForever(period: Period, s: seq<Record<Stored>>, points: map<PointId, real>,
                              m: string, n: string, tick: nat, fuel: nat)
    requires Mirrors(period, s, points)
    requires ValidId((m, tick)) && ValidId((n, tick))
    requires points.Keys == {(m, tick), (n, tick)} && Less(Pad(m), Pad(n))
    ensures Reached(points, m, tick, Forward) == [Sample(tick, points[(m, tick)])]
    ensures !Walk(RouteAsk(s, period, m, Forward, 1), tick, fuel).done
  {
    assert (m, tick) in points;
    assert ReachedTicks(points, m, tick, Forward) == {tick};
    InOrderSmall(Forward, tick);
    BatchMateFollows(period, s, points, m, n, tick);
    RouteAnswers(period, s, points, m, tick, Forward, 1);
    SamePageForever(RouteAsk(s, period, m, Forward, 1), tick, fuel);
  }

  lemma BatchMateFollows(period: Period, s: seq<Record<Stored>>, points: map<PointId, real>, m: string, n: string,
                         tick: nat)
    requires Mirrors(period, s, points)
    requires ValidId((m, tick)) && ValidId((n, tick))
    requires points.Keys == {(m, tick), (n, tick)} && Less(Pad(m), Pad(n))
    requires |Reached(points, m, tick, Forward)| == 1
    ensures NextTick(Seek(s, period, m, tick, Forward), 1) == Some(tick)
  {
    var scan := Seek(s, period, m, tick, Forward);
    ReachedAreLeading(period, s, points, m, tick, Forward);
    var i := MateIsScanned(period, s, points, m, n, tick);
    Irreflexive(Pad(m));
    assert !IsOf(m, scan[i]) && IsOf(m, scan[0]);
    ScannedRecord(period, s, points, m, tick, Forward, 1);
    assert IdOf(scan[1]) in points.Keys;
  }

  lemma MateIsScanned(period: Period, s: seq<Record<Stored>>, points: map<PointId, real>, m: string, n: string,
                      tick: nat)
    returns (i: nat)
    requires Mirrors(period, s, points)
    requires ValidId((m, tick)) && ValidId((n, tick))
    requires (n, tick) in points && Less(Pad(m), Pad(n))
    ensures i < |Seek(s, period, m, tick, Forward)| && IdOf(Seek(s, period, m, tick, Forward)[i]) == (n, tick)
  {
    var id := (n, tick);
    assert IsStored(period, s, points, id);
    var r := Encode(period, id, points[id]);
    IdOfEncode(period, id, points[id]);
    StoredAgainstLookup(period, id, m, tick);
    Asymmetric(Pad(m), Pad(n));
    SeekYields(s, LookupKey(period, m, tick), Forward);
    var scan := Seek(s, period, m, tick, Forward);
    assert r in scan;
    i :| 0 <= i < |scan| && scan[i] == r;
  }
}
