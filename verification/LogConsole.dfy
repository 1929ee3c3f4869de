/** The system log page: reading backwards, 50 lines at a time, while new lines arrive
    (web/src/app/logs/system/system.component.ts over src/mgmt-server/routes/logs.rs). */
module LogConsole {
  import opened ByteOrder
  import opened Basics
  import opened SortedStore

  const PAGE_SIZE: nat := 50

  datatype LogLine = LogLine(timestamp: string, content: string)

  function FormatLine(line: LogLine): string
  {
    "[" + line.timestamp + "]" + line.content + "\n"
  }

  function Joined(pieces: seq<string>): string
  {
    if pieces == [] then "" else pieces[0] + Joined(pieces[1..])
  }

  function Formatted(records: seq<Record<LogLine>>): (pieces: seq<string>)
    ensures |pieces| == |records|
  {
    seq(|records|, i requires 0 <= i < |records| => FormatLine(records[i].value))
  }

  /** The text of some records, in the given order. */
  function Render(records: seq<Record<LogLine>>): string { Joined(Formatted(records)) }

  lemma {:induction false} JoinedConcat(a: seq<string>, b: seq<string>)
    ensures Joined(a + b) == Joined(a) + Joined(b)
  {
    if a == [] {
      assert a + b == b;
    } else {
      JoinedConcat(a[1..], b);
      assert (a + b)[1..] == a[1..] + b;
      Associative(a[0], Joined(a[1..]), Joined(b));
    }
  }

  lemma RenderConcat(a: seq<Record<LogLine>>, b: seq<Record<LogLine>>)
    ensures Render(a + b) == Render(a) + Render(b)
  {
    assert Formatted(a + b) == Formatted(a) + Formatted(b);
    JoinedConcat(Formatted(a), Formatted(b));
  }

  /** A line as servers print it: nothing in it looks like the end of its timestamp or of the line. */
  predicate IsLine(line: LogLine) { ']' !in line.timestamp && '\n' !in line.content }

  lemma ClosesFirst(a: string, b: string, close: char, u: string, v: string)
    requires close !in a && close !in b && a + [close] + u == b + [close] + v
    ensures a == b && u == v
  {
    var s := a + [close] + u;
    assert s[|a|] == close && s[|b|] == close;
    assert (forall i :: 0 <= i < |a| ==> s[i] == a[i]) && (forall i :: 0 <= i < |b| ==> s[i] == b[i]);
    assert s[..|a|] == a && s[..|b|] == b && s[|a| + 1..] == u && s[|b| + 1..] == v;
  }

  lemma LineReads(x: LogLine, y: LogLine, u: string, v: string)
    requires IsLine(x) && IsLine(y) && FormatLine(x) + u == FormatLine(y) + v
    ensures x == y && u == v
  {
    var s := FormatLine(x) + u;
    assert s[1..] == x.timestamp + [']'] + (x.content + ['\n'] + u);
    assert s[1..] == y.timestamp + [']'] + (y.content + ['\n'] + v);
    ClosesFirst(x.timestamp, y.timestamp, ']', x.content + ['\n'] + u, y.content + ['\n'] + v);
    ClosesFirst(x.content, y.content, '\n', u, v);
  }

  /** The text shows every line: two lists of lines with the same text are the same, timestamp for
      timestamp and content for content. */
  lemma {:induction false} TextShowsEveryLine(a: seq<Record<LogLine>>, b: seq<Record<LogLine>>)
    requires (forall r :: r in a ==> IsLine(r.value)) && (forall r :: r in b ==> IsLine(r.value))
    requires Render(a) == Render(b)
    ensures |a| == |b| && forall i :: 0 <= i < |a| ==> a[i].value == b[i].value
  {
    RenderFirst(a);
    RenderFirst(b);
    if a != [] && b != [] {
      assert a[0] in a && b[0] in b;
      LineReads(a[0].value, b[0].value, Render(a[1..]), Render(b[1..]));
      TextShowsEveryLine(a[1..], b[1..]);
      forall i | 0 < i < |a| ensures a[i].value == b[i].value { assert a[i] == a[1..][i - 1] && b[i] == b[1..][i - 1]; }
    }
  }

  lemma RenderFirst(a: seq<Record<LogLine>>)
    ensures a == [] ==> Render(a) == ""
    ensures a != [] ==> Render(a) == FormatLine(a[0].value) + Render(a[1..]) && Render(a) != ""
  {
    if a != [] { assert Formatted(a)[1..] == Formatted(a[1..]); }
  }

  /** A request for the page before `from`, on its way or answered. */
  datatype Request = Asked(from: string) | Answered(from: string, page: Page<LogLine>)

  /** The page object of the log viewer; `marker` is where the next older page starts. The button
      stays enabled while a page loads, so several requests can be in flight. */
  class SystemLogView {
    var text: string
    var marker: Option<string>
    var inFlight: seq<Request>

    constructor ()
      ensures text == "" && marker == None && inFlight == []
    {
      text, marker, inFlight := "", None, [];
    }

    /** `streamLogs`: the route hands out the key of the newest stored line as the first marker. */
    method StreamLogs(db: Db<LogLine>, cf: string)
      requires db.Valid()
      modifies this, db
      ensures db.Valid() && db.Family(cf) == old(db.Family(cf))
      ensures text == old(text) && inFlight == old(inFlight)
      ensures marker == if Newest(db.Family(cf)).Some? then Newest(db.Family(cf)) else old(marker)
    {
      var tail := db.ReadRange(cf, End, 1);
      if |tail.records| > 0 && tail.records[0].key != "" {
        marker := Some(tail.records[0].key);
      }
    }

    /** A line streamed while the page is open. */
    method AppendLive(line: LogLine)
      modifies this
      ensures text == old(text) + FormatLine(line) && marker == old(marker) && inFlight == old(inFlight)
    {
      text := text + FormatLine(line);
    }

    /** `fetchPrevious`: asks for the page before the marker, if there is one. */
    method FetchPrevious()
      modifies this
      ensures text == old(text) && marker == old(marker)
      ensures inFlight == old(inFlight) + if marker.Some? then [Asked(marker.value)] else []
    {
      if marker.Some? {
        inFlight := inFlight + [Asked(marker.value)];
      }
    }

    /** The response handler of `fetchPrevious`: the page comes newest first and is prepended
        oldest first. An empty `next` counts as none. */
    method ShowPage(page: Page<LogLine>)
      modifies this
      ensures text == Render(Reverse(page.records)) + old(text)
      ensures marker == NextMarker(page) && inFlight == old(inFlight)
    {
      var logs := page.records;
      if |logs| > 0 {
        var textToPrepend := TextToPrepend(logs);
        text := textToPrepend + text;
      } else {
        assert Reverse(logs) == [];
      }
      if page.continueFrom.Some? && page.continueFrom.value != "" {
        marker := page.continueFrom;
      } else {
        marker := None;
      }
    }

    /** The store behind the page and what it shows. */
    ghost function Seen(db: Db<LogLine>, cf: string): Console
      reads this, db
    {
      Console(db.Family(cf), text, marker, inFlight)
    }

    /** Whatever happens next, the page and its store go on as `Apply` says. */
    method Perform(db: Db<LogLine>, cf: string, step: Step)
      requires db.Valid()
      modifies this, db
      ensures db.Valid() && Seen(db, cf) == Apply(old(Seen(db, cf)), step)
    {
      match step
      case Ask => FetchPrevious();
      case Answer(i) =>
        if i < |inFlight| && inFlight[i].Asked? {
          var page := db.ReadRange(cf, From(inFlight[i].from, Backward), PAGE_SIZE);
          inFlight := inFlight[i := Answered(inFlight[i].from, page)];
        }
      case Show(i) =>
        if i < |inFlight| && inFlight[i].Answered? {
          var page := inFlight[i].page;
          inFlight := Without(inFlight, i);
          ShowPage(page);
        }
      case Lose(i) => if i < |inFlight| { inFlight := Without(inFlight, i); }
      case Live(line) => AppendLive(line);
      case Insert(key, line) => db.Write(cf, key, line);
    }
  }

  /** The largest key, unless it is empty. */
  function Newest(store: seq<Record<LogLine>>): Option<string>
  {
    if store == [] || store[|store| - 1].key == "" then None else Some(store[|store| - 1].key)
  }

  /** Reading backwards from the newest line covers the whole log. */
  lemma NewestCoversAll(store: seq<Record<LogLine>>)
    requires Sorted(store) && Newest(store).Some?
    ensures store[..CountUpTo(store, Newest(store).value)] == store
  {
    SeekLands(store, |store| - 1);
  }

  /** The loop of `fetchPrevious`: from the last line of the page down to the first. */
  method TextToPrepend(logs: seq<Record<LogLine>>) returns (textToPrepend: string)
    ensures textToPrepend == Render(Reverse(logs))
  {
    textToPrepend := "";
    var i := |logs| - 1;
    ghost var pieces := Formatted(Reverse(logs));
    while i >= 0
      invariant -1 <= i < |logs|
      invariant textToPrepend == Joined(pieces[..|logs| - 1 - i])
    {
      var n := |logs| - 1 - i;
      assert pieces[n] == FormatLine(logs[i].value);
      JoinedConcat(pieces[..n], [pieces[n]]);
      assert pieces[..n + 1] == pieces[..n] + [pieces[n]];
      assert Joined([pieces[n]]) == pieces[n] + Joined([]);
      textToPrepend := textToPrepend + FormatLine(logs[i].value);
      i := i - 1;
    }
    assert pieces[..|logs|] == pieces;
  }

  function NextMarker<V>(page: Page<V>): Option<string>
  {
    if page.continueFrom.Some? && page.continueFrom.value != "" then page.continueFrom else None
  }

  // ---- Runs ------------------------------------------------------------------------------

  /** What a run is made of: the user asks for a page, the route answers a request, an answer is
      shown, a request fails, a line streams in, a record is stored. */
  datatype Step =
    | Ask
    | Answer(i: nat)
    | Show(i: nat)
    | Lose(i: nat)
    | Live(line: LogLine)
    | Insert(key: string, line: LogLine)

  datatype Console = Console(
    store: seq<Record<LogLine>>, text: string, marker: Option<string>, inFlight: seq<Request>)

  function Without(requests: seq<Request>, i: nat): seq<Request>
    requires i < |requests|
  {
    requests[..i] + requests[i + 1..]
  }

  function PageAt(store: seq<Record<LogLine>>, from: string): Page<LogLine>
  {
    FirstPage(Scan(store, From(from, Backward)), PAGE_SIZE)
  }

  /** The step puts a page on the screen. */
  predicate Shows(c: Console, step: Step)
  {
    step.Show? && step.i < |c.inFlight| && c.inFlight[step.i].Answered?
  }

  /** Steps that are not possible change nothing. */
  function Apply(c: Console, step: Step): Console
  {
    match step
    case Ask => c.(inFlight := c.inFlight + if c.marker.Some? then [Asked(c.marker.value)] else [])
    case Answer(i) =>
      if i < |c.inFlight| && c.inFlight[i].Asked? then
        var from := c.inFlight[i].from;
        c.(inFlight := c.inFlight[i := Answered(from, PageAt(c.store, from))])
      else c
    case Show(i) =>
      if Shows(c, step) then
        var page := c.inFlight[i].page;
        Console(c.store, Render(Reverse(page.records)) + c.text, NextMarker(page), Without(c.inFlight, i))
      else c
    case Lose(i) => if i < |c.inFlight| then c.(inFlight := Without(c.inFlight, i)) else c
    case Live(line) => c.(text := c.text + FormatLine(line))
    case Insert(key, line) => c.(store := Put(c.store, key, line))
  }

  function Run(c: Console, steps: seq<Step>): Console
    decreases |steps|
  {
    if steps == [] then c else Run(Apply(c, steps[0]), steps[1..])
  }

  function StepText(step: Step): string
  {
    if step.Live? then FormatLine(step.line) else ""
  }

  function LiveText(steps: seq<Step>): string
  {
    if steps == [] then "" else StepText(steps[0]) + LiveText(steps[1..])
  }

  /** The records a step puts on the screen, in the order they stand there. */
  function StepShown(c: Console, step: Step): seq<Record<LogLine>>
  {
    if Shows(c, step) then Reverse(c.inFlight[step.i].page.records) else []
  }

  function Shown(c: Console, steps: seq<Step>): seq<Record<LogLine>>
    decreases |steps|
  {
    if steps == [] then [] else Shown(Apply(c, steps[0]), steps[1..]) + StepShown(c, steps[0])
  }

  function StepPages(c: Console, step: Step): nat { if Shows(c, step) then 1 else 0 }

  function Pages(c: Console, steps: seq<Step>): nat
    decreases |steps|
  {
    if steps == [] then 0 else StepPages(c, steps[0]) + Pages(Apply(c, steps[0]), steps[1..])
  }

  /** The step shows no page, or the one that was asked for at the present marker. */
  predicate InTime(c: Console, step: Step) { Shows(c, step) ==> c.marker == Some(c.inFlight[step.i].from) }

  predicate AllInTime(c: Console, steps: seq<Step>)
    decreases |steps|
  {
    steps == [] || (InTime(c, steps[0]) && AllInTime(Apply(c, steps[0]), steps[1..]))
  }

  predicate NoneTwice(records: seq<Record<LogLine>>)
  {
    forall i, j :: 0 <= i < j < |records| ==> records[i].key != records[j].key
  }

  /** Records stored during the run sort after the start of the read, as later timestamps do. */
  predicate OnlyNewer(steps: seq<Step>, start: string)
  {
    steps == [] || ((steps[0].Insert? ==> Less(start, steps[0].key)) && OnlyNewer(steps[1..], start))
  }

  lemma Associative(a: string, b: string, c: string)
    ensures (a + b) + c == a + (b + c)
  {
  }

  // ---- The store while it is read --------------------------------------------------------

  /** A key above `k` leaves everything at or below `k` alone. */
  lemma {:induction false} PutAbove<V>(s: seq<Record<V>>, key: string, value: V, k: string)
    requires Less(k, key)
    ensures CountUpTo(Put(s, key, value), k) == CountUpTo(s, k)
    ensures Put(s, key, value)[..CountUpTo(s, k)] == s[..CountUpTo(s, k)]
  {
    if s == [] {
    } else if Less(key, s[0].key) {
      Transitive(k, key, s[0].key);
    } else if s[0].key == key {
    } else if !Less(k, s[0].key) {
      PutAbove(s[1..], key, value, k);
      var n := CountUpTo(s[1..], k);
      assert s[..n + 1] == [s[0]] + s[1..][..n];
      assert Put(s, key, value)[..n + 1] == [s[0]] + Put(s[1..], key, value)[..n];
    }
  }

  lemma {:induction false} CountInPrefix<V>(s: seq<Record<V>>, n: nat, k: string)
    requires CountUpTo(s, k) <= n <= |s|
    ensures CountUpTo(s[..n], k) == CountUpTo(s, k)
  {
    if n > 0 && !Less(k, s[0].key) {
      assert s[..n][1..] == s[1..][..n - 1];
      CountInPrefix(s[1..], n - 1, k);
    }
  }

  lemma CountGrows<V>(s: seq<Record<V>>, k: string, start: string)
    requires Sorted(s) && !Less(start, k)
    ensures CountUpTo(s, k) <= CountUpTo(s, start)
  {
    CountUpToSplits(s, k);
    CountUpToSplits(s, start);
    var n := CountUpTo(s, start);
    if n < CountUpTo(s, k) {
      assert Less(start, s[n].key) && !Less(k, s[n].key);
      Trichotomy(start, k);
      if k != start { Transitive(k, start, s[n].key); }
    }
  }

  function AfterFetch(unread: nat): nat
  {
    if unread <= PAGE_SIZE then 0 else unread - PAGE_SIZE
  }

  /** The page before position `at` of the `older` records. */
  ghost predicate IsPage(page: Page<LogLine>, older: seq<Record<LogLine>>, at: nat)
  {
    var n := AfterFetch(at);
    && at <= |older| && Reverse(page.records) == older[n..at]
    && NextMarker(page) == (if n == 0 then None else Some(older[n - 1].key))
  }

  /** `older` is what the store holds at or before `start`. */
  ghost predicate Holds(store: seq<Record<LogLine>>, start: string, older: seq<Record<LogLine>>)
  {
    && Sorted(store) && CountUpTo(store, start) == |older| && store[..|older|] == older
    && (forall i :: 0 <= i < |older| ==> older[i].key != "")
  }

  lemma HoldsSorted(store: seq<Record<LogLine>>, start: string, older: seq<Record<LogLine>>, n: nat)
    requires Holds(store, start, older) && n < |older|
    ensures Sorted(older) && !Less(start, older[n].key) && CountUpTo(older, older[n].key) == n + 1
  {
    assert forall i :: 0 <= i < |older| ==> older[i] == store[i];
    SeekLands(older, n);
    CountUpToSplits(store, start);
  }

  /** The page the route answers with, whatever has been stored meanwhile. */
  lemma PageBefore(store: seq<Record<LogLine>>, start: string, older: seq<Record<LogLine>>, from: string)
    requires Holds(store, start, older) && !Less(start, from)
    ensures IsPage(PageAt(store, from), older, CountUpTo(older, from))
  {
    CountGrows(store, from, start);
    CountInPrefix(store, |older|, from);
    var at := CountUpTo(store, from);
    assert store[..at] == older[..at];
    FirstPageIsPage(older, at);
  }

  lemma FirstPageIsPage(older: seq<Record<LogLine>>, at: nat)
    requires at <= |older| && forall i :: 0 <= i < |older| ==> older[i].key != ""
    ensures IsPage(FirstPage(Reverse(older[..at]), PAGE_SIZE), older, at)
  {
  }

  // ---- Requests in flight ----------------------------------------------------------------

  /** A request from a marker the page has had, and the answer it got. */
  ghost predicate RequestOk(r: Request, start: string, older: seq<Record<LogLine>>)
  {
    && !Less(start, r.from)
    && (r.Answered? ==> IsPage(r.page, older, CountUpTo(older, r.from)))
  }

  /** The request is for the next page, or for one that is on the screen already. */
  ghost predicate Aims(r: Request, marker: Option<string>, older: seq<Record<LogLine>>, unread: nat)
  {
    older == [] || marker == Some(r.from) || CountUpTo(older, r.from) > unread
  }

  /** Where a run stands: `unread` of the `older` records are still to be shown. */
  ghost predicate Reading(c: Console, start: string, older: seq<Record<LogLine>>, unread: nat)
  {
    && Holds(c.store, start, older) && unread <= |older|
    && (c.marker.None? ==> unread == 0)
    && (c.marker.Some? ==>
          !Less(start, c.marker.value) && CountUpTo(older, c.marker.value) == unread && (unread == 0 ==> older == []))
    && (forall r :: r in c.inFlight ==> RequestOk(r, start, older) && Aims(r, c.marker, older, unread))
  }

  lemma InsertReads(c: Console, start: string, older: seq<Record<LogLine>>, unread: nat, key: string, line: LogLine)
    requires Reading(c, start, older, unread) && Less(start, key)
    ensures Reading(Apply(c, Insert(key, line)), start, older, unread)
  {
    PutKeepsSorted(c.store, key, line);
    PutAbove(c.store, key, line, start);
  }

  lemma AnswerReads(c: Console, start: string, older: seq<Record<LogLine>>, unread: nat, i: nat)
    requires Reading(c, start, older, unread)
    ensures Reading(Apply(c, Answer(i)), start, older, unread)
  {
    if i < |c.inFlight| && c.inFlight[i].Asked? {
      assert c.inFlight[i] in c.inFlight;
      PageBefore(c.store, start, older, c.inFlight[i].from);
    }
  }

  /** A page that was asked for at the present marker is the next one. */
  lemma ShowReads(c: Console, start: string, older: seq<Record<LogLine>>, unread: nat, i: nat)
    requires Reading(c, start, older, unread) && Shows(c, Show(i)) && (InTime(c, Show(i)) || older == [])
    ensures Reading(Apply(c, Show(i)), start, older, AfterFetch(unread))
    ensures StepShown(c, Show(i)) == older[AfterFetch(unread)..unread]
    ensures Apply(c, Show(i)).marker == None <==> AfterFetch(unread) == 0
  {
    var r, n := c.inFlight[i], AfterFetch(unread);
    assert r in c.inFlight;
    assert CountUpTo(older, r.from) == unread;
    if n > 0 { HoldsSorted(c.store, start, older, n - 1); }
    var after := Apply(c, Show(i));
    forall q | q in after.inFlight ensures RequestOk(q, start, older) && Aims(q, after.marker, older, n) {
      assert q in c.inFlight;
    }
  }

  /** A step that shows nothing, or the next page. */
  lemma StepReads(c: Console, step: Step, start: string, older: seq<Record<LogLine>>, unread: nat)
    requires Reading(c, start, older, unread) && (InTime(c, step) || older == [])
    requires step.Insert? ==> Less(start, step.key)
    ensures Reading(Apply(c, step), start, older, if Shows(c, step) then AfterFetch(unread) else unread)
    ensures StepShown(c, step) == older[if Shows(c, step) then AfterFetch(unread) else unread..unread]
  {
    match step
    case Ask =>
    case Answer(i) => AnswerReads(c, start, older, unread, i);
    case Show(i) => if Shows(c, step) { ShowReads(c, start, older, unread, i); }
    case Lose(i) =>
    case Live(line) =>
    case Insert(key, line) => InsertReads(c, start, older, unread, key, line);
  }

  // ---- Runs ------------------------------------------------------------------------------

  /** Of `total` records, those left after that many pages. */
  function Unread(total: nat, pages: nat): (left: nat)
    ensures left <= total
  {
    if total <= PAGE_SIZE * pages then 0 else total - PAGE_SIZE * pages
  }

  lemma UnreadSteps(unread: nat, shows: bool, pages: nat)
    ensures Unread(if shows then AfterFetch(unread) else unread, pages)
         == Unread(unread, (if shows then 1 else 0) + pages)
  {
  }

  lemma SlicesJoin(older: seq<Record<LogLine>>, n: nat, m: nat, k: nat)
    requires n <= m <= k <= |older|
    ensures older[n..m] + older[m..k] == older[n..k]
  {
  }

  lemma TailsJoin(later: seq<Record<LogLine>>, older: seq<Record<LogLine>>, n: nat, m: nat)
    requires n <= m <= |older|
    ensures later + older[n..m] + older[m..] == later + older[n..]
  {
  }

  /** The text is what was shown, in front of what was there and the live lines. */
  lemma {:induction false} TextIsShown(c: Console, steps: seq<Step>)
    ensures Run(c, steps).text == Render(Shown(c, steps)) + (c.text + LiveText(steps))
    decreases |steps|
  {
    if steps == [] {
      assert c.text + "" == c.text && Render([]) == "";
    } else {
      var next, rest := Apply(c, steps[0]), steps[1..];
      TextIsShown(next, rest);
      TextStep(c, steps[0]);
      TextJoins(Shown(next, rest), StepShown(c, steps[0]), c.text, StepText(steps[0]), LiveText(rest));
    }
  }

  lemma TextStep(c: Console, step: Step)
    ensures Apply(c, step).text == Render(StepShown(c, step)) + (c.text + StepText(step))
  {
    assert c.text + "" == c.text && Render([]) == "";
  }

  lemma TextJoins(later: seq<Record<LogLine>>, now: seq<Record<LogLine>>, text: string, live: string, lives: string)
    ensures Render(later) + (Render(now) + (text + live) + lives) == Render(later + now) + (text + (live + lives))
  {
    RenderConcat(later, now);
    Associative(text, live, lives);
    Associative(Render(now), text + live, lives);
    Associative(Render(later), Render(now), text + (live + lives));
  }

  /** As long as only next pages are shown, they follow each other without a gap. */
  lemma {:induction false} RunReads(c: Console, steps: seq<Step>, start: string, older: seq<Record<LogLine>>,
                                   unread: nat)
    requires Reading(c, start, older, unread) && OnlyNewer(steps, start)
    requires AllInTime(c, steps) || older == []
    ensures Reading(Run(c, steps), start, older, Unread(unread, Pages(c, steps)))
    ensures Shown(c, steps) == older[Unread(unread, Pages(c, steps))..unread]
    decreases |steps|
  {
    if steps != [] {
      var next, rest := Apply(c, steps[0]), steps[1..];
      var left := if Shows(c, steps[0]) then AfterFetch(unread) else unread;
      StepReads(c, steps[0], start, older, unread);
      RunReads(next, rest, start, older, left);
      UnreadSteps(unread, Shows(c, steps[0]), Pages(next, rest));
      SlicesJoin(older, Unread(left, Pages(next, rest)), left, unread);
    }
  }

  /** Once the oldest record is shown there is no next marker. */
  lemma {:induction false} RunEnds(c: Console, steps: seq<Step>, start: string, older: seq<Record<LogLine>>,
                                  unread: nat)
    requires Reading(c, start, older, unread) && OnlyNewer(steps, start)
    requires AllInTime(c, steps) || older == []
    requires Pages(c, steps) >= 1 && Unread(unread, Pages(c, steps)) == 0
    ensures Run(c, steps).marker == None
    decreases |steps|
  {
    var next, rest := Apply(c, steps[0]), steps[1..];
    var left := if Shows(c, steps[0]) then AfterFetch(unread) else unread;
    StepReads(c, steps[0], start, older, unread);
    if Pages(next, rest) == 0 {
      ShowReads(c, start, older, unread, steps[0].i);
      NoPageKeepsMarker(next, rest);
    } else {
      RunEnds(next, rest, start, older, left);
    }
  }

  lemma {:induction false} NoPageKeepsMarker(c: Console, steps: seq<Step>)
    requires Pages(c, steps) == 0
    ensures Run(c, steps).marker == c.marker
    decreases |steps|
  {
    if steps != [] { NoPageKeepsMarker(Apply(c, steps[0]), steps[1..]); }
  }

  /** A page that was asked for at another marker is on the screen already, if there is anything to
      show. */
  lemma LatePageRepeats(c: Console, step: Step, start: string, older: seq<Record<LogLine>>, unread: nat,
                        later: seq<Record<LogLine>>)
    requires Reading(c, start, older, unread) && !InTime(c, step) && older != []
    ensures !NoneTwice(later + StepShown(c, step) + older[unread..])
  {
    var r := c.inFlight[step.i];
    assert r in c.inFlight;
    var at := CountUpTo(older, r.from);
    var page := StepShown(c, step);
    var all := later + page + older[unread..];
    assert page == older[AfterFetch(at)..at] && page[|page| - 1] == older[at - 1];
    assert all[|later| + |page| - 1] == older[at - 1] && all[|later| + |page| + at - 1 - unread] == older[at - 1];
  }

  lemma {:induction false} LateRunRepeats(c: Console, steps: seq<Step>, start: string, older: seq<Record<LogLine>>,
                                          unread: nat)
    requires Reading(c, start, older, unread) && OnlyNewer(steps, start)
    requires !AllInTime(c, steps) && older != []
    ensures !NoneTwice(Shown(c, steps) + older[unread..])
    decreases |steps|
  {
    var next, rest := Apply(c, steps[0]), steps[1..];
    if InTime(c, steps[0]) {
      var left := if Shows(c, steps[0]) then AfterFetch(unread) else unread;
      StepReads(c, steps[0], start, older, unread);
      LateRunRepeats(next, rest, start, older, left);
      TailsJoin(Shown(next, rest), older, left, unread);
    } else {
      LatePageRepeats(c, steps[0], start, older, unread, Shown(next, rest));
    }
  }

  lemma SliceHasNoneTwice(store: seq<Record<LogLine>>, start: string, older: seq<Record<LogLine>>, n: nat)
    requires Holds(store, start, older) && n <= |older|
    ensures NoneTwice(older[n..])
  {
    forall i, j | 0 <= i < j < |older[n..]| ensures older[n..][i].key != older[n..][j].key {
      assert Less(store[n + i].key, store[n + j].key);
      Irreflexive(store[n + i].key);
    }
  }

  lemma StartsReading(store: seq<Record<LogLine>>, text: string, start: string)
    requires Sorted(store) && forall i :: 0 <= i < |store| ==> store[i].key != ""
    ensures var older := store[..CountUpTo(store, start)];
      Reading(Console(store, text, Some(start), []), start, older, |older|)
  {
    Irreflexive(start);
    CountInPrefix(store, CountUpTo(store, start), start);
  }

  /** Any run that reads backwards from `start`, with any number of requests in flight, answered and
      shown in any order or lost, and newer records stored and live lines appended at any point.
      No record is on the screen twice if and only if every page was shown while the marker was
      still the one it was asked for at (or there are no records). Then the text is exactly the
      newest records at or before `start`, 50 a page, ascending, before the text that was there
      and the live lines; and there is no next marker exactly when all are shown. */
  lemma ConsoleRebuildsTheLog(store: seq<Record<LogLine>>, text: string, start: string, steps: seq<Step>)
    requires Sorted(store) && OnlyNewer(steps, start)
    requires forall i :: 0 <= i < |store| ==> store[i].key != ""
    ensures var older := store[..CountUpTo(store, start)];
      var c := Console(store, text, Some(start), []);
      var end, unread := Run(c, steps), Unread(|older|, Pages(c, steps));
      && end.text == Render(Shown(c, steps)) + (text + LiveText(steps))
      && (NoneTwice(Shown(c, steps)) <==> AllInTime(c, steps) || older == [])
      && (NoneTwice(Shown(c, steps)) ==>
            && Shown(c, steps) == older[unread..]
            && (Pages(c, steps) >= 1 ==> (end.marker == None <==> unread == 0)))
  {
    var older := store[..CountUpTo(store, start)];
    var c := Console(store, text, Some(start), []);
    StartsReading(store, text, start);
    TextIsShown(c, steps);
    if AllInTime(c, steps) || older == [] {
      RunReads(c, steps, start, older, |older|);
      var unread := Unread(|older|, Pages(c, steps));
      assert older[unread..|older|] == older[unread..];
      SliceHasNoneTwice(store, start, older, unread);
      if Pages(c, steps) >= 1 && unread == 0 { RunEnds(c, steps, start, older, |older|); }
    } else {
      LateRunRepeats(c, steps, start, older, |older|);
      assert Shown(c, steps) + older[|older|..] == Shown(c, steps);
    }
  }

  /** From the marker that `StreamLogs` sets, enough pages, each shown in time, put the whole stored log
      on the screen, in front of what was there and the live lines, and there is nothing to fetch. */
  lemma WholeLogIsShown(store: seq<Record<LogLine>>, text: string, steps: seq<Step>)
    requires Sorted(store) && Newest(store).Some? && OnlyNewer(steps, Newest(store).value)
    requires forall i :: 0 <= i < |store| ==> store[i].key != ""
    requires var c := Console(store, text, Newest(store), []);
      AllInTime(c, steps) && PAGE_SIZE * Pages(c, steps) >= |store|
    ensures var end := Run(Console(store, text, Newest(store), []), steps);
      end.text == Render(store) + (text + LiveText(steps)) && end.marker == None
  {
    NewestCoversAll(store);
    ConsoleRebuildsTheLog(store, text, Newest(store).value, steps);
    assert store[0..] == store;
  }

  lemma FirstStep(c: Console, step: Step, rest: seq<Step>)
    ensures AllInTime(c, [step] + rest) <==> InTime(c, step) && AllInTime(Apply(c, step), rest)
  {
    assert ([step] + rest)[1..] == rest;
  }

  /** Two answers to the same question: the second one is late. */
  lemma SecondAnswerIsLate(c: Console, start: string, older: seq<Record<LogLine>>)
    requires Reading(c, start, older, |older|) && older != [] && c.marker == Some(start)
    requires |c.inFlight| == 2 && forall r :: r in c.inFlight ==> r.Answered? && r.from == start
    ensures !AllInTime(c, [Show(0)] + [Show(0)])
  {
    assert c.inFlight[0] in c.inFlight && c.inFlight[1] in c.inFlight;
    var next := Apply(c, Show(0));
    ShowReads(c, start, older, |older|, 0);
    assert next.inFlight == [c.inFlight[1]];
    FirstStep(c, Show(0), [Show(0)]);
    assert !InTime(next, Show(0));
  }

  /** Two requests from the same marker, both answered. */
  function AskedTwice(c: Console): Console { Apply(Apply(Apply(Apply(c, Ask), Ask), Answer(0)), Answer(1)) }

  lemma TwoAnswers(c: Console, start: string, older: seq<Record<LogLine>>)
    requires Reading(c, start, older, |older|) && c.marker == Some(start) && c.inFlight == []
    ensures var c' := AskedTwice(c);
      && Reading(c', start, older, |older|) && c'.marker == Some(start)
      && |c'.inFlight| == 2 && forall r :: r in c'.inFlight ==> r.Answered? && r.from == start
  {
    var c1, c2 := Apply(c, Ask), Apply(Apply(c, Ask), Ask);
    StepReads(c, Ask, start, older, |older|);
    StepReads(c1, Ask, start, older, |older|);
    AnswerReads(c2, start, older, |older|, 0);
    AnswerReads(Apply(c2, Answer(0)), start, older, |older|, 1);
  }

  lemma AfterAskingTwice(c: Console, rest: seq<Step>)
    requires AllInTime(c, [Ask, Ask, Answer(0), Answer(1)] + rest)
    ensures AllInTime(AskedTwice(c), rest)
  {
    var c1, c2 := Apply(c, Ask), Apply(Apply(c, Ask), Ask);
    assert [Ask, Ask, Answer(0), Answer(1)] + rest == [Ask] + ([Ask] + ([Answer(0)] + ([Answer(1)] + rest)));
    FirstStep(c, Ask, [Ask] + ([Answer(0)] + ([Answer(1)] + rest)));
    FirstStep(c1, Ask, [Answer(0)] + ([Answer(1)] + rest));
    FirstStep(c2, Answer(0), [Answer(1)] + rest);
    FirstStep(Apply(c2, Answer(0)), Answer(1), rest);
  }

  lemma {:induction false} NoInsertIsNewer(steps: seq<Step>, start: string)
    requires forall i :: 0 <= i < |steps| ==> !steps[i].Insert?
    ensures OnlyNewer(steps, start)
    decreases |steps|
  {
    if steps != [] { NoInsertIsNewer(steps[1..], start); }
  }

  /** Asking twice before the first answer is shown puts the newest page on the screen twice,
      wherever there is anything to show. */
  lemma AskingTwiceRepeats(store: seq<Record<LogLine>>, text: string, start: string) returns (steps: seq<Step>)
    requires Sorted(store) && CountUpTo(store, start) > 0
    requires forall i :: 0 <= i < |store| ==> store[i].key != ""
    ensures steps == [Ask, Ask, Answer(0), Answer(1)] + [Show(0), Show(0)]
    ensures !NoneTwice(Shown(Console(store, text, Some(start), []), steps))
  {
    var older := store[..CountUpTo(store, start)];
    var c := Console(store, text, Some(start), []);
    var shows := [Show(0), Show(0)];
    steps := [Ask, Ask, Answer(0), Answer(1)] + shows;
    NoInsertIsNewer(steps, start);
    StartsReading(store, text, start);
    TwoAnswers(c, start, older);
    SecondAnswerIsLate(AskedTwice(c), start, older);
    assert [Show(0)] + [Show(0)] == shows;
    if AllInTime(c, steps) { AfterAskingTwice(c, shows); }
    ConsoleRebuildsTheLog(store, text, start, steps);
  }
}
