/** What a subscriber is given when it cannot keep up, or has gone away. */
module EventBrokerLag {
  import opened Basics
  import opened EventBroker
  import opened EventBrokerRuns

  /** The log of the channel that `u` reads. */
  function LogOf(s: State, u: TaskId): seq<Event>
    requires Sound(s) && u in s.subs
  {
    s.channels[s.subs[u].chan].log
  }

  // ---- Polling until nothing waits -------------------------------------------------------

  predicate OnlyPolls(actions: seq<Action>, u: TaskId) { forall i :: 0 <= i < |actions| ==> actions[i] == Receive(u) }

  /** The last `n` events of a log, or all of them. */
  function LastOf(log: seq<Event>, n: nat): seq<Event> { if |log| <= n then log else log[|log| - n..] }

  /** What one poll by `u` does: it skips all but the last `capacity` events, or reads one. */
  ghost predicate Polled(s: State, u: TaskId, s': State)
    requires Sound(s) && u in s.subs
  {
    var sub, log := s.subs[u], LogOf(s, u);
    && sub.cursor < |log| && s'.channels == s.channels && s'.capacity == s.capacity
    && u in s'.subs && s'.subs[u].chan == sub.chan && s'.subs[u].topic == sub.topic && s'.subs[u].wants == sub.wants
    && (if |log| - sub.cursor > s.capacity
        then s'.subs[u].cursor == |log| - s.capacity && s'.subs[u].delivered == sub.delivered
        else s'.subs[u].cursor == sub.cursor + 1
             && s'.subs[u].delivered == sub.delivered + Select([log[sub.cursor]], sub.topic, sub.wants))
  }

  lemma OnePoll(s: State, u: TaskId)
    requires Inv(s) && u in s.subs && Poll(s, u).Some?
    ensures Polled(s, u, Poll(s, u).value)
  {
    assert SubOk(s, u);
    var sub, log := s.subs[u], LogOf(s, u);
    SelectSnoc([], log[sub.cursor], sub.topic, sub.wants);
    assert [] + [log[sub.cursor]] == [log[sub.cursor]];
  }

  lemma LastSkips(log: seq<Event>, cursor: nat, n: nat)
    requires cursor <= |log| && |log| - cursor > n
    ensures LastOf(log[cursor..], n) == LastOf(log[|log| - n..], n)
  {
  }

  lemma LastSteps(log: seq<Event>, cursor: nat, n: nat, given: seq<Event>, topic: Topic, wants: string -> bool)
    requires cursor < |log| && |log| - cursor <= n
    ensures given + Select([log[cursor]], topic, wants) + Select(LastOf(log[cursor + 1..], n), topic, wants)
         == given + Select(LastOf(log[cursor..], n), topic, wants)
  {
    assert log[cursor..] == [log[cursor]] + log[cursor + 1..];
    SelectAppends([log[cursor]], log[cursor + 1..], topic, wants);
  }

  /** `given` is what `u` has been given and what it wants of the last `capacity` waiting events. */
  ghost predicate GivenTheLast(s: State, u: TaskId, given: seq<Event>)
    requires u in s.subs && SubOk(s, u)
  {
    var sub, log := s.subs[u], s.channels[s.subs[u].chan].log;
    given == sub.delivered + Select(LastOf(log[sub.cursor..], s.capacity), sub.topic, sub.wants)
  }

  lemma LastOverPoll(s: State, u: TaskId, given: seq<Event>)
    requires Inv(s) && u in s.subs && Poll(s, u).Some?
    requires var s' := Poll(s, u).value; u in s'.subs && SubOk(s', u) && GivenTheLast(s', u, given)
    ensures SubOk(s, u) && GivenTheLast(s, u, given)
  {
    assert SubOk(s, u);
    var sub, log := s.subs[u], LogOf(s, u);
    OnePoll(s, u);
    if |log| - sub.cursor > s.capacity { LastSkips(log, sub.cursor, s.capacity); }
    else { LastSteps(log, sub.cursor, s.capacity, sub.delivered, sub.topic, sub.wants); }
  }

  lemma LastOfNothing(s: State, u: TaskId)
    requires u in s.subs && SubOk(s, u) && s.subs[u].cursor == |s.channels[s.subs[u].chan].log|
    ensures GivenTheLast(s, u, s.subs[u].delivered)
  {
    assert LastOf(s.channels[s.subs[u].chan].log[s.subs[u].cursor..], s.capacity) == [];
  }

  /** A subscriber that polls until nothing waits, with nothing sent in between, is given what it wants
      of the last `capacity` events that waited, in order, whether it had lagged before or not. */
  lemma {:induction false} PollsGiveTheLast(s: State, actions: seq<Action>, u: TaskId)
    requires Inv(s) && u in s.subs && OnlyPolls(actions, u) && Run(s, actions).Some?
    requires u in Run(s, actions).value.subs && Run(s, actions).value.subs[u].cursor == |LogOf(s, u)|
    ensures SubOk(s, u) && GivenTheLast(s, u, Run(s, actions).value.subs[u].delivered)
    decreases |actions|
  {
    assert SubOk(s, u);
    if actions == [] {
      LastOfNothing(s, u);
    } else {
      OnePoll(s, u);
      NextKeeps(s, actions[0]);
      PollsGiveTheLast(Next(s, actions[0]).value, actions[1..], u);
      LastOverPoll(s, u, Run(s, actions).value.subs[u].delivered);
    }
  }

  /** A live subscriber can poll until nothing waits. */
  lemma {:induction false} PollsCanEnd(s: State, u: TaskId) returns (actions: seq<Action>)
    requires Inv(s) && u in s.subs && s.subs[u].alive && s.capacity >= 1
    ensures OnlyPolls(actions, u) && Run(s, actions).Some?
    ensures u in Run(s, actions).value.subs && Run(s, actions).value.subs[u].cursor == |LogOf(s, u)|
    decreases |LogOf(s, u)| - s.subs[u].cursor
  {
    assert SubOk(s, u);
    actions := [];
    if s.subs[u].cursor < |LogOf(s, u)| {
      var s' := Next(s, Receive(u)).value;
      OnePoll(s, u);
      NextKeeps(s, Receive(u));
      var rest := PollsCanEnd(s', u);
      actions := [Receive(u)] + rest;
      assert actions[1..] == rest;
    }
  }

  // ---- What is lost over a run -----------------------------------------------------------

  /** The log positions that a step makes `u` lose: at a poll that finds more than the capacity
      waiting, all but the last `capacity`. */
  function LostBy(s: State, a: Action, u: TaskId): set<nat>
    requires Sound(s)
  {
    if a == Receive(u) && u in s.subs then Skipped(LogOf(s, u), s.subs[u].cursor, s.capacity) else {}
  }

  function Span(start: nat, end: nat): (r: set<nat>)
    ensures forall i :: i in r <==> start <= i < end
    decreases end
  {
    if end <= start then {} else Span(start, end - 1) + {end - 1}
  }

  ghost function LostIn(s: State, actions: seq<Action>, u: TaskId): set<nat>
    requires Inv(s)
    decreases |actions|
  {
    if actions == [] || Next(s, actions[0]).None? then {}
    else
      NextKeeps(s, actions[0]);
      LostBy(s, actions[0], u) + LostIn(Next(s, actions[0]).value, actions[1..], u)
  }

  /** The events of a log from `start` to `end`, less those at the `lost` positions. */
  function Heard(log: seq<Event>, start: nat, end: nat, lost: set<nat>): seq<Event>
    requires end <= |log|
    decreases end
  {
    if end <= start then []
    else Heard(log, start, end - 1, lost) + if end - 1 in lost then [] else [log[end - 1]]
  }

  lemma {:induction false} HeardJoins(log: seq<Event>, a: nat, b: nat, c: nat, lost: set<nat>)
    requires a <= b <= c <= |log|
    ensures Heard(log, a, c, lost) == Heard(log, a, b, lost) + Heard(log, b, c, lost)
    decreases c
  {
    if b < c { HeardJoins(log, a, b, c - 1, lost); }
  }

  /** Only the positions in between matter, and what is there. */
  lemma {:induction false} HeardSame(log: seq<Event>, log': seq<Event>, a: nat, b: nat, lost: set<nat>, lost': set<nat>)
    requires b <= |log| && log <= log' && forall i :: a <= i < b ==> (i in lost <==> i in lost')
    ensures Heard(log, a, b, lost) == Heard(log', a, b, lost')
    decreases b
  {
    if a < b { HeardSame(log, log', a, b - 1, lost, lost'); }
  }

  lemma {:induction false} HeardNothing(log: seq<Event>, a: nat, b: nat, lost: set<nat>)
    requires b <= |log| && forall i :: a <= i < b ==> i in lost
    ensures Heard(log, a, b, lost) == []
    decreases b
  {
    if a < b { HeardNothing(log, a, b - 1, lost); }
  }

  /** What one step gives `u` is what it wants of the positions it passes and does not lose. */
  lemma StepHears(s: State, a: Action, u: TaskId)
    requires Inv(s) && Next(s, a).Some? && u in s.subs
    ensures var s' := Next(s, a).value;
      && Inv(s') && u in s'.subs && Extends(s, s') && s.subs[u].cursor <= s'.subs[u].cursor <= |LogOf(s, u)|
      && (forall i :: i in LostBy(s, a, u) ==> s.subs[u].cursor <= i < s'.subs[u].cursor)
      && s'.subs[u].delivered == s.subs[u].delivered
           + Select(Heard(LogOf(s, u), s.subs[u].cursor, s'.subs[u].cursor, LostBy(s, a, u)),
                    s.subs[u].topic, s.subs[u].wants)
  {
    NextKeeps(s, a);
    StepExtends(s, a);
    assert SubOk(s, u);
    if a == Receive(u) {
      OnePoll(s, u);
      PollHears(s, u, Next(s, a).value);
    } else {
      OnlyPollsDeliver(s, a, u);
      assert Select([], s.subs[u].topic, s.subs[u].wants) == [];
    }
  }

  lemma PollHears(s: State, u: TaskId, s': State)
    requires Sound(s) && u in s.subs && Polled(s, u, s')
    ensures s.subs[u].cursor <= s'.subs[u].cursor <= |LogOf(s, u)|
    ensures forall i :: i in LostBy(s, Receive(u), u) ==> s.subs[u].cursor <= i < s'.subs[u].cursor
    ensures s'.subs[u].delivered == s.subs[u].delivered
      + Select(Heard(LogOf(s, u), s.subs[u].cursor, s'.subs[u].cursor, LostBy(s, Receive(u), u)),
               s.subs[u].topic, s.subs[u].wants)
  {
    var sub := s.subs[u];
    OneHeard(LogOf(s, u), sub.cursor, s.capacity, sub.delivered, s'.subs[u].cursor, s'.subs[u].delivered, sub.topic,
        sub.wants);
  }

  /** What a poll loses of a log of which `cursor` events have been read. */
  function Skipped(log: seq<Event>, cursor: nat, n: nat): (r: set<nat>)
    ensures forall i :: i in r ==> cursor <= i < |log| - n
  {
    if |log| - cursor > n then Span(cursor, |log| - n) else {}
  }

  lemma OneHeard(log: seq<Event>, cursor: nat, n: nat, given: seq<Event>, cursor': nat, given': seq<Event>,
                 topic: Topic, wants: string -> bool)
    requires cursor < |log|
    requires if |log| - cursor > n then cursor' == |log| - n && given' == given
             else cursor' == cursor + 1 && given' == given + Select([log[cursor]], topic, wants)
    ensures cursor <= cursor' <= |log| && forall i :: i in Skipped(log, cursor, n) ==> i < cursor'
    ensures given' == given + Select(Heard(log, cursor, cursor', Skipped(log, cursor, n)), topic, wants)
  {
    if |log| - cursor > n {
      HeardNothing(log, cursor, |log| - n, Skipped(log, cursor, n));
      assert Select([], topic, wants) == [];
    } else {
      HeardOne(log, cursor);
    }
  }

  lemma HeardOne(log: seq<Event>, i: nat)
    requires i < |log|
    ensures Heard(log, i, i + 1, {}) == [log[i]]
  {
    assert Heard(log, i, i, {}) == [];
  }

  /** The positions lost from `s` on lie ahead of its cursor. */
  lemma {:induction false} LostLater(s: State, actions: seq<Action>, u: TaskId)
    requires Inv(s) && Run(s, actions).Some? && u in s.subs
    ensures forall i :: i in LostIn(s, actions, u) ==> s.subs[u].cursor <= i
    decreases |actions|
  {
    if actions != [] {
      StepHears(s, actions[0], u);
      LostLater(Next(s, actions[0]).value, actions[1..], u);
    }
  }

  lemma HeardInTwo(log: seq<Event>, log2: seq<Event>, a: nat, b: nat, c: nat, first: set<nat>,
                   later: set<nat>, topic: Topic, wants: string -> bool, given: seq<Event>)
    requires a <= b <= |log| && b <= c <= |log2| && log <= log2
    requires (forall i :: i in first ==> i < b) && (forall i :: i in later ==> b <= i)
    ensures given + Select(Heard(log, a, b, first), topic, wants) + Select(Heard(log2, b, c, later), topic, wants)
         == given + Select(Heard(log2, a, c, first + later), topic, wants)
  {
    HeardJoins(log2, a, b, c, first + later);
    HeardSame(log, log2, a, b, first, first + later);
    HeardSame(log2, log2, b, c, later, first + later);
    SelectJoins(given, Heard(log, a, b, first), Heard(log2, b, c, later), topic, wants);
  }

  lemma SelectJoins(given: seq<Event>, a: seq<Event>, b: seq<Event>, topic: Topic, wants: string -> bool)
    ensures given + Select(a, topic, wants) + Select(b, topic, wants) == given + Select(a + b, topic, wants)
  {
    SelectAppends(a, b, topic, wants);
  }

  /** From `s` to `s'`, `u` has been given what it wants of the events it has passed and not lost. */
  ghost predicate Hears(s: State, s': State, u: TaskId, lost: set<nat>)
    requires u in s.subs
  {
    && u in s'.subs && SubOk(s', u) && s.subs[u].cursor <= s'.subs[u].cursor
    && s'.subs[u].delivered == s.subs[u].delivered
         + Select(Heard(s'.channels[s'.subs[u].chan].log, s.subs[u].cursor, s'.subs[u].cursor, lost),
                  s.subs[u].topic, s.subs[u].wants)
  }

  lemma StepHearsSo(s: State, a: Action, u: TaskId)
    requires Inv(s) && Next(s, a).Some? && u in s.subs
    ensures var s' := Next(s, a).value;
      && Inv(s') && Extends(s, s') && Hears(s, s', u, LostBy(s, a, u))
      && forall i :: i in LostBy(s, a, u) ==> i < s'.subs[u].cursor
  {
    var s' := Next(s, a).value;
    StepHears(s, a, u);
    assert SubOk(s', u) && SubOk(s, u) && SubExtends(s.subs[u], s'.subs[u]);
    HeardSame(LogOf(s, u), LogOf(s', u), s.subs[u].cursor, s'.subs[u].cursor, LostBy(s, a, u), LostBy(s, a, u));
  }

  lemma HearsOn(s: State, s1: State, s2: State, u: TaskId, first: set<nat>, later: set<nat>)
    requires u in s.subs && Extends(s, s1) && Extends(s1, s2) && Hears(s, s1, u, first) && Hears(s1, s2, u, later)
    requires (forall i :: i in first ==> i < s1.subs[u].cursor) && (forall i :: i in later ==> s1.subs[u].cursor <= i)
    ensures Hears(s, s2, u, first + later)
  {
    assert SubExtends(s.subs[u], s1.subs[u]) && SubExtends(s1.subs[u], s2.subs[u]);
    var log1, log2 := s1.channels[s1.subs[u].chan].log, s2.channels[s2.subs[u].chan].log;
    HeardInTwo(log1, log2, s.subs[u].cursor, s1.subs[u].cursor, s2.subs[u].cursor, first, later,
        s.subs[u].topic, s.subs[u].wants, s.subs[u].delivered);
  }

  lemma HearsNothingYet(s: State, u: TaskId)
    requires u in s.subs && SubOk(s, u)
    ensures Hears(s, s, u, {})
  {
    assert Select([], s.subs[u].topic, s.subs[u].wants) == [];
  }

  /** Over any run a subscriber is given, in order, what it wants of everything its channel held up to
      where it has read, less exactly the events beyond the capacity at the polls that found it
      behind. */
  lemma {:induction false} LosesExactly(s: State, actions: seq<Action>, u: TaskId)
    requires Inv(s) && Run(s, actions).Some? && u in s.subs
    ensures Hears(s, Run(s, actions).value, u, LostIn(s, actions, u))
    decreases |actions|
  {
    if actions == [] {
      assert SubOk(s, u);
      HearsNothingYet(s, u);
    } else {
      var s1 := Next(s, actions[0]).value;
      StepHearsSo(s, actions[0], u);
      LosesExactly(s1, actions[1..], u);
      LostLater(s1, actions[1..], u);
      RunExtends(s1, actions[1..]);
      HearsOn(s, s1, Run(s, actions).value, u, LostBy(s, actions[0], u), LostIn(s1, actions[1..], u));
    }
  }

  // ---- After a subscriber has gone -------------------------------------------------------

  /** A subscriber that has been dropped is given nothing more. */
  lemma {:induction false} DroppedHearsNothing(s: State, actions: seq<Action>, u: TaskId)
    requires Inv(s) && u in s.subs && Run(s, [Drop(u)] + actions).Some?
    ensures var s' := Run(s, [Drop(u)] + actions).value;
      u in s'.subs && !s'.subs[u].alive && s'.subs[u].delivered == s.subs[u].delivered
  {
    assert ([Drop(u)] + actions)[1..] == actions;
    NextKeeps(s, Drop(u));
    DeadHearsNothing(Next(s, Drop(u)).value, actions, u);
  }

  lemma {:induction false} DeadHearsNothing(s: State, actions: seq<Action>, u: TaskId)
    requires Inv(s) && u in s.subs && !s.subs[u].alive && Run(s, actions).Some?
    ensures var s' := Run(s, actions).value;
      u in s'.subs && !s'.subs[u].alive && s'.subs[u].delivered == s.subs[u].delivered
    decreases |actions|
  {
    if actions != [] {
      var s' := Next(s, actions[0]).value;
      NextKeeps(s, actions[0]);
      StepExtends(s, actions[0]);
      OnlyPollsDeliver(s, actions[0], u);
      assert SubExtends(s.subs[u], s'.subs[u]);
      DeadHearsNothing(s', actions[1..], u);
    }
  }
}
