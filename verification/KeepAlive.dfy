/** The keep-alive of the agent connection: one task pings and counts, the other resets the count
    on each Pong (src/mgmt-server/clients.rs; Ping and Pong of sections 5.5.2 and 5.5.3 of RFC 6455). */
module KeepAlive {

  const LIMIT: nat := 3

  /** Where the keep-alive task is: about to load the counter, asleep before its ping, or between
      the ping and the increment. */
  datatype Pc = Checking | Asleep | Pinged | Exited

  datatype Event = Ping | Increment | Pong | GaveUp

  /** `missed` is the atomic `u8`; `history` records what happened, in order. */
  datatype State = State(missed: nat, pc: Pc, history: seq<Event>)

  const INITIAL := State(0, Checking, [])

  datatype Action = KeepAliveStep | PongReceived

  /** One atomic step of either task; an exited task no longer moves. */
  function Step(s: State, a: Action): State
  {
    match a
    case PongReceived => s.(missed := 0, history := s.history + [Pong])
    case KeepAliveStep =>
      match s.pc
      case Checking =>
        if s.missed < LIMIT then s.(pc := Asleep) else s.(pc := Exited, history := s.history + [GaveUp])
      case Asleep => s.(pc := Pinged, history := s.history + [Ping])
      case Pinged => State(if s.missed == 255 then 0 else s.missed + 1, Checking, s.history + [Increment])
      case Exited => s
  }

  function Run(actions: seq<Action>): State
  {
    if actions == [] then INITIAL else Step(Run(actions[..|actions| - 1]), actions[|actions| - 1])
  }

  /** How often `e` happened since the last Pong. */
  function SincePong(history: seq<Event>, e: Event): nat
  {
    if history == [] then 0
    else
      var last := history[|history| - 1];
      if last == Pong then 0
      else SincePong(history[..|history| - 1], e) + (if last == e then 1 else 0)
  }

  /** The last ping has not been counted yet: the last event that is no Pong is a Ping. */
  predicate Uncounted(history: seq<Event>)
  {
    history != [] &&
    var last := history[|history| - 1];
    if last == Pong then Uncounted(history[..|history| - 1]) else last == Ping
  }

  /** The last Pong came in between a ping and its increment. */
  predicate Late(history: seq<Event>)
  {
    history != [] &&
    var rest := history[..|history| - 1];
    if history[|history| - 1] == Pong then Uncounted(rest) else Late(rest)
  }

  /** Three increments since the last Pong, and as many pings unless that Pong was late. */
  predicate Justified(history: seq<Event>)
  {
    SincePong(history, Increment) == LIMIT && SincePong(history, Ping) == LIMIT - (if Late(history) then 1 else 0)
  }

  ghost predicate JustifiedGiveUps(history: seq<Event>)
  {
    forall i :: 0 <= i < |history| && history[i] == GaveUp ==> Justified(history[..i])
  }

  /** The counter is exact, and how pings and increments since the last Pong relate. */
  predicate Counted(s: State)
  {
    var pings, increments := SincePong(s.history, Ping), SincePong(s.history, Increment);
    && s.missed == increments <= LIMIT
    && (s.pc.Asleep? || s.pc.Pinged? ==> s.missed < LIMIT)
    && (s.pc.Pinged? <==> Uncounted(s.history))
    && pings + (if Late(s.history) then 1 else 0) == increments + (if s.pc.Pinged? then 1 else 0)
  }

  ghost predicate Inv(s: State) { Counted(s) && JustifiedGiveUps(s.history) }

  /** What one more event does to the counts. */
  lemma Counts(history: seq<Event>, f: Event)
    ensures SincePong(history + [f], Ping)
         == if f == Pong then 0 else SincePong(history, Ping) + (if f == Ping then 1 else 0)
    ensures SincePong(history + [f], Increment)
         == if f == Pong then 0 else SincePong(history, Increment) + (if f == Increment then 1 else 0)
    ensures Uncounted(history + [f]) == if f == Pong then Uncounted(history) else f == Ping
    ensures Late(history + [f]) == if f == Pong then Uncounted(history) else Late(history)
  {
    assert (history + [f])[..|history|] == history;
  }

  lemma GiveUpsGrow(history: seq<Event>, f: Event)
    requires JustifiedGiveUps(history) && (f == GaveUp ==> Justified(history))
    ensures JustifiedGiveUps(history + [f])
  {
    var longer := history + [f];
    forall i | 0 <= i < |longer| && longer[i] == GaveUp ensures Justified(longer[..i]) {
      assert longer[..i] == history[..i];
      if i == |history| { assert history[..i] == history; }
    }
  }

  lemma StepKeepsCount(s: State, a: Action)
    requires Counted(s)
    ensures Counted(Step(s, a))
  {
    match a
    case PongReceived => Counts(s.history, Pong);
    case KeepAliveStep =>
      match s.pc
      case Checking => if s.missed >= LIMIT { Counts(s.history, GaveUp); }
      case Asleep => Counts(s.history, Ping);
      case Pinged => Counts(s.history, Increment);
      case Exited =>
  }

  lemma StepKeepsInv(s: State, a: Action)
    requires Inv(s)
    ensures Inv(Step(s, a))
  {
    StepKeepsCount(s, a);
    var t := Step(s, a);
    if t.history != s.history {
      var f := t.history[|s.history|];
      assert t.history == s.history + [f];
      GiveUpsGrow(s.history, f);
    }
  }

  /** Under any interleaving the counter is the number of increments since the last Pong and never
      passes three, and the task gives up only after three increments with no Pong between. */
  lemma {:induction false} CounterIsExact(actions: seq<Action>)
    ensures Inv(Run(actions))
  {
    if actions != [] {
      CounterIsExact(actions[..|actions| - 1]);
      StepKeepsInv(Run(actions[..|actions| - 1]), actions[|actions| - 1]);
    }
  }

  /** Whenever the task gives up, three pings went unanswered if and only if the last Pong before
      did not come in between a ping and its increment; otherwise it was two. */
  lemma ThreePingsExactlyWhen(actions: seq<Action>, i: nat)
    requires i < |Run(actions).history| && Run(actions).history[i] == GaveUp
    ensures var before := Run(actions).history[..i];
      && (SincePong(before, Ping) == 3 <==> !Late(before))
      && (SincePong(before, Ping) == 2 <==> Late(before))
  {
    CounterIsExact(actions);
    assert Justified(Run(actions).history[..i]);
  }

  lemma Then(actions: seq<Action>, s: State, a: Action) returns (longer: seq<Action>)
    requires Run(actions) == s
    ensures Run(longer) == Step(s, a)
  {
    longer := actions + [a];
    assert longer[..|actions|] == actions;
  }

  /** The task can give up although only two pings went unanswered: a Pong that arrives between
      its ping and the increment is overwritten. */
  lemma AnAnsweredPingCanCount() returns (actions: seq<Action>)
    ensures Run(actions).history == [Ping, Pong, Increment, Ping, Increment, Ping, Increment, GaveUp]
    ensures SincePong(Run(actions).history[..7], Ping) == 2
  {
    var k := KeepAliveStep;
    actions := [];
    actions := Then(actions, INITIAL, k);
    actions := Then(actions, State(0, Asleep, []), k);
    actions := Then(actions, State(0, Pinged, [Ping]), PongReceived);
    var h := [Ping, Pong];
    actions := Then(actions, State(0, Pinged, h), k);
    actions := OneMiss(actions, 1, h + [Increment]);
    actions := OneMiss(actions, 2, h + [Increment, Ping, Increment]);
    actions := Then(actions, State(3, Checking, h + [Increment, Ping, Increment, Ping, Increment]), k);
    LateInTheExample(Run(actions).history[..7]);
    ThreePingsExactlyWhen(actions, 7);
  }

  lemma LateInTheExample(history: seq<Event>)
    requires history == [Ping, Pong, Increment, Ping, Increment, Ping, Increment]
    ensures Late(history)
  {
    var h := [Ping, Pong];
    Counts([], Ping);
    Counts([Ping], Pong);
    assert [] + [Ping] == [Ping] && [Ping] + [Pong] == h;
    StaysLate(h, [Increment, Ping, Increment, Ping, Increment]);
    assert history == h + [Increment, Ping, Increment, Ping, Increment];
  }

  lemma {:induction false} StaysLate(history: seq<Event>, more: seq<Event>)
    requires Late(history) && Pong !in more
    ensures Late(history + more)
    decreases |more|
  {
    if more == [] {
      assert history + more == history;
    } else {
      Counts(history, more[0]);
      StaysLate(history + [more[0]], more[1..]);
      assert history + more == history + [more[0]] + more[1..];
    }
  }

  lemma OneMiss(actions: seq<Action>, missed: nat, history: seq<Event>) returns (longer: seq<Action>)
    requires Run(actions) == State(missed, Checking, history) && missed < LIMIT
    ensures Run(longer) == State(missed + 1, Checking, history + [Ping, Increment])
  {
    longer := Then(actions, State(missed, Checking, history), KeepAliveStep);
    longer := Then(longer, State(missed, Asleep, history), KeepAliveStep);
    longer := Then(longer, State(missed, Pinged, history + [Ping]), KeepAliveStep);
    assert history + [Ping] + [Increment] == history + [Ping, Increment];
  }

  // ---- A silent peer ---------------------------------------------------------------------

  /** How many steps the task has left when no Pong arrives. */
  function StepsLeft(s: State): nat
    requires Counted(s)
  {
    match s.pc
    case Checking => 3 * (3 - s.missed) + 1
    case Asleep => 3 * (3 - s.missed)
    case Pinged => 3 * (3 - s.missed) - 1
    case Exited => 0
  }

  function Silence(n: nat): (actions: seq<Action>)
    ensures |actions| == n
  {
    seq(n, _ => KeepAliveStep)
  }

  /** After the last Pong the task runs for exactly as many steps as are left, then gives up. */
  lemma {:induction false} SilenceEndsIt(actions: seq<Action>, n: nat)
    ensures Counted(Run(actions)) && StepsLeft(Run(actions)) <= 10
    ensures Run(actions + Silence(n)).pc.Exited? <==> n >= StepsLeft(Run(actions))
    decreases n
  {
    CounterIsExact(actions);
    if n == 0 {
      assert actions + Silence(0) == actions;
    } else {
      var next := actions + [KeepAliveStep];
      assert next[..|actions|] == actions;
      CounterIsExact(next);
      SilenceEndsIt(next, n - 1);
      assert next + Silence(n - 1) == actions + Silence(n);
    }
  }

  /** A task that is given a Pong between any two of its steps never gives up. */
  lemma {:induction false} AnsweredNeverExits(actions: seq<Action>)
    requires forall i :: 0 < i < |actions| && actions[i].KeepAliveStep? ==> actions[i - 1].PongReceived?
    ensures !Run(actions).pc.Exited? && Run(actions).missed <= 1
    ensures actions != [] && actions[|actions| - 1].PongReceived? ==> Run(actions).missed == 0
    decreases |actions|
  {
    if actions != [] {
      AnsweredNeverExits(actions[..|actions| - 1]);
    }
  }
}
