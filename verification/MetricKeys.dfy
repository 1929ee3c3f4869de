/** The 64-byte metric key: `PT30S#name####...#T000000000300` (src/mgmt-server/metrics.rs). */
module MetricKeys {
  import opened Basics
  import opened ByteOrder

  const MAX_NAME: nat := 44
  const TICK_WIDTH: nat := 12
  const MAX_TICK: nat := 999_999_999_999
  const KEY_WIDTH: nat := 64
  const U64_LIMIT: nat := 0x1_0000_0000_0000_0000

  datatype Period = PT24H | PT12H | PT06H | PT01H | PT30M | PT05M | PT01M | PT30S | PT05S

  /** What a fallible Rust function does: return a value, return an error, or panic. */
  datatype Outcome<+T> = Ok(value: T) | Err | Panic

  /** `value` stands for the `f64`; its bits are not modelled. */
  datatype DataPoint = DataPoint(name: string, period: Period, tick: nat, value: real)

  function PeriodText(p: Period): string
  {
    match p
    case PT24H => "PT24H"
    case PT12H => "PT12H"
    case PT06H => "PT06H"
    case PT01H => "PT01H"
    case PT30M => "PT30M"
    case PT05M => "PT05M"
    case PT01M => "PT01M"
    case PT30S => "PT30S"
    case PT05S => "PT05S"
  }

  lemma PeriodTexts(p: Period, q: Period)
    ensures |PeriodText(p)| == 5 && PeriodText(p)[4] != '#'
    ensures PeriodText(p) == PeriodText(q) ==> p == q
  {
    var t, u := PeriodText(p), PeriodText(q);
    assert t[2] != u[2] || t[3] != u[3] || t[4] != u[4] || p == q;
  }

  /** The source matches against the same nine texts that `PeriodText` writes. */
  function ParsePeriod(s: string): Outcome<Period>
  {
    if exists p :: PeriodText(p) == s then
      assert forall p, q :: PeriodText(p) == PeriodText(q) ==> p == q by {
        forall p, q ensures PeriodText(p) == PeriodText(q) ==> p == q { PeriodTexts(p, q); }
      }
      var p :| PeriodText(p) == s;
      Ok(p)
    else Err
  }

  lemma PeriodRoundTrip(p: Period)
    ensures |PeriodText(p)| == 5
    ensures PeriodText(p)[4] != '#'
    ensures ParsePeriod(PeriodText(p)) == Ok(p)
  {
    PeriodTexts(p, p);
    var q :| PeriodText(q) == PeriodText(p) && ParsePeriod(PeriodText(p)) == Ok(q);
    PeriodTexts(p, q);
  }

  // ---- Decimal numbers -------------------------------------------------------------------

  function Digit(d: nat): char
    requires d < 10
  {
    '0' + d as char
  }

  /** `u64::to_string`. */
  function Digits(n: nat): (s: string)
    ensures |s| >= 1
  {
    if n < 10 then [Digit(n)] else Digits(n / 10) + [Digit(n % 10)]
  }

  function Repeat(c: char, n: nat): (s: string)
    ensures |s| == n && forall i :: 0 <= i < n ==> s[i] == c
  {
    seq(n, _ => c)
  }

  function Pow10(w: nat): (r: nat)
    ensures r >= 1
  {
    if w == 0 then 1 else 10 * Pow10(w - 1)
  }

  /** The `w` low decimal digits of `n`. */
  function Fixed(n: nat, w: nat): (s: string)
    ensures |s| == w
  {
    if w == 0 then [] else Fixed(n / 10, w - 1) + [Digit(n % 10)]
  }

  function ValueOf(s: string): nat
    requires forall c :: c in s ==> IsDigit(c)
  {
    if s == [] then 0
    else
      var last := s[|s| - 1];
      assert IsDigit(last);
      ValueOf(s[..|s| - 1]) * 10 + (last as int - '0' as int)
  }

  /** `u64::from_str`: an optional plus sign, then at least one digit, no overflow. */
  function ParseU64(s: string): Outcome<nat>
  {
    var t := if s != [] && s[0] == '+' then s[1..] else s;
    if t == [] || exists c :: c in t && !IsDigit(c) then Err
    else if ValueOf(t) >= U64_LIMIT then Err
    else Ok(ValueOf(t))
  }

  lemma {:induction false} DigitsFit(n: nat, w: nat)
    requires w >= 1
    ensures |Digits(n)| <= w <==> n < Pow10(w)
  {
    if n >= 10 && w > 1 { DigitsFit(n / 10, w - 1); }
    if w == 1 { assert Pow10(1) == 10 * Pow10(0); }
    if n < 10 { assert Pow10(w) == 10 * Pow10(w - 1); }
  }

  lemma Pow10Twelve()
    ensures Pow10(TICK_WIDTH) == MAX_TICK + 1
  {
    assert Pow10(3) == 1000;
    assert Pow10(6) == 1000_000;
    assert Pow10(9) == 1000_000_000;
  }

  /** Zero padding a number that fits writes exactly its fixed-width digits. */
  lemma {:induction false} PaddedIsFixed(n: nat, w: nat)
    requires 1 <= w && n < Pow10(w)
    ensures |Digits(n)| <= w
    ensures Repeat('0', w - |Digits(n)|) + Digits(n) == Fixed(n, w)
  {
    DigitsFit(n, w);
    if n < 10 {
      ZerosAreFixed(w - 1);
      assert Fixed(n, w) == Fixed(0, w - 1) + [Digit(n)];
    } else {
      assert w > 1;
      PaddedIsFixed(n / 10, w - 1);
      assert Repeat('0', w - |Digits(n)|) + Digits(n)
          == (Repeat('0', w - 1 - |Digits(n / 10)|) + Digits(n / 10)) + [Digit(n % 10)];
    }
  }

  lemma {:induction false} ZerosAreFixed(w: nat)
    ensures Fixed(0, w) == Repeat('0', w)
  {
    if w > 0 {
      ZerosAreFixed(w - 1);
      assert Repeat('0', w) == Repeat('0', w - 1) + ['0'];
    }
  }

  lemma {:induction false} FixedOrder(m: nat, n: nat, w: nat)
    requires m < Pow10(w) && n < Pow10(w)
    ensures Less(Fixed(m, w), Fixed(n, w)) <==> m < n
    ensures Fixed(m, w) == Fixed(n, w) <==> m == n
  {
    if w > 0 {
      FixedOrder(m / 10, n / 10, w - 1);
      Blocks(Fixed(m / 10, w - 1), Fixed(n / 10, w - 1), [Digit(m % 10)], [Digit(n % 10)]);
      var a, b := Fixed(m, w), Fixed(n, w);
      assert a[..w - 1] == Fixed(m / 10, w - 1) && b[..w - 1] == Fixed(n / 10, w - 1);
      assert a[w - 1] == Digit(m % 10) && b[w - 1] == Digit(n % 10);
    }
  }

  lemma {:induction false} FixedParses(n: nat, w: nat)
    requires n < Pow10(w)
    ensures forall c :: c in Fixed(n, w) ==> IsDigit(c)
    ensures ValueOf(Fixed(n, w)) == n
  {
    if w > 0 {
      FixedParses(n / 10, w - 1);
      var s := Fixed(n, w);
      assert s[..w - 1] == Fixed(n / 10, w - 1);
    }
  }

  lemma {:induction false} DigitsRead(n: nat)
    ensures (forall c :: c in Digits(n) ==> IsDigit(c)) && ValueOf(Digits(n)) == n
  {
    var s := Digits(n);
    if n < 10 {
      assert s[..0] == [] && s == [Digit(n)];
    } else {
      DigitsRead(n / 10);
      assert s[..|s| - 1] == Digits(n / 10);
    }
  }

  /** The text of a number, with or without a plus sign, reads back exactly when it is a `u64`. */
  lemma U64RoundTrip(n: nat)
    ensures ParseU64(Digits(n)) == if n < U64_LIMIT then Ok(n) else Err
    ensures ParseU64(['+'] + Digits(n)) == if n < U64_LIMIT then Ok(n) else Err
  {
    DigitsRead(n);
    assert Digits(n)[0] in Digits(n);
    assert (['+'] + Digits(n))[1..] == Digits(n);
  }

  // ---- Keys ------------------------------------------------------------------------------

  /** A Rust `String` never starts with a UTF-8 continuation byte. */
  predicate IsText(s: string) { s != [] ==> !IsContinuation(s[0]) }

  predicate IsContinuation(c: char) { 0x80 <= c as int < 0xC0 }

  /** `validate_metric_name`. */
  predicate ValidName(name: string) { '#' !in name && |name| <= MAX_NAME }

  /** `DataPoint::new`. */
  function New(name: string, period: Period, tick: nat, value: real): Outcome<DataPoint>
  {
    if !ValidName(name) then Err
    else if |Digits(tick)| > TICK_WIDTH then Err
    else Ok(DataPoint(name, period, tick, value))
  }

  function Pad(name: string): (s: string)
    requires |name| <= MAX_NAME
    ensures |s| == MAX_NAME
  {
    name + Repeat('#', MAX_NAME - |name|)
  }

  function Max(a: int, b: int): int { if a < b then b else a }

  /** `Display for Tick`: a `T`, then the number padded with zeros to twelve digits. */
  function TickText(tick: nat): string
  {
    ['T'] + Repeat('0', Max(0, TICK_WIDTH - |Digits(tick)|)) + Digits(tick)
  }

  /** `get_lookup_key`; `pad_metric_name` underflows on a name over 44 bytes, so callers validate. */
  function LookupKey(period: Period, name: string, tick: nat): string
    requires |name| <= MAX_NAME
  {
    PeriodText(period) + ['#'] + Pad(name) + ['#'] + TickText(tick)
  }

  function TrimEnd(s: string, c: char): string
  {
    if s != [] && s[|s| - 1] == c then TrimEnd(s[..|s| - 1], c) else s
  }

  function TrimStart(s: string, c: char): string
  {
    if s != [] && s[0] == c then TrimStart(s[1..], c) else s
  }

  /** `DataPoint::try_from`. `split_at` panics when it would cut a character in two. */
  function TryFrom(key: string, value: real): Outcome<DataPoint>
  {
    if |key| != KEY_WIDTH then Err
    else if IsContinuation(key[6]) then Panic
    else
      match ParsePeriod(TrimEnd(key[..6], '#'))
      case Err => Err
      case Panic => Panic
      case Ok(period) =>
        if IsContinuation(key[51]) then Panic
        else
          var name := TrimEnd(key[6..51], '#');
          match ParseU64(TrimStart(key[51..], 'T'))
          case Err => Err
          case Panic => Panic
          case Ok(tick) => New(name, period, tick, value)
  }

  lemma {:induction false} TrimEndPadding(s: string, n: nat)
    requires s == [] || s[|s| - 1] != '#'
    ensures TrimEnd(s + Repeat('#', n), '#') == s
  {
    var padded := s + Repeat('#', n);
    if n == 0 {
      assert padded == s;
    } else {
      assert padded[..|padded| - 1] == s + Repeat('#', n - 1);
      TrimEndPadding(s, n - 1);
    }
  }

  /** `DataPoint::new` accepts exactly names of at most 44 bytes without a `#`, and ticks of at most
      twelve digits. */
  lemma NewAccepts(name: string, period: Period, tick: nat, value: real)
    ensures New(name, period, tick, value)
         == if |name| <= 44 && (forall i :: 0 <= i < |name| ==> name[i] != '#') && tick <= 999_999_999_999
            then Ok(DataPoint(name, period, tick, value)) else Err
  {
    Pow10Twelve();
    DigitsFit(tick, TICK_WIDTH);
  }

  lemma TickTextFixed(tick: nat)
    requires tick <= MAX_TICK
    ensures TickText(tick) == ['T'] + Fixed(tick, TICK_WIDTH)
  {
    Pow10Twelve();
    PaddedIsFixed(tick, TICK_WIDTH);
  }

  /** A key is exactly 64 bytes if and only if its tick is at most `MAX_TICK`. */
  lemma KeyIsSixtyFourBytes(period: Period, name: string, tick: nat)
    requires |name| <= MAX_NAME
    ensures |LookupKey(period, name, tick)| == KEY_WIDTH <==> tick <= MAX_TICK
  {
    Pow10Twelve();
    PeriodRoundTrip(period);
    DigitsFit(tick, TICK_WIDTH);
  }

  /** Where `try_from` finds each field of a written key. */
  lemma KeyFields(period: Period, name: string, tick: nat)
    requires |name| <= MAX_NAME && tick <= MAX_TICK
    ensures var key := LookupKey(period, name, tick);
      && |key| == KEY_WIDTH
      && key[..6] == PeriodText(period) + Repeat('#', 1)
      && key[6] == Pad(name)[0]
      && key[6..51] == Pad(name) + ['#']
      && key[51..] == ['T'] + Fixed(tick, TICK_WIDTH)
  {
    PeriodRoundTrip(period);
    TickTextFixed(tick);
    var a, b, c := PeriodText(period) + ['#'], Pad(name) + ['#'], TickText(tick);
    var key := LookupKey(period, name, tick);
    assert key == a + b + c;
    assert key[..6] == a && key[6..51] == b && key[51..] == c;
    assert key[6] == b[0];
  }

  lemma TickFieldParses(tick: nat)
    requires tick <= MAX_TICK
    ensures ParseU64(TrimStart(['T'] + Fixed(tick, TICK_WIDTH), 'T')) == Ok(tick)
  {
    Pow10Twelve();
    FixedParses(tick, TICK_WIDTH);
    var digits := Fixed(tick, TICK_WIDTH);
    assert digits[0] in digits;
    assert (['T'] + digits)[1..] == digits;
  }

  lemma NameFieldParses(name: string)
    requires ValidName(name)
    ensures TrimEnd(Pad(name) + ['#'], '#') == name
  {
    assert Pad(name) + ['#'] == name + Repeat('#', MAX_NAME + 1 - |name|);
    assert name == [] || name[|name| - 1] in name;
    TrimEndPadding(name, MAX_NAME + 1 - |name|);
  }

  /** Reading a written key gives back its period, name and tick. */
  lemma KeyRoundTrip(period: Period, name: string, tick: nat, value: real)
    requires ValidName(name) && IsText(name) && tick <= MAX_TICK
    ensures TryFrom(LookupKey(period, name, tick), value) == Ok(DataPoint(name, period, tick, value))
  {
    KeyFields(period, name, tick);
    PeriodRoundTrip(period);
    TrimEndPadding(PeriodText(period), 1);
    NameFieldParses(name);
    TickFieldParses(tick);
    NewAccepts(name, period, tick, value);
  }

  /** What `try_from` does with any key at all, also one that nobody wrote: only keys of 64 bytes are
      read, those whose fields begin inside a character make it panic, and whatever it reads is a
      point that `DataPoint::new` accepts. */
  lemma ForeignKeys(key: string, value: real)
    ensures |key| != 64 ==> TryFrom(key, value).Err?
    ensures |key| == 64 && IsContinuation(key[6]) ==> TryFrom(key, value).Panic?
    ensures |key| == 64 && IsContinuation(key[51]) ==> !TryFrom(key, value).Ok?
    ensures |key| == 64 && IsContinuation(key[51]) && (exists p :: key[..6] == PeriodText(p) + ['#']) ==>
      TryFrom(key, value).Panic?
    ensures |key| == 64 && !IsContinuation(key[6]) && !IsContinuation(key[51]) ==> !TryFrom(key, value).Panic?
    ensures match TryFrom(key, value)
            case Ok(dp) => New(dp.name, dp.period, dp.tick, dp.value) == Ok(dp) && dp.value == value
            case _ => true
  {
    if |key| == 64 && exists p :: key[..6] == PeriodText(p) + ['#'] {
      var p :| key[..6] == PeriodText(p) + ['#'];
      PeriodRoundTrip(p);
      TrimEndPadding(PeriodText(p), 1);
      assert PeriodText(p) + Repeat('#', 1) == key[..6];
    }
  }

  /** A point whose name fits is accepted if and only if its key reads back as that point. */
  lemma AcceptedIsWhatReadsBack(period: Period, name: string, tick: nat, value: real)
    requires |name| <= MAX_NAME && IsText(name) && tick <= MAX_TICK
    ensures New(name, period, tick, value).Ok?
       <==> TryFrom(LookupKey(period, name, tick), value) == Ok(DataPoint(name, period, tick, value))
  {
    NewAccepts(name, period, tick, value);
    if ValidName(name) { KeyRoundTrip(period, name, tick, value); }
  }

  /** Different points never share a key. */
  lemma KeysAreInjective(p: Period, m: string, s: nat, q: Period, n: string, t: nat)
    requires ValidName(m) && IsText(m) && s <= MAX_TICK
    requires ValidName(n) && IsText(n) && t <= MAX_TICK
    requires LookupKey(p, m, s) == LookupKey(q, n, t)
    ensures p == q && m == n && s == t
  {
    KeyRoundTrip(p, m, s, 0.0);
    KeyRoundTrip(q, n, t, 0.0);
  }

  lemma PadIsInjective(m: string, n: string)
    requires ValidName(m) && ValidName(n) && Pad(m) == Pad(n)
    ensures m == n
  {
    assert m == [] || m[|m| - 1] in m;
    assert n == [] || n[|n| - 1] in n;
    TrimEndPadding(m, MAX_NAME - |m|);
    TrimEndPadding(n, MAX_NAME - |n|);
  }

  /** Within one period, keys order first by padded name, then by whatever follows. */
  lemma KeyBlocks(period: Period, m: string, s: nat, n: string, t: nat)
    requires |m| <= MAX_NAME && |n| <= MAX_NAME
    ensures Less(LookupKey(period, m, s), LookupKey(period, n, t))
       <==> Less(Pad(m), Pad(n)) || (Pad(m) == Pad(n) && Less(TickText(s), TickText(t)))
  {
    var head := PeriodText(period) + ['#'];
    var x, y := ['#'] + TickText(s), ['#'] + TickText(t);
    assert LookupKey(period, m, s) == head + (Pad(m) + x);
    assert LookupKey(period, n, t) == head + (Pad(n) + y);
    Blocks(head, head, Pad(m) + x, Pad(n) + y);
    Irreflexive(head);
    Blocks(Pad(m), Pad(n), x, y);
    Blocks(['#'], ['#'], TickText(s), TickText(t));
  }

  /** Bytewise order on keys of one period is lexicographic order on (padded name, tick number). */
  lemma KeyOrder(period: Period, m: string, s: nat, n: string, t: nat)
    requires ValidName(m) && ValidName(n) && s <= MAX_TICK && t <= MAX_TICK
    ensures Less(LookupKey(period, m, s), LookupKey(period, n, t))
       <==> Less(Pad(m), Pad(n)) || (m == n && s < t)
  {
    KeyBlocks(period, m, s, n, t);
    if Pad(m) == Pad(n) { PadIsInjective(m, n); }
    TickTextFixed(s);
    TickTextFixed(t);
    Blocks(['T'], ['T'], Fixed(s, TICK_WIDTH), Fixed(t, TICK_WIDTH));
    Pow10Twelve();
    FixedOrder(s, t, TICK_WIDTH);
  }

  /** Each metric's keys form one block: nothing of another metric sorts between two of them. */
  lemma MetricsAreContiguous(period: Period, m: string, s: nat, n: string, t: nat, u: nat)
    requires ValidName(m) && ValidName(n) && s <= MAX_TICK && t <= MAX_TICK && u <= MAX_TICK
    requires Less(LookupKey(period, m, s), LookupKey(period, n, t))
    requires Less(LookupKey(period, n, t), LookupKey(period, m, u))
    ensures n == m && s < t < u
  {
    KeyOrder(period, m, s, n, t);
    KeyOrder(period, n, t, m, u);
    if Less(Pad(m), Pad(n)) {
      Asymmetric(Pad(m), Pad(n));
    }
  }

  // ---- Ticks past MAX_TICK ---------------------------------------------------------------

  /** The leading twelve digits of a number with more than twelve; the number itself otherwise. */
  function Lead(n: nat): (h: nat)
    ensures h <= MAX_TICK
    ensures n <= MAX_TICK ==> h == n
  {
    if n <= MAX_TICK then n else Lead(n / 10)
  }

  /** How a stored tick compares with any looked-up tick, in or out of range: a longer number
      sorts right after its own leading twelve digits. */
  lemma {:induction false} TickTextOrder(t: nat, from: nat)
    requires t <= MAX_TICK
    ensures Less(TickText(t), TickText(from)) <==> if from <= MAX_TICK then t < from else t <= Lead(from)
    ensures TickText(t) == TickText(from) <==> t == from
  {
    Pow10Twelve();
    TickTextFixed(t);
    var x := Fixed(t, TICK_WIDTH);
    if from <= MAX_TICK {
      TickTextFixed(from);
      Blocks(['T'], ['T'], x, Fixed(from, TICK_WIDTH));
      FixedOrder(t, from, TICK_WIDTH);
      assert TickText(t)[1..] == x && TickText(from)[1..] == Fixed(from, TICK_WIDTH);
    } else {
      DigitsFit(from, TICK_WIDTH);
      assert TickText(from) == ['T'] + Digits(from);
      Blocks(['T'], ['T'], x, Digits(from));
      LongNumberOrder(t, from);
      assert |TickText(t)| == 13 < |TickText(from)|;
    }
  }

  lemma {:induction false} LongNumberOrder(t: nat, from: nat)
    requires t <= MAX_TICK < from
    ensures |Digits(from)| > TICK_WIDTH
    ensures Less(Fixed(t, TICK_WIDTH), Digits(from)) <==> t <= Lead(from)
  {
    Pow10Twelve();
    DigitsFit(from, TICK_WIDTH);
    var h, d := from / 10, [Digit(from % 10)];
    var x := Fixed(t, TICK_WIDTH);
    if h <= MAX_TICK {
      DigitsFit(h, TICK_WIDTH);
      assert |Digits(from)| == |Digits(h)| + 1;
      PaddedIsFixed(h, TICK_WIDTH);
      assert Digits(h) == Fixed(h, TICK_WIDTH);
      Blocks(x, Digits(h), [], d);
      assert x + [] == x;
      FixedOrder(t, h, TICK_WIDTH);
    } else {
      LongNumberOrder(t, h);
      LongerTail(x, Digits(h), d);
    }
  }
}
