/** UTC timestamps in nanoseconds: three readers and a printer of one text format. Text is a sequence of characters. */
module Timestamp {
  import opened Outcome
  import opened Calendar

  const SECOND := 1_000_000_000

  datatype Moment = Moment(date: Date, hour: int, minute: int, second: int, nanos: int) {
    /** A moment the format can name: the nanoseconds of a second, in a minute without leap seconds, on an existing date. */
    predicate Exists() {
      date.Exists() && 0 <= hour < 24 && 0 <= minute < 60 && 0 <= second < 60 && 0 <= nanos < SECOND
    }

    predicate Before(other: Moment) {
      || date.Before(other.date)
      || (date == other.date && hour < other.hour)
      || (date == other.date && hour == other.hour && minute < other.minute)
      || (date == other.date && hour == other.hour && minute == other.minute && second < other.second)
      || (date == other.date && hour == other.hour && minute == other.minute && second == other.second && nanos < other.nanos)
    }
  }

  function Nanoseconds(m: Moment): int
    requires m.Exists()
  {
    ((DaysOf(m.date) * 24 + m.hour) * 3600 + m.minute * 60 + m.second) * SECOND + m.nanos
  }

  /** Numeric order is the lexicographic order of the components. */
  lemma NanosecondsOrder(a: Moment, b: Moment)
    requires a.Exists() && b.Exists()
    ensures Nanoseconds(a) < Nanoseconds(b) <==> a.Before(b)
  {
    DaysOrder(a.date, b.date);
    DaysOrder(b.date, a.date);
    if DaysOf(a.date) == DaysOf(b.date) { DaysInjective(a.date, b.date); }
  }

  // ---- digits ----

  predicate Digit(c: char) {
    '0' <= c <= '9'
  }

  predicate Digits(s: string) {
    forall i :: 0 <= i < |s| ==> Digit(s[i])
  }

  function Value(s: string): nat
    requires Digits(s)
  {
    if s == "" then 0
    else
      var last := |s| - 1;
      Value(s[..last]) * 10 + (s[last] as int - '0' as int)
  }

  function Power(n: nat): (r: nat)
    ensures r >= 1
  {
    if n == 0 then 1 else 10 * Power(n - 1)
  }

  lemma {:induction false} ValueBounded(s: string)
    requires Digits(s)
    ensures Value(s) < Power(|s|)
  {
    if s != "" { ValueBounded(s[..|s| - 1]); }
  }

  function Zeros(n: nat): (r: string)
    ensures |r| == n && Digits(r)
  {
    if n == 0 then "" else Zeros(n - 1) + "0"
  }

  /** Padding a fraction with zeros on the right is scaling it. */
  lemma {:induction false} PaddingScales(s: string, n: nat)
    requires Digits(s)
    ensures Value(s + Zeros(n)) == Value(s) * Power(n)
  {
    if n == 0 {
      assert s + Zeros(0) == s;
    } else {
      PaddingScales(s, n - 1);
      var padded := s + Zeros(n);
      assert padded[..|padded| - 1] == s + Zeros(n - 1);
      Regroup(Value(s), Power(n - 1));
    }
  }

  lemma Regroup(a: nat, b: nat)
    ensures a * b * 10 == a * (10 * b)
  {
  }

  // ---- the format ----

  predicate DateShaped(s: string) {
    |s| == 10 && Digits(s[..4]) && s[4] == '-' && Digits(s[5..7]) && s[7] == '-' && Digits(s[8..10])
  }

  predicate ClockShaped(s: string) {
    |s| == 8 && Digits(s[..2]) && s[2] == ':' && Digits(s[3..5]) && s[5] == ':' && Digits(s[6..8])
  }

  /** Nothing, or a point and one to nine digits. */
  predicate FractionShaped(s: string) {
    s == "" || (s[0] == '.' && 2 <= |s| <= 10 && Digits(s[1..]))
  }

  predicate TimeShaped(s: string) {
    8 <= |s| && ClockShaped(s[..8]) && FractionShaped(s[8..])
  }

  /** Four, two and two digits, a `T`, three pairs of digits, an optional fraction and a `Z`. */
  predicate Shaped(text: string) {
    && 20 <= |text| && text[|text| - 1] == 'Z' && text[10] == 'T'
    && DateShaped(text[..10]) && TimeShaped(text[11..|text| - 1])
  }

  function DateIn(s: string): Date
    requires DateShaped(s)
  {
    Date(Value(s[..4]), Value(s[5..7]), Value(s[8..10]))
  }

  /** The digits after the point, filled up to nine with zeros. */
  function FractionIn(s: string): nat
    requires FractionShaped(s)
  {
    if s == "" then 0 else Value(s[1..] + Zeros(10 - |s|))
  }

  datatype Clock = Clock(hour: nat, minute: nat, second: nat) {
    predicate Exists() {
      hour < 24 && minute < 60 && second < 60
    }
  }

  function ClockIn(s: string): Clock
    requires ClockShaped(s)
  {
    Clock(Value(s[..2]), Value(s[3..5]), Value(s[6..8]))
  }

  function MomentIn(date: string, time: string): Moment
    requires DateShaped(date) && TimeShaped(time)
  {
    var clock := ClockIn(time[..8]);
    Moment(DateIn(date), clock.hour, clock.minute, clock.second, FractionIn(time[8..]))
  }

  /** The proof validator's reader: a pattern match, then range checks and the closed-form day count. */
  function Validated(text: string): Option<int> {
    if !Shaped(text) then None
    else
      var m := MomentIn(text[..10], text[11..|text| - 1]);
      if m.Exists() && m.date.year >= 1970 then Some(Nanoseconds(m)) else None
  }

  /** The port diagnostic's reader, for the `Z` form: any existing year, so the count may be negative. */
  function PortRead(text: string): Option<int> {
    if !Shaped(text) then None
    else
      var m := MomentIn(text[..10], text[11..|text| - 1]);
      if m.Exists() then Some(Nanoseconds(m)) else None
  }

  lemma FractionBounded(s: string)
    requires FractionShaped(s)
    ensures FractionIn(s) < SECOND
    ensures s != "" ==> FractionIn(s) == Value(s[1..]) * Power(10 - |s|) && Value(s[1..]) < SECOND
  {
    if s != "" {
      PaddingScales(s[1..], 10 - |s|);
      ValueBounded(s[1..] + Zeros(10 - |s|));
      ValueBounded(s[1..]);
      PowersGrow(|s| - 1, 9);
      assert Power(9) == SECOND by { NinePlaces(); }
    }
  }

  lemma NinePlaces()
    ensures Power(9) == SECOND
  {
    assert Power(3) == 1000 by { assert Power(1) == 10; }
    assert Power(6) == 1_000_000 by { assert Power(4) == 10_000; }
    assert Power(7) == 10_000_000;
  }

  lemma {:induction false} PowersGrow(a: nat, b: nat)
    requires a <= b
    ensures Power(a) <= Power(b)
  {
    if a < b { PowersGrow(a, b - 1); }
  }

  // ---- the harness's reader ----

  function FirstIndex(s: string, c: char): (r: Option<nat>)
    ensures r.Some? ==> r.value < |s| && s[r.value] == c && c !in s[..r.value]
    ensures r.None? ==> c !in s
  {
    if s == "" then None
    else if s[0] == c then Some(0)
    else match FirstIndex(s[1..], c)
      case None => None
      case Some(i) => assert s[..i + 1] == [s[0]] + s[1..][..i]; Some(i + 1)
  }

  lemma FirstIndexIs(s: string, c: char, i: nat)
    requires i < |s| && s[i] == c && c !in s[..i]
    ensures FirstIndex(s, c) == Some(i)
  {
  }

  /** A nonempty run of digits. */
  function Number(s: string): Option<nat> {
    if s != "" && Digits(s) then Some(Value(s)) else None
  }

  /** A date in the years 1970 to 9999. */
  method ReadDate(s: string) returns (r: Option<Date>)
    ensures r.Some? <==> DateShaped(s) && DateIn(s).Exists() && DateIn(s).year >= 1970
    ensures r.Some? ==> r.value == DateIn(s)
  {
    if |s| != 10 || s[4] != '-' || s[7] != '-' { return None; }
    var year, month, day := Number(s[..4]), Number(s[5..7]), Number(s[8..10]);
    if year.None? || month.None? || day.None? { return None; }
    if !(1970 <= year.value <= 9999) || !(1 <= month.value <= 12) || day.value == 0 { return None; }
    if day.value > Months(year.value)[month.value - 1] { return None; }
    return Some(Date(year.value, month.value, day.value));
  }

  method ReadClock(s: string) returns (r: Option<Clock>)
    ensures r.Some? <==> ClockShaped(s) && ClockIn(s).Exists()
    ensures r.Some? ==> r.value == ClockIn(s)
  {
    if |s| != 8 || s[2] != ':' || s[5] != ':' { return None; }
    var hour, minute, second := Number(s[..2]), Number(s[3..5]), Number(s[6..8]);
    if hour.None? || minute.None? || second.None? { return None; }
    if hour.value > 23 || minute.value > 59 || second.value > 59 { return None; }
    return Some(Clock(hour.value, minute.value, second.value));
  }

  /** The nanoseconds of a fraction, which are scaled and not padded; the scaled value stays in 32 bits. */
  method ReadFraction(s: string) returns (r: Option<nat>)
    requires |s| <= 9
    ensures s == "" ==> r == Some(0)
    ensures s != "" ==> r == if Digits(s) then Some(FractionIn(['.'] + s)) else None
    ensures r.Some? ==> r.value < 0x1_0000_0000
  {
    if s == "" { return Some(0); }
    var digits := Number(s);
    if digits.None? { return None; }
    assert (['.'] + s)[1..] == s;
    FractionBounded(['.'] + s);
    return Some(digits.value * Power(9 - |s|));
  }

  /** The clock and the nanoseconds. */
  method ReadTime(s: string) returns (r: Option<(Clock, nat)>)
    ensures r.Some? <==> TimeShaped(s) && ClockIn(s[..8]).Exists()
    ensures r.Some? ==> r.value == (ClockIn(s[..8]), FractionIn(s[8..]))
  {
    var point := FirstIndex(s, '.');
    var clock := if point.Some? then s[..point.value] else s;
    var fraction := if point.Some? then s[point.value + 1..] else "";
    TimeSplits(s);
    if |clock| != 8 || |fraction| > 9 || (point.Some? && fraction == "") { return None; }
    assert clock == s[..8] && s[8..] == if point.Some? then ['.'] + fraction else "";
    assert point.Some? ==> s[8..][1..] == fraction;
    var read := ReadClock(clock);
    if read.None? { return None; }
    var nanos := ReadFraction(fraction);
    if nanos.None? { return None; }
    return Some((read.value, nanos.value));
  }

  /** The point of a well-shaped time follows its clock. */
  lemma TimeSplits(s: string)
    ensures TimeShaped(s) ==> FirstIndex(s, '.') == if |s| == 8 then None else Some(8)
  {
    if TimeShaped(s) {
      assert '.' !in s[..8] by {
        var c := s[..8];
        forall i | 0 <= i < 8 ensures c[i] != '.' {
          if i < 2 { assert c[i] == c[..2][i]; }
          if 3 <= i < 5 { assert c[i] == c[3..5][i - 3]; }
          if 6 <= i { assert c[i] == c[6..8][i - 6]; }
        }
      }
      if |s| == 8 { assert s[..8] == s; } else { FirstIndexIs(s, '.', 8); }
    }
  }

  /** The `T` of a well-shaped text follows its date. */
  lemma DateSplits(text: string)
    requires Shaped(text)
    ensures FirstIndex(text[..|text| - 1], 'T') == Some(10)
  {
    var body, date := text[..|text| - 1], text[..10];
    forall i | 0 <= i < 10 ensures date[i] != 'T' {
      if i < 4 { assert date[i] == date[..4][i]; }
      if 5 <= i < 7 { assert date[i] == date[5..7][i - 5]; }
      if 8 <= i { assert date[i] == date[8..10][i - 8]; }
    }
    assert body[..10] == date;
    FirstIndexIs(body, 'T', 10);
  }

  /** The harness's reader, with its year loop, accepts exactly what the validator accepts and counts the same nanoseconds. */
  method ReadTimestamp(text: string) returns (r: Option<nat>)
    ensures r == Validated(text)
  {
    if text == "" || text[|text| - 1] != 'Z' { return None; }
    var body := text[..|text| - 1];
    if Shaped(text) { DateSplits(text); }
    var cut := FirstIndex(body, 'T');
    if cut.None? { return None; }
    var date := ReadDate(body[..cut.value]);
    if date.None? {
      if Shaped(text) { assert body[..cut.value] == text[..10]; }
      return None;
    }
    assert cut.value == 10 && body[..cut.value] == text[..10] && body[cut.value + 1..] == text[11..|text| - 1];
    var time := ReadTime(body[cut.value + 1..]);
    if time.None? { return None; }
    var (clock, nanos) := time.value;
    FractionBounded(body[cut.value + 1..][8..]);
    var days := CountDays(date.value);
    return Some(((days * 24 + clock.hour) * 3600 + clock.minute * 60 + clock.second) * SECOND + nanos);
  }

  // ---- what the readers agree on ----

  /** The two readers differ only in years: the validator takes exactly the non-negative counts. */
  lemma ReadersAgree(text: string)
    ensures Validated(text) == match PortRead(text)
      case None => None
      case Some(v) => if v >= 0 then Some(v) else None
  {
    if PortRead(text).Some? {
      var date := DateIn(text[..10]);
      if date.year >= 1970 {
        DateOfDays(date);
      } else {
        WithinYear(date);
        YearsAscend(date.year, 1970);
      }
    }
  }

  /** Two accepted timestamps compare as numbers the way their components compare. */
  lemma AcceptedOrder(a: string, b: string)
    requires PortRead(a).Some? && PortRead(b).Some?
    ensures PortRead(a).value < PortRead(b).value
       <==> MomentIn(a[..10], a[11..|a| - 1]).Before(MomentIn(b[..10], b[11..|b| - 1]))
  {
    NanosecondsOrder(MomentIn(a[..10], a[11..|a| - 1]), MomentIn(b[..10], b[11..|b| - 1]));
  }

  // ---- the printer ----

  /** The last `width` digits of a number. */
  function Padded(n: nat, width: nat): (s: string)
    ensures |s| == width && Digits(s)
  {
    if width == 0 then "" else Padded(n / 10, width - 1) + [('0' as int + n % 10) as char]
  }

  lemma {:induction false} PaddedValue(n: nat, width: nat)
    requires n < Power(width)
    ensures Value(Padded(n, width)) == n
  {
    if width > 0 {
      PaddedValue(n / 10, width - 1);
      var s := Padded(n, width);
      assert s[..width - 1] == Padded(n / 10, width - 1);
    }
  }

  function DateText(date: Date): string
    requires date.Exists()
  {
    Padded(date.year, 4) + "-" + Padded(date.month, 2) + "-" + Padded(date.day, 2)
  }

  function ClockText(clock: Clock): string {
    Padded(clock.hour, 2) + ":" + Padded(clock.minute, 2) + ":" + Padded(clock.second, 2)
  }

  lemma DateTextReads(date: Date)
    requires date.Exists()
    ensures DateShaped(DateText(date)) && DateIn(DateText(date)) == date
  {
    var s := DateText(date);
    assert s[..4] == Padded(date.year, 4) && s[5..7] == Padded(date.month, 2) && s[8..10] == Padded(date.day, 2);
    assert Power(2) == 100 && Power(4) == 10_000;
    PaddedValue(date.year, 4);
    PaddedValue(date.month, 2);
    PaddedValue(date.day, 2);
  }

  lemma ClockTextReads(clock: Clock)
    requires clock.Exists()
    ensures ClockShaped(ClockText(clock)) && ClockIn(ClockText(clock)) == clock
  {
    var s := ClockText(clock);
    assert s[..2] == Padded(clock.hour, 2) && s[3..5] == Padded(clock.minute, 2) && s[6..8] == Padded(clock.second, 2);
    assert Power(2) == 100;
    PaddedValue(clock.hour, 2);
    PaddedValue(clock.minute, 2);
    PaddedValue(clock.second, 2);
  }

  const END := (DaysBeforeYear(10000) - EPOCH) * 86400 * SECOND

  function MomentOf(value: nat): (m: Moment)
    requires value < END
    ensures m.Exists() && m.date.year >= 1970 && Nanoseconds(m) == value
  {
    var seconds := value / SECOND;
    var left := seconds % 86400;
    Moment(DateOf(seconds / 86400), left / 3600, left / 60 % 60, left % 60, value % SECOND)
  }

  /** Split off the nanoseconds, print the date and the clock, and always nine digits of fraction. */
  function Printed(value: nat): string
    requires value < END
  {
    var m := MomentOf(value);
    DateText(m.date) + "T" + ClockText(Clock(m.hour, m.minute, m.second)) + "." + Padded(m.nanos, 9) + "Z"
  }

  lemma NanosRead(nanos: nat)
    requires nanos < SECOND
    ensures FractionShaped("." + Padded(nanos, 9)) && FractionIn("." + Padded(nanos, 9)) == nanos
  {
    var s := "." + Padded(nanos, 9);
    assert s[1..] == Padded(nanos, 9) && s[1..] + Zeros(0) == s[1..];
    NinePlaces();
    PaddedValue(nanos, 9);
  }

  lemma TimeTextReads(clock: Clock, nanos: nat)
    requires clock.Exists() && nanos < SECOND
    ensures var time := ClockText(clock) + "." + Padded(nanos, 9);
      TimeShaped(time) && ClockIn(time[..8]) == clock && FractionIn(time[8..]) == nanos
  {
    var time := ClockText(clock) + "." + Padded(nanos, 9);
    ClockTextReads(clock);
    NanosRead(nanos);
    assert time[..8] == ClockText(clock) && time[8..] == "." + Padded(nanos, 9);
  }

  /** A date and a time, put together around the `T` and closed by the `Z`, read as they do apart. */
  lemma TextReads(date: string, time: string)
    requires DateShaped(date) && TimeShaped(time)
    ensures var text := date + "T" + time + "Z"; Shaped(text) && text[..10] == date && text[11..|text| - 1] == time
  {
    var text := date + "T" + time + "Z";
    assert text[..10] == date && text[11..|text| - 1] == time;
  }

  /** From the epoch to the end of the year 9999, what is printed reads back, in both readers. */
  lemma PrintedReads(value: nat)
    requires value < END
    ensures PortRead(Printed(value)) == Some(value) && Validated(Printed(value)) == Some(value)
  {
    var m := MomentOf(value);
    var clock := Clock(m.hour, m.minute, m.second);
    var date, time := DateText(m.date), ClockText(clock) + "." + Padded(m.nanos, 9);
    DateTextReads(m.date);
    TimeTextReads(clock, m.nanos);
    TextReads(date, time);
    assert Printed(value) == date + "T" + time + "Z";
    ReadersAgree(Printed(value));
  }

  /** Different values print differently. */
  lemma PrintedInjective(a: nat, b: nat)
    requires a < END && b < END && Printed(a) == Printed(b)
    ensures a == b
  {
    PrintedReads(a);
    PrintedReads(b);
  }
}
