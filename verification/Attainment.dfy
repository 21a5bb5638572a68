/** When an acquisition succeeds: whatever log completes a plan within the limits, a daemon that prints its bodies in time is read to the
    end of it. */
module Attainment {
  import opened Outcome
  import Json
  import opened Protocol
  import opened Sequences
  import opened Completion
  import opened Acquisition
  import opened Numerals
  import opened Response
  import Budget
  import Closure
  import Delivery
  import Framing
  import RequestPath
  import Wire
  import D = Decoder

  // ---- a daemon that prints the log ----

  /** What a turn's stream begins with is a well-formed response with this status and body. */
  predicate Prints(turn: Turn, p: Delivery.Printed, x: Exchange, limits: Limits, machine: nat) {
    && p.WellFormed(x.status, machine) && p.Printing() <= Wire.Stream(turn.arrivals) && p.Content() == x.body
    && |x.body| <= limits.maxResponseBytes && |x.body| <= Json.MAX_JSON_BYTES
  }

  ghost predicate PrintedAt(turns: nat -> Turn, printed: nat -> Delivery.Printed, xs: seq<Exchange>, k: nat, limits: Limits, machine: nat) {
    k < |xs| ==> Prints(turns(k), printed(k), xs[k], limits, machine)
  }

  lemma {:induction false} TotalGrows(xs: seq<Exchange>, n: nat)
    requires n <= |xs|
    ensures TotalBytes(xs[..n]) <= TotalBytes(xs)
  {
    if n < |xs| {
      TotalGrows(xs[..|xs| - 1], n);
      assert xs[..|xs| - 1][..n] == xs[..n];
    } else {
      assert xs[..n] == xs;
    }
  }

  lemma PrintedIsDelivered(turn: Turn, p: Delivery.Printed, x: Exchange, limits: Limits, spent: nat, machine: nat)
    requires Prints(turn, p, x, limits, machine) && spent + |x.body| <= limits.maxTotalBytes
    ensures Delivered(turn, x.status, x.body, limits, spent, machine)
  {
    Delivery.PrintedFrames(p, x.status, Wire.Stream(turn.arrivals), Wire.End(turn.arrivals), Room(limits, spent), machine);
  }

  /** What a daemon prints within the limits is what the run hears. */
  lemma PrintedIsHeard(turns: nat -> Turn, printed: nat -> Delivery.Printed, xs: seq<Exchange>, limits: Limits, machine: nat)
    requires (forall k: nat :: PrintedAt(turns, printed, xs, k, limits, machine)) && TotalBytes(xs) <= limits.maxTotalBytes
    ensures Heard(turns, xs, limits, machine)
  {
    forall k: nat ensures HeardAt(turns, xs, k, limits, machine) {
      if k < |xs| {
        assert PrintedAt(turns, printed, xs, k, limits, machine);
        TotalGrows(xs, k + 1);
        assert xs[..k + 1][..k] == xs[..k];
        PrintedIsDelivered(turns(k), printed(k), xs[k], limits, TotalBytes(xs[..k]), machine);
      }
    }
  }

  // ---- a completed log can be played ----

  lemma {:induction false} InspectsCounted(xs: seq<Exchange>, n: nat)
    requires n <= |xs| && forall k :: 0 <= k < |xs| ==> (xs[k].request.Inspected().Some? <==> n <= k)
    ensures Budget.Inspects(xs) == |xs| - n
  {
    if n < |xs| {
      InspectsCounted(xs[..|xs| - 1], n);
    } else {
      NothingInspected(xs);
    }
  }

  lemma OnceIsApart(xs: seq<Exchange>)
    requires Closure.OnceEach(xs) && forall k :: 0 <= k < |xs| ==> (xs[k].request.Inspected().Some? <==> xs[k].resource.Some?)
    ensures AllApart(xs)
  {
    forall i, j | 0 <= i < j < |xs| ensures Apart(xs[i], xs[j]) {
    }
  }

  lemma NumberedCounts(xs: seq<Exchange>, n: nat)
    requires Closure.Numbered(xs, n) && n <= |xs|
    ensures Budget.Inspects(xs) == |xs| - n
    ensures forall k :: 0 <= k < |xs| ==> (xs[k].request.Inspected().Some? <==> xs[k].resource.Some?)
  {
    InspectsCounted(xs, n);
  }

  lemma CompletedIsApart(parse: D.Parser, goal: Plan, script: Log)
    requires goal.Flags() && Completed(parse, CaptureOf(goal, script), goal, script)
    ensures AllApart(script.Exchanges()) && Budget.Inspects(script.Exchanges()) == |goal.Visits()|
  {
    var c := CaptureOf(goal, script);
    Closure.ExactClosure(parse, c, goal, script);
    Closure.FinalCounts(parse, c, goal, script);
    NumberedCounts(c.exchanges, |goal.Opening()|);
    OnceIsApart(c.exchanges);
  }

  /** The world prints and carries this log, in time, and its container bodies name what they refer to. */
  ghost predicate Plays(parse: D.Parser, world: World, goal: Plan, script: Log, printed: nat -> Delivery.Printed, limits: Limits,
                        machine: nat) {
    var xs := script.Exchanges();
    && (forall k: nat :: PrintedAt(world.turns, printed, xs, k, limits, machine))
    && (forall k: nat :: CarriedAt(world.turns, xs, k, limits)) && Patient(world, limits)
    && AllExpandable(parse, xs, |script.opening|, |goal.containers|)
  }

  /** Whatever completes a plan within the limits is attainable. */
  lemma CompletedIsAttainable(parse: D.Parser, world: World, goal: Plan, script: Log, printed: nat -> Delivery.Printed, limits: Limits,
                              machine: nat)
    requires goal.Flags() && Completed(parse, CaptureOf(goal, script), goal, script) && |goal.Visits()| < MAX_REF
    requires Within(CaptureOf(goal, script).bounds, limits) && Plays(parse, world, goal, script, printed, limits, machine)
    ensures Attainable(parse, world, goal, script, limits, machine)
  {
    CompletedIsApart(parse, goal, script);
    PrintedIsHeard(world.turns, printed, script.Exchanges(), limits, machine);
    Closure.FinalCounts(parse, CaptureOf(goal, script), goal, script);
  }

  /** The run succeeds: from a world that plays a log which completes a plan within the limits, exactly the capture of that plan and log
      comes out, however its hash maps iterate and the socket splits the bytes. */
  method AcquireWhole(world: World, parse: D.Parser, limits: Limits, machine: nat, goal: Plan, ghost script: Log,
                      ghost printed: nat -> Delivery.Printed)
    returns (r: Result<Capture, AcquisitionError>)
    requires limits.Fits(machine) && limits.Admissible(machine) && SelectorFault(goal.selector, limits).None?
    requires goal.Flags() && Completed(parse, CaptureOf(goal, script), goal, script) && |goal.Visits()| < MAX_REF
    requires Within(CaptureOf(goal, script).bounds, limits) && Plays(parse, world, goal, script, printed, limits, machine)
    ensures r == Ok(CaptureOf(goal, script))
  {
    CompletedIsAttainable(parse, world, goal, script, printed, limits, machine);
    hide Attainable, Plays, Completed;
    ghost var plan, log;
    r, plan, log := Acquire(world, parse, goal.selector, limits, machine, goal, script);
  }

  // ---- such daemons exist ----

  function PowerOfTen(digits: nat): nat {
    if digits == 0 then 1 else 10 * PowerOfTen(digits - 1)
  }

  lemma {:induction false} NumeralLength(n: nat, digits: nat)
    requires digits > 0 && n < PowerOfTen(digits)
    ensures |Numeral(n, 10)| <= digits
    decreases digits
  {
    if n >= 10 { NumeralLength(n / 10, digits - 1); }
  }

  /** The plainest response with this body. */
  function PlainHead(length: nat): ResponseHead {
    ResponseHead(1, Decimal(200), "OK", [], HeaderField("content-length", Decimal(length)), [])
  }

  function Plain(body: Utf8.Bytes): Delivery.Printed {
    Delivery.ByLength(PlainHead(|body|), body)
  }

  lemma HeadOfTwo(a: string, b: string)
    ensures HeadText([a, b]) == a + "\r\n" + (b + "\r\n" + "\r\n")
  {
    assert [a, b][1..] == [b] && [b][1..] == [];
    assert HeadText([b]) == b + "\r\n" + HeadText([]);
  }

  lemma PlainHeadLength(length: nat)
    requires length <= Json.MAX_JSON_BYTES
    ensures |PlainHead(length).Bytes()| <= Framing.MAX_HEADER_BYTES
  {
    var h := PlainHead(length);
    var status, field := StatusLine(1, Decimal(200), "OK"), h.delimiter.Text();
    assert PowerOfTen(7) == 10000000;
    NumeralLength(length, 7);
    NumeralLength(200, 3);
    assert |Decimal(length)| == |Codes(Decimal(length))| && |Decimal(200)| == |Codes(Decimal(200))|;
    hide Numeral, PowerOfTen;
    assert h.Lines() == [status, field];
    HeadOfTwo(status, field);
    Utf8.EncodeAscii(HeadText([status, field]));
  }

  lemma SameAsItself(s: string)
    ensures Framing.SameIgnoringCase(s, s)
  {
  }

  lemma DigitsStandAlone(n: nat)
    ensures Framing.Trim(Decimal(n)) == Decimal(n) && NoReturn(Decimal(n))
    ensures forall i :: 0 <= i < |Decimal(n)| ==> !Framing.AsciiSpace(Decimal(n)[i])
  {
    var s := Decimal(n);
    assert !Framing.UnicodeSpace(s[0]) && !Framing.UnicodeSpace(s[|s| - 1]);
  }

  lemma PlainName()
    ensures NoReturn("content-length") && NoReturn("OK") && forall i :: 0 <= i < |"content-length"| ==> "content-length"[i] != ':'
  {
  }

  lemma PlainFieldDeclares(length: nat, machine: nat)
    requires length <= machine
    ensures DeclaresLength(PlainHead(length).delimiter, length, machine)
  {
    hide NoReturn, Framing.Trim, Framing.SameIgnoringCase, ParseUnsigned, Numeral;
    NumeralReads(length, 10, machine);
    DigitsStandAlone(length);
    SameAsItself("content-length");
    PlainName();
  }

  lemma PlainIsWellFormed(body: Utf8.Bytes, machine: nat)
    requires |body| <= Json.MAX_JSON_BYTES && |body| <= machine
    ensures Plain(body).WellFormed(200, machine)
  {
    hide DeclaresLength, NoReturn, Framing.Trim, ParseUnsigned, Numeral, ResponseHead.Bytes, Framing.AsciiSpace;
    PlainHeadLength(|body|);
    PlainFieldDeclares(|body|, machine);
    DigitsStandAlone(200);
    DigitsStandAlone(|body|);
    PlainName();
    NumeralReads(200, 10, 0xFFFF);
  }

  /** A turn that takes one request whole, and prints one body. */
  function PlainTurn(x: Exchange): Turn {
    var length := match RequestPath.PathOf(x.request, x.api)
      case Ok(path) => |Utf8.Encode(Wire.RequestText(path))|
      case Err(_) => 0;
    Turn(0, [Wire.Accept(length + 1)], [Wire.Data(Plain(x.body).Printing())], 0, 0)
  }

  function PlainWorld(xs: seq<Exchange>): World {
    World((k: nat) => if k < |xs| then PlainTurn(xs[k]) else Turn(0, [], [], 0, 0), 0, false, 0, 0)
  }

  function PlainPrinting(xs: seq<Exchange>): nat -> Delivery.Printed {
    (k: nat) => Plain(if k < |xs| then xs[k].body else [])
  }

  predicate Sayable(x: Exchange, limits: Limits) {
    && x.status == 200 && |x.body| <= limits.maxResponseBytes && |x.body| <= Json.MAX_JSON_BYTES
    && RequestPath.PathOf(x.request, x.api).Ok?
  }

  lemma PlainTurnServes(x: Exchange, limits: Limits, machine: nat)
    requires Sayable(x, limits) && limits.Fits(machine)
    ensures Prints(PlainTurn(x), Plain(x.body), x, limits, machine) && Carries(PlainTurn(x), x, limits)
  {
    PlainIsWellFormed(x.body, machine);
    var arrivals := PlainTurn(x).arrivals;
    assert arrivals[1..] == [];
    assert Wire.Stream(arrivals) == Plain(x.body).Printing() + [];
  }

  /** For every completed log with sayable exchanges there is a world that plays it. */
  lemma PlainWorldPlays(parse: D.Parser, goal: Plan, script: Log, limits: Limits, machine: nat)
    requires limits.Fits(machine) && limits.Admissible(machine)
    requires forall x :: x in script.Exchanges() ==> Sayable(x, limits)
    requires AllExpandable(parse, script.Exchanges(), |script.opening|, |goal.containers|)
    ensures Plays(parse, PlainWorld(script.Exchanges()), goal, script, PlainPrinting(script.Exchanges()), limits, machine)
  {
    var xs := script.Exchanges();
    var world, printed := PlainWorld(xs), PlainPrinting(xs);
    forall k: nat ensures PrintedAt(world.turns, printed, xs, k, limits, machine) && CarriedAt(world.turns, xs, k, limits) {
      if k < |xs| {
        assert xs[k] in xs;
        PlainTurnServes(xs[k], limits, machine);
        assert world.turns(k) == PlainTurn(xs[k]) && printed(k) == Plain(xs[k].body);
      }
    }
  }

  /** Every completed log within the limits is the outcome of some run: against the plainest world that says it. */
  method AcquireAnyway(parse: D.Parser, limits: Limits, machine: nat, goal: Plan, script: Log) returns (r: Result<Capture, AcquisitionError>)
    requires limits.Fits(machine) && limits.Admissible(machine) && SelectorFault(goal.selector, limits).None?
    requires goal.Flags() && Completed(parse, CaptureOf(goal, script), goal, script) && |goal.Visits()| < MAX_REF
    requires Within(CaptureOf(goal, script).bounds, limits) && forall x :: x in script.Exchanges() ==> Sayable(x, limits)
    requires AllExpandable(parse, script.Exchanges(), |script.opening|, |goal.containers|)
    ensures r == Ok(CaptureOf(goal, script))
  {
    hide Completed, Plays;
    PlainWorldPlays(parse, goal, script, limits, machine);
    r := AcquireWhole(PlainWorld(script.Exchanges()), parse, limits, machine, goal, script, PlainPrinting(script.Exchanges()));
  }
}
