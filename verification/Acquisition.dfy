/** The bounded acquisition: negotiate, list, select, expand and inspect, against a daemon that may answer anything. */
module Acquisition {
  import opened Outcome
  import opened Json
  import opened Protocol
  import opened Sequences
  import opened Selection
  import opened Related
  import opened Versions
  import opened Ordering
  import opened Completion
  import opened Numerals
  import Budget
  import Wire
  import Framing
  import RequestPath
  import D = Decoder

  /** One exchange as the world plays it: clock readings, and what the socket takes and delivers. */
  datatype Turn = Turn(
    requestedAt: nat, departures: seq<Wire.Departure>, arrivals: seq<Wire.Arrival>, readAt: nat, readDone: nat)

  /** Everything a run cannot control; turn `k` is played by the `k`-th exchange. */
  datatype World = World(turns: nat -> Turn, selectedAt: nat, cancelled: bool, finishedAt: nat, capturedAt: nat)

  // ---- one exchange ----

  /** The state right after a recorded request has been answered. */
  function Answer(s: Budget.State, x: Exchange): Budget.State {
    var counted := s.(requests := s.requests + 1, bytesRead := s.bytesRead + |x.body|, exchanges := s.exchanges + [x]);
    match (x.request.Inspected(), x.resource)
    case (Some(target), Some(reference)) =>
      counted.(expansions := s.expansions + 1,
               resourceIds := s.resourceIds[reference := target],
               nativeRefs := s.nativeRefs[target := reference])
    case _ => counted
  }

  predicate Registered(xs: seq<Exchange>, reference: Ref, target: Target) {
    exists i :: 0 <= i < |xs| && xs[i].resource == Some(reference) && xs[i].request.Inspected() == Some(target)
  }

  /** Every registered pair stands in the log. */
  ghost predicate FromLog(s: Budget.State) {
    && (forall r :: r in s.resourceIds ==> Registered(s.exchanges, r, s.resourceIds[r]))
    && (forall t :: t in s.nativeRefs ==> Registered(s.exchanges, s.nativeRefs[t], t))
  }

  lemma StillRegistered(xs: seq<Exchange>, x: Exchange, reference: Ref, target: Target)
    requires Registered(xs, reference, target) || (x.resource == Some(reference) && x.request.Inspected() == Some(target))
    ensures Registered(xs + [x], reference, target)
  {
    var more := xs + [x];
    if Registered(xs, reference, target) {
      var i :| 0 <= i < |xs| && xs[i].resource == Some(reference) && xs[i].request.Inspected() == Some(target);
      assert more[i] == xs[i];
    } else {
      assert more[|xs|] == x;
    }
  }

  lemma AnswerFromLog(s: Budget.State, x: Exchange)
    requires FromLog(s)
    ensures FromLog(Answer(s, x))
  {
    var next := Answer(s, x);
    forall r | r in next.resourceIds ensures Registered(next.exchanges, r, next.resourceIds[r]) {
      StillRegistered(s.exchanges, x, r, next.resourceIds[r]);
    }
    forall t | t in next.nativeRefs ensures Registered(next.exchanges, next.nativeRefs[t], t) {
      StillRegistered(s.exchanges, x, next.nativeRefs[t], t);
    }
  }

  /** A live budget with nothing outstanding, whose counters are exactly those of its log. */
  ghost predicate Clean(s: Budget.State) {
    && !s.failed && s.pending.None? && FromLog(s)
    && s.requests == |s.exchanges| <= s.limits.maxRequests
    && s.selected <= s.limits.maxSelectedResources
    && s.bytesRead == TotalBytes(s.exchanges) <= s.limits.maxTotalBytes
    && s.expansions == Budget.Inspects(s.exchanges) <= s.limits.maxExpansions
  }

  lemma AnswerStaysClean(s: Budget.State, x: Exchange)
    requires Clean(s) && |x.body| <= Budget.Allowance(s)
    requires x.request.Inspected().Some? == x.resource.Some?
    requires x.resource.Some? ==> s.expansions < s.limits.maxExpansions
    requires s.requests < s.limits.maxRequests
    ensures Clean(Answer(s, x))
  {
    Budget.AppendedTotals(s.exchanges, x);
    AnswerFromLog(s, x);
  }

  lemma RecordedThenRead(s: Budget.State, p: Budget.Pending, elapsed: nat, status: nat, body: Utf8.Bytes,
                         before: nat, after: nat, machine: nat)
    requires Clean(s) && s.limits.Fits(machine)
    requires Budget.RecordRequest(s, p, elapsed, machine).error.None?
    requires |body| <= Budget.Allowance(s)
    requires var read := Budget.ReadResponse(
               Budget.RecordRequest(s, p, elapsed, machine).state, status, Budget.Source(body, false), before, after, machine);
             read.error.None?
    ensures var read := Budget.ReadResponse(
              Budget.RecordRequest(s, p, elapsed, machine).state, status, Budget.Source(body, false), before, after, machine);
            read.state == Answer(s, Exchange(p.request, p.resource, p.api, status, body))
    ensures p.request.Inspected().Some? == p.resource.Some?
    ensures p.resource.Some? ==> s.expansions < s.limits.maxExpansions
    ensures s.requests < s.limits.maxRequests
  {
  }

  // ---- what the world said ----

  /** The room for the next response after so many bytes of earlier ones. */
  function Room(limits: Limits, spent: nat): (r: int)
    ensures spent <= limits.maxTotalBytes ==> 0 <= r <= MAX_JSON_BYTES
  {
    Min(Min(limits.maxResponseBytes, limits.maxTotalBytes - spent), MAX_JSON_BYTES)
  }

  /** The status and the body are what the stream of the turn means within the room that was left. */
  ghost predicate Delivered(turn: Turn, status: nat, body: Utf8.Bytes, limits: Limits, spent: nat, machine: nat) {
    && spent <= limits.maxTotalBytes
    && Framing.Frame(Wire.Stream(turn.arrivals), Wire.End(turn.arrivals), Room(limits, spent), machine) == Ok((status, body))
  }

  ghost predicate HeardAt(turns: nat -> Turn, xs: seq<Exchange>, k: nat, limits: Limits, machine: nat) {
    k < |xs| ==> Delivered(turns(k), xs[k].status, xs[k].body, limits, TotalBytes(xs[..k]), machine)
  }

  /** Nothing in the log is invented: exchange `k` is what turn `k` delivered. */
  ghost predicate Heard(turns: nat -> Turn, xs: seq<Exchange>, limits: Limits, machine: nat) {
    forall k: nat :: HeardAt(turns, xs, k, limits, machine)
  }

  lemma HeardBefore(turns: nat -> Turn, xs: seq<Exchange>, ys: seq<Exchange>, k: nat, limits: Limits, machine: nat)
    requires k < |xs| <= |ys| && xs == ys[..|xs|]
    ensures HeardAt(turns, xs, k, limits, machine) <==> HeardAt(turns, ys, k, limits, machine)
  {
    assert xs[..k] == ys[..k];
  }

  lemma HeardMore(turns: nat -> Turn, xs: seq<Exchange>, x: Exchange, limits: Limits, machine: nat)
    requires Heard(turns, xs, limits, machine) && Delivered(turns(|xs|), x.status, x.body, limits, TotalBytes(xs), machine)
    ensures Heard(turns, xs + [x], limits, machine)
  {
    var more := xs + [x];
    assert more[..|xs|] == xs;
    forall k: nat ensures HeardAt(turns, more, k, limits, machine) {
      if k < |xs| {
        HeardBefore(turns, xs, more, k, limits, machine);
      }
    }
  }

  lemma HeardPrefix(turns: nat -> Turn, xs: seq<Exchange>, n: nat, limits: Limits, machine: nat)
    requires Heard(turns, xs, limits, machine) && n <= |xs|
    ensures Heard(turns, xs[..n], limits, machine)
  {
    forall k: nat ensures HeardAt(turns, xs[..n], k, limits, machine) {
      if k < n {
        HeardBefore(turns, xs[..n], xs, k, limits, machine);
      }
    }
  }

  lemma DeliveredOnce(turn: Turn, x: Exchange, y: Exchange, limits: Limits, spent: nat, machine: nat)
    requires Delivered(turn, x.status, x.body, limits, spent, machine) && Delivered(turn, y.status, y.body, limits, spent, machine)
    ensures x.status == y.status && x.body == y.body
  {
  }

  lemma SameTotal(xs: seq<Exchange>, ys: seq<Exchange>)
    requires xs != [] && ys != [] && TotalBytes(xs[..|xs| - 1]) == TotalBytes(ys[..|ys| - 1])
    requires |xs[|xs| - 1].body| == |ys[|ys| - 1].body|
    ensures TotalBytes(xs) == TotalBytes(ys)
  {
  }

  /** The world alone decides what a log of a given length holds. */
  lemma {:induction false} HeardAgree(turns: nat -> Turn, xs: seq<Exchange>, ys: seq<Exchange>, limits: Limits, machine: nat)
    requires Heard(turns, xs, limits, machine) && Heard(turns, ys, limits, machine) && |xs| == |ys|
    ensures forall k :: 0 <= k < |xs| ==> xs[k].status == ys[k].status && xs[k].body == ys[k].body
    ensures TotalBytes(xs) == TotalBytes(ys)
  {
    if xs != [] {
      var last := |xs| - 1;
      var a, b := xs[..last], ys[..last];
      HeardPrefix(turns, xs, last, limits, machine);
      HeardPrefix(turns, ys, last, limits, machine);
      HeardAgree(turns, a, b, limits, machine);
      assert HeardAt(turns, xs, last, limits, machine) && HeardAt(turns, ys, last, limits, machine);
      DeliveredOnce(turns(last), xs[last], ys[last], limits, TotalBytes(a), machine);
      SameTotal(xs, ys);
      forall k | 0 <= k < |xs| ensures xs[k].status == ys[k].status && xs[k].body == ys[k].body {
        if k < last { assert a[k] == xs[k] && b[k] == ys[k]; }
      }
    }
  }

  // ---- a world that lets a run go on ----

  /** The exchange puts this question. */
  predicate Asks(x: Exchange, request: ReadRequest, resource: Option<Ref>, api: Option<ApiVersion>) {
    && x.request == request && x.resource == resource && x.api == api
    && request.Inspected().Some? == resource.Some? && (request.DaemonVersion? || api.Some?)
  }

  /** The log asks this next. */
  predicate AsksNext(done: seq<Exchange>, xs: seq<Exchange>, request: ReadRequest, resource: Option<Ref>, api: Option<ApiVersion>) {
    done < xs && Asks(xs[|done|], request, resource, api)
  }

  /** The socket takes the request, and no clock reading is late. */
  predicate Carries(turn: Turn, x: Exchange, limits: Limits) {
    && RequestPath.PathOf(x.request, x.api).Ok?
    && Wire.Takes(turn.departures, |Utf8.Encode(Wire.RequestText(RequestPath.PathOf(x.request, x.api).value))|)
    && turn.requestedAt <= limits.maxElapsed && turn.readAt <= limits.maxElapsed && turn.readDone <= limits.maxElapsed
  }

  ghost predicate CarriedAt(turns: nat -> Turn, xs: seq<Exchange>, k: nat, limits: Limits) {
    k < |xs| ==> Carries(turns(k), xs[k], limits) && xs[k].status == 200
  }

  /** No two exchanges share a reference or a target. */
  predicate Apart(x: Exchange, y: Exchange) {
    x.resource.Some? && y.resource.Some? ==> x.resource != y.resource && x.request.Inspected() != y.request.Inspected()
  }

  ghost predicate AllApart(xs: seq<Exchange>) {
    forall i, j :: 0 <= i < j < |xs| ==> Apart(xs[i], xs[j])
  }

  /** The world carries this whole log through and answers it with success, and the limits have room for its requests and inspections. */
  ghost predicate Playable(turns: nat -> Turn, xs: seq<Exchange>, limits: Limits, machine: nat) {
    && Heard(turns, xs, limits, machine) && (forall k: nat :: CarriedAt(turns, xs, k, limits))
    && AllApart(xs) && |xs| <= limits.maxRequests && Budget.Inspects(xs) <= limits.maxExpansions
  }

  lemma {:induction false} InspectsGrow(xs: seq<Exchange>, n: nat)
    requires n <= |xs|
    ensures Budget.Inspects(xs[..n]) <= Budget.Inspects(xs)
  {
    if n < |xs| {
      InspectsGrow(xs[..|xs| - 1], n);
      assert xs[..|xs| - 1][..n] == xs[..n];
    } else {
      assert xs[..n] == xs;
    }
  }

  lemma NextInspects(xs: seq<Exchange>, k: nat)
    requires k < |xs|
    ensures Budget.Inspects(xs[..k]) + (if xs[k].request.Inspected().Some? then 1 else 0) <= Budget.Inspects(xs)
  {
    InspectsGrow(xs, k + 1);
    assert xs[..k + 1][..k] == xs[..k];
  }

  /** A pair of a playable log that is not yet asked for conflicts with none that is. */
  lemma NoConflict(s: Budget.State, xs: seq<Exchange>)
    requires FromLog(s) && AllApart(xs) && s.exchanges < xs && xs[|s.exchanges|].resource.Some?
    requires xs[|s.exchanges|].request.Inspected().Some?
    ensures xs[|s.exchanges|].resource.value !in s.resourceIds && xs[|s.exchanges|].request.Inspected().value !in s.nativeRefs
  {
    var k := |s.exchanges|;
    forall i | 0 <= i < k ensures s.exchanges[i] == xs[i] && Apart(xs[i], xs[k]) {
    }
  }

  lemma RecordGoes(s: Budget.State, xs: seq<Exchange>, p: Budget.Pending, elapsed: nat, machine: nat)
    requires Clean(s) && s.limits.Fits(machine) && elapsed <= s.limits.maxElapsed
    requires AllApart(xs) && |xs| <= s.limits.maxRequests && Budget.Inspects(xs) <= s.limits.maxExpansions
    requires AsksNext(s.exchanges, xs, p.request, p.resource, p.api)
    ensures var step := Budget.RecordRequest(s, p, elapsed, machine);
      step.error.None? && !step.state.failed && step.state.pending.Some? && step.state.limits == s.limits
  {
    var k := |s.exchanges|;
    assert xs[..k] == s.exchanges;
    NextInspects(xs, k);
    if p.resource.Some? { NoConflict(s, xs); }
  }

  lemma KeepsTo(done: seq<Exchange>, xs: seq<Exchange>, x: Exchange)
    requires done < xs && Asks(xs[|done|], x.request, x.resource, x.api) && xs[|done|].status == x.status && xs[|done|].body == x.body
    ensures done + [x] <= xs
  {
    assert xs[|done|] == x;
  }

  /** What the world delivers next to a run that has kept to a playable log. */
  lemma NextDelivered(turns: nat -> Turn, s: Budget.State, xs: seq<Exchange>, limits: Limits, machine: nat)
    requires Playable(turns, xs, limits, machine) && s.exchanges < xs && s.bytesRead == TotalBytes(s.exchanges)
    ensures var k := |s.exchanges|;
      Delivered(turns(k), 200, xs[k].body, limits, s.bytesRead, machine) && Carries(turns(k), xs[k], limits) && xs[k].status == 200
  {
    var k := |s.exchanges|;
    assert xs[..k] == s.exchanges;
    assert HeardAt(turns, xs, k, limits, machine) && CarriedAt(turns, xs, k, limits);
  }

  // ---- one exchange over the wire ----

  /** One GET over a fresh connection. */
  method Fetch(turn: Turn, path: string, allowance: nat, machine: nat) returns (r: Result<(nat, Utf8.Bytes), AcquisitionError>)
    ensures r.Ok? ==> |r.value.1| <= allowance && r == Framing.Frame(Wire.Stream(turn.arrivals), Wire.End(turn.arrivals), allowance, machine)
    ensures r.Err? ==> Wire.Transport(r.error) || r.error == AcquisitionError.Protocol
                       || r.error == AcquisitionError.Budget(LimitError.Bytes)
    ensures Wire.Takes(turn.departures, |Utf8.Encode(Wire.RequestText(path))|) ==>
      r == Framing.Frame(Wire.Stream(turn.arrivals), Wire.End(turn.arrivals), allowance, machine)
  {
    var connection := new Wire.Connection(turn.arrivals, turn.departures);
    r := connection.HttpGet(path, allowance, machine);
    if Framing.Frame(Wire.Stream(turn.arrivals), Wire.End(turn.arrivals), allowance, machine).Ok? {
      Framing.FrameBounded(Wire.Stream(turn.arrivals), Wire.End(turn.arrivals), allowance, machine);
    } else {
      Framing.FrameFails(Wire.Stream(turn.arrivals), Wire.End(turn.arrivals), allowance, machine);
      Wire.EndsSomehow(turn.arrivals);
    }
  }

  lemma RecordFails(s: Budget.State, p: Budget.Pending, elapsed: nat, machine: nat)
    requires Clean(s) && s.limits.Fits(machine)
    requires Budget.RecordRequest(s, p, elapsed, machine).error == Some(Expansions)
    ensures p.request.Inspected().Some? && s.expansions == s.limits.maxExpansions
    ensures Budget.RecordRequest(s, p, elapsed, machine).state.exchanges == s.exchanges
  {
  }

  lemma RecordKeepsAllowance(s: Budget.State, p: Budget.Pending, elapsed: nat, machine: nat)
    requires Clean(s) && Budget.RecordRequest(s, p, elapsed, machine).error.None?
    ensures Budget.Allowance(Budget.RecordRequest(s, p, elapsed, machine).state) == Budget.Allowance(s) >= 0
  {
  }

  /** What keeps to a playable log is recorded, and then answered with success. */
  lemma TransactGoes(turns: nat -> Turn, s: Budget.State, xs: seq<Exchange>, p: Budget.Pending, limits: Limits, machine: nat)
    requires Clean(s) && limits == s.limits && limits.Fits(machine)
    requires Playable(turns, xs, limits, machine) && AsksNext(s.exchanges, xs, p.request, p.resource, p.api)
    ensures var k := |s.exchanges|; var turn, path := turns(k), RequestPath.PathOf(p.request, p.api);
      && k < |xs| && path.Ok? && Delivered(turn, 200, xs[k].body, limits, s.bytesRead, machine)
      && Budget.RecordRequest(s, p, turn.requestedAt, machine).error.None?
      && Awaits(Budget.RecordRequest(s, p, turn.requestedAt, machine).state, turn, path.value)
  {
    hide FromLog, Heard, Delivered, Budget.RecordRequest;
    NextDelivered(turns, s, xs, limits, machine);
    RecordGoes(s, xs, p, turns(|s.exchanges|).requestedAt, machine);
  }

  /** Record the request, carry it over the wire, and read the answer back into the log. */
  method Transact(budget: Budget.BudgetCounters, turns: nat -> Turn, request: ReadRequest, resource: Option<Ref>, api: Option<ApiVersion>,
                  ghost xs: seq<Exchange>)
    returns (r: Result<(nat, Utf8.Bytes), AcquisitionError>)
    requires Clean(budget.View()) && budget.limits.Fits(budget.machine)
    requires Heard(turns, budget.exchanges, budget.limits, budget.machine)
    modifies budget
    ensures Heard(turns, budget.exchanges, budget.limits, budget.machine)
    ensures r.Ok? ==>
      && |r.value.1| <= MAX_JSON_BYTES && Clean(budget.View())
      && budget.View() == Answer(old(budget.View()), Exchange(request, resource, api, r.value.0, r.value.1))
    ensures r == Err(AcquisitionError.Budget(Expansions)) ==>
      && request.Inspected().Some?
      && budget.exchanges == old(budget.exchanges) && old(budget.expansions) == budget.limits.maxExpansions
    ensures Playable(turns, xs, budget.limits, budget.machine) && AsksNext(old(budget.exchanges), xs, request, resource, api) ==>
      r == Ok((200, xs[|old(budget.exchanges)|].body))
  {
    hide Playable, AsksNext, Heard, Delivered, Awaits, FromLog;
    ghost var s, p := budget.View(), Budget.Pending(request, resource, api);
    if Playable(turns, xs, budget.limits, budget.machine) && AsksNext(s.exchanges, xs, request, resource, api) {
      TransactGoes(turns, s, xs, p, budget.limits, budget.machine);
    }
    var path := RequestPath.PathOf(request, api);
    if path.Err? {
      PathFails(request, api);
      return Err(path.error);
    }
    var turn := turns(budget.requests);
    var refused := Admit(budget, turn, request, resource, api);
    if refused.Some? { return Err(AcquisitionError.Budget(refused.value)); }
    r := Await(budget, turn, path.value, s, p, turns, if |s.exchanges| < |xs| then xs[|s.exchanges|].body else []);
  }

  /** What follows a recorded request. */
  method Await(budget: Budget.BudgetCounters, turn: Turn, path: string, ghost s: Budget.State, ghost p: Budget.Pending,
               ghost turns: nat -> Turn, ghost body: Utf8.Bytes)
    returns (r: Result<(nat, Utf8.Bytes), AcquisitionError>)
    requires Clean(s) && s.limits == budget.limits && budget.limits.Fits(budget.machine) && turn == turns(|s.exchanges|)
    requires Budget.Step(budget.View(), None) == Budget.RecordRequest(s, p, turn.requestedAt, budget.machine)
    requires Heard(turns, s.exchanges, budget.limits, budget.machine)
    modifies budget
    ensures Heard(turns, budget.exchanges, budget.limits, budget.machine)
    ensures r.Ok? ==>
      && |r.value.1| <= MAX_JSON_BYTES && Clean(budget.View())
      && budget.View() == Answer(s, Exchange(p.request, p.resource, p.api, r.value.0, r.value.1))
    ensures r != Err(AcquisitionError.Budget(Expansions))
    ensures Awaits(old(budget.View()), turn, path) && Delivered(turn, 200, body, budget.limits, s.bytesRead, budget.machine) ==>
      r == Ok((200, body))
  {
    hide Heard, Delivered, Awaits, FromLog;
    RecordKeepsAllowance(s, p, turn.requestedAt, budget.machine);
    r := Carry(budget, turn, path, 200, body);
    if r.Err? { return; }
    RecordedThenRead(s, p, turn.requestedAt, r.value.0, r.value.1, turn.readAt, turn.readDone, budget.machine);
    HeardMore(turns, s.exchanges, Exchange(p.request, p.resource, p.api, r.value.0, r.value.1), budget.limits, budget.machine);
    AnswerStaysClean(s, Exchange(p.request, p.resource, p.api, r.value.0, r.value.1));
  }

  /** One exchange; only status 200 goes on. */
  method Perform(budget: Budget.BudgetCounters, turns: nat -> Turn, request: ReadRequest, resource: Option<Ref>, api: Option<ApiVersion>,
                 ghost xs: seq<Exchange>)
    returns (r: Result<Utf8.Bytes, AcquisitionError>)
    requires Clean(budget.View()) && budget.limits.Fits(budget.machine)
    requires Heard(turns, budget.exchanges, budget.limits, budget.machine)
    modifies budget
    ensures Heard(turns, budget.exchanges, budget.limits, budget.machine)
    ensures r.Ok? ==>
      && |r.value| <= MAX_JSON_BYTES
      && budget.View() == Answer(old(budget.View()), Exchange(request, resource, api, 200, r.value))
      && Clean(budget.View())
    ensures r == Err(AcquisitionError.Budget(Expansions)) ==>
      && request.Inspected().Some?
      && budget.exchanges == old(budget.exchanges) && old(budget.expansions) == budget.limits.maxExpansions
    ensures Playable(turns, xs, budget.limits, budget.machine) && AsksNext(old(budget.exchanges), xs, request, resource, api) ==>
      r == Ok(xs[|old(budget.exchanges)|].body) && budget.exchanges <= xs
  {
    hide Clean, Heard, AllApart;
    ghost var done := budget.exchanges;
    if Playable(turns, xs, budget.limits, budget.machine) && AsksNext(done, xs, request, resource, api) {
      assert CarriedAt(turns, xs, |done|, budget.limits);
      KeepsTo(done, xs, Exchange(request, resource, api, 200, xs[|done|].body));
    }
    var answered := Transact(budget, turns, request, resource, api, xs);
    if answered.Err? { return Err(answered.error); }
    if answered.value.0 != 200 { return Err(Status); }
    return Ok(answered.value.1);
  }

  lemma ReadNeverExpands(s: Budget.State, status: nat, source: Budget.Source, before: nat, after: nat, machine: nat)
    requires Budget.Spendable(s) && Budget.ReadResponse(s, status, source, before, after, machine).error.Some?
    ensures Budget.ReadResponse(s, status, source, before, after, machine).error != Some(Expansions)
    ensures Budget.ReadResponse(s, status, source, before, after, machine).state.exchanges == s.exchanges
  {
  }

  /** A response is due, the socket takes the request, and no clock reading is late. */
  predicate Awaits(s: Budget.State, turn: Turn, path: string) {
    && !s.failed && s.pending.Some? && turn.readAt <= s.limits.maxElapsed && turn.readDone <= s.limits.maxElapsed
    && Wire.Takes(turn.departures, |Utf8.Encode(Wire.RequestText(path))|)
  }

  /** Carry a recorded request over the wire within the allowance, and read the answer back into the log. */
  method Carry(budget: Budget.BudgetCounters, turn: Turn, path: string, ghost status: nat, ghost body: Utf8.Bytes)
    returns (r: Result<(nat, Utf8.Bytes), AcquisitionError>)
    requires budget.Valid() && Budget.Allowance(budget.View()) >= 0
    modifies budget
    ensures r.Ok? ==>
      && |r.value.1| <= MAX_JSON_BYTES && |r.value.1| <= Budget.Allowance(old(budget.View()))
      && Budget.Step(budget.View(), None)
         == Budget.ReadResponse(old(budget.View()), r.value.0, Budget.Source(r.value.1, false), turn.readAt, turn.readDone, budget.machine)
    ensures r.Ok? ==> Delivered(turn, r.value.0, r.value.1, budget.limits, old(budget.bytesRead), budget.machine)
    ensures r.Err? ==> budget.exchanges == old(budget.exchanges)
    ensures r != Err(AcquisitionError.Budget(Expansions))
    ensures Awaits(old(budget.View()), turn, path) && Delivered(turn, status, body, budget.limits, old(budget.bytesRead), budget.machine) ==>
      r == Ok((status, body))
  {
    var allowance := Min(Min(budget.limits.maxResponseBytes, budget.limits.maxTotalBytes - budget.bytesRead), MAX_JSON_BYTES);
    var got := Fetch(turn, path, allowance, budget.machine);
    if got.Err? { return Err(got.error); }
    ghost var s := budget.View();
    var read := budget.Read(got.value.0, Budget.Source(got.value.1, false), turn.readAt, turn.readDone);
    if read.Some? {
      ReadNeverExpands(s, got.value.0, Budget.Source(got.value.1, false), turn.readAt, turn.readDone, budget.machine);
      return Err(AcquisitionError.Budget(read.value));
    }
    return got;
  }

  /** Record the request; a recorded one leaves the allowance as it was. */
  method Admit(budget: Budget.BudgetCounters, turn: Turn, request: ReadRequest, resource: Option<Ref>, api: Option<ApiVersion>)
    returns (error: Option<LimitError>)
    requires Clean(budget.View()) && budget.limits.Fits(budget.machine)
    modifies budget
    ensures budget.Valid()
    ensures var step := Budget.RecordRequest(old(budget.View()), Budget.Pending(request, resource, api), turn.requestedAt, budget.machine);
      budget.View() == step.state && error == step.error
    ensures error.None? ==> Budget.Allowance(budget.View()) == Budget.Allowance(old(budget.View())) >= 0
    ensures budget.exchanges == old(budget.exchanges) && budget.bytesRead == old(budget.bytesRead)
    ensures error == Some(Expansions) ==>
      && request.Inspected().Some?
      && budget.exchanges == old(budget.exchanges) && old(budget.expansions) == budget.limits.maxExpansions
  {
    ghost var s, p := budget.View(), Budget.Pending(request, resource, api);
    error := budget.Record(request, resource, api, turn.requestedAt);
    if error == Some(Expansions) { RecordFails(s, p, turn.requestedAt, budget.machine); }
    if error.None? { RecordKeepsAllowance(s, p, turn.requestedAt, budget.machine); }
  }

  lemma PathFails(request: ReadRequest, api: Option<ApiVersion>)
    requires RequestPath.PathOf(request, api).Err?
    ensures RequestPath.PathOf(request, api).error in {Shape, Version}
  {
  }

  // ---- inspections ----

  lemma AnsweredMore(parse: D.Parser, done: seq<Exchange>, x: Exchange, first: Ref, visits: seq<Visit>, i: nat, api: ApiVersion)
    requires i < |visits| && AllAnswered(parse, done, first, visits[..i], api) && Answered(parse, x, first + i, visits[i], api)
    ensures AllAnswered(parse, done + [x], first, visits[..i + 1], api)
  {
    var more := done + [x];
    forall k | 0 <= k < |more|
      ensures Answered(parse, more[k], first + k, visits[..i + 1][k], api)
    {
      if k < i {
        assert Answered(parse, done[k], first + k, visits[..i][k], api);
      }
    }
  }

  /** What the budget looks like after `done` was added to the log it had. */
  ghost predicate Extended(s: Budget.State, before: Budget.State, done: seq<Exchange>) {
    Clean(s) && s.exchanges == before.exchanges + done && s.selected == before.selected && s.limits == before.limits
  }

  /** The log answers this visit next. */
  predicate AnsweredNext(parse: D.Parser, done: seq<Exchange>, xs: seq<Exchange>, reference: Ref, visit: Visit, api: ApiVersion) {
    done < xs && Answered(parse, xs[|done|], reference, visit, api)
  }

  /** From this position on the log answers the visits one by one. */
  ghost predicate Ahead(parse: D.Parser, xs: seq<Exchange>, base: nat, first: Ref, visits: seq<Visit>, api: ApiVersion) {
    base + |visits| <= |xs| && AllAnswered(parse, xs[base..base + |visits|], first, visits, api)
  }

  lemma AheadAt(parse: D.Parser, xs: seq<Exchange>, base: nat, first: Ref, visits: seq<Visit>, api: ApiVersion, i: nat)
    requires Ahead(parse, xs, base, first, visits, api) && i < |visits|
    ensures Answered(parse, xs[base + i], first + i, visits[i], api)
  {
    assert xs[base..base + |visits|][i] == xs[base + i];
  }

  /** Inspect one object under a fresh reference and check the identity its body repeats; a network must also name its native ID. */
  method Inspect(budget: Budget.BudgetCounters, turns: nat -> Turn, parse: D.Parser, visit: Visit, reference: Ref, api: ApiVersion,
                 ghost xs: seq<Exchange>)
    returns (r: Result<Json, AcquisitionError>)
    requires Clean(budget.View()) && budget.limits.Fits(budget.machine)
    requires visit.key == D.IdentityKey(visit.target.kind, visit.key == "Name")
    requires Heard(turns, budget.exchanges, budget.limits, budget.machine)
    modifies budget
    ensures Heard(turns, budget.exchanges, budget.limits, budget.machine)
    ensures r.Ok? ==>
      && |budget.exchanges| == |old(budget.exchanges)| + 1
      && (var x := budget.exchanges[|old(budget.exchanges)|];
          && Extended(budget.View(), old(budget.View()), [x])
          && Answered(parse, x, reference, visit, api) && parse(x.body) == Some(r.value)
          && (visit.target.kind == Network ==> r.value.GetStr("Id") == Some(NativeOf(parse, x, Network))))
      && budget.expansions == old(budget.expansions) + 1
    ensures r == Err(AcquisitionError.Budget(Expansions)) ==>
      budget.exchanges == old(budget.exchanges) && old(budget.expansions) == budget.limits.maxExpansions
    ensures Playable(turns, xs, budget.limits, budget.machine) && AnsweredNext(parse, old(budget.exchanges), xs, reference, visit, api) ==>
      r.Ok? && budget.exchanges <= xs
  {
    hide Playable, Heard, FromLog;
    var body := Perform(budget, turns, InspectRequest(visit.target), Some(reference), Some(api), xs);
    if body.Err? { return Err(body.error); }
    var parsed := parse(body.value);
    if parsed.None? { return Err(Shape); }
    if parsed.value.GetStr(visit.key) != Some(visit.target.id) { return Err(Shape); }
    if visit.target.kind == Network {
      var native := parsed.value.GetStr("Id");
      if native.None? || native.value == "" { return Err(Shape); }
    }
    return Ok(parsed.value);
  }

  /** The state of an inspection loop after `i` of its visits. */
  ghost predicate Working(s: Budget.State, before: Budget.State, parse: D.Parser, api: ApiVersion, first: Ref,
                          visits: seq<Visit>, i: nat, done: seq<Exchange>) {
    && i <= |visits| && s.expansions == before.expansions + i
    && Extended(s, before, done)
    && AllAnswered(parse, done, first, visits[..i], api)
  }

  /** The run has kept to a playable log, which answers all visits of the loop. */
  ghost predicate OnScript(done: seq<Exchange>, xs: seq<Exchange>, before: Budget.State, turns: nat -> Turn, limits: Limits, machine: nat,
                           parse: D.Parser, first: Ref, visits: seq<Visit>, api: ApiVersion) {
    Playable(turns, xs, limits, machine) && done <= xs && Ahead(parse, xs, |before.exchanges|, first, visits, api)
  }

  lemma AheadIsLonger(parse: D.Parser, xs: seq<Exchange>, base: nat, first: Ref, visits: seq<Visit>, api: ApiVersion)
    requires Ahead(parse, xs, base, first, visits, api)
    ensures base + |visits| <= |xs|
  {
  }

  /** The next visit of a loop. */
  method InspectNext(budget: Budget.BudgetCounters, turns: nat -> Turn, parse: D.Parser, api: ApiVersion, first: Ref,
                     visits: seq<Visit>, i: nat, ghost before: Budget.State, ghost done: seq<Exchange>, ghost xs: seq<Exchange>)
    returns (r: Result<Json, AcquisitionError>, ghost x: Exchange)
    requires i < |visits| && visits[i].key == D.IdentityKey(visits[i].target.kind, visits[i].key == "Name")
    requires Working(budget.View(), before, parse, api, first, visits, i, done)
    requires budget.limits.Fits(budget.machine)
    requires Heard(turns, budget.exchanges, budget.limits, budget.machine)
    modifies budget
    ensures Heard(turns, budget.exchanges, budget.limits, budget.machine)
    ensures r.Ok? ==>
      && Working(budget.View(), before, parse, api, first, visits, i + 1, done + [x])
      && parse(x.body) == Some(r.value)
      && (visits[i].target.kind == Network ==> r.value.GetStr("Id") == Some(NativeOf(parse, x, Network)))
    ensures r == Err(AcquisitionError.Budget(Expansions)) ==>
      budget.exchanges == old(budget.exchanges) && old(budget.expansions) == budget.limits.maxExpansions
    ensures OnScript(old(budget.exchanges), xs, before, turns, budget.limits, budget.machine, parse, first, visits, api) ==>
      r.Ok? && budget.exchanges <= xs && x == xs[|before.exchanges| + i]
  {
    hide Playable, Heard, Clean, Ahead, Answered;
    ghost var length := |budget.exchanges|;
    if OnScript(budget.exchanges, xs, before, turns, budget.limits, budget.machine, parse, first, visits, api) {
      AheadAt(parse, xs, |before.exchanges|, first, visits, api, i);
      AheadIsLonger(parse, xs, |before.exchanges|, first, visits, api);
    }
    x := Exchange(DaemonVersion, None, None, 0, []);
    r := Inspect(budget, turns, parse, visits[i], first + i, api, xs);
    if r.Ok? {
      x := budget.exchanges[length];
      AnsweredMore(parse, done, x, first, visits, i, api);
      assert before.exchanges + done + [x] == before.exchanges + (done + [x]);
    }
  }

  function MentionIds(mentions: set<Mention>): set<string> {
    set m | m in mentions :: m.id
  }

  /** How many inspections the roots and the mentions of these container bodies call for. */
  function Expansion(parse: D.Parser, bodies: seq<Exchange>, count: nat, networks: set<string>, volumes: set<string>): (n: nat)
    ensures n >= count
  {
    count + |networks + MentionIds(AllMentions(parse, bodies))| + |volumes + AllMounted(parse, bodies)|
  }

  lemma {:induction false} TablesGrow(parse: D.Parser, all: seq<Exchange>, n: nat)
    requires n <= |all|
    ensures AllMentions(parse, all[..n]) <= AllMentions(parse, all)
    ensures AllMounted(parse, all[..n]) <= AllMounted(parse, all)
  {
    if n < |all| {
      TablesGrow(parse, all[..|all| - 1], n);
      assert all[..|all| - 1][..n] == all[..n];
    } else {
      assert all[..n] == all;
    }
  }

  /** Reading more container bodies never calls for fewer inspections. */
  lemma ExpansionGrows(parse: D.Parser, all: seq<Exchange>, n: nat, count: nat, networks: set<string>, volumes: set<string>)
    requires n <= |all|
    ensures Expansion(parse, all[..n], count, networks, volumes)
         <= Expansion(parse, all, count, networks, volumes)
  {
    TablesGrow(parse, all, n);
    var less, more := AllMentions(parse, all[..n]), AllMentions(parse, all);
    assert MentionIds(less) <= MentionIds(more);
    SubsetSize(networks + MentionIds(less), networks + MentionIds(more));
    SubsetSize(volumes + AllMounted(parse, all[..n]), volumes + AllMounted(parse, all));
  }

  /** The tables after one more container body has been read. */
  lemma Grow(parse: D.Parser, done: seq<Exchange>, x: Exchange)
    requires parse(x.body).Some?
    ensures AllMentions(parse, done + [x]) == AllMentions(parse, done) + Mentions(parse(x.body).value)
    ensures AllMounted(parse, done + [x]) == AllMounted(parse, done) + (set id | id in Mounted(parse(x.body).value))
  {
    assert (done + [x])[..|done|] == done;
  }

  /** Everything named so far has a nonempty name. */
  ghost predicate Named(networks: map<string, bool>, volumes: set<string>) {
    "" !in networks && "" !in volumes
  }

  /** What one container body adds: settled flags for known networks, new networks, and new volumes. */
  datatype Growth = Growth(settled: map<string, bool>, networks: map<string, bool>, volumes: set<string>)

  method Expand(parsed: Json, networks: map<string, bool>, volumes: set<string>) returns (r: Result<Growth, AcquisitionError>)
    requires Named(networks, volumes)
    ensures r.Ok? ==>
      && r.value.settled.Keys == networks.Keys
      && r.value.networks.Keys !! networks.Keys && r.value.volumes !! volumes
      && Merged(networks, Mentions(parsed), r.value.settled + r.value.networks)
      && volumes + r.value.volumes == volumes + (set id | id in Mounted(parsed))
      && Named(r.value.settled + r.value.networks, volumes + r.value.volumes)
    ensures r.Err? ==> r.error == Shape
    ensures r.Ok? <==> Expandable(Some(parsed))
  {
    var related := RelatedIds(Some(parsed));
    if related.Err? { return Err(related.error); }
    var settled, added := MergeNetworks(networks, related.value.networks);
    var unseen: set<string> := set id | id in related.value.volumes && id !in volumes;
    assert forall id :: id in Elements(related.value.volumes) <==> id in Mounted(parsed);
    assert volumes + unseen == volumes + (set id | id in Mounted(parsed));
    assert "" !in settled + added by {
      assert (settled + added).Keys == networks.Keys + (set m | m in Mentions(parsed) :: m.id);
    }
    return Ok(Growth(settled, added, unseen));
  }

  /** The tables match the container bodies read so far. */
  ghost predicate Tabled(parse: D.Parser, done: seq<Exchange>, known: map<string, bool>, rooted: set<string>,
                         networks: map<string, bool>, volumes: set<string>) {
    && Merged(known, AllMentions(parse, done), networks)
    && volumes == rooted + AllMounted(parse, done)
    && Named(networks, volumes)
  }

  lemma TabledMore(parse: D.Parser, done: seq<Exchange>, x: Exchange, known: map<string, bool>, rooted: set<string>,
                   networks: map<string, bool>, volumes: set<string>, g: Growth)
    requires Tabled(parse, done, known, rooted, networks, volumes) && parse(x.body).Some?
    requires Merged(networks, Mentions(parse(x.body).value), g.settled + g.networks)
    requires volumes + g.volumes == volumes + (set id | id in Mounted(parse(x.body).value))
    requires Named(g.settled + g.networks, volumes + g.volumes)
    ensures Tabled(parse, done + [x], known, rooted, g.settled + g.networks, volumes + g.volumes)
  {
    Grow(parse, done, x);
    MergedTwice(known, AllMentions(parse, done), networks, Mentions(parse(x.body).value), g.settled + g.networks);
  }

  /** The projection counts only what the complete expansion will need anyway. */
  lemma ProjectionIsNeeded(parse: D.Parser, done: seq<Exchange>, count: nat, inspected: nat, known: map<string, bool>,
                           rooted: set<string>, earlier: map<string, bool>, volumes: set<string>, g: Growth)
    requires Tabled(parse, done, known, rooted, g.settled + g.networks, volumes + g.volumes)
    requires g.settled.Keys == earlier.Keys && g.networks.Keys !! earlier.Keys && g.volumes !! volumes
    requires inspected <= count
    ensures inspected + |g.networks| + |g.volumes| <= Expansion(parse, done, count, known.Keys, rooted)
  {
    var all := known.Keys + MentionIds(AllMentions(parse, done));
    assert (g.settled + g.networks).Keys == all;
    assert |g.networks| == |g.networks.Keys|;
    SubsetSize(g.networks.Keys, all);
    SubsetSize(g.volumes, volumes + g.volumes);
  }

  /** The state of the container loop after `i` containers. */
  ghost predicate Inspecting(s: Budget.State, before: Budget.State, parse: D.Parser, api: ApiVersion, visits: seq<Visit>, i: nat,
                             done: seq<Exchange>, known: map<string, bool>, rooted: set<string>,
                             networks: map<string, bool>, volumes: set<string>) {
    Working(s, before, parse, api, 1, visits, i, done) && Tabled(parse, done, known, rooted, networks, volumes)
  }

  method InspectContainer(budget: Budget.BudgetCounters, turns: nat -> Turn, parse: D.Parser, api: ApiVersion, visits: seq<Visit>, i: nat,
                          ghost before: Budget.State, ghost done: seq<Exchange>, ghost known: map<string, bool>,
                          ghost rooted: set<string>, networks: map<string, bool>, volumes: set<string>, ghost xs: seq<Exchange>)
    returns (r: Result<(map<string, bool>, set<string>), AcquisitionError>, ghost more: seq<Exchange>)
    requires i < |visits| && visits[i].target.kind == Container && visits[i].key == "Id" && before.expansions == 0
    requires Inspecting(budget.View(), before, parse, api, visits, i, done, known, rooted, networks, volumes)
    requires budget.limits.Fits(budget.machine)
    requires Heard(turns, budget.exchanges, budget.limits, budget.machine)
    modifies budget
    ensures Heard(turns, budget.exchanges, budget.limits, budget.machine)
    ensures r.Ok? ==>
      Inspecting(budget.View(), before, parse, api, visits, i + 1, more, known, rooted, r.value.0, r.value.1)
    ensures r == Err(AcquisitionError.Budget(Expansions)) ==>
      && budget.exchanges == before.exchanges + more
      && |more| <= |visits| && AllAnswered(parse, more, 1, visits[..|more|], api)
      && Expansion(parse, more, |visits|, known.Keys, rooted) > budget.limits.maxExpansions
    ensures OnScript(old(budget.exchanges), xs, before, turns, budget.limits, budget.machine, parse, 1, visits, api)
            && Expandable(parse(xs[|before.exchanges| + i].body)) ==>
      (r.Ok? || r == Err(AcquisitionError.Budget(Expansions))) && budget.exchanges <= xs
  {
    hide Playable, Heard, Clean, Ahead, Expansion, Merged, Expandable, Answered, AllMentions, AllMounted;
    more := done;
    var inspected, x := InspectNext(budget, turns, parse, api, 1, visits, i, before, done, xs);
    if inspected.Err? { return Err(inspected.error), more; }
    var growth := Expand(inspected.value, networks, volumes);
    if growth.Err? { return Err(growth.error), more; }
    var g := growth.value;
    TabledMore(parse, done, x, known, rooted, networks, volumes, g);
    more := done + [x];
    if budget.expansions + (|g.networks| + |g.volumes|) > budget.limits.maxExpansions {
      ProjectionIsNeeded(parse, more, |visits|, i + 1, known, rooted, networks, volumes, g);
      return Err(AcquisitionError.Budget(Expansions)), more;
    }
    return Ok((g.settled + g.networks, volumes + g.volumes)), more;
  }

  /** The bodies of the log from this position on name what they refer to. */
  ghost predicate AllExpandable(parse: D.Parser, xs: seq<Exchange>, base: nat, count: nat) {
    base + count <= |xs| && forall k :: base <= k < base + count ==> ExpandableAt(parse, xs, k)
  }

  predicate ExpandableAt(parse: D.Parser, xs: seq<Exchange>, k: nat) {
    k < |xs| && Expandable(parse(xs[k].body))
  }

  lemma NothingDone(budget: Budget.State, parse: D.Parser, api: ApiVersion, first: Ref, visits: seq<Visit>)
    requires Clean(budget)
    ensures Working(budget, budget, parse, api, first, visits, 0, [])
  {
    assert budget.exchanges + [] == budget.exchanges;
  }

  lemma NothingTabled(parse: D.Parser, known: map<string, bool>, rooted: set<string>)
    requires Named(known, rooted)
    ensures Tabled(parse, [], known, rooted, known, rooted)
  {
    assert known.Keys == known.Keys + (set m: Mention | m in {} :: m.id);
  }

  /** A loop that ran to its end. */
  ghost predicate Worked(s: Budget.State, before: Budget.State, parse: D.Parser, api: ApiVersion, first: Ref,
                         visits: seq<Visit>, done: seq<Exchange>) {
    && s.expansions == before.expansions + |visits|
    && Extended(s, before, done)
    && AllAnswered(parse, done, first, visits, api)
  }

  lemma WorkEnds(s: Budget.State, before: Budget.State, parse: D.Parser, api: ApiVersion, first: Ref,
                 visits: seq<Visit>, done: seq<Exchange>)
    requires Working(s, before, parse, api, first, visits, |visits|, done)
    ensures Worked(s, before, parse, api, first, visits, done)
  {
    assert visits[..|visits|] == visits;
  }

  /** The container loop: inspect each, merge what it mentions, and refuse as soon as the projection exceeds the limit. */
  method InspectContainers(budget: Budget.BudgetCounters, world: World, parse: D.Parser, api: ApiVersion,
                           ids: seq<NativeId>, known: map<string, bool>, rooted: set<string>, ghost xs: seq<Exchange>)
    returns (r: Result<(map<string, bool>, set<string>), AcquisitionError>, ghost done: seq<Exchange>)
    requires Clean(budget.View()) && budget.limits.Fits(budget.machine) && budget.expansions == 0
    requires Named(known, rooted)
    requires Heard(world.turns, budget.exchanges, budget.limits, budget.machine)
    modifies budget
    ensures Heard(world.turns, budget.exchanges, budget.limits, budget.machine)
    ensures r.Ok? ==>
      && |ids| < MAX_REF
      && Worked(budget.View(), old(budget.View()), parse, api, 1, ContainerVisits(ids), done)
      && Tabled(parse, done, known, rooted, r.value.0, r.value.1)
    ensures r == Err(AcquisitionError.Budget(Expansions)) ==>
      && budget.exchanges == old(budget.exchanges) + done
      && |done| <= |ids| && AllAnswered(parse, done, 1, ContainerVisits(ids)[..|done|], api)
      && Expansion(parse, done, |ids|, known.Keys, rooted) > budget.limits.maxExpansions
    ensures OnScript(old(budget.exchanges), xs, old(budget.View()), world.turns, budget.limits, budget.machine,
                     parse, 1, ContainerVisits(ids), api)
            && AllExpandable(parse, xs, |old(budget.exchanges)|, |ids|) && |ids| < MAX_REF ==>
      (r.Ok? || r == Err(AcquisitionError.Budget(Expansions))) && budget.exchanges <= xs
  {
    hide Playable, Heard, Clean, Ahead, Expandable, Tabled, Answered, Expansion;
    var networks, volumes := known, rooted;
    var visits := ContainerVisits(ids);
    done := [];
    ghost var before := budget.View();
    ghost var base := |before.exchanges|;
    ghost var helped := OnScript(budget.exchanges, xs, before, world.turns, budget.limits, budget.machine, parse, 1, visits, api)
                        && AllExpandable(parse, xs, base, |ids|) && |ids| < MAX_REF;
    NothingDone(before, parse, api, 1, visits);
    NothingTabled(parse, known, rooted);
    for i := 0 to |ids|
      invariant i < MAX_REF
      invariant helped ==> OnScript(budget.exchanges, xs, before, world.turns, budget.limits, budget.machine, parse, 1, visits, api)
      invariant Heard(world.turns, budget.exchanges, budget.limits, budget.machine)
      invariant Inspecting(budget.View(), before, parse, api, visits, i, done, known, rooted, networks, volumes)
    {
      if i + 1 == MAX_REF { return Err(Shape), done; }
      assert helped ==> ExpandableAt(parse, xs, base + i);
      var step, more := InspectContainer(
        budget, world.turns, parse, api, visits, i, before, done, known, rooted, networks, volumes, xs);
      done := more;
      if step.Err? { return Err(step.error), done; }
      networks, volumes := step.value.0, step.value.1;
    }
    WorkEnds(budget.View(), before, parse, api, 1, visits, done);
    return Ok((networks, volumes)), done;
  }

  lemma FallbacksMore(first: Ref, ids: seq<NativeId>, byName: map<string, bool>, i: nat)
    requires i < |ids| && forall k :: 0 <= k < |ids| ==> ids[k] in byName
    ensures Fallbacks(first, ids[..i + 1], byName)
         == Fallbacks(first, ids[..i], byName) + if byName[ids[i]] then {first + i} else {}
  {
    var more, less := ids[..i + 1], ids[..i];
    forall r | r in Fallbacks(first, more, byName)
      ensures r in Fallbacks(first, less, byName) + if byName[ids[i]] then {first + i} else {}
    {
      var k :| 0 <= k < |more| && byName[more[k]] && r == first + k;
      if k < i { assert less[k] == more[k]; }
    }
    forall r | r in Fallbacks(first, less, byName)
      ensures r in Fallbacks(first, more, byName)
    {
      var k :| 0 <= k < |less| && byName[less[k]] && r == first + k;
      assert more[k] == less[k];
    }
    if byName[ids[i]] { assert more[i] == ids[i] && first + i in Fallbacks(first, more, byName); }
  }

  method MarkFallbacks(first: Ref, ids: seq<NativeId>, byName: map<string, bool>) returns (fallbacks: set<Ref>)
    requires forall k :: 0 <= k < |ids| ==> ids[k] in byName
    ensures fallbacks == Fallbacks(first, ids, byName)
  {
    fallbacks := {};
    for i := 0 to |ids|
      invariant fallbacks == Fallbacks(first, ids[..i], byName)
    {
      FallbacksMore(first, ids, byName, i);
      if byName[ids[i]] { fallbacks := fallbacks + {first + i}; }
    }
    assert ids[..|ids|] == ids;
  }

  /** The native network IDs met so far, none of them twice. */
  ghost predicate Met(parse: D.Parser, done: seq<Exchange>, natives: set<string>) {
    natives == Elements(NativeIds(parse, done, Network)) && NoRepeat(NativeIds(parse, done, Network))
  }

  /** The log meets no native network twice from this position on. */
  ghost predicate AllNew(parse: D.Parser, xs: seq<Exchange>, base: nat, count: nat) {
    base + count <= |xs| && NoRepeat(NativeIds(parse, xs[base..base + count], Network))
  }

  lemma StillNew(parse: D.Parser, xs: seq<Exchange>, base: nat, count: nat, done: seq<Exchange>, x: Exchange, natives: set<string>)
    requires AllNew(parse, xs, base, count) && Met(parse, done, natives)
    requires |done| < count && done == xs[base..base + |done|] && x == xs[base + |done|]
    ensures NativeOf(parse, x, Network) !in natives
  {
    var all, ids := NativeIds(parse, xs[base..base + count], Network), NativeIds(parse, done, Network);
    forall i | 0 <= i < |done| ensures ids[i] == all[i] {
      assert done[i] == xs[base + i] == xs[base..base + count][i];
    }
    assert all[..|done| + 1] == ids + [NativeOf(parse, x, Network)];
    NoRepeatPrefix(all[..|done| + 1], all);
    NoRepeatAppend(ids, NativeOf(parse, x, Network));
  }

  lemma NothingMet(parse: D.Parser)
    ensures Met(parse, [], {})
  {
  }

  lemma MetApart(parse: D.Parser, done: seq<Exchange>, natives: set<string>)
    requires Met(parse, done, natives)
    ensures NoRepeat(NativeIds(parse, done, Network))
  {
  }

  lemma MetMore(parse: D.Parser, done: seq<Exchange>, x: Exchange, natives: set<string>)
    requires Met(parse, done, natives) && NativeOf(parse, x, Network) !in natives
    ensures Met(parse, done + [x], natives + {NativeOf(parse, x, Network)})
  {
    var ids, id := NativeIds(parse, done, Network), NativeOf(parse, x, Network);
    assert NativeIds(parse, done + [x], Network) == ids + [id];
    NoRepeatAppend(ids, id);
  }

  /** The network loop: each once, by the ID or the name it is known by, and no two of them one native network. */
  method InspectNetworks(budget: Budget.BudgetCounters, world: World, parse: D.Parser, api: ApiVersion, first: Ref,
                         ids: seq<NativeId>, byName: map<string, bool>, ghost xs: seq<Exchange>)
    returns (r: Result<set<Ref>, AcquisitionError>, ghost done: seq<Exchange>)
    requires Clean(budget.View()) && budget.limits.Fits(budget.machine)
    requires forall k :: 0 <= k < |ids| ==> ids[k] in byName
    requires Heard(world.turns, budget.exchanges, budget.limits, budget.machine)
    modifies budget
    ensures Heard(world.turns, budget.exchanges, budget.limits, budget.machine)
    ensures r.Ok? ==>
      && Worked(budget.View(), old(budget.View()), parse, api, first, NetworkVisits(ids, byName), done)
      && NoRepeat(NativeIds(parse, done, Network))
      && r.value == Fallbacks(first, ids, byName)
    ensures r == Err(AcquisitionError.Budget(Expansions)) ==>
      old(budget.expansions) + |ids| > budget.limits.maxExpansions
    ensures OnScript(old(budget.exchanges), xs, old(budget.View()), world.turns, budget.limits, budget.machine,
                     parse, first, NetworkVisits(ids, byName), api)
            && AllNew(parse, xs, |old(budget.exchanges)|, |ids|) && first + |ids| <= MAX_REF ==>
      r.Ok? && budget.exchanges <= xs
  {
    hide Playable, Heard, Clean, Ahead, Answered, Met, AllNew;
    var natives: set<string> := {};
    var visits := NetworkVisits(ids, byName);
    done := [];
    ghost var before := budget.View();
    ghost var helped := OnScript(budget.exchanges, xs, before, world.turns, budget.limits, budget.machine, parse, first, visits, api)
                        && AllNew(parse, xs, |budget.exchanges|, |ids|) && first + |ids| <= MAX_REF;
    NothingDone(before, parse, api, first, visits);
    NothingMet(parse);
    for i := 0 to |ids|
      invariant helped ==> OnScript(budget.exchanges, xs, before, world.turns, budget.limits, budget.machine, parse, first, visits, api)
      invariant Heard(world.turns, budget.exchanges, budget.limits, budget.machine)
      invariant Working(budget.View(), before, parse, api, first, visits, i, done)
      invariant Met(parse, done, natives)
    {
      if first + i >= MAX_REF { return Err(Shape), done; }
      var inspected, x := InspectNext(budget, world.turns, parse, api, first, visits, i, before, done, xs);
      if inspected.Err? { return Err(inspected.error), done; }
      if helped { StillNew(parse, xs, |before.exchanges|, |ids|, done, x, natives); }
      var native := inspected.value.GetStr("Id").GetOr("");
      if native in natives { return Err(Shape), done; }
      MetMore(parse, done, x, natives);
      natives, done := natives + {native}, done + [x];
    }
    WorkEnds(budget.View(), before, parse, api, first, visits, done);
    MetApart(parse, done, natives);
    var fallbacks := MarkFallbacks(first, ids, byName);
    return Ok(fallbacks), done;
  }

  /** The volume loop. */
  method InspectVolumes(budget: Budget.BudgetCounters, world: World, parse: D.Parser, api: ApiVersion, first: Ref, ids: seq<NativeId>,
                        ghost xs: seq<Exchange>)
    returns (error: Option<AcquisitionError>, ghost done: seq<Exchange>)
    requires Clean(budget.View()) && budget.limits.Fits(budget.machine)
    requires Heard(world.turns, budget.exchanges, budget.limits, budget.machine)
    modifies budget
    ensures Heard(world.turns, budget.exchanges, budget.limits, budget.machine)
    ensures error.None? ==> Worked(budget.View(), old(budget.View()), parse, api, first, VolumeVisits(ids), done)
    ensures error == Some(AcquisitionError.Budget(Expansions)) ==>
      old(budget.expansions) + |ids| > budget.limits.maxExpansions
    ensures OnScript(old(budget.exchanges), xs, old(budget.View()), world.turns, budget.limits, budget.machine,
                     parse, first, VolumeVisits(ids), api) && first + |ids| <= MAX_REF ==>
      error.None? && budget.exchanges <= xs
  {
    hide Playable, Heard, Clean, Ahead, Answered;
    var visits := VolumeVisits(ids);
    done := [];
    ghost var before := budget.View();
    ghost var helped := OnScript(budget.exchanges, xs, before, world.turns, budget.limits, budget.machine, parse, first, visits, api)
                        && first + |ids| <= MAX_REF;
    NothingDone(before, parse, api, first, visits);
    for i := 0 to |ids|
      invariant helped ==> OnScript(budget.exchanges, xs, before, world.turns, budget.limits, budget.machine, parse, first, visits, api)
      invariant Heard(world.turns, budget.exchanges, budget.limits, budget.machine)
      invariant Working(budget.View(), before, parse, api, first, visits, i, done)
    {
      if first + i >= MAX_REF { return Some(Shape), done; }
      var inspected, x := InspectNext(budget, world.turns, parse, api, first, visits, i, before, done, xs);
      if inspected.Err? { return Some(inspected.error), done; }
      done := done + [x];
    }
    WorkEnds(budget.View(), before, parse, api, first, visits, done);
    return None, done;
  }

  // ---- the whole run ----

  /** What is refused before any contact. */
  function SelectorFault(selector: Selector, limits: Limits): Option<AcquisitionError> {
    match selector
    case ContainerIds(ids) => IdsFault(ids, limits)
    case NetworkIds(ids) => IdsFault(ids, limits)
    case VolumeNames(names) => NamesFault(names, limits, forall i :: 0 <= i < |names| ==> VolumeName(names[i]))
    case ContainerNames(names) => NamesFault(names, limits, forall i :: 0 <= i < |names| ==> LiteralName(names[i]))
    case NamePrefix(prefix) => if LiteralName(prefix) then None else Some(Selection)
    case Label(key, value) =>
      if Admissible(selector) && |key| <= MAX_COLLECTION_ITEMS && (value.Some? ==> |value.value| <= MAX_COLLECTION_ITEMS)
      then None else Some(Selection)
    case _ => None
  }

  function IdsFault(ids: seq<NativeId>, limits: Limits): Option<AcquisitionError> {
    if |ids| > limits.maxSelectedResources || |ids| > MAX_COLLECTION_ITEMS then Some(AcquisitionError.Budget(SelectedResources))
    else if forall i :: 0 <= i < |ids| ==> CanonicalId(ids[i]) then None
    else Some(Selection)
  }

  function NamesFault(names: seq<NativeId>, limits: Limits, literal: bool): Option<AcquisitionError> {
    if names == [] || !literal then Some(Selection)
    else if |names| > limits.maxSelectedResources || |names| > MAX_COLLECTION_ITEMS then Some(AcquisitionError.Budget(SelectedResources))
    else None
  }

  method KeepFirst(ids: seq<NativeId>) returns (r: seq<NativeId>)
    ensures r == Dedup(ids)
  {
    r := [];
    for i := 0 to |ids|
      invariant r == Dedup(ids[..i])
    {
      assert ids[..i + 1][..i] == ids[..i];
      if ids[i] !in r { r := r + [ids[i]]; }
    }
    assert ids[..|ids|] == ids;
  }

  function Draft(api: ApiVersion, selector: Selector, containers: seq<NativeId>): Plan {
    Plan(api, selector, containers, [], map[], [])
  }

  /** The log opens as the plan does. */
  ghost predicate Opening(parse: D.Parser, xs: seq<Exchange>, goal: Plan) {
    |goal.Opening()| <= |xs| && OpeningDone(parse, xs[..|goal.Opening()|], goal)
  }

  lemma OpeningAsks(parse: D.Parser, xs: seq<Exchange>, goal: Plan)
    requires Opening(parse, xs, goal)
    ensures |xs| >= 2 && AsksNext([], xs, DaemonVersion, None, None) && Negotiated(parse(xs[0].body)) == Some(goal.api)
    ensures Asks(xs[1], DaemonInfo, None, Some(goal.api))
    ensures goal.selector.Lists() ==> |xs| >= 3 && Asks(xs[2], ListContainers, None, Some(goal.api))
  {
    var opening := xs[..|goal.Opening()|];
    assert opening[0] == xs[0] && opening[1] == xs[1];
    if goal.selector.Lists() { assert opening[2] == xs[2]; }
  }

  /** What the plan takes from the list that the log has read. */
  lemma OpeningChooses(parse: D.Parser, xs: seq<Exchange>, goal: Plan)
    requires Opening(parse, xs, goal)
    ensures match goal.selector
      case ContainerIds(ids) => goal.containers == Dedup(ids)
      case NetworkIds(_) => goal.containers == []
      case VolumeNames(_) => goal.containers == []
      case _ =>
        && |xs| >= 3 && Selectable(parse(xs[2].body), goal.selector)
        && goal.containers == Dedup(Selected(parse(xs[2].body).value.items, goal.selector))
  {
    if goal.selector.Lists() { assert xs[..|goal.Opening()|][2] == xs[2]; }
  }

  lemma OneOpened(s: Budget.State, x: Exchange)
    requires s.exchanges == []
    ensures Answer(s, x).exchanges == [x]
  {
    assert [] + [x] == [x];
  }

  lemma PairOpened(s: Budget.State, x: Exchange, y: Exchange)
    requires s.exchanges == [] && Clean(Answer(Answer(s, x), y)) && x.request.Inspected().None? && y.request.Inspected().None?
    ensures Answer(Answer(s, x), y).exchanges == [x, y] && Extended(Answer(Answer(s, x), y), s, [x, y])
  {
    assert [] + [x] == [x] && [x] + [y] == [x, y] && [] + [x, y] == [x, y];
  }

  method Negotiate(budget: Budget.BudgetCounters, world: World, parse: D.Parser, ghost xs: seq<Exchange>, ghost goal: Plan)
    returns (r: Result<ApiVersion, AcquisitionError>, ghost opening: seq<Exchange>)
    requires Clean(budget.View()) && budget.limits.Fits(budget.machine) && budget.exchanges == []
    requires Heard(world.turns, budget.exchanges, budget.limits, budget.machine)
    modifies budget
    ensures Heard(world.turns, budget.exchanges, budget.limits, budget.machine)
    ensures r.Ok? ==>
      && Extended(budget.View(), old(budget.View()), opening) && |opening| == 2
      && Opened(opening[0], DaemonVersion, None) && Negotiated(parse(opening[0].body)) == Some(r.value)
      && Opened(opening[1], DaemonInfo, Some(r.value))
    ensures r != Err(AcquisitionError.Budget(Expansions))
    ensures Playable(world.turns, xs, budget.limits, budget.machine) && Opening(parse, xs, goal) ==>
      r == Ok(goal.api) && budget.exchanges <= xs
  {
    hide Playable, Heard, Opening, Clean, Answer, Negotiated;
    ghost var before := budget.View();
    if Opening(parse, xs, goal) { OpeningAsks(parse, xs, goal); }
    opening := [];
    var version := Perform(budget, world.turns, DaemonVersion, None, None, xs);
    if version.Err? { return Err(version.error), []; }
    var api := Negotiated(parse(version.value));
    if api.None? { return Err(Version), []; }
    OneOpened(before, Exchange(DaemonVersion, None, None, 200, version.value));
    var info := Perform(budget, world.turns, DaemonInfo, None, api, xs);
    if info.Err? { return Err(info.error), []; }
    opening := budget.exchanges;
    PairOpened(before, Exchange(DaemonVersion, None, None, 200, version.value), Exchange(DaemonInfo, None, api, 200, info.value));
    return Ok(api.value), opening;
  }

  method Choose(budget: Budget.BudgetCounters, world: World, parse: D.Parser, selector: Selector, api: ApiVersion,
                ghost opening: seq<Exchange>, ghost xs: seq<Exchange>, ghost goal: Plan)
    returns (r: Result<seq<NativeId>, AcquisitionError>, ghost more: seq<Exchange>)
    requires Clean(budget.View()) && budget.limits.Fits(budget.machine) && budget.exchanges == opening && |opening| == 2
    requires Heard(world.turns, budget.exchanges, budget.limits, budget.machine)
    modifies budget
    ensures Heard(world.turns, budget.exchanges, budget.limits, budget.machine)
    ensures r.Ok? ==>
      && Clean(budget.View()) && budget.exchanges == more && budget.selected == old(budget.selected)
      && opening <= more && |more| == (if selector.Lists() then 3 else 2)
      && (selector.Lists() ==> Opened(more[2], ListContainers, Some(api)))
      && ContainersChosen(parse, more, Draft(api, selector, r.value))
    ensures r != Err(AcquisitionError.Budget(Expansions))
    ensures Playable(world.turns, xs, budget.limits, budget.machine) && Opening(parse, xs, goal) && opening <= xs
            && goal.selector == selector && goal.api == api ==>
      r == Ok(goal.containers) && budget.exchanges <= xs
  {
    hide Playable, Heard, Opening, Selectable, Selected;
    if Opening(parse, xs, goal) {
      OpeningAsks(parse, xs, goal);
      OpeningChooses(parse, xs, goal);
    }
    more := opening;
    var chosen: seq<NativeId> := [];
    if selector.ContainerIds? {
      chosen := selector.ids;
    } else if selector.Lists() {
      var listed := Perform(budget, world.turns, ListContainers, None, Some(api), xs);
      if listed.Err? { return Err(listed.error), more; }
      more := budget.exchanges;
      var ids := SelectIds(parse(listed.value), selector);
      if ids.Err? { return Err(ids.error), more; }
      chosen := ids.value;
    }
    var containers := KeepFirst(chosen);
    return Ok(containers), more;
  }

  predicate Refines(plan: Plan, draft: Plan) {
    plan == Plan(draft.api, draft.selector, draft.containers, plan.networks, plan.byName, plan.volumes)
  }

  /** The opening does not depend on what the inspections add to the plan. */
  lemma OpeningKeeps(parse: D.Parser, opening: seq<Exchange>, draft: Plan, plan: Plan)
    requires OpeningDone(parse, opening, draft)
    requires Refines(plan, draft)
    ensures OpeningDone(parse, opening, plan)
  {
  }

  /** Everything before the first inspection. */
  method Begin(budget: Budget.BudgetCounters, world: World, parse: D.Parser, selector: Selector, ghost xs: seq<Exchange>, ghost goal: Plan)
    returns (r: Result<Plan, AcquisitionError>, ghost opening: seq<Exchange>)
    requires Clean(budget.View()) && budget.limits.Fits(budget.machine) && budget.exchanges == [] && budget.selected == 0
    requires Heard(world.turns, budget.exchanges, budget.limits, budget.machine)
    modifies budget
    ensures Heard(world.turns, budget.exchanges, budget.limits, budget.machine)
    ensures r.Ok? ==>
      && Clean(budget.View()) && budget.exchanges == opening && budget.selected == 0 && budget.expansions == 0
      && r.value == Draft(r.value.api, selector, r.value.containers)
      && OpeningDone(parse, opening, r.value)
    ensures r != Err(AcquisitionError.Budget(Expansions))
    ensures Playable(world.turns, xs, budget.limits, budget.machine) && Opening(parse, xs, goal) && goal.selector == selector ==>
      r == Ok(Draft(goal.api, selector, goal.containers)) && budget.exchanges <= xs
  {
    hide Playable, Heard, Opening, OpeningDone, ContainersChosen;
    var api, first := Negotiate(budget, world, parse, xs, goal);
    opening := first;
    if api.Err? { return Err(api.error), opening; }
    var containers, more := Choose(budget, world, parse, selector, api.value, opening, xs, goal);
    opening := more;
    if containers.Err? { return Err(containers.error), opening; }
    Opens(parse, first, opening, api.value, selector, containers.value);
    OpeningInspectsNothing(first, opening);
    return Ok(Draft(api.value, selector, containers.value)), opening;
  }

  lemma Opens(parse: D.Parser, pair: seq<Exchange>, opening: seq<Exchange>, api: ApiVersion, selector: Selector, containers: seq<NativeId>)
    requires |pair| == 2 && Opened(pair[0], DaemonVersion, None) && Negotiated(parse(pair[0].body)) == Some(api)
    requires Opened(pair[1], DaemonInfo, Some(api)) && pair <= opening && |opening| == (if selector.Lists() then 3 else 2)
    requires selector.Lists() ==> Opened(opening[2], ListContainers, Some(api))
    requires ContainersChosen(parse, opening, Draft(api, selector, containers))
    ensures OpeningDone(parse, opening, Draft(api, selector, containers))
  {
    assert opening[0] == pair[0] && opening[1] == pair[1];
  }

  lemma OpeningInspectsNothing(pair: seq<Exchange>, opening: seq<Exchange>)
    requires |pair| == 2 && pair[0].request.DaemonVersion? && pair[1].request.DaemonInfo?
    requires pair <= opening && |opening| <= 3 && (|opening| == 3 ==> opening[2].request.ListContainers?)
    ensures Budget.Inspects(opening) == 0
  {
    assert opening[0] == pair[0] && opening[1] == pair[1];
    NothingInspected(opening);
  }

  lemma {:induction false} NothingInspected(xs: seq<Exchange>)
    requires forall i :: 0 <= i < |xs| ==> xs[i].request.Inspected().None?
    ensures Budget.Inspects(xs) == 0
  {
    if xs != [] {
      NothingInspected(xs[..|xs| - 1]);
    }
  }

  lemma WorkedLength(s: Budget.State, before: Budget.State, parse: D.Parser, api: ApiVersion, first: Ref,
                     visits: seq<Visit>, done: seq<Exchange>)
    requires Worked(s, before, parse, api, first, visits, done)
    ensures |s.exchanges| == |before.exchanges| + |visits|
  {
  }

  /** Two loops in a row. */
  lemma WorkedTwice(before: Budget.State, s: Budget.State, next: Budget.State, parse: D.Parser, api: ApiVersion,
                    first: Ref, a: seq<Visit>, n: seq<Exchange>, second: Ref, b: seq<Visit>, v: seq<Exchange>)
    requires Worked(s, before, parse, api, first, a, n) && Worked(next, s, parse, api, second, b, v) && second == first + |a|
    ensures Worked(next, before, parse, api, first, a + b, n + v) && |n| == |a|
  {
    assert before.exchanges + n + v == before.exchanges + (n + v);
    AnsweredConcat(parse, n, a, v, b, first, second, api);
  }

  lemma AheadParts(parse: D.Parser, xs: seq<Exchange>, base: nat, first: Ref, a: seq<Visit>, b: seq<Visit>, api: ApiVersion)
    requires Ahead(parse, xs, base, first, a + b, api)
    ensures Ahead(parse, xs, base, first, a, api) && Ahead(parse, xs, base + |a|, first + |a|, b, api)
  {
    forall i | 0 <= i < |a| ensures Answered(parse, xs[base..base + |a|][i], first + i, a[i], api) {
      AheadAt(parse, xs, base, first, a + b, api, i);
    }
    forall i | 0 <= i < |b| ensures Answered(parse, xs[base + |a|..base + |a| + |b|][i], first + |a| + i, b[i], api) {
      AheadAt(parse, xs, base, first, a + b, api, |a| + i);
    }
  }

  /** The networks and volumes of a finished plan. */
  method InspectRelated(budget: Budget.BudgetCounters, world: World, parse: D.Parser, plan: Plan, ghost xs: seq<Exchange>)
    returns (r: Result<set<Ref>, AcquisitionError>, ghost done: seq<Exchange>)
    requires Clean(budget.View()) && budget.limits.Fits(budget.machine) && plan.Flags()
    requires Heard(world.turns, budget.exchanges, budget.limits, budget.machine)
    modifies budget
    ensures Heard(world.turns, budget.exchanges, budget.limits, budget.machine)
    ensures r.Ok? ==>
      && Worked(budget.View(), old(budget.View()), parse, plan.api, 1 + |plan.containers|, RelatedVisits(plan), done)
      && RelatedDone(parse, plan, done)
      && r.value == Fallbacks(1 + |plan.containers|, plan.networks, plan.byName)
    ensures r == Err(AcquisitionError.Budget(Expansions)) ==>
      old(budget.expansions) + |RelatedVisits(plan)| > budget.limits.maxExpansions
    ensures OnScript(old(budget.exchanges), xs, old(budget.View()), world.turns, budget.limits, budget.machine,
                     parse, 1 + |plan.containers|, RelatedVisits(plan), plan.api)
            && AllNew(parse, xs, |old(budget.exchanges)|, |plan.networks|) && |plan.Visits()| < MAX_REF ==>
      r.Ok? && budget.exchanges <= xs
  {
    hide Playable, Heard, Clean, Ahead, AllNew, AllAnswered, NoRepeat;
    ghost var before := budget.View();
    var second := 1 + |plan.containers|;
    var third := second + |plan.networks|;
    if Ahead(parse, xs, |budget.exchanges|, second, RelatedVisits(plan), plan.api) {
      AheadParts(parse, xs, |budget.exchanges|, second, NetworkVisits(plan.networks, plan.byName), VolumeVisits(plan.volumes), plan.api);
    }
    var marked, n := InspectNetworks(budget, world, parse, plan.api, second, plan.networks, plan.byName, xs);
    if marked.Err? { return marked, n; }
    ghost var between := budget.View();
    WorkedLength(between, before, parse, plan.api, second, NetworkVisits(plan.networks, plan.byName), n);
    var failed, v := InspectVolumes(budget, world, parse, plan.api, third, plan.volumes, xs);
    if failed.Some? { return Err(failed.value), n; }
    WorkedTwice(before, between, budget.View(), parse, plan.api,
                second, NetworkVisits(plan.networks, plan.byName), n, third, VolumeVisits(plan.volumes), v);
    assert (n + v)[..|plan.networks|] == n;
    return marked, n + v;
  }

  method SortTables(byName: map<string, bool>, volumes: set<string>) returns (networkIds: seq<NativeId>, volumeIds: seq<NativeId>)
    requires Named(byName, volumes)
    ensures Ascending(networkIds) && Elements(networkIds) == byName.Keys
    ensures Ascending(volumeIds) && Elements(volumeIds) == volumes
  {
    var networks := Sorted(byName.Keys);
    var rest := Sorted(volumes);
    assert forall k :: 0 <= k < |networks| ==> networks[k] in Elements(networks);
    assert forall k :: 0 <= k < |rest| ==> rest[k] in Elements(rest);
    networkIds, volumeIds := networks, rest;
  }

  lemma Settle(parse: D.Parser, plan: Plan, c: seq<Exchange>, volumes: set<string>)
    requires AllAnswered(parse, c, 1, ContainerVisits(plan.containers), plan.api)
    requires Tabled(parse, c, InitialNetworks(plan.selector), InitialVolumes(plan.selector), plan.byName, volumes)
    requires Ascending(plan.networks) && Elements(plan.networks) == plan.byName.Keys
    requires Ascending(plan.volumes) && Elements(plan.volumes) == volumes
    ensures Settled(parse, plan, c)
  {
    forall i | 0 <= i < |plan.networks| ensures plan.networks[i] in plan.byName {
      assert plan.networks[i] in Elements(plan.networks);
    }
  }

  /** The run is refused for good: the container bodies read so far call for more inspections than the limit allows. */
  ghost predicate Excessive(parse: D.Parser, draft: Plan, c: seq<Exchange>, limits: Limits) {
    && |c| <= |draft.containers|
    && AllAnswered(parse, c, 1, ContainerVisits(draft.containers)[..|c|], draft.api)
    && Expansion(parse, c, |draft.containers|, InitialNetworks(draft.selector).Keys, InitialVolumes(draft.selector))
       > limits.maxExpansions
  }

  /** The selection is in time, and the limit has room for it. */
  predicate Selects(draft: Plan, world: World, limits: Limits) {
    && world.selectedAt <= limits.maxElapsed
    && |draft.containers| + |InitialNetworks(draft.selector)| + |InitialVolumes(draft.selector)| <= limits.maxSelectedResources
  }

  /** Charge the selection. */
  method Charge(budget: Budget.BudgetCounters, count: nat, elapsed: nat) returns (error: Option<LimitError>)
    requires Clean(budget.View()) && budget.limits.Fits(budget.machine)
    modifies budget
    ensures error.None? ==> Clean(budget.View()) && budget.View() == old(budget.View()).(selected := old(budget.selected) + count)
    ensures error.Some? ==> error != Some(Expansions) && budget.exchanges == old(budget.exchanges)
    ensures error.None? <==> elapsed <= budget.limits.maxElapsed && old(budget.selected) + count <= budget.limits.maxSelectedResources
  {
    error := budget.Selected(count, elapsed);
  }

  method InspectRoots(budget: Budget.BudgetCounters, world: World, parse: D.Parser, draft: Plan, ghost xs: seq<Exchange>)
    returns (r: Result<Plan, AcquisitionError>, ghost c: seq<Exchange>)
    requires Clean(budget.View()) && budget.limits.Fits(budget.machine)
    requires budget.expansions == 0 && budget.selected == 0
    requires Heard(world.turns, budget.exchanges, budget.limits, budget.machine)
    modifies budget
    ensures Heard(world.turns, budget.exchanges, budget.limits, budget.machine)
    ensures r.Ok? ==>
      && Refines(r.value, draft) && Settled(parse, r.value, c)
      && Clean(budget.View()) && budget.exchanges == old(budget.exchanges) + c
      && budget.expansions == |draft.containers|
      && budget.selected == |draft.containers| + |InitialNetworks(draft.selector)| + |InitialVolumes(draft.selector)|
    ensures r == Err(AcquisitionError.Budget(Expansions)) ==>
      budget.exchanges == old(budget.exchanges) + c && Excessive(parse, draft, c, budget.limits)
    ensures OnScript(old(budget.exchanges), xs, old(budget.View()), world.turns, budget.limits, budget.machine,
                     parse, 1, ContainerVisits(draft.containers), draft.api)
            && AllExpandable(parse, xs, |old(budget.exchanges)|, |draft.containers|) && |draft.containers| < MAX_REF
            && Selects(draft, world, budget.limits) ==>
      (r.Ok? || r == Err(AcquisitionError.Budget(Expansions))) && budget.exchanges <= xs
  {
    hide Playable, Heard, Clean, Ahead, AllExpandable, Settled, Merged, Expansion;
    c := [];
    var known, rooted := InitialNetworks(draft.selector), InitialVolumes(draft.selector);
    var counted := Charge(budget, |draft.containers| + |known| + |rooted|, world.selectedAt);
    if counted.Some? { return Err(AcquisitionError.Budget(counted.value)), c; }
    var tables, first := InspectContainers(budget, world, parse, draft.api, draft.containers, known, rooted, xs);
    c := first;
    if tables.Err? { return Err(tables.error), c; }
    var networkIds, volumeIds := SortTables(tables.value.0, tables.value.1);
    var plan := Plan(draft.api, draft.selector, draft.containers, networkIds, tables.value.0, volumeIds);
    Settle(parse, plan, c, tables.value.1);
    return Ok(plan), c;
  }

  /** A settled plan inspects exactly its expansion. */
  lemma SettledExpansion(parse: D.Parser, plan: Plan, c: seq<Exchange>)
    requires Settled(parse, plan, c)
    ensures |plan.containers| + |plan.networks| + |plan.volumes|
         == Expansion(parse, c, |plan.containers|, InitialNetworks(plan.selector).Keys, InitialVolumes(plan.selector))
  {
    AscendingDistinct(plan.networks);
    AscendingDistinct(plan.volumes);
    DistinctSize(plan.networks);
    DistinctSize(plan.volumes);
    assert plan.byName.Keys == InitialNetworks(plan.selector).Keys + MentionIds(AllMentions(parse, c));
  }

  /** With explicit networks or volumes the roots are all of them: nothing else could have been mentioned. */
  lemma RootsAreCounted(parse: D.Parser, plan: Plan, c: seq<Exchange>)
    requires Settled(parse, plan, c)
    requires plan.selector.NetworkIds? || plan.selector.VolumeNames? ==> plan.containers == []
    ensures |PlannedRoots(plan)|
         == |plan.containers| + |InitialNetworks(plan.selector)| + |InitialVolumes(plan.selector)|
  {
    if plan.containers == [] {
      assert c == [];
      assert plan.byName.Keys == InitialNetworks(plan.selector).Keys;
      assert Elements(plan.volumes) == InitialVolumes(plan.selector);
      AscendingDistinct(plan.networks);
      AscendingDistinct(plan.volumes);
      DistinctSize(plan.networks);
      DistinctSize(plan.volumes);
      assert |plan.byName| == |plan.byName.Keys|;
      assert |InitialNetworks(plan.selector)| == |InitialNetworks(plan.selector).Keys|;
    }
  }

  /** Nobody cancels the run, and what is left of it after its exchanges is not late. */
  predicate Patient(world: World, limits: Limits) {
    && !world.cancelled && world.finishedAt < limits.maxElapsed
    && world.selectedAt <= limits.maxElapsed && world.capturedAt <= limits.maxElapsed
  }

  method Finish(budget: Budget.BudgetCounters, world: World, plan: Plan, fallbacks: set<Ref>) returns (r: Result<Capture, AcquisitionError>)
    requires Clean(budget.View()) && budget.limits.Fits(budget.machine)
    ensures r.Ok? ==>
      && r.value == Capture(r.value.bounds, budget.exchanges, ExplicitUnixSocket, PlannedRoots(plan), Some(plan.selector),
                            fallbacks, plan.selector.Discovery?)
      && r.value.bounds == Bounds(|budget.exchanges|, budget.selected, budget.expansions, TotalBytes(budget.exchanges))
    ensures r != Err(AcquisitionError.Budget(Expansions)) && r != Err(AcquisitionError.Budget(CaptureAccounting))
    ensures Patient(world, budget.limits) && budget.exchanges != [] ==> r.Ok?
  {
    if world.cancelled { return Err(Cancelled); }
    if world.finishedAt >= budget.limits.maxElapsed { return Err(Deadline); }
    var capture := budget.Finish(world.capturedAt);
    if capture.Err? { return Err(AcquisitionError.Budget(capture.error)); }
    return Ok(capture.value.(roots := PlannedRoots(plan), selector := Some(plan.selector), fallbacks := fallbacks,
                             route := ExplicitUnixSocket, discoveryOnly := plan.selector.Discovery?));
  }

  predicate Within(bounds: Bounds, limits: Limits) {
    && bounds.requests <= limits.maxRequests
    && bounds.selected <= limits.maxSelectedResources
    && bounds.expansions <= limits.maxExpansions
    && bounds.bytesRead <= limits.maxTotalBytes
  }

  /** What a successful run hands over. */
  ghost predicate Fulfilled(parse: D.Parser, capture: Capture, plan: Plan, log: Log, limits: Limits) {
    Completed(parse, capture, plan, log) && Within(capture.bounds, limits)
  }

  lemma SettledExcess(parse: D.Parser, draft: Plan, plan: Plan, c: seq<Exchange>, limits: Limits)
    requires Settled(parse, plan, c) && |plan.containers| + |plan.networks| + |plan.volumes| > limits.maxExpansions
    requires Refines(plan, draft)
    ensures Excessive(parse, draft, c, limits)
  {
    SettledExpansion(parse, plan, c);
    assert ContainerVisits(draft.containers)[..|c|] == ContainerVisits(draft.containers);
  }

  /** The run opened as planned, and the container bodies it then read call for more inspections than the limit allows. */
  ghost predicate Refused(parse: D.Parser, plan: Plan, log: Log, limits: Limits) {
    OpeningDone(parse, log.opening, plan) && Excessive(parse, plan, log.containers, limits)
  }

  /** How a run may end: a capture fulfils its plan, and a refusal for lack of expansions is one that no completion could avoid. */
  ghost predicate Ends(parse: D.Parser, r: Result<Capture, AcquisitionError>, plan: Plan, log: Log, limits: Limits) {
    match r
    case Ok(capture) => Fulfilled(parse, capture, plan, log, limits)
    case Err(e) => e == AcquisitionError.Budget(Expansions) ==> Refused(parse, plan, log, limits)
  }

  lemma Deliver(parse: D.Parser, draft: Plan, plan: Plan, log: Log, limits: Limits)
    requires OpeningDone(parse, log.opening, draft) && Refines(plan, draft)
    requires Settled(parse, plan, log.containers) && RelatedDone(parse, plan, log.related)
    requires Within(CaptureOf(plan, log).bounds, limits)
    ensures Fulfilled(parse, CaptureOf(plan, log), plan, log, limits)
  {
    OpeningKeeps(parse, log.opening, draft, plan);
  }

  /** The related inspections, and the finish. */
  method Collect(budget: Budget.BudgetCounters, world: World, parse: D.Parser, plan: Plan,
                 ghost opening: seq<Exchange>, ghost c: seq<Exchange>, ghost xs: seq<Exchange>)
    returns (r: Result<Capture, AcquisitionError>, ghost related: seq<Exchange>)
    requires Clean(budget.View()) && budget.limits.Fits(budget.machine) && plan.Flags()
    requires budget.exchanges == opening + c && budget.expansions == |plan.containers|
    requires budget.selected == |PlannedRoots(plan)|
    requires Heard(world.turns, budget.exchanges, budget.limits, budget.machine)
    modifies budget
    ensures Heard(world.turns, budget.exchanges, budget.limits, budget.machine)
    ensures r.Ok? ==>
      && RelatedDone(parse, plan, related)
      && r.value == CaptureOf(plan, Log(opening, c, related)) && Within(r.value.bounds, budget.limits)
      && budget.exchanges == opening + c + related
    ensures r == Err(AcquisitionError.Budget(Expansions)) ==>
      |plan.containers| + |plan.networks| + |plan.volumes| > budget.limits.maxExpansions
    ensures OnScript(old(budget.exchanges), xs, old(budget.View()), world.turns, budget.limits, budget.machine,
                     parse, 1 + |plan.containers|, RelatedVisits(plan), plan.api)
            && AllNew(parse, xs, |opening + c|, |plan.networks|) && |plan.Visits()| < MAX_REF && Patient(world, budget.limits)
            && opening != [] ==>
      r.Ok? && budget.exchanges <= xs
  {
    hide OnScript, AllNew, Heard, FromLog, Patient;
    var fallbacks, done := InspectRelated(budget, world, parse, plan, xs);
    related := done;
    if fallbacks.Err? { return Err(fallbacks.error), related; }
    r := Finish(budget, world, plan, fallbacks.value);
  }

  lemma NothingRelated(log: Log)
    requires log.related == []
    ensures log.Exchanges() == log.opening + log.containers
  {
  }

  /** A log that completes the plan, and a world that lets a run go on as the log does, in time and within the limits. */
  ghost predicate Attainable(parse: D.Parser, world: World, goal: Plan, script: Log, limits: Limits, machine: nat) {
    && OpeningDone(parse, script.opening, goal) && Inspected(parse, goal, script.containers, script.related)
    && Playable(world.turns, script.Exchanges(), limits, machine) && Patient(world, limits)
    && AllExpandable(parse, script.Exchanges(), |script.opening|, |goal.containers|)
    && |goal.Visits()| < MAX_REF && |goal.Visits()| <= limits.maxExpansions && Selects(goal, world, limits)
  }

  lemma OpeningStands(parse: D.Parser, goal: Plan, script: Log)
    requires OpeningDone(parse, script.opening, goal)
    ensures Opening(parse, script.Exchanges(), goal) && |script.opening| == |goal.Opening()|
  {
    Slices(script.opening, script.containers, script.related, 0);
  }

  lemma ContainersStand(parse: D.Parser, goal: Plan, script: Log)
    requires Settled(parse, goal, script.containers)
    ensures |script.containers| == |goal.containers|
    ensures Ahead(parse, script.Exchanges(), |script.opening|, 1, ContainerVisits(goal.containers), goal.api)
  {
    hide Answered, Merged;
    Slices(script.opening, script.containers, script.related, 0);
  }

  lemma RelatedLength(parse: D.Parser, plan: Plan, related: seq<Exchange>)
    requires plan.Flags() && RelatedDone(parse, plan, related)
    ensures |related| == |RelatedVisits(plan)| == |plan.networks| + |plan.volumes|
    ensures AllAnswered(parse, related, 1 + |plan.containers|, RelatedVisits(plan), plan.api)
    ensures NoRepeat(NativeIds(parse, related[..|plan.networks|], Network))
  {
  }

  lemma RelatedSlice(script: Log, n: nat)
    requires n <= |script.related|
    ensures var base := |script.opening| + |script.containers|;
      base + n <= |script.Exchanges()| && script.Exchanges()[base..base + n] == script.related[..n]
    ensures script.related[..|script.related|] == script.related
  {
    Slices(script.opening, script.containers, script.related, n);
  }

  lemma RelatedStands(parse: D.Parser, goal: Plan, script: Log)
    requires goal.Flags() && RelatedDone(parse, goal, script.related)
    ensures Ahead(parse, script.Exchanges(), |script.opening| + |script.containers|, 1 + |goal.containers|, RelatedVisits(goal), goal.api)
    ensures AllNew(parse, script.Exchanges(), |script.opening| + |script.containers|, |goal.networks|)
  {
    RelatedLength(parse, goal, script.related);
    hide RelatedDone, AllAnswered, NoRepeat, RelatedVisits;
    RelatedSlice(script, |goal.networks|);
    RelatedSlice(script, |script.related|);
  }

  /** Where the parts of such a log stand in it. */
  lemma GoalStands(parse: D.Parser, goal: Plan, script: Log)
    requires OpeningDone(parse, script.opening, goal) && Inspected(parse, goal, script.containers, script.related)
    ensures var xs := script.Exchanges(); var n := |script.opening|;
      && Opening(parse, xs, goal) && n == |goal.Opening()| && |script.containers| == |goal.containers|
      && Ahead(parse, xs, n, 1, ContainerVisits(goal.containers), goal.api)
      && Ahead(parse, xs, n + |goal.containers|, 1 + |goal.containers|, RelatedVisits(goal), goal.api)
      && AllNew(parse, xs, n + |goal.containers|, |goal.networks|)
  {
    hide OpeningDone, Ahead, AllNew, RelatedDone;
    OpeningStands(parse, goal, script);
    ContainersStand(parse, goal, script);
    RelatedStands(parse, goal, script);
  }

  lemma SettledLength(parse: D.Parser, plan: Plan, c: seq<Exchange>)
    requires Settled(parse, plan, c)
    ensures |c| == |plan.containers| && plan.Flags()
  {
  }

  lemma ExplicitRoots(parse: D.Parser, opening: seq<Exchange>, plan: Plan)
    requires OpeningDone(parse, opening, plan)
    ensures plan.selector.NetworkIds? || plan.selector.VolumeNames? ==> plan.containers == []
  {
  }

  /** A run that kept to such a log read the same container bodies, and settled on the same plan. */
  lemma SamePlan(parse: D.Parser, goal: Plan, script: Log, plan: Plan, opening: seq<Exchange>, c: seq<Exchange>)
    requires OpeningDone(parse, script.opening, goal) && Inspected(parse, goal, script.containers, script.related)
    requires opening + c <= script.Exchanges() && |opening| == |script.opening| && Settled(parse, plan, c)
    requires plan.api == goal.api && plan.selector == goal.selector && plan.containers == goal.containers
    ensures opening == script.opening && c == script.containers && plan == goal
  {
    hide OpeningDone, Settled, RelatedDone;
    SettledLength(parse, plan, c);
    SettledLength(parse, goal, script.containers);
    SameParts(opening, c, script.opening, script.containers, script.related);
    PlanDetermined(parse, plan, goal, c);
  }

  /** And in the end the same log. */
  lemma SameEnd(parse: D.Parser, goal: Plan, script: Log, related: seq<Exchange>)
    requires Finishes(parse, goal, related) && Finishes(parse, goal, script.related)
    requires script.opening + script.containers + related <= script.Exchanges()
    ensures related == script.related
  {
    var all := script.opening + script.containers + related;
    assert all == script.Exchanges();
    assert all[|script.opening + script.containers|..] == related;
    assert script.Exchanges()[|script.opening + script.containers|..] == script.related;
  }

  ghost predicate Finishes(parse: D.Parser, plan: Plan, related: seq<Exchange>) {
    plan.Flags() && RelatedDone(parse, plan, related)
  }

  /** What is left once a plan is settled. */
  method Conclude(budget: Budget.BudgetCounters, world: World, parse: D.Parser, ghost draft: Plan, plan: Plan,
                  ghost opening: seq<Exchange>, ghost c: seq<Exchange>, ghost goal: Plan, ghost script: Log)
    returns (r: Result<Capture, AcquisitionError>, ghost log: Log)
    requires Clean(budget.View()) && budget.limits.Fits(budget.machine)
    requires OpeningDone(parse, opening, draft) && Refines(plan, draft) && Settled(parse, plan, c)
    requires budget.exchanges == opening + c && budget.expansions == |plan.containers|
    requires budget.selected == |plan.containers| + |InitialNetworks(plan.selector)| + |InitialVolumes(plan.selector)|
    requires Heard(world.turns, budget.exchanges, budget.limits, budget.machine)
    modifies budget
    ensures Heard(world.turns, log.Exchanges(), budget.limits, budget.machine)
    ensures Ends(parse, r, if r.Ok? then plan else draft, log, budget.limits)
    ensures Attainable(parse, world, goal, script, budget.limits, budget.machine) && old(budget.exchanges) <= script.Exchanges()
            && |opening| == |script.opening| && Refines(plan, goal) ==>
      r == Ok(CaptureOf(goal, script))
  {
    hide Playable, Heard, Clean, Patient, Ahead, AllNew, AllExpandable, Selects, Settled, OpeningDone, RelatedDone, Excessive, Finishes, Ends;
    log := Log(opening, c, []);
    NothingRelated(log);
    SettledLength(parse, plan, c);
    ExplicitRoots(parse, opening, draft);
    RootsAreCounted(parse, plan, c);
    ghost var helped := Attainable(parse, world, goal, script, budget.limits, budget.machine)
                        && budget.exchanges <= script.Exchanges() && |opening| == |script.opening| && Refines(plan, goal);
    if helped {
      GoalStands(parse, goal, script);
      SamePlan(parse, goal, script, plan, opening, c);
    }
    var capture, related := Collect(budget, world, parse, plan, opening, c, script.Exchanges());
    if helped { SameEnd(parse, goal, script, related); }
    if capture.Ok? { log := Log(opening, c, related); }
    CollectEnds(parse, capture, draft, plan, log, budget.limits);
    return capture, log;
  }

  /** What the collection says of the whole run. */
  lemma CollectEnds(parse: D.Parser, r: Result<Capture, AcquisitionError>, draft: Plan, plan: Plan, log: Log, limits: Limits)
    requires OpeningDone(parse, log.opening, draft) && Refines(plan, draft) && Settled(parse, plan, log.containers) && plan.Flags()
    requires r.Ok? ==> RelatedDone(parse, plan, log.related) && r.value == CaptureOf(plan, log) && Within(r.value.bounds, limits)
    requires r == Err(AcquisitionError.Budget(Expansions)) ==>
      |plan.containers| + |plan.networks| + |plan.volumes| > limits.maxExpansions
    ensures Ends(parse, r, if r.Ok? then plan else draft, log, limits)
  {
    hide OpeningDone, Settled, RelatedDone, Excessive, Fulfilled;
    if r.Ok? {
      Deliver(parse, draft, plan, log, limits);
    } else if r.error == AcquisitionError.Budget(Expansions) {
      SettledExcess(parse, draft, plan, log.containers, limits);
    }
  }

  /** No run that keeps to such a log is refused for lack of expansions. */
  lemma NeverExcessive(parse: D.Parser, goal: Plan, script: Log, draft: Plan, opening: seq<Exchange>, c: seq<Exchange>, limits: Limits)
    requires OpeningDone(parse, script.opening, goal) && Settled(parse, goal, script.containers)
    requires |goal.Visits()| <= limits.maxExpansions && Refines(goal, draft)
    requires opening + c <= script.Exchanges() && |opening| == |script.opening|
    ensures !Excessive(parse, draft, c, limits)
  {
    hide OpeningDone, Merged, Expansion, AllAnswered;
    SettledLength(parse, goal, script.containers);
    if |c| <= |goal.containers| {
      assert c == script.containers[..|c|] by {
        assert c == (opening + c)[|opening|..] == script.Exchanges()[|opening|..|opening| + |c|];
      }
      SettledExpansion(parse, goal, script.containers);
      ExpansionGrows(parse, script.containers, |c|, |goal.containers|, InitialNetworks(goal.selector).Keys, InitialVolumes(goal.selector));
    }
  }

  /** The run over a fresh budget. */
  method Gather(budget: Budget.BudgetCounters, world: World, parse: D.Parser, selector: Selector, ghost goal: Plan, ghost script: Log)
    returns (r: Result<Capture, AcquisitionError>, ghost plan: Plan, ghost log: Log)
    requires Clean(budget.View()) && budget.limits.Fits(budget.machine) && budget.exchanges == [] && budget.selected == 0
    modifies budget
    ensures plan.selector == selector && Heard(world.turns, log.Exchanges(), budget.limits, budget.machine)
    ensures Ends(parse, r, plan, log, budget.limits)
    ensures Attainable(parse, world, goal, script, budget.limits, budget.machine) && goal.selector == selector ==>
      r == Ok(CaptureOf(goal, script))
  {
    hide Attainable, Playable, Heard, Clean, OpeningDone, Ends;
    FreshIsClean(budget.limits, world.turns, budget.machine);
    plan, log := Draft(ApiVersion(1, 0), selector, []), Log([], [], []);
    assert log.Exchanges() == [];
    if Attainable(parse, world, goal, script, budget.limits, budget.machine) {
      AttainableOpens(parse, world, goal, script, budget.limits, budget.machine);
    }
    var draft, opening := Begin(budget, world, parse, selector, script.Exchanges(), goal);
    if draft.Err? {
      OtherError(parse, draft.error, plan, log, budget.limits);
      return Err(draft.error), plan, log;
    }
    OpeningLength(parse, opening, draft.value);
    r, plan, log := Proceed(budget, world, parse, draft.value, opening, goal, script);
  }

  lemma OtherError(parse: D.Parser, e: AcquisitionError, plan: Plan, log: Log, limits: Limits)
    requires e != AcquisitionError.Budget(Expansions)
    ensures Ends(parse, Err(e), plan, log, limits)
  {
  }

  lemma AttainableOpens(parse: D.Parser, world: World, goal: Plan, script: Log, limits: Limits, machine: nat)
    requires Attainable(parse, world, goal, script, limits, machine)
    ensures Playable(world.turns, script.Exchanges(), limits, machine) && Opening(parse, script.Exchanges(), goal)
    ensures |script.opening| == |goal.Opening()|
  {
    hide Playable, Opening;
    OpeningStands(parse, goal, script);
  }

  /** Everything after the opening. */
  method Proceed(budget: Budget.BudgetCounters, world: World, parse: D.Parser, draft: Plan, ghost opening: seq<Exchange>,
                 ghost goal: Plan, ghost script: Log)
    returns (r: Result<Capture, AcquisitionError>, ghost plan: Plan, ghost log: Log)
    requires Clean(budget.View()) && budget.limits.Fits(budget.machine) && budget.exchanges == opening
    requires budget.selected == 0 && budget.expansions == 0
    requires draft == Draft(draft.api, draft.selector, draft.containers) && OpeningDone(parse, opening, draft)
    requires Heard(world.turns, budget.exchanges, budget.limits, budget.machine)
    modifies budget
    ensures plan.selector == draft.selector && Heard(world.turns, log.Exchanges(), budget.limits, budget.machine)
    ensures Ends(parse, r, plan, log, budget.limits)
    ensures Attainable(parse, world, goal, script, budget.limits, budget.machine) && old(budget.exchanges) <= script.Exchanges()
            && |opening| == |script.opening| && draft == Draft(goal.api, goal.selector, goal.containers) ==>
      r == Ok(CaptureOf(goal, script))
  {
    hide Playable, Heard, Clean, Patient, Ahead, AllNew, AllExpandable, Settled, OpeningDone, RelatedDone, Excessive;
    ghost var helped := Attainable(parse, world, goal, script, budget.limits, budget.machine)
                        && budget.exchanges <= script.Exchanges() && |opening| == |script.opening|
                        && draft == Draft(goal.api, goal.selector, goal.containers);
    if helped { GoalStands(parse, goal, script); }
    plan, log := draft, Log([], [], []);
    assert log.Exchanges() == [];
    FreshIsClean(budget.limits, world.turns, budget.machine);
    var settled, c := InspectRoots(budget, world, parse, draft, script.Exchanges());
    if settled.Err? {
      if settled.error == AcquisitionError.Budget(Expansions) {
        log := Log(opening, c, []);
        NothingRelated(log);
        if helped { NeverExcessive(parse, goal, script, plan, opening, c, budget.limits); }
      }
      return Err(settled.error), plan, log;
    }
    r, log := Conclude(budget, world, parse, draft, settled.value, opening, c, goal, script);
    if r.Ok? { plan := settled.value; }
  }

  lemma OpeningLength(parse: D.Parser, opening: seq<Exchange>, plan: Plan)
    requires OpeningDone(parse, opening, plan)
    ensures |opening| == |plan.Opening()|
  {
  }

  lemma FreshIsClean(limits: Limits, turns: nat -> Turn, machine: nat)
    ensures Clean(Budget.Initial(limits)) && Heard(turns, [], limits, machine)
  {
  }

  /** Read a bounded inventory. The log is what the world delivered: the whole log of a capture, and of a run that is refused for
      lack of expansions everything up to the container body that decides it. Where the world lets a run go on through a log that
      completes a plan, in time and within the limits, the run succeeds, with exactly the capture of that plan and log. */
  method Acquire(world: World, parse: D.Parser, selector: Selector, limits: Limits, machine: nat, ghost goal: Plan, ghost script: Log)
    returns (r: Result<Capture, AcquisitionError>, ghost plan: Plan, ghost log: Log)
    requires limits.Fits(machine)
    ensures plan.selector == selector && Heard(world.turns, log.Exchanges(), limits, machine)
    ensures r.Ok? ==> SelectorFault(selector, limits).None? && limits.Admissible(machine) && Fulfilled(parse, r.value, plan, log, limits)
    ensures SelectorFault(selector, limits).Some? ==> r == Err(SelectorFault(selector, limits).value)
    ensures SelectorFault(selector, limits).None? && !limits.Admissible(machine) ==> r == Err(AcquisitionError.Budget(Invalid))
    ensures r == Err(AcquisitionError.Budget(Expansions)) ==> Refused(parse, plan, log, limits)
    ensures SelectorFault(selector, limits).None? && limits.Admissible(machine) && goal.selector == selector
            && Attainable(parse, world, goal, script, limits, machine) ==>
      r == Ok(CaptureOf(goal, script))
  {
    hide Attainable, Heard, Refused, Fulfilled, Clean;
    FreshIsClean(limits, world.turns, machine);
    plan, log := Draft(ApiVersion(1, 0), selector, []), Log([], [], []);
    assert log.Exchanges() == [];
    var fault := SelectorFault(selector, limits);
    if fault.Some? { return Err(fault.value), plan, log; }
    if !limits.Admissible(machine) { return Err(AcquisitionError.Budget(Invalid)), plan, log; }
    var budget := new Budget.BudgetCounters(limits, machine);
    r, plan, log := Gather(budget, world, parse, selector, goal, script);
  }
}
