/** One acquisition's counters: a state machine that a limit violation poisons for good. */
module Budget {
  import opened Outcome
  import opened Protocol
  import opened Numerals

  datatype Pending = Pending(request: ReadRequest, resource: Option<Ref>, api: Option<ApiVersion>)

  /** What a reader yields before it ends, or before it breaks. */
  datatype Source = Source(content: Utf8.Bytes, breaks: bool)

  datatype State = State(
    limits: Limits,
    requests: nat,
    selected: nat,
    expansions: nat,
    bytesRead: nat,
    pending: Option<Pending>,
    exchanges: seq<Exchange>,
    resourceIds: map<Ref, Target>,
    nativeRefs: map<Target, Ref>,
    failed: bool)

  function Initial(limits: Limits): State {
    State(limits, 0, 0, 0, 0, None, [], map[], map[], false)
  }

  datatype Step = Step(state: State, error: Option<LimitError>)

  function Refuse(s: State, error: LimitError): Step {
    Step(s, Some(error))
  }

  function Poison(s: State, error: LimitError): Step {
    Step(s.(failed := true), Some(error))
  }

  function CheckTime(s: State, elapsed: nat): Step {
    if s.failed then Refuse(s, Exhausted)
    else if elapsed > s.limits.maxElapsed then Poison(s, Elapsed)
    else Step(s, None)
  }

  function Register(s: State, target: Target, reference: Ref, machine: nat): Step {
    if (reference in s.resourceIds && s.resourceIds[reference] != target) ||
       (target in s.nativeRefs && s.nativeRefs[target] != reference)
    then Refuse(s, ResourceConflict)
    else if s.expansions + 1 > machine || s.expansions + 1 > s.limits.maxExpansions then Poison(s, Expansions)
    else Step(
      s.(expansions := s.expansions + 1,
         resourceIds := s.resourceIds[reference := target],
         nativeRefs := s.nativeRefs[target := reference]),
      None)
  }

  function Count(s: State, pending: Pending, machine: nat): Step {
    if s.requests + 1 > machine then Poison(s, Requests)
    else
      var counted := s.(requests := s.requests + 1);
      if counted.requests > s.limits.maxRequests then Poison(counted, Requests)
      else Step(counted.(pending := Some(pending)), None)
  }

  function RecordRequest(s: State, p: Pending, elapsed: nat, machine: nat): Step {
    var timed := CheckTime(s, elapsed);
    var inspected := p.request.Inspected();
    if timed.error.Some? then timed
    else if s.pending.Some? then Refuse(s, PendingResponse)
    else if inspected.Some? != p.resource.Some? then Refuse(s, InvalidResourceRef)
    else if !p.request.DaemonVersion? && p.api.None? then Refuse(s, MissingApiVersion)
    else if inspected.None? then Count(s, p, machine)
    else
      var registered := Register(s, inspected.value, p.resource.value, machine);
      if registered.error.Some? then registered else Count(registered.state, p, machine)
  }

  function RecordSelection(s: State, count: nat, elapsed: nat, machine: nat): Step {
    var timed := CheckTime(s, elapsed);
    if timed.error.Some? then timed
    else if s.selected + count > machine then Poison(s, SelectedResources)
    else
      var counted := s.(selected := s.selected + count);
      if counted.selected > s.limits.maxSelectedResources then Poison(counted, SelectedResources)
      else Step(counted, None)
  }

  function RecordExpansion(s: State, count: nat, elapsed: nat, machine: nat): Step {
    var timed := CheckTime(s, elapsed);
    if timed.error.Some? then timed
    else if s.expansions + count > machine then Poison(s, Expansions)
    else
      var counted := s.(expansions := s.expansions + count);
      if counted.expansions > s.limits.maxExpansions then Poison(counted, Expansions)
      else Step(counted, None)
  }

  function Allowance(s: State): int {
    Min(s.limits.maxResponseBytes, s.limits.maxTotalBytes - s.bytesRead)
  }

  /** What a read capped at `cap` bytes takes from the reader. */
  function Taken(source: Source, cap: nat): Utf8.Bytes {
    if |source.content| <= cap then source.content else source.content[..cap]
  }

  predicate Breaks(source: Source, cap: nat) {
    source.breaks && |source.content| < cap
  }

  /** What keeps the remaining allowance from going negative. */
  predicate Spendable(s: State) {
    !s.failed ==> s.bytesRead <= s.limits.maxTotalBytes
  }

  function ReadResponse(s: State, status: nat, source: Source, before: nat, after: nat, machine: nat): Step
    requires Spendable(s)
  {
    var timed := CheckTime(s, before);
    if timed.error.Some? then timed
    else if s.pending.None? then Refuse(s, ResponseWithoutRequest)
    else
      var cap := Allowance(s) + 1;
      var body := Taken(source, cap);
      var read := s.(bytesRead := Min(s.bytesRead + |body|, machine));
      if Breaks(source, cap) then Poison(read, Input)
      else if after > s.limits.maxElapsed then Poison(read, Elapsed)
      else if |body| > Allowance(s) then Poison(read, LimitError.Bytes)
      else
        var p := s.pending.value;
        Step(read.(pending := None, exchanges := s.exchanges + [Exchange(p.request, p.resource, p.api, status, body)]), None)
  }

  function Counts(s: State): Bounds {
    Bounds(s.requests, s.selected, s.expansions, s.bytesRead)
  }

  function IntoCapture(s: State, elapsed: nat, machine: nat): Result<Capture, LimitError> {
    if s.failed then Err(Exhausted)
    else if elapsed > s.limits.maxElapsed then Err(Elapsed)
    else if s.pending.Some? || s.requests == 0 then Err(Incomplete)
    else match FromCompleted(Counts(s), s.exchanges, machine)
      case None => Err(CaptureAccounting)
      case Some(capture) => Ok(capture)
  }

  // ---- what every call keeps ----

  function Inspects(exchanges: seq<Exchange>): nat {
    if exchanges == [] then 0
    else
      var last := |exchanges| - 1;
      Inspects(exchanges[..last]) + if exchanges[last].request.Inspected().Some? then 1 else 0
  }

  function PendingInspects(s: State): nat {
    if s.pending.Some? && s.pending.value.request.Inspected().Some? then 1 else 0
  }

  ghost predicate MutualInverses(s: State) {
    && (forall r :: r in s.resourceIds ==> s.resourceIds[r] in s.nativeRefs && s.nativeRefs[s.resourceIds[r]] == r)
    && (forall t :: t in s.nativeRefs ==> s.nativeRefs[t] in s.resourceIds && s.resourceIds[s.nativeRefs[t]] == t)
  }

  /** A request carries a registered reference exactly when it inspects, and an API version unless it asks for it. */
  ghost predicate Attributed(s: State, request: ReadRequest, resource: Option<Ref>, api: Option<ApiVersion>) {
    && request.Inspected().Some? == resource.Some?
    && (resource.Some? ==> resource.value in s.resourceIds && s.resourceIds[resource.value] == request.Inspected().value)
    && (request.DaemonVersion? || api.Some?)
  }

  ghost predicate Accounted(s: State) {
    && s.requests == |s.exchanges| + (if s.pending.Some? then 1 else 0)
    && s.requests <= s.limits.maxRequests
    && s.bytesRead == TotalBytes(s.exchanges) <= s.limits.maxTotalBytes
    && (forall i :: 0 <= i < |s.exchanges| ==> |s.exchanges[i].body| <= s.limits.maxResponseBytes)
    && Inspects(s.exchanges) + PendingInspects(s) <= s.expansions <= s.limits.maxExpansions
    && s.selected <= s.limits.maxSelectedResources
  }

  ghost predicate Sound(s: State, machine: nat) {
    && s.limits.Admissible(machine)
    && s.limits.Fits(machine)
    && MutualInverses(s)
    && (forall i :: 0 <= i < |s.exchanges| ==>
          Attributed(s, s.exchanges[i].request, s.exchanges[i].resource, s.exchanges[i].api))
    && (s.pending.Some? ==> Attributed(s, s.pending.value.request, s.pending.value.resource, s.pending.value.api))
    && (!s.failed ==> Accounted(s))
  }

  /** Registering a (reference, target) pair keeps the maps inverse and forgets no earlier pair. */
  lemma RegisterKeepsInverses(s: State, target: Target, reference: Ref, machine: nat)
    requires MutualInverses(s)
    ensures var step := Register(s, target, reference, machine); var next := step.state;
      && MutualInverses(next)
      && (forall r :: r in s.resourceIds ==> r in next.resourceIds && next.resourceIds[r] == s.resourceIds[r])
      && (step.error.None? ==> reference in next.resourceIds && next.resourceIds[reference] == target)
  {
    if Register(s, target, reference, machine).error.None? {
      PairKeepsInverses(s, Register(s, target, reference, machine).state, target, reference);
    }
  }

  /** Adding a pair that neither map contradicts. */
  lemma PairKeepsInverses(s: State, next: State, target: Target, reference: Ref)
    requires MutualInverses(s)
    requires reference in s.resourceIds ==> s.resourceIds[reference] == target
    requires target in s.nativeRefs ==> s.nativeRefs[target] == reference
    requires next.resourceIds == s.resourceIds[reference := target] && next.nativeRefs == s.nativeRefs[target := reference]
    ensures MutualInverses(next)
  {
    forall r | r in next.resourceIds
      ensures next.resourceIds[r] in next.nativeRefs && next.nativeRefs[next.resourceIds[r]] == r
    {
      if r != reference { assert s.nativeRefs[s.resourceIds[r]] == r; }
    }
    forall t | t in next.nativeRefs
      ensures next.nativeRefs[t] in next.resourceIds && next.resourceIds[next.nativeRefs[t]] == t
    {
      if t != target { assert s.resourceIds[s.nativeRefs[t]] == t; }
    }
  }

  lemma CountKeepsSound(s: State, p: Pending, charged: nat, machine: nat)
    requires !s.failed && s.pending.None? && charged <= s.expansions
    requires Sound(s.(expansions := charged), machine) && s.expansions <= s.limits.maxExpansions
    requires Attributed(s, p.request, p.resource, p.api)
    requires s.expansions - charged == if p.request.Inspected().Some? then 1 else 0
    ensures Sound(Count(s, p, machine).state, machine)
  {
    var next := Count(s, p, machine).state;
    assert Accounted(s.(expansions := charged));
    assert next.exchanges == s.exchanges && next.resourceIds == s.resourceIds;
    forall i | 0 <= i < |s.exchanges|
      ensures Attributed(next, s.exchanges[i].request, s.exchanges[i].resource, s.exchanges[i].api)
    {
      var x := s.exchanges[i];
      assert Attributed(s.(expansions := charged), x.request, x.resource, x.api);
    }
  }

  lemma AttributionSurvives(s: State, next: State)
    requires next.exchanges == s.exchanges
    requires forall r :: r in s.resourceIds ==> r in next.resourceIds && next.resourceIds[r] == s.resourceIds[r]
    requires forall i :: 0 <= i < |s.exchanges| ==>
      Attributed(s, s.exchanges[i].request, s.exchanges[i].resource, s.exchanges[i].api)
    ensures forall i :: 0 <= i < |next.exchanges| ==>
      Attributed(next, next.exchanges[i].request, next.exchanges[i].resource, next.exchanges[i].api)
  {
    forall i | 0 <= i < |next.exchanges|
      ensures Attributed(next, next.exchanges[i].request, next.exchanges[i].resource, next.exchanges[i].api)
    {
      assert Attributed(s, s.exchanges[i].request, s.exchanges[i].resource, s.exchanges[i].api);
    }
  }

  lemma PoisonKeepsSound(s: State, next: State, machine: nat)
    requires Sound(s, machine)
    requires next == s.(failed := next.failed, bytesRead := next.bytesRead, requests := next.requests,
                        selected := next.selected, expansions := next.expansions)
    requires next.failed || next == s
    ensures Sound(next, machine)
  {
    AttributionSurvives(s, next);
  }

  lemma InspectKeepsSound(s: State, p: Pending, machine: nat)
    requires Sound(s, machine) && !s.failed && s.pending.None?
    requires p.request.Inspected().Some? && p.resource.Some? && (p.request.DaemonVersion? || p.api.Some?)
    ensures var registered := Register(s, p.request.Inspected().value, p.resource.value, machine);
      Sound(if registered.error.Some? then registered.state else Count(registered.state, p, machine).state, machine)
  {
    var registered := Register(s, p.request.Inspected().value, p.resource.value, machine);
    if registered.error.Some? {
      PoisonKeepsSound(s, registered.state, machine);
    } else {
      RegisterKeepsInverses(s, p.request.Inspected().value, p.resource.value, machine);
      AttributionSurvives(s, registered.state);
      CountKeepsSound(registered.state, p, s.expansions, machine);
    }
  }

  lemma RequestKeepsSound(s: State, p: Pending, elapsed: nat, machine: nat)
    requires Sound(s, machine)
    ensures Sound(RecordRequest(s, p, elapsed, machine).state, machine)
  {
    var next := RecordRequest(s, p, elapsed, machine).state;
    if next == s {
    } else if CheckTime(s, elapsed).error.Some? {
      PoisonKeepsSound(s, next, machine);
    } else if p.request.Inspected().None? {
      CountKeepsSound(s, p, s.expansions, machine);
    } else {
      InspectKeepsSound(s, p, machine);
    }
  }

  lemma AppendedTotals(exchanges: seq<Exchange>, x: Exchange)
    ensures TotalBytes(exchanges + [x]) == TotalBytes(exchanges) + |x.body|
    ensures Inspects(exchanges + [x]) == Inspects(exchanges) + if x.request.Inspected().Some? then 1 else 0
  {
    assert (exchanges + [x])[..|exchanges|] == exchanges;
  }

  lemma AppendKeepsSound(s: State, x: Exchange, machine: nat)
    requires Sound(s, machine) && !s.failed && s.pending.Some?
    requires x == Exchange(s.pending.value.request, s.pending.value.resource, s.pending.value.api, x.status, x.body)
    requires |x.body| <= Allowance(s)
    ensures Sound(
      s.(bytesRead := s.bytesRead + |x.body|, pending := None, exchanges := s.exchanges + [x]), machine)
  {
    AppendedTotals(s.exchanges, x);
    var next := s.(bytesRead := s.bytesRead + |x.body|, pending := None, exchanges := s.exchanges + [x]);
    forall i | 0 <= i < |next.exchanges|
      ensures Attributed(next, next.exchanges[i].request, next.exchanges[i].resource, next.exchanges[i].api)
      ensures |next.exchanges[i].body| <= s.limits.maxResponseBytes
    {
      if i < |s.exchanges| {
        assert Attributed(s, s.exchanges[i].request, s.exchanges[i].resource, s.exchanges[i].api);
      } else {
        assert Attributed(s, x.request, x.resource, x.api);
      }
    }
  }

  lemma ResponseRefused(s: State, status: nat, source: Source, before: nat, after: nat, machine: nat)
    requires Spendable(s) && ReadResponse(s, status, source, before, after, machine).error.Some?
    ensures var next := ReadResponse(s, status, source, before, after, machine).state;
      next == s.(failed := next.failed, bytesRead := next.bytesRead) && (next.failed || next == s)
  {
  }

  lemma ResponseKeepsSound(s: State, status: nat, source: Source, before: nat, after: nat, machine: nat)
    requires Sound(s, machine)
    ensures Sound(ReadResponse(s, status, source, before, after, machine).state, machine)
  {
    var step := ReadResponse(s, status, source, before, after, machine);
    if step.error.Some? {
      ResponseRefused(s, status, source, before, after, machine);
      PoisonKeepsSound(s, step.state, machine);
    } else {
      var p := s.pending.value;
      var body := Taken(source, Allowance(s) + 1);
      AppendKeepsSound(s, Exchange(p.request, p.resource, p.api, status, body), machine);
    }
  }

  // ---- every sequence of calls ----

  datatype Call =
    | Request(pending: Pending, elapsed: nat)
    | Select(count: nat, elapsed: nat)
    | Expand(count: nat, elapsed: nat)
    | Respond(status: nat, source: Source, before: nat, after: nat)

  function Apply(s: State, call: Call, machine: nat): Step
    requires Spendable(s)
  {
    match call
    case Request(p, elapsed) => RecordRequest(s, p, elapsed, machine)
    case Select(count, elapsed) => RecordSelection(s, count, elapsed, machine)
    case Expand(count, elapsed) => RecordExpansion(s, count, elapsed, machine)
    case Respond(status, source, before, after) => ReadResponse(s, status, source, before, after, machine)
  }

  lemma ApplyKeepsSound(s: State, call: Call, machine: nat)
    requires Sound(s, machine)
    ensures Sound(Apply(s, call, machine).state, machine)
  {
    match call
    case Request(p, elapsed) => RequestKeepsSound(s, p, elapsed, machine);
    case Select(count, elapsed) => SelectionKeepsSound(s, count, elapsed, machine);
    case Expand(count, elapsed) => ExpansionKeepsSound(s, count, elapsed, machine);
    case Respond(status, source, before, after) => ResponseKeepsSound(s, status, source, before, after, machine);
  }

  lemma SelectionKeepsSound(s: State, count: nat, elapsed: nat, machine: nat)
    requires Sound(s, machine)
    ensures Sound(RecordSelection(s, count, elapsed, machine).state, machine)
  {
    ChargeKeepsSound(s, RecordSelection(s, count, elapsed, machine).state, machine);
  }

  lemma ExpansionKeepsSound(s: State, count: nat, elapsed: nat, machine: nat)
    requires Sound(s, machine)
    ensures Sound(RecordExpansion(s, count, elapsed, machine).state, machine)
  {
    ChargeKeepsSound(s, RecordExpansion(s, count, elapsed, machine).state, machine);
  }

  lemma ChargeKeepsSound(s: State, next: State, machine: nat)
    requires Sound(s, machine) && s.expansions <= next.expansions
    requires next == s.(failed := next.failed, selected := next.selected, expansions := next.expansions)
    requires next == s || next.failed
      || (!s.failed && next.expansions <= s.limits.maxExpansions && next.selected <= s.limits.maxSelectedResources)
    ensures Sound(next, machine)
  {
    AttributionSurvives(s, next);
  }

  /** The state any caller reaches: accounting and the reference bijection hold after every sequence of calls. */
  ghost function Run(s: State, calls: seq<Call>, machine: nat): (r: State)
    requires Sound(s, machine)
    ensures Sound(r, machine)
    decreases calls
  {
    if calls == [] then s
    else
      ApplyKeepsSound(s, calls[0], machine);
      Run(Apply(s, calls[0], machine).state, calls[1..], machine)
  }

  lemma InitialSound(limits: Limits, machine: nat)
    requires limits.Admissible(machine) && limits.Fits(machine)
    ensures Sound(Initial(limits), machine)
  {
  }

  predicate Poisons(e: LimitError) {
    e in {Elapsed, Expansions, Requests, SelectedResources, LimitError.Bytes, Input}
  }

  /** A refused call either poisons the budget or leaves it exactly as it was; the error says which. */
  predicate ErrorTells(s: State, step: Step) {
    match step.error
    case None => !s.failed && !step.state.failed
    case Some(e) =>
      if Poisons(e) then !s.failed && step.state.failed
      else step.state == s && (e == Exhausted <==> s.failed)
  }

  lemma RequestTells(s: State, p: Pending, elapsed: nat, machine: nat)
    ensures ErrorTells(s, RecordRequest(s, p, elapsed, machine))
  {
  }

  lemma ChargeTells(s: State, count: nat, elapsed: nat, machine: nat)
    ensures ErrorTells(s, RecordSelection(s, count, elapsed, machine))
    ensures ErrorTells(s, RecordExpansion(s, count, elapsed, machine))
  {
  }

  lemma ResponseTells(s: State, status: nat, source: Source, before: nat, after: nat, machine: nat)
    requires Spendable(s)
    ensures ErrorTells(s, ReadResponse(s, status, source, before, after, machine))
  {
  }

  lemma ErrorsPoisonOrChangeNothing(s: State, call: Call, machine: nat)
    requires Spendable(s)
    ensures ErrorTells(s, Apply(s, call, machine))
  {
    match call
    case Request(p, elapsed) => RequestTells(s, p, elapsed, machine);
    case Respond(status, source, before, after) => ResponseTells(s, status, source, before, after, machine);
    case Select(count, elapsed) => ChargeTells(s, count, elapsed, machine);
    case Expand(count, elapsed) => ChargeTells(s, count, elapsed, machine);
  }

  /** After a poisoning error no sequence of calls moves the state, and no capture comes out of it. */
  lemma {:induction false} FailureAbsorbs(s: State, calls: seq<Call>, elapsed: nat, machine: nat)
    requires Sound(s, machine) && s.failed
    ensures Run(s, calls, machine) == s
    ensures IntoCapture(Run(s, calls, machine), elapsed, machine) == Err(Exhausted)
  {
    if calls != [] {
      FailureAbsorbs(s, calls[1..], elapsed, machine);
    }
  }

  /** In a reachable state two inspections share a reference exactly when they address the same resource. */
  lemma SharedReferenceMeansSameTarget(s: State, i: nat, j: nat, machine: nat)
    requires Sound(s, machine) && i < |s.exchanges| && j < |s.exchanges|
    requires s.exchanges[i].resource.Some? && s.exchanges[j].resource.Some?
    ensures s.exchanges[i].resource == s.exchanges[j].resource
       <==> s.exchanges[i].request.Inspected() == s.exchanges[j].request.Inspected()
  {
    assert Attributed(s, s.exchanges[i].request, s.exchanges[i].resource, s.exchanges[i].api);
    assert Attributed(s, s.exchanges[j].request, s.exchanges[j].resource, s.exchanges[j].api);
  }

  /** A capture comes out exactly of an unfailed, timely, non-empty state with no response outstanding; its accounting never fails. */
  lemma CaptureNeverMisaccounts(s: State, elapsed: nat, machine: nat)
    requires Sound(s, machine)
    ensures IntoCapture(s, elapsed, machine) != Err(CaptureAccounting)
    ensures IntoCapture(s, elapsed, machine).Ok?
       <==> !s.failed && elapsed <= s.limits.maxElapsed && s.pending.None? && s.exchanges != []
    ensures IntoCapture(s, elapsed, machine).Ok? ==>
      var c := IntoCapture(s, elapsed, machine).value;
      && c.exchanges == s.exchanges
      && c.bounds == Bounds(|s.exchanges|, s.selected, s.expansions, TotalBytes(s.exchanges))
  {
  }

  /** The counters, updated in place; each method takes the step that its function above specifies. */
  class BudgetCounters {
    const machine: nat
    const limits: Limits
    var requests: nat
    var selected: nat
    var expansions: nat
    var bytesRead: nat
    var pending: Option<Pending>
    var exchanges: seq<Exchange>
    var resourceIds: map<Ref, Target>
    var nativeRefs: map<Target, Ref>
    var failed: bool

    ghost function View(): State
      reads this
    {
      State(limits, requests, selected, expansions, bytesRead, pending, exchanges, resourceIds, nativeRefs, failed)
    }

    ghost predicate Valid()
      reads this
    {
      Spendable(View())
    }

    constructor (limits: Limits, machine: nat)
      requires limits.Admissible(machine) && limits.Fits(machine)
      ensures this.machine == machine && View() == Initial(limits) && Valid()
    {
      this.machine, this.limits := machine, limits;
      requests, selected, expansions, bytesRead := 0, 0, 0, 0;
      pending, exchanges, resourceIds, nativeRefs, failed := None, [], map[], map[], false;
    }

    method CheckElapsed(elapsed: nat) returns (error: Option<LimitError>)
      requires Valid()
      modifies this`failed
      ensures Valid()
      ensures Step(View(), error) == CheckTime(old(View()), elapsed)
    {
      if failed { return Some(Exhausted); }
      if elapsed > limits.maxElapsed {
        failed := true;
        return Some(Elapsed);
      }
      return None;
    }

    method Record(request: ReadRequest, resource: Option<Ref>, api: Option<ApiVersion>, elapsed: nat)
      returns (error: Option<LimitError>)
      requires Valid()
      modifies this
      ensures Valid()
      ensures Step(View(), error) == RecordRequest(old(View()), Pending(request, resource, api), elapsed, machine)
    {
      error := CheckElapsed(elapsed);
      if error.Some? { return; }
      if pending.Some? { return Some(PendingResponse); }
      var inspected := request.Inspected();
      if inspected.Some? != resource.Some? { return Some(InvalidResourceRef); }
      if !request.DaemonVersion? && api.None? { return Some(MissingApiVersion); }
      if resource.Some? && inspected.Some? {
        error := RegisterTarget(inspected.value, resource.value);
        if error.Some? { return; }
      }
      error := CountRequest(Pending(request, resource, api));
    }

    method RegisterTarget(target: Target, reference: Ref) returns (error: Option<LimitError>)
      modifies this
      ensures Step(View(), error) == Register(old(View()), target, reference, machine)
    {
      if reference in resourceIds && resourceIds[reference] != target { return Some(ResourceConflict); }
      if target in nativeRefs && nativeRefs[target] != reference { return Some(ResourceConflict); }
      if expansions + 1 > machine {
        failed := true;
        return Some(Expansions);
      }
      if expansions + 1 > limits.maxExpansions {
        failed := true;
        return Some(Expansions);
      }
      expansions := expansions + 1;
      if reference !in resourceIds { resourceIds := resourceIds[reference := target]; }
      if target !in nativeRefs { nativeRefs := nativeRefs[target := reference]; }
      assert resourceIds == old(resourceIds)[reference := target];
      assert nativeRefs == old(nativeRefs)[target := reference];
      return None;
    }

    method CountRequest(p: Pending) returns (error: Option<LimitError>)
      modifies this
      ensures Step(View(), error) == Count(old(View()), p, machine)
    {
      if requests + 1 > machine {
        failed := true;
        return Some(Requests);
      }
      requests := requests + 1;
      if requests > limits.maxRequests {
        failed := true;
        return Some(Requests);
      }
      pending := Some(p);
      return None;
    }

    method Selected(count: nat, elapsed: nat) returns (error: Option<LimitError>)
      requires Valid()
      modifies this
      ensures Valid()
      ensures Step(View(), error) == RecordSelection(old(View()), count, elapsed, machine)
    {
      error := CheckElapsed(elapsed);
      if error.Some? { return; }
      if selected + count > machine {
        failed := true;
        return Some(SelectedResources);
      }
      selected := selected + count;
      if selected > limits.maxSelectedResources {
        failed := true;
        return Some(SelectedResources);
      }
      return None;
    }

    method Expanded(count: nat, elapsed: nat) returns (error: Option<LimitError>)
      requires Valid()
      modifies this
      ensures Valid()
      ensures Step(View(), error) == RecordExpansion(old(View()), count, elapsed, machine)
    {
      error := CheckElapsed(elapsed);
      if error.Some? { return; }
      if expansions + count > machine {
        failed := true;
        return Some(Expansions);
      }
      expansions := expansions + count;
      if expansions > limits.maxExpansions {
        failed := true;
        return Some(Expansions);
      }
      return None;
    }

    method Read(status: nat, source: Source, before: nat, after: nat) returns (error: Option<LimitError>)
      requires Valid()
      modifies this
      ensures Valid()
      ensures Step(View(), error) == ReadResponse(old(View()), status, source, before, after, machine)
    {
      error := CheckElapsed(before);
      if error.Some? { return; }
      if pending.None? { return Some(ResponseWithoutRequest); }
      var allowance := Min(limits.maxResponseBytes, limits.maxTotalBytes - bytesRead);
      var body := Taken(source, allowance + 1);
      bytesRead := Min(bytesRead + |body|, machine);
      if Breaks(source, allowance + 1) {
        failed := true;
        return Some(Input);
      }
      if after > limits.maxElapsed {
        failed := true;
        return Some(Elapsed);
      }
      if |body| > allowance {
        failed := true;
        return Some(LimitError.Bytes);
      }
      var p := pending.value;
      pending := None;
      exchanges := exchanges + [Exchange(p.request, p.resource, p.api, status, body)];
      return None;
    }

    /** Finishing consumes the budget in the source; here it only reads it. */
    method Finish(elapsed: nat) returns (r: Result<Capture, LimitError>)
      requires Valid()
      ensures r == IntoCapture(View(), elapsed, machine)
    {
      if failed { return Err(Exhausted); }
      if elapsed > limits.maxElapsed { return Err(Elapsed); }
      if pending.Some? || requests == 0 { return Err(Incomplete); }
      var capture := FromCompleted(Bounds(requests, selected, expansions, bytesRead), exchanges, machine);
      return if capture.None? then Err(CaptureAccounting) else Ok(capture.value);
    }
  }
}
