/** A run that creates containers on a daemon it does not trust, and removes only what it proved to be its own. */
module IdentityCleanup {
  import opened Outcome
  import opened Json
  import opened Numerals
  import opened Identifiers
  import opened IdentityPass

  // ---- what a trace proves ----

  /** The event read the container by name or ID and found this ID under this name and owner. */
  predicate Authenticates(e: Event, key: string, id: string, name: string, run: string) {
    e.call == Inspect(key) && e.reply.Answered? && e.reply.status == 200 && Owned(e.reply.body, Some(id), name, run)
  }

  /** An earlier read by an allow-listed name vouches for the ID. */
  ghost predicate Vouched(trace: seq<Event>, names: seq<string>, run: string, id: string) {
    exists k, i :: 0 <= k < |trace| && 0 <= i < |names| && Authenticates(trace[k], names[i], id, names[i], run)
  }

  /** Only allow-listed names, and IDs already vouched for, are ever addressed. */
  ghost predicate Authorised(trace: seq<Event>, names: seq<string>, run: string, call: Call) {
    match call
    case Version => true
    case Info => true
    case Inspect(key) => key in names || Vouched(trace, names, run, key)
    case Create(name) => name in names
    case CliCreate(name) => name in names
    case Start(id) => Vouched(trace, names, run, id)
    case Delete(id) => Vouched(trace, names, run, id)
    case CliStart(id) => Vouched(trace, names, run, id)
    case CliWait(id) => Vouched(trace, names, run, id)
    case CliLogs(id) => Vouched(trace, names, run, id)
  }

  /** Every call was authorised by what came before it. */
  ghost predicate Safe(trace: seq<Event>, names: seq<string>, run: string) {
    forall k :: 0 <= k < |trace| ==> Authorised(trace[..k], names, run, trace[k].call)
  }

  lemma SafeMore(trace: seq<Event>, names: seq<string>, run: string, e: Event)
    requires Safe(trace, names, run) && Authorised(trace, names, run, e.call)
    ensures Safe(trace + [e], names, run)
  {
    var more := trace + [e];
    forall k | 0 <= k < |more| ensures Authorised(more[..k], names, run, more[k].call) {
      assert more[..k] == if k < |trace| then trace[..k] else trace;
    }
  }

  lemma VouchedMore(trace: seq<Event>, names: seq<string>, run: string, e: Event, id: string)
    requires Vouched(trace, names, run, id)
    ensures Vouched(trace + [e], names, run, id)
  {
    var k, i :| 0 <= k < |trace| && 0 <= i < |names| && Authenticates(trace[k], names[i], id, names[i], run);
    assert (trace + [e])[k] == trace[k];
  }

  /** The very last event read this ID, by ID, under the owner label and the name that the ID is registered for. */
  ghost predicate Revalidated(trace: seq<Event>, names: seq<string>, run: string, ids: seq<Option<string>>, id: string)
    requires |names| == |ids|
  {
    trace != [] && exists i :: 0 <= i < |ids| && ids[i] == Some(id) && Authenticates(trace[|trace| - 1], id, id, names[i], run)
  }

  ghost predicate DeletesRevalidated(trace: seq<Event>, names: seq<string>, run: string, ids: seq<Option<string>>)
    requires |names| == |ids|
  {
    forall k :: 0 <= k < |trace| && trace[k].call.Delete? ==> Revalidated(trace[..k], names, run, ids, trace[k].call.id)
  }

  lemma DeletesMore(trace: seq<Event>, names: seq<string>, run: string, ids: seq<Option<string>>, e: Event)
    requires |names| == |ids| && DeletesRevalidated(trace, names, run, ids)
    requires e.call.Delete? ==> Revalidated(trace, names, run, ids, e.call.id)
    ensures DeletesRevalidated(trace + [e], names, run, ids)
  {
    var more := trace + [e];
    forall k | 0 <= k < |more| && more[k].call.Delete? ensures Revalidated(more[..k], names, run, ids, more[k].call.id) {
      assert more[..k] == if k < |trace| then trace[..k] else trace;
    }
  }

  /** A registered ID is never given up, so earlier removals stay those of registered IDs. */
  lemma DeletesKept(trace: seq<Event>, names: seq<string>, run: string, ids: seq<Option<string>>, index: nat, id: string)
    requires |names| == |ids| && DeletesRevalidated(trace, names, run, ids)
    requires index < |ids| && (ids[index].None? || ids[index] == Some(id))
    ensures DeletesRevalidated(trace, names, run, ids[index := Some(id)])
  {
    var more := ids[index := Some(id)];
    forall k | 0 <= k < |trace| && trace[k].call.Delete? ensures Revalidated(trace[..k], names, run, more, trace[k].call.id) {
      var i :| 0 <= i < |ids| && ids[i] == Some(trace[k].call.id)
             && Authenticates(trace[..k][|trace[..k]| - 1], trace[k].call.id, trace[k].call.id, names[i], run);
      assert more[i] == ids[i];
    }
  }

  /** Every DELETE of a run comes right after a read that found that ID under the owner label and under the one name that the ledger
      has it registered for. */
  lemma DeletesAreAuthenticated(trace: seq<Event>, names: seq<string>, run: string, ids: seq<Option<string>>, k: nat) returns (i: nat)
    requires |names| == |ids| && DistinctIds(ids) && DeletesRevalidated(trace, names, run, ids)
    requires k < |trace| && trace[k].call.Delete?
    ensures k > 0 && i < |ids| && Authenticates(trace[k - 1], trace[k].call.id, trace[k].call.id, names[i], run)
    ensures forall j :: 0 <= j < |ids| ==> (ids[j] == Some(trace[k].call.id) <==> j == i)
  {
    var before, id := trace[..k], trace[k].call.id;
    assert Revalidated(before, names, run, ids, id);
    i :| 0 <= i < |ids| && ids[i] == Some(id) && Authenticates(before[|before| - 1], id, id, names[i], run);
    assert before[|before| - 1] == trace[k - 1];
  }

  /** The name whose creation a call requests, if it does. */
  function Creates(call: Call): Option<string> {
    match call
    case Create(name) => Some(name)
    case CliCreate(name) => Some(name)
    case _ => None
  }

  predicate Tried(names: seq<string>, attempted: seq<bool>, name: string)
    requires |names| == |attempted|
  {
    exists i :: 0 <= i < |names| && names[i] == name && attempted[i]
  }

  /** Nothing was ever created under a name that the ledger does not have as attempted. */
  ghost predicate CreationsTried(trace: seq<Event>, names: seq<string>, attempted: seq<bool>)
    requires |names| == |attempted|
  {
    forall k :: 0 <= k < |trace| && Creates(trace[k].call).Some? ==> Tried(names, attempted, Creates(trace[k].call).value)
  }

  lemma CreationsTriedMore(trace: seq<Event>, names: seq<string>, attempted: seq<bool>, e: Event)
    requires |names| == |attempted| && CreationsTried(trace, names, attempted)
    requires Creates(e.call).Some? ==> Tried(names, attempted, Creates(e.call).value)
    ensures CreationsTried(trace + [e], names, attempted)
  {
  }

  lemma MarkingKeepsTried(trace: seq<Event>, names: seq<string>, attempted: seq<bool>, index: nat)
    requires index < |names| == |attempted| && CreationsTried(trace, names, attempted)
    ensures CreationsTried(trace, names, attempted[index := true]) && Tried(names, attempted[index := true], names[index])
  {
    var marked := attempted[index := true];
    forall k | 0 <= k < |trace| && Creates(trace[k].call).Some? ensures Tried(names, marked, Creates(trace[k].call).value) {
      var i :| 0 <= i < |names| && names[i] == Creates(trace[k].call).value && attempted[i];
      assert marked[i];
    }
    assert marked[index];
  }

  /** Registered IDs are pairwise distinct. */
  ghost predicate DistinctIds(ids: seq<Option<string>>) {
    forall i, j :: 0 <= i < j < |ids| && ids[i].Some? ==> ids[i] != ids[j]
  }

  ghost predicate AllVouched(trace: seq<Event>, names: seq<string>, run: string, ids: seq<Option<string>>) {
    forall i :: 0 <= i < |ids| && ids[i].Some? ==> Canonical(ids[i].value) && Vouched(trace, names, run, ids[i].value)
  }

  lemma AllVouchedMore(trace: seq<Event>, names: seq<string>, run: string, ids: seq<Option<string>>, e: Event)
    requires AllVouched(trace, names, run, ids)
    ensures AllVouched(trace + [e], names, run, ids)
  {
    forall i | 0 <= i < |ids| && ids[i].Some? ensures Vouched(trace + [e], names, run, ids[i].value) {
      VouchedMore(trace, names, run, e, ids[i].value);
    }
  }

  // ---- absence ----

  /** What one absence pass reads for one index, when it was attempted: the name, then the ID if one is known. */
  function ReadsOf(name: string, id: Option<string>, attempted: bool): seq<Call> {
    if !attempted then [] else [Inspect(name)] + if id.Some? then [Inspect(id.value)] else []
  }

  function Round(names: seq<string>, ids: seq<Option<string>>, attempted: seq<bool>, n: nat): seq<Call>
    requires n <= |names| == |ids| == |attempted|
  {
    if n == 0 then []
    else Round(names, ids, attempted, n - 1) + ReadsOf(names[n - 1], ids[n - 1], attempted[n - 1])
  }

  /** A round leaves out no attempted name, and no ID known for one. */
  lemma {:induction false} RoundCovers(names: seq<string>, ids: seq<Option<string>>, attempted: seq<bool>, n: nat, i: nat)
    requires i < n <= |names| == |ids| == |attempted| && attempted[i]
    ensures Inspect(names[i]) in Round(names, ids, attempted, n)
    ensures ids[i].Some? ==> Inspect(ids[i].value) in Round(names, ids, attempted, n)
  {
    if i < n - 1 { RoundCovers(names, ids, attempted, n - 1, i); }
  }

  /** Once both rounds found nothing, every name that a creation was ever requested under was read absent in each of them. */
  lemma NothingLeftBehind(trace: seq<Event>, names: seq<string>, ids: seq<Option<string>>, attempted: seq<bool>, last: seq<Event>, k: nat)
    returns (one: nat, two: nat)
    requires |names| == |ids| == |attempted| && CreationsTried(trace, names, attempted)
    requires AllAbsent(last, Round(names, ids, attempted, |names|) + Round(names, ids, attempted, |names|))
    requires k < |trace| && Creates(trace[k].call).Some?
    ensures one < two < |last| && last[one].call == last[two].call == Inspect(Creates(trace[k].call).value)
    ensures last[one].reply.Answered? && last[one].reply.status == 404 && last[two].reply.Answered? && last[two].reply.status == 404
  {
    var round := Round(names, ids, attempted, |names|);
    var i :| 0 <= i < |names| && names[i] == Creates(trace[k].call).value && attempted[i];
    RoundCovers(names, ids, attempted, |names|, i);
    one :| 0 <= one < |round| && round[one] == Inspect(names[i]);
    two := |round| + one;
    assert (round + round)[one] == round[one] && (round + round)[two] == round[one];
  }

  lemma Tail(a: seq<Event>, b: seq<Event>, c: seq<Event>)
    ensures var all := a + b + c; all[|all| - |b + c|..] == b + c
  {
  }

  /** The events are exactly these calls, and all of them found nothing. */
  predicate AllAbsent(events: seq<Event>, calls: seq<Call>) {
    |events| == |calls| && forall k :: 0 <= k < |events| ==>
      events[k].call == calls[k] && events[k].reply.Answered? && events[k].reply.status == 404
  }

  lemma AbsentMore(a: seq<Event>, c: seq<Call>, b: seq<Event>, d: seq<Call>)
    requires AllAbsent(a, c) && AllAbsent(b, d)
    ensures AllAbsent(a + b, c + d)
  {
  }

  /** Every attempted name without a known ID was refused at creation. */
  predicate Accounted(ids: seq<Option<string>>, attempted: seq<bool>, rejected: seq<bool>, n: nat)
    requires n <= |ids| == |attempted| == |rejected|
  {
    forall i :: 0 <= i < n && attempted[i] && ids[i].None? ==> rejected[i]
  }

  /** One absence pass found nothing under the first `n` names. */
  predicate ReadThrough(events: seq<Event>, names: seq<string>, ids: seq<Option<string>>, attempted: seq<bool>, rejected: seq<bool>, n: nat)
    requires n <= |names| == |ids| == |attempted| == |rejected|
  {
    AllAbsent(events, Round(names, ids, attempted, n)) && Accounted(ids, attempted, rejected, n)
  }

  lemma ReadThroughMore(events: seq<Event>, more: seq<Event>, names: seq<string>, ids: seq<Option<string>>,
                        attempted: seq<bool>, rejected: seq<bool>, n: nat)
    requires n < |names| == |ids| == |attempted| == |rejected|
    requires ReadThrough(events, names, ids, attempted, rejected, n) && AllAbsent(more, ReadsOf(names[n], ids[n], attempted[n]))
    requires attempted[n] && ids[n].None? ==> rejected[n]
    ensures ReadThrough(events + more, names, ids, attempted, rejected, n + 1)
  {
    AbsentMore(events, Round(names, ids, attempted, n), more, ReadsOf(names[n], ids[n], attempted[n]));
  }

  // ---- the run ----

  datatype CaseOutcome = ExitedZero | MissingUser | MissingGroup | WorkdirNotDirectory

  datatype Phase = CreatePhase | StartPhase

  datatype ResultRecord = ResultRecord(outcome: CaseOutcome, phase: Option<Phase>)

  /** What the cases expect, each judgement known only by its verdict. */
  datatype Checks = Checks(
    outcome: nat -> CaseOutcome,
    image: Json -> bool,
    configured: (nat, Json) -> bool,
    createRefused: (nat, Reply) -> bool,
    startRefused: (nat, Reply) -> bool,
    ran: (nat, Json, string) -> bool,
    neverStarted: (nat, Json) -> bool,
    version: Json -> bool,
    security: string -> bool,
    trimmed: string -> string)

  /** The sequences differ at two positions at most. */
  predicate Agree<T(==)>(before: seq<T>, after: seq<T>, i: nat, j: nat) {
    |before| == |after| && forall k :: 0 <= k < |before| && k != i && k != j ==> before[k] == after[k]
  }

  /** A result that the ledger bears out: refused at creation, with no ID, or created, with one. */
  predicate BorneOut(outcome: CaseOutcome, id: Option<string>, rejected: bool, result: Option<ResultRecord>) {
    && result.Some? && result.value.outcome == outcome
    && rejected == (result.value.phase == Some(CreatePhase))
    && id.None? == rejected
  }

  /** The two roles of a case agree, and were refused in some phase unless the case runs. */
  predicate PairMatches(outcome: CaseOutcome, one: Option<ResultRecord>, two: Option<ResultRecord>) {
    && one.Some? && one.value.outcome == outcome
    && (one.value.phase.None? <==> outcome == ExitedZero)
    && one == two
  }

  /** Both roles of the first `n` cases were attempted and their outcomes recorded, with one result for the two. */
  predicate PairsDone(outcome: nat -> CaseOutcome, ids: seq<Option<string>>, attempted: seq<bool>, rejected: seq<bool>,
                      results: seq<Option<ResultRecord>>, n: nat) {
    && 2 * n <= |ids| == |attempted| == |rejected| == |results|
    && (forall i :: 0 <= i < 2 * n ==> attempted[i] && BorneOut(outcome(i), ids[i], rejected[i], results[i]))
    && (forall i :: 0 <= i < n ==> PairMatches(outcome(2 * i), results[2 * i], results[2 * i + 1]))
  }

  lemma OnePairMore(outcome: nat -> CaseOutcome,
                    ids: seq<Option<string>>, attempted: seq<bool>, rejected: seq<bool>, results: seq<Option<ResultRecord>>,
                    ids2: seq<Option<string>>, attempted2: seq<bool>, rejected2: seq<bool>, results2: seq<Option<ResultRecord>>, n: nat)
    requires PairsDone(outcome, ids, attempted, rejected, results, n) && 2 * n + 1 < |ids|
    requires Agree(ids, ids2, 2 * n, 2 * n + 1) && Agree(attempted, attempted2, 2 * n, 2 * n + 1)
    requires Agree(rejected, rejected2, 2 * n, 2 * n + 1) && Agree(results, results2, 2 * n, 2 * n + 1)
    requires attempted2[2 * n] && BorneOut(outcome(2 * n), ids2[2 * n], rejected2[2 * n], results2[2 * n])
    requires var k := 2 * n + 1; attempted2[k] && BorneOut(outcome(k), ids2[k], rejected2[k], results2[k])
    requires PairMatches(outcome(2 * n), results2[2 * n], results2[2 * n + 1])
    ensures PairsDone(outcome, ids2, attempted2, rejected2, results2, n + 1)
  {
    forall i | 0 <= i < 2 * (n + 1) ensures attempted2[i] && BorneOut(outcome(i), ids2[i], rejected2[i], results2[i]) {
      if i < 2 * n { assert ids2[i] == ids[i] && attempted2[i] == attempted[i] && rejected2[i] == rejected[i] && results2[i] == results[i]; }
    }
    forall i | 0 <= i < n + 1 ensures PairMatches(outcome(2 * i), results2[2 * i], results2[2 * i + 1]) {
      if i < n { assert results2[2 * i] == results[2 * i] && results2[2 * i + 1] == results[2 * i + 1]; }
    }
  }

  /** Nothing has happened yet to the names from the `n`-th on. */
  predicate Untouched(ids: seq<Option<string>>, rejected: seq<bool>, n: nat) {
    |ids| == |rejected| && forall i :: n <= i < |ids| ==> ids[i].None? && !rejected[i]
  }

  lemma UntouchedMore(ids: seq<Option<string>>, rejected: seq<bool>, ids2: seq<Option<string>>, rejected2: seq<bool>, n: nat)
    requires Untouched(ids, rejected, n) && Agree(ids, ids2, n, n + 1) && Agree(rejected, rejected2, n, n + 1)
    ensures Untouched(ids2, rejected2, n + 2)
  {
    forall i | n + 2 <= i < |ids2| ensures ids2[i].None? && !rejected2[i] {
      assert ids2[i] == ids[i] && rejected2[i] == rejected[i];
    }
  }

  /** A registered ID stays; a verified removal registers none for a refused creation. */
  predicate EntryKept(before: Option<string>, after: Option<string>, rejected: bool, verified: bool) {
    (before.Some? ==> after == before) && (verified && rejected ==> after == before)
  }

  lemma KeptMore(before: seq<Option<string>>, ids: seq<Option<string>>, ids2: seq<Option<string>>, rejected: seq<bool>, index: nat,
                 verified: bool, verified2: bool)
    requires |before| == |ids| == |ids2| == |rejected| && (verified2 ==> verified) && index < |ids|
    requires forall i :: 0 <= i < |ids| ==> EntryKept(before[i], ids[i], rejected[i], verified)
    requires Agree(ids, ids2, index, index) && EntryKept(ids[index], ids2[index], rejected[index], verified2)
    ensures forall i :: 0 <= i < |ids2| ==> EntryKept(before[i], ids2[i], rejected[i], verified2)
  {
    forall i | 0 <= i < |ids2| ensures EntryKept(before[i], ids2[i], rejected[i], verified2) {
      assert EntryKept(before[i], ids[i], rejected[i], verified);
      if i != index { assert ids2[i] == ids[i]; }
    }
  }

  class IdentityRun {
    const run: string
    const names: seq<string>
    const daemon: Daemon
    const checks: Checks
    const costs: nat -> Cost
    /** What is left until the deadline, in milliseconds. */
    var remaining: nat
    var calls: nat
    var bytes: nat
    var ids: seq<Option<string>>
    var attempted: seq<bool>
    var createRejected: seq<bool>
    var results: seq<Option<ResultRecord>>
    var cleaned: bool
    var cleanupUncertain: bool
    var trace: seq<Event>
    ghost var passes: seq<bool>
    /** Whether a cleanup has begun: commands draw on the reserve from then on. */
    ghost var cleaning: bool
    /** Whether a command was ever refused for their number. */
    ghost var refused: bool

    /** What the trace and the ledger of IDs and attempts say of each other. */
    ghost predicate Sound()
      reads this`trace, this`ids, this`attempted
    {
      && |names| == |ids| == |attempted|
      && DistinctIds(ids)
      && AllVouched(trace, names, run, ids)
      && Safe(trace, names, run)
      && DeletesRevalidated(trace, names, run, ids)
      && CreationsTried(trace, names, attempted)
    }

    ghost predicate Valid()
      reads this
    {
      && Sound()
      && |names| == |ids| == |attempted| == |createRejected| == |results| == NAMES
      && (!cleaning ==> remaining >= RESERVE)
      && cleanupUncertain == (false in passes)
      && cleaned == (passes != [] && passes[|passes| - 1])
    }

    /** Two names for each of ten cases, and a start only with more time than the reserve. */
    constructor (run: string, names: seq<string>, daemon: Daemon, checks: Checks, costs: nat -> Cost, remaining: nat)
      requires |names| == NAMES && remaining > RESERVE
      ensures Valid() && this.run == run && this.names == names && this.daemon == daemon && this.checks == checks && this.costs == costs
      ensures trace == [] && passes == [] && Untouched(ids, createRejected, 0) && forall i :: 0 <= i < |names| ==> !attempted[i]
      ensures calls == 0 && bytes == 0 && !cleaning && !refused && this.remaining == remaining
    {
      this.run, this.names, this.daemon, this.checks, this.costs := run, names, daemon, checks, costs;
      this.remaining, calls, bytes, cleaning, refused := remaining, 0, 0, false, false;
      ids := seq(|names|, _ => None);
      attempted, createRejected := seq(|names|, _ => false), seq(|names|, _ => false);
      results := seq(|names|, _ => None);
      cleaned, cleanupUncertain, trace, passes := false, false, [], [];
    }

    /** So many commands at most, none of them refused for their number where there was room for all. */
    twostate predicate Within(n: nat)
      reads this`calls, this`refused
    {
      old(calls) <= calls <= old(calls) + n && (old(calls) + n <= MAX_CALLS ==> refused == old(refused))
    }

    /** What the cleanup deals with, and where the run stands. */
    function W(): World {
      World(daemon, costs, names, run)
    }

    function Here(): Point
      reads this`trace, this`ids, this`remaining, this`calls, this`bytes
    {
      Point(trace, ids, remaining, calls, bytes)
    }

    /** One command: refused near the deadline and beyond the count. */
    method Ask(call: Call, cleanup: bool) returns (reply: Reply, ghost events: seq<Event>)
      requires Valid() && cleanup == cleaning && Authorised(trace, names, run, call)
      requires call.Delete? ==> Revalidated(trace, names, run, ids, call.id)
      requires Creates(call).Some? ==> Tried(names, attempted, Creates(call).value)
      modifies this`trace, this`remaining, this`calls, this`bytes, this`refused
      ensures Valid() && Within(1) && trace == old(trace) + events
      ensures reply != Lost ==> events == [Event(call, reply)]
      ensures cleanup && OverSocket(call) ==> (Here(), reply) == AskRun(W(), old(Here()), call)
    {
      hide Sound, Authorised, Revalidated, Tried, Creates;
      var seconds := CommandSeconds(remaining, cleanup);
      if seconds.None? { return Lost, []; }
      CommandKeepsReserve(remaining, cleanup);
      if calls + 1 > MAX_CALLS {
        calls, refused := calls + 1, true;
        return Lost, [];
      }
      reply := Play(call, seconds.value);
      events := [Event(call, reply)];
    }

    /** A command that was let through runs for so many seconds, and a second more until it is killed; it is fatal that it prints too
        much. What a killed command line reports is left to the daemon. */
    method Play(call: Call, seconds: nat) returns (reply: Reply)
      requires Valid() && calls < MAX_CALLS && remaining >= 1000 * (seconds + 1) + (if cleaning then 0 else RESERVE)
      requires Authorised(trace, names, run, call) && (call.Delete? ==> Revalidated(trace, names, run, ids, call.id))
      requires Creates(call).Some? ==> Tried(names, attempted, Creates(call).value)
      modifies this`trace, this`remaining, this`calls, this`bytes
      ensures Valid() && trace == old(trace) + [Event(call, reply)] && calls == old(calls) + 1
      ensures OverSocket(call) ==> (Here(), reply) == PlayRun(W(), old(Here()), call, seconds)
    {
      hide Sound, Authorised, Revalidated, Tried, Creates;
      var cost, cap := costs(calls), if OverSocket(call) then API_CAP else CLI_CAP;
      calls, remaining, bytes := calls + 1, remaining - Min(cost.duration, 1000 * (seconds + 1)), bytes + Min(cost.size, cap);
      var killed := OverSocket(call) && cost.duration > 1000 * seconds;
      reply := if killed || cost.size > cap || bytes > MAX_BYTES then Lost else daemon(trace, call);
      Record(Event(call, reply));
    }

    /** Add an authorised call to the trace. */
    method Record(e: Event)
      requires Valid() && Authorised(trace, names, run, e.call)
      requires e.call.Delete? ==> Revalidated(trace, names, run, ids, e.call.id)
      requires Creates(e.call).Some? ==> Tried(names, attempted, Creates(e.call).value)
      modifies this`trace
      ensures Valid() && trace == old(trace) + [e]
    {
      CreationsTriedMore(trace, names, attempted, e);
      SafeMore(trace, names, run, e);
      DeletesMore(trace, names, run, ids, e);
      AllVouchedMore(trace, names, run, ids, e);
      trace := trace + [e];
    }

    lemma RoutedIsAuthorised(call: Call)
      requires Valid() && Routed(names, ids, call)
      ensures Authorised(trace, names, run, call)
    {
    }

    lemma KnownIsVouched(index: nat)
      requires Valid() && index < |ids| && ids[index].Some?
      ensures Vouched(trace, names, run, ids[index].value)
    {
    }

    /** An API exchange; any other route, like any broken exchange, ends in a panic. */
    method Api(call: Call, cleanup: bool) returns (r: Option<(nat, Json)>, ghost events: seq<Event>)
      requires Valid() && cleanup == cleaning && (call.Delete? ==> Revalidated(trace, names, run, ids, call.id))
      requires Creates(call).Some? ==> Tried(names, attempted, Creates(call).value)
      modifies this`trace, this`remaining, this`calls, this`bytes, this`refused
      ensures Valid() && Within(1) && trace == old(trace) + events
      ensures r.Some? ==> events == [Event(call, Answered(r.value.0, r.value.1))]
      ensures cleanup ==> (Here(), r) == ApiRun(W(), old(Here()), call)
    {
      hide Sound;
      events := [];
      if !Routed(names, ids, call) { return None, []; }
      RoutedIsAuthorised(call);
      var reply;
      reply, events := Ask(call, cleanup);
      return if reply.Answered? then Some((reply.status, reply.body)) else None, events;
    }

    /** Register an ID that the last event read under the name, and that no other name has. */
    method Claim(index: nat, id: string)
      requires Valid() && index < |names|
      requires trace != [] && Authenticates(trace[|trace| - 1], names[index], id, names[index], run)
      requires forall other :: 0 <= other < |ids| && other != index ==> ids[other] != Some(id)
      requires ids[index].None? || ids[index] == Some(id)
      modifies this`ids
      ensures Valid() && ids == old(ids)[index := Some(id)]
    {
      DeletesKept(trace, names, run, ids, index, id);
      ids := ids[index := Some(id)];
    }

    /** Register an ID that a create reported, but only after reading it back by name. */
    method Bind(index: nat, id: string) returns (ok: bool)
      requires Valid() && !cleaning && index < |names| && ids[index].None?
      modifies this`trace, this`remaining, this`calls, this`bytes, this`refused, this`ids
      ensures Valid() && Within(1)
      ensures ids == old(ids) || ids == old(ids)[index := Some(id)]
      ensures ok ==> ids[index] == Some(id)
      ensures ok || ids != old(ids) ==> trace != [] && Authenticates(trace[|trace| - 1], names[index], id, names[index], run)
    {
      if !Canonical(id) { return false; }
      var read, _ := Api(Inspect(names[index]), false);
      if read.None? || read.value.0 != 200 || !Owned(read.value.1, Some(id), names[index], run) { return false; }
      if !checks.image(read.value.1) || Some(id) in ids { return false; }
      Claim(index, id);
      return checks.configured(index, read.value.1);
    }

    /** The event accounts for what was created under a name: it was found absent, with its ID known or its creation refused, or its
        ID was deleted and its creation had not been refused. */
    predicate Gone(e: Event, index: nat)
      requires index < |names| == |ids| == |createRejected|
      reads this
    {
      && e.reply.Answered?
      && (if e.call == Inspect(names[index]) then e.reply.status == 404 && (ids[index].Some? || createRejected[index])
          else ids[index].Some? && e.call == Delete(ids[index].value) && e.reply.status == 204 && !createRejected[index])
    }

    /** Read by name: absence is judged by the ledger, and what is this run's own and no other name's is claimed. */
    method Identify(index: nat) returns (r: Option<bool>, claimed: bool)
      requires Valid() && cleaning && index < |names|
      modifies this`trace, this`remaining, this`calls, this`bytes, this`refused, this`ids
      ensures Valid() && Within(1)
      ensures forall i :: 0 <= i < |ids| && i != index ==> ids[i] == old(ids)[i]
      ensures old(ids)[index].Some? ==> ids[index] == old(ids)[index]
      ensures claimed ==> ids[index].Some?
      ensures !claimed ==> ids == old(ids)
      ensures !claimed && r == Some(true) ==> trace != [] && Gone(trace[|trace| - 1], index)
      ensures Identified(Here(), r, claimed) == IdentifyRun(W(), old(Here()), createRejected, index)
    {
      hide Sound, ApiRun;
      claimed := false;
      var read, _ := Api(Inspect(names[index]), true);
      if read.None? { return None, false; }
      var (status, inspected) := read.value;
      if status == 404 { return Some(ids[index].Some? || createRejected[index]), false; }
      if status != 200 || !Owned(inspected, ids[index], names[index], run) { return Some(false), false; }
      var id := inspected.GetStr("Id").value;
      if exists other :: 0 <= other < |ids| && other != index && ids[other] == Some(id) { return Some(false), false; }
      Claim(index, id);
      return None, true;
    }

    /** Remove what was created under one name, if it can be proved to be this run's own; `None` is a panic. */
    method RemoveOwned(index: nat) returns (r: Option<bool>)
      requires Valid() && cleaning && index < |names|
      modifies this`trace, this`remaining, this`calls, this`bytes, this`refused, this`ids
      ensures Valid() && Within(3)
      ensures forall i :: 0 <= i < |ids| && i != index ==> ids[i] == old(ids)[i]
      ensures old(ids)[index].Some? ==> ids[index] == old(ids)[index]
      ensures r == Some(true) ==> trace != [] && Gone(trace[|trace| - 1], index)
      ensures r == Some(true) && createRejected[index] ==> ids[index] == old(ids)[index]
      ensures (Here(), r) == OwnedRun(W(), old(Here()), createRejected, index)
    {
      hide Sound, IdentifyRun, RegisteredRun;
      var absent, claimed := Identify(index);
      if !claimed { return absent; }
      r := RemoveRegistered(index);
    }

    /** Revalidate the registered ID immediately before the removal, which goes by ID only. */
    method RemoveRegistered(index: nat) returns (r: Option<bool>)
      requires Valid() && cleaning && index < |names| && ids[index].Some?
      modifies this`trace, this`remaining, this`calls, this`bytes, this`refused
      ensures Valid() && Within(2)
      ensures r == Some(true) ==> trace != [] && Gone(trace[|trace| - 1], index) && !createRejected[index]
      ensures (Here(), r) == RegisteredRun(W(), old(Here()), createRejected, index)
    {
      hide Sound, ApiRun;
      var id := ids[index].value;
      var again, _ := Api(Inspect(id), true);
      if again.None? { return None; }
      if again.value.0 != 200 || !Owned(again.value.1, Some(id), names[index], run) { return Some(false); }
      assert Revalidated(trace, names, run, ids, id) by {
        assert ids[index] == Some(id) && Authenticates(trace[|trace| - 1], id, id, names[index], run);
      }
      var deleted, _ := Api(Delete(id), true);
      if deleted.None? { return None; }
      return Some(deleted.value.0 == 204 && !createRejected[index]);
    }

    method IsAbsent(key: string) returns (r: Option<bool>, ghost events: seq<Event>)
      requires Valid() && cleaning
      modifies this`trace, this`remaining, this`calls, this`bytes, this`refused
      ensures Valid() && Within(1) && trace == old(trace) + events
      ensures r == Some(true) ==> AllAbsent(events, [Inspect(key)])
      ensures (Here(), r) == AbsentRun(W(), old(Here()), key)
    {
      hide Sound, ApiRun;
      var read, more := Api(Inspect(key), true);
      return if read.None? then None else Some(read.value.0 == 404), more;
    }

    /** Read the name, and the ID if one is known; `true` when neither was found. */
    method ReadAbsence(index: nat) returns (r: Option<bool>, ghost events: seq<Event>)
      requires Valid() && cleaning && index < |names|
      modifies this`trace, this`remaining, this`calls, this`bytes, this`refused
      ensures Valid() && Within(2) && trace == old(trace) + events
      ensures r == Some(true) ==> AllAbsent(events, ReadsOf(names[index], ids[index], true))
      ensures r == Some(true) && ids[index].None? ==> createRejected[index]
      ensures (Here(), r) == AbsenceRun(W(), old(Here()), createRejected, index)
    {
      hide Sound, AbsentRun;
      var named, first := IsAbsent(names[index]);
      events := first;
      if named.None? { return None, events; }
      if ids[index].None? { return Some(named.value && createRejected[index]), events; }
      var identified, second := IsAbsent(ids[index].value);
      events := first + second;
      if identified.None? { return None, events; }
      if named.value && identified.value { AbsentMore(first, [Inspect(names[index])], second, [Inspect(ids[index].value)]); }
      return Some(named.value && identified.value), events;
    }

    /** One absence pass over every attempted name; a panic at one name does not hide the others. */
    method AbsencePass() returns (verified: bool, ghost events: seq<Event>)
      requires Valid() && cleaning
      modifies this`trace, this`remaining, this`calls, this`bytes, this`refused
      ensures Valid() && Within(2 * NAMES) && trace == old(trace) + events
      ensures verified ==> ReadThrough(events, names, ids, attempted, createRejected, |names|)
      ensures (Here(), verified) == RoundRun(W(), old(Here()), attempted, createRejected, |names|)
    {
      hide Sound, AbsenceRun;
      verified, events := true, [];
      assert ReadThrough(events, names, ids, attempted, createRejected, 0);
      hide ReadThrough;
      for index := 0 to |names|
        invariant Valid() && Within(2 * index) && trace == old(trace) + events
        invariant verified ==> ReadThrough(events, names, ids, attempted, createRejected, index)
        invariant (Here(), verified) == RoundRun(W(), old(Here()), attempted, createRejected, index)
      {
        var absent := Some(true);
        ghost var more: seq<Event> := [];
        if attempted[index] { absent, more := ReadAbsence(index); }
        if verified && absent == Some(true) {
          ReadThroughMore(events, more, names, ids, attempted, createRejected, index);
        }
        verified, events := verified && absent == Some(true), events + more;
      }
    }

    /** Registered IDs stay; and where all went well, no ID was found for a creation that had been refused. */
    ghost predicate LedgerKept(before: seq<Option<string>>, verified: bool)
      reads this`ids, this`createRejected
    {
      |before| == |ids| == |createRejected| && forall i :: 0 <= i < |ids| ==> EntryKept(before[i], ids[i], createRejected[i], verified)
    }

    lemma LedgerKeptLess(before: seq<Option<string>>, verified: bool, verified2: bool)
      requires LedgerKept(before, verified) && (verified2 ==> verified)
      ensures LedgerKept(before, verified2)
    {
      forall i | 0 <= i < |ids| ensures EntryKept(before[i], ids[i], createRejected[i], verified2) {
        assert EntryKept(before[i], ids[i], createRejected[i], verified);
      }
    }

    method RemoveAttempted() returns (verified: bool)
      requires Valid() && cleaning
      modifies this`trace, this`remaining, this`calls, this`bytes, this`refused, this`ids
      ensures Valid() && Within(3 * NAMES) && LedgerKept(old(ids), verified)
      ensures (Here(), verified) == RemovalsRun(W(), old(Here()), attempted, createRejected, |names|)
    {
      hide Sound, OwnedRun;
      verified := true;
      for index := 0 to |names|
        invariant Valid() && Within(3 * index) && LedgerKept(old(ids), verified)
        invariant (Here(), verified) == RemovalsRun(W(), old(Here()), attempted, createRejected, index)
      {
        if attempted[index] {
          ghost var ledger := ids;
          var removed := RemoveOwned(index);
          KeptMore(old(ids), ledger, ids, createRejected, index, verified, verified && removed == Some(true));
          verified := verified && removed == Some(true);
        }
      }
    }

    /** Remove everything attempted, then read every name and known ID absent twice: at most seven commands for each name. */
    method Cleanup() returns (ok: bool, ghost last: seq<Event>)
      requires Valid()
      modifies this`trace, this`remaining, this`calls, this`bytes, this`refused, this`ids, this`cleaned, this`cleanupUncertain,
               this`passes, this`cleaning
      ensures Valid() && cleaning && Within(7 * NAMES) && passes == old(passes) + [cleaned]
      ensures ok == (cleaned && !cleanupUncertain)
      ensures |last| <= |trace| && trace[|trace| - |last|..] == last
      ensures cleaned ==> AbsentTwice(last) && Accounted(ids, attempted, createRejected, |names|)
      ensures LedgerKept(old(ids), cleaned)
      ensures (Here(), cleaned) == PassRun(W(), old(Here()), attempted, createRejected)
    {
      hide Sound, LedgerKept, RemovalsRun, RoundRun;
      cleaning := true;
      var verified := RemoveAttempted();
      ghost var before := trace;
      var first, one := AbsencePass();
      var second, two := AbsencePass();
      last := one + two;
      Tail(before, one, two);
      LedgerKeptLess(old(ids), verified, verified && first && second);
      verified := verified && first && second;
      if verified {
        AbsentMore(one, Round(names, ids, attempted, |names|), two, Round(names, ids, attempted, |names|));
      }
      Conclude(verified);
      return cleaned && !cleanupUncertain, last;
    }

    /** Record how a cleanup ended; one that failed makes every later one fail. */
    method Conclude(verified: bool)
      requires Valid() && cleaning
      modifies this`cleaned, this`cleanupUncertain, this`passes
      ensures Valid() && cleaned == verified && cleanupUncertain == (old(cleanupUncertain) || !verified)
      ensures passes == old(passes) + [verified]
    {
      hide Sound;
      cleaned, cleanupUncertain, passes := verified, cleanupUncertain || !verified, passes + [verified];
    }

    /** The events read every attempted name and every known ID absent, twice over. */
    ghost predicate AbsentTwice(events: seq<Event>)
      requires Valid()
      reads this
    {
      AllAbsent(events, Round(names, ids, attempted, |names|) + Round(names, ids, attempted, |names|))
    }

    // ---- the work ----

    method Healthy() returns (ok: bool)
      requires Valid() && !cleaning
      modifies this`trace, this`remaining, this`calls, this`bytes, this`refused
      ensures Valid() && Within(1)
    {
      hide Sound;
      var version, _ := Api(Version, false);
      return version.Some? && version.value.0 == 200 && checks.version(version.value.1);
    }

    /** A create that was refused for the expected reason leaves no container under the name. */
    method RejectCreate(index: nat) returns (ok: bool)
      requires Valid() && !cleaning && index < |names|
      modifies this`trace, this`remaining, this`calls, this`bytes, this`refused, this`createRejected, this`results
      ensures Valid() && Within(2)
      ensures createRejected == old(createRejected)[index := true]
      ensures ok ==> results == old(results)[index := Some(ResultRecord(checks.outcome(index), Some(CreatePhase)))]
      ensures !ok ==> results == old(results)
    {
      hide Sound;
      createRejected := createRejected[index := true];
      var healthy := Healthy();
      if !healthy { return false; }
      var read, _ := Api(Inspect(names[index]), false);
      if read.None? || read.value.0 != 404 { return false; }
      results := results[index := Some(ResultRecord(checks.outcome(index), Some(CreatePhase)))];
      return true;
    }

    method CheckProcess(index: nat, output: string) returns (ok: bool)
      requires Valid() && !cleaning && index < |names| && ids[index].Some?
      modifies this`trace, this`remaining, this`calls, this`bytes, this`refused
      ensures Valid() && Within(1)
    {
      hide Sound;
      var read, _ := Api(Inspect(ids[index].value), false);
      if read.None? || read.value.0 != 200 || !Owned(read.value.1, ids[index], names[index], run) { return false; }
      return checks.configured(index, read.value.1) && checks.ran(index, read.value.1, output);
    }

    method CheckNegative(index: nat) returns (ok: bool)
      requires Valid() && !cleaning && index < |names| && ids[index].Some?
      modifies this`trace, this`remaining, this`calls, this`bytes, this`refused
      ensures Valid() && Within(3)
    {
      hide Sound, Vouched;
      var healthy := Healthy();
      if !healthy { return false; }
      var id := ids[index].value;
      var read, _ := Api(Inspect(id), false);
      if read.None? || read.value.0 != 200 || !Owned(read.value.1, Some(id), names[index], run) { return false; }
      if !checks.configured(index, read.value.1) || !checks.neverStarted(index, read.value.1) { return false; }
      KnownIsVouched(index);
      var logs, _ := Ask(CliLogs(id), false);
      return logs.Exited? && logs.code == Some(0) && logs.output == "";
    }

    /** The outcome of a started container, whichever way it was started. */
    method Settle(index: nat, started: Reply, finished: bool, output: string) returns (ok: bool)
      requires Valid() && !cleaning && index < |names| && ids[index].Some? && !createRejected[index]
      modifies this`trace, this`remaining, this`calls, this`bytes, this`refused, this`results
      ensures Valid() && Within(if checks.outcome(index) == ExitedZero then 1 else 3) && OthersKept(index) && (ok ==> Recorded(index))
    {
      hide Sound;
      var outcome := checks.outcome(index);
      var checked: bool;
      if outcome == ExitedZero {
        if !finished { return false; }
        checked := CheckProcess(index, output);
      } else {
        if !checks.startRefused(index, started) { return false; }
        checked := CheckNegative(index);
      }
      if !checked { return false; }
      results := results[index := Some(ResultRecord(outcome, if outcome == ExitedZero then None else Some(StartPhase)))];
      return true;
    }

    predicate Recorded(index: nat)
      requires index < |results| == |createRejected| == |ids|
      reads this`results, this`createRejected, this`ids
    {
      BorneOut(checks.outcome(index), ids[index], createRejected[index], results[index])
    }

    /** Nothing is known of the name yet: no ID, and no refusal. */
    predicate Free(index: nat)
      requires index < |createRejected| == |ids|
      reads this`createRejected, this`ids
    {
      ids[index].None? && !createRejected[index]
    }

    /** Work on one name leaves the ledger of every other name alone. */
    twostate predicate OthersKept(index: nat)
      reads this
    {
      Agree(old(ids), ids, index, index) && Agree(old(createRejected), createRejected, index, index)
      && Agree(old(results), results, index, index)
    }

    /** Enter a name into the ledger before anything is created under it. */
    method Attempt(index: nat)
      requires Valid() && index < |names|
      modifies this`attempted
      ensures Valid() && attempted == old(attempted)[index := true] && Tried(names, attempted, names[index])
    {
      MarkingKeepsTried(trace, names, attempted, index);
      attempted := attempted[index := true];
    }

    /** Bind what a successful create reported, or record an expected refusal; `None` is a panic, and `true` means created. */
    method Adopt(index: nat, id: Option<string>, refused: bool) returns (created: Option<bool>)
      requires Valid() && !cleaning && index < |names| && Free(index)
      modifies this`trace, this`remaining, this`calls, this`bytes, this`refused, this`ids, this`createRejected, this`results
      ensures Valid() && Within(2) && OthersKept(index)
      ensures created == Some(true) ==> Within(1) && ids[index].Some? && ids[index] == id && !createRejected[index]
      ensures created == Some(false) ==> Recorded(index)
    {
      hide Sound;
      if id.None? {
        if !refused { return None; }
        var rejected := RejectCreate(index);
        return if rejected then Some(false) else None;
      }
      var bound := Bind(index, id.value);
      return if bound then Some(true) else None;
    }

    /** Start through the command line, and settle. */
    method StartOracle(index: nat) returns (ok: bool)
      requires Valid() && !cleaning && index < |names| && ids[index].Some? && !createRejected[index]
      modifies this`trace, this`remaining, this`calls, this`bytes, this`refused, this`results
      ensures Valid() && Within(4) && OthersKept(index) && (ok ==> Recorded(index))
    {
      hide Sound, Vouched;
      KnownIsVouched(index);
      var started, _ := Ask(CliStart(ids[index].value), false);
      if !started.Exited? { return false; }
      ok := Settle(index, started, started.code == Some(0), started.output);
    }

    /** Start through the API, and settle. */
    method StartRendered(index: nat) returns (ok: bool)
      requires Valid() && !cleaning && index < |names| && ids[index].Some? && !createRejected[index]
      modifies this`trace, this`remaining, this`calls, this`bytes, this`refused, this`results
      ensures Valid() && Within(4) && OthersKept(index) && (ok ==> Recorded(index))
    {
      hide Sound;
      var started, _ := Api(Start(ids[index].value), false);
      if started.None? { return false; }
      if checks.outcome(index) == ExitedZero {
        if started.value.0 != 204 { return false; }
        var output := Finished(index);
        if output.None? { return false; }
        ok := Settle(index, Answered(204, started.value.1), true, output.value);
      } else {
        ok := Settle(index, Answered(started.value.0, started.value.1), false, "");
      }
    }

    /** Create and start through the command line. */
    method Oracle(index: nat) returns (ok: bool)
      requires Valid() && !cleaning && index < |names| && Free(index)
      modifies this`trace, this`remaining, this`calls, this`bytes, this`refused, this`ids, this`attempted, this`createRejected, this`results
      ensures Valid() && Within(6) && OthersKept(index) && attempted == old(attempted)[index := true]
      ensures ok ==> Recorded(index)
    {
      hide Sound;
      Attempt(index);
      var reply, _ := Ask(CliCreate(names[index]), false);
      if !reply.Exited? { return false; }
      var id := if reply.code == Some(0) then Some(checks.trimmed(reply.output)) else None;
      var created := Adopt(index, id, checks.createRefused(index, reply));
      if created.None? { return false; }
      if !created.value { return true; }
      ok := StartOracle(index);
    }

    /** Create and start through the API, from the rendered request. */
    method Rendered(index: nat) returns (ok: bool)
      requires Valid() && !cleaning && index < |names| && Free(index)
      modifies this`trace, this`remaining, this`calls, this`bytes, this`refused, this`ids, this`attempted, this`createRejected, this`results
      ensures Valid() && Within(6) && OthersKept(index) && attempted == old(attempted)[index := true]
      ensures ok ==> Recorded(index)
    {
      hide Sound;
      Attempt(index);
      var reply, _ := Api(Create(names[index]), false);
      if reply.None? { return false; }
      var (status, body) := reply.value;
      var id := if status == 201 then body.GetStr("Id") else None;
      var created := Adopt(index, id, status != 201 && checks.createRefused(index, Answered(status, body)));
      if created.None? { return false; }
      if !created.value { return true; }
      ok := StartRendered(index);
    }

    /** Wait for the container to exit with zero, and read what it wrote. */
    method Finished(index: nat) returns (output: Option<string>)
      requires Valid() && !cleaning && index < |names| && ids[index].Some?
      modifies this`trace, this`remaining, this`calls, this`bytes, this`refused
      ensures Valid() && Within(2)
    {
      hide Sound, Vouched;
      var id := ids[index].value;
      KnownIsVouched(index);
      var waited, _ := Ask(CliWait(id), false);
      if !waited.Exited? || waited.code != Some(0) || waited.output != "0\n" { return None; }
      KnownIsVouched(index);
      var logs, _ := Ask(CliLogs(id), false);
      return if logs.Exited? && logs.code == Some(0) then Some(logs.output) else None;
    }

    method NameIsFree(index: nat) returns (free: bool)
      requires Valid() && !cleaning && index < |names|
      modifies this`trace, this`remaining, this`calls, this`bytes, this`refused
      ensures Valid() && Within(1)
    {
      var read, _ := Api(Inspect(names[index]), false);
      return read.Some? && read.value.0 == 404;
    }

    method NamesAreFree(oracle: nat, rendered: nat) returns (free: bool)
      requires Valid() && !cleaning && oracle < rendered < |names|
      modifies this`trace, this`remaining, this`calls, this`bytes, this`refused
      ensures Valid() && Within(2)
    {
      free := NameIsFree(oracle);
      if free { free := NameIsFree(rendered); }
    }

    /** The version over the socket, and the security options over the command line, are what the run expects. */
    method Context() returns (ok: bool)
      requires Valid() && !cleaning
      modifies this`trace, this`remaining, this`calls, this`bytes, this`refused
      ensures Valid() && Within(2)
    {
      ok := Healthy();
      if !ok { return false; }
      var info, _ := Ask(Info, false);
      return info.Exited? && info.code == Some(0) && checks.security(info.output);
    }

    /** After the daemon's version and security options, all cases in order, each by both roles under
      * names that are still free; the first failed expectation ends the work. */
    method Work() returns (ok: bool)
      requires Valid() && !cleaning && Untouched(ids, createRejected, 0)
      modifies this`trace, this`remaining, this`calls, this`bytes, this`refused, this`ids, this`attempted, this`createRejected, this`results
      ensures Valid() && Within(142)
      ensures ok ==> PairsDone(checks.outcome, ids, attempted, createRejected, results, |names| / 2)
    {
      ok := Context();
      if !ok { return false; }
      for pair := 0 to |names| / 2
        invariant Valid() && Within(2 + 14 * pair) && PairsDone(checks.outcome, ids, attempted, createRejected, results, pair)
        invariant Untouched(ids, createRejected, 2 * pair)
      {
        ok := WorkPair(pair);
        if !ok { return false; }
      }
      return true;
    }

    /** The oracle and then the rendered role of a case, under names that are still free. */
    method WorkPair(pair: nat) returns (ok: bool)
      requires Valid() && !cleaning && pair < |names| / 2
      requires PairsDone(checks.outcome, ids, attempted, createRejected, results, pair)
      requires Untouched(ids, createRejected, 2 * pair)
      modifies this`trace, this`remaining, this`calls, this`bytes, this`refused, this`ids, this`attempted, this`createRejected, this`results
      ensures Valid() && Within(14) && Untouched(ids, createRejected, 2 * pair + 2)
      ensures ok ==> PairsDone(checks.outcome, ids, attempted, createRejected, results, pair + 1)
    {
      hide Sound;
      ok := NamesAreFree(2 * pair, 2 * pair + 1);
      ghost var i, a, c, r := ids, attempted, createRejected, results;
      if !ok { return false; }
      ok := BothRoles(2 * pair, 2 * pair + 1);
      UntouchedMore(i, c, ids, createRejected, 2 * pair);
      if ok { OnePairMore(checks.outcome, i, a, c, r, ids, attempted, createRejected, results, pair); }
    }

    method BothRoles(oracle: nat, rendered: nat) returns (ok: bool)
      requires Valid() && !cleaning && oracle < rendered < |names| && Free(oracle) && Free(rendered)
      modifies this`trace, this`remaining, this`calls, this`bytes, this`refused, this`ids, this`attempted, this`createRejected, this`results
      ensures Valid() && Within(12)
      ensures ok ==> attempted[oracle] && attempted[rendered] && Recorded(oracle) && Recorded(rendered)
      ensures ok ==> PairMatches(checks.outcome(oracle), results[oracle], results[rendered])
      ensures Agree(old(ids), ids, oracle, rendered) && Agree(old(attempted), attempted, oracle, rendered)
      ensures Agree(old(createRejected), createRejected, oracle, rendered) && Agree(old(results), results, oracle, rendered)
    {
      hide Sound;
      ok := Oracle(oracle);
      if !ok { return false; }
      ok := Rendered(rendered);
      return ok && PairMatches(checks.outcome(oracle), results[oracle], results[rendered]);
    }

    /** What the proof asserts of the ledger: complete, cleaned, with canonical IDs that never repeat, matching pairs, and an ID for
        exactly the creations that were not refused. */
    predicate Complete()
      reads this
    {
      && |names| == |ids| == |attempted| == |createRejected| == |results|
      && cleaned && !cleanupUncertain && (forall i :: 0 <= i < |names| ==> attempted[i])
      && (forall i :: 0 <= i < |ids| && ids[i].Some? ==> Canonical(ids[i].value))
      && (forall i, j :: 0 <= i < j < |ids| && ids[i].Some? ==> ids[i] != ids[j])
      && (forall i :: 0 <= i < |names| / 2 ==> PairMatches(checks.outcome(2 * i), results[2 * i], results[2 * i + 1]))
      && (forall i :: 0 <= i < |names| ==> results[i].Some? && createRejected[i] == (results[i].value.phase == Some(CreatePhase)))
      && (forall i :: 0 <= i < |names| ==> ids[i].None? == createRejected[i])
    }

    /** After complete work and a verified cleanup none of the proof's assertions can fail. */
    lemma ProofHolds(before: seq<Option<string>>)
      requires Valid() && cleaned && !cleanupUncertain && LedgerKept(before, true)
      requires PairsDone(checks.outcome, before, attempted, createRejected, results, |names| / 2)
      ensures Complete()
    {
      forall i | 0 <= i < |names|
        ensures attempted[i] && results[i].Some? && createRejected[i] == (results[i].value.phase == Some(CreatePhase))
        ensures ids[i].None? == createRejected[i]
      {
        assert attempted[i] && BorneOut(checks.outcome(i), before[i], createRejected[i], results[i]);
        assert EntryKept(before[i], ids[i], createRejected[i], true);
      }
    }

    /** The whole run: work, then a cleanup whatever happened, and another one when the first was not verified. There is a proof exactly
        after complete work and one verified cleanup, and none of its assertions can fail then. The first cleanup begins with the whole
        reserve and with room for the number of its commands; it succeeds when the daemon tells the truth about what the world holds by
        then, and its commands fit the time and the output that are left. */
    method Live(ghost world: seq<Event> -> seq<Option<string>>)
      returns (proof: Option<seq<(string, Option<string>)>>, worked: bool, ghost last: seq<Event>, ghost start: Point)
      requires Valid() && passes == [] && Untouched(ids, createRejected, 0) && !cleaning && calls == 0 && !refused
      modifies this
      ensures Valid() && (passes == [true] || (|passes| == 2 && !passes[0]))
      ensures proof.Some? <==> worked && passes == [true]
      ensures proof.Some? ==> Complete()
      ensures |last| <= |trace| && trace[|trace| - |last|..] == last && (cleaned ==> AbsentTwice(last))
      ensures proof.Some? ==> |proof.value| == |names| && forall i :: 0 <= i < |names| ==> proof.value[i] == (names[i], ids[i])
      ensures |start.ids| == |names| && start.remaining >= RESERVE && start.calls <= WORK_CALLS && (refused ==> |passes| == 2)
      ensures Helped(start, world(start.trace)) ==> passes == [true]
    {
      hide Sound, LedgerKept, AbsentTwice, PassRun;
      worked := Work();
      ghost var before := ids;
      start := Here();
      if Helped(start, world(trace)) { HelpedPass(world(trace)); }
      var ok, events := Cleanup();
      last := events;
      if !cleaned {
        var _, again := Cleanup();
        last := again;
      }
      if !worked || !ok { return None, worked, last, start; }
      ProofHolds(before);
      return Some(seq(|names|, i requires 0 <= i < |names| && |names| == |ids| reads this => (names[i], ids[i]))), worked, last, start;
    }

    /** The daemon tells the truth about these containers, and a cleanup that starts now fits the reserve and the output that is left. */
    ghost predicate Helped(p: Point, held: seq<Option<string>>)
      requires |p.ids| == |names|
      reads this`attempted, this`createRejected
    {
      && Honest(daemon, names, run, held, p.trace) && Agrees(names, held, p.ids, attempted, createRejected, p.trace, 0)
      && Brief(costs, p.calls, p.bytes, 7 * NAMES)
    }

    lemma HelpedPass(held: seq<Option<string>>)
      requires Valid() && remaining >= RESERVE && calls <= WORK_CALLS && Helped(Here(), held)
      ensures PassRun(W(), Here(), attempted, createRejected).1
    {
      HonestPassSucceeds(W(), Here(), attempted, createRejected, held);
    }
  }
}
