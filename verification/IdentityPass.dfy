/** What a cleanup of containers asks of a daemon and does with its answers, as a function of the daemon; and when it succeeds. */
module IdentityPass {
  import opened Outcome
  import opened Json
  import opened Numerals
  import opened Identifiers

  const OWNER := "io.dockerlens.native-run"

  datatype Call =
    | Version
    | Info
    | Inspect(key: string)
    | Create(name: string)
    | Start(id: string)
    | Delete(id: string)
    | CliCreate(name: string)
    | CliStart(id: string)
    | CliWait(id: string)
    | CliLogs(id: string)

  /** What a call comes back with: an answer, a command's exit code and output, or nothing usable. */
  datatype Reply = Lost | Answered(status: nat, body: Json) | Exited(code: Option<int>, output: string)

  datatype Event = Event(call: Call, reply: Reply)

  /** Calls that go over the socket, as opposed to the daemon's command line. */
  predicate OverSocket(call: Call) {
    call.Version? || call.Inspect? || call.Create? || call.Start? || call.Delete?
  }

  /** The daemon may answer anything, depending on everything it was asked before. */
  type Daemon = (seq<Event>, Call) -> Reply

  function Labels(inspected: Json): Json {
    match inspected.Get("Config")
    case None => Null
    case Some(config) => config.Get("Labels").GetOr(Null)
  }

  /** The inspected body has a canonical ID, the expected one if any, and the exact name and owner label. */
  predicate Owned(inspected: Json, id: Option<string>, name: string, run: string) {
    && (match inspected.GetStr("Id")
        case None => false
        case Some(actual) => Canonical(actual) && (id.None? || id.value == actual))
    && inspected.GetStr("Name") == Some("/" + name)
    && Labels(inspected).GetStr(OWNER) == Some(run)
  }

  // ---- the command budget ----

  /** The seconds a command may run, in a budget of milliseconds; nothing when none are left outside the reserve. */
  function CommandSeconds(remaining: nat, cleanup: bool): Option<nat> {
    var reserved := if cleanup then 1000 else 41000;
    if remaining < reserved then None
    else
      var whole := (remaining - reserved) / 1000;
      var seconds := if whole < 10 then whole else 10;
      if seconds > 0 then Some(seconds) else None
  }

  /** A command that keeps its timeout and one second of kill grace leaves forty seconds for cleanup, and is refused only when no
      whole second fits. */
  lemma CommandKeepsReserve(remaining: nat, cleanup: bool)
    ensures match CommandSeconds(remaining, cleanup)
      case Some(seconds) =>
        1 <= seconds <= 10 && remaining - 1000 * (seconds + 1) >= (if cleanup then 0 else 40000)
        && (seconds < 10 ==> remaining - 1000 * (seconds + 2) < (if cleanup then 0 else 40000))
      case None => remaining - 1000 * 2 < (if cleanup then 0 else 40000)
  {
  }

  /** What a command takes and prints. */
  datatype Cost = Cost(duration: nat, size: nat)

  const NAMES := 20
  const MAX_CALLS := 400
  const MAX_BYTES := 1024 * 1024
  const WORK_CALLS := 142
  const RESERVE := 40000
  const API_CAP := 65550 + 8192
  const CLI_CAP := 8192 + 8192
  const LONGEST := 10000

  /** What `n` commands take and print, from the `k`-th command on. */
  function Time(costs: nat -> Cost, k: nat, n: nat): nat
    decreases n
  {
    if n == 0 then 0 else costs(k).duration + Time(costs, k + 1, n - 1)
  }

  function Size(costs: nat -> Cost, k: nat, n: nat): nat
    decreases n
  {
    if n == 0 then 0 else costs(k).size + Size(costs, k + 1, n - 1)
  }

  /** Number, output and time have room for the next `n` commands of a cleanup, and none of them runs into its own limits. */
  ghost predicate Fits(costs: nat -> Cost, calls: nat, bytes: nat, remaining: nat, n: nat) {
    && calls + n <= MAX_CALLS && bytes + Size(costs, calls, n) <= MAX_BYTES && remaining >= 2000 + Time(costs, calls, n)
    && forall k :: calls <= k < calls + n ==> costs(k).duration <= LONGEST && costs(k).size <= API_CAP
  }

  /** The next `n` commands fit the reserve and the output that is left. */
  ghost predicate Brief(costs: nat -> Cost, calls: nat, bytes: nat, n: nat) {
    && bytes + Size(costs, calls, n) <= MAX_BYTES && 2000 + Time(costs, calls, n) <= RESERVE
    && forall k :: calls <= k < calls + n ==> costs(k).duration <= LONGEST && costs(k).size <= API_CAP
  }

  lemma {:induction false} FitsLess(costs: nat -> Cost, calls: nat, bytes: nat, remaining: nat, n: nat, m: nat)
    requires Fits(costs, calls, bytes, remaining, n) && m <= n
    ensures Fits(costs, calls, bytes, remaining, m)
  {
    TotalsGrow(costs, calls, m, n);
  }

  lemma {:induction false} TotalsGrow(costs: nat -> Cost, k: nat, m: nat, n: nat)
    requires m <= n
    ensures Time(costs, k, m) <= Time(costs, k, n) && Size(costs, k, m) <= Size(costs, k, n)
    decreases m
  {
    if m > 0 { TotalsGrow(costs, k + 1, m - 1, n - 1); }
  }

  // ---- the cleanup, step by step ----

  /** The daemon, what its commands cost, and the names and label of the run. */
  datatype World = World(daemon: Daemon, costs: nat -> Cost, names: seq<string>, run: string)

  /** Where a run stands: what it asked and registered, and what it may still spend. */
  datatype Point = Point(trace: seq<Event>, ids: seq<Option<string>>, remaining: nat, calls: nat, bytes: nat) {
    ghost predicate Room(costs: nat -> Cost, n: nat) {
      Fits(costs, calls, bytes, remaining, n)
    }
  }

  /** The closed routes: known keys may be read, known IDs started or deleted, and allow-listed names created. */
  predicate Routed(names: seq<string>, ids: seq<Option<string>>, call: Call) {
    match call
    case Version => true
    case Inspect(key) => key in names || Some(key) in ids
    case Create(name) => name in names
    case Start(id) => Some(id) in ids
    case Delete(id) => Some(id) in ids
    case _ => false
  }

  /** A call over the socket that was let through for so many seconds: killed a second after them, and fatal when it prints too much. */
  function PlayRun(w: World, p: Point, call: Call, seconds: nat): (Point, Reply) {
    var cost := w.costs(p.calls);
    var elapsed, bytes := Min(cost.duration, 1000 * (seconds + 1)), p.bytes + Min(cost.size, API_CAP);
    var killed := cost.duration > 1000 * seconds;
    var reply := if killed || cost.size > API_CAP || bytes > MAX_BYTES then Lost else w.daemon(p.trace, call);
    (Point(p.trace + [Event(call, reply)], p.ids, Left(p.remaining, elapsed), p.calls + 1, bytes), reply)
  }

  /** A call over the socket during a cleanup: refused near the deadline and beyond the count. */
  function AskRun(w: World, p: Point, call: Call): (Point, Reply) {
    var seconds := CommandSeconds(p.remaining, true);
    if seconds.None? then (p, Lost)
    else if p.calls + 1 > MAX_CALLS then (p.(calls := p.calls + 1), Lost)
    else PlayRun(w, p, call, seconds.value)
  }

  function Left(remaining: nat, elapsed: nat): nat {
    if elapsed <= remaining then remaining - elapsed else 0
  }

  function ApiRun(w: World, p: Point, call: Call): (Point, Option<(nat, Json)>) {
    if !Routed(w.names, p.ids, call) then (p, None)
    else
      var (next, reply) := AskRun(w, p, call);
      (next, if reply.Answered? then Some((reply.status, reply.body)) else None)
  }

  datatype Identified = Identified(point: Point, answer: Option<bool>, claimed: bool)

  /** Read by name: absence is judged by the ledger, and what is this run's own and no other name's is claimed. */
  function IdentifyRun(w: World, p: Point, rejected: seq<bool>, index: nat): (x: Identified)
    requires index < |w.names| == |p.ids| == |rejected|
    ensures |x.point.ids| == |p.ids| && (x.claimed ==> x.point.ids[index].Some?)
  {
    var (next, read) := ApiRun(w, p, Inspect(w.names[index]));
    if read.None? then Identified(next, None, false)
    else
      var (status, inspected) := read.value;
      if status == 404 then Identified(next, Some(p.ids[index].Some? || rejected[index]), false)
      else if status != 200 || !Owned(inspected, p.ids[index], w.names[index], w.run) then Identified(next, Some(false), false)
      else
        var id := inspected.GetStr("Id").value;
        if exists other :: 0 <= other < |p.ids| && other != index && p.ids[other] == Some(id) then Identified(next, Some(false), false)
        else Identified(next.(ids := p.ids[index := Some(id)]), None, true)
  }

  /** Revalidate the registered ID immediately before the removal, which goes by ID only. */
  function RegisteredRun(w: World, p: Point, rejected: seq<bool>, index: nat): (x: (Point, Option<bool>))
    requires index < |w.names| == |p.ids| == |rejected| && p.ids[index].Some?
    ensures x.0.ids == p.ids
  {
    var id := p.ids[index].value;
    var (found, again) := ApiRun(w, p, Inspect(id));
    if again.None? then (found, None)
    else if again.value.0 != 200 || !Owned(again.value.1, Some(id), w.names[index], w.run) then (found, Some(false))
    else
      var (next, deleted) := ApiRun(w, found, Delete(id));
      (next, if deleted.None? then None else Some(deleted.value.0 == 204 && !rejected[index]))
  }

  function OwnedRun(w: World, p: Point, rejected: seq<bool>, index: nat): (x: (Point, Option<bool>))
    requires index < |w.names| == |p.ids| == |rejected|
    ensures |x.0.ids| == |p.ids|
  {
    var found := IdentifyRun(w, p, rejected, index);
    if !found.claimed then (found.point, found.answer) else RegisteredRun(w, found.point, rejected, index)
  }

  /** What follows one name more; a failure before does not end it. */
  function NextRun(w: World, so: (Point, bool), attempted: seq<bool>, rejected: seq<bool>, k: nat): (x: (Point, bool))
    requires k < |w.names| == |so.0.ids| == |attempted| == |rejected|
    ensures |x.0.ids| == |so.0.ids|
  {
    if !attempted[k] then so
    else
      var (next, removed) := OwnedRun(w, so.0, rejected, k);
      (next, so.1 && removed == Some(true))
  }

  /** Remove what was attempted under the first `k` names; one failure does not hide the others. */
  function RemovalsRun(w: World, p: Point, attempted: seq<bool>, rejected: seq<bool>, k: nat): (x: (Point, bool))
    requires k <= |w.names| == |p.ids| == |attempted| == |rejected|
    ensures |x.0.ids| == |p.ids|
  {
    if k == 0 then (p, true) else NextRun(w, RemovalsRun(w, p, attempted, rejected, k - 1), attempted, rejected, k - 1)
  }

  function AbsentRun(w: World, p: Point, key: string): (x: (Point, Option<bool>))
    ensures x.0.ids == p.ids
  {
    var (next, read) := ApiRun(w, p, Inspect(key));
    (next, if read.None? then None else Some(read.value.0 == 404))
  }

  /** Read the name, and the ID if one is known; `true` when neither was found. */
  function AbsenceRun(w: World, p: Point, rejected: seq<bool>, index: nat): (x: (Point, Option<bool>))
    requires index < |w.names| == |p.ids| == |rejected|
    ensures x.0.ids == p.ids
  {
    var (named, first) := AbsentRun(w, p, w.names[index]);
    if first.None? then (named, None)
    else if p.ids[index].None? then (named, Some(first.value && rejected[index]))
    else
      var (next, second) := AbsentRun(w, named, p.ids[index].value);
      (next, if second.None? then None else Some(first.value && second.value))
  }

  /** Read everything attempted under the first `k` names absent. */
  function RoundRun(w: World, p: Point, attempted: seq<bool>, rejected: seq<bool>, k: nat): (x: (Point, bool))
    requires k <= |w.names| == |p.ids| == |attempted| == |rejected|
    ensures x.0.ids == p.ids
  {
    if k == 0 then (p, true)
    else
      var (earlier, all) := RoundRun(w, p, attempted, rejected, k - 1);
      if !attempted[k - 1] then (earlier, all)
      else
        var (next, absent) := AbsenceRun(w, earlier, rejected, k - 1);
        (next, all && absent == Some(true))
  }

  /** Remove everything attempted, then read every name and known ID absent twice. */
  function PassRun(w: World, p: Point, attempted: seq<bool>, rejected: seq<bool>): (x: (Point, bool))
    requires |w.names| == |p.ids| == |attempted| == |rejected|
    ensures |x.0.ids| == |p.ids|
  {
    var (removed, all) := RemovalsRun(w, p, attempted, rejected, |w.names|);
    var (once, first) := RoundRun(w, removed, attempted, rejected, |w.names|);
    var (twice, second) := RoundRun(w, once, attempted, rejected, |w.names|);
    (twice, all && first && second)
  }

  // ---- a daemon that tells the truth ----

  predicate Deleted(trace: seq<Event>, id: string) {
    exists k :: 0 <= k < |trace| && trace[k].call == Delete(id)
  }

  lemma DeletedMore(trace: seq<Event>, e: Event)
    ensures forall id :: Deleted(trace + [e], id) <==> Deleted(trace, id) || e.call == Delete(id)
  {
    forall id ensures Deleted(trace + [e], id) <==> Deleted(trace, id) || e.call == Delete(id) {
      if Deleted(trace, id) {
        var k :| 0 <= k < |trace| && trace[k].call == Delete(id);
        assert (trace + [e])[k].call == Delete(id);
      }
      if e.call == Delete(id) { assert (trace + [e])[|trace|].call == Delete(id); }
    }
  }

  /** The container that was there under the name has not been deleted since. */
  predicate Stands(trace: seq<Event>, held: seq<Option<string>>, i: nat) {
    i < |held| && held[i].Some? && !Deleted(trace, held[i].value)
  }

  predicate Finds(reply: Reply, id: string, name: string, run: string) {
    reply.Answered? && reply.status == 200 && Owned(reply.body, Some(id), name, run)
  }

  /** The key is neither name nor ID of a container that stands. */
  ghost predicate Unknown(trace: seq<Event>, names: seq<string>, held: seq<Option<string>>, key: string)
    requires |held| == |names|
  {
    forall i :: 0 <= i < |held| && Stands(trace, held, i) ==> key != names[i] && held[i] != Some(key)
  }

  /** What stands is found as this run's own by name and by ID, and its removal is confirmed; nothing else is found. */
  ghost predicate HonestAt(daemon: Daemon, names: seq<string>, run: string, held: seq<Option<string>>, trace: seq<Event>)
    requires |held| == |names|
  {
    && (forall i :: 0 <= i < |held| && Stands(trace, held, i) ==>
          && Finds(daemon(trace, Inspect(names[i])), held[i].value, names[i], run)
          && Finds(daemon(trace, Inspect(held[i].value)), held[i].value, names[i], run)
          && var deleted := daemon(trace, Delete(held[i].value)); deleted.Answered? && deleted.status == 204)
    && (forall key :: Unknown(trace, names, held, key) ==>
          var read := daemon(trace, Inspect(key)); read.Answered? && read.status == 404)
  }

  /** From here on the daemon answers so, where these containers are there now. */
  ghost predicate Honest(daemon: Daemon, names: seq<string>, run: string, held: seq<Option<string>>, base: seq<Event>) {
    |held| == |names| && forall trace :: base <= trace ==> HonestAt(daemon, names, run, held, trace)
  }

  /** What is there before the `k`-th removal: everything under the names before is deleted, nothing under the others; the ledger knows
      the containers by no wrong ID, and accounts for every attempted name under which nothing is there. */
  ghost predicate Agrees(names: seq<string>, held: seq<Option<string>>, ids: seq<Option<string>>, attempted: seq<bool>, rejected: seq<bool>,
                         trace: seq<Event>, k: nat) {
    && |names| == |held| == |ids| == |attempted| == |rejected|
    && (forall i, j :: 0 <= i < j < |names| ==> names[i] != names[j])
    && (forall i, j :: 0 <= i < |names| && 0 <= j < |held| ==> held[j] != Some(names[i]))
    && (forall i, j :: 0 <= i < j < |held| && held[i].Some? ==> held[i] != held[j])
    && (forall i, j :: 0 <= i < |held| && 0 <= j < |ids| && i != j && held[i].Some? ==> ids[j] != held[i])
    && (forall i :: 0 <= i < |held| ==> Entry(held[i], ids[i], attempted[i], rejected[i]))
    && (forall i :: 0 <= i < |held| && held[i].Some? ==> (Deleted(trace, held[i].value) <==> i < k))
    && (forall i :: 0 <= i < k && i < |held| && attempted[i] ==> ids[i].Some? || rejected[i])
  }

  predicate Entry(held: Option<string>, id: Option<string>, attempted: bool, rejected: bool) {
    if held.Some? then attempted && !rejected && (id.None? || id == held) else attempted ==> id.Some? || rejected
  }

  /** Reading changes nothing, and neither does registering the ID that is there. */
  lemma AgreesMore(names: seq<string>, held: seq<Option<string>>, ids: seq<Option<string>>, attempted: seq<bool>, rejected: seq<bool>,
                   trace: seq<Event>, k: nat, e: Event)
    requires Agrees(names, held, ids, attempted, rejected, trace, k) && !e.call.Delete?
    ensures Agrees(names, held, ids, attempted, rejected, trace + [e], k)
  {
    DeletedMore(trace, e);
  }

  lemma AgreesNamed(names: seq<string>, held: seq<Option<string>>, ids: seq<Option<string>>, attempted: seq<bool>, rejected: seq<bool>,
                    trace: seq<Event>, k: nat)
    requires Agrees(names, held, ids, attempted, rejected, trace, k) && k < |held| && held[k].Some?
    ensures Agrees(names, held, ids[k := held[k]], attempted, rejected, trace, k)
  {
  }

  /** The confirmed removal of what is there under the `k`-th name, or the absence of anything there, takes the ledger one name on. */
  lemma AgreesNext(names: seq<string>, held: seq<Option<string>>, ids: seq<Option<string>>, attempted: seq<bool>, rejected: seq<bool>,
                   trace: seq<Event>, k: nat, e: Event)
    requires Agrees(names, held, ids, attempted, rejected, trace, k) && k < |held|
    requires held[k].Some? ==> ids[k] == held[k] && e.call == Delete(held[k].value)
    requires held[k].None? ==> !e.call.Delete?
    ensures Agrees(names, held, ids, attempted, rejected, trace + [e], k + 1)
  {
    DeletedMore(trace, e);
  }

  lemma NothingThere(names: seq<string>, held: seq<Option<string>>, ids: seq<Option<string>>, attempted: seq<bool>, rejected: seq<bool>,
                     trace: seq<Event>, k: nat)
    requires Agrees(names, held, ids, attempted, rejected, trace, k) && k < |held| && !attempted[k]
    ensures Agrees(names, held, ids, attempted, rejected, trace, k + 1)
  {
    assert Entry(held[k], ids[k], attempted[k], rejected[k]);
  }

  /** The ledger of attempts and refusals, and what was there when the cleanup began. */
  datatype Scene = Scene(attempted: seq<bool>, rejected: seq<bool>, held: seq<Option<string>>, base: seq<Event>)

  /** The daemon tells the truth about these containers, those under the first `k` names are deleted, and there is room for `n` calls. */
  ghost predicate Clearing(w: World, p: Point, s: Scene, k: nat, n: nat) {
    && Honest(w.daemon, w.names, w.run, s.held, s.base) && s.base <= p.trace && p.Room(w.costs, n)
    && Agrees(w.names, s.held, p.ids, s.attempted, s.rejected, p.trace, k)
  }

  /** With room for it, a call gets the daemon's answer. */
  lemma AskHeard(w: World, p: Point, call: Call, n: nat)
    requires p.Room(w.costs, n + 1)
    ensures var (next, reply) := AskRun(w, p, call);
      && reply == w.daemon(p.trace, call) && next.trace == p.trace + [Event(call, reply)] && next.ids == p.ids && next.Room(w.costs, n)
  {
    var k := p.calls;
    assert w.costs(k).duration <= LONGEST && w.costs(k).size <= API_CAP;
  }

  lemma LessRoom(w: World, p: Point, s: Scene, k: nat, n: nat, m: nat)
    requires Clearing(w, p, s, k, n) && m <= n
    ensures Clearing(w, p, s, k, m)
  {
    FitsLess(w.costs, p.calls, p.bytes, p.remaining, n, m);
  }

  /** What stands under the name is found and claimed; where nothing is, the ledger accounts for that. */
  lemma IdentifyFinds(w: World, p: Point, s: Scene, k: nat, n: nat)
    requires Clearing(w, p, s, k, n + 1) && k < |w.names| && s.attempted[k]
    ensures var x := IdentifyRun(w, p, s.rejected, k);
      if s.held[k].Some?
      then x.claimed && x.point.ids[k] == s.held[k] && Clearing(w, x.point, s, k, n)
      else !x.claimed && x.answer == Some(true) && Clearing(w, x.point, s, k + 1, n)
  {
    var name := w.names[k];
    var reply := w.daemon(p.trace, Inspect(name));
    AskHeard(w, p, Inspect(name), n);
    assert HonestAt(w.daemon, w.names, w.run, s.held, p.trace);
    AgreesMore(w.names, s.held, p.ids, s.attempted, s.rejected, p.trace, k, Event(Inspect(name), reply));
    if s.held[k].Some? {
      assert Stands(p.trace, s.held, k);
      AgreesNamed(w.names, s.held, p.ids, s.attempted, s.rejected, p.trace + [Event(Inspect(name), reply)], k);
    } else {
      assert Unknown(p.trace, w.names, s.held, name);
      AgreesNext(w.names, s.held, p.ids, s.attempted, s.rejected, p.trace, k, Event(Inspect(name), reply));
    }
  }

  lemma StandingFound(w: World, p: Point, s: Scene, k: nat, n: nat)
    requires Clearing(w, p, s, k, n + 1) && k < |w.names| && s.held[k].Some? && p.ids[k] == s.held[k]
    ensures var (found, again) := ApiRun(w, p, Inspect(s.held[k].value));
      && again.Some? && again.value.0 == 200 && Owned(again.value.1, s.held[k], w.names[k], w.run)
      && found.ids == p.ids && Clearing(w, found, s, k, n)
  {
    var id := s.held[k].value;
    assert Stands(p.trace, s.held, k) && HonestAt(w.daemon, w.names, w.run, s.held, p.trace);
    AskHeard(w, p, Inspect(id), n);
    AgreesMore(w.names, s.held, p.ids, s.attempted, s.rejected, p.trace, k, Event(Inspect(id), w.daemon(p.trace, Inspect(id))));
  }

  lemma StandingDeleted(w: World, p: Point, s: Scene, k: nat, n: nat)
    requires Clearing(w, p, s, k, n + 1) && k < |w.names| && s.held[k].Some? && p.ids[k] == s.held[k]
    ensures var (next, deleted) := ApiRun(w, p, Delete(s.held[k].value));
      && deleted.Some? && deleted.value.0 == 204 && !s.rejected[k] && Clearing(w, next, s, k + 1, n)
  {
    var id := s.held[k].value;
    assert Stands(p.trace, s.held, k) && HonestAt(w.daemon, w.names, w.run, s.held, p.trace);
    AskHeard(w, p, Delete(id), n);
    AgreesNext(w.names, s.held, p.ids, s.attempted, s.rejected, p.trace, k, Event(Delete(id), w.daemon(p.trace, Delete(id))));
  }

  lemma RegisteredRemoved(w: World, p: Point, s: Scene, k: nat, n: nat)
    requires Clearing(w, p, s, k, n + 2) && k < |w.names| && s.held[k].Some? && p.ids[k] == s.held[k]
    ensures var x := RegisteredRun(w, p, s.rejected, k);
      x.1 == Some(true) && Clearing(w, x.0, s, k + 1, n)
  {
    StandingFound(w, p, s, k, n + 1);
    StandingDeleted(w, ApiRun(w, p, Inspect(s.held[k].value)).0, s, k, n);
  }

  lemma OwnedRemoved(w: World, p: Point, s: Scene, k: nat, n: nat)
    requires Clearing(w, p, s, k, n + 3) && k < |w.names| && s.attempted[k]
    ensures var x := OwnedRun(w, p, s.rejected, k);
      x.1 == Some(true) && Clearing(w, x.0, s, k + 1, n)
  {
    IdentifyFinds(w, p, s, k, n + 2);
    var found := IdentifyRun(w, p, s.rejected, k).point;
    if s.held[k].Some? {
      RegisteredRemoved(w, found, s, k, n);
    } else {
      LessRoom(w, found, s, k + 1, n + 2, n);
    }
  }

  /** One more name of the removals. */
  lemma NextRemoved(w: World, p: Point, s: Scene, k: nat, n: nat)
    requires Clearing(w, p, s, k, n + 3) && k < |w.names|
    ensures var x := NextRun(w, (p, true), s.attempted, s.rejected, k); x.1 && Clearing(w, x.0, s, k + 1, n)
  {
    if s.attempted[k] {
      OwnedRemoved(w, p, s, k, n);
    } else {
      LessRoom(w, p, s, k, n + 3, n);
      NothingThere(w.names, s.held, p.ids, s.attempted, s.rejected, p.trace, k);
    }
  }

  lemma {:induction false} RemovalsClear(w: World, p: Point, s: Scene, k: nat, n: nat)
    requires Clearing(w, p, s, 0, 3 * k + n) && k <= |w.names|
    ensures var x := RemovalsRun(w, p, s.attempted, s.rejected, k); x.1 && Clearing(w, x.0, s, k, n)
    decreases k
  {
    hide NextRun, Honest, Fits;
    if k > 0 {
      RemovalsClear(w, p, s, k - 1, n + 3);
      var earlier := RemovalsRun(w, p, s.attempted, s.rejected, k - 1);
      NextRemoved(w, earlier.0, s, k - 1, n);
      assert earlier == (earlier.0, true);
    }
  }

  /** When everything is deleted, no key is found. */
  lemma AbsentHeard(w: World, p: Point, s: Scene, key: string, n: nat)
    requires Clearing(w, p, s, |w.names|, n + 1) && (key in w.names || Some(key) in p.ids)
    ensures var x := AbsentRun(w, p, key); x.1 == Some(true) && Clearing(w, x.0, s, |w.names|, n)
  {
    assert HonestAt(w.daemon, w.names, w.run, s.held, p.trace);
    assert Unknown(p.trace, w.names, s.held, key);
    AskHeard(w, p, Inspect(key), n);
    AgreesMore(w.names, s.held, p.ids, s.attempted, s.rejected, p.trace, |w.names|, Event(Inspect(key), w.daemon(p.trace, Inspect(key))));
  }

  lemma AbsenceHeard(w: World, p: Point, s: Scene, k: nat, n: nat)
    requires Clearing(w, p, s, |w.names|, n + 2) && k < |w.names| && s.attempted[k]
    ensures var x := AbsenceRun(w, p, s.rejected, k); x.1 == Some(true) && Clearing(w, x.0, s, |w.names|, n)
  {
    AbsentHeard(w, p, s, w.names[k], n + 1);
    var named := AbsentRun(w, p, w.names[k]).0;
    if p.ids[k].None? {
      LessRoom(w, named, s, |w.names|, n + 1, n);
    } else {
      AbsentHeard(w, named, s, p.ids[k].value, n);
    }
  }

  /** One more name of a round. */
  lemma NextHeard(w: World, p: Point, s: Scene, k: nat, n: nat)
    requires Clearing(w, p, s, |w.names|, n + 2) && k < |w.names|
    ensures s.attempted[k] ==> var x := AbsenceRun(w, p, s.rejected, k); x.1 == Some(true) && Clearing(w, x.0, s, |w.names|, n)
    ensures !s.attempted[k] ==> Clearing(w, p, s, |w.names|, n)
  {
    if s.attempted[k] { AbsenceHeard(w, p, s, k, n); } else { LessRoom(w, p, s, |w.names|, n + 2, n); }
  }

  lemma {:induction false} RoundHeard(w: World, p: Point, s: Scene, k: nat, n: nat)
    requires Clearing(w, p, s, |w.names|, 2 * k + n) && k <= |w.names|
    ensures var x := RoundRun(w, p, s.attempted, s.rejected, k); x.1 && Clearing(w, x.0, s, |w.names|, n)
    decreases k
  {
    if k == 0 {
      LessRoom(w, p, s, |w.names|, 2 * k + n, n);
    } else {
      RoundHeard(w, p, s, k - 1, n + 2);
      NextHeard(w, RoundRun(w, p, s.attempted, s.rejected, k - 1).0, s, k - 1, n);
    }
  }

  lemma RoundsHeard(w: World, p: Point, s: Scene)
    requires Clearing(w, p, s, |w.names|, 4 * |w.names|)
    ensures var first := RoundRun(w, p, s.attempted, s.rejected, |w.names|);
      first.1 && RoundRun(w, first.0, s.attempted, s.rejected, |w.names|).1
  {
    RoundHeard(w, p, s, |w.names|, 2 * |w.names|);
    RoundHeard(w, RoundRun(w, p, s.attempted, s.rejected, |w.names|).0, s, |w.names|, 0);
  }

  lemma PassClears(w: World, p: Point, s: Scene)
    requires Clearing(w, p, s, 0, 7 * |w.names|)
    ensures PassRun(w, p, s.attempted, s.rejected).1
  {
    RemovalsClear(w, p, s, |w.names|, 4 * |w.names|);
    RoundsHeard(w, RemovalsRun(w, p, s.attempted, s.rejected, |w.names|).0, s);
  }

  /** With room for seven calls for each name, a daemon that tells the truth about what is there makes a cleanup succeed. */
  lemma HonestPassSucceeds(w: World, p: Point, attempted: seq<bool>, rejected: seq<bool>, held: seq<Option<string>>)
    requires Honest(w.daemon, w.names, w.run, held, p.trace) && p.Room(w.costs, 7 * |w.names|)
    requires Agrees(w.names, held, p.ids, attempted, rejected, p.trace, 0)
    ensures PassRun(w, p, attempted, rejected).1
  {
    PassClears(w, p, Scene(attempted, rejected, held, p.trace));
  }

  // ---- such daemons exist ----

  /** The last of the first `n` containers that stands and goes by the key. */
  function Which(trace: seq<Event>, names: seq<string>, held: seq<Option<string>>, key: string, n: nat): (i: Option<nat>)
    requires n <= |held| == |names|
    ensures i.Some? ==> i.value < n && Stands(trace, held, i.value) && (key == names[i.value] || held[i.value] == Some(key))
    ensures i.None? ==> forall j :: 0 <= j < n && Stands(trace, held, j) ==> key != names[j] && held[j] != Some(key)
  {
    if n == 0 then None
    else if Stands(trace, held, n - 1) && (key == names[n - 1] || held[n - 1] == Some(key)) then Some(n - 1)
    else Which(trace, names, held, key, n - 1)
  }

  /** What a container that the run created reads back as. */
  function Body(id: string, name: string, run: string): (body: Json)
    ensures Canonical(id) ==> Owned(body, Some(id), name, run)
  {
    Obj(map["Id" := Str(id), "Name" := Str("/" + name), "Config" := Obj(map["Labels" := Obj(map[OWNER := Str(run)])])])
  }

  function Truthful(names: seq<string>, run: string, held: seq<Option<string>>): Daemon
    requires |held| == |names|
  {
    (trace: seq<Event>, call: Call) =>
      match call
      case Inspect(key) =>
        (match Which(trace, names, held, key, |held|)
         case None => Answered(404, Null)
         case Some(i) => Answered(200, Body(held[i].GetOr(""), names[i], run)))
      case Delete(_) => Answered(204, Null)
      case _ => Lost
  }

  /** The names and IDs of containers do not clash. */
  ghost predicate Separate(names: seq<string>, held: seq<Option<string>>) {
    && |held| == |names|
    && (forall i :: 0 <= i < |held| && held[i].Some? ==> Canonical(held[i].value))
    && (forall i, j :: 0 <= i < j < |names| ==> names[i] != names[j])
    && (forall i, j :: 0 <= i < |names| && 0 <= j < |held| ==> held[j] != Some(names[i]))
    && (forall i, j :: 0 <= i < j < |held| && held[i].Some? ==> held[i] != held[j])
  }

  lemma WhichStands(trace: seq<Event>, names: seq<string>, held: seq<Option<string>>, i: nat)
    requires Separate(names, held) && Stands(trace, held, i)
    ensures Which(trace, names, held, names[i], |held|) == Some(i) && Which(trace, names, held, held[i].value, |held|) == Some(i)
  {
  }

  lemma TruthfulFinds(names: seq<string>, run: string, held: seq<Option<string>>, trace: seq<Event>, i: nat)
    requires Separate(names, held) && Stands(trace, held, i)
    ensures var daemon := Truthful(names, run, held); var deleted := daemon(trace, Delete(held[i].value));
      && Finds(daemon(trace, Inspect(names[i])), held[i].value, names[i], run)
      && Finds(daemon(trace, Inspect(held[i].value)), held[i].value, names[i], run)
      && deleted.Answered? && deleted.status == 204
  {
    WhichStands(trace, names, held, i);
  }

  lemma TruthfulMisses(names: seq<string>, run: string, held: seq<Option<string>>, trace: seq<Event>, key: string)
    requires |held| == |names| && Unknown(trace, names, held, key)
    ensures Truthful(names, run, held)(trace, Inspect(key)) == Answered(404, Null)
  {
    assert Which(trace, names, held, key, |held|).None?;
  }

  /** Whatever is there, under distinct names and IDs, some daemon tells the truth about it. */
  lemma TruthfulIsHonest(names: seq<string>, run: string, held: seq<Option<string>>, base: seq<Event>)
    requires Separate(names, held)
    ensures Honest(Truthful(names, run, held), names, run, held, base)
  {
    forall trace ensures HonestAt(Truthful(names, run, held), names, run, held, trace) {
      forall i: nat | i < |held| && Stands(trace, held, i)
        ensures var daemon := Truthful(names, run, held); var deleted := daemon(trace, Delete(held[i].value));
          && Finds(daemon(trace, Inspect(names[i])), held[i].value, names[i], run)
          && Finds(daemon(trace, Inspect(held[i].value)), held[i].value, names[i], run)
          && deleted.Answered? && deleted.status == 204
      {
        TruthfulFinds(names, run, held, trace, i);
      }
      forall key | Unknown(trace, names, held, key) ensures Truthful(names, run, held)(trace, Inspect(key)) == Answered(404, Null) {
        TruthfulMisses(names, run, held, trace, key);
      }
    }
  }
}
