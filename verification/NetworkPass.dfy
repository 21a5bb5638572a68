/** What one cleanup does and spends, as a function of the daemon's turns; and when it runs out of time. */
module NetworkPass {
  import opened Outcome
  import opened Numerals
  import opened Identifiers
  import opened NetworkReserve
  import opened NetworkDaemon

  // ---- one cleanup, step by step ----

  /** Nothing is live any more. */
  function NoneLive(rs: seq<Resource>): (now: seq<Resource>)
    ensures |now| == |rs| && forall i :: 0 <= i < |rs| ==> now[i] == rs[i].(live := false)
  {
    seq(|rs|, i requires 0 <= i < |rs| => rs[i].(live := false))
  }

  /** What a cleanup draws on, how many turns were played, and whether it was ever refused: for time, or for calls or output. */
  datatype Meter = Meter(remaining: nat, turn: nat, calls: nat, bytes: nat, late: bool, refused: bool)

  /** A cleanup command. It refuses to start in the last two seconds, which `late` records, and beyond the call budget or without room
      for both its streams, which `refused` records. */
  function Command(turns: nat -> Turn, m: Meter, cap: nat): (Meter, Option<Turn>) {
    if m.remaining <= 2000 then (m.(late := true), None)
    else if m.calls + 1 > MAX_CLEANUP_CALLS || !OutputCapacity(m.bytes, cap) then (m.(calls := m.calls + 1, refused := true), None)
    else
      var played := turns(m.turn);
      var retained := Min(played.retained, 2 * cap);
      var next := m.(remaining := m.remaining - Min(played.duration, CLEANUP_BOUND), turn := m.turn + 1,
                     calls := m.calls + 1, bytes := m.bytes + retained);
      (next, if next.bytes > OUTPUT_BUDGET || retained < played.retained || !played.completes then None else Some(played))
  }

  /** The outer container is still this run's own; the error stream has to be empty, so at most one stream's cap is retained. */
  function SnapshotRun(turns: nat -> Turn, m: Meter): (Meter, bool) {
    var (next, played) := Command(turns, m, PODMAN_CAP);
    (next, played.Some? && played.value.retained <= PODMAN_CAP && played.value.parses && played.value.owned)
  }

  datatype Removed = Removed(meter: Meter, resource: Resource, ok: bool)

  /** Remove one live resource after reading it back as this run's own. */
  function RemovalRun(turns: nat -> Turn, m: Meter, r: Resource): Removed {
    var (found, read) := Command(turns, m, API_CAP);
    if read.None? || !read.value.parses then Removed(found, r, false)
    else if read.value.status == 404 then
      if r.id.Some? then Removed(found, r, false) else Removed(found, r.(deleted := true), true)
    else if read.value.status != 200 || !Authentic(r, read.value) then Removed(found, r, false)
    else
      var known := r.(id := read.value.id);
      var (next, deleted) := Command(turns, found, API_CAP);
      if deleted.None? || deleted.value.status != 204 then Removed(next, known, false)
      else Removed(next, known.(deleted := true), true)
  }

  datatype Swept = Swept(meter: Meter, resources: seq<Resource>, ok: bool) {
    /** What is known of the resources afterwards: none is live any more when all went well. */
    function Left(): seq<Resource> {
      if ok then NoneLive(resources) else resources
    }
  }

  /** Remove what is live, newest first; one failure does not hide the others. */
  function RemovalsRun(turns: nat -> Turn, m: Meter, rs: seq<Resource>): (s: Swept)
    ensures |s.resources| == |rs|
    decreases rs
  {
    if rs == [] then Swept(m, [], true)
    else
      var front, r := rs[..|rs| - 1], rs[|rs| - 1];
      if Removal(r) == 0 then
        var s := RemovalsRun(turns, m, front);
        Swept(s.meter, s.resources + [r], s.ok)
      else
        var x := RemovalRun(turns, m, r);
        var s := RemovalsRun(turns, x.meter, front);
        Swept(s.meter, s.resources + [x.resource], s.ok && x.ok)
  }

  /** Read a name, and then a known ID, as absent; the first that is not ends the check. */
  function AbsenceRun(turns: nat -> Turn, m: Meter, r: Resource): (Meter, bool) {
    var (named, read) := Command(turns, m, API_CAP);
    if read.None? || read.value.status != 404 then (named, false)
    else if r.id.None? then (named, true)
    else
      var (next, identified) := Command(turns, named, API_CAP);
      (next, identified.Some? && identified.value.status == 404)
  }

  /** Read every name and every known ID absent, oldest first. */
  function RoundRun(turns: nat -> Turn, m: Meter, rs: seq<Resource>): (Meter, bool) {
    if rs == [] then (m, true)
    else
      var earlier := RoundRun(turns, m, rs[..|rs| - 1]);
      var now := AbsenceRun(turns, earlier.0, rs[|rs| - 1]);
      (now.0, earlier.1 && now.1)
  }

  /** The snapshot, the removals, and two absence rounds. */
  function PassRun(turns: nat -> Turn, m: Meter, rs: seq<Resource>): (s: Swept)
    ensures |s.resources| == |rs|
  {
    var (taken, known) := SnapshotRun(turns, m);
    if !known then Swept(taken, rs, false)
    else
      var removed := RemovalsRun(turns, taken, rs);
      var first := RoundRun(turns, removed.meter, removed.resources);
      var second := RoundRun(turns, first.0, removed.resources);
      Swept(second.0, removed.resources, removed.ok && first.1 && second.1)
  }

  // ---- what happens to the resources ----

  lemma RemovalEvolves(turns: nat -> Turn, m: Meter, r: Resource)
    requires Removal(r) == 2
    ensures Evolved(r, RemovalRun(turns, m, r).resource)
    ensures RemovalRun(turns, m, r).ok ==> RemovalRun(turns, m, r).resource.deleted
  {
  }

  lemma {:induction false} RemovalsEvolve(turns: nat -> Turn, m: Meter, rs: seq<Resource>)
    ensures AllEvolved(rs, RemovalsRun(turns, m, rs).resources)
    ensures RemovalsRun(turns, m, rs).ok ==>
      forall i :: 0 <= i < |rs| && rs[i].live ==> RemovalsRun(turns, m, rs).resources[i].deleted
    decreases rs
  {
    if rs != [] {
      var front, r := rs[..|rs| - 1], rs[|rs| - 1];
      if Removal(r) == 0 {
        RemovalsEvolve(turns, m, front);
      } else {
        RemovalEvolves(turns, m, r);
        RemovalsEvolve(turns, RemovalRun(turns, m, r).meter, front);
      }
    }
  }

  lemma SomeLeft(rs: seq<Resource>)
    ensures RoundOf(NoneLive(rs)) == RoundOf(rs) && Live(NoneLive(rs)) == 0
    ensures UniqueNames(rs) ==> UniqueNames(NoneLive(rs))
  {
    SameRounds(rs, NoneLive(rs));
    if UniqueNames(rs) { SameNames(rs, NoneLive(rs)); }
  }

  lemma {:induction false} RemovalsKeepCanonical(turns: nat -> Turn, m: Meter, rs: seq<Resource>)
    requires CanonicalIds(rs)
    ensures CanonicalIds(RemovalsRun(turns, m, rs).resources)
    decreases rs
  {
    if rs != [] {
      var front, r := rs[..|rs| - 1], rs[|rs| - 1];
      RemovalsKeepCanonical(turns, if Removal(r) == 0 then m else RemovalRun(turns, m, r).meter, front);
    }
  }

  lemma PassKeeps(turns: nat -> Turn, m: Meter, rs: seq<Resource>)
    requires CanonicalIds(rs)
    ensures var s := PassRun(turns, m, rs);
      && AllEvolved(rs, s.resources) && Live(s.resources) == Live(rs) && CanonicalIds(s.resources)
      && (UniqueNames(rs) ==> UniqueNames(s.resources))
      && (s.ok ==> forall i :: 0 <= i < |rs| && rs[i].live ==> s.resources[i].deleted)
  {
    var taken := SnapshotRun(turns, m).0;
    RemovalsEvolve(turns, taken, rs);
    RemovalsKeepCanonical(turns, taken, rs);
    LiveKept(rs, PassRun(turns, m, rs).resources);
  }

  /** What a pass leaves of the resources: the same names, and after success none of them live and all that were live deleted. */
  lemma PassLeaves(turns: nat -> Turn, m: Meter, rs: seq<Resource>)
    requires CanonicalIds(rs) && UniqueNames(rs)
    ensures var s := PassRun(turns, m, rs); var left := s.Left();
      && |left| == |rs| && CanonicalIds(left) && UniqueNames(left) && Live(left) <= Live(rs) && RoundOf(left) == RoundOf(s.resources)
      && (s.ok ==> Live(left) == 0)
      && (s.ok ==> forall i :: 0 <= i < |rs| ==> !left[i].live && (rs[i].live ==> left[i].deleted))
  {
    PassKeeps(turns, m, rs);
    SomeLeft(PassRun(turns, m, rs).resources);
  }

  // ---- what a stretch of it spends ----

  /** Time enough for `calls` more cleanup calls. */
  predicate Enough(remaining: nat, calls: int) {
    calls > 0 ==> remaining > 1000 * (calls - 1) + 2000
  }

  /** So many calls at most, each of a second at most, with so much output at most; none refused when there was room for all, and none
      started in the last two seconds. When `slow`, every command takes as long as it may. */
  predicate Spends(slow: bool, a: Meter, b: Meter, calls: nat, output: nat) {
    && a.calls <= b.calls <= a.calls + calls && a.bytes <= b.bytes <= a.bytes + output
    && b.remaining <= a.remaining <= b.remaining + 1000 * (b.calls - a.calls)
    && (a.late ==> b.late) && (a.refused ==> b.refused)
    && (Enough(a.remaining, calls) ==> b.late == a.late)
    && (a.calls + calls <= MAX_CLEANUP_CALLS && a.bytes + output <= OUTPUT_BUDGET ==> b.refused == a.refused)
    && (a.calls < b.calls ==> b.remaining > 1000)
    && (slow && !b.refused ==> a.remaining == b.remaining + 1000 * (b.calls - a.calls))
  }

  lemma SpendsBoth(slow: bool, a: Meter, b: Meter, c: Meter, n: nat, p: nat, m: nat, q: nat)
    requires Spends(slow, a, b, n, p) && Spends(slow, b, c, m, q)
    ensures Spends(slow, a, c, n + m, p + q)
  {
  }

  lemma SpendsLess(slow: bool, a: Meter, b: Meter, n: nat, p: nat, m: nat, q: nat)
    requires Spends(slow, a, b, n, p) && n <= m && p <= q
    ensures Spends(slow, a, b, m, q)
  {
  }

  /** API calls only. */
  predicate SpendsCalls(slow: bool, a: Meter, b: Meter, calls: nat) {
    Spends(slow, a, b, calls, calls * (2 * API_CAP))
  }

  lemma CallsBoth(slow: bool, a: Meter, b: Meter, c: Meter, n: nat, m: nat)
    requires SpendsCalls(slow, a, b, n) && SpendsCalls(slow, b, c, m)
    ensures SpendsCalls(slow, a, c, n + m)
  {
    SpendsBoth(slow, a, b, c, n, n * (2 * API_CAP), m, m * (2 * API_CAP));
  }

  lemma CallsLess(slow: bool, a: Meter, b: Meter, n: nat, m: nat)
    requires SpendsCalls(slow, a, b, n) && n <= m
    ensures SpendsCalls(slow, a, b, m)
  {
    SpendsLess(slow, a, b, n, n * (2 * API_CAP), m, m * (2 * API_CAP));
  }

  /** A slow stretch that took all its calls and was neither late nor refused began with time enough for them. */
  lemma AllTaken(a: Meter, b: Meter, calls: nat, output: nat)
    requires Spends(true, a, b, calls, output) && b.calls == a.calls + calls && calls > 0 && !b.refused
    ensures Enough(a.remaining, calls)
  {
  }

  /** After a snapshot that goes on, the rest of a pass is API calls. */
  lemma PassSpends(slow: bool, a: Meter, b: Meter, c: Meter, calls: nat)
    requires calls > 0 && Spends(slow, a, b, 1, 2 * PODMAN_CAP) && b.bytes <= a.bytes + PODMAN_CAP
    requires SpendsCalls(slow, b, c, calls - 1)
    ensures Spends(slow, a, c, calls, Retained(calls))
  {
  }

  lemma CommandSpends(turns: nat -> Turn, m: Meter, cap: nat)
    requires cap > 0
    ensures Spends(Slow(turns), m, Command(turns, m, cap).0, 1, 2 * cap)
  {
    var k := m.turn;
    assert Slow(turns) ==> turns(k).duration >= CLEANUP_BOUND;
  }

  lemma TwoCommandsSpend(turns: nat -> Turn, m: Meter)
    ensures SpendsCalls(Slow(turns), m, Command(turns, m, API_CAP).0, 1)
    ensures SpendsCalls(Slow(turns), m, Command(turns, m, API_CAP).0, 2)
    ensures SpendsCalls(Slow(turns), m, Command(turns, Command(turns, m, API_CAP).0, API_CAP).0, 2)
  {
    var one := Command(turns, m, API_CAP).0;
    var two := Command(turns, one, API_CAP).0;
    CommandSpends(turns, m, API_CAP);
    CommandSpends(turns, one, API_CAP);
    CallsLess(Slow(turns), m, one, 1, 2);
    CallsBoth(Slow(turns), m, one, two, 1, 1);
  }

  lemma RemovalSpends(turns: nat -> Turn, m: Meter, r: Resource)
    ensures SpendsCalls(Slow(turns), m, RemovalRun(turns, m, r).meter, 2)
  {
    TwoCommandsSpend(turns, m);
  }

  lemma AbsenceSpends(turns: nat -> Turn, m: Meter, r: Resource)
    ensures SpendsCalls(Slow(turns), m, AbsenceRun(turns, m, r).0, ReadsNow(r))
  {
    TwoCommandsSpend(turns, m);
  }

  lemma NothingSpent(slow: bool, m: Meter)
    ensures SpendsCalls(slow, m, m, 0)
  {
  }

  lemma {:induction false} RemovalsSpend(turns: nat -> Turn, m: Meter, rs: seq<Resource>)
    ensures SpendsCalls(Slow(turns), m, RemovalsRun(turns, m, rs).meter, Removals(rs))
    decreases rs
  {
    if rs == [] {
      NothingSpent(Slow(turns), m);
    } else {
      var front, r := rs[..|rs| - 1], rs[|rs| - 1];
      if Removal(r) == 0 {
        RemovalsSpend(turns, m, front);
      } else {
        var x := RemovalRun(turns, m, r);
        RemovalSpends(turns, m, r);
        RemovalsSpend(turns, x.meter, front);
        CallsBoth(Slow(turns), m, x.meter, RemovalsRun(turns, x.meter, front).meter, 2, Removals(front));
      }
    }
  }

  lemma {:induction false} RoundSpends(turns: nat -> Turn, m: Meter, before: seq<Resource>, rs: seq<Resource>)
    requires AllEvolved(before, rs)
    ensures SpendsCalls(Slow(turns), m, RoundRun(turns, m, rs).0, AllReads(before))
    decreases rs
  {
    if rs == [] {
      NothingSpent(Slow(turns), m);
    } else {
      var last := |rs| - 1;
      var earlier := RoundRun(turns, m, rs[..last]);
      RoundSpends(turns, m, before[..last], rs[..last]);
      AbsenceSpends(turns, earlier.0, rs[last]);
      assert Evolved(before[last], rs[last]);
      var now := AbsenceRun(turns, earlier.0, rs[last]);
      CallsLess(Slow(turns), earlier.0, now.0, ReadsNow(rs[last]), Reads(before[last]));
      CallsBoth(Slow(turns), m, earlier.0, now.0, AllReads(before[..last]), Reads(before[last]));
    }
  }

  lemma SnapshotSpends(turns: nat -> Turn, m: Meter)
    ensures Spends(Slow(turns), m, SnapshotRun(turns, m).0, 1, 2 * PODMAN_CAP)
    ensures SnapshotRun(turns, m).1 ==> SnapshotRun(turns, m).0.bytes <= m.bytes + PODMAN_CAP
  {
    CommandSpends(turns, m, PODMAN_CAP);
  }

  lemma RoundsSpend(turns: nat -> Turn, m: Meter, before: seq<Resource>, rs: seq<Resource>)
    requires AllEvolved(before, rs)
    ensures SpendsCalls(Slow(turns), m, RoundRun(turns, RoundRun(turns, m, rs).0, rs).0, 2 * AllReads(before))
  {
    var first := RoundRun(turns, m, rs).0;
    RoundSpends(turns, m, before, rs);
    RoundSpends(turns, first, before, rs);
    CallsBoth(Slow(turns), m, first, RoundRun(turns, first, rs).0, AllReads(before), AllReads(before));
  }

  lemma SweepSpends(turns: nat -> Turn, m: Meter, rs: seq<Resource>)
    ensures var removed := RemovalsRun(turns, m, rs);
      var first := RoundRun(turns, removed.meter, removed.resources);
      SpendsCalls(Slow(turns), m, RoundRun(turns, first.0, removed.resources).0, Calls(rs) - 1)
  {
    var removed := RemovalsRun(turns, m, rs);
    var first := RoundRun(turns, removed.meter, removed.resources).0;
    RemovalsSpend(turns, m, rs);
    RemovalsEvolve(turns, m, rs);
    RoundsSpend(turns, removed.meter, rs, removed.resources);
    CallsAll(Slow(turns), m, removed.meter, RoundRun(turns, first, removed.resources).0, rs);
  }

  lemma CallsAll(slow: bool, a: Meter, b: Meter, c: Meter, rs: seq<Resource>)
    requires SpendsCalls(slow, a, b, Removals(rs)) && SpendsCalls(slow, b, c, 2 * AllReads(rs))
    ensures SpendsCalls(slow, a, c, Calls(rs) - 1)
  {
    CallsBoth(slow, a, b, c, Removals(rs), 2 * AllReads(rs));
  }

  /** A pass spends what its resources call for and no more; it is late only without time for that, and refused only without room. */
  lemma PassRunSpends(turns: nat -> Turn, m: Meter, rs: seq<Resource>)
    ensures Spends(Slow(turns), m, PassRun(turns, m, rs).meter, Calls(rs), Output(rs))
    ensures AllEvolved(rs, PassRun(turns, m, rs).resources)
  {
    var (taken, known) := SnapshotRun(turns, m);
    SnapshotSpends(turns, m);
    if known {
      SweepSpends(turns, taken, rs);
      PassSpends(Slow(turns), m, taken, PassRun(turns, m, rs).meter, Calls(rs));
      RemovalsEvolve(turns, taken, rs);
    } else {
      SpendsLess(Slow(turns), m, taken, 1, 2 * PODMAN_CAP, Calls(rs), Output(rs));
    }
  }

  // ---- a daemon that lets it go on ----

  /** The stretch was neither late nor refused. */
  predicate Free(m: Meter) {
    !m.late && !m.refused
  }

  predicate Runs(a: Meter, b: Meter, calls: nat) {
    b.turn == a.turn + calls && b.calls == a.calls + calls
  }

  lemma CommandRuns(turns: nat -> Turn, m: Meter, cap: nat)
    requires Free(Command(turns, m, cap).0) && Good(turns(m.turn), cap)
    ensures Runs(m, Command(turns, m, cap).0, 1) && Command(turns, m, cap).1 == Some(turns(m.turn)) && Free(m)
  {
  }

  lemma RemovalRuns(turns: nat -> Turn, m: Meter, r: Resource)
    requires Free(RemovalRun(turns, m, r).meter) && Removes(turns, m.turn, r)
    ensures var x := RemovalRun(turns, m, r); Runs(m, x.meter, 2) && x.ok && x.resource.id.Some? && Free(m)
  {
    var found := Command(turns, m, API_CAP).0;
    if Free(found) {
      CommandRuns(turns, m, API_CAP);
      CommandRuns(turns, found, API_CAP);
    }
  }

  lemma AbsenceRuns(turns: nat -> Turn, m: Meter, r: Resource)
    requires Free(AbsenceRun(turns, m, r).0) && FindsNothing(turns, m.turn, ReadsNow(r))
    ensures var x := AbsenceRun(turns, m, r); Runs(m, x.0, ReadsNow(r)) && x.1 && Free(m)
  {
    var named := Command(turns, m, API_CAP).0;
    assert Good(turns(m.turn), API_CAP);
    if Free(named) {
      CommandRuns(turns, m, API_CAP);
      if r.id.Some? {
        assert Good(turns(m.turn + 1), API_CAP);
        CommandRuns(turns, named, API_CAP);
      }
    }
  }

  lemma {:induction false} RemovalsRunThrough(turns: nat -> Turn, m: Meter, rs: seq<Resource>)
    requires Free(RemovalsRun(turns, m, rs).meter) && RemovesAll(turns, m.turn, rs)
    ensures var s := RemovalsRun(turns, m, rs); Runs(m, s.meter, Removals(rs)) && s.ok && AllKnown(rs, s.resources) && Free(m)
    decreases rs
  {
    if rs != [] {
      var front, r := rs[..|rs| - 1], rs[|rs| - 1];
      if Removal(r) == 0 {
        RemovalsRunThrough(turns, m, front);
        KnownMore(front, RemovalsRun(turns, m, front).resources, r, r);
      } else {
        var x := RemovalRun(turns, m, r);
        RemovalRunsOn(turns, m, rs);
        RemovalsRunThrough(turns, x.meter, front);
        KnownMore(front, RemovalsRun(turns, x.meter, front).resources, r, x.resource);
      }
      assert front + [r] == rs;
    }
  }

  lemma RemovalRunsOn(turns: nat -> Turn, m: Meter, rs: seq<Resource>)
    requires rs != [] && Removal(rs[|rs| - 1]) == 2
    requires Free(RemovalsRun(turns, m, rs).meter) && RemovesAll(turns, m.turn, rs)
    ensures var x := RemovalRun(turns, m, rs[|rs| - 1]); Runs(m, x.meter, 2) && x.ok && x.resource.id.Some? && Free(m)
  {
    var front, r := rs[..|rs| - 1], rs[|rs| - 1];
    RemovalsSpend(turns, RemovalRun(turns, m, r).meter, front);
    RemovalRuns(turns, m, r);
  }

  lemma KnownMore(before: seq<Resource>, now: seq<Resource>, r: Resource, s: Resource)
    requires AllKnown(before, now) && Reads(r) == ReadsNow(s)
    ensures AllKnown(before + [r], now + [s])
  {
  }

  lemma {:induction false} RoundRuns(turns: nat -> Turn, m: Meter, before: seq<Resource>, rs: seq<Resource>)
    requires Free(RoundRun(turns, m, rs).0) && AllKnown(before, rs) && FindsNothing(turns, m.turn, AllReads(before))
    ensures Runs(m, RoundRun(turns, m, rs).0, AllReads(before)) && RoundRun(turns, m, rs).1 && Free(m)
    decreases rs
  {
    if rs != [] {
      var last := |rs| - 1;
      var earlier := RoundRun(turns, m, rs[..last]);
      AbsenceSpends(turns, earlier.0, rs[last]);
      FindsPart(turns, m.turn, AllReads(before), 0, AllReads(before[..last]));
      RoundRuns(turns, m, before[..last], rs[..last]);
      FindsPart(turns, m.turn, AllReads(before), AllReads(before[..last]), Reads(before[last]));
      AbsenceRuns(turns, earlier.0, rs[last]);
    }
  }

  lemma SnapshotRuns(turns: nat -> Turn, m: Meter)
    requires Free(SnapshotRun(turns, m).0) && Vouches(turns(m.turn))
    ensures Runs(m, SnapshotRun(turns, m).0, 1) && SnapshotRun(turns, m).1
  {
    CommandRuns(turns, m, PODMAN_CAP);
  }

  lemma RoundsRun(turns: nat -> Turn, m: Meter, before: seq<Resource>, rs: seq<Resource>)
    requires Free(RoundRun(turns, RoundRun(turns, m, rs).0, rs).0) && AllKnown(before, rs)
    requires FindsNothing(turns, m.turn, 2 * AllReads(before)) && AllEvolved(before, rs)
    ensures var first := RoundRun(turns, m, rs); var second := RoundRun(turns, first.0, rs);
      Runs(m, second.0, 2 * AllReads(before)) && first.1 && second.1 && Free(m)
  {
    var first := RoundRun(turns, m, rs);
    RoundSpends(turns, first.0, before, rs);
    FindsPart(turns, m.turn, 2 * AllReads(before), 0, AllReads(before));
    RoundRuns(turns, m, before, rs);
    FindsPart(turns, m.turn, 2 * AllReads(before), AllReads(before), AllReads(before));
    RoundRuns(turns, first.0, before, rs);
  }

  /** Against a daemon that lets it go on, a pass that is neither late nor refused takes all its calls and succeeds. */
  lemma PassRuns(turns: nat -> Turn, m: Meter, rs: seq<Resource>)
    requires LetsPass(turns, m.turn, rs) && Free(PassRun(turns, m, rs).meter)
    ensures Runs(m, PassRun(turns, m, rs).meter, Calls(rs)) && PassRun(turns, m, rs).ok
  {
    var taken := SnapshotRun(turns, m).0;
    if SnapshotRun(turns, m).1 { SweepSpends(turns, taken, rs); }
    SnapshotRuns(turns, m);
    var removed := RemovalsRun(turns, taken, rs);
    var first := RoundRun(turns, removed.meter, removed.resources);
    RemovalsEvolve(turns, taken, rs);
    RoundSpends(turns, removed.meter, rs, removed.resources);
    RoundSpends(turns, first.0, rs, removed.resources);
    RemovalsRunThrough(turns, taken, rs);
    RoundsRun(turns, removed.meter, rs, removed.resources);
  }

  // ---- when a pass is late ----

  /** A pass over so many resources, five of them live, spends no more than this and is refused only for want of it. */
  predicate PassSpent(a: Meter, b: Meter, history: nat) {
    var calls := 1 + 2 * MAX_LIVE + 4 * history;
    && b.calls <= a.calls + calls && b.bytes <= a.bytes + Retained(calls)
    && (a.calls + calls <= MAX_CLEANUP_CALLS && a.bytes + Retained(calls) <= OUTPUT_BUDGET ==> b.refused == a.refused)
  }

  lemma PassIsSpent(slow: bool, a: Meter, b: Meter, rs: seq<Resource>)
    requires Spends(slow, a, b, Calls(rs), Output(rs)) && Live(rs) <= MAX_LIVE
    ensures PassSpent(a, b, |rs|)
  {
    CallsBounded(rs);
    RetainedGrows(Calls(rs), 1 + 2 * MAX_LIVE + 4 * |rs|);
    SpendsLess(slow, a, b, Calls(rs), Output(rs), 1 + 2 * MAX_LIVE + 4 * |rs|, Retained(1 + 2 * MAX_LIVE + 4 * |rs|));
  }

  lemma RetainedGrows(n: nat, m: nat)
    requires n <= m
    ensures Retained(n) <= Retained(m)
  {
  }

  /** Calls and output have room for a pass. */
  predicate Fits(m: Meter, rs: seq<Resource>) {
    m.calls + Calls(rs) <= MAX_CLEANUP_CALLS && m.bytes + Output(rs) <= OUTPUT_BUDGET
  }

  /** One more pass fits after a role was cleaned. */
  lemma SecondFits(a: Meter, b: Meter, rs: seq<Resource>)
    requires a.calls == 0 && a.bytes == 0 && PassSpent(a, b, 5) && UniqueNames(rs) && Live(rs) <= MAX_LIVE
    ensures Fits(b, rs) && b.refused == a.refused
  {
    AtMostTen(rs);
    CallsBounded(rs);
  }

  /** And a last one over ten resources, none of them live, after both were. */
  lemma LastFits(a: Meter, b: Meter, c: Meter, rs: seq<Resource>)
    requires a.calls == 0 && a.bytes == 0 && PassSpent(a, b, 5) && PassSpent(b, c, 10) && |rs| == 10 && Live(rs) == 0
    ensures Fits(c, rs) && c.refused == a.refused
  {
    CallsBounded(rs);
  }

  /** With time and room for it, a daemon that lets it go on makes a pass succeed. */
  lemma HelpedPassSucceeds(turns: nat -> Turn, m: Meter, rs: seq<Resource>)
    requires LetsPass(turns, m.turn, rs) && Free(m) && Fits(m, rs) && Enough(m.remaining, Calls(rs))
    ensures var s := PassRun(turns, m, rs); s.ok && Free(s.meter) && Runs(m, s.meter, Calls(rs))
  {
    PassRunSpends(turns, m, rs);
    PassRuns(turns, m, rs);
  }

  /** A slow daemon that lets a pass go on makes it late exactly when there is no time for all its calls. */
  lemma SlowPassIsLate(turns: nat -> Turn, m: Meter, rs: seq<Resource>)
    requires LetsPass(turns, m.turn, rs) && Slow(turns) && Free(m) && Fits(m, rs)
    ensures PassRun(turns, m, rs).meter.late <==> !Enough(m.remaining, Calls(rs))
  {
    PassRunSpends(turns, m, rs);
    if Free(PassRun(turns, m, rs).meter) {
      PassRuns(turns, m, rs);
      AllTaken(m, PassRun(turns, m, rs).meter, Calls(rs), Output(rs));
    }
  }

  /** Where calls and output have room for a pass, no daemon can make it late if and only if there is time for all its calls. */
  lemma NeverLateIf(m: Meter, rs: seq<Resource>)
    requires Free(m) && Fits(m, rs) && CanonicalIds(rs)
    ensures (forall turns: nat -> Turn :: !PassRun(turns, m, rs).meter.late) <==> m.remaining > 1000 * (Calls(rs) - 1) + 2000
  {
    if Enough(m.remaining, Calls(rs)) {
      forall turns: nat -> Turn ensures !PassRun(turns, m, rs).meter.late {
        PassRunSpends(turns, m, rs);
      }
    } else {
      var turns := SlowPassExists(m.turn, rs);
      SlowPassIsLate(turns, m, rs);
    }
  }

  lemma BuiltCalls(role: Role)
    ensures Live(Built(role)) == 5 && Calls(Built(role)) == 31 && CanonicalIds(Built(role)) && Output(Built(role)) <= OUTPUT_BUDGET
    ensures UniqueNames(Built(role))
  {
    var rs := Built(role);
    AllLive(rs);
    CallsReached(rs);
  }

  lemma {:induction false} AllLive(rs: seq<Resource>)
    requires forall i :: 0 <= i < |rs| ==> rs[i].live
    ensures Live(rs) == |rs|
  {
    if rs != [] { AllLive(rs[..|rs| - 1]); }
  }

  lemma SteadyIsSlow(turns: nat -> Turn)
    requires AllSteady(turns)
    ensures Slow(turns)
  {
    forall k: nat ensures turns(k).duration >= CLEANUP_BOUND {
      assert Steady(turns(k));
    }
  }

  ghost predicate LetsGo(turns: nat -> Turn, m: Meter, role: Role) {
    && AllSteady(turns) && Plays(turns, m.turn, PassTurns(Built(role), "")) && Free(m) && m.calls == 0 && m.bytes == 0
    && m.remaining > 32000
  }

  /** After a role that began here is built, the daemon lets its cleanup go on. */
  ghost predicate Sweeps(turns: nat -> Turn, b: Start, n: seq<nat>, role: Role)
    requires |n| == 4
  {
    AllSteady(turns) && Plays(turns, b.turn + Before(n, 5), PassTurns(Built(role), ""))
  }

  /** The cleanup of a freshly built role that the daemon lets go on: thirty-one seconds, and nothing is left. */
  lemma BuiltCleaned(turns: nat -> Turn, m: Meter, role: Role)
    requires LetsGo(turns, m, role)
    ensures var s := PassRun(turns, m, Built(role));
      && s.ok && Runs(m, s.meter, 31) && m.remaining == s.meter.remaining + 31000 && Free(s.meter) && Cleaned(role, s.Left())
  {
    var rs := Built(role);
    SteadyIsSlow(turns);
    BuiltCalls(role);
    BuiltPasses(turns, m.turn, role);
    HelpedPassSucceeds(turns, m, rs);
    PassRunSpends(turns, m, rs);
    PassLeaves(turns, m, rs);
    var s := PassRun(turns, m, rs);
    forall i | 0 <= i < 5
      ensures s.Left()[i].role == role && s.Left()[i].id.Some? && Canonical(s.Left()[i].id.value) && !s.Left()[i].live
    {
      assert Evolved(rs[i], s.resources[i]);
    }
  }

  lemma BuiltPasses(turns: nat -> Turn, t: nat, role: Role)
    requires Plays(turns, t, PassTurns(Built(role), ""))
    ensures LetsPass(turns, t, Built(role))
  {
    SameTurns(Built(role), "", IdOf(0));
    BuiltCalls(role);
    PassTurnsPass(turns, t, Built(role), IdOf(0));
  }

  /** Where every ID is known the other one does not matter. */
  lemma {:induction false} SameTurns(rs: seq<Resource>, a: string, b: string)
    requires forall i :: 0 <= i < |rs| ==> rs[i].id.Some?
    ensures RemovalTurns(rs, a) == RemovalTurns(rs, b) && PassTurns(rs, a) == PassTurns(rs, b)
    decreases rs
  {
    if rs != [] { SameTurns(rs[..|rs| - 1], a, b); }
  }

  lemma PassSettles(turns: nat -> Turn, m: Meter, rs: seq<Resource>)
    requires Live(rs) <= MAX_LIVE
    ensures PassSpent(m, PassRun(turns, m, rs).meter, |rs|)
    ensures Covered(m.remaining, rs) ==> PassRun(turns, m, rs).meter.late == m.late
  {
    PassRunSpends(turns, m, rs);
    PassIsSpent(Slow(turns), m, PassRun(turns, m, rs).meter, rs);
  }

  /** The cleanup after a role that the daemon let be built. */
  lemma RoleSwept(turns: nat -> Turn, outer: string, m: Meter, rs: seq<Resource>, b: Start, n: seq<nat>, role: Role)
    requires |n| == 4 && Helps(turns, outer, b, n) && Sweeps(turns, b, n, role)
    requires rs == Built(role)[..5] && m.remaining + 1000 * Before(n, 5) == b.remaining && m.turn == b.turn + Before(n, 5)
    requires m.calls == 0 && m.bytes == 0 && Free(m)
    ensures var s := PassRun(turns, m, rs);
      && s.ok && s.meter.remaining + 1000 * (Before(n, 5) + 31) == b.remaining && s.meter.turn == b.turn + Before(n, 5) + 31
      && Cleaned(role, s.Left())
  {
    assert Built(role)[..5] == Built(role);
    BuiltCleaned(turns, m, role);
  }

  /** One role cleaned, and one name of the next role registered. */
  predicate HeldUp(rs: seq<Resource>) {
    && |rs| == 6 && Cleaned(OracleRole, rs[..5]) && rs[5] == Resource(RenderedRole, PrimaryNetwork, None, false, false)
  }

  lemma {:induction false} NoneLiveNoneLeft(rs: seq<Resource>)
    requires forall i :: 0 <= i < |rs| ==> !rs[i].live
    ensures Live(rs) == 0 && Removals(rs) == 0 && forall turns: nat -> Turn, t: nat :: RemovesAll(turns, t, rs)
  {
    if rs != [] { NoneLiveNoneLeft(rs[..|rs| - 1]); }
  }

  lemma CleanedIsOpen(rs: seq<Resource>)
    requires Cleaned(OracleRole, rs)
    ensures Live(rs) == 0 && !Taken(rs, RenderedRole, PrimaryNetwork) && forall r :: (rs + [r])[..5] == rs
  {
    NoneLiveNoneLeft(rs);
    forall r: Resource ensures (rs + [r])[..5] == rs {
    }
  }

  /** Nothing is found from this turn on. */
  ghost predicate Quiet(turns: nat -> Turn, t: nat) {
    forall k :: t <= k ==> turns(k) == Says(404, None)
  }

  lemma {:induction false} KnownReads(rs: seq<Resource>)
    requires forall i :: 0 <= i < |rs| ==> rs[i].id.Some?
    ensures AllReads(rs) == 2 * |rs|
  {
    if rs != [] { KnownReads(rs[..|rs| - 1]); }
  }

  /** Eighteen seconds are too few for the twenty-three calls that are left then. */
  lemma HeldUpIsLate(turns: nat -> Turn, m: Meter, rs: seq<Resource>)
    requires HeldUp(rs) && Quiet(turns, m.turn) && AllSteady(turns) && Free(m) && Fits(m, rs) && m.remaining == 18000
    ensures Calls(rs) == 23 && PassRun(turns, m, rs).meter.late
  {
    NoneLiveNoneLeft(rs);
    KnownReads(rs[..5]);
    SteadyIsSlow(turns);
    assert RemovesAll(turns, m.turn + 1, rs);
    assert turns(m.turn) == Says(404, None);
    SlowPassIsLate(turns, m, rs);
  }

  /** The daemon lets the first role be built and cleaned, after so many observations and at a second for each command, and finds
      nothing afterwards. */
  ghost predicate LetsOneRole(turns: nat -> Turn, observed: nat, n: seq<nat>)
    requires |n| == 4
  {
    && AllSteady(turns) && Plays(turns, 0, Approving(observed)) && Plays(turns, observed, BuildTurns(n))
    && Plays(turns, observed + Before(n, 5), PassTurns(Built(OracleRole), "")) && Quiet(turns, observed + Before(n, 5) + 31)
  }

  /** What such a daemon says. */
  function OneRoleTurns(observed: nat, n: seq<nat>): nat -> Turn
    requires |n| == 4
  {
    Saying(0, Approving(observed) + (BuildTurns(n) + PassTurns(Built(OracleRole), "")))
  }

  lemma OneRoleExists(observed: nat, n: seq<nat>)
    requires |n| == 4
    ensures LetsOneRole(OneRoleTurns(observed, n), observed, n)
  {
    var a, b, c := Approving(observed), BuildTurns(n), PassTurns(Built(OracleRole), "");
    var turns := Saying(0, a + (b + c));
    BuildTurnsSteady(n);
    PassTurnsSteady(Built(OracleRole), "");
    SayingPlays(0, a + (b + c));
    PlaysBoth(turns, 0, a, b + c);
    PlaysBoth(turns, observed, b, c);
    BuildPlays(turns, observed, n);
    BuiltPassLength();
  }

  lemma BuiltPassLength()
    ensures |PassTurns(Built(OracleRole), "")| == 31
  {
    BuiltCalls(OracleRole);
    SameTurns(Built(OracleRole), "", IdOf(0));
    var ts := PassTurns(Built(OracleRole), IdOf(0));
    PassTurnsSteady(Built(OracleRole), IdOf(0));
    SayingPlays(0, ts);
    PassTurnsPass(Saying(0, ts), 0, Built(OracleRole), IdOf(0));
  }
}
