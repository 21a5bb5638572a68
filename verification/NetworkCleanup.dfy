/** A run that keeps enough time in reserve for one complete cleanup, whatever the daemon answers and however slowly. */
module NetworkCleanup {
  import opened Outcome
  import opened Sequences
  import opened Numerals
  import opened Identifiers
  import opened NetworkReserve
  import opened NetworkDaemon
  import opened NetworkPass

  // ---- the run ----

  /** What of the work is known to have happened when it ends. */
  datatype Ended = Passed | Stopped | PassFailed

  /** The output caps of the commands that observe, for each role and stage. */
  type Script = (Role, nat) -> seq<nat>

  /** There is room for a resource under the name. */
  predicate OpenTo(rs: seq<Resource>, role: Role, slot: Slot) {
    Live(rs) < MAX_LIVE && !Taken(rs, role, slot)
  }

  /** Caps that a command may have. */
  predicate Capped(caps: seq<nat>) {
    forall i :: 0 <= i < |caps| ==> 0 < caps[i] <= PODMAN_CAP
  }

  function Counts(script: Script, role: Role): (n: seq<nat>)
    ensures |n| == 4
  {
    [|script(role, 0)|, |script(role, 1)|, |script(role, 2)|, |script(role, 3)|]
  }

  predicate AllCapped(script: Script, role: Role) {
    Capped(script(role, 0)) && Capped(script(role, 1)) && Capped(script(role, 2)) && Capped(script(role, 3))
  }

  /** The turns of a run that is cut short after its first role was cleaned. */
  function Ahead(script: Script, context: seq<nat>): nat {
    |context| + Before(Counts(script, OracleRole), 5) + 31
  }

  /** A run that begins here and that the daemon lets go on, a second for each command, through the observations and its first role, and
      no further: just the time for that is left, and nothing is found afterwards. */
  ghost predicate CutShort(turns: nat -> Turn, outer: string, b: Start, script: Script, context: seq<nat>, elapsed: nat) {
    var n := Counts(script, OracleRole);
    && elapsed == 0 && outer == "" && b.turn == 0 && b.calls == 0 && b.bytes == 0
    && Capped(context) && AllCapped(script, OracleRole) && |context| + 16 + Before(n, 5) <= MAX_WORK_CALLS
    && b.remaining == SHORTEST + 1000 * (|context| + Before(n, 5))
    && LetsOneRole(turns, |context|, n)
  }

  /** The daemon lets the observations and the reading of its facts go on, and there is time, room and output for them. */
  ghost predicate Prepares(turns: nat -> Turn, b: Start, context: seq<nat>, elapsed: nat) {
    && elapsed == 0 && Capped(context) && Plays(turns, b.turn, Approving(|context|))
    && b.remaining >= SHORTEST + 1000 * |context| && b.calls + |context| + 16 <= MAX_WORK_CALLS && b.bytes == 0
  }

  /** Where the run stands after that. */
  function Prepared(b: Start, observed: nat): Start
    requires b.remaining >= 1000 * observed
  {
    Start(b.remaining - 1000 * observed, b.turn + observed, b.calls + observed + 16, b.bytes + 1024 * 1024)
  }

  lemma ShortPrepares(turns: nat -> Turn, outer: string, b: Start, script: Script, context: seq<nat>, elapsed: nat)
    requires CutShort(turns, outer, b, script, context, elapsed)
    ensures Prepares(turns, b, context, elapsed) && elapsed == 0
    ensures Prepared(b, |context|)
         == Start(SHORTEST + 1000 * Before(Counts(script, OracleRole), 5), |context|, |context| + 16, 1024 * 1024)
  {
  }

  class Run {
    const turns: nat -> Turn
    const outerId: string
    var remaining: nat
    var turn: nat
    var resources: seq<Resource>
    var workCalls: nat
    var workBytes: nat
    var cleanupCalls: nat
    var cleanupBytes: nat
    var cleanupUncertain: bool
    /** Whether a work command was admitted since the last cleanup, if there was one. */
    ghost var restored: bool
    ghost var late: bool
    ghost var refused: bool
    ghost var gone: seq<(nat, bool)>

    ghost predicate Bounded()
      reads this`resources
    {
      Orderly(resources)
    }

    /** What every operation of the work keeps, also when it ends in a panic: a cleanup started now would not run out of time,
        unless it is the second in a row. */
    ghost predicate Valid()
      reads this`resources, this`remaining, this`restored
    {
      Bounded() && (restored ==> Covered(remaining, resources))
    }

    /** There is room to register one more name. */
    ghost predicate Poised()
      reads this`resources, this`remaining, this`restored
    {
      Bounded() && (restored ==> Ready(remaining, resources))
    }

    ghost function Spending(): Meter
      reads this`remaining, this`turn, this`cleanupCalls, this`cleanupBytes, this`late, this`refused
    {
      Meter(remaining, turn, cleanupCalls, cleanupBytes, late, refused)
    }

    constructor (outerId: string, turns: nat -> Turn, remaining: nat)
      requires remaining > 60000
      ensures Bounded() && restored && Ready(this.remaining, resources) && resources == []
      ensures this.turns == turns && this.outerId == outerId && Spending() == Meter(remaining, 0, 0, 0, false, false)
      ensures workCalls == 0 && workBytes == 0
    {
      this.outerId, this.turns, this.remaining := outerId, turns, remaining;
      turn, resources, workCalls, workBytes := 0, [], 0, 0;
      cleanupCalls, cleanupBytes, cleanupUncertain, restored, late, refused, gone := 0, 0, false, true, false, false, [];
    }

    // ---- what the work spends ----

    /** Time, calls and output for so many work commands of a second without output, while five resources are registered at most. */
    ghost predicate Affords(n: nat)
      reads this`remaining, this`workCalls, this`workBytes, this`resources
    {
      && (n > 0 ==> remaining > SHORTEST + 1000 * (n - 1)) && workCalls + n <= MAX_WORK_CALLS
      && workBytes + 2 * PODMAN_CAP <= OUTPUT_BUDGET
    }

    /** So many such commands were played. */
    twostate predicate Played(n: nat)
      reads this`remaining, this`turn, this`workCalls, this`workBytes
    {
      && old(remaining) == remaining + 1000 * n && turn == old(turn) + n
      && workCalls == old(workCalls) + n && workBytes == old(workBytes)
    }

    /** A work command: admitted only while the reserve stays whole, and stopped after its bound. `None` is a panic. */
    method WorkCapture(cap: nat) returns (r: Option<Turn>)
      requires Bounded()
      modifies this`remaining, this`turn, this`workCalls, this`workBytes, this`restored
      ensures remaining <= old(remaining) <= remaining + WORK_BOUND
      ensures old(Valid()) ==> Valid()
      ensures r.Some? ==> restored && Ready(remaining, resources) && r.value.completes && r.value == turns(old(turn))
      ensures old(Affords(1)) && |resources| <= 5 && 0 < cap <= PODMAN_CAP && Steady(turns(old(turn))) ==>
        r == Some(turns(old(turn))) && Played(1)
      ensures old(remaining) <= SHORTEST ==> r.None? && Played(0) && restored == old(restored)
    {
      var outstanding := Live(resources);
      if outstanding > 5 { return None; }
      if remaining <= CleanupReserve(|resources|, outstanding) + 4000 { return None; }
      restored := true;
      AdmissionSuffices(remaining, resources, 0);
      ReadyCovers(remaining, resources);
      workCalls := workCalls + 1;
      if workCalls > MAX_WORK_CALLS || !OutputCapacity(workBytes, cap) { return None; }
      var played := turns(turn);
      var elapsed, retained := Min(played.duration, WORK_BOUND), Min(played.retained, 2 * cap);
      AdmissionSuffices(remaining, resources, elapsed);
      remaining, turn, workBytes := remaining - elapsed, turn + 1, workBytes + retained;
      ReadyCovers(remaining, resources);
      if workBytes > OUTPUT_BUDGET || retained < played.retained || !played.completes { return None; }
      return Some(played);
    }

    /** Reading the daemon's facts over the socket before anything is registered; it stops forty-five seconds before the deadline. */
    method Acquire(elapsed: nat) returns (ok: bool)
      requires Valid() && restored && resources == []
      modifies this`remaining, this`workCalls, this`workBytes
      ensures Valid() && (ok ==> Ready(remaining, resources))
      ensures elapsed == 0 && old(remaining) >= 45000 && old(workCalls) + 16 <= MAX_WORK_CALLS && old(workBytes) + 1024 * 1024 <= OUTPUT_BUDGET ==>
        ok && remaining == old(remaining) && workCalls == old(workCalls) + 16 && workBytes == old(workBytes) + 1024 * 1024
    {
      workCalls, workBytes := workCalls + 16, workBytes + 1024 * 1024;
      if workCalls > MAX_WORK_CALLS || workBytes > OUTPUT_BUDGET || remaining < 45000 { return false; }
      remaining := remaining - Min(elapsed, Min(remaining - 45000, 10000));
      return true;
    }

    lemma PoisedIsValid()
      requires Poised()
      ensures Valid()
    {
      if restored { ReadyCovers(remaining, resources); }
    }

    method Push(entry: Resource)
      requires Poised() && Live(resources) < 5 && !Taken(resources, entry.role, entry.slot) && !entry.live && entry.id.None?
      modifies this`resources
      ensures Valid() && resources == old(resources) + [entry] && Live(resources) == Live(old(resources))
    {
      AddKeeps(remaining, restored, resources, entry);
      resources := resources + [entry];
    }

    /** Register a name; nothing exists under it yet. */
    method Add(role: Role, slot: Slot) returns (index: Option<nat>)
      requires Poised()
      modifies this`resources
      ensures Valid()
      ensures index.Some? ==>
        && resources == old(resources) + [Resource(role, slot, None, false, false)]
        && index.value == |old(resources)| && Live(resources) == Live(old(resources)) < MAX_LIVE
      ensures index.None? ==> resources == old(resources)
      ensures index.Some? <==> Live(old(resources)) < MAX_LIVE && !Taken(old(resources), role, slot)
    {
      PoisedIsValid();
      if Live(resources) >= 5 || Taken(resources, role, slot) { return None; }
      index := Some(|resources|);
      Push(Resource(role, slot, None, false, false));
    }

    /** Read a resource by its ID, or by its name while no ID is known; it must be this run's own. */
    method Owned(index: nat) returns (ok: bool)
      requires Valid() && index < |resources|
      modifies this`remaining, this`turn, this`workCalls, this`workBytes, this`restored
      ensures Valid() && (ok ==> restored && Ready(remaining, resources))
      ensures old(Affords(1)) && |resources| <= 5 && resources[index].id.Some? && turns(old(turn)) == Says(200, resources[index].id) ==>
        ok && Played(1)
    {
      var read := WorkCapture(API_CAP);
      return read.Some? && read.value.parses && read.value.status == 200 && Authentic(resources[index], read.value);
    }

    /** Give a created resource the ID that its creation reported, unless another has it, and read it back. */
    method Bind(index: nat, id: string) returns (ok: bool)
      requires Poised() && restored && index < |resources|
      modifies this`remaining, this`turn, this`workCalls, this`workBytes, this`resources, this`restored
      ensures Valid() && (ok ==> restored && Ready(remaining, resources))
      ensures ok ==> resources == old(resources)[index := old(resources)[index].(id := Some(id))]
      ensures old(Affords(1)) && |old(resources)| <= 5 && NewId(outerId, old(resources), id) && turns(old(turn)) == Says(200, Some(id)) ==>
        ok && Played(1)
    {
      ReadyCovers(remaining, resources);
      if !NewId(outerId, resources, id) { return false; }
      NamedCovers(remaining, resources, index, id);
      LiveAfter(resources, index, resources[index].(id := Some(id)));
      resources := resources[index := resources[index].(id := Some(id))];
      ReadyCovers(remaining, resources);
      ok := Owned(index);
    }

    /** Register a name, see that it is free, and mark it live: from here on a cleanup looks for it. */
    method Announce(role: Role, slot: Slot) returns (ok: bool)
      requires Poised()
      modifies this`remaining, this`turn, this`workCalls, this`workBytes, this`resources, this`restored
      ensures Valid()
      ensures ok ==> restored && resources == old(resources) + [Resource(role, slot, None, true, false)]
      ensures ok ==> Live(resources) == Live(old(resources)) + 1
      ensures old(Affords(1)) && |old(resources)| < 5 && OpenTo(old(resources), role, slot) && turns(old(turn)) == Says(404, None) ==>
        ok && Played(1)
      ensures old(remaining) <= SHORTEST && OpenTo(old(resources), role, slot) ==>
        && !ok && Played(0) && restored == old(restored)
        && resources == old(resources) + [Resource(role, slot, None, false, false)]
    {
      var index := Add(role, slot);
      if index.None? { return false; }
      var read := WorkCapture(API_CAP);
      if read.None? || !read.value.parses || read.value.status != 404 { return false; }
      MarkKeeps(remaining, old(resources), Resource(role, slot, None, false, false));
      resources := resources[index.value := resources[index.value].(live := true)];
      return true;
    }

    /** Create a network or a container, announced before the creation is sent: through the command line, which only has to succeed
        and print an ID, or through the API. */
    method Create(role: Role, slot: Slot, ghost id: string) returns (ok: bool)
      requires Poised()
      modifies this`remaining, this`turn, this`workCalls, this`workBytes, this`resources, this`restored
      ensures Valid()
      ensures ok ==> restored && Ready(remaining, resources) && |resources| == |old(resources)| + 1
      ensures ok ==> exists id :: resources == old(resources) + [Resource(role, slot, Some(id), true, false)]
      ensures old(Affords(3)) && |old(resources)| < 5 && OpenTo(old(resources), role, slot) && NewId(outerId, old(resources), id)
              && Plays(turns, old(turn), CreationTurns(id)) ==>
        && ok && Played(3) && resources == old(resources) + [Resource(role, slot, Some(id), true, false)]
        && Live(resources) == Live(old(resources)) + 1
      ensures old(remaining) <= SHORTEST && OpenTo(old(resources), role, slot) ==>
        && !ok && Played(0) && restored == old(restored)
        && resources == old(resources) + [Resource(role, slot, None, false, false)]
    {
      ghost var rs := resources;
      if Plays(turns, turn, CreationTurns(id)) { CreationPlays(turns, turn, id); }
      ok := Announce(role, slot);
      if !ok { return false; }
      ok := SendLast(role, rs, slot, id);
    }

    method SendLast(role: Role, ghost rs: seq<Resource>, ghost slot: Slot, ghost id: string) returns (ok: bool)
      requires Valid() && resources == rs + [Resource(role, slot, None, true, false)]
      modifies this`remaining, this`turn, this`workCalls, this`workBytes, this`resources, this`restored
      ensures Valid() && (ok ==> restored && Ready(remaining, resources))
      ensures ok ==> exists id :: resources == rs + [Resource(role, slot, Some(id), true, false)]
      ensures old(Affords(2)) && |rs| < 5 && NewId(outerId, rs, id)
              && turns(old(turn)) == Says(201, Some(id)) && turns(old(turn) + 1) == Says(200, Some(id)) ==>
        && ok && Played(2) && resources == rs + [Resource(role, slot, Some(id), true, false)]
        && Live(resources) == Live(old(resources))
    {
      ghost var announced, bound := Resource(role, slot, None, true, false), "";
      if NewId(outerId, rs, id) { StillNew(outerId, rs, announced, id); }
      ok, bound := SendCreation(role, |resources| - 1, id);
      LastReplaced(rs, announced, announced.(id := Some(bound)));
      OneMoreLive(rs, announced);
      OneMoreLive(rs, announced.(id := Some(bound)));
    }

    /** Send the creation of what was announced, and bind the ID it reports. */
    method SendCreation(role: Role, index: nat, ghost id: string) returns (ok: bool, ghost bound: string)
      requires Valid() && index < |resources|
      modifies this`remaining, this`turn, this`workCalls, this`workBytes, this`resources, this`restored
      ensures Valid() && (ok ==> restored && Ready(remaining, resources))
      ensures ok ==> resources == old(resources)[index := old(resources)[index].(id := Some(bound))]
      ensures ok ==> turns(old(turn)).id == Some(bound)
      ensures old(Affords(2)) && |old(resources)| <= 5 && NewId(outerId, old(resources), id)
              && turns(old(turn)) == Says(201, Some(id)) && turns(old(turn) + 1) == Says(200, Some(id)) ==>
        ok && Played(2)
    {
      bound := "";
      var created := WorkCapture(if role == OracleRole then PODMAN_CAP else API_CAP);
      if created.None? || (role == RenderedRole && created.value.status != 201) || created.value.id.None? { return false, bound; }
      bound := created.value.id.value;
      ok := Bind(index, created.value.id.value);
    }

    /** A container is created only while its network is this run's own. */
    method CreateContainer(role: Role, slot: Slot, network: nat, ghost id: string) returns (ok: bool)
      requires Poised() && restored && network < |resources|
      modifies this`remaining, this`turn, this`workCalls, this`workBytes, this`resources, this`restored
      ensures Valid()
      ensures ok ==> restored && Ready(remaining, resources) && |resources| == |old(resources)| + 1
      ensures ok ==> exists id :: resources == old(resources) + [Resource(role, slot, Some(id), true, false)]
      ensures old(Affords(4)) && |old(resources)| < 5 && OpenTo(old(resources), role, slot) && NewId(outerId, old(resources), id)
              && old(resources)[network].id.Some? && turns(old(turn)) == Says(200, old(resources)[network].id)
              && Plays(turns, old(turn) + 1, CreationTurns(id)) ==>
        && ok && Played(4) && resources == old(resources) + [Resource(role, slot, Some(id), true, false)]
        && Live(resources) == Live(old(resources)) + 1
    {
      ReadyCovers(remaining, resources);
      ok := Owned(network);
      if !ok { return false; }
      ok := Create(role, slot, id);
    }

    /** Observations, starts and connections: commands of these caps, whose answers the world judges. */
    method Observe(caps: seq<nat>) returns (ok: bool)
      requires Poised() && restored
      modifies this`remaining, this`turn, this`workCalls, this`workBytes, this`restored
      ensures Valid() && (ok ==> restored && Ready(remaining, resources))
      ensures old(Affords(|caps|)) && |resources| <= 5 && Capped(caps) && Plays(turns, old(turn), Approving(|caps|)) ==> ok && Played(|caps|)
    {
      ReadyCovers(remaining, resources);
      ghost var helped := Affords(|caps|) && |resources| <= 5 && Capped(caps) && Plays(turns, turn, Approving(|caps|));
      for i := 0 to |caps|
        invariant Valid() && restored && Ready(remaining, resources)
        invariant helped ==> Played(i)
      {
        assert helped ==> turns(old(turn) + i) == Approving(|caps|)[i];
        var played := WorkCapture(caps[i]);
        if played.None? || !played.value.owned { return false; }
      }
      return true;
    }

    // ---- cleanup ----

    method CleanupCapture(cap: nat) returns (r: Option<Turn>)
      modifies this`remaining, this`turn, this`cleanupCalls, this`cleanupBytes, this`late, this`refused
      ensures (Spending(), r) == Command(turns, old(Spending()), cap)
    {
      if remaining <= 2000 {
        late := true;
        return None;
      }
      cleanupCalls := cleanupCalls + 1;
      if cleanupCalls > MAX_CLEANUP_CALLS || !OutputCapacity(cleanupBytes, cap) {
        refused := true;
        return None;
      }
      var played := turns(turn);
      var elapsed, retained := Min(played.duration, CLEANUP_BOUND), Min(played.retained, 2 * cap);
      remaining, turn, cleanupBytes := remaining - elapsed, turn + 1, cleanupBytes + retained;
      if cleanupBytes > OUTPUT_BUDGET || retained < played.retained || !played.completes { return None; }
      return Some(played);
    }

    method Snapshot() returns (ok: bool)
      modifies this`remaining, this`turn, this`cleanupCalls, this`cleanupBytes, this`late, this`refused
      ensures (Spending(), ok) == SnapshotRun(turns, old(Spending()))
    {
      var played := CleanupCapture(PODMAN_CAP);
      return played.Some? && played.value.retained <= PODMAN_CAP && played.value.parses && played.value.owned;
    }

    /** Remove one live resource after reading it back as this run's own. */
    method Remove(index: nat) returns (removed: bool)
      requires index < |resources|
      modifies this`remaining, this`turn, this`cleanupCalls, this`cleanupBytes, this`late, this`refused, this`resources
      ensures var x := RemovalRun(turns, old(Spending()), old(resources)[index]);
        Spending() == x.meter && removed == x.ok && resources == old(resources)[index := x.resource]
    {
      var read := CleanupCapture(API_CAP);
      if read.None? || !read.value.parses { return false; }
      if read.value.status == 404 {
        if resources[index].id.Some? { return false; }
        resources := resources[index := resources[index].(deleted := true)];
        return true;
      }
      if read.value.status != 200 || !Authentic(resources[index], read.value) { return false; }
      resources := resources[index := resources[index].(id := read.value.id)];
      var deleted := CleanupCapture(API_CAP);
      if deleted.None? || deleted.value.status != 204 { return false; }
      resources := resources[index := resources[index].(deleted := true)];
      return true;
    }

    /** Read a name, and then a known ID, as absent; the first that is not ends the check. */
    method Absent(index: nat) returns (absent: bool)
      requires index < |resources|
      modifies this`remaining, this`turn, this`cleanupCalls, this`cleanupBytes, this`late, this`refused, this`gone
      ensures (Spending(), absent) == AbsenceRun(turns, old(Spending()), resources[index])
      ensures absent ==> gone == old(gone) + ([(index, false)] + if resources[index].id.Some? then [(index, true)] else [])
    {
      var named := CleanupCapture(API_CAP);
      if named.None? || named.value.status != 404 { return false; }
      gone := gone + [(index, false)];
      if resources[index].id.None? { return true; }
      var identified := CleanupCapture(API_CAP);
      if identified.None? || identified.value.status != 404 { return false; }
      gone := gone + [(index, true)];
      return true;
    }

    /** Live resources are removed newest first; those below `left` are still to be looked at. */
    ghost predicate Removing(rs: seq<Resource>, start: Meter, left: nat, all: bool)
      reads this`resources, this`remaining, this`turn, this`cleanupCalls, this`cleanupBytes, this`late, this`refused
    {
      && left <= |rs| == |resources| && resources[..left] == rs[..left]
      && var s := RemovalsRun(turns, Spending(), rs[..left]);
      RemovalsRun(turns, start, rs) == Swept(s.meter, s.resources + resources[left..], s.ok && all)
    }

    method RemoveAll() returns (all: bool)
      modifies this`remaining, this`turn, this`cleanupCalls, this`cleanupBytes, this`late, this`refused, this`resources
      ensures Swept(Spending(), resources, all) == RemovalsRun(turns, old(Spending()), old(resources))
    {
      all := true;
      ghost var rs, start := resources, Spending();
      var index := |resources|;
      assert rs[..index] == rs && resources[index..] == [];
      while index > 0
        invariant Removing(rs, start, index, all)
      {
        index := index - 1;
        all := RemoveNext(index, all, rs, start);
      }
      assert rs[..0] == [] && [] + resources[0..] == resources;
    }

    /** The next resource, if it is live. */
    method RemoveNext(index: nat, all: bool, ghost rs: seq<Resource>, ghost start: Meter) returns (still: bool)
      requires index < |rs| && Removing(rs, start, index + 1, all)
      modifies this`remaining, this`turn, this`cleanupCalls, this`cleanupBytes, this`late, this`refused, this`resources
      ensures Removing(rs, start, index, still)
    {
      still := all;
      ghost var now := resources;
      assert resources[index] == resources[..index + 1][index] == rs[index] && rs[..index + 1][..index] == rs[..index];
      if resources[index].live && !resources[index].deleted {
        var removed := Remove(index);
        still := all && removed;
      }
      assert resources[index..] == [resources[index]] + now[index + 1..];
      assert resources[..index] == now[..index + 1][..index];
      Regrouped(RemovalsRun(turns, Spending(), rs[..index]).resources, [resources[index]], now[index + 1..]);
    }

    /** Read every name and every known ID absent. */
    method AbsenceRound() returns (all: bool)
      modifies this`remaining, this`turn, this`cleanupCalls, this`cleanupBytes, this`late, this`refused, this`gone
      ensures (Spending(), all) == RoundRun(turns, old(Spending()), resources)
      ensures all ==> gone == old(gone) + RoundOf(resources)
    {
      all := true;
      ghost var start := Spending();
      assert resources[..0] == [];
      for index := 0 to |resources|
        invariant (Spending(), all) == RoundRun(turns, start, resources[..index])
        invariant all ==> gone == old(gone) + RoundOf(resources[..index])
      {
        OneMoreInRound(resources, index);
        assert resources[..index + 1][..index] == resources[..index];
        var absent := Absent(index);
        all := all && absent;
      }
      assert resources[..|resources|] == resources;
    }

    method CleanOnce() returns (all: bool)
      modifies this`remaining, this`turn, this`cleanupCalls, this`cleanupBytes, this`late, this`refused, this`gone, this`resources
      ensures Swept(Spending(), resources, all) == PassRun(turns, old(Spending()), old(resources))
      ensures all ==> gone == old(gone) + RoundOf(resources) + RoundOf(resources)
    {
      var known := Snapshot();
      if !known { return false; }
      all := RemoveAll();
      var first := AbsenceRound();
      var second := AbsenceRound();
      all := all && first && second;
    }

    method MarkAbsent()
      modifies this`resources
      ensures resources == NoneLive(old(resources))
    {
      resources := seq(|resources|, i requires 0 <= i < |resources| reads this => resources[i].(live := false));
    }

    /** A whole cleanup, exactly as its specification plays it: what that spends, when it is late and what it leaves is proved there. */
    method Cleanup() returns (ok: bool)
      modifies this`remaining, this`turn, this`cleanupCalls, this`cleanupBytes, this`late, this`refused, this`gone, this`resources,
               this`cleanupUncertain, this`restored
      ensures var s := PassRun(turns, old(Spending()), old(resources)); Spending() == s.meter && ok == s.ok && resources == s.Left()
      ensures cleanupUncertain == (old(cleanupUncertain) || !ok) && !restored
      ensures ok ==> gone == old(gone) + RoundOf(resources) + RoundOf(resources)
    {
      ok := CleanOnce();
      if ok {
        SomeLeft(resources);
        MarkAbsent();
      }
      cleanupUncertain, restored := cleanupUncertain || !ok, false;
    }

    // ---- the whole run ----

    /** The work's own use of the cleanup's counters: none. */
    twostate predicate Unspent()
      reads this
    {
      Spending() == old(Spending()).(remaining := remaining, turn := turn)
    }

    /** A container on one of the networks, and what is observed after it. */
    method AddMember(role: Role, slot: Slot, network: nat, caps: seq<nat>, ghost id: string) returns (ok: bool)
      requires Poised() && restored && network < |resources|
      modifies this`remaining, this`turn, this`workCalls, this`workBytes, this`resources, this`restored
      ensures Valid() && (ok ==> restored && Ready(remaining, resources) && |resources| == |old(resources)| + 1)
      ensures old(Affords(4 + |caps|)) && |old(resources)| < 5 && OpenTo(old(resources), role, slot) && NewId(outerId, old(resources), id)
              && old(resources)[network].id.Some? && Capped(caps)
              && Plays(turns, old(turn), MemberTurns(old(resources)[network].id.value, id, |caps|)) ==>
        && ok && Played(4 + |caps|) && resources == old(resources) + [Resource(role, slot, Some(id), true, false)]
        && Live(resources) == Live(old(resources)) + 1
    {
      ghost var helped := resources[network].id.Some? && Plays(turns, turn, MemberTurns(resources[network].id.value, id, |caps|));
      if helped { MemberPlays(turns, turn, resources[network].id.value, id, |caps|); }
      ok := CreateContainer(role, slot, network, id);
      if !ok { return false; }
      ok := Observe(caps);
    }

    /** Where the building of a role stands after `k` resources, when every command takes a second. */
    ghost predicate OnTrack(b: Start, role: Role, n: seq<nat>, k: nat)
      requires |n| == 4 && k <= 5
      reads this`remaining, this`turn, this`workCalls, this`workBytes, this`resources
    {
      && resources == Built(role)[..k] && Live(resources) == k
      && remaining + 1000 * Before(n, k) == b.remaining && turn == b.turn + Before(n, k)
      && workCalls == b.calls + Before(n, k) && workBytes == b.bytes
    }

    /** Both networks of a role, and what is observed after them. */
    method AddPair(role: Role, caps: seq<nat>, ghost one: string, ghost two: string) returns (ok: bool)
      requires Poised()
      modifies this`remaining, this`turn, this`workCalls, this`workBytes, this`resources, this`restored
      ensures Valid() && (ok ==> restored && Ready(remaining, resources) && |resources| == |old(resources)| + 2)
      ensures old(Affords(6 + |caps|)) && Capped(caps) && |old(resources)| < 4 && NewPair(turns, old(turn), outerId, old(resources), role, one, two, |caps|) ==>
        && ok && Played(6 + |caps|) && Live(resources) == Live(old(resources)) + 2
        && resources == old(resources) + [Resource(role, PrimaryNetwork, Some(one), true, false)]
                        + [Resource(role, SecondaryNetwork, Some(two), true, false)]
      ensures old(remaining) <= SHORTEST && OpenTo(old(resources), role, PrimaryNetwork) ==> !ok && Held(role)
    {
      ok := Create(role, PrimaryNetwork, one);
      if !ok { return false; }
      ok := AddSecond(role, caps, two);
    }

    method AddSecond(role: Role, caps: seq<nat>, ghost two: string) returns (ok: bool)
      requires Poised() && restored
      modifies this`remaining, this`turn, this`workCalls, this`workBytes, this`resources, this`restored
      ensures Valid() && (ok ==> restored && Ready(remaining, resources) && |resources| == |old(resources)| + 1)
      ensures old(Affords(3 + |caps|)) && Capped(caps) && |old(resources)| < 5 && Live(old(resources)) < MAX_LIVE
              && NewSecond(turns, old(turn), outerId, old(resources), role, two, |caps|) ==>
        && ok && Played(3 + |caps|) && resources == old(resources) + [Resource(role, SecondaryNetwork, Some(two), true, false)]
        && Live(resources) == Live(old(resources)) + 1
    {
      ok := Create(role, SecondaryNetwork, two);
      if !ok { return false; }
      ok := Observe(caps);
    }

    /** Nothing happened but that the first name was registered. */
    twostate predicate Held(role: Role)
      reads this
    {
      Played(0) && restored == old(restored) && resources == old(resources) + [Resource(role, PrimaryNetwork, None, false, false)]
    }

    method AddNetworks(role: Role, caps: seq<nat>, ghost b: Start, ghost n: seq<nat>) returns (ok: bool)
      requires Poised() && |n| == 4 && |caps| == n[0]
      modifies this`remaining, this`turn, this`workCalls, this`workBytes, this`resources, this`restored
      ensures Valid() && (ok ==> restored && Ready(remaining, resources) && |resources| == |old(resources)| + 2)
      ensures Helps(turns, outerId, b, n) && Capped(caps) && old(OnTrack(b, role, n, 0)) ==> ok && OnTrack(b, role, n, 2)
      ensures old(remaining) <= SHORTEST && OpenTo(old(resources), role, PrimaryNetwork) ==> !ok && Held(role)
    {
      if Helps(turns, outerId, b, n) { StartPlays(turns, outerId, b, n, role); }
      ok := AddPair(role, caps, IdOf(0), IdOf(1));
    }

    /** The next container of a role. */
    method AddNext(role: Role, slot: Slot, network: nat, caps: seq<nat>, ghost b: Start, ghost n: seq<nat>, ghost k: nat) returns (ok: bool)
      requires Poised() && restored && network < |resources|
      requires |n| == 4 && 2 <= k < 5 && slot == Built(role)[k].slot && |caps| == n[k - 1]
      modifies this`remaining, this`turn, this`workCalls, this`workBytes, this`resources, this`restored
      ensures Valid() && (ok ==> restored && Ready(remaining, resources) && |resources| == |old(resources)| + 1)
      ensures Helps(turns, outerId, b, n) && Capped(caps) && old(OnTrack(b, role, n, k)) && network == NetworkOf(k) ==>
        ok && OnTrack(b, role, n, k + 1)
    {
      if Helps(turns, outerId, b, n) && OnTrack(b, role, n, k) && network == NetworkOf(k) { NextPlays(turns, outerId, b, n, role, k); }
      ok := AddMember(role, slot, network, caps, IdOf(k));
    }

    /** Networks, containers and observations of one role. */
    method Build(role: Role, script: Script, ghost b: Start) returns (ok: bool)
      requires Poised()
      modifies this`remaining, this`turn, this`workCalls, this`workBytes, this`resources, this`restored
      ensures Valid() && (ok ==> restored && |resources| == |old(resources)| + 5)
      ensures Helps(turns, outerId, b, Counts(script, role)) && AllCapped(script, role) && old(OnTrack(b, role, Counts(script, role), 0)) ==>
        ok && OnTrack(b, role, Counts(script, role), 5)
      ensures old(remaining) <= SHORTEST && OpenTo(old(resources), role, PrimaryNetwork) ==> !ok && Held(role)
    {
      hide Helps, Capped, CanonicalIds, UniqueNames, Taken;
      ghost var n := Counts(script, role);
      var base := |resources|;
      ok := AddNetworks(role, script(role, 0), b, n);
      if !ok { return false; }
      ok := AddNext(role, Server, base, script(role, 1), b, n, 2);
      if !ok { return false; }
      ok := AddNext(role, PrimaryPeer, base, script(role, 2), b, n, 3);
      if !ok { return false; }
      ok := AddNext(role, SecondaryPeer, base + 1, script(role, 3), b, n, 4);
    }

    /** What a role that the daemon lets go on leaves, counted from where it began. */
    ghost predicate RoleDone(b: Start, role: Role, n: seq<nat>)
      requires |n| == 4
      reads this`remaining, this`turn, this`resources
    {
      && remaining + 1000 * (Before(n, 5) + 31) == b.remaining && turn == b.turn + Before(n, 5) + 31
      && Cleaned(role, resources)
    }

    /** No cleanup has spent anything yet. */
    ghost predicate Unused()
      reads this`cleanupCalls, this`cleanupBytes, this`late, this`refused
    {
      cleanupCalls == 0 && cleanupBytes == 0 && !late && !refused
    }

    /** The cleanup of a role, which has to succeed. */
    method CleanRole(ghost role: Role, ghost b: Start, ghost n: seq<nat>) returns (end: Ended)
      requires Valid() && restored && |n| == 4
      modifies this
      ensures Valid() && !end.Stopped? && late == old(late)
      ensures end.Passed? ==> !restored && Live(resources) == 0 && |resources| == |old(resources)|
      ensures PassSpent(old(Spending()), Spending(), |old(resources)|)
      ensures Helps(turns, outerId, b, n) && Sweeps(turns, b, n, role) && old(Unused()) && old(OnTrack(b, role, n, 5)) ==>
        end.Passed? && RoleDone(b, role, n)
    {
      hide Helps, Sweeps, PassRun, PassSpent, CanonicalIds, UniqueNames, Cleaned;
      PassSettles(turns, Spending(), resources);
      PassLeaves(turns, Spending(), resources);
      if Helps(turns, outerId, b, n) && Sweeps(turns, b, n, role) && Unused() && OnTrack(b, role, n, 5) {
        RoleSwept(turns, outerId, Spending(), resources, b, n, role);
      }
      var cleaned := Cleanup();
      return if cleaned then Passed else PassFailed;
    }

    /** One role: build and observe, then clean up; the cleanup has to succeed. */
    method PlayRole(role: Role, script: Script, ghost b: Start) returns (end: Ended)
      requires Poised()
      modifies this
      ensures Valid() && late == old(late)
      ensures end.Stopped? ==> Unspent()
      ensures end.Passed? ==> !restored && Live(resources) == 0 && |resources| == |old(resources)| + 5
      ensures !end.Stopped? ==> PassSpent(old(Spending()), Spending(), |old(resources)| + 5)
      ensures old(Aided(b, script, role)) ==> end.Passed? && RoleDone(b, role, Counts(script, role))
      ensures old(remaining) <= SHORTEST && OpenTo(old(resources), role, PrimaryNetwork) ==> end.Stopped? && Held(role)
    {
      var built := Build(role, script, b);
      if !built { return Stopped; }
      end := CleanRole(role, b, Counts(script, role));
    }

    /** The daemon lets the first role be built and cleaned, at a second for each command, and there is time, room and output for it. */
    ghost predicate Aided(b: Start, script: Script, role: Role)
      reads this`remaining, this`turn, this`workCalls, this`workBytes, this`resources, this`cleanupCalls, this`cleanupBytes, this`late,
            this`refused
    {
      var n := Counts(script, role);
      Helps(turns, outerId, b, n) && AllCapped(script, role) && OnTrack(b, role, n, 0) && Unused() && Sweeps(turns, b, n, role)
    }

    /** Where a role that begins now begins. */
    ghost function Here(): Start
      reads this`remaining, this`turn, this`workCalls, this`workBytes
    {
      Start(remaining, turn, workCalls, workBytes)
    }

    lemma ShortIsAided(b: Start, script: Script, context: seq<nat>)
      requires CutShort(turns, outerId, b, script, context, 0) && Here() == Prepared(b, |context|) && resources == [] && Unused()
      ensures Aided(Here(), script, OracleRole)
    {
      assert Built(OracleRole)[..0] == [];
    }

    /** What is observed before anything is registered, and the facts of the daemon. */
    method Prepare(context: seq<nat>, elapsed: nat) returns (ok: bool)
      requires Bounded() && restored && Ready(remaining, resources) && resources == []
      modifies this`remaining, this`turn, this`workCalls, this`workBytes, this`restored
      ensures Valid() && (ok ==> restored && Ready(remaining, resources))
      ensures Prepares(turns, old(Here()), context, elapsed) ==> ok && Here() == Prepared(old(Here()), |context|)
    {
      ok := Observe(context);
      if !ok { return; }
      ok := Acquire(elapsed);
    }

    /** Facts of the daemon, both roles, and a last look at the outer container. */
    method Work(script: Script, context: seq<nat>, elapsed: nat) returns (end: Ended)
      requires Bounded() && restored && Ready(remaining, resources) && resources == []
      requires Spending() == Meter(remaining, 0, 0, 0, false, false)
      modifies this
      ensures Valid() && !late
      ensures !end.PassFailed? ==> !refused && Fits(Spending(), resources)
      ensures end.Passed? ==> restored
      ensures CutShort(turns, outerId, old(Here()), script, context, elapsed) ==>
        end.Stopped? && remaining == 18000 && turn == Ahead(script, context) && HeldUp(resources)
    {
      ghost var start, b := Spending(), Here();
      end := Stopped;
      PassesFit(resources);
      ghost var short := CutShort(turns, outerId, b, script, context, elapsed);
      if short { ShortPrepares(turns, outerId, b, script, context, elapsed); }
      var prepared := Prepare(context, elapsed);
      if !prepared { return; }
      if short { ShortIsAided(b, script, context); }
      end := PlayRoles(script, start);
      if !end.Passed? { return; }
      var last := WorkCapture(PODMAN_CAP);
      end := if last.Some? && last.value.owned then Passed else Stopped;
    }

    method PlayRoles(script: Script, ghost start: Meter) returns (end: Ended)
      requires Bounded() && restored && Ready(remaining, resources) && resources == []
      requires start.calls == 0 && start.bytes == 0 && Unused() && !start.refused
      modifies this
      ensures Valid() && !late
      ensures !end.PassFailed? ==> !refused && Fits(Spending(), resources)
      ensures old(Aided(Here(), script, OracleRole)) && old(remaining) == SHORTEST + 1000 * Before(Counts(script, OracleRole), 5) ==>
        && end.Stopped? && remaining == 18000 && turn == old(turn) + Before(Counts(script, OracleRole), 5) + 31
        && HeldUp(resources)
    {
      ghost var b := Here();
      end := PlayRole(OracleRole, script, b);
      PassesFit(resources);
      if !end.Passed? { return; }
      ghost var once := Spending();
      if Cleaned(OracleRole, resources) { CleanedIsOpen(resources); }
      SecondFits(start, once, resources);
      end := PlayRole(RenderedRole, script, b);
      SecondFits(start, once, resources);
      if !end.Passed? { return; }
      LastFits(start, once, Spending(), resources);
    }

    /** A cleanup, and another one when that leaves something live. */
    method Settle() returns (cleaned: bool)
      requires Bounded()
      modifies this
      ensures Bounded() && cleaned == PassRun(turns, old(Spending()), old(resources)).ok
      ensures cleaned ==> resources == PassRun(turns, old(Spending()), old(resources)).Left() && Live(resources) == 0
      ensures PassRun(turns, old(Spending()), old(resources)).meter.late ==> late
    {
      PassLeaves(turns, Spending(), resources);
      cleaned := Cleanup();
      if !cleaned && exists i :: 0 <= i < |resources| && resources[i].live {
        PassLeaves(turns, Spending(), resources);
        PassRunSpends(turns, Spending(), resources);
        var _ := Cleanup();
      }
    }

    /** The whole run: the work, then a cleanup whatever happened, and another when that leaves something live. Unless a role's own
        cleanup failed, calls and output have room for the cleanup after the work; and there is time for it if a work command was
        admitted since the last role's cleanup, as it was when the work passed. So it is never refused, and late only in the time that
        `ready` excludes. */
    method LiveRun(script: Script, context: seq<nat>, elapsed: nat)
      returns (end: Ended, cleaned: bool, ghost ready: bool, ghost before: Meter, ghost rs: seq<Resource>)
      requires Bounded() && restored && Ready(remaining, resources) && resources == []
      requires Spending() == Meter(remaining, 0, 0, 0, false, false)
      modifies this
      ensures Bounded() && Orderly(rs) && (end.Passed? ==> ready) && cleaned == PassRun(turns, before, rs).ok
      ensures ready ==> Covered(before.remaining, rs)
      ensures !end.PassFailed? ==> Free(before) && Fits(before, rs)
      ensures !end.PassFailed? ==> !PassRun(turns, before, rs).meter.refused && (ready ==> !PassRun(turns, before, rs).meter.late)
      ensures cleaned ==> resources == PassRun(turns, before, rs).Left() && Live(resources) == 0
      ensures PassRun(turns, before, rs).meter.late ==> late
      ensures ready && !end.PassFailed? && LetsPass(turns, before.turn, rs) ==> cleaned
      ensures CutShort(turns, outerId, old(Here()), script, context, elapsed) ==> end.Stopped? && HeldUp(rs) && PassRun(turns, before, rs).meter.late
    {
      ghost var short := CutShort(turns, outerId, Here(), script, context, elapsed);
      end := Work(script, context, elapsed);
      ready, before, rs := restored, Spending(), resources;
      PassRunSpends(turns, before, rs);
      if ready && !end.PassFailed? && LetsPass(turns, before.turn, rs) { HelpedPassSucceeds(turns, before, rs); }
      if short { HeldUpIsLate(turns, before, rs); }
      cleaned := Settle();
    }
  }

  /** Where such a run begins. */
  function ShortStart(script: Script, context: seq<nat>): Start {
    Start(SHORTEST + 1000 * (|context| + Before(Counts(script, OracleRole), 5)), 0, 0, 0)
  }

  /** The deadline check can be met: for every script there is a daemon and a deadline such that the cleanup after the work is late,
      although the role before it was cleaned and nothing was refused for calls or output. */
  method LateRun(script: Script, context: seq<nat>) returns (run: Run, end: Ended, ghost before: Meter, ghost rs: seq<Resource>)
    requires Capped(context) && AllCapped(script, OracleRole)
    requires |context| + 16 + Before(Counts(script, OracleRole), 5) <= MAX_WORK_CALLS
    ensures fresh(run) && run.turns == OneRoleTurns(|context|, Counts(script, OracleRole)) && end.Stopped? && run.late
    ensures HeldUp(rs) && Free(before) && Fits(before, rs) && PassRun(run.turns, before, rs).meter.late
  {
    OneRoleExists(|context|, Counts(script, OracleRole));
    run := new Run("", OneRoleTurns(|context|, Counts(script, OracleRole)), ShortStart(script, context).remaining);
    var cleaned: bool;
    ghost var ready;
    end, cleaned, ready, before, rs := run.LiveRun(script, context, 0);
  }
}
