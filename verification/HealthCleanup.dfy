/** A run whose observations, removals and cleanup draw on one counter of calls and one of bytes. */
module HealthCleanup {
  import opened Outcome
  import opened Numerals
  import opened HealthPass

  /** What a removal or a cleanup addresses. */
  datatype Key = ById(index: nat) | ByName(index: nat) | ImageId | ImageTag

  datatype Op = Read(key: Key) | Delete(key: Key)

  /** An answered command. */
  datatype Event = Event(op: Op, status: nat)

  function Gone(key: Key): Event {
    Event(Read(key), 404)
  }

  /** A removal that went all the way, each read before the delete having been authenticated. */
  function Removed(index: nat): seq<Event> {
    [Event(Read(ByName(index)), 200), Event(Read(ById(index)), 200), Event(Delete(ById(index)), 204), Gone(ById(index)), Gone(ByName(index))]
  }

  /** An absence round: each attempted container by ID and by name. */
  function RoundOf(attempted: seq<bool>): seq<Event> {
    if attempted == [] then []
    else
      var last := |attempted| - 1;
      RoundOf(attempted[..last]) + if attempted[last] then [Gone(ById(last)), Gone(ByName(last))] else []
  }

  function ImageRound(attempted: bool): seq<Event> {
    if attempted then [Gone(ImageId), Gone(ImageTag)] else []
  }

  class HealthRun {
    const turns: nat -> Turn
    var turn: nat
    var calls: nat
    var bytes: nat
    var ids: seq<Option<string>>
    var attempted: seq<bool>
    var derivedId: Option<string>
    var imageAttempted: bool
    var cleaned: bool
    /** Whether a cleanup command was ever refused for want of calls or bytes. */
    ghost var refused: bool
    ghost var log: seq<Event>

    ghost predicate Valid()
      reads this
    {
      |ids| == |attempted| == CONTAINERS && !refused && Spendable(calls, bytes)
    }

    constructor (turns: nat -> Turn)
      ensures Valid() && this.turns == turns && calls == 0 && bytes == 0 && !cleaned
    {
      this.turns := turns;
      turn, calls, bytes := 0, 0, 0;
      ids, attempted := seq(CONTAINERS, _ => None), seq(CONTAINERS, _ => false);
      derivedId, imageAttempted, cleaned, refused, log := None, false, false, false, [];
    }

    ghost function Here(): Meter
      reads this`turn, this`calls, this`bytes, this`refused
    {
      Meter(turn, calls, bytes, refused)
    }

    /** A command of the work; `None` is a panic. */
    method WorkCapture() returns (r: Option<Turn>)
      requires Valid()
      modifies this`turn, this`calls, this`bytes
      ensures Valid()
      ensures r.Some? ==> WithinWork(calls, bytes)
      ensures r.None? ==> WithinWork(calls, bytes) || (calls == old(calls) && bytes == old(bytes))
    {
      if !CaptureRoom(calls, bytes, false) { return None; }
      var played := turns(turn);
      var retained := Min(played.retained, WORK_ENVELOPE);
      calls, bytes, turn := calls + 1, bytes + retained, turn + 1;
      if retained < played.retained || bytes > MAX_BYTES || !played.completes { return None; }
      return Some(played);
    }

    /** A command of a removal or of the cleanup. */
    method CleanupCapture(op: Op) returns (r: Option<Turn>)
      modifies this`turn, this`calls, this`bytes, this`refused, this`log
      ensures Spent(1)
      ensures (Here(), r) == CommandRun(turns, old(Here()))
      ensures r.Some? ==> log == old(log) + [Event(op, r.value.status)]
    {
      if !CaptureRoom(calls, bytes, true) {
        refused := true;
        return None;
      }
      var played := turns(turn);
      var retained := Min(played.retained, CLEANUP_ENVELOPE);
      calls, bytes, turn := calls + 1, bytes + retained, turn + 1;
      log := log + [Event(op, played.status)];
      if retained < played.retained || bytes > MAX_BYTES || !played.completes { return None; }
      return Some(played);
    }

    /** What a stretch of cleanup commands may spend, and that it is not refused when there was room for it. */
    twostate predicate Spent(n: nat)
      reads this
    {
      && old(calls) <= calls <= old(calls) + n
      && bytes <= old(bytes) + CLEANUP_ENVELOPE * (calls - old(calls))
      && (Room(old(calls), old(bytes), n) ==> refused == old(refused))
    }

    // ---- removals ----

    /** One API exchange of a removal; a body that is read must parse. */
    method Api(op: Op) returns (r: Option<Turn>)
      modifies this`turn, this`calls, this`bytes, this`refused, this`log
      ensures Spent(1)
      ensures (Here(), r) == ApiRun(turns, old(Here()))
      ensures r.Some? ==> log == old(log) + [Event(op, r.value.status)]
    {
      r := CleanupCapture(op);
      if r.Some? && (r.value.status == 200 || r.value.status == 201) && !r.value.parses { return None; }
    }

    /** Read by name, register, read by ID, delete, and read both absent: five calls at most. */
    method RemoveContainer(index: nat) returns (r: Option<bool>)
      requires |ids| == CONTAINERS && index < CONTAINERS
      modifies this`turn, this`calls, this`bytes, this`refused, this`ids, this`log
      ensures Spent(5) && |ids| == CONTAINERS
      ensures forall i :: 0 <= i < CONTAINERS && old(ids)[i].Some? ==> ids[i] == old(ids)[i]
      ensures r == Some(true) ==> ids[index].Some?
      ensures r == Some(true) ==> log == old(log) + Removed(index) || log == old(log) + [Gone(ByName(index))]
      ensures Removal(Here(), ids, r) == ContainerRun(turns, old(Here()), old(ids), index)
    {
      var read := Api(Read(ByName(index)));
      if read.None? { return None; }
      if read.value.status == 404 { return Some(ids[index].Some?); }
      if read.value.status != 200 || !Owned(read.value, ids[index]) { return Some(false); }
      if Another(ids, index, read.value.id) { return Some(false); }
      ids := ids[index := read.value.id];
      r := RemoveRegistered(index);
    }

    method RemoveRegistered(index: nat) returns (r: Option<bool>)
      requires index < |ids|
      modifies this`turn, this`calls, this`bytes, this`refused, this`log
      ensures Spent(4)
      ensures r == Some(true) ==> log == old(log) + Removed(index)[1..]
      ensures (Here(), r) == RegisteredRun(turns, old(Here()), ids[index])
    {
      var again := Api(Read(ById(index)));
      if again.None? { return None; }
      if again.value.status != 200 || !Owned(again.value, ids[index]) { return Some(false); }
      var deleted := Api(Delete(ById(index)));
      if deleted.None? { return None; }
      if deleted.value.status != 204 { return Some(false); }
      var identified := Api(Read(ById(index)));
      if identified.None? { return None; }
      if identified.value.status != 404 { return Some(false); }
      var named := Api(Read(ByName(index)));
      return if named.None? then None else Some(named.value.status == 404);
    }

    /** Read by tag, register, read by ID, and delete: three calls at most. */
    method RemoveImage() returns (r: Option<bool>)
      modifies this`turn, this`calls, this`bytes, this`refused, this`derivedId, this`log
      ensures Spent(3)
      ensures old(derivedId).Some? ==> derivedId == old(derivedId)
      ensures r == Some(true) && imageAttempted ==> derivedId.Some?
      ensures r == Some(true) && imageAttempted ==>
        log == old(log) + [Gone(ImageTag)]
        || log == old(log) + [Event(Read(ImageTag), 200), Event(Read(ImageId), 200), Event(Delete(ImageId), 200)]
      ensures Removal(Here(), derivedId, r) == DerivedRun(turns, old(Here()), old(derivedId), imageAttempted)
    {
      if !imageAttempted { return Some(true); }
      var read := Api(Read(ImageTag));
      if read.None? { return None; }
      if read.value.status == 404 { return Some(derivedId.Some?); }
      if read.value.status != 200 || !Owned(read.value, derivedId) { return Some(false); }
      derivedId := read.value.id;
      var again := Api(Read(ImageId));
      if again.None? { return None; }
      if again.value.status != 200 || !Owned(again.value, derivedId) { return Some(false); }
      var deleted := Api(Delete(ImageId));
      return if deleted.None? then None else Some(deleted.value.status == 200);
    }

    // ---- cleanup ----

    /** Read one key absent. */
    method IsGone(key: Key) returns (r: bool)
      modifies this`turn, this`calls, this`bytes, this`refused, this`log
      ensures Spent(1)
      ensures r ==> log == old(log) + [Gone(key)]
      ensures (Here(), r) == GoneRun(turns, old(Here()))
    {
      var read := Api(Read(key));
      return read.Some? && read.value.status == 404;
    }

    method PairGone(known: bool, first: Key, second: Key) returns (r: bool)
      modifies this`turn, this`calls, this`bytes, this`refused, this`log
      ensures Spent(2)
      ensures r ==> known && log == old(log) + [Gone(first), Gone(second)]
      ensures (Here(), r) == PairRun(turns, old(Here()), known)
    {
      if !known { return false; }
      r := IsGone(first);
      if r { r := IsGone(second); }
    }

    method RemoveAttempted() returns (verified: bool)
      requires |ids| == |attempted| == CONTAINERS
      modifies this`turn, this`calls, this`bytes, this`refused, this`ids, this`log
      ensures Spent(5 * CONTAINERS) && |ids| == CONTAINERS
      ensures Removals(Here(), ids, verified) == RemovalsRun(turns, old(Here()), old(ids), attempted, |attempted|)
    {
      verified := true;
      for index := 0 to CONTAINERS
        invariant |ids| == CONTAINERS && (Room(old(calls), old(bytes), 5 * CONTAINERS) ==> refused == old(refused))
        invariant old(calls) <= calls <= old(calls) + 5 * index
        invariant bytes <= old(bytes) + CLEANUP_ENVELOPE * (calls - old(calls))
        invariant Removals(Here(), ids, verified) == RemovalsRun(turns, old(Here()), old(ids), attempted, index)
      {
        if attempted[index] {
          var removed := RemoveContainer(index);
          verified := verified && removed == Some(true);
        }
      }
    }

    method AbsenceRound() returns (verified: bool)
      requires |ids| == |attempted| == CONTAINERS
      modifies this`turn, this`calls, this`bytes, this`refused, this`log
      ensures Spent(2 * CONTAINERS + 2)
      ensures verified ==> log == old(log) + (RoundOf(attempted) + ImageRound(imageAttempted))
      ensures verified ==> forall i :: 0 <= i < CONTAINERS && attempted[i] ==> ids[i].Some?
      ensures (Here(), verified) == RoundRun(turns, old(Here()), ids, attempted, derivedId, imageAttempted)
    {
      verified := true;
      assert attempted[..0] == [];
      for index := 0 to CONTAINERS
        invariant old(calls) <= calls <= old(calls) + 2 * index
        invariant Room(old(calls), old(bytes), 2 * CONTAINERS + 2) ==> refused == old(refused)
        invariant bytes <= old(bytes) + CLEANUP_ENVELOPE * (calls - old(calls))
        invariant verified ==> log == old(log) + RoundOf(attempted[..index])
        invariant verified ==> forall i :: 0 <= i < index && attempted[i] ==> ids[i].Some?
        invariant (Here(), verified) == PairsRun(turns, old(Here()), ids, attempted, index)
      {
        assert attempted[..index + 1][..index] == attempted[..index];
        if attempted[index] {
          var absent := PairGone(ids[index].Some?, ById(index), ByName(index));
          verified := verified && absent;
        }
      }
      assert attempted[..CONTAINERS] == attempted;
      if imageAttempted {
        var absent := PairGone(derivedId.Some?, ImageId, ImageTag);
        verified := verified && absent;
      }
    }

    /** Remove everything attempted, the image only when every container is gone, then read all of it absent twice. No command is
        refused where calls and bytes have room for the pass. */
    method Cleanup() returns (verified: bool)
      requires |ids| == |attempted| == CONTAINERS
      modifies this`turn, this`calls, this`bytes, this`refused, this`ids, this`derivedId, this`log, this`cleaned
      ensures Spent(PassCalls(CONTAINERS)) && |ids| == CONTAINERS
      ensures cleaned == verified
      ensures verified ==> forall i :: 0 <= i < CONTAINERS && attempted[i] ==> ids[i].Some?
      ensures verified ==> exists before ::
        log == before + (RoundOf(attempted) + ImageRound(imageAttempted)) + (RoundOf(attempted) + ImageRound(imageAttempted))
      ensures Pass(Here(), ids, derivedId, verified)
           == PassRun(turns, old(Here()), old(ids), attempted, old(derivedId), imageAttempted)
    {
      verified := RemoveAttempted();
      if verified {
        var removed := RemoveImage();
        verified := removed == Some(true);
      }
      ghost var before := log;
      ghost var round := RoundOf(attempted) + ImageRound(imageAttempted);
      var first := AbsenceRound();
      var second := AbsenceRound();
      verified := verified && first && second;
      cleaned := verified;
      assert verified ==> log == before + round + round;
    }

    // ---- the work ----

    /** Any number of observations; at least one, when `ok`. */
    method Observe(count: nat) returns (ok: bool)
      requires Valid() && count > 0
      modifies this`turn, this`calls, this`bytes
      ensures Valid() && (ok ==> WithinWork(calls, bytes))
    {
      for i := 0 to count
        invariant Valid() && (i > 0 ==> WithinWork(calls, bytes))
      {
        var sampled := WorkCapture();
        if sampled.None? { return false; }
      }
      return true;
    }

    /** See that the name is free, create, and bind the reported ID after reading it back by name. */
    method Create(index: nat) returns (ok: bool)
      requires Valid() && index < CONTAINERS
      modifies this`turn, this`calls, this`bytes, this`ids, this`attempted
      ensures Valid() && (ok ==> WithinWork(calls, bytes))
      ensures attempted == old(attempted) || attempted == old(attempted)[index := true]
      ensures ok ==> attempted[index] && ids[index].Some? && ids == old(ids)[index := ids[index]] && ids[index] !in old(ids)
      ensures !ok ==> ids == old(ids)
    {
      var free := WorkCapture();
      if free.None? || free.value.status != 404 { return false; }
      attempted := attempted[index := true];
      var created := WorkCapture();
      if created.None? || created.value.id.None? { return false; }
      var read := WorkCapture();
      if read.None? || read.value.status != 200 || !read.value.parses || !Owned(read.value, created.value.id) { return false; }
      if created.value.id in ids { return false; }
      ids := ids[index := created.value.id];
      return true;
    }

    /** Commit an image from a seed container, and remove the seed. */
    method DeriveImage() returns (ok: bool)
      requires Valid()
      modifies this`turn, this`calls, this`bytes, this`ids, this`attempted, this`imageAttempted, this`derivedId, this`refused, this`log
      ensures Valid()
    {
      var free := WorkCapture();
      if free.None? || free.value.status != 404 { return false; }
      ok := Create(SEED);
      if !ok { return false; }
      var before := WorkCapture();
      if before.None? || before.value.status != 200 || !Owned(before.value, ids[SEED]) { return false; }
      imageAttempted := true;
      var committed := WorkCapture();
      if committed.None? { return false; }
      var read := WorkCapture();
      if read.None? || read.value.status != 200 || !Owned(read.value, committed.value.id) { return false; }
      derivedId := committed.value.id;
      var removed := RemoveContainer(SEED);
      return removed == Some(true);
    }

    /** Create a pair, observe it for as long as the world makes it, and remove it: the next pair starts only after both are gone. */
    method ObservePair(pair: nat, observations: nat) returns (ok: bool)
      requires Valid() && pair < 4
      modifies this`turn, this`calls, this`bytes, this`ids, this`attempted, this`refused, this`log
      ensures Valid()
    {
      ok := Create(2 * pair);
      if !ok { return false; }
      ok := Create(2 * pair + 1);
      if !ok { return false; }
      ok := Observe(observations + 1);
      if !ok { return false; }
      var first := RemoveContainer(2 * pair);
      if first != Some(true) { return false; }
      var second := RemoveContainer(2 * pair + 1);
      return second == Some(true);
    }

    method Work(observations: nat -> nat) returns (ok: bool)
      requires Valid()
      modifies this`turn, this`calls, this`bytes, this`ids, this`attempted, this`imageAttempted, this`derivedId, this`refused, this`log
      ensures Valid()
    {
      ok := Observe(observations(0) + 1);
      if !ok { return false; }
      ok := DeriveImage();
      if !ok { return false; }
      for pair := 0 to 4
        invariant Valid()
      {
        ok := ObservePair(pair, observations(pair + 1));
        if !ok { return false; }
      }
      return true;
    }

    /** The whole run: however far the work gets, no command of the cleanup after it is refused for want of calls or bytes, and that
        cleanup succeeds when the daemon lets it go on. When it does not verify, another one follows, and its commands are refused only
        if what is left has no room for a pass. */
    method Live(observations: nat -> nat)
      returns (passed: bool, ghost start: Pass, ghost first: bool, ghost left: (nat, nat))
      requires Valid()
      modifies this
      ensures !first && |start.ids| == |ids| == |attempted| == CONTAINERS
      ensures refused ==> !passed && !Room(left.0, left.1, PassCalls(CONTAINERS))
      ensures passed ==> cleaned && forall i :: 0 <= i < CONTAINERS && attempted[i] ==> ids[i].Some?
      ensures LetsPass(turns, start.meter.turn, start.ids, attempted, start.derivedId, imageAttempted) ==> cleaned && passed == start.ok
    {
      var worked := Work(observations);
      PassFits(calls, bytes);
      start := Pass(Here(), ids, derivedId, worked);
      if LetsPass(turns, turn, ids, attempted, derivedId, imageAttempted) {
        HelpedPassSucceeds(turns, Here(), ids, attempted, derivedId, imageAttempted);
      }
      var verified := Cleanup();
      first, left := refused, (calls, bytes);
      if !verified {
        var _ := Cleanup();
      }
      return worked && verified, start, first, left;
    }
  }
}
