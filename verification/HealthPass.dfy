/** What a cleanup of health containers and their image does and spends, as a function of the daemon's turns; and when it succeeds. */
module HealthPass {
  import opened Outcome
  import opened Numerals

  /** One command as the world plays it, reduced to what the run looks at: its output's size, whether it completes, the status, whether
      a body that is read parses and names the object as this run's own, and the ID in it. */
  datatype Turn = Turn(retained: nat, completes: bool, status: nat, parses: bool, owned: bool, id: Option<string>)

  const MAX_CALLS := 400
  const MAX_BYTES := 4 * 1024 * 1024
  const CLEANUP_CALLS := 100
  const CLEANUP_BYTES := 2 * 1024 * 1024
  const WORK_ENVELOPE := 65550 + 8192
  const CLEANUP_ENVELOPE := 8192 + 2048
  const CONTAINERS := 9
  const SEED := 8

  /** Work stops short of what is set aside for cleanup. */
  predicate CaptureRoom(calls: nat, bytes: nat, cleanup: bool) {
    if cleanup then calls < MAX_CALLS && bytes + CLEANUP_ENVELOPE <= MAX_BYTES
    else calls < MAX_CALLS - CLEANUP_CALLS && bytes + WORK_ENVELOPE <= MAX_BYTES - CLEANUP_BYTES
  }

  /** Room for so many cleanup calls of any size. */
  predicate Room(calls: nat, bytes: nat, n: nat) {
    calls + n <= MAX_CALLS && bytes + n * CLEANUP_ENVELOPE <= MAX_BYTES
  }

  /** What work alone may have spent. */
  predicate WithinWork(calls: nat, bytes: nat) {
    calls <= MAX_CALLS - CLEANUP_CALLS && bytes <= MAX_BYTES - CLEANUP_BYTES
  }

  /** What work and the removals between two pieces of work may have spent: two removals of five calls. */
  predicate Spendable(calls: nat, bytes: nat) {
    calls <= MAX_CALLS - CLEANUP_CALLS + 10 && bytes <= MAX_BYTES - CLEANUP_BYTES + 10 * CLEANUP_ENVELOPE
  }

  /** Five calls for each container, three for the image, and twice two for each of them. */
  function PassCalls(containers: nat): nat {
    5 * containers + 3 + 2 * (2 * containers + 2)
  }

  /** Whenever a run stops, one cleanup pass of every object fits: eighty-eight calls after at most three hundred and ten. */
  lemma PassFits(calls: nat, bytes: nat)
    requires Spendable(calls, bytes)
    ensures PassCalls(CONTAINERS) == 88 && Room(calls, bytes, PassCalls(CONTAINERS))
  {
  }

  // ---- the cleanup, step by step ----

  predicate Owned(played: Turn, id: Option<string>) {
    played.owned && played.id.Some? && (id.None? || id == played.id)
  }

  /** What a cleanup draws on, how many turns were played, and whether it was ever refused. */
  datatype Meter = Meter(turn: nat, calls: nat, bytes: nat, refused: bool)

  function CommandRun(turns: nat -> Turn, m: Meter): (Meter, Option<Turn>) {
    if !CaptureRoom(m.calls, m.bytes, true) then (m.(refused := true), None)
    else
      var played := turns(m.turn);
      var retained := Min(played.retained, CLEANUP_ENVELOPE);
      var next := Meter(m.turn + 1, m.calls + 1, m.bytes + retained, m.refused);
      (next, if retained < played.retained || next.bytes > MAX_BYTES || !played.completes then None else Some(played))
  }

  /** A body that is read must parse. */
  function ApiRun(turns: nat -> Turn, m: Meter): (Meter, Option<Turn>) {
    var (next, r) := CommandRun(turns, m);
    (next, if r.Some? && (r.value.status == 200 || r.value.status == 201) && !r.value.parses then None else r)
  }

  /** Read by ID, delete, and read both absent: four calls at most. */
  function RegisteredRun(turns: nat -> Turn, m: Meter, id: Option<string>): (Meter, Option<bool>) {
    var (found, again) := ApiRun(turns, m);
    if again.None? then (found, None)
    else if again.value.status != 200 || !Owned(again.value, id) then (found, Some(false))
    else
      var (gone, deleted) := ApiRun(turns, found);
      if deleted.None? then (gone, None)
      else if deleted.value.status != 204 then (gone, Some(false))
      else
        var (unknown, identified) := ApiRun(turns, gone);
        if identified.None? then (unknown, None)
        else if identified.value.status != 404 then (unknown, Some(false))
        else
          var (next, named) := ApiRun(turns, unknown);
          (next, if named.None? then None else Some(named.value.status == 404))
  }

  datatype Removal<I> = Removal(meter: Meter, ids: I, result: Option<bool>)

  predicate Another(ids: seq<Option<string>>, index: nat, id: Option<string>) {
    exists other :: 0 <= other < |ids| && other != index && ids[other] == id
  }

  /** Read by name, register, and remove what was registered. */
  function ContainerRun(turns: nat -> Turn, m: Meter, ids: seq<Option<string>>, index: nat): (x: Removal<seq<Option<string>>>)
    requires index < |ids|
    ensures |x.ids| == |ids|
  {
    var (found, read) := ApiRun(turns, m);
    if read.None? then Removal(found, ids, None)
    else if read.value.status == 404 then Removal(found, ids, Some(ids[index].Some?))
    else if read.value.status != 200 || !Owned(read.value, ids[index]) || Another(ids, index, read.value.id)
    then Removal(found, ids, Some(false))
    else
      var (next, removed) := RegisteredRun(turns, found, read.value.id);
      Removal(next, ids[index := read.value.id], removed)
  }

  /** Read by tag, register, read by ID, and delete: three calls at most. */
  function DerivedRun(turns: nat -> Turn, m: Meter, id: Option<string>, attempted: bool): Removal<Option<string>> {
    if !attempted then Removal(m, id, Some(true))
    else
      var (found, read) := ApiRun(turns, m);
      if read.None? then Removal(found, id, None)
      else if read.value.status == 404 then Removal(found, id, Some(id.Some?))
      else if read.value.status != 200 || !Owned(read.value, id) then Removal(found, id, Some(false))
      else
        var known := read.value.id;
        var (identified, again) := ApiRun(turns, found);
        if again.None? then Removal(identified, known, None)
        else if again.value.status != 200 || !Owned(again.value, known) then Removal(identified, known, Some(false))
        else
          var (next, deleted) := ApiRun(turns, identified);
          Removal(next, known, if deleted.None? then None else Some(deleted.value.status == 200))
  }

  function GoneRun(turns: nat -> Turn, m: Meter): (Meter, bool) {
    var (next, read) := ApiRun(turns, m);
    (next, read.Some? && read.value.status == 404)
  }

  function PairRun(turns: nat -> Turn, m: Meter, known: bool): (Meter, bool) {
    if !known then (m, false)
    else
      var (once, first) := GoneRun(turns, m);
      if !first then (once, false) else GoneRun(turns, once)
  }

  datatype Removals = Removals(meter: Meter, ids: seq<Option<string>>, all: bool)

  function NextRemoval(turns: nat -> Turn, so: Removals, attempted: seq<bool>, k: nat): (x: Removals)
    requires k < |so.ids| == |attempted|
    ensures |x.ids| == |so.ids|
  {
    if !attempted[k] then so
    else
      var x := ContainerRun(turns, so.meter, so.ids, k);
      Removals(x.meter, x.ids, so.all && x.result == Some(true))
  }

  function RemovalsRun(turns: nat -> Turn, m: Meter, ids: seq<Option<string>>, attempted: seq<bool>, k: nat): (x: Removals)
    requires k <= |ids| == |attempted|
    ensures |x.ids| == |ids|
  {
    if k == 0 then Removals(m, ids, true) else NextRemoval(turns, RemovalsRun(turns, m, ids, attempted, k - 1), attempted, k - 1)
  }

  function NextPair(turns: nat -> Turn, so: (Meter, bool), known: bool, attempted: bool): (Meter, bool) {
    if !attempted then so
    else
      var (next, absent) := PairRun(turns, so.0, known);
      (next, so.1 && absent)
  }

  function PairsRun(turns: nat -> Turn, m: Meter, ids: seq<Option<string>>, attempted: seq<bool>, k: nat): (Meter, bool)
    requires k <= |ids| == |attempted|
  {
    if k == 0 then (m, true) else NextPair(turns, PairsRun(turns, m, ids, attempted, k - 1), ids[k - 1].Some?, attempted[k - 1])
  }

  /** Every attempted container, and the image, are read absent. */
  function RoundRun(turns: nat -> Turn, m: Meter, ids: seq<Option<string>>, attempted: seq<bool>, derivedId: Option<string>,
                    imageAttempted: bool): (Meter, bool)
    requires |ids| == |attempted|
  {
    NextPair(turns, PairsRun(turns, m, ids, attempted, |ids|), derivedId.Some?, imageAttempted)
  }

  datatype Pass = Pass(meter: Meter, ids: seq<Option<string>>, derivedId: Option<string>, ok: bool)

  /** Remove everything attempted, the image only when every container is gone, then read all of it absent twice. */
  function PassRun(turns: nat -> Turn, m: Meter, ids: seq<Option<string>>, attempted: seq<bool>, derivedId: Option<string>,
                   imageAttempted: bool): Pass
    requires |ids| == |attempted|
  {
    var x := RemovalsRun(turns, m, ids, attempted, |ids|);
    var y := if x.all then DerivedRun(turns, x.meter, derivedId, imageAttempted) else Removal(x.meter, derivedId, Some(false));
    var first := RoundRun(turns, y.meter, x.ids, attempted, y.ids, imageAttempted);
    var second := RoundRun(turns, first.0, x.ids, attempted, y.ids, imageAttempted);
    Pass(second.0, x.ids, y.ids, x.all && y.result == Some(true) && first.1 && second.1)
  }

  // ---- a daemon that lets it go on ----

  /** The command completes with no more output than is set aside for it, and what is read parses. */
  predicate Good(t: Turn) {
    t.completes && t.retained <= CLEANUP_ENVELOPE && t.parses
  }

  predicate FindsNothing(t: Turn) {
    Good(t) && t.status == 404
  }

  predicate Finds(t: Turn, id: Option<string>) {
    Good(t) && t.status == 200 && Owned(t, id)
  }

  /** The container is found as this run's own, by name and by ID, its removal is confirmed, and neither is found again; or it is not
      found, and known. */
  predicate Removes(turns: nat -> Turn, t: nat, ids: seq<Option<string>>, index: nat)
    requires index < |ids|
  {
    if turns(t).status == 404 then FindsNothing(turns(t)) && ids[index].Some?
    else
      && Finds(turns(t), ids[index]) && !Another(ids, index, turns(t).id) && Finds(turns(t + 1), turns(t).id)
      && Good(turns(t + 2)) && turns(t + 2).status == 204 && FindsNothing(turns(t + 3)) && FindsNothing(turns(t + 4))
  }

  /** The turn and the IDs after the first `k` removals. */
  function After(turns: nat -> Turn, t: nat, ids: seq<Option<string>>, attempted: seq<bool>, k: nat): (x: (nat, seq<Option<string>>))
    requires k <= |ids| == |attempted|
    ensures |x.1| == |ids|
  {
    if k == 0 then (t, ids)
    else
      var (u, known) := After(turns, t, ids, attempted, k - 1);
      if !attempted[k - 1] then (u, known)
      else if turns(u).status == 404 then (u + 1, known)
      else (u + 5, known[k - 1 := turns(u).id])
  }

  ghost predicate RemovesAll(turns: nat -> Turn, t: nat, ids: seq<Option<string>>, attempted: seq<bool>, k: nat)
    requires k <= |ids| == |attempted|
  {
    k == 0 || (RemovesAll(turns, t, ids, attempted, k - 1)
               && (attempted[k - 1] ==> var (u, known) := After(turns, t, ids, attempted, k - 1); Removes(turns, u, known, k - 1)))
  }

  predicate RemovesDerived(turns: nat -> Turn, t: nat, id: Option<string>) {
    if turns(t).status == 404 then FindsNothing(turns(t)) && id.Some?
    else
      Finds(turns(t), id) && Finds(turns(t + 1), turns(t).id) && Good(turns(t + 2)) && turns(t + 2).status == 200
  }

  function AfterDerived(turns: nat -> Turn, t: nat, attempted: bool): nat {
    if !attempted then t else if turns(t).status == 404 then t + 1 else t + 3
  }

  /** Everything attempted is found and removed, or known and not found; and nothing is found after that. */
  ghost predicate LetsPass(turns: nat -> Turn, t: nat, ids: seq<Option<string>>, attempted: seq<bool>, derivedId: Option<string>,
                           imageAttempted: bool)
    requires |ids| == |attempted|
  {
    var u := After(turns, t, ids, attempted, |ids|).0;
    && RemovesAll(turns, t, ids, attempted, |ids|) && (imageAttempted ==> RemovesDerived(turns, u, derivedId))
    && forall k :: AfterDerived(turns, u, imageAttempted) <= k ==> FindsNothing(turns(k))
  }

  /** So many calls were made, each of them by the next turn, and none was refused; there is room for `n` more. */
  predicate Went(a: Meter, b: Meter, calls: nat, n: nat) {
    b.turn == a.turn + calls && b.refused == a.refused && Room(b.calls, b.bytes, n)
  }

  lemma ApiGoes(turns: nat -> Turn, m: Meter, n: nat)
    requires Room(m.calls, m.bytes, n + 1) && Good(turns(m.turn))
    ensures var (next, r) := ApiRun(turns, m); r == Some(turns(m.turn)) && Went(m, next, 1, n)
  {
  }

  lemma RegisteredGoes(turns: nat -> Turn, m: Meter, id: Option<string>, n: nat)
    requires Room(m.calls, m.bytes, n + 4) && Finds(turns(m.turn), id) && Good(turns(m.turn + 1)) && turns(m.turn + 1).status == 204
    requires FindsNothing(turns(m.turn + 2)) && FindsNothing(turns(m.turn + 3))
    ensures var (next, r) := RegisteredRun(turns, m, id); r == Some(true) && Went(m, next, 4, n)
  {
    ApiGoes(turns, m, n + 3);
    var one := ApiRun(turns, m).0;
    ApiGoes(turns, one, n + 2);
    var two := ApiRun(turns, one).0;
    ApiGoes(turns, two, n + 1);
    ApiGoes(turns, ApiRun(turns, two).0, n);
  }

  lemma ContainerGoes(turns: nat -> Turn, m: Meter, ids: seq<Option<string>>, index: nat, n: nat)
    requires index < |ids| && Room(m.calls, m.bytes, n + 5) && Removes(turns, m.turn, ids, index)
    ensures var x := ContainerRun(turns, m, ids, index); var absent := turns(m.turn).status == 404;
      && x.result == Some(true) && x.ids[index].Some? && Went(m, x.meter, if absent then 1 else 5, n)
      && x.ids == (if absent then ids else ids[index := turns(m.turn).id])
  {
    ApiGoes(turns, m, n + 4);
    var found := ApiRun(turns, m).0;
    if turns(m.turn).status != 404 { RegisteredGoes(turns, found, turns(m.turn).id, n); }
  }

  lemma {:induction false} RemovalsGo(turns: nat -> Turn, m: Meter, ids: seq<Option<string>>, attempted: seq<bool>, k: nat, n: nat)
    requires k <= |ids| == |attempted| && Room(m.calls, m.bytes, 5 * k + n) && RemovesAll(turns, m.turn, ids, attempted, k)
    ensures var x := RemovalsRun(turns, m, ids, attempted, k);
      && x.all && (x.meter.turn, x.ids) == After(turns, m.turn, ids, attempted, k)
      && x.meter.refused == m.refused && Room(x.meter.calls, x.meter.bytes, n)
      && forall i :: 0 <= i < k && attempted[i] ==> x.ids[i].Some?
    decreases k
  {
    if k > 0 {
      RemovalsGo(turns, m, ids, attempted, k - 1, n + 5);
      var so := RemovalsRun(turns, m, ids, attempted, k - 1);
      if attempted[k - 1] { ContainerGoes(turns, so.meter, so.ids, k - 1, n); }
    }
  }

  lemma DerivedGoes(turns: nat -> Turn, m: Meter, id: Option<string>, n: nat)
    requires Room(m.calls, m.bytes, n + 3) && RemovesDerived(turns, m.turn, id)
    ensures var x := DerivedRun(turns, m, id, true);
      && x.result == Some(true) && x.ids.Some? && Room(x.meter.calls, x.meter.bytes, n)
      && x.meter.turn == AfterDerived(turns, m.turn, true) && x.meter.refused == m.refused
  {
    ApiGoes(turns, m, n + 2);
    var found := ApiRun(turns, m).0;
    if turns(m.turn).status != 404 {
      ApiGoes(turns, found, n + 1);
      ApiGoes(turns, ApiRun(turns, found).0, n);
    }
  }

  lemma PairGoes(turns: nat -> Turn, m: Meter, n: nat)
    requires Room(m.calls, m.bytes, n + 2) && forall k :: m.turn <= k ==> FindsNothing(turns(k))
    ensures var (next, absent) := PairRun(turns, m, true);
      absent && next.turn >= m.turn && next.refused == m.refused && Room(next.calls, next.bytes, n)
  {
    ApiGoes(turns, m, n + 1);
    ApiGoes(turns, ApiRun(turns, m).0, n);
  }

  lemma {:induction false} PairsGo(turns: nat -> Turn, m: Meter, ids: seq<Option<string>>, attempted: seq<bool>, k: nat, n: nat)
    requires k <= |ids| == |attempted| && Room(m.calls, m.bytes, 2 * k + n) && forall i :: m.turn <= i ==> FindsNothing(turns(i))
    requires forall i :: 0 <= i < k && attempted[i] ==> ids[i].Some?
    ensures var x := PairsRun(turns, m, ids, attempted, k);
      x.1 && x.0.turn >= m.turn && x.0.refused == m.refused && Room(x.0.calls, x.0.bytes, n)
    decreases k
  {
    if k > 0 {
      PairsGo(turns, m, ids, attempted, k - 1, n + 2);
      if attempted[k - 1] { PairGoes(turns, PairsRun(turns, m, ids, attempted, k - 1).0, n); }
    }
  }

  lemma RoundGoes(turns: nat -> Turn, m: Meter, ids: seq<Option<string>>, attempted: seq<bool>, derivedId: Option<string>,
                  imageAttempted: bool, n: nat)
    requires |ids| == |attempted| && Room(m.calls, m.bytes, 2 * |ids| + 2 + n) && forall i :: m.turn <= i ==> FindsNothing(turns(i))
    requires (forall i :: 0 <= i < |ids| && attempted[i] ==> ids[i].Some?) && (imageAttempted ==> derivedId.Some?)
    ensures var x := RoundRun(turns, m, ids, attempted, derivedId, imageAttempted);
      x.1 && x.0.turn >= m.turn && x.0.refused == m.refused && Room(x.0.calls, x.0.bytes, n)
  {
    PairsGo(turns, m, ids, attempted, |ids|, n + 2);
    if imageAttempted { PairGoes(turns, PairsRun(turns, m, ids, attempted, |ids|).0, n); }
  }

  /** With room for it, a daemon that lets it go on makes a cleanup succeed. */
  lemma HelpedPassSucceeds(turns: nat -> Turn, m: Meter, ids: seq<Option<string>>, attempted: seq<bool>, derivedId: Option<string>,
                           imageAttempted: bool)
    requires |ids| == |attempted| && Room(m.calls, m.bytes, PassCalls(|ids|))
    requires LetsPass(turns, m.turn, ids, attempted, derivedId, imageAttempted)
    ensures var x := PassRun(turns, m, ids, attempted, derivedId, imageAttempted); x.ok && x.meter.refused == m.refused
  {
    var n := 2 * |ids| + 2;
    RemovalsGo(turns, m, ids, attempted, |ids|, 3 + 2 * n);
    var x := RemovalsRun(turns, m, ids, attempted, |ids|);
    if imageAttempted { DerivedGoes(turns, x.meter, derivedId, 2 * n); }
    var y := DerivedRun(turns, x.meter, derivedId, imageAttempted);
    RoundGoes(turns, y.meter, x.ids, attempted, y.ids, imageAttempted, n);
    var first := RoundRun(turns, y.meter, x.ids, attempted, y.ids, imageAttempted).0;
    RoundGoes(turns, first, x.ids, attempted, y.ids, imageAttempted, 0);
  }
}
