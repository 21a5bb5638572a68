/** How much time, how many calls and how much output a cleanup of created networks and containers may take. */
module NetworkReserve {
  import opened Outcome
  import opened Sequences
  import opened Numerals
  import opened Identifiers

  datatype Role = OracleRole | RenderedRole

  datatype Slot = PrimaryNetwork | SecondaryNetwork | Server | PrimaryPeer | SecondaryPeer

  /** What a run created or tried to create; the role and the slot make up its name. */
  datatype Resource = Resource(role: Role, slot: Slot, id: Option<string>, live: bool, deleted: bool)

  /** One command as the world plays it. What it answers is reduced to what the run looks at: the status, whether the body parses
      and names the resource as this run's own, and the ID in it. */
  datatype Turn = Turn(duration: nat, retained: nat, completes: bool, status: nat, parses: bool, owned: bool, id: Option<string>)

  const OUTPUT_BUDGET := 4 * 1024 * 1024
  const API_CAP := 16 * 1024 + 8
  const PODMAN_CAP := 64 * 1024
  const MAX_LIVE := 5
  const MAX_WORK_CALLS := 200
  const MAX_CLEANUP_CALLS := 160

  // Times are in milliseconds.
  const WORK_BOUND := 3250
  const CLEANUP_BOUND := 1000

  /** Room for both streams at their caps. */
  predicate OutputCapacity(used: nat, cap: nat) {
    cap != 0 && used + 2 * cap <= OUTPUT_BUDGET
  }

  function Live(rs: seq<Resource>): (n: nat)
    ensures n <= |rs|
  {
    if rs == [] then 0 else Live(rs[..|rs| - 1]) + if rs[|rs| - 1].live then 1 else 0
  }

  /** Two seconds for each outstanding resource, four for each ever registered, five more, and at least forty-five. */
  function CleanupReserve(history: nat, outstanding: nat): nat {
    var seconds := 2 * outstanding + 4 * history + 5;
    1000 * if seconds > 45 then seconds else 45
  }

  // ---- how many calls a cleanup may take ----

  /** An inspection and a removal. */
  function Removal(r: Resource): nat {
    if r.live && !r.deleted then 2 else 0
  }

  /** The name, and the ID if one is known or the removal may bring it to light. */
  function Reads(r: Resource): nat {
    if r.id.Some? || (r.live && !r.deleted) then 2 else 1
  }

  function Removals(rs: seq<Resource>): nat {
    if rs == [] then 0 else Removals(rs[..|rs| - 1]) + Removal(rs[|rs| - 1])
  }

  function AllReads(rs: seq<Resource>): nat {
    if rs == [] then 0 else AllReads(rs[..|rs| - 1]) + Reads(rs[|rs| - 1])
  }

  /** The snapshot, the removals, and two absence rounds. */
  function Calls(rs: seq<Resource>): nat {
    1 + Removals(rs) + 2 * AllReads(rs)
  }

  lemma {:induction false} CallsBounded(rs: seq<Resource>)
    ensures Removals(rs) <= 2 * Live(rs) && AllReads(rs) <= 2 * |rs|
    ensures Calls(rs) <= 1 + 2 * Live(rs) + 4 * |rs|
  {
    if rs != [] { CallsBounded(rs[..|rs| - 1]); }
  }

  /** Enough time is left for a cleanup whose every call takes as long as it may: each call needs two seconds before it starts. */
  predicate Covered(remaining: nat, rs: seq<Resource>) {
    remaining > 1000 * (Calls(rs) - 1) + 2000
  }

  /** What a work command leaves behind: a cleanup is covered, with room to register one more name. */
  predicate Ready(remaining: nat, rs: seq<Resource>) {
    remaining > 1000 * (2 * Live(rs) + 4 * |rs| + 5)
  }

  lemma ReadyCovers(remaining: nat, rs: seq<Resource>)
    requires Ready(remaining, rs)
    ensures Covered(remaining, rs)
  {
    CallsBounded(rs);
  }

  /** Registering a name, before anything is created under it, keeps a cleanup covered. */
  lemma RegisteredCovers(remaining: nat, rs: seq<Resource>, r: Resource)
    requires Ready(remaining, rs) && !r.live && r.id.None?
    ensures Covered(remaining, rs + [r]) && Live(rs + [r]) == Live(rs)
  {
    CallsBounded(rs);
    assert (rs + [r])[..|rs|] == rs;
  }

  lemma {:induction false} LiveAfter(rs: seq<Resource>, i: nat, r: Resource)
    requires i < |rs|
    ensures Live(rs[i := r]) == Live(rs) - (if rs[i].live then 1 else 0) + (if r.live then 1 else 0)
  {
    var last := |rs| - 1;
    if i < last {
      LiveAfter(rs[..last], i, r);
      assert rs[i := r][..last] == rs[..last][i := r];
    } else {
      assert rs[i := r][..last] == rs[..last];
    }
  }

  /** Marking a resource live before its creation is sent keeps a cleanup covered. */
  lemma MarkedCovers(remaining: nat, rs: seq<Resource>, i: nat)
    requires Ready(remaining, rs) && i < |rs| && !rs[i].live
    ensures Covered(remaining, rs[i := rs[i].(live := true)])
  {
    LiveAfter(rs, i, rs[i].(live := true));
    CallsBounded(rs[i := rs[i].(live := true)]);
  }

  /** Learning the ID of a live resource changes nothing that the reserve depends on. */
  lemma NamedCovers(remaining: nat, rs: seq<Resource>, i: nat, id: string)
    requires Ready(remaining, rs) && i < |rs|
    ensures Ready(remaining, rs[i := rs[i].(id := Some(id))])
  {
    LiveAfter(rs, i, rs[i].(id := Some(id)));
  }

  /** The admission test of a work command leaves the run ready, however long the command takes. */
  lemma AdmissionSuffices(remaining: nat, rs: seq<Resource>, elapsed: nat)
    requires remaining > CleanupReserve(|rs|, Live(rs)) + 4000 && elapsed <= WORK_BOUND
    ensures remaining >= elapsed && Ready(remaining - elapsed, rs)
  {
  }

  // ---- how many resources there can be ----

  predicate UniqueNames(rs: seq<Resource>) {
    forall i, j :: 0 <= i < j < |rs| ==> rs[i].role != rs[j].role || rs[i].slot != rs[j].slot
  }

  predicate Taken(rs: seq<Resource>, role: Role, slot: Slot) {
    exists i :: 0 <= i < |rs| && rs[i].role == role && rs[i].slot == slot
  }

  function Key(r: Resource): nat {
    (if r.role == OracleRole then 0 else 5)
    + match r.slot
      case PrimaryNetwork => 0
      case SecondaryNetwork => 1
      case Server => 2
      case PrimaryPeer => 3
      case SecondaryPeer => 4
  }

  function Below(n: nat): (keys: set<nat>)
    ensures |keys| == n && forall k :: k in keys <==> 0 <= k < n
  {
    if n == 0 then {} else Below(n - 1) + {n - 1}
  }

  lemma KeysDistinct(rs: seq<Resource>, keys: seq<nat>)
    requires UniqueNames(rs) && |keys| == |rs| && forall i :: 0 <= i < |rs| ==> keys[i] == Key(rs[i])
    ensures Distinct(keys)
  {
    forall i, j | 0 <= i < j < |keys| ensures keys[i] != keys[j] {
      assert rs[i].role != rs[j].role || rs[i].slot != rs[j].slot;
    }
  }

  lemma Pigeonholes(keys: seq<nat>, n: nat)
    requires Distinct(keys) && forall i :: 0 <= i < |keys| ==> keys[i] < n
    ensures |keys| <= n
  {
    DistinctSize(keys);
    assert forall k :: k in Elements(keys) ==> k in Below(n);
    SubsetSize(Elements(keys), Below(n));
  }

  /** Two roles of five slots each: never more than ten resources. */
  lemma AtMostTen(rs: seq<Resource>)
    requires UniqueNames(rs)
    ensures |rs| <= 10
  {
    var keys: seq<nat> := seq(|rs|, i requires 0 <= i < |rs| => Key(rs[i]));
    KeysDistinct(rs, keys);
    Pigeonholes(keys, 10);
  }

  /** What one pass may retain: a snapshot that goes on only when the second stream is empty, and both streams of every other call. */
  function Output(rs: seq<Resource>): nat {
    Retained(Calls(rs))
  }

  function Retained(calls: nat): (bytes: nat)
    ensures bytes >= 2 * PODMAN_CAP
  {
    var whole := PODMAN_CAP + (calls - 1) * (2 * API_CAP);
    if whole < 2 * PODMAN_CAP then 2 * PODMAN_CAP else whole
  }

  /** One pass takes at most fifty-one calls: the call budget has room for three, and the output pool for two of any size. */
  lemma PassesFit(rs: seq<Resource>)
    requires UniqueNames(rs) && Live(rs) <= MAX_LIVE
    ensures 3 * Calls(rs) <= MAX_CLEANUP_CALLS && 2 * Output(rs) <= OUTPUT_BUDGET
    ensures 2 * (2 * PODMAN_CAP + (Calls(rs) - 1) * (2 * API_CAP)) <= OUTPUT_BUDGET
  {
    AtMostTen(rs);
    CallsBounded(rs);
  }

  /** Where every resource has its ID and none is deleted, a pass takes as many calls as it may. */
  lemma {:induction false} CallsReached(rs: seq<Resource>)
    requires forall i :: 0 <= i < |rs| ==> rs[i].id.Some? && !rs[i].deleted
    ensures Removals(rs) == 2 * Live(rs) && AllReads(rs) == 2 * |rs|
  {
    if rs != [] { CallsReached(rs[..|rs| - 1]); }
  }

  // ---- what is known of the resources ----

  predicate CanonicalIds(rs: seq<Resource>) {
    forall i :: 0 <= i < |rs| && rs[i].id.Some? ==> Canonical(rs[i].id.value)
  }

  /** Names never repeat, five resources are live at most, and every known ID is canonical. */
  predicate Orderly(rs: seq<Resource>) {
    UniqueNames(rs) && Live(rs) <= MAX_LIVE && CanonicalIds(rs)
  }

  // ---- what a pass reads ----

  /** The reads of one absence round, as pairs of an index and whether it goes by ID: each name, and each known ID. */
  function RoundOf(rs: seq<Resource>): seq<(nat, bool)> {
    if rs == [] then []
    else
      var last := |rs| - 1;
      RoundOf(rs[..last]) + [(last, false)] + if rs[last].id.Some? then [(last, true)] else []
  }

  lemma OneMoreInRound(rs: seq<Resource>, n: nat)
    requires n < |rs|
    ensures RoundOf(rs[..n + 1]) == RoundOf(rs[..n]) + ([(n, false)] + if rs[n].id.Some? then [(n, true)] else [])
  {
    assert rs[..n + 1][..n] == rs[..n];
  }

  lemma {:induction false} ReadsGrow(rs: seq<Resource>, n: nat)
    requires n <= |rs|
    ensures AllReads(rs[..n]) <= AllReads(rs)
    decreases |rs|
  {
    if n < |rs| {
      ReadsGrow(rs[..|rs| - 1], n);
      assert rs[..|rs| - 1][..n] == rs[..n];
    } else {
      assert rs[..n] == rs;
    }
  }

  lemma OneMoreRead(rs: seq<Resource>, n: nat)
    requires n < |rs|
    ensures AllReads(rs[..n + 1]) == AllReads(rs[..n]) + Reads(rs[n]) <= AllReads(rs)
  {
    ReadsGrow(rs, n + 1);
    assert rs[..n + 1][..n] == rs[..n];
  }

  /** What a cleanup may do to a resource: learn the ID of a live one, and mark it deleted. */
  predicate Evolved(before: Resource, after: Resource) {
    && after.role == before.role && after.slot == before.slot && after.live == before.live
    && (before.id.Some? ==> after.id == before.id) && (after.id.Some? ==> before.id.Some? || (before.live && !before.deleted))
    && (before.deleted ==> after.deleted)
  }

  predicate AllEvolved(before: seq<Resource>, after: seq<Resource>) {
    |before| == |after| && forall i :: 0 <= i < |before| ==> Evolved(before[i], after[i])
  }

  /** The reads of a resource as it is now. */
  function ReadsNow(r: Resource): nat {
    if r.id.Some? then 2 else 1
  }

  /** Removal has brought every ID to light that it may. */
  predicate AllKnown(before: seq<Resource>, now: seq<Resource>) {
    |before| == |now| && forall i :: 0 <= i < |before| ==> Reads(before[i]) == ReadsNow(now[i])
  }

  lemma AddKeeps(remaining: nat, restored: bool, rs: seq<Resource>, r: Resource)
    requires UniqueNames(rs) && (restored ==> Ready(remaining, rs)) && !r.live && r.id.None?
    requires !Taken(rs, r.role, r.slot)
    ensures UniqueNames(rs + [r]) && (restored ==> Covered(remaining, rs + [r])) && Live(rs + [r]) == Live(rs)
    ensures CanonicalIds(rs) ==> CanonicalIds(rs + [r])
  {
    UniqueMore(rs, r);
    assert (rs + [r])[..|rs|] == rs;
    if restored { RegisteredCovers(remaining, rs, r); }
  }

  lemma OneMoreLive(rs: seq<Resource>, r: Resource)
    ensures Live(rs + [r]) == Live(rs) + if r.live then 1 else 0
  {
    assert (rs + [r])[..|rs|] == rs;
  }

  lemma UniqueMore(rs: seq<Resource>, r: Resource)
    requires UniqueNames(rs) && !Taken(rs, r.role, r.slot)
    ensures UniqueNames(rs + [r])
  {
  }

  /** Unique names are a matter of roles and slots. */
  lemma SameNames(a: seq<Resource>, b: seq<Resource>)
    requires |a| == |b| && UniqueNames(a) && forall i :: 0 <= i < |a| ==> a[i].role == b[i].role && a[i].slot == b[i].slot
    ensures UniqueNames(b)
  {
    forall i, j | 0 <= i < j < |b| ensures b[i].role != b[j].role || b[i].slot != b[j].slot {
      assert a[i].role != a[j].role || a[i].slot != a[j].slot;
    }
  }

  lemma LastMarked(remaining: nat, rs: seq<Resource>, r: Resource)
    requires Ready(remaining, rs + [r]) && !r.live
    ensures Covered(remaining, rs + [r.(live := true)]) && Live(rs + [r.(live := true)]) == Live(rs + [r]) + 1
  {
    LastReplaced(rs, r, r.(live := true));
    MarkedCovers(remaining, rs + [r], |rs|);
    LiveAfter(rs + [r], |rs|, r.(live := true));
  }

  lemma MarkKeeps(remaining: nat, rs: seq<Resource>, r: Resource)
    requires Orderly(rs + [r]) && Live(rs + [r]) < MAX_LIVE && Ready(remaining, rs + [r]) && !r.live && r.id.None?
    ensures (rs + [r])[|rs| := r.(live := true)] == rs + [r.(live := true)]
    ensures Orderly(rs + [r.(live := true)]) && Covered(remaining, rs + [r.(live := true)])
    ensures Live(rs + [r.(live := true)]) == Live(rs + [r]) + 1
  {
    LastReplaced(rs, r, r.(live := true));
    LastMarked(remaining, rs, r);
    LastNamed(rs, r, r.(live := true));
    LastCanonical(rs, r, r.(live := true));
  }

  lemma LastCanonical(rs: seq<Resource>, r: Resource, s: Resource)
    requires CanonicalIds(rs + [r]) && s.id.None?
    ensures CanonicalIds(rs + [s])
  {
    forall i | 0 <= i < |rs + [s]| && (rs + [s])[i].id.Some? ensures Canonical((rs + [s])[i].id.value) {
      assert (rs + [s])[i] == (rs + [r])[i];
    }
  }

  lemma LastNamed(rs: seq<Resource>, r: Resource, s: Resource)
    requires UniqueNames(rs + [r]) && s.role == r.role && s.slot == r.slot
    ensures UniqueNames(rs + [s])
  {
    var a, b := rs + [r], rs + [s];
    forall i | 0 <= i < |a| ensures a[i].role == b[i].role && a[i].slot == b[i].slot {
    }
    SameNames(a, b);
  }

  lemma SameRounds(a: seq<Resource>, b: seq<Resource>)
    requires |a| == |b| && forall i :: 0 <= i < |a| ==> a[i].id == b[i].id
    ensures RoundOf(a) == RoundOf(b) && ((forall i :: 0 <= i < |b| ==> !b[i].live) ==> Live(b) == 0)
    decreases |a|
  {
    if a != [] { SameRounds(a[..|a| - 1], b[..|b| - 1]); }
  }

  lemma LiveKept(a: seq<Resource>, b: seq<Resource>)
    requires AllEvolved(a, b)
    ensures Live(a) == Live(b) && (UniqueNames(a) ==> UniqueNames(b))
    decreases |a|
  {
    if a != [] { LiveKept(a[..|a| - 1], b[..|b| - 1]); }
    if UniqueNames(a) { SameNames(a, b); }
  }
}
