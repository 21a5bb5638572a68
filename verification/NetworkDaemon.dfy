/** Daemons that a cleanup of networks and containers may face: helpful ones, and slow ones. */
module NetworkDaemon {
  import opened Outcome
  import opened Sequences
  import opened Identifiers
  import opened NetworkReserve

  // ---- what a daemon may do ----

  /** The command completes, with both streams inside their caps. */
  predicate Good(t: Turn, cap: nat) {
    t.completes && t.retained <= 2 * cap
  }

  /** Every command takes as long as a cleanup allows it. */
  ghost predicate Slow(turns: nat -> Turn) {
    forall k: nat :: turns(k).duration >= CLEANUP_BOUND
  }

  predicate Authentic(r: Resource, played: Turn) {
    played.owned && played.id.Some? && Canonical(played.id.value) && (r.id.None? || r.id == played.id)
  }

  // ---- a daemon that lets a pass succeed ----

  /** The resource is found as this run's own, and its removal is confirmed. */
  predicate Removes(turns: nat -> Turn, t: nat, r: Resource) {
    && Good(turns(t), API_CAP) && turns(t).parses && turns(t).status == 200 && Authentic(r, turns(t))
    && Good(turns(t + 1), API_CAP) && turns(t + 1).status == 204
  }

  /** The removals of a pass from turn `t` on, newest first. */
  predicate RemovesAll(turns: nat -> Turn, t: nat, rs: seq<Resource>)
    decreases rs
  {
    rs == [] ||
    var r := rs[|rs| - 1];
    (Removal(r) == 2 ==> Removes(turns, t, r)) && RemovesAll(turns, t + Removal(r), rs[..|rs| - 1])
  }

  /** So many reads that find nothing. */
  ghost predicate FindsNothing(turns: nat -> Turn, t: nat, n: nat) {
    forall k :: t <= k < t + n ==> Good(turns(k), API_CAP) && turns(k).status == 404
  }

  /** The outer container is found as this run's own. */
  predicate Vouches(turn: Turn) {
    turn.completes && turn.retained <= PODMAN_CAP && turn.parses && turn.owned
  }

  /** Everything live is found and removed, and nothing is found after that. */
  ghost predicate LetsPass(turns: nat -> Turn, t: nat, rs: seq<Resource>) {
    && Vouches(turns(t)) && RemovesAll(turns, t + 1, rs)
    && FindsNothing(turns, t + 1 + Removals(rs), 2 * AllReads(rs))
  }

  lemma FindsPart(turns: nat -> Turn, t: nat, n: nat, i: nat, m: nat)
    requires FindsNothing(turns, t, n) && i + m <= n
    ensures FindsNothing(turns, t + i, m)
  {
  }

  // ---- such daemons exist ----

  /** A command of one second that says so much. */
  function Says(status: nat, id: Option<string>): Turn {
    Turn(CLEANUP_BOUND, 0, true, status, true, true, id)
  }

  /** A world that says these things from turn `t` on, and finds nothing before and after. */
  function Saying(t: nat, ts: seq<Turn>): nat -> Turn {
    (k: nat) => if t <= k < t + |ts| then ts[k - t] else Says(404, None)
  }

  /** A second each, no output, and always completing. */
  predicate Steady(turn: Turn) {
    turn.duration == CLEANUP_BOUND && turn.retained == 0 && turn.completes
  }

  ghost predicate AllSteady(turns: nat -> Turn) {
    forall k: nat :: Steady(turns(k))
  }

  lemma SayingPlays(t: nat, ts: seq<Turn>)
    requires forall i :: 0 <= i < |ts| ==> Steady(ts[i])
    ensures Plays(Saying(t, ts), t, ts) && AllSteady(Saying(t, ts))
  {
    forall k: nat ensures Steady(Saying(t, ts)(k)) {
      if t <= k < t + |ts| {
        assert Steady(ts[k - t]) && Saying(t, ts)(k) == ts[k - t];
      } else {
        assert Saying(t, ts)(k) == Says(404, None);
      }
    }
  }

  ghost predicate Plays(turns: nat -> Turn, t: nat, ts: seq<Turn>) {
    forall i :: 0 <= i < |ts| ==> turns(t + i) == ts[i]
  }

  lemma PlaysBoth(turns: nat -> Turn, t: nat, a: seq<Turn>, b: seq<Turn>)
    requires Plays(turns, t, a + b)
    ensures Plays(turns, t, a) && Plays(turns, t + |a|, b)
  {
    forall i | 0 <= i < |a| ensures turns(t + i) == a[i] {
      assert (a + b)[i] == a[i];
    }
    forall i | 0 <= i < |b| ensures turns(t + |a| + i) == b[i] {
      assert (a + b)[|a| + i] == b[i];
    }
  }

  function RemovalTurns(rs: seq<Resource>, other: string): seq<Turn> {
    if rs == [] then []
    else
      var r := rs[|rs| - 1];
      (if Removal(r) == 2 then [Says(200, Some(r.id.GetOr(other))), Says(204, None)] else []) + RemovalTurns(rs[..|rs| - 1], other)
  }

  function Nothing(n: nat): (ts: seq<Turn>)
    ensures |ts| == n && forall i :: 0 <= i < n ==> ts[i] == Says(404, None)
  {
    seq(n, _ => Says(404, None))
  }

  /** What a daemon says that lets a pass over these resources succeed; a lost creation goes by the other ID. */
  function PassTurns(rs: seq<Resource>, other: string): seq<Turn> {
    [Says(200, None)] + (RemovalTurns(rs, other) + Nothing(2 * AllReads(rs)))
  }

  lemma {:induction false} RemovalTurnsRemove(turns: nat -> Turn, t: nat, rs: seq<Resource>, other: string)
    requires Plays(turns, t, RemovalTurns(rs, other)) && CanonicalIds(rs) && Canonical(other)
    ensures RemovesAll(turns, t, rs) && |RemovalTurns(rs, other)| == Removals(rs)
    decreases rs
  {
    if rs != [] {
      var front, r := rs[..|rs| - 1], rs[|rs| - 1];
      var now := if Removal(r) == 2 then [Says(200, Some(r.id.GetOr(other))), Says(204, None)] else [];
      PlaysBoth(turns, t, now, RemovalTurns(front, other));
      RemovalTurnsRemove(turns, t + |now|, front, other);
      if Removal(r) == 2 {
        assert turns(t + 0) == now[0] && turns(t + 1) == now[1];
      }
    }
  }

  lemma PassTurnsPass(turns: nat -> Turn, t: nat, rs: seq<Resource>, other: string)
    requires Plays(turns, t, PassTurns(rs, other)) && CanonicalIds(rs) && Canonical(other)
    ensures LetsPass(turns, t, rs) && |PassTurns(rs, other)| == Calls(rs)
  {
    var first, removals, nothing := [Says(200, None)], RemovalTurns(rs, other), Nothing(2 * AllReads(rs));
    PlaysBoth(turns, t, first, removals + nothing);
    PlaysBoth(turns, t + 1, removals, nothing);
    RemovalTurnsRemove(turns, t + 1, rs, other);
    assert turns(t + 0) == first[0];
    var u := t + 1 + |removals|;
    forall k | u <= k < u + 2 * AllReads(rs) ensures Good(turns(k), API_CAP) && turns(k).status == 404 {
      assert turns(u + (k - u)) == nothing[k - u];
    }
  }

  /** A canonical ID made of one digit. */
  function IdOf(digit: nat): (id: string)
    requires digit < 10
    ensures Canonical(id) && id[0] == ('0' as int + digit) as char
  {
    seq(ID_LENGTH, _ => ('0' as int + digit) as char)
  }

  lemma {:induction false} RemovalTurnsSteady(rs: seq<Resource>, other: string)
    ensures forall i :: 0 <= i < |RemovalTurns(rs, other)| ==> Steady(RemovalTurns(rs, other)[i])
    decreases rs
  {
    if rs != [] { RemovalTurnsSteady(rs[..|rs| - 1], other); }
  }

  lemma PassTurnsSteady(rs: seq<Resource>, other: string)
    ensures forall i :: 0 <= i < |PassTurns(rs, other)| ==> Steady(PassTurns(rs, other)[i])
  {
    RemovalTurnsSteady(rs, other);
  }

  /** For any resources there is a daemon that lets a pass over them succeed, and takes a second for each of its calls. */
  lemma SlowPassExists(t: nat, rs: seq<Resource>) returns (turns: nat -> Turn)
    requires CanonicalIds(rs)
    ensures LetsPass(turns, t, rs) && Slow(turns)
  {
    var ts := PassTurns(rs, IdOf(0));
    turns := Saying(t, ts);
    PassTurnsSteady(rs, IdOf(0));
    SayingPlays(t, ts);
    PassTurnsPass(turns, t, rs, IdOf(0));
  }

  // ---- a daemon that lets a role be built ----

  /** No work command is admitted with less time than this, in milliseconds. */
  const SHORTEST := 49000

  /** Canonical, and neither the outer container's nor any other's. */
  predicate NewId(outer: string, rs: seq<Resource>, id: string) {
    Canonical(id) && id != outer && !exists i :: 0 <= i < |rs| && rs[i].id == Some(id)
  }

  lemma StillNew(outer: string, rs: seq<Resource>, r: Resource, id: string)
    requires NewId(outer, rs, id) && r.id.None?
    ensures NewId(outer, rs + [r], id)
  {
  }

  /** The name is free, the creation reports the ID, and reads back as it. */
  function CreationTurns(id: string): seq<Turn> {
    [Says(404, None), Says(201, Some(id)), Says(200, Some(id))]
  }

  /** So many observations that the world approves. */
  function Approving(n: nat): (ts: seq<Turn>)
    ensures |ts| == n && forall i :: 0 <= i < n ==> ts[i] == Says(200, None)
  {
    seq(n, _ => Says(200, None))
  }

  /** Two networks are created, and so many observations follow. */
  function NetworkTurns(n: nat): seq<Turn> {
    CreationTurns(IdOf(0)) + (CreationTurns(IdOf(1)) + Approving(n))
  }

  /** The network reads back as its ID, a container is created on it, and so many observations follow. */
  function MemberTurns(network: string, id: string, n: nat): seq<Turn> {
    [Says(200, Some(network))] + (CreationTurns(id) + Approving(n))
  }

  lemma CreationPlays(turns: nat -> Turn, t: nat, id: string)
    requires Plays(turns, t, CreationTurns(id))
    ensures turns(t) == Says(404, None) && turns(t + 1) == Says(201, Some(id)) && turns(t + 2) == Says(200, Some(id))
  {
    assert turns(t + 0) == CreationTurns(id)[0] && turns(t + 1) == CreationTurns(id)[1] && turns(t + 2) == CreationTurns(id)[2];
  }

  lemma NetworksPlay(turns: nat -> Turn, t: nat, n: nat)
    requires Plays(turns, t, NetworkTurns(n))
    ensures Plays(turns, t, CreationTurns(IdOf(0))) && Plays(turns, t + 3, CreationTurns(IdOf(1))) && Plays(turns, t + 6, Approving(n))
  {
    PlaysBoth(turns, t, CreationTurns(IdOf(0)), CreationTurns(IdOf(1)) + Approving(n));
    PlaysBoth(turns, t + 3, CreationTurns(IdOf(1)), Approving(n));
  }

  lemma MemberPlays(turns: nat -> Turn, t: nat, network: string, id: string, n: nat)
    requires Plays(turns, t, MemberTurns(network, id, n))
    ensures turns(t) == Says(200, Some(network)) && Plays(turns, t + 1, CreationTurns(id)) && Plays(turns, t + 4, Approving(n))
  {
    PlaysBoth(turns, t, [Says(200, Some(network))], CreationTurns(id) + Approving(n));
    PlaysBoth(turns, t + 1, CreationTurns(id), Approving(n));
    assert turns(t + 0) == [Says(200, Some(network))][0];
  }

  /** Five resources of one role are created, with so many observations after the networks and after each container. */
  function BuildTurns(n: seq<nat>): seq<Turn>
    requires |n| == 4
  {
    NetworkTurns(n[0])
    + (MemberTurns(IdOf(0), IdOf(2), n[1]) + (MemberTurns(IdOf(0), IdOf(3), n[2]) + MemberTurns(IdOf(1), IdOf(4), n[3])))
  }

  function Built(role: Role): (rs: seq<Resource>)
    ensures |rs| == 5 && forall i :: 0 <= i < 5 ==> rs[i].id == Some(IdOf(i)) && rs[i].live && !rs[i].deleted && rs[i].role == role
  {
    [Resource(role, PrimaryNetwork, Some(IdOf(0)), true, false), Resource(role, SecondaryNetwork, Some(IdOf(1)), true, false),
     Resource(role, Server, Some(IdOf(2)), true, false), Resource(role, PrimaryPeer, Some(IdOf(3)), true, false),
     Resource(role, SecondaryPeer, Some(IdOf(4)), true, false)]
  }

  lemma BuildPlays(turns: nat -> Turn, t: nat, n: seq<nat>)
    requires |n| == 4 && Plays(turns, t, BuildTurns(n))
    ensures |BuildTurns(n)| == 18 + n[0] + n[1] + n[2] + n[3]
    ensures Plays(turns, t, NetworkTurns(n[0]))
    ensures Plays(turns, t + 6 + n[0], MemberTurns(IdOf(0), IdOf(2), n[1]))
    ensures Plays(turns, t + 10 + n[0] + n[1], MemberTurns(IdOf(0), IdOf(3), n[2]))
    ensures Plays(turns, t + 14 + n[0] + n[1] + n[2], MemberTurns(IdOf(1), IdOf(4), n[3]))
  {
    var a, b, c, d := NetworkTurns(n[0]), MemberTurns(IdOf(0), IdOf(2), n[1]), MemberTurns(IdOf(0), IdOf(3), n[2]),
                      MemberTurns(IdOf(1), IdOf(4), n[3]);
    PlaysBoth(turns, t, a, b + (c + d));
    PlaysBoth(turns, t + |a|, b, c + d);
    PlaysBoth(turns, t + |a| + |b|, c, d);
  }

  /** Each resource of a role in turn has a name and an ID of its own. */
  lemma BuiltGrows(role: Role)
    ensures forall k {:trigger Built(role)[..k]} :: 2 <= k < 5 ==>
      && !Taken(Built(role)[..k], role, Built(role)[k].slot) && NewId("", Built(role)[..k], IdOf(k))
      && Built(role)[..k] + [Built(role)[k]] == Built(role)[..k + 1]
    ensures Built(role)[..5] == Built(role)
  {
    var rs := Built(role);
    forall k | 2 <= k < 5
      ensures !Taken(rs[..k], role, rs[k].slot) && NewId("", rs[..k], IdOf(k)) && rs[..k] + [rs[k]] == rs[..k + 1]
    {
      assert forall i :: 0 <= i < k ==> IdOf(i)[0] != IdOf(k)[0];
    }
  }

  /** The resources of a role after its cleanup: known by their IDs, and none of them live. */
  predicate Cleaned(role: Role, rs: seq<Resource>) {
    |rs| == 5 && forall i :: 0 <= i < 5 ==> rs[i].role == role && rs[i].id.Some? && Canonical(rs[i].id.value) && !rs[i].live
  }

  // ---- where a role that is built stands ----

  /** Where a role began: the time, the turn, and the calls and bytes of the work. */
  datatype Start = Start(remaining: nat, turn: nat, calls: nat, bytes: nat)

  /** The commands before the `k`-th resource, given the numbers of observations. */
  function Before(n: seq<nat>, k: nat): nat
    requires |n| == 4 && k <= 5
  {
    if k == 0 then 0
    else if k <= 2 then 6 + n[0]
    else if k == 3 then 10 + n[0] + n[1]
    else if k == 4 then 14 + n[0] + n[1] + n[2]
    else 18 + n[0] + n[1] + n[2] + n[3]
  }

  /** The network that a container is created on. */
  function NetworkOf(k: nat): nat {
    if k < 4 then 0 else 1
  }

  /** The daemon lets a role be built, and time, calls and output allow for it at a second for each command. */
  ghost predicate Helps(turns: nat -> Turn, outer: string, b: Start, n: seq<nat>)
    requires |n| == 4
  {
    && Plays(turns, b.turn, BuildTurns(n)) && outer == ""
    && b.remaining > SHORTEST + 1000 * (Before(n, 5) - 1) && b.calls + Before(n, 5) <= MAX_WORK_CALLS
    && b.bytes + 2 * PODMAN_CAP <= OUTPUT_BUDGET
  }

  /** Both networks of a role are new under these IDs, and the daemon lets them be created and observed. */
  ghost predicate NewPair(turns: nat -> Turn, t: nat, outer: string, rs: seq<Resource>, role: Role, one: string, two: string, n: nat) {
    && Live(rs) + 1 < MAX_LIVE && !Taken(rs, role, PrimaryNetwork) && NewId(outer, rs, one) && Plays(turns, t, CreationTurns(one))
    && NewSecond(turns, t + 3, outer, rs + [Resource(role, PrimaryNetwork, Some(one), true, false)], role, two, n)
  }

  ghost predicate NewSecond(turns: nat -> Turn, t: nat, outer: string, rs: seq<Resource>, role: Role, two: string, n: nat) {
    && !Taken(rs, role, SecondaryNetwork) && NewId(outer, rs, two)
    && Plays(turns, t, CreationTurns(two)) && Plays(turns, t + 3, Approving(n))
  }

  lemma StartPlays(turns: nat -> Turn, outer: string, b: Start, n: seq<nat>, role: Role)
    requires |n| == 4 && Helps(turns, outer, b, n)
    ensures NewPair(turns, b.turn, outer, [], role, IdOf(0), IdOf(1), n[0]) && Built(role)[..0] == []
    ensures [] + [Resource(role, PrimaryNetwork, Some(IdOf(0)), true, false)] + [Resource(role, SecondaryNetwork, Some(IdOf(1)), true, false)]
         == Built(role)[..2]
  {
    BuildPlays(turns, b.turn, n);
    NetworksPlay(turns, b.turn, n[0]);
    assert IdOf(0)[0] != IdOf(1)[0];
  }

  lemma NextPlays(turns: nat -> Turn, outer: string, b: Start, n: seq<nat>, role: Role, k: nat)
    requires |n| == 4 && Helps(turns, outer, b, n) && 2 <= k < 5
    ensures Plays(turns, b.turn + Before(n, k), MemberTurns(IdOf(NetworkOf(k)), IdOf(k), n[k - 1]))
    ensures Before(n, k + 1) == Before(n, k) + 4 + n[k - 1] <= Before(n, 5)
    ensures var rs := Built(role);
      && !Taken(rs[..k], role, rs[k].slot) && NewId(outer, rs[..k], IdOf(k)) && rs[..k] + [rs[k]] == rs[..k + 1]
      && rs[k] == Resource(role, rs[k].slot, Some(IdOf(k)), true, false) && rs[..k][NetworkOf(k)].id == Some(IdOf(NetworkOf(k)))
  {
    BuildPlays(turns, b.turn, n);
    BuiltGrows(role);
    assert Built(role)[..k] == Built(role)[..k];
  }

  lemma BuildTurnsSteady(n: seq<nat>)
    requires |n| == 4
    ensures forall i :: 0 <= i < |BuildTurns(n)| ==> Steady(BuildTurns(n)[i])
  {
  }
}
