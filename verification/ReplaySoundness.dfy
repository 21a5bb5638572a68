/** What an accepted replay proves about a capture, whoever assembled it. */
module ReplaySoundness {
  import opened Outcome
  import opened Json
  import opened Protocol
  import opened Sequences
  import opened Selection
  import opened Folding
  import opened Decoder

  predicate Readable200(parse: Parser, x: Exchange) {
    && x.status == 200 && |x.body| <= MAX_JSON_BYTES && parse(x.body).Some?
    && (x.request.DaemonVersion? || x.api.Some?)
  }

  /** An inspection answers under a reference, with the requested identity and a native ID. */
  predicate Identified(parse: Parser, x: Exchange, fallbacks: set<Ref>) {
    match x.request.Inspected()
    case None => true
    case Some(target) =>
      && x.resource.Some? && parse(x.body).Some?
      && parse(x.body).value.GetStr(IdentityKey(target.kind, x.resource.value in fallbacks)) == Some(target.id)
      && NativeOf(parse, x, target.kind).Some? && NativeOf(parse, x, target.kind).value != ""
  }

  /** What one accepted inspection adds: a native ID and a reference not met before, and one observation. */
  predicate Met(st: State, x: Exchange, parse: Parser, next: State)
    requires x.request.Inspected().Some? && x.resource.Some? && parse(x.body).Some?
    requires NativeOf(parse, x, x.request.Inspected().value.kind).Some?
  {
    var kind := x.request.Inspected().value.kind;
    var native, reference := (kind, NativeOf(parse, x, kind).value), (kind, x.resource.value);
    var seen := [Observation(x.resource.value, parse(x.body).value)];
    && native !in st.natives && next.natives == st.natives + {native}
    && reference !in st.references && next.references == st.references + {reference}
    && next.containers == st.containers + (if kind == Container then seen else [])
    && next.networks == st.networks + (if kind == Network then seen else [])
    && next.volumes == st.volumes + (if kind == Volume then seen else [])
    && next.inspected == st.inspected + {(kind, x.request.Inspected().value.id)}
    && next.containersByRef == (if kind == Container then st.containersByRef[x.resource.value := x.request.Inspected().value.id]
                                else st.containersByRef)
    && next.fromList == st.fromList && next.listed == st.listed && next.facts == st.facts
  }

  lemma InspectionMet(st: State, x: Exchange, body: Json, fallbacks: set<Ref>, parse: Parser, decoders: Decoders)
    requires x.request.Inspected().Some? && parse(x.body) == Some(body)
    requires AbsorbInspect(st, x.request.Inspected().value, x.resource, body, fallbacks, decoders).Ok?
    ensures Identified(parse, x, fallbacks)
    ensures Met(st, x, parse, AbsorbInspect(st, x.request.Inspected().value, x.resource, body, fallbacks, decoders).value)
  {
  }

  lemma AbsorbedInspection(st: State, x: Exchange, cap: Capture, parse: Parser, decoders: Decoders)
    requires x.request.Inspected().Some? && Absorb(st, x, cap, parse, decoders).Ok?
    ensures Request(st, x).Ok? && parse(x.body).Some?
    ensures Absorb(st, x, cap, parse, decoders)
         == AbsorbInspect(Request(st, x).value, x.request.Inspected().value, x.resource, parse(x.body).value, cap.fallbacks, decoders)
    ensures Readable200(parse, x)
  {
  }

  lemma InspectionAdds(st: State, x: Exchange, cap: Capture, parse: Parser, decoders: Decoders)
    requires x.request.Inspected().Some? && Absorb(st, x, cap, parse, decoders).Ok?
    ensures Adds(st, x, cap, parse, Absorb(st, x, cap, parse, decoders).value)
  {
    AbsorbedInspection(st, x, cap, parse, decoders);
    InspectionMet(Request(st, x).value, x, parse(x.body).value, cap.fallbacks, parse, decoders);
    RequestKeeps(st, x);
    InspectionKeepsRequests(Request(st, x).value, x.request.Inspected().value, x.resource, parse(x.body).value, cap.fallbacks, decoders);
  }

  lemma RequestKeeps(st: State, x: Exchange)
    requires Request(st, x).Ok?
    ensures Request(st, x).value == st.(requested := Request(st, x).value.requested)
  {
  }

  lemma InspectionKeepsRequests(st: State, target: Target, resource: Option<Ref>, body: Json, fallbacks: set<Ref>, decoders: Decoders)
    requires AbsorbInspect(st, target, resource, body, fallbacks, decoders).Ok?
    ensures var next := AbsorbInspect(st, target, resource, body, fallbacks, decoders).value;
      next.requested == st.requested && next.versionSeen == st.versionSeen
  {
  }

  /** What an exchange that inspects nothing leaves alone. */
  predicate ObjectsKept(st: State, next: State) {
    && next.natives == st.natives && next.references == st.references
    && next.containers == st.containers && next.networks == st.networks && next.volumes == st.volumes
    && next.inspected == st.inspected && next.containersByRef == st.containersByRef
  }

  /** What an accepted exchange of any kind went through first. */
  predicate Entered(st: State, x: Exchange, parse: Parser, next: State) {
    Readable200(parse, x) && Request(st, x).Ok? && next.requested == Request(st, x).value.requested
  }

  /** How an exchange bears on the selection from the list: only a container list changes it, once, to what the selector picks. */
  predicate ListTaken(st: State, x: Exchange, cap: Capture, parse: Parser, next: State) {
    if x.request.ListContainers? then
      var selecting := cap.selector.Some? && cap.selector.value.SelectsFromList();
      && st.fromList.None?
      && (if selecting
          then Selectable(parse(x.body), cap.selector.value)
               && next.fromList == Some(TextIds(Selected(parse(x.body).value.items, cap.selector.value)))
          else next.fromList.None?)
    else next.fromList == st.fromList
  }

  /** How an exchange bears on the advertised range: only a version body sets it, once, to what its two fields say. */
  predicate VersionTaken(st: State, x: Exchange, parse: Parser, next: State) {
    if x.request.DaemonVersion? then
      !st.versionSeen && next.versionSeen && Advertises(parse, x, next.facts)
    else
      next.versionSeen == st.versionSeen && next.facts.api == st.facts.api && next.facts.minimum == st.facts.minimum
  }

  /** The facts hold the versions that the body of this exchange advertises. */
  predicate Advertises(parse: Parser, x: Exchange, facts: Facts) {
    && parse(x.body).Some?
    && VersionField(parse(x.body).value, "ApiVersion") == Ok(facts.api)
    && VersionField(parse(x.body).value, "MinAPIVersion") == Ok(facts.minimum)
  }

  /** All that an exchange does that inspects nothing. */
  predicate Leaves(st: State, x: Exchange, cap: Capture, parse: Parser, next: State) {
    && ObjectsKept(st, next) && Entered(st, x, parse, next)
    && ListTaken(st, x, cap, parse, next) && VersionTaken(st, x, parse, next)
  }

  lemma AbsorbedVersion(st: State, x: Exchange, cap: Capture, parse: Parser, decoders: Decoders)
    requires x.request.DaemonVersion? && Absorb(st, x, cap, parse, decoders).Ok?
    ensures var next := Absorb(st, x, cap, parse, decoders).value;
      Leaves(st, x, cap, parse, next)
  {
  }

  lemma AbsorbedInfo(st: State, x: Exchange, cap: Capture, parse: Parser, decoders: Decoders)
    requires x.request.DaemonInfo? && Absorb(st, x, cap, parse, decoders).Ok?
    ensures var next := Absorb(st, x, cap, parse, decoders).value;
      Leaves(st, x, cap, parse, next)
  {
  }

  lemma AbsorbedContainers(st: State, x: Exchange, cap: Capture, parse: Parser, decoders: Decoders)
    requires x.request.ListContainers? && Absorb(st, x, cap, parse, decoders).Ok?
    ensures var next := Absorb(st, x, cap, parse, decoders).value;
      Leaves(st, x, cap, parse, next)
  {
  }

  lemma AbsorbedNetworks(st: State, x: Exchange, cap: Capture, parse: Parser, decoders: Decoders)
    requires x.request.ListNetworks? && Absorb(st, x, cap, parse, decoders).Ok?
    ensures var next := Absorb(st, x, cap, parse, decoders).value;
      Leaves(st, x, cap, parse, next)
  {
  }

  lemma VolumeListKeeps(st: State, body: Json)
    requires AbsorbVolumeList(st, body).Ok?
    ensures AbsorbVolumeList(st, body).value == st.(listed := AbsorbVolumeList(st, body).value.listed)
  {
  }

  lemma AbsorbedVolumes(st: State, x: Exchange, cap: Capture, parse: Parser, decoders: Decoders)
    requires x.request.ListVolumes? && Absorb(st, x, cap, parse, decoders).Ok?
    ensures var next := Absorb(st, x, cap, parse, decoders).value;
      Leaves(st, x, cap, parse, next)
  {
    assert Request(st, x).Ok? && Absorb(st, x, cap, parse, decoders) == AbsorbVolumeList(Request(st, x).value, parse(x.body).value);
    VolumeListKeeps(Request(st, x).value, parse(x.body).value);
  }

  lemma AbsorbedOther(st: State, x: Exchange, cap: Capture, parse: Parser, decoders: Decoders)
    requires x.request.Inspected().None? && Absorb(st, x, cap, parse, decoders).Ok?
    ensures var next := Absorb(st, x, cap, parse, decoders).value;
      Leaves(st, x, cap, parse, next)
  {
    match x.request
    case DaemonVersion => AbsorbedVersion(st, x, cap, parse, decoders);
    case DaemonInfo => AbsorbedInfo(st, x, cap, parse, decoders);
    case ListContainers => AbsorbedContainers(st, x, cap, parse, decoders);
    case ListNetworks => AbsorbedNetworks(st, x, cap, parse, decoders);
    case ListVolumes => AbsorbedVolumes(st, x, cap, parse, decoders);
  }

  lemma RequestAdds(st: State, x: Exchange)
    requires Request(st, x).Ok?
    ensures Elements(Request(st, x).value.requested) == Elements(st.requested) + if x.api.Some? then {x.api.value} else {}
  {
    if x.api.Some? {
      ElementsOfAppend(st.requested, x.api.value);
      assert x.api.value in st.requested ==> x.api.value in Elements(st.requested);
    }
  }

  /** The observations a log calls for: one for each inspection of the kind, in log order. */
  function Inspections(xs: seq<Exchange>, kind: Kind, parse: Parser): seq<Observation> {
    if xs == [] then []
    else
      var x := xs[|xs| - 1];
      Inspections(xs[..|xs| - 1], kind, parse)
      + match (x.request.Inspected(), x.resource, parse(x.body))
        case (Some(target), Some(reference), Some(body)) => if target.kind == kind then [Observation(reference, body)] else []
        case _ => []
  }

  predicate SameKind(x: Exchange, y: Exchange) {
    x.request.Inspected().Some? && y.request.Inspected().Some?
    && x.request.Inspected().value.kind == y.request.Inspected().value.kind
  }

  /** No two inspections of one kind share a native ID or a reference. */
  ghost predicate DistinctObjects(parse: Parser, xs: seq<Exchange>) {
    forall i, j :: 0 <= i < j < |xs| && SameKind(xs[i], xs[j]) ==>
      && NativeOf(parse, xs[i], xs[i].request.Inspected().value.kind) != NativeOf(parse, xs[j], xs[j].request.Inspected().value.kind)
      && xs[i].resource != xs[j].resource
  }

  /** The state remembers every object that was inspected. */
  ghost predicate Remembers(parse: Parser, xs: seq<Exchange>, st: State) {
    forall i :: 0 <= i < |xs| && xs[i].request.Inspected().Some? ==>
      var kind := xs[i].request.Inspected().value.kind;
      && xs[i].resource.Some? && NativeOf(parse, xs[i], kind).Some?
      && (kind, NativeOf(parse, xs[i], kind).value) in st.natives && (kind, xs[i].resource.value) in st.references
  }

  function Apis(xs: seq<Exchange>): set<ApiVersion> {
    set i | 0 <= i < |xs| && xs[i].api.Some? :: xs[i].api.value
  }

  /** What an accepted exchange does to the state. */
  predicate Adds(st: State, x: Exchange, cap: Capture, parse: Parser, next: State) {
    && Entered(st, x, parse, next) && ListTaken(st, x, cap, parse, next) && VersionTaken(st, x, parse, next)
    && if x.request.Inspected().None? then ObjectsKept(st, next)
       else Identified(parse, x, cap.fallbacks) && Met(st, x, parse, next)
  }

  lemma AbsorbAdds(st: State, x: Exchange, cap: Capture, parse: Parser, decoders: Decoders)
    requires Absorb(st, x, cap, parse, decoders).Ok?
    ensures Adds(st, x, cap, parse, Absorb(st, x, cap, parse, decoders).value)
  {
    if x.request.Inspected().None? {
      AbsorbedOther(st, x, cap, parse, decoders);
    } else {
      InspectionAdds(st, x, cap, parse, decoders);
    }
  }

  /** What the replayed part of a log proves. */
  ghost predicate Proved(xs: seq<Exchange>, cap: Capture, parse: Parser, st: State) {
    && (forall i :: 0 <= i < |xs| ==> Readable200(parse, xs[i]) && Identified(parse, xs[i], cap.fallbacks))
    && Remembers(parse, xs, st)
    && DistinctObjects(parse, xs)
    && st.containers == Inspections(xs, Container, parse)
    && st.networks == Inspections(xs, Network, parse)
    && st.volumes == Inspections(xs, Volume, parse)
    && Elements(st.requested) == Apis(xs)
  }

  lemma ApisMore(xs: seq<Exchange>, x: Exchange)
    ensures Apis(xs + [x]) == Apis(xs) + if x.api.Some? then {x.api.value} else {}
  {
    var ys := xs + [x];
    forall a | a in Apis(xs) ensures a in Apis(ys) {
      var i :| 0 <= i < |xs| && xs[i].api.Some? && xs[i].api.value == a;
      assert ys[i] == xs[i];
    }
    forall a | a in Apis(ys) ensures a in Apis(xs) + if x.api.Some? then {x.api.value} else {} {
      var i :| 0 <= i < |ys| && ys[i].api.Some? && ys[i].api.value == a;
      if i < |xs| { assert xs[i] == ys[i]; }
    }
    if x.api.Some? { assert ys[|xs|] == x; }
  }

  lemma DistinctMore(xs: seq<Exchange>, x: Exchange, parse: Parser, st: State, cap: Capture, next: State)
    requires DistinctObjects(parse, xs) && Remembers(parse, xs, st) && Adds(st, x, cap, parse, next)
    ensures DistinctObjects(parse, xs + [x]) && Remembers(parse, xs + [x], next)
  {
    var ys := xs + [x];
    forall i, j | 0 <= i < j < |ys| && SameKind(ys[i], ys[j])
      ensures NativeOf(parse, ys[i], ys[i].request.Inspected().value.kind)
           != NativeOf(parse, ys[j], ys[j].request.Inspected().value.kind)
      ensures ys[i].resource != ys[j].resource
    {
      assert xs[i] == ys[i];
      if j < |xs| { assert xs[j] == ys[j]; }
    }
    forall i | 0 <= i < |ys| && ys[i].request.Inspected().Some?
      ensures var kind := ys[i].request.Inspected().value.kind;
        && ys[i].resource.Some? && NativeOf(parse, ys[i], kind).Some?
        && (kind, NativeOf(parse, ys[i], kind).value) in next.natives && (kind, ys[i].resource.value) in next.references
    {
      if i < |xs| { assert xs[i] == ys[i]; }
    }
  }

  lemma ProvedMore(xs: seq<Exchange>, x: Exchange, cap: Capture, parse: Parser, st: State, next: State)
    requires Proved(xs, cap, parse, st) && Adds(st, x, cap, parse, next)
    ensures Proved(xs + [x], cap, parse, next)
  {
    DistinctMore(xs, x, parse, st, cap, next);
    ApisMore(xs, x);
    RequestAdds(st, x);
    assert (xs + [x])[..|xs|] == xs;
  }

  // ---- the list ----

  predicate Selecting(cap: Capture) {
    cap.selector.Some? && cap.selector.value.SelectsFromList()
  }

  /** The one container list of the log, and what the selector picks from it. */
  predicate ListedOnce(xs: seq<Exchange>, cap: Capture, parse: Parser, i: nat, ids: set<string>)
    requires Selecting(cap)
  {
    && i < |xs| && xs[i].request.ListContainers?
    && (forall j :: 0 <= j < |xs| && xs[j].request.ListContainers? ==> j == i)
    && Selectable(parse(xs[i].body), cap.selector.value)
    && ids == TextIds(Selected(parse(xs[i].body).value.items, cap.selector.value))
  }

  ghost predicate ListProved(xs: seq<Exchange>, cap: Capture, parse: Parser, st: State) {
    if Selecting(cap) then
      if st.fromList.None? then forall j :: 0 <= j < |xs| ==> !xs[j].request.ListContainers?
      else exists i: nat :: ListedOnce(xs, cap, parse, i, st.fromList.value)
    else st.fromList.None?
  }

  lemma ListProvedMore(xs: seq<Exchange>, x: Exchange, cap: Capture, parse: Parser, st: State, next: State)
    requires ListProved(xs, cap, parse, st) && ListTaken(st, x, cap, parse, next)
    ensures ListProved(xs + [x], cap, parse, next)
  {
    var ys := xs + [x];
    if Selecting(cap) {
      assert forall j :: 0 <= j < |xs| ==> ys[j] == xs[j];
      if x.request.ListContainers? {
        assert ys[|xs|] == x && ListedOnce(ys, cap, parse, |xs|, next.fromList.value);
      } else if st.fromList.Some? {
        var i: nat :| ListedOnce(xs, cap, parse, i, st.fromList.value);
        assert ListedOnce(ys, cap, parse, i, next.fromList.value);
      }
    }
  }

  // ---- the advertised range ----

  /** The one version body of the log, and what it advertises. */
  predicate VersionOnce(xs: seq<Exchange>, parse: Parser, i: nat, facts: Facts) {
    && i < |xs| && xs[i].request.DaemonVersion?
    && (forall j :: 0 <= j < |xs| && xs[j].request.DaemonVersion? ==> j == i)
    && Advertises(parse, xs[i], facts)
  }

  ghost predicate VersionProved(xs: seq<Exchange>, parse: Parser, st: State) {
    if st.versionSeen then exists i: nat :: VersionOnce(xs, parse, i, st.facts)
    else st.facts.api.None? && st.facts.minimum.None? && forall j :: 0 <= j < |xs| ==> !xs[j].request.DaemonVersion?
  }

  lemma VersionProvedMore(xs: seq<Exchange>, x: Exchange, parse: Parser, st: State, next: State)
    requires VersionProved(xs, parse, st) && VersionTaken(st, x, parse, next)
    ensures VersionProved(xs + [x], parse, next)
  {
    var ys := xs + [x];
    assert forall j :: 0 <= j < |xs| ==> ys[j] == xs[j];
    if x.request.DaemonVersion? {
      assert ys[|xs|] == x && VersionOnce(ys, parse, |xs|, next.facts);
    } else if st.versionSeen {
      var i: nat :| VersionOnce(xs, parse, i, st.facts);
      assert VersionOnce(ys, parse, i, next.facts);
    }
  }

  // ---- the containers by reference ----

  /** The container that an exchange inspects, by reference. */
  predicate InspectsContainer(x: Exchange, reference: Ref, id: string) {
    x.request.InspectContainer? && x.request.id == id && x.resource == Some(reference)
  }

  ghost predicate ByRefProved(xs: seq<Exchange>, st: State) {
    && (forall i :: 0 <= i < |xs| && xs[i].request.InspectContainer? && xs[i].resource.Some? ==>
          (Container, xs[i].resource.value) in st.references)
    && (forall r :: r in st.containersByRef ==>
          exists i :: 0 <= i < |xs| && InspectsContainer(xs[i], r, st.containersByRef[r]))
  }

  lemma ByRefMore(xs: seq<Exchange>, x: Exchange, cap: Capture, parse: Parser, st: State, next: State)
    requires ByRefProved(xs, st) && Adds(st, x, cap, parse, next)
    ensures ByRefProved(xs + [x], next)
  {
    var ys := xs + [x];
    assert forall j :: 0 <= j < |xs| ==> ys[j] == xs[j];
    forall r | r in next.containersByRef
      ensures exists i :: 0 <= i < |ys| && InspectsContainer(ys[i], r, next.containersByRef[r])
    {
      if x.request.InspectContainer? && x.resource == Some(r) {
        assert InspectsContainer(ys[|xs|], r, next.containersByRef[r]);
      } else {
        var i :| 0 <= i < |xs| && InspectsContainer(xs[i], r, st.containersByRef[r]);
        assert InspectsContainer(ys[i], r, next.containersByRef[r]);
      }
    }
  }

  /** Everything the replayed part of a log establishes. */
  ghost predicate Established(xs: seq<Exchange>, cap: Capture, parse: Parser, st: State) {
    Proved(xs, cap, parse, st) && ListProved(xs, cap, parse, st) && VersionProved(xs, parse, st) && ByRefProved(xs, st)
  }

  lemma EstablishedMore(xs: seq<Exchange>, x: Exchange, cap: Capture, parse: Parser, st: State, next: State)
    requires Established(xs, cap, parse, st) && Adds(st, x, cap, parse, next)
    ensures Established(xs + [x], cap, parse, next)
  {
    ProvedMore(xs, x, cap, parse, st, next);
    ListProvedMore(xs, x, cap, parse, st, next);
    VersionProvedMore(xs, x, parse, st, next);
    ByRefMore(xs, x, cap, parse, st, next);
  }

  lemma BlankEstablished(cap: Capture, parse: Parser)
    ensures Established([], cap, parse, Blank())
  {
  }

  lemma {:induction false} ReplayEstablishes(xs: seq<Exchange>, cap: Capture, parse: Parser, decoders: Decoders, st: State)
    requires Fold(Step(cap, parse, decoders), Blank(), xs) == Ok(st)
    ensures Established(xs, cap, parse, st)
    decreases xs
  {
    if xs == [] {
      BlankEstablished(cap, parse);
    } else {
      var front, x := xs[..|xs| - 1], xs[|xs| - 1];
      var before := Fold(Step(cap, parse, decoders), Blank(), front).value;
      ReplayEstablishes(front, cap, parse, decoders, before);
      AbsorbAdds(before, x, cap, parse, decoders);
      EstablishedMore(front, x, cap, parse, before, st);
      assert front + [x] == xs;
    }
  }

  // ---- what acceptance means ----

  /** The exchange that an observation was made from. */
  predicate MadeFrom(o: Observation, x: Exchange, kind: Kind, parse: Parser) {
    && x.request.Inspected().Some? && x.request.Inspected().value.kind == kind
    && x.resource == Some(o.reference) && parse(x.body) == Some(o.body)
  }

  lemma {:induction false} ObservedExchange(xs: seq<Exchange>, kind: Kind, parse: Parser, k: nat) returns (i: nat)
    requires k < |Inspections(xs, kind, parse)|
    ensures i < |xs| && MadeFrom(Inspections(xs, kind, parse)[k], xs[i], kind, parse)
  {
    var front := xs[..|xs| - 1];
    if k < |Inspections(front, kind, parse)| {
      i := ObservedExchange(front, kind, parse, k);
    } else {
      i := |xs| - 1;
    }
  }

  lemma DistinctPrefix(parse: Parser, xs: seq<Exchange>, n: nat)
    requires DistinctObjects(parse, xs) && n <= |xs|
    ensures DistinctObjects(parse, xs[..n])
  {
  }

  /** References tell the observations of one kind apart. */
  lemma {:induction false} ObservationsDistinct(xs: seq<Exchange>, kind: Kind, parse: Parser, a: nat, b: nat)
    requires DistinctObjects(parse, xs) && a < b < |Inspections(xs, kind, parse)|
    ensures Inspections(xs, kind, parse)[a].reference != Inspections(xs, kind, parse)[b].reference
  {
    var last := |xs| - 1;
    var front := xs[..last];
    DistinctPrefix(parse, xs, last);
    if b < |Inspections(front, kind, parse)| {
      ObservationsDistinct(front, kind, parse, a, b);
    } else {
      var i := ObservedExchange(front, kind, parse, a);
      assert xs[i] == front[i] && SameKind(xs[i], xs[last]);
    }
  }

  /** A root names the `k`-th observation and no other. */
  predicate NamesOnly(observations: seq<Observation>, root: SelectedRoot, k: nat) {
    && k < |observations| && observations[k].reference == root.resource
    && forall m :: 0 <= m < |observations| && observations[m].reference == root.resource ==> m == k
  }

  lemma RootNamesOne(cap: Capture, parse: Parser, st: State, root: SelectedRoot) returns (k: nat)
    requires Proved(cap.exchanges, cap, parse, st) && RootAgrees(st, root)
    ensures NamesOnly(ObservationsOf(st, root.kind), root, k)
  {
    var observations := ObservationsOf(st, root.kind);
    assert observations == Inspections(cap.exchanges, root.kind, parse);
    k :| 0 <= k < |observations| && observations[k].reference == root.resource;
    forall m | 0 <= m < |observations| && observations[m].reference == root.resource
      ensures m == k
    {
      if k < m { ObservationsDistinct(cap.exchanges, root.kind, parse, k, m); }
      if m < k { ObservationsDistinct(cap.exchanges, root.kind, parse, m, k); }
    }
  }

  predicate Between(minimum: Option<ApiVersion>, api: ApiVersion, maximum: Option<ApiVersion>) {
    && (minimum.Some? ==> minimum.value.AtMost(api))
    && (maximum.Some? ==> api.AtMost(maximum.value))
  }

  /** The body advertises a range, possibly open at either end, that holds all these versions. */
  predicate AdvertisesRange(parse: Parser, x: Exchange, apis: set<ApiVersion>) {
    && parse(x.body).Some?
    && var minimum, maximum := VersionField(parse(x.body).value, "MinAPIVersion"), VersionField(parse(x.body).value, "ApiVersion");
    && minimum.Ok? && maximum.Ok?
    && (minimum.value.Some? ==> Between(None, minimum.value.value, maximum.value))
    && forall api :: api in apis ==> Between(minimum.value, api, maximum.value)
  }

  lemma ListMeans(cap: Capture, parse: Parser, st: State) returns (i: nat)
    requires Selecting(cap) && ListProved(cap.exchanges, cap, parse, st) && ListAgrees(st, cap)
    ensures ListedOnce(cap.exchanges, cap, parse, i, RootIds(cap.roots, st.containersByRef))
  {
    i :| ListedOnce(cap.exchanges, cap, parse, i, st.fromList.value);
    assert st.fromList.value == RootIds(cap.roots, st.containersByRef);
  }

  lemma AcceptedReplay(cap: Capture, parse: Parser, decoders: Decoders, st: State)
    requires Decoded(cap, parse, decoders) == Ok(st)
    ensures Fold(Step(cap, parse, decoders), Blank(), cap.exchanges) == Ok(st)
    ensures Complete(st, cap) && InRange(st.facts, st.requested)
  {
  }

  /** Some observation of the root's kind, and only that one, is named by it. */
  ghost predicate NamesOne(st: State, root: SelectedRoot) {
    exists k: nat :: NamesOnly(ObservationsOf(st, root.kind), root, k)
  }

  ghost predicate EachRootNamesOne(cap: Capture, st: State) {
    forall i :: 0 <= i < |cap.roots| ==> NamesOne(st, cap.roots[i])
  }

  lemma RootsNameOne(cap: Capture, parse: Parser, st: State)
    requires Proved(cap.exchanges, cap, parse, st) && forall i :: 0 <= i < |cap.roots| ==> RootAgrees(st, cap.roots[i])
    ensures EachRootNamesOne(cap, st)
  {
    forall i | 0 <= i < |cap.roots| ensures NamesOne(st, cap.roots[i]) {
      var k := RootNamesOne(cap, parse, st, cap.roots[i]);
    }
  }

  lemma RequestedInRange(facts: Facts, requested: seq<ApiVersion>, apis: set<ApiVersion>)
    requires InRange(facts, requested) && Elements(requested) == apis
    ensures forall api :: api in apis ==> Between(facts.minimum, api, facts.api)
  {
    forall api | api in apis
      ensures Between(facts.minimum, api, facts.api)
    {
      assert api in Elements(requested);
      var i :| 0 <= i < |requested| && requested[i] == api;
    }
  }

  /** A log has one version body at most, and it advertises a range that holds every version of a request. */
  ghost predicate VersionsInRange(xs: seq<Exchange>, parse: Parser) {
    && (forall i :: 0 <= i < |xs| && xs[i].request.DaemonVersion? ==> AdvertisesRange(parse, xs[i], Apis(xs)))
    && (forall i, j :: 0 <= i < j < |xs| && xs[i].request.DaemonVersion? ==> !xs[j].request.DaemonVersion?)
  }

  lemma RangeMeans(xs: seq<Exchange>, parse: Parser, st: State)
    requires VersionProved(xs, parse, st) && InRange(st.facts, st.requested) && Elements(st.requested) == Apis(xs)
    ensures VersionsInRange(xs, parse)
  {
    RequestedInRange(st.facts, st.requested, Apis(xs));
    if st.versionSeen {
      var i: nat :| VersionOnce(xs, parse, i, st.facts);
      assert AdvertisesRange(parse, xs[i], Apis(xs));
    }
  }

  /** Acceptance, of any capture, means readable answers with matching identities, objects that no two inspections of a kind share,
      observations in log order, and roots that each name one observation of their kind. */
  lemma AcceptedObjects(cap: Capture, parse: Parser, decoders: Decoders, st: State)
    requires Decoded(cap, parse, decoders) == Ok(st)
    ensures Proved(cap.exchanges, cap, parse, st) && ByRefProved(cap.exchanges, st)
    ensures DistinctRoots(cap.roots) && EachRootNamesOne(cap, st)
  {
    AcceptedReplay(cap, parse, decoders, st);
    ReplayEstablishes(cap.exchanges, cap, parse, decoders, st);
    RootsNameOne(cap, parse, st);
  }

  /** Acceptance means that the roots of a selecting capture are what its selector picks from the one list in the log. */
  lemma AcceptedSelection(cap: Capture, parse: Parser, decoders: Decoders, st: State) returns (i: nat)
    requires Decoded(cap, parse, decoders) == Ok(st) && Selecting(cap)
    ensures ListedOnce(cap.exchanges, cap, parse, i, RootIds(cap.roots, st.containersByRef))
  {
    AcceptedReplay(cap, parse, decoders, st);
    ReplayEstablishes(cap.exchanges, cap, parse, decoders, st);
    i := ListMeans(cap, parse, st);
  }

  /** Acceptance means that every version a request was sent under lies in the range that the log's one version body advertises. */
  lemma AcceptedVersions(cap: Capture, parse: Parser, decoders: Decoders, st: State)
    requires Decoded(cap, parse, decoders) == Ok(st)
    ensures VersionsInRange(cap.exchanges, parse)
  {
    AcceptedReplay(cap, parse, decoders, st);
    ReplayEstablishes(cap.exchanges, cap, parse, decoders, st);
    RangeMeans(cap.exchanges, parse, st);
  }
}
