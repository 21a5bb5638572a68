/** What a completed acquisition's log looks like: a plan, and the exchanges that carry it out. */
module Completion {
  import opened Outcome
  import opened Json
  import opened Protocol
  import opened Sequences
  import opened Selection
  import opened Related
  import opened Versions
  import opened Ordering
  import D = Decoder

  /** An object to inspect, and the key under which its body must repeat the requested ID. */
  datatype Visit = Visit(target: Target, key: string)

  /** The resources of a run, in inspection order; `byName` says which networks are known by name only. */
  datatype Plan = Plan(
    api: ApiVersion,
    selector: Selector,
    containers: seq<NativeId>,
    networks: seq<NativeId>,
    byName: map<string, bool>,
    volumes: seq<NativeId>)
  {
    predicate Flags() {
      forall i :: 0 <= i < |networks| ==> networks[i] in byName
    }

    function Visits(): (r: seq<Visit>)
      requires Flags()
      ensures |r| == |containers| + |networks| + |volumes|
    {
      ContainerVisits(containers) + NetworkVisits(networks, byName) + VolumeVisits(volumes)
    }

    /** The requests before the first inspection. */
    function Opening(): seq<ReadRequest> {
      [DaemonVersion, DaemonInfo] + if selector.Lists() then [ListContainers] else []
    }
  }

  function ContainerVisits(ids: seq<NativeId>): (r: seq<Visit>)
    ensures |r| == |ids|
  {
    seq(|ids|, i requires 0 <= i < |ids| => Visit(Target(Container, ids[i]), "Id"))
  }

  function NetworkVisits(ids: seq<NativeId>, byName: map<string, bool>): (r: seq<Visit>)
    requires forall i :: 0 <= i < |ids| ==> ids[i] in byName
    ensures |r| == |ids|
  {
    seq(|ids|, i requires 0 <= i < |ids| => Visit(Target(Network, ids[i]), if byName[ids[i]] then "Name" else "Id"))
  }

  function VolumeVisits(ids: seq<NativeId>): (r: seq<Visit>)
    ensures |r| == |ids|
  {
    seq(|ids|, i requires 0 <= i < |ids| => Visit(Target(Volume, ids[i]), "Name"))
  }

  /** One answered inspection under its reference: status 200, a bounded body, and the requested identity in it. */
  predicate Answered(parse: D.Parser, x: Exchange, reference: Ref, visit: Visit, api: ApiVersion) {
    && x.request == InspectRequest(visit.target)
    && x.resource == Some(reference) && x.api == Some(api) && x.status == 200
    && |x.body| <= MAX_JSON_BYTES
    && parse(x.body).Some?
    && parse(x.body).value.GetStr(visit.key) == Some(visit.target.id)
    && NativeOf(parse, x, visit.target.kind) != ""
  }

  /** The visits, answered one by one under consecutive references from `first`. */
  predicate AllAnswered(parse: D.Parser, xs: seq<Exchange>, first: Ref, visits: seq<Visit>, api: ApiVersion) {
    && |xs| == |visits|
    && forall i :: 0 <= i < |xs| ==> Answered(parse, xs[i], first + i, visits[i], api)
  }

  lemma AnsweredConcat(parse: D.Parser, a: seq<Exchange>, s: seq<Visit>, b: seq<Exchange>, t: seq<Visit>,
                       first: Ref, second: Ref, api: ApiVersion)
    requires AllAnswered(parse, a, first, s, api) && AllAnswered(parse, b, second, t, api) && second == first + |a|
    ensures AllAnswered(parse, a + b, first, s + t, api)
  {
    forall i | 0 <= i < |a + b|
      ensures Answered(parse, (a + b)[i], first + i, (s + t)[i], api)
    {
      if i < |a| {
        assert Answered(parse, a[i], first + i, s[i], api);
      } else {
        assert Answered(parse, b[i - |a|], second + (i - |a|), t[i - |a|], api);
      }
    }
  }

  /** The native ID an inspected body carries; empty when it carries none. */
  function NativeOf(parse: D.Parser, x: Exchange, kind: Kind): string {
    D.NativeOf(parse, x, kind).GetOr("")
  }

  /** The native IDs of a run of inspected bodies of one kind. */
  function NativeIds(parse: D.Parser, xs: seq<Exchange>, kind: Kind): seq<string> {
    seq(|xs|, i requires 0 <= i < |xs| => NativeOf(parse, xs[i], kind))
  }

  function AllMentions(parse: D.Parser, xs: seq<Exchange>): set<Mention> {
    if xs == [] then {}
    else
      var last := |xs| - 1;
      AllMentions(parse, xs[..last])
      + match parse(xs[last].body) case Some(body) => Mentions(body) case None => {}
  }

  function AllMounted(parse: D.Parser, xs: seq<Exchange>): set<string> {
    if xs == [] then {}
    else
      var last := |xs| - 1;
      AllMounted(parse, xs[..last])
      + match parse(xs[last].body) case Some(body) => (set id | id in Mounted(body)) case None => {}
  }

  function Dedup(ids: seq<NativeId>): seq<NativeId> {
    if ids == [] then []
    else
      var last := |ids| - 1;
      var front := Dedup(ids[..last]);
      if ids[last] in front then front else front + [ids[last]]
  }

  function InitialNetworks(selector: Selector): map<string, bool> {
    if selector.NetworkIds? then map id | id in selector.ids :: false else map[]
  }

  function InitialVolumes(selector: Selector): set<string> {
    if selector.VolumeNames? then set id | id in selector.names else {}
  }

  function ReasonOf(selector: Selector): SelectionReason {
    match selector
    case ContainerIds(_) => ExactId
    case NetworkIds(_) => ExactId
    case VolumeNames(_) => ExactId
    case ContainerNames(_) => ExactName
    case NamePrefix(_) => ByNamePrefix
    case Label(_, _) => ByLabel
    case Discovery => ExplicitAll
    case AllContainers => ExplicitAll
  }

  function Roots(first: Ref, count: nat, kind: Kind, reason: SelectionReason): (r: seq<SelectedRoot>)
    ensures |r| == count
  {
    seq(count, i requires 0 <= i < count => SelectedRoot(first + i, kind, reason))
  }

  function PlannedRoots(plan: Plan): seq<SelectedRoot> {
    Roots(1, |plan.containers|, Container, ReasonOf(plan.selector))
    + (if plan.selector.NetworkIds? then Roots(1 + |plan.containers|, |plan.networks|, Network, ExactNetworkId) else [])
    + (if plan.selector.VolumeNames?
       then Roots(1 + |plan.containers| + |plan.networks|, |plan.volumes|, Volume, ExactVolumeName) else [])
  }

  /** The references of the networks that are inspected by name. */
  function Fallbacks(first: Ref, networks: seq<NativeId>, byName: map<string, bool>): set<Ref>
    requires forall i :: 0 <= i < |networks| ==> networks[i] in byName
  {
    set i | 0 <= i < |networks| && byName[networks[i]] :: first + i
  }

  /** An unaddressed exchange of the opening. */
  predicate Opened(x: Exchange, request: ReadRequest, api: Option<ApiVersion>) {
    x == Exchange(request, None, api, 200, x.body) && |x.body| <= MAX_JSON_BYTES
  }

  /** Where the roots come from: the explicit IDs, or what the selector picks from the list that was read. */
  predicate ContainersChosen(parse: D.Parser, opening: seq<Exchange>, plan: Plan) {
    match plan.selector
    case ContainerIds(ids) => plan.containers == Dedup(ids)
    case NetworkIds(_) => plan.containers == []
    case VolumeNames(_) => plan.containers == []
    case _ =>
      && |opening| == 3
      && Selectable(parse(opening[2].body), plan.selector)
      && plan.containers == Dedup(Selected(parse(opening[2].body).value.items, plan.selector))
  }

  ghost predicate OpeningDone(parse: D.Parser, opening: seq<Exchange>, plan: Plan) {
    && |opening| == |plan.Opening()|
    && Opened(opening[0], DaemonVersion, None)
    && Negotiated(parse(opening[0].body)) == Some(plan.api)
    && Opened(opening[1], DaemonInfo, Some(plan.api))
    && (plan.selector.Lists() ==> Opened(opening[2], ListContainers, Some(plan.api)))
    && ContainersChosen(parse, opening, plan)
  }

  /** Nothing but the container bodies and the selector decides which networks and volumes are inspected. */
  ghost predicate Settled(parse: D.Parser, plan: Plan, c: seq<Exchange>) {
    && plan.Flags()
    && AllAnswered(parse, c, 1, ContainerVisits(plan.containers), plan.api)
    && Merged(InitialNetworks(plan.selector), AllMentions(parse, c), plan.byName)
    && Ascending(plan.networks) && Elements(plan.networks) == plan.byName.Keys
    && Ascending(plan.volumes) && Elements(plan.volumes) == InitialVolumes(plan.selector) + AllMounted(parse, c)
  }

  /** The visits after the containers. */
  function RelatedVisits(plan: Plan): seq<Visit>
    requires plan.Flags()
  {
    NetworkVisits(plan.networks, plan.byName) + VolumeVisits(plan.volumes)
  }

  /** The inspections after the containers: every network once by native ID, then every volume. */
  ghost predicate RelatedDone(parse: D.Parser, plan: Plan, related: seq<Exchange>)
    requires plan.Flags()
  {
    && AllAnswered(parse, related, 1 + |plan.containers|, RelatedVisits(plan), plan.api)
    && NoRepeat(NativeIds(parse, related[..|plan.networks|], Network))
  }

  /** The inspections: the containers, then every network once by native ID, then every volume. */
  ghost predicate Inspected(parse: D.Parser, plan: Plan, c: seq<Exchange>, related: seq<Exchange>) {
    Settled(parse, plan, c) && RelatedDone(parse, plan, related)
  }

  /** The parts of a log. */
  datatype Log = Log(opening: seq<Exchange>, containers: seq<Exchange>, related: seq<Exchange>) {
    function Exchanges(): seq<Exchange> { opening + containers + related }
  }

  /** The capture of a plan carried out: its log, labelled with its roots, fallbacks and exact counts. */
  function CaptureOf(plan: Plan, log: Log): Capture
    requires plan.Flags()
  {
    Capture(
      Bounds(|log.Exchanges()|, |PlannedRoots(plan)|, |plan.Visits()|, TotalBytes(log.Exchanges())),
      log.Exchanges(),
      ExplicitUnixSocket,
      PlannedRoots(plan),
      Some(plan.selector),
      Fallbacks(1 + |plan.containers|, plan.networks, plan.byName),
      plan.selector.Discovery?)
  }

  ghost predicate Completed(parse: D.Parser, c: Capture, plan: Plan, log: Log) {
    && OpeningDone(parse, log.opening, plan)
    && Inspected(parse, plan, log.containers, log.related)
    && c == CaptureOf(plan, log)
  }

  // ---- plans and logs ----

  lemma {:induction false} DedupKeeps(ids: seq<NativeId>)
    ensures Elements(Dedup(ids)) == Elements(ids) && Distinct(Dedup(ids))
  {
    if ids != [] {
      var last := |ids| - 1;
      DedupKeeps(ids[..last]);
      assert ids == ids[..last] + [ids[last]];
      ElementsOfAppend(ids[..last], ids[last]);
      if ids[last] in Dedup(ids[..last]) {
        assert ids[last] in Elements(ids[..last]);
      } else {
        ElementsOfAppend(Dedup(ids[..last]), ids[last]);
        DistinctAppend(Dedup(ids[..last]), ids[last]);
      }
    }
  }

  /** Where a visit of a plan stands. */
  lemma VisitAt(plan: Plan, i: nat)
    requires plan.Flags() && i < |plan.Visits()|
    ensures var n, m := |plan.containers|, |plan.networks|;
      plan.Visits()[i]
      == if i < n then Visit(Target(Container, plan.containers[i]), "Id")
         else if i < n + m then Visit(Target(Network, plan.networks[i - n]), if plan.byName[plan.networks[i - n]] then "Name" else "Id")
         else Visit(Target(Volume, plan.volumes[i - n - m]), "Name")
  {
  }

  lemma FallbackMeans(first: Ref, networks: seq<NativeId>, byName: map<string, bool>, j: nat)
    requires j < |networks| && forall i :: 0 <= i < |networks| ==> networks[i] in byName
    ensures first + j in Fallbacks(first, networks, byName) <==> byName[networks[j]]
  {
  }

  lemma ChosenDistinct(parse: D.Parser, opening: seq<Exchange>, plan: Plan)
    requires ContainersChosen(parse, opening, plan)
    ensures Distinct(plan.containers)
  {
    match plan.selector
    case ContainerIds(ids) => DedupKeeps(ids);
    case NetworkIds(_) =>
    case VolumeNames(_) =>
    case _ => DedupKeeps(Selected(parse(opening[2].body).value.items, plan.selector));
  }

  lemma AllVisitsAnswered(parse: D.Parser, plan: Plan, c: seq<Exchange>, related: seq<Exchange>)
    requires Inspected(parse, plan, c, related)
    ensures AllAnswered(parse, c + related, 1, plan.Visits(), plan.api)
    ensures (c + related)[|plan.containers|..][..|plan.networks|] == related[..|plan.networks|]
  {
    AnsweredConcat(parse, c, ContainerVisits(plan.containers), related, RelatedVisits(plan), 1, 1 + |plan.containers|, plan.api);
    assert plan.Visits() == ContainerVisits(plan.containers) + RelatedVisits(plan);
    assert (c + related)[|plan.containers|..] == related;
  }

  lemma LogJoined(plan: Plan, log: Log)
    requires plan.Flags()
    ensures CaptureOf(plan, log).exchanges == log.opening + (log.containers + log.related)
  {
  }

  lemma MergedUnique(before: map<string, bool>, mentions: set<Mention>, a: map<string, bool>, b: map<string, bool>)
    requires Merged(before, mentions, a) && Merged(before, mentions, b)
    ensures a == b
  {
    assert a.Keys == b.Keys;
    forall id | id in a ensures a[id] == b[id] {
    }
  }

  lemma SameVolumes(a: seq<string>, b: seq<string>, ids: set<string>)
    requires Ascending(a) && Ascending(b) && Elements(a) == ids && Elements(b) == ids
    ensures a == b
  {
    AscendingUnique(a, b);
  }

  /** The container bodies and the selector leave no choice: however hash maps iterate, the rest of the plan is the same. */
  lemma PlanDetermined(parse: D.Parser, p: Plan, q: Plan, bodies: seq<Exchange>)
    requires Settled(parse, p, bodies) && Settled(parse, q, bodies)
    requires p.api == q.api && p.selector == q.selector && p.containers == q.containers
    ensures p == q
  {
    MergedUnique(InitialNetworks(p.selector), AllMentions(parse, bodies), p.byName, q.byName);
    AscendingUnique(p.networks, q.networks);
    SameVolumes(p.volumes, q.volumes, InitialVolumes(p.selector) + AllMounted(parse, bodies));
  }
}
