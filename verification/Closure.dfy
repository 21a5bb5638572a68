/** What a completed acquisition inspected: exactly what its roots and their containers call for, each object once. */
module Closure {
  import opened Outcome
  import opened Protocol
  import opened Sequences
  import opened Ordering
  import opened Related
  import opened Completion
  import Acquisition
  import D = Decoder

  predicate Inspects(x: Exchange, target: Target) {
    x.request.Inspected() == Some(target)
  }

  /** The container bodies of a log mention the network. */
  ghost predicate NetworkMentioned(parse: D.Parser, xs: seq<Exchange>, id: string, byName: bool) {
    exists i :: 0 <= i < |xs| && MentionedBy(parse, xs[i], id, byName)
  }

  predicate MentionedBy(parse: D.Parser, x: Exchange, id: string, byName: bool) {
    x.request.InspectContainer? && parse(x.body).Some? && Mention(id, byName) in Mentions(parse(x.body).value)
  }

  predicate MountedBy(parse: D.Parser, x: Exchange, id: string) {
    x.request.InspectContainer? && parse(x.body).Some? && (exists v :: v in Mounted(parse(x.body).value) && v == id)
  }

  /** The container bodies of a log mount the volume. */
  ghost predicate VolumeMounted(parse: D.Parser, xs: seq<Exchange>, id: string) {
    exists i :: 0 <= i < |xs| && MountedBy(parse, xs[i], id)
  }

  /** A root of the run, or something that an inspected container of the log refers to. */
  ghost predicate CalledFor(parse: D.Parser, plan: Plan, xs: seq<Exchange>, target: Target) {
    match target.kind
    case Container => target.id in plan.containers
    case Network =>
      target.id in InitialNetworks(plan.selector)
      || NetworkMentioned(parse, xs, target.id, true) || NetworkMentioned(parse, xs, target.id, false)
    case Volume => target.id in InitialVolumes(plan.selector) || VolumeMounted(parse, xs, target.id)
  }

  // ---- mentions, exchange by exchange ----

  lemma {:induction false} MentionsOfEach(parse: D.Parser, xs: seq<Exchange>, m: Mention)
    ensures m in AllMentions(parse, xs)
       <==> exists i :: 0 <= i < |xs| && parse(xs[i].body).Some? && m in Mentions(parse(xs[i].body).value)
  {
    if xs != [] {
      var last := |xs| - 1;
      var front := xs[..last];
      MentionsOfEach(parse, front, m);
      assert forall i :: 0 <= i < last ==> front[i] == xs[i];
      if i :| 0 <= i < |xs| && parse(xs[i].body).Some? && m in Mentions(parse(xs[i].body).value) {
        if i < last { assert front[i] == xs[i]; }
      }
    }
  }

  lemma {:induction false} MountsOfEach(parse: D.Parser, xs: seq<Exchange>, id: string)
    ensures id in AllMounted(parse, xs)
       <==> exists i :: 0 <= i < |xs| && parse(xs[i].body).Some? && exists v :: v in Mounted(parse(xs[i].body).value) && v == id
  {
    if xs != [] {
      var last := |xs| - 1;
      var front := xs[..last];
      MountsOfEach(parse, front, id);
      assert forall i :: 0 <= i < last ==> front[i] == xs[i];
      if i :| 0 <= i < |xs| && parse(xs[i].body).Some? && exists v :: v in Mounted(parse(xs[i].body).value) && v == id {
        if i < last { assert front[i] == xs[i]; }
      }
    }
  }

  /** The layout of a completed log. */
  ghost predicate Laid(parse: D.Parser, xs: seq<Exchange>, plan: Plan, log: Log) {
    && plan.Flags()
    && xs == log.opening + (log.containers + log.related)
    && (forall i :: 0 <= i < |log.opening| ==> log.opening[i].request.Inspected().None?)
    && |log.containers| == |plan.containers|
    && AllAnswered(parse, log.containers + log.related, 1, plan.Visits(), plan.api)
  }

  lemma OpeningInspectsNothing(opening: seq<Exchange>, plan: Plan)
    requires |opening| == |plan.Opening()| && Opened(opening[0], DaemonVersion, None) && Opened(opening[1], DaemonInfo, Some(plan.api))
    requires plan.selector.Lists() ==> Opened(opening[2], ListContainers, Some(plan.api))
    ensures forall i :: 0 <= i < |opening| ==> opening[i].request.Inspected().None?
  {
  }

  lemma CompletedLaid(parse: D.Parser, c: Capture, plan: Plan, log: Log)
    requires Completed(parse, c, plan, log)
    ensures Laid(parse, c.exchanges, plan, log) && Distinct(plan.containers)
  {
    LogJoined(plan, log);
    AllVisitsAnswered(parse, plan, log.containers, log.related);
    OpeningInspectsNothing(log.opening, plan);
    ChosenDistinct(parse, log.opening, plan);
  }

  /** Where an exchange of a completed log stands. */
  lemma ExchangeAt(parse: D.Parser, xs: seq<Exchange>, plan: Plan, log: Log, k: nat)
    requires Laid(parse, xs, plan, log) && k < |xs|
    ensures |xs| == |log.opening| + |plan.Visits()|
    ensures if k < |log.opening| then xs[k].request.Inspected().None?
            else Answered(parse, xs[k], 1 + k - |log.opening|, plan.Visits()[k - |log.opening|], plan.api)
    ensures |log.opening| <= k < |log.opening| + |log.containers| ==> xs[k] == log.containers[k - |log.opening|]
  {
    if k >= |log.opening| {
      assert xs[k] == (log.containers + log.related)[k - |log.opening|];
    }
  }

  /** The inspections of a container are the exchanges right after the opening. */
  lemma ContainerAt(parse: D.Parser, xs: seq<Exchange>, plan: Plan, log: Log, k: nat)
    requires Laid(parse, xs, plan, log) && k < |xs|
    ensures xs[k].request.InspectContainer? <==> |log.opening| <= k < |log.opening| + |log.containers|
  {
    ExchangeAt(parse, xs, plan, log, k);
    if k >= |log.opening| {
      VisitAt(plan, k - |log.opening|);
    }
  }

  // ---- each object once ----

  /** No object is inspected twice, and the references count up in log order. */
  ghost predicate OnceEach(xs: seq<Exchange>) {
    forall i, j :: 0 <= i < j < |xs| && xs[i].request.Inspected().Some? && xs[j].request.Inspected().Some? ==>
      && xs[i].request.Inspected() != xs[j].request.Inspected()
      && xs[i].resource.Some? && xs[j].resource == Some(xs[i].resource.value + (j - i))
  }

  lemma LaidOnce(parse: D.Parser, xs: seq<Exchange>, plan: Plan, log: Log, i: nat, j: nat)
    requires Laid(parse, xs, plan, log) && Distinct(plan.containers) && Ascending(plan.networks) && Ascending(plan.volumes)
    requires i < j < |xs| && xs[i].request.Inspected().Some? && xs[j].request.Inspected().Some?
    ensures xs[i].request.Inspected() != xs[j].request.Inspected()
    ensures xs[i].resource.Some? && xs[j].resource == Some(xs[i].resource.value + (j - i))
  {
    ExchangeAt(parse, xs, plan, log, i);
    ExchangeAt(parse, xs, plan, log, j);
    VisitAt(plan, i - |log.opening|);
    VisitAt(plan, j - |log.opening|);
    AscendingDistinct(plan.networks);
    AscendingDistinct(plan.volumes);
  }

  lemma LaidOnceEach(parse: D.Parser, xs: seq<Exchange>, plan: Plan, log: Log)
    requires Laid(parse, xs, plan, log) && Distinct(plan.containers) && Ascending(plan.networks) && Ascending(plan.volumes)
    ensures OnceEach(xs)
  {
    forall i, j | 0 <= i < j < |xs| && xs[i].request.Inspected().Some? && xs[j].request.Inspected().Some?
      ensures xs[i].request.Inspected() != xs[j].request.Inspected()
      ensures xs[i].resource.Some? && xs[j].resource == Some(xs[i].resource.value + (j - i))
    {
      LaidOnce(parse, xs, plan, log, i, j);
    }
  }

  /** After `n` unaddressed exchanges, inspections only, under the references 1, 2, 3 and so on. */
  ghost predicate Numbered(xs: seq<Exchange>, n: nat) {
    forall k :: 0 <= k < |xs| ==>
      if k < n then xs[k].request.Inspected().None? && xs[k].resource.None?
      else xs[k].request.Inspected().Some? && xs[k].resource == Some(1 + k - n)
  }

  lemma LaidNumbered(parse: D.Parser, xs: seq<Exchange>, plan: Plan, log: Log)
    requires Laid(parse, xs, plan, log)
    requires |log.opening| == |plan.Opening()| && forall i :: 0 <= i < |log.opening| ==> log.opening[i].resource.None?
    ensures Numbered(xs, |plan.Opening()|)
  {
    forall k | 0 <= k < |xs|
      ensures if k < |plan.Opening()| then xs[k].request.Inspected().None? && xs[k].resource.None?
              else xs[k].request.Inspected().Some? && xs[k].resource == Some(1 + k - |plan.Opening()|)
    {
      ExchangeAt(parse, xs, plan, log, k);
    }
  }

  // ---- exactly what is called for ----

  ghost predicate InspectedIn(xs: seq<Exchange>, target: Target) {
    exists k :: 0 <= k < |xs| && Inspects(xs[k], target)
  }

  /** The inspected objects are the members of the plan. */
  predicate Planned(plan: Plan, target: Target) {
    match target.kind
    case Container => target.id in plan.containers
    case Network => target.id in plan.networks
    case Volume => target.id in plan.volumes
  }

  lemma InspectedArePlanned(parse: D.Parser, xs: seq<Exchange>, plan: Plan, log: Log, target: Target)
    requires Laid(parse, xs, plan, log) && InspectedIn(xs, target)
    ensures Planned(plan, target)
  {
    var k :| 0 <= k < |xs| && Inspects(xs[k], target);
    ExchangeAt(parse, xs, plan, log, k);
    VisitAt(plan, k - |log.opening|);
  }

  lemma PlannedAreInspected(parse: D.Parser, xs: seq<Exchange>, plan: Plan, log: Log, target: Target)
    requires Laid(parse, xs, plan, log) && Planned(plan, target)
    ensures InspectedIn(xs, target)
  {
    var n, m := |plan.containers|, |plan.networks|;
    var t: nat;
    match target.kind {
      case Container => t :| 0 <= t < n && plan.containers[t] == target.id;
      case Network => var j :| 0 <= j < m && plan.networks[j] == target.id; t := n + j;
      case Volume => var j :| 0 <= j < |plan.volumes| && plan.volumes[j] == target.id; t := n + m + j;
    }
    var k := |log.opening| + t;
    assert |xs| == |log.opening| + |plan.Visits()|;
    ExchangeAt(parse, xs, plan, log, k);
    VisitAt(plan, t);
    assert Inspects(xs[k], target);
  }

  /** The mentions of the container part of a log are those of its container inspections. */
  lemma MentionsInLog(parse: D.Parser, xs: seq<Exchange>, plan: Plan, log: Log, m: Mention)
    requires Laid(parse, xs, plan, log)
    ensures m in AllMentions(parse, log.containers) <==> NetworkMentioned(parse, xs, m.id, m.byName)
  {
    MentionsOfEach(parse, log.containers, m);
    if m in AllMentions(parse, log.containers) {
      var i :| 0 <= i < |log.containers| && parse(log.containers[i].body).Some? && m in Mentions(parse(log.containers[i].body).value);
      ExchangeAt(parse, xs, plan, log, |log.opening| + i);
      ContainerAt(parse, xs, plan, log, |log.opening| + i);
      assert MentionedBy(parse, xs[|log.opening| + i], m.id, m.byName);
    } else if i :| 0 <= i < |xs| && MentionedBy(parse, xs[i], m.id, m.byName) {
      ContainerAt(parse, xs, plan, log, i);
      ExchangeAt(parse, xs, plan, log, i);
    }
  }

  lemma MountsInLog(parse: D.Parser, xs: seq<Exchange>, plan: Plan, log: Log, id: string)
    requires Laid(parse, xs, plan, log)
    ensures id in AllMounted(parse, log.containers) <==> VolumeMounted(parse, xs, id)
  {
    MountsOfEach(parse, log.containers, id);
    if id in AllMounted(parse, log.containers) {
      var i :| 0 <= i < |log.containers| && parse(log.containers[i].body).Some?
               && exists v :: v in Mounted(parse(log.containers[i].body).value) && v == id;
      ExchangeAt(parse, xs, plan, log, |log.opening| + i);
      ContainerAt(parse, xs, plan, log, |log.opening| + i);
      assert MountedBy(parse, xs[|log.opening| + i], id);
    } else if i :| 0 <= i < |xs| && MountedBy(parse, xs[i], id) {
      ContainerAt(parse, xs, plan, log, i);
      ExchangeAt(parse, xs, plan, log, i);
    }
  }

  lemma PlannedNetworks(parse: D.Parser, xs: seq<Exchange>, plan: Plan, log: Log, target: Target)
    requires Laid(parse, xs, plan, log) && Settled(parse, plan, log.containers) && target.kind == Network
    ensures Planned(plan, target) <==> CalledFor(parse, plan, xs, target)
  {
    MentionsInLog(parse, xs, plan, log, Mention(target.id, true));
    MentionsInLog(parse, xs, plan, log, Mention(target.id, false));
    var mentions := AllMentions(parse, log.containers);
    assert target.id in plan.networks <==> target.id in Elements(plan.networks);
    assert target.id in plan.byName <==> target.id in InitialNetworks(plan.selector) || exists m :: m in mentions && m.id == target.id;
    if m :| m in mentions && m.id == target.id {
      assert m == Mention(target.id, true) || m == Mention(target.id, false);
    }
  }

  lemma PlannedVolumes(parse: D.Parser, xs: seq<Exchange>, plan: Plan, log: Log, target: Target)
    requires Laid(parse, xs, plan, log) && Settled(parse, plan, log.containers) && target.kind == Volume
    ensures Planned(plan, target) <==> CalledFor(parse, plan, xs, target)
  {
    MountsInLog(parse, xs, plan, log, target.id);
    assert target.id in plan.volumes <==> target.id in Elements(plan.volumes);
  }

  /** Every object called for was inspected, and no other. */
  ghost predicate ExactlyCalledFor(parse: D.Parser, xs: seq<Exchange>, plan: Plan) {
    forall target: Target :: InspectedIn(xs, target) <==> CalledFor(parse, plan, xs, target)
  }

  lemma LaidExactly(parse: D.Parser, xs: seq<Exchange>, plan: Plan, log: Log)
    requires Laid(parse, xs, plan, log) && Settled(parse, plan, log.containers)
    ensures ExactlyCalledFor(parse, xs, plan)
  {
    forall target: Target ensures InspectedIn(xs, target) <==> CalledFor(parse, plan, xs, target) {
      if target.kind == Network { PlannedNetworks(parse, xs, plan, log, target); }
      if target.kind == Volume { PlannedVolumes(parse, xs, plan, log, target); }
      if Planned(plan, target) {
        PlannedAreInspected(parse, xs, plan, log, target);
      } else if InspectedIn(xs, target) {
        InspectedArePlanned(parse, xs, plan, log, target);
      }
    }
  }

  /** On success the inspected objects are the roots and whatever the inspected containers refer to, each exactly once, after the
      opening and under references that count up from 1 in log order. */
  lemma ExactClosure(parse: D.Parser, c: Capture, plan: Plan, log: Log)
    requires Completed(parse, c, plan, log)
    ensures ExactlyCalledFor(parse, c.exchanges, plan) && OnceEach(c.exchanges) && Numbered(c.exchanges, |plan.Opening()|)
  {
    CompletedLaid(parse, c, plan, log);
    OpeningUnaddressed(log.opening, plan);
    LaidExactly(parse, c.exchanges, plan, log);
    LaidOnceEach(parse, c.exchanges, plan, log);
    LaidNumbered(parse, c.exchanges, plan, log);
  }

  lemma OpeningUnaddressed(opening: seq<Exchange>, plan: Plan)
    requires |opening| == |plan.Opening()| && Opened(opening[0], DaemonVersion, None) && Opened(opening[1], DaemonInfo, Some(plan.api))
    requires plan.selector.Lists() ==> Opened(opening[2], ListContainers, Some(plan.api))
    ensures forall i :: 0 <= i < |opening| ==> opening[i].resource.None?
  {
  }

  // ---- flags, counts and order ----

  /** A network is inspected by name exactly when it is no explicit root and every mention of it is by name. */
  ghost predicate FlagsAreConjunctions(parse: D.Parser, xs: seq<Exchange>, plan: Plan) {
    forall id :: id in plan.byName ==>
      (plan.byName[id] <==> id !in InitialNetworks(plan.selector) && !NetworkMentioned(parse, xs, id, false))
  }

  lemma FlagMeans(parse: D.Parser, xs: seq<Exchange>, plan: Plan, log: Log, id: string)
    requires Laid(parse, xs, plan, log) && Settled(parse, plan, log.containers) && id in plan.byName
    ensures plan.byName[id] <==> id !in InitialNetworks(plan.selector) && !NetworkMentioned(parse, xs, id, false)
  {
    var mentions := AllMentions(parse, log.containers);
    MentionsInLog(parse, xs, plan, log, Mention(id, false));
    assert (forall m :: m in mentions && m.id == id ==> m.byName) <==> Mention(id, false) !in mentions by {
      forall m | m in mentions && m.id == id && !m.byName ensures Mention(id, false) in mentions {
        assert m == Mention(id, false);
      }
    }
  }

  /** The network was no explicit root, and no container refers to it by ID. */
  ghost predicate KnownByNameOnly(parse: D.Parser, xs: seq<Exchange>, selector: Selector, id: string) {
    id !in InitialNetworks(selector) && !NetworkMentioned(parse, xs, id, false)
  }

  /** The fallbacks of a capture are the references of the networks that are known by name only. */
  ghost predicate FallbacksAreConjunctions(parse: D.Parser, c: Capture) {
    && c.selector.Some?
    && (forall k :: 0 <= k < |c.exchanges| && c.exchanges[k].request.InspectNetwork? ==>
          && c.exchanges[k].resource.Some?
          && (c.exchanges[k].resource.value in c.fallbacks
              <==> KnownByNameOnly(parse, c.exchanges, c.selector.value, c.exchanges[k].request.id)))
    && (forall r :: r in c.fallbacks ==> exists k :: 0 <= k < |c.exchanges| && IsNetworkUnder(c.exchanges[k], r))
  }

  predicate IsNetworkUnder(x: Exchange, reference: Ref) {
    x.request.InspectNetwork? && x.resource == Some(reference)
  }

  /** Where the inspection of a network stands in the plan. */
  lemma NetworkAt(parse: D.Parser, xs: seq<Exchange>, plan: Plan, log: Log, k: nat) returns (j: nat)
    requires Laid(parse, xs, plan, log) && k < |xs| && xs[k].request.InspectNetwork?
    ensures j < |plan.networks| && xs[k].request.id == plan.networks[j] && xs[k].resource == Some(1 + |plan.containers| + j)
  {
    var i := k - |log.opening|;
    ExchangeAt(parse, xs, plan, log, k);
    VisitAt(plan, i);
    j := i - |plan.containers|;
  }

  lemma NetworkStands(parse: D.Parser, xs: seq<Exchange>, plan: Plan, log: Log, j: nat) returns (k: nat)
    requires Laid(parse, xs, plan, log) && j < |plan.networks|
    ensures k < |xs| && IsNetworkUnder(xs[k], 1 + |plan.containers| + j)
  {
    k := |log.opening| + |plan.containers| + j;
    assert |xs| == |log.opening| + |plan.Visits()|;
    ExchangeAt(parse, xs, plan, log, k);
    VisitAt(plan, |plan.containers| + j);
  }

  lemma FallbackAt(parse: D.Parser, xs: seq<Exchange>, plan: Plan, log: Log, j: nat)
    requires Laid(parse, xs, plan, log) && Settled(parse, plan, log.containers) && j < |plan.networks|
    ensures 1 + |plan.containers| + j in Fallbacks(1 + |plan.containers|, plan.networks, plan.byName)
       <==> KnownByNameOnly(parse, xs, plan.selector, plan.networks[j])
  {
    FallbackMeans(1 + |plan.containers|, plan.networks, plan.byName, j);
    FlagMeans(parse, xs, plan, log, plan.networks[j]);
  }

  lemma NetworkMeans(parse: D.Parser, xs: seq<Exchange>, plan: Plan, log: Log, k: nat)
    requires Laid(parse, xs, plan, log) && Settled(parse, plan, log.containers) && k < |xs| && xs[k].request.InspectNetwork?
    ensures xs[k].resource.Some?
    ensures xs[k].resource.value in Fallbacks(1 + |plan.containers|, plan.networks, plan.byName)
       <==> KnownByNameOnly(parse, xs, plan.selector, xs[k].request.id)
  {
    var j := NetworkAt(parse, xs, plan, log, k);
    FallbackAt(parse, xs, plan, log, j);
  }

  lemma FallbackStands(parse: D.Parser, xs: seq<Exchange>, plan: Plan, log: Log, r: Ref)
    requires Laid(parse, xs, plan, log) && r in Fallbacks(1 + |plan.containers|, plan.networks, plan.byName)
    ensures exists k :: 0 <= k < |xs| && IsNetworkUnder(xs[k], r)
  {
    var j :| 0 <= j < |plan.networks| && plan.byName[plan.networks[j]] && r == 1 + |plan.containers| + j;
    var k := NetworkStands(parse, xs, plan, log, j);
  }

  /** On success a by-name flag is the conjunction over all mentions of the network, in whatever order they were met, and the capture's
      fallbacks are the references of the networks inspected under such a flag. */
  lemma ByNameIsConjunction(parse: D.Parser, c: Capture, plan: Plan, log: Log)
    requires Completed(parse, c, plan, log)
    ensures FlagsAreConjunctions(parse, c.exchanges, plan) && FallbacksAreConjunctions(parse, c)
  {
    CompletedLaid(parse, c, plan, log);
    forall id | id in plan.byName
      ensures plan.byName[id] <==> id !in InitialNetworks(plan.selector) && !NetworkMentioned(parse, c.exchanges, id, false)
    {
      FlagMeans(parse, c.exchanges, plan, log, id);
    }
    FallbacksMean(parse, c, plan, log);
  }

  lemma FallbacksMean(parse: D.Parser, c: Capture, plan: Plan, log: Log)
    requires Laid(parse, c.exchanges, plan, log) && Settled(parse, plan, log.containers)
    requires c.selector == Some(plan.selector) && c.fallbacks == Fallbacks(1 + |plan.containers|, plan.networks, plan.byName)
    ensures FallbacksAreConjunctions(parse, c)
  {
    forall k | 0 <= k < |c.exchanges| && c.exchanges[k].request.InspectNetwork?
      ensures c.exchanges[k].resource.Some?
      ensures c.exchanges[k].resource.value in c.fallbacks
         <==> KnownByNameOnly(parse, c.exchanges, c.selector.value, c.exchanges[k].request.id)
    {
      NetworkMeans(parse, c.exchanges, plan, log, k);
    }
    forall r | r in c.fallbacks ensures exists k :: 0 <= k < |c.exchanges| && IsNetworkUnder(c.exchanges[k], r) {
      FallbackStands(parse, c.exchanges, plan, log, r);
    }
  }

  /** The final counts are exact: one expansion for each resource, and one request for the version, the info, the list if any, and
      each expansion. */
  lemma FinalCounts(parse: D.Parser, c: Capture, plan: Plan, log: Log)
    requires Completed(parse, c, plan, log)
    ensures c.bounds.expansions == |plan.containers| + |plan.byName| + |Elements(plan.volumes)|
    ensures c.bounds.requests == 2 + (if plan.selector.Lists() then 1 else 0) + c.bounds.expansions
    ensures c.bounds.selected == |plan.containers| + |InitialNetworks(plan.selector)| + |InitialVolumes(plan.selector)|
    ensures c.bounds.requests == |c.exchanges| && c.bounds.bytesRead == TotalBytes(c.exchanges)
  {
    var bodies := log.containers;
    AscendingDistinct(plan.networks);
    AscendingDistinct(plan.volumes);
    DistinctSize(plan.networks);
    DistinctSize(plan.volumes);
    Acquisition.RootsAreCounted(parse, plan, bodies);
  }

  // ---- early refusal ----

  /** The projection check refuses only what no completion could have afforded: any completed run over the same roots that starts
      from the same container bodies spends more expansions than the limit. */
  lemma RefusalIsSound(parse: D.Parser, draft: Plan, read: nat, limits: Limits, c: Capture, plan: Plan, log: Log)
    requires Completed(parse, c, plan, log) && plan.selector == draft.selector && plan.containers == draft.containers
    requires read <= |log.containers| && Acquisition.Excessive(parse, draft, log.containers[..read], limits)
    ensures c.bounds.expansions > limits.maxExpansions
  {
    Acquisition.SettledExpansion(parse, plan, log.containers);
    Acquisition.ExpansionGrows(parse, log.containers, read, |plan.containers|,
                   InitialNetworks(plan.selector).Keys, InitialVolumes(plan.selector));
  }

  /** The same bodies, as far as both logs go. */
  predicate AgreeOn(xs: seq<Exchange>, ys: seq<Exchange>) {
    forall k :: 0 <= k < |xs| && k < |ys| ==> xs[k].body == ys[k].body
  }

  lemma ChosenAlike(parse: D.Parser, a: seq<Exchange>, p: Plan, b: seq<Exchange>, q: Plan)
    requires ContainersChosen(parse, a, p) && ContainersChosen(parse, b, q) && p.selector == q.selector
    requires |a| == 3 && |b| == 3 ==> a[2].body == b[2].body
    ensures p.containers == q.containers
  {
  }

  lemma OpenedAlike(x: Exchange, y: Exchange, request: ReadRequest, api: Option<ApiVersion>)
    requires Opened(x, request, api) && Opened(y, request, api) && x.body == y.body
    ensures x == y
  {
  }

  lemma ApiDecided(parse: D.Parser, a: seq<Exchange>, p: Plan, b: seq<Exchange>, q: Plan)
    requires OpeningDone(parse, a, p) && OpeningDone(parse, b, q) && p.selector == q.selector && AgreeOn(a, b)
    ensures |a| == |b| == (if p.selector.Lists() then 3 else 2) && a[0].body == b[0].body && p.api == q.api
  {
  }

  /** The bodies of an opening leave one API version and one list of containers. */
  lemma OpeningDecides(parse: D.Parser, a: seq<Exchange>, p: Plan, b: seq<Exchange>, q: Plan)
    requires OpeningDone(parse, a, p) && OpeningDone(parse, b, q) && p.selector == q.selector
    requires AgreeOn(a, b)
    ensures a == b && p.api == q.api && p.containers == q.containers
  {
    hide ContainersChosen;
    ApiDecided(parse, a, p, b, q);
    ChosenAlike(parse, a, p, b, q);
    OpenedAlike(a[0], b[0], DaemonVersion, None);
    OpenedAlike(a[1], b[1], DaemonInfo, Some(p.api));
    if p.selector.Lists() { OpenedAlike(a[2], b[2], ListContainers, Some(p.api)); }
  }

  lemma CompletedParts(parse: D.Parser, c: Capture, plan: Plan, log: Log)
    requires Completed(parse, c, plan, log)
    ensures OpeningDone(parse, log.opening, plan) && c.exchanges == log.opening + (log.containers + log.related)
    ensures AllAnswered(parse, log.containers, 1, ContainerVisits(plan.containers), plan.api)
  {
    LogJoined(plan, log);
  }

  lemma AnsweredAgree(parse: D.Parser, xs: seq<Exchange>, ys: seq<Exchange>, visits: seq<Visit>, api: ApiVersion)
    requires |xs| <= |visits| && AllAnswered(parse, xs, 1, visits[..|xs|], api) && AllAnswered(parse, ys, 1, visits, api)
    requires AgreeOn(xs, ys)
    ensures xs == ys[..|xs|]
  {
    forall k | 0 <= k < |xs| ensures xs[k] == ys[..|xs|][k] {
      assert Answered(parse, xs[k], 1 + k, visits[..|xs|][k], api) && Answered(parse, ys[k], 1 + k, visits[k], api);
    }
  }

  /** The bodies that two logs of one selector share decide everything else about that part of them. */
  lemma BodiesDecide(parse: D.Parser, opening: seq<Exchange>, draft: Plan, bodies: seq<Exchange>,
                     start: seq<Exchange>, plan: Plan, containers: seq<Exchange>)
    requires OpeningDone(parse, opening, draft) && OpeningDone(parse, start, plan) && plan.selector == draft.selector
    requires |bodies| <= |draft.containers| && AllAnswered(parse, bodies, 1, ContainerVisits(draft.containers)[..|bodies|], draft.api)
    requires AllAnswered(parse, containers, 1, ContainerVisits(plan.containers), plan.api)
    requires AgreeOn(opening, start) && (|opening| == |start| ==> AgreeOn(bodies, containers))
    ensures plan.api == draft.api && plan.containers == draft.containers
    ensures opening == start && |bodies| <= |containers| && bodies == containers[..|bodies|]
  {
    OpeningDecides(parse, opening, draft, start, plan);
    AnsweredAgree(parse, bodies, containers, ContainerVisits(plan.containers), plan.api);
  }

  lemma ShareBodies(xs: seq<Exchange>, opening: seq<Exchange>, bodies: seq<Exchange>,
                    ys: seq<Exchange>, start: seq<Exchange>, containers: seq<Exchange>, rest: seq<Exchange>)
    requires xs == opening + bodies && ys == start + (containers + rest)
    requires AgreeOn(xs, ys)
    ensures AgreeOn(opening, start) && (|opening| == |start| ==> AgreeOn(bodies, containers))
  {
    forall k | 0 <= k < |opening| && k < |start| ensures opening[k].body == start[k].body {
      assert xs[k].body == ys[k].body;
    }
    if |opening| == |start| {
      forall k | 0 <= k < |bodies| && k < |containers| ensures bodies[k].body == containers[k].body {
        assert xs[|opening| + k].body == ys[|opening| + k].body;
      }
    }
  }

  lemma SameStart(parse: D.Parser, draft: Plan, refused: Log, limits: Limits, xs: seq<Exchange>, plan: Plan, log: Log)
    requires Acquisition.Refused(parse, draft, refused, limits) && plan.selector == draft.selector
    requires OpeningDone(parse, log.opening, plan) && xs == log.opening + (log.containers + log.related)
    requires AllAnswered(parse, log.containers, 1, ContainerVisits(plan.containers), plan.api)
    requires AgreeOn(refused.opening + refused.containers, xs)
    ensures plan.containers == draft.containers
    ensures |refused.containers| <= |log.containers| && refused.containers == log.containers[..|refused.containers|]
  {
    ShareBodies(refused.opening + refused.containers, refused.opening, refused.containers, xs, log.opening, log.containers, log.related);
    BodiesDecide(parse, refused.opening, draft, refused.containers, log.opening, plan, log.containers);
  }

  /** A run that was refused for lack of expansions was refused for good: no completed run for its selector that gets the same bodies,
      as far as the refused one read, stays within the limit. */
  lemma RefusedForGood(parse: D.Parser, draft: Plan, refused: Log, limits: Limits, c: Capture, plan: Plan, log: Log)
    requires Acquisition.Refused(parse, draft, refused, limits)
    requires Completed(parse, c, plan, log) && plan.selector == draft.selector
    requires AgreeOn(refused.opening + refused.containers, c.exchanges)
    ensures c.bounds.expansions > limits.maxExpansions
  {
    CompletedParts(parse, c, plan, log);
    SameStart(parse, draft, refused, limits, c.exchanges, plan, log);
    RefusalIsSound(parse, draft, |refused.containers|, limits, c, plan, log);
  }

  lemma HeardBodies(turns: nat -> Acquisition.Turn, xs: seq<Exchange>, ys: seq<Exchange>, limits: Limits, machine: nat)
    requires Acquisition.Heard(turns, xs, limits, machine) && Acquisition.Heard(turns, ys, limits, machine)
    ensures AgreeOn(xs, ys)
  {
    var n := if |xs| < |ys| then |xs| else |ys|;
    Acquisition.HeardPrefix(turns, xs, n, limits, machine);
    Acquisition.HeardPrefix(turns, ys, n, limits, machine);
    Acquisition.HeardAgree(turns, xs[..n], ys[..n], limits, machine);
    forall k | 0 <= k < n ensures xs[k].body == ys[k].body {
      assert xs[..n][k] == xs[k] && ys[..n][k] == ys[k];
    }
  }

  /** Against a world that refused a run for lack of expansions no run for the selector completes within the limit, whatever order
      its hash maps iterate in. */
  lemma WorldRefuses(turns: nat -> Acquisition.Turn, machine: nat, parse: D.Parser, draft: Plan, refused: Log, limits: Limits,
                     c: Capture, plan: Plan, log: Log)
    requires Acquisition.Refused(parse, draft, refused, limits)
    requires Acquisition.Heard(turns, refused.opening + refused.containers, limits, machine)
    requires Completed(parse, c, plan, log) && plan.selector == draft.selector
    requires Acquisition.Heard(turns, c.exchanges, limits, machine)
    ensures c.bounds.expansions > limits.maxExpansions
  {
    HeardBodies(turns, refused.opening + refused.containers, c.exchanges, limits, machine);
    RefusedForGood(parse, draft, refused, limits, c, plan, log);
  }
}
