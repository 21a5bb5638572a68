/** A log that acquisition completes is one that replay structurally accepts. */
module AcquiredReplay {
  import opened Outcome
  import opened Json
  import opened Protocol
  import opened Sequences
  import opened Ordering
  import opened Selection
  import opened Versions
  import opened Folding
  import opened Completion
  import Acquisition
  import D = Decoder
  import S = ReplaySoundness

  // ---- what is left to the bodies ----

  /** The version body reads beyond what negotiation looked at. */
  predicate VersionReads(parsed: Option<Json>) {
    && parsed.Some? && D.AsObject(parsed.value, D.Other).Ok?
    && D.ReleaseField(parsed.value, "Version").Ok?
  }

  /** The info body reads; acquisition never looks at it. */
  predicate InfoReads(parsed: Option<Json>) {
    && parsed.Some? && D.AsObject(parsed.value, D.Other).Ok?
    && D.ObserveBool(parsed.value, "MemoryLimit", D.ResourceLimit).Ok?
    && D.ObserveBool(parsed.value, "SwapLimit", D.ResourceLimit).Ok?
    && D.ReleaseField(parsed.value, "ServerVersion").Ok?
    && D.OptionsRootless(parsed.value).Ok?
    && D.ModeFlag(parsed.value).Ok?
  }

  /** No two releases reported, and no mode flag that contradicts a rootless option. */
  predicate FactsAgree(version: Json, info: Json) {
    && (match (D.ReleaseField(version, "Version"), D.ReleaseField(info, "ServerVersion"))
        case (Ok(Some(a)), Ok(Some(b))) => a == b
        case _ => true)
    && (match (D.OptionsRootless(info), D.ModeFlag(info))
        case (Ok(true), Ok(Some(mode))) => mode == D.Rootless
        case _ => true)
  }

  predicate ListReads(parsed: Option<Json>, decoders: D.Decoders) {
    parsed.Some? && parsed.value.Arr? && D.ListIds(parsed.value.items, Container, D.Other, "Id", decoders.summary).Ok?
  }

  predicate BodyDecodes(parse: D.Parser, decoders: D.Decoders, x: Exchange, kind: Kind) {
    parse(x.body).Some? && D.DecodeBody(decoders, kind, parse(x.body).value).None?
  }

  // ---- the opening ----

  lemma PresentField(body: Json, key: string, value: Json)
    requires body.Get(key) == Some(value) && key != D.REDACTED
    ensures D.ValueAt(body, [key], D.ApiVersionField) == Ok(Some(value))
  {
    assert body.fields != map[D.REDACTED := Bool(true)] by { assert key in body.fields; }
    assert [key][1..] == [];
  }

  lemma MissingField(body: Json, key: string)
    requires body.Obj? && body.Get(key).None? && !D.Unavailable(body)
    ensures D.ValueAt(body, [key], D.ApiVersionField) == Ok(None)
  {
  }

  /** Replay reads the versions that negotiation read. */
  lemma NegotiatedFields(body: Json, api: ApiVersion)
    requires Negotiated(Some(body)) == Some(api)
    ensures D.VersionField(body, "ApiVersion") == Ok(FieldApi(body, "ApiVersion"))
    ensures D.VersionField(body, "MinAPIVersion") == Ok(FieldApi(body, "MinAPIVersion"))
  {
    PresentField(body, "ApiVersion", body.Get("ApiVersion").value);
    if body.Get("MinAPIVersion").Some? {
      PresentField(body, "MinAPIVersion", body.Get("MinAPIVersion").value);
    } else {
      assert body.fields != map[D.REDACTED := Bool(true)] by { assert "ApiVersion" in body.fields; }
      MissingField(body, "MinAPIVersion");
    }
  }

  function VersionState(body: Json): D.State
    requires D.ReleaseField(body, "Version").Ok?
  {
    var blank := D.Blank();
    blank.(versionSeen := true, facts := blank.facts.(
      release := D.ReleaseField(body, "Version").value,
      api := FieldApi(body, "ApiVersion"),
      minimum := FieldApi(body, "MinAPIVersion")))
  }

  lemma VersionAbsorbed(x: Exchange, api: ApiVersion, cap: Capture, parse: D.Parser, decoders: D.Decoders)
    requires Opened(x, DaemonVersion, None) && Negotiated(parse(x.body)) == Some(api)
    ensures var r := D.Absorb(D.Blank(), x, cap, parse, decoders);
      if VersionReads(parse(x.body)) then r == Ok(VersionState(parse(x.body).value)) else r.Err? && r.error.InField?
  {
    NegotiatedFields(parse(x.body).value, api);
  }

  function InfoState(st: D.State, api: ApiVersion, info: Json): D.State
    requires InfoReads(Some(info))
  {
    var reported := D.ReleaseField(info, "ServerVersion").value;
    var flag := D.ModeFlag(info).value;
    var hinted := if D.OptionsRootless(info).value then D.Rootless else st.facts.mode;
    st.(requested := [api], infoSeen := true, facts := st.facts.(
      release := if reported.Some? then reported else st.facts.release,
      mode := if flag.Some? then flag.value else hinted,
      memoryLimit := D.ObserveBool(info, "MemoryLimit", D.ResourceLimit).value,
      swapLimit := D.ObserveBool(info, "SwapLimit", D.ResourceLimit).value))
  }

  /** Why replay may refuse the info body after a version body it read. */
  predicate InfoFault(e: D.DecodeError, version: Json, parsed: Option<Json>) {
    match e
    case InvalidJson => parsed.None?
    case InField(_) => parsed.Some? && !InfoReads(parsed)
    case ConflictingFacts => parsed.Some? && !FactsAgree(version, parsed.value)
    case _ => false
  }

  lemma InfoTaken(st: D.State, version: Json, api: ApiVersion, info: Json)
    requires D.ReleaseField(version, "Version") == Ok(st.facts.release)
    requires !st.infoSeen && st.facts.mode == D.Unknown && st.requested == [api]
    ensures var r := D.AbsorbInfo(st, info);
      if InfoReads(Some(info)) && FactsAgree(version, info)
      then r == Ok(InfoState(st, api, info))
      else r.Err? && InfoFault(r.error, version, Some(info))
  {
  }

  lemma InfoEntered(st: D.State, x: Exchange, api: ApiVersion, cap: Capture, parse: D.Parser, decoders: D.Decoders)
    requires st.requested == [] && Opened(x, DaemonInfo, Some(api))
    ensures D.Absorb(st, x, cap, parse, decoders)
         == if parse(x.body).None? then Err(D.InvalidJson) else D.AbsorbInfo(st.(requested := [api]), parse(x.body).value)
  {
    assert [] + [api] == [api];
  }

  lemma InfoAbsorbed(version: Json, x: Exchange, api: ApiVersion, cap: Capture, parse: D.Parser, decoders: D.Decoders)
    requires D.ReleaseField(version, "Version").Ok? && Opened(x, DaemonInfo, Some(api))
    ensures var r := D.Absorb(VersionState(version), x, cap, parse, decoders);
      if InfoReads(parse(x.body)) && FactsAgree(version, parse(x.body).value)
      then r == Ok(InfoState(VersionState(version), api, parse(x.body).value))
      else r.Err? && InfoFault(r.error, version, parse(x.body))
  {
    InfoEntered(VersionState(version), x, api, cap, parse, decoders);
    if parse(x.body).Some? {
      InfoTaken(VersionState(version).(requested := [api]), version, api, parse(x.body).value);
    }
  }

  function ContainerKeys(ids: seq<NativeId>): set<(Kind, string)> {
    set id | id in ids :: (Container, id)
  }

  /** A listed container's canonical ID is what replay reads from the entry, if it can read the entry at all. */
  lemma {:induction false} ListedIds(items: seq<Json>, selector: Selector, decoders: D.Decoders)
    requires AllRead(items, selector) && D.ListIds(items, Container, D.Other, "Id", decoders.summary).Ok?
    ensures D.ListIds(items, Container, D.Other, "Id", decoders.summary).value == ContainerKeys(Ids(items))
  {
    if items != [] {
      var last := |items| - 1;
      ListedIds(items[..last], selector, decoders);
      assert EntryRead(items[last], selector);
    }
  }

  function FromList(selector: Selector, items: seq<Json>): Option<set<string>> {
    if selector.SelectsFromList() then Some(D.TextIds(Selected(items, selector))) else None
  }

  function ListState(st: D.State, selector: Selector, items: seq<Json>): D.State {
    st.(fromList := FromList(selector, items), listed := ContainerKeys(Ids(items)), discovered := items)
  }

  lemma ListEntered(st: D.State, x: Exchange, api: ApiVersion, cap: Capture, parse: D.Parser, decoders: D.Decoders)
    requires st.requested == [api] && Opened(x, ListContainers, Some(api)) && parse(x.body).Some?
    ensures D.Absorb(st, x, cap, parse, decoders) == D.AbsorbContainerList(st, parse(x.body).value, cap.selector, decoders)
  {
  }

  lemma ListRead(list: Json, selector: Selector, decoders: D.Decoders)
    requires Selectable(Some(list), selector) && ListReads(Some(list), decoders)
    ensures D.ListIds(list.items, Container, D.Other, "Id", decoders.summary) == Ok(ContainerKeys(Ids(list.items)))
  {
    AllReadMeansEach(list.items, selector);
    ListedIds(list.items, selector, decoders);
  }

  /** Absorbing a list that the selector can use. */
  lemma ListOpens(st: D.State, list: Json, selector: Selector, decoders: D.Decoders)
    requires st.fromList.None? && Selectable(Some(list), selector)
    ensures list.Arr? && D.AsArray(list, D.Other) == Ok(list.items)
    ensures var ids := D.ListIds(list.items, Container, D.Other, "Id", decoders.summary);
      D.AbsorbContainerList(st, list, Some(selector), decoders)
      == match ids
         case Err(e) => Err(D.InField(e))
         case Ok(keys) =>
           Ok(st.(fromList := FromList(selector, list.items), listed := st.listed + keys, discovered := st.discovered + list.items))
  {
  }

  lemma NothingBefore<A, B>(a: set<A>, b: seq<B>)
    ensures {} + a == a && [] + b == b
  {
  }

  lemma ListTaken(st: D.State, list: Json, selector: Selector, decoders: D.Decoders)
    requires st.fromList.None? && st.listed == {} && st.discovered == [] && Selectable(Some(list), selector)
    ensures var r := D.AbsorbContainerList(st, list, Some(selector), decoders);
      if ListReads(Some(list), decoders) then r == Ok(ListState(st, selector, list.items)) else r.Err? && r.error.InField?
  {
    ListOpens(st, list, selector, decoders);
    hide D.AbsorbContainerList, Selectable, ListReads, ContainerKeys, Ids;
    if ListReads(Some(list), decoders) {
      ListRead(list, selector, decoders);
      NothingBefore(ContainerKeys(Ids(list.items)), list.items);
    }
  }

  lemma ListAbsorbed(st: D.State, x: Exchange, api: ApiVersion, selector: Selector, cap: Capture, parse: D.Parser, decoders: D.Decoders)
    requires st.requested == [api] && st.fromList.None? && st.listed == {} && st.discovered == []
    requires Opened(x, ListContainers, Some(api)) && Selectable(parse(x.body), selector) && cap.selector == Some(selector)
    ensures var r := D.Absorb(st, x, cap, parse, decoders);
      if ListReads(parse(x.body), decoders) then r == Ok(ListState(st, selector, parse(x.body).value.items))
      else r.Err? && r.error.InField?
  {
    ListEntered(st, x, api, cap, parse, decoders);
    ListTaken(st, parse(x.body).value, selector, decoders);
  }

  // ---- what the list says about the chosen containers ----

  lemma {:induction false} SelectedListed(entries: seq<Json>, selector: Selector, id: NativeId)
    requires id in Selected(entries, selector)
    ensures id in Ids(entries)
  {
    var front := entries[..|entries| - 1];
    if id in Selected(front, selector) {
      SelectedListed(front, selector, id);
    }
  }

  lemma {:induction false} AllAreSelected(entries: seq<Json>)
    ensures Selected(entries, AllContainers) == Ids(entries)
  {
    if entries != [] {
      AllAreSelected(entries[..|entries| - 1]);
    }
  }

  lemma {:induction false} HitsSelect(entries: seq<Json>, selector: Selector)
    requires selector.ContainerNames? && AllRead(entries, selector) && Hits(Listed(entries), selector.names) != []
    ensures Selected(entries, selector) != []
  {
    var last := |entries| - 1;
    var front := entries[..last];
    if Hits(Listed(front), selector.names) != [] {
      HitsSelect(front, selector);
    } else {
      HitsOfBoth(Listed(front), Natives(entries[last]), selector.names);
      assert EntryRead(entries[last], selector) && Matches(entries[last], selector);
    }
  }

  lemma {:induction false} HitsOfBoth(a: seq<Json>, b: seq<Json>, names: seq<NativeId>)
    ensures Hits(a + b, names) == Hits(a, names) + Hits(b, names)
  {
    if b == [] {
      assert a + b == a;
    } else {
      var front, last := b[..|b| - 1], b[|b| - 1];
      HitsOfBoth(a, front, names);
      LastHitOfBoth(a, front, last, names);
      assert b == front + [last];
    }
  }

  lemma LastHitOfBoth(a: seq<Json>, b: seq<Json>, native: Json, names: seq<NativeId>)
    requires Hits(a + b, names) == Hits(a, names) + Hits(b, names)
    ensures Hits(a + (b + [native]), names) == Hits(a, names) + Hits(b + [native], names)
  {
    Regrouped(a, b, [native]);
    LastHit(a + b, native, names);
    LastHit(b, native, names);
    Regrouped(Hits(a, names), Hits(b, names), HitsOfName(native, names));
  }

  lemma LastHit(natives: seq<Json>, native: Json, names: seq<NativeId>)
    ensures Hits(natives + [native], names) == Hits(natives, names) + HitsOfName(native, names)
  {
    assert (natives + [native])[..|natives|] == natives;
  }

  /** A selector that picks from a nonempty list picks something. */
  lemma SomethingSelected(list: Json, selector: Selector)
    requires Selectable(Some(list), selector) && !selector.Discovery? && Ids(list.items) != [] && selector.Lists()
    ensures Selected(list.items, selector) != []
  {
    match selector
    case AllContainers => AllAreSelected(list.items);
    case ContainerNames(names) =>
      HitsFromOnce(Listed(list.items), names);
      AllReadMeansEach(list.items, selector);
      HitsSelect(list.items, selector);
    case _ =>
  }

  // ---- the state after the opening ----

  predicate Untouched(st: D.State) {
    && st.natives == {} && st.references == {} && st.inspected == {} && st.containersByRef == map[]
    && st.containers == [] && st.networks == [] && st.volumes == []
  }

  /** What the closing checks will ask of the facts and of the list. */
  predicate Ready(st: D.State, plan: Plan) {
    && D.InRange(st.facts, [plan.api]) && st.requested == [plan.api]
    && st.fromList == (if plan.selector.SelectsFromList() then Some(D.TextIds(plan.containers)) else None)
    && (forall p :: p in st.listed ==> p.0 == Container)
    && (if plan.selector.Lists() then ContainerKeys(plan.containers) <= st.listed else st.listed == {})
    && (st.listed != {} && !plan.selector.Discovery? ==> plan.containers != [])
  }

  /** The bodies of the opening read, and their facts agree. */
  predicate OpeningReads(parse: D.Parser, opening: seq<Exchange>, selector: Selector, decoders: D.Decoders) {
    && |opening| == (if selector.Lists() then 3 else 2)
    && VersionReads(parse(opening[0].body)) && InfoReads(parse(opening[1].body))
    && FactsAgree(parse(opening[0].body).value, parse(opening[1].body).value)
    && (selector.Lists() ==> ListReads(parse(opening[2].body), decoders))
  }

  /** The only ways in which replay can refuse a completed log. */
  predicate Excused(e: D.DecodeError, parse: D.Parser, opening: seq<Exchange>) {
    && |opening| >= 2
    && match e
       case InField(_) => true
       case InvalidJson => parse(opening[1].body).None?
       case ConflictingFacts =>
         parse(opening[0].body).Some? && parse(opening[1].body).Some?
         && !FactsAgree(parse(opening[0].body).value, parse(opening[1].body).value)
       case _ => false
  }

  lemma VersionRange(version: Json, api: ApiVersion)
    requires Negotiated(Some(version)) == Some(api) && D.ReleaseField(version, "Version").Ok?
    ensures D.InRange(VersionState(version).facts, [api])
  {
    NegotiatedInRange(version, api);
  }

  lemma UnlistedReady(st: D.State, plan: Plan, parse: D.Parser, opening: seq<Exchange>)
    requires D.InRange(st.facts, [plan.api]) && st.requested == [plan.api] && st.fromList.None? && st.listed == {}
    requires ContainersChosen(parse, opening, plan) && !plan.selector.Lists()
    ensures Ready(st, plan)
  {
  }

  lemma ListedReady(st: D.State, plan: Plan, list: Json)
    requires D.InRange(st.facts, [plan.api]) && st.requested == [plan.api]
    requires plan.selector.Lists() && Selectable(Some(list), plan.selector)
    requires plan.containers == Dedup(Selected(list.items, plan.selector))
    ensures Ready(ListState(st, plan.selector, list.items), plan)
  {
    var selected := Selected(list.items, plan.selector);
    DedupKeeps(selected);
    assert forall id :: id in plan.containers <==> id in Elements(selected);
    assert D.TextIds(plan.containers) == D.TextIds(selected);
    forall id | id in plan.containers ensures id in Ids(list.items) {
      SelectedListed(list.items, plan.selector, id);
    }
    if Ids(list.items) == [] {
      assert ContainerKeys(Ids(list.items)) == {};
    } else if !plan.selector.Discovery? {
      SomethingSelected(list, plan.selector);
      NoElements(selected);
      NoElements(plan.containers);
    }
  }

  /** After the version and info exchanges. */
  lemma PairFolds(parse: D.Parser, cap: Capture, opening: seq<Exchange>, plan: Plan, decoders: D.Decoders)
    requires OpeningDone(parse, opening, plan)
    ensures var r := Fold(D.Step(cap, parse, decoders), D.Blank(), opening[..2]);
      var version, info := parse(opening[0].body), parse(opening[1].body);
      if VersionReads(version) && InfoReads(info) && FactsAgree(version.value, info.value)
      then r == Ok(InfoState(VersionState(version.value), plan.api, info.value))
      else r.Err? && Excused(r.error, parse, opening)
  {
    var step := D.Step(cap, parse, decoders);
    VersionAbsorbed(opening[0], plan.api, cap, parse, decoders);
    assert opening[..0] == [];
    FoldNext(step, D.Blank(), opening, 0);
    if VersionReads(parse(opening[0].body)) {
      FoldNext(step, D.Blank(), opening, 1);
      InfoAbsorbed(parse(opening[0].body).value, opening[1], plan.api, cap, parse, decoders);
    } else {
      assert opening[..2][..1] == opening[..1];
      FoldStops(step, D.Blank(), opening[..2], 1);
    }
  }

  /** The list exchange, after a pair that replay accepted. */
  lemma ListFolds(parse: D.Parser, cap: Capture, opening: seq<Exchange>, plan: Plan, decoders: D.Decoders, st: D.State)
    requires |opening| == 3 && plan.selector.Lists() && cap.selector == Some(plan.selector)
    requires Opened(opening[2], ListContainers, Some(plan.api)) && ContainersChosen(parse, opening, plan)
    requires Fold(D.Step(cap, parse, decoders), D.Blank(), opening[..2]) == Ok(st)
    requires Untouched(st) && D.InRange(st.facts, [plan.api]) && st.requested == [plan.api]
    requires st.fromList.None? && st.listed == {} && st.discovered == []
    ensures var r := Fold(D.Step(cap, parse, decoders), D.Blank(), opening);
      if ListReads(parse(opening[2].body), decoders) then r.Ok? && Untouched(r.value) && Ready(r.value, plan)
      else r.Err? && r.error.InField?
  {
    FoldNext(D.Step(cap, parse, decoders), D.Blank(), opening, 2);
    assert opening[..3] == opening;
    ListAbsorbed(st, opening[2], plan.api, plan.selector, cap, parse, decoders);
    ListedReady(st, plan, parse(opening[2].body).value);
  }

  lemma AgreedOpeningFolds(parse: D.Parser, cap: Capture, opening: seq<Exchange>, plan: Plan, decoders: D.Decoders)
    requires OpeningDone(parse, opening, plan) && cap.selector == Some(plan.selector)
    requires VersionReads(parse(opening[0].body)) && InfoReads(parse(opening[1].body))
    requires FactsAgree(parse(opening[0].body).value, parse(opening[1].body).value)
    ensures var r := Fold(D.Step(cap, parse, decoders), D.Blank(), opening);
      if OpeningReads(parse, opening, plan.selector, decoders) then r.Ok? && Untouched(r.value) && Ready(r.value, plan)
      else r.Err? && Excused(r.error, parse, opening)
  {
    var version, info := parse(opening[0].body).value, parse(opening[1].body).value;
    PairFolds(parse, cap, opening, plan, decoders);
    VersionRange(version, plan.api);
    var st := InfoState(VersionState(version), plan.api, info);
    if plan.selector.Lists() {
      ListFolds(parse, cap, opening, plan, decoders, st);
    } else {
      assert opening[..2] == opening;
      UnlistedReady(st, plan, parse, opening);
    }
  }

  lemma OpeningFolds(parse: D.Parser, cap: Capture, opening: seq<Exchange>, plan: Plan, decoders: D.Decoders)
    requires OpeningDone(parse, opening, plan) && cap.selector == Some(plan.selector)
    ensures var r := Fold(D.Step(cap, parse, decoders), D.Blank(), opening);
      if OpeningReads(parse, opening, plan.selector, decoders) then r.Ok? && Untouched(r.value) && Ready(r.value, plan)
      else r.Err? && Excused(r.error, parse, opening)
  {
    var version, info := parse(opening[0].body), parse(opening[1].body);
    PairFolds(parse, cap, opening, plan, decoders);
    if VersionReads(version) && InfoReads(info) && FactsAgree(version.value, info.value) {
      AgreedOpeningFolds(parse, cap, opening, plan, decoders);
    } else {
      FoldStops(D.Step(cap, parse, decoders), D.Blank(), opening, 2);
    }
  }

  // ---- the inspections ----

  /** Answered visits whose keys are the ones replay will look under, and whose native IDs differ within a kind. */
  ghost predicate Suits(parse: D.Parser, xs: seq<Exchange>, visits: seq<Visit>, fallbacks: set<Ref>, api: ApiVersion) {
    && AllAnswered(parse, xs, 1, visits, api)
    && (forall i :: 0 <= i < |visits| ==> visits[i].key == D.IdentityKey(visits[i].target.kind, 1 + i in fallbacks))
    && (forall i, j :: 0 <= i < j < |visits| && visits[i].target.kind == visits[j].target.kind ==>
          NativeOf(parse, xs[i], visits[i].target.kind) != NativeOf(parse, xs[j], visits[j].target.kind))
  }

  /** What replay knows of one inspected object. */
  predicate Registered(st: D.State, target: Target, reference: Ref) {
    && (target.kind, reference) in st.references && (target.kind, target.id) in st.inspected
    && D.Observes(D.ObservationsOf(st, target.kind), reference)
    && (target.kind == Container ==> reference in st.containersByRef && st.containersByRef[reference] == target.id)
  }

  predicate Explains(parse: D.Parser, x: Exchange, visit: Visit, native: (Kind, string)) {
    native == (visit.target.kind, NativeOf(parse, x, visit.target.kind))
  }

  predicate ByVisit(visits: seq<Visit>, k: nat, reference: Ref, id: string) {
    1 <= reference <= k <= |visits| && visits[reference - 1].target.kind == Container && visits[reference - 1].target.id == id
  }

  ghost predicate AllByVisit(byRef: map<Ref, string>, visits: seq<Visit>, k: nat) {
    forall r :: r in byRef ==> ByVisit(visits, k, r, byRef[r])
  }

  ghost predicate AllExplained(natives: set<(Kind, string)>, parse: D.Parser, xs: seq<Exchange>, visits: seq<Visit>, k: nat)
    requires k <= |xs| == |visits|
  {
    forall p :: p in natives ==> exists i :: 0 <= i < k && Explains(parse, xs[i], visits[i], p)
  }

  predicate AllRegistered(st: D.State, visits: seq<Visit>, k: nat)
    requires k <= |visits|
  {
    forall i :: 0 <= i < k ==> Registered(st, visits[i].target, 1 + i)
  }

  /** The replay state after `k` inspections: what they registered, and nothing else. */
  ghost predicate Tracked(st: D.State, base: D.State, parse: D.Parser, xs: seq<Exchange>, visits: seq<Visit>, k: nat) {
    && k <= |xs| == |visits|
    && AllRegistered(st, visits, k)
    && (forall p :: p in st.references ==> p.1 <= k)
    && AllExplained(st.natives, parse, xs, visits, k)
    && AllByVisit(st.containersByRef, visits, k)
    && st.requested == base.requested && st.fromList == base.fromList && st.listed == base.listed && st.facts == base.facts
  }

  lemma InspectEntered(st: D.State, x: Exchange, reference: Ref, visit: Visit, api: ApiVersion, cap: Capture,
                       parse: D.Parser, decoders: D.Decoders)
    requires Answered(parse, x, reference, visit, api) && api in st.requested
    ensures D.Absorb(st, x, cap, parse, decoders)
         == D.AbsorbInspect(st, visit.target, Some(reference), parse(x.body).value, cap.fallbacks, decoders)
  {
  }

  lemma InspectTaken(st: D.State, x: Exchange, reference: Ref, visit: Visit, api: ApiVersion, cap: Capture,
                     parse: D.Parser, decoders: D.Decoders)
    requires Answered(parse, x, reference, visit, api) && api in st.requested
    requires visit.key == D.IdentityKey(visit.target.kind, reference in cap.fallbacks)
    requires (visit.target.kind, NativeOf(parse, x, visit.target.kind)) !in st.natives
    requires (visit.target.kind, reference) !in st.references
    ensures var r := D.Absorb(st, x, cap, parse, decoders);
      if BodyDecodes(parse, decoders, x, visit.target.kind) then r.Ok? && S.Adds(st, x, cap, parse, r.value)
      else r.Err? && r.error.InField?
  {
    InspectEntered(st, x, reference, visit, api, cap, parse, decoders);
    if BodyDecodes(parse, decoders, x, visit.target.kind) {
      S.AbsorbAdds(st, x, cap, parse, decoders);
    }
  }

  lemma NotYetMet(st: D.State, base: D.State, parse: D.Parser, xs: seq<Exchange>, visits: seq<Visit>, fallbacks: set<Ref>,
                  api: ApiVersion, k: nat)
    requires Suits(parse, xs, visits, fallbacks, api) && Tracked(st, base, parse, xs, visits, k) && k < |xs|
    ensures (visits[k].target.kind, NativeOf(parse, xs[k], visits[k].target.kind)) !in st.natives
    ensures (visits[k].target.kind, 1 + k) !in st.references
  {
  }

  lemma StillObserved(a: seq<D.Observation>, b: seq<D.Observation>, reference: Ref)
    requires D.Observes(a, reference)
    ensures D.Observes(a + b, reference)
  {
    var i :| 0 <= i < |a| && a[i].reference == reference;
    assert (a + b)[i].reference == reference;
  }

  lemma ExplainedMore(natives: set<(Kind, string)>, parse: D.Parser, xs: seq<Exchange>, visits: seq<Visit>, k: nat)
    requires k < |xs| == |visits| && AllExplained(natives, parse, xs, visits, k)
    ensures AllExplained(natives + {(visits[k].target.kind, NativeOf(parse, xs[k], visits[k].target.kind))}, parse, xs, visits, k + 1)
  {
    var native := (visits[k].target.kind, NativeOf(parse, xs[k], visits[k].target.kind));
    forall p | p in natives + {native}
      ensures exists i :: 0 <= i < k + 1 && Explains(parse, xs[i], visits[i], p)
    {
      if p in natives {
        var i :| 0 <= i < k && Explains(parse, xs[i], visits[i], p);
      } else {
        assert Explains(parse, xs[k], visits[k], p);
      }
    }
  }

  /** Earlier registrations survive an inspection, which adds its own. */
  lemma RegisteredMore(st: D.State, next: D.State, parse: D.Parser, x: Exchange, reference: Ref, visit: Visit, api: ApiVersion,
                       cap: Capture, target: Target, known: Ref)
    requires Answered(parse, x, reference, visit, api) && S.Adds(st, x, cap, parse, next)
    requires (known == reference && target == visit.target) || (known != reference && Registered(st, target, known))
    ensures Registered(next, target, known)
  {
    var seen := [D.Observation(reference, parse(x.body).value)];
    var before, after := D.ObservationsOf(st, target.kind), D.ObservationsOf(next, target.kind);
    if known == reference {
      assert after == before + seen && after[|before|].reference == reference;
    } else {
      StillObserved(before, seen, known);
      assert after == before || after == before + seen;
    }
  }

  lemma AllRegisteredMore(st: D.State, next: D.State, parse: D.Parser, x: Exchange, visits: seq<Visit>, k: nat, api: ApiVersion, cap: Capture)
    requires k < |visits| && AllRegistered(st, visits, k)
    requires Answered(parse, x, 1 + k, visits[k], api) && S.Adds(st, x, cap, parse, next)
    ensures AllRegistered(next, visits, k + 1)
  {
    forall i | 0 <= i < k + 1 ensures Registered(next, visits[i].target, 1 + i) {
      RegisteredMore(st, next, parse, x, 1 + k, visits[k], api, cap, visits[i].target, 1 + i);
    }
  }

  /** What an accepted inspection changes, in the plan's terms. */
  predicate Advances(st: D.State, next: D.State, native: (Kind, string), reference: Ref, target: Target) {
    && next.natives == st.natives + {native}
    && next.references == st.references + {(target.kind, reference)}
    && next.containersByRef
       == (if target.kind == Container then st.containersByRef[reference := target.id] else st.containersByRef)
    && next.requested == st.requested && next.fromList == st.fromList && next.listed == st.listed && next.facts == st.facts
  }

  lemma AddsAdvances(st: D.State, next: D.State, parse: D.Parser, x: Exchange, reference: Ref, visit: Visit, api: ApiVersion, cap: Capture)
    requires Answered(parse, x, reference, visit, api) && S.Adds(st, x, cap, parse, next) && api in st.requested
    ensures Advances(st, next, (visit.target.kind, NativeOf(parse, x, visit.target.kind)), reference, visit.target)
  {
  }

  lemma VisitedMore(byRef: map<Ref, string>, visits: seq<Visit>, k: nat)
    requires k < |visits| && AllByVisit(byRef, visits, k)
    ensures AllByVisit(if visits[k].target.kind == Container then byRef[1 + k := visits[k].target.id] else byRef, visits, k + 1)
  {
    var more := if visits[k].target.kind == Container then byRef[1 + k := visits[k].target.id] else byRef;
    forall r | r in more ensures ByVisit(visits, k + 1, r, more[r]) {
      if r in byRef { assert ByVisit(visits, k, r, byRef[r]); }
    }
  }

  lemma TrackedNext(st: D.State, next: D.State, base: D.State, parse: D.Parser, xs: seq<Exchange>, visits: seq<Visit>, k: nat)
    requires Tracked(st, base, parse, xs, visits, k) && k < |xs| && AllRegistered(next, visits, k + 1)
    requires Advances(st, next, (visits[k].target.kind, NativeOf(parse, xs[k], visits[k].target.kind)), 1 + k, visits[k].target)
    ensures Tracked(next, base, parse, xs, visits, k + 1)
  {
    ExplainedMore(st.natives, parse, xs, visits, k);
    VisitedMore(st.containersByRef, visits, k);
  }

  lemma TrackedMore(st: D.State, next: D.State, base: D.State, parse: D.Parser, xs: seq<Exchange>, visits: seq<Visit>, k: nat,
                    api: ApiVersion, cap: Capture)
    requires Tracked(st, base, parse, xs, visits, k) && k < |xs| && Answered(parse, xs[k], 1 + k, visits[k], api)
    requires S.Adds(st, xs[k], cap, parse, next) && api in st.requested
    ensures Tracked(next, base, parse, xs, visits, k + 1)
  {
    AllRegisteredMore(st, next, parse, xs[k], visits, k, api, cap);
    AddsAdvances(st, next, parse, xs[k], 1 + k, visits[k], api, cap);
    TrackedNext(st, next, base, parse, xs, visits, k);
  }

  /** The first `k` bodies decode. */
  predicate AllDecode(parse: D.Parser, decoders: D.Decoders, xs: seq<Exchange>, visits: seq<Visit>, k: nat)
    requires k <= |xs| == |visits|
  {
    forall i :: 0 <= i < k ==> BodyDecodes(parse, decoders, xs[i], visits[i].target.kind)
  }

  lemma BaseTracked(base: D.State, parse: D.Parser, xs: seq<Exchange>, visits: seq<Visit>)
    requires Untouched(base) && |xs| == |visits|
    ensures Tracked(base, base, parse, xs, visits, 0)
  {
  }

  lemma OneMore(opening: seq<Exchange>, xs: seq<Exchange>, k: nat, step: (D.State, Exchange) -> Result<D.State, D.DecodeError>)
    requires k < |xs|
    ensures var before := Fold(step, D.Blank(), opening + xs[..k]);
      Fold(step, D.Blank(), opening + xs[..k + 1]) == if before.Err? then before else step(before.value, xs[k])
  {
    var log := opening + xs[..k + 1];
    assert log[..|log| - 1] == opening + xs[..k] && log[|log| - 1] == xs[k];
  }

  lemma InspectionTracked(cap: Capture, parse: D.Parser, decoders: D.Decoders, st: D.State, base: D.State,
                          xs: seq<Exchange>, visits: seq<Visit>, api: ApiVersion, k: nat)
    requires k < |xs| && Suits(parse, xs, visits, cap.fallbacks, api) && Tracked(st, base, parse, xs, visits, k) && api in base.requested
    ensures var r := D.Absorb(st, xs[k], cap, parse, decoders);
      if BodyDecodes(parse, decoders, xs[k], visits[k].target.kind) then r.Ok? && Tracked(r.value, base, parse, xs, visits, k + 1)
      else r.Err? && r.error.InField?
  {
    NotYetMet(st, base, parse, xs, visits, cap.fallbacks, api, k);
    InspectTaken(st, xs[k], 1 + k, visits[k], api, cap, parse, decoders);
    if BodyDecodes(parse, decoders, xs[k], visits[k].target.kind) {
      TrackedMore(st, D.Absorb(st, xs[k], cap, parse, decoders).value, base, parse, xs, visits, k, api, cap);
    }
  }

  /** Replay went through the first `k` inspections, or stopped at a body that does not decode. */
  ghost predicate FoldsTo(r: Result<D.State, D.DecodeError>, base: D.State, parse: D.Parser, decoders: D.Decoders,
                          xs: seq<Exchange>, visits: seq<Visit>, k: nat)
    requires k <= |xs| == |visits|
  {
    if AllDecode(parse, decoders, xs, visits, k) then r.Ok? && Tracked(r.value, base, parse, xs, visits, k)
    else r.Err? && r.error.InField?
  }

  lemma FoldsOneMore(cap: Capture, parse: D.Parser, decoders: D.Decoders, opening: seq<Exchange>, base: D.State,
                     xs: seq<Exchange>, visits: seq<Visit>, api: ApiVersion, k: nat)
    requires Untouched(base) && api in base.requested
    requires Suits(parse, xs, visits, cap.fallbacks, api) && k < |xs|
    requires FoldsTo(Fold(D.Step(cap, parse, decoders), D.Blank(), opening + xs[..k]), base, parse, decoders, xs, visits, k)
    ensures FoldsTo(Fold(D.Step(cap, parse, decoders), D.Blank(), opening + xs[..k + 1]), base, parse, decoders, xs, visits, k + 1)
  {
    OneMore(opening, xs, k, D.Step(cap, parse, decoders));
    if AllDecode(parse, decoders, xs, visits, k) {
      var st := Fold(D.Step(cap, parse, decoders), D.Blank(), opening + xs[..k]).value;
      InspectionTracked(cap, parse, decoders, st, base, xs, visits, api, k);
    }
  }

  lemma FoldsNone(step: (D.State, Exchange) -> Result<D.State, D.DecodeError>, parse: D.Parser, decoders: D.Decoders,
                  opening: seq<Exchange>, base: D.State, xs: seq<Exchange>, visits: seq<Visit>)
    requires Fold(step, D.Blank(), opening) == Ok(base) && Untouched(base) && |xs| == |visits|
    ensures FoldsTo(Fold(step, D.Blank(), opening + xs[..0]), base, parse, decoders, xs, visits, 0)
  {
    assert opening + xs[..0] == opening;
    BaseTracked(base, parse, xs, visits);
  }

  /** Replaying the inspections: all is tracked, or a body's own decoder refuses it. */
  lemma {:induction false} InspectionsFold(cap: Capture, parse: D.Parser, decoders: D.Decoders, opening: seq<Exchange>, base: D.State,
                                           xs: seq<Exchange>, visits: seq<Visit>, api: ApiVersion, k: nat)
    requires Fold(D.Step(cap, parse, decoders), D.Blank(), opening) == Ok(base)
    requires Untouched(base) && api in base.requested
    requires Suits(parse, xs, visits, cap.fallbacks, api) && k <= |xs|
    ensures FoldsTo(Fold(D.Step(cap, parse, decoders), D.Blank(), opening + xs[..k]), base, parse, decoders, xs, visits, k)
  {
    if k == 0 {
      FoldsNone(D.Step(cap, parse, decoders), parse, decoders, opening, base, xs, visits);
    } else {
      InspectionsFold(cap, parse, decoders, opening, base, xs, visits, api, k - 1);
      FoldsOneMore(cap, parse, decoders, opening, base, xs, visits, api, k - 1);
    }
  }

  // ---- a plan's visits suit replay ----

  /** A visit's key is the one that replay looks under, given the marked fallbacks. */
  lemma FallbackAt(plan: Plan, i: nat)
    requires plan.Flags() && i < |plan.Visits()|
    ensures plan.Visits()[i].key
         == D.IdentityKey(plan.Visits()[i].target.kind, 1 + i in Fallbacks(1 + |plan.containers|, plan.networks, plan.byName))
  {
    VisitAt(plan, i);
    if plan.Visits()[i].target.kind == Network {
      FallbackMeans(1 + |plan.containers|, plan.networks, plan.byName, i - |plan.containers|);
    }
  }

  /** An object inspected by its native ID answers with it. */
  lemma NativeIsRequested(parse: D.Parser, x: Exchange, reference: Ref, visit: Visit, api: ApiVersion)
    requires Answered(parse, x, reference, visit, api) && visit.key == D.NativeKey(visit.target.kind)
    ensures NativeOf(parse, x, visit.target.kind) == visit.target.id
  {
  }

  /** Where the native IDs of the network part differ pairwise. */
  lemma NetworksDiffer(parse: D.Parser, xs: seq<Exchange>, n: nat, m: nat, i: nat, j: nat)
    requires n + m <= |xs| && n <= i < j < n + m
    requires NoRepeat(NativeIds(parse, xs[n..][..m], Network))
    ensures NativeOf(parse, xs[i], Network) != NativeOf(parse, xs[j], Network)
  {
    var networks := xs[n..][..m];
    var ids := NativeIds(parse, networks, Network);
    DistinctSize(ids);
    assert networks[i - n] == xs[i] && networks[j - n] == xs[j];
    assert ids[i - n] != ids[j - n];
  }

  /** Two visits of one kind other than networks ask for different IDs, and get what they ask for. */
  lemma RequestedDiffer(parse: D.Parser, plan: Plan, xs: seq<Exchange>, i: nat, j: nat)
    requires plan.Flags() && AllAnswered(parse, xs, 1, plan.Visits(), plan.api) && i < j < |plan.Visits()|
    requires Distinct(plan.containers) && Distinct(plan.volumes)
    requires plan.Visits()[i].target.kind == plan.Visits()[j].target.kind != Network
    ensures NativeOf(parse, xs[i], plan.Visits()[i].target.kind) != NativeOf(parse, xs[j], plan.Visits()[j].target.kind)
  {
    VisitAt(plan, i);
    VisitAt(plan, j);
    NativeIsRequested(parse, xs[i], 1 + i, plan.Visits()[i], plan.api);
    NativeIsRequested(parse, xs[j], 1 + j, plan.Visits()[j], plan.api);
  }

  lemma NativesDiffer(parse: D.Parser, plan: Plan, xs: seq<Exchange>, i: nat, j: nat)
    requires plan.Flags() && AllAnswered(parse, xs, 1, plan.Visits(), plan.api) && i < j < |plan.Visits()|
    requires Distinct(plan.containers) && Distinct(plan.volumes)
    requires NoRepeat(NativeIds(parse, xs[|plan.containers|..][..|plan.networks|], Network))
    requires plan.Visits()[i].target.kind == plan.Visits()[j].target.kind
    ensures NativeOf(parse, xs[i], plan.Visits()[i].target.kind) != NativeOf(parse, xs[j], plan.Visits()[j].target.kind)
  {
    if plan.Visits()[i].target.kind == Network {
      VisitAt(plan, i);
      VisitAt(plan, j);
      NetworksDiffer(parse, xs, |plan.containers|, |plan.networks|, i, j);
    } else {
      RequestedDiffer(parse, plan, xs, i, j);
    }
  }

  lemma PlanSuits(parse: D.Parser, plan: Plan, c: seq<Exchange>, related: seq<Exchange>)
    requires Inspected(parse, plan, c, related) && Distinct(plan.containers)
    ensures Suits(parse, c + related, plan.Visits(), Fallbacks(1 + |plan.containers|, plan.networks, plan.byName), plan.api)
  {
    var xs, visits := c + related, plan.Visits();
    AllVisitsAnswered(parse, plan, c, related);
    AscendingDistinct(plan.volumes);
    forall i | 0 <= i < |visits|
      ensures visits[i].key
           == D.IdentityKey(visits[i].target.kind, 1 + i in Fallbacks(1 + |plan.containers|, plan.networks, plan.byName))
    {
      FallbackAt(plan, i);
    }
    forall i, j | 0 <= i < j < |visits| && visits[i].target.kind == visits[j].target.kind
      ensures NativeOf(parse, xs[i], visits[i].target.kind) != NativeOf(parse, xs[j], visits[j].target.kind)
    {
      NativesDiffer(parse, plan, xs, i, j);
    }
  }

  // ---- the closing checks ----

  /** Where a planned root points: at a visit of its kind, later roots at later visits. */
  lemma RootAt(plan: Plan, i: nat)
    requires plan.Flags() && i < |PlannedRoots(plan)|
    ensures var root, n, m := PlannedRoots(plan)[i], |plan.containers|, |plan.networks|;
      && root.resource == (if i < n || plan.selector.NetworkIds? then 1 + i else 1 + m + i)
      && root.resource <= |plan.Visits()| && plan.Visits()[root.resource - 1].target.kind == root.kind
      && (root.kind == Container ==> i < n && root.reason == ReasonOf(plan.selector))
  {
  }

  lemma RootsDistinct(plan: Plan)
    requires plan.Flags()
    ensures D.DistinctRoots(PlannedRoots(plan))
  {
    forall i, j | 0 <= i < j < |PlannedRoots(plan)|
      ensures PlannedRoots(plan)[i].resource != PlannedRoots(plan)[j].resource
    {
      RootAt(plan, i);
      RootAt(plan, j);
    }
  }

  /** The replay state after all inspections of a plan. */
  ghost predicate Replayed(st: D.State, base: D.State, parse: D.Parser, xs: seq<Exchange>, plan: Plan)
    requires plan.Flags()
  {
    && Ready(base, plan) && Tracked(st, base, parse, xs, plan.Visits(), |xs|)
    && (!plan.selector.Lists() && !plan.selector.ContainerIds? ==> plan.containers == [])
  }

  lemma RootAgreed(st: D.State, base: D.State, parse: D.Parser, xs: seq<Exchange>, plan: Plan, i: nat)
    requires plan.Flags() && Replayed(st, base, parse, xs, plan) && i < |PlannedRoots(plan)|
    ensures D.RootAgrees(st, PlannedRoots(plan)[i])
  {
    var root := PlannedRoots(plan)[i];
    RootAt(plan, i);
    VisitAt(plan, root.resource - 1);
    assert Registered(st, plan.Visits()[root.resource - 1].target, root.resource);
    if root.kind == Container && plan.selector.Lists() {
      assert (Container, plan.containers[i]) in ContainerKeys(plan.containers);
    }
  }

  /** The container roots are the chosen containers. */
  lemma RootIdsAreContainers(st: D.State, base: D.State, parse: D.Parser, xs: seq<Exchange>, plan: Plan)
    requires plan.Flags() && Replayed(st, base, parse, xs, plan)
    ensures D.RootIds(PlannedRoots(plan), st.containersByRef) == D.TextIds(plan.containers)
  {
    var roots := PlannedRoots(plan);
    var ids := D.RootIds(roots, st.containersByRef);
    forall id | id in ids ensures id in D.TextIds(plan.containers) {
      var i :| 0 <= i < |roots| && roots[i].kind == Container && roots[i].resource in st.containersByRef
               && st.containersByRef[roots[i].resource] == id;
      RootAt(plan, i);
      VisitAt(plan, i);
      assert ByVisit(plan.Visits(), |xs|, 1 + i, id);
    }
    forall id | id in D.TextIds(plan.containers) ensures id in ids {
      var i :| 0 <= i < |plan.containers| && plan.containers[i] == id;
      RootAt(plan, i);
      VisitAt(plan, i);
      assert Registered(st, plan.Visits()[i].target, 1 + i);
      assert roots[i].resource in st.containersByRef && st.containersByRef[roots[i].resource] == id;
    }
  }

  lemma FallbacksRegistered(st: D.State, base: D.State, parse: D.Parser, xs: seq<Exchange>, plan: Plan)
    requires plan.Flags() && Replayed(st, base, parse, xs, plan)
    ensures forall r :: r in Fallbacks(1 + |plan.containers|, plan.networks, plan.byName) ==> (Network, r) in st.references
  {
    var first := 1 + |plan.containers|;
    forall r | r in Fallbacks(first, plan.networks, plan.byName)
      ensures (Network, r) in st.references
    {
      var j :| 0 <= j < |plan.networks| && plan.byName[plan.networks[j]] && first + j == r;
      VisitAt(plan, r - 1);
      assert Registered(st, plan.Visits()[r - 1].target, r);
    }
  }

  lemma ContainerListFollowed(st: D.State, base: D.State, parse: D.Parser, xs: seq<Exchange>, plan: Plan)
    requires plan.Flags() && Replayed(st, base, parse, xs, plan)
    ensures D.ListingFollowed(st, Container, plan.selector.Discovery?)
  {
    if st.listed != {} && !plan.selector.Discovery? {
      VisitAt(plan, 0);
      assert Registered(st, plan.Visits()[0].target, 1);
      assert (Container, plan.containers[0]) in ContainerKeys(plan.containers);
    }
  }

  lemma PlanCompletes(st: D.State, base: D.State, parse: D.Parser, plan: Plan, log: Log)
    requires plan.Flags() && Replayed(st, base, parse, log.containers + log.related, plan)
    ensures D.Complete(st, CaptureOf(plan, log))
  {
    var xs := log.containers + log.related;
    FallbacksRegistered(st, base, parse, xs, plan);
    RootIdsAreContainers(st, base, parse, xs, plan);
    RootsDistinct(plan);
    ContainerListFollowed(st, base, parse, xs, plan);
    forall i | 0 <= i < |PlannedRoots(plan)| ensures D.RootAgrees(st, PlannedRoots(plan)[i]) {
      RootAgreed(st, base, parse, xs, plan, i);
    }
  }

  // ---- acquisition and replay agree ----

  /** Everything in a completed log that acquisition left unread, replay reads. */
  predicate BodiesRead(parse: D.Parser, decoders: D.Decoders, plan: Plan, opening: seq<Exchange>, xs: seq<Exchange>)
    requires plan.Flags()
  {
    && |xs| == |plan.Visits()|
    && OpeningReads(parse, opening, plan.selector, decoders)
    && AllDecode(parse, decoders, xs, plan.Visits(), |xs|)
  }

  /** The end of the pass over a completed log. */
  ghost predicate Passed(r: Result<D.State, D.DecodeError>, parse: D.Parser, decoders: D.Decoders, plan: Plan,
                         opening: seq<Exchange>, xs: seq<Exchange>)
    requires plan.Flags()
  {
    if BodiesRead(parse, decoders, plan, opening, xs) then r.Ok? && exists base :: Replayed(r.value, base, parse, xs, plan)
    else r.Err? && Excused(r.error, parse, opening)
  }

  lemma ReadyReplayed(st: D.State, base: D.State, parse: D.Parser, opening: seq<Exchange>, xs: seq<Exchange>, plan: Plan)
    requires plan.Flags() && ContainersChosen(parse, opening, plan)
    requires Ready(base, plan) && Tracked(st, base, parse, xs, plan.Visits(), |xs|)
    ensures Replayed(st, base, parse, xs, plan)
  {
  }

  lemma OpeningRefused(parse: D.Parser, cap: Capture, plan: Plan, opening: seq<Exchange>, xs: seq<Exchange>, decoders: D.Decoders)
    requires OpeningDone(parse, opening, plan) && cap.selector == Some(plan.selector)
    requires !OpeningReads(parse, opening, plan.selector, decoders)
    ensures var r := Fold(D.Step(cap, parse, decoders), D.Blank(), opening + xs); r.Err? && Excused(r.error, parse, opening)
  {
    OpeningFolds(parse, cap, opening, plan, decoders);
    assert (opening + xs)[..|opening|] == opening;
    FoldStops(D.Step(cap, parse, decoders), D.Blank(), opening + xs, |opening|);
  }

  lemma VisitsFold(parse: D.Parser, cap: Capture, plan: Plan, opening: seq<Exchange>, base: D.State, xs: seq<Exchange>, decoders: D.Decoders)
    requires Fold(D.Step(cap, parse, decoders), D.Blank(), opening) == Ok(base)
    requires Untouched(base) && Ready(base, plan) && ContainersChosen(parse, opening, plan) && plan.Flags()
    requires Suits(parse, xs, plan.Visits(), cap.fallbacks, plan.api)
    ensures var r := Fold(D.Step(cap, parse, decoders), D.Blank(), opening + xs);
      if AllDecode(parse, decoders, xs, plan.Visits(), |xs|) then r.Ok? && Replayed(r.value, base, parse, xs, plan)
      else r.Err? && r.error.InField?
  {
    InspectionsFold(cap, parse, decoders, opening, base, xs, plan.Visits(), plan.api, |xs|);
    assert xs[..|xs|] == xs;
    if AllDecode(parse, decoders, xs, plan.Visits(), |xs|) {
      ReadyReplayed(Fold(D.Step(cap, parse, decoders), D.Blank(), opening + xs).value, base, parse, opening, xs, plan);
    }
  }

  lemma LogFolds(parse: D.Parser, cap: Capture, plan: Plan, opening: seq<Exchange>, xs: seq<Exchange>, decoders: D.Decoders)
    requires OpeningDone(parse, opening, plan) && cap.selector == Some(plan.selector) && plan.Flags()
    requires Suits(parse, xs, plan.Visits(), cap.fallbacks, plan.api)
    ensures Passed(Fold(D.Step(cap, parse, decoders), D.Blank(), opening + xs), parse, decoders, plan, opening, xs)
  {
    if OpeningReads(parse, opening, plan.selector, decoders) {
      OpeningFolds(parse, cap, opening, plan, decoders);
      VisitsFold(parse, cap, plan, opening, Fold(D.Step(cap, parse, decoders), D.Blank(), opening).value, xs, decoders);
    } else {
      OpeningRefused(parse, cap, plan, opening, xs, decoders);
    }
  }

  lemma ReplayedInRange(st: D.State, base: D.State, parse: D.Parser, xs: seq<Exchange>, plan: Plan)
    requires plan.Flags() && Replayed(st, base, parse, xs, plan)
    ensures D.InRange(st.facts, st.requested)
  {
  }

  lemma PassedDecodes(st: D.State, parse: D.Parser, plan: Plan, log: Log, decoders: D.Decoders)
    requires plan.Flags() && Passed(Ok(st), parse, decoders, plan, log.opening, log.containers + log.related)
    ensures D.Complete(st, CaptureOf(plan, log)) && D.InRange(st.facts, st.requested)
  {
    var xs := log.containers + log.related;
    var base :| Replayed(st, base, parse, xs, plan);
    PlanCompletes(st, base, parse, plan, log);
    ReplayedInRange(st, base, parse, xs, plan);
  }

  /** Replay's verdict on a completed log. */
  predicate Accepts(r: Result<D.State, D.DecodeError>, parse: D.Parser, decoders: D.Decoders, plan: Plan, log: Log)
    requires plan.Flags()
  {
    if BodiesRead(parse, decoders, plan, log.opening, log.containers + log.related) then r.Ok?
    else r.Err? && Excused(r.error, parse, log.opening)
  }

  lemma Judged(c: Capture, parse: D.Parser, plan: Plan, log: Log, decoders: D.Decoders)
    requires plan.Flags() && c == CaptureOf(plan, log) && |c.exchanges| <= MAX_COLLECTION_ITEMS
    requires Passed(Fold(D.Step(c, parse, decoders), D.Blank(), c.exchanges), parse, decoders, plan, log.opening,
                    log.containers + log.related)
    ensures Accepts(D.Decoded(c, parse, decoders), parse, decoders, plan, log)
  {
    var r := Fold(D.Step(c, parse, decoders), D.Blank(), c.exchanges);
    if r.Ok? { PassedDecodes(r.value, parse, plan, log, decoders); }
  }

  lemma InspectedPasses(parse: D.Parser, cap: Capture, plan: Plan, log: Log, decoders: D.Decoders)
    requires OpeningDone(parse, log.opening, plan) && cap.selector == Some(plan.selector) && Distinct(plan.containers)
    requires Inspected(parse, plan, log.containers, log.related)
    requires cap.fallbacks == Fallbacks(1 + |plan.containers|, plan.networks, plan.byName)
    ensures Passed(Fold(D.Step(cap, parse, decoders), D.Blank(), log.opening + (log.containers + log.related)), parse, decoders, plan,
                   log.opening, log.containers + log.related)
  {
    PlanSuits(parse, plan, log.containers, log.related);
    LogFolds(parse, cap, plan, log.opening, log.containers + log.related, decoders);
  }

  lemma CompletedPasses(parse: D.Parser, c: Capture, plan: Plan, log: Log, decoders: D.Decoders)
    requires Completed(parse, c, plan, log)
    ensures Passed(Fold(D.Step(c, parse, decoders), D.Blank(), c.exchanges), parse, decoders, plan, log.opening,
                   log.containers + log.related)
  {
    LogJoined(plan, log);
    ChosenDistinct(parse, log.opening, plan);
    InspectedPasses(parse, c, plan, log, decoders);
  }

  /** A log that acquisition completes and that fits one collection is accepted exactly when the bodies it left unread read and their
      facts agree; otherwise the refusal is a fault inside one body, or the version and info bodies in conflict. Replay never finds
      a wrong status, an oversized or repeated object, a mismatched identity, a version outside the range or an incomplete inventory. */
  lemma AcquiredReplays(parse: D.Parser, c: Capture, plan: Plan, log: Log, decoders: D.Decoders)
    requires Completed(parse, c, plan, log) && |c.exchanges| <= MAX_COLLECTION_ITEMS
    ensures Accepts(D.Decoded(c, parse, decoders), parse, decoders, plan, log)
  {
    CompletedPasses(parse, c, plan, log, decoders);
    Judged(c, parse, plan, log, decoders);
  }

  /** Acquire, then replay: what the two of them together can return under a request limit that fits one collection. The bodies that
      decide the verdict are those that the world delivered. */
  method AcquireThenReplay(world: Acquisition.World, parse: D.Parser, decoders: D.Decoders, selector: Selector, limits: Limits, machine: nat,
                           ghost goal: Plan, ghost script: Log)
    returns (capture: Result<Capture, AcquisitionError>, verdict: Result<D.State, D.DecodeError>, ghost plan: Plan, ghost log: Log)
    requires limits.Fits(machine) && limits.maxRequests <= MAX_COLLECTION_ITEMS
    ensures capture.Ok? ==>
      && Completed(parse, capture.value, plan, log) && plan.selector == selector
      && Acquisition.Heard(world.turns, capture.value.exchanges, limits, machine)
      && Accepts(verdict, parse, decoders, plan, log)
    ensures capture.Ok? && verdict.Err? ==>
      verdict.error.InField? || verdict.error.InvalidJson? || verdict.error.ConflictingFacts?
    ensures Acquisition.SelectorFault(selector, limits).None? && limits.Admissible(machine) && goal.selector == selector
            && Acquisition.Attainable(parse, world, goal, script, limits, machine) ==>
      capture == Ok(CaptureOf(goal, script))
  {
    hide Acquisition.Attainable, Acquisition.Heard, Acquisition.Refused, Accepts, D.Decoded;
    verdict := Err(D.IncompleteInventory);
    capture, plan, log := Acquisition.Acquire(world, parse, selector, limits, machine, goal, script);
    if capture.Ok? {
      verdict := D.DecodeCapture(capture.value, parse, decoders);
      RunAgrees(parse, capture.value, plan, log, limits, decoders);
    }
  }

  lemma RunAgrees(parse: D.Parser, capture: Capture, plan: Plan, log: Log, limits: Limits, decoders: D.Decoders)
    requires Acquisition.Fulfilled(parse, capture, plan, log, limits) && limits.maxRequests <= MAX_COLLECTION_ITEMS
    ensures capture.exchanges == log.Exchanges()
    ensures var r := D.Decoded(capture, parse, decoders);
      && Accepts(r, parse, decoders, plan, log)
      && (r.Err? ==> r.error.InField? || r.error.InvalidJson? || r.error.ConflictingFacts?)
  {
    AcquiredReplays(parse, capture, plan, log, decoders);
  }
}
