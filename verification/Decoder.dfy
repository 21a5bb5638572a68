/** Pure replay of a bounded capture: a validator that rebuilds every structural fact from the log alone. */
module Decoder {
  import opened Outcome
  import opened Json
  import opened Protocol
  import opened Folding
  import opened Selection
  import opened Versions

  datatype FieldPath = Other | ApiVersionField | EngineRelease | DaemonModeField | ResourceLimit | NetworkField | VolumeField

  datatype FieldError = InvalidShape(field: FieldPath) | InvalidValue(field: FieldPath) | CollectionTooLarge

  datatype DecodeError =
    | ResponseTooLarge
    | InvalidJson
    | InField(error: FieldError)
    | UnexpectedStatus
    | MissingApiVersion
    | ApiVersionOutOfRange
    | ConflictingFacts
    | DuplicateResource
    | IncompleteInventory

  datatype Availability = Missing | Null | Empty | Present | Redacted

  /** A field's availability, with its value when it is present or empty. */
  datatype Observed<+T> = Observed(availability: Availability, value: Option<T>)

  datatype DaemonMode = Rootful | Rootless | Unknown

  /** The long per-field decoders, each known only by the error it reports on a body. */
  datatype Decoders = Decoders(
    container: Json -> Option<FieldError>,
    network: Json -> Option<FieldError>,
    volume: Json -> Option<FieldError>,
    summary: Json -> Option<FieldError>)

  /** An inspected body under its local reference. */
  datatype Observation = Observation(reference: Ref, body: Json)

  // ---- fields ----

  const REDACTED := "__docker_lens_redacted__"

  predicate IsRedacted(value: Json) {
    value.Obj? && value.fields == map[REDACTED := Bool(true)]
  }

  predicate Unavailable(value: Json) {
    value.Null? || IsRedacted(value)
  }

  /** Descend a path; a null or redacted value on the way is the answer, and a missing key is none. */
  function ValueAt(root: Json, path: seq<string>, field: FieldPath): Result<Option<Json>, FieldError> {
    if path == [] || Unavailable(root) then Ok(Some(root))
    else if !root.Obj? then Err(InvalidShape(field))
    else if path[0] !in root.fields then Ok(None)
    else ValueAt(root.fields[path[0]], path[1..], field)
  }

  method FieldValue(root: Json, path: seq<string>, field: FieldPath) returns (r: Result<Option<Json>, FieldError>)
    ensures r == ValueAt(root, path, field)
  {
    var current := root;
    for i := 0 to |path|
      invariant ValueAt(root, path, field) == ValueAt(current, path[i..], field)
    {
      if Unavailable(current) { return Ok(Some(current)); }
      if !current.Obj? { return Err(InvalidShape(field)); }
      assert path[i..][0] == path[i] && path[i..][1..] == path[i + 1..];
      if path[i] !in current.fields { return Ok(None); }
      current := current.fields[path[i]];
    }
    return Ok(Some(current));
  }

  /** A value that is there to be parsed: neither absent, null nor redacted. */
  function Readable(root: Json, key: string, field: FieldPath): Result<Option<Json>, FieldError> {
    match ValueAt(root, [key], field)
    case Err(e) => Err(e)
    case Ok(None) => Ok(None)
    case Ok(Some(value)) => Ok(if Unavailable(value) then None else Some(value))
  }

  function ObserveBool(root: Json, key: string, field: FieldPath): Result<Observed<bool>, FieldError> {
    match ValueAt(root, [key], field)
    case Err(e) => Err(e)
    case Ok(None) => Ok(Observed(Missing, None))
    case Ok(Some(value)) =>
      if value.Null? then Ok(Observed(Availability.Null, None))
      else if IsRedacted(value) then Ok(Observed(Redacted, None))
      else if value.Bool? then Ok(Observed(Present, Some(value.flag)))
      else Err(InvalidShape(field))
  }

  function AsArray(value: Json, field: FieldPath): Result<seq<Json>, FieldError> {
    if !value.Arr? then Err(InvalidShape(field))
    else if |value.items| > MAX_COLLECTION_ITEMS then Err(CollectionTooLarge)
    else Ok(value.items)
  }

  function AsObject(value: Json, field: FieldPath): Result<map<string, Json>, FieldError> {
    if !value.Obj? then Err(InvalidShape(field))
    else if |value.fields| > MAX_COLLECTION_ITEMS then Err(CollectionTooLarge)
    else Ok(value.fields)
  }

  function VersionField(root: Json, key: string): Result<Option<ApiVersion>, FieldError> {
    match Readable(root, key, ApiVersionField)
    case Err(e) => Err(e)
    case Ok(None) => Ok(None)
    case Ok(Some(value)) =>
      if value.Str? && ParseApi(value.text).Some? then Ok(ParseApi(value.text)) else Err(InvalidValue(ApiVersionField))
  }

  /** An empty release reads as none. */
  function ReleaseField(root: Json, key: string): Result<Option<string>, FieldError> {
    match Readable(root, key, EngineRelease)
    case Err(e) => Err(e)
    case Ok(None) => Ok(None)
    case Ok(Some(value)) =>
      if !value.Str? then Err(InvalidShape(EngineRelease))
      else Ok(if value.text == "" then None else Some(value.text))
  }

  function ListedId(item: Json, field: FieldPath, key: string): Result<string, FieldError> {
    match AsObject(item, field)
    case Err(e) => Err(e)
    case Ok(_) =>
      match item.GetStr(key)
      case None => Err(InvalidShape(field))
      case Some(id) => if id == "" then Err(InvalidValue(field)) else Ok(id)
  }

  predicate RootlessOption(text: string) {
    text == "name=rootless" || "name=rootless," <= text
  }

  /** Whether any security option names the rootless mode; every option must be text. */
  function AnyRootless(options: seq<Json>): Result<bool, FieldError> {
    if options == [] then Ok(false)
    else
      var last := |options| - 1;
      match AnyRootless(options[..last])
      case Err(e) => Err(e)
      case Ok(found) =>
        if !options[last].Str? then Err(InvalidShape(DaemonModeField))
        else Ok(found || RootlessOption(options[last].text))
  }

  function OptionsRootless(body: Json): Result<bool, FieldError> {
    match Readable(body, "SecurityOptions", DaemonModeField)
    case Err(e) => Err(e)
    case Ok(None) => Ok(false)
    case Ok(Some(options)) =>
      match AsArray(options, DaemonModeField)
      case Err(e) => Err(e)
      case Ok(items) => AnyRootless(items)
  }

  /** The explicit mode flag, if the body carries one. */
  function ModeFlag(body: Json): Result<Option<DaemonMode>, FieldError> {
    match Readable(body, "Rootless", DaemonModeField)
    case Err(e) => Err(e)
    case Ok(None) => Ok(None)
    case Ok(Some(flag)) =>
      if !flag.Bool? then Err(InvalidShape(DaemonModeField)) else Ok(Some(if flag.flag then Rootless else Rootful))
  }

  // ---- the replay state ----

  datatype Facts = Facts(
    release: Option<string>,
    api: Option<ApiVersion>,
    minimum: Option<ApiVersion>,
    mode: DaemonMode,
    memoryLimit: Observed<bool>,
    swapLimit: Observed<bool>)

  datatype State = State(
    facts: Facts,
    requested: seq<ApiVersion>,
    versionSeen: bool,
    infoSeen: bool,
    fromList: Option<set<string>>,
    listed: set<(Kind, string)>,
    inspected: set<(Kind, string)>,
    natives: set<(Kind, string)>,
    references: set<(Kind, Ref)>,
    containersByRef: map<Ref, string>,
    discovered: seq<Json>,
    containers: seq<Observation>,
    networks: seq<Observation>,
    volumes: seq<Observation>)

  function Blank(): State {
    State(Facts(None, None, None, Unknown, Observed(Missing, None), Observed(Missing, None)),
          [], false, false, None, {}, {}, {}, {}, map[], [], [], [], [])
  }

  function Field<T>(r: Result<T, FieldError>): Result<T, DecodeError> {
    match r
    case Ok(value) => Ok(value)
    case Err(e) => Err(InField(e))
  }

  /** A newly reported release must agree with a known one, and replaces it. */
  function Agree(known: Option<string>, reported: Option<string>): Result<Option<string>, DecodeError> {
    if reported.None? then Ok(known)
    else if known.Some? && known != reported then Err(ConflictingFacts)
    else Ok(reported)
  }

  function AbsorbVersion(st: State, body: Json): Result<State, DecodeError> {
    if st.versionSeen then Err(ConflictingFacts)
    else
      var _ :- Field(AsObject(body, Other));
      var reported :- Field(ReleaseField(body, "Version"));
      var release :- Agree(st.facts.release, reported);
      var api :- Field(VersionField(body, "ApiVersion"));
      var minimum :- Field(VersionField(body, "MinAPIVersion"));
      Ok(st.(versionSeen := true, facts := st.facts.(release := release, api := api, minimum := minimum)))
  }

  function AbsorbInfo(st: State, body: Json): Result<State, DecodeError> {
    if st.infoSeen then Err(ConflictingFacts)
    else
      var _ :- Field(AsObject(body, Other));
      var memory :- Field(ObserveBool(body, "MemoryLimit", ResourceLimit));
      var swap :- Field(ObserveBool(body, "SwapLimit", ResourceLimit));
      var reported :- Field(ReleaseField(body, "ServerVersion"));
      var release :- Agree(st.facts.release, reported);
      var rootless :- Field(OptionsRootless(body));
      var hinted := if rootless then Rootless else st.facts.mode;
      var flag :- Field(ModeFlag(body));
      if flag.Some? && hinted != Unknown && hinted != flag.value then Err(ConflictingFacts)
      else
        var mode := if flag.Some? then flag.value else hinted;
        Ok(st.(infoSeen := true,
               facts := st.facts.(release := release, mode := mode, memoryLimit := memory, swapLimit := swap)))
  }

  /** The IDs of a list's items, each of which must also be readable as a summary when `summarise` says so. */
  function ListIds(items: seq<Json>, kind: Kind, field: FieldPath, key: string, summary: Json -> Option<FieldError>):
    Result<set<(Kind, string)>, FieldError>
  {
    if items == [] then Ok({})
    else
      var last := |items| - 1;
      var earlier :- ListIds(items[..last], kind, field, key, summary);
      var id :- ListedId(items[last], field, key);
      match summary(items[last])
      case Some(e) => Err(e)
      case None => Ok(earlier + {(kind, id)})
  }

  function Ignored(item: Json): Option<FieldError> { None }

  function TextIds(ids: seq<NativeId>): set<string> {
    set id | id in ids
  }

  function AbsorbContainerList(st: State, body: Json, selector: Option<Selector>, decoders: Decoders): Result<State, DecodeError> {
    if st.fromList.Some? then Err(ConflictingFacts)
    else
      var selecting := selector.Some? && selector.value.SelectsFromList();
      if selecting && !Selectable(Some(body), selector.value) then Err(IncompleteInventory)
      else
        var fromList := if selecting then Some(TextIds(Selected(body.items, selector.value))) else None;
        var items :- Field(AsArray(body, Other));
        var ids :- Field(ListIds(items, Container, Other, "Id", decoders.summary));
        Ok(st.(fromList := fromList, listed := st.listed + ids, discovered := st.discovered + items))
  }

  function AbsorbNetworkList(st: State, body: Json): Result<State, DecodeError> {
    var items :- Field(AsArray(body, Other));
    var ids :- Field(ListIds(items, Network, NetworkField, "Id", Ignored));
    Ok(st.(listed := st.listed + ids))
  }

  function AbsorbVolumeList(st: State, body: Json): Result<State, DecodeError> {
    var _ :- Field(AsObject(body, Other));
    var volumes :- Field(Readable(body, "Volumes", VolumeField));
    if volumes.None? then Ok(st)
    else
      var items :- Field(AsArray(volumes.value, VolumeField));
      var ids :- Field(ListIds(items, Volume, VolumeField, "Name", Ignored));
      Ok(st.(listed := st.listed + ids))
  }

  function IdentityKey(kind: Kind, byName: bool): string {
    if kind == Volume || (kind == Network && byName) then "Name" else "Id"
  }

  function NativeKey(kind: Kind): string {
    if kind == Volume then "Name" else "Id"
  }

  function DecodeBody(decoders: Decoders, kind: Kind, body: Json): Option<FieldError> {
    match kind
    case Container => decoders.container(body)
    case Network => decoders.network(body)
    case Volume => decoders.volume(body)
  }

  function Observe(st: State, kind: Kind, observation: Observation): State {
    match kind
    case Container => st.(containers := st.containers + [observation])
    case Network => st.(networks := st.networks + [observation])
    case Volume => st.(volumes := st.volumes + [observation])
  }

  function AbsorbInspect(st: State, target: Target, resource: Option<Ref>, body: Json, fallbacks: set<Ref>, decoders: Decoders):
    Result<State, DecodeError>
  {
    if resource.None? then Err(InField(InvalidShape(Other)))
    else
      var kind, reference := target.kind, resource.value;
      var native := body.GetStr(NativeKey(kind));
      if body.GetStr(IdentityKey(kind, reference in fallbacks)) != Some(target.id) then Err(ConflictingFacts)
      else if native.None? || native.value == "" then Err(InField(InvalidShape(Other)))
      else if (kind, native.value) in st.natives then Err(DuplicateResource)
      else if (kind, reference) in st.references then Err(DuplicateResource)
      else match DecodeBody(decoders, kind, body)
        case Some(e) => Err(InField(e))
        case None =>
          Ok(Observe(
            st.(natives := st.natives + {(kind, native.value)},
                references := st.references + {(kind, reference)},
                inspected := st.inspected + {(kind, target.id)},
                containersByRef := if kind == Container then st.containersByRef[reference := target.id] else st.containersByRef),
            kind, Observation(reference, body)))
  }

  function Request(st: State, x: Exchange): Result<State, DecodeError> {
    match x.api
    case Some(api) => Ok(if api in st.requested then st else st.(requested := st.requested + [api]))
    case None => if x.request.DaemonVersion? then Ok(st) else Err(DecodeError.MissingApiVersion)
  }

  type Parser = Utf8.Bytes -> Option<Json>

  /** The native ID an exchange's body carries under the key of its kind. */
  function NativeOf(parse: Parser, x: Exchange, kind: Kind): Option<string> {
    match parse(x.body)
    case Some(body) => body.GetStr(NativeKey(kind))
    case None => None
  }

  function Absorb(st: State, x: Exchange, cap: Capture, parse: Parser, decoders: Decoders): Result<State, DecodeError> {
    if x.status != 200 then Err(UnexpectedStatus)
    else if |x.body| > MAX_JSON_BYTES then Err(ResponseTooLarge)
    else match parse(x.body)
      case None => Err(InvalidJson)
      case Some(body) =>
        var next :- Request(st, x);
        match x.request
        case DaemonVersion => AbsorbVersion(next, body)
        case DaemonInfo => AbsorbInfo(next, body)
        case ListContainers => AbsorbContainerList(next, body, cap.selector, decoders)
        case ListNetworks => AbsorbNetworkList(next, body)
        case ListVolumes => AbsorbVolumeList(next, body)
        case _ => AbsorbInspect(next, x.request.Inspected().value, x.resource, body, cap.fallbacks, decoders)
  }

  /** The step of the replay, for one capture. */
  function Step(cap: Capture, parse: Parser, decoders: Decoders): (State, Exchange) -> Result<State, DecodeError> {
    (st, x) => Absorb(st, x, cap, parse, decoders)
  }

  // ---- the closing checks ----

  function RootIds(roots: seq<SelectedRoot>, byRef: map<Ref, string>): set<string> {
    set i | 0 <= i < |roots| && roots[i].kind == Container && roots[i].resource in byRef :: byRef[roots[i].resource]
  }

  predicate ListAgrees(st: State, cap: Capture) {
    match st.fromList
    case Some(expected) => expected == RootIds(cap.roots, st.containersByRef)
    case None => cap.selector.Some? ==> !cap.selector.value.SelectsFromList()
  }

  function ObservationsOf(st: State, kind: Kind): seq<Observation> {
    match kind
    case Container => st.containers
    case Network => st.networks
    case Volume => st.volumes
  }

  predicate Observes(observations: seq<Observation>, reference: Ref) {
    exists i :: 0 <= i < |observations| && observations[i].reference == reference
  }

  predicate RootAgrees(st: State, root: SelectedRoot) {
    && Observes(ObservationsOf(st, root.kind), root.resource)
    && (root.kind == Container && root.reason != ExactId ==>
          root.resource in st.containersByRef && (Container, st.containersByRef[root.resource]) in st.listed)
  }

  predicate DistinctRoots(roots: seq<SelectedRoot>) {
    forall i, j :: 0 <= i < j < |roots| ==> roots[i].resource != roots[j].resource
  }

  /** A kind that was listed at all must have been inspected for some listed ID. */
  predicate ListingFollowed(st: State, kind: Kind, discoveryOnly: bool) {
    || (discoveryOnly && kind == Container)
    || (forall p :: p in st.listed ==> p.0 != kind)
    || (exists p :: p in st.listed && p.0 == kind && p in st.inspected)
  }

  predicate Complete(st: State, cap: Capture) {
    && (forall r :: r in cap.fallbacks ==> (Network, r) in st.references)
    && ListAgrees(st, cap)
    && (cap.roots == [] || |cap.roots| == cap.bounds.selected)
    && DistinctRoots(cap.roots)
    && (forall i :: 0 <= i < |cap.roots| ==> RootAgrees(st, cap.roots[i]))
    && ListingFollowed(st, Container, cap.discoveryOnly)
    && ListingFollowed(st, Network, cap.discoveryOnly)
    && ListingFollowed(st, Volume, cap.discoveryOnly)
    && (cap.roots == [] ==> cap.bounds.selected <= |st.containers|)
  }

  predicate InRange(facts: Facts, requested: seq<ApiVersion>) {
    && (facts.minimum.Some? && facts.api.Some? ==> facts.minimum.value.AtMost(facts.api.value))
    && (forall i :: 0 <= i < |requested| ==>
          && (facts.minimum.Some? ==> facts.minimum.value.AtMost(requested[i]))
          && (facts.api.Some? ==> requested[i].AtMost(facts.api.value)))
  }

  function Decoded(cap: Capture, parse: Parser, decoders: Decoders): Result<State, DecodeError> {
    if |cap.exchanges| > MAX_COLLECTION_ITEMS then Err(InField(CollectionTooLarge))
    else
      var st :- Fold(Step(cap, parse, decoders), Blank(), cap.exchanges);
      if !Complete(st, cap) then Err(IncompleteInventory)
      else if !InRange(st.facts, st.requested) then Err(ApiVersionOutOfRange)
      else Ok(st)
  }

  /** The pass over the exchanges: the first fault decides. */
  method Replay(step: (State, Exchange) -> Result<State, DecodeError>, xs: seq<Exchange>) returns (r: Result<State, DecodeError>)
    ensures r == Fold(step, Blank(), xs)
  {
    var st := Blank();
    for i := 0 to |xs|
      invariant Fold(step, Blank(), xs[..i]) == Ok(st)
    {
      FoldNext(step, Blank(), xs, i);
      var next := step(st, xs[i]);
      if next.Err? {
        FoldStops(step, Blank(), xs, i + 1);
        return next;
      }
      st := next.value;
    }
    assert xs[..|xs|] == xs;
    return Ok(st);
  }

  method DecodeCapture(cap: Capture, parse: Parser, decoders: Decoders) returns (r: Result<State, DecodeError>)
    ensures r == Decoded(cap, parse, decoders)
  {
    if |cap.exchanges| > MAX_COLLECTION_ITEMS { return Err(InField(CollectionTooLarge)); }
    r := Replay(Step(cap, parse, decoders), cap.exchanges);
    if r.Err? { return; }
    if !Complete(r.value, cap) { return Err(IncompleteInventory); }
    if !InRange(r.value.facts, r.value.requested) { return Err(ApiVersionOutOfRange); }
  }
}
