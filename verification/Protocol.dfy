/** The closed requests, selectors and limits that acquisition and replay share. */
module Protocol {
  import opened Outcome
  import opened Utf8

  type NativeId = s: string | s != "" witness "x"

  type Ref = nat

  const MAX_REF := 0xFFFF_FFFF_FFFF_FFFF

  /** Ordered by major, then minor. */
  datatype ApiVersion = ApiVersion(major: nat, minor: nat) {
    predicate AtMost(other: ApiVersion) {
      major < other.major || (major == other.major && minor <= other.minor)
    }
  }

  datatype Kind = Container | Network | Volume

  datatype Target = Target(kind: Kind, id: NativeId)

  datatype ReadRequest =
    | DaemonVersion
    | DaemonInfo
    | ListContainers
    | InspectContainer(id: NativeId)
    | ListNetworks
    | InspectNetwork(id: NativeId)
    | ListVolumes
    | InspectVolume(id: NativeId)
  {
    /** What an inspect request addresses; nothing for the other requests. */
    function Inspected(): Option<Target> {
      match this
      case InspectContainer(id) => Some(Target(Container, id))
      case InspectNetwork(id) => Some(Target(Network, id))
      case InspectVolume(id) => Some(Target(Volume, id))
      case _ => None
    }
  }

  function InspectRequest(target: Target): (r: ReadRequest)
    ensures r.Inspected() == Some(target)
  {
    match target.kind
    case Container => InspectContainer(target.id)
    case Network => InspectNetwork(target.id)
    case Volume => InspectVolume(target.id)
  }

  datatype Selector =
    | ContainerIds(ids: seq<NativeId>)
    | NetworkIds(ids: seq<NativeId>)
    | VolumeNames(names: seq<NativeId>)
    | ContainerNames(names: seq<NativeId>)
    | NamePrefix(prefix: NativeId)
    | Label(key: Bytes, value: Option<Bytes>)
    | Discovery
    | AllContainers
  {
    /** The selectors that read the container list. */
    predicate Lists() {
      !ContainerIds? && !NetworkIds? && !VolumeNames?
    }

    /** The selectors whose roots replay recomputes from the list. */
    predicate SelectsFromList() {
      ContainerNames? || NamePrefix? || Label? || AllContainers?
    }
  }

  datatype SelectionReason =
    | ExactId
    | ExactNetworkId
    | ExactVolumeName
    | ExactName
    | ByNamePrefix
    | ByLabel
    | ExplicitAll

  datatype SelectedRoot = SelectedRoot(resource: Ref, kind: Kind, reason: SelectionReason)

  datatype LimitError =
    | Invalid
    | Requests
    | PendingResponse
    | ResponseWithoutRequest
    | Exhausted
    | SelectedResources
    | Expansions
    | Bytes
    | Elapsed
    | Input
    | InvalidResourceRef
    | Incomplete
    | CaptureAccounting
    | MissingApiVersion
    | ResourceConflict

  datatype AcquisitionError =
    | Cancelled
    | Deadline
    | Io
    | Protocol
    | Status
    | Version
    | Shape
    | Selection
    | Budget(limit: LimitError)

  datatype Limits = Limits(
    maxRequests: nat,
    maxSelectedResources: nat,
    maxExpansions: nat,
    maxResponseBytes: nat,
    maxTotalBytes: nat,
    maxElapsed: nat)
  {
    /** Every dimension nonzero, a response inside the total, and room for one sentinel byte. */
    predicate Admissible(machine: nat) {
      && maxRequests != 0
      && maxSelectedResources != 0
      && maxExpansions != 0
      && maxResponseBytes != 0
      && maxResponseBytes != machine
      && maxTotalBytes != 0
      && maxResponseBytes <= maxTotalBytes
      && maxElapsed != 0
    }

    /** Each limit is a machine word no greater than `machine`. */
    predicate Fits(machine: nat) {
      && maxRequests <= machine
      && maxSelectedResources <= machine
      && maxExpansions <= machine
      && maxResponseBytes <= machine
      && maxTotalBytes <= machine
    }
  }

  datatype Exchange = Exchange(
    request: ReadRequest,
    resource: Option<Ref>,
    api: Option<ApiVersion>,
    status: nat,
    body: Utf8.Bytes)

  datatype Bounds = Bounds(requests: nat, selected: nat, expansions: nat, bytesRead: nat)

  datatype Route = CallerAssembled | ExplicitUnixSocket

  datatype Capture = Capture(
    bounds: Bounds,
    exchanges: seq<Exchange>,
    route: Route,
    roots: seq<SelectedRoot>,
    selector: Option<Selector>,
    fallbacks: set<Ref>,
    discoveryOnly: bool)

  function TotalBytes(exchanges: seq<Exchange>): nat {
    if exchanges == [] then 0
    else TotalBytes(exchanges[..|exchanges| - 1]) + |exchanges[|exchanges| - 1].body|
  }

  /** The accounting check of a finished capture, with the machine's checked addition. */
  function FromCompleted(bounds: Bounds, exchanges: seq<Exchange>, machine: nat): Option<Capture> {
    if bounds.requests != |exchanges| || TotalBytes(exchanges) > machine || TotalBytes(exchanges) != bounds.bytesRead then None
    else Some(Capture(bounds, exchanges, CallerAssembled, [], None, {}, false))
  }
}
