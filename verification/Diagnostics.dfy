/** The fixed wire limit that diagnostic reads are budgeted with. */
module Diagnostics {
  import opened Outcome
  import opened Utf8
  import opened Protocol
  import opened Numerals
  import opened RequestPath
  import opened Identifiers
  import Selection
  import Framing
  import Wire

  const BODY_LIMIT := Framing.MAX_HEADER_BYTES
  const REQUEST_LIMIT := 163
  const WIRE_LIMIT := Wire.WireLimit(BODY_LIMIT) + REQUEST_LIMIT

  /** A segment of unreserved characters is printed as it is. */
  lemma {:induction false} PlainSegment(s: string)
    requires forall i :: 0 <= i < |s| ==> Selection.AlphaNumeric(s[i])
    ensures |EscapeAll(Encode(s))| == |Encode(s)| == |s| && Ascii(EscapeAll(Encode(s)))
  {
    if s != "" {
      PlainSegment(s[1..]);
      assert Encode(s) == [s[0] as int] + Encode(s[1..]);
    }
  }

  lemma TextLength(path: string)
    requires Ascii(path)
    ensures |Encode(Wire.RequestText(path))| == |path| + 76
  {
    assert Ascii("Host: docker\r\n") && Ascii("Accept: application/json\r\n") && Ascii("Connection: close\r\n\r\n");
    assert Ascii(Wire.HEADERS) && Ascii("GET " + path + " HTTP/1.1\r\n");
    EncodeAscii(Wire.RequestText(path));
  }

  lemma NumeralLengths(minor: nat)
    requires 10 <= minor < 100
    ensures |Decimal(1)| == 1 && |Decimal(minor)| == 2
  {
    assert |Codes(Decimal(1))| == 1;
    assert |Numeral(minor / 10, 10)| == 1 && |Codes(Decimal(minor))| == 2;
  }

  lemma PathLength(segment: string, minor: nat)
    requires 10 <= minor < 100 && |segment| == 64 && Ascii(segment)
    ensures var path := Versioned(ApiVersion(1, minor), "/containers/" + segment + "/json"); |path| == 87 && Ascii(path)
  {
    NumeralLengths(minor);
  }

  /** The longest allowed diagnostic request: a canonical container ID under an API version with a two-digit minor number. */
  lemma LongestRequest(id: NativeId, minor: nat)
    requires Canonical(id) && 10 <= minor < 100
    ensures var path := PathOf(InspectContainer(id), Some(ApiVersion(1, minor)));
      path.Ok? && |Encode(Wire.RequestText(path.value))| == REQUEST_LIMIT
  {
    PlainSegment(id);
    PathLength(EscapeAll(Encode(id)), minor);
    TextLength(PathOf(InspectContainer(id), Some(ApiVersion(1, minor))).value);
  }

  /** The requests that diagnostics may send: the version, and one container by its canonical ID under 1.41 or 1.56. */
  predicate Allowed(request: ReadRequest, api: Option<ApiVersion>) {
    match request
    case DaemonVersion => api.None?
    case InspectContainer(id) => Canonical(id) && (api == Some(ApiVersion(1, 41)) || api == Some(ApiVersion(1, 56)))
    case _ => false
  }

  /** A bounded read, with times in milliseconds. */
  datatype Bound = Bound(total: nat, perRead: nat, maxBody: nat)

  /** What is refused before any contact. */
  function Refusal(request: ReadRequest, api: Option<ApiVersion>, bound: Bound): Option<AcquisitionError> {
    if !Allowed(request, api) then Some(AcquisitionError.Selection)
    else if bound.total == 0 || bound.total > 4000 || bound.perRead == 0 || bound.perRead > 2000 then
      Some(AcquisitionError.Budget(Elapsed))
    else if bound.maxBody == 0 || bound.maxBody > BODY_LIMIT then Some(AcquisitionError.Budget(LimitError.Bytes))
    else None
  }

  /** What the clock and the cancellation flag say. */
  function TimeFault(cancelled: bool, elapsed: nat, limit: nat): Option<AcquisitionError> {
    if cancelled then Some(Cancelled) else if elapsed >= limit then Some(Deadline) else None
  }

  /** Every allowed request is short, and has a path. */
  lemma RequestFits(request: ReadRequest, api: Option<ApiVersion>)
    requires Allowed(request, api)
    ensures PathOf(request, api).Ok? && |Encode(Wire.RequestText(PathOf(request, api).value))| <= REQUEST_LIMIT
  {
    match request
    case DaemonVersion => TextLength("/version");
    case InspectContainer(id) => LongestRequest(id, api.value.minor);
  }

  /** Whatever is asked for and however the socket behaves, no more than the fixed limit is sent and received. A result is what the
      stream means under the body limit, and it was complete within both deadlines. */
  method DiagnosticGet(connection: Wire.Connection, request: ReadRequest, api: Option<ApiVersion>, bound: Bound, machine: nat,
                       cancelled: (bool, bool), started: nat, ended: nat)
    returns (r: Result<(nat, Utf8.Bytes), AcquisitionError>)
    requires connection.sent == []
    modifies connection
    ensures |connection.sent| + connection.consumed <= old(connection.consumed) + WIRE_LIMIT
    ensures Refusal(request, api, bound).Some? ==> r == Err(Refusal(request, api, bound).value) && connection.sent == []
    ensures r.Ok? ==>
      && Refusal(request, api, bound).None? && |r.value.1| <= bound.maxBody
      && r == Framing.Frame(Wire.Stream(old(connection.arrivals)), Wire.End(old(connection.arrivals)), bound.maxBody, machine)
      && !cancelled.1 && ended < bound.total && ended < started + bound.perRead
  {
    var refusal := Refusal(request, api, bound);
    if refusal.Some? { return Err(refusal.value); }
    var early := TimeFault(cancelled.0, started, bound.total);
    if early.Some? { return Err(early.value); }
    RequestFits(request, api);
    r := connection.HttpGet(PathOf(request, api).value, bound.maxBody, machine);
    if r.Err? { return; }
    Framing.FrameBounded(Wire.Stream(old(connection.arrivals)), Wire.End(old(connection.arrivals)), bound.maxBody, machine);
    var late := TimeFault(cancelled.1, ended, Min(bound.total, started + bound.perRead));
    if late.Some? { return Err(late.value); }
  }
}
