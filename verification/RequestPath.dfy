/** Printing closed requests as URL paths, and why no two of them share one. */
module RequestPath {
  import opened Outcome
  import opened Utf8
  import opened Protocol
  import opened Numerals

  const MAX_SEGMENT_BYTES := 1024

  predicate Unreserved(b: Byte) {
    48 <= b <= 57 || 65 <= b <= 90 || 97 <= b <= 122 || b == 45 || b == 46 || b == 95 || b == 126
  }

  function UpperHex(value: nat): char
    requires value < 16
  {
    (if value < 10 then 48 + value else 55 + value) as char
  }

  function Escape(b: Byte): string {
    if Unreserved(b) then [b as char] else ['%', UpperHex(b / 16), UpperHex(b % 16)]
  }

  function EscapeAll(bytes: Utf8.Bytes): string {
    if bytes == [] then "" else Escape(bytes[0]) + EscapeAll(bytes[1..])
  }

  function SegmentOf(id: NativeId): Result<string, AcquisitionError> {
    if |Encode(id)| > MAX_SEGMENT_BYTES then Err(Shape) else Ok(EscapeAll(Encode(id)))
  }

  method EncodeSegment(id: NativeId) returns (r: Result<string, AcquisitionError>)
    ensures r == SegmentOf(id)
  {
    var bytes := Encode(id);
    if |bytes| > MAX_SEGMENT_BYTES { return Err(Shape); }
    var encoded := "";
    for i := 0 to |bytes|
      invariant encoded + EscapeAll(bytes[i..]) == EscapeAll(bytes)
    {
      EscapeNext(bytes, i, encoded);
      if Unreserved(bytes[i]) {
        encoded := encoded + [bytes[i] as char];
      } else {
        encoded := encoded + ['%', UpperHex(bytes[i] / 16), UpperHex(bytes[i] % 16)];
      }
    }
    assert encoded + "" == encoded;
    return Ok(encoded);
  }

  lemma EscapeNext(bytes: Utf8.Bytes, i: nat, encoded: string)
    requires i < |bytes|
    ensures encoded + EscapeAll(bytes[i..]) == (encoded + Escape(bytes[i])) + EscapeAll(bytes[i + 1..])
  {
    assert bytes[i..][1..] == bytes[i + 1..];
  }

  function Tail(request: ReadRequest): Result<string, AcquisitionError> {
    match request
    case DaemonVersion => Ok("/version")
    case DaemonInfo => Ok("/info")
    case ListContainers => Ok("/containers/json?all=1")
    case InspectContainer(id) => var segment :- SegmentOf(id); Ok("/containers/" + segment + "/json")
    case ListNetworks => Ok("/networks")
    case InspectNetwork(id) => var segment :- SegmentOf(id); Ok("/networks/" + segment)
    case ListVolumes => Ok("/volumes")
    case InspectVolume(id) => var segment :- SegmentOf(id); Ok("/volumes/" + segment)
  }

  function PathOf(request: ReadRequest, api: Option<ApiVersion>): Result<string, AcquisitionError> {
    if request.DaemonVersion? then Tail(request)
    else if api.None? then Err(Version)
    else
      var tail :- Tail(request);
      Ok(Versioned(api.value, tail))
  }

  // ---- decoding ----

  function HexValue(c: char): Option<nat> { DigitValue(c as int, 16) }

  /** Percent-decoding, section 2.1 of RFC 3986. */
  function Unescape(s: string): Option<Utf8.Bytes> {
    if s == "" then Some([])
    else if s[0] != '%' then
      match Unescape(s[1..])
      case Some(rest) => if s[0] as int < 128 then Some([s[0] as int] + rest) else None
      case None => None
    else if |s| < 3 then None
    else match (HexValue(s[1]), HexValue(s[2]), Unescape(s[3..]))
      case (Some(high), Some(low), Some(rest)) => Some([16 * high + low] + rest)
      case _ => None
  }

  predicate SegmentChar(c: char) {
    '0' <= c <= '9' || 'A' <= c <= 'Z' || 'a' <= c <= 'z' || c == '-' || c == '.' || c == '_' || c == '~' || c == '%'
  }

  predicate SegmentText(s: string) {
    forall i :: 0 <= i < |s| ==> SegmentChar(s[i])
  }

  /** Percent-decoding inverts the printed segment byte for byte. */
  lemma {:induction false} UnescapeEscaped(bytes: Utf8.Bytes)
    ensures Unescape(EscapeAll(bytes)) == Some(bytes)
  {
    if bytes != [] {
      var b, rest := bytes[0], EscapeAll(bytes[1..]);
      var s := Escape(b) + rest;
      UnescapeEscaped(bytes[1..]);
      assert [b] + bytes[1..] == bytes;
      if Unreserved(b) {
        assert s[0] == b as char && s[1..] == rest;
      } else {
        assert s[0] == '%' && s[1] == UpperHex(b / 16) && s[2] == UpperHex(b % 16) && s[3..] == rest;
        assert b == 16 * (b / 16) + b % 16;
      }
    }
  }

  lemma {:induction false} EscapedIsSegmentText(bytes: Utf8.Bytes)
    ensures SegmentText(EscapeAll(bytes)) && (bytes != [] ==> EscapeAll(bytes) != "")
  {
    if bytes != [] {
      EscapedIsSegmentText(bytes[1..]);
    }
  }

  lemma SegmentsInjective(a: NativeId, b: NativeId)
    requires SegmentOf(a).Ok? && SegmentOf(a) == SegmentOf(b)
    ensures a == b
  {
    UnescapeEscaped(Encode(a));
    UnescapeEscaped(Encode(b));
    EncodeInjective(a, b);
  }

  lemma SegmentShape(id: NativeId)
    requires SegmentOf(id).Ok?
    ensures SegmentText(SegmentOf(id).value) && SegmentOf(id).value != ""
  {
    EscapedIsSegmentText(Encode(id));
  }

  // ---- injectivity ----

  /** A text is cut in only one way at the first occurrence of a character. */
  lemma CutOnce(c: char, a: string, x: string, b: string, y: string)
    requires (forall i :: 0 <= i < |a| ==> a[i] != c) && (forall i :: 0 <= i < |b| ==> b[i] != c)
    requires a + [c] + x == b + [c] + y
    ensures a == b && x == y
  {
    var s := a + [c] + x;
    assert s[|a|] == c && s[|b|] == c;
    assert forall i :: 0 <= i < |a| ==> s[i] == a[i];
    assert forall i :: 0 <= i < |b| ==> s[i] == b[i];
    assert |a| == |b|;
    assert (a + [c] + x)[..|a|] == a && (b + [c] + y)[..|b|] == b;
    assert (a + [c] + x)[|a| + 1..] == x && (b + [c] + y)[|b| + 1..] == y;
  }

  lemma TailStarts(request: ReadRequest)
    requires Tail(request).Ok?
    ensures Tail(request).value != "" && Tail(request).value[0] == '/'
  {
  }

  function Rank(request: ReadRequest): nat {
    match request
    case DaemonVersion => 0
    case DaemonInfo => 1
    case ListContainers => 2
    case InspectContainer(_) => 3
    case ListNetworks => 4
    case InspectNetwork(_) => 5
    case ListVolumes => 6
    case InspectVolume(_) => 7
  }

  /** The tail alone tells which kind of request it prints. */
  function Recognise(tail: string): nat {
    if tail == "/version" then 0
    else if tail == "/info" then 1
    else if tail == "/containers/json?all=1" then 2
    else if "/containers/" <= tail then 3
    else if tail == "/networks" then 4
    else if "/networks/" <= tail then 5
    else if tail == "/volumes" then 6
    else 7
  }

  lemma InspectionsRecognised(segment: string)
    ensures Recognise("/containers/" + segment + "/json") == 3
    ensures segment != "" ==> Recognise("/networks/" + segment) == 5 && Recognise("/volumes/" + segment) == 7
  {
    var container, network, volume := "/containers/" + segment + "/json", "/networks/" + segment, "/volumes/" + segment;
    assert container[|container| - 1] == 'n' && container[1] == 'c' && container[..12] == "/containers/";
    assert network[1] == 'n' && network[..10] == "/networks/" && network[9] == '/';
    assert volume[1] == 'v' && volume[2] == 'o' && volume[8] == '/';
  }

  lemma TailsRecognised(request: ReadRequest)
    requires Tail(request).Ok?
    ensures Recognise(Tail(request).value) == Rank(request)
  {
    if request.Inspected().Some? {
      SegmentShape(request.id);
      InspectionsRecognised(SegmentOf(request.id).value);
    }
  }

  lemma TailsInjective(r: ReadRequest, q: ReadRequest)
    requires Tail(r).Ok? && Tail(r) == Tail(q)
    ensures r == q
  {
    TailsRecognised(r);
    TailsRecognised(q);
    var tail := Tail(r).value;
    match r
    case InspectContainer(id) =>
      assert tail[12..|tail| - 5] == SegmentOf(id).value;
      assert tail[12..|tail| - 5] == SegmentOf(q.id).value;
      SegmentsInjective(id, q.id);
    case InspectNetwork(id) =>
      assert tail[10..] == SegmentOf(id).value;
      assert tail[10..] == SegmentOf(q.id).value;
      SegmentsInjective(id, q.id);
    case InspectVolume(id) =>
      assert tail[9..] == SegmentOf(id).value;
      assert tail[9..] == SegmentOf(q.id).value;
      SegmentsInjective(id, q.id);
    case _ =>
  }

  function Versioned(api: ApiVersion, tail: string): string {
    "/v" + Decimal(api.major) + "." + Decimal(api.minor) + tail
  }

  /** A version and a tail, as texts, are cut in only one way. */
  lemma VersionCut(p: string, q: string, x: string, r: string, s: string, y: string)
    requires (forall i :: 0 <= i < |p| ==> p[i] != '.') && (forall i :: 0 <= i < |r| ==> r[i] != '.')
    requires (forall i :: 0 <= i < |q| ==> q[i] != '/') && (forall i :: 0 <= i < |s| ==> s[i] != '/')
    requires "/v" + p + "." + q + (['/'] + x) == "/v" + r + "." + s + (['/'] + y)
    ensures p == r && q == s && x == y
  {
    var a, b := "/v" + p + "." + q + (['/'] + x), "/v" + r + "." + s + (['/'] + y);
    assert a[2..] == p + ['.'] + (q + ['/'] + x) && b[2..] == r + ['.'] + (s + ['/'] + y);
    CutOnce('.', p, q + ['/'] + x, r, s + ['/'] + y);
    CutOnce('/', q, x, s, y);
  }

  lemma VersionedInjective(a: ApiVersion, x: string, b: ApiVersion, y: string)
    requires x != "" && x[0] == '/' && y != "" && y[0] == '/'
    requires Versioned(a, x) == Versioned(b, y)
    ensures a == b && x == y
  {
    assert x == ['/'] + x[1..] && y == ['/'] + y[1..];
    VersionCut(Decimal(a.major), Decimal(a.minor), x[1..], Decimal(b.major), Decimal(b.minor), y[1..]);
    DecimalInjective(a.major, b.major);
    DecimalInjective(a.minor, b.minor);
  }

  lemma VersionedIsNotVersion(api: ApiVersion, tail: string)
    ensures Versioned(api, tail) != "/version"
  {
    assert Versioned(api, tail)[2] == Decimal(api.major)[0];
    assert "/version"[2] == 'e';
  }

  /** Distinct versioned requests print distinct paths; the version request alone ignores its API version. */
  lemma PathsInjective(r: ReadRequest, a: Option<ApiVersion>, q: ReadRequest, b: Option<ApiVersion>)
    requires PathOf(r, a).Ok? && PathOf(r, a) == PathOf(q, b)
    ensures r == q && (r.DaemonVersion? || a == b)
  {
    if !r.DaemonVersion? {
      VersionedIsNotVersion(a.value, Tail(r).value);
    }
    if !q.DaemonVersion? {
      VersionedIsNotVersion(b.value, Tail(q).value);
    }
    if !r.DaemonVersion? {
      TailStarts(r);
      TailStarts(q);
      VersionedInjective(a.value, Tail(r).value, b.value, Tail(q).value);
      TailsInjective(r, q);
    }
  }

  predicate PathChar(c: char) {
    SegmentChar(c) || c == '/' || c == '?' || c == '='
  }

  predicate PathText(s: string) {
    forall i :: 0 <= i < |s| ==> PathChar(s[i])
  }

  lemma FixedTexts()
    ensures PathText("/version") && PathText("/info") && PathText("/containers/json?all=1")
    ensures PathText("/containers/") && PathText("/json") && PathText("/networks/") && PathText("/volumes/")
    ensures PathText("/networks") && PathText("/volumes")
  {
  }

  lemma PathTexts(a: string, b: string)
    requires PathText(a) && PathText(b)
    ensures PathText(a + b)
  {
  }

  lemma TailIsPathText(request: ReadRequest)
    requires Tail(request).Ok?
    ensures PathText(Tail(request).value)
  {
    FixedTexts();
    if request.Inspected().Some? {
      var segment := SegmentOf(request.id).value;
      SegmentShape(request.id);
      PathTexts("/containers/", segment);
      PathTexts("/containers/" + segment, "/json");
      PathTexts("/networks/", segment);
      PathTexts("/volumes/", segment);
    }
  }

  /** No path holds a space, a carriage return or a line feed, so none can break out of the request line. */
  lemma PathsStayOnTheRequestLine(request: ReadRequest, api: Option<ApiVersion>)
    requires PathOf(request, api).Ok?
    ensures PathText(PathOf(request, api).value)
    ensures ' ' !in PathOf(request, api).value && '\r' !in PathOf(request, api).value && '\n' !in PathOf(request, api).value
  {
    TailIsPathText(request);
    if !request.DaemonVersion? {
      assert PathText(Decimal(api.value.major)) && PathText(Decimal(api.value.minor));
    }
  }
}
