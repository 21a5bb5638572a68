/** The bounded transport: one request out and one response in, over a socket that splits bytes as it likes. */
module Wire {
  import opened Outcome
  import opened Utf8
  import opened Protocol
  import opened Sequences
  import opened Framing

  predicate Transport(e: AcquisitionError) {
    e == Cancelled || e == Deadline || e == Io
  }

  type TransportError = e: AcquisitionError | Transport(e) witness Io

  /** One socket read: bytes, an empty poll, or a failure that ends the connection. */
  datatype Arrival = Data(bytes: Utf8.Bytes) | Poll | Broken(error: TransportError)

  /** One socket write: how many bytes it takes, an empty poll, or a failure. */
  datatype Departure = Accept(count: nat) | Retry | Refused(error: TransportError)

  /** The bytes that arrive before the stream ends or breaks. */
  function Stream(arrivals: seq<Arrival>): Utf8.Bytes {
    if arrivals == [] then []
    else match arrivals[0]
      case Data(bytes) => bytes + Stream(arrivals[1..])
      case Poll => Stream(arrivals[1..])
      case Broken(_) => []
  }

  /** How reading fails once the bytes have run out: what broke the stream, or a protocol error at an orderly end. */
  function End(arrivals: seq<Arrival>): AcquisitionError {
    if arrivals == [] then AcquisitionError.Protocol
    else if arrivals[0].Broken? then arrivals[0].error
    else End(arrivals[1..])
  }

  lemma {:induction false} EndsSomehow(arrivals: seq<Arrival>)
    ensures End(arrivals) == AcquisitionError.Protocol || Transport(End(arrivals))
  {
    if arrivals != [] && !arrivals[0].Broken? {
      EndsSomehow(arrivals[1..]);
    }
  }

  /** The socket takes so many bytes in the end. */
  predicate Takes(departures: seq<Departure>, n: nat) {
    n == 0 ||
    (departures != [] &&
     match departures[0]
     case Refused(_) => false
     case Retry => Takes(departures[1..], n)
     case Accept(count) => count > 0 && Takes(departures[1..], if count <= n then n - count else 0))
  }

  const HEADERS := "Host: docker\r\n" + "Accept: application/json\r\n" + "Connection: close\r\n\r\n"

  function RequestText(path: string): string {
    "GET " + path + " HTTP/1.1\r\n" + HEADERS
  }

  /** Headers, payload, one framed line per payload byte and one for the last chunk, and a trailer. */
  function WireLimit(allowance: nat): nat {
    MAX_HEADER_BYTES + allowance + (allowance + 1) * (64 + 2) + MAX_HEADER_BYTES
  }

  class Connection {
    var arrivals: seq<Arrival>
    var departures: seq<Departure>
    var sent: Utf8.Bytes
    var consumed: nat

    constructor (arrivals: seq<Arrival>, departures: seq<Departure>)
      ensures this.arrivals == arrivals && this.departures == departures
      ensures sent == [] && consumed == 0
    {
      this.arrivals, this.departures, sent, consumed := arrivals, departures, [], 0;
    }

    /** Reads at least one byte while there is one; then it comes back empty at an orderly end, and fails at a break. */
    method Read(count: nat) returns (r: Result<Utf8.Bytes, AcquisitionError>)
      requires count > 0
      modifies this`arrivals, this`consumed
      ensures End(arrivals) == End(old(arrivals))
      ensures r.Ok? ==>
        && Stream(old(arrivals)) == r.value + Stream(arrivals)
        && |r.value| <= count
        && consumed == old(consumed) + |r.value|
        && (r.value == [] ==> Stream(arrivals) == [] && End(arrivals) == AcquisitionError.Protocol)
      ensures r.Err? ==> Transport(r.error) && Stream(old(arrivals)) == [] && r.error == End(old(arrivals)) && consumed == old(consumed)
    {
      while arrivals != []
        invariant consumed == old(consumed)
        invariant Stream(arrivals) == Stream(old(arrivals)) && End(arrivals) == End(old(arrivals))
        decreases |arrivals|
      {
        var first := arrivals[0];
        if first.Broken? {
          return Err(first.error);
        }
        if first.Data? && first.bytes != [] {
          var taken := Budgeted(first.bytes, count);
          var kept := first.bytes[|taken|..];
          assert first.bytes == taken + kept;
          arrivals := [Data(kept)] + arrivals[1..];
          assert Stream(arrivals) == kept + Stream(arrivals[1..]);
          consumed := consumed + |taken|;
          return Ok(taken);
        }
        arrivals := arrivals[1..];
      }
      return Ok([]);
    }

    static function Budgeted(bytes: Utf8.Bytes, count: nat): Utf8.Bytes {
      if |bytes| <= count then bytes else bytes[..count]
    }

    /** Everything is sent, in order, or a prefix of it is and the error says so. */
    method WriteAll(bytes: Utf8.Bytes) returns (error: Option<AcquisitionError>)
      modifies this`departures, this`sent
      ensures error.None? ==> sent == old(sent) + bytes
      ensures error.None? <==> Takes(old(departures), |bytes|)
      ensures error.Some? ==> Transport(error.value) && exists n :: 0 <= n < |bytes| && sent == old(sent) + bytes[..n]
    {
      var done := 0;
      assert sent == old(sent) + bytes[..done];
      while done < |bytes|
        invariant 0 <= done <= |bytes| && sent == old(sent) + bytes[..done]
        invariant Takes(old(departures), |bytes|) <==> Takes(departures, |bytes| - done)
        decreases |departures|, |bytes| - done
      {
        if departures == [] {
          return Some(Io);
        }
        var first := departures[0];
        departures := departures[1..];
        match first
        case Refused(e) => return Some(e);
        case Retry =>
        case Accept(0) => return Some(Io);
        case Accept(count) =>
          var amount := if count <= |bytes| - done then count else |bytes| - done;
          sent := sent + bytes[done..done + amount];
          assert bytes[..done] + bytes[done..done + amount] == bytes[..done + amount];
          done := done + amount;
      }
      assert bytes[..done] == bytes;
      return None;
    }

    method Next() returns (r: Result<Byte, AcquisitionError>)
      modifies this`arrivals, this`consumed
      ensures old(consumed) <= consumed <= old(consumed) + 1
      ensures End(arrivals) == End(old(arrivals))
      ensures r.Ok? ==> Stream(old(arrivals)) == [r.value] + Stream(arrivals) && consumed == old(consumed) + 1
      ensures r.Err? ==> Stream(old(arrivals)) == [] && r.error == End(old(arrivals))
    {
      var read := Read(1);
      if read.Err? { return Err(read.error); }
      if |read.value| != 1 { return Err(AcquisitionError.Protocol); }
      return Ok(read.value[0]);
    }

    method Until(mark: Utf8.Bytes, cap: nat) returns (r: Result<Utf8.Bytes, AcquisitionError>)
      requires mark != []
      modifies this`arrivals, this`consumed
      ensures old(consumed) <= consumed <= old(consumed) + cap
      ensures End(arrivals) == End(old(arrivals))
      ensures TakeUntil([], Stream(old(arrivals)), End(old(arrivals)), mark, cap)
           == if r.Ok? then Ok((r.value, Stream(arrivals))) else Err(r.error)
    {
      var taken: Utf8.Bytes := [];
      while |taken| < cap
        invariant |taken| <= cap && consumed == old(consumed) + |taken|
        invariant TakeUntil([], Stream(old(arrivals)), End(old(arrivals)), mark, cap)
               == TakeUntil(taken, Stream(arrivals), End(arrivals), mark, cap)
        invariant End(arrivals) == End(old(arrivals))
      {
        ghost var before := Stream(arrivals);
        var next := Next();
        if next.Err? { return Err(next.error); }
        assert before[0] == next.value && before[1..] == Stream(arrivals);
        taken := taken + [next.value];
        if EndsWith(taken, mark) {
          return Ok(taken);
        }
      }
      return Err(AcquisitionError.Protocol);
    }

    method Line(cap: nat) returns (r: Result<Utf8.Bytes, AcquisitionError>)
      modifies this`arrivals, this`consumed
      ensures old(consumed) <= consumed <= old(consumed) + cap
      ensures End(arrivals) == End(old(arrivals))
      ensures TakeLine(Stream(old(arrivals)), End(old(arrivals)), cap)
           == if r.Ok? then Ok((r.value, Stream(arrivals))) else Err(r.error)
    {
      var found := Until(CRLF, cap);
      if found.Err? { return Err(found.error); }
      return Ok(found.value[..|found.value| - 2]);
    }

    /** Reads exactly `count` bytes, through a buffer of 8192. */
    method Exact(count: nat) returns (r: Result<Utf8.Bytes, AcquisitionError>)
      modifies this`arrivals, this`consumed
      ensures old(consumed) <= consumed <= old(consumed) + count
      ensures r.Ok? ==>
        && |r.value| == count
        && Stream(old(arrivals)) == r.value + Stream(arrivals)
      ensures r.Err? ==> |Stream(old(arrivals))| < count && r.error == End(old(arrivals))
      ensures End(arrivals) == End(old(arrivals))
    {
      var out: Utf8.Bytes := [];
      while |out| < count
        invariant |out| <= count && consumed == old(consumed) + |out|
        invariant Stream(old(arrivals)) == out + Stream(arrivals)
        invariant End(arrivals) == End(old(arrivals))
        decreases count - |out|
      {
        var left := count - |out|;
        var read := Read(if left < 8192 then left else 8192);
        if read.Err? { return Err(read.error); }
        if read.value == [] { return Err(AcquisitionError.Protocol); }
        Regrouped(out, read.value, Stream(arrivals));
        out := out + read.value;
      }
      return Ok(out);
    }

    /** The data of one chunk and the line end that must follow it. */
    method Payload(size: nat) returns (r: Result<Utf8.Bytes, AcquisitionError>)
      modifies this`arrivals, this`consumed
      ensures old(consumed) <= consumed <= old(consumed) + size + 2
      ensures End(arrivals) == End(old(arrivals))
      ensures TakePayload(size, Stream(old(arrivals)), End(old(arrivals)))
           == if r.Ok? then Ok(More(r.value, Stream(arrivals))) else Err(r.error)
    {
      ghost var rest := Stream(arrivals);
      var data := Exact(size);
      if data.Err? { return Err(data.error); }
      ghost var tail := Stream(arrivals);
      assert rest[..size] == data.value && rest[size..] == tail;
      var carriage := Next();
      if carriage.Err? { return Err(carriage.error); }
      if carriage.value != 13 {
        assert rest[size] == carriage.value;
        return Err(AcquisitionError.Protocol);
      }
      assert tail[0] == 13 && tail[1..] == Stream(arrivals);
      var feed := Next();
      if feed.Err? { return Err(feed.error); }
      if feed.value != 10 {
        assert rest[size + 1] == feed.value;
        return Err(AcquisitionError.Protocol);
      }
      assert rest[size..size + 2] == CRLF && rest[size + 2..] == Stream(arrivals);
      return data;
    }

    /** One chunk; `Ok(None)` after the last one. */
    method OneChunk(room: nat, machine: nat) returns (r: Result<Option<Utf8.Bytes>, AcquisitionError>)
      modifies this`arrivals, this`consumed
      ensures End(arrivals) == End(old(arrivals))
      ensures NextChunk(room, Stream(old(arrivals)), End(old(arrivals)), machine)
           == match r
              case Err(e) => Err(e)
              case Ok(None) => Ok(Last)
              case Ok(Some(data)) => Ok(More(data, Stream(arrivals)))
      ensures r.Ok? && r.value.Some? ==> consumed <= old(consumed) + |r.value.value| + 66
      ensures old(consumed) <= consumed <= old(consumed) + room + 66 + MAX_HEADER_BYTES
    {
      var line := Line(CHUNK_LINE_BYTES);
      if line.Err? { return Err(line.error); }
      var size := ChunkSize(line.value, machine);
      if size.None? { return Err(AcquisitionError.Protocol); }
      if size.value == 0 {
        var trailer := Line(MAX_HEADER_BYTES);
        if trailer.Err? { return Err(trailer.error); }
        if trailer.value != [] { return Err(AcquisitionError.Protocol); }
        return Ok(None);
      }
      if size.value > room {
        return Err(AcquisitionError.Budget(LimitError.Bytes));
      }
      var data := Payload(size.value);
      if data.Err? { return Err(data.error); }
      return Ok(Some(data.value));
    }

    /** The room left shrinks with every chunk, so the loop ends within the allowance. */
    method Chunks(allowance: nat, machine: nat) returns (r: Result<Utf8.Bytes, AcquisitionError>)
      modifies this`arrivals, this`consumed
      ensures old(consumed) <= consumed
      ensures consumed <= old(consumed) + allowance + (allowance + 1) * (64 + 2) + MAX_HEADER_BYTES
      ensures r == TakeChunks([], Stream(old(arrivals)), End(old(arrivals)), allowance, machine)
    {
      var body: Utf8.Bytes := [];
      while true
        invariant |body| <= allowance
        invariant TakeChunks([], Stream(old(arrivals)), End(old(arrivals)), allowance, machine)
               == TakeChunks(body, Stream(arrivals), End(arrivals), allowance, machine)
        invariant End(arrivals) == End(old(arrivals))
        invariant old(consumed) <= consumed <= old(consumed) + |body| + 66 * |body|
        decreases allowance - |body|
      {
        var next := OneChunk(allowance - |body|, machine);
        if next.Err? { return Err(next.error); }
        if next.value.None? { return Ok(body); }
        body := body + next.value.value;
      }
    }

    /** One GET: the result is a function of the bytes that arrive and of how the stream then ends, however the socket splits them. */
    method HttpGet(path: string, allowance: nat, machine: nat) returns (r: Result<(nat, Utf8.Bytes), AcquisitionError>)
      requires sent == []
      modifies this
      ensures consumed <= old(consumed) + WireLimit(allowance)
      ensures sent <= Encode(RequestText(path))
      ensures sent == Encode(RequestText(path)) ==> r == Frame(Stream(old(arrivals)), End(old(arrivals)), allowance, machine)
      ensures sent != Encode(RequestText(path)) ==> r.Err? && Transport(r.error)
      ensures sent == Encode(RequestText(path)) <==> Takes(old(departures), |Encode(RequestText(path))|)
    {
      var failed := WriteAll(Encode(RequestText(path)));
      if failed.Some? { return Err(failed.value); }
      r := Receive(allowance, machine);
    }

    method Receive(allowance: nat, machine: nat) returns (r: Result<(nat, Utf8.Bytes), AcquisitionError>)
      modifies this`arrivals, this`consumed
      ensures consumed <= old(consumed) + WireLimit(allowance)
      ensures r == Frame(Stream(old(arrivals)), End(old(arrivals)), allowance, machine)
    {
      var headers := Until(BLANK_LINE, MAX_HEADER_BYTES);
      if headers.Err? { return Err(headers.error); }
      var head := HeadOf(headers.value, machine);
      if head.None? { return Err(AcquisitionError.Protocol); }
      var body := Body(head.value.delimiting, allowance, machine);
      if body.Err? { return Err(body.error); }
      return Ok((head.value.status, body.value));
    }

    /** The body, as its head delimits it. */
    method Body(d: Delimiting, allowance: nat, machine: nat) returns (r: Result<Utf8.Bytes, AcquisitionError>)
      requires d.chunked != d.length.Some?
      modifies this`arrivals, this`consumed
      ensures consumed <= old(consumed) + allowance + (allowance + 1) * (64 + 2) + MAX_HEADER_BYTES
      ensures r == TakeBody(d, Stream(old(arrivals)), End(old(arrivals)), allowance, machine)
    {
      if d.chunked {
        r := Chunks(allowance, machine);
        return;
      }
      if d.length.value > allowance {
        return Err(AcquisitionError.Budget(LimitError.Bytes));
      }
      ghost var rest := Stream(arrivals);
      r := Exact(d.length.value);
      if r.Ok? {
        assert rest[..d.length.value] == r.value;
      }
    }
  }
}
