/** What one GET hands over when the daemon prints a well-formed response: its payload, or the refusal of its size. */
module Delivery {
  import opened Outcome
  import opened Utf8
  import opened Protocol
  import opened Sequences
  import opened Framing
  import opened Response
  import opened Wire

  /** A response as a daemon prints it: delimited by its length, or cut into chunks without trailers. */
  datatype Printed =
    | ByLength(head: ResponseHead, payload: Utf8.Bytes)
    | ByChunks(head: ResponseHead, chunks: seq<DataChunk>, last: DataChunk)
  {
    function Content(): Utf8.Bytes {
      if ByLength? then payload else Response.Payload(chunks)
    }

    function Printing(): Utf8.Bytes {
      if ByLength? then head.Bytes() + payload
      else head.Bytes() + (PrintChunks(chunks) + (last.Line() + CRLF + (CRLF + [])))
    }

    predicate WellFormed(status: nat, machine: nat) {
      && head.WellFormed(status)
      && if ByLength? then DeclaresLength(head.delimiter, |payload|, machine)
         else DeclaresChunks(head.delimiter) && PrintableChunks(chunks, machine) && last.WellFormed(machine) && last.data == []
    }

    /** Its content when the allowance covers it, and otherwise the byte limit. */
    function Outcome(status: nat, allowance: nat): Result<(nat, Utf8.Bytes), AcquisitionError> {
      if |Content()| <= allowance then Ok((status, Content())) else Err(AcquisitionError.Budget(LimitError.Bytes))
    }
  }

  lemma ChunkRefused(c: DataChunk, tail: Utf8.Bytes, ended: AcquisitionError, room: nat, machine: nat)
    requires c.WellFormed(machine) && |c.data| > room
    ensures NextChunk(room, c.Line() + CRLF + tail, ended, machine) == Err(AcquisitionError.Budget(LimitError.Bytes))
  {
    LineTaken(c.Line(), tail, ended, CHUNK_LINE_BYTES);
    SizeEnds(c.size, c.extension);
  }

  lemma FirstRefused(body: Utf8.Bytes, chunks: seq<DataChunk>, ending: Utf8.Bytes, ended: AcquisitionError, allowance: nat, machine: nat)
    requires chunks != [] && chunks[0].WellFormed(machine) && |body| <= allowance < |body| + |chunks[0].data|
    ensures TakeChunks(body, PrintChunks(chunks) + ending, ended, allowance, machine) == Err(AcquisitionError.Budget(LimitError.Bytes))
  {
    PrintedFirst(chunks, ending);
    ChunkRefused(chunks[0], chunks[0].data + CRLF + (PrintChunks(chunks[1..]) + ending), ended, allowance - |body|, machine);
  }

  /** Chunks that together exceed the allowance are refused at the first one that no longer fits. */
  lemma {:induction false} ChunksRefused(
      body: Utf8.Bytes, chunks: seq<DataChunk>, ending: Utf8.Bytes, ended: AcquisitionError, allowance: nat, machine: nat)
    requires PrintableChunks(chunks, machine) && |body| <= allowance < |body| + |Response.Payload(chunks)|
    ensures TakeChunks(body, PrintChunks(chunks) + ending, ended, allowance, machine) == Err(AcquisitionError.Budget(LimitError.Bytes))
    decreases chunks
  {
    PayloadParts(body, chunks);
    if |body| + |chunks[0].data| > allowance {
      FirstRefused(body, chunks, ending, ended, allowance, machine);
    } else {
      FirstTaken(body, chunks, ending, ended, allowance, machine);
      ChunksRefused(body + chunks[0].data, chunks[1..], ending, ended, allowance, machine);
    }
  }

  lemma LengthFrames(p: Printed, status: nat, rest: Utf8.Bytes, ended: AcquisitionError, allowance: nat, machine: nat)
    requires p.ByLength? && p.WellFormed(status, machine)
    ensures Frame(p.head.Bytes() + (p.payload + rest), ended, allowance, machine) == p.Outcome(status, allowance)
  {
    if |p.payload| <= allowance {
      LengthRoundTrip(p.head, status, p.payload, rest, ended, allowance, machine);
    } else {
      LengthDeclared(p.head.delimiter, |p.payload|, machine);
      BodyFollows(p.head, status, Delimiting(Some(|p.payload|), false), p.payload + rest, ended, allowance, machine);
    }
  }

  lemma ChunkedFrames(p: Printed, status: nat, rest: Utf8.Bytes, ended: AcquisitionError, allowance: nat, machine: nat)
    requires p.ByChunks? && p.WellFormed(status, machine)
    ensures Frame(p.head.Bytes() + (PrintChunks(p.chunks) + (p.last.Line() + CRLF + (CRLF + rest))), ended, allowance, machine)
         == p.Outcome(status, allowance)
  {
    if |p.Content()| <= allowance {
      ChunkedRoundTrip(p.head, status, p.chunks, p.last, rest, ended, allowance, machine);
    } else {
      var ending := p.last.Line() + CRLF + (CRLF + rest);
      ChunksDeclared(p.head.delimiter, machine);
      BodyFollows(p.head, status, Delimiting(None, true), PrintChunks(p.chunks) + ending, ended, allowance, machine);
      ChunksRefused([], p.chunks, ending, ended, allowance, machine);
    }
  }

  lemma ChunksRegrouped(head: Utf8.Bytes, chunks: Utf8.Bytes, last: Utf8.Bytes, rest: Utf8.Bytes)
    ensures head + (chunks + (last + (CRLF + []))) + rest == head + (chunks + (last + (CRLF + rest)))
  {
    Regrouped(head, chunks + (last + (CRLF + [])), rest);
    Regrouped(chunks, last + (CRLF + []), rest);
    Regrouped(last, CRLF + [], rest);
    Regrouped(CRLF, [], rest);
    assert [] + rest == rest;
  }

  /** Whatever follows a printed response on the wire, and however the stream then ends, it means its content or the byte limit. */
  lemma PrintedFrames(p: Printed, status: nat, s: Utf8.Bytes, ended: AcquisitionError, allowance: nat, machine: nat)
    requires p.WellFormed(status, machine) && p.Printing() <= s
    ensures Frame(s, ended, allowance, machine) == p.Outcome(status, allowance)
  {
    var rest := s[|p.Printing()|..];
    assert s == p.Printing() + rest;
    match p {
      case ByLength(head, payload) =>
        Regrouped(head.Bytes(), payload, rest);
        LengthFrames(p, status, rest, ended, allowance, machine);
      case ByChunks(head, chunks, last) =>
        ChunksRegrouped(head.Bytes(), PrintChunks(chunks), last.Line() + CRLF, rest);
        ChunkedFrames(p, status, rest, ended, allowance, machine);
    }
  }

  /** One GET to a daemon that prints a response: whole reads or single bytes, polls between them,
    * bytes or a break behind it, all the same. */
  method Get(arrivals: seq<Arrival>, departures: seq<Departure>, path: string, allowance: nat, machine: nat,
             ghost p: Printed, ghost status: nat)
    returns (sent: Utf8.Bytes, r: Result<(nat, Utf8.Bytes), AcquisitionError>)
    requires p.WellFormed(status, machine) && p.Printing() <= Stream(arrivals)
    ensures sent <= Encode(RequestText(path))
    ensures sent == Encode(RequestText(path)) ==> r == p.Outcome(status, allowance)
    ensures sent != Encode(RequestText(path)) ==> r.Err? && Transport(r.error)
  {
    var connection := new Connection(arrivals, departures);
    r := connection.HttpGet(path, allowance, machine);
    sent := connection.sent;
    PrintedFrames(p, status, Stream(arrivals), End(arrivals), allowance, machine);
  }
}
