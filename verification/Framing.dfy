/** What the bytes of one HTTP response mean, independently of how a socket delivers them. */
module Framing {
  import opened Outcome
  import opened Utf8
  import opened Protocol
  import opened Numerals

  const MAX_HEADER_BYTES := 16 * 1024
  const CHUNK_LINE_BYTES := 64
  const CRLF: Utf8.Bytes := [13, 10]
  const BLANK_LINE: Utf8.Bytes := [13, 10, 13, 10]

  // ---- the head ----

  function FindCrlf(s: string): (r: Option<nat>)
    ensures r.Some? ==> r.value + 2 <= |s|
  {
    if |s| < 2 then None
    else if s[0] == '\r' && s[1] == '\n' then Some(0)
    else match FindCrlf(s[1..])
      case None => None
      case Some(i) => Some(i + 1)
  }

  function SplitLines(s: string): seq<string>
    decreases |s|
  {
    match FindCrlf(s)
    case None => [s]
    case Some(i) => [s[..i]] + SplitLines(s[i + 2..])
  }

  predicate AsciiSpace(c: char) {
    c == ' ' || c == '\t' || c == '\n' || c == '\r' || c as int == 12
  }

  /** The characters with the Unicode White_Space property. */
  predicate UnicodeSpace(c: char) {
    var n := c as int;
    9 <= n <= 13 || n == 0x20 || n == 0x85 || n == 0xA0 || n == 0x1680 || 0x2000 <= n <= 0x200A
    || n == 0x2028 || n == 0x2029 || n == 0x202F || n == 0x205F || n == 0x3000
  }

  function Trim(s: string): string {
    if s == "" then ""
    else if UnicodeSpace(s[0]) then Trim(s[1..])
    else if UnicodeSpace(s[|s| - 1]) then Trim(s[..|s| - 1])
    else s
  }

  /** The length of the leading run of non-space characters. */
  function WordLength(s: string): (n: nat)
    ensures n <= |s|
  {
    if s == "" || AsciiSpace(s[0]) then 0 else 1 + WordLength(s[1..])
  }

  /** The next word and what follows it; no word when only spaces are left. */
  function NextWord(s: string): Option<(string, string)> {
    if s == "" then None
    else if AsciiSpace(s[0]) then NextWord(s[1..])
    else Some((s[..WordLength(s)], s[WordLength(s)..]))
  }

  function StatusOf(line: string): Option<nat> {
    match NextWord(line)
    case None => None
    case Some(version) =>
      if version.0 != "HTTP/1.1" && version.0 != "HTTP/1.0" then None
      else match NextWord(version.1)
        case None => None
        case Some(code) =>
          match ParseUnsigned(Codes(code.0), 10, 0xFFFF)
          case None => None
          case Some(status) => if 100 <= status <= 599 then Some(status) else None
  }

  function Lower(c: char): char {
    if 'A' <= c <= 'Z' then (c as int + 32) as char else c
  }

  predicate SameIgnoringCase(a: string, b: string) {
    |a| == |b| && forall i :: 0 <= i < |a| ==> Lower(a[i]) == Lower(b[i])
  }

  function IndexOf(s: string, c: char): (r: Option<nat>)
    ensures r.Some? ==> r.value < |s|
  {
    if s == "" then None
    else if s[0] == c then Some(0)
    else match IndexOf(s[1..], c)
      case None => None
      case Some(i) => Some(i + 1)
  }

  datatype Delimiting = Delimiting(length: Option<nat>, chunked: bool)

  function Field(d: Delimiting, line: string, machine: nat): Option<Delimiting> {
    if line == "" then Some(d)
    else match IndexOf(line, ':')
      case None => None
      case Some(colon) =>
        var name, value := line[..colon], Trim(line[colon + 1..]);
        if SameIgnoringCase(name, "content-length") then
          var length := ParseUnsigned(Codes(value), 10, machine);
          if d.length.Some? || length.None? then None else Some(d.(length := length))
        else if SameIgnoringCase(name, "transfer-encoding") then
          if d.chunked || !SameIgnoringCase(value, "chunked") then None else Some(d.(chunked := true))
        else if SameIgnoringCase(name, "content-encoding") && !SameIgnoringCase(value, "identity") then None
        else Some(d)
  }

  function Fields(lines: seq<string>, machine: nat): Option<Delimiting> {
    if lines == [] then Some(Delimiting(None, false))
    else
      var last := |lines| - 1;
      match Fields(lines[..last], machine)
      case None => None
      case Some(d) => Field(d, lines[last], machine)
  }

  datatype Head = Head(status: nat, delimiting: Delimiting)

  /** Exactly one of a content length and chunked transfer must delimit the body. */
  function ParseHead(text: string, machine: nat): Option<Head> {
    var lines := SplitLines(text);
    match (StatusOf(lines[0]), Fields(lines[1..], machine))
    case (Some(status), Some(d)) => if d.chunked == d.length.Some? then None else Some(Head(status, d))
    case _ => None
  }

  // ---- the body ----

  predicate EndsWith(s: Utf8.Bytes, mark: Utf8.Bytes) {
    |mark| <= |s| && s[|s| - |mark|..] == mark
  }

  // Where the bytes run out, reading fails with `ended`: a protocol error at an orderly end, and otherwise what broke the stream.

  /** Move bytes from `s` onto `taken` until it ends with `mark`, within the cap. */
  function TakeUntil(taken: Utf8.Bytes, s: Utf8.Bytes, ended: AcquisitionError, mark: Utf8.Bytes, cap: nat):
    (r: Result<(Utf8.Bytes, Utf8.Bytes), AcquisitionError>)
    ensures r.Ok? ==> |r.value.1| < |s| && |mark| <= |r.value.0|
    decreases s
  {
    if |taken| >= cap then Err(AcquisitionError.Protocol)
    else if s == [] then Err(ended)
    else
      var next := taken + [s[0]];
      if EndsWith(next, mark) then Ok((next, s[1..])) else TakeUntil(next, s[1..], ended, mark, cap)
  }

  function TakeLine(s: Utf8.Bytes, ended: AcquisitionError, cap: nat): (r: Result<(Utf8.Bytes, Utf8.Bytes), AcquisitionError>)
    ensures r.Ok? ==> |r.value.1| < |s|
  {
    match TakeUntil([], s, ended, CRLF, cap)
    case Err(e) => Err(e)
    case Ok(found) => Ok((found.0[..|found.0| - 2], found.1))
  }

  function BeforeSemicolon(line: Utf8.Bytes): Utf8.Bytes {
    if line == [] || line[0] == 59 then [] else [line[0]] + BeforeSemicolon(line[1..])
  }

  function ChunkSize(line: Utf8.Bytes, machine: nat): Option<nat> {
    ParseUnsigned(BeforeSemicolon(line), 16, machine)
  }

  datatype Chunk = Last | More(data: Utf8.Bytes, rest: Utf8.Bytes)

  /** The data of a chunk and the line end that must follow it. */
  function TakePayload(size: nat, s: Utf8.Bytes, ended: AcquisitionError): (r: Result<Chunk, AcquisitionError>)
    ensures r.Ok? ==> size + 2 <= |s| && r.value.More? && r.value.data == s[..size] && r.value.rest == s[size + 2..]
  {
    if |s| <= size then Err(ended)
    else if s[size] != 13 then Err(AcquisitionError.Protocol)
    else if |s| == size + 1 then Err(ended)
    else if s[size + 1] != 10 then Err(AcquisitionError.Protocol)
    else Ok(More(s[..size], s[size + 2..]))
  }

  /** The next chunk of a body with `room` bytes left to spend; the last one carries no data and an empty trailer. */
  function NextChunk(room: int, s: Utf8.Bytes, ended: AcquisitionError, machine: nat): (r: Result<Chunk, AcquisitionError>)
    ensures r.Ok? && r.value.More? ==> |r.value.rest| < |s| && 0 < |r.value.data| <= room
  {
    match TakeLine(s, ended, CHUNK_LINE_BYTES)
    case Err(e) => Err(e)
    case Ok((line, rest)) =>
      match ChunkSize(line, machine)
      case None => Err(AcquisitionError.Protocol)
      case Some(size) =>
        if size == 0 then
          match TakeLine(rest, ended, MAX_HEADER_BYTES)
          case Err(e) => Err(e)
          case Ok((trailer, _)) => if trailer != [] then Err(AcquisitionError.Protocol) else Ok(Last)
        else if size > room then Err(AcquisitionError.Budget(LimitError.Bytes))
        else TakePayload(size, rest, ended)
  }

  function TakeChunks(body: Utf8.Bytes, s: Utf8.Bytes, ended: AcquisitionError, allowance: nat, machine: nat):
    Result<Utf8.Bytes, AcquisitionError>
    decreases |s|
  {
    match NextChunk(allowance - |body|, s, ended, machine)
    case Err(e) => Err(e)
    case Ok(Last) => Ok(body)
    case Ok(More(data, rest)) => TakeChunks(body + data, rest, ended, allowance, machine)
  }

  function TakeBody(d: Delimiting, s: Utf8.Bytes, ended: AcquisitionError, allowance: nat, machine: nat):
    Result<Utf8.Bytes, AcquisitionError>
    requires d.chunked != d.length.Some?
  {
    if d.chunked then TakeChunks([], s, ended, allowance, machine)
    else if d.length.value > allowance then Err(AcquisitionError.Budget(LimitError.Bytes))
    else if |s| < d.length.value then Err(ended)
    else Ok(s[..d.length.value])
  }

  function HeadOf(bytes: Utf8.Bytes, machine: nat): Option<Head> {
    match Decode(bytes)
    case None => None
    case Some(text) => ParseHead(text, machine)
  }

  /** The meaning of a whole response stream under a byte allowance. */
  function Frame(s: Utf8.Bytes, ended: AcquisitionError, allowance: nat, machine: nat): Result<(nat, Utf8.Bytes), AcquisitionError> {
    match TakeUntil([], s, ended, BLANK_LINE, MAX_HEADER_BYTES)
    case Err(e) => Err(e)
    case Ok((head, rest)) =>
      match HeadOf(head, machine)
      case None => Err(AcquisitionError.Protocol)
      case Some(parsed) =>
        match TakeBody(parsed.delimiting, rest, ended, allowance, machine)
        case Err(e) => Err(e)
        case Ok(body) => Ok((parsed.status, body))
  }

  /** No response yields more than its allowance, whatever it declares. */
  lemma FrameBounded(s: Utf8.Bytes, ended: AcquisitionError, allowance: nat, machine: nat)
    requires Frame(s, ended, allowance, machine).Ok?
    ensures |Frame(s, ended, allowance, machine).value.1| <= allowance
    ensures 100 <= Frame(s, ended, allowance, machine).value.0 <= 599
  {
    var found := TakeUntil([], s, ended, BLANK_LINE, MAX_HEADER_BYTES).value;
    if HeadOf(found.0, machine).value.delimiting.chunked {
      ChunksBounded([], found.1, ended, allowance, machine);
    }
  }

  lemma {:induction false} ChunksBounded(body: Utf8.Bytes, s: Utf8.Bytes, ended: AcquisitionError, allowance: nat, machine: nat)
    requires |body| <= allowance && TakeChunks(body, s, ended, allowance, machine).Ok?
    ensures |TakeChunks(body, s, ended, allowance, machine).value| <= allowance
    decreases |s|
  {
    var next := NextChunk(allowance - |body|, s, ended, machine).value;
    if next.More? {
      ChunksBounded(body + next.data, next.rest, ended, allowance, machine);
    }
  }

  lemma {:induction false} UntilFails(taken: Utf8.Bytes, s: Utf8.Bytes, ended: AcquisitionError, mark: Utf8.Bytes, cap: nat)
    requires TakeUntil(taken, s, ended, mark, cap).Err?
    ensures TakeUntil(taken, s, ended, mark, cap).error in {AcquisitionError.Protocol, ended}
    decreases s
  {
    if |taken| < cap && s != [] {
      UntilFails(taken + [s[0]], s[1..], ended, mark, cap);
    }
  }

  lemma ChunkFails(room: int, s: Utf8.Bytes, ended: AcquisitionError, machine: nat)
    requires NextChunk(room, s, ended, machine).Err?
    ensures NextChunk(room, s, ended, machine).error in {AcquisitionError.Protocol, AcquisitionError.Budget(LimitError.Bytes), ended}
  {
    var line := TakeUntil([], s, ended, CRLF, CHUNK_LINE_BYTES);
    if line.Err? {
      UntilFails([], s, ended, CRLF, CHUNK_LINE_BYTES);
    } else if TakeUntil([], line.value.1, ended, CRLF, MAX_HEADER_BYTES).Err? {
      UntilFails([], line.value.1, ended, CRLF, MAX_HEADER_BYTES);
    }
  }

  lemma {:induction false} ChunksFail(body: Utf8.Bytes, s: Utf8.Bytes, ended: AcquisitionError, allowance: nat, machine: nat)
    requires TakeChunks(body, s, ended, allowance, machine).Err?
    ensures TakeChunks(body, s, ended, allowance, machine).error
         in {AcquisitionError.Protocol, AcquisitionError.Budget(LimitError.Bytes), ended}
    decreases |s|
  {
    var next := NextChunk(allowance - |body|, s, ended, machine);
    if next.Err? {
      ChunkFails(allowance - |body|, s, ended, machine);
    } else if next.value.More? {
      ChunksFail(body + next.value.data, next.value.rest, ended, allowance, machine);
    }
  }

  /** A response is refused only as malformed, as larger than the allowance, or for the way its stream ended. */
  lemma FrameFails(s: Utf8.Bytes, ended: AcquisitionError, allowance: nat, machine: nat)
    requires Frame(s, ended, allowance, machine).Err?
    ensures Frame(s, ended, allowance, machine).error in {AcquisitionError.Protocol, AcquisitionError.Budget(LimitError.Bytes), ended}
  {
    var found := TakeUntil([], s, ended, BLANK_LINE, MAX_HEADER_BYTES);
    if found.Err? {
      UntilFails([], s, ended, BLANK_LINE, MAX_HEADER_BYTES);
    } else if HeadOf(found.value.0, machine).Some? && HeadOf(found.value.0, machine).value.delimiting.chunked {
      if TakeChunks([], found.value.1, ended, allowance, machine).Err? {
        ChunksFail([], found.value.1, ended, allowance, machine);
      }
    }
  }

  // ---- a complete response does not depend on what follows it ----

  lemma {:induction false} UntilExtends(taken: Utf8.Bytes, s: Utf8.Bytes, ended: AcquisitionError, mark: Utf8.Bytes, cap: nat,
                                        more: Utf8.Bytes, other: AcquisitionError)
    requires TakeUntil(taken, s, ended, mark, cap).Ok?
    ensures var found := TakeUntil(taken, s, ended, mark, cap).value;
      TakeUntil(taken, s + more, other, mark, cap) == Ok((found.0, found.1 + more))
    decreases s
  {
    assert (s + more)[1..] == s[1..] + more;
    if !EndsWith(taken + [s[0]], mark) {
      UntilExtends(taken + [s[0]], s[1..], ended, mark, cap, more, other);
    }
  }

  lemma LineExtends(s: Utf8.Bytes, ended: AcquisitionError, cap: nat, more: Utf8.Bytes, other: AcquisitionError)
    requires TakeLine(s, ended, cap).Ok?
    ensures var found := TakeLine(s, ended, cap).value; TakeLine(s + more, other, cap) == Ok((found.0, found.1 + more))
  {
    UntilExtends([], s, ended, CRLF, cap, more, other);
  }

  lemma PayloadExtends(size: nat, s: Utf8.Bytes, ended: AcquisitionError, more: Utf8.Bytes, other: AcquisitionError)
    requires TakePayload(size, s, ended).Ok?
    ensures TakePayload(size, s + more, other) == Ok(More(s[..size], s[size + 2..] + more))
  {
    assert (s + more)[..size] == s[..size] && (s + more)[size + 2..] == s[size + 2..] + more;
  }

  lemma ChunkExtends(room: int, s: Utf8.Bytes, ended: AcquisitionError, machine: nat, more: Utf8.Bytes, other: AcquisitionError)
    requires NextChunk(room, s, ended, machine).Ok?
    ensures NextChunk(room, s + more, other, machine)
         == match NextChunk(room, s, ended, machine).value
            case Last => Ok(Last)
            case More(data, rest) => Ok(More(data, rest + more))
  {
    var line := TakeLine(s, ended, CHUNK_LINE_BYTES).value;
    LineExtends(s, ended, CHUNK_LINE_BYTES, more, other);
    var size := ChunkSize(line.0, machine).value;
    if size == 0 {
      LineExtends(line.1, ended, MAX_HEADER_BYTES, more, other);
    } else {
      PayloadExtends(size, line.1, ended, more, other);
    }
  }

  lemma TakesMore(body: Utf8.Bytes, s: Utf8.Bytes, data: Utf8.Bytes, rest: Utf8.Bytes, ended: AcquisitionError,
                  allowance: nat, machine: nat)
    requires NextChunk(allowance - |body|, s, ended, machine) == Ok(More(data, rest))
    ensures TakeChunks(body, s, ended, allowance, machine) == TakeChunks(body + data, rest, ended, allowance, machine)
  {
  }

  lemma TakesLast(body: Utf8.Bytes, s: Utf8.Bytes, ended: AcquisitionError, allowance: nat, machine: nat)
    requires NextChunk(allowance - |body|, s, ended, machine) == Ok(Last)
    ensures TakeChunks(body, s, ended, allowance, machine) == Ok(body)
  {
  }

  lemma TakesMoreOfBoth(body: Utf8.Bytes, s: Utf8.Bytes, data: Utf8.Bytes, rest: Utf8.Bytes, ended: AcquisitionError,
                        allowance: nat, machine: nat, more: Utf8.Bytes, other: AcquisitionError)
    requires NextChunk(allowance - |body|, s, ended, machine) == Ok(More(data, rest))
    ensures TakeChunks(body, s, ended, allowance, machine) == TakeChunks(body + data, rest, ended, allowance, machine)
    ensures TakeChunks(body, s + more, other, allowance, machine) == TakeChunks(body + data, rest + more, other, allowance, machine)
  {
    ChunkExtends(allowance - |body|, s, ended, machine, more, other);
    TakesMore(body, s, data, rest, ended, allowance, machine);
    TakesMore(body, s + more, data, rest + more, other, allowance, machine);
  }

  lemma TakesLastOfBoth(body: Utf8.Bytes, s: Utf8.Bytes, ended: AcquisitionError, allowance: nat, machine: nat,
                        more: Utf8.Bytes, other: AcquisitionError)
    requires NextChunk(allowance - |body|, s, ended, machine) == Ok(Last)
    ensures TakeChunks(body, s, ended, allowance, machine) == Ok(body) == TakeChunks(body, s + more, other, allowance, machine)
  {
    ChunkExtends(allowance - |body|, s, ended, machine, more, other);
    TakesLast(body, s, ended, allowance, machine);
    TakesLast(body, s + more, other, allowance, machine);
  }

  lemma {:induction false} ChunksExtend(body: Utf8.Bytes, s: Utf8.Bytes, ended: AcquisitionError, allowance: nat, machine: nat,
                                        more: Utf8.Bytes, other: AcquisitionError)
    requires TakeChunks(body, s, ended, allowance, machine).Ok?
    ensures TakeChunks(body, s + more, other, allowance, machine) == TakeChunks(body, s, ended, allowance, machine)
    decreases |s|
  {
    var next := NextChunk(allowance - |body|, s, ended, machine).value;
    if next.More? {
      TakesMoreOfBoth(body, s, next.data, next.rest, ended, allowance, machine, more, other);
      ChunksExtend(body + next.data, next.rest, ended, allowance, machine, more, other);
    } else {
      TakesLastOfBoth(body, s, ended, allowance, machine, more, other);
    }
  }

  /** A response that framed once frames the same with anything behind it, and however the stream then ends. */
  lemma FrameExtends(s: Utf8.Bytes, ended: AcquisitionError, allowance: nat, machine: nat, more: Utf8.Bytes, other: AcquisitionError)
    requires Frame(s, ended, allowance, machine).Ok?
    ensures Frame(s + more, other, allowance, machine) == Frame(s, ended, allowance, machine)
  {
    UntilExtends([], s, ended, BLANK_LINE, MAX_HEADER_BYTES, more, other);
    var found := TakeUntil([], s, ended, BLANK_LINE, MAX_HEADER_BYTES).value;
    var d := HeadOf(found.0, machine).value.delimiting;
    if d.chunked {
      ChunksExtend([], found.1, ended, allowance, machine, more, other);
    } else {
      assert (found.1 + more)[..d.length.value] == found.1[..d.length.value];
    }
  }
}
