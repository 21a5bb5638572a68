/** Printing a well-formed response, and the proof that the transport reads back what was printed. */
module Response {
  import opened Outcome
  import opened Utf8
  import opened Protocol
  import opened Numerals
  import opened Framing

  // ---- taking bytes up to a mark ----

  lemma {:induction false} FoundAtEnd(taken: Utf8.Bytes, text: Utf8.Bytes, rest: Utf8.Bytes, ended: AcquisitionError,
                                      mark: Utf8.Bytes, cap: nat)
    requires text != [] && EndsWith(taken + text, mark) && |taken + text| <= cap
    requires forall k :: |taken| < k < |taken + text| ==> !EndsWith((taken + text)[..k], mark)
    ensures TakeUntil(taken, text + rest, ended, mark, cap) == Ok((taken + text, rest))
    decreases text
  {
    var next := taken + [text[0]];
    assert next == (taken + text)[..|taken| + 1];
    assert (text + rest)[1..] == text[1..] + rest;
    if |text| == 1 {
      assert text == [text[0]] && text[1..] + rest == rest;
    } else {
      assert next + text[1..] == taken + text;
      FoundAtEnd(next, text[1..], rest, ended, mark, cap);
    }
  }

  predicate Free(line: Utf8.Bytes, code: int) {
    forall i :: 0 <= i < |line| ==> line[i] != code
  }

  /** A line without a carriage return is taken whole. */
  lemma LineTaken(line: Utf8.Bytes, rest: Utf8.Bytes, ended: AcquisitionError, cap: nat)
    requires Free(line, 13) && |line| + 2 <= cap
    ensures TakeLine(line + CRLF + rest, ended, cap) == Ok((line, rest))
  {
    var text := line + CRLF;
    forall k | 0 < k < |text|
      ensures !EndsWith(text[..k], CRLF)
    {
      if k >= 2 {
        assert text[..k][k - 2..][0] == text[k - 2] == line[k - 2];
      }
    }
    assert [] + text == text;
    FoundAtEnd([], text, rest, ended, CRLF, cap);
    assert text[..|line|] == line;
  }

  // ---- the head ----

  predicate NoReturn(s: string) {
    forall i :: 0 <= i < |s| ==> s[i] != '\r'
  }

  lemma {:induction false} NoReturnByte(s: string)
    requires NoReturn(s)
    ensures Free(Encode(s), 13)
  {
    if s != "" {
      assert NoReturn(s[1..]) by {
        assert forall i :: 0 <= i < |s[1..]| ==> s[1..][i] == s[i + 1];
      }
      NoReturnByte(s[1..]);
      assert s[0] as int != 13;
    }
  }

  /** Lines, each ended by CRLF, and the blank line that closes the head. */
  function HeadText(lines: seq<string>): string {
    if lines == [] then "\r\n" else lines[0] + "\r\n" + HeadText(lines[1..])
  }

  predicate HeadLine(line: string) {
    line != "" && NoReturn(line)
  }

  lemma EncodedCrlf()
    ensures Encode("\r\n") == CRLF
  {
    EncodeAscii("\r\n");
    assert Encode("\r\n") == CRLF;
  }

  lemma EncodedHead(lines: seq<string>)
    requires lines != []
    ensures Encode(HeadText(lines)) == Encode(lines[0]) + CRLF + Encode(HeadText(lines[1..]))
  {
    EncodedCrlf();
    EncodeConcat(lines[0] + "\r\n", HeadText(lines[1..]));
    EncodeConcat(lines[0], "\r\n");
  }

  predicate MarkAt(text: Utf8.Bytes, i: nat) {
    i + 4 <= |text| && text[i..i + 4] == BLANK_LINE
  }

  /** A line in front of a text that starts with no carriage return, or is only the closing CRLF, brings no early blank line. */
  lemma NoEarlyMark(line: Utf8.Bytes, rest: Utf8.Bytes)
    requires Free(line, 13) && (rest == CRLF || (|rest| >= 4 && rest[0] != 13))
    requires forall i :: 0 <= i < |rest| - 4 ==> !MarkAt(rest, i)
    ensures forall i :: 0 <= i < |line + CRLF + rest| - 4 ==> !MarkAt(line + CRLF + rest, i)
  {
    var text := line + CRLF + rest;
    forall i | 0 <= i < |text| - 4
      ensures !MarkAt(text, i)
    {
      if i < |line| + 2 {
        assert text[i..i + 4][0] == text[i] && text[i..i + 4][2] == text[i + 2];
      } else {
        var k := i - |line| - 2;
        assert text[i..i + 4] == rest[k..k + 4];
        assert !MarkAt(rest, k);
      }
    }
  }

  lemma EncodedLine(line: string)
    requires HeadLine(line)
    ensures Encode(line) != [] && Free(Encode(line), 13)
  {
    NoReturnByte(line);
  }

  /** The head of nonempty lines holds a blank line at its end and nowhere before. */
  lemma {:induction false} BlankLineOnlyAtEnd(lines: seq<string>)
    requires forall i :: 0 <= i < |lines| ==> HeadLine(lines[i])
    ensures var text := Encode(HeadText(lines));
      && (if lines == [] then text == CRLF else |text| >= 4 && EndsWith(text, BLANK_LINE) && text[0] != 13)
      && (forall i :: 0 <= i < |text| - 4 ==> !MarkAt(text, i))
  {
    if lines == [] {
      EncodedCrlf();
    } else {
      var line, rest := Encode(lines[0]), Encode(HeadText(lines[1..]));
      EncodedHead(lines);
      EncodedLine(lines[0]);
      BlankLineOnlyAtEnd(lines[1..]);
      NoEarlyMark(line, rest);
      var text := line + CRLF + rest;
      if |lines| > 1 {
        assert text[|text| - 4..] == rest[|rest| - 4..];
      } else {
        assert text[|text| - 4..] == BLANK_LINE;
      }
    }
  }

  lemma HeadTaken(lines: seq<string>, rest: Utf8.Bytes, ended: AcquisitionError)
    requires lines != [] && forall i :: 0 <= i < |lines| ==> HeadLine(lines[i])
    requires |Encode(HeadText(lines))| <= MAX_HEADER_BYTES
    ensures TakeUntil([], Encode(HeadText(lines)) + rest, ended, BLANK_LINE, MAX_HEADER_BYTES)
         == Ok((Encode(HeadText(lines)), rest))
  {
    var text := Encode(HeadText(lines));
    BlankLineOnlyAtEnd(lines);
    forall k | 0 < k < |text|
      ensures !EndsWith(text[..k], BLANK_LINE)
    {
      if k >= 4 {
        assert text[..k][k - 4..] == text[k - 4..k];
        assert !MarkAt(text, k - 4);
      }
    }
    assert [] + text == text;
    FoundAtEnd([], text, rest, ended, BLANK_LINE, MAX_HEADER_BYTES);
  }

  lemma {:induction false} CrlfFound(line: string, rest: string)
    requires NoReturn(line)
    ensures FindCrlf(line + "\r\n" + rest) == Some(|line|)
  {
    var s := line + "\r\n" + rest;
    if line != "" {
      assert s[1..] == line[1..] + "\r\n" + rest;
      assert NoReturn(line[1..]) by {
        assert forall i :: 0 <= i < |line[1..]| ==> line[1..][i] == line[i + 1];
      }
      CrlfFound(line[1..], rest);
    }
  }

  lemma FirstLineSplits(line: string, rest: string)
    requires NoReturn(line)
    ensures SplitLines(line + "\r\n" + rest) == [line] + SplitLines(rest)
  {
    CrlfFound(line, rest);
    var s := line + "\r\n" + rest;
    assert s[..|line|] == line && s[|line| + 2..] == rest;
  }

  lemma {:induction false} HeadSplits(lines: seq<string>)
    requires forall i :: 0 <= i < |lines| ==> NoReturn(lines[i])
    ensures SplitLines(HeadText(lines)) == lines + ["", ""]
  {
    if lines == [] {
      FirstLineSplits("", "");
      assert "" + "\r\n" + "" == "\r\n";
    } else {
      FirstLineSplits(lines[0], HeadText(lines[1..]));
      HeadSplits(lines[1..]);
      assert lines + ["", ""] == [lines[0]] + (lines[1..] + ["", ""]);
    }
  }

  // ---- the status line and the fields ----

  function StatusLine(minor: nat, code: string, reason: string): string {
    (if minor == 0 then "HTTP/1.0" else "HTTP/1.1") + " " + code + " " + reason
  }

  lemma {:induction false} WordEnds(word: string, rest: string)
    requires forall i :: 0 <= i < |word| ==> !AsciiSpace(word[i])
    requires rest == "" || AsciiSpace(rest[0])
    ensures WordLength(word + rest) == |word|
  {
    if word == "" {
      assert word + rest == rest;
    } else {
      assert (word + rest)[1..] == word[1..] + rest;
      WordEnds(word[1..], rest);
    }
  }

  lemma StatusReads(minor: nat, code: string, reason: string, status: nat)
    requires code != "" && forall i :: 0 <= i < |code| ==> !AsciiSpace(code[i])
    requires ParseUnsigned(Codes(code), 10, 0xFFFF) == Some(status) && 100 <= status <= 599
    ensures StatusOf(StatusLine(minor, code, reason)) == Some(status)
  {
    var version := if minor == 0 then "HTTP/1.0" else "HTTP/1.1";
    var tail := " " + reason;
    var after := " " + (code + tail);
    assert StatusLine(minor, code, reason) == version + after;
    WordEnds(version, after);
    assert (version + after)[..|version|] == version && (version + after)[|version|..] == after;
    assert NextWord(version + after) == Some((version, after));
    assert after[1..] == code + tail;
    WordEnds(code, tail);
    assert (code + tail)[..|code|] == code && (code + tail)[|code|..] == tail;
    assert NextWord(code + tail) == Some((code, tail));
  }

  datatype HeaderField = HeaderField(name: string, value: string) {
    function Text(): string { name + ":" + value }

    predicate Printable() {
      NoReturn(name) && NoReturn(value) && forall i :: 0 <= i < |name| ==> name[i] != ':'
    }

    /** A field that does not bear on how the body is delimited or coded. */
    predicate Neutral() {
      && Printable()
      && !SameIgnoringCase(name, "content-length")
      && !SameIgnoringCase(name, "transfer-encoding")
      && (SameIgnoringCase(name, "content-encoding") ==> SameIgnoringCase(Trim(value), "identity"))
    }
  }

  lemma {:induction false} ColonFound(name: string, value: string)
    requires forall i :: 0 <= i < |name| ==> name[i] != ':'
    ensures IndexOf(name + ":" + value, ':') == Some(|name|)
  {
    if name != "" {
      assert (name + ":" + value)[1..] == name[1..] + ":" + value;
      ColonFound(name[1..], value);
    }
  }

  lemma FieldSplits(f: HeaderField)
    requires f.Printable()
    ensures IndexOf(f.Text(), ':') == Some(|f.name|)
    ensures f.Text()[..|f.name|] == f.name && f.Text()[|f.name| + 1..] == f.value
    ensures HeadLine(f.Text())
  {
    ColonFound(f.name, f.value);
  }

  function Texts(fields: seq<HeaderField>): seq<string> {
    seq(|fields|, i requires 0 <= i < |fields| => fields[i].Text())
  }

  predicate AllNeutral(fields: seq<HeaderField>) {
    forall i :: 0 <= i < |fields| ==> fields[i].Neutral()
  }

  lemma LastText(lines: seq<string>, fields: seq<HeaderField>)
    requires fields != []
    ensures lines + Texts(fields) == lines + Texts(fields[..|fields| - 1]) + [fields[|fields| - 1].Text()]
  {
  }

  lemma NeutralLineKeeps(lines: seq<string>, f: HeaderField, machine: nat)
    requires f.Neutral()
    ensures Fields(lines + [f.Text()], machine) == Fields(lines, machine)
  {
    var all := lines + [f.Text()];
    assert all[..|all| - 1] == lines;
    FieldSplits(f);
  }

  /** Neutral lines and the blank ones that end the head leave the delimiting as it was. */
  lemma {:induction false} NeutralLinesKeep(lines: seq<string>, fields: seq<HeaderField>, blanks: seq<string>, machine: nat)
    requires AllNeutral(fields) && forall i :: 0 <= i < |blanks| ==> blanks[i] == ""
    ensures Fields(lines + Texts(fields) + blanks, machine) == Fields(lines, machine)
    decreases |fields| + |blanks|
  {
    var all := lines + Texts(fields) + blanks;
    if blanks != [] {
      var fewer := blanks[..|blanks| - 1];
      assert all[..|all| - 1] == lines + Texts(fields) + fewer;
      NeutralLinesKeep(lines, fields, fewer, machine);
    } else if fields != [] {
      var fewer := fields[..|fields| - 1];
      NeutralLinesKeep(lines, fewer, blanks, machine);
      LastText(lines, fields);
      NeutralLineKeeps(lines + Texts(fewer), fields[|fields| - 1], machine);
      assert all == lines + Texts(fields) && lines + Texts(fewer) + blanks == lines + Texts(fewer);
    } else {
      assert all == lines;
    }
  }

  /** A response head: any neutral fields around the one that delimits the body. */
  datatype ResponseHead = ResponseHead(
    minor: nat, code: string, reason: string, before: seq<HeaderField>, delimiter: HeaderField, after: seq<HeaderField>)
  {
    function Lines(): (r: seq<string>)
      ensures r != []
    {
      [StatusLine(minor, code, reason)] + (Texts(before) + [delimiter.Text()] + Texts(after))
    }

    function Bytes(): Utf8.Bytes { Encode(HeadText(Lines())) }

    predicate WellFormed(status: nat) {
      && code != "" && (forall i :: 0 <= i < |code| ==> !AsciiSpace(code[i]))
      && ParseUnsigned(Codes(code), 10, 0xFFFF) == Some(status) && 100 <= status <= 599
      && NoReturn(reason)
      && AllNeutral(before) && delimiter.Printable() && AllNeutral(after)
      && |Bytes()| <= MAX_HEADER_BYTES
    }
  }

  lemma TextsAreHeadLines(fields: seq<HeaderField>)
    requires AllNeutral(fields)
    ensures forall i :: 0 <= i < |fields| ==> HeadLine(Texts(fields)[i])
  {
    forall i | 0 <= i < |fields| ensures HeadLine(Texts(fields)[i]) {
      assert fields[i].Neutral();
      FieldSplits(fields[i]);
    }
  }

  lemma StatusLineIsHeadLine(h: ResponseHead, status: nat)
    requires h.WellFormed(status)
    ensures HeadLine(StatusLine(h.minor, h.code, h.reason))
  {
    assert forall i :: 0 <= i < |h.code| ==> !AsciiSpace(h.code[i]);
  }

  lemma LinesAreHeadLines(h: ResponseHead, status: nat)
    requires h.WellFormed(status)
    ensures forall i :: 0 <= i < |h.Lines()| ==> HeadLine(h.Lines()[i])
  {
    StatusLineIsHeadLine(h, status);
    TextsAreHeadLines(h.before);
    TextsAreHeadLines(h.after);
    FieldSplits(h.delimiter);
  }

  /** Only the delimiting field says how the body is delimited. */
  lemma FieldsRead(h: ResponseHead, machine: nat, d: Delimiting)
    requires AllNeutral(h.before) && AllNeutral(h.after)
    requires Field(Delimiting(None, false), h.delimiter.Text(), machine) == Some(d)
    ensures Fields((h.Lines() + ["", ""])[1..], machine) == Some(d)
  {
    var front := Texts(h.before);
    var upTo := front + [h.delimiter.Text()];
    assert (h.Lines() + ["", ""])[1..] == upTo + Texts(h.after) + ["", ""];
    NeutralLinesKeep(upTo, h.after, ["", ""], machine);
    NeutralLinesKeep([], h.before, [], machine);
    assert [] + Texts(h.before) + [] == front;
    assert upTo[..|upTo| - 1] == front;
  }

  /** The head reads back as its status and what its delimiting field says on its own. */
  lemma HeadReads(h: ResponseHead, status: nat, machine: nat, d: Delimiting)
    requires h.WellFormed(status) && d.chunked != d.length.Some?
    requires Field(Delimiting(None, false), h.delimiter.Text(), machine) == Some(d)
    ensures HeadOf(h.Bytes(), machine) == Some(Head(status, d))
  {
    var lines := h.Lines();
    DecodeEncoded(HeadText(lines));
    LinesAreHeadLines(h, status);
    HeadSplits(lines);
    StatusReads(h.minor, h.code, h.reason, status);
    FieldsRead(h, machine, d);
  }

  // ---- whole responses ----

  predicate DeclaresLength(f: HeaderField, length: nat, machine: nat) {
    && f.Printable() && SameIgnoringCase(f.name, "content-length")
    && ParseUnsigned(Codes(Trim(f.value)), 10, machine) == Some(length)
  }

  /** Behind a printed head, the response means what its body means under the delimiting field. */
  lemma BodyFollows(h: ResponseHead, status: nat, d: Delimiting, body: Utf8.Bytes, ended: AcquisitionError, allowance: nat, machine: nat)
    requires h.WellFormed(status) && d.chunked != d.length.Some?
    requires Field(Delimiting(None, false), h.delimiter.Text(), machine) == Some(d)
    ensures Frame(h.Bytes() + body, ended, allowance, machine)
         == match TakeBody(d, body, ended, allowance, machine)
            case Err(e) => Err(e)
            case Ok(payload) => Ok((status, payload))
  {
    LinesAreHeadLines(h, status);
    HeadTaken(h.Lines(), body, ended);
    HeadReads(h, status, machine, d);
  }

  lemma LengthDeclared(f: HeaderField, length: nat, machine: nat)
    requires DeclaresLength(f, length, machine)
    ensures Field(Delimiting(None, false), f.Text(), machine) == Some(Delimiting(Some(length), false))
  {
    FieldSplits(f);
  }

  /** A response delimited by its length yields exactly its status and payload, whatever follows on the wire. */
  lemma LengthRoundTrip(h: ResponseHead, status: nat, payload: Utf8.Bytes, rest: Utf8.Bytes, ended: AcquisitionError,
                        allowance: nat, machine: nat)
    requires h.WellFormed(status) && DeclaresLength(h.delimiter, |payload|, machine) && |payload| <= allowance
    ensures Frame(h.Bytes() + (payload + rest), ended, allowance, machine) == Ok((status, payload))
  {
    LengthDeclared(h.delimiter, |payload|, machine);
    BodyFollows(h, status, Delimiting(Some(|payload|), false), payload + rest, ended, allowance, machine);
    assert (payload + rest)[..|payload|] == payload;
  }

  datatype DataChunk = DataChunk(size: Utf8.Bytes, extension: Utf8.Bytes, data: Utf8.Bytes) {
    function Line(): Utf8.Bytes { size + extension }

    /** A size line of at most 64 bytes that states the length of the data, and an extension that starts with a semicolon. */
    predicate WellFormed(machine: nat) {
      && Free(size, 59) && Free(Line(), 13) && |Line()| + 2 <= CHUNK_LINE_BYTES
      && (extension == [] || extension[0] == 59)
      && ParseUnsigned(size, 16, machine) == Some(|data|)
    }
  }

  function PrintChunks(chunks: seq<DataChunk>): Utf8.Bytes {
    if chunks == [] then []
    else chunks[0].Line() + CRLF + (chunks[0].data + CRLF + PrintChunks(chunks[1..]))
  }

  function Payload(chunks: seq<DataChunk>): Utf8.Bytes {
    if chunks == [] then [] else chunks[0].data + Payload(chunks[1..])
  }

  lemma {:induction false} SizeEnds(size: Utf8.Bytes, extension: Utf8.Bytes)
    requires Free(size, 59) && (extension == [] || extension[0] == 59)
    ensures BeforeSemicolon(size + extension) == size
  {
    if size == [] {
      assert size + extension == extension;
    } else {
      assert (size + extension)[1..] == size[1..] + extension;
      SizeEnds(size[1..], extension);
      assert [size[0]] + size[1..] == size;
    }
  }

  lemma ChunkRead(c: DataChunk, tail: Utf8.Bytes, ended: AcquisitionError, room: nat, machine: nat)
    requires c.WellFormed(machine) && c.data != [] && |c.data| <= room
    ensures NextChunk(room, c.Line() + CRLF + (c.data + CRLF + tail), ended, machine) == Ok(More(c.data, tail))
  {
    var rest := c.data + CRLF + tail;
    LineTaken(c.Line(), rest, ended, CHUNK_LINE_BYTES);
    SizeEnds(c.size, c.extension);
    assert rest[..|c.data|] == c.data && rest[|c.data|..|c.data| + 2] == CRLF && rest[|c.data| + 2..] == tail;
  }

  lemma LastRead(last: DataChunk, rest: Utf8.Bytes, ended: AcquisitionError, room: nat, machine: nat)
    requires last.WellFormed(machine) && last.data == []
    ensures NextChunk(room, last.Line() + CRLF + (CRLF + rest), ended, machine) == Ok(Last)
  {
    LineTaken(last.Line(), CRLF + rest, ended, CHUNK_LINE_BYTES);
    SizeEnds(last.size, last.extension);
    LineTaken([], rest, ended, MAX_HEADER_BYTES);
    assert [] + CRLF + rest == CRLF + rest;
  }

  predicate PrintableChunks(chunks: seq<DataChunk>, machine: nat) {
    forall i :: 0 <= i < |chunks| ==> chunks[i].WellFormed(machine) && chunks[i].data != []
  }

  /** What follows the data chunks ends the body, whatever room is left. */
  ghost predicate Ends(ending: Utf8.Bytes, ended: AcquisitionError, machine: nat) {
    forall room: nat :: NextChunk(room, ending, ended, machine) == Ok(Last)
  }

  lemma PrintedFirst(chunks: seq<DataChunk>, ending: Utf8.Bytes)
    requires chunks != []
    ensures PrintChunks(chunks) + ending
         == chunks[0].Line() + CRLF + (chunks[0].data + CRLF + (PrintChunks(chunks[1..]) + ending))
  {
  }

  lemma FirstTaken(body: Utf8.Bytes, chunks: seq<DataChunk>, ending: Utf8.Bytes, ended: AcquisitionError, allowance: nat, machine: nat)
    requires chunks != [] && chunks[0].WellFormed(machine) && chunks[0].data != []
    requires |body| + |chunks[0].data| <= allowance
    ensures TakeChunks(body, PrintChunks(chunks) + ending, ended, allowance, machine)
         == TakeChunks(body + chunks[0].data, PrintChunks(chunks[1..]) + ending, ended, allowance, machine)
  {
    var tail := PrintChunks(chunks[1..]) + ending;
    PrintedFirst(chunks, ending);
    ChunkRead(chunks[0], tail, ended, allowance - |body|, machine);
    TakesMore(body, PrintChunks(chunks) + ending, chunks[0].data, tail, ended, allowance, machine);
  }

  lemma EndTaken(body: Utf8.Bytes, ending: Utf8.Bytes, ended: AcquisitionError, allowance: nat, machine: nat)
    requires Ends(ending, ended, machine) && |body| <= allowance
    ensures TakeChunks(body, ending, ended, allowance, machine) == Ok(body)
  {
    assert NextChunk(allowance - |body|, ending, ended, machine) == Ok(Last);
  }

  lemma PayloadParts(body: Utf8.Bytes, chunks: seq<DataChunk>)
    requires chunks != []
    ensures (body + chunks[0].data) + Payload(chunks[1..]) == body + Payload(chunks)
    ensures |Payload(chunks)| == |chunks[0].data| + |Payload(chunks[1..])|
  {
  }

  lemma {:induction false} ChunksRead(
      body: Utf8.Bytes, chunks: seq<DataChunk>, ending: Utf8.Bytes, ended: AcquisitionError, allowance: nat, machine: nat)
    requires PrintableChunks(chunks, machine) && |body| + |Payload(chunks)| <= allowance
    requires Ends(ending, ended, machine)
    ensures TakeChunks(body, PrintChunks(chunks) + ending, ended, allowance, machine) == Ok(body + Payload(chunks))
    decreases chunks
  {
    if chunks == [] {
      assert PrintChunks(chunks) + ending == ending && body + Payload(chunks) == body;
      EndTaken(body, ending, ended, allowance, machine);
    } else {
      PayloadParts(body, chunks);
      FirstTaken(body, chunks, ending, ended, allowance, machine);
      ChunksRead(body + chunks[0].data, chunks[1..], ending, ended, allowance, machine);
    }
  }

  lemma LastEnds(last: DataChunk, rest: Utf8.Bytes, ended: AcquisitionError, machine: nat)
    requires last.WellFormed(machine) && last.data == []
    ensures Ends(last.Line() + CRLF + (CRLF + rest), ended, machine)
  {
    forall room: nat ensures NextChunk(room, last.Line() + CRLF + (CRLF + rest), ended, machine) == Ok(Last) {
      LastRead(last, rest, ended, room, machine);
    }
  }

  predicate DeclaresChunks(f: HeaderField) {
    f.Printable() && SameIgnoringCase(f.name, "transfer-encoding") && SameIgnoringCase(Trim(f.value), "chunked")
  }

  lemma ChunksDeclared(f: HeaderField, machine: nat)
    requires DeclaresChunks(f)
    ensures Field(Delimiting(None, false), f.Text(), machine) == Some(Delimiting(None, true))
  {
    FieldSplits(f);
  }

  /** A chunked response without trailers yields the concatenation of its chunks, however it was cut into them. */
  lemma ChunkedRoundTrip(h: ResponseHead, status: nat, chunks: seq<DataChunk>, last: DataChunk,
                         rest: Utf8.Bytes, ended: AcquisitionError, allowance: nat, machine: nat)
    requires h.WellFormed(status) && DeclaresChunks(h.delimiter)
    requires PrintableChunks(chunks, machine)
    requires last.WellFormed(machine) && last.data == []
    requires |Payload(chunks)| <= allowance
    ensures Frame(h.Bytes() + (PrintChunks(chunks) + (last.Line() + CRLF + (CRLF + rest))), ended, allowance, machine)
         == Ok((status, Payload(chunks)))
  {
    var ending := last.Line() + CRLF + (CRLF + rest);
    ChunksDeclared(h.delimiter, machine);
    BodyFollows(h, status, Delimiting(None, true), PrintChunks(chunks) + ending, ended, allowance, machine);
    LastEnds(last, rest, ended, machine);
    ChunksRead([], chunks, ending, ended, allowance, machine);
    assert [] + Payload(chunks) == Payload(chunks);
  }
}
