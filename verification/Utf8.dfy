/** The UTF-8 encoding of strings: the bytes a native identifier is measured, printed and compared by. */
module Utf8 {
  import opened Outcome

  type Byte = x: int | 0 <= x < 256

  type Bytes = seq<Byte>

  function EncodeChar(c: char): (b: Bytes)
    ensures 1 <= |b| <= 4
  {
    var n := c as int;
    if n < 0x80 then [n]
    else if n < 0x800 then [0xC0 + n / 64, 0x80 + n % 64]
    else if n < 0x1_0000 then [0xE0 + n / 4096, 0x80 + n / 64 % 64, 0x80 + n % 64]
    else [0xF0 + n / 262144, 0x80 + n / 4096 % 64, 0x80 + n / 64 % 64, 0x80 + n % 64]
  }

  function Encode(s: string): Bytes {
    if s == [] then [] else EncodeChar(s[0]) + Encode(s[1..])
  }

  predicate Continues(b: Byte) { 0x80 <= b < 0xC0 }

  /** The width announced by a leading byte; none for a byte that cannot lead. */
  function Width(b: Byte): Option<nat> {
    if b < 0x80 then Some(1)
    else if 0xC2 <= b < 0xE0 then Some(2)
    else if 0xE0 <= b < 0xF0 then Some(3)
    else if 0xF0 <= b < 0xF5 then Some(4)
    else None
  }

  /** The scalar number that the first `Width(b[0])` bytes spell, before the range checks. */
  function Spelled(b: Bytes): int
    requires b != [] && Width(b[0]).Some? && Width(b[0]).value <= |b|
  {
    var w, lead: int := Width(b[0]).value, b[0];
    if w == 1 then lead
    else if w == 2 then Joined(lead - 0xC0, b[1])
    else if w == 3 then Joined(Joined(lead - 0xE0, b[1]), b[2])
    else Joined(Joined(Joined(lead - 0xF0, b[1]), b[2]), b[3])
  }

  /** Append the six payload bits of a continuation byte. */
  function Joined(high: int, low: int): int {
    high * 64 + (low - 0x80)
  }

  predicate Scalar(n: int) {
    0 <= n < 0xD800 || 0xE000 <= n < 0x11_0000
  }

  function Least(width: nat): int {
    if width == 2 then 0x80 else if width == 3 then 0x800 else if width == 4 then 0x1_0000 else 0
  }

  /** The first character and its width; none for an overlong, surrogate, truncated or stray sequence. */
  function DecodeFirst(b: Bytes): (r: Option<(char, nat)>)
    requires b != []
    ensures r.Some? ==> 1 <= r.value.1 <= |b|
  {
    match Width(b[0])
    case None => None
    case Some(w) =>
      if w <= |b| && (forall i :: 1 <= i < w ==> Continues(b[i])) then
        var n := Spelled(b);
        if Scalar(n) && Least(w) <= n then Some((n as char, w)) else None
      else None
  }

  function Decode(b: Bytes): Option<string> {
    if b == [] then Some("")
    else match DecodeFirst(b)
      case None => None
      case Some(first) =>
        match Decode(b[first.1..])
        case None => None
        case Some(rest) => Some([first.0] + rest)
  }

  /** Encoding one character and decoding it meet on the same six-bit groups. */
  lemma FirstOfEncoded(c: char, rest: Bytes)
    ensures DecodeFirst(EncodeChar(c) + rest) == Some((c, |EncodeChar(c)|))
  {
    var n := c as int;
    var e := EncodeChar(c);
    var b := e + rest;
    assert forall i :: 0 <= i < |e| ==> b[i] == e[i];
    assert n / 4096 == n / 64 / 64 && n / 262144 == n / 64 / 64 / 64;
    assert Width(b[0]) == Some(|e|);
    assert forall i :: 1 <= i < |e| ==> Continues(b[i]);
    assert Spelled(b) == n;
  }

  lemma TwoGroups(a: int, b: int)
    requires 0 <= b < 64 && 0x80 <= a * 64 + b < 0x800
    ensures EncodeChar((a * 64 + b) as char) == [0xC0 + a, 0x80 + b]
  {
  }

  lemma ThreeGroups(a: int, b: int, c: int)
    requires 0 <= b < 64 && 0 <= c < 64
    requires var n := (a * 64 + b) * 64 + c; 0x800 <= n < 0x1_0000 && Scalar(n)
    ensures EncodeChar(((a * 64 + b) * 64 + c) as char) == [0xE0 + a, 0x80 + b, 0x80 + c]
  {
    var n := (a * 64 + b) * 64 + c;
    assert n / 64 == a * 64 + b && n / 4096 == a;
  }

  lemma FourGroups(a: int, b: int, c: int, d: int)
    requires 0 <= b < 64 && 0 <= c < 64 && 0 <= d < 64
    requires 0x1_0000 <= ((a * 64 + b) * 64 + c) * 64 + d < 0x11_0000
    ensures EncodeChar((((a * 64 + b) * 64 + c) * 64 + d) as char) == [0xF0 + a, 0x80 + b, 0x80 + c, 0x80 + d]
  {
    var n := ((a * 64 + b) * 64 + c) * 64 + d;
    assert n / 64 == (a * 64 + b) * 64 + c && n / 4096 == a * 64 + b && n / 262144 == a;
  }

  lemma EncodedFirst(b: Bytes)
    requires b != [] && DecodeFirst(b).Some?
    ensures var first := DecodeFirst(b).value; EncodeChar(first.0) == b[..first.1]
  {
    var w, lead: int := Width(b[0]).value, b[0];
    assert forall i :: 1 <= i < w ==> Continues(b[i]);
    if w == 2 {
      TwoGroups(lead - 0xC0, b[1] - 0x80);
    } else if w == 3 {
      ThreeGroups(lead - 0xE0, b[1] - 0x80, b[2] - 0x80);
    } else if w == 4 {
      FourGroups(lead - 0xF0, b[1] - 0x80, b[2] - 0x80, b[3] - 0x80);
    }
  }

  lemma DecodeStep(b: Bytes)
    requires b != [] && DecodeFirst(b).Some?
    ensures var first := DecodeFirst(b).value;
      var rest := Decode(b[first.1..]);
      Decode(b) == if rest.None? then None else Some([first.0] + rest.value)
  {
  }

  lemma EncodeFirst(c: char, s: string)
    ensures Encode([c] + s) == EncodeChar(c) + Encode(s)
  {
    assert ([c] + s)[1..] == s;
  }

  lemma Rejoin(b: Bytes, n: nat)
    requires n <= |b|
    ensures b[..n] + b[n..] == b
  {
  }

  /** Decoding inverts encoding on every string. */
  lemma {:induction false} DecodeEncoded(s: string)
    ensures Decode(Encode(s)) == Some(s)
  {
    if s != [] {
      DecodeEncoded(s[1..]);
      DecodeAppended(s[0], s[1..]);
      assert s == [s[0]] + s[1..];
    }
  }

  lemma DecodeAppended(c: char, s: string)
    requires Decode(Encode(s)) == Some(s)
    ensures Decode(Encode([c] + s)) == Some([c] + s)
  {
    var b := EncodeChar(c) + Encode(s);
    EncodeFirst(c, s);
    FirstOfEncoded(c, Encode(s));
    assert b[|EncodeChar(c)|..] == Encode(s);
    DecodeStep(b);
  }

  /** Only encodings decode. */
  lemma {:induction false} EncodeDecoded(b: Bytes)
    requires Decode(b).Some?
    ensures Encode(Decode(b).value) == b
  {
    if b != [] {
      var first := DecodeFirst(b).value;
      DecodeStep(b);
      EncodedFirst(b);
      EncodeDecoded(b[first.1..]);
      EncodeFirst(first.0, Decode(b[first.1..]).value);
      Rejoin(b, first.1);
    }
  }

  lemma EncodeInjective(s: string, t: string)
    requires Encode(s) == Encode(t)
    ensures s == t
  {
    DecodeEncoded(s);
    DecodeEncoded(t);
  }

  lemma {:induction false} EncodeConcat(s: string, t: string)
    ensures Encode(s + t) == Encode(s) + Encode(t)
  {
    if s == [] {
      assert s + t == t;
    } else {
      EncodeConcat(s[1..], t);
      EncodeFirst(s[0], s[1..]);
      EncodeFirst(s[0], s[1..] + t);
      assert s == [s[0]] + s[1..] && s + t == [s[0]] + (s[1..] + t);
      Regroup(EncodeChar(s[0]), Encode(s[1..]), Encode(t));
    }
  }

  lemma Regroup(a: Bytes, b: Bytes, c: Bytes)
    ensures (a + b) + c == a + (b + c)
  {
  }

  predicate Ascii(s: string) {
    forall i :: 0 <= i < |s| ==> s[i] as int < 0x80
  }

  lemma {:induction false} EncodeAscii(s: string)
    requires Ascii(s)
    ensures |Encode(s)| == |s|
    ensures forall i :: 0 <= i < |s| ==> Encode(s)[i] == s[i] as int
  {
    if s != [] {
      EncodeAscii(s[1..]);
      assert forall i :: 0 < i < |s| ==> Encode(s)[i] == Encode(s[1..])[i - 1] && s[i] == s[1..][i - 1];
    }
  }
}
