/** Reading API versions, and choosing the one that acquisition speaks. */
module Versions {
  import opened Outcome
  import opened Json
  import opened Protocol
  import opened Numerals

  const MAX_KNOWN_MINOR := 49
  const MIN_MINOR := 41

  predicate AllDigits(s: string) {
    forall i :: 0 <= i < |s| ==> '0' <= s[i] <= '9'
  }

  function Dot(s: string): (r: Option<nat>)
    ensures r.Some? ==> r.value < |s| && s[r.value] == '.'
  {
    if s == "" then None
    else if s[0] == '.' then Some(0)
    else match Dot(s[1..])
      case None => None
      case Some(i) => Some(i + 1)
  }

  /** Two nonempty runs of digits around the first dot, each a 16-bit number, the major one nonzero. */
  function ParseApi(text: string): Option<ApiVersion> {
    match Dot(text)
    case None => None
    case Some(dot) =>
      var major, minor := text[..dot], text[dot + 1..];
      if major == "" || minor == "" || !AllDigits(major) || !AllDigits(minor) then None
      else match (ParseUnsigned(Codes(major), 10, 0xFFFF), ParseUnsigned(Codes(minor), 10, 0xFFFF))
        case (Some(a), Some(b)) => if a == 0 then None else Some(ApiVersion(a, b))
        case _ => None
  }

  function FieldApi(body: Json, key: string): Option<ApiVersion> {
    match body.GetStr(key)
    case None => None
    case Some(text) => ParseApi(text)
  }

  /** The newest version both sides know, if it is at least 1.41 and at least the daemon's minimum. */
  function Negotiated(parsed: Option<Json>): Option<ApiVersion> {
    match parsed
    case None => None
    case Some(body) =>
      match FieldApi(body, "ApiVersion")
      case None => None
      case Some(maximum) =>
        var known := ApiVersion(1, MAX_KNOWN_MINOR);
        var selected := if maximum.AtMost(known) then maximum else known;
        if body.Get("MinAPIVersion").Some? && FieldApi(body, "MinAPIVersion").None? then None
        else if maximum.major != 1 || selected.minor < MIN_MINOR then None
        else if body.Get("MinAPIVersion").Some? && !FieldApi(body, "MinAPIVersion").value.AtMost(selected) then None
        else Some(selected)
  }

  /** A negotiated version lies in the daemon's advertised range and in 1.41 to 1.49. */
  lemma NegotiatedInRange(body: Json, api: ApiVersion)
    requires Negotiated(Some(body)) == Some(api)
    ensures api.major == 1 && MIN_MINOR <= api.minor <= MAX_KNOWN_MINOR
    ensures FieldApi(body, "ApiVersion").Some? && api.AtMost(FieldApi(body, "ApiVersion").value)
    ensures body.Get("MinAPIVersion").Some? ==>
      FieldApi(body, "MinAPIVersion").Some? && FieldApi(body, "MinAPIVersion").value.AtMost(api)
  {
  }

  /** Every version the daemon could print parses back to itself. */
  lemma {:induction false} PrintedApiParses(api: ApiVersion)
    requires 1 <= api.major <= 0xFFFF && api.minor <= 0xFFFF
    ensures ParseApi(Decimal(api.major) + "." + Decimal(api.minor)) == Some(api)
  {
    var major, minor := Decimal(api.major), Decimal(api.minor);
    var text := major + "." + minor;
    DotAfterDigits(major, minor);
    assert text[..|major|] == major && text[|major| + 1..] == minor;
    NumeralReads(api.major, 10, 0xFFFF);
    NumeralReads(api.minor, 10, 0xFFFF);
  }

  lemma {:induction false} DotAfterDigits(digits: string, rest: string)
    requires AllDigits(digits)
    ensures Dot(digits + "." + rest) == Some(|digits|)
  {
    if digits != "" {
      assert (digits + "." + rest)[1..] == digits[1..] + "." + rest;
      DotAfterDigits(digits[1..], rest);
    }
  }
}
