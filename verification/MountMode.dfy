/** Bounded mount-mode interpretation: a single pass with "seen" flags, against a specification that cannot see the token order.
    A raw mode is a string of bytes, each written as the character with its code. */
module MountMode {
  import opened Outcome
  import D = Decoder

  const MAX_MODE_BYTES := 256
  const MAX_MODE_TOKENS := 16
  const COMMA := ','

  datatype Access = ReadOnly | ReadWrite

  datatype Relabel = Shared | Private

  datatype Interpretation = Supported(access: Option<Access>, relabel: Option<Relabel>) | Unsupported

  // ---- tokens ----

  /** Always at least one token; an empty input is one empty token. */
  function Split(raw: string): (r: seq<string>)
    ensures r != []
  {
    if raw == [] then [[]]
    else
      var rest := Split(raw[1..]);
      if raw[0] == COMMA then [[]] + rest else [[raw[0]] + rest[0]] + rest[1..]
  }

  function Join(tokens: seq<string>): string
    requires tokens != []
  {
    if |tokens| == 1 then tokens[0] else tokens[0] + [COMMA] + Join(tokens[1..])
  }

  predicate Plain(token: string) {
    COMMA !in token
  }

  predicate AllPlain(tokens: seq<string>) {
    forall i :: 0 <= i < |tokens| ==> Plain(tokens[i])
  }

  lemma {:induction false} JoinOfSplit(raw: string)
    ensures Join(Split(raw)) == raw && AllPlain(Split(raw))
  {
    if raw != [] {
      JoinOfSplit(raw[1..]);
      var rest := Split(raw[1..]);
      if raw[0] == COMMA {
        assert Split(raw)[1..] == rest;
      } else {
        assert Split(raw)[1..] == rest[1..];
        assert raw == [raw[0]] + raw[1..];
      }
    }
  }

  lemma {:induction false} SplitOfToken(token: string)
    requires Plain(token)
    ensures Split(token) == [token]
  {
    if token != [] {
      SplitOfToken(token[1..]);
      assert token == [token[0]] + token[1..];
    }
  }

  lemma {:induction false} SplitAfterToken(token: string, rest: string)
    requires Plain(token)
    ensures Split(token + [COMMA] + rest) == [token] + Split(rest)
  {
    var raw := token + [COMMA] + rest;
    if token == [] {
      assert raw[1..] == rest;
    } else {
      SplitAfterToken(token[1..], rest);
      assert raw[1..] == token[1..] + [COMMA] + rest;
      assert token == [token[0]] + token[1..];
    }
  }

  lemma {:induction false} SplitOfJoin(tokens: seq<string>)
    requires tokens != [] && AllPlain(tokens)
    ensures Split(Join(tokens)) == tokens
  {
    if |tokens| == 1 {
      SplitOfToken(tokens[0]);
    } else {
      SplitOfJoin(tokens[1..]);
      SplitAfterToken(tokens[0], Join(tokens[1..]));
    }
  }

  // ---- the order-free meaning ----

  datatype Class = AccessOption | RelabelOption | PropagationOption | ConsistencyOption | CopyOption | UnknownOption

  function ClassOf(token: string): Class {
    if token == "ro" || token == "rw" then AccessOption
    else if token == "z" || token == "Z" then RelabelOption
    else if token in {"private", "rprivate", "shared", "rshared", "slave", "rslave"} then PropagationOption
    else if token in {"consistent", "cached", "delegated"} then ConsistencyOption
    else if token == "nocopy" then CopyOption
    else UnknownOption
  }

  /** Of the tokens, at most one is an option of each known class: neither two different options nor one option twice. */
  ghost predicate AtMostOneEach(tokens: multiset<string>) {
    && (forall t :: t in tokens && ClassOf(t) != UnknownOption ==> tokens[t] == 1)
    && (forall t, u :: t in tokens && u in tokens && ClassOf(t) == ClassOf(u) != UnknownOption ==> t == u)
  }

  ghost predicate Acceptable(tokens: multiset<string>) {
    |tokens| <= MAX_MODE_TOKENS && "" !in tokens && AtMostOneEach(tokens)
  }

  /** Only access and relabel options are interpreted further. */
  ghost predicate Understood(tokens: multiset<string>) {
    forall t :: t in tokens ==> ClassOf(t) == AccessOption || ClassOf(t) == RelabelOption
  }

  function AccessOf(tokens: multiset<string>): Option<Access> {
    if "ro" in tokens then Some(ReadOnly) else if "rw" in tokens then Some(ReadWrite) else None
  }

  function RelabelOf(tokens: multiset<string>): Option<Relabel> {
    if "z" in tokens then Some(Shared) else if "Z" in tokens then Some(Private) else None
  }

  ghost function Meaning(tokens: multiset<string>): Interpretation {
    if Understood(tokens) then Supported(AccessOf(tokens), RelabelOf(tokens)) else Unsupported
  }

  /** What a raw mode means, said about its tokens as a multiset. */
  ghost function Parsed(raw: string, field: D.FieldPath): Result<Interpretation, D.FieldError> {
    var tokens := multiset(Split(raw));
    if |raw| > MAX_MODE_BYTES then Err(D.InvalidValue(field))
    else if raw == "" then Ok(Supported(None, None))
    else if Acceptable(tokens) then Ok(Meaning(tokens))
    else Err(D.InvalidValue(field))
  }

  // ---- the scan ----

  /** The flag of a class after some tokens: whether one of them was an option of it. */
  predicate Saw(tokens: multiset<string>, kind: Class) {
    exists t :: t in tokens && ClassOf(t) == kind
  }

  lemma OneMoreToken(tokens: multiset<string>, token: string)
    requires AtMostOneEach(tokens)
    ensures AtMostOneEach(tokens + multiset{token}) <==> ClassOf(token) == UnknownOption || !Saw(tokens, ClassOf(token))
  {
    var more := tokens + multiset{token};
    assert token in more;
    if t :| t in tokens && ClassOf(t) == ClassOf(token) {
      assert t in more;
      if t == token { assert more[token] > 1; }
    }
  }

  lemma SawMore(tokens: multiset<string>, token: string, kind: Class)
    ensures Saw(tokens + multiset{token}, kind) <==> ClassOf(token) == kind || Saw(tokens, kind)
  {
    var more := tokens + multiset{token};
    assert token in more;
    if t :| t in tokens && ClassOf(t) == kind {
      assert t in more;
    }
  }

  /** What is not acceptable does not become acceptable by adding tokens. */
  lemma RejectedGrows(tokens: multiset<string>, more: multiset<string>)
    requires !Acceptable(tokens)
    ensures !Acceptable(tokens + more)
  {
    var all := tokens + more;
    if Acceptable(all) {
      forall t | t in tokens && ClassOf(t) != UnknownOption ensures tokens[t] == 1 {
        assert t in all;
      }
      forall t, u | t in tokens && u in tokens && ClassOf(t) == ClassOf(u) != UnknownOption ensures t == u {
        assert t in all && u in all;
      }
    }
  }

  /** The flags that the scan carries. */
  datatype Seen = Seen(access: Option<Access>, relabel: Option<Relabel>, propagation: bool, consistency: bool, copy: bool, unsupported: bool)

  /** The flags say what the tokens so far contain. */
  ghost predicate Records(seen: Seen, tokens: multiset<string>) {
    && seen.access == AccessOf(tokens) && seen.relabel == RelabelOf(tokens)
    && seen.access.Some? == Saw(tokens, AccessOption) && seen.relabel.Some? == Saw(tokens, RelabelOption)
    && seen.propagation == Saw(tokens, PropagationOption)
    && seen.consistency == Saw(tokens, ConsistencyOption)
    && seen.copy == Saw(tokens, CopyOption)
    && seen.unsupported == !Understood(tokens)
  }

  function Taken(seen: Seen, token: string): Seen {
    match ClassOf(token)
    case AccessOption => seen.(access := Some(if token == "ro" then ReadOnly else ReadWrite))
    case RelabelOption => seen.(relabel := Some(if token == "z" then Shared else Private))
    case PropagationOption => seen.(propagation := true, unsupported := true)
    case ConsistencyOption => seen.(consistency := true, unsupported := true)
    case CopyOption => seen.(copy := true, unsupported := true)
    case UnknownOption => seen.(unsupported := true)
  }

  lemma OptionClasses()
    ensures ClassOf("ro") == ClassOf("rw") == AccessOption && ClassOf("z") == ClassOf("Z") == RelabelOption
  {
  }

  lemma MoreMembers(before: multiset<string>, token: string, t: string)
    ensures t in before + multiset{token} <==> t in before || t == token
  {
  }

  lemma AccessMore(seen: Seen, token: string, before: multiset<string>)
    requires seen.access == AccessOf(before) && AtMostOneEach(before + multiset{token})
    ensures Taken(seen, token).access == AccessOf(before + multiset{token})
  {
    OptionClasses();
    MoreMembers(before, token, "ro");
    MoreMembers(before, token, "rw");
    MoreMembers(before, token, token);
  }

  lemma RelabelMore(seen: Seen, token: string, before: multiset<string>)
    requires seen.relabel == RelabelOf(before) && AtMostOneEach(before + multiset{token})
    ensures Taken(seen, token).relabel == RelabelOf(before + multiset{token})
  {
    OptionClasses();
    MoreMembers(before, token, "z");
    MoreMembers(before, token, "Z");
    MoreMembers(before, token, token);
  }

  lemma UnderstoodMore(token: string, before: multiset<string>)
    ensures Understood(before + multiset{token})
       <==> Understood(before) && (ClassOf(token) == AccessOption || ClassOf(token) == RelabelOption)
  {
    var tokens := before + multiset{token};
    MoreMembers(before, token, token);
    forall t | t in before ensures t in tokens {
      MoreMembers(before, token, t);
    }
  }

  lemma RecordsMore(seen: Seen, token: string, before: multiset<string>)
    requires Records(seen, before) && AtMostOneEach(before + multiset{token})
    ensures Records(Taken(seen, token), before + multiset{token})
  {
    AccessMore(seen, token, before);
    RelabelMore(seen, token, before);
    UnderstoodMore(token, before);
    SawMore(before, token, AccessOption);
    SawMore(before, token, RelabelOption);
    SawMore(before, token, PropagationOption);
    SawMore(before, token, ConsistencyOption);
    SawMore(before, token, CopyOption);
  }

  /** One token against the flags: refused when its class was already seen. */
  method Take(seen: Seen, token: string, ghost before: multiset<string>) returns (next: Option<Seen>)
    requires AtMostOneEach(before) && Records(seen, before)
    ensures next.Some? <==> AtMostOneEach(before + multiset{token})
    ensures next.Some? ==> next.value == Taken(seen, token)
  {
    OneMoreToken(before, token);
    match ClassOf(token)
    case AccessOption =>
      if seen.access.Some? { return None; }
      return Some(seen.(access := Some(if token == "ro" then ReadOnly else ReadWrite)));
    case RelabelOption =>
      if seen.relabel.Some? { return None; }
      return Some(seen.(relabel := Some(if token == "z" then Shared else Private)));
    case PropagationOption =>
      if seen.propagation { return None; }
      return Some(seen.(propagation := true, unsupported := true));
    case ConsistencyOption =>
      if seen.consistency { return None; }
      return Some(seen.(consistency := true, unsupported := true));
    case CopyOption =>
      if seen.copy { return None; }
      return Some(seen.(copy := true, unsupported := true));
    case UnknownOption =>
      return Some(seen.(unsupported := true));
  }

  method Parse(raw: string, field: D.FieldPath) returns (r: Result<Interpretation, D.FieldError>)
    ensures r == Parsed(raw, field)
  {
    if |raw| > MAX_MODE_BYTES { return Err(D.InvalidValue(field)); }
    var seen := Seen(None, None, false, false, false, false);
    if raw != "" {
      var tokens := Split(raw);
      for index := 0 to |tokens|
        invariant Acceptable(multiset(tokens[..index])) && Records(seen, multiset(tokens[..index]))
      {
        PrefixOf(tokens, index);
        if index >= MAX_MODE_TOKENS || tokens[index] == "" { return Err(D.InvalidValue(field)); }
        var next := Take(seen, tokens[index], multiset(tokens[..index]));
        if next.None? { return Err(D.InvalidValue(field)); }
        RecordsMore(seen, tokens[index], multiset(tokens[..index]));
        seen := next.value;
      }
      assert tokens[..|tokens|] == tokens;
    }
    return Ok(if seen.unsupported then Unsupported else Supported(seen.access, seen.relabel));
  }

  lemma PrefixOf(tokens: seq<string>, index: nat)
    requires index < |tokens|
    ensures multiset(tokens[..index + 1]) == multiset(tokens[..index]) + multiset{tokens[index]}
    ensures !Acceptable(multiset(tokens[..index + 1])) ==> !Acceptable(multiset(tokens))
    ensures index >= MAX_MODE_TOKENS || tokens[index] == "" ==> !Acceptable(multiset(tokens))
  {
    assert tokens[..index + 1] == tokens[..index] + [tokens[index]];
    assert tokens == tokens[..index + 1] + tokens[index + 1..];
    assert multiset(tokens) == multiset(tokens[..index + 1]) + multiset(tokens[index + 1..]);
    assert tokens[index] in multiset(tokens);
    if !Acceptable(multiset(tokens[..index + 1])) {
      RejectedGrows(multiset(tokens[..index + 1]), multiset(tokens[index + 1..]));
    }
  }

  // ---- order does not matter, and nothing rescues a rejected mode ----

  function Letters(tokens: seq<string>): nat {
    if tokens == [] then 0 else |tokens[0]| + Letters(tokens[1..])
  }

  lemma {:induction false} JoinedLength(tokens: seq<string>)
    requires tokens != []
    ensures |Join(tokens)| == Letters(tokens) + |tokens| - 1
  {
    if |tokens| > 1 { JoinedLength(tokens[1..]); }
  }

  lemma {:induction false} LettersOfBoth(a: seq<string>, b: seq<string>)
    ensures Letters(a + b) == Letters(a) + Letters(b)
  {
    if a == [] {
      assert a + b == b;
    } else {
      assert (a + b)[1..] == a[1..] + b;
      LettersOfBoth(a[1..], b);
    }
  }

  lemma WithoutOne(s: seq<string>, i: nat)
    requires i < |s|
    ensures multiset(s[..i] + s[i + 1..]) == multiset(s) - multiset{s[i]}
    ensures Letters(s) == Letters(s[..i] + s[i + 1..]) + |s[i]|
  {
    var front, back := s[..i], s[i + 1..];
    assert s == front + ([s[i]] + back);
    assert multiset(s) == multiset(front) + (multiset{s[i]} + multiset(back));
    LettersOfBoth(front, back);
    LettersOfBoth(front, [s[i]] + back);
    LettersOfBoth([s[i]], back);
    assert [s[i]][1..] == [];
  }

  lemma {:induction false} LettersOfPermuted(a: seq<string>, b: seq<string>)
    requires multiset(a) == multiset(b)
    ensures Letters(a) == Letters(b) && |a| == |b|
    decreases |a|
  {
    assert |a| == |multiset(a)| && |b| == |multiset(b)|;
    if a != [] {
      assert a[0] in multiset(b);
      var i :| 0 <= i < |b| && b[i] == a[0];
      WithoutOne(a, 0);
      WithoutOne(b, i);
      LettersOfPermuted(a[..0] + a[1..], b[..i] + b[i + 1..]);
    }
  }

  /** Permuting the tokens of a mode changes nothing. */
  lemma OrderDoesNotMatter(a: seq<string>, b: seq<string>, field: D.FieldPath)
    requires a != [] && AllPlain(a) && multiset(a) == multiset(b)
    ensures b != [] && Parsed(Join(a), field) == Parsed(Join(b), field)
  {
    LettersOfPermuted(a, b);
    forall i | 0 <= i < |b| ensures Plain(b[i]) {
      assert b[i] in multiset(a);
    }
    SplitOfJoin(a);
    SplitOfJoin(b);
    JoinedLength(a);
    JoinedLength(b);
  }

  lemma InsertionPlain(before: seq<string>, token: string, after: seq<string>)
    requires AllPlain(before + [token] + after)
    ensures AllPlain(before + after)
  {
    var fewer, more := before + after, before + [token] + after;
    forall i | 0 <= i < |fewer| ensures Plain(fewer[i]) {
      assert fewer[i] == more[if i < |before| then i else i + 1];
    }
  }

  lemma InsertionLonger(before: seq<string>, token: string, after: seq<string>)
    requires before + after != []
    ensures |Join(before + [token] + after)| > |Join(before + after)|
  {
    JoinedLength(before + after);
    JoinedLength(before + [token] + after);
    LettersOfBoth(before, after);
    LettersOfBoth(before + [token], after);
    LettersOfBoth(before, [token]);
    assert [token][1..] == [];
  }

  /** Inserting a token anywhere in a rejected mode, even an unknown one, keeps it rejected. */
  lemma RejectionSurvivesInsertion(before: seq<string>, token: string, after: seq<string>, field: D.FieldPath)
    requires before + after != [] && AllPlain(before + [token] + after)
    requires Parsed(Join(before + after), field).Err?
    ensures Parsed(Join(before + [token] + after), field).Err?
  {
    var fewer, more := before + after, before + [token] + after;
    InsertionPlain(before, token, after);
    SplitOfJoin(fewer);
    SplitOfJoin(more);
    InsertionLonger(before, token, after);
    assert multiset(more) == multiset(fewer) + multiset{token};
    if !Acceptable(multiset(fewer)) { RejectedGrows(multiset(fewer), multiset{token}); }
  }

  // ---- the observed field ----

  /** A mode that was not read stays as unavailable as it was; one that was read is parsed. */
  method Interpret(mode: D.Observed<string>, field: D.FieldPath) returns (r: Result<D.Observed<Interpretation>, D.FieldError>)
    ensures mode.value.None? ==> r == Ok(D.Observed(mode.availability, None))
    ensures mode.value.Some? && Parsed(mode.value.value, field).Err? ==> r == Err(D.InvalidValue(field))
    ensures mode.value.Some? && Parsed(mode.value.value, field).Ok? ==>
      r == Ok(D.Observed(mode.availability, Some(Parsed(mode.value.value, field).value)))
  {
    if mode.value.None? { return Ok(D.Observed(mode.availability, None)); }
    var parsed := Parse(mode.value.value, field);
    if parsed.Err? { return Err(parsed.error); }
    return Ok(D.Observed(mode.availability, Some(parsed.value)));
  }

  predicate AccessConflicts(mode: D.Observed<Interpretation>, readWrite: D.Observed<bool>) {
    match (mode.value, readWrite.value)
    case (Some(Supported(Some(ReadOnly), _)), Some(true)) => true
    case (Some(Supported(Some(ReadWrite), _)), Some(false)) => true
    case _ => false
  }

  /** A supported mode conflicts with the read-write flag exactly when it names the other access. */
  lemma ConflictMeans(raw: string, field: D.FieldPath, availability: D.Availability, readWrite: bool)
    requires Parsed(raw, field).Ok? && Parsed(raw, field).value.Supported?
    ensures AccessConflicts(D.Observed(availability, Some(Parsed(raw, field).value)), D.Observed(D.Present, Some(readWrite)))
       <==> (if readWrite then "ro" else "rw") in Split(raw)
  {
    var tokens := multiset(Split(raw));
    assert forall t :: t in Split(raw) <==> t in tokens;
    assert ClassOf("ro") == AccessOption && ClassOf("rw") == AccessOption;
  }
}
