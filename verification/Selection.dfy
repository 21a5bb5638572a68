/** Choosing containers from bounded list metadata. */
module Selection {
  import opened Outcome
  import opened Utf8
  import opened Json
  import opened Protocol
  import opened Sequences

  const MAX_NAME_LENGTH := 255
  const CANONICAL_ID_LENGTH := 64

  predicate AlphaNumeric(c: char) {
    '0' <= c <= '9' || 'a' <= c <= 'z' || 'A' <= c <= 'Z'
  }

  predicate HexDigit(c: char) {
    '0' <= c <= '9' || 'a' <= c <= 'f' || 'A' <= c <= 'F'
  }

  predicate CanonicalId(id: string) {
    |id| == CANONICAL_ID_LENGTH && forall i :: 0 <= i < |id| ==> HexDigit(id[i])
  }

  function StripSlash(s: string): string {
    if s != "" && s[0] == '/' then s[1..] else s
  }

  function StripSlashes(s: string): string {
    if s != "" && s[0] == '/' then StripSlashes(s[1..]) else s
  }

  predicate LiteralName(name: string) {
    var n := StripSlash(name);
    && n != "" && |n| <= MAX_NAME_LENGTH && AlphaNumeric(n[0])
    && forall i :: 0 <= i < |n| ==> AlphaNumeric(n[i]) || n[i] == '_' || n[i] == '-' || n[i] == '.'
  }

  predicate VolumeName(name: string) {
    !("/" <= name) && LiteralName(name)
  }

  predicate Admissible(selector: Selector) {
    match selector
    case ContainerNames(names) => names != [] && forall i :: 0 <= i < |names| ==> LiteralName(names[i])
    case NamePrefix(prefix) => LiteralName(prefix)
    case Label(key, value) => key != [] && 0 !in key && (value.Some? ==> 0 !in value.value)
    case _ => true
  }

  function EntryId(entry: Json): Option<NativeId> {
    match entry.GetStr("Id")
    case Some(id) => if id != "" && CanonicalId(id) then Some(id) else None
    case None => None
  }

  /** The names listed for an entry, readable or not. */
  function Natives(entry: Json): seq<Json> {
    match entry.Get("Names")
    case Some(Arr(items)) => items
    case _ => []
  }

  predicate NamesRead(entry: Json) {
    && entry.Get("Names").Some? && entry.Get("Names").value.Arr? && |Natives(entry)| <= MAX_COLLECTION_ITEMS
    && forall i :: 0 <= i < |Natives(entry)| ==> Natives(entry)[i].Str?
  }

  predicate LabelRead(entry: Json, key: Utf8.Bytes) {
    && entry.Get("Labels").Some? && entry.Get("Labels").value.Obj?
    && |entry.Get("Labels").value.fields| <= MAX_COLLECTION_ITEMS
    && (Decode(key).Some? && Decode(key).value in entry.Get("Labels").value.fields ==>
          entry.Get("Labels").value.fields[Decode(key).value].Str?)
  }

  predicate EntryRead(entry: Json, selector: Selector) {
    && EntryId(entry).Some?
    && (selector.ContainerNames? || selector.NamePrefix? ==> NamesRead(entry))
    && (selector.Label? ==> LabelRead(entry, selector.key))
  }

  function Ids(entries: seq<Json>): seq<NativeId> {
    if entries == [] then []
    else
      var last := |entries| - 1;
      Ids(entries[..last]) + if EntryId(entries[last]).Some? then [EntryId(entries[last]).value] else []
  }

  /** A bounded list whose entries carry distinct canonical IDs and everything the selector looks at. */
  predicate Shaped(list: Json, selector: Selector) {
    && list.Arr? && |list.items| <= MAX_COLLECTION_ITEMS
    && (forall i :: 0 <= i < |list.items| ==> EntryRead(list.items[i], selector))
    && NoRepeat(Ids(list.items))
  }

  // ---- exact names ----

  predicate NameMatches(native: Json, name: string) {
    native.Str? && StripSlash(native.text) == StripSlashes(name)
  }

  /** The requested names that one listed name answers to, in request order. */
  function HitsOfName(native: Json, names: seq<NativeId>): seq<NativeId> {
    if names == [] then []
    else
      var last := |names| - 1;
      HitsOfName(native, names[..last]) + if NameMatches(native, names[last]) then [names[last]] else []
  }

  /** The hits of a run of listed names, in scanning order. */
  function Hits(natives: seq<Json>, names: seq<NativeId>): seq<NativeId> {
    if natives == [] then []
    else Hits(natives[..|natives| - 1], names) + HitsOfName(natives[|natives| - 1], names)
  }

  /** All names of a list, entry by entry: one element for each (container, name position). */
  function Listed(entries: seq<Json>): seq<Json> {
    if entries == [] then [] else Listed(entries[..|entries| - 1]) + Natives(entries[|entries| - 1])
  }

  /** How many positions carry the name. */
  function Occurrences(natives: seq<Json>, name: NativeId): nat {
    if natives == [] then 0
    else Occurrences(natives[..|natives| - 1], name) + if NameMatches(natives[|natives| - 1], name) then 1 else 0
  }

  predicate ExactlyOnce(natives: seq<Json>, names: seq<NativeId>) {
    Distinct(names) && forall i :: 0 <= i < |names| ==> Occurrences(natives, names[i]) == 1
  }

  lemma CountMore<T>(s: seq<T>, x: T, y: T)
    ensures multiset(s + [x])[y] == multiset(s)[y] + if x == y then 1 else 0
  {
  }

  lemma {:induction false} HitsOfNameCount(native: Json, names: seq<NativeId>, name: NativeId)
    ensures multiset(HitsOfName(native, names))[name] == if NameMatches(native, name) then multiset(names)[name] else 0
  {
    if names != [] {
      var last := |names| - 1;
      var front := names[..last];
      HitsOfNameCount(native, front, name);
      assert names == front + [names[last]];
      CountMore(front, names[last], name);
      CountMore(HitsOfName(native, front), names[last], name);
    }
  }

  lemma LastHits(natives: seq<Json>, names: seq<NativeId>, name: NativeId)
    requires natives != []
    ensures var last := |natives| - 1;
      && multiset(Hits(natives, names))[name]
         == multiset(Hits(natives[..last], names))[name] + multiset(HitsOfName(natives[last], names))[name]
      && Occurrences(natives, name) == Occurrences(natives[..last], name) + if NameMatches(natives[last], name) then 1 else 0
  {
  }

  /** A count taken so many times over. */
  function Times(count: nat, times: nat): nat {
    if times == 0 then 0 else Times(count, times - 1) + count
  }

  lemma {:induction false} TimesAtMostOne(count: nat, times: nat)
    requires count <= 1
    ensures Times(count, times) == if count == 0 then 0 else times
  {
    if times > 0 { TimesAtMostOne(count, times - 1); }
  }

  lemma {:induction false} HitsCount(natives: seq<Json>, names: seq<NativeId>, name: NativeId)
    ensures multiset(Hits(natives, names))[name] == Times(multiset(names)[name], Occurrences(natives, name))
  {
    if natives == [] {
      assert Hits(natives, names) == [];
    } else {
      var last := |natives| - 1;
      LastHits(natives, names, name);
      HitsCount(natives[..last], names, name);
      HitsOfNameCount(natives[last], names, name);
    }
  }

  lemma HitsAreNames(natives: seq<Json>, names: seq<NativeId>)
    ensures Elements(Hits(natives, names)) <= Elements(names)
  {
    var hits := Hits(natives, names);
    forall x | x in hits ensures x in names {
      HitsCount(natives, names, x);
      TimesAtMostOne(0, Occurrences(natives, x));
      assert multiset(hits)[x] > 0;
      assert multiset(names)[x] > 0;
    }
  }

  lemma OccursOnce(natives: seq<Json>, names: seq<NativeId>, name: NativeId)
    requires multiset(Hits(natives, names))[name] == 1 && multiset(names)[name] == 1
    ensures Occurrences(natives, name) == 1
  {
    HitsCount(natives, names, name);
    TimesAtMostOne(1, Occurrences(natives, name));
  }

  lemma OnceFromHits(natives: seq<Json>, names: seq<NativeId>)
    requires Distinct(Hits(natives, names)) && |Hits(natives, names)| == |names|
    ensures ExactlyOnce(natives, names)
  {
    var hits := Hits(natives, names);
    HitsAreNames(natives, names);
    DistinctSize(hits);
    DistinctSize(names);
    SubsetSize(Elements(hits), Elements(names));
    SubsetOfSameSize(Elements(hits), Elements(names));
    forall i | 0 <= i < |names| ensures Occurrences(natives, names[i]) == 1 {
      assert names[i] in Elements(names) && names[i] in hits;
      DistinctByCount(hits);
      DistinctByCount(names);
      OccursOnce(natives, names, names[i]);
    }
  }

  lemma HitsCountOnce(natives: seq<Json>, names: seq<NativeId>, x: NativeId)
    requires ExactlyOnce(natives, names)
    ensures multiset(Hits(natives, names))[x] == if x in names then 1 else 0
  {
    HitsCount(natives, names, x);
    DistinctByCount(names);
    assert x in names <==> x in multiset(names);
    TimesAtMostOne(multiset(names)[x], Occurrences(natives, x));
  }

  lemma HitsFromOnce(natives: seq<Json>, names: seq<NativeId>)
    requires ExactlyOnce(natives, names)
    ensures Distinct(Hits(natives, names)) && |Hits(natives, names)| == |names|
  {
    var hits := Hits(natives, names);
    DistinctByCount(names);
    forall x: NativeId {
      HitsCountOnce(natives, names, x);
    }
    DistinctByCount(hits);
    forall x | x in names ensures x in hits {
      assert multiset(hits)[x] == 1;
    }
    HitsAreNames(natives, names);
    assert Elements(hits) == Elements(names);
    DistinctSize(hits);
    DistinctSize(names);
  }

  /** The scan's test, no repeated hit and as many hits as names, means that every name is distinct and occurs once. */
  lemma HitsMeanExactlyOnce(natives: seq<Json>, names: seq<NativeId>)
    ensures Distinct(Hits(natives, names)) && |Hits(natives, names)| == |names| <==> ExactlyOnce(natives, names)
  {
    if ExactlyOnce(natives, names) {
      HitsFromOnce(natives, names);
    } else if Distinct(Hits(natives, names)) && |Hits(natives, names)| == |names| {
      OnceFromHits(natives, names);
    }
  }

  // ---- the selection ----

  predicate LabelMatches(entry: Json, key: Utf8.Bytes, value: Option<Utf8.Bytes>) {
    match (entry.Get("Labels"), Decode(key))
    case (Some(Obj(labels)), Some(name)) =>
      name in labels && labels[name].Str? && (value.Some? ==> Encode(labels[name].text) == value.value)
    case _ => false
  }

  predicate Matches(entry: Json, selector: Selector) {
    match selector
    case AllContainers => true
    case ContainerNames(names) => Hits(Natives(entry), names) != []
    case NamePrefix(prefix) =>
      exists i :: 0 <= i < |Natives(entry)| && PrefixMatches(Natives(entry)[i], prefix)
    case Label(key, value) => LabelMatches(entry, key, value)
    case _ => false
  }

  /** The IDs of the matching entries, in list order. */
  function Selected(entries: seq<Json>, selector: Selector): seq<NativeId> {
    if entries == [] then []
    else
      var last := |entries| - 1;
      Selected(entries[..last], selector)
      + if Matches(entries[last], selector) && EntryId(entries[last]).Some? then [EntryId(entries[last]).value] else []
  }

  /** What the selector demands of the list beyond its shape. */
  predicate Chosen(entries: seq<Json>, selector: Selector) {
    && Admissible(selector)
    && match selector
       case ContainerNames(names) => ExactlyOnce(Listed(entries), names)
       case NamePrefix(_) => Selected(entries, selector) != []
       case Label(key, _) => Selected(entries, selector) != []
       case Discovery => true
       case AllContainers => true
       case _ => entries == []
  }

  /** One listed name against the requested ones; a requested name may be collected only once. */
  method MatchName(native: Json, names: seq<NativeId>, matched: set<NativeId>, ghost earlier: seq<NativeId>)
    returns (repeated: bool, seen: set<NativeId>, hit: bool)
    requires native.Str? && matched == Elements(earlier) && NoRepeat(earlier)
    ensures repeated == !NoRepeat(earlier + HitsOfName(native, names))
    ensures !repeated ==> seen == Elements(earlier + HitsOfName(native, names)) && hit == (HitsOfName(native, names) != [])
  {
    seen, hit, repeated := matched, false, false;
    assert names[..0] == [] && earlier + [] == earlier;
    for k := 0 to |names|
      invariant NoRepeat(earlier + HitsOfName(native, names[..k]))
      invariant seen == Elements(earlier + HitsOfName(native, names[..k]))
      invariant hit == (HitsOfName(native, names[..k]) != [])
    {
      NextName(native, names, k, earlier);
      if StripSlash(native.text) == StripSlashes(names[k]) {
        NoRepeatAppend(earlier + HitsOfName(native, names[..k]), names[k]);
        if names[k] in seen {
          NameRepeats(native, names, k + 1, earlier);
          repeated := true;
          return;
        }
        seen := seen + {names[k]};
        hit := true;
      }
    }
    assert names[..|names|] == names;
  }

  lemma NextName(native: Json, names: seq<NativeId>, k: nat, earlier: seq<NativeId>)
    requires k < |names|
    ensures HitsOfName(native, names[..k + 1]) == HitsOfName(native, names[..k]) + if NameMatches(native, names[k]) then [names[k]] else []
    ensures earlier + HitsOfName(native, names[..k + 1])
         == if NameMatches(native, names[k]) then (earlier + HitsOfName(native, names[..k])) + [names[k]]
            else earlier + HitsOfName(native, names[..k])
  {
    assert names[..k + 1][..k] == names[..k];
  }

  lemma NameRepeats(native: Json, names: seq<NativeId>, k: nat, earlier: seq<NativeId>)
    requires k <= |names| && !NoRepeat(earlier + HitsOfName(native, names[..k]))
    ensures !NoRepeat(earlier + HitsOfName(native, names))
  {
    HitsOfNamePrefix(native, names, k);
    if NoRepeat(earlier + HitsOfName(native, names)) {
      NoRepeatPrefix(earlier + HitsOfName(native, names[..k]), earlier + HitsOfName(native, names));
    }
  }

  /** One entry's names against the requested ones; `before` is what the earlier entries list. */
  method MatchNames(natives: seq<Json>, names: seq<NativeId>, matched: set<NativeId>, ghost before: seq<Json>)
    returns (r: Result<(set<NativeId>, bool), AcquisitionError>)
    requires matched == Elements(Hits(before, names)) && NoRepeat(Hits(before, names))
    ensures r.Ok? ==>
      && (forall i :: 0 <= i < |natives| ==> natives[i].Str?)
      && NoRepeat(Hits(before + natives, names))
      && r.value.0 == Elements(Hits(before + natives, names))
      && r.value.1 == (Hits(natives, names) != [])
    ensures r == Err(Selection) ==> !NoRepeat(Hits(before + natives, names))
    ensures r.Err? && r.error != Selection ==> r.error == Shape && exists i :: 0 <= i < |natives| && !natives[i].Str?
  {
    var seen, hit := matched, false;
    assert before + natives[..0] == before;
    for p := 0 to |natives|
      invariant forall i :: 0 <= i < p ==> natives[i].Str?
      invariant NoRepeat(Hits(before + natives[..p], names)) && seen == Elements(Hits(before + natives[..p], names))
      invariant hit == (Hits(natives[..p], names) != [])
    {
      if !natives[p].Str? { return Err(Shape); }
      ExtendHits(before, natives, p, names);
      var repeated, next, here := MatchName(natives[p], names, seen, Hits(before + natives[..p], names));
      if repeated {
        RepeatRemains(before, natives, p, names);
        return Err(Selection);
      }
      seen, hit := next, hit || here;
    }
    assert before + natives[..|natives|] == before + natives && natives[..|natives|] == natives;
    return Ok((seen, hit));
  }

  lemma ExtendHits(before: seq<Json>, natives: seq<Json>, p: nat, names: seq<NativeId>)
    requires p < |natives|
    ensures Hits(before + natives[..p + 1], names) == Hits(before + natives[..p], names) + HitsOfName(natives[p], names)
    ensures Hits(natives[..p + 1], names) == Hits(natives[..p], names) + HitsOfName(natives[p], names)
  {
    assert (before + natives[..p + 1])[..|before| + p] == before + natives[..p];
    assert natives[..p + 1][..p] == natives[..p];
  }

  lemma {:induction false} HitsOfNamePrefix(native: Json, names: seq<NativeId>, k: nat)
    requires k <= |names|
    ensures HitsOfName(native, names[..k]) <= HitsOfName(native, names)
  {
    if k < |names| {
      HitsOfNamePrefix(native, names[..|names| - 1], k);
      assert names[..|names| - 1][..k] == names[..k];
    } else {
      assert names[..k] == names;
    }
  }

  lemma {:induction false} HitsPrefix(natives: seq<Json>, names: seq<NativeId>, p: nat)
    requires p <= |natives|
    ensures Hits(natives[..p], names) <= Hits(natives, names)
  {
    if p < |natives| {
      HitsPrefix(natives[..|natives| - 1], names, p);
      assert natives[..|natives| - 1][..p] == natives[..p];
    } else {
      assert natives[..p] == natives;
    }
  }

  lemma PrefixRepeats(some: seq<Json>, all: seq<Json>, names: seq<NativeId>)
    requires some <= all && !NoRepeat(Hits(some, names))
    ensures !NoRepeat(Hits(all, names))
  {
    HitsPrefix(all, names, |some|);
    assert all[..|some|] == some;
    if NoRepeat(Hits(all, names)) {
      NoRepeatPrefix(Hits(some, names), Hits(all, names));
    }
  }

  lemma RepeatRemains(before: seq<Json>, natives: seq<Json>, p: nat, names: seq<NativeId>)
    requires p < |natives| && !NoRepeat(Hits(before + natives[..p + 1], names))
    ensures !NoRepeat(Hits(before + natives, names))
  {
    var some, all := before + natives[..p + 1], before + natives;
    assert forall i :: 0 <= i < |some| ==> some[i] == all[i];
    PrefixRepeats(some, all, names);
  }

  predicate PrefixMatches(native: Json, prefix: NativeId) {
    native.Str? && StripSlashes(prefix) <= StripSlash(native.text)
  }

  method MatchPrefix(natives: seq<Json>, prefix: NativeId) returns (r: Result<bool, AcquisitionError>)
    ensures r.Ok? ==>
      && (forall i :: 0 <= i < |natives| ==> natives[i].Str?)
      && r.value == exists i :: 0 <= i < |natives| && PrefixMatches(natives[i], prefix)
    ensures r.Err? ==> r.error == Shape && exists i :: 0 <= i < |natives| && !natives[i].Str?
  {
    var matches := false;
    for p := 0 to |natives|
      invariant forall i :: 0 <= i < p ==> natives[i].Str?
      invariant matches == exists i :: 0 <= i < p && PrefixMatches(natives[i], prefix)
    {
      if !natives[p].Str? { return Err(Shape); }
      matches := matches || StripSlashes(prefix) <= StripSlash(natives[p].text);
    }
    return Ok(matches);
  }

  /** The hits of a list, for the selector that requests names. */
  function HitsFor(natives: seq<Json>, selector: Selector): seq<NativeId> {
    if selector.ContainerNames? then Hits(natives, selector.names) else []
  }

  /** What makes an entry refuse the selector itself. */
  predicate Refuses(entry: Json, selector: Selector, before: seq<Json>) {
    || !NoRepeat(HitsFor(before + Natives(entry), selector))
    || !selector.Lists()
    || (selector.Label? && Decode(selector.key).None?)
  }

  /** Whether one entry matches, and the requested names collected so far. */
  method Consider(entry: Json, selector: Selector, matched: set<NativeId>, ghost before: seq<Json>)
    returns (r: Result<(set<NativeId>, bool), AcquisitionError>)
    requires EntryId(entry).Some?
    requires matched == Elements(HitsFor(before, selector)) && NoRepeat(HitsFor(before, selector))
    ensures r.Ok? ==>
      && EntryRead(entry, selector) && r.value.1 == Matches(entry, selector)
      && NoRepeat(HitsFor(before + Natives(entry), selector))
      && r.value.0 == Elements(HitsFor(before + Natives(entry), selector))
      && selector.Lists()
    ensures r == Err(Shape) ==> !EntryRead(entry, selector)
    ensures r.Err? && r.error != Shape ==> r.error == Selection && Refuses(entry, selector, before)
  {
    match selector
    case AllContainers => return Ok((matched, true));
    case Discovery => return Ok((matched, false));
    case ContainerNames(names) =>
      var listed := entry.Get("Names");
      if listed.None? || !listed.value.Arr? || |listed.value.items| > MAX_COLLECTION_ITEMS { return Err(Shape); }
      r := MatchNames(listed.value.items, names, matched, before);
    case NamePrefix(prefix) =>
      var listed := entry.Get("Names");
      if listed.None? || !listed.value.Arr? || |listed.value.items| > MAX_COLLECTION_ITEMS { return Err(Shape); }
      var found := MatchPrefix(listed.value.items, prefix);
      if found.Err? { return Err(found.error); }
      return Ok((matched, found.value));
    case Label(key, value) =>
      var labels := entry.Get("Labels");
      if labels.None? || !labels.value.Obj? || |labels.value.fields| > MAX_COLLECTION_ITEMS { return Err(Shape); }
      var name := Decode(key);
      if name.None? { return Err(Selection); }
      if name.value !in labels.value.fields { return Ok((matched, false)); }
      var found := labels.value.fields[name.value];
      if !found.Str? { return Err(Shape); }
      return Ok((matched, value.None? || Encode(found.text) == value.value));
    case _ => return Err(Selection);
  }

  predicate Selectable(parsed: Option<Json>, selector: Selector) {
    parsed.Some? && Shaped(parsed.value, selector) && Chosen(parsed.value.items, selector)
  }

  predicate AllRead(entries: seq<Json>, selector: Selector) {
    entries == [] || (AllRead(entries[..|entries| - 1], selector) && EntryRead(entries[|entries| - 1], selector))
  }

  lemma {:induction false} AllReadMeansEach(entries: seq<Json>, selector: Selector)
    ensures AllRead(entries, selector) <==> forall i :: 0 <= i < |entries| ==> EntryRead(entries[i], selector)
  {
    if entries != [] {
      var front := entries[..|entries| - 1];
      AllReadMeansEach(front, selector);
      assert forall i :: 0 <= i < |front| ==> front[i] == entries[i];
    }
  }

  lemma {:induction false} AllReadPrefix(entries: seq<Json>, e: nat, selector: Selector)
    requires e < |entries| && AllRead(entries, selector)
    ensures EntryRead(entries[e], selector)
  {
    AllReadMeansEach(entries, selector);
  }

  lemma Extend(entries: seq<Json>, e: nat, selector: Selector)
    requires e < |entries|
    ensures AllRead(entries[..e + 1], selector) <==> AllRead(entries[..e], selector) && EntryRead(entries[e], selector)
    ensures Ids(entries[..e + 1])
         == Ids(entries[..e]) + if EntryId(entries[e]).Some? then [EntryId(entries[e]).value] else []
    ensures Listed(entries[..e + 1]) == Listed(entries[..e]) + Natives(entries[e])
    ensures Selected(entries[..e + 1], selector)
         == Selected(entries[..e], selector)
            + if Matches(entries[e], selector) && EntryId(entries[e]).Some? then [EntryId(entries[e]).value] else []
  {
    assert entries[..e + 1][..e] == entries[..e];
  }

  lemma {:induction false} IdsPrefix(entries: seq<Json>, e: nat)
    requires e <= |entries|
    ensures Ids(entries[..e]) <= Ids(entries)
  {
    if e < |entries| {
      IdsPrefix(entries[..|entries| - 1], e);
      assert entries[..|entries| - 1][..e] == entries[..e];
    } else {
      assert entries[..e] == entries;
    }
  }

  lemma {:induction false} ListedPrefix(entries: seq<Json>, e: nat)
    requires e <= |entries|
    ensures Listed(entries[..e]) <= Listed(entries)
  {
    if e < |entries| {
      ListedPrefix(entries[..|entries| - 1], e);
      assert entries[..|entries| - 1][..e] == entries[..e];
    } else {
      assert entries[..e] == entries;
    }
  }

  /** A repeat found after some entries is still there after all of them, so the names do not occur exactly once. */
  lemma RepeatRefusesAll(entries: seq<Json>, e: nat, selector: Selector)
    requires e < |entries| && !NoRepeat(HitsFor(Listed(entries[..e]) + Natives(entries[e]), selector))
    ensures selector.ContainerNames? && !Chosen(entries, selector)
  {
    assert selector.ContainerNames?;
    Extend(entries, e, selector);
    ListedPrefix(entries, e + 1);
    var some, all := Listed(entries[..e + 1]), Listed(entries);
    HitsPrefix(all, selector.names, |some|);
    assert all[..|some|] == some;
    if ExactlyOnce(all, selector.names) {
      HitsFromOnce(all, selector.names);
      DistinctSize(Hits(all, selector.names));
      NoRepeatPrefix(Hits(some, selector.names), Hits(all, selector.names));
    }
  }

  lemma {:induction false} UndecodableKeyMatchesNothing(entries: seq<Json>, selector: Selector)
    requires selector.Label? && Decode(selector.key).None?
    ensures Selected(entries, selector) == []
  {
    if entries != [] {
      UndecodableKeyMatchesNothing(entries[..|entries| - 1], selector);
    }
  }

  /** A refused entry refuses the whole list. */
  lemma ConsideredRefuses(entries: seq<Json>, e: nat, selector: Selector)
    requires e < |entries| && Refuses(entries[e], selector, Listed(entries[..e]))
    ensures !Chosen(entries, selector)
  {
    if selector.Label? && Decode(selector.key).None? {
      UndecodableKeyMatchesNothing(entries, selector);
    } else if selector.Lists() {
      RepeatRefusesAll(entries, e, selector);
    }
  }

  lemma RepeatedIdRefuses(entries: seq<Json>, e: nat)
    requires e < |entries| && !NoRepeat(Ids(entries[..e + 1]))
    ensures !NoRepeat(Ids(entries))
  {
    IdsPrefix(entries, e + 1);
    if NoRepeat(Ids(entries)) {
      NoRepeatPrefix(Ids(entries[..e + 1]), Ids(entries));
    }
  }

  /** The loop over the list: the selected IDs and the requested names that were met. */
  method Scan(entries: seq<Json>, selector: Selector) returns (r: Result<(seq<NativeId>, set<NativeId>), AcquisitionError>)
    requires Admissible(selector)
    ensures r.Ok? ==>
      && AllRead(entries, selector) && NoRepeat(Ids(entries)) && NoRepeat(HitsFor(Listed(entries), selector))
      && (entries != [] ==> selector.Lists())
      && r.value == (Selected(entries, selector), Elements(HitsFor(Listed(entries), selector)))
    ensures r == Err(Shape) ==>
      !NoRepeat(Ids(entries)) || !AllRead(entries, selector)
    ensures r.Err? && r.error != Shape ==>
      && r.error == Selection
      && exists e :: 0 <= e < |entries| && Refuses(entries[e], selector, Listed(entries[..e]))
  {
    var selected: seq<NativeId>, matched: set<NativeId>, seen: set<NativeId> := [], {}, {};
    assert entries[..0] == [];
    for e := 0 to |entries|
      invariant AllRead(entries[..e], selector)
      invariant NoRepeat(Ids(entries[..e])) && seen == Elements(Ids(entries[..e]))
      invariant NoRepeat(HitsFor(Listed(entries[..e]), selector))
      invariant matched == Elements(HitsFor(Listed(entries[..e]), selector))
      invariant selected == Selected(entries[..e], selector)
      invariant e > 0 ==> selector.Lists()
    {
      Extend(entries, e, selector);
      var id := EntryId(entries[e]);
      if AllRead(entries, selector) { AllReadPrefix(entries, e, selector); }
      if id.None? { return Err(Shape); }
      NoRepeatAppend(Ids(entries[..e]), id.value);
      if id.value in seen {
        RepeatedIdRefuses(entries, e);
        return Err(Shape);
      }
      seen := seen + {id.value};
      var considered := Consider(entries[e], selector, matched, Listed(entries[..e]));
      if considered.Err? { return Err(considered.error); }
      matched := considered.value.0;
      if considered.value.1 { selected := selected + [id.value]; }
    }
    assert entries[..|entries|] == entries;
    return Ok((selected, matched));
  }

  method SelectIds(parsed: Option<Json>, selector: Selector) returns (r: Result<seq<NativeId>, AcquisitionError>)
    ensures r.Ok? <==> Selectable(parsed, selector)
    ensures r.Ok? ==> r.value == Selected(parsed.value.items, selector)
    ensures r.Err? ==> r.error == Shape || r.error == Selection
    ensures r == Err(Shape) ==> parsed.None? || !Shaped(parsed.value, selector)
    ensures r == Err(Selection) ==> parsed.Some? && parsed.value.Arr? && !Chosen(parsed.value.items, selector)
  {
    if parsed.None? || !parsed.value.Arr? { return Err(Shape); }
    var entries := parsed.value.items;
    if |entries| > MAX_COLLECTION_ITEMS { return Err(Shape); }
    if !Admissible(selector) { return Err(Selection); }
    AllReadMeansEach(entries, selector);
    var scanned := Scan(entries, selector);
    if scanned.Err? {
      if scanned.error == Selection {
        var e :| 0 <= e < |entries| && Refuses(entries[e], selector, Listed(entries[..e]));
        ConsideredRefuses(entries, e, selector);
      }
      return Err(scanned.error);
    }
    var (selected, matched) := scanned.value;
    if selector.ContainerNames? {
      HitsMeanExactlyOnce(Listed(entries), selector.names);
      DistinctSize(Hits(Listed(entries), selector.names));
      if |matched| != |selector.names| { return Err(Selection); }
    }
    if (selector.NamePrefix? || selector.Label?) && selected == [] { return Err(Selection); }
    return Ok(selected);
  }

  // ---- what a selection is ----

  /** The entry at this position matches and has the ID. */
  predicate PickedAt(entries: seq<Json>, selector: Selector, position: nat, id: NativeId) {
    position < |entries| && Matches(entries[position], selector) && EntryId(entries[position]) == Some(id)
  }

  /** The positions give these IDs in turn, none twice, and leave no matching entry out. */
  ghost predicate PicksIds(entries: seq<Json>, selector: Selector, positions: seq<nat>, ids: seq<NativeId>) {
    && |positions| == |ids|
    && (forall k :: 0 <= k < |positions| ==> PickedAt(entries, selector, positions[k], ids[k]))
    && (forall j, k :: 0 <= j < k < |positions| ==> positions[j] < positions[k])
    && (forall i :: 0 <= i < |entries| && Matches(entries[i], selector) && EntryId(entries[i]).Some? ==> i in positions)
  }

  /** The positions of the matching entries: ascending, each giving one selected ID in turn, and none of them left out. */
  ghost predicate Picks(entries: seq<Json>, selector: Selector, positions: seq<nat>) {
    PicksIds(entries, selector, positions, Selected(entries, selector))
  }

  /** One more entry, which matches or not. */
  lemma PicksMore(entries: seq<Json>, entry: Json, selector: Selector, positions: seq<nat>, ids: seq<NativeId>)
    requires PicksIds(entries, selector, positions, ids)
    ensures if Matches(entry, selector) && EntryId(entry).Some?
      then PicksIds(entries + [entry], selector, positions + [|entries|], ids + [EntryId(entry).value])
      else PicksIds(entries + [entry], selector, positions, ids)
  {
    var more := entries + [entry];
    assert more[|entries|] == entry && forall i :: 0 <= i < |entries| ==> more[i] == entries[i];
    forall k | 0 <= k < |positions| ensures PickedAt(more, selector, positions[k], ids[k]) {
      assert PickedAt(entries, selector, positions[k], ids[k]);
    }
    if Matches(entry, selector) && EntryId(entry).Some? {
      PickLast(entries, entry, selector, positions, ids);
    }
  }

  lemma PickLast(entries: seq<Json>, entry: Json, selector: Selector, positions: seq<nat>, ids: seq<NativeId>)
    requires PicksIds(entries, selector, positions, ids) && Matches(entry, selector) && EntryId(entry).Some?
    ensures PicksIds(entries + [entry], selector, positions + [|entries|], ids + [EntryId(entry).value])
  {
    var more, places, all := entries + [entry], positions + [|entries|], ids + [EntryId(entry).value];
    forall k | 0 <= k < |places| ensures PickedAt(more, selector, places[k], all[k]) {
      if k < |positions| { assert PickedAt(entries, selector, positions[k], ids[k]); }
    }
    forall j, k | 0 <= j < k < |places| ensures places[j] < places[k] {
      assert PickedAt(entries, selector, positions[j], ids[j]);
    }
    forall i | 0 <= i < |more| && Matches(more[i], selector) && EntryId(more[i]).Some? ensures i in places {
      if i == |entries| { assert places[|positions|] == i; } else { assert more[i] == entries[i] && i in positions; }
    }
  }

  /** The selected IDs are those of the matching entries, in list order. */
  lemma {:induction false} SelectedPicks(entries: seq<Json>, selector: Selector) returns (positions: seq<nat>)
    ensures Picks(entries, selector, positions)
  {
    if entries == [] {
      positions := [];
    } else {
      var last := |entries| - 1;
      positions := SelectedPicks(entries[..last], selector);
      PicksMore(entries[..last], entries[last], selector, positions, Selected(entries[..last], selector));
      assert entries[..last] + [entries[last]] == entries;
      if Matches(entries[last], selector) && EntryId(entries[last]).Some? { positions := positions + [last]; }
    }
  }

  lemma {:induction false} IdAt(entries: seq<Json>, i: nat) returns (k: nat)
    requires i < |entries| && EntryId(entries[i]).Some?
    ensures k < |Ids(entries)| && Ids(entries)[k] == EntryId(entries[i]).value
    ensures k == |Ids(entries[..i])|
  {
    var last := |entries| - 1;
    if i < last {
      k := IdAt(entries[..last], i);
      assert entries[..last][..i] == entries[..i];
    } else {
      k := |Ids(entries[..last])|;
    }
  }

  /** Where the listed IDs are distinct, nothing is selected twice. */
  lemma SelectedDistinct(entries: seq<Json>, selector: Selector)
    requires NoRepeat(Ids(entries))
    ensures Distinct(Selected(entries, selector))
  {
    var positions := SelectedPicks(entries, selector);
    var selected := Selected(entries, selector);
    DistinctSize(Ids(entries));
    forall j, k | 0 <= j < k < |selected| ensures selected[j] != selected[k] {
      var a := IdAt(entries, positions[j]);
      var b := IdAt(entries, positions[k]);
      IdsAscend(entries, positions[j], positions[k]);
    }
  }

  lemma {:induction false} IdsAscend(entries: seq<Json>, i: nat, j: nat)
    requires i < j <= |entries| && EntryId(entries[i]).Some?
    ensures |Ids(entries[..i])| < |Ids(entries[..j])|
  {
    var front := entries[..j];
    assert front[..j - 1] == entries[..j - 1];
    if i < j - 1 {
      IdsAscend(entries, i, j - 1);
    }
  }

  /** A selection by exact names: the requested names are distinct, each occurs at one position of one container, and the result is the
      duplicate-free list of the containers they match, in list order. */
  lemma ExactNamesSelected(list: Json, names: seq<NativeId>) returns (positions: seq<nat>)
    requires Selectable(Some(list), ContainerNames(names))
    ensures Distinct(names) && forall i :: 0 <= i < |names| ==> Occurrences(Listed(list.items), names[i]) == 1
    ensures Picks(list.items, ContainerNames(names), positions) && Distinct(Selected(list.items, ContainerNames(names)))
  {
    positions := SelectedPicks(list.items, ContainerNames(names));
    SelectedDistinct(list.items, ContainerNames(names));
  }

  /** A listed container under one name. */
  function NamedEntry(id: NativeId, name: string): Json {
    Obj(map["Id" := Str(id), "Names" := Arr([Str(name)])])
  }

  function Spellings(name: NativeId): seq<NativeId> {
    [name, "/" + name]
  }

  lemma SpellingsMatch(name: NativeId)
    requires name[0] != '/'
    ensures forall i :: 0 <= i < 2 ==> NameMatches(Str("/" + name), Spellings(name)[i])
  {
    var slashed := "/" + name;
    assert slashed[1..] == name;
    assert StripSlash(slashed) == name && StripSlashes(name) == name && StripSlashes(slashed) == StripSlashes(slashed[1..]);
  }

  lemma SpellingsOnce(name: NativeId)
    requires name[0] != '/'
    ensures ExactlyOnce([Str("/" + name)], Spellings(name))
  {
    var native := Str("/" + name);
    SpellingsMatch(name);
    assert [native][..0] == [];
    forall i | 0 <= i < 2 ensures Occurrences([native], Spellings(name)[i]) == 1 {
      assert NameMatches(native, Spellings(name)[i]);
    }
  }

  lemma SpellingsAdmissible(name: NativeId)
    requires LiteralName(name) && name[0] != '/'
    ensures Admissible(ContainerNames(Spellings(name)))
  {
    assert StripSlash("/" + name) == name == StripSlash(name);
  }

  lemma EntryReads(id: NativeId, name: string, names: seq<NativeId>)
    requires CanonicalId(id)
    ensures Shaped(Arr([NamedEntry(id, name)]), ContainerNames(names))
    ensures EntryId(NamedEntry(id, name)) == Some(id) && Listed([NamedEntry(id, name)]) == [Str(name)]
  {
    var entry := NamedEntry(id, name);
    assert Natives(entry) == [Str(name)] && [entry][..0] == [];
    assert EntryRead(entry, ContainerNames(names));
    NoRepeatSingle(id, entry);
  }

  /** Names are compared without their leading slashes but counted as they were requested: asked for under both spellings, a container
      is selected, once. */
  lemma TwoSpellings(id: NativeId, name: NativeId)
    requires CanonicalId(id) && LiteralName(name) && name[0] != '/'
    ensures var entries := [NamedEntry(id, "/" + name)];
      && Selectable(Some(Arr(entries)), ContainerNames(Spellings(name)))
      && Selected(entries, ContainerNames(Spellings(name))) == [id]
  {
    var entry := NamedEntry(id, "/" + name);
    EntryReads(id, "/" + name, Spellings(name));
    SpellingsOnce(name);
    SpellingsAdmissible(name);
    SpellingsMatch(name);
    SpellingsHit(Str("/" + name), Spellings(name));
    SelectedSingle(entry, id, ContainerNames(Spellings(name)));
  }

  lemma SelectedSingle(entry: Json, id: NativeId, selector: Selector)
    requires EntryId(entry) == Some(id) && Matches(entry, selector)
    ensures Selected([entry], selector) == [id]
  {
    assert [entry][..0] == [];
  }

  lemma SpellingsHit(native: Json, names: seq<NativeId>)
    requires names != [] && NameMatches(native, names[|names| - 1])
    ensures Hits([native], names) != []
  {
    assert [native][..0] == [];
    assert HitsOfName(native, names)[|HitsOfName(native, names)| - 1] == names[|names| - 1];
  }

  lemma NoRepeatSingle(id: NativeId, entry: Json)
    requires EntryId(entry) == Some(id)
    ensures Ids([entry]) == [id] && NoRepeat(Ids([entry]))
  {
    assert [entry][..0] == [];
    DistinctSize([id]);
  }
}
