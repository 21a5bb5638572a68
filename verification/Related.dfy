/** The networks and volumes that an inspected container mentions, and how mentions merge. */
module Related {
  import opened Outcome
  import opened Json
  import opened Protocol
  import opened Sequences

  /** A network by its ID, or by its endpoint's name when the ID is missing or empty. */
  datatype Mention = Mention(id: string, byName: bool)

  function MentionOf(name: string, endpoint: Json): Mention {
    match endpoint.GetStr("NetworkID")
    case Some(id) => if id != "" then Mention(id, false) else Mention(name, true)
    case None => Mention(name, true)
  }

  /** The endpoint table of a container body; nothing when it is absent or null. */
  function Endpoints(body: Json): Option<Json> {
    match body.Get("NetworkSettings")
    case None => None
    case Some(settings) => settings.GetNonNull("Networks")
  }

  predicate EndpointsShaped(body: Json) {
    match Endpoints(body)
    case None => true
    case Some(table) =>
      && table.Obj? && |table.fields| <= MAX_COLLECTION_ITEMS
      && forall name :: name in table.fields ==> MentionOf(name, table.fields[name]).id != ""
  }

  function Mentions(body: Json): set<Mention> {
    match Endpoints(body)
    case Some(Obj(fields)) => set name | name in fields :: MentionOf(name, fields[name])
    case _ => {}
  }

  predicate VolumeMount(mount: Json) {
    mount.GetStr("Type") == Some("volume")
  }

  predicate MountShaped(mount: Json) {
    VolumeMount(mount) ==> mount.GetStr("Name").Some? && mount.GetStr("Name").value != ""
  }

  predicate MountsShaped(body: Json) {
    match body.GetNonNull("Mounts")
    case None => true
    case Some(mounts) =>
      && mounts.Arr? && |mounts.items| <= MAX_COLLECTION_ITEMS
      && forall i :: 0 <= i < |mounts.items| ==> MountShaped(mounts.items[i])
  }

  function MountNames(mounts: seq<Json>): set<NativeId> {
    if mounts == [] then {}
    else
      var last := |mounts| - 1;
      var name := mounts[last].GetStr("Name");
      MountNames(mounts[..last])
      + if VolumeMount(mounts[last]) && name.Some? && name.value != "" then {name.value} else {}
  }

  function Mounted(body: Json): set<NativeId> {
    match body.GetNonNull("Mounts")
    case Some(Arr(items)) => MountNames(items)
    case _ => {}
  }

  predicate Expandable(parsed: Option<Json>) {
    parsed.Some? && parsed.value.Obj? && EndpointsShaped(parsed.value) && MountsShaped(parsed.value)
  }

  datatype RelatedResources = RelatedResources(networks: seq<Mention>, volumes: seq<NativeId>)

  method NetworksOf(body: Json) returns (r: Result<seq<Mention>, AcquisitionError>)
    ensures r.Ok? <==> EndpointsShaped(body)
    ensures r.Ok? ==> Elements(r.value) == Mentions(body)
    ensures r.Err? ==> r.error == Shape
  {
    var table := Endpoints(body);
    if table.None? { return Ok([]); }
    if !table.value.Obj? || |table.value.fields| > MAX_COLLECTION_ITEMS { return Err(Shape); }
    var fields := table.value.fields;
    var networks, todo := [], fields.Keys;
    // The table's own order is not relied on: any key may come next.
    while todo != {}
      invariant todo <= fields.Keys
      invariant forall name :: name in fields && name !in todo ==> MentionOf(name, fields[name]).id != ""
      invariant Elements(networks) == set name | name in fields && name !in todo :: MentionOf(name, fields[name])
      decreases todo
    {
      var name :| name in todo;
      var mention := MentionOf(name, fields[name]);
      if mention.id == "" { return Err(Shape); }
      ElementsOfAppend(networks, mention);
      networks, todo := networks + [mention], todo - {name};
    }
    assert forall name :: name in fields <==> name in fields && name !in todo;
    return Ok(networks);
  }

  lemma {:induction false} MountNamesPrefix(mounts: seq<Json>, i: nat)
    requires i < |mounts|
    ensures MountNames(mounts[..i + 1]) == MountNames(mounts[..i]) + MountNames([mounts[i]])
  {
    assert mounts[..i + 1][..i] == mounts[..i];
    assert [mounts[i]][..0] == [];
  }

  method VolumesOf(body: Json) returns (r: Result<seq<NativeId>, AcquisitionError>)
    ensures r.Ok? <==> MountsShaped(body)
    ensures r.Ok? ==> Elements(r.value) == Mounted(body)
    ensures r.Err? ==> r.error == Shape
  {
    var mounts := body.GetNonNull("Mounts");
    if mounts.None? { return Ok([]); }
    if !mounts.value.Arr? || |mounts.value.items| > MAX_COLLECTION_ITEMS { return Err(Shape); }
    r := VolumesIn(mounts.value.items);
  }

  method VolumesIn(items: seq<Json>) returns (r: Result<seq<NativeId>, AcquisitionError>)
    ensures r.Ok? <==> forall k :: 0 <= k < |items| ==> MountShaped(items[k])
    ensures r.Ok? ==> Elements(r.value) == MountNames(items)
    ensures r.Err? ==> r.error == Shape
  {
    var volumes: seq<NativeId> := [];
    for i := 0 to |items|
      invariant forall k :: 0 <= k < i ==> MountShaped(items[k])
      invariant Elements(volumes) == MountNames(items[..i])
    {
      MountNamesPrefix(items, i);
      assert [items[i]][..0] == [];
      if VolumeMount(items[i]) {
        var name := items[i].GetStr("Name");
        if name.None? || name.value == "" { return Err(Shape); }
        var id: NativeId := name.value;
        ElementsOfAppend(volumes, id);
        volumes := volumes + [id];
      }
    }
    assert items[..|items|] == items;
    return Ok(volumes);
  }

  method RelatedIds(parsed: Option<Json>) returns (r: Result<RelatedResources, AcquisitionError>)
    ensures r.Ok? <==> Expandable(parsed)
    ensures r.Ok? ==> Elements(r.value.networks) == Mentions(parsed.value) && Elements(r.value.volumes) == Mounted(parsed.value)
    ensures r.Err? ==> r.error == Shape
  {
    if parsed.None? || !parsed.value.Obj? { return Err(Shape); }
    var networks := NetworksOf(parsed.value);
    if networks.Err? { return Err(networks.error); }
    var volumes := VolumesOf(parsed.value);
    if volumes.Err? { return Err(volumes.error); }
    return Ok(RelatedResources(networks.value, volumes.value));
  }

  // ---- merging ----

  /** `after` knows the networks of `before` and of the mentions; by-name only where every mention, and the earlier flag, is. */
  ghost predicate Merged(before: map<string, bool>, mentions: set<Mention>, after: map<string, bool>) {
    && after.Keys == before.Keys + (set m | m in mentions :: m.id)
    && forall id :: id in after ==>
         (after[id] <==> (id in before ==> before[id]) && forall m :: m in mentions && m.id == id ==> m.byName)
  }

  lemma MergedTwice(a: map<string, bool>, m: set<Mention>, b: map<string, bool>, n: set<Mention>, c: map<string, bool>)
    requires Merged(a, m, b) && Merged(b, n, c)
    ensures Merged(a, m + n, c)
  {
    assert c.Keys == a.Keys + (set x | x in m + n :: x.id);
    forall id | id in c
      ensures c[id] <==> (id in a ==> a[id]) && forall x :: x in m + n && x.id == id ==> x.byName
    {
      if id in b {
        assert b[id] <==> (id in a ==> a[id]) && forall x :: x in m && x.id == id ==> x.byName;
      } else {
        assert id !in a && forall x :: x in m ==> x.id != id;
      }
    }
  }

  function MergeOne(networks: map<string, bool>, mention: Mention): map<string, bool> {
    networks[mention.id := (mention.id in networks ==> networks[mention.id]) && mention.byName]
  }

  lemma MergeStep(known: map<string, bool>, seen: set<Mention>, before: map<string, bool>, mention: Mention)
    requires Merged(known, seen, before)
    ensures Merged(known, seen + {mention}, MergeOne(before, mention))
  {
    assert Merged(before, {mention}, MergeOne(before, mention));
    MergedTwice(known, seen, before, {mention}, MergeOne(before, mention));
  }

  /** One mention against the known networks and the ones collected apart. */
  function MergeApart(settled: map<string, bool>, added: map<string, bool>, m: Mention): (r: (map<string, bool>, map<string, bool>))
    requires settled.Keys !! added.Keys
    ensures r.0.Keys == settled.Keys && r.0.Keys !! r.1.Keys
    ensures r.0 + r.1 == MergeOne(settled + added, m)
  {
    if m.id in settled then (settled[m.id := settled[m.id] && m.byName], added)
    else if m.id in added then (settled, added[m.id := added[m.id] && m.byName])
    else (settled, added[m.id := m.byName])
  }

  /** Mentions of known networks weaken their flags at once; the others are collected apart, to be projected first. */
  method MergeNetworks(known: map<string, bool>, mentions: seq<Mention>)
    returns (settled: map<string, bool>, added: map<string, bool>)
    ensures settled.Keys == known.Keys && added.Keys !! known.Keys
    ensures Merged(known, Elements(mentions), settled + added)
  {
    settled, added := known, map[];
    assert settled + added == known;
    assert mentions[..0] == [];
    for i := 0 to |mentions|
      invariant settled.Keys == known.Keys && added.Keys !! settled.Keys
      invariant Merged(known, Elements(mentions[..i]), settled + added)
    {
      MergeStep(known, Elements(mentions[..i]), settled + added, mentions[i]);
      var merged := MergeApart(settled, added, mentions[i]);
      settled, added := merged.0, merged.1;
      assert mentions[..i + 1] == mentions[..i] + [mentions[i]];
      ElementsOfAppend(mentions[..i], mentions[i]);
    }
    assert mentions[..|mentions|] == mentions;
  }
}
