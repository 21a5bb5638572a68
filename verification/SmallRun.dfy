/** A smallest run with an expansion: one container by ID, which mentions one network by name only. */
module SmallRun {
  import opened Outcome
  import opened Json
  import opened Numerals
  import opened Protocol
  import opened Sequences
  import opened Related
  import opened Versions
  import opened Completion
  import A = AcquiredReplay
  import D = Decoder

  const API := ApiVersion(1, 41)

  function VersionBody(text: string): Json {
    Obj(map["ApiVersion" := Str(text)])
  }

  function InfoBody(): Json {
    Obj(map[])
  }

  function ContainerBody(id: NativeId, network: NativeId): Json {
    Obj(map["Id" := Str(id), "NetworkSettings" := Obj(map["Networks" := Obj(map[network := Obj(map[])])])])
  }

  function NetworkBody(network: NativeId): Json {
    Obj(map["Id" := Str("n1"), "Name" := Str(network)])
  }

  /** The bodies are one byte each, and this is what they say. */
  function Parse(text: string, id: NativeId, network: NativeId): D.Parser {
    (b: Utf8.Bytes) =>
      if b == [0] then Some(VersionBody(text))
      else if b == [1] then Some(InfoBody())
      else if b == [2] then Some(ContainerBody(id, network))
      else if b == [3] then Some(NetworkBody(network))
      else None
  }

  function ThePlan(id: NativeId, network: NativeId): Plan {
    Plan(API, ContainerIds([id]), [id], [network], map[network := true], [])
  }

  function TheLog(id: NativeId, network: NativeId): Log {
    Log([Exchange(DaemonVersion, None, None, 200, [0]), Exchange(DaemonInfo, None, Some(API), 200, [1])],
        [Exchange(InspectContainer(id), Some(1), Some(API), 200, [2])],
        [Exchange(InspectNetwork(network), Some(2), Some(API), 200, [3])])
  }

  function NoFaults(): D.Decoders {
    D.Decoders(_ => None, _ => None, _ => None, _ => None)
  }

  lemma MentionsOne(id: NativeId, network: NativeId)
    ensures Mentions(ContainerBody(id, network)) == {Mention(network, true)} && Mounted(ContainerBody(id, network)) == {}
  {
    var body := ContainerBody(id, network);
    var endpoints: map<string, Json> := map[network := Obj(map[])];
    assert Endpoints(body) == Some(Obj(endpoints));
    assert MentionOf(network, endpoints[network]) == Mention(network, true);
  }

  lemma Opens(text: string, id: NativeId, network: NativeId)
    requires ParseApi(text) == Some(API)
    ensures OpeningDone(Parse(text, id, network), TheLog(id, network).opening, ThePlan(id, network))
  {
    assert VersionBody(text).GetStr("ApiVersion") == Some(text);
    assert [id][..0] == [];
  }

  lemma Tables(text: string, id: NativeId, network: NativeId)
    ensures var parse, bodies := Parse(text, id, network), TheLog(id, network).containers;
      AllMentions(parse, bodies) == {Mention(network, true)} && AllMounted(parse, bodies) == {}
  {
    var parse, bodies := Parse(text, id, network), TheLog(id, network).containers;
    MentionsOne(id, network);
    assert bodies[..0] == [] && parse(bodies[0].body) == Some(ContainerBody(id, network));
    assert (set v | v in Mounted(ContainerBody(id, network))) == {};
  }

  lemma Settles(text: string, id: NativeId, network: NativeId)
    ensures Settled(Parse(text, id, network), ThePlan(id, network), TheLog(id, network).containers)
  {
    var parse, plan, bodies := Parse(text, id, network), ThePlan(id, network), TheLog(id, network).containers;
    Tables(text, id, network);
    assert Answered(parse, bodies[0], 1, ContainerVisits(plan.containers)[0], API);
    assert Merged(map[], {Mention(network, true)}, plan.byName);
    assert Elements(plan.networks) == plan.byName.Keys;
  }

  lemma Relates(text: string, id: NativeId, network: NativeId)
    ensures ThePlan(id, network).Flags()
    ensures RelatedDone(Parse(text, id, network), ThePlan(id, network), TheLog(id, network).related)
  {
    var parse, plan, related := Parse(text, id, network), ThePlan(id, network), TheLog(id, network).related;
    assert Answered(parse, related[0], 2, RelatedVisits(plan)[0], API);
    DistinctSize(NativeIds(parse, related[..1], Network));
  }

  lemma Completes(text: string, id: NativeId, network: NativeId)
    requires ParseApi(text) == Some(API)
    ensures ThePlan(id, network).Flags()
    ensures Completed(Parse(text, id, network), CaptureOf(ThePlan(id, network), TheLog(id, network)), ThePlan(id, network), TheLog(id, network))
  {
    Opens(text, id, network);
    Settles(text, id, network);
    Relates(text, id, network);
  }

  lemma Unread(key: string, field: D.FieldPath)
    requires key != "ApiVersion"
    ensures forall text: string :: D.Readable(VersionBody(text), key, field) == Ok(None)
    ensures D.Readable(InfoBody(), key, field) == Ok(None)
  {
    forall text: string ensures D.Readable(VersionBody(text), key, field) == Ok(None) {
      var body := VersionBody(text);
      assert "ApiVersion" in body.fields && "ApiVersion" !in map[D.REDACTED := Bool(true)];
      assert !D.Unavailable(body);
    }
    assert !D.Unavailable(InfoBody()) by { assert D.REDACTED !in InfoBody().fields; }
  }

  lemma Unobserved(key: string, field: D.FieldPath)
    ensures D.ObserveBool(InfoBody(), key, field).Ok?
  {
    assert !D.Unavailable(InfoBody()) by { assert D.REDACTED !in InfoBody().fields; }
  }

  lemma OpeningReads(text: string, id: NativeId, network: NativeId)
    ensures A.OpeningReads(Parse(text, id, network), TheLog(id, network).opening, ContainerIds([id]), NoFaults())
  {
    Unread("Version", D.EngineRelease);
    Unread("ServerVersion", D.EngineRelease);
    Unread("SecurityOptions", D.DaemonModeField);
    Unread("Rootless", D.DaemonModeField);
    Unobserved("MemoryLimit", D.ResourceLimit);
    Unobserved("SwapLimit", D.ResourceLimit);
    assert A.VersionReads(Some(VersionBody(text)));
    assert A.InfoReads(Some(InfoBody()));
  }

  lemma BodiesRead(text: string, id: NativeId, network: NativeId)
    requires ThePlan(id, network).Flags()
    ensures var log := TheLog(id, network);
      A.BodiesRead(Parse(text, id, network), NoFaults(), ThePlan(id, network), log.opening, log.containers + log.related)
  {
    OpeningReads(text, id, network);
  }

  /** Completed logs exist, for any container and network, and replay accepts this one. */
  lemma Accepted(id: NativeId, network: NativeId) returns (parse: D.Parser, capture: Capture)
    ensures Completed(parse, capture, ThePlan(id, network), TheLog(id, network))
    ensures D.Decoded(capture, parse, NoFaults()).Ok?
  {
    PrintedApiParses(API);
    var text := Decimal(1) + "." + Decimal(41);
    parse := Parse(text, id, network);
    capture := Example(text, id, network);
  }

  lemma Example(text: string, id: NativeId, network: NativeId) returns (capture: Capture)
    requires ParseApi(text) == Some(API)
    ensures Completed(Parse(text, id, network), capture, ThePlan(id, network), TheLog(id, network))
    ensures D.Decoded(capture, Parse(text, id, network), NoFaults()).Ok?
  {
    Completes(text, id, network);
    BodiesRead(text, id, network);
    capture := CaptureOf(ThePlan(id, network), TheLog(id, network));
    A.AcquiredReplays(Parse(text, id, network), capture, ThePlan(id, network), TheLog(id, network), NoFaults());
  }
}
