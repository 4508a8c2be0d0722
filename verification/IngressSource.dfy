/** An ingress source: its request to the server and the port it listens on (src/sources/ingress-link-source.cpp). */
module IngressSource {
  import opened Schema
  import opened Ports
  import opened LinkEndpoints
  import opened Text
  import opened ApiClient

  /** The request body that describes a source to the server. */
  datatype DownlinkRequest = DownlinkRequest(
    protocol: string,
    lanServer: string,
    stageId: string,
    seatName: string,
    sourceName: string,
    maxBitrate: int,
    minBitrate: int,
    width: int,
    height: int,
    relay: bool,
    streamId: string,
    parameters: seq<QueryItem>,
    port: int,
    revision: int
  )

  /** The settings of a source, with the client's own settings they fall back to. */
  datatype SourceSettings = SourceSettings(
    protocol: string,
    lanServer: string,
    stageId: string,
    seatName: string,
    sourceName: string,
    maxBitrate: int,
    minBitrate: int,
    width: int,
    height: int,
    relay: bool,
    advanced: bool,
    srtLatency: int,
    defaultLatency: int,
    pbkeylen: int,
    hwDecode: bool,
    clearOnMediaEnd: bool,
    reconnectDelaySec: int,
    defaultReconnectDelaySec: int,
    bufferingMb: int,
    defaultBufferingMb: int
  )

  /** `compositeParameters`. */
  function CompositeParameters(s: SourceSettings): seq<QueryItem> {
    if s.protocol == "srt"
    then ProposedParameters(if s.advanced then s.srtLatency else s.defaultLatency, s.pbkeylen, s.relay)
    else []
  }

  /** The new request, still with the old port and revision. */
  function Requested(was: DownlinkRequest, s: SourceSettings, streamId: string): DownlinkRequest {
    DownlinkRequest(s.protocol, s.lanServer, s.stageId, s.seatName, s.sourceName, s.maxBitrate, s.minBitrate,
                    s.width, s.height, s.relay, streamId, CompositeParameters(s), was.port, was.revision)
  }

  /** The latency of a source: its own when advanced settings are on, else the client's. */
  function LatencyOf(s: SourceSettings): int { if s.advanced then s.srtLatency else s.defaultLatency }

  /** An srt source proposes its latency, and on a direct connection the key length, and nothing else; on a connection
      with those parameters the sender carries the override or the source's latency, and so does a direct receiver. */
  lemma ProposalReachesBothEnds(s: SourceSettings, c: StageConnection)
    requires c.parameters == CompositeParameters(s)
    ensures s.protocol != "srt" ==> c.parameters == []
    ensures s.protocol == "srt" ==> |c.parameters| == if s.relay then 1 else 2
    ensures s.protocol == "srt" ==>
      Only(c.parameters, "pbkeylen") == if s.relay then [] else [QueryItem("pbkeylen", Number(s.pbkeylen))]
    ensures s.protocol == "srt" ==>
      Only(SenderQuery(c), "latency") == [QueryItem("latency", Number((if c.latency != 0 then c.latency else LatencyOf(s)) * 1000))]
    ensures s.protocol == "srt" ==>
      Only(ReceiverQuery(c), "latency") == [QueryItem("latency", Number((if c.latency != 0 && !c.relay then c.latency else LatencyOf(s)) * 1000))]
  {
    hide Number, SenderQuery, ReceiverQuery, Only, ProposedParameters;
    ProposedItems(LatencyOf(s), s.pbkeylen, s.relay);
    if s.protocol == "srt" {
      LatenciesAtBothEnds(c, LatencyOf(s));
    }
  }

  class IngressLinkSource {
    const apiClient: SRCLinkApiClient
    var connRequest: DownlinkRequest
    var revision: int
    var hwDecode: bool
    var clearOnMediaEnd: bool
    var reconnectDelaySec: int
    var bufferingMb: int

    /** A new source has no port until it captures its settings. */
    constructor (apiClient: SRCLinkApiClient, settings: SourceSettings, streamId: string)
      modifies apiClient`usedPorts
      ensures this.apiClient == apiClient
      ensures (apiClient.Marked(), connRequest.port) ==
        Recapture(old(apiClient.Marked()), 0, settings.relay, apiClient.portMin, apiClient.portMax)
      ensures connRequest.relay == settings.relay && connRequest.revision == revision
    {
      this.apiClient := apiClient;
      connRequest := DownlinkRequest("", "", "", "", "", 0, 0, 0, 0, false, "", [], 0, 0);
      revision := 0;
      hwDecode, clearOnMediaEnd, reconnectDelaySec, bufferingMb := false, false, 0, 0;
      new;
      CaptureSettings(settings, streamId);
    }

    /** The request takes over the settings, a changed request gets a new revision, and the port is given back
        before the lowest free one is taken.  `streamId` is the freshly generated one. */
    method CaptureSettings(settings: SourceSettings, streamId: string)
      modifies this, apiClient`usedPorts
      ensures hwDecode == settings.hwDecode && clearOnMediaEnd == settings.clearOnMediaEnd
      ensures if settings.advanced
        then reconnectDelaySec == settings.reconnectDelaySec && bufferingMb == settings.bufferingMb
        else reconnectDelaySec == settings.defaultReconnectDelaySec && bufferingMb == settings.defaultBufferingMb
      ensures connRequest ==
        Requested(old(connRequest), settings, streamId).(port := connRequest.port, revision := revision)
      ensures connRequest.protocol == settings.protocol && connRequest.lanServer == settings.lanServer
      ensures connRequest.stageId == settings.stageId && connRequest.seatName == settings.seatName
      ensures connRequest.sourceName == settings.sourceName && connRequest.streamId == streamId
      ensures connRequest.maxBitrate == settings.maxBitrate && connRequest.minBitrate == settings.minBitrate
      ensures connRequest.width == settings.width && connRequest.height == settings.height
      ensures connRequest.relay == settings.relay && connRequest.parameters == CompositeParameters(settings)
      ensures (apiClient.Marked(), connRequest.port) ==
        Recapture(old(apiClient.Marked()), old(connRequest.port), settings.relay, apiClient.portMin, apiClient.portMax)
      ensures var same := connRequest.(port := old(connRequest.port), revision := old(connRequest.revision));
        revision == old(revision) + if same == old(connRequest) then 0 else 1
      ensures streamId != old(connRequest.streamId) ==> revision == old(revision) + 1
    {
      hide CompositeParameters, Recapture;
      var newRequest := connRequest;
      newRequest := newRequest.(protocol := settings.protocol, lanServer := settings.lanServer);
      newRequest := newRequest.(stageId := settings.stageId, seatName := settings.seatName,
                                sourceName := settings.sourceName);
      newRequest := newRequest.(maxBitrate := settings.maxBitrate, minBitrate := settings.minBitrate,
                                width := settings.width, height := settings.height);
      hwDecode, clearOnMediaEnd := settings.hwDecode, settings.clearOnMediaEnd;
      newRequest := newRequest.(relay := settings.relay);
      if settings.advanced {
        reconnectDelaySec, bufferingMb := settings.reconnectDelaySec, settings.bufferingMb;
      } else {
        reconnectDelaySec, bufferingMb := settings.defaultReconnectDelaySec, settings.defaultBufferingMb;
      }
      newRequest := newRequest.(streamId := streamId);
      newRequest := newRequest.(parameters := CompositeParameters(settings));
      if newRequest != connRequest {
        revision := revision + 1;
      }
      newRequest := newRequest.(revision := revision);
      connRequest := newRequest;
      ReallocatePort();
    }

    /** The old port is given back before the lowest free one is taken. */
    method ReallocatePort()
      modifies this`connRequest, apiClient`usedPorts
      ensures connRequest == old(connRequest).(port := connRequest.port)
      ensures (apiClient.Marked(), connRequest.port) ==
        Recapture(old(apiClient.Marked()), old(connRequest.port), connRequest.relay, apiClient.portMin, apiClient.portMax)
    {
      if connRequest.port != 0 {
        apiClient.ReleasePort(connRequest.port);
        connRequest := connRequest.(port := 0);
      }
      if !connRequest.relay {
        var port := apiClient.GetFreePort();
        connRequest := connRequest.(port := port);
      }
    }

    /** The destructor gives the port back. */
    method Destroy()
      modifies apiClient`usedPorts
      ensures apiClient.Marked() == Released(old(apiClient.Marked()), connRequest.port)
    {
      if connRequest.port != 0 {
        apiClient.ReleasePort(connRequest.port);
      }
    }
  }

  // ---- many sources of one client ----

  /** A source is created or its settings change, under the port range then in force, or it is destroyed. */
  datatype Turn =
    | Capture(id: nat, settings: SourceSettings, streamId: string, portMin: int, portMax: int)
    | Destruction(id: nat)

  function EventOf(turn: Turn): PortEvent {
    match turn
    case Capture(id, settings, _, min, max) => Captured(id, settings.relay, min, max)
    case Destruction(id) => Removed(id)
  }

  function EventsOf(turns: seq<Turn>): seq<PortEvent> {
    seq(|turns|, i requires 0 <= i < |turns| => EventOf(turns[i]))
  }

  /** Different objects that share the client. */
  ghost predicate Separate(client: SRCLinkApiClient, sources: map<nat, IngressLinkSource>) {
    && (forall id :: id in sources ==> sources[id].apiClient == client)
    && (forall id, other :: id in sources && other in sources && id != other ==> sources[id] != sources[other])
  }

  /** The marks of the client and the ports that the objects hold. */
  ghost function TableOf(client: SRCLinkApiClient, sources: map<nat, IngressLinkSource>): PortTable
    reads client, sources.Values
  {
    PortTable(client.Marked(), map id | id in sources :: SourceOf(sources[id]))
  }

  ghost function SourceOf(source: IngressLinkSource): Source
    reads source
  {
    Source(source.connRequest.port, source.connRequest.relay)
  }

  /** A source takes over new settings. */
  method Recaptured(client: SRCLinkApiClient, sources: map<nat, IngressLinkSource>, id: nat,
                    settings: SourceSettings, streamId: string)
    requires Separate(client, sources) && id in sources
    modifies client`usedPorts, sources[id]
    ensures TableOf(client, sources)
         == PortStep(old(TableOf(client, sources)), Captured(id, settings.relay, client.portMin, client.portMax))
  {
    hide Recapture, CompositeParameters;
    sources[id].CaptureSettings(settings, streamId);
  }

  lemma Added<T>(sources: map<nat, T>, id: nat, source: T)
    requires id !in sources && source !in sources.Values
    ensures var left := sources[id := source];
      && left.Values <= sources.Values + {source}
      && (forall other :: other in left && other != id ==> other in sources && left[other] == sources[other])
      && (forall other :: other in sources ==> left[other] == sources[other] && sources[other] != source)
  {
    forall other | other in sources ensures sources[other] in sources.Values {}
  }

  /** A new source joins the others. */
  method Created(client: SRCLinkApiClient, sources: map<nat, IngressLinkSource>, id: nat,
                 settings: SourceSettings, streamId: string)
    returns (left: map<nat, IngressLinkSource>)
    requires Separate(client, sources) && id !in sources
    modifies client`usedPorts
    ensures Separate(client, left) && fresh(left.Values - sources.Values)
    ensures TableOf(client, left)
         == PortStep(old(TableOf(client, sources)), Captured(id, settings.relay, client.portMin, client.portMax))
  {
    hide Recapture;
    ghost var before := TableOf(client, sources);
    var source := new IngressLinkSource(client, settings, streamId);
    assert source !in sources.Values && TableOf(client, sources).sources == before.sources;
    left := sources[id := source];
    Added(sources, id, source);
    assert TableOf(client, left).sources == before.sources[id := SourceOf(source)];
  }

  /** A source goes, and its port with it. */
  method Destroyed(client: SRCLinkApiClient, sources: map<nat, IngressLinkSource>, id: nat)
    returns (left: map<nat, IngressLinkSource>)
    requires Separate(client, sources)
    modifies client`usedPorts
    ensures Separate(client, left) && left.Values <= sources.Values
    ensures TableOf(client, left) == PortStep(old(TableOf(client, sources)), Removed(id))
  {
    hide Released;
    if id in sources {
      sources[id].Destroy();
    }
    left := sources - {id};
    assert forall other :: other in left <==> other in sources && other != id;
  }

  method TakeTurn(client: SRCLinkApiClient, sources: map<nat, IngressLinkSource>, turn: Turn)
    returns (left: map<nat, IngressLinkSource>)
    requires Separate(client, sources)
    modifies client`usedPorts, client`portMin, client`portMax, sources.Values
    ensures Separate(client, left) && fresh(left.Values - sources.Values)
    ensures TableOf(client, left) == PortStep(old(TableOf(client, sources)), EventOf(turn))
  {
    hide PortStep, Separate;
    match turn
    case Capture(id, settings, streamId, min, max) =>
      client.portMin, client.portMax := min, max;
      assert TableOf(client, sources) == old(TableOf(client, sources));
      if id in sources {
        Recaptured(client, sources, id, settings, streamId);
        left := sources;
      } else {
        left := Created(client, sources, id, settings, streamId);
      }
    case Destruction(id) =>
      left := Destroyed(client, sources, id);
  }

  /** Sources of one client come, change and go in any order: the marks and the ports they hold are those of the run
      of the port table, and exact when no range contains 0. */
  method RunSources(client: SRCLinkApiClient, turns: seq<Turn>) returns (sources: map<nat, IngressLinkSource>)
    modifies client`usedPorts, client`portMin, client`portMax
    ensures Separate(client, sources) && fresh(sources.Values)
    ensures TableOf(client, sources) == PortRun(PortTable(old(client.Marked()), map[]), EventsOf(turns))
    ensures old(client.Marked()) == {} && (forall i :: 0 <= i < |turns| ==> AvoidsZero(EventOf(turns[i])))
      ==> Exact(TableOf(client, sources))
  {
    hide Exact, AvoidsZero, PortStep;
    ghost var start := PortTable(client.Marked(), map[]);
    sources := map[];
    for i := 0 to |turns|
      invariant Separate(client, sources) && fresh(sources.Values)
      invariant TableOf(client, sources) == PortRun(start, EventsOf(turns[..i]))
    {
      assert EventsOf(turns[..i + 1])[..i] == EventsOf(turns[..i]);
      sources := TakeTurn(client, sources, turns[i]);
    }
    assert turns[..|turns|] == turns;
    if start.used == {} && forall i :: 0 <= i < |turns| ==> AvoidsZero(EventOf(turns[i])) {
      NothingIsExact(start);
      RunIsExact(start, EventsOf(turns));
    }
  }

  lemma NothingIsExact(t: PortTable)
    requires t == PortTable({}, map[])
    ensures Exact(t)
  {
  }
}
