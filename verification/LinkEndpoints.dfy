/** The SRT address that the sender and the receiver each build from one connection record
    (src/outputs/egress-link-output.cpp, src/sources/ingress-link-source.cpp). */
module LinkEndpoints {
  import opened Schema
  import opened Text

  datatype Url = Url(scheme: string, host: string, port: int, query: seq<QueryItem>)

  /** `QUrlQuery::removeQueryItem`: the first item with that key. */
  function RemoveFirst(items: seq<QueryItem>, key: string): seq<QueryItem> {
    if items == [] then []
    else if items[0].key == key then items[1..]
    else [items[0]] + RemoveFirst(items[1..], key)
  }

  /** `QUrlQuery::addQueryItem`. */
  function Add(items: seq<QueryItem>, key: string, value: string): seq<QueryItem> {
    items + [QueryItem(key, value)]
  }

  function CountKey(items: seq<QueryItem>, key: string): nat {
    if items == [] then 0 else (if items[0].key == key then 1 else 0) + CountKey(items[1..], key)
  }

  /** A connection's own latency, in milliseconds, replaces the parameters' one, in microseconds. */
  function OverrideLatency(items: seq<QueryItem>, latency: int): seq<QueryItem> {
    if latency != 0 then Add(RemoveFirst(items, "latency"), "latency", Number(latency * 1000)) else items
  }

  /** The stream id of a relayed stream, for one of the two verbs. */
  function RelayStreamId(c: StageConnection, mediamtxVerb: string, srtrelayVerb: string): string {
    if c.relayApp == RELAY_APP_MEDIAMTX
    then mediamtxVerb + ":" + c.streamId + ":" + c.id + ":" + c.passphrase
    else srtrelayVerb + "/" + c.streamId + "/" + c.passphrase
  }

  // ---- the sender ----

  /** The sender switches to the LAN address when the server is its own public address, or when told to. */
  function SenderHost(c: StageConnection, uplink: UplinkInfo): string {
    if c.server == PublicAddress(uplink) || Lan(uplink) then c.lanServer else c.server
  }

  /** `createEgressSettings` for the srt protocol. */
  method SenderUrl(c: StageConnection, uplink: UplinkInfo) returns (url: Url)
    ensures url == Url("srt", SenderHost(c, uplink), c.port, SenderQuery(c))
  {
    var address := c.server;
    if address == PublicAddress(uplink) || Lan(uplink) {
      address := c.lanServer;
    }
    var parameters := c.parameters;
    if c.latency != 0 {
      parameters := RemoveFirst(parameters, "latency");
      parameters := Add(parameters, "latency", Number(c.latency * 1000));
    }
    if c.relay {
      parameters := Add(parameters, "mode", "caller");
      if c.relayApp == RELAY_APP_MEDIAMTX {
        parameters := Add(parameters, "streamid", "publish" + ":" + c.streamId + ":" + c.id + ":" + c.passphrase);
      } else {
        parameters := Add(parameters, "streamid", "publish" + "/" + c.streamId + "/" + c.passphrase);
      }
    } else {
      parameters := Add(parameters, "mode", "caller");
      if c.streamId != "" {
        parameters := Add(parameters, "streamid", c.streamId);
      }
      if c.passphrase != "" {
        parameters := Add(parameters, "passphrase", c.passphrase);
      }
    }
    url := Url("srt", address, c.port, parameters);
  }

  function SenderQuery(c: StageConnection): seq<QueryItem> {
    var base := OverrideLatency(c.parameters, c.latency) + [QueryItem("mode", "caller")];
    if c.relay then base + [QueryItem("streamid", RelayStreamId(c, "publish", "publish"))]
    else base + (if c.streamId != "" then [QueryItem("streamid", c.streamId)] else [])
              + (if c.passphrase != "" then [QueryItem("passphrase", c.passphrase)] else [])
  }

  // ---- the receiver ----

  /** The receiver listens on every address, except when it calls a relay. */
  function ReceiverHost(c: StageConnection): string {
    if c.relay then c.server else "0.0.0.0"
  }

  /** `createDecoderSettings` for an allocated srt connection. */
  method ReceiverUrl(c: StageConnection) returns (url: Url)
    ensures url == Url("srt", ReceiverHost(c), c.port, ReceiverQuery(c))
  {
    var host := "0.0.0.0";
    var parameters := c.parameters;
    if c.relay {
      parameters := Add(parameters, "mode", "caller");
      if c.relayApp == RELAY_APP_MEDIAMTX {
        parameters := Add(parameters, "streamid", "read" + ":" + c.streamId + ":" + c.id + ":" + c.passphrase);
      } else {
        parameters := Add(parameters, "streamid", "play" + "/" + c.streamId + "/" + c.passphrase);
      }
      host := c.server;
    } else {
      if c.latency != 0 {
        parameters := RemoveFirst(parameters, "latency");
        parameters := Add(parameters, "latency", Number(c.latency * 1000));
      }
      parameters := Add(parameters, "mode", "listener");
      parameters := Add(parameters, "streamid", c.streamId);
      parameters := Add(parameters, "passphrase", c.passphrase);
    }
    url := Url("srt", host, c.port, parameters);
  }

  function ReceiverQuery(c: StageConnection): seq<QueryItem> {
    if c.relay then
      c.parameters + [QueryItem("mode", "caller"), QueryItem("streamid", RelayStreamId(c, "read", "play"))]
    else
      OverrideLatency(c.parameters, c.latency)
      + [QueryItem("mode", "listener"), QueryItem("streamid", c.streamId), QueryItem("passphrase", c.passphrase)]
  }

  /** The parameters a source proposes for its connection. */
  function ProposedParameters(latency: int, pbkeylen: int, relay: bool): seq<QueryItem> {
    if relay then [QueryItem("latency", Number(latency * 1000))]
    else [QueryItem("latency", Number(latency * 1000)), QueryItem("pbkeylen", Number(pbkeylen))]
  }

  // ---- the two ends ----

  function Without(items: seq<QueryItem>, key: string): seq<QueryItem> {
    if items == [] then [] else (if items[0].key == key then [] else [items[0]]) + Without(items[1..], key)
  }

  lemma {:induction false} WithoutAdds(a: seq<QueryItem>, b: seq<QueryItem>, key: string)
    ensures Without(a + b, key) == Without(a, key) + Without(b, key)
  {
    if a == [] {
      assert a + b == b;
    } else {
      assert (a + b)[1..] == a[1..] + b;
      WithoutAdds(a[1..], b, key);
    }
  }

  lemma {:induction false} CountAdds(a: seq<QueryItem>, b: seq<QueryItem>, key: string)
    ensures CountKey(a + b, key) == CountKey(a, key) + CountKey(b, key)
  {
    if a == [] {
      assert a + b == b;
    } else {
      assert (a + b)[1..] == a[1..] + b;
      CountAdds(a[1..], b, key);
    }
  }

  lemma {:induction false} RemoveFirstCounts(items: seq<QueryItem>, key: string)
    ensures CountKey(RemoveFirst(items, key), key) == if CountKey(items, key) == 0 then 0 else CountKey(items, key) - 1
  {
    if items != [] && items[0].key != key {
      RemoveFirstCounts(items[1..], key);
      assert ([items[0]] + RemoveFirst(items[1..], key))[1..] == RemoveFirst(items[1..], key);
    }
  }

  lemma {:induction false} OtherKeysStay(items: seq<QueryItem>, key: string)
    requires forall i :: 0 <= i < |items| ==> items[i].key != key
    ensures Without(items, key) == items && CountKey(items, key) == 0
  {
    if items != [] {
      OtherKeysStay(items[1..], key);
    }
  }

  /** What each end of a direct connection adds behind the mode. */
  function SenderTail(c: StageConnection): seq<QueryItem> {
    (if c.streamId != "" then [QueryItem("streamid", c.streamId)] else [])
    + (if c.passphrase != "" then [QueryItem("passphrase", c.passphrase)] else [])
  }

  function ReceiverTail(c: StageConnection): seq<QueryItem> {
    [QueryItem("streamid", c.streamId), QueryItem("passphrase", c.passphrase)]
  }

  lemma TailKeys(c: StageConnection)
    ensures forall i :: 0 <= i < |SenderTail(c)| ==>
      SenderTail(c)[i].key != "mode" && SenderTail(c)[i].key != "latency"
    ensures forall i :: 0 <= i < |ReceiverTail(c)| ==>
      ReceiverTail(c)[i].key != "mode" && ReceiverTail(c)[i].key != "latency"
  {
    assert |"streamid"| != |"mode"| && |"passphrase"| != |"mode"|;
    assert |"streamid"| != |"latency"| && |"passphrase"| != |"latency"|;
  }

  lemma DirectQueries(c: StageConnection)
    requires !c.relay
    ensures var base := OverrideLatency(c.parameters, c.latency);
      && SenderQuery(c) == base + ([QueryItem("mode", "caller")] + SenderTail(c))
      && ReceiverQuery(c) == base + ([QueryItem("mode", "listener")] + ReceiverTail(c))
  {
  }

  lemma OwnKeyFalls(item: QueryItem)
    ensures Without([item], item.key) == []
  {
  }

  lemma KeyFalls(base: seq<QueryItem>, item: QueryItem, tail: seq<QueryItem>)
    requires forall i :: 0 <= i < |tail| ==> tail[i].key != item.key
    ensures Without(base + ([item] + tail), item.key) == Without(base, item.key) + tail
  {
    hide Without, CountKey;
    OtherKeysStay(tail, item.key);
    OwnKeyFalls(item);
    WithoutAdds([item], tail, item.key);
    WithoutAdds(base, [item] + tail, item.key);
    assert [] + tail == tail;
  }

  /** What is left of the two queries without their mode. */
  lemma DirectWithoutMode(c: StageConnection)
    requires !c.relay
    ensures var base := Without(OverrideLatency(c.parameters, c.latency), "mode");
      && Without(SenderQuery(c), "mode") == base + SenderTail(c)
      && Without(ReceiverQuery(c), "mode") == base + ReceiverTail(c)
  {
    hide OverrideLatency, SenderTail, ReceiverTail, SenderQuery, ReceiverQuery, Without;
    var base := OverrideLatency(c.parameters, c.latency);
    DirectQueries(c);
    TailKeys(c);
    KeyFalls(base, QueryItem("mode", "caller"), SenderTail(c));
    KeyFalls(base, QueryItem("mode", "listener"), ReceiverTail(c));
  }

  /** On a direct connection the two queries are the same but for the mode if and only if both the stream id and the
      passphrase are given; the sender leaves out an empty one and the receiver does not. */
  lemma DirectEndsAgreeIff(c: StageConnection)
    requires !c.relay
    ensures Without(SenderQuery(c), "mode") == Without(ReceiverQuery(c), "mode") <==>
      c.streamId != "" && c.passphrase != ""
  {
    hide OverrideLatency, SenderQuery, ReceiverQuery, Without;
    DirectWithoutMode(c);
    assert |SenderTail(c)| == |ReceiverTail(c)| <==> c.streamId != "" && c.passphrase != "";
  }

  /** With an open link the receiver carries one item more: an empty passphrase that the sender does not mention. */
  lemma OpenLinkDiffers(c: StageConnection)
    requires !c.relay && c.streamId != "" && c.passphrase == ""
    ensures Without(ReceiverQuery(c), "mode") == Without(SenderQuery(c), "mode") + [QueryItem("passphrase", "")]
  {
    hide OverrideLatency, SenderQuery, ReceiverQuery, Without;
    DirectWithoutMode(c);
  }

  /** How many latency items each end of a direct connection sends: an override leaves exactly one of its own
      and whatever the parameters had beyond their first. */
  lemma DirectLatencyItems(c: StageConnection)
    requires !c.relay
    ensures var given := CountKey(c.parameters, "latency");
      var expected := if c.latency == 0 then given else if given == 0 then 1 else given;
      CountKey(SenderQuery(c), "latency") == expected && CountKey(ReceiverQuery(c), "latency") == expected
  {
    hide OverrideLatency, SenderTail, ReceiverTail, SenderQuery, ReceiverQuery, CountKey;
    var base := OverrideLatency(c.parameters, c.latency);
    DirectQueries(c);
    TailKeys(c);
    OverrideCounts(c.parameters, c.latency);
    NoLatencyBehind(base, QueryItem("mode", "caller"), SenderTail(c));
    NoLatencyBehind(base, QueryItem("mode", "listener"), ReceiverTail(c));
  }

  lemma OverrideCounts(items: seq<QueryItem>, latency: int)
    ensures var given := CountKey(items, "latency");
      CountKey(OverrideLatency(items, latency), "latency")
        == if latency == 0 then given else if given == 0 then 1 else given
  {
    hide Number;
    var item := QueryItem("latency", Number(latency * 1000));
    RemoveFirstCounts(items, "latency");
    CountAdds(RemoveFirst(items, "latency"), [item], "latency");
    assert CountKey([item], "latency") == 1;
  }

  lemma NoLatencyBehind(base: seq<QueryItem>, mode: QueryItem, tail: seq<QueryItem>)
    requires mode.key == "mode" && forall i :: 0 <= i < |tail| ==> tail[i].key != "latency"
    ensures CountKey(base + ([mode] + tail), "latency") == CountKey(base, "latency")
  {
    assert |"mode"| != |"latency"|;
    OtherKeysStay([mode] + tail, "latency");
    CountAdds(base, [mode] + tail, "latency");
  }

  lemma ProposedLatencyItem(latency: int, pbkeylen: int, relay: bool)
    ensures CountKey(ProposedParameters(latency, pbkeylen, relay), "latency") == 1
  {
    var items := ProposedParameters(latency, pbkeylen, relay);
    if !relay {
      assert items == [QueryItem("latency", Number(latency * 1000))] + [QueryItem("pbkeylen", Number(pbkeylen))];
      CountAdds([QueryItem("latency", Number(latency * 1000))], [QueryItem("pbkeylen", Number(pbkeylen))], "latency");
      assert |"pbkeylen"| != |"latency"|;
    }
  }

  /** With the parameters its source proposed, each end of a direct connection has exactly one latency. */
  lemma DirectEndsHaveOneLatency(c: StageConnection, latency: int, pbkeylen: int)
    requires !c.relay && c.parameters == ProposedParameters(latency, pbkeylen, false)
    ensures CountKey(SenderQuery(c), "latency") == 1 && CountKey(ReceiverQuery(c), "latency") == 1
  {
    ProposedLatencyItem(latency, pbkeylen, false);
    DirectLatencyItems(c);
  }

  /** What the two stream ids of a relayed stream have in common. */
  function StreamPath(c: StageConnection): string {
    if c.relayApp == RELAY_APP_MEDIAMTX then ":" + c.streamId + ":" + c.id + ":" + c.passphrase
    else "/" + c.streamId + "/" + c.passphrase
  }

  /** Both ends of a relayed connection call the relay and name the same stream; only the verb differs. */
  lemma RelayEndsNameOneStream(c: StageConnection)
    requires c.relay
    ensures var sent, received := SenderQuery(c), ReceiverQuery(c);
      && |sent| >= 2 && |received| >= 2
      && sent[|sent| - 2] == received[|received| - 2] == QueryItem("mode", "caller")
      && sent[|sent| - 1] == QueryItem("streamid", "publish" + StreamPath(c))
      && received[|received| - 1] ==
           QueryItem("streamid", (if c.relayApp == RELAY_APP_MEDIAMTX then "read" else "play") + StreamPath(c))
  {
  }

  // ---- the hosts ----

  /** The sender lives behind the address that the connection names, or in the same LAN. */
  predicate SameNetwork(c: StageConnection, uplink: UplinkInfo) {
    || c.server == (if uplink.publicAddress.Some? then uplink.publicAddress.value else "")
    || (uplink.allocation.Some? && uplink.allocation.value.lan)
  }

  /** The sender calls the LAN address instead of the public one if and only if it is in the same network, where the
      two differ; a direct receiver listens everywhere, so only a relay's ends can miss each other: they name the same
      host if and only if the sender is elsewhere or the relay has one address only. */
  lemma HostsAgreeIff(c: StageConnection, uplink: UplinkInfo)
    ensures SenderHost(c, uplink) == c.lanServer || SenderHost(c, uplink) == c.server
    ensures c.lanServer != c.server ==> (SenderHost(c, uplink) == c.lanServer <==> SameNetwork(c, uplink))
    ensures !c.relay ==> ReceiverHost(c) == "0.0.0.0"
    ensures c.relay ==>
      (SenderHost(c, uplink) == ReceiverHost(c) <==> !SameNetwork(c, uplink) || c.lanServer == c.server)
  {
  }

  /** A sender whose own public address is the relay's calls the LAN address, where the receiver does not. */
  lemma SenderBesideRelay()
    ensures var c := StageConnection("c", "out", "srt", "relay", "lan", 1, "id", "", [], true, RELAY_APP_MEDIAMTX, 0, 1, "s");
      SenderHost(c, UplinkInfo(None, Some("relay"), None, None)) == "lan" && ReceiverHost(c) == "relay"
  {
  }

  // ---- the stream that a relayed connection names ----

  lemma {:induction false} SplitAtSeparator(a: string, x: string, b: string, y: string, separator: char)
    requires separator !in a && separator !in b
    ensures a + [separator] + x == b + [separator] + y <==> a == b && x == y
    decreases |a|
  {
    var s, t := a + [separator] + x, b + [separator] + y;
    if s == t {
      if a == [] || b == [] {
        assert s[0] == t[0];
        assert s[1..] == t[1..];
      } else {
        assert s[0] == a[0] && t[0] == b[0];
        assert s[1..] == a[1..] + [separator] + x && t[1..] == b[1..] + [separator] + y;
        SplitAtSeparator(a[1..], x, b[1..], y, separator);
      }
    }
  }

  /** The parts of the stream id ahead of the passphrase do not contain its separator. */
  predicate Plain(c: StageConnection) {
    if c.relayApp == RELAY_APP_MEDIAMTX then ':' !in c.streamId && ':' !in c.id else '/' !in c.streamId
  }

  /** The same stream of the same relay: a relay other than mediamtx does not look at the connection's id. */
  predicate SameStream(c: StageConnection, d: StageConnection) {
    c.streamId == d.streamId && c.passphrase == d.passphrase && (c.relayApp == RELAY_APP_MEDIAMTX ==> c.id == d.id)
  }

  lemma MediamtxPathIff(c: StageConnection, d: StageConnection)
    requires c.relayApp == d.relayApp == RELAY_APP_MEDIAMTX && Plain(c) && Plain(d)
    ensures StreamPath(c) == StreamPath(d) <==> SameStream(c, d)
  {
    var x, y := c.id + [':'] + c.passphrase, d.id + [':'] + d.passphrase;
    assert StreamPath(c)[1..] == c.streamId + [':'] + x && StreamPath(d)[1..] == d.streamId + [':'] + y;
    assert StreamPath(c) == [':'] + StreamPath(c)[1..] && StreamPath(d) == [':'] + StreamPath(d)[1..];
    SplitAtSeparator(c.streamId, x, d.streamId, y, ':');
    SplitAtSeparator(c.id, c.passphrase, d.id, d.passphrase, ':');
  }

  lemma SrtrelayPathIff(c: StageConnection, d: StageConnection)
    requires c.relayApp != RELAY_APP_MEDIAMTX && d.relayApp != RELAY_APP_MEDIAMTX && Plain(c) && Plain(d)
    ensures StreamPath(c) == StreamPath(d) <==> SameStream(c, d)
  {
    assert StreamPath(c)[1..] == c.streamId + ['/'] + c.passphrase;
    assert StreamPath(d)[1..] == d.streamId + ['/'] + d.passphrase;
    assert StreamPath(c) == ['/'] + StreamPath(c)[1..] && StreamPath(d) == ['/'] + StreamPath(d)[1..];
    SplitAtSeparator(c.streamId, c.passphrase, d.streamId, d.passphrase, '/');
  }

  /** Two relayed connections name one stream exactly when they agree on its parts. */
  lemma StreamPathIff(c: StageConnection, d: StageConnection)
    requires (c.relayApp == RELAY_APP_MEDIAMTX <==> d.relayApp == RELAY_APP_MEDIAMTX) && Plain(c) && Plain(d)
    ensures StreamPath(c) == StreamPath(d) <==> SameStream(c, d)
  {
    hide StreamPath, Plain, SameStream;
    if c.relayApp == RELAY_APP_MEDIAMTX {
      MediamtxPathIff(c, d);
    } else {
      SrtrelayPathIff(c, d);
    }
  }

  /** A separator inside a part makes two different streams look the same. */
  lemma SeparatorsCollide()
    ensures var c := StageConnection("c:d", "out", "srt", "server", "", 1, "a", "", [], true, RELAY_APP_MEDIAMTX, 0, 1, "s");
      var d := c.(streamId := "a:c", id := "d");
      StreamPath(c) == StreamPath(d) && !SameStream(c, d)
  {
    assert "a" + ":" + "c:d" == "a:c" + ":" + "d";
    assert |"a"| != |"a:c"|;
  }

  function Occurrences(s: string, ch: char): nat {
    if s == [] then 0 else (if s[0] == ch then 1 else 0) + Occurrences(s[1..], ch)
  }

  lemma {:induction false} OccurrencesAdd(a: string, b: string, ch: char)
    ensures Occurrences(a + b, ch) == Occurrences(a, ch) + Occurrences(b, ch)
  {
    if a == [] {
      assert a + b == b;
    } else {
      assert (a + b)[0] == a[0] && (a + b)[1..] == a[1..] + b;
      OccurrencesAdd(a[1..], b, ch);
    }
  }

  lemma {:induction false} NoOccurrence(s: string, ch: char)
    ensures Occurrences(s, ch) == 0 <==> ch !in s
  {
    if s != [] {
      NoOccurrence(s[1..], ch);
      assert ch in s <==> s[0] == ch || ch in s[1..];
    }
  }

  lemma SeparatorsIn(a: string, b: string, ch: char)
    ensures Occurrences([ch] + a, ch) == 1 + Occurrences(a, ch)
    ensures Occurrences(a + ([ch] + b), ch) == Occurrences(a, ch) + 1 + Occurrences(b, ch)
  {
    assert ([ch] + a)[1..] == a && ([ch] + b)[1..] == b;
    OccurrencesAdd(a, [ch] + b, ch);
  }

  /** The separators of a stream path are its own and those inside its parts. */
  lemma PathSeparators(c: StageConnection)
    ensures c.relayApp == RELAY_APP_MEDIAMTX ==>
      Occurrences(StreamPath(c), ':') ==
        3 + Occurrences(c.streamId, ':') + Occurrences(c.id, ':') + Occurrences(c.passphrase, ':')
    ensures c.relayApp != RELAY_APP_MEDIAMTX ==>
      Occurrences(StreamPath(c), '/') == 2 + Occurrences(c.streamId, '/') + Occurrences(c.passphrase, '/')
  {
    if c.relayApp == RELAY_APP_MEDIAMTX {
      var tail := c.id + ([':'] + c.passphrase);
      assert StreamPath(c) == [':'] + (c.streamId + ([':'] + tail));
      SeparatorsIn(c.streamId + ([':'] + tail), [], ':');
      SeparatorsIn(c.streamId, tail, ':');
      SeparatorsIn(c.id, c.passphrase, ':');
    } else {
      assert StreamPath(c) == ['/'] + (c.streamId + (['/'] + c.passphrase));
      SeparatorsIn(c.streamId + (['/'] + c.passphrase), [], '/');
      SeparatorsIn(c.streamId, c.passphrase, '/');
    }
  }

  /** No part of the stream id contains its separator. */
  predicate SeparatorFree(c: StageConnection) {
    if c.relayApp == RELAY_APP_MEDIAMTX then ':' !in c.streamId && ':' !in c.id && ':' !in c.passphrase
    else '/' !in c.streamId && '/' !in c.passphrase
  }

  predicate SameApp(c: StageConnection, d: StageConnection) {
    c.relayApp == RELAY_APP_MEDIAMTX <==> d.relayApp == RELAY_APP_MEDIAMTX
  }

  /** Another path with no more separators has none inside its parts either. */
  lemma SeparatorFreePath(c: StageConnection, d: StageConnection)
    requires SeparatorFree(c) && SameApp(c, d) && StreamPath(c) == StreamPath(d)
    ensures SeparatorFree(d)
  {
    hide StreamPath, Occurrences;
    PathSeparators(c);
    PathSeparators(d);
    var ch := if c.relayApp == RELAY_APP_MEDIAMTX then ':' else '/';
    NoOccurrence(c.streamId, ch);
    NoOccurrence(c.id, ch);
    NoOccurrence(c.passphrase, ch);
    NoOccurrence(d.streamId, ch);
    NoOccurrence(d.id, ch);
    NoOccurrence(d.passphrase, ch);
  }

  function Joined(a: string, b: string, separator: char): string { a + [separator] + b }

  lemma JoinedMoves(x: string, y: string, b: string, ch: char)
    ensures Joined(Joined(x, y, ch), b, ch) == Joined(x, Joined(y, b, ch), ch)
  {
    assert (x + [ch] + y) + [ch] + b == x + [ch] + (y + [ch] + b);
  }

  lemma PathIsJoined(c: StageConnection)
    ensures c.relayApp == RELAY_APP_MEDIAMTX ==>
      StreamPath(c) == [':'] + Joined(c.streamId, Joined(c.id, c.passphrase, ':'), ':')
    ensures c.relayApp != RELAY_APP_MEDIAMTX ==> StreamPath(c) == ['/'] + Joined(c.streamId, c.passphrase, '/')
  {
    if c.relayApp == RELAY_APP_MEDIAMTX {
      assert ":" + c.streamId + ":" + c.id + ":" + c.passphrase
          == [':'] + (c.streamId + [':'] + (c.id + [':'] + c.passphrase));
    } else {
      assert "/" + c.streamId + "/" + c.passphrase == ['/'] + (c.streamId + ['/'] + c.passphrase);
    }
  }

  lemma {:induction false} SplitAtFirst(s: string, ch: char) returns (before: string, after: string)
    requires ch in s
    ensures s == Joined(before, after, ch) && |before| < |s| && |after| < |s|
  {
    if s[0] == ch {
      before, after := [], s[1..];
    } else {
      before, after := SplitAtFirst(s[1..], ch);
      before := [s[0]] + before;
    }
  }

  /** Where a separator inside a part ends that part, the rest of it passes for the front of the next part. */
  lemma Impostor(c: StageConnection) returns (d: StageConnection)
    requires !SeparatorFree(c)
    ensures d.relay == c.relay && d.relayApp == c.relayApp && StreamPath(d) == StreamPath(c) && !SameStream(c, d)
  {
    hide StreamPath, SameStream;
    if c.relayApp == RELAY_APP_MEDIAMTX {
      d := MediamtxImpostor(c);
    } else {
      d := SrtrelayImpostor(c);
    }
  }

  lemma MediamtxImpostor(c: StageConnection) returns (d: StageConnection)
    requires c.relayApp == RELAY_APP_MEDIAMTX && !SeparatorFree(c)
    ensures d.relay == c.relay && d.relayApp == c.relayApp && StreamPath(d) == StreamPath(c) && !SameStream(c, d)
  {
    hide StreamPath, Joined;
    if ':' in c.streamId {
      var x, y := SplitAtFirst(c.streamId, ':');
      d := c.(streamId := x, id := Joined(y, c.id, ':'));
      JoinedMoves(x, y, Joined(c.id, c.passphrase, ':'), ':');
      JoinedMoves(y, c.id, c.passphrase, ':');
    } else if ':' in c.id {
      var x, y := SplitAtFirst(c.id, ':');
      d := c.(id := x, passphrase := Joined(y, c.passphrase, ':'));
      JoinedMoves(x, y, c.passphrase, ':');
    } else {
      var x, y := SplitAtFirst(c.passphrase, ':');
      d := c.(id := Joined(c.id, x, ':'), passphrase := y);
      JoinedMoves(c.id, x, y, ':');
    }
    PathIsJoined(c);
    PathIsJoined(d);
  }

  lemma SrtrelayImpostor(c: StageConnection) returns (d: StageConnection)
    requires c.relayApp != RELAY_APP_MEDIAMTX && !SeparatorFree(c)
    ensures d.relay == c.relay && d.relayApp == c.relayApp && StreamPath(d) == StreamPath(c) && !SameStream(c, d)
  {
    hide StreamPath, Joined;
    if '/' in c.streamId {
      var x, y := SplitAtFirst(c.streamId, '/');
      d := c.(streamId := x, passphrase := Joined(y, c.passphrase, '/'));
      JoinedMoves(x, y, c.passphrase, '/');
    } else {
      var x, y := SplitAtFirst(c.passphrase, '/');
      d := c.(streamId := Joined(c.streamId, x, '/'), passphrase := y);
      JoinedMoves(c.streamId, x, y, '/');
    }
    PathIsJoined(c);
    PathIsJoined(d);
  }

  /** A connection's stream is its own, on its kind of relay, if and only if no part of its stream id contains the
      separator. */
  lemma StreamIsOwnIff(c: StageConnection)
    ensures (forall d: StageConnection :: SameApp(c, d) && StreamPath(c) == StreamPath(d) ==> SameStream(c, d)) <==> SeparatorFree(c)
  {
    if SeparatorFree(c) {
      forall d: StageConnection | SameApp(c, d) && StreamPath(c) == StreamPath(d) ensures SameStream(c, d) {
        SeparatorFreePath(c, d);
        StreamPathIff(c, d);
      }
    } else {
      var d := Impostor(c);
      assert SameApp(c, d);
    }
  }

  /** What a stream id names, behind its verb. */
  function SentPath(c: StageConnection): string
    requires c.relay
  {
    var query := SenderQuery(c);
    query[|query| - 1].value[|"publish"|..]
  }

  function ReceivedPath(c: StageConnection): string
    requires c.relay
  {
    var query := ReceiverQuery(c);
    query[|query| - 1].value[|ReceiverVerb(c)|..]
  }

  lemma PathsAreStreamPaths(c: StageConnection)
    requires c.relay
    ensures SentPath(c) == ReceivedPath(c) == StreamPath(c)
  {
    hide StreamPath;
    RelayEndsNameOneStream(c);
  }

  /** Only receivers of the same stream meet the sender of a relayed connection, on its kind of relay, if and only if
      no part of its stream id contains the separator. */
  lemma RelayEndsMeetIff(c: StageConnection)
    requires c.relay
    ensures (forall d: StageConnection :: d.relay && SameApp(c, d) && SentPath(c) == ReceivedPath(d) ==> SameStream(c, d))
      <==> SeparatorFree(c)
  {
    hide StreamPath, SentPath, ReceivedPath, SeparatorFree, SameStream;
    PathsAreStreamPaths(c);
    if SeparatorFree(c) {
      StreamIsOwnIff(c);
      forall d: StageConnection | d.relay && SameApp(c, d) && SentPath(c) == ReceivedPath(d) ensures SameStream(c, d) {
        PathsAreStreamPaths(d);
      }
    } else {
      var d := Impostor(c);
      PathsAreStreamPaths(d);
      assert SameApp(c, d) && SentPath(c) == ReceivedPath(d);
    }
  }

  function ReceiverVerb(c: StageConnection): string {
    if c.relayApp == RELAY_APP_MEDIAMTX then "read" else "play"
  }

  // ---- the other items of a relayed connection ----

  lemma {:induction false} RemoveFirstWithout(items: seq<QueryItem>, key: string)
    ensures Without(RemoveFirst(items, key), key) == Without(items, key)
  {
    if items != [] && items[0].key != key {
      RemoveFirstWithout(items[1..], key);
      assert ([items[0]] + RemoveFirst(items[1..], key))[1..] == RemoveFirst(items[1..], key);
    }
  }

  lemma OverrideWithout(items: seq<QueryItem>, latency: int)
    ensures Without(OverrideLatency(items, latency), "latency") == Without(items, "latency")
  {
    var item := QueryItem("latency", Number(latency * 1000));
    RemoveFirstWithout(items, "latency");
    WithoutAdds(RemoveFirst(items, "latency"), [item], "latency");
  }

  /** For any parameters, the two ends of a relayed connection carry the same items apart from the latency and the
      stream id. */
  lemma RelayEndsAgree(c: StageConnection)
    requires c.relay
    ensures var sent, received := SenderQuery(c), ReceiverQuery(c);
      && |sent| > 0 && |received| > 0
      && Without(sent[..|sent| - 1], "latency") == Without(received[..|received| - 1], "latency")
      && Without(Without(sent, "latency"), "streamid") == Without(Without(received, "latency"), "streamid")
  {
    hide Number, OverrideLatency, RelayStreamId;
    var sent, received := SenderQuery(c), ReceiverQuery(c);
    var mode := [QueryItem("mode", "caller")];
    var publish := [QueryItem("streamid", RelayStreamId(c, "publish", "publish"))];
    var play := [QueryItem("streamid", RelayStreamId(c, "read", "play"))];
    assert sent == (OverrideLatency(c.parameters, c.latency) + mode) + publish;
    assert received == (c.parameters + mode) + play;
    assert sent[..|sent| - 1] == OverrideLatency(c.parameters, c.latency) + mode;
    assert received[..|received| - 1] == c.parameters + mode;
    OverrideWithout(c.parameters, c.latency);
    WithoutAdds(OverrideLatency(c.parameters, c.latency), mode, "latency");
    WithoutAdds(c.parameters, mode, "latency");
    StreamIdsFall(OverrideLatency(c.parameters, c.latency) + mode, publish);
    StreamIdsFall(c.parameters + mode, play);
  }

  lemma StreamIdsFall(items: seq<QueryItem>, last: seq<QueryItem>)
    requires |last| == 1 && last[0].key == "streamid"
    ensures Without(Without(items + last, "latency"), "streamid") == Without(Without(items, "latency"), "streamid")
  {
    WithoutAdds(items, last, "latency");
    assert |"streamid"| != |"latency"|;
    assert Without(last, "latency") == last;
    WithoutAdds(Without(items, "latency"), last, "streamid");
    assert Without(last, "streamid") == [];
  }

  /** The items with one key, in their order. */
  function Only(items: seq<QueryItem>, key: string): seq<QueryItem> {
    if items == [] then [] else (if items[0].key == key then [items[0]] else []) + Only(items[1..], key)
  }

  lemma {:induction false} OnlyAdds(a: seq<QueryItem>, b: seq<QueryItem>, key: string)
    ensures Only(a + b, key) == Only(a, key) + Only(b, key)
  {
    if a == [] {
      assert a + b == b;
    } else {
      assert (a + b)[0] == a[0] && (a + b)[1..] == a[1..] + b;
      OnlyAdds(a[1..], b, key);
      var first := if a[0].key == key then [a[0]] else [];
      assert (first + Only(a[1..], key)) + Only(b, key) == first + (Only(a[1..], key) + Only(b, key));
    }
  }

  lemma {:induction false} OnlyMeaning(items: seq<QueryItem>, key: string)
    ensures |Only(items, key)| == CountKey(items, key)
    ensures forall item :: item in Only(items, key) <==> item in items && item.key == key
  {
    if items != [] {
      OnlyMeaning(items[1..], key);
    }
  }

  lemma {:induction false} RemoveFirstOnly(items: seq<QueryItem>, key: string)
    ensures Only(RemoveFirst(items, key), key) == if Only(items, key) == [] then [] else Only(items, key)[1..]
  {
    if items != [] && items[0].key != key {
      RemoveFirstOnly(items[1..], key);
      assert ([items[0]] + RemoveFirst(items[1..], key))[1..] == RemoveFirst(items[1..], key);
    }
  }

  lemma {:induction false} RotationIff(s: seq<QueryItem>, x: QueryItem)
    requires s != []
    ensures s[1..] + [x] == s <==> forall i :: 0 <= i < |s| ==> s[i] == x
  {
    var r := s[1..] + [x];
    if r == s && |s| > 1 {
      assert r[1..] == s[1..][1..] + [x];
      RotationIff(s[1..], x);
      assert s[0] == s[1] && forall i :: 1 <= i < |s| ==> s[i] == s[1..][i - 1];
    }
    if forall i :: 0 <= i < |s| ==> s[i] == x {
      assert forall i :: 0 <= i < |s| ==> r[i] == s[i];
    } else if |s| == 1 {
      assert r[0] == x;
    }
  }

  lemma RelayLatencyItems(c: StageConnection)
    requires c.relay
    ensures Only(ReceiverQuery(c), "latency") == Only(c.parameters, "latency")
    ensures Only(SenderQuery(c), "latency") == Only(OverrideLatency(c.parameters, c.latency), "latency")
  {
    hide Number, OverrideLatency, RelayStreamId;
    TailHasNoLatency(c.parameters, RelayStreamId(c, "read", "play"));
    TailHasNoLatency(OverrideLatency(c.parameters, c.latency), RelayStreamId(c, "publish", "publish"));
    assert SenderQuery(c) == OverrideLatency(c.parameters, c.latency)
      + [QueryItem("mode", "caller"), QueryItem("streamid", RelayStreamId(c, "publish", "publish"))];
  }

  lemma TailHasNoLatency(items: seq<QueryItem>, streamId: string)
    ensures Only(items + [QueryItem("mode", "caller"), QueryItem("streamid", streamId)], "latency")
         == Only(items, "latency")
  {
    var mode, id := [QueryItem("mode", "caller")], [QueryItem("streamid", streamId)];
    assert mode + id == [QueryItem("mode", "caller"), QueryItem("streamid", streamId)];
    OnlyAdds(items, mode + id, "latency");
    OnlyAdds(mode, id, "latency");
    assert |"mode"| != |"latency"| && |"streamid"| != |"latency"|;
    assert Only(mode, "latency") == [] && Only(id, "latency") == [];
  }

  /** Only the sender of a relayed connection applies the override.  For any parameters the two ends carry the same
      latency items if and only if there is no override, or the parameters have latency items and each of them
      repeats it. */
  lemma RelayLatenciesAgreeIff(c: StageConnection)
    requires c.relay
    ensures Only(SenderQuery(c), "latency") == Only(ReceiverQuery(c), "latency") <==>
      c.latency == 0 || (CountKey(c.parameters, "latency") > 0 && EachLatencyIs(c.parameters, c.latency))
  {
    hide Number, SenderQuery, ReceiverQuery, Only, CountKey, RemoveFirst, EachLatencyIs;
    RelayLatencyItems(c);
    if c.latency != 0 {
      var mine := QueryItem("latency", Number(c.latency * 1000));
      OnlyAdds(RemoveFirst(c.parameters, "latency"), [mine], "latency");
      RemoveFirstOnly(c.parameters, "latency");
      OnlyOne(mine);
      GivenLatencies(c.parameters, c.latency);
      if Only(c.parameters, "latency") != [] {
        RotationIff(Only(c.parameters, "latency"), mine);
      }
    }
  }

  /** Each latency item given is the override. */
  ghost predicate EachLatencyIs(items: seq<QueryItem>, latency: int) {
    forall item :: item in items && item.key == "latency" ==> item.value == Number(latency * 1000)
  }

  lemma OnlyOne(item: QueryItem)
    ensures Only([item], item.key) == [item]
  {
  }

  lemma GivenLatencies(items: seq<QueryItem>, latency: int)
    ensures var given := Only(items, "latency");
      && |given| == CountKey(items, "latency")
      && (EachLatencyIs(items, latency) <==>
            forall i :: 0 <= i < |given| ==> given[i] == QueryItem("latency", Number(latency * 1000)))
  {
    hide Number;
    OnlyMeaning(items, "latency");
    var given := Only(items, "latency");
    assert forall i :: 0 <= i < |given| ==> given[i] in given;
  }

  /** With the parameters its source proposed, a relayed connection has the same items at both ends, the stream id
      apart, exactly when there is no override or it repeats the proposal. */
  lemma ProposedRelayItemsAgreeIff(c: StageConnection, latency: int, pbkeylen: int)
    requires c.relay && c.parameters == ProposedParameters(latency, pbkeylen, true)
    ensures var sent, received := SenderQuery(c), ReceiverQuery(c);
      sent[..|sent| - 1] == received[..|received| - 1] <==> (c.latency == 0 || c.latency == latency)
  {
    var sent, received := SenderQuery(c), ReceiverQuery(c);
    var mine, theirs := QueryItem("latency", Number(c.latency * 1000)), QueryItem("latency", Number(latency * 1000));
    assert received[..|received| - 1] == [theirs, QueryItem("mode", "caller")];
    if c.latency != 0 {
      assert RemoveFirst(c.parameters, "latency") == [];
      assert sent[..|sent| - 1] == [mine, QueryItem("mode", "caller")];
      if mine == theirs {
        NumberInjective(c.latency * 1000, latency * 1000);
      }
    } else {
      assert sent[..|sent| - 1] == c.parameters + [QueryItem("mode", "caller")];
    }
  }

  /** An override of a proposed latency reaches only the sender. */
  lemma OverrideStaysWithSender()
    ensures var c := StageConnection("c", "out", "srt", "server", "", 1, "id", "", ProposedParameters(200, 16, true),
                                     true, RELAY_APP_MEDIAMTX, 500, 1, "s");
      var sent, received := SenderQuery(c), ReceiverQuery(c);
      sent[..|sent| - 1] != received[..|received| - 1]
  {
    var c := StageConnection("c", "out", "srt", "server", "", 1, "id", "", ProposedParameters(200, 16, true),
                             true, RELAY_APP_MEDIAMTX, 500, 1, "s");
    ProposedRelayItemsAgreeIff(c, 200, 16);
  }

  // ---- a proposed latency at both ends ----

  lemma OverriddenLatency(items: seq<QueryItem>, proposal: int, latency: int)
    requires Only(items, "latency") == [QueryItem("latency", Number(proposal * 1000))]
    ensures Only(OverrideLatency(items, latency), "latency")
         == [QueryItem("latency", Number((if latency != 0 then latency else proposal) * 1000))]
  {
    hide Number;
    var mine := QueryItem("latency", Number(latency * 1000));
    RemoveFirstOnly(items, "latency");
    OnlyOne(mine);
    OnlyAdds(RemoveFirst(items, "latency"), [mine], "latency");
  }

  lemma OnlyMode(base: seq<QueryItem>, mode: QueryItem, tail: seq<QueryItem>)
    requires mode.key == "mode" && forall i :: 0 <= i < |tail| ==> tail[i].key != "latency"
    ensures Only(base + ([mode] + tail), "latency") == Only(base, "latency")
  {
    assert |"mode"| != |"latency"|;
    OnlyMeaning([mode] + tail, "latency");
    OtherKeysStay([mode] + tail, "latency");
    OnlyAdds(base, [mode] + tail, "latency");
  }

  /** With the parameters that its source proposed, the sender has the override or else the proposal as its one latency;
      so has the receiver of a direct connection, while that of a relayed one keeps the proposal. */
  lemma LatenciesAtBothEnds(c: StageConnection, proposal: int)
    requires Only(c.parameters, "latency") == [QueryItem("latency", Number(proposal * 1000))]
    ensures Only(SenderQuery(c), "latency")
         == [QueryItem("latency", Number((if c.latency != 0 then c.latency else proposal) * 1000))]
    ensures Only(ReceiverQuery(c), "latency")
         == [QueryItem("latency", Number((if c.latency != 0 && !c.relay then c.latency else proposal) * 1000))]
  {
    hide Number, OverrideLatency, SenderQuery, ReceiverQuery, SenderTail, ReceiverTail, Only;
    OverriddenLatency(c.parameters, proposal, c.latency);
    if c.relay {
      RelayLatencyItems(c);
    } else {
      DirectQueries(c);
      TailKeys(c);
      OnlyMode(OverrideLatency(c.parameters, c.latency), QueryItem("mode", "caller"), SenderTail(c));
      OnlyMode(OverrideLatency(c.parameters, c.latency), QueryItem("mode", "listener"), ReceiverTail(c));
    }
  }

  lemma ProposedItems(latency: int, pbkeylen: int, relay: bool)
    ensures var items := ProposedParameters(latency, pbkeylen, relay);
      && Only(items, "latency") == [QueryItem("latency", Number(latency * 1000))]
      && Only(items, "pbkeylen") == (if relay then [] else [QueryItem("pbkeylen", Number(pbkeylen))])
      && |items| == if relay then 1 else 2
  {
    hide Number;
    var first, second := QueryItem("latency", Number(latency * 1000)), QueryItem("pbkeylen", Number(pbkeylen));
    assert |"pbkeylen"| != |"latency"|;
    OnlyOne(first);
    OnlyOne(second);
    if !relay {
      assert ProposedParameters(latency, pbkeylen, relay) == [first] + [second];
      OnlyAdds([first], [second], "latency");
      OnlyAdds([first], [second], "pbkeylen");
    }
  }
}
