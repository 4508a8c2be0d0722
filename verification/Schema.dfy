/** Records exchanged with the SRC-Link server and the array search they share (src/schema.hpp). */
module Schema {

  datatype Option<+T> = None | Some(value: T)

  const RELAY_APP_MEDIAMTX := "mediamtx"

  /** One `key=value` item of a URL query. */
  datatype QueryItem = QueryItem(key: string, value: string)

  /** The fields of a stage connection that the two link endpoints read.
      `parameters` is the already split query string. */
  datatype StageConnection = StageConnection(
    id: string,
    sourceName: string,
    protocol: string,
    server: string,
    lanServer: string,
    port: int,
    streamId: string,
    passphrase: string,
    parameters: seq<QueryItem>,
    relay: bool,
    relayApp: string,
    latency: int,
    revision: int,
    allocationId: string
  )

  /** A seat allocation, of which only the id and the LAN flag matter here. */
  datatype Allocation = Allocation(id: string, lan: bool)

  /** A record of which only the identity matters here: a stage, a participant, a portal, an account. */
  datatype Document = Document(id: string, content: string)

  /** The uplink document; each member may be missing from it.  The empty JSON object is `None` wherever an uplink is
      held. */
  datatype UplinkInfo = UplinkInfo(
    connections: Option<seq<StageConnection>>,
    publicAddress: Option<string>,
    allocation: Option<Allocation>,
    stage: Option<Document>
  )

  const NO_MEMBERS := UplinkInfo(None, None, None, None)

  /** `getConnections()`. */
  function Connections(u: UplinkInfo): seq<StageConnection> {
    if u.connections.Some? then u.connections.value else []
  }

  /** `getPublicAddress()`. */
  function PublicAddress(u: UplinkInfo): string {
    if u.publicAddress.Some? then u.publicAddress.value else ""
  }

  /** `getAllocation().getLan()`. */
  function Lan(u: UplinkInfo): bool { u.allocation.Some? && u.allocation.value.lan }

  datatype License = License(document: Document, valid: bool)

  /** The account document; the empty JSON object has no member. */
  datatype AccountInfo = AccountInfo(account: Option<Document>, license: Option<License>, usage: Option<Document>)

  const NO_ACCOUNT := AccountInfo(None, None, None)

  /** The message names. */
  datatype Topic =
    | UplinkAllocations | UplinkStages | UplinkConnections | DownlinkConnections
    | Stages | Participants | Accounts | AccountLicenses | AccountResourceUsage | WsPortals | OtherTopic

  /** A message of the web socket.  `valid` is the verdict of the `isValid()` that its topic selects; the payload is
      given as every record that a topic may read it as. */
  datatype WebSocketMessage = WebSocketMessage(
    topic: Topic,
    id: string,
    valid: bool,
    connection: StageConnection,
    document: Document,
    allocation: Allocation,
    license: License,
    continuous: bool
  )

  /** `getId()` of a connection that may be the empty object. */
  function ConnectionId(c: Option<StageConnection>): string {
    if c.Some? then c.value.id else ""
  }

  /** `getRevision()` of a connection that may be the empty object. */
  function ConnectionRevision(c: Option<StageConnection>): int {
    if c.Some? then c.value.revision else 0
  }

  /** `TypedJsonArray::findIndex` as a search from the front. */
  function FirstIndex<T>(s: seq<T>, p: T -> bool): (i: int)
    ensures -1 <= i < |s|
    ensures 0 <= i ==> p(s[i]) && forall j :: 0 <= j < i ==> !p(s[j])
    ensures i < 0 ==> forall j :: 0 <= j < |s| ==> !p(s[j])
  {
    if s == [] then -1
    else if p(s[0]) then 0
    else
      var i := FirstIndex(s[1..], p);
      assert forall j :: 1 <= j < |s| ==> s[j] == s[1..][j - 1];
      if i < 0 then -1 else i + 1
  }

  /** The loop of `TypedJsonArray::findIndex`. */
  method FindIndex<T>(s: seq<T>, p: T -> bool) returns (index: int)
    ensures index == FirstIndex(s, p)
    ensures 0 <= index ==> index < |s| && p(s[index]) && forall j :: 0 <= j < index ==> !p(s[j])
    ensures index < 0 ==> index == -1 && forall j :: 0 <= j < |s| ==> !p(s[j])
  {
    for i := 0 to |s|
      invariant forall j :: 0 <= j < i ==> !p(s[j])
    {
      if p(s[i]) {
        return i;
      }
    }
    return -1;
  }

  /** `TypedJsonArray::find`; the default-constructed object is `None`. */
  method Find<T>(s: seq<T>, p: T -> bool) returns (found: Option<T>)
    ensures found == FirstMatch(s, p)
  {
    var index := FindIndex(s, p);
    if index >= 0 {
      return Some(s[index]);
    }
    return None;
  }

  function FirstMatch<T>(s: seq<T>, p: T -> bool): (found: Option<T>)
    ensures found.Some? <==> exists i :: 0 <= i < |s| && p(s[i])
    ensures found.Some? ==> p(found.value) && found.value in s
    ensures found.Some? ==> exists i :: 0 <= i < |s| && s[i] == found.value && forall j :: 0 <= j < i ==> !p(s[j])
  {
    var i := FirstIndex(s, p);
    if i >= 0 then Some(s[i]) else None
  }

  /** `TypedJsonArray::every`. */
  method Every<T>(s: seq<T>, p: T -> bool) returns (all: bool)
    ensures all <==> forall j :: 0 <= j < |s| ==> p(s[j])
  {
    for i := 0 to |s|
      invariant forall j :: 0 <= j < i ==> p(s[j])
    {
      if !p(s[i]) {
        return false;
      }
    }
    return true;
  }

  /** The connection of an uplink that feeds the named output. */
  function ConnectionFor(uplink: Option<UplinkInfo>, name: string): Option<StageConnection> {
    if uplink.None? then None
    else FirstMatch(Connections(uplink.value), (c: StageConnection) => c.sourceName == name)
  }

  /** The first connection of the uplink with that source name, or none exactly when there is none. */
  lemma ConnectionForIff(uplink: UplinkInfo, name: string)
    ensures var found, cs := ConnectionFor(Some(uplink), name), Connections(uplink);
      && (found.None? <==> forall i :: 0 <= i < |cs| ==> cs[i].sourceName != name)
      && (found.Some? ==> exists i :: 0 <= i < |cs| && cs[i] == found.value && cs[i].sourceName == name
                                      && forall j :: 0 <= j < i ==> cs[j].sourceName != name)
  {
    var p := (c: StageConnection) => c.sourceName == name;
    var found := FirstMatch(Connections(uplink), p);
    assert forall c: StageConnection :: p(c) <==> c.sourceName == name;
  }
}
