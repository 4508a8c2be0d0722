/** Whole runs of server messages over all replicated lists of the client. */
module ReplicaRuns {
  import opened Schema
  import opened ReplicatedLists
  import opened ApiClient

  datatype ClientEvent =
    | Announced(m: WebSocketMessage)       // added or changed
    | Withdrawn(m: WebSocketMessage)       // removed
    | Granted(participants: seq<Document>) // an invite code was redeemed

  function ReplicaStep(r: Replicas, e: ClientEvent): Replicas {
    match e
    case Announced(m) => Changed(r, m)
    case Withdrawn(m) => Dropped(r, m)
    case Granted(granted) =>
      r.(participants := ApplyAll(r.participants, DocumentKey, MergeLog(granted, DocumentKey)))
  }

  function ReplicaRun(r: Replicas, events: seq<ClientEvent>): Replicas
    decreases |events|
  {
    if events == [] then r else ReplicaStep(ReplicaRun(r, events[..|events| - 1]), events[|events| - 1])
  }

  /** The same state as single records and plain maps from ids to records. */
  datatype Views = Views(
    publicAddress: Option<string>,
    allocation: Option<Allocation>,
    stage: Option<Document>,
    account: Option<Document>,
    license: Option<License>,
    usage: Option<Document>,
    connections: map<string, StageConnection>,
    stages: map<string, Document>,
    participants: map<string, Document>,
    wsPortals: map<string, Document>,
    downlinks: map<string, StageConnection>
  )

  function PutAll(m: map<string, Document>, granted: seq<Document>): map<string, Document> {
    if granted == [] then m
    else PutAll(m, granted[..|granted| - 1])[granted[|granted| - 1].id := granted[|granted| - 1]]
  }

  function ViewStep(v: Views, e: ClientEvent): Views {
    match e
    case Announced(m) =>
      if !m.valid then v
      else (match m.topic
        case UplinkAllocations => v.(allocation := Some(m.allocation))
        case UplinkStages => v.(stage := Some(m.document))
        case Accounts => v.(account := Some(m.document))
        case AccountLicenses => v.(license := Some(m.license))
        case AccountResourceUsage => v.(usage := Some(m.document))
        case UplinkConnections => v.(connections := v.connections[m.id := m.connection])
        case DownlinkConnections => v.(downlinks := v.downlinks[m.id := m.connection])
        case Stages => v.(stages := v.stages[m.id := m.document])
        case Participants => v.(participants := v.participants[m.id := m.document])
        case WsPortals => v.(wsPortals := v.wsPortals[m.id := m.document])
        case OtherTopic => v)
    case Withdrawn(m) =>
      (match m.topic
        case UplinkAllocations =>
          if v.allocation.Some? && v.allocation.value.id == m.id then v.(allocation := None) else v
        case UplinkStages => if v.stage.Some? && v.stage.value.id == m.id then v.(stage := None) else v
        case UplinkConnections => v.(connections := v.connections - {m.id})
        case DownlinkConnections => v.(downlinks := v.downlinks - {m.id})
        case Stages => v.(stages := v.stages - {m.id})
        case Participants => v.(participants := v.participants - {m.id})
        case WsPortals => v.(wsPortals := v.wsPortals - {m.id})
        case _ => v)
    case Granted(granted) => v.(participants := PutAll(v.participants, granted))
  }

  function ViewRun(v: Views, events: seq<ClientEvent>): Views
    decreases |events|
  {
    if events == [] then v else ViewStep(ViewRun(v, events[..|events| - 1]), events[|events| - 1])
  }

  /** The single records. */
  predicate RepresentsRecords(r: Replicas, v: Views) {
    && Members(r.uplink).publicAddress == v.publicAddress
    && Members(r.uplink).allocation == v.allocation && Members(r.uplink).stage == v.stage
    && r.account == AccountInfo(v.account, v.license, v.usage)
  }

  ghost predicate RepresentsAll(r: Replicas, v: Views) {
    && RepresentsRecords(r, v)
    && Represents(ConnectionsOf(r.uplink), ConnectionKey, v.connections)
    && Represents(r.stages, DocumentKey, v.stages)
    && Represents(r.participants, DocumentKey, v.participants)
    && Represents(r.wsPortals, DocumentKey, v.wsPortals)
    && r.downlinks == v.downlinks
  }

  /** A message carries the id of its payload. */
  predicate WellAddressed(e: ClientEvent) {
    e.Announced? && e.m.valid ==>
      (e.m.topic == UplinkConnections ==> e.m.connection.id == e.m.id)
      && (e.m.topic in {Stages, Participants, WsPortals} ==> e.m.document.id == e.m.id)
  }

  lemma {:induction false} PutAllIsMerge(m: map<string, Document>, granted: seq<Document>)
    ensures PutAll(m, granted) == MapApplyAll(m, MergeLog(granted, DocumentKey))
  {
    if granted != [] {
      var front := granted[..|granted| - 1];
      PutAllIsMerge(m, front);
      assert MergeLog(granted, DocumentKey)[..|granted| - 1] == MergeLog(front, DocumentKey);
    }
  }

  lemma ConnectionsChange(r: Replicas, m: WebSocketMessage)
    ensures ConnectionsOf(Changed(r, m).uplink) ==
      if m.valid && m.topic == UplinkConnections
      then Upsert(ConnectionsOf(r.uplink), ConnectionKey, m.id, m.connection) else ConnectionsOf(r.uplink)
    ensures ConnectionsOf(Dropped(r, m).uplink) ==
      if m.topic == UplinkConnections then RemoveId(ConnectionsOf(r.uplink), ConnectionKey, m.id)
      else ConnectionsOf(r.uplink)
  {
  }

  lemma MembersBesideConnections(uplink: Option<UplinkInfo>, connections: seq<StageConnection>)
    ensures Members(WithConnections(uplink, connections)) == Members(uplink).(connections := Some(connections))
  {
  }

  lemma MembersHeld(u: UplinkInfo)
    ensures Members(Held(u)) == u
  {
  }

  lemma MembersAfter(r: Replicas, m: WebSocketMessage)
    ensures var u, u' := Members(r.uplink), Members(Changed(r, m).uplink);
      && u'.publicAddress == u.publicAddress
      && u'.allocation == (if m.valid && m.topic == UplinkAllocations then Some(m.allocation) else u.allocation)
      && u'.stage == (if m.valid && m.topic == UplinkStages then Some(m.document) else u.stage)
  {
    hide Upsert, ConnectionsOf, WithConnections;
    MembersBesideConnections(r.uplink, Upsert(ConnectionsOf(r.uplink), ConnectionKey, m.id, m.connection));
  }

  lemma AccountAfter(r: Replicas, m: WebSocketMessage)
    ensures var a, a' := r.account, Changed(r, m).account;
      && a'.account == (if m.valid && m.topic == Accounts then Some(m.document) else a.account)
      && a'.license == (if m.valid && m.topic == AccountLicenses then Some(m.license) else a.license)
      && a'.usage == (if m.valid && m.topic == AccountResourceUsage then Some(m.document) else a.usage)
  {
    hide Upsert, ConnectionsOf, WithConnections, Members;
  }

  lemma AccountAnnounced(r: Replicas, v: Views, m: WebSocketMessage)
    requires RepresentsRecords(r, v) && m.valid
    requires m.topic == Accounts || m.topic == AccountLicenses || m.topic == AccountResourceUsage
    ensures RepresentsRecords(Changed(r, m), ViewStep(v, Announced(m)))
  {
    hide Changed, Members;
    MembersAfter(r, m);
    AccountAfter(r, m);
  }

  lemma UplinkAnnounced(r: Replicas, v: Views, m: WebSocketMessage)
    requires RepresentsRecords(r, v) && m.valid && (m.topic == UplinkAllocations || m.topic == UplinkStages)
    ensures RepresentsRecords(Changed(r, m), ViewStep(v, Announced(m)))
  {
    hide Changed, Members;
    MembersAfter(r, m);
    AccountAfter(r, m);
  }

  lemma EntryAnnounced(r: Replicas, v: Views, m: WebSocketMessage)
    requires RepresentsRecords(r, v)
    requires !m.valid || m.topic in {UplinkConnections, DownlinkConnections, Stages, Participants, WsPortals, OtherTopic}
    ensures RepresentsRecords(Changed(r, m), ViewStep(v, Announced(m)))
  {
    hide Changed, Members;
    MembersAfter(r, m);
    AccountAfter(r, m);
  }

  lemma RecordsAnnounced(r: Replicas, v: Views, m: WebSocketMessage)
    requires RepresentsRecords(r, v)
    ensures RepresentsRecords(Changed(r, m), ViewStep(v, Announced(m)))
  {
    hide Changed, ViewStep, RepresentsRecords;
    if !m.valid {
      EntryAnnounced(r, v, m);
    } else {
      match m.topic
      case UplinkAllocations | UplinkStages => UplinkAnnounced(r, v, m);
      case Accounts | AccountLicenses | AccountResourceUsage => AccountAnnounced(r, v, m);
      case _ => EntryAnnounced(r, v, m);
    }
  }

  lemma MembersLeft(r: Replicas, m: WebSocketMessage)
    ensures Dropped(r, m).account == r.account
    ensures var u, u' := Members(r.uplink), Members(Dropped(r, m).uplink);
      && u'.publicAddress == u.publicAddress
      && u'.allocation == (if m.topic == UplinkAllocations && u.allocation.Some? && u.allocation.value.id == m.id
                           then None else u.allocation)
      && u'.stage == (if m.topic == UplinkStages && u.stage.Some? && u.stage.value.id == m.id then None else u.stage)
  {
    hide RemoveId, IndexOfId, ConnectionsOf, WithConnections, Held, Members;
    match m.topic
    case UplinkAllocations => MembersHeld(Members(r.uplink).(allocation := None));
    case UplinkStages => MembersHeld(Members(r.uplink).(stage := None));
    case UplinkConnections =>
      MembersBesideConnections(r.uplink, RemoveId(ConnectionsOf(r.uplink), ConnectionKey, m.id));
    case _ =>
  }

  lemma RecordsWithdrawn(r: Replicas, v: Views, m: WebSocketMessage)
    requires RepresentsRecords(r, v)
    ensures RepresentsRecords(Dropped(r, m), ViewStep(v, Withdrawn(m)))
  {
    hide Dropped, Members;
    MembersLeft(r, m);
  }

  lemma AnnouncedRepresents(r: Replicas, v: Views, m: WebSocketMessage)
    requires RepresentsAll(r, v) && WellAddressed(Announced(m)) && m.valid
    ensures RepresentsAll(Changed(r, m), ViewStep(v, Announced(m)))
  {
    hide Represents, RepresentsRecords, ConnectionsOf, Upsert, IndexOfId, Members, WithConnections;
    ConnectionsChange(r, m);
    RecordsAnnounced(r, v, m);
    match m.topic
    case UplinkConnections =>
      ApplyRepresents(ConnectionsOf(r.uplink), ConnectionKey, v.connections, Change.Put(m.id, m.connection));
    case Stages => ApplyRepresents(r.stages, DocumentKey, v.stages, Change.Put(m.id, m.document));
    case Participants => ApplyRepresents(r.participants, DocumentKey, v.participants, Change.Put(m.id, m.document));
    case WsPortals => ApplyRepresents(r.wsPortals, DocumentKey, v.wsPortals, Change.Put(m.id, m.document));
    case _ =>
  }

  /** Removing an id that is not there changes nothing. */
  lemma NothingToDrop<T>(list: seq<T>, key: T -> string, id: string)
    ensures IndexOfId(list, key, id) < 0 ==> RemoveId(list, key, id) == list
  {
  }

  lemma WithdrawnRepresents(r: Replicas, v: Views, m: WebSocketMessage)
    requires RepresentsAll(r, v)
    ensures RepresentsAll(Dropped(r, m), ViewStep(v, Withdrawn(m)))
  {
    hide Represents, RepresentsRecords, ConnectionsOf, Dropped;
    ConnectionsChange(r, m);
    RecordsWithdrawn(r, v, m);
    OthersStay(r, m);
    match m.topic
    case UplinkConnections => ApplyRepresents(ConnectionsOf(r.uplink), ConnectionKey, v.connections, Delete(m.id));
    case DownlinkConnections =>
    case Stages => ApplyRepresents(r.stages, DocumentKey, v.stages, Delete(m.id));
    case Participants => ApplyRepresents(r.participants, DocumentKey, v.participants, Delete(m.id));
    case WsPortals => ApplyRepresents(r.wsPortals, DocumentKey, v.wsPortals, Delete(m.id));
    case _ =>
  }

  /** A removal, list by list. */
  lemma OthersStay(r: Replicas, m: WebSocketMessage)
    ensures Dropped(r, m).stages == if m.topic == Stages then RemoveId(r.stages, DocumentKey, m.id) else r.stages
    ensures Dropped(r, m).participants
         == if m.topic == Participants then RemoveId(r.participants, DocumentKey, m.id) else r.participants
    ensures Dropped(r, m).wsPortals
         == if m.topic == WsPortals then RemoveId(r.wsPortals, DocumentKey, m.id) else r.wsPortals
    ensures Dropped(r, m).downlinks == if m.topic == DownlinkConnections then r.downlinks - {m.id} else r.downlinks
  {
    hide RemoveId, IndexOfId, Members, WithConnections, Held, AllocationId, StageId, ConnectionsOf;
    NothingToDrop(r.stages, DocumentKey, m.id);
    NothingToDrop(r.participants, DocumentKey, m.id);
    NothingToDrop(r.wsPortals, DocumentKey, m.id);
    assert m.id !in r.downlinks ==> r.downlinks - {m.id} == r.downlinks;
  }

  lemma StepRepresents(r: Replicas, v: Views, e: ClientEvent)
    requires RepresentsAll(r, v) && WellAddressed(e)
    ensures RepresentsAll(ReplicaStep(r, e), ViewStep(v, e))
  {
    hide Represents, WellAddressed, Upsert, RemoveId;
    match e
    case Announced(m) =>
      if m.valid {
        AnnouncedRepresents(r, v, m);
      }
    case Withdrawn(m) => WithdrawnRepresents(r, v, m);
    case Granted(granted) =>
      PutAllIsMerge(v.participants, granted);
      LogRefinesMap(r.participants, DocumentKey, v.participants, MergeLog(granted, DocumentKey));
  }

  /** Any run of well-addressed messages and grants leaves every list with distinct ids and with exactly the records
      that plain maps would hold, and every single record with what came last. */
  lemma {:induction false} RunRepresents(r: Replicas, v: Views, events: seq<ClientEvent>)
    requires RepresentsAll(r, v)
    requires forall i :: 0 <= i < |events| ==> WellAddressed(events[i])
    ensures RepresentsAll(ReplicaRun(r, events), ViewRun(v, events))
    decreases |events|
  {
    if events != [] {
      var before := events[..|events| - 1];
      RunRepresents(r, v, before);
      StepRepresents(ReplicaRun(r, before), ViewRun(v, before), events[|events| - 1]);
    }
  }

  // ---- signals ----

  function SignalsOf(r: Replicas, m: WebSocketMessage, announced: bool): seq<Signal> {
    if announced then ChangeSignals(r, m) else DropSignals(r, m)
  }

  function After(r: Replicas, m: WebSocketMessage, announced: bool): Replicas {
    if announced then Changed(r, m) else Dropped(r, m)
  }

  /** Whether the account has a valid license. */
  predicate Licensed(a: AccountInfo) { match a.license case None => false case Some(license) => license.valid }

  /** The part of the client that a signal tells of is the only one that may have changed. */
  predicate TellsOf(s: Signal, r: Replicas, r': Replicas) {
    match s
    case UplinkReady => r' == r.(uplink := r'.uplink)
    case StagesReady => r' == r.(stages := r'.stages)
    case ParticipantsReady => r' == r.(participants := r'.participants)
    case WsPortalsReady => r' == r.(wsPortals := r'.wsPortals)
    case DownlinkReady(id) => id in r'.downlinks && r' == r.(downlinks := r.downlinks[id := r'.downlinks[id]])
    case DownlinkRemoved(id) => id in r.downlinks && r' == r.(downlinks := r.downlinks - {id})
    case AccountInfoReady => r' == r.(account := r'.account)
    case LicenseChanged(license) =>
      r' == r.(account := r'.account) && r'.account.license == Some(license)
      && r.account != NO_ACCOUNT && Licensed(r'.account) != Licensed(r.account)
  }

  /** A list without one of its entries is another list. */
  lemma ShorterList<T>(list: seq<T>, key: T -> string, id: string)
    requires IndexOfId(list, key, id) >= 0
    ensures RemoveId(list, key, id) != list
  {
    assert |RemoveId(list, key, id)| == |list| - 1;
  }

  lemma ChangeIsTold(r: Replicas, m: WebSocketMessage)
    ensures forall i :: 0 <= i < |ChangeSignals(r, m)| ==> TellsOf(ChangeSignals(r, m)[i], r, Changed(r, m))
    ensures ChangeSignals(r, m) == [] <==> !m.valid || m.topic == OtherTopic
    ensures ChangeSignals(r, m) == [] ==> Changed(r, m) == r
    ensures LicenseChanged(m.license) in ChangeSignals(r, m) <==>
      m.valid && m.topic == AccountLicenses && r.account != NO_ACCOUNT
      && Licensed(Changed(r, m).account) != Licensed(r.account)
  {
    hide Upsert, WithConnections, ConnectionsOf;
  }

  lemma DropIsTold(r: Replicas, m: WebSocketMessage)
    ensures |DropSignals(r, m)| <= 1
    ensures DropSignals(r, m) != [] ==> TellsOf(DropSignals(r, m)[0], r, Dropped(r, m))
    ensures Dropped(r, m) != r ==> DropSignals(r, m) != []
    ensures DropSignals(r, m) != [] && m.id != "" ==> Dropped(r, m) != r
  {
    hide RemoveId, IndexOfId, ConnectionKey, DocumentKey;
    if Contains(r, m) {
      match m.topic
      case UplinkConnections => ConnectionDropped(r, m.id);
      case Stages => ShorterList(r.stages, DocumentKey, m.id);
      case Participants => ShorterList(r.participants, DocumentKey, m.id);
      case WsPortals => ShorterList(r.wsPortals, DocumentKey, m.id);
      case _ =>
    }
  }

  lemma ConnectionDropped(r: Replicas, id: string)
    requires IndexOfId(ConnectionsOf(r.uplink), ConnectionKey, id) >= 0
    ensures WithConnections(r.uplink, RemoveId(ConnectionsOf(r.uplink), ConnectionKey, id)) != r.uplink
  {
    hide RemoveId, IndexOfId;
    ShorterList(ConnectionsOf(r.uplink), ConnectionKey, id);
  }

  /** A message is announced by signals that each tell of the one part that changed; what is not announced has not
      changed; and a removal is announced only if something was removed (but for a message without an id). */
  lemma MessagesAreTold(r: Replicas, m: WebSocketMessage, announced: bool)
    ensures var r', signals := After(r, m, announced), SignalsOf(r, m, announced);
      && (forall i :: 0 <= i < |signals| ==> TellsOf(signals[i], r, r'))
      && (r' != r ==> signals != [])
      && (announced ==> (signals != [] <==> m.valid && m.topic != OtherTopic))
      && (!announced && m.id != "" ==> (signals != [] <==> r' != r))
      && (LicenseChanged(m.license) in signals <==>
            announced && m.valid && m.topic == AccountLicenses && r.account != NO_ACCOUNT
            && Licensed(r'.account) != Licensed(r.account))
  {
    hide Changed, Dropped, TellsOf, Licensed;
    if announced {
      ChangeIsTold(r, m);
    } else {
      DropIsTold(r, m);
    }
  }

  /** A message that carries another entry's id leaves two entries with that id. */
  lemma MisaddressedRepeatsId()
    ensures var a, b := Document("a", ""), Document("b", "");
      var list := Upsert([a, b], DocumentKey, "a", Document("b", "new"));
      list == [Document("b", "new"), b] && Distinct([a, b], DocumentKey) && !Distinct(list, DocumentKey)
  {
    var a, b := Document("a", ""), Document("b", "");
    assert IndexOfId([a, b], DocumentKey, "a") == 0 by {
      assert DocumentKey([a, b][0]) == "a";
    }
    UpsertDistinctIff([a, b], DocumentKey, "a", Document("b", "new"));
    assert DocumentKey([a, b][1]) == "b" && HasId([a, b], DocumentKey, "b");
  }
}
