/** The client object that every output and every ingress source shares (src/api-client.cpp, src/api-client.hpp). */
module ApiClient {
  import opened Schema
  import opened UplinkCounters
  import opened ReplicatedLists
  import opened Ports

  /** The emissions of the client that carry what it replicates. */
  datatype Signal =
    | UplinkReady | StagesReady | ParticipantsReady | WsPortalsReady
    | DownlinkReady(id: string) | DownlinkRemoved(id: string)
    | AccountInfoReady | LicenseChanged(license: License)

  function ConnectionKey(c: StageConnection): string { c.id }
  function DocumentKey(d: Document): string { d.id }

  /** The members of an uplink that may be the empty object. */
  function Members(uplink: Option<UplinkInfo>): UplinkInfo {
    if uplink.Some? then uplink.value else NO_MEMBERS
  }

  function ConnectionsOf(uplink: Option<UplinkInfo>): seq<StageConnection> { Connections(Members(uplink)) }

  function WithConnections(uplink: Option<UplinkInfo>, connections: seq<StageConnection>): Option<UplinkInfo> {
    Some(Members(uplink).(connections := Some(connections)))
  }

  /** An uplink whose last member was removed is the empty object. */
  function Held(u: UplinkInfo): Option<UplinkInfo> { if u == NO_MEMBERS then None else Some(u) }

  function AllocationId(uplink: Option<UplinkInfo>): string {
    if Members(uplink).allocation.Some? then Members(uplink).allocation.value.id else ""
  }

  function StageId(uplink: Option<UplinkInfo>): string {
    if Members(uplink).stage.Some? then Members(uplink).stage.value.id else ""
  }

  function LicenseValid(info: AccountInfo): bool { info.license.Some? && info.license.value.valid }

  /** The replicated part of the client. */
  datatype Replicas = Replicas(
    uplink: Option<UplinkInfo>,
    stages: seq<Document>,
    participants: seq<Document>,
    wsPortals: seq<Document>,
    downlinks: map<string, StageConnection>,
    account: AccountInfo
  )

  /** A message changes the record of its topic and no other; a malformed one changes nothing. */
  function Changed(r: Replicas, m: WebSocketMessage): Replicas {
    if !m.valid then r
    else match m.topic
      case UplinkAllocations => r.(uplink := Some(Members(r.uplink).(allocation := Some(m.allocation))))
      case UplinkStages => r.(uplink := Some(Members(r.uplink).(stage := Some(m.document))))
      case UplinkConnections =>
        r.(uplink := WithConnections(r.uplink, Upsert(ConnectionsOf(r.uplink), ConnectionKey, m.id, m.connection)))
      case DownlinkConnections => r.(downlinks := r.downlinks[m.id := m.connection])
      case Stages => r.(stages := Upsert(r.stages, DocumentKey, m.id, m.document))
      case Participants => r.(participants := Upsert(r.participants, DocumentKey, m.id, m.document))
      case Accounts => r.(account := r.account.(account := Some(m.document)))
      case AccountLicenses => r.(account := r.account.(license := Some(m.license)))
      case AccountResourceUsage => r.(account := r.account.(usage := Some(m.document)))
      case WsPortals => r.(wsPortals := Upsert(r.wsPortals, DocumentKey, m.id, m.document))
      case OtherTopic => r
  }

  /** The record of the topic has the message's id, or an entry with it. */
  predicate Contains(r: Replicas, m: WebSocketMessage) {
    match m.topic
    case UplinkAllocations => AllocationId(r.uplink) == m.id
    case UplinkStages => StageId(r.uplink) == m.id
    case UplinkConnections => IndexOfId(ConnectionsOf(r.uplink), ConnectionKey, m.id) >= 0
    case DownlinkConnections => m.id in r.downlinks
    case Stages => IndexOfId(r.stages, DocumentKey, m.id) >= 0
    case Participants => IndexOfId(r.participants, DocumentKey, m.id) >= 0
    case WsPortals => IndexOfId(r.wsPortals, DocumentKey, m.id) >= 0
    case _ => false
  }

  function Dropped(r: Replicas, m: WebSocketMessage): Replicas {
    if !Contains(r, m) then r
    else match m.topic
      case UplinkAllocations => r.(uplink := Held(Members(r.uplink).(allocation := None)))
      case UplinkStages => r.(uplink := Held(Members(r.uplink).(stage := None)))
      case UplinkConnections =>
        r.(uplink := WithConnections(r.uplink, RemoveId(ConnectionsOf(r.uplink), ConnectionKey, m.id)))
      case DownlinkConnections => r.(downlinks := r.downlinks - {m.id})
      case Stages => r.(stages := RemoveId(r.stages, DocumentKey, m.id))
      case Participants => r.(participants := RemoveId(r.participants, DocumentKey, m.id))
      case WsPortals => r.(wsPortals := RemoveId(r.wsPortals, DocumentKey, m.id))
      case _ => r
  }

  /** What a change is announced with.  A new license is announced once more when it changes whether there is a valid
      one, unless nothing was known of the account. */
  function ChangeSignals(r: Replicas, m: WebSocketMessage): seq<Signal> {
    if !m.valid then []
    else match m.topic
      case UplinkAllocations => [UplinkReady]
      case UplinkStages => [UplinkReady]
      case UplinkConnections => [UplinkReady]
      case DownlinkConnections => [DownlinkReady(m.id)]
      case Stages => [StagesReady]
      case Participants => [ParticipantsReady]
      case Accounts => [AccountInfoReady]
      case AccountLicenses =>
        [AccountInfoReady]
        + if r.account != NO_ACCOUNT && LicenseValid(r.account) != m.license.valid then [LicenseChanged(m.license)] else []
      case AccountResourceUsage => [AccountInfoReady]
      case WsPortals => [WsPortalsReady]
      case OtherTopic => []
  }

  function DropSignals(r: Replicas, m: WebSocketMessage): seq<Signal> {
    if !Contains(r, m) then []
    else match m.topic
      case UplinkAllocations => [UplinkReady]
      case UplinkStages => [UplinkReady]
      case UplinkConnections => [UplinkReady]
      case DownlinkConnections => [DownlinkRemoved(m.id)]
      case Stages => [StagesReady]
      case Participants => [ParticipantsReady]
      case _ => [WsPortalsReady]
  }

  class SRCLinkApiClient {
    var portMin: int
    var portMax: int
    var usedPorts: map<int, bool>
    var activeOutputs: int
    var standByOutputs: int
    var uplinkStatus: UplinkStatus
    var uplink: Option<UplinkInfo>
    var stages: seq<Document>
    var participants: seq<Document>
    var wsPortals: seq<Document>
    var downlinks: map<string, StageConnection>
    var accountInfo: AccountInfo
    var blocked: bool
    ghost var puts: seq<StatusPut>
    ghost var signals: seq<Signal>
    ghost var logouts: nat

    constructor (portMin: int, portMax: int)
      ensures this.portMin == portMin && this.portMax == portMax
      ensures Marked() == {} && !blocked
      ensures Counters() == Client(None, 0, 0, UplinkInactive, [])
      ensures Replica() == Replicas(None, [], [], [], map[], NO_ACCOUNT) && signals == [] && logouts == 0
    {
      this.portMin, this.portMax := portMin, portMax;
      usedPorts := map[];
      activeOutputs, standByOutputs := 0, 0;
      uplinkStatus := UplinkInactive;
      uplink, stages, participants, wsPortals, downlinks := None, [], [], [], map[];
      accountInfo := NO_ACCOUNT;
      blocked := false;
      puts, signals, logouts := [], [], 0;
    }

    /** The ports marked as used. */
    ghost function Marked(): set<int>
      reads this`usedPorts
    {
      set p | p in usedPorts && usedPorts[p]
    }

    /** What the outputs share. */
    ghost function Counters(): Client
      reads this`uplink, this`activeOutputs, this`standByOutputs, this`uplinkStatus, this`puts
    {
      Client(uplink, activeOutputs, standByOutputs, uplinkStatus, puts)
    }

    ghost function Replica(): Replicas
      reads this`uplink, this`stages, this`participants, this`wsPortals, this`downlinks, this`accountInfo
    {
      Replicas(uplink, stages, participants, wsPortals, downlinks, accountInfo)
    }

    /** Allocate the lowest free port of the configured range, or 0. */
    method GetFreePort() returns (port: int)
      modifies this`usedPorts
      ensures match LowestFree(old(Marked()), portMin, portMax)
        case Some(p) => port == p && Marked() == old(Marked()) + {p}
        case None => port == 0 && Marked() == old(Marked())
    {
      var i := portMin;
      while i <= portMax
        invariant portMin <= i
        invariant Marked() == old(Marked())
        invariant forall p :: portMin <= p < i ==> p in Marked()
        decreases portMax - i
      {
        if i !in usedPorts {
          usedPorts := usedPorts[i := false];
        }
        if !usedPorts[i] {
          if i <= portMax {
            LowestFreeIsUnique(old(Marked()), portMin, portMax, i);
          }
          usedPorts := usedPorts[i := true];
          return i;
        }
        i := i + 1;
      }
      return 0;
    }

    method ReleasePort(port: int)
      modifies this`usedPorts
      ensures Marked() == old(Marked()) - {port}
    {
      usedPorts := usedPorts[port := false];
    }

    method IncrementActiveOutputs()
      modifies this`activeOutputs
      ensures activeOutputs == old(activeOutputs) + 1
    {
      activeOutputs := activeOutputs + 1;
    }

    method DecrementActiveOutputs()
      modifies this`activeOutputs
      ensures activeOutputs == old(activeOutputs) - 1
    {
      activeOutputs := activeOutputs - 1;
    }

    method IncrementStandByOutputs()
      modifies this`standByOutputs
      ensures standByOutputs == old(standByOutputs) + 1
    {
      standByOutputs := standByOutputs + 1;
    }

    method DecrementStandByOutputs()
      modifies this`standByOutputs
      ensures standByOutputs == old(standByOutputs) - 1
    {
      standByOutputs := standByOutputs - 1;
    }

    method SyncUplinkStatus(force: bool)
      modifies this`uplinkStatus, this`puts
      ensures Counters() == UplinkCounters.SyncUplinkStatus(old(Counters()), force)
    {
      if uplink.None? {
        return;
      }
      var next :=
        if activeOutputs > 0 then UplinkActive
        else if standByOutputs > 0 then UplinkStandBy
        else UplinkInactive;
      if force || next != uplinkStatus {
        uplinkStatus := next;
        puts := puts + [StatusPut(next, force)]; // putUplinkStatus()
      }
    }

    /** `emit`, which is a no-op while signals are blocked. */
    ghost method Emit(s: Signal)
      modifies this`signals
      ensures signals == old(signals) + if blocked then [] else [s]
    {
      if !blocked {
        signals := signals + [s];
      }
    }

    /** `added` and `changed` messages: each record takes the change addressed to it and no other, and is announced
        exactly when it took one and the message ends its batch. */
    method OnWebSocketDataChanged(m: WebSocketMessage)
      modifies this`uplink, this`stages, this`participants, this`wsPortals, this`downlinks, this`accountInfo
      modifies this`blocked, this`signals
      ensures Replica() == Changed(old(Replica()), m)
      ensures !blocked
      ensures signals == old(signals) + if m.continuous then [] else ChangeSignals(old(Replica()), m)
    {
      hide Upsert, Members, ConnectionsOf, WithConnections, LicenseValid;
      blocked := m.continuous;
      if m.valid {
        match m.topic {
          case UplinkAllocations | UplinkStages | UplinkConnections => ChangeUplink(m);
          case Accounts | AccountLicenses | AccountResourceUsage => ChangeAccount(m);
          case DownlinkConnections | Stages | Participants | WsPortals => ChangeEntry(m);
          case OtherTopic =>
        }
      }
      blocked := false;
    }

    method ChangeUplink(m: WebSocketMessage)
      requires m.valid && (m.topic == UplinkAllocations || m.topic == UplinkStages || m.topic == UplinkConnections)
      modifies this`uplink, this`signals
      ensures Replica() == Changed(old(Replica()), m)
      ensures signals == old(signals) + if blocked then [] else [UplinkReady]
    {
      match m.topic {
        case UplinkAllocations =>
          uplink := Some(Members(uplink).(allocation := Some(m.allocation)));
        case UplinkStages =>
          uplink := Some(Members(uplink).(stage := Some(m.document)));
        case UplinkConnections =>
          var connections := ConnectionsOf(uplink);
          connections := Replicate(connections, ConnectionKey, m.id, m.connection);
          uplink := WithConnections(uplink, connections);
      }
      Emit(UplinkReady);
    }

    method ChangeAccount(m: WebSocketMessage)
      requires m.valid && (m.topic == Accounts || m.topic == AccountLicenses || m.topic == AccountResourceUsage)
      modifies this`accountInfo, this`signals
      ensures Replica() == Changed(old(Replica()), m)
      ensures signals == old(signals) + if blocked then [] else ChangeSignals(old(Replica()), m)
    {
      match m.topic {
        case Accounts =>
          accountInfo := accountInfo.(account := Some(m.document));
          Emit(AccountInfoReady);
        case AccountLicenses =>
          TakeLicense(m.license);
        case AccountResourceUsage =>
          accountInfo := accountInfo.(usage := Some(m.document));
          Emit(AccountInfoReady);
      }
    }

    method ChangeEntry(m: WebSocketMessage)
      requires m.valid
      requires m.topic == DownlinkConnections || m.topic == Stages || m.topic == Participants || m.topic == WsPortals
      modifies this`stages, this`participants, this`wsPortals, this`downlinks, this`signals
      ensures Replica() == Changed(old(Replica()), m)
      ensures signals == old(signals) + if blocked then [] else ChangeSignals(old(Replica()), m)
    {
      hide Upsert;
      match m.topic {
        case DownlinkConnections =>
          downlinks := downlinks[m.id := m.connection];
          Emit(DownlinkReady(m.id));
        case Stages =>
          stages := Replicate(stages, DocumentKey, m.id, m.document);
          Emit(StagesReady);
        case Participants =>
          participants := Replicate(participants, DocumentKey, m.id, m.document);
          Emit(ParticipantsReady);
        case WsPortals =>
          wsPortals := Replicate(wsPortals, DocumentKey, m.id, m.document);
          Emit(WsPortalsReady);
      }
    }

    method TakeLicense(license: License)
      modifies this`accountInfo, this`signals
      ensures accountInfo == old(accountInfo).(license := Some(license))
      ensures var told := old(accountInfo) != NO_ACCOUNT && LicenseValid(old(accountInfo)) != license.valid;
        signals == old(signals)
          + if blocked then [] else [AccountInfoReady] + if told then [LicenseChanged(license)] else []
    {
      var emitLicenseChanged := accountInfo != NO_ACCOUNT && LicenseValid(accountInfo) != license.valid;
      accountInfo := accountInfo.(license := Some(license));
      Emit(AccountInfoReady);
      if emitLicenseChanged {
        Emit(LicenseChanged(license));
      }
    }

    /** `logout`: the uplink is deleted, then the client unlinked. */
    ghost method Logout()
      modifies this`logouts
      ensures logouts == old(logouts) + 1
    {
      logouts := logouts + 1;
    }

    /** `removed` messages; that of the account logs out. */
    method OnWebSocketDataRemoved(m: WebSocketMessage)
      modifies this`uplink, this`stages, this`participants, this`wsPortals, this`downlinks
      modifies this`blocked, this`signals, this`logouts
      ensures Replica() == Dropped(old(Replica()), m)
      ensures !blocked
      ensures signals == old(signals) + if m.continuous then [] else DropSignals(old(Replica()), m)
      ensures logouts == old(logouts) + if m.topic == Accounts then 1 else 0
    {
      hide RemoveId, IndexOfId, Members, Held, ConnectionsOf, WithConnections, AllocationId, StageId;
      blocked := m.continuous;
      match m.topic {
        case UplinkAllocations | UplinkStages | UplinkConnections => DropFromUplink(m);
        case DownlinkConnections | Stages | Participants | WsPortals => DropEntry(m);
        case Accounts => Logout();
        case _ =>
      }
      blocked := false;
    }

    method DropFromUplink(m: WebSocketMessage)
      requires m.topic == UplinkAllocations || m.topic == UplinkStages || m.topic == UplinkConnections
      modifies this`uplink, this`signals
      ensures Replica() == Dropped(old(Replica()), m)
      ensures signals == old(signals) + if blocked then [] else DropSignals(old(Replica()), m)
    {
      hide RemoveId, IndexOfId;
      match m.topic {
        case UplinkAllocations =>
          if AllocationId(uplink) == m.id {
            uplink := Held(Members(uplink).(allocation := None));
            Emit(UplinkReady);
          }
        case UplinkStages =>
          if StageId(uplink) == m.id {
            uplink := Held(Members(uplink).(stage := None));
            Emit(UplinkReady);
          }
        case UplinkConnections =>
          var connections := ConnectionsOf(uplink);
          var found;
          found, connections := Erase(connections, ConnectionKey, m.id);
          if found {
            uplink := WithConnections(uplink, connections);
            Emit(UplinkReady);
          }
      }
    }

    method DropEntry(m: WebSocketMessage)
      requires m.topic == DownlinkConnections || m.topic == Stages || m.topic == Participants || m.topic == WsPortals
      modifies this`stages, this`participants, this`wsPortals, this`downlinks, this`signals
      ensures Replica() == Dropped(old(Replica()), m)
      ensures signals == old(signals) + if blocked then [] else DropSignals(old(Replica()), m)
    {
      hide RemoveId, IndexOfId;
      var found;
      match m.topic {
        case DownlinkConnections =>
          if m.id in downlinks {
            downlinks := downlinks - {m.id};
            Emit(DownlinkRemoved(m.id));
          }
        case Stages =>
          found, stages := Erase(stages, DocumentKey, m.id);
          if found {
            Emit(StagesReady);
          }
        case Participants =>
          found, participants := Erase(participants, DocumentKey, m.id);
          if found {
            Emit(ParticipantsReady);
          }
        case WsPortals =>
          found, wsPortals := Erase(wsPortals, DocumentKey, m.id);
          if found {
            Emit(WsPortalsReady);
          }
      }
    }

    /** The merge of the participants granted by an invite code. */
    method MergeParticipants(granted: seq<Document>)
      modifies this`participants
      ensures participants == ApplyAll(old(participants), DocumentKey, MergeLog(granted, DocumentKey))
    {
      ghost var log := MergeLog(granted, DocumentKey);
      for i := 0 to |granted|
        invariant participants == ApplyAll(old(participants), DocumentKey, log[..i])
      {
        participants := Replicate(participants, DocumentKey, granted[i].id, granted[i]);
        assert log[..i + 1][..i] == log[..i];
      }
      assert log[..|granted|] == log;
    }
  }

  /** Replace the entry with the given id, or append. */
  method Replicate<T>(list: seq<T>, key: T -> string, id: string, value: T) returns (list': seq<T>)
    ensures list' == Upsert(list, key, id, value)
  {
    var index := FindIndex(list, (x: T) => key(x) == id);
    assert index == IndexOfId(list, key, id);
    if index >= 0 {
      list' := list[index := value];
    } else {
      list' := list + [value];
    }
  }

  /** Remove the entry with the given id, if there is one. */
  method Erase<T>(list: seq<T>, key: T -> string, id: string) returns (found: bool, list': seq<T>)
    ensures list' == RemoveId(list, key, id)
    ensures found <==> IndexOfId(list, key, id) >= 0
    ensures !found ==> list' == list
  {
    var index := FindIndex(list, (x: T) => key(x) == id);
    assert index == IndexOfId(list, key, id);
    found := index >= 0;
    list' := if found then list[..index] + list[index + 1..] else list;
  }
}
