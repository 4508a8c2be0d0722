/** All outputs of one client: the shared counters, and the uplink status derived from them. */
module EgressSystem {
  import opened Schema
  import opened UplinkCounters
  import opened EgressPipeline
  import EgressSafety

  datatype System = System(outputs: map<nat, Output>, client: Client)

  datatype SystemEvent =
    | OutputCreated(id: nat, name: string, settings: OutputSettings, loaded: bool)
    | OutputEvent(id: nat, event: Event)
    | OutputDestroyed(id: nat)
    | UplinkReplaced(uplink: Option<UplinkInfo>)
    | SyncRequested(force: bool)

  function SystemStep(s: System, e: SystemEvent): System {
    match e
    case OutputCreated(id, name, settings, loaded) =>
      if id in s.outputs then s
      else s.(outputs := s.outputs[id := Created(name, settings, loaded)])
    case OutputEvent(id, event) =>
      if id !in s.outputs then s
      else
        var w := Step(World(s.outputs[id], s.client), event);
        System(s.outputs[id := w.out], w.client)
    case OutputDestroyed(id) =>
      if id !in s.outputs then s
      else System(s.outputs - {id}, Stop(World(s.outputs[id], s.client)).client)
    case UplinkReplaced(uplink) => s.(client := s.client.(uplink := uplink))
    case SyncRequested(force) => s.(client := SyncUplinkStatus(s.client, force))
  }

  function SystemRun(s: System, events: seq<SystemEvent>): System
    decreases |events|
  {
    if events == [] then s else SystemStep(SystemRun(s, events[..|events| - 1]), events[|events| - 1])
  }

  function Live(outputs: map<nat, Output>): (live: set<nat>)
    ensures forall id :: id in live <==>
      id in outputs
      && (outputs[id].status == Activating || outputs[id].status == Active || outputs[id].status == Reconnecting)
  {
    set id | id in outputs && CountsAsActive(outputs[id].status)
  }

  function Waiting(outputs: map<nat, Output>): set<nat> {
    set id | id in outputs && outputs[id].status == StandBy
  }

  /** The shared counters are the numbers of live and of waiting outputs. */
  ghost predicate Counted(s: System) {
    s.client.activeOutputs == |Live(s.outputs)| && s.client.standByOutputs == |Waiting(s.outputs)|
  }

  /** The uplink status as a fold over the outputs, without any counter. */
  ghost function StatusOf(outputs: map<nat, Output>): UplinkStatus {
    if exists id :: id in Live(outputs) then UplinkActive
    else if exists id :: id in outputs && outputs[id].status == StandBy then UplinkStandBy
    else UplinkInactive
  }

  /** Every output has the handles its status needs. */
  ghost predicate AllSafe(outputs: map<nat, Output>) {
    forall id :: id in outputs ==> EgressSafety.Safe(outputs[id])
  }

  lemma SystemStepIsSafe(s: System, e: SystemEvent)
    requires AllSafe(s.outputs)
    ensures AllSafe(SystemStep(s, e).outputs)
  {
    hide EgressSafety.Safe, Step, Stop, Created;
    match e
    case OutputCreated(id, name, settings, loaded) => EgressSafety.CreatedIsSafe(name, settings, loaded);
    case OutputEvent(id, event) =>
      if id in s.outputs {
        EgressSafety.StepKeeps(World(s.outputs[id], s.client), event, "");
      }
    case _ =>
  }

  /** No run of any number of outputs, whose events interleave as they like, makes one of them unsafe. */
  lemma {:induction false} SystemIsSafe(s: System, events: seq<SystemEvent>)
    requires AllSafe(s.outputs)
    ensures AllSafe(SystemRun(s, events).outputs)
    decreases |events|
  {
    if events != [] {
      SystemIsSafe(s, events[..|events| - 1]);
      SystemStepIsSafe(SystemRun(s, events[..|events| - 1]), events[|events| - 1]);
    }
  }

  // ---- counters ----

  /** `w'` differs from `w` in the counters exactly as its status demands. */
  predicate Recounted(w: World, w': World) {
    && w'.client.activeOutputs ==
         w.client.activeOutputs - Bit(CountsAsActive(w.out.status)) + Bit(CountsAsActive(w'.out.status))
    && w'.client.standByOutputs ==
         w.client.standByOutputs - Bit(w.out.status == StandBy) + Bit(w'.out.status == StandBy)
  }

  lemma ReportRecounts(w: World, o: Output, sync: bool)
    ensures Recounted(w, Report(w, o, sync))
  {
  }

  lemma SettleRecounts(w: World, obs: Obs, alive: bool)
    ensures Recounted(w, Settle(w, obs, alive))
  {
  }

  lemma SuperviseRecounts(w: World, obs: Obs)
    ensures Recounted(w, Supervise(w, obs))
  {
    hide DestroyPipeline, StartPipeline, Settle, InterlockOff, Report, Recounted;
    ReportRecounts(w, DestroyPipeline(w.out, Inactive, RecordingInactive), true);
    ReportRecounts(w, StartPipeline(w.out, w.client.uplink, obs), true);
    ReportRecounts(w, w.out.(status := Changing), false);
    var o := w.out.(connectionAttemptingAt := obs.now);
    ReportRecounts(w, if obs.streamStarts then o.(status := Reconnecting) else o, false);
    SettleRecounts(w, obs, w.out.held.streamingOutput.Held? && obs.streamActive);
  }

  lemma ActivationRecounts(w: World, obs: Obs)
    ensures Recounted(w, StartStreaming(w, obs))
    ensures Recounted(w, StartRecording(w, obs))
    ensures Recounted(w, StartRecording(StartStreaming(w, obs), obs))
  {
  }

  lemma TickRecounts(w: World, obs: Obs)
    ensures Recounted(w, Tick(w, obs))
  {
    if w.out.status != Changing && (w.out.status == Activating || w.out.recordingStatus == RecordingActivating) {
      ActivationRecounts(w, obs);
    } else if w.out.status == Active || w.out.status == StandBy || w.out.status == Reconnecting {
      SuperviseRecounts(w, obs);
    } else {
      ReportRecounts(w, StartPipeline(w.out, w.client.uplink, obs), true);
    }
  }

  lemma StepRecounts(w: World, e: Event)
    ensures Recounted(w, Step(w, e))
  {
    if e.TimerTick? {
      TickRecounts(w, e.obs);
    }
  }

  lemma CountWithout(a: set<nat>, id: nat)
    ensures |a| == |a - {id}| + Bit(id in a)
  {
  }

  lemma ReplaceOneLive(outputs: map<nat, Output>, id: nat, o: Output)
    requires id in outputs
    ensures |Live(outputs[id := o])| ==
      |Live(outputs)| - Bit(CountsAsActive(outputs[id].status)) + Bit(CountsAsActive(o.status))
  {
    var a, b := Live(outputs), Live(outputs[id := o]);
    assert b - {id} == a - {id};
    CountWithout(a, id);
    CountWithout(b, id);
  }

  lemma ReplaceOneWaiting(outputs: map<nat, Output>, id: nat, o: Output)
    requires id in outputs
    ensures |Waiting(outputs[id := o])| ==
      |Waiting(outputs)| - Bit(outputs[id].status == StandBy) + Bit(o.status == StandBy)
  {
    var a, b := Waiting(outputs), Waiting(outputs[id := o]);
    assert b - {id} == a - {id};
    CountWithout(a, id);
    CountWithout(b, id);
  }

  lemma SystemStepCounts(s: System, e: SystemEvent)
    requires Counted(s)
    ensures Counted(SystemStep(s, e))
  {
    match e
    case OutputCreated(id, name, settings, loaded) =>
      var s' := SystemStep(s, e);
      assert Live(s'.outputs) == Live(s.outputs) && Waiting(s'.outputs) == Waiting(s.outputs);
    case OutputEvent(id, event) =>
      if id in s.outputs {
        var w := World(s.outputs[id], s.client);
        StepRecounts(w, event);
        ReplaceOneLive(s.outputs, id, Step(w, event).out);
        ReplaceOneWaiting(s.outputs, id, Step(w, event).out);
      }
    case OutputDestroyed(id) =>
      if id in s.outputs {
        var w := World(s.outputs[id], s.client);
        ReportRecounts(w, DestroyPipeline(w.out, Inactive, RecordingInactive), true);
        var o := Stop(w).out;
        ReplaceOneLive(s.outputs, id, o);
        ReplaceOneWaiting(s.outputs, id, o);
        assert Live(s.outputs[id := o]) == Live(s.outputs - {id});
        assert Waiting(s.outputs[id := o]) == Waiting(s.outputs - {id});
      }
    case _ =>
  }

  /** Through any run of creations, events and destructions the counters count. */
  lemma {:induction false} CountersCount(s: System, events: seq<SystemEvent>)
    requires Counted(s)
    ensures Counted(SystemRun(s, events))
    decreases |events|
  {
    if events != [] {
      CountersCount(s, events[..|events| - 1]);
      SystemStepCounts(SystemRun(s, events[..|events| - 1]), events[|events| - 1]);
    }
  }

  lemma NonEmptyHasMember(a: set<nat>)
    ensures |a| > 0 <==> exists id :: id in a
  {
  }

  /** With counters that count, a sync under a known uplink yields the fold over all outputs, and puts it exactly when
      it is forced or the fold has changed. */
  lemma SyncYieldsFold(outputs: map<nat, Output>, c: Client, force: bool)
    requires Counted(System(outputs, c)) && c.uplink.Some?
    ensures SyncUplinkStatus(c, force).uplinkStatus == StatusOf(outputs)
    ensures SyncUplinkStatus(c, force).puts
         == c.puts + if force || StatusOf(outputs) != c.uplinkStatus then [StatusPut(StatusOf(outputs), force)] else []
  {
    NonEmptyHasMember(Live(outputs));
    NonEmptyHasMember(Waiting(outputs));
    if |Live(outputs)| > 0 {
      var id :| id in Live(outputs);
      assert CountsAsActive(outputs[id].status);
    } else if |Waiting(outputs)| > 0 {
      var id :| id in Waiting(outputs);
      assert outputs[id].status == StandBy;
    }
    assert forall id :: id in outputs && CountsAsActive(outputs[id].status) ==> id in Live(outputs);
    assert forall id :: id in outputs && outputs[id].status == StandBy ==> id in Waiting(outputs);
  }

  // ---- the PUT log ----

  /** At most one PUT, only of a status other than the one kept, and none without an uplink. */
  predicate Issues(c: Client, c': Client) {
    && c'.uplink == c.uplink && (c.uplink.None? ==> c'.uplinkStatus == c.uplinkStatus)
    && if c'.uplinkStatus == c.uplinkStatus then c'.puts == c.puts
    else c'.puts == c.puts + [StatusPut(c'.uplinkStatus, false)]
  }

  lemma ReportIssues(w: World, o: Output, sync: bool)
    ensures Issues(w.client, Report(w, o, sync).client)
  {
  }

  lemma SettleIssues(w: World, obs: Obs, alive: bool)
    ensures Issues(w.client, Settle(w, obs, alive).client)
  {
    hide DestroyPipeline;
    var w1 := if alive && w.out.status == Reconnecting then SetStatus(w, Active) else w;
    ReportIssues(w1, DestroyPipeline(w1.out, Inactive, RecordingInactive), true);
  }

  lemma SuperviseIssues(w: World, obs: Obs)
    ensures Issues(w.client, Supervise(w, obs).client)
  {
    hide DestroyPipeline, StartPipeline, Settle, InterlockOff, SyncUplinkStatus;
    ReportIssues(w, DestroyPipeline(w.out, Inactive, RecordingInactive), true);
    ReportIssues(w, StartPipeline(w.out, w.client.uplink, obs), true);
    SettleIssues(w, obs, w.out.held.streamingOutput.Held? && obs.streamActive);
  }

  lemma TickIssues(w: World, obs: Obs)
    ensures Issues(w.client, Tick(w, obs).client)
  {
    hide StartPipeline, StreamStarted, RecordStarted, Supervise, InterlockOn, Report, Issues;
    ReportIssues(w, StartPipeline(w.out, w.client.uplink, obs), true);
    ReportIssues(w, StreamStarted(w.out, obs), true);
    SuperviseIssues(w, obs);
    NothingIssued(w.client);
  }

  lemma NothingIssued(c: Client)
    ensures Issues(c, c)
  {
  }

  lemma IssuesKeepLog(initial: UplinkStatus, c: Client, c': Client)
    requires PutsOnlyOnChange(initial, c) && Issues(c, c')
    ensures PutsOnlyOnChange(initial, c')
  {
  }

  lemma StepPuts(initial: UplinkStatus, s: System, e: SystemEvent)
    requires PutsOnlyOnChange(initial, s.client)
    ensures PutsOnlyOnChange(initial, SystemStep(s, e).client)
  {
    match e
    case OutputEvent(id, event) =>
      if id in s.outputs {
        var w := World(s.outputs[id], s.client);
        match event
        case TimerTick(obs) =>
          TickIssues(w, obs);
          IssuesKeepLog(initial, s.client, Tick(w, obs).client);
        case Stopped => IssuesKeepLog(initial, s.client, Stop(w).client);
        case ClientSync(force) => SyncPutsOnlyOnChange(initial, s.client, force);
        case _ =>
      }
    case OutputDestroyed(id) =>
      if id in s.outputs {
        IssuesKeepLog(initial, s.client, Stop(World(s.outputs[id], s.client)).client);
      }
    case SyncRequested(force) => SyncPutsOnlyOnChange(initial, s.client, force);
    case _ =>
  }

  /** An unforced PUT is issued only when the status differs from the one put before. */
  lemma {:induction false} RunPutsOnlyOnChange(s: System, events: seq<SystemEvent>, initial: UplinkStatus)
    requires PutsOnlyOnChange(initial, s.client)
    ensures PutsOnlyOnChange(initial, SystemRun(s, events).client)
    decreases |events|
  {
    if events != [] {
      RunPutsOnlyOnChange(s, events[..|events| - 1], initial);
      StepPuts(initial, SystemRun(s, events[..|events| - 1]), events[|events| - 1]);
    }
  }

  /** No uplink becomes known. */
  predicate StaysUnknown(e: SystemEvent) {
    && (e.UplinkReplaced? ==> e.uplink.None?)
    && (e.OutputEvent? && e.event.ClientUplink? ==> e.event.newUplink.None?)
  }

  lemma StepWithoutUplink(s: System, e: SystemEvent)
    requires s.client.uplink.None? && StaysUnknown(e)
    ensures SystemStep(s, e).client.uplink.None? && SystemStep(s, e).client.puts == s.client.puts
  {
    hide Tick, DestroyPipeline;
    if e.OutputEvent? && e.id in s.outputs && e.event.TimerTick? {
      TickIssues(World(s.outputs[e.id], s.client), e.event.obs);
    }
  }

  /** While no uplink is known, nothing is put, forced or not. */
  lemma {:induction false} RunWithoutUplink(s: System, events: seq<SystemEvent>)
    requires s.client.uplink.None? && forall i :: 0 <= i < |events| ==> StaysUnknown(events[i])
    ensures SystemRun(s, events).client.uplink.None? && SystemRun(s, events).client.puts == s.client.puts
    decreases |events|
  {
    hide SystemStep;
    if events != [] {
      RunWithoutUplink(s, events[..|events| - 1]);
      StepWithoutUplink(SystemRun(s, events[..|events| - 1]), events[|events| - 1]);
    }
  }
}
