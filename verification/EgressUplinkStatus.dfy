/** How far the uplink status that was last put agrees with the outputs, between one sync and the next. */
module EgressUplinkStatus {
  import opened Schema
  import opened UplinkCounters
  import opened EgressPipeline
  import opened EgressSafety
  import opened EgressSystem

  /** The step's last act on the client is a sync. */
  ghost predicate Synced(w: World, w': World) {
    w'.client.uplinkStatus == SyncUplinkStatus(w'.client, false).uplinkStatus
  }

  /** Changes neither what counts nor the status kept. */
  predicate Untold(w: World, w': World) {
    && w'.client.uplinkStatus == w.client.uplinkStatus
    && (CountsAsActive(w'.out.status) <==> CountsAsActive(w.out.status))
    && (w'.out.status == StandBy <==> w.out.status == StandBy)
    && (w.out.status == Changing ==> w'.out.status == Changing)
  }

  /** The guard of the one change of status that is counted without a sync: a running stream with newer settings
      than it runs with, neither unwanted nor reconnecting, once its retry timeout has passed. */
  predicate TurnsChanging(o: Output, e: Event) {
    && e.TimerTick?
    && (o.status == Active || o.status == Reconnecting) && o.recordingStatus != RecordingActivating
    && Elapsed(e.obs.now, o.connectionAttemptingAt) > OUTPUT_RETRY_TIMEOUT_MSECS
    && !InterlockOff(e.obs)
    && o.activeSettingsRev < o.storedSettingsRev && !e.obs.reconnecting
  }

  lemma ReportSyncs(w: World, o: Output)
    requires w.client.uplink.Some?
    ensures Report(w, o, true).client.uplink == w.client.uplink && Synced(w, Report(w, o, true))
  {
  }

  lemma SettleTells(w: World, obs: Obs, alive: bool)
    requires w.client.uplink.Some? && (w.out.status == Active || w.out.status == Reconnecting)
    ensures var w' := Settle(w, obs, alive); w'.client.uplink == w.client.uplink && (Synced(w, w') || Untold(w, w'))
  {
    hide DestroyPipeline, SyncUplinkStatus;
    var w1 := if alive && w.out.status == Reconnecting then SetStatus(w, Active) else w;
    ReportSyncs(w1, DestroyPipeline(w1.out, Inactive, RecordingInactive));
  }

  lemma SuperviseTells(w: World, obs: Obs)
    requires Safe(w.out) && w.client.uplink.Some?
    requires w.out.status == Active || w.out.status == StandBy || w.out.status == Reconnecting
    ensures var w' := Supervise(w, obs);
      && w'.client.uplink == w.client.uplink
      && if w.out.status != StandBy && !InterlockOff(obs)
            && w.out.activeSettingsRev < w.out.storedSettingsRev && !obs.reconnecting
         then w' == SetStatus(w, Changing) else Synced(w, w') || Untold(w, w')
  {
    hide DestroyPipeline, StartPipeline, Settle, SyncUplinkStatus, InterlockOff;
    ReportSyncs(w, DestroyPipeline(w.out, Inactive, RecordingInactive));
    ReportSyncs(w, StartPipeline(w.out, w.client.uplink, obs));
    if w.out.status != StandBy {
      SettleTells(w, obs, w.out.held.streamingOutput.Held? && obs.streamActive);
    }
  }

  lemma StartingTells(w: World, obs: Obs)
    requires w.client.uplink.Some?
    ensures var w' := StartStreaming(w, obs); w'.client.uplink == w.client.uplink && Synced(w, w')
    ensures var w' := StartRecording(w, obs); w'.client == w.client && w'.out.status == w.out.status
  {
    hide StreamStarted;
    ReportSyncs(w, StreamStarted(w.out, obs));
  }

  lemma TickTells(w: World, obs: Obs)
    requires Safe(w.out) && w.client.uplink.Some?
    ensures var w' := Tick(w, obs);
      && w'.client.uplink == w.client.uplink
      && if TurnsChanging(w.out, TimerTick(obs)) then w' == SetStatus(w, Changing) else Synced(w, w') || Untold(w, w')
  {
    hide StartPipeline, Supervise, StartStreaming, StartRecording, InterlockOn, InterlockOff, Elapsed, SyncUplinkStatus;
    if w.out.status != Changing && (w.out.status == Activating || w.out.recordingStatus == RecordingActivating) {
      StartingTells(w, obs);
      StartingTells(StartStreaming(w, obs), obs);
    } else if w.out.status == Active || w.out.status == StandBy || w.out.status == Reconnecting {
      SuperviseTells(w, obs);
    } else {
      ReportSyncs(w, StartPipeline(w.out, w.client.uplink, obs));
    }
  }

  /** The uplink stays known. */
  predicate KeepsUplink(e: SystemEvent) {
    && !(e.UplinkReplaced? && e.uplink.None?)
    && !(e.OutputEvent? && e.event.ClientUplink? && e.event.newUplink.None?)
  }

  /** An event of an output turns it to CHANGING, or syncs, or changes nothing that counts. */
  lemma EventTells(w: World, e: Event)
    requires Safe(w.out) && w.client.uplink.Some? && KeepsUplink(OutputEvent(0, e))
    ensures var w' := Step(w, e);
      && w'.client.uplink.Some?
      && if TurnsChanging(w.out, e) then w' == SetStatus(w, Changing) else Synced(w, w') || Untold(w, w')
  {
    hide Tick, DestroyPipeline;
    match e
    case TimerTick(obs) => TickTells(w, obs);
    case Stopped => ReportSyncs(w, DestroyPipeline(w.out, Inactive, RecordingInactive));
    case _ =>
  }

  // ---- one step ----

  lemma SameFold(outputs: map<nat, Output>, outputs': map<nat, Output>)
    requires Live(outputs) == Live(outputs') && Waiting(outputs) == Waiting(outputs')
    ensures StatusOf(outputs) == StatusOf(outputs')
  {
    assert forall id :: id in outputs && CountsAsActive(outputs[id].status) <==> id in Live(outputs);
    assert forall id :: id in outputs' && CountsAsActive(outputs'[id].status) <==> id in Live(outputs');
    assert forall id :: id in outputs && outputs[id].status == StandBy <==> id in Waiting(outputs);
    assert forall id :: id in outputs' && outputs'[id].status == StandBy <==> id in Waiting(outputs');
  }

  lemma LiveMeansActive(outputs: map<nat, Output>)
    ensures StatusOf(outputs) == UplinkActive <==> Live(outputs) != {}
  {
    if Live(outputs) != {} {
      var id :| id in Live(outputs);
      assert id in outputs && CountsAsActive(outputs[id].status);
    }
    assert forall id :: id in outputs && CountsAsActive(outputs[id].status) ==> id in Live(outputs);
  }

  ghost predicate NoOtherLive(outputs: map<nat, Output>, id: nat) {
    forall other :: other in outputs && other != id ==> !CountsAsActive(outputs[other].status)
  }

  lemma UntoldKeepsFold(outputs: map<nat, Output>, id: nat, c: Client, w': World)
    requires id in outputs && Untold(World(outputs[id], c), w')
    ensures Live(outputs[id := w'.out]) == Live(outputs) && StatusOf(outputs[id := w'.out]) == StatusOf(outputs)
  {
    var outputs' := outputs[id := w'.out];
    assert Live(outputs) == Live(outputs') && Waiting(outputs) == Waiting(outputs');
    SameFold(outputs, outputs');
  }

  lemma OthersStayLive(outputs: map<nat, Output>, id: nat, o: Output)
    requires id in outputs && !CountsAsActive(o.status)
    ensures Live(outputs[id := o]) == {} <==> NoOtherLive(outputs, id)
  {
    if !NoOtherLive(outputs, id) {
      var other :| other in outputs && other != id && CountsAsActive(outputs[other].status);
      assert other in Live(outputs[id := o]);
    }
  }

  /** Where the status agrees with the outputs, an event of one of them leaves it in agreement if and only if it does
      not turn the last live output to CHANGING. */
  lemma StatusStaysExactIff(s: System, id: nat, event: Event)
    requires id in s.outputs && Safe(s.outputs[id])
    requires Counted(s) && s.client.uplink.Some? && s.client.uplinkStatus == StatusOf(s.outputs)
    requires KeepsUplink(OutputEvent(id, event))
    ensures var s' := SystemStep(s, OutputEvent(id, event));
      s'.client.uplinkStatus == StatusOf(s'.outputs)
      <==> !(TurnsChanging(s.outputs[id], event) && NoOtherLive(s.outputs, id))
  {
    hide Step, StatusOf, Live, Waiting, Safe, NoOtherLive;
    var w := World(s.outputs[id], s.client);
    var w' := Step(w, event);
    var s' := SystemStep(s, OutputEvent(id, event));
    EventTells(w, event);
    SystemStepCounts(s, OutputEvent(id, event));
    if TurnsChanging(w.out, event) {
      assert CountsAsActive(w.out.status) && w'.client.uplinkStatus == s.client.uplinkStatus;
      LiveOutput(s.outputs, id);
      LiveMeansActive(s.outputs);
      LiveMeansActive(s'.outputs);
      OthersStayLive(s.outputs, id, w'.out);
    } else if Synced(w, w') {
      SyncYieldsFold(s'.outputs, s'.client, false);
    } else {
      UntoldKeepsFold(s.outputs, id, s.client, w');
    }
  }

  lemma LiveOutput(outputs: map<nat, Output>, id: nat)
    requires id in outputs && CountsAsActive(outputs[id].status)
    ensures Live(outputs) != {}
  {
    assert id in Live(outputs);
  }

  // ---- whole runs ----

  /** The status was put for a live output that has turned to CHANGING since, and no output is live now. */
  ghost predicate Stale(s: System) {
    && s.client.uplinkStatus == UplinkActive && Live(s.outputs) == {}
    && exists id :: id in s.outputs && s.outputs[id].status == Changing
  }

  ghost predicate Told(s: System) { s.client.uplinkStatus == StatusOf(s.outputs) || Stale(s) }

  lemma OutputEventTells(s: System, id: nat, event: Event)
    requires id in s.outputs && Safe(s.outputs[id])
    requires Counted(s) && s.client.uplink.Some? && Told(s) && KeepsUplink(OutputEvent(id, event))
    ensures Told(SystemStep(s, OutputEvent(id, event)))
    ensures SystemStep(s, OutputEvent(id, event)).client.uplink.Some?
  {
    hide Step, StatusOf, Live, Waiting, Safe;
    var w := World(s.outputs[id], s.client);
    var w' := Step(w, event);
    var s' := SystemStep(s, OutputEvent(id, event));
    EventTells(w, event);
    SystemStepCounts(s, OutputEvent(id, event));
    if TurnsChanging(w.out, event) {
      LiveOutput(s.outputs, id);
      StatusStaysExactIff(s, id, event);
      LiveMeansActive(s.outputs);
      OthersStayLive(s.outputs, id, w'.out);
      assert s'.outputs[id].status == Changing;
    } else if Synced(w, w') {
      SyncYieldsFold(s'.outputs, s'.client, false);
    } else {
      UntoldKeepsFold(s.outputs, id, s.client, w');
      if i :| i in s.outputs && s.outputs[i].status == Changing {
        assert s'.outputs[i].status == Changing;
      }
    }
  }

  lemma CreationTells(s: System, id: nat, o: Output)
    requires Told(s) && id !in s.outputs && o.status == Inactive
    ensures Told(s.(outputs := s.outputs[id := o]))
  {
    var outputs' := s.outputs[id := o];
    assert Live(outputs') == Live(s.outputs) && Waiting(outputs') == Waiting(s.outputs);
    SameFold(s.outputs, outputs');
    if i :| i in s.outputs && s.outputs[i].status == Changing {
      assert outputs'[i].status == Changing;
    }
  }

  lemma SystemStepTells(s: System, e: SystemEvent)
    requires AllSafe(s.outputs) && Counted(s) && s.client.uplink.Some? && Told(s) && KeepsUplink(e)
    ensures Told(SystemStep(s, e)) && SystemStep(s, e).client.uplink.Some?
  {
    hide Step, Safe, StatusOf, Live, Waiting, DestroyPipeline, SyncUplinkStatus;
    var s' := SystemStep(s, e);
    SystemStepCounts(s, e);
    match e
    case OutputCreated(id, name, settings, loaded) =>
      if id !in s.outputs {
        CreationTells(s, id, Created(name, settings, loaded));
      }
    case OutputEvent(id, event) =>
      if id in s.outputs {
        OutputEventTells(s, id, event);
      }
    case OutputDestroyed(id) =>
      if id in s.outputs {
        var w := World(s.outputs[id], s.client);
        ReportSyncs(w, DestroyPipeline(w.out, Inactive, RecordingInactive));
        SyncYieldsFold(s'.outputs, s'.client, false);
      }
    case SyncRequested(force) =>
      SyncYieldsFold(s.outputs, s.client, force);
      SyncKeepsUplink(s.client, force);
    case _ =>
  }

  lemma SyncKeepsUplink(c: Client, force: bool)
    ensures SyncUplinkStatus(c, force).uplink == c.uplink
  {
  }

  /** While the uplink is known, the status last put agrees with the outputs throughout any run, but for one
      interval: from the turn of the last live output to CHANGING to the next sync it still says active. */
  lemma {:induction false} UplinkStatusIsTold(s: System, events: seq<SystemEvent>)
    requires AllSafe(s.outputs) && Counted(s) && s.client.uplink.Some? && Told(s)
    requires forall i :: 0 <= i < |events| ==> KeepsUplink(events[i])
    ensures Told(SystemRun(s, events)) && SystemRun(s, events).client.uplink.Some?
    decreases |events|
  {
    hide Told, AllSafe, Counted;
    if events != [] {
      var before := events[..|events| - 1];
      UplinkStatusIsTold(s, before);
      CountersCount(s, before);
      SystemIsSafe(s, before);
      SystemStepTells(SystemRun(s, before), events[|events| - 1]);
    }
  }
}
