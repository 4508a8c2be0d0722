/** One monitoring tick, phase by phase, and the reconnection of a dead stream over whole runs
    (src/outputs/egress-link-output.cpp:1389-1510). */
module EgressTicks {
  import opened Schema
  import opened UplinkCounters
  import opened EgressPipeline
  import opened EgressSafety
  import opened EgressProgress
  import opened EgressOutcomes

  /** Which frontend activity decides the interlock; an unknown type decides nothing. */
  lemma InterlockFollowsFrontend(obs: Obs)
    ensures obs.interlockType == "" ==> InterlockOff(obs) && !InterlockOn(obs)
    ensures obs.interlockType == "always_on" ==> InterlockOn(obs) && !InterlockOff(obs)
    ensures obs.interlockType == "streaming" ==>
      (InterlockOn(obs) <==> obs.frontendStreaming) && (InterlockOff(obs) <==> !obs.frontendStreaming)
    ensures obs.interlockType == "recording" ==>
      (InterlockOn(obs) <==> obs.frontendRecording) && (InterlockOff(obs) <==> !obs.frontendRecording)
    ensures obs.interlockType == "streaming_recording" ==>
      (InterlockOn(obs) <==> obs.frontendStreaming || obs.frontendRecording) && (InterlockOff(obs) <==> !InterlockOn(obs))
    ensures obs.interlockType == "virtual_cam" ==>
      (InterlockOn(obs) <==> obs.frontendVirtualCam) && (InterlockOff(obs) <==> !obs.frontendVirtualCam)
    ensures obs.interlockType !in {"", "always_on", "streaming", "recording", "streaming_recording", "virtual_cam"} ==>
      !InterlockOn(obs) && !InterlockOff(obs)
  {
  }

  /** Times of the epoch in signed 64-bit milliseconds. */
  predicate ClockFits(o: Output, now: int) { 0 <= o.connectionAttemptingAt < UINT64 / 2 && 0 <= now < UINT64 / 2 }

  /** More than `limit` ms since the last attempt, or a clock that was set back behind it. */
  predicate Due(o: Output, now: int, limit: nat) {
    now < o.connectionAttemptingAt || now - o.connectionAttemptingAt > limit
  }

  lemma ElapsedIff(o: Output, now: int, limit: nat)
    requires ClockFits(o, now) && limit < UINT64 / 2
    ensures Elapsed(now, o.connectionAttemptingAt) > limit <==> Due(o, now, limit)
  {
    var d := now - o.connectionAttemptingAt;
    if d < 0 {
      assert d % UINT64 == d + UINT64;
    }
  }

  /** The output stops: everything is released, nothing runs. */
  predicate StopsAs(o: Output, o': Output) {
    && o'.status == Inactive && o'.recordingStatus == RecordingInactive && o'.held == NO_HANDLES && o'.source.None?
    && o'.settings == o.settings && o'.storedSettingsRev == o.storedSettingsRev
    && o'.connectionAttemptingAt == o.connectionAttemptingAt
  }

  lemma StopOutcome(w: World)
    ensures StopsAs(w.out, Stop(w).out)
  {
    TearingDownKeeps(w.out);
  }

  // ---- an idle output, and one that is changing ----

  predicate Idle(s: StreamingStatus) { s == Inactive || s == Error || s == Disabled }

  /** An idle output starts when the interlock wants it, a changing one at once. */
  lemma IdleTickOutcome(w: World, obs: Obs)
    requires w.out.status == Changing || (Idle(w.out.status) && w.out.recordingStatus != RecordingActivating)
    ensures var o' := Tick(w, obs).out;
      if w.out.status == Changing || InterlockOn(obs)
      then StartsAs(w.out, ConnectionFor(w.client.uplink, w.out.name), obs, o') else Tick(w, obs) == w
  {
    hide StartsAs, StartPipeline, InterlockOn;
    StartStartsAs(w.out, w.client.uplink, obs);
  }

  // ---- outputs that are to be started ----

  lemma ActivatingTickOutcome(w: World, obs: Obs)
    requires Safe(w.out) && ClockFits(w.out, obs.now) && w.out.status != Changing
    requires w.out.status == Activating || w.out.recordingStatus == RecordingActivating
    ensures var o, o' := w.out, Tick(w, obs).out;
      if !Due(o, obs.now, 1000) then Tick(w, obs) == w
      else
        && o'.status == (if o.status != Activating then o.status else if obs.streamStarts then Active else Error)
        && o'.recordingStatus == (if o.recordingStatus != RecordingActivating then o.recordingStatus
                                  else if obs.recordStarts then RecordingActive else RecordingError)
        && o'.connectionAttemptingAt == (if o.status == Activating then obs.now else o.connectionAttemptingAt)
        && o' == o.(status := o'.status, recordingStatus := o'.recordingStatus, showing := o'.showing,
                    connectionAttemptingAt := o'.connectionAttemptingAt)
  {
    ElapsedIff(w.out, obs.now, 1000);
  }

  // ---- an output that runs ----

  /** An unwanted output stops; one with newer settings is to change, unless libobs is reconnecting it; one whose stream
      is dead is tried again; one whose source is gone stops; and any other is active. */
  lemma RunningTickOutcome(w: World, obs: Obs)
    requires Safe(w.out) && ClockFits(w.out, obs.now) && w.out.recordingStatus != RecordingActivating
    requires w.out.status == Active || w.out.status == Reconnecting
    ensures var o, o' := w.out, Tick(w, obs).out;
      if !Due(o, obs.now, 3500) then Tick(w, obs) == w
      else if InterlockOff(obs) then StopsAs(o, o')
      else if !Current(o) && !obs.reconnecting then o' == o.(status := Changing)
      else if !obs.streamActive then
        o' == o.(connectionAttemptingAt := obs.now, status := if obs.streamStarts then Reconnecting else o.status)
      else if o.source.Some? && !obs.sourceAvailable then StopsAs(o, o')
      else o' == o.(status := Active)
  {
    hide DestroyPipeline, StartPipeline, InterlockOff, StopsAs, Elapsed;
    ElapsedIff(w.out, obs.now, 3500);
    StopOutcome(w);
    SettleOutcome(w, obs, w.out.held.streamingOutput.Held? && obs.streamActive);
  }

  lemma SettleOutcome(w: World, obs: Obs, alive: bool)
    requires w.out.status == Active || w.out.status == Reconnecting
    ensures var o, o' := w.out, Settle(w, obs, alive).out;
      if o.source.Some? && !obs.sourceAvailable then StopsAs(o, o')
      else o' == if alive then o.(status := Active) else o
  {
    hide DestroyPipeline, StopsAs;
    var w1 := if alive && w.out.status == Reconnecting then SetStatus(w, Active) else w;
    StopOutcome(w1);
    SameStop(w.out, w1.out, Stop(w1).out);
  }

  lemma SameStop(o: Output, o1: Output, o': Output)
    requires StopsAs(o1, o') && o1 == o.(status := o1.status)
    ensures StopsAs(o, o')
  {
  }

  // ---- an output in stand-by ----

  /** Nothing to rebuild: a recording output that is still missing is tried again, but not started. */
  predicate StandsBy(o: Output, obs: Obs, o': Output) {
    if o.settings.recording && !obs.videoInfo then o' == o.(connection := None, status := Error)
    else
      var made := o.settings.recording && o.held.recordingOutput.Null?;
      o' == o.(connection := None,
               held := if made && obs.recordingOutput then o.held.(recordingOutput := Held) else o.held,
               recordingStatus := if made && !obs.recordingOutput then RecordingError else o.recordingStatus)
  }

  /** An output in stand-by is rebuilt when a connection has come or its settings have changed; else it goes on, unless
      it records and the video information is not to be had. */
  lemma StandByTickOutcome(w: World, obs: Obs)
    requires Safe(w.out) && Fed(w.out) && ClockFits(w.out, obs.now)
    requires w.out.status == StandBy && w.out.recordingStatus != RecordingActivating
    ensures var o, o' := w.out, Tick(w, obs).out;
      var link := ConnectionFor(w.client.uplink, o.name);
      if !Due(o, obs.now, 3500) then Tick(w, obs) == w
      else if InterlockOff(obs) then StopsAs(o, o')
      else if link.Some? || !Current(o) || !Wanted(o.settings) then StartsAs(o, link, obs, o')
      else StandsBy(o, obs, o')
  {
    hide DestroyPipeline, StartPipeline, InterlockOff, StopsAs, StartsAs, StandsBy, Elapsed, Fed;
    ElapsedIff(w.out, obs.now, 3500);
    StopOutcome(w);
    StandByStart(w.out, w.client.uplink, obs);
  }

  lemma StandByStart(o: Output, uplink: Option<UplinkInfo>, obs: Obs)
    requires Safe(o) && Fed(o) && o.status == StandBy && o.recordingStatus != RecordingActivating
    ensures var o' := StartPipeline(o, uplink, obs);
      var link := ConnectionFor(uplink, o.name);
      if link.Some? || !Current(o) || !Wanted(o.settings) then StartsAs(o, link, obs, o')
      else StandsBy(o, obs, o')
  {
    hide Rebuild;
    TearingDownKeeps(o);
    if Wanted(o.settings) {
      var o1 := RetrieveConnection(o, uplink);
      if NeedsReconstruction(o1) {
        RebuildStartsAs(o1, obs);
        SameStart(o1, o, o1.connection, obs, Rebuild(o1, obs));
      }
    }
  }

  // ---- a dead stream, over whole runs ----

  /** After any history: a tick under an interlock that is not off leaves no output running on a dead stream whose last
      attempt is more than 3.5 s back; and an attempt made by this tick has ended in RECONNECTING exactly when libobs
      started the stream, or the output was reconnecting before. */
  lemma DeadStreamIsRetried(start: World, history: seq<Event>, obs: Obs)
    requires start.out == Created(start.out.name, start.out.settings, false)
          || start.out == Created(start.out.name, start.out.settings, true)
    requires !InterlockOff(obs) && !obs.streamActive && ClockFits(Run(start, history).out, obs.now)
    ensures var o, o' := Run(start, history).out, Tick(Run(start, history), obs).out;
      o'.status == Active || o'.status == Reconnecting ==>
        && !Due(o', obs.now, 3500)
        && (Due(o, obs.now, 3500) && o.status != Activating ==>
              && o'.connectionAttemptingAt == obs.now
              && (o'.status == Reconnecting <==> obs.streamStarts || o.status == Reconnecting))
  {
    hide Safe, Run, Tick, InterlockOff;
    var w := Run(start, history);
    CreatedIsSafe(start.out.name, start.out.settings, false);
    CreatedIsSafe(start.out.name, start.out.settings, true);
    RunIsSafe(start, history);
    OnlyIdleRecordingsWait(start, history);
    DeadStreamTick(w, obs);
  }

  /** A recording waits to be started only beside a stream that does not run. */
  predicate RecordingWaitsAlone(o: Output) { o.recordingStatus == RecordingActivating ==> !StreamRuns(o.status) }

  lemma TickWaitsAlone(w: World, obs: Obs)
    requires Safe(w.out) && RecordingWaitsAlone(w.out)
    ensures RecordingWaitsAlone(Tick(w, obs).out)
  {
    hide StartPipeline, InterlockOn, InterlockOff, Elapsed, DestroyPipeline;
    var o := w.out;
    if MayStart(o.status) {
      StartKeepsWaiting(o, w.client.uplink, obs);
    }
    StopOutcome(w);
    if o.status == Active || o.status == Reconnecting {
      SettleOutcome(w, obs, o.held.streamingOutput.Held? && obs.streamActive);
    }
  }

  lemma StartKeepsWaiting(o: Output, uplink: Option<UplinkInfo>, obs: Obs)
    requires Safe(o) && MayStart(o.status)
    ensures !StreamRuns(StartPipeline(o, uplink, obs).status)
  {
    hide Rebuild, CreateEncoders;
    TearingDownKeeps(o);
    var o1 := RetrieveConnection(o, uplink);
    if Wanted(o.settings) {
      RebuildStartsAs(o1, obs);
    }
  }

  lemma {:induction false} OnlyIdleRecordingsWait(start: World, history: seq<Event>)
    requires Safe(start.out) && RecordingWaitsAlone(start.out)
    ensures RecordingWaitsAlone(Run(start, history).out)
    decreases |history|
  {
    hide Safe, Tick, DestroyPipeline;
    if history != [] {
      var w, e := Run(start, history[..|history| - 1]), history[|history| - 1];
      OnlyIdleRecordingsWait(start, history[..|history| - 1]);
      RunIsSafe(start, history[..|history| - 1]);
      if e.TimerTick? {
        TickWaitsAlone(w, e.obs);
      } else if e.Stopped? {
        StopOutcome(w);
      }
    }
  }

  lemma DeadStreamTick(w: World, obs: Obs)
    requires Safe(w.out) && RecordingWaitsAlone(w.out) && ClockFits(w.out, obs.now)
    requires !InterlockOff(obs) && !obs.streamActive
    ensures var o, o' := w.out, Tick(w, obs).out;
      o'.status == Active || o'.status == Reconnecting ==>
        && !Due(o', obs.now, 3500)
        && (Due(o, obs.now, 3500) && o.status != Activating ==>
              && o'.connectionAttemptingAt == obs.now
              && (o'.status == Reconnecting <==> obs.streamStarts || o.status == Reconnecting))
  {
    hide Safe, Tick, InterlockOff, InterlockOn, StartPipeline;
    var o := w.out;
    if o.status == Active || o.status == Reconnecting {
      RunningTickOutcome(w, obs);
    } else if o.status != Changing && (o.status == Activating || o.recordingStatus == RecordingActivating) {
      ActivatingTickOutcome(w, obs);
    } else {
      OtherTick(w, obs);
    }
  }

  lemma OtherTick(w: World, obs: Obs)
    requires Safe(w.out) && w.out.status != Active && w.out.status != Reconnecting && w.out.status != Activating
    requires w.out.status == Changing || w.out.recordingStatus != RecordingActivating
    ensures !(Tick(w, obs).out.status == Active || Tick(w, obs).out.status == Reconnecting)
  {
    hide Safe, StartPipeline, InterlockOn, InterlockOff, Elapsed, DestroyPipeline;
    StartKeepsWaiting(w.out, w.client.uplink, obs);
    StopOutcome(w);
  }

  // ---- new revisions reach the pipeline ----

  /** Another connection, or a newer revision of the same one; none counts as one without id, at revision 0. */
  predicate Supersedes(incoming: Option<StageConnection>, held: Option<StageConnection>) {
    match (incoming, held)
    case (None, None) => false
    case (None, Some(c)) => c.id != "" || c.revision < 0
    case (Some(c), None) => c.id != "" || c.revision > 0
    case (Some(c), Some(d)) => c.id != d.id || c.revision > d.revision
  }

  /** How many new revisions an event makes: one for changed settings, and one for an announced connection that is
      another one or a newer one than the one held. */
  function Raises(o: Output, e: Event): nat {
    match e
    case UplinkReady(uplink) =>
      if Supersedes(ConnectionFor(Some(uplink), o.name), o.connection) then 1 else 0
    case SettingsUpdated(_) => 1
    case SourceSelected(uuid) => if uuid != o.settings.sourceUuid then 1 else 0
    case VisibilitySet(_) => 1
    case _ => 0
  }

  lemma OutputsKeepStored(o: Output, obs: Obs, reconstruct: bool)
    ensures CreateOutputs(o, obs, reconstruct).storedSettingsRev == o.storedSettingsRev
  {
  }

  /** The settings that an event leaves. */
  function SettingsAfter(s: OutputSettings, e: Event): OutputSettings {
    match e
    case SettingsUpdated(settings) => settings
    case SourceSelected(uuid) => s.(sourceUuid := uuid)
    case VisibilitySet(visible) => s.(visible := visible)
    case _ => s
  }

  lemma StartKeepsStored(o: Output, uplink: Option<UplinkInfo>, obs: Obs)
    ensures StartPipeline(o, uplink, obs).storedSettingsRev == o.storedSettingsRev
  {
    hide CreateEncoders, CreateOutputs, NeedsReconstruction, Rebuild, StartsAs;
    TearingDownKeeps(o);
    if Wanted(o.settings) {
      var o1 := RetrieveConnection(o, uplink);
      RebuildStartsAs(o1, obs);
      StartsAsStored(o1, o1.connection, obs, Rebuild(o1, obs));
      OutputsKeepStored(o1.(held := CreateEncoders(o1, obs).0), obs, false);
    }
  }

  lemma StartsAsStored(o: Output, link: Option<StageConnection>, obs: Obs, o': Output)
    requires StartsAs(o, link, obs, o')
    ensures o'.storedSettingsRev == o.storedSettingsRev
  {
  }

  lemma TickKeepsStored(w: World, obs: Obs)
    ensures Tick(w, obs).out.storedSettingsRev == w.out.storedSettingsRev
  {
    hide StartPipeline, DestroyPipeline, InterlockOn, InterlockOff, Elapsed;
    StartKeepsStored(w.out, w.client.uplink, obs);
    StopOutcome(w);
    StopOutcome(SetStatus(w, Active));
  }

  lemma {:induction false} GoodRunKeepsStored(w: World, events: seq<Event>, t: int)
    requires GoodRun(w, events, t)
    ensures Run(w, events).out.storedSettingsRev == w.out.storedSettingsRev
    decreases |events|
  {
    hide Tick, Favourable;
    if events != [] {
      var w', e := Run(w, events[..|events| - 1]), events[|events| - 1];
      GoodRunKeepsStored(w, events[..|events| - 1], t);
      if e.TimerTick? {
        TickKeepsStored(w', e.obs);
      } else {
        NeutralKeeps(w', e);
      }
    }
  }

  lemma EventRaises(w: World, e: Event)
    requires !e.TimerTick? && !e.Stopped?
    ensures Step(w, e).out.storedSettingsRev == w.out.storedSettingsRev + Raises(w.out, e)
    ensures Step(w, e).out.settings == SettingsAfter(w.out.settings, e)
    ensures e.UplinkReady? ==> Raises(Step(w, e).out, e) == 0
  {
  }

  /** A settled output after any one event and enough good ticks: the pipeline has been rebuilt under a new revision
      exactly when the event made one, it captures the source that the event left selected, and the same announcement
      does not make another revision. */
  lemma RevisionsAreApplied(w: World, e: Event, events: seq<Event>, t: int)
    requires Safe(w.out) && Settled(w.out) && !e.TimerTick? && !e.Stopped?
    requires Timely(Step(w, e).out, t) && GoodRun(Step(w, e), events, t) && Ticks(events) >= SETTLING_TICKS
    ensures var o := Run(Step(w, e), events).out;
      && Settled(o) && o.activeSettingsRev == w.out.activeSettingsRev + Raises(w.out, e)
      && o.settings == SettingsAfter(w.out.settings, e) && o.activeSourceUuid == o.settings.sourceUuid
    ensures e.UplinkReady? ==> Raises(Step(w, e).out, e) == 0
  {
    hide Step, Raises, GoodRun, Safe;
    EventRaises(w, e);
    StepKeeps(w, e, "");
    GoodRunKeepsStored(Step(w, e), events, t);
    Converges(Step(w, e), events, t);
    SafeOutputSettles(Step(w, e), events, t);
  }
}
