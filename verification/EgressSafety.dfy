/** What every run of one egress output keeps. */
module EgressSafety {
  import opened Schema
  import opened UplinkCounters
  import opened EgressPipeline

  predicate Encoding(h: Handles) { h.videoEncoder.Held? && h.audioEncoder.Held? }

  /** A streaming output that has been started and not stopped again. */
  predicate StreamRuns(s: StreamingStatus) { s == Active || s == Reconnecting || s == Changing }

  /** The invariant: which handles each status guarantees. */
  ghost predicate Safe(o: Output) {
    && (StreamRuns(o.status) || o.status == Activating ==>
        o.held.streamingOutput.Held? && o.held.service.Held? && Encoding(o.held))
    && (o.status == StandBy ==> o.held.streamingOutput.Null?)
    && (o.recordingStatus == RecordingActivating || o.recordingStatus == RecordingActive ==>
        o.held.recordingOutput.Held? && Encoding(o.held))
    && o.activeSettingsRev <= o.storedSettingsRev
    && SourceMatches(o)
    && (o.activeSourceUuid == "" ==> o.held == NO_HANDLES)
    && (o.activeSourceUuid != "" && o.activeSettingsRev == o.storedSettingsRev ==>
        o.activeSourceUuid == o.settings.sourceUuid && o.settings.visible)
  }

  /** A source is held exactly while a pipeline for something other than the whole program is. */
  ghost predicate SourceMatches(o: Output) {
    o.source == if o.activeSourceUuid == "" || o.activeSourceUuid == PROGRAM then None else Some(o.activeSourceUuid)
  }

  /** The showing references the present state accounts for. */
  function Owed(o: Output, u: string): int {
    if o.source != Some(u) then 0
    else 1 + Bit(StreamRuns(o.status)) + Bit(o.recordingStatus == RecordingActive)
  }

  /** The handlers that tear a pipeline down do so through a timer tick or a stop. */
  predicate TearsDown(e: Event) { e.TimerTick? || e.Stopped? }

  /** One reference to `u` is lost when a pipeline holding it is torn down in CHANGING. */
  function LostBy(w: World, e: Event, u: string): int {
    Bit(w.out.status == Changing && w.out.source == Some(u) && TearsDown(e))
  }

  function Lost(w: World, events: seq<Event>, u: string): int
    decreases |events|
  {
    if events == [] then 0
    else
      var before := events[..|events| - 1];
      Lost(w, before, u) + LostBy(Run(w, before), events[|events| - 1], u)
  }

  /** References not accounted for by the present state. */
  function Surplus(o: Output, u: string): int { Count(o.showing, u) - Owed(o, u) }

  // ---- one handler at a time ----

  lemma DestroyKeeps(o: Output, next: StreamingStatus, u: string)
    requires Safe(o)
    requires next == Inactive || next == Disabled
    ensures var o' := DestroyPipeline(o, next, RecordingInactive);
      && Safe(o')
      && Owed(o', u) == 0
      && Surplus(o', u) == Surplus(o, u) + Bit(o.status == Changing && o.source == Some(u))
  {
  }

  lemma VideoEncoderExtends(h: Handles, source: Option<string>, obs: Obs)
    ensures var (h', ok) := CreateVideoEncoder(h, source, obs);
      && h' == h.(videoEncoder := h'.videoEncoder, sourceView := h'.sourceView)
      && (ok || h.videoEncoder.Held? ==> h'.videoEncoder.Held?)
  {
  }

  lemma AudioEncoderExtends(h: Handles, uuid: string, obs: Obs)
    ensures var (h', ok) := CreateAudioEncoder(h, uuid, obs);
      && h' == h.(audioEncoder := h'.audioEncoder, audioSource := h'.audioSource, audioSilence := h'.audioSilence)
      && (ok || h.audioEncoder.Held? ==> h'.audioEncoder.Held?)
  {
  }

  /** Creating encoders only ever adds encoders, and touches neither output nor the service. */
  lemma EncodersExtend(o: Output, obs: Obs)
    ensures var (h, ok) := CreateEncoders(o, obs);
      && h.service == o.held.service
      && h.streamingOutput == o.held.streamingOutput
      && h.recordingOutput == o.held.recordingOutput
      && (Encoding(o.held) ==> Encoding(h))
      && (ok ==> Encoding(h))
  {
    VideoEncoderExtends(o.held, o.source, obs);
    AudioEncoderExtends(CreateVideoEncoder(o.held, o.source, obs).0, AudioUuid(o), obs);
  }

  /** A freshly captured pipeline, or one in stand-by that is being extended. */
  ghost predicate ReadyToProduce(o: Output, reconstruct: bool) {
    && Safe(o)
    && o.activeSourceUuid != ""
    && o.held.streamingOutput.Null?
    && (o.status == StandBy || (reconstruct && o.status == Inactive))
    && (o.status == StandBy ==> o.connection.None?)
    && (reconstruct ==> o.recordingStatus == RecordingInactive)
  }

  /** What extending a pipeline keeps: the source, and every reference to it. */
  ghost predicate Extends(o: Output, o': Output) {
    && Safe(o')
    && o'.showing == o.showing
    && o'.source == o.source
    && !StreamRuns(o'.status)
    && (o'.recordingStatus == RecordingActive <==> o.recordingStatus == RecordingActive)
  }

  lemma OutputsExtend(o: Output, obs: Obs, reconstruct: bool)
    requires ReadyToProduce(o, reconstruct) && Encoding(o.held)
    ensures Extends(o, CreateOutputs(o, obs, reconstruct))
  {
    var o1 := CreateStreamingOutput(o, obs);
    assert Safe(o1);
    var o2 := CreateRecordingOutput(o1, obs);
    assert Safe(o2);
  }

  lemma ProduceExtends(o: Output, obs: Obs, reconstruct: bool)
    requires ReadyToProduce(o, reconstruct)
    ensures Extends(o, Produce(o, obs, reconstruct))
  {
    EncodersExtend(o, obs);
    var (h, ok) := CreateEncoders(o, obs);
    if ok {
      OutputsExtend(o.(held := h), obs, reconstruct);
    }
  }

  lemma CaptureIsReady(o: Output, u: string)
    requires Safe(o) && o.held == NO_HANDLES && o.activeSourceUuid == ""
    requires o.status == Inactive && o.recordingStatus == RecordingInactive
    requires o.settings.sourceUuid != "" && o.settings.visible
    ensures ReadyToProduce(CaptureSource(o), true)
    ensures Surplus(CaptureSource(o), u) == Surplus(o, u)
  {
  }

  lemma RebuildKeeps(o: Output, obs: Obs, u: string)
    requires Safe(o) && o.settings.sourceUuid != "" && o.settings.visible
    ensures Safe(Rebuild(o, obs))
    ensures Surplus(Rebuild(o, obs), u) == Surplus(o, u) + Bit(o.status == Changing && o.source == Some(u))
  {
    hide Produce, ReadyToProduce;
    DestroyKeeps(o, Inactive, u);
    var o1 := DestroyPipeline(o, Inactive, RecordingInactive);
    if o.settings.sourceUuid == PROGRAM || obs.sourceUsable {
      CaptureIsReady(o1, u);
      var o2 := CaptureSource(o1);
      ProduceExtends(if o2.connection.None? then o2.(status := StandBy) else o2, obs, true);
    }
  }

  /** `start` is only ever reached by an output that is not streaming. */
  predicate MayStart(s: StreamingStatus) { s != Active && s != Activating && s != Reconnecting }

  lemma StartKeeps(o: Output, uplink: Option<UplinkInfo>, obs: Obs, u: string)
    requires Safe(o) && MayStart(o.status)
    ensures Safe(StartPipeline(o, uplink, obs))
    ensures Surplus(StartPipeline(o, uplink, obs), u)
         == Surplus(o, u) + Bit(o.status == Changing && o.source == Some(u))
  {
    if o.settings.sourceUuid == "" || !o.settings.visible {
      DestroyKeeps(o, Disabled, u);
    } else {
      var o1 := RetrieveConnection(o, uplink);
      if NeedsReconstruction(o1) {
        RebuildKeeps(o1, obs, u);
      } else {
        ProduceExtends(o1, obs, false);
      }
    }
  }

  lemma SettleKeeps(w: World, obs: Obs, alive: bool, u: string)
    requires Safe(w.out) && (w.out.status == Active || w.out.status == Reconnecting)
    ensures Safe(Settle(w, obs, alive).out)
    ensures Surplus(Settle(w, obs, alive).out, u) == Surplus(w.out, u)
  {
    var w1 := if alive && w.out.status == Reconnecting then SetStatus(w, Active) else w;
    DestroyKeeps(w1.out, Inactive, u);
  }

  lemma SuperviseKeeps(w: World, obs: Obs, u: string)
    requires Safe(w.out)
    requires w.out.status == Active || w.out.status == StandBy || w.out.status == Reconnecting
    ensures Safe(Supervise(w, obs).out)
    ensures Surplus(Supervise(w, obs).out, u) == Surplus(w.out, u)
  {
    hide StartPipeline, Settle, OutputsStopped, InterlockOff;
    if InterlockOff(obs) {
      DestroyKeeps(w.out, Inactive, u);
    } else if w.out.status == StandBy {
      StartKeeps(w.out, w.client.uplink, obs, u);
    } else {
      SettleKeeps(w, obs, w.out.held.streamingOutput.Held? && obs.streamActive, u);
    }
  }

  lemma ActivationKeeps(o: Output, obs: Obs, u: string)
    requires Safe(o) && o.status != Changing
    ensures o.status == Activating ==>
      && Safe(StreamStarted(o, obs))
      && StreamStarted(o, obs).recordingStatus == o.recordingStatus
      && StreamStarted(o, obs).status != Changing
      && Surplus(StreamStarted(o, obs), u) == Surplus(o, u)
    ensures o.recordingStatus == RecordingActivating ==>
      && Safe(RecordStarted(o, obs))
      && Surplus(RecordStarted(o, obs), u) == Surplus(o, u)
  {
  }

  /** Every event keeps the invariant, and loses exactly the references `LostBy` counts. */
  lemma StepKeeps(w: World, e: Event, u: string)
    requires Safe(w.out)
    ensures Safe(Step(w, e).out)
    ensures Surplus(Step(w, e).out, u) == Surplus(w.out, u) + LostBy(w, e, u)
  {
    hide Tick, OutputsStopped;
    match e
    case TimerTick(obs) => TickKeeps(w, obs, u);
    case Stopped => DestroyKeeps(w.out, Inactive, u);
    case _ =>
  }

  lemma TickKeeps(w: World, obs: Obs, u: string)
    requires Safe(w.out)
    ensures Safe(Tick(w, obs).out)
    ensures Surplus(Tick(w, obs).out, u)
         == Surplus(w.out, u) + Bit(w.out.status == Changing && w.out.source == Some(u))
  {
    if w.out.status != Changing && (w.out.status == Activating || w.out.recordingStatus == RecordingActivating) {
      ActivationKeeps(w.out, obs, u);
      if w.out.status == Activating {
        ActivationKeeps(StreamStarted(w.out, obs), obs, u);
      }
    } else if w.out.status == Active || w.out.status == StandBy || w.out.status == Reconnecting {
      SuperviseKeeps(w, obs, u);
    } else {
      StartKeeps(w.out, w.client.uplink, obs, u);
    }
  }

  // ---- whole runs ----

  /** In every reachable state of every run: the handles each status needs are there. */
  lemma {:induction false} RunIsSafe(w: World, events: seq<Event>)
    requires Safe(w.out)
    ensures Safe(Run(w, events).out)
    decreases |events|
  {
    if events != [] {
      var before := events[..|events| - 1];
      RunIsSafe(w, before);
      StepKeeps(Run(w, before), events[|events| - 1], "");
    }
  }

  /** Reference accounting: over any run of a new output, the net showing count of every source is what the present
      state accounts for plus one for each teardown entered in CHANGING with that source. */
  lemma {:induction false} ShowingAccounts(w: World, events: seq<Event>, u: string)
    requires Safe(w.out)
    ensures Surplus(Run(w, events).out, u) == Surplus(w.out, u) + Lost(w, events, u)
    decreases |events|
  {
    if events != [] {
      var before := events[..|events| - 1];
      RunIsSafe(w, before);
      ShowingAccounts(w, before, u);
      StepKeeps(Run(w, before), events[|events| - 1], u);
    }
  }

  lemma CreatedIsSafe(name: string, settings: OutputSettings, loaded: bool)
    ensures Safe(Created(name, settings, loaded))
    ensures forall u :: Count(Created(name, settings, loaded).showing, u) == 0
                        && Owed(Created(name, settings, loaded), u) == 0
  {
  }

  /** An output that holds no source any more, stopped, disabled or after a failed rebuild, has given back every
      reference to a source exactly when no pipeline holding that source was torn down in CHANGING. */
  lemma ReleasedIsBalancedIff(name: string, settings: OutputSettings, loaded: bool, client: Client,
                              events: seq<Event>, u: string)
    requires Run(World(Created(name, settings, loaded), client), events).out.source.None?
    ensures var w := World(Created(name, settings, loaded), client);
      Count(Run(w, events).out.showing, u) == 0 <==> Lost(w, events, u) == 0
  {
    hide Safe, Run, Lost;
    CreatedIsSafe(name, settings, loaded);
    ShowingAccounts(World(Created(name, settings, loaded), client), events, u);
  }

  /** So has, in particular, a stopped output. */
  lemma StoppedIsBalancedIff(name: string, settings: OutputSettings, loaded: bool, client: Client,
                             events: seq<Event>, u: string)
    requires events != [] && events[|events| - 1] == Stopped
    ensures var w := World(Created(name, settings, loaded), client);
      Count(Run(w, events).out.showing, u) == 0 <==> Lost(w, events, u) == 0
  {
    hide Safe, Lost;
    ReleasedIsBalancedIff(name, settings, loaded, client, events, u);
  }
}
