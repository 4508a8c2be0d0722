/** What becomes of an output that the interlock no longer wants, and when a recording goes on all the same. */
module EgressShutdown {
  import opened Schema
  import opened EgressPipeline
  import opened EgressSafety
  import opened EgressProgress
  import L = EgressLeak

  predicate Idle(s: StreamingStatus) { s == Inactive || s == Error || s == Disabled }

  /** No tick under an interlock that is off changes it any more. */
  predicate AtRest(o: Output) { Idle(o.status) && o.recordingStatus != RecordingActivating }

  /** A stream or a recording has been started and not stopped. */
  predicate Running(o: Output) { StreamRuns(o.status) || o.recordingStatus == RecordingActive }

  /** A recording that nothing will stop while the interlock is off. */
  predicate Stranded(o: Output) { AtRest(o) && o.recordingStatus == RecordingActive }

  function OffRank(o: Output): nat {
    match o.status
    case Changing => 4
    case Activating => 3
    case Active => if o.recordingStatus == RecordingActivating then 2 else 1
    case StandBy => if o.recordingStatus == RecordingActivating then 2 else 1
    case Reconnecting => if o.recordingStatus == RecordingActivating then 2 else 1
    case _ => if o.recordingStatus == RecordingActivating then 1 else 0
  }

  function OffMeasure(o: Output, t: int): nat {
    if AtRest(o) then 0 else OffRank(o) * (LONGEST_WAIT_TICKS + 1) + WaitTicks(o, t) + 1
  }

  /** What a tick under an interlock that is off achieves for an output last seen at time `t`. */
  ghost predicate WindsDown(o: Output, t: int, o': Output, now: int) {
    && Timely(o', now)
    && if AtRest(o) then o' == o else OffMeasure(o', now) < OffMeasure(o, t)
  }

  lemma OffIsNotOn(obs: Obs)
    requires InterlockOff(obs)
    ensures !InterlockOn(obs)
  {
  }

  lemma LowerOffRank(o: Output, t: int, o': Output, now: int)
    requires !AtRest(o) && OffRank(o') < OffRank(o) && Timely(o', now)
    ensures WindsDown(o, t, o', now)
  {
  }

  lemma OffWaiting(o: Output, t: int, now: int)
    requires Timely(o, t) && t + TICK_GAP_MSECS <= now < UINT64
    requires !AtRest(o) && Wait(o, now) > 0
    ensures WindsDown(o, t, o, now)
  {
  }

  /** Where a start that rebuilds the pipeline can end. */
  ghost predicate Started(o: Output, o': Output, now: int) {
    && !StreamRuns(o'.status) && o'.recordingStatus != RecordingActive
    && (o'.connectionAttemptingAt == o.connectionAttemptingAt || o'.connectionAttemptingAt == now)
  }

  lemma OutputsStart(o: Output, obs: Obs)
    requires o.recordingStatus == RecordingInactive && !StreamRuns(o.status)
    ensures Started(o, CreateOutputs(o, obs, true), obs.now)
  {
  }

  lemma RebuildStarts(o: Output, obs: Obs)
    ensures Started(o, Rebuild(o, obs), obs.now)
  {
    hide CreateOutputs, CreateEncoders;
    var o1 := CaptureSource(DestroyPipeline(o, Inactive, RecordingInactive));
    var o2 := if o1.connection.None? then o1.(status := StandBy) else o1;
    OutputsStart(o2.(held := CreateEncoders(o2, obs).0), obs);
  }

  /** `start` rebuilds the pipeline of every output but one in stand-by or active. */
  lemma StartStarts(o: Output, uplink: Option<UplinkInfo>, obs: Obs)
    requires o.status == Changing || Idle(o.status)
    ensures Started(o, StartPipeline(o, uplink, obs), obs.now)
  {
    hide Rebuild, Produce;
    RebuildStarts(RetrieveConnection(o, uplink), obs);
  }

  lemma ActivationWindsDown(o: Output, t: int, obs: Obs)
    requires Safe(o) && o.status != Changing && Timely(o, t) && t + TICK_GAP_MSECS <= obs.now < UINT64
    ensures o.status == Activating && o.recordingStatus != RecordingActivating ==>
      WindsDown(o, t, StreamStarted(o, obs), obs.now)
    ensures o.status == Activating && o.recordingStatus == RecordingActivating ==>
      WindsDown(o, t, RecordStarted(StreamStarted(o, obs), obs), obs.now)
    ensures o.status != Activating && o.recordingStatus == RecordingActivating ==>
      WindsDown(o, t, RecordStarted(o, obs), obs.now)
  {
  }

  lemma ActivatingWindsDown(w: World, obs: Obs, t: int)
    requires Safe(w.out) && Timely(w.out, t) && t + TICK_GAP_MSECS <= obs.now < UINT64
    requires w.out.status != Changing && (w.out.status == Activating || w.out.recordingStatus == RecordingActivating)
    ensures WindsDown(w.out, t, Tick(w, obs).out, obs.now)
  {
    hide StreamStarted, RecordStarted, Safe, WindsDown;
    ElapsedIsDifference(obs.now, w.out.connectionAttemptingAt);
    ActivationWindsDown(w.out, t, obs);
    if Wait(w.out, obs.now) > 0 {
      OffWaiting(w.out, t, obs.now);
    }
  }

  lemma StopWindsDown(w: World, t: int, now: int)
    requires Timely(w.out, t) && t <= now < UINT64
    ensures AtRest(Stop(w).out) && Timely(Stop(w).out, now)
  {
  }

  lemma RunningWindsDown(w: World, obs: Obs, t: int)
    requires Timely(w.out, t) && t + TICK_GAP_MSECS <= obs.now < UINT64 && InterlockOff(obs)
    requires w.out.status == Active || w.out.status == StandBy || w.out.status == Reconnecting
    requires w.out.recordingStatus != RecordingActivating
    ensures WindsDown(w.out, t, Tick(w, obs).out, obs.now)
  {
    hide Stop, InterlockOff, InterlockOn;
    ElapsedIsDifference(obs.now, w.out.connectionAttemptingAt);
    StopWindsDown(w, t, obs.now);
    if Wait(w.out, obs.now) > 0 {
      OffWaiting(w.out, t, obs.now);
    }
  }

  /** One tick under an interlock that is off. */
  lemma OffTick(w: World, obs: Obs, t: int)
    requires Safe(w.out) && Timely(w.out, t) && t + TICK_GAP_MSECS <= obs.now < UINT64 && InterlockOff(obs)
    ensures WindsDown(w.out, t, Tick(w, obs).out, obs.now)
  {
    hide StartPipeline, Supervise, StartStreaming, StartRecording, InterlockOn, InterlockOff, Safe, Elapsed;
    OffIsNotOn(obs);
    if w.out.status == Changing {
      StartStarts(w.out, w.client.uplink, obs);
      LowerOffRank(w.out, t, StartPipeline(w.out, w.client.uplink, obs), obs.now);
    } else if w.out.status == Activating || w.out.recordingStatus == RecordingActivating {
      ActivatingWindsDown(w, obs, t);
    } else if !Idle(w.out.status) {
      RunningWindsDown(w, obs, t);
    }
  }

  // ---- when a recording is stranded ----

  /** The stream fails to start, or there is none to start, and the recording starts or goes on. */
  predicate StrandsAtStart(o: Output, obs: Obs) {
    && o.status != Changing && (o.status == Activating || o.recordingStatus == RecordingActivating)
    && Elapsed(obs.now, o.connectionAttemptingAt) > OUTPUT_START_DELAY_MSECS
    && (if o.status == Activating then !obs.streamStarts else Idle(o.status))
    && (if o.recordingStatus == RecordingActivating then obs.recordStarts else o.recordingStatus == RecordingActive)
  }

  /** An output in stand-by that records is checked for a connection, and the video information is not to be had. */
  predicate StrandsInStandBy(w: World, obs: Obs) {
    var o := RetrieveConnection(w.out, w.client.uplink);
    && o.status == StandBy && o.recordingStatus == RecordingActive
    && Elapsed(obs.now, o.connectionAttemptingAt) > OUTPUT_RETRY_TIMEOUT_MSECS && !InterlockOff(obs)
    && o.settings.sourceUuid != "" && o.settings.visible && o.settings.recording
    && !NeedsReconstruction(o) && !obs.videoInfo
  }

  lemma StandByProduces(o: Output, obs: Obs)
    requires Safe(o) && o.status == StandBy && o.connection.None?
    requires o.recordingStatus != RecordingActivating
    ensures Stranded(Produce(o, obs, false)) <==>
      o.settings.recording && o.recordingStatus == RecordingActive && !obs.videoInfo
  {
    if o.recordingStatus != RecordingActive {
      hide CreateEncoders;
    }
  }

  lemma StandByStarts(w: World, obs: Obs)
    requires Safe(w.out) && w.out.status == StandBy && w.out.recordingStatus != RecordingActivating
    requires Elapsed(obs.now, w.out.connectionAttemptingAt) > OUTPUT_RETRY_TIMEOUT_MSECS && !InterlockOff(obs)
    ensures Stranded(StartPipeline(w.out, w.client.uplink, obs)) <==> StrandsInStandBy(w, obs)
  {
    hide Rebuild, Produce, InterlockOff, Elapsed;
    var o := RetrieveConnection(w.out, w.client.uplink);
    RebuildStarts(o, obs);
    if !NeedsReconstruction(o) {
      StandByProduces(o, obs);
    }
  }

  lemma ActivationStrands(w: World, obs: Obs)
    requires Safe(w.out) && w.out.status != Changing
    requires w.out.status == Activating || w.out.recordingStatus == RecordingActivating
    ensures Stranded(Tick(w, obs).out) <==> StrandsAtStart(w.out, obs)
  {
    hide Elapsed;
  }

  lemma SuperviseStrands(w: World, obs: Obs)
    requires Safe(w.out) && w.out.recordingStatus != RecordingActivating
    requires w.out.status == Active || w.out.status == StandBy || w.out.status == Reconnecting
    requires Elapsed(obs.now, w.out.connectionAttemptingAt) > OUTPUT_RETRY_TIMEOUT_MSECS
    ensures Stranded(Supervise(w, obs).out) <==> StrandsInStandBy(w, obs)
  {
    hide StartPipeline, InterlockOff, Elapsed, OutputsStopped;
    if w.out.status == StandBy && !InterlockOff(obs) {
      StandByStarts(w, obs);
    }
  }

  /** A tick strands a recording if and only if a stream that was to start with it, or none, leaves it running alone,
      or a recording in stand-by meets a failure to get the video information. */
  lemma TickStrandsIff(w: World, obs: Obs)
    requires Safe(w.out) && !Stranded(w.out)
    ensures Stranded(Tick(w, obs).out) <==> StrandsAtStart(w.out, obs) || StrandsInStandBy(w, obs)
  {
    hide StartPipeline, Supervise, InterlockOn, InterlockOff, Elapsed, Safe;
    if w.out.status != Changing && (w.out.status == Activating || w.out.recordingStatus == RecordingActivating) {
      ActivationStrands(w, obs);
    } else if w.out.status == Changing || Idle(w.out.status) {
      StartStarts(w.out, w.client.uplink, obs);
    } else if Elapsed(obs.now, w.out.connectionAttemptingAt) > OUTPUT_RETRY_TIMEOUT_MSECS {
      SuperviseStrands(w, obs);
    }
  }

  // ---- whole runs ----

  /** Every tick finds the interlock off, no sooner than `TICK_GAP_MSECS` after the one before; anything else may
      happen between the ticks, except that the output is stopped otherwise. */
  predicate OffRun(events: seq<Event>, t: int)
    decreases |events|
  {
    events == [] || (var before, e := events[..|events| - 1], events[|events| - 1];
                     && OffRun(before, t) && !e.Stopped?
                     && (e.TimerTick? ==>
                           LastTime(before, t) + TICK_GAP_MSECS <= e.obs.now < UINT64 && InterlockOff(e.obs)))
  }

  /** Some tick of the run strands a recording. */
  predicate Strands(w: World, events: seq<Event>)
    decreases |events|
  {
    events != [] && (var before, e := events[..|events| - 1], events[|events| - 1];
                     Strands(w, before) || (e.TimerTick? && StrandsAtStart(Run(w, before).out, e.obs)))
  }

  /** What no other event than a tick or a stop touches. */
  lemma OthersKeep(w: World, e: Event)
    requires !e.TimerTick? && !e.Stopped?
    ensures var o, o' := w.out, Step(w, e).out;
      && o'.status == o.status && o'.recordingStatus == o.recordingStatus
      && o'.connectionAttemptingAt == o.connectionAttemptingAt
  {
  }

  lemma OffEvent(w: World, e: Event, t: int)
    requires Safe(w.out) && Timely(w.out, t) && !e.Stopped?
    requires e.TimerTick? ==> t + TICK_GAP_MSECS <= e.obs.now < UINT64 && InterlockOff(e.obs)
    ensures var o, o' := w.out, Step(w, e).out;
      var t' := if e.TimerTick? then e.obs.now else t;
      && Timely(o', t')
      && OffMeasure(o', t') <= (if e.TimerTick? && OffMeasure(o, t) > 0 then OffMeasure(o, t) - 1 else OffMeasure(o, t))
      && (Stranded(o') <==> Stranded(o) || (e.TimerTick? && StrandsAtStart(o, e.obs)))
  {
    hide Tick, Safe, InterlockOff, WaitTicks, Elapsed;
    if e.TimerTick? {
      OffTick(w, e.obs, t);
      if !Stranded(w.out) {
        TickStrandsIff(w, e.obs);
      }
    } else {
      OthersKeep(w, e);
      SameWait(w.out, Step(w, e).out, t);
    }
  }

  lemma SameWait(o: Output, o': Output, t: int)
    requires o'.status == o.status && o'.recordingStatus == o.recordingStatus
    requires o'.connectionAttemptingAt == o.connectionAttemptingAt
    ensures WaitTicks(o', t) == WaitTicks(o, t)
  {
  }

  lemma {:induction false} OffRunWindsDown(w: World, events: seq<Event>, t: int)
    requires Safe(w.out) && Timely(w.out, t) && OffRun(events, t)
    ensures Timely(Run(w, events).out, LastTime(events, t))
    ensures OffMeasure(Run(w, events).out, LastTime(events, t)) <=
      if OffMeasure(w.out, t) <= Ticks(events) then 0 else OffMeasure(w.out, t) - Ticks(events)
    ensures Stranded(Run(w, events).out) <==> Stranded(w.out) || Strands(w, events)
    decreases |events|
  {
    hide Step, OffMeasure, Timely, Stranded, StrandsAtStart, InterlockOff;
    if events != [] {
      var before := events[..|events| - 1];
      OffRunWindsDown(w, before, t);
      RunIsSafe(w, before);
      OffEvent(Run(w, before), events[|events| - 1], LastTime(before, t));
    }
  }

  const WINDING_DOWN_TICKS := 25

  lemma OffMeasureIsBounded(o: Output, t: int)
    ensures OffMeasure(o, t) <= WINDING_DOWN_TICKS
    ensures OffMeasure(o, t) == 0 <==> AtRest(o)
  {
  }

  /** An unwanted output comes to rest, whatever else happens, and then nothing of it runs unless a recording was or
      has been stranded. */
  lemma UnwantedEndsIff(w: World, events: seq<Event>, t: int)
    requires Safe(w.out) && Timely(w.out, t) && OffRun(events, t)
    requires Ticks(events) >= WINDING_DOWN_TICKS
    ensures var o := Run(w, events).out;
      AtRest(o) && (Running(o) <==> Stranded(w.out) || Strands(w, events))
  {
    OffRunWindsDown(w, events, t);
    OffMeasureIsBounded(w.out, t);
    OffMeasureIsBounded(Run(w, events).out, LastTime(events, t));
  }

  // ---- a recording that never ends ----

  const RECORDED := OutputSettings("src", true, true, "")

  lemma RecordingScheduled(o: Output, obs: Obs)
    requires Favourable(o.settings, o.connection, obs) && o.settings.recording
    ensures Rebuild(o, obs).recordingStatus == RecordingActivating
  {
    var o1 := CaptureSource(DestroyPipeline(o, Inactive, RecordingInactive));
    EncodersSucceed(o1, obs);
    EncodersExtend(o1, obs);
  }

  lemma RecorderStarts(o: Output)
    requires o == Created("out", RECORDED, false)
    ensures var o' := StartPipeline(o, L.LINKED.uplink, L.Fine(10000));
      o'.status == Activating && o'.recordingStatus == RecordingActivating && o'.connectionAttemptingAt == 10000
  {
    hide Rebuild, Produce;
    L.LinkIsFound();
    RecordingScheduled(o.(connection := Some(L.LINK)), L.Fine(10000));
    StartSchedules(o, L.LINKED.uplink, L.Fine(10000));
  }

  /** The stream fails. */
  function StreamFails(now: int): Obs { L.Fine(now).(streamStarts := false) }

  /** A new output that streams and records: the recording starts, the stream does not, and from then on no number of
      ticks under an interlock that is off ends the recording. */
  lemma RecordingNeverEnds(w: World, events: seq<Event>)
    requires w == World(Created("out", RECORDED, false), L.LINKED)
    requires OffRun(events, 12000) && Ticks(events) >= WINDING_DOWN_TICKS
    ensures var w2 := Tick(Tick(w, L.Fine(10000)), StreamFails(12000));
      Stranded(w2.out) && Running(Run(w2, events).out)
  {
    hide Tick, StartPipeline, L.Fine, Safe, OffRun, Run, Ticks;
    RecorderIsSafe(w);
    var w1 := Tick(w, L.Fine(10000));
    TickKeeps(w1, StreamFails(12000), "");
    StreamFailure(w1);
    UnwantedEndsIff(Tick(w1, StreamFails(12000)), events, 12000);
  }

  lemma RecorderIsSafe(w: World)
    requires w == World(Created("out", RECORDED, false), L.LINKED)
    ensures var w1 := Tick(w, L.Fine(10000));
      && Safe(w1.out) && w1.out.status == Activating && w1.out.recordingStatus == RecordingActivating
      && w1.out.connectionAttemptingAt == 10000
  {
    hide Tick, StartPipeline, L.Fine, Safe;
    CreatedIsSafe("out", RECORDED, false);
    TickKeeps(w, L.Fine(10000), "");
    L.AlwaysOn(10000);
    L.IdleTick(w, L.Fine(10000));
    RecorderStarts(w.out);
  }

  lemma StreamFailure(w: World)
    requires Safe(w.out) && w.out.status == Activating && w.out.recordingStatus == RecordingActivating
    requires w.out.connectionAttemptingAt == 10000
    ensures var o := Tick(w, StreamFails(12000)).out; Stranded(o) && Timely(o, 12000)
  {
    hide Safe;
    TickStrandsIff(w, StreamFails(12000));
    assert Elapsed(12000, 10000) == 2000;
  }
}
