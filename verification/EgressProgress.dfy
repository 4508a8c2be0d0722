/** While the surroundings stay good, every reachable output becomes active with its current settings. */
module EgressProgress {
  import opened Schema
  import opened EgressPipeline
  import opened EgressSafety

  /** Every libobs call succeeds and every started output stays alive. */
  predicate Healthy(obs: Obs) {
    && obs.sourceUsable && obs.videoInfo && obs.mainVideo && obs.viewVideo && obs.videoEncoder && obs.mainAudio
    && obs.silence && obs.audioInfo && obs.customAudioOpened && obs.audioEncoder && obs.service
    && obs.streamingOutput && obs.recordingOutput && obs.streamStarts && obs.recordStarts
    && obs.streamActive && obs.recordActive && !obs.reconnecting && obs.sourceAvailable
  }

  /** The output is wanted and can be had: a visible source, an interlock that is on, a supported connection. */
  predicate Favourable(settings: OutputSettings, connection: Option<StageConnection>, obs: Obs) {
    && settings.sourceUuid != "" && settings.visible
    && InterlockOn(obs)
    && connection.Some? && SupportedProtocol(connection.value.protocol)
    && Healthy(obs)
  }

  predicate Current(o: Output) { o.activeSettingsRev == o.storedSettingsRev }

  /** Active with the current settings, and no recording left to start. */
  predicate Settled(o: Output) {
    o.status == Active && Current(o) && o.recordingStatus != RecordingActivating
  }

  function Rank(o: Output): nat {
    var stage :=
      match o.status
      case Active => if Current(o) then 0 else 3
      case Reconnecting => if Current(o) then 1 else 3
      case Activating => if Current(o) then 1 else 4
      case StandBy => 3
      case _ => 2;
    2 * stage + Bit(o.recordingStatus == RecordingActivating && o.status != Changing)
  }

  /** How long a tick still has to wait before the output may move, seen at time `t`. */
  function Wait(o: Output, t: int): nat {
    var limit :=
      if o.status == Changing then 0
      else if o.status == Activating || o.recordingStatus == RecordingActivating then OUTPUT_START_DELAY_MSECS + 1
      else if o.status == Active || o.status == StandBy || o.status == Reconnecting then OUTPUT_RETRY_TIMEOUT_MSECS + 1
      else 0;
    var left := limit - (t - o.connectionAttemptingAt);
    if left < 0 then 0 else if left > limit then limit else left
  }

  /** The least time between two monitoring ticks: a coarse timer may run 5% short of its 1000 ms interval. */
  const TICK_GAP_MSECS := 950

  /** The waiting time in ticks, rounded up. */
  function WaitTicks(o: Output, t: int): nat { (Wait(o, t) + TICK_GAP_MSECS - 1) / TICK_GAP_MSECS }

  const LONGEST_WAIT_TICKS := 4

  function Measure(o: Output, t: int): nat {
    if Settled(o) then 0 else Rank(o) * (LONGEST_WAIT_TICKS + 1) + WaitTicks(o, t) + 1
  }

  lemma MeasureIsZeroOnlyWhenSettled(o: Output, t: int)
    ensures Measure(o, t) == 0 <==> Settled(o)
  {
  }

  lemma EncodersSucceed(o: Output, obs: Obs)
    requires Healthy(obs)
    ensures CreateEncoders(o, obs).1
  {
  }

  lemma OutputsAreScheduled(o: Output, obs: Obs)
    requires Healthy(obs) && o.connection.Some? && o.held.streamingOutput.Null?
    ensures var o' := CreateOutputs(o, obs, true);
      && o' == o.(status := Activating, connectionAttemptingAt := obs.now, held := o'.held,
                  recordingStatus := o'.recordingStatus)
  {
  }

  /** A rebuild in good surroundings ends with both outputs scheduled. */
  lemma RebuildSchedules(o: Output, obs: Obs)
    requires Favourable(o.settings, o.connection, obs)
    ensures var o' := Rebuild(o, obs);
      && o'.status == Activating && Current(o') && o'.connectionAttemptingAt == obs.now
      && o'.settings == o.settings && o'.name == o.name
  {
    var o1 := CaptureSource(DestroyPipeline(o, Inactive, RecordingInactive));
    EncodersSucceed(o1, obs);
    EncodersExtend(o1, obs);
    OutputsAreScheduled(o1.(held := CreateEncoders(o1, obs).0), obs);
  }

  lemma StartSchedules(o: Output, uplink: Option<UplinkInfo>, obs: Obs)
    requires Favourable(o.settings, ConnectionFor(uplink, o.name), obs)
    requires o.status != Active
    ensures var o' := StartPipeline(o, uplink, obs);
      && o'.status == Activating && Current(o') && o'.connectionAttemptingAt == obs.now
      && o'.settings == o.settings && o'.name == o.name
  {
    RebuildSchedules(RetrieveConnection(o, uplink), obs);
  }

  /** The attempt time is in the past and the clock fits 64 bits. */
  predicate Timely(o: Output, t: int) { 0 <= o.connectionAttemptingAt <= t < UINT64 }

  lemma ElapsedIsDifference(now: int, since: int)
    requires 0 <= since <= now < UINT64
    ensures Elapsed(now, since) == now - since
  {
  }

  /** What one tick at `now` achieves for an output last seen at time `t`. */
  ghost predicate Nears(o: Output, t: int, o': Output, now: int) {
    && Timely(o', now)
    && o'.settings == o.settings && o'.name == o.name
    && (if Settled(o) then Settled(o') else Measure(o', now) < Measure(o, t))
  }

  lemma RankDrops(o: Output, t: int, o': Output, now: int)
    requires Timely(o', now) && o'.settings == o.settings && o'.name == o.name
    requires !Settled(o) && Rank(o') < Rank(o)
    ensures Nears(o, t, o', now)
  {
  }

  lemma WaitingNears(o: Output, t: int, now: int)
    requires Timely(o, t) && t + TICK_GAP_MSECS <= now < UINT64
    requires Settled(o) || Wait(o, now) > 0
    ensures Nears(o, t, o, now)
  {
  }

  lemma ActivationNears(o: Output, t: int, obs: Obs)
    requires Safe(o) && o.status != Changing && Healthy(obs) && Timely(o, t) && t + TICK_GAP_MSECS <= obs.now < UINT64
    ensures o.status == Activating && o.recordingStatus != RecordingActivating ==>
      Nears(o, t, StreamStarted(o, obs), obs.now)
    ensures o.status == Activating && o.recordingStatus == RecordingActivating ==>
      Nears(o, t, RecordStarted(StreamStarted(o, obs), obs), obs.now)
    ensures o.status != Activating && o.recordingStatus == RecordingActivating ==>
      Nears(o, t, RecordStarted(o, obs), obs.now)
  {
  }

  lemma RunningNears(w: World, t: int, obs: Obs)
    requires Safe(w.out) && Timely(w.out, t) && t + TICK_GAP_MSECS <= obs.now < UINT64
    requires InterlockOn(obs) && Healthy(obs)
    requires w.out.status == Active || w.out.status == Reconnecting
    requires w.out.recordingStatus != RecordingActivating
    ensures Nears(w.out, t, Supervise(w, obs).out, obs.now)
  {
    hide Start, Stop, StartPipeline, DestroyPipeline;
  }

  lemma SuperviseNears(w: World, t: int, obs: Obs)
    requires Safe(w.out) && Timely(w.out, t) && t + TICK_GAP_MSECS <= obs.now < UINT64
    requires Favourable(w.out.settings, ConnectionFor(w.client.uplink, w.out.name), obs)
    requires w.out.status == Active || w.out.status == StandBy || w.out.status == Reconnecting
    requires w.out.recordingStatus != RecordingActivating
    ensures Nears(w.out, t, Supervise(w, obs).out, obs.now)
  {
    if w.out.status == StandBy {
      hide Start, Stop, Nears;
      StartNears(w, t, obs);
    } else {
      hide Supervise, Nears;
      RunningNears(w, t, obs);
    }
  }

  lemma StartNears(w: World, t: int, obs: Obs)
    requires Timely(w.out, t) && t + TICK_GAP_MSECS <= obs.now < UINT64
    requires Favourable(w.out.settings, ConnectionFor(w.client.uplink, w.out.name), obs)
    requires Rank(w.out) >= 4 && w.out.status != Active
    ensures Nears(w.out, t, Start(w, obs).out, obs.now)
  {
    StartSchedules(w.out, w.client.uplink, obs);
    RankDrops(w.out, t, Start(w, obs).out, obs.now);
  }

  /** A tick of an output with something to activate. */
  lemma ActivatingTickNears(w: World, obs: Obs, t: int)
    requires Safe(w.out) && Timely(w.out, t) && t + TICK_GAP_MSECS <= obs.now < UINT64 && Healthy(obs)
    requires w.out.status != Changing && (w.out.status == Activating || w.out.recordingStatus == RecordingActivating)
    ensures Nears(w.out, t, Tick(w, obs).out, obs.now)
  {
    ElapsedIsDifference(obs.now, w.out.connectionAttemptingAt);
    ActivationNears(w.out, t, obs);
    if Wait(w.out, obs.now) > 0 {
      WaitingNears(w.out, t, obs.now);
    }
  }

  /** A tick of an output that runs or stands by. */
  lemma RunningTickNears(w: World, obs: Obs, t: int)
    requires Safe(w.out) && Timely(w.out, t) && t + TICK_GAP_MSECS <= obs.now < UINT64
    requires Favourable(w.out.settings, ConnectionFor(w.client.uplink, w.out.name), obs)
    requires w.out.status == Active || w.out.status == StandBy || w.out.status == Reconnecting
    requires w.out.recordingStatus != RecordingActivating
    ensures Nears(w.out, t, Tick(w, obs).out, obs.now)
  {
    ElapsedIsDifference(obs.now, w.out.connectionAttemptingAt);
    if Wait(w.out, obs.now) > 0 {
      WaitingNears(w.out, t, obs.now);
    } else {
      SuperviseNears(w, t, obs);
    }
  }

  /** One tick in good surroundings: a settled output stays settled, any other comes closer. */
  lemma TickProgress(w: World, obs: Obs, t: int)
    requires Safe(w.out) && Timely(w.out, t) && t + TICK_GAP_MSECS <= obs.now < UINT64
    requires Favourable(w.out.settings, ConnectionFor(w.client.uplink, w.out.name), obs)
    ensures Nears(w.out, t, Tick(w, obs).out, obs.now)
    ensures Tick(w, obs).client.uplink == w.client.uplink
  {
    TickKeepsUplink(w, obs);
    if w.out.status != Changing && (w.out.status == Activating || w.out.recordingStatus == RecordingActivating) {
      ActivatingTickNears(w, obs, t);
    } else if w.out.status == Active || w.out.status == StandBy || w.out.status == Reconnecting {
      RunningTickNears(w, obs, t);
    } else {
      StartNears(w, t, obs);
    }
  }

  lemma ReportKeepsUplink(w: World, o: Output, sync: bool)
    ensures Report(w, o, sync).client.uplink == w.client.uplink
  {
  }

  lemma SuperviseKeepsUplink(w: World, obs: Obs)
    ensures Supervise(w, obs).client.uplink == w.client.uplink
  {
    hide DestroyPipeline, StartPipeline, InterlockOff, Report;
    ReportKeepsUplink(w, DestroyPipeline(w.out, Inactive, RecordingInactive), true);
    ReportKeepsUplink(w, StartPipeline(w.out, w.client.uplink, obs), true);
    ReportKeepsUplink(w, w.out.(status := Changing), false);
    ReportKeepsUplink(w, w.out.(status := Active), false);
    var o := w.out.(connectionAttemptingAt := obs.now);
    ReportKeepsUplink(w, if obs.streamStarts then o.(status := Reconnecting) else o, false);
    var w1 := SetStatus(w, Active);
    ReportKeepsUplink(w1, DestroyPipeline(w1.out, Inactive, RecordingInactive), true);
  }

  lemma TickKeepsUplink(w: World, obs: Obs)
    ensures Tick(w, obs).client.uplink == w.client.uplink
  {
    hide StartPipeline, StreamStarted, RecordStarted, Supervise, InterlockOn, Report;
    ReportKeepsUplink(w, StartPipeline(w.out, w.client.uplink, obs), true);
    ReportKeepsUplink(w, StreamStarted(w.out, obs), true);
    SuperviseKeepsUplink(w, obs);
  }

  /** Not a tick, and no reason for a new revision: the connection announced is the one held, at no higher revision;
      the source selected is the one already selected; the client's own uplink and syncs are free. */
  predicate Neutral(o: Output, e: Event) {
    match e
    case UplinkReady(uplink) =>
      var incoming := ConnectionFor(Some(uplink), o.name);
      ConnectionId(o.connection) == ConnectionId(incoming)
      && ConnectionRevision(incoming) <= ConnectionRevision(o.connection)
    case SourceSelected(uuid) => uuid == o.settings.sourceUuid
    case ClientUplink(_) => true
    case ClientSync(_) => true
    case _ => false
  }

  /** After `t`: a tick in good surroundings, no sooner than `TICK_GAP_MSECS` later, or a neutral event. */
  predicate GoodEvent(w: World, e: Event, t: int) {
    if e.TimerTick? then
      t + TICK_GAP_MSECS <= e.obs.now < UINT64
      && Favourable(w.out.settings, ConnectionFor(w.client.uplink, w.out.name), e.obs)
    else Neutral(w.out, e)
  }

  function LastTime(events: seq<Event>, t: int): int
    decreases |events|
  {
    if events == [] then t
    else if events[|events| - 1].TimerTick? then events[|events| - 1].obs.now
    else LastTime(events[..|events| - 1], t)
  }

  function Ticks(events: seq<Event>): nat
    decreases |events|
  {
    if events == [] then 0 else Ticks(events[..|events| - 1]) + if events[|events| - 1].TimerTick? then 1 else 0
  }

  /** Good ticks, with neutral events between them. */
  predicate GoodRun(w: World, events: seq<Event>, t: int)
    decreases |events|
  {
    events == [] || (var before := events[..|events| - 1];
                     GoodRun(w, before, t) && GoodEvent(Run(w, before), events[|events| - 1], LastTime(before, t)))
  }

  lemma NeutralKeeps(w: World, e: Event)
    requires !e.TimerTick? && Neutral(w.out, e)
    ensures Step(w, e).out == w.out
  {
  }

  /** What a good event leaves of the measure. */
  lemma GoodEventNears(w: World, e: Event, t: int)
    requires Safe(w.out) && Timely(w.out, t) && GoodEvent(w, e, t)
    ensures var o, o' := w.out, Step(w, e).out;
      var t' := if e.TimerTick? then e.obs.now else t;
      && Timely(o', t') && o'.settings == o.settings && o'.name == o.name
      && Measure(o', t') <= (if e.TimerTick? && Measure(o, t) > 0 then Measure(o, t) - 1 else Measure(o, t))
  {
    hide Measure, Step;
    if e.TimerTick? {
      TickIsStep(w, e.obs);
      TickProgress(w, e.obs, t);
      MeasureIsZeroOnlyWhenSettled(w.out, t);
      MeasureIsZeroOnlyWhenSettled(Step(w, e).out, e.obs.now);
    } else {
      NeutralKeeps(w, e);
    }
  }

  lemma TickIsStep(w: World, obs: Obs)
    ensures Step(w, TimerTick(obs)) == Tick(w, obs)
  {
  }

  /** Progress: from any safe state, as many good ticks as the measure says suffice, whatever neutral events come
      between them, and settling is for good. */
  lemma {:induction false} Converges(w: World, events: seq<Event>, t: int)
    requires Safe(w.out) && Timely(w.out, t) && GoodRun(w, events, t)
    ensures Settled(w.out) || Measure(w.out, t) <= Ticks(events) ==> Settled(Run(w, events).out)
    ensures Measure(Run(w, events).out, LastTime(events, t)) <=
      if Measure(w.out, t) <= Ticks(events) then 0 else Measure(w.out, t) - Ticks(events)
    ensures Timely(Run(w, events).out, LastTime(events, t))
    ensures Run(w, events).out.settings == w.out.settings && Run(w, events).out.name == w.out.name
    decreases |events|
  {
    hide Measure, Settled, Step, GoodEvent, Timely;
    MeasureIsZeroOnlyWhenSettled(w.out, t);
    MeasureIsZeroOnlyWhenSettled(Run(w, events).out, LastTime(events, t));
    if events != [] {
      var before := events[..|events| - 1];
      Converges(w, before, t);
      RunIsSafe(w, before);
      GoodEventNears(Run(w, before), events[|events| - 1], LastTime(before, t));
    }
  }

  /** No output is more than `SETTLING_TICKS` good ticks away from being active with its current settings. */
  const SETTLING_TICKS := 50

  lemma MeasureIsBounded(o: Output, t: int)
    ensures Measure(o, t) <= SETTLING_TICKS
  {
  }

  lemma SafeOutputSettles(w: World, events: seq<Event>, t: int)
    requires Safe(w.out) && Timely(w.out, t) && GoodRun(w, events, t)
    requires Ticks(events) >= SETTLING_TICKS
    ensures var o := Run(w, events).out;
      && Settled(o)
      && o.activeSourceUuid == o.settings.sourceUuid
      && o.held.streamingOutput.Held? && Encoding(o.held)
  {
    MeasureIsBounded(w.out, t);
    Converges(w, events, t);
    RunIsSafe(w, events);
  }

  /** Any history whatever, then enough good ticks, with neutral events between them. */
  lemma EveryReachableOutputSettles(start: World, history: seq<Event>, events: seq<Event>, t: int)
    requires start.out == Created(start.out.name, start.out.settings, false)
          || start.out == Created(start.out.name, start.out.settings, true)
    requires Timely(Run(start, history).out, t) && GoodRun(Run(start, history), events, t)
    requires Ticks(events) >= SETTLING_TICKS
    ensures var o := Run(Run(start, history), events).out;
      && Settled(o)
      && o.activeSourceUuid == o.settings.sourceUuid
      && o.held.streamingOutput.Held? && Encoding(o.held)
  {
    RunIsSafe(start, history);
    SafeOutputSettles(Run(start, history), events, t);
  }
}
