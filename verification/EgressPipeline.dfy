/** One egress output and the client it reports to, as values: what each handler of
    `EgressLinkOutput` does to them (src/outputs/egress-link-output.cpp).
    The answers of libobs, the clock and the settings dialog arrive in an `Obs` record. */
module EgressPipeline {
  import opened Schema
  import opened UplinkCounters

  const OUTPUT_RETRY_TIMEOUT_MSECS := 3500
  const OUTPUT_START_DELAY_MSECS := 1000
  const UINT64: int := 0x1_0000_0000_0000_0000
  const PROGRAM := "program"

  datatype StreamingStatus =
    | Inactive | StandBy | Activating | Active | Error | Disabled | Reconnecting | Changing

  datatype RecordingStatus =
    | RecordingInactive | RecordingActivating | RecordingActive | RecordingError | RecordingDisabled

  datatype OutputSettings = OutputSettings(
    sourceUuid: string,
    visible: bool,
    recording: bool,
    audioSource: string
  )

  /** A libobs handle; `Null` is the null pointer. */
  datatype Handle = Null | Held

  /** The libobs objects of one pipeline, apart from the captured source. */
  datatype Handles = Handles(
    service: Handle,
    streamingOutput: Handle,
    recordingOutput: Handle,
    videoEncoder: Handle,
    audioEncoder: Handle,
    sourceView: Handle,
    audioSource: Handle,
    audioSilence: Handle
  )

  const NO_HANDLES := Handles(Null, Null, Null, Null, Null, Null, Null, Null)

  datatype Output = Output(
    name: string,
    settings: OutputSettings,
    status: StreamingStatus,
    recordingStatus: RecordingStatus,
    source: Option<string>,
    activeSourceUuid: string,
    held: Handles,
    connection: Option<StageConnection>,
    storedSettingsRev: int,
    activeSettingsRev: int,
    connectionAttemptingAt: int,
    // inc_showing calls minus dec_showing calls made by this output, per source
    showing: map<string, int>
  )

  datatype World = World(out: Output, client: Client)

  /** What the surroundings answer during one handler. */
  datatype Obs = Obs(
    now: int,                  // milliseconds since the epoch
    interlockType: string,
    frontendStreaming: bool,
    frontendRecording: bool,
    frontendVirtualCam: bool,
    sourceUsable: bool,        // found by uuid, available and visible
    videoInfo: bool,
    mainVideo: bool,
    viewVideo: bool,           // the source has a size and its view was added
    videoEncoder: bool,
    mainAudio: bool,
    silence: bool,
    customAudioFound: bool,
    audioInfo: bool,
    customAudioOpened: bool,
    audioEncoder: bool,
    service: bool,
    streamingOutput: bool,
    recordingOutput: bool,
    streamStarts: bool,
    recordStarts: bool,
    streamActive: bool,
    recordActive: bool,
    reconnecting: bool,
    sourceAvailable: bool
  )

  predicate CountsAsActive(s: StreamingStatus) {
    s == Activating || s == Active || s == Reconnecting
  }

  function Bit(b: bool): int { if b then 1 else 0 }

  /** The shared counters after one output has moved from one status to another. */
  function Recount(c: Client, was: StreamingStatus, now: StreamingStatus): Client {
    c.(activeOutputs := c.activeOutputs - Bit(CountsAsActive(was)) + Bit(CountsAsActive(now)),
       standByOutputs := c.standByOutputs - Bit(was == StandBy) + Bit(now == StandBy))
  }

  /** The output becomes `o`; its status changes have been counted, and the uplink status is synced if asked. */
  function Report(w: World, o: Output, sync: bool): World {
    var c := Recount(w.client, w.out.status, o.status);
    World(o, if sync then SyncUplinkStatus(c, false) else c)
  }

  function Count(m: map<string, int>, u: string): int {
    if u in m then m[u] else 0
  }

  /** `obs_source_inc_showing` (+1) or `obs_source_dec_showing` (-1) on the held source, if there is one. */
  function Show(o: Output, delta: int): Output {
    if o.source.None? then o
    else o.(showing := o.showing[o.source.value := Count(o.showing, o.source.value) + delta])
  }

  /** Time since the last attempt in unsigned 64-bit arithmetic. */
  function Elapsed(now: int, since: int): int { (now - since) % UINT64 }

  /** The references the running outputs hold are given back; CHANGING is not among the tested statuses. */
  function OutputsStopped(o: Output): Output {
    var o1 := if o.held.recordingOutput.Held? && o.recordingStatus == RecordingActive then Show(o, -1) else o;
    if o.held.streamingOutput.Held? && (o.status == Active || o.status == Reconnecting) then Show(o1, -1) else o1
  }

  function TornDown(o: Output): Output {
    Show(OutputsStopped(o), -1).(held := NO_HANDLES, source := None, activeSourceUuid := "")
  }

  function DestroyPipeline(o: Output, next: StreamingStatus, nextRecording: RecordingStatus): Output {
    TornDown(o).(status := next, recordingStatus := nextRecording)
  }

  function RetrieveConnection(o: Output, uplink: Option<UplinkInfo>): Output {
    o.(connection := ConnectionFor(uplink, o.name))
  }

  predicate NeedsReconstruction(o: Output) {
    || o.settings.sourceUuid != o.activeSourceUuid
    || (o.connection.None? && o.status != StandBy)
    || (o.connection.Some? && o.status != Active)
    || o.activeSettingsRev != o.storedSettingsRev
  }

  /** Capture the selected source; the whole-program output has none. */
  function CaptureSource(o: Output): Output {
    var uuid := o.settings.sourceUuid;
    var o1 := if uuid != PROGRAM then Show(o.(source := Some(uuid)), 1) else o;
    o1.(activeSourceUuid := uuid, activeSettingsRev := o.storedSettingsRev)
  }

  /** `createEgressSettings` returns null for every other protocol. */
  predicate SupportedProtocol(protocol: string) { protocol == "srt" || protocol == "rtmp" }

  function CreateVideo(h: Handles, source: Option<string>, obs: Obs): (Handles, bool) {
    if source.Some? then (h.(sourceView := Held), obs.viewVideo) else (h, obs.mainVideo)
  }

  /** `uuid` is the selected audio source, or the captured source when none is selected. */
  function CreateAudio(h: Handles, uuid: string, obs: Obs): (Handles, bool) {
    if uuid == "no_audio" then (h.(audioSilence := if obs.silence then Held else Null), obs.silence)
    else if uuid != PROGRAM && uuid != "master_track" && obs.customAudioFound then
      if !obs.audioInfo then (h, false)
      else (h.(audioSource := if obs.customAudioOpened then Held else Null), obs.customAudioOpened)
    else (h, obs.mainAudio)
  }

  function CreateVideoEncoder(h: Handles, source: Option<string>, obs: Obs): (Handles, bool) {
    if h.videoEncoder.Held? then (h, true)
    else
      var (h1, ok) := CreateVideo(h, source, obs);
      if ok && obs.videoEncoder then (h1.(videoEncoder := Held), true) else (h1, false)
  }

  function CreateAudioEncoder(h: Handles, uuid: string, obs: Obs): (Handles, bool) {
    if h.audioEncoder.Held? then (h, true)
    else
      var (h1, ok) := CreateAudio(h, uuid, obs);
      if ok && obs.audioEncoder then (h1.(audioEncoder := Held), true) else (h1, false)
  }

  function AudioUuid(o: Output): string {
    if o.settings.audioSource == "" then o.activeSourceUuid else o.settings.audioSource
  }

  /** Both encoders, video first; a failure stops the sequence. */
  function CreateEncoders(o: Output, obs: Obs): (Handles, bool) {
    var (h1, ok) := CreateVideoEncoder(o.held, o.source, obs);
    if ok then CreateAudioEncoder(h1, AudioUuid(o), obs) else (h1, false)
  }

  function CreateStreamingOutput(o: Output, obs: Obs): Output {
    var h := o.held;
    if h.streamingOutput.Held? || o.connection.None? then o
    else if !obs.service then o.(held := h.(service := Null), status := Error)
    else if !obs.streamingOutput then o.(held := h.(service := Held), status := Error)
    else o.(held := h.(service := Held, streamingOutput := Held))
  }

  function CreateRecordingOutput(o: Output, obs: Obs): Output {
    if o.held.recordingOutput.Held? || !o.settings.recording then o
    else if obs.recordingOutput then o.(held := o.held.(recordingOutput := Held))
    else o.(recordingStatus := RecordingError)
  }

  /** Leave the actual start of both outputs to a later tick. */
  function Schedule(o: Output, obs: Obs): Output {
    var o1 := if o.held.recordingOutput.Held? then o.(recordingStatus := RecordingActivating) else o;
    if o1.held.streamingOutput.Held? then o1.(connectionAttemptingAt := obs.now, status := Activating) else o1
  }

  function CreateOutputs(o: Output, obs: Obs, reconstruct: bool): Output {
    var o1 := CreateRecordingOutput(CreateStreamingOutput(o, obs), obs);
    if reconstruct then Schedule(o1, obs) else o1
  }

  /** `start` from the encoder parameters on. */
  function Produce(o: Output, obs: Obs, reconstruct: bool): Output {
    if o.connection.None? && !o.settings.recording then o
    else if !obs.videoInfo then o.(status := Error)
    else if o.connection.Some? && !SupportedProtocol(o.connection.value.protocol) then o.(status := Error)
    else
      var (h, ok) := CreateEncoders(o, obs);
      if ok then CreateOutputs(o.(held := h), obs, reconstruct) else o.(held := h, status := Error)
  }

  /** `start` with a pipeline to be rebuilt. */
  function Rebuild(o: Output, obs: Obs): Output {
    var o1 := DestroyPipeline(o, Inactive, RecordingInactive);
    if o.settings.sourceUuid != PROGRAM && !obs.sourceUsable then o1.(status := Error)
    else
      var o2 := CaptureSource(o1);
      Produce(if o2.connection.None? then o2.(status := StandBy) else o2, obs, true)
  }

  function StartPipeline(o: Output, uplink: Option<UplinkInfo>, obs: Obs): Output {
    if o.settings.sourceUuid == "" || !o.settings.visible then DestroyPipeline(o, Disabled, RecordingInactive)
    else
      var o1 := RetrieveConnection(o, uplink);
      if NeedsReconstruction(o1) then Rebuild(o1, obs) else Produce(o1, obs, false)
  }

  function Start(w: World, obs: Obs): World { Report(w, StartPipeline(w.out, w.client.uplink, obs), true) }

  function Stop(w: World): World { Report(w, DestroyPipeline(w.out, Inactive, RecordingInactive), true) }

  function StreamStarted(o: Output, obs: Obs): Output {
    if o.held.streamingOutput.Null? then o
    else
      var o1 := o.(connectionAttemptingAt := obs.now);
      if obs.streamStarts then Show(o1, 1).(status := Active) else o1.(status := Error)
  }

  function StartStreaming(w: World, obs: Obs): World { Report(w, StreamStarted(w.out, obs), true) }

  function RecordStarted(o: Output, obs: Obs): Output {
    if o.held.recordingOutput.Null? then o
    else if obs.recordStarts then Show(o, 1).(recordingStatus := RecordingActive)
    else o.(recordingStatus := RecordingError)
  }

  function StartRecording(w: World, obs: Obs): World { w.(out := RecordStarted(w.out, obs)) }

  function RestartStreaming(w: World, obs: Obs): World {
    var o := w.out.(connectionAttemptingAt := obs.now);
    Report(w, if obs.streamStarts then o.(status := Reconnecting) else o, false)
  }

  function SetStatus(w: World, value: StreamingStatus): World {
    Report(w, w.out.(status := value), false)
  }

  /** The interlock asks an idle output to start. */
  predicate InterlockOn(obs: Obs) {
    || obs.interlockType == "always_on"
    || (obs.interlockType == "streaming" && obs.frontendStreaming)
    || (obs.interlockType == "recording" && obs.frontendRecording)
    || (obs.interlockType == "streaming_recording" && (obs.frontendStreaming || obs.frontendRecording))
    || (obs.interlockType == "virtual_cam" && obs.frontendVirtualCam)
  }

  /** The interlock asks a running output to stop.  An unknown interlock type asks for neither. */
  predicate InterlockOff(obs: Obs) {
    || obs.interlockType == ""
    || (obs.interlockType == "streaming" && !obs.frontendStreaming)
    || (obs.interlockType == "recording" && !obs.frontendRecording)
    || (obs.interlockType == "streaming_recording" && !obs.frontendStreaming && !obs.frontendRecording)
    || (obs.interlockType == "virtual_cam" && !obs.frontendVirtualCam)
  }

  /** The checks made on a running or stand-by output once the retry timeout has passed. */
  function Supervise(w: World, obs: Obs): World {
    var alive := w.out.held.streamingOutput.Held? && obs.streamActive;
    if InterlockOff(obs) then Stop(w)
    else if !alive && w.out.status == StandBy then Start(w, obs)
    else if w.out.activeSettingsRev < w.out.storedSettingsRev && !obs.reconnecting then SetStatus(w, Changing)
    else if !alive && (w.out.status == Active || w.out.status == Reconnecting) then RestartStreaming(w, obs)
    else Settle(w, obs, alive)
  }

  function Settle(w: World, obs: Obs, alive: bool): World {
    var w1 := if alive && w.out.status == Reconnecting then SetStatus(w, Active) else w;
    if w1.out.source.Some? && !obs.sourceAvailable then Stop(w1) else w1
  }

  /** `onMonitoringTimerTimeout`. */
  function Tick(w: World, obs: Obs): World {
    var o := w.out;
    var elapsed := Elapsed(obs.now, o.connectionAttemptingAt);
    if o.status == Changing then Start(w, obs)
    else if o.status == Activating || o.recordingStatus == RecordingActivating then
      if elapsed > OUTPUT_START_DELAY_MSECS then
        var w1 := if o.status == Activating then StartStreaming(w, obs) else w;
        if o.recordingStatus == RecordingActivating then StartRecording(w1, obs) else w1
      else w
    else if o.status != Active && o.status != StandBy && o.status != Reconnecting then
      if InterlockOn(obs) then Start(w, obs) else w
    else if elapsed > OUTPUT_RETRY_TIMEOUT_MSECS then Supervise(w, obs)
    else w
  }

  function OnUplinkReady(w: World, uplink: UplinkInfo): World {
    var incoming := ConnectionFor(Some(uplink), w.out.name);
    var current := w.out.connection;
    if ConnectionId(current) != ConnectionId(incoming) || ConnectionRevision(current) < ConnectionRevision(incoming)
    then w.(out := w.out.(connection := incoming, storedSettingsRev := w.out.storedSettingsRev + 1))
    else w
  }

  function Update(w: World, settings: OutputSettings): World {
    w.(out := w.out.(settings := settings, storedSettingsRev := w.out.storedSettingsRev + 1))
  }

  function SetSourceUuid(w: World, uuid: string): World {
    if uuid == w.out.settings.sourceUuid then w
    else Update(w, w.out.settings.(sourceUuid := uuid))
  }

  function SetVisible(w: World, visible: bool): World {
    Update(w, w.out.settings.(visible := visible))
  }

  /** A constructed output.  Loading stored settings counts as a new revision. */
  function Created(name: string, settings: OutputSettings, loaded: bool): Output {
    Output(name, settings, Inactive, RecordingInactive, None, "", NO_HANDLES, None, Bit(loaded), 0, 0, map[])
  }

  /** Everything that can happen to one output. */
  datatype Event =
    | TimerTick(obs: Obs)
    | UplinkReady(uplink: UplinkInfo)
    | SettingsUpdated(settings: OutputSettings)
    | SourceSelected(uuid: string)
    | VisibilitySet(visible: bool)
    | Stopped
    | ClientUplink(newUplink: Option<UplinkInfo>) // the client's copy changes, announced or not
    | ClientSync(force: bool)                     // another handler of the client syncs

  function Step(w: World, e: Event): World {
    match e
    case TimerTick(obs) => Tick(w, obs)
    case UplinkReady(uplink) => OnUplinkReady(w, uplink)
    case SettingsUpdated(settings) => Update(w, settings)
    case SourceSelected(uuid) => SetSourceUuid(w, uuid)
    case VisibilitySet(visible) => SetVisible(w, visible)
    case Stopped => Stop(w)
    case ClientUplink(uplink) => w.(client := w.client.(uplink := uplink))
    case ClientSync(force) => w.(client := SyncUplinkStatus(w.client, force))
  }

  function Run(w: World, events: seq<Event>): World
    decreases |events|
  {
    if events == [] then w else Step(Run(w, events[..|events| - 1]), events[|events| - 1])
  }
}
