/** What one monitoring tick makes of an output, phase by phase, and which picture and sound its encoders get. */
module EgressOutcomes {
  import opened Schema
  import opened UplinkCounters
  import opened EgressPipeline
  import opened EgressSafety
  import opened EgressProgress

  // ---- what a start needs ----

  predicate Wanted(s: OutputSettings) { s.sourceUuid != "" && s.visible }

  /** The whole program, or a source that is there and visible. */
  predicate Captured(s: OutputSettings, obs: Obs) { Wanted(s) && (s.sourceUuid == "program" || obs.sourceUsable) }

  /** The program's picture, or the captured source's own. */
  predicate PictureThere(s: OutputSettings, obs: Obs) {
    if s.sourceUuid == "program" then obs.mainVideo else obs.viewVideo
  }

  /** The audio source selected, or the captured source when none is. */
  function Chosen(s: OutputSettings): string { if s.audioSource == "" then s.sourceUuid else s.audioSource }

  /** A source's own audio, as opposed to silence and the master audio, to which a source not found falls back. */
  predicate OwnAudio(s: OutputSettings, obs: Obs) {
    Chosen(s) != "no_audio" && Chosen(s) != "program" && Chosen(s) != "master_track" && obs.customAudioFound
  }

  predicate SoundThere(s: OutputSettings, obs: Obs) {
    if Chosen(s) == "no_audio" then obs.silence
    else if OwnAudio(s, obs) then obs.audioInfo && obs.customAudioOpened
    else obs.mainAudio
  }

  predicate Encodable(s: OutputSettings, link: Option<StageConnection>, obs: Obs) {
    && obs.videoInfo
    && (link.Some? ==> link.value.protocol == "srt" || link.value.protocol == "rtmp")
    && PictureThere(s, obs) && obs.videoEncoder && SoundThere(s, obs) && obs.audioEncoder
  }

  /** The encoders of a pipeline get the picture and the sound of its settings. */
  predicate Wired(h: Handles, s: OutputSettings, obs: Obs) {
    && Encoding(h)
    && (h.sourceView.Held? <==> s.sourceUuid != "program")
    && (h.audioSilence.Held? <==> Chosen(s) == "no_audio")
    && (h.audioSource.Held? <==> OwnAudio(s, obs))
  }

  /** What a start that rebuilds the pipeline ends in, with both outputs scheduled, failed or left out. */
  predicate StartsAs(o: Output, link: Option<StageConnection>, obs: Obs, o': Output) {
    var s := o.settings;
    && (o'.status == Disabled <==> !Wanted(s))
    && (o'.status == Activating <==>
          Captured(s, obs) && link.Some? && Encodable(s, link, obs) && obs.service && obs.streamingOutput)
    && (o'.status == StandBy <==> Captured(s, obs) && link.None? && (s.recording ==> Encodable(s, link, obs)))
    && (o'.status == Disabled || o'.status == Activating || o'.status == StandBy || o'.status == Error)
    && (o'.recordingStatus == RecordingActivating <==>
          Captured(s, obs) && s.recording && Encodable(s, link, obs) && obs.recordingOutput)
    && (o'.recordingStatus == RecordingError <==>
          Captured(s, obs) && s.recording && Encodable(s, link, obs) && !obs.recordingOutput)
    && (o'.recordingStatus == RecordingActivating || o'.recordingStatus == RecordingError
        || o'.recordingStatus == RecordingInactive)
    && (o'.status == Activating || o'.recordingStatus == RecordingActivating ==> Wired(o'.held, s, obs))
    && o'.connectionAttemptingAt == (if o'.status == Activating then obs.now else o.connectionAttemptingAt)
    && o'.settings == s && o'.name == o.name && o'.storedSettingsRev == o.storedSettingsRev
    && (Captured(s, obs) ==> Current(o') && o'.activeSourceUuid == s.sourceUuid)
    && (Wanted(s) ==> o'.connection == link)
  }

  /** No encoder, and nothing that feeds one. */
  predicate Bare(h: Handles) {
    h.videoEncoder.Null? && h.audioEncoder.Null? && h.sourceView.Null? && h.audioSource.Null? && h.audioSilence.Null?
  }

  lemma BareVideo(h: Handles, source: Option<string>, s: OutputSettings, obs: Obs)
    requires Bare(h) && (source.Some? <==> s.sourceUuid != "program")
    ensures var (h', ok) := CreateVideoEncoder(h, source, obs);
      && (ok <==> PictureThere(s, obs) && obs.videoEncoder)
      && (ok ==> h'.videoEncoder.Held? && (h'.sourceView.Held? <==> s.sourceUuid != "program"))
      && h' == h.(videoEncoder := h'.videoEncoder, sourceView := h'.sourceView)
  {
  }

  lemma BareAudio(h: Handles, s: OutputSettings, obs: Obs)
    requires h.audioEncoder.Null? && h.audioSource.Null? && h.audioSilence.Null?
    ensures var (h', ok) := CreateAudioEncoder(h, Chosen(s), obs);
      && (ok <==> SoundThere(s, obs) && obs.audioEncoder)
      && (ok ==> h'.audioEncoder.Held? && (h'.audioSilence.Held? <==> Chosen(s) == "no_audio")
                 && (h'.audioSource.Held? <==> OwnAudio(s, obs)))
      && h' == h.(audioEncoder := h'.audioEncoder, audioSource := h'.audioSource, audioSilence := h'.audioSilence)
  {
  }

  lemma BareEncoders(o: Output, obs: Obs)
    requires Bare(o.held) && o.activeSourceUuid == o.settings.sourceUuid
    requires o.source.Some? <==> o.settings.sourceUuid != "program"
    ensures var (h, ok) := CreateEncoders(o, obs);
      && (ok <==> PictureThere(o.settings, obs) && obs.videoEncoder && SoundThere(o.settings, obs) && obs.audioEncoder)
      && (ok ==> Wired(h, o.settings, obs))
      && h.service == o.held.service && h.streamingOutput == o.held.streamingOutput
      && h.recordingOutput == o.held.recordingOutput
  {
    hide CreateVideoEncoder, CreateAudioEncoder, PictureThere, SoundThere, OwnAudio;
    var s := o.settings;
    assert AudioUuid(o) == Chosen(s);
    BareVideo(o.held, o.source, s, obs);
    BareAudio(CreateVideoEncoder(o.held, o.source, obs).0, s, obs);
  }

  lemma OutputsSchedule(o: Output, obs: Obs)
    requires o.held.streamingOutput.Null? && o.held.recordingOutput.Null? && o.recordingStatus == RecordingInactive
    requires o.status == if o.connection.Some? then Inactive else StandBy
    ensures var o' := CreateOutputs(o, obs, true);
      && o'.status == (if o.connection.None? then StandBy
                       else if obs.service && obs.streamingOutput then Activating else Error)
      && o'.recordingStatus == (if !o.settings.recording then RecordingInactive
                                else if obs.recordingOutput then RecordingActivating else RecordingError)
      && o' == o.(status := o'.status, recordingStatus := o'.recordingStatus,
                  connectionAttemptingAt := if o'.status == Activating then obs.now else o.connectionAttemptingAt,
                  held := o.held.(service := o'.held.service, streamingOutput := o'.held.streamingOutput,
                                  recordingOutput := o'.held.recordingOutput))
  {
  }

  /** From a captured source to the outputs. */
  lemma ProduceStarts(o: Output, link: Option<StageConnection>, obs: Obs, was: Output)
    requires o.held == NO_HANDLES && o.recordingStatus == RecordingInactive && o.connection == link
    requires o.status == if link.Some? then Inactive else StandBy
    requires o.source.Some? <==> o.settings.sourceUuid != "program"
    requires Captured(o.settings, obs) && Current(o) && o.activeSourceUuid == o.settings.sourceUuid
    requires o.settings == was.settings && o.name == was.name && o.storedSettingsRev == was.storedSettingsRev
    requires o.connectionAttemptingAt == was.connectionAttemptingAt
    ensures StartsAs(was, link, obs, Produce(o, obs, true))
  {
    hide CreateEncoders, CreateOutputs, PictureThere, SoundThere, OwnAudio, Wired;
    BareEncoders(o, obs);
    var (h, ok) := CreateEncoders(o, obs);
    var o1 := o.(held := h);
    OutputsSchedule(o1, obs);
    if ok {
      SameEncoders(h, CreateOutputs(o1, obs, true).held, o.settings, obs);
    }
  }

  lemma SameEncoders(h: Handles, h': Handles, s: OutputSettings, obs: Obs)
    requires Wired(h, s, obs)
    requires h' == h.(service := h'.service, streamingOutput := h'.streamingOutput, recordingOutput := h'.recordingOutput)
    ensures Wired(h', s, obs)
  {
  }

  lemma RebuildStartsAs(o: Output, obs: Obs)
    requires Wanted(o.settings)
    ensures StartsAs(o, o.connection, obs, Rebuild(o, obs))
  {
    hide Produce, PictureThere, SoundThere, OwnAudio, Wired;
    var o1 := DestroyPipeline(o, Inactive, RecordingInactive);
    TearingDownKeeps(o);
    if Captured(o.settings, obs) {
      var o2 := CaptureSource(o1);
      ProduceStarts(if o2.connection.None? then o2.(status := StandBy) else o2, o.connection, obs, o);
    }
  }

  lemma TearingDownKeeps(o: Output)
    ensures TornDown(o) == o.(held := NO_HANDLES, source := None, activeSourceUuid := "", showing := TornDown(o).showing)
  {
  }

  /** A start of an output that is neither active nor in stand-by. */
  lemma StartStartsAs(o: Output, uplink: Option<UplinkInfo>, obs: Obs)
    requires o.status != Active && o.status != StandBy
    ensures StartsAs(o, ConnectionFor(uplink, o.name), obs, StartPipeline(o, uplink, obs))
  {
    hide Rebuild, Produce, Encodable, Wired;
    TearingDownKeeps(o);
    if Wanted(o.settings) {
      var o1 := RetrieveConnection(o, uplink);
      RebuildStartsAs(o1, obs);
      hide StartsAs;
      SameStart(o1, o, o1.connection, obs, Rebuild(o1, obs));
    }
  }

  lemma SameStart(o1: Output, o: Output, link: Option<StageConnection>, obs: Obs, o': Output)
    requires StartsAs(o1, link, obs, o')
    requires o1.settings == o.settings && o1.name == o.name && o1.storedSettingsRev == o.storedSettingsRev
    requires o1.connectionAttemptingAt == o.connectionAttemptingAt
    ensures StartsAs(o, link, obs, o')
  {
  }

  // ---- what feeds the encoders, over whole runs ----

  /** The encoders encode the captured source's own view, or the program when no source is captured; and, with the
      current settings, silence exactly when "no_audio" is chosen.  In stand-by the encoders are there once something is
      to be recorded. */
  ghost predicate Fed(o: Output) {
    && (o.held.sourceView.Held? ==> o.source.Some?)
    && (o.held.videoEncoder.Held? ==> (o.held.sourceView.Held? <==> o.source.Some?))
    && (o.held.audioSource.Held? ==> o.held.audioSilence.Null?)
    && (Current(o) && o.held.audioEncoder.Held? ==>
          && (o.held.audioSilence.Held? <==> Chosen(o.settings) == "no_audio")
          && (o.held.audioSource.Held? ==> Chosen(o.settings) != "program" && Chosen(o.settings) != "master_track"))
    && (o.status == StandBy ==> o.activeSourceUuid != "" && (Bare(o.held) || Encoding(o.held)))
    && (o.status == StandBy && Current(o) && o.settings.recording ==> Encoding(o.held))
  }

  /** The same, of the encoders that `h` holds and the settings they were made with. */
  predicate Feeds(h: Handles, source: Option<string>, s: OutputSettings) {
    && (h.sourceView.Held? ==> source.Some?)
    && (h.videoEncoder.Held? ==> (h.sourceView.Held? <==> source.Some?))
    && (h.audioSource.Held? ==> h.audioSilence.Null?)
    && (h.audioEncoder.Held? ==>
          && (h.audioSilence.Held? <==> Chosen(s) == "no_audio")
          && (h.audioSource.Held? ==> Chosen(s) != "program" && Chosen(s) != "master_track"))
  }

  lemma VideoFeeds(h: Handles, source: Option<string>, s: OutputSettings, obs: Obs)
    requires Feeds(h, source, s) && Bare(h)
    ensures var (h', ok) := CreateVideoEncoder(h, source, obs);
      Feeds(h', source, s) && (ok ==> h'.videoEncoder.Held?)
      && h'.audioEncoder.Null? && h'.audioSource.Null? && h'.audioSilence.Null?
  {
  }

  lemma AudioFeeds(h: Handles, source: Option<string>, s: OutputSettings, obs: Obs)
    requires Feeds(h, source, s) && h.audioEncoder.Null? && h.audioSource.Null? && h.audioSilence.Null?
    ensures var (h', ok) := CreateAudioEncoder(h, Chosen(s), obs);
      Feeds(h', source, s) && (ok ==> h'.audioEncoder.Held?) && h'.videoEncoder == h.videoEncoder
  {
  }

  lemma EncodersFeed(o: Output, obs: Obs)
    requires Feeds(o.held, o.source, o.settings) && (Bare(o.held) || Encoding(o.held))
    requires o.activeSourceUuid == o.settings.sourceUuid
    ensures var (h, ok) := CreateEncoders(o, obs); Feeds(h, o.source, o.settings) && (ok ==> Encoding(h))
  {
    hide Feeds, CreateVideo, CreateAudio;
    assert AudioUuid(o) == Chosen(o.settings);
    if Bare(o.held) {
      VideoFeeds(o.held, o.source, o.settings, obs);
      AudioFeeds(CreateVideoEncoder(o.held, o.source, obs).0, o.source, o.settings, obs);
    }
  }

  /** Nothing that feeds an encoder changes. */
  ghost predicate SameFeed(o: Output, o': Output) {
    && o'.held == o.held.(service := o'.held.service, streamingOutput := o'.held.streamingOutput,
                          recordingOutput := o'.held.recordingOutput)
    && o'.source == o.source && o'.settings == o.settings && o'.activeSourceUuid == o.activeSourceUuid
    && (Current(o') ==> Current(o))
    && (o'.status == StandBy ==> o.status == StandBy)
  }

  lemma SameFeedIsFed(o: Output, o': Output)
    requires Fed(o) && SameFeed(o, o')
    ensures Fed(o')
  {
  }

  lemma StreamingOutputFeeds(o: Output, obs: Obs)
    ensures SameFeed(o, CreateStreamingOutput(o, obs))
  {
  }

  lemma RecordingOutputFeeds(o: Output, obs: Obs)
    ensures SameFeed(o, CreateRecordingOutput(o, obs))
  {
  }

  lemma ScheduleFeeds(o: Output, obs: Obs)
    ensures SameFeed(o, Schedule(o, obs))
  {
  }

  lemma OutputsFeed(o: Output, obs: Obs, reconstruct: bool)
    requires Fed(o)
    ensures Fed(CreateOutputs(o, obs, reconstruct))
  {
    hide Fed, SameFeed, CreateStreamingOutput, CreateRecordingOutput, Schedule;
    var o1 := CreateStreamingOutput(o, obs);
    var o2 := CreateRecordingOutput(o1, obs);
    StreamingOutputFeeds(o, obs);
    SameFeedIsFed(o, o1);
    RecordingOutputFeeds(o1, obs);
    SameFeedIsFed(o1, o2);
    ScheduleFeeds(o2, obs);
    if reconstruct {
      SameFeedIsFed(o2, Schedule(o2, obs));
    }
  }

  lemma ProduceFeeds(o: Output, obs: Obs, reconstruct: bool)
    requires Feeds(o.held, o.source, o.settings) && (Bare(o.held) || Encoding(o.held))
    requires o.activeSourceUuid == o.settings.sourceUuid != "" && (o.status == StandBy || o.connection.Some?)
    ensures Fed(Produce(o, obs, reconstruct))
  {
    hide CreateEncoders, CreateOutputs;
    EncodersFeed(o, obs);
    var (h, ok) := CreateEncoders(o, obs);
    if ok {
      OutputsFeed(o.(held := h), obs, reconstruct);
    }
  }

  lemma RebuildFeeds(o: Output, obs: Obs)
    requires Wanted(o.settings)
    ensures Fed(Rebuild(o, obs))
  {
    hide Produce;
    TearingDownKeeps(o);
    var o1 := CaptureSource(DestroyPipeline(o, Inactive, RecordingInactive));
    ProduceFeeds(if o1.connection.None? then o1.(status := StandBy) else o1, obs, true);
  }

  lemma StartFeeds(o: Output, uplink: Option<UplinkInfo>, obs: Obs)
    requires Safe(o) && Fed(o) && MayStart(o.status)
    ensures Fed(StartPipeline(o, uplink, obs))
  {
    hide Produce, Rebuild, OutputsStopped;
    TearingDownKeeps(o);
    if Wanted(o.settings) {
      var o1 := RetrieveConnection(o, uplink);
      if NeedsReconstruction(o1) {
        RebuildFeeds(o1, obs);
      } else {
        ProduceFeeds(o1, obs, false);
      }
    }
  }

  lemma StoppedIsFed(o: Output)
    ensures Fed(DestroyPipeline(o, Inactive, RecordingInactive))
  {
    TearingDownKeeps(o);
  }

  lemma SettleFeeds(w: World, obs: Obs, alive: bool)
    requires Fed(w.out)
    ensures Fed(Settle(w, obs, alive).out)
  {
    hide Fed, DestroyPipeline;
    var w1 := if alive && w.out.status == Reconnecting then SetStatus(w, Active) else w;
    StoppedIsFed(w1.out);
    SameFeedIsFed(w.out, w1.out);
  }

  lemma SuperviseFeeds(w: World, obs: Obs)
    requires Safe(w.out) && Fed(w.out)
    requires w.out.status == Active || w.out.status == StandBy || w.out.status == Reconnecting
    ensures Fed(Supervise(w, obs).out)
  {
    hide Fed, StartPipeline, DestroyPipeline, InterlockOff, Settle;
    StoppedIsFed(w.out);
    if w.out.status == StandBy {
      StartFeeds(w.out, w.client.uplink, obs);
    }
    SettleFeeds(w, obs, w.out.held.streamingOutput.Held? && obs.streamActive);
    SameFeedIsFed(w.out, SetStatus(w, Changing).out);
    SameFeedIsFed(w.out, RestartStreaming(w, obs).out);
  }

  lemma ActivationFeeds(o: Output, obs: Obs)
    requires Fed(o)
    ensures Fed(StreamStarted(o, obs)) && Fed(RecordStarted(o, obs))
  {
    hide Fed;
    SameFeedIsFed(o, StreamStarted(o, obs));
    SameFeedIsFed(o, RecordStarted(o, obs));
  }

  lemma TickFeeds(w: World, obs: Obs)
    requires Safe(w.out) && Fed(w.out)
    ensures Fed(Tick(w, obs).out)
  {
    hide Fed, Safe, StartPipeline, Supervise, StreamStarted, RecordStarted, InterlockOn, Elapsed;
    if w.out.status != Changing && (w.out.status == Activating || w.out.recordingStatus == RecordingActivating) {
      ActivationFeeds(w.out, obs);
      ActivationFeeds(StreamStarted(w.out, obs), obs);
    } else if w.out.status == Active || w.out.status == StandBy || w.out.status == Reconnecting {
      SuperviseFeeds(w, obs);
    } else {
      StartFeeds(w.out, w.client.uplink, obs);
    }
  }

  lemma StepFeeds(w: World, e: Event)
    requires Safe(w.out) && Fed(w.out)
    ensures Fed(Step(w, e).out)
  {
    hide Tick, DestroyPipeline;
    match e
    case TimerTick(obs) => TickFeeds(w, obs);
    case Stopped => StoppedIsFed(w.out);
    case _ =>
  }

  /** In every run a pipeline that encodes video encodes the captured source's view exactly when it captures one, and
      its sound is the one chosen. */
  lemma {:induction false} RunIsFed(w: World, events: seq<Event>)
    requires Safe(w.out) && Fed(w.out)
    ensures Fed(Run(w, events).out)
    decreases |events|
  {
    hide Fed, Safe, Step;
    if events != [] {
      RunIsFed(w, events[..|events| - 1]);
      RunIsSafe(w, events[..|events| - 1]);
      StepFeeds(Run(w, events[..|events| - 1]), events[|events| - 1]);
    }
  }

  /** A new output is fed; stored settings, once loaded, are a revision that has yet to be applied. */
  lemma CreatedIsFed(name: string, settings: OutputSettings, loaded: bool)
    ensures Fed(Created(name, settings, loaded))
    ensures Current(Created(name, settings, loaded)) <==> !loaded
  {
  }
}
