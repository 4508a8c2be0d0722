/** The output object itself: its handlers, proved to do what `EgressPipeline` says
    (src/outputs/egress-link-output.cpp).  Every precondition about a handle is a null dereference that the
    handlers, under the invariant `Safe`, never make. */
module EgressOutput {
  import opened Schema
  import opened UplinkCounters
  import opened ApiClient
  import P = EgressPipeline
  import opened EgressSafety

  type Status = P.StreamingStatus
  type RecordingStatus = P.RecordingStatus

  class EgressLinkOutput {
    const name: string
    const apiClient: SRCLinkApiClient
    var settings: P.OutputSettings
    var status: Status
    var recordingStatus: RecordingStatus
    var source: Option<string>
    var activeSourceUuid: string
    var held: P.Handles // the handles of the pipeline
    var connection: Option<StageConnection>
    var storedSettingsRev: int
    var activeSettingsRev: int
    var connectionAttemptingAt: int
    ghost var showing: map<string, int>

    constructor (name: string, apiClient: SRCLinkApiClient, settings: P.OutputSettings, loaded: bool)
      ensures this.name == name && this.apiClient == apiClient
      ensures Snapshot() == P.Created(name, settings, loaded)
    {
      this.name, this.apiClient, this.settings := name, apiClient, settings;
      status, recordingStatus := P.Inactive, P.RecordingInactive;
      source, activeSourceUuid, connection := None, "", None;
      held := P.NO_HANDLES;
      storedSettingsRev := if loaded then 1 else 0;
      activeSettingsRev := 0;
      connectionAttemptingAt := 0;
      showing := map[];
    }

    ghost function Snapshot(): P.Output
      reads this
    {
      P.Output(name, settings, status, recordingStatus, source, activeSourceUuid, held, connection,
               storedSettingsRev, activeSettingsRev, connectionAttemptingAt, showing)
    }

    ghost function World(): P.World
      reads this, apiClient
    {
      P.World(Snapshot(), apiClient.Counters())
    }

    method SetStatus(value: Status)
      modifies this`status, apiClient`activeOutputs, apiClient`standByOutputs
      ensures status == value
      ensures apiClient.Counters() == P.Recount(old(apiClient.Counters()), old(status), value)
    {
      if status != value {
        if status == P.Activating || status == P.Active {
          apiClient.DecrementActiveOutputs();
        } else if status == P.StandBy {
          apiClient.DecrementStandByOutputs();
        } else if status == P.Reconnecting {
          apiClient.DecrementActiveOutputs();
        }
        if value == P.Activating || value == P.Active {
          apiClient.IncrementActiveOutputs();
        } else if value == P.StandBy {
          apiClient.IncrementStandByOutputs();
        } else if value == P.Reconnecting {
          apiClient.IncrementActiveOutputs();
        }
        status := value;
      }
    }

    method SetRecordingStatus(value: RecordingStatus)
      modifies this`recordingStatus
      ensures recordingStatus == value
    {
      if recordingStatus != value {
        recordingStatus := value;
      }
    }

    /** `obs_source_inc_showing` and `obs_source_dec_showing` on the held source. */
    ghost method Show(delta: int)
      modifies this`showing
      ensures Snapshot() == P.Show(old(Snapshot()), delta)
    {
      if source.Some? {
        showing := showing[source.value := P.Count(showing, source.value) + delta];
      }
    }

    /** Give back the references of the outputs that run. */
    method StopOutputs()
      modifies this`showing
      ensures Snapshot() == P.OutputsStopped(old(Snapshot()))
    {
      if held.recordingOutput.Held? {
        if recordingStatus == P.RecordingActive {
          if source.Some? {
            Show(-1);
          }
        }
      }
      if held.streamingOutput.Held? {
        if status == P.Active || status == P.Reconnecting {
          if source.Some? {
            Show(-1);
          }
        }
      }
    }

    method TearDown()
      modifies this`showing, this`held, this`source, this`activeSourceUuid
      ensures Snapshot() == P.TornDown(old(Snapshot()))
    {
      StopOutputs();
      if source.Some? {
        Show(-1);
      }
      ReleasePipeline();
    }

    method DestroyPipeline(next: Status, nextRecording: RecordingStatus)
      modifies this, apiClient`activeOutputs, apiClient`standByOutputs
      ensures Snapshot() == P.DestroyPipeline(old(Snapshot()), next, nextRecording)
      ensures apiClient.Counters() == P.Recount(old(apiClient.Counters()), old(status), next)
    {
      TearDown();
      SetStatus(next);
      SetRecordingStatus(nextRecording);
    }

    method ReleasePipeline()
      modifies this`held, this`source, this`activeSourceUuid
      ensures Snapshot() == old(Snapshot()).(held := P.NO_HANDLES, source := None, activeSourceUuid := "")
    {
      held := P.NO_HANDLES;
      source := None;
      activeSourceUuid := "";
    }

    method RetrieveConnection()
      modifies this`connection
      ensures Snapshot() == P.RetrieveConnection(old(Snapshot()), apiClient.uplink)
    {
      connection := None;
      if apiClient.uplink.Some? {
        connection := Find(Connections(apiClient.uplink.value), (c: StageConnection) => c.sourceName == name);
      }
    }

    method CreateSource(sourceUuid: string, obs: P.Obs) returns (ok: bool)
      modifies this`source, this`showing
      ensures ok == obs.sourceUsable
      ensures !ok ==> source == None && showing == old(showing)
      ensures ok ==> Snapshot() == P.Show(old(Snapshot()).(source := Some(sourceUuid)), 1)
    {
      source := Some(sourceUuid);
      if !obs.sourceUsable {
        source := None;
        return false;
      }
      Show(1);
      return true;
    }

    method CreateVideo(obs: P.Obs) returns (ok: bool)
      modifies this`held
      ensures (held, ok) == P.CreateVideo(old(held), source, obs)
    {
      if source.Some? {
        held := held.(sourceView := P.Held);
        return obs.viewVideo;
      }
      return obs.mainVideo;
    }

    method CreateAudio(audioSourceUuid: string, obs: P.Obs) returns (ok: bool)
      modifies this`held
      ensures (held, ok) == P.CreateAudio(old(held), audioSourceUuid, obs)
    {
      if audioSourceUuid == "no_audio" {
        held := held.(audioSilence := if obs.silence then P.Held else P.Null);
        return obs.silence;
      } else if audioSourceUuid != P.PROGRAM && audioSourceUuid != "master_track" {
        if obs.customAudioFound {
          if !obs.audioInfo {
            return false;
          }
          held := held.(audioSource := P.Held);
          if !obs.customAudioOpened {
            held := held.(audioSource := P.Null);
            return false;
          }
          return true;
        }
      }
      return obs.mainAudio;
    }

    method CreateVideoEncoder(obs: P.Obs) returns (ok: bool)
      modifies this`held
      ensures (held, ok) == P.CreateVideoEncoder(old(held), source, obs)
    {
      if held.videoEncoder.Null? {
        var video := CreateVideo(obs);
        if !video || !obs.videoEncoder {
          return false;
        }
        held := held.(videoEncoder := P.Held);
      }
      return true;
    }

    method CreateAudioEncoder(obs: P.Obs) returns (ok: bool)
      modifies this`held
      ensures (held, ok) == P.CreateAudioEncoder(old(held), P.AudioUuid(old(Snapshot())), obs)
    {
      if held.audioEncoder.Null? {
        var audioSourceUuid := settings.audioSource;
        if audioSourceUuid == "" {
          audioSourceUuid := activeSourceUuid;
        }
        var audio := CreateAudio(audioSourceUuid, obs);
        if !audio || !obs.audioEncoder {
          return false;
        }
        held := held.(audioEncoder := P.Held);
      }
      return true;
    }

    method CreateEncoders(obs: P.Obs) returns (ok: bool)
      modifies this`held
      ensures (held, ok) == P.CreateEncoders(old(Snapshot()), obs)
    {
      ok := CreateVideoEncoder(obs);
      if ok {
        ok := CreateAudioEncoder(obs);
      }
    }

    method CreateStreamingOutput(obs: P.Obs)
      modifies this`held, this`status, apiClient`activeOutputs, apiClient`standByOutputs
      ensures Snapshot() == P.CreateStreamingOutput(old(Snapshot()), obs)
      ensures apiClient.Counters() == P.Recount(old(apiClient.Counters()), old(status), status)
    {
      if held.streamingOutput.Null? && connection.Some? {
        held := held.(service := if obs.service then P.Held else P.Null);
        if held.service.Null? {
          SetStatus(P.Error);
          return;
        }
        held := held.(streamingOutput := if obs.streamingOutput then P.Held else P.Null);
        if held.streamingOutput.Null? {
          SetStatus(P.Error);
        }
      }
    }

    method CreateRecordingOutput(obs: P.Obs)
      modifies this`held, this`recordingStatus
      ensures Snapshot() == P.CreateRecordingOutput(old(Snapshot()), obs)
    {
      if held.recordingOutput.Null? && settings.recording {
        held := held.(recordingOutput := if obs.recordingOutput then P.Held else P.Null);
        if held.recordingOutput.Null? {
          SetRecordingStatus(P.RecordingError);
        }
      }
    }

    /** `start` from "Create outputs" on. */
    method CreateOutputs(obs: P.Obs, reconstruct: bool)
      modifies this, apiClient`activeOutputs, apiClient`standByOutputs
      ensures Snapshot() == P.CreateOutputs(old(Snapshot()), obs, reconstruct)
      ensures apiClient.Counters() == P.Recount(old(apiClient.Counters()), old(status), status)
    {
      CreateStreamingOutput(obs);
      CreateRecordingOutput(obs);
      if held.streamingOutput.Null? && held.recordingOutput.Null? {
        return;
      }
      if reconstruct {
        Schedule(obs);
      }
    }

    method Schedule(obs: P.Obs)
      modifies this, apiClient`activeOutputs, apiClient`standByOutputs
      ensures Snapshot() == P.Schedule(old(Snapshot()), obs)
      ensures apiClient.Counters() == P.Recount(old(apiClient.Counters()), old(status), status)
    {
      if held.recordingOutput.Held? {
        SetRecordingStatus(P.RecordingActivating);
      }
      if held.streamingOutput.Held? {
        connectionAttemptingAt := obs.now;
        SetStatus(P.Activating);
      }
    }

    /** `start` from "Gather parameters" on. */
    method Produce(obs: P.Obs, reconstruct: bool)
      modifies this, apiClient`activeOutputs, apiClient`standByOutputs
      ensures Snapshot() == P.Produce(old(Snapshot()), obs, reconstruct)
      ensures apiClient.Counters() == P.Recount(old(apiClient.Counters()), old(status), status)
    {
      var streaming := connection.Some?;
      if !streaming && !settings.recording {
        return;
      }
      if !obs.videoInfo {
        SetStatus(P.Error);
        return;
      }
      if streaming && !P.SupportedProtocol(connection.value.protocol) {
        SetStatus(P.Error);
        return;
      }
      var ok := CreateEncoders(obs);
      if !ok {
        SetStatus(P.Error);
        return;
      }
      CreateOutputs(obs, reconstruct);
    }

    /** The locked part of `start`. */
    method StartPipeline(obs: P.Obs)
      modifies this, apiClient`activeOutputs, apiClient`standByOutputs
      ensures Snapshot() == P.StartPipeline(old(Snapshot()), apiClient.uplink, obs)
      ensures apiClient.Counters() == P.Recount(old(apiClient.Counters()), old(status), status)
    {
      hide P.Rebuild, P.Produce;
      var sourceUuid := settings.sourceUuid;
      if sourceUuid == "" || !settings.visible {
        DestroyPipeline(P.Disabled, P.RecordingInactive);
        return;
      }
      RetrieveConnection();
      var goStandBy := connection.None? && status != P.StandBy;
      var goActive := connection.Some? && status != P.Active;
      var reconstructPipeline := sourceUuid != activeSourceUuid || goStandBy || goActive
                                 || activeSettingsRev != storedSettingsRev;
      if reconstructPipeline {
        Rebuild(obs);
      } else {
        Produce(obs, false);
      }
    }

    /** The rebuilding branch of `start`. */
    method Rebuild(obs: P.Obs)
      modifies this, apiClient`activeOutputs, apiClient`standByOutputs
      ensures Snapshot() == P.Rebuild(old(Snapshot()), obs)
      ensures apiClient.Counters() == P.Recount(old(apiClient.Counters()), old(status), status)
    {
      hide P.Produce;
      DestroyPipeline(P.Inactive, P.RecordingInactive);
      var ok := CaptureSource(obs);
      if !ok {
        SetStatus(P.Error);
        return;
      }
      if connection.None? {
        SetStatus(P.StandBy);
      }
      Produce(obs, true);
    }

    method CaptureSource(obs: P.Obs) returns (ok: bool)
      requires source == None
      modifies this`source, this`showing, this`activeSourceUuid, this`activeSettingsRev
      ensures ok == (settings.sourceUuid == P.PROGRAM || obs.sourceUsable)
      ensures Snapshot() == if ok then P.CaptureSource(old(Snapshot())) else old(Snapshot())
    {
      var sourceUuid := settings.sourceUuid;
      if sourceUuid != P.PROGRAM {
        ok := CreateSource(sourceUuid, obs);
        if !ok {
          return;
        }
      }
      activeSourceUuid := sourceUuid;
      activeSettingsRev := storedSettingsRev;
      return true;
    }

    method Start(obs: P.Obs)
      modifies this, apiClient`activeOutputs, apiClient`standByOutputs, apiClient`uplinkStatus, apiClient`puts
      ensures World() == P.Start(old(World()), obs)
    {
      StartPipeline(obs);
      apiClient.SyncUplinkStatus(false);
    }

    method Stop()
      modifies this, apiClient`activeOutputs, apiClient`standByOutputs, apiClient`uplinkStatus, apiClient`puts
      ensures World() == P.Stop(old(World()))
    {
      DestroyPipeline(P.Inactive, P.RecordingInactive);
      apiClient.SyncUplinkStatus(false);
    }

    /** Both encoders are handed to the output that is started. */
    method StartStreaming(obs: P.Obs)
      requires held.streamingOutput.Held? ==> held.videoEncoder.Held? && held.audioEncoder.Held?
      modifies this, apiClient`activeOutputs, apiClient`standByOutputs, apiClient`uplinkStatus, apiClient`puts
      ensures World() == P.StartStreaming(old(World()), obs)
    {
      if held.streamingOutput.Held? {
        connectionAttemptingAt := obs.now;
        if !obs.streamStarts {
          SetStatus(P.Error);
        } else {
          if source.Some? {
            Show(1);
          }
          SetStatus(P.Active);
        }
      }
      apiClient.SyncUplinkStatus(false);
    }

    method StartRecording(obs: P.Obs)
      requires held.recordingOutput.Held? ==> held.videoEncoder.Held? && held.audioEncoder.Held?
      modifies this
      ensures World() == P.StartRecording(old(World()), obs)
    {
      if held.recordingOutput.Held? {
        if !obs.recordStarts {
          SetRecordingStatus(P.RecordingError);
        } else {
          if source.Some? {
            Show(1);
          }
          SetRecordingStatus(P.RecordingActive);
        }
      }
    }

    /** Stops and starts an output that must be there. */
    method RestartStreaming(obs: P.Obs)
      requires held.streamingOutput.Held?
      modifies this`connectionAttemptingAt, this`status, apiClient`activeOutputs, apiClient`standByOutputs
      ensures World() == P.RestartStreaming(old(World()), obs)
    {
      connectionAttemptingAt := obs.now;
      if obs.streamStarts {
        SetStatus(P.Reconnecting);
      }
    }

    /** Stops and starts an output that must be there.  Whether libobs starts it again is only logged: a failed restart
        changes no field, and `obs.recordStarts` is not consulted. */
    method RestartRecording(obs: P.Obs)
      requires held.recordingOutput.Held?
    {
    }

    /** `obs_output_reconnecting` on an output that must be there. */
    method Reconnecting(obs: P.Obs) returns (r: bool)
      requires held.streamingOutput.Held?
      ensures r == obs.reconnecting
    {
      return obs.reconnecting;
    }

    method OnMonitoringTimerTimeout(obs: P.Obs)
      requires Safe(Snapshot())
      modifies this, apiClient`activeOutputs, apiClient`standByOutputs, apiClient`uplinkStatus, apiClient`puts
      ensures World() == P.Tick(old(World()), obs)
      ensures Safe(Snapshot())
    {
      TickKeeps(World(), obs, "");
      var activateStreaming := status == P.Activating;
      var activateRecording := recordingStatus == P.RecordingActivating;
      if status == P.Changing {
        Start(obs);
      } else if activateStreaming || activateRecording {
        if P.Elapsed(obs.now, connectionAttemptingAt) > P.OUTPUT_START_DELAY_MSECS {
          ActivationKeeps(Snapshot(), obs, "");
          if activateStreaming {
            StartStreaming(obs);
          }
          if activateRecording {
            StartRecording(obs);
          }
        }
      } else if status != P.Active && status != P.StandBy && status != P.Reconnecting {
        if P.InterlockOn(obs) {
          Start(obs);
        }
      } else if P.Elapsed(obs.now, connectionAttemptingAt) > P.OUTPUT_RETRY_TIMEOUT_MSECS {
        Supervise(obs);
      }
    }

    /** The last branch of the monitoring tick. */
    method Supervise(obs: P.Obs)
      requires Safe(Snapshot())
      requires status == P.Active || status == P.StandBy || status == P.Reconnecting
      modifies this, apiClient`activeOutputs, apiClient`standByOutputs, apiClient`uplinkStatus, apiClient`puts
      ensures World() == P.Supervise(old(World()), obs)
    {
      if P.InterlockOff(obs) {
        Stop();
        return;
      }
      var streamingAlive := held.streamingOutput.Held? && obs.streamActive;
      if !streamingAlive && status == P.StandBy {
        Start(obs);
        return;
      }
      if activeSettingsRev < storedSettingsRev {
        var reconnecting := Reconnecting(obs);
        if !reconnecting {
          SetStatus(P.Changing);
          return;
        }
      }
      var recordingAlive := held.recordingOutput.Held? && obs.recordActive;
      if recordingStatus == P.RecordingActive && !recordingAlive {
        RestartRecording(obs);
      }
      if !streamingAlive && (status == P.Active || status == P.Reconnecting) {
        RestartStreaming(obs);
        return;
      }
      Settle(obs, streamingAlive);
    }

    /** A reconnected stream is active again, and a vanished source stops the output. */
    method Settle(obs: P.Obs, streamingAlive: bool)
      modifies this, apiClient`activeOutputs, apiClient`standByOutputs, apiClient`uplinkStatus, apiClient`puts
      ensures World() == P.Settle(old(World()), obs, streamingAlive)
    {
      if streamingAlive && status == P.Reconnecting {
        SetStatus(P.Active);
      }
      if source.Some? && !obs.sourceAvailable {
        Stop();
      }
    }

    method OnUplinkReady(uplink: UplinkInfo)
      modifies this`connection, this`storedSettingsRev
      ensures World() == P.OnUplinkReady(old(World()), uplink)
    {
      var incomingConnection := Find(Connections(uplink), (c: StageConnection) => c.sourceName == name);
      if ConnectionId(connection) != ConnectionId(incomingConnection)
         || ConnectionRevision(connection) < ConnectionRevision(incomingConnection)
      {
        connection := incomingConnection;
        storedSettingsRev := storedSettingsRev + 1;
      }
    }

    method Update(newSettings: P.OutputSettings)
      modifies this`settings, this`storedSettingsRev
      ensures World() == P.Update(old(World()), newSettings)
    {
      settings := newSettings;
      storedSettingsRev := storedSettingsRev + 1;
    }

    method SetSourceUuid(value: string)
      modifies this`settings, this`storedSettingsRev
      ensures World() == P.SetSourceUuid(old(World()), value)
    {
      if value == settings.sourceUuid {
        return;
      }
      settings := settings.(sourceUuid := value);
      storedSettingsRev := storedSettingsRev + 1;
    }

    method SetVisible(value: bool)
      modifies this`settings, this`storedSettingsRev
      ensures World() == P.SetVisible(old(World()), value)
    {
      settings := settings.(visible := value);
      storedSettingsRev := storedSettingsRev + 1;
    }
  }
}
