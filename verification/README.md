# Verified model of the SRC-Link plugin

This project models the stateful cores of the SRC-Link plugin for OBS Studio and proves what their functions
guarantee together: the egress output state machine, the client object that all outputs and sources share, the chunked
audio buffer, the request sequencer, the two ends of an SRT link, and four list algorithms of the user interface.

`dafny verify dfyconfig.toml` checks everything.

## How the model is built

Code that changes fields is a class whose methods carry `modifies` clauses and loops. Each method is proved against a
function on a snapshot of the object, and the properties over whole runs are lemmas about those functions. A run is a
sequence of events; every handler is one step, because the plugin's handlers run to completion on the Qt thread or
under the mutex of their object.

| file | what it holds |
|---|---|
| `Schema.dfy` | the records of the protocol and the array search |
| `EgressPipeline.dfy` | every handler of an egress output as a function; what libobs, the clock and the settings answer is the `Obs` record |
| `EgressOutput.dfy` | the output object; its preconditions are the null dereferences its handlers must not make |
| `EgressSafety.dfy`, `EgressProgress.dfy`, `EgressShutdown.dfy` | runs of one output: invariant and reference accounting; progress while it is wanted; what becomes of it when it is not |
| `EgressOutcomes.dfy`, `EgressTicks.dfy` | where a start ends and what feeds the encoders; one tick, phase by phase; retries of a dead stream; how new revisions reach the pipeline |
| `EgressSystem.dfy`, `EgressUplinkStatus.dfy`, `EgressLeak.dfy` | runs of all outputs: the shared counters, the uplink status; a run that loses a reference and leaves the status stale |
| `UplinkCounters.dfy`, `Ports.dfy`, `ReplicatedLists.dfy`, `ReplicaRuns.dfy`, `ApiClient.dfy` | the client's counters, port table and replicated lists |
| `IngressSource.dfy`, `LinkEndpoints.dfy`, `Text.dfy` | an ingress source's request and port, the SRT addresses of both ends, decimal numerals |
| `AudioRecord.dfy`, `AudioFraming.dfy`, `AudioCapture.dfy`, `AudioHistory.dfy`, `AudioBlocks.dfy` | the record layout; when cells can be read as records; the buffer object with its producer, its two consumers and a ghost log of every frame; runs of that log and of the object; the fate of whole blocks |
| `RequestSequencing.dfy`, `RequestHandlers.dfy`, `RequestDraining.dfy`, `RequestInvoking.dfy` | the request queue as a state machine; whom the end of a request calls; what becomes of the queue when the network answers; the object |
| `EditableList.dfy`, `FrameRates.dfy`, `FileNames.dfy`, `ConnectionDock.dfy` | the list algorithms |

## What turned out to hold only under a condition

Each of these comes with inputs on which the property fails.

- An output that holds no source any more has given back every showing reference to a source if and only if no
  pipeline holding that source was torn down in the CHANGING status (`EgressSafety.ReleasedIsBalancedIff`):
  `destroyPipeline` does not list CHANGING among the statuses of a running streaming output, so each such teardown
  loses one reference. `EgressLeak.ReferenceIsLost` runs five events that lose one.
- The uplink status stays in agreement with the outputs over an event of one of them if and only if the event does not
  turn the last live output to CHANGING (`EgressUplinkStatus.StatusStaysExactIff`, `EgressLeak.StatusGoesStale`):
  that one change of status is counted without a sync.
- While the interlock is off, an output comes to rest with nothing running if and only if no recording is left running
  beside a stream that failed to start (`EgressShutdown.UnwantedEndsIff`): in the status ERROR a tick does nothing, so
  the recording never ends (`EgressShutdown.RecordingNeverEnds`).
- The port table is exact after a step if and only if it was not asked, by a direct source, for a range in which 0 is
  the lowest port that no other source holds (`Ports.StepIsExactIff`, `Ports.ZeroLeaks`). The settings dialog offers
  ports from 1 on (src/UI/settings-dialog.ui:415-417); a stored value that is no number reads as 0
  (src/settings.hpp:45).
- A message keeps the ids of its list distinct if and only if the payload's id is the message's or is new to the list
  (`ReplicatedLists.UpsertDistinctIff`, `ReplicaRuns.MisaddressedRepeatsId`).
- After a push the audio buffer can be read as records if and only if no counted plane is missing and the record's size
  fits 32 bits (`AudioFraming.PushIsReadableIff`, `AudioRecord.MissingPlaneMisframes`).
- After the shared `refreshFinished` signal every continuation keeps requests one at a time and in order if and only if
  every connected refresh was in flight when it was emitted (`RequestSequencing.SignalKeepsOrderIff`); otherwise calls
  of that emission and at most one more request break it (`RequestSequencing.TwoRefreshesOverlap` is such a run).
- With the network answering in any order and nothing new queued, the request queue drains in order if and only if the
  queued refreshes that still wait for the shared signal stand next to each other (`RequestDraining.DrainsIff`,
  `RequestDraining.SplitNeverDrains`). On the way there no request ends while its operation is in flight, and only one
  is in flight at a time, if and only if at most one refresh still waits (`RequestDraining.StaysCleanIff`).
- The two ends of a direct link carry the same items, the mode apart, if and only if both stream id and passphrase are
  given (`LinkEndpoints.DirectEndsAgreeIff`, `LinkEndpoints.OpenLinkDiffers`). The ends of a relayed link name the same
  host if and only if the sender is not in the relay's network or its two addresses are the same
  (`LinkEndpoints.HostsAgreeIff`, `LinkEndpoints.SenderBesideRelay`). On a relay only the sender applies a
  latency override (`LinkEndpoints.RelayLatenciesAgreeIff`, `LinkEndpoints.OverrideStaysWithSender`), and the stream a
  connection names is its own if and only if no part of the stream id contains the separator
  (`LinkEndpoints.StreamIsOwnIff`, `LinkEndpoints.SeparatorsCollide`).
- A taken file path has a free numbered variant if and only if it contains a '.' (`FileNames.FreeCandidateIff`,
  `FileNames.NoExtensionNoCandidate`); without one the search of `findBestFilename` does not end.

## Model

| member | source | states |
|---|---|---|
| EgressSafety.RunIsSafe | src/outputs/egress-link-output.cpp:1059-1510 | in every state reached by any run of ticks, uplink events, setting changes, stops and libobs failures: a started or starting stream has its output, service and both encoders, stand-by has no streaming output, a started or starting recording has its output and encoders, the active revision is not ahead of the stored one, and a pipeline built with the current revision captures the selected visible source |
| EgressSafety.StepKeeps | src/outputs/egress-link-output.cpp:1059-1575 | one event keeps that invariant and changes the unaccounted showing references by exactly one when it tears a pipeline down in CHANGING, else by none |
| EgressSafety.ShowingAccounts | src/outputs/egress-link-output.cpp:1237-1321 | over any run the net showing count of every source is one for being held, one per running output, plus one for each teardown entered in CHANGING with that source |
| EgressSafety.ReleasedIsBalancedIff | src/outputs/egress-link-output.cpp:1275-1321 | after any run that ends without a held source, by a stop, a disabling or a failed rebuild, the net count of a source is zero if and only if no teardown in CHANGING held it |
| EgressSafety.StoppedIsBalancedIff | src/outputs/egress-link-output.cpp:1275-1337 | after a run that ends in a stop the net count of a source is zero if and only if no teardown in CHANGING held it |
| EgressLeak.ReferenceIsLost | src/outputs/egress-link-output.cpp:1275-1321 | a new output, two ticks to become active, a settings change, the tick that sets CHANGING, a stop: one reference to the source is never given back |
| EgressSafety.RebuildKeeps | src/outputs/egress-link-output.cpp:1083-1216 | rebuilding a pipeline, whatever fails on the way, re-establishes the invariant and accounts for the new reference |
| EgressSafety.OutputsExtend | src/outputs/egress-link-output.cpp:1183-1216 | creating and scheduling outputs on an encoding pipeline keeps the invariant, the source and every reference to it |
| EgressProgress.TickProgress | src/outputs/egress-link-output.cpp:1389-1510 | in good surroundings a settled output stays settled over a tick, and any other gets a strictly smaller measure |
| EgressProgress.Converges | src/outputs/egress-link-output.cpp:1389-1510 | from any safe state as many good ticks as the measure says make the output active with its current settings, for good, whatever events without a new revision come between the ticks |
| EgressProgress.EveryReachableOutputSettles | src/outputs/egress-link-output.cpp:1389-1510 | after any history whatever, 50 good ticks, with events that raise no revision between them, leave the output active with its current revision, capturing the selected source, with its output and encoders |
| EgressShutdown.UnwantedEndsIff | src/outputs/egress-link-output.cpp:1389-1510 | after 25 ticks that find the interlock off, whatever else but a stop happens between them, the output is at rest, and something of it still runs if and only if a recording was stranded at the start or some tick stranded one |
| EgressShutdown.TickStrandsIff | src/outputs/egress-link-output.cpp:1222-1270 | a tick strands a recording if and only if the recording starts or goes on while the stream fails to start or none is to start, or a recording in stand-by meets a failure to get the video information |
| EgressShutdown.RecordingNeverEnds | src/outputs/egress-link-output.cpp:1421-1440 | a new output whose recording starts and whose stream does not goes on recording over any number of ticks under an interlock that is off |
| EgressProgress.RebuildSchedules | src/outputs/egress-link-output.cpp:1083-1216 | a rebuild in which every call succeeds ends with the stream scheduled under the current revision and the retry clock restarted |
| EgressOutcomes.StartStartsAs | src/outputs/egress-link-output.cpp:1059-1217 | a start that rebuilds ends DISABLED, ACTIVATING, in stand-by or in ERROR, and its recording scheduled, failed or absent, each exactly under the stated answers of libobs; a captured source needs its own view, the program the main video, and the sound is the one chosen; a failed stream does not keep the recording from being scheduled |
| EgressOutcomes.RunIsFed | src/outputs/egress-link-output.cpp:860-932 | over any run, a pipeline with a video encoder has a source view exactly when it captures a source, and with the current settings its audio encoder gets silence exactly when "no_audio" is chosen and never a source's own audio when the program or the master track is |
| EgressTicks.DeadStreamIsRetried | src/outputs/egress-link-output.cpp:1339-1353 | after any history, a tick under an interlock that is not off leaves no running output on a dead stream whose last attempt is more than 3500 ms back, and an attempt of this tick ends in RECONNECTING exactly when libobs started the stream or the output was reconnecting before |
| EgressTicks.RunningTickOutcome | src/outputs/egress-link-output.cpp:1442-1510 | an active or reconnecting output within 3500 ms of its last attempt is left alone; later it stops, is to change, is tried again, stops for want of its source, or is active, each exactly in the stated case, and nothing else of it changes |
| EgressTicks.ActivatingTickOutcome | src/outputs/egress-link-output.cpp:1222-1270 | 1000 ms after scheduling, stream and recording each become active or fail as libobs says; before that nothing happens |
| EgressTicks.IdleTickOutcome | src/outputs/egress-link-output.cpp:1389-1440 | an idle output starts exactly when the interlock wants it, and a changing one at once |
| EgressTicks.StandByTickOutcome | src/outputs/egress-link-output.cpp:1470-1482 | an output in stand-by is rebuilt exactly when a connection has come, its settings have changed or it is not wanted any more; else only a missing recording output is made up for, without being started, or missing video information ends in ERROR |
| EgressTicks.InterlockFollowsFrontend | src/outputs/egress-link-output.cpp:1421-1475 | for each interlock type, which frontend activity asks for a start and which for a stop; unknown types ask for neither |
| EgressTicks.RevisionsAreApplied | src/outputs/egress-link-output.cpp:1561-1575 | from a settled output, any one event and enough good ticks rebuild the pipeline under a new revision exactly when the event changed settings or announced another or a newer connection, with the source then selected; the same announcement again makes none |
| EgressSystem.RunWithoutUplink | src/api-client.cpp:333-346 | while no uplink is known, no run of any outputs puts a status, forced or not |
| EgressSystem.CountersCount | src/outputs/egress-link-output.cpp:1512-1539 | through any run of creations, events and destructions of any number of outputs, the shared counters are the numbers of live and of stand-by outputs |
| EgressSystem.SystemIsSafe | src/outputs/egress-link-output.cpp:1059-1575 | over any run of any number of outputs, whose events interleave as they like, every output keeps the handles its status needs |
| EgressSystem.SyncYieldsFold | src/api-client.cpp:333-346 | a sync under a known uplink yields the status that a fold over all outputs gives, and puts it exactly when forced or when it has changed |
| EgressUplinkStatus.UplinkStatusIsTold | src/api-client.cpp:333-346 | over any run under a known uplink the uplink status equals the fold over all outputs, but for the interval from the turn of the last live output to CHANGING to the next sync, in which it still says active |
| EgressUplinkStatus.StatusStaysExactIff | src/outputs/egress-link-output.cpp:1442-1482 | from an exact status, an event of an output keeps it exact if and only if it does not satisfy the guard of the CHANGING branch with no other output live |
| EgressLeak.StatusGoesStale | src/outputs/egress-link-output.cpp:1477-1482 | a run of one output in which the status says active though no output is |
| EgressSystem.RunPutsOnlyOnChange | src/api-client.cpp:333-346 | over any run every unforced status PUT differs from the PUT before it, and the last one is the status kept |
| EgressOutput.EgressLinkOutput.OnMonitoringTimerTimeout | src/outputs/egress-link-output.cpp:1389-1510 | under the invariant the tick makes none of the null dereferences its callees could make, does what the tick function says to output and client, and keeps the invariant |
| EgressOutput.EgressLinkOutput.StartPipeline | src/outputs/egress-link-output.cpp:1059-1217 | the locked part of `start`, step by step on the fields, refines the function the run properties are about |
| EgressOutput.EgressLinkOutput.DestroyPipeline | src/outputs/egress-link-output.cpp:1275-1321 | gives back the references of the outputs that run by its tests, releases every handle, and recounts the client |
| EgressOutput.EgressLinkOutput.SetStatus | src/outputs/egress-link-output.cpp:1512-1539 | the branches of increments and decrements change the shared counters by exactly the difference of the two statuses |
| EgressOutput.EgressLinkOutput.OnUplinkReady | src/outputs/egress-link-output.cpp:1561-1575 | takes over the connection and a new revision exactly when the id differs or the revision rose |
| Ports.RunIsExact | src/sources/ingress-link-source.cpp:283-290 | over any run of captures, range changes and removals with ranges without 0, a port is marked exactly when one live source holds it, and relay sources hold none |
| Ports.StepIsExactIff | src/api-client.cpp:281-298 | one step keeps the table exact if and only if it is not a direct source asking for a range that contains 0 and whose ports below 0 are all held by others |
| Ports.ZeroLeaks | src/api-client.cpp:281-298 | a range from 0 leaves a mark that no source holds |
| Ports.CapturedPort | src/sources/ingress-link-source.cpp:283-290 | a direct source ends with the lowest port of the range that no other source holds, or with none exactly when the others hold them all |
| ApiClient.SRCLinkApiClient.GetFreePort | src/api-client.cpp:281-293 | the loop returns and marks the lowest free port of the range, or 0 and marks nothing |
| IngressSource.IngressLinkSource.CaptureSettings | src/sources/ingress-link-source.cpp:242-291 | every field of the request and of the decoder takes over its setting (or the client's default), the revision rises exactly when the request changed, and the old port is given back before the lowest free one is taken |
| IngressSource.RunSources | src/sources/ingress-link-source.cpp:242-291 | sources of one client are created, get new settings and are destroyed in any interleaving, under any changes of the port range: the client's marks and the ports the objects hold are those of the run of the port table, and a port is marked exactly when one object holds it, if no range contains 0 |
| IngressSource.IngressLinkSource.Destroy | src/sources/ingress-link-source.cpp:128-135 | the destructor unmarks the port the source held and no other |
| ReplicatedLists.LogRefinesMap | src/api-client.cpp:1111-1228 | any log of added, changed and removed messages keeps ids distinct and gives the map that plain put and delete give |
| ReplicatedLists.LogKeepsOrder | src/api-client.cpp:1111-1297 | entries never removed keep their relative order and stand before everything that arrives, or arrives again, later |
| ReplicatedLists.UpsertDistinctIff | src/api-client.cpp:1119-1127 | a put keeps ids distinct if and only if the payload carries the message's id or one that is new |
| ReplicatedLists.MergeIsConsistent | src/api-client.cpp:848-858 | merging the participants of an invite code means putting each of them into the map |
| ReplicaRuns.RunRepresents | src/api-client.cpp:1080-1301 | any run of messages and invite-code grants over all lists, the downlinks and the single records of uplink and account at once leaves each list representing its own map and each record holding what came last |
| ReplicaRuns.MessagesAreTold | src/api-client.cpp:1080-1301 | every signal of a message tells of the one part of the client that changed, no change goes untold, a removal is told only if something went, and a license only when its validity turned under a known account |
| ReplicaRuns.MisaddressedRepeatsId | src/api-client.cpp:1149-1154 | an example: a message for one of two ids with a payload of the other leaves two entries with one id |
| ApiClient.SRCLinkApiClient.OnWebSocketDataChanged | src/api-client.cpp:1080-1231 | for every topic, exactly the record a valid message addresses changes, and its signals are emitted exactly when the message ends its batch, a changed license validity with one more |
| ApiClient.SRCLinkApiClient.OnWebSocketDataRemoved | src/api-client.cpp:1233-1301 | for every topic, exactly the addressed record or entry goes, which is announced exactly when there was one and the message ends its batch; the removal of the account logs out |
| ApiClient.SRCLinkApiClient.MergeParticipants | src/api-client.cpp:848-858 | the merge loop is the log of puts of the granted participants, in order |
| Schema.ConnectionForIff | src/outputs/egress-link-output.cpp:830-840 | an output's connection is the first of the uplink with its name, or none exactly when there is none |
| Schema.FindIndex | src/schema.hpp:50-58 | the first matching index, or -1 exactly when nothing matches |
| Schema.Every | src/schema.hpp:69-78 | true exactly when all elements match |
| AudioRecord.HeaderRoundTrip | src/sources/audio-capture.hpp:44-53 | decoding the cells of a header whose fields fit their types gives the header back, whatever follows |
| AudioRecord.RecordRoundTrip | src/sources/audio-capture.cpp:71-94 | the record pushed for a complete block is well formed, and its frames read through the header's plane indices are the caller's frames |
| AudioRecord.RecordLengthIff | src/sources/audio-capture.cpp:79-96 | the record is as long as the consumers compute from its header if and only if no counted plane is missing or the block is empty |
| AudioFraming.PushIsReadableIff | src/sources/audio-capture.cpp:71-106 | after a push into a readable buffer some sequence of records explains its cells and its counter if and only if the block is complete |
| AudioRecord.MissingPlaneMisframes | src/sources/audio-capture.cpp:79-96 | with the first of two planes missing the record is one sample shorter than the consumers compute |
| AudioCapture.HeadDecodes | src/outputs/audio-source.cpp:71-77 | in a consistent buffer the front cells are the oldest record, its computed size fits deque and scratch buffer, and its header decodes |
| AudioCapture.AdvanceHead | src/outputs/audio-source.cpp:109-118 | rewriting the offset in the front header keeps the buffer a concatenation of well-formed records, without underflow of the count, and drops exactly the consumed frames |
| AudioCapture.RecordHoldsFrames | src/outputs/audio-source.cpp:87-94 | in a copy of a record, the samples found through plane index and offset are the unconsumed frames, within bounds |
| AudioCapture.MixBlock | src/outputs/audio-source.cpp:83-104 | in place, every sample of every selected mix that the block covers becomes the point of [-1, 1] nearest to the sum of its old value and the frame, and every other sample stays |
| AudioCapture.SourceAudioCapture.PushAudio | src/sources/audio-capture.cpp:55-109 | appends exactly the header and the present planes after the overflow flush; for a complete block keeps the buffer valid (every record fits the scratch buffer), queues a record with the block's frames and timestamp and the capture's rate and format, and logs the push; leaves an unread buffer unread |
| AudioCapture.SourceAudioCapture.PopAudio | src/outputs/audio-source.cpp:54-124 | consumes nothing or exactly 1024 frames, across records of any length including empty ones; every speaker's sample of the selected mixes becomes the point of [-1, 1] nearest to its sum with the oldest frames, every other stays; logs them as delivered, keeps the buffer valid and terminates |
| AudioCapture.SourceAudioCapture.FramesCoverSpeakers | src/outputs/audio-source.cpp:87-91 | every queued frame has exactly one sample for each speaker, so a mixed block reaches all of them |
| AudioCapture.SourceAudioCapture.DrainOne | src/sources/ingress-link-source.cpp:782-811 | one turn of the audio thread hands over planes, timestamp, rate, format and frame count of the oldest record, whose frames with the rest are what was queued, and logs them as played |
| AudioCapture.SourceAudioCapture.Drain | src/sources/ingress-link-source.cpp:763-814 | what the thread plays followed by what is left is what was queued, and as many turns as there are records empty the buffer |
| AudioCapture.RunThread | src/sources/ingress-link-source.cpp:763-814 | over any interleaving of complete blocks and turns of the audio thread, what was played or flushed followed by what is left is what was pushed, once each and in order, for frames and for blocks; the blocks handed over are those not flushed, each with its planes, its timestamp, and the capture's rate, layout and float-planar format |
| AudioCapture.RunMixer | src/outputs/audio-source.cpp:54-124 | over any interleaving of complete blocks and calls of the mixer, what was mixed, in whole blocks of 1024, or flushed followed by what is left is what was pushed, once each and in order |
| AudioBlocks.BlockRunAccounts | src/sources/audio-capture.cpp:64-69 | over any run every block that arrived was played or flushed, or waits, once each and in order |
| AudioBlocks.ReadIsHandedOver | src/sources/ingress-link-source.cpp:794-809 | what is read from the record of a block has the block's planes, timestamp and frame count |
| AudioHistory.EveryFrameAccounted | src/sources/audio-capture.cpp:64-69 | over any run of the log that the buffer object keeps, every pushed frame is delivered, played, discarded by a flush, or still buffered, once each and in push order |
| AudioHistory.DeliveriesAreBlocks | src/outputs/audio-source.cpp:62-68 | over any run of that log the delivered frames make up whole blocks of 1024 |
| AudioHistory.BufferStaysBounded | src/sources/audio-capture.cpp:64-69 | the buffered frames stay within the bound while every push does |
| RequestSequencing.OneAtATimeInOrder | src/request-invoker.cpp:72-190 | in every run, however handlers enqueue during an emission: at most one request in flight, none started twice, starts and ends in enqueue order |
| RequestSequencing.StepKeeps | src/request-invoker.cpp:72-190 | every event keeps the chain: each queued request's end starts exactly its successor, and the head alone is in flight, due, or over |
| RequestHandlers.HandlersAreCalled | src/request-invoker.cpp:159-190 | in every run, the handlers that the end of a request has called, followed by those it is about to call, are those connected to it, once each and in order of connection; one that has not ended has called nobody |
| RequestSequencing.SignalKeepsOrderIff | src/request-invoker.cpp:91-101 | every continuation after the shared refresh signal is sequential (one in flight, none started twice, starts and ends in enqueue order) if and only if every connected refresh was in flight |
| RequestSequencing.SignalBreaksOrder | src/request-invoker.cpp:174-190 | for a connected refresh that is not in flight there is a continuation, of calls of the emission and at most one further request, in which it ends twice, ends before it starts, or is overtaken |
| RequestSequencing.TwoRefreshesOverlap | src/request-invoker.cpp:174-190 | two queued refreshes: one signal ends both, and the next request starts while the second refresh is still in flight |
| RequestDraining.DrainsIff | src/request-invoker.cpp:91-190 | after any run, once nothing new is queued, and whatever order the network answers in, answers to refreshes told before included, a computed number of steps leaves the queue empty with everything started and ended once, in order, and nothing in flight, if and only if the waiting refreshes stand next to each other in the queue |
| RequestDraining.StaysCleanIff | src/request-invoker.cpp:159-190 | after any run, over the same steps, requests stay sequential and none has ended while its operation is still in flight, if and only if at most one queued refresh waits for the shared signal |
| RequestDraining.SplitNeverDrains | src/request-invoker.cpp:174-190 | with an ordinary request between two refreshes the queue never drains, however the network answers |
| RequestDraining.RunArranges | src/request-invoker.cpp:91-101 | in every run the requests are connected to the shared signal in the order in which they were enqueued |
| RequestInvoking.RequestSequencer.Queue | src/request-invoker.cpp:72-89 | the object starts the request at once or chains it to the last one, and keeps the order invariant |
| RequestInvoking.RequestSequencer.OnRequestorFinished | src/request-invoker.cpp:159-172 | the object leaves the queue before it emits, is about to call each of its listeners in order ahead of everything else, and keeps the order invariant |
| RequestInvoking.RequestSequencer.OnO2RefreshFinished | src/request-invoker.cpp:174-190 | the slot of a refresh that is over does the same during the shared emission, ahead of the slots still to be called |
| LinkEndpoints.DirectEndsAgreeIff | src/outputs/egress-link-output.cpp:694-736 | on a direct connection the two queries are the same but for the mode if and only if stream id and passphrase are given |
| LinkEndpoints.OpenLinkDiffers | src/sources/ingress-link-source.cpp:331-334 | for any direct connection with a stream id and without a passphrase the receiver carries exactly one item more than the sender, an empty passphrase |
| LinkEndpoints.DirectLatencyItems | src/sources/ingress-link-source.cpp:303-334 | both ends of a direct connection carry the same number of latency items: as many as the parameters had, except that an override adds one where they had none |
| LinkEndpoints.DirectEndsHaveOneLatency | src/sources/ingress-link-source.cpp:197-221 | with the parameters its source proposed, each end of a direct connection has exactly one latency |
| LinkEndpoints.RelayEndsNameOneStream | src/outputs/egress-link-output.cpp:711-725 | both ends of a relayed connection call the relay, with publish against play or read ahead of the same path |
| LinkEndpoints.RelayEndsMeetIff | src/outputs/egress-link-output.cpp:711-725 | only receivers of the same stream id, passphrase and (on mediamtx) connection id meet the sender of a relayed connection, on its kind of relay, if and only if no part of its stream id contains the separator |
| LinkEndpoints.StreamIsOwnIff | src/outputs/egress-link-output.cpp:711-725 | every connection with the same stream path agrees on the parts if and only if no part, the passphrase included, contains the separator |
| LinkEndpoints.RelayEndsAgree | src/sources/ingress-link-source.cpp:303-321 | for any parameters, both ends of a relayed connection carry the same items apart from latency and stream id |
| LinkEndpoints.RelayLatenciesAgreeIff | src/sources/ingress-link-source.cpp:305-321 | for any parameters, the relay ends carry the same latency items if and only if there is no override, or there are latency items and each repeats the override |
| LinkEndpoints.ProposedRelayItemsAgreeIff | src/sources/ingress-link-source.cpp:209-211 | with proposed parameters the relay ends carry the same items ahead of the stream id if and only if there is no override or it repeats the proposal |
| LinkEndpoints.HostsAgreeIff | src/outputs/egress-link-output.cpp:687-696 | the sender calls the LAN address, where the two differ, exactly when its own public address is the server's or its allocation is a LAN one, a direct receiver listens everywhere, and the ends of a relayed connection name the same host if and only if the sender is elsewhere or both addresses are the same |
| LinkEndpoints.LatenciesAtBothEnds | src/sources/ingress-link-source.cpp:305-328 | with one proposed latency the sender carries the override or the proposal, a direct receiver the same, a relayed receiver the proposal |
| IngressSource.ProposalReachesBothEnds | src/sources/ingress-link-source.cpp:197-221 | an srt source proposes its own latency under advanced settings, else the client's, and on a direct connection the key length; those reach the addresses of both ends unless overridden |
| LinkEndpoints.SenderUrl | src/outputs/egress-link-output.cpp:686-736 | the statements of the sender build the address and query that the agreement lemmas speak of |
| LinkEndpoints.ReceiverUrl | src/sources/ingress-link-source.cpp:297-336 | the statements of the receiver build the address and query that the agreement lemmas speak of |
| EditableList.UpKeepsOrders | shared/properties-view/properties-view.cpp:2292-2315 | moving up keeps the order among the selected and among the unselected items |
| EditableList.UpMovesByOne | shared/properties-view/properties-view.cpp:2292-2315 | a selected item moves up by exactly one, unless it is in the all-selected prefix, which stays |
| EditableList.UpPermutes | shared/properties-view/properties-view.cpp:2292-2315 | moving up is a permutation |
| EditableList.DownKeepsOrders | shared/properties-view/properties-view.cpp:2317-2340 | moving down keeps the same two orders |
| EditableList.DownMovesByOne | shared/properties-view/properties-view.cpp:2317-2340 | a selected item moves down by exactly one, unless it is in the all-selected suffix |
| EditableList.ListWidget.EditListUp | shared/properties-view/properties-view.cpp:2292-2315 | the loop of takes and inserts computes the list these lemmas describe |
| EditableList.ListWidget.EditListDown | shared/properties-view/properties-view.cpp:2317-2340 | the downward loop computes the mirror image of the upward one on the mirrored list |
| FrameRates.InsertFps | shared/properties-view/properties-view.cpp:1028-1045 | inserts one entry, in place, exactly when no entry is closer than 0.01, and the list stays descending with gaps of at least 0.01 |
| FrameRates.AddFPSRanges | shared/properties-view/properties-view.cpp:1026-1051 | the list stays descending and spaced, keeps every entry, gains only endpoints, and every endpoint is within 0.01 of some entry |
| FileNames.FindBestFilename | src/utils.cpp:151-177 | a free path is kept; else the result is the variant with the smallest number from 2 on that is not taken, and the search ends |
| FileNames.CandidateForm | src/utils.cpp:159-169 | a variant has the decimal number, behind an underscore or in parentheses, in front of the last '.' and the extension |
| FileNames.FreeCandidateIff | src/utils.cpp:159-176 | a taken path has a free variant if and only if it contains a '.' |
| FileNames.NoExtensionNoCandidate | src/utils.cpp:159-176 | every variant of a name without a '.' is that name |
| FileNames.TakenAreFiles | src/utils.cpp:160-176 | as many consecutive variants as are taken, there are files |
| ConnectionDock.OneWidgetPerName | src/UI/egress-link-dock.cpp:313-345 | from widgets of distinct names an update leaves exactly one widget per name on the stage, even when the stage repeats names |
| ConnectionDock.SurvivorsInOrder | src/UI/egress-link-dock.cpp:316-329 | of two survivors the one that stood first stands first |
| ConnectionDock.NewcomersInOrder | src/UI/egress-link-dock.cpp:331-344 | newcomers stand in the order in which the stage first has their names |
| ConnectionDock.EgressLinkDock.UpdateConnections | src/UI/egress-link-dock.cpp:313-345 | the surviving widgets are the same objects in their old order, followed by fresh ones for the newcomers in stage order |

## Left out

- Concurrency inside a handler: each handler, and each region locked by an object's mutex, is one atomic step.
- libobs, the clock and the settings store: their answers are the `Obs` record, the same throughout one handler.
- `connectionAttemptingAt` before its first assignment: the source leaves it uninitialised, the model starts it at 0.
- `updateStatistics`, the snapshot timer, `createRecordingSettings`, presets, the bitrate limits and the RTMP branch of `createEgressSettings`: they change no status, handle or revision.
- Message names and `isValid`: the `Topic` enumeration and a flag of the message; logging out is counted, not followed.
- `putUplinkStatus` itself: the PUT log records its calls, not whether its own login check lets them through.
- EgressProgress.Converges: assumes that two ticks are at least 950 ms apart (a coarse 1000 ms timer may be 5% early) and that the clock does not run backwards.
- AudioCapture.SourceAudioCapture.PushAudio: for a block with a missing plane it states the exact cells appended, but no validity, which then does not hold.
- The deque and the scratch buffer: sequences and arrays of four-byte cells, each cell a part of a header or one sample; `brealloc` failing is not modelled.
- AudioCapture.MixBlock: samples are exact reals; float rounding is not modelled.
- RequestSequencing.OneAtATimeInOrder: assumes that `refreshFinished` is emitted only while every connected refresh is in flight; `SignalKeepsOrderIff` shows that it must.
- RequestDraining.DrainsIff: starts when the last request has been queued, and takes for granted that between emissions the next thing to happen is the answer to some operation in flight.
- LinkEndpoints.SenderUrl: the parameters are given as already split items; percent encoding, `QString::arg` placeholders inside ids, and overflow of `latency * 1000` are not modelled.
- FileNames.FindBestFilename: requires a '.' in a taken path, because without one the source loops forever; `FreeCandidateIff` gives both directions. A `QString::insert` at a negative position is taken to insert nothing.
- FrameRates.InsertFps: rates are exact quotients, and the list given is descending and spaced, as the table of common rates its only caller filters is; `matches_ranges` is not modelled.
- HTTP, OAuth, the web socket transport, JSON, `WsPortalClient`, drawing, dialogs and docks other than the widget list.
