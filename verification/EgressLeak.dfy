/** A run in which an egress output loses a showing reference, as `EgressSafety` says it may, and in which the uplink
    status goes stale, as `EgressUplinkStatus` says it may. */
module EgressLeak {
  import opened Schema
  import opened UplinkCounters
  import opened EgressPipeline
  import opened EgressSafety
  import opened EgressProgress
  import opened EgressSystem
  import opened EgressUplinkStatus

  const CAPTURED := OutputSettings("src", true, false, "")

  const LINK := StageConnection("link", "out", "srt", "server", "lan", 10000, "id", "phrase", [], false, "", 0, 1, "seat")

  const LINKED := Client(Some(UplinkInfo(Some([LINK]), Some("address"), None, None)), 0, 0, UplinkInactive, [])

  /** Everything succeeds, and the output is always on. */
  function Fine(now: int): Obs {
    Obs(now, "always_on", false, false, false, true, true, true, true, true, true, true, true, true, true, true,
        true, true, true, true, true, true, true, false, true)
  }

  function LeakStart(): World { World(Created("out", CAPTURED, false), LINKED) }

  /** The output becomes active, its settings change, and it is stopped before the tick that would apply them. */
  const LEAKING_RUN := [TimerTick(Fine(10000)), TimerTick(Fine(12000)), SettingsUpdated(CAPTURED),
                        TimerTick(Fine(20000)), Stopped]

  ghost predicate At(o: Output, status: StreamingStatus, at: int, showing: int) {
    && Safe(o) && o.status == status && o.recordingStatus == RecordingInactive && o.name == "out"
    && o.source == Some("src") && o.held.streamingOutput.Held? && o.connectionAttemptingAt == at
    && Count(o.showing, "src") == showing
  }

  lemma LinkIsFound()
    ensures ConnectionFor(LINKED.uplink, "out") == Some(LINK)
  {
  }

  /** A pipeline built without recording has none to start. */
  lemma NothingRecorded(o: Output, obs: Obs)
    requires !o.settings.recording
    ensures Rebuild(o, obs).recordingStatus == RecordingInactive
  {
    var o1 := CaptureSource(DestroyPipeline(o, Inactive, RecordingInactive));
    EncodersExtend(o1, obs);
    EncodersExtend(o1.(status := StandBy), obs);
  }

  /** The first tick starts the pipeline. */
  lemma Starts(o: Output)
    requires o == Created("out", CAPTURED, false)
    ensures var o' := StartPipeline(o, LINKED.uplink, Fine(10000));
      && o'.status == Activating && Current(o') && o'.connectionAttemptingAt == 10000
      && o'.settings == o.settings && o'.name == o.name && o'.recordingStatus == RecordingInactive
  {
    hide Rebuild, Produce;
    LinkIsFound();
    NothingRecorded(o.(connection := Some(LINK)), Fine(10000));
    StartSchedules(o, LINKED.uplink, Fine(10000));
  }

  /** What the pipeline captures and owes follows from the invariant. */
  lemma StartedIsAt(o: Output)
    requires Safe(o) && o.status == Activating && Current(o) && o.recordingStatus == RecordingInactive
    requires o.settings == CAPTURED && o.name == "out" && Surplus(o, "src") == 0
    ensures At(o, Activating, o.connectionAttemptingAt, 1)
  {
  }

  lemma AlwaysOn(now: int)
    ensures InterlockOn(Fine(now))
  {
  }

  /** A tick of an idle output that the interlock wants. */
  lemma IdleTick(w: World, obs: Obs)
    requires w.out.status == Inactive && w.out.recordingStatus == RecordingInactive && InterlockOn(obs)
    ensures Tick(w, obs) == Start(w, obs)
  {
    hide InterlockOn, Start, Supervise, StartStreaming, StartRecording;
  }

  lemma Activated(o: Output)
    requires o == Created("out", CAPTURED, false)
    ensures var o' := StartPipeline(o, LINKED.uplink, Fine(10000)); At(o', Activating, 10000, 1) && Current(o')
  {
    hide StartPipeline, Fine;
    CreatedIsSafe("out", CAPTURED, false);
    StartKeeps(o, LINKED.uplink, Fine(10000), "src");
    Starts(o);
    StartedIsAt(StartPipeline(o, LINKED.uplink, Fine(10000)));
  }

  lemma LeakActivates(w: World)
    requires w == LeakStart()
    ensures At(Tick(w, Fine(10000)).out, Activating, 10000, 1) && Current(Tick(w, Fine(10000)).out)
  {
    hide StartPipeline, At, Tick, Fine;
    Activated(w.out);
    AlwaysOn(10000);
    IdleTick(w, Fine(10000));
  }

  lemma LeakStreams(w: World)
    requires At(w.out, Activating, 10000, 1) && Current(w.out)
    ensures At(Tick(w, Fine(12000)).out, Active, 12000, 2)
    ensures Current(Tick(w, Fine(12000)).out)
  {
    TickKeeps(w, Fine(12000), "src");
  }

  lemma LeakChanges(w: World)
    requires At(w.out, Active, 12000, 2) && Current(w.out)
    ensures At(Tick(Update(w, CAPTURED), Fine(20000)).out, Changing, 12000, 2)
  {
    StepKeeps(w, SettingsUpdated(CAPTURED), "src");
    TickKeeps(Update(w, CAPTURED), Fine(20000), "src");
  }

  lemma LeakStops(w: World)
    requires At(w.out, Changing, 12000, 2)
    ensures Count(Stop(w).out.showing, "src") == 1
  {
    DestroyKeeps(w.out, Inactive, "src");
  }

  lemma RunMore(w: World, events: seq<Event>, e: Event, u: string)
    ensures Run(w, events + [e]) == Step(Run(w, events), e)
    ensures Lost(w, events + [e], u) == Lost(w, events, u) + LostBy(Run(w, events), e, u)
  {
    assert (events + [e])[..|events|] == events;
  }

  /** How the run goes. */
  lemma LeakPrefixes()
    ensures var w2 := Run(LeakStart(), LEAKING_RUN[..2]);
      && At(w2.out, Active, 12000, 2) && Current(w2.out)
      && Run(LeakStart(), LEAKING_RUN[..4]) == Step(Update(w2, CAPTURED), TimerTick(Fine(20000)))
      && Step(Update(w2, CAPTURED), TimerTick(Fine(20000))) == Tick(Update(w2, CAPTURED), Fine(20000))
      && At(Run(LeakStart(), LEAKING_RUN[..4]).out, Changing, 12000, 2)
    ensures Lost(LeakStart(), LEAKING_RUN[..4], "src") == 0
  {
    hide Tick, Run, Lost, Fine;
    var w0 := LeakStart();
    NothingHappened(w0, "src");
    RunMore(w0, [], TimerTick(Fine(10000)), "src");
    LeakActivates(w0);
    var r1 := [] + [TimerTick(Fine(10000))];
    RunMore(w0, r1, TimerTick(Fine(12000)), "src");
    LeakStreams(Run(w0, r1));
    var r2 := r1 + [TimerTick(Fine(12000))];
    RunMore(w0, r2, SettingsUpdated(CAPTURED), "src");
    LeakChanges(Run(w0, r2));
    var r3 := r2 + [SettingsUpdated(CAPTURED)];
    RunMore(w0, r3, TimerTick(Fine(20000)), "src");
    assert r2 == LEAKING_RUN[..2] && r3 + [TimerTick(Fine(20000))] == LEAKING_RUN[..4];
  }

  /** The loss happens: a new output with a visible source and a supported connection, five events, and one reference
      is never given back. */
  lemma ReferenceIsLost()
    ensures Count(Run(LeakStart(), LEAKING_RUN).out.showing, "src") == 1
    ensures Lost(LeakStart(), LEAKING_RUN, "src") == 1
  {
    hide Tick, Stop, Run, Lost, Fine;
    LeakPrefixes();
    RunMore(LeakStart(), LEAKING_RUN[..4], Stopped, "src");
    LeakStops(Run(LeakStart(), LEAKING_RUN[..4]));
    assert LEAKING_RUN[..4] + [Stopped] == LEAKING_RUN;
  }

  lemma NothingHappened(w: World, u: string)
    ensures Run(w, []) == w && Lost(w, [], u) == 0
  {
  }

  /** The system of one output. */
  function Alone(w: World): System { System(map[0 := w.out], w.client) }

  function Wrapped(events: seq<Event>): seq<SystemEvent> {
    seq(|events|, i requires 0 <= i < |events| => OutputEvent(0, events[i]))
  }

  lemma {:induction false} AloneRuns(w: World, events: seq<Event>)
    ensures SystemRun(Alone(w), Wrapped(events)) == Alone(Run(w, events))
    decreases |events|
  {
    hide Step;
    if events != [] {
      var before, last := events[..|events| - 1], events[|events| - 1];
      AloneRuns(w, before);
      assert Wrapped(events)[..|events| - 1] == Wrapped(before);
      var w' := Step(Run(w, before), last);
      assert map[0 := Run(w, before).out][0 := w'.out] == map[0 := w'.out];
    }
  }

  lemma AloneAtFirst()
    ensures var s := Alone(LeakStart()); AllSafe(s.outputs) && Counted(s) && s.client.uplink.Some? && Told(s)
  {
    CreatedIsSafe("out", CAPTURED, false);
    var s := Alone(LeakStart());
    assert Live(s.outputs) == {} && Waiting(s.outputs) == {};
  }

  /** While the only output is active, so is the uplink. */
  lemma AloneIsTold(events: seq<Event>)
    requires forall i :: 0 <= i < |events| ==> events[i].TimerTick?
    requires Run(LeakStart(), events).out.status == Active
    ensures Run(LeakStart(), events).client.uplinkStatus == UplinkActive
    ensures Run(LeakStart(), events).client.uplink.Some?
  {
    hide Run, SystemRun, Counted, AllSafe, StatusOf, Live;
    var w := Run(LeakStart(), events);
    AloneAtFirst();
    AloneRuns(LeakStart(), events);
    UplinkStatusIsTold(Alone(LeakStart()), Wrapped(events));
    assert Alone(w).outputs[0] == w.out;
    LiveOutput(Alone(w).outputs, 0);
    LiveMeansActive(Alone(w).outputs);
  }

  lemma TurnIsDue(w: World)
    requires At(w.out, Active, 12000, 2) && Current(w.out)
    ensures var o := Update(w, CAPTURED).out; Safe(o) && TurnsChanging(o, TimerTick(Fine(20000)))
  {
    StepKeeps(w, SettingsUpdated(CAPTURED), "src");
  }

  /** The tick that turns the only live output to CHANGING leaves the uplink active, though nothing is. */
  lemma StatusGoesStale()
    ensures var s := SystemRun(Alone(LeakStart()), Wrapped(LEAKING_RUN[..4]));
      Stale(s) && StatusOf(s.outputs) == UplinkInactive
  {
    hide Run, SystemRun, Tick, Fine, StatusOf, Live;
    var w0 := LeakStart();
    var r2, r4 := LEAKING_RUN[..2], LEAKING_RUN[..4];
    LeakPrefixes();
    AloneIsTold(r2);
    AloneRuns(w0, r4);
    var w, w' := Update(Run(w0, r2), CAPTURED), Run(w0, r4);
    TurnIsDue(Run(w0, r2));
    EventTells(w, TimerTick(Fine(20000)));
    OnlyChanging(w'.out);
  }

  lemma OnlyChanging(o: Output)
    requires o.status == Changing
    ensures Live(map[0 := o]) == {} && StatusOf(map[0 := o]) == UplinkInactive
    ensures exists id :: id in map[0 := o] && map[0 := o][id].status == Changing
  {
    assert 0 in map[0 := o];
  }
}
