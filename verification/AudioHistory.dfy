/** The log that the audio buffer keeps of its frames, and what whole runs of pushes, pops and turns of the audio
    thread do with every frame. */
module AudioHistory {
  import opened AudioRecord

  const MAX_AUDIO_BUFFER_FRAMES: nat := 131071
  const AUDIO_OUTPUT_FRAMES: nat := 1024

  predicate Overflows(stream: seq<Frame>, frames: seq<Frame>) {
    |stream| + |frames| > MAX_AUDIO_BUFFER_FRAMES
  }

  /** An overflowing push flushes the queue first. */
  function AfterPush(stream: seq<Frame>, frames: seq<Frame>): seq<Frame> {
    (if Overflows(stream, frames) then [] else stream) + frames
  }

  /** The block that one pop takes: all of it or nothing. */
  function Block(stream: seq<Frame>): seq<Frame> {
    if |stream| < AUDIO_OUTPUT_FRAMES then [] else stream[..AUDIO_OUTPUT_FRAMES]
  }

  /** A push, a pop of the mixer, or a turn of the audio thread that plays the oldest `count` frames. */
  datatype AudioEvent = Push(frames: seq<Frame>) | Pop | Play(count: nat)

  /** How a frame left the queue. */
  datatype Departure = Delivered(frame: Frame) | Played(frame: Frame) | Discarded(frame: Frame)

  datatype History = History(pushed: seq<Frame>, departed: seq<Departure>, buffered: seq<Frame>)

  function Deliver(frames: seq<Frame>): seq<Departure> {
    seq(|frames|, i requires 0 <= i < |frames| => Delivered(frames[i]))
  }

  function Hand(frames: seq<Frame>): seq<Departure> {
    seq(|frames|, i requires 0 <= i < |frames| => Played(frames[i]))
  }

  function Discard(frames: seq<Frame>): seq<Departure> {
    seq(|frames|, i requires 0 <= i < |frames| => Discarded(frames[i]))
  }

  function FramesIn(departed: seq<Departure>): (frames: seq<Frame>)
    ensures |frames| == |departed|
    ensures forall i :: 0 <= i < |departed| ==> frames[i] == departed[i].frame
  {
    seq(|departed|, i requires 0 <= i < |departed| => departed[i].frame)
  }

  function AudioStep(h: History, e: AudioEvent): History {
    match e
    case Push(frames) =>
      History(h.pushed + frames,
              h.departed + (if Overflows(h.buffered, frames) then Discard(h.buffered) else []),
              AfterPush(h.buffered, frames))
    case Pop =>
      var block := Block(h.buffered);
      History(h.pushed, h.departed + Deliver(block), h.buffered[|block|..])
    case Play(count) =>
      var n := if count <= |h.buffered| then count else |h.buffered|;
      History(h.pushed, h.departed + Hand(h.buffered[..n]), h.buffered[n..])
  }

  function AudioRun(h: History, events: seq<AudioEvent>): History
    decreases |events|
  {
    if events == [] then h else AudioStep(AudioRun(h, events[..|events| - 1]), events[|events| - 1])
  }

  function DeliveredCount(departed: seq<Departure>): nat {
    if departed == [] then 0
    else DeliveredCount(departed[..|departed| - 1]) + if departed[|departed| - 1].Delivered? then 1 else 0
  }

  lemma {:induction false} DeliveredCountAdds(a: seq<Departure>, b: seq<Departure>)
    ensures DeliveredCount(a + b) == DeliveredCount(a) + DeliveredCount(b)
  {
    if b == [] {
      assert a + b == a;
    } else {
      assert (a + b)[..|a + b| - 1] == a + b[..|b| - 1];
      DeliveredCountAdds(a, b[..|b| - 1]);
    }
  }

  lemma {:induction false} DeliverCounts(frames: seq<Frame>)
    ensures DeliveredCount(Deliver(frames)) == |frames|
    ensures DeliveredCount(Hand(frames)) == 0 && DeliveredCount(Discard(frames)) == 0
  {
    if frames != [] {
      assert Deliver(frames)[..|frames| - 1] == Deliver(frames[..|frames| - 1]);
      assert Hand(frames)[..|frames| - 1] == Hand(frames[..|frames| - 1]);
      assert Discard(frames)[..|frames| - 1] == Discard(frames[..|frames| - 1]);
      DeliverCounts(frames[..|frames| - 1]);
    }
  }

  /** The departed frames followed by the buffered ones are the pushed ones. */
  ghost predicate Accounted(h: History) { FramesIn(h.departed) + h.buffered == h.pushed }

  lemma StepAccounts(h: History, e: AudioEvent)
    requires Accounted(h)
    ensures Accounted(AudioStep(h, e))
  {
  }

  /** The delivered frames make up whole blocks. */
  ghost predicate WholeBlocks(h: History) { DeliveredCount(h.departed) % AUDIO_OUTPUT_FRAMES == 0 }

  lemma DepartureCounts(departed: seq<Departure>, frames: seq<Frame>)
    ensures DeliveredCount(departed + Deliver(frames)) == DeliveredCount(departed) + |frames|
    ensures DeliveredCount(departed + Hand(frames)) == DeliveredCount(departed)
    ensures DeliveredCount(departed + Discard(frames)) == DeliveredCount(departed)
  {
    DeliverCounts(frames);
    DeliveredCountAdds(departed, Deliver(frames));
    DeliveredCountAdds(departed, Hand(frames));
    DeliveredCountAdds(departed, Discard(frames));
  }

  lemma StepDeliversBlocks(h: History, e: AudioEvent)
    requires WholeBlocks(h)
    ensures WholeBlocks(AudioStep(h, e))
  {
    hide DeliveredCount, Deliver, Hand, Discard;
    match e
    case Push(frames) =>
      DepartureCounts(h.departed, h.buffered);
      assert h.departed + [] == h.departed;
    case Pop =>
      DepartureCounts(h.departed, Block(h.buffered));
    case Play(count) =>
      DepartureCounts(h.departed, h.buffered[..if count <= |h.buffered| then count else |h.buffered|]);
  }

  const START := History([], [], [])

  /** The log of a buffer that holds `stream`. */
  ghost predicate Logged(h: History, stream: seq<Frame>) {
    h.buffered == stream && Accounted(h) && WholeBlocks(h)
  }

  lemma StepLogs(h: History, stream: seq<Frame>, e: AudioEvent)
    requires Logged(h, stream)
    ensures Logged(AudioStep(h, e), AudioStep(h, e).buffered)
  {
    StepAccounts(h, e);
    StepDeliversBlocks(h, e);
  }

  lemma RunMore(h: History, events: seq<AudioEvent>, e: AudioEvent)
    ensures AudioRun(h, events + [e]) == AudioStep(AudioRun(h, events), e)
  {
    assert (events + [e])[..|events|] == events;
  }

  /** Every pushed frame is delivered, played, discarded by a flush, or still buffered: once each, and in push order. */
  lemma {:induction false} EveryFrameAccounted(events: seq<AudioEvent>)
    ensures Accounted(AudioRun(START, events))
    decreases |events|
  {
    if events != [] {
      EveryFrameAccounted(events[..|events| - 1]);
      StepAccounts(AudioRun(START, events[..|events| - 1]), events[|events| - 1]);
    }
  }

  lemma {:induction false} DeliveriesAreBlocks(events: seq<AudioEvent>)
    ensures WholeBlocks(AudioRun(START, events))
    decreases |events|
  {
    if events != [] {
      DeliveriesAreBlocks(events[..|events| - 1]);
      StepDeliversBlocks(AudioRun(START, events[..|events| - 1]), events[|events| - 1]);
    }
  }

  /** While every push is within the bound, so is the buffer. */
  lemma {:induction false} BufferStaysBounded(h: History, events: seq<AudioEvent>)
    requires |h.buffered| <= MAX_AUDIO_BUFFER_FRAMES
    requires forall i :: 0 <= i < |events| && events[i].Push? ==> |events[i].frames| <= MAX_AUDIO_BUFFER_FRAMES
    ensures |AudioRun(h, events).buffered| <= MAX_AUDIO_BUFFER_FRAMES
    decreases |events|
  {
    if events != [] {
      BufferStaysBounded(h, events[..|events| - 1]);
    }
  }
}
