/** The blocks of a buffer that only the audio thread reads: which of them are played, which a flush discards
    (src/sources/audio-capture.cpp, src/sources/ingress-link-source.cpp). */
module AudioBlocks {
  import opened Schema
  import opened AudioRecord
  import opened AudioHistory

  /** What the audio thread hands to the source output (`obs_source_audio`). */
  datatype SourceAudio = SourceAudio(
    planes: seq<seq<real>>,
    frames: nat,
    speakers: nat,
    format: nat,
    samplesPerSec: nat,
    timestamp: nat
  )

  /** The block as it was pushed, under the rate and the layout of the capture. */
  ghost predicate HandsOver(a: SourceAudio, d: AudioData, speakers: nat, samplesPerSec: nat)
    requires |d.planes| == MAX_AV_PLANES && speakers <= MAX_AV_PLANES
  {
    && a.timestamp == d.timestamp && a.frames == d.frames
    && a.speakers == speakers && a.samplesPerSec == samplesPerSec && a.format == AUDIO_FORMAT_FLOAT_PLANAR
    && |a.planes| == speakers
    && (d.frames > 0 ==> forall ch :: 0 <= ch < speakers ==> d.planes[ch] == Some(a.planes[ch]))
  }

  datatype Fate = PlayedBlock(block: AudioData) | FlushedBlock(block: AudioData)

  datatype BlockLog = BlockLog(pushed: seq<AudioData>, gone: seq<Fate>, waiting: seq<AudioData>)

  function FrameCount(blocks: seq<AudioData>): nat {
    if blocks == [] then 0 else blocks[0].frames + FrameCount(blocks[1..])
  }

  function Flush(blocks: seq<AudioData>): seq<Fate> {
    seq(|blocks|, i requires 0 <= i < |blocks| => FlushedBlock(blocks[i]))
  }

  /** A block arrives, and flushes the others if they would be too many frames with it; or, for `None`, the thread takes
      its turn, and plays the oldest block unless no frame is queued. */
  function BlockStep(log: BlockLog, turn: Option<AudioData>): BlockLog {
    if turn.Some? then
      var d := turn.value;
      if FrameCount(log.waiting) + d.frames > MAX_AUDIO_BUFFER_FRAMES
      then BlockLog(log.pushed + [d], log.gone + Flush(log.waiting), [d])
      else BlockLog(log.pushed + [d], log.gone, log.waiting + [d])
    else if FrameCount(log.waiting) == 0 then log
    else BlockLog(log.pushed, log.gone + [PlayedBlock(log.waiting[0])], log.waiting[1..])
  }

  function BlockRun(log: BlockLog, turns: seq<Option<AudioData>>): BlockLog
    decreases |turns|
  {
    if turns == [] then log else BlockStep(BlockRun(log, turns[..|turns| - 1]), turns[|turns| - 1])
  }

  function BlocksIn(gone: seq<Fate>): (blocks: seq<AudioData>)
    ensures |blocks| == |gone| && forall i :: 0 <= i < |gone| ==> blocks[i] == gone[i].block
  {
    seq(|gone|, i requires 0 <= i < |gone| => gone[i].block)
  }

  /** Those of the blocks that were played. */
  function PlayedIn(gone: seq<Fate>): seq<AudioData>
    decreases |gone|
  {
    if gone == [] then []
    else PlayedIn(gone[..|gone| - 1]) + if gone[|gone| - 1].PlayedBlock? then [gone[|gone| - 1].block] else []
  }

  /** The blocks of the turns, in order. */
  function Arrived(turns: seq<Option<AudioData>>): seq<AudioData>
    decreases |turns|
  {
    if turns == [] then []
    else Arrived(turns[..|turns| - 1]) + if turns[|turns| - 1].Some? then [turns[|turns| - 1].value] else []
  }

  /** Every block pushed was played or flushed, or waits: once each, and in order. */
  ghost predicate Accounts(log: BlockLog) { BlocksIn(log.gone) + log.waiting == log.pushed }

  lemma BlockStepAccounts(log: BlockLog, turn: Option<AudioData>)
    requires Accounts(log)
    ensures Accounts(BlockStep(log, turn))
  {
  }

  lemma {:induction false} BlockRunAccounts(log: BlockLog, turns: seq<Option<AudioData>>)
    requires Accounts(log)
    ensures Accounts(BlockRun(log, turns)) && BlockRun(log, turns).pushed == log.pushed + Arrived(turns)
    decreases |turns|
  {
    hide Accounts;
    if turns != [] {
      BlockRunAccounts(log, turns[..|turns| - 1]);
      BlockStepAccounts(BlockRun(log, turns[..|turns| - 1]), turns[|turns| - 1]);
    }
  }

  lemma {:induction false} FlushPlaysNothing(gone: seq<Fate>, blocks: seq<AudioData>)
    ensures PlayedIn(gone + Flush(blocks)) == PlayedIn(gone)
  {
    if blocks == [] {
      assert gone + Flush(blocks) == gone;
    } else {
      var front := blocks[..|blocks| - 1];
      assert (gone + Flush(blocks))[..|gone| + |front|] == gone + Flush(front);
      FlushPlaysNothing(gone, front);
    }
  }

  lemma PlayOne(gone: seq<Fate>, d: AudioData)
    ensures PlayedIn(gone + [PlayedBlock(d)]) == PlayedIn(gone) + [d]
  {
    assert (gone + [PlayedBlock(d)])[..|gone|] == gone;
  }

  lemma StepPlays(log: BlockLog, turn: Option<AudioData>)
    ensures PlayedIn(BlockStep(log, turn).gone) == PlayedIn(log.gone)
      + if turn.None? && FrameCount(log.waiting) > 0 then [log.waiting[0]] else []
  {
    hide PlayedIn;
    FlushPlaysNothing(log.gone, log.waiting);
    if turn.None? && FrameCount(log.waiting) > 0 {
      PlayOne(log.gone, log.waiting[0]);
    }
  }

  // ---- the records of the blocks ----

  /** The record of a block, not yet read. */
  ghost predicate IsBlock(c: Chunk, d: AudioData, speakers: nat, samplesPerSec: nat) {
    && |d.planes| == MAX_AV_PLANES && speakers <= MAX_AV_PLANES
    && (d.frames > 0 ==> forall ch :: 0 <= ch < speakers ==> d.planes[ch].Some? && |d.planes[ch].value| == d.frames)
    && c.header.timestamp == d.timestamp && c.header.frames == d.frames && c.header.offset == 0
    && c.header.speakers == speakers && c.header.samplesPerSec == samplesPerSec
    && c.header.format == AUDIO_FORMAT_FLOAT_PLANAR
    && FramesOf(c) == DataFrames(d, speakers)
  }

  ghost predicate AreBlocks(chunks: seq<Chunk>, blocks: seq<AudioData>, speakers: nat, samplesPerSec: nat) {
    |chunks| == |blocks| && forall i :: 0 <= i < |chunks| ==> IsBlock(chunks[i], blocks[i], speakers, samplesPerSec)
  }

  lemma {:induction false} BlocksCount(chunks: seq<Chunk>, blocks: seq<AudioData>, speakers: nat, samplesPerSec: nat)
    requires AreBlocks(chunks, blocks, speakers, samplesPerSec)
    ensures |Stream(chunks)| == FrameCount(blocks)
  {
    if chunks != [] {
      assert IsBlock(chunks[0], blocks[0], speakers, samplesPerSec);
      BlocksCount(chunks[1..], blocks[1..], speakers, samplesPerSec);
    }
  }

  /** The record of a complete block says everything that is known of the block. */
  lemma RecordIsBlock(d: AudioData, speakers: nat, samplesPerSec: nat)
    requires Sound(d) && speakers <= MAX_AV_PLANES && samplesPerSec < UINT32 && Complete(d, speakers)
    ensures IsBlock(RecordFor(d, speakers, samplesPerSec), d, speakers, samplesPerSec)
  {
    RecordRoundTrip(d, speakers, samplesPerSec);
  }

  /** What is read from the header and the planes of a record. */
  ghost predicate ReadFrom(a: SourceAudio, c: Chunk) {
    && a.timestamp == c.header.timestamp && a.frames == c.header.frames && a.speakers == c.header.speakers
    && a.format == c.header.format && a.samplesPerSec == c.header.samplesPerSec
    && |a.planes| == c.header.speakers
    && (forall ch :: 0 <= ch < |a.planes| ==> |a.planes[ch]| == a.frames)
    && (forall ch, i :: 0 <= ch < |a.planes| && 0 <= i < |FramesOf(c)| ==>
          i < |a.planes[ch]| && ch < |FramesOf(c)[i]| && a.planes[ch][i] == FramesOf(c)[i][ch])
  }

  /** What is read from the record of a block is the block. */
  lemma ReadIsHandedOver(a: SourceAudio, c: Chunk, d: AudioData, speakers: nat, samplesPerSec: nat)
    requires IsBlock(c, d, speakers, samplesPerSec) && ReadFrom(a, c)
    ensures HandsOver(a, d, speakers, samplesPerSec)
  {
    if d.frames > 0 {
      forall ch | 0 <= ch < speakers ensures d.planes[ch] == Some(a.planes[ch]) {
        forall i | 0 <= i < d.frames ensures a.planes[ch][i] == d.planes[ch].value[i] {
          assert a.planes[ch][i] == FramesOf(c)[i][ch] == DataFrame(d, speakers, i)[ch];
        }
        assert a.planes[ch] == d.planes[ch].value;
      }
    }
  }
}
