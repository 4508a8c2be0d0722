/** The audio buffer object, its producer and its two consumers (src/sources/audio-capture.cpp,
    src/outputs/audio-source.cpp, src/sources/ingress-link-source.cpp). */
module AudioCapture {
  import opened Schema
  import opened AudioRecord
  import opened AudioHistory
  import opened AudioBlocks

  const MAX_AUDIO_MIXES: nat := 6

  function Clamp(x: real): (y: real)
    ensures -1.0 <= y <= 1.0
    ensures -1.0 <= x <= 1.0 ==> y == x
  {
    if x > 1.0 then 1.0 else if x < -1.0 then -1.0 else x
  }

  function Distance(x: real, y: real): real { if x < y then y - x else x - y }

  /** The sample of [-1, 1] that is nearest to `sum`. */
  ghost predicate Nearest(sample: real, sum: real) {
    -1.0 <= sample <= 1.0 && forall y :: -1.0 <= y <= 1.0 ==> Distance(sample, sum) <= Distance(y, sum)
  }

  /** Sample `j` of channel `c` after `frames` have been mixed in; what they do not cover stays. */
  function Mixed(before: real, selected: bool, frames: seq<Frame>, j: int, c: int): real {
    if selected && 0 <= j < |frames| && 0 <= c < |frames[j]| then Clamp(before + frames[j][c]) else before
  }

  lemma MixedIsNearest(before: real, selected: bool, frames: seq<Frame>, j: int, c: int)
    ensures if selected && 0 <= j < |frames| && 0 <= c < |frames[j]|
      then Nearest(Mixed(before, selected, frames, j, c), before + frames[j][c])
      else Mixed(before, selected, frames, j, c) == before
  {
  }

  /** A cell read as a float. */
  function AsFloat(c: Cell): real { if c.Sample? then c.value else 0.0 }

  /** Add `n` samples to one channel of one mix, in place. */
  method MixPlane(out: array3<real>, tr: nat, ch: nat, outOffset: nat, input: array<Cell>, at: nat, n: nat)
    requires tr < out.Length0 && ch < out.Length1 && outOffset + n <= out.Length2
    requires at + n <= input.Length
    modifies out
    ensures forall t, c, j :: 0 <= t < out.Length0 && 0 <= c < out.Length1 && 0 <= j < out.Length2 ==>
      out[t, c, j] ==
        if t == tr && c == ch && outOffset <= j < outOffset + n
        then Clamp(old(out[t, c, j]) + AsFloat(old(input[at + (j - outOffset)])))
        else old(out[t, c, j])
  {
    for i := 0 to n
      invariant forall t, c, j :: 0 <= t < out.Length0 && 0 <= c < out.Length1 && 0 <= j < out.Length2 ==>
        out[t, c, j] ==
          if t == tr && c == ch && outOffset <= j < outOffset + i
          then Clamp(old(out[t, c, j]) + AsFloat(old(input[at + (j - outOffset)])))
          else old(out[t, c, j])
    {
      var j := outOffset + i;
      out[tr, ch, j] := out[tr, ch, j] + AsFloat(input[at + i]);
      if out[tr, ch, j] > 1.0 {
        out[tr, ch, j] := 1.0;
      } else if out[tr, ch, j] < -1.0 {
        out[tr, ch, j] := -1.0;
      }
    }
  }

  /** The cells hold `block`, where the header says. */
  ghost predicate HoldsBlock(input: seq<Cell>, h: Header, block: seq<Frame>) {
    && |h.dataIdx| == MAX_AV_PLANES && h.speakers <= MAX_AV_PLANES
    && (forall i :: 0 <= i < |block| ==> |block[i]| == h.speakers)
    && (|block| > 0 ==> forall ch :: 0 <= ch < h.speakers ==>
          h.dataIdx[ch] != 0 && h.dataIdx[ch] / CELL_BYTES + h.offset + |block| <= |input|)
    && (forall ch, i :: 0 <= ch < h.speakers && 0 <= i < |block| ==>
          AsFloat(input[h.dataIdx[ch] / CELL_BYTES + (h.offset + i)]) == block[i][ch])
  }

  /** Add a block to every selected mix, in place. */
  method MixBlock(out: array3<real>, mixers: set<nat>, outOffset: nat, input: array<Cell>, h: Header,
                  ghost block: seq<Frame>, n: nat)
    requires out.Length0 == MAX_AUDIO_MIXES && out.Length1 == MAX_AV_PLANES
    requires n == |block| && outOffset + n <= out.Length2
    requires HoldsBlock(input[..], h, block)
    modifies out
    ensures forall t, c, j :: 0 <= t < out.Length0 && 0 <= c < out.Length1 && 0 <= j < out.Length2 ==>
      out[t, c, j] == Mixed(old(out[t, c, j]), t in mixers, block, j - outOffset, c)
    ensures forall t, c, j :: 0 <= t < out.Length0 && 0 <= c < out.Length1 && 0 <= j < out.Length2 ==>
      if t in mixers && outOffset <= j < outOffset + n && c < h.speakers
      then Nearest(out[t, c, j], old(out[t, c, j]) + block[j - outOffset][c]) else out[t, c, j] == old(out[t, c, j])
  {
    for tr := 0 to MAX_AUDIO_MIXES
      invariant forall t, c, j :: 0 <= t < out.Length0 && 0 <= c < out.Length1 && 0 <= j < out.Length2 ==>
        out[t, c, j] == Mixed(old(out[t, c, j]), t < tr && t in mixers, block, j - outOffset, c)
    {
      if tr !in mixers {
        continue;
      }
      for ch := 0 to h.speakers
        invariant forall t, c, j :: 0 <= t < out.Length0 && 0 <= c < out.Length1 && 0 <= j < out.Length2 ==>
          out[t, c, j] ==
            Mixed(old(out[t, c, j]), (t < tr || (t == tr && c < ch)) && t in mixers, block, j - outOffset, c)
      {
        if h.dataIdx[ch] == 0 || n == 0 {
          continue;
        }
        MixPlane(out, tr, ch, outOffset, input, h.dataIdx[ch] / CELL_BYTES + h.offset, n);
      }
    }
    forall t, c, j | 0 <= t < out.Length0 && 0 <= c < out.Length1 && 0 <= j < out.Length2
      ensures if t in mixers && outOffset <= j < outOffset + n && c < h.speakers
        then Nearest(out[t, c, j], old(out[t, c, j]) + block[j - outOffset][c]) else out[t, c, j] == old(out[t, c, j])
    {
      MixedIsNearest(old(out[t, c, j]), t in mixers, block, j - outOffset, c);
    }
  }

  /** Mix the first `frames` frames of the peeked block, the front of the queue, into the part of the output that
      is still open: its last `maxFrames` columns. */
  method MixFront(out: array3<real>, mixers: set<nat>, maxFrames: nat, input: array<Cell>, h: Header, frames: nat,
                  ghost block: seq<Frame>, ghost queued: seq<Frame>)
    requires out.Length0 == MAX_AUDIO_MIXES && out.Length1 == MAX_AV_PLANES && out.Length2 == AUDIO_OUTPUT_FRAMES
    requires frames <= maxFrames <= AUDIO_OUTPUT_FRAMES && frames <= |block|
    requires HoldsBlock(input[..], h, block)
    requires |block| <= |queued| && block == queued[..|block|]
    modifies out
    ensures forall t, c, j :: 0 <= t < MAX_AUDIO_MIXES && 0 <= c < MAX_AV_PLANES && 0 <= j < AUDIO_OUTPUT_FRAMES ==>
      out[t, c, j] ==
        if 0 <= j - (AUDIO_OUTPUT_FRAMES - maxFrames) < frames
        then Mixed(old(out[t, c, j]), t in mixers, queued, j - (AUDIO_OUTPUT_FRAMES - maxFrames), c)
        else old(out[t, c, j])
  {
    HoldsPrefix(input[..], h, block, frames);
    MixBlock(out, mixers, AUDIO_OUTPUT_FRAMES - maxFrames, input, h, block[..frames], frames);
  }

  lemma HoldsPrefix(input: seq<Cell>, h: Header, block: seq<Frame>, n: nat)
    requires HoldsBlock(input, h, block) && n <= |block|
    ensures HoldsBlock(input, h, block[..n])
  {
  }

  /** The cells are a concatenation of well-formed records that fit the scratch buffer, only the oldest of them
      partly consumed, and the count is that of their unconsumed frames. */
  ghost predicate Consistent(chunks: seq<Chunk>, cells: seq<Cell>, frames: nat, scratch: nat, speakers: nat) {
    && AllGood(chunks, scratch, speakers)
    && cells == AllCells(chunks)
    && frames == |Stream(chunks)|
  }

  ghost predicate AllGood(chunks: seq<Chunk>, scratch: nat, speakers: nat) {
    && (forall i :: 0 <= i < |chunks| ==> Good(chunks[i], scratch, speakers))
    && (forall i :: 1 <= i < |chunks| ==> chunks[i].header.offset == 0)
  }

  lemma NothingIsConsistent(scratch: nat, speakers: nat)
    ensures Consistent([], [], 0, scratch, speakers)
  {
  }

  /** A fresh record behind well-formed ones. */
  lemma QueueRecord(kept: seq<Chunk>, cells: seq<Cell>, frames: nat, scratch: nat, speakers: nat, record: Chunk,
                    scratch': nat)
    requires Consistent(kept, cells, frames, scratch, speakers)
    requires WellFormed(record) && record.header.offset == 0 && record.header.speakers == speakers
    requires scratch <= scratch' && DeclaredCells(record.header) <= scratch'
    ensures Consistent(kept + [record], cells + Cells(record), frames + record.header.frames, scratch', speakers)
    ensures Stream(kept + [record]) == Stream(kept) + FramesOf(record)
  {
    DeclaredIsActual(record);
    AppendCells(kept, record);
    AppendStream(kept, record);
  }

  lemma HeadIsThere(chunks: seq<Chunk>, cells: seq<Cell>, frames: nat, scratch: nat, speakers: nat)
    requires Consistent(chunks, cells, frames, scratch, speakers) && frames > 0
    ensures chunks != []
  {
  }

  /** The front of the deque is the oldest record, and its size is what its header declares. */
  lemma HeadDecodes(chunks: seq<Chunk>, cells: seq<Cell>, frames: nat, scratch: nat, speakers: nat)
    requires Consistent(chunks, cells, frames, scratch, speakers) && chunks != []
    ensures var n := DeclaredCells(chunks[0].header);
      && HEADER_CELLS <= n <= |cells| && n <= scratch
      && cells[..n] == Cells(chunks[0]) && n == |Cells(chunks[0])|
      && WellFormed(chunks[0])
      && chunks[0].header.offset <= chunks[0].header.frames && chunks[0].header.speakers == speakers
      && DecodeHeader(cells[..HEADER_CELLS]) == chunks[0].header
      && |FramesOf(chunks[0])| <= |Stream(chunks)|
      && FramesOf(chunks[0]) == Stream(chunks)[..|FramesOf(chunks[0])|]
  {
    assert Good(chunks[0], scratch, speakers);
    DeclaredIsActual(chunks[0]);
    HeaderRoundTrip(chunks[0].header, []);
    assert cells[..HEADER_CELLS] == EncodeHeader(chunks[0].header) + [];
  }

  lemma DropHead(chunks: seq<Chunk>, cells: seq<Cell>, frames: nat, scratch: nat, speakers: nat)
    requires Consistent(chunks, cells, frames, scratch, speakers) && chunks != []
    ensures var n := |FramesOf(chunks[0])|;
      && n <= frames && DeclaredCells(chunks[0].header) <= |cells|
      && Consistent(chunks[1..], cells[DeclaredCells(chunks[0].header)..], frames - n, scratch, speakers)
      && Stream(chunks[1..]) == Stream(chunks)[n..]
  {
    assert Good(chunks[0], scratch, speakers);
    DeclaredIsActual(chunks[0]);
    assert cells[|Cells(chunks[0])|..] == AllCells(chunks[1..]);
  }

  /** The records after `n` more frames of the oldest have been consumed. */
  function Advanced(chunks: seq<Chunk>, n: nat): seq<Chunk>
    requires chunks != []
  {
    [WithOffset(chunks[0], chunks[0].header.offset + n)] + chunks[1..]
  }

  lemma DropFromFirst(first: seq<Frame>, rest: seq<Frame>, n: nat)
    requires n <= |first|
    ensures (first + rest)[n..] == first[n..] + rest
  {
  }

  lemma AdvancedStream(chunks: seq<Chunk>, n: nat)
    requires chunks != [] && WellFormed(chunks[0]) && n <= |FramesOf(chunks[0])|
    ensures n <= |Stream(chunks)| && Stream(Advanced(chunks, n)) == Stream(chunks)[n..]
  {
    hide WellFormed, FramesOf;
    FramesAfterOffset(chunks[0], n);
    DropFromFirst(FramesOf(chunks[0]), Stream(chunks[1..]), n);
    StreamOf(WithOffset(chunks[0], chunks[0].header.offset + n), chunks[1..]);
  }

  lemma ReplaceFront(front: seq<Cell>, front': seq<Cell>, body: seq<Cell>, rest: seq<Cell>)
    ensures (front' + body) + rest == front' + ((front + body) + rest)[|front|..]
  {
  }

  lemma AdvancedCells(chunks: seq<Chunk>, n: nat)
    requires chunks != [] && |chunks[0].header.dataIdx| == MAX_AV_PLANES
    ensures HEADER_CELLS <= |AllCells(chunks)|
    ensures AllCells(Advanced(chunks, n)) == EncodeHeader(Advanced(chunks, n)[0].header) + AllCells(chunks)[HEADER_CELLS..]
  {
    assert Advanced(chunks, n)[1..] == chunks[1..];
    ReplaceFront(EncodeHeader(chunks[0].header), EncodeHeader(Advanced(chunks, n)[0].header),
                 SampleCells(Concat(chunks[0].planes)), AllCells(chunks[1..]));
  }

  lemma HeadIsGood(chunks: seq<Chunk>, scratch: nat, speakers: nat)
    requires AllGood(chunks, scratch, speakers) && chunks != []
    ensures Good(chunks[0], scratch, speakers) && WellFormed(chunks[0]) && |chunks[0].header.dataIdx| == MAX_AV_PLANES
  {
  }

  lemma AdvancedAreGood(chunks: seq<Chunk>, n: nat, scratch: nat, speakers: nat)
    requires AllGood(chunks, scratch, speakers) && chunks != [] && n <= |FramesOf(chunks[0])|
    ensures AllGood(Advanced(chunks, n), scratch, speakers)
  {
  }

  lemma AdvanceHead(chunks: seq<Chunk>, cells: seq<Cell>, frames: nat, scratch: nat, speakers: nat, n: nat)
    requires Consistent(chunks, cells, frames, scratch, speakers) && chunks != []
    requires n <= |FramesOf(chunks[0])|
    ensures n <= frames && HEADER_CELLS <= |cells|
    ensures |chunks[0].header.dataIdx| == MAX_AV_PLANES
    ensures Consistent(Advanced(chunks, n), EncodeHeader(Advanced(chunks, n)[0].header) + cells[HEADER_CELLS..],
                       frames - n, scratch, speakers)
    ensures Stream(Advanced(chunks, n)) == Stream(chunks)[n..]
  {
    hide WellFormed, EncodeHeader, FramesOf, Stream, AllCells;
    HeadIsGood(chunks, scratch, speakers);
    AdvancedAreGood(chunks, n, scratch, speakers);
    AdvancedStream(chunks, n);
    AdvancedCells(chunks, n);
  }

  /** Where a record's sample lies. */
  lemma SampleIsThere(c: Chunk, ch: nat, i: nat)
    requires WellFormed(c) && ch < c.header.speakers && i < c.header.frames
    ensures c.header.dataIdx[ch] >= HEADER_BYTES
    ensures c.header.dataIdx[ch] / CELL_BYTES + i < |Cells(c)|
    ensures AsFloat(Cells(c)[c.header.dataIdx[ch] / CELL_BYTES + i]) == c.planes[ch][i]
  {
    ConcatAt(c.planes, ch, i);
    assert c.header.dataIdx[ch] / CELL_BYTES == HEADER_CELLS + Before(c.planes, ch);
    assert Cells(c)[HEADER_CELLS + (Before(c.planes, ch) + i)]
        == SampleCells(Concat(c.planes))[Before(c.planes, ch) + i];
  }

  /** A copied record holds its unconsumed frames where its header says. */
  lemma RecordHoldsFrames(input: seq<Cell>, c: Chunk)
    requires WellFormed(c) && |Cells(c)| <= |input| && input[..|Cells(c)|] == Cells(c)
    ensures HoldsBlock(input, c.header, FramesOf(c))
  {
    var h, n := c.header, |FramesOf(c)|;
    forall ch, i | 0 <= ch < h.speakers && 0 <= i < n
      ensures h.dataIdx[ch] >= HEADER_BYTES
      ensures h.dataIdx[ch] / CELL_BYTES + (h.offset + i) < |input|
      ensures AsFloat(input[h.dataIdx[ch] / CELL_BYTES + (h.offset + i)]) == FramesOf(c)[i][ch]
    {
      SampleIsThere(c, ch, h.offset + i);
      var at := h.dataIdx[ch] / CELL_BYTES + (h.offset + i);
      assert input[at] == input[..|Cells(c)|][at];
    }
    if n > 0 {
      forall ch | 0 <= ch < h.speakers
        ensures h.dataIdx[ch] != 0 && h.dataIdx[ch] / CELL_BYTES + h.offset + n <= |input|
      {
        SampleIsThere(c, ch, h.offset + n - 1);
      }
    }
  }

  class SourceAudioCapture {
    const speakers: nat
    const samplesPerSec: nat
    var audioBuffer: seq<Cell>         // the deque
    var audioBufferFrames: nat
    var audioConvBuffer: array<Cell>   // scratch space for one record
    var active: bool
    ghost var chunks: seq<Chunk>       // the records that `audioBuffer` spells out
    ghost var history: History         // what became of every frame pushed

    constructor (samplesPerSec: nat, speakers: nat)
      requires speakers <= MAX_AV_PLANES && samplesPerSec < UINT32
      ensures Valid() && Unread() && Frames() == [] && history == START && !active
      ensures this.speakers == speakers && fresh(audioConvBuffer)
    {
      this.samplesPerSec, this.speakers := samplesPerSec, speakers;
      audioBuffer, audioBufferFrames, chunks := [], 0, [];
      audioConvBuffer := new Cell[0];
      active := false;
      history := START;
    }

    /** The buffer is well framed, and its log accounts for every frame that was pushed. */
    ghost predicate Valid()
      reads this
    {
      Framed() && Logged(history, Frames())
    }

    /** The deque is a concatenation of well-formed records, the counter counts their unconsumed frames,
        and every record fits the scratch buffer. */
    ghost predicate Framed()
      reads this
    {
      && speakers <= MAX_AV_PLANES && samplesPerSec < UINT32
      && Consistent(chunks, audioBuffer, audioBufferFrames, audioConvBuffer.Length, speakers)
    }

    /** The unconsumed frames, oldest first. */
    ghost function Frames(): seq<Frame>
      requires Framed()
      reads this
    {
      Stream(chunks)
    }

    /** Append one block.  A block with all its planes keeps the buffer valid, queues its frames and logs them; for any
        block the deque grows by exactly the header and the planes that are there. */
    method PushAudio(data: AudioData)
      requires Valid() && Sound(data)
      modifies this
      ensures active == old(active)
      ensures !active ==> unchanged(this)
      ensures var flush := old(audioBufferFrames) + data.frames > MAX_AUDIO_BUFFER_FRAMES;
        active ==>
          && audioBuffer == (if flush then [] else old(audioBuffer)) + Cells(RecordFor(data, speakers, samplesPerSec))
          && audioBufferFrames == (if flush then 0 else old(audioBufferFrames)) + data.frames
      ensures active && Complete(data, speakers) ==> Valid()
      ensures active && Complete(data, speakers) ==> Frames() == AfterPush(old(Frames()), DataFrames(data, speakers))
      ensures active && Complete(data, speakers) ==>
        history == AudioStep(old(history), Push(DataFrames(data, speakers)))
      ensures active && Complete(data, speakers) ==>
        && chunks != []
        && chunks[..|chunks| - 1] == (if old(audioBufferFrames) + data.frames > MAX_AUDIO_BUFFER_FRAMES then [] else old(chunks))
        && IsBlock(chunks[|chunks| - 1], data, speakers, samplesPerSec)
      ensures old(Unread()) ==> Unread()
      ensures audioConvBuffer == old(audioConvBuffer) || fresh(audioConvBuffer)
    {
      hide WellFormed, DeclaredCells, IndexOfPlane, PresentPlanes, Cells, FramesOf, DataFrames, AllCells, Stream;
      hide Accounted, WholeBlocks;
      if !active {
        return;
      }
      if audioBufferFrames + data.frames > MAX_AUDIO_BUFFER_FRAMES {
        audioBuffer := [];
        chunks := [];
        audioBufferFrames := 0;
        NothingIsConsistent(audioConvBuffer.Length, speakers);
      }
      ghost var cells, frames, scratch := audioBuffer, audioBufferFrames, audioConvBuffer.Length;
      AppendRecord(data);
      if Complete(data, speakers) {
        ghost var record := RecordFor(data, speakers, samplesPerSec);
        RecordRoundTrip(data, speakers, samplesPerSec);
        RecordIsBlock(data, speakers, samplesPerSec);
        QueueRecord(chunks, cells, frames, scratch, speakers, record, audioConvBuffer.Length);
        chunks := chunks + [record];
        StepLogs(history, old(Frames()), Push(DataFrames(data, speakers)));
        history := AudioStep(history, Push(DataFrames(data, speakers)));
      }
    }

    /** Everything a push does after the overflow check. */
    method AppendRecord(data: AudioData)
      requires Sound(data) && speakers <= MAX_AV_PLANES
      modifies this`audioBuffer, this`audioConvBuffer, this`audioBufferFrames
      ensures var record := RecordFor(data, speakers, samplesPerSec);
        && audioBuffer == old(audioBuffer) + Cells(record)
        && audioConvBuffer.Length >= old(audioConvBuffer.Length)
        && audioConvBuffer.Length >= DeclaredCells(record.header)
      ensures audioBufferFrames == old(audioBufferFrames) + data.frames
      ensures audioConvBuffer == old(audioConvBuffer) || fresh(audioConvBuffer)
    {
      var header := ComputeHeader(data);
      audioBuffer := audioBuffer + EncodeHeader(header);
      PushPlanes(data.planes);
      ExpandConvBuffer(DeclaredCells(header));
      audioBufferFrames := audioBufferFrames + data.frames;
    }

    method ComputeHeader(data: AudioData) returns (header: Header)
      requires Sound(data) && speakers <= MAX_AV_PLANES
      ensures header == HeaderFor(data, speakers, samplesPerSec)
    {
      var dataIdx: seq<nat> := seq(MAX_AV_PLANES, _ => 0);
      var channels := 0;
      for i := 0 to speakers
        invariant channels == Present(data.planes, i)
        invariant |dataIdx| == MAX_AV_PLANES
        invariant forall k :: 0 <= k < MAX_AV_PLANES ==> dataIdx[k] == if k < i then IndexOfPlane(data, k) else 0
      {
        if data.planes[i].None? {
          continue;
        }
        dataIdx := dataIdx[i := HEADER_BYTES + (channels * data.frames * CELL_BYTES) % UINT32];
        channels := channels + 1;
      }
      header := Header(dataIdx, data.frames, speakers, AUDIO_FORMAT_FLOAT_PLANAR, samplesPerSec, data.timestamp, 0);
    }

    method PushPlanes(planes: seq<Option<seq<real>>>)
      requires |planes| == MAX_AV_PLANES && speakers <= MAX_AV_PLANES
      modifies this`audioBuffer
      ensures audioBuffer == old(audioBuffer) + SampleCells(Concat(PresentPlanes(planes, speakers)))
    {
      ghost var base := audioBuffer;
      assert base + SampleCells(Concat(PresentPlanes(planes, 0))) == base;
      for i := 0 to speakers
        invariant audioBuffer == base + SampleCells(Concat(PresentPlanes(planes, i)))
      {
        NextPlaneCells(base, planes, i);
        if planes[i].None? {
          continue;
        }
        audioBuffer := audioBuffer + SampleCells(planes[i].value);
      }
    }

    /** `brealloc` to a larger size. */
    method ExpandConvBuffer(cells: nat)
      modifies this`audioConvBuffer
      ensures audioConvBuffer.Length == if cells > old(audioConvBuffer.Length) then cells else old(audioConvBuffer.Length)
      ensures audioConvBuffer == old(audioConvBuffer) || fresh(audioConvBuffer)
    {
      if cells > audioConvBuffer.Length {
        var larger := new Cell[cells];
        var smaller := audioConvBuffer;
        for i := 0 to smaller.Length {
          larger[i] := smaller[i];
        }
        audioConvBuffer := larger;
      }
    }

    /** `deque_peek_front`. */
    method PeekFront(n: nat)
      requires n <= |audioBuffer| && n <= audioConvBuffer.Length
      modifies audioConvBuffer
      ensures audioConvBuffer[..n] == audioBuffer[..n]
    {
      for i := 0 to n
        invariant audioConvBuffer[..i] == audioBuffer[..i]
      {
        audioConvBuffer[i] := audioBuffer[i];
      }
    }

    /** Peek the oldest record into the scratch buffer, first its header, then all of it. */
    method PeekRecord() returns (header: Header, dataSize: nat)
      requires Framed() && chunks != []
      modifies audioConvBuffer
      ensures header == chunks[0].header && header.offset <= header.frames && header.speakers == speakers
      ensures dataSize == DeclaredCells(header)
      ensures HEADER_CELLS <= audioConvBuffer.Length && audioConvBuffer[..HEADER_CELLS] == EncodeHeader(header)
      ensures HoldsBlock(audioConvBuffer[..], header, FramesOf(chunks[0]))
      ensures |FramesOf(chunks[0])| <= |Frames()| && FramesOf(chunks[0]) == Frames()[..|FramesOf(chunks[0])|]
    {
      hide WellFormed, AllGood, DeclaredCells, Stream, AllCells, FramesOf;
      HeadDecodes(chunks, audioBuffer, audioBufferFrames, audioConvBuffer.Length, speakers);
      PeekFront(HEADER_CELLS);
      header := DecodeHeader(audioConvBuffer[..HEADER_CELLS]);
      dataSize := DeclaredCells(header);
      PeekFront(dataSize);
      assert Cells(chunks[0])[..HEADER_CELLS] == EncodeHeader(header);
      assert audioConvBuffer[..][..dataSize] == audioConvBuffer[..dataSize];
      RecordHoldsFrames(audioConvBuffer[..], chunks[0]);
    }

    /** Remove the oldest record. */
    method DropRecord(dataSize: nat, frames: nat)
      requires Framed() && chunks != [] && dataSize == DeclaredCells(chunks[0].header)
      requires frames == |FramesOf(chunks[0])|
      modifies this`audioBuffer, this`audioBufferFrames, this`chunks
      ensures Framed() && Frames() == old(Frames())[frames..]
      ensures chunks == old(chunks)[1..]
    {
      DropHead(chunks, audioBuffer, audioBufferFrames, audioConvBuffer.Length, speakers);
      audioBufferFrames := audioBufferFrames - frames;
      audioBuffer := audioBuffer[dataSize..];
      chunks := chunks[1..];
    }

    /** `header->offset += ...` on the header at the start of the scratch buffer. */
    method RewriteOffset(header: Header, offset: nat)
      requires |header.dataIdx| == MAX_AV_PLANES
      requires HEADER_CELLS <= audioConvBuffer.Length && audioConvBuffer[..HEADER_CELLS] == EncodeHeader(header)
      modifies audioConvBuffer
      ensures audioConvBuffer[..HEADER_CELLS] == EncodeHeader(header.(offset := offset))
    {
      OffsetCells(header, offset);
      ghost var front := audioConvBuffer[..22];
      assert front == EncodeHeader(header)[..22];
      var cells := Wide(offset);
      audioConvBuffer[22], audioConvBuffer[23] := cells[0], cells[1];
      assert audioConvBuffer[..HEADER_CELLS] == front + cells;
    }

    /** Move the offset of the oldest record, in the scratch copy and then in the deque. */
    method AdvanceRecord(header: Header, frames: nat)
      requires Framed() && chunks != [] && header == chunks[0].header && frames <= |FramesOf(chunks[0])|
      requires HEADER_CELLS <= audioConvBuffer.Length && audioConvBuffer[..HEADER_CELLS] == EncodeHeader(header)
      modifies this`audioBuffer, this`audioBufferFrames, this`chunks, audioConvBuffer
      ensures Framed() && Frames() == old(Frames())[frames..]
      ensures |chunks| == |old(chunks)|
    {
      hide EncodeHeader, WellFormed, Stream, AllCells, FramesOf;
      AdvanceHead(chunks, audioBuffer, audioBufferFrames, audioConvBuffer.Length, speakers, frames);
      RewriteOffset(header, header.offset + frames);
      assert audioConvBuffer[..HEADER_CELLS] == EncodeHeader(Advanced(chunks, frames)[0].header);
      PlaceHeader(frames, Advanced(chunks, frames));
    }

    /** `deque_place` of the scratch header at the front of the deque. */
    method PlaceHeader(frames: nat, ghost advanced: seq<Chunk>)
      requires speakers <= MAX_AV_PLANES && samplesPerSec < UINT32 && frames <= audioBufferFrames
      requires HEADER_CELLS <= audioConvBuffer.Length && HEADER_CELLS <= |audioBuffer|
      requires Consistent(advanced, audioConvBuffer[..HEADER_CELLS] + audioBuffer[HEADER_CELLS..],
                          audioBufferFrames - frames, audioConvBuffer.Length, speakers)
      modifies this`audioBuffer, this`audioBufferFrames, this`chunks
      ensures Framed() && chunks == advanced
    {
      audioBuffer := audioConvBuffer[..HEADER_CELLS] + audioBuffer[HEADER_CELLS..];
      audioBufferFrames := audioBufferFrames - frames;
      chunks := advanced;
    }

    /** Take frames off the oldest record: drop it when they are all it had, else move its offset. */
    method Consume(header: Header, dataSize: nat, frames: nat)
      requires Framed() && chunks != [] && header == chunks[0].header && dataSize == DeclaredCells(header)
      requires header.offset <= header.frames && frames <= |FramesOf(chunks[0])|
      requires HEADER_CELLS <= audioConvBuffer.Length && audioConvBuffer[..HEADER_CELLS] == EncodeHeader(header)
      modifies this`audioBuffer, this`audioBufferFrames, this`chunks, audioConvBuffer
      ensures Framed() && Frames() == old(Frames())[frames..]
      ensures |chunks| == |old(chunks)| - if frames == |FramesOf(old(chunks)[0])| then 1 else 0
    {
      if frames == header.frames - header.offset {
        DropRecord(dataSize, frames);
      } else {
        AdvanceRecord(header, frames);
      }
    }

    /** One turn of the loop of `popAudio`. */
    method PopFromHead(mixers: set<nat>, audioData: array3<real>, maxFrames: nat) returns (frames: nat)
      requires Framed() && chunks != [] && 0 < maxFrames <= AUDIO_OUTPUT_FRAMES
      requires audioData.Length0 == MAX_AUDIO_MIXES && audioData.Length1 == MAX_AV_PLANES
      requires audioData.Length2 == AUDIO_OUTPUT_FRAMES
      modifies this`audioBuffer, this`audioBufferFrames, this`chunks, audioConvBuffer, audioData
      ensures frames <= maxFrames && frames <= |old(Frames())|
      ensures Framed() && Frames() == old(Frames())[frames..]
      ensures frames == maxFrames || |chunks| < |old(chunks)|
      ensures |chunks| <= |old(chunks)|
      ensures forall t, c, j :: 0 <= t < MAX_AUDIO_MIXES && 0 <= c < MAX_AV_PLANES && 0 <= j < AUDIO_OUTPUT_FRAMES ==>
        audioData[t, c, j] ==
          if 0 <= j - (AUDIO_OUTPUT_FRAMES - maxFrames) < frames
          then Mixed(old(audioData[t, c, j]), t in mixers, old(Frames()), j - (AUDIO_OUTPUT_FRAMES - maxFrames), c)
          else old(audioData[t, c, j])
    {
      var header, dataSize := PeekRecord();
      var chunkFrames := header.frames - header.offset;
      frames := if chunkFrames > maxFrames then maxFrames else chunkFrames;
      MixFront(audioData, mixers, maxFrames, audioConvBuffer, header, frames, FramesOf(chunks[0]), Frames());
      Consume(header, dataSize, frames);
    }

    /** Mix one block of `AUDIO_OUTPUT_FRAMES` frames into every selected mix, or nothing while fewer are buffered. */
    method PopAudio(mixers: set<nat>, audioData: array3<real>)
      requires Valid()
      requires audioData.Length0 == MAX_AUDIO_MIXES && audioData.Length1 == MAX_AV_PLANES
      requires audioData.Length2 == AUDIO_OUTPUT_FRAMES
      modifies this`audioBuffer, this`audioBufferFrames, this`chunks, this`history, audioConvBuffer, audioData
      ensures Valid()
      ensures history == if active then AudioStep(old(history), Pop) else old(history)
      ensures Frames() == if active then old(Frames())[|Block(old(Frames()))|..] else old(Frames())
      ensures forall t, c, j :: 0 <= t < MAX_AUDIO_MIXES && 0 <= c < MAX_AV_PLANES && 0 <= j < AUDIO_OUTPUT_FRAMES ==>
        audioData[t, c, j] == Mixed(old(audioData[t, c, j]), active && t in mixers, Block(old(Frames())), j, c)
      ensures forall t, c, j :: 0 <= t < MAX_AUDIO_MIXES && 0 <= c < MAX_AV_PLANES && 0 <= j < AUDIO_OUTPUT_FRAMES ==>
        if active && t in mixers && |old(Frames())| >= AUDIO_OUTPUT_FRAMES && c < speakers
        then |old(Frames())[j]| == speakers && Nearest(audioData[t, c, j], old(audioData[t, c, j]) + old(Frames())[j][c])
        else audioData[t, c, j] == old(audioData[t, c, j])
    {
      hide AllGood, AllCells, Stream, FramesOf, Accounted, WholeBlocks, Nearest;
      ghost var queued := Frames();
      FramesCoverSpeakers();
      if !active {
        return;
      }
      StepLogs(history, queued, Pop);
      history := AudioStep(history, Pop);
      if audioBufferFrames < AUDIO_OUTPUT_FRAMES {
        assert queued[0..] == queued;
        return;
      }
      assert |queued| >= AUDIO_OUTPUT_FRAMES;
      var maxFrames: nat := AUDIO_OUTPUT_FRAMES;
      while maxFrames > 0 && audioBufferFrames > 0
        invariant Framed() && maxFrames <= AUDIO_OUTPUT_FRAMES
        invariant Frames() == queued[AUDIO_OUTPUT_FRAMES - maxFrames..]
        invariant history == AudioStep(old(history), Pop)
        invariant forall t, c, j :: 0 <= t < MAX_AUDIO_MIXES && 0 <= c < MAX_AV_PLANES && 0 <= j < AUDIO_OUTPUT_FRAMES ==>
          audioData[t, c, j] ==
            if j < AUDIO_OUTPUT_FRAMES - maxFrames then Mixed(old(audioData[t, c, j]), t in mixers, queued, j, c)
            else old(audioData[t, c, j])
        decreases maxFrames, |chunks|
      {
        HeadIsThere(chunks, audioBuffer, audioBufferFrames, audioConvBuffer.Length, speakers);
        var frames := PopFromHead(mixers, audioData, maxFrames);
        maxFrames := maxFrames - frames;
      }
      forall t, c, j | 0 <= t < MAX_AUDIO_MIXES && 0 <= c < MAX_AV_PLANES && 0 <= j < AUDIO_OUTPUT_FRAMES
        ensures if t in mixers && c < speakers
          then |queued[j]| == speakers && Nearest(audioData[t, c, j], old(audioData[t, c, j]) + queued[j][c])
          else audioData[t, c, j] == old(audioData[t, c, j])
      {
        MixedIsNearest(old(audioData[t, c, j]), t in mixers, queued, j, c);
      }
    }

    /** Every queued frame has a sample for each speaker, so a mixed block covers all of them. */
    lemma FramesCoverSpeakers()
      requires Framed()
      ensures forall j :: 0 <= j < |Frames()| ==> |Frames()[j]| == speakers
    {
      assert forall i :: 0 <= i < |chunks| ==> Good(chunks[i], audioConvBuffer.Length, speakers);
      StreamWidth(chunks, speakers);
    }

    /** No record is partly consumed: the state of a buffer that only the audio thread reads. */
    ghost predicate Unread()
      reads this
    {
      chunks == [] || chunks[0].header.offset == 0
    }

    /** The planes of the record in the scratch buffer, as they are handed to the source output. */
    method ReadPlanes(header: Header, ghost block: seq<Frame>) returns (planes: seq<seq<real>>)
      requires header.offset == 0 && |block| == header.frames
      requires HoldsBlock(audioConvBuffer[..], header, block)
      ensures |planes| == header.speakers
      ensures forall ch :: 0 <= ch < |planes| ==> |planes[ch]| == header.frames
      ensures forall ch, i :: 0 <= ch < |planes| && 0 <= i < header.frames ==> planes[ch][i] == block[i][ch]
    {
      planes := [];
      var cells := audioConvBuffer[..];
      for ch := 0 to header.speakers
        invariant |planes| == ch
        invariant forall k :: 0 <= k < ch ==> |planes[k]| == header.frames
        invariant forall k, i :: 0 <= k < ch && 0 <= i < header.frames ==> planes[k][i] == block[i][k]
      {
        if header.frames == 0 || header.dataIdx[ch] == 0 {
          planes := planes + [[]];
          continue;
        }
        var from := header.dataIdx[ch] / CELL_BYTES;
        var plane := seq(header.frames,
                         i requires 0 <= i < header.frames && from + i < |cells| => AsFloat(cells[from + i]));
        forall i | 0 <= i < header.frames ensures plane[i] == block[i][ch] {
          assert AsFloat(cells[from + (header.offset + i)]) == block[i][ch];
        }
        planes := planes + [plane];
      }
    }

    /** One turn of the audio thread: hand over the oldest record whole. */
    method DrainOne() returns (audio: Option<SourceAudio>, ghost played: seq<Frame>)
      requires Valid() && Unread()
      modifies this`audioBuffer, this`audioBufferFrames, this`chunks, this`history, audioConvBuffer
      ensures Valid() && Unread()
      ensures history == AudioStep(old(history), Play(|played|))
      ensures played + Frames() == old(Frames())
      ensures audio.None? <==> old(Frames()) == []
      ensures audio.None? ==> chunks == old(chunks)
      ensures audio.Some? ==>
        old(chunks) != [] && chunks == old(chunks)[1..]
        && ReadFrom(audio.value, old(chunks)[0]) && played == FramesOf(old(chunks)[0])
    {
      hide AllGood, Stream, AllCells, Accounted, WholeBlocks;
      audio, played := None, [];
      if audioBufferFrames == 0 {
        EmptyCounter();
        assert Frames()[0..] == Frames() && [] + Frames() == Frames();
        StepLogs(history, Frames(), Play(0));
        history := AudioStep(history, Play(0));
        return;
      }
      HeadIsThere(chunks, audioBuffer, audioBufferFrames, audioConvBuffer.Length, speakers);
      var header, dataSize := PeekRecord();
      played := FramesOf(chunks[0]);
      var planes := ReadPlanes(header, played);
      audio := Some(SourceAudio(planes, header.frames, header.speakers, header.format, header.samplesPerSec,
                                header.timestamp));
      OnlyHeadIsRead();
      StepLogs(history, Frames(), Play(|played|));
      history := AudioStep(history, Play(|played|));
      ghost var queued := Frames();
      assert queued == queued[..|played|] + queued[|played|..];
      DropRecord(dataSize, header.frames);
    }

    lemma EmptyCounter()
      requires Framed()
      ensures audioBufferFrames == 0 <==> Frames() == []
    {
    }

    lemma NothingQueued()
      requires Framed() && (Frames() == [] || chunks == [])
      ensures Frames() == []
    {
    }

    lemma OnlyHeadIsRead()
      requires Framed()
      ensures |chunks| > 1 ==> chunks[1].header.offset == 0
    {
    }

    /** The audio thread between two pushes: what it plays and what is left are what was queued, and after as many
        turns as there were records nothing is left. */
    method Drain(turns: nat) returns (ghost played: seq<Frame>)
      requires Valid() && Unread()
      modifies this`audioBuffer, this`audioBufferFrames, this`chunks, this`history, audioConvBuffer
      ensures Valid() && Unread()
      ensures played + Frames() == old(Frames())
      ensures turns >= |old(chunks)| ==> Frames() == []
    {
      hide Consistent, Stream, Accounted, WholeBlocks;
      played := [];
      for turn := 0 to turns
        invariant Valid() && Unread()
        invariant played + Frames() == old(Frames())
        invariant Frames() == [] || |chunks| + turn <= |old(chunks)|
        invariant audioConvBuffer == old(audioConvBuffer)
      {
        var audio;
        ghost var some;
        audio, some := DrainOne();
        Associates(played, some, Frames());
        played := played + some;
      }
      if turns >= |old(chunks)| {
        NothingQueued();
      }
    }
  }

  /** A turn at the buffer: a block arrives, or, for `None`, the consumer comes.  Blocks are sound and have all their
      planes. */
  ghost predicate Ready(turn: Option<AudioData>, speakers: nat) {
    speakers <= MAX_AV_PLANES && (turn.Some? ==> Sound(turn.value) && Complete(turn.value, speakers))
  }

  ghost predicate AllReady(turns: seq<Option<AudioData>>, speakers: nat) {
    forall i :: 0 <= i < |turns| ==> Ready(turns[i], speakers)
  }

  /** The frames that a turn brings. */
  ghost function Arrival(turn: Option<AudioData>, speakers: nat): seq<Frame>
    requires Ready(turn, speakers)
  {
    if turn.Some? then DataFrames(turn.value, speakers) else []
  }

  ghost function Arrivals(turns: seq<Option<AudioData>>, speakers: nat): seq<Frame>
    requires AllReady(turns, speakers)
  {
    if turns == [] then []
    else Arrivals(turns[..|turns| - 1], speakers) + Arrival(turns[|turns| - 1], speakers)
  }

  lemma NextArrival(turns: seq<Option<AudioData>>, speakers: nat, i: nat)
    requires AllReady(turns, speakers) && i < |turns|
    ensures Ready(turns[i], speakers) && AllReady(turns[..i], speakers) && AllReady(turns[..i + 1], speakers)
    ensures Arrivals(turns[..i + 1], speakers) == Arrivals(turns[..i], speakers) + Arrival(turns[i], speakers)
  {
    assert turns[..i + 1][..i] == turns[..i];
  }

  /** A block is pushed; the consumer takes frames off the front. */
  ghost predicate Answers(turn: Option<AudioData>, e: AudioEvent, speakers: nat)
    requires Ready(turn, speakers)
  {
    if turn.Some? then e == Push(DataFrames(turn.value, speakers)) else !e.Push?
  }

  ghost predicate AllAnswer(turns: seq<Option<AudioData>>, events: seq<AudioEvent>, speakers: nat)
    requires AllReady(turns, speakers)
  {
    |events| == |turns| && forall i :: 0 <= i < |turns| ==> Answers(turns[i], events[i], speakers)
  }

  lemma NextAnswers(turns: seq<Option<AudioData>>, events: seq<AudioEvent>, speakers: nat, i: nat, e: AudioEvent)
    requires AllReady(turns, speakers) && i < |turns|
    requires AllReady(turns[..i], speakers) && AllAnswer(turns[..i], events, speakers)
    requires Ready(turns[i], speakers) && Answers(turns[i], e, speakers)
    ensures AllReady(turns[..i + 1], speakers) && AllAnswer(turns[..i + 1], events + [e], speakers)
  {
    hide Ready, Answers;
  }

  lemma NoTurns(turns: seq<Option<AudioData>>, speakers: nat, h: History)
    ensures AllReady(turns[..0], speakers) && AllAnswer(turns[..0], [], speakers)
    ensures Arrivals(turns[..0], speakers) == [] && AudioRun(h, []) == h
  {
  }

  /** A block arrives, or the audio thread takes a turn and may hand one over. */
  method ThreadTurn(capture: SourceAudioCapture, turn: Option<AudioData>, ghost log: BlockLog)
    returns (audio: Option<SourceAudio>, ghost e: AudioEvent)
    requires capture.Valid() && capture.Unread() && capture.active && Ready(turn, capture.speakers)
    requires AreBlocks(capture.chunks, log.waiting, capture.speakers, capture.samplesPerSec)
    modifies capture, capture.audioConvBuffer
    ensures capture.Valid() && capture.Unread() && capture.active
    ensures capture.audioConvBuffer == old(capture.audioConvBuffer) || fresh(capture.audioConvBuffer)
    ensures Answers(turn, e, capture.speakers) && capture.history == AudioStep(old(capture.history), e)
    ensures capture.history.pushed == old(capture.history.pushed) + Arrival(turn, capture.speakers)
    ensures AreBlocks(capture.chunks, BlockStep(log, turn).waiting, capture.speakers, capture.samplesPerSec)
    ensures audio.Some? <==> turn.None? && FrameCount(log.waiting) > 0
    ensures audio.Some? ==>
      log.waiting != [] && |log.waiting[0].planes| == MAX_AV_PLANES && capture.speakers <= MAX_AV_PLANES
      && HandsOver(audio.value, log.waiting[0], capture.speakers, capture.samplesPerSec)
  {
    hide Logged, DataFrames, IsBlock, ReadFrom, AllGood, AllCells, Stream, HandsOver;
    BlocksCount(capture.chunks, log.waiting, capture.speakers, capture.samplesPerSec);
    audio := None;
    if turn.Some? {
      capture.PushAudio(turn.value);
      e := Push(DataFrames(turn.value, capture.speakers));
    } else {
      ghost var played;
      audio, played := capture.DrainOne();
      e := Play(|played|);
      if audio.Some? {
        FirstIsBlock(old(capture.chunks), log.waiting, capture.speakers, capture.samplesPerSec);
        ReadIsHandedOver(audio.value, old(capture.chunks)[0], log.waiting[0], capture.speakers, capture.samplesPerSec);
      }
    }
  }

  lemma FirstIsBlock(chunks: seq<Chunk>, blocks: seq<AudioData>, speakers: nat, samplesPerSec: nat)
    requires AreBlocks(chunks, blocks, speakers, samplesPerSec) && chunks != []
    ensures blocks != [] && IsBlock(chunks[0], blocks[0], speakers, samplesPerSec)
    ensures |blocks[0].planes| == MAX_AV_PLANES && speakers <= MAX_AV_PLANES
  {
  }

  /** A block arrives, or the mixer calls. */
  method MixerTurn(capture: SourceAudioCapture, turn: Option<AudioData>, mixers: set<nat>, audioData: array3<real>)
    returns (ghost e: AudioEvent)
    requires capture.Valid() && capture.active && Ready(turn, capture.speakers)
    requires audioData.Length0 == MAX_AUDIO_MIXES && audioData.Length1 == MAX_AV_PLANES
    requires audioData.Length2 == AUDIO_OUTPUT_FRAMES
    modifies capture, capture.audioConvBuffer, audioData
    ensures capture.Valid() && capture.active
    ensures capture.audioConvBuffer == old(capture.audioConvBuffer) || fresh(capture.audioConvBuffer)
    ensures Answers(turn, e, capture.speakers) && capture.history == AudioStep(old(capture.history), e)
    ensures !e.Play?
    ensures capture.history.pushed == old(capture.history.pushed) + Arrival(turn, capture.speakers)
  {
    hide Logged, Consistent, DataFrames;
    if turn.Some? {
      capture.PushAudio(turn.value);
      e := Push(DataFrames(turn.value, capture.speakers));
    } else {
      capture.PopAudio(mixers, audioData);
      e := Pop;
    }
  }

  /** The capture of an audio thread: blocks arrive between its turns, in any interleaving.  What was played, what a
      flush discarded and what is left are what was pushed, once each and in order; each block played is handed over as
      it was pushed. */
  method RunThread(capture: SourceAudioCapture, turns: seq<Option<AudioData>>, ghost waiting: seq<AudioData>)
    returns (audios: seq<SourceAudio>, ghost events: seq<AudioEvent>, ghost log: BlockLog)
    requires capture.Valid() && capture.Unread() && capture.active && AllReady(turns, capture.speakers)
    requires AreBlocks(capture.chunks, waiting, capture.speakers, capture.samplesPerSec)
    modifies capture, capture.audioConvBuffer
    ensures capture.Valid() && capture.Unread()
    ensures AllAnswer(turns, events, capture.speakers) && capture.history == AudioRun(old(capture.history), events)
    ensures FramesIn(capture.history.departed) + capture.Frames()
         == old(capture.history.pushed) + Arrivals(turns, capture.speakers)
    ensures log == BlockRun(BlockLog(waiting, [], waiting), turns)
    ensures BlocksIn(log.gone) + log.waiting == waiting + Arrived(turns)
    ensures AllHandedOver(audios, PlayedIn(log.gone), capture.speakers, capture.samplesPerSec)
    ensures AreBlocks(capture.chunks, log.waiting, capture.speakers, capture.samplesPerSec)
  {
    hide Logged, Consistent, SourceAudioCapture.Unread, AllReady, AllAnswer, Ready, Answers, Arrival, Arrivals;
    hide AudioRun, AudioStep, AreBlocks, HandsOver, BlockStep, PlayedIn, FrameCount, BlockRun, Arrived;
    events, audios := [], [];
    ghost var start := BlockLog(waiting, [], waiting);
    log := start;
    NoTurns(turns, capture.speakers, capture.history);
    NoBlocks(start, turns);
    for i := 0 to |turns|
      invariant capture.Valid() && capture.Unread() && capture.active
      invariant capture.audioConvBuffer == old(capture.audioConvBuffer) || fresh(capture.audioConvBuffer)
      invariant |events| == i && capture.history == AudioRun(old(capture.history), events)
      invariant AllReady(turns[..i], capture.speakers) && AllAnswer(turns[..i], events, capture.speakers)
      invariant capture.history.pushed == old(capture.history.pushed) + Arrivals(turns[..i], capture.speakers)
      invariant log == BlockRun(start, turns[..i])
      invariant AreBlocks(capture.chunks, log.waiting, capture.speakers, capture.samplesPerSec)
      invariant AllHandedOver(audios, PlayedIn(log.gone), capture.speakers, capture.samplesPerSec)
    {
      NextArrival(turns, capture.speakers, i);
      NextBlock(start, turns, i);
      StepPlays(log, turns[i]);
      var audio;
      ghost var e;
      audio, e := ThreadTurn(capture, turns[i], log);
      RunMore(old(capture.history), events, e);
      NextAnswers(turns, events, capture.speakers, i, e);
      events := events + [e];
      log := BlockStep(log, turns[i]);
      if audio.Some? {
        audios := audios + [audio.value];
      }
    }
    assert turns[..|turns|] == turns;
    LogAccounts(capture.history, capture.Frames());
    BlockRunAccounts(start, turns);
  }

  /** One for one, and in order. */
  ghost predicate AllHandedOver(audios: seq<SourceAudio>, blocks: seq<AudioData>, speakers: nat, samplesPerSec: nat) {
    && |audios| == |blocks| && speakers <= MAX_AV_PLANES
    && forall i :: 0 <= i < |audios| ==>
         |blocks[i].planes| == MAX_AV_PLANES && HandsOver(audios[i], blocks[i], speakers, samplesPerSec)
  }

  lemma NoBlocks(log: BlockLog, turns: seq<Option<AudioData>>)
    ensures BlockRun(log, turns[..0]) == log && PlayedIn([]) == []
  {
  }

  lemma NextBlock(log: BlockLog, turns: seq<Option<AudioData>>, i: nat)
    requires i < |turns|
    ensures BlockRun(log, turns[..i + 1]) == BlockStep(BlockRun(log, turns[..i]), turns[i])
  {
    assert turns[..i + 1][..i] == turns[..i];
  }

  /** The capture of an output: blocks arrive between the calls of the mixer, in any interleaving.  What was mixed, in
      whole blocks, what a flush discarded and what is left are what was pushed, once each and in order. */
  method RunMixer(capture: SourceAudioCapture, turns: seq<Option<AudioData>>, mixers: set<nat>, audioData: array3<real>)
    returns (ghost events: seq<AudioEvent>)
    requires capture.Valid() && capture.active && AllReady(turns, capture.speakers)
    requires audioData.Length0 == MAX_AUDIO_MIXES && audioData.Length1 == MAX_AV_PLANES
    requires audioData.Length2 == AUDIO_OUTPUT_FRAMES
    modifies capture, capture.audioConvBuffer, audioData
    ensures capture.Valid()
    ensures AllAnswer(turns, events, capture.speakers) && capture.history == AudioRun(old(capture.history), events)
    ensures forall i :: 0 <= i < |events| ==> !events[i].Play?
    ensures FramesIn(capture.history.departed) + capture.Frames()
         == old(capture.history.pushed) + Arrivals(turns, capture.speakers)
    ensures DeliveredCount(capture.history.departed) % AUDIO_OUTPUT_FRAMES == 0
  {
    hide Logged, Consistent, AllReady, AllAnswer, Ready, Answers, Arrival, Arrivals;
    hide AudioRun, AudioStep;
    events := [];
    NoTurns(turns, capture.speakers, capture.history);
    for i := 0 to |turns|
      invariant capture.Valid() && capture.active
      invariant capture.audioConvBuffer == old(capture.audioConvBuffer) || fresh(capture.audioConvBuffer)
      invariant |events| == i && capture.history == AudioRun(old(capture.history), events)
      invariant AllReady(turns[..i], capture.speakers) && AllAnswer(turns[..i], events, capture.speakers)
      invariant forall k :: 0 <= k < i ==> !events[k].Play?
      invariant capture.history.pushed == old(capture.history.pushed) + Arrivals(turns[..i], capture.speakers)
    {
      NextArrival(turns, capture.speakers, i);
      ghost var e := MixerTurn(capture, turns[i], mixers, audioData);
      RunMore(old(capture.history), events, e);
      NextAnswers(turns, events, capture.speakers, i, e);
      events := events + [e];
    }
    assert turns[..|turns|] == turns;
    LogAccounts(capture.history, capture.Frames());
  }

  lemma LogAccounts(h: History, stream: seq<Frame>)
    requires Logged(h, stream)
    ensures FramesIn(h.departed) + stream == h.pushed && DeliveredCount(h.departed) % AUDIO_OUTPUT_FRAMES == 0
  {
  }

  /** Every queued frame has one sample per speaker. */
  lemma {:induction false} StreamWidth(chunks: seq<Chunk>, speakers: nat)
    requires forall i :: 0 <= i < |chunks| ==> chunks[i].header.speakers == speakers
    ensures forall j :: 0 <= j < |Stream(chunks)| ==> |Stream(chunks)[j]| == speakers
  {
    if chunks != [] {
      StreamWidth(chunks[1..], speakers);
    }
  }
}
