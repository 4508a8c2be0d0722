/** The records of the audio buffer: a header and one plane of samples per speaker, laid out in four-byte cells
    (src/sources/audio-capture.hpp, src/sources/audio-capture.cpp). */
module AudioRecord {
  import opened Schema

  const UINT32: nat := 0x1_0000_0000
  const UINT64: nat := 0x1_0000_0000_0000_0000
  const MAX_AV_PLANES: nat := 8
  const CELL_BYTES: nat := 4
  const HEADER_CELLS: nat := 24 // sizeof(AudioBufferHeader) == 96
  const HEADER_BYTES: nat := 96
  const AUDIO_FORMAT_FLOAT_PLANAR: nat := 8

  /** Four bytes of the buffer: part of a header, or one float sample. */
  datatype Cell = Word(bits: nat) | Sample(value: real)

  datatype Header = Header(
    dataIdx: seq<nat>, // byte offset of each plane, zero for an unused channel
    frames: nat,
    speakers: nat,
    format: nat,
    samplesPerSec: nat,
    timestamp: nat,
    offset: nat
  )

  /** The fields fit the integer types of the struct. */
  ghost predicate Fits(h: Header) {
    && |h.dataIdx| == MAX_AV_PLANES
    && (forall i :: 0 <= i < MAX_AV_PLANES ==> h.dataIdx[i] < UINT64)
    && h.frames < UINT32 && h.speakers < UINT32 && h.format < UINT32 && h.samplesPerSec < UINT32
    && h.timestamp < UINT64 && h.offset < UINT64
  }

  function Bits(c: Cell): nat { if c.Word? then c.bits else 0 }

  function Wide(n: nat): seq<Cell> { [Word(n % UINT32), Word(n / UINT32)] }

  function Unwide(low: Cell, high: Cell): nat { Bits(low) + UINT32 * Bits(high) }

  function WideAll(s: seq<nat>): (cells: seq<Cell>)
    ensures |cells| == 2 * |s|
  {
    if s == [] then [] else Wide(s[0]) + WideAll(s[1..])
  }

  lemma {:induction false} WideAllAt(s: seq<nat>, i: nat)
    requires i < |s|
    ensures Unwide(WideAll(s)[2 * i], WideAll(s)[2 * i + 1]) == s[i]
  {
    if i > 0 {
      WideAllAt(s[1..], i - 1);
    }
  }

  function EncodeHeader(h: Header): (cells: seq<Cell>)
    ensures |h.dataIdx| == MAX_AV_PLANES ==> |cells| == HEADER_CELLS
  {
    WideAll(h.dataIdx) + [Word(h.frames), Word(h.speakers), Word(h.format), Word(h.samplesPerSec)]
    + Wide(h.timestamp) + Wide(h.offset)
  }

  function DecodeHeader(cells: seq<Cell>): Header
    requires |cells| >= HEADER_CELLS
  {
    Header(
      seq(MAX_AV_PLANES, i requires 0 <= i < MAX_AV_PLANES => Unwide(cells[2 * i], cells[2 * i + 1])),
      Bits(cells[16]), Bits(cells[17]), Bits(cells[18]), Bits(cells[19]),
      Unwide(cells[20], cells[21]), Unwide(cells[22], cells[23]))
  }

  /** The offset occupies the last two cells of the header. */
  lemma OffsetCells(h: Header, offset: nat)
    requires |h.dataIdx| == MAX_AV_PLANES
    ensures EncodeHeader(h.(offset := offset)) == EncodeHeader(h)[..22] + Wide(offset)
  {
  }

  lemma HeaderRoundTrip(h: Header, rest: seq<Cell>)
    requires Fits(h)
    ensures DecodeHeader(EncodeHeader(h) + rest) == h
  {
    var cells := EncodeHeader(h) + rest;
    forall i | 0 <= i < MAX_AV_PLANES ensures Unwide(cells[2 * i], cells[2 * i + 1]) == h.dataIdx[i] {
      WideAllAt(h.dataIdx, i);
      assert cells[2 * i] == WideAll(h.dataIdx)[2 * i] && cells[2 * i + 1] == WideAll(h.dataIdx)[2 * i + 1];
    }
    assert DecodeHeader(cells).dataIdx == h.dataIdx;
    assert cells[16..24] == [Word(h.frames), Word(h.speakers), Word(h.format), Word(h.samplesPerSec)]
                            + Wide(h.timestamp) + Wide(h.offset);
  }

  // ---- well-formed records ----

  /** One column of samples, one per speaker. */
  type Frame = seq<real>

  /** A record, decoded: its header and the planes written behind it. */
  datatype Chunk = Chunk(header: Header, planes: seq<seq<real>>)

  function Concat(planes: seq<seq<real>>): seq<real> {
    if planes == [] then [] else Concat(planes[..|planes| - 1]) + planes[|planes| - 1]
  }

  /** How many samples lie before plane `ch`. */
  function Before(planes: seq<seq<real>>, ch: nat): nat
    requires ch <= |planes|
  {
    |Concat(planes[..ch])|
  }

  /** The header points at the start of every plane. */
  ghost predicate Indexed(h: Header, planes: seq<seq<real>>)
    requires |planes| <= |h.dataIdx|
  {
    forall ch :: 0 <= ch < |planes| ==> h.dataIdx[ch] == HEADER_BYTES + Before(planes, ch) * CELL_BYTES
  }

  /** Every speaker has a plane of the right length, where the header says. */
  ghost predicate WellFormed(c: Chunk) {
    var h := c.header;
    && Fits(h)
    && h.speakers <= MAX_AV_PLANES
    && h.offset <= h.frames
    && |Concat(c.planes)| * CELL_BYTES < UINT32
    && (forall ch :: 0 <= ch < |c.planes| ==> |c.planes[ch]| == h.frames)
    && (h.frames > 0 ==> |c.planes| == h.speakers && Indexed(h, c.planes))
  }

  function SampleCells(body: seq<real>): (cells: seq<Cell>)
    ensures |cells| == |body|
    ensures forall i :: 0 <= i < |body| ==> cells[i] == Sample(body[i])
  {
    seq(|body|, i requires 0 <= i < |body| => Sample(body[i]))
  }

  lemma SampleCellsAdd(a: seq<real>, b: seq<real>)
    ensures SampleCells(a + b) == SampleCells(a) + SampleCells(b)
  {
  }

  function Cells(c: Chunk): (cells: seq<Cell>)
    ensures |c.header.dataIdx| == MAX_AV_PLANES ==> |cells| == HEADER_CELLS + |Concat(c.planes)|
  {
    EncodeHeader(c.header) + SampleCells(Concat(c.planes))
  }

  /** The size that the consumers compute from a header, in 32-bit arithmetic, in cells. */
  function DeclaredCells(h: Header): nat {
    (HEADER_BYTES + (h.speakers * h.frames * CELL_BYTES) % UINT32) / CELL_BYTES
  }

  lemma {:induction false} ConcatLength(planes: seq<seq<real>>, frames: nat)
    requires forall ch :: 0 <= ch < |planes| ==> |planes[ch]| == frames
    ensures |Concat(planes)| == |planes| * frames
  {
    if planes != [] {
      ConcatLength(planes[..|planes| - 1], frames);
      assert |planes| * frames == (|planes| - 1) * frames + frames;
    }
  }

  lemma DeclaredIsActual(c: Chunk)
    requires WellFormed(c)
    ensures DeclaredCells(c.header) == |Cells(c)|
  {
    ConcatLength(c.planes, c.header.frames);
    var bytes := c.header.speakers * c.header.frames * CELL_BYTES;
    assert bytes == |Concat(c.planes)| * CELL_BYTES;
    assert bytes % UINT32 == bytes;
  }

  /** Sample `i` of plane `ch` within all samples. */
  lemma {:induction false} ConcatAt(planes: seq<seq<real>>, ch: nat, i: nat)
    requires ch < |planes| && i < |planes[ch]|
    ensures Before(planes, ch) + i < |Concat(planes)|
    ensures Concat(planes)[Before(planes, ch) + i] == planes[ch][i]
  {
    var front := planes[..|planes| - 1];
    if ch < |front| {
      ConcatAt(front, ch, i);
      assert front[..ch] == planes[..ch];
    }
  }

  function SampleAt(c: Chunk, ch: nat, i: nat): real {
    if ch < |c.planes| && i < |c.planes[ch]| then c.planes[ch][i] else 0.0
  }

  function FrameAt(c: Chunk, i: nat): (frame: Frame)
    ensures |frame| == c.header.speakers
  {
    seq(c.header.speakers, ch requires 0 <= ch < c.header.speakers => SampleAt(c, ch, i))
  }

  /** The frames of a record that have not been consumed. */
  function FramesOf(c: Chunk): (frames: seq<Frame>)
    ensures |frames| == Left(c.header)
    ensures forall i :: 0 <= i < |frames| ==> frames[i] == FrameAt(c, c.header.offset + i)
  {
    seq(Left(c.header), i requires 0 <= i < Left(c.header) => FrameAt(c, c.header.offset + i))
  }

  function Left(h: Header): nat { if h.offset <= h.frames then h.frames - h.offset else 0 }

  function WithOffset(c: Chunk, offset: nat): Chunk { c.(header := c.header.(offset := offset)) }

  lemma FrameIsKept(c: Chunk, offset: nat, i: nat)
    ensures FrameAt(WithOffset(c, offset), i) == FrameAt(c, i)
  {
  }

  lemma OffsetIsWellFormed(c: Chunk, offset: nat)
    requires WellFormed(c) && offset <= c.header.frames
    ensures WellFormed(WithOffset(c, offset))
  {
    hide Concat, Before;
  }

  lemma FramesAfterOffset(c: Chunk, n: nat)
    requires WellFormed(c) && n <= |FramesOf(c)|
    ensures WellFormed(WithOffset(c, c.header.offset + n))
    ensures FramesOf(WithOffset(c, c.header.offset + n)) == FramesOf(c)[n..]
  {
    hide FrameAt, Indexed, Concat, Fits;
    var c' := WithOffset(c, c.header.offset + n);
    OffsetIsWellFormed(c, c.header.offset + n);
    forall i | 0 <= i < |FramesOf(c')| ensures FramesOf(c')[i] == FramesOf(c)[n..][i] {
      FrameIsKept(c, c.header.offset + n, c'.header.offset + i);
      assert c'.header.offset + i == c.header.offset + (n + i);
    }
  }

  // ---- the whole buffer ----

  /** A well-formed record of the given number of speakers that fits a scratch buffer of the given size. */
  ghost predicate Good(c: Chunk, scratch: nat, speakers: nat) {
    WellFormed(c) && c.header.speakers == speakers && |Cells(c)| <= scratch
  }

  function AllCells(chunks: seq<Chunk>): seq<Cell> {
    if chunks == [] then [] else Cells(chunks[0]) + AllCells(chunks[1..])
  }

  /** All unconsumed frames, oldest first. */
  function Stream(chunks: seq<Chunk>): seq<Frame> {
    if chunks == [] then [] else FramesOf(chunks[0]) + Stream(chunks[1..])
  }

  lemma StreamOf(first: Chunk, rest: seq<Chunk>)
    ensures Stream([first] + rest) == FramesOf(first) + Stream(rest)
  {
  }

  lemma {:induction false} AppendCells(chunks: seq<Chunk>, c: Chunk)
    ensures AllCells(chunks + [c]) == AllCells(chunks) + Cells(c)
  {
    if chunks == [] {
      assert (chunks + [c])[1..] == [];
    } else {
      assert (chunks + [c])[1..] == chunks[1..] + [c];
      AppendCells(chunks[1..], c);
      var first, rest, last := Cells(chunks[0]), AllCells(chunks[1..]), Cells(c);
      assert (first + rest) + last == first + (rest + last);
    }
  }

  lemma {:induction false} AppendStream(chunks: seq<Chunk>, c: Chunk)
    ensures Stream(chunks + [c]) == Stream(chunks) + FramesOf(c)
  {
    if chunks == [] {
      assert (chunks + [c])[1..] == [];
    } else {
      assert (chunks + [c])[1..] == chunks[1..] + [c];
      AppendStream(chunks[1..], c);
      var first, rest, last := FramesOf(chunks[0]), Stream(chunks[1..]), FramesOf(c);
      assert (first + rest) + last == first + (rest + last);
    }
  }

  // ---- what a push writes ----

  /** The caller's audio block: a plane of `frames` samples for each channel that is present. */
  datatype AudioData = AudioData(planes: seq<Option<seq<real>>>, frames: nat, timestamp: nat)

  /** What libobs promises of the block it passes. */
  ghost predicate Sound(d: AudioData) {
    && |d.planes| == MAX_AV_PLANES
    && d.frames < UINT32
    && d.timestamp < UINT64
    && forall i :: 0 <= i < |d.planes| && d.planes[i].Some? ==> |d.planes[i].value| == d.frames
  }

  /** How many of the first `n` planes are present. */
  function Present(planes: seq<Option<seq<real>>>, n: nat): (k: nat)
    requires n <= |planes|
    ensures k <= n
  {
    if n == 0 then 0 else Present(planes, n - 1) + if planes[n - 1].Some? then 1 else 0
  }

  /** The planes that are present among the first `n`. */
  function PresentPlanes(planes: seq<Option<seq<real>>>, n: nat): (present: seq<seq<real>>)
    requires n <= |planes|
    ensures |present| == Present(planes, n)
  {
    if n == 0 then []
    else PresentPlanes(planes, n - 1) + if planes[n - 1].Some? then [planes[n - 1].value] else []
  }

  /** What appending the next plane, if it is present, does to the cells behind `base`. */
  lemma NextPlaneCells(base: seq<Cell>, planes: seq<Option<seq<real>>>, n: nat)
    requires n < |planes|
    ensures base + SampleCells(Concat(PresentPlanes(planes, n + 1)))
         == base + SampleCells(Concat(PresentPlanes(planes, n)))
            + if planes[n].Some? then SampleCells(planes[n].value) else []
  {
    var before, after := PresentPlanes(planes, n), PresentPlanes(planes, n + 1);
    if planes[n].Some? {
      assert after[..|after| - 1] == before;
      SampleCellsAdd(Concat(before), planes[n].value);
      Associates(base, SampleCells(Concat(before)), SampleCells(planes[n].value));
    } else {
      assert after == before;
    }
  }

  lemma Associates<T>(a: seq<T>, b: seq<T>, c: seq<T>)
    ensures (a + b) + c == a + (b + c)
  {
  }

  /** The product of the channel counter and the frame count wraps at 32 bits. */
  function IndexOfPlane(d: AudioData, i: nat): nat
    requires i < |d.planes|
  {
    if d.planes[i].Some? then HEADER_BYTES + (Present(d.planes, i) * d.frames * CELL_BYTES) % UINT32 else 0
  }

  function HeaderFor(d: AudioData, speakers: nat, samplesPerSec: nat): (h: Header)
    requires |d.planes| == MAX_AV_PLANES
    ensures |h.dataIdx| == MAX_AV_PLANES
  {
    Header(
      seq(MAX_AV_PLANES, i requires 0 <= i < MAX_AV_PLANES => if i < speakers then IndexOfPlane(d, i) else 0),
      d.frames, speakers, AUDIO_FORMAT_FLOAT_PLANAR, samplesPerSec, d.timestamp, 0)
  }

  function RecordFor(d: AudioData, speakers: nat, samplesPerSec: nat): Chunk
    requires |d.planes| == MAX_AV_PLANES && speakers <= MAX_AV_PLANES
  {
    Chunk(HeaderFor(d, speakers, samplesPerSec), PresentPlanes(d.planes, speakers))
  }

  /** Every speaker has its plane, and the record's size fits 32 bits. */
  predicate Complete(d: AudioData, speakers: nat)
    requires |d.planes| == MAX_AV_PLANES && speakers <= MAX_AV_PLANES
  {
    && (d.frames == 0 || forall i :: 0 <= i < speakers ==> d.planes[i].Some?)
    && speakers * d.frames * CELL_BYTES < UINT32
  }

  lemma {:induction false} PresentPlanesFit(d: AudioData, n: nat)
    requires Sound(d) && n <= |d.planes|
    ensures forall k :: 0 <= k < Present(d.planes, n) ==> |PresentPlanes(d.planes, n)[k]| == d.frames
    ensures |Concat(PresentPlanes(d.planes, n))| == Present(d.planes, n) * d.frames
  {
    if n > 0 {
      PresentPlanesFit(d, n - 1);
    }
    ConcatLength(PresentPlanes(d.planes, n), d.frames);
  }

  lemma {:induction false} AllPresent(planes: seq<Option<seq<real>>>, n: nat)
    requires n <= |planes|
    ensures Present(planes, n) == n <==> forall i :: 0 <= i < n ==> planes[i].Some?
  {
    if n > 0 {
      AllPresent(planes, n - 1);
    }
  }

  /** The record that a push appends is as long as its header says exactly when no plane that the header counts is
      missing (or there are no frames); with a missing plane every later record would be misread. */
  lemma RecordLengthIff(d: AudioData, speakers: nat, samplesPerSec: nat)
    requires Sound(d) && speakers <= MAX_AV_PLANES && speakers * d.frames * CELL_BYTES < UINT32
    ensures var r := RecordFor(d, speakers, samplesPerSec);
      DeclaredCells(r.header) == |Cells(r)| <==> Complete(d, speakers)
  {
    hide DeclaredCells, Concat, PresentPlanes, Present, IndexOfPlane;
    DeclaredWithoutWrap(HeaderFor(d, speakers, samplesPerSec));
    PresentPlanesFit(d, speakers);
    CompleteIff(d, speakers);
    SameProductIff(Present(d.planes, speakers), speakers, d.frames);
  }

  lemma CompleteIff(d: AudioData, speakers: nat)
    requires Sound(d) && speakers <= MAX_AV_PLANES
    ensures Complete(d, speakers) <==>
      (d.frames == 0 || Present(d.planes, speakers) == speakers) && speakers * d.frames * CELL_BYTES < UINT32
  {
    AllPresent(d.planes, speakers);
  }

  lemma SameProductIff(present: nat, speakers: nat, frames: nat)
    requires present <= speakers
    ensures present * frames <= speakers * frames
    ensures present * frames == speakers * frames <==> frames == 0 || present == speakers
  {
    if present < speakers {
      FewerPlanes(present, speakers, frames);
    }
  }

  lemma OneSampleShort(d: AudioData)
    requires Sound(d) && d.frames == 1 && d.planes[0].None? && d.planes[1].Some?
    ensures var r := RecordFor(d, 2, 48000); |Cells(r)| + 1 == DeclaredCells(r.header)
  {
    PresentPlanesFit(d, 2);
    assert Present(d.planes, 1) == 0 && Present(d.planes, 2) == 1;
    DeclaredWithoutWrap(RecordFor(d, 2, 48000).header);
  }

  /** One frame for two speakers, of which only the second has a plane: the record is a sample too short. */
  lemma MissingPlaneMisframes()
    ensures var d := AudioData([None, Some([0.5]), None, None, None, None, None, None], 1, 0);
      var r := RecordFor(d, 2, 48000);
      Sound(d) && |Cells(r)| + 1 == DeclaredCells(r.header)
  {
    hide RecordFor, Cells, DeclaredCells;
    var planes: seq<Option<seq<real>>> := [None, Some([0.5]), None, None, None, None, None, None];
    assert planes[0].None? && planes[1].Some?;
    OneSampleShort(AudioData(planes, 1, 0));
  }

  lemma DeclaredWithoutWrap(h: Header)
    requires h.speakers * h.frames * CELL_BYTES < UINT32
    ensures DeclaredCells(h) == HEADER_CELLS + h.speakers * h.frames
  {
  }

  lemma FewerPlanes(present: nat, speakers: nat, frames: nat)
    requires present < speakers
    ensures present * frames + frames <= speakers * frames
  {
    var missing: nat := speakers - present - 1;
    assert missing * frames >= 0;
    assert speakers * frames == (present + 1 + missing) * frames == present * frames + frames + missing * frames;
  }

  lemma {:induction false} AllPlanesAt(d: AudioData, n: nat, ch: nat)
    requires ch < n <= |d.planes|
    requires forall k :: 0 <= k < n ==> d.planes[k].Some?
    ensures |PresentPlanes(d.planes, n)| == n
    ensures PresentPlanes(d.planes, n)[ch] == d.planes[ch].value
    ensures PresentPlanes(d.planes, n)[..ch] == PresentPlanes(d.planes, ch)
  {
    AllPresent(d.planes, n);
    AllPresent(d.planes, n - 1);
    AllPresent(d.planes, ch);
    if ch < n - 1 {
      AllPlanesAt(d, n - 1, ch);
    }
  }

  /** The frames of the caller's block, column by column. */
  function DataFrames(d: AudioData, speakers: nat): (frames: seq<Frame>)
    requires |d.planes| == MAX_AV_PLANES && speakers <= MAX_AV_PLANES
    ensures |frames| == d.frames
  {
    seq(d.frames, i requires 0 <= i < d.frames => DataFrame(d, speakers, i))
  }

  function DataFrame(d: AudioData, speakers: nat, i: nat): Frame
    requires |d.planes| == MAX_AV_PLANES && speakers <= MAX_AV_PLANES
  {
    seq(speakers, ch requires 0 <= ch < speakers =>
      if d.planes[ch].Some? && i < |d.planes[ch].value| then d.planes[ch].value[i] else 0.0)
  }

  /** Decoding the record of a complete block through its header gives back the planes. */
  lemma RecordRoundTrip(d: AudioData, speakers: nat, samplesPerSec: nat)
    requires Sound(d) && speakers <= MAX_AV_PLANES && samplesPerSec < UINT32 && Complete(d, speakers)
    ensures var r := RecordFor(d, speakers, samplesPerSec);
      WellFormed(r) && FramesOf(r) == DataFrames(d, speakers)
  {
    RecordIsWellFormed(d, speakers, samplesPerSec);
    var r := RecordFor(d, speakers, samplesPerSec);
    forall i | 0 <= i < d.frames ensures FramesOf(r)[i] == DataFrame(d, speakers, i) {
      forall ch | 0 <= ch < speakers ensures FrameAt(r, i)[ch] == DataFrame(d, speakers, i)[ch] {
        AllPlanesAt(d, speakers, ch);
      }
    }
  }

  lemma RecordIsWellFormed(d: AudioData, speakers: nat, samplesPerSec: nat)
    requires Sound(d) && speakers <= MAX_AV_PLANES && samplesPerSec < UINT32 && Complete(d, speakers)
    ensures WellFormed(RecordFor(d, speakers, samplesPerSec))
  {
    var h, planes := HeaderFor(d, speakers, samplesPerSec), PresentPlanes(d.planes, speakers);
    PresentPlanesFit(d, speakers);
    IndicesFit(d, speakers, samplesPerSec);
    if d.frames > 0 {
      AllPresent(d.planes, speakers);
      forall ch | 0 <= ch < speakers ensures Before(planes, ch) == ch * d.frames {
        AllPlanesAt(d, speakers, ch);
        AllPresent(d.planes, ch);
        PresentPlanesFit(d, ch);
      }
      assert Indexed(h, planes);
    }
  }

  lemma IndicesFit(d: AudioData, speakers: nat, samplesPerSec: nat)
    requires Sound(d) && speakers <= MAX_AV_PLANES && Complete(d, speakers)
    ensures Present(d.planes, speakers) * d.frames * CELL_BYTES < UINT32
    ensures var h := HeaderFor(d, speakers, samplesPerSec);
      && (forall i :: 0 <= i < MAX_AV_PLANES ==> h.dataIdx[i] < UINT64)
      && (d.frames > 0 ==> forall ch :: 0 <= ch < speakers ==>
            h.dataIdx[ch] == HEADER_BYTES + ch * d.frames * CELL_BYTES)
  {
    AllPresent(d.planes, speakers);
    if d.frames > 0 {
      forall ch | 0 <= ch < speakers ensures IndexOfPlane(d, ch) == HEADER_BYTES + ch * d.frames * CELL_BYTES {
        AllPresent(d.planes, ch);
        FewerPlanes(ch, speakers, d.frames);
        assert ch * d.frames * CELL_BYTES < UINT32;
      }
    }
  }
}
