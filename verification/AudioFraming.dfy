/** When the cells of the audio buffer can be read as records at all, after a push (src/sources/audio-capture.cpp). */
module AudioFraming {
  import opened Schema
  import opened AudioRecord
  import opened AudioCapture

  ghost predicate AllWellFormed(chunks: seq<Chunk>) {
    forall i :: 0 <= i < |chunks| ==> WellFormed(chunks[i])
  }

  /** The header that starts the cells of a record. */
  lemma HeaderInFront(c: Chunk, rest: seq<Cell>)
    requires Fits(c.header)
    ensures |Cells(c) + rest| >= HEADER_CELLS && DecodeHeader(Cells(c) + rest) == c.header
  {
    var samples := SampleCells(Concat(c.planes));
    assert Cells(c) + rest == EncodeHeader(c.header) + (samples + rest);
    HeaderRoundTrip(c.header, samples + rest);
  }

  lemma SameFront(a: seq<Cell>, x: seq<Cell>, b: seq<Cell>, y: seq<Cell>)
    requires a + x == b + y && |a| == |b|
    ensures a == b && x == y
  {
    assert a == (a + x)[..|a|] && x == (a + x)[|a|..];
    assert b == (b + y)[..|b|] && y == (b + y)[|b|..];
  }

  /** Two readings of the same cells start with records of the same header and size. */
  lemma SameHead(c: Chunk, x: seq<Cell>, d: Chunk, y: seq<Cell>)
    requires WellFormed(c) && WellFormed(d) && Cells(c) + x == Cells(d) + y
    ensures c.header == d.header && x == y
  {
    hide WellFormed, Cells, DeclaredCells, DecodeHeader;
    WellFormedFits(c);
    WellFormedFits(d);
    HeaderInFront(c, x);
    HeaderInFront(d, y);
    DeclaredIsActual(c);
    DeclaredIsActual(d);
    SameFront(Cells(c), x, Cells(d), y);
  }

  lemma WellFormedFits(c: Chunk)
    requires WellFormed(c)
    ensures Fits(c.header)
  {
  }

  lemma FirstOf(chunks: seq<Chunk>)
    requires chunks != [] && AllWellFormed(chunks)
    ensures AllCells(chunks) == Cells(chunks[0]) + AllCells(chunks[1..])
    ensures WellFormed(chunks[0]) && AllWellFormed(chunks[1..])
  {
  }

  lemma SomeRecord(chunks: seq<Chunk>)
    requires AllCells(chunks) != []
    ensures chunks != []
  {
  }

  /** Cells are read in one way only: behind the records that a buffer is known to hold, another reading of it goes on
      where they end. */
  lemma {:induction false} ReadAlike(kept: seq<Chunk>, tail: seq<Cell>, chunks: seq<Chunk>)
    requires AllWellFormed(kept) && AllWellFormed(chunks) && tail != []
    requires AllCells(kept) + tail == AllCells(chunks)
    ensures |kept| < |chunks| && AllCells(chunks[|kept|..]) == tail
  {
    hide WellFormed, Cells, AllWellFormed;
    assert |AllCells(chunks)| > 0;
    SomeRecord(chunks);
    if kept == [] {
      assert AllCells(kept) + tail == tail && chunks[0..] == chunks;
    } else {
      FirstOf(kept);
      FirstOf(chunks);
      assert Cells(kept[0]) + (AllCells(kept[1..]) + tail) == AllCells(kept) + tail;
      SameHead(kept[0], AllCells(kept[1..]) + tail, chunks[0], AllCells(chunks[1..]));
      ReadAlike(kept[1..], tail, chunks[1..]);
      assert chunks[1..][|kept| - 1..] == chunks[|kept|..];
    }
  }

  lemma HeaderFits(d: AudioData, speakers: nat, samplesPerSec: nat)
    requires Sound(d) && speakers <= MAX_AV_PLANES && samplesPerSec < UINT32
    ensures Fits(HeaderFor(d, speakers, samplesPerSec))
  {
    var h := HeaderFor(d, speakers, samplesPerSec);
    forall i | 0 <= i < MAX_AV_PLANES ensures h.dataIdx[i] < UINT64 {
      assert i < speakers ==> h.dataIdx[i] == IndexOfPlane(d, i);
    }
  }

  /** A well-formed record under the header of a block: the block must be complete. */
  lemma ReadAsRecord(d: AudioData, speakers: nat, samplesPerSec: nat, c: Chunk)
    requires Sound(d) && speakers <= MAX_AV_PLANES
    requires WellFormed(c) && c.header == HeaderFor(d, speakers, samplesPerSec)
    requires |Cells(c)| <= |Cells(RecordFor(d, speakers, samplesPerSec))|
    ensures Complete(d, speakers)
  {
    hide Concat, PresentPlanes, Present, IndexOfPlane, Complete, Indexed;
    CompleteIff(d, speakers);
    PresentPlanesFit(d, speakers);
    SameProductIff(Present(d.planes, speakers), speakers, d.frames);
    ConcatLength(c.planes, d.frames);
    SamePlanes(c, speakers);
  }

  lemma SamePlanes(c: Chunk, speakers: nat)
    requires WellFormed(c) && c.header.speakers == speakers
    ensures c.header.frames == 0 || |c.planes| == speakers
    ensures |Concat(c.planes)| * CELL_BYTES < UINT32
  {
  }

  /** Whether the cells can be read as records, with the counter counting their frames. */
  ghost predicate Readable(cells: seq<Cell>, frames: nat, scratch: nat, speakers: nat) {
    exists chunks :: Consistent(chunks, cells, frames, scratch, speakers)
  }

  lemma ConsistentIsWellFormed(chunks: seq<Chunk>, cells: seq<Cell>, frames: nat, scratch: nat, speakers: nat)
    requires Consistent(chunks, cells, frames, scratch, speakers)
    ensures AllWellFormed(chunks) && cells == AllCells(chunks)
  {
  }

  /** What a push appends to a readable buffer can be read, if and only if the block is complete: with a plane missing,
      or a size beyond 32 bits, no reading of the buffer exists any more. */
  lemma PushIsReadableIff(kept: seq<Chunk>, cells: seq<Cell>, frames: nat, scratch: nat, speakers: nat,
                          d: AudioData, samplesPerSec: nat, scratch': nat)
    requires Consistent(kept, cells, frames, scratch, speakers)
    requires Sound(d) && speakers <= MAX_AV_PLANES && samplesPerSec < UINT32
    requires scratch <= scratch' && DeclaredCells(HeaderFor(d, speakers, samplesPerSec)) <= scratch'
    ensures Readable(cells + Cells(RecordFor(d, speakers, samplesPerSec)), frames + d.frames, scratch', speakers)
      <==> Complete(d, speakers)
  {
    hide Consistent, WellFormed, Cells, Complete, DeclaredCells, FramesOf;
    var r := RecordFor(d, speakers, samplesPerSec);
    if Complete(d, speakers) {
      RecordRoundTrip(d, speakers, samplesPerSec);
      QueueRecord(kept, cells, frames, scratch, speakers, r, scratch');
    }
    var cells', frames' := cells + Cells(r), frames + d.frames;
    if chunks :| Consistent(chunks, cells', frames', scratch', speakers) {
      ConsistentIsWellFormed(kept, cells, frames, scratch, speakers);
      ConsistentIsWellFormed(chunks, cells', frames', scratch', speakers);
      ReadIsComplete(kept, chunks, r, d, speakers, samplesPerSec);
    }
  }

  /** A reading of the buffer behind a push. */
  lemma ReadIsComplete(kept: seq<Chunk>, chunks: seq<Chunk>, r: Chunk, d: AudioData, speakers: nat, samplesPerSec: nat)
    requires AllWellFormed(kept) && AllWellFormed(chunks)
    requires Sound(d) && speakers <= MAX_AV_PLANES && samplesPerSec < UINT32
    requires r == RecordFor(d, speakers, samplesPerSec) && AllCells(kept) + Cells(r) == AllCells(chunks)
    ensures Complete(d, speakers)
  {
    hide WellFormed, Cells, Complete, AllWellFormed, AllCells;
    HeaderFits(d, speakers, samplesPerSec);
    HeaderInFront(r, []);
    assert Cells(r) + [] == Cells(r);
    ReadAlike(kept, Cells(r), chunks);
    LastIsRead(chunks, |kept|, r, d, speakers, samplesPerSec);
  }

  lemma LastIsRead(chunks: seq<Chunk>, k: nat, r: Chunk, d: AudioData, speakers: nat, samplesPerSec: nat)
    requires AllWellFormed(chunks) && k < |chunks| && AllCells(chunks[k..]) == Cells(r)
    requires Sound(d) && speakers <= MAX_AV_PLANES && samplesPerSec < UINT32
    requires r == RecordFor(d, speakers, samplesPerSec)
    ensures Complete(d, speakers)
  {
    hide WellFormed, Cells, Complete, DecodeHeader, Sound;
    var rest := chunks[k..];
    assert AllWellFormed(rest);
    FirstOf(rest);
    HeaderFits(d, speakers, samplesPerSec);
    WellFormedFits(rest[0]);
    HeaderInFront(rest[0], AllCells(rest[1..]));
    HeaderInFront(r, []);
    assert Cells(r) + [] == Cells(r);
    ReadAsRecord(d, speakers, samplesPerSec, rest[0]);
  }
}
