/** The selectable frame rates of a property widget (shared/properties-view/properties-view.cpp). */
module FrameRates {
  import opened Schema

  datatype Fps = Fps(numerator: nat, denominator: nat)

  datatype CommonFrameRate = CommonFrameRate(name: Option<string>, fps: Fps)

  datatype Range = Range(first: Fps, second: Fps)

  predicate Proper(f: Fps) { f.denominator > 0 }

  /** `media_frames_per_second_to_fps`, without rounding. */
  function Rate(f: Fps): real
    requires Proper(f)
  {
    f.numerator as real / f.denominator as real
  }

  const GAP: real := 0.01

  predicate AllProper(items: seq<CommonFrameRate>) {
    forall i :: 0 <= i < |items| ==> Proper(items[i].fps)
  }

  /** Fastest first, at least `GAP` apart. */
  ghost predicate Spaced(items: seq<CommonFrameRate>) {
    && AllProper(items)
    && forall i, j :: 0 <= i < j < |items| ==> Rate(items[i].fps) - Rate(items[j].fps) >= GAP
  }

  /** Some entry is less than `GAP` away. */
  ghost predicate Covered(items: seq<CommonFrameRate>, f: Fps)
    requires AllProper(items) && Proper(f)
  {
    exists i :: 0 <= i < |items| && -GAP < Rate(items[i].fps) - Rate(f) < GAP
  }

  /** The list with one unnamed entry put in, or the list itself. */
  ghost predicate ExtendedBy(items: seq<CommonFrameRate>, f: Fps, items': seq<CommonFrameRate>) {
    items' == items
    || exists k :: 0 <= k <= |items| && items' == items[..k] + [CommonFrameRate(None, f)] + items[k..]
  }

  /** Insert an endpoint in front of the first slower entry, unless an entry close to it comes first. */
  method InsertFps(items: seq<CommonFrameRate>, fps: Fps) returns (items': seq<CommonFrameRate>)
    requires Spaced(items) && Proper(fps)
    ensures Spaced(items') && ExtendedBy(items, fps, items')
    ensures Covered(items', fps)
    ensures items' == items <==> Covered(items, fps)
  {
    var i := 0;
    while i < |items|
      invariant i <= |items|
      invariant forall k :: 0 <= k < i ==> Rate(items[k].fps) - Rate(fps) >= GAP
    {
      var difference := Rate(items[i].fps) - Rate(fps);
      if -GAP < difference < GAP {
        return items;
      }
      if difference > 0.0 {
        i := i + 1;
        continue;
      }
      break;
    }
    items' := items[..i] + [CommonFrameRate(None, fps)] + items[i..];
    assert items'[i].fps == fps;
    forall k | i <= k < |items| ensures Rate(fps) - Rate(items[k].fps) >= GAP {
      assert k == i || Rate(items[i].fps) - Rate(items[k].fps) >= GAP;
    }
    assert |items'| == |items| + 1;
  }

  /** Both endpoints of every range are near an entry, every entry is old or an endpoint, the old ones are all there,
      and the list is spaced as before (so the old ones are in their old order). */
  method AddFPSRanges(items: seq<CommonFrameRate>, ranges: seq<Range>) returns (items': seq<CommonFrameRate>)
    requires Spaced(items)
    requires forall r :: 0 <= r < |ranges| ==> Proper(ranges[r].first) && Proper(ranges[r].second)
    ensures Spaced(items')
    ensures forall e :: e in items ==> e in items'
    ensures forall e :: e in items' ==> e in items || (e.name.None? && IsEndpoint(ranges, e.fps))
    ensures forall r :: 0 <= r < |ranges| ==> Covered(items', ranges[r].first) && Covered(items', ranges[r].second)
  {
    hide Covered;
    items' := items;
    for r := 0 to |ranges|
      invariant Spaced(items')
      invariant forall e :: e in items ==> e in items'
      invariant forall e :: e in items' ==> e in items || (e.name.None? && IsEndpoint(ranges, e.fps))
      invariant forall k :: 0 <= k < r ==> Covered(items', ranges[k].first) && Covered(items', ranges[k].second)
    {
      var more := AddRange(items', ranges[r]);
      assert IsEndpoint(ranges, ranges[r].first) && IsEndpoint(ranges, ranges[r].second);
      forall k | 0 <= k < r ensures Covered(more, ranges[k].first) && Covered(more, ranges[k].second) {
        StaysCovered(items', more, ranges[k].first);
        StaysCovered(items', more, ranges[k].second);
      }
      items' := more;
    }
  }

  method AddRange(items: seq<CommonFrameRate>, range: Range) returns (items': seq<CommonFrameRate>)
    requires Spaced(items) && Proper(range.first) && Proper(range.second)
    ensures Spaced(items')
    ensures forall e :: e in items ==> e in items'
    ensures forall e :: e in items' ==>
      e in items || e == CommonFrameRate(None, range.first) || e == CommonFrameRate(None, range.second)
    ensures Covered(items', range.first) && Covered(items', range.second)
  {
    var with1 := InsertFps(items, range.first);
    items' := InsertFps(with1, range.second);
    ExtensionKeeps(items, range.first, with1);
    ExtensionKeeps(with1, range.second, items');
    StaysCovered(with1, items', range.first);
  }

  ghost predicate IsEndpoint(ranges: seq<Range>, f: Fps) {
    exists r :: 0 <= r < |ranges| && (ranges[r].first == f || ranges[r].second == f)
  }

  lemma ExtensionKeeps(items: seq<CommonFrameRate>, f: Fps, items': seq<CommonFrameRate>)
    requires ExtendedBy(items, f, items')
    ensures forall e :: e in items ==> e in items'
    ensures forall e :: e in items' ==> e in items || e == CommonFrameRate(None, f)
  {
  }

  lemma StaysCovered(items: seq<CommonFrameRate>, items': seq<CommonFrameRate>, f: Fps)
    requires AllProper(items) && AllProper(items') && Proper(f) && Covered(items, f)
    requires forall e :: e in items ==> e in items'
    ensures Covered(items', f)
  {
    var i :| 0 <= i < |items| && -GAP < Rate(items[i].fps) - Rate(f) < GAP;
    assert items[i] in items';
  }
}
