/** The caterpillar's body: an ordered sequence of segment positions that
    trails the head. Segment 0 is the one right behind the head, the last
    segment is the tail. */
module Caterpillar {
  import opened Geometry

  /** How far behind the head `grow_caterpillar` seeds a segment when the
      body is empty: 20 units. */
  const SegmentGap: int := 20 * Scale

  /** Follow-the-leader shift of `move_caterpillar`: every segment takes the
      place of the one ahead of it and the first takes the head's place. */
  function Follow(head: Point, segs: seq<Point>): (r: seq<Point>)
    ensures |r| == |segs|
    ensures |r| > 0 ==> r[0] == head
    ensures forall i :: 1 <= i < |r| ==> r[i] == segs[i - 1]
  {
    if |segs| == 0 then [] else [head] + segs[..|segs| - 1]
  }

  /** The shift as the game performs it: a loop from the tail towards the
      head, copying each segment's predecessor into it, and then the head
      into segment 0. */
  method ShiftSegments(head: Point, segs: seq<Point>) returns (r: seq<Point>)
    ensures r == Follow(head, segs)
  {
    r := segs;
    var i: int := |segs| - 1;
    while i > 0
      invariant -1 <= i < |segs|
      invariant |segs| > 0 ==> 0 <= i
      invariant |r| == |segs|
      invariant forall j :: 0 <= j <= i ==> r[j] == segs[j]
      invariant forall j :: i < j < |r| ==> r[j] == segs[j - 1]
    {
      r := r[i := r[i - 1]];
      i := i - 1;
    }
    if |r| > 0 {
      r := r[0 := head];
    }
  }

  /** The point `grow_caterpillar` picks for a first segment: 20 units
      behind a head at `head` moving along `h`. */
  function SeedBehind(head: Point, h: Heading): (p: Point)
    ensures Forward(p, h, SegmentGap) == head
  {
    match h
    case Right => Point(head.x - SegmentGap, head.y)
    case Up => Point(head.x, head.y - SegmentGap)
    case Left => Point(head.x + SegmentGap, head.y)
    case Down => Point(head.x, head.y + SegmentGap)
  }

  /** `grow_caterpillar`: append one segment, on top of the current tail,
      or behind the head when there is no segment yet. */
  function Grow(head: Point, h: Heading, segs: seq<Point>): (r: seq<Point>)
    ensures |r| == |segs| + 1
    ensures r[..|segs|] == segs
    ensures |segs| > 0 ==> r[|segs|] == r[|segs| - 1]
    ensures |segs| == 0 ==> Forward(r[0], h, SegmentGap) == head
  {
    if |segs| > 0 then segs + [segs[|segs| - 1]] else [SeedBehind(head, h)]
  }
}
