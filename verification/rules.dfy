/** What one tick and one start do, stated case by case: the pickup, the
    wall and self-collision thresholds, and the layout of a new game. */
module Rules {
  import opened Geometry
  import opened Caterpillar
  import opened Game

  /** A copy of the tail adds no new way to bite: it sits exactly on a
      segment that was already there. */
  lemma {:induction false} GrownTailAddsNoBite(head: Point, h: Heading, segs: seq<Point>, p: Point)
    requires |segs| > 0
    ensures BitesSelf(p, Grow(head, h, segs)) == BitesSelf(p, segs)
  {
    var g := Grow(head, h, segs);
    if BitesSelf(p, g) {
      var i :| 0 <= i < |g| && Within(p, g[i], BiteRadius);
      var j := if i < |segs| then i else |segs| - 1;
      assert g[..|segs|][j] == segs[j];
      assert Within(p, segs[j], BiteRadius);
    }
    if BitesSelf(p, segs) {
      var i :| 0 <= i < |segs| && Within(p, segs[i], BiteRadius);
      assert g[..|segs|][i] == g[i];
      assert Within(p, g[i], BiteRadius);
    }
  }

  /** A running tick ends the game exactly when the moved head is outside
      the walls or within 10 units of a segment; eating a leaf in the same
      tick changes neither test. */
  lemma TickEndsOnCollision(s: GameState, d: Draw)
    requires InPlacementBox(d)
    requires s.started && !s.paused
    ensures var m := MoveCaterpillar(s);
            !Tick(s, d).started <==> IsOutsideWindow(m.head) || BitesSelf(m.head, m.segments)
  {
    var m := MoveCaterpillar(s);
    if Within(m.head, m.leaf, PickupRadius) && |m.segments| > 0 {
      var g := m.(leaf := PlaceLeaf(d));
      GrownTailAddsNoBite(g.head, g.heading, g.segments, m.head);
    }
  }

  /** A running tick that brings the head within 20 units of the leaf: the
      leaf is eaten. If the game goes on, the score and the body grow by one
      and the speed by the difficulty's increment; if the same tick ends the
      game, the eaten leaf still counts towards the high score. */
  lemma TickPickup(s: GameState, d: Draw)
    requires InPlacementBox(d)
    requires s.started && !s.paused
    ensures var r := Tick(s, d);
            Within(MoveCaterpillar(s).head, s.leaf, PickupRadius) && r.started ==>
              && r.score == s.score + 1
              && |r.segments| == |s.segments| + 1
              && r.segments[..|s.segments|] == Follow(s.head, s.segments)
              && (|s.segments| > 0 ==> r.segments[|s.segments|] == r.segments[|s.segments| - 1])
              && (|s.segments| == 0 ==> Forward(r.segments[0], s.heading, SegmentGap) == r.head)
              && r.speed == s.speed + SpeedIncrement(s.difficulty)
              && r.leaf == PlaceLeaf(d) && LeafInBounds(r.leaf)
              && r.head == MoveCaterpillar(s).head
    ensures var r := Tick(s, d);
            Within(MoveCaterpillar(s).head, s.leaf, PickupRadius) && !r.started ==>
              && r.score == 0 && r.segments == []
              && r.highScore >= s.highScore && r.highScore >= s.score + 1
              && (r.highScore == s.highScore || r.highScore == s.score + 1)
  {
  }

  /** A running tick that does not reach the leaf: if the game goes on,
      only the body and the head have moved. */
  lemma TickWithoutPickup(s: GameState, d: Draw)
    requires InPlacementBox(d)
    requires s.started && !s.paused
    ensures var r := Tick(s, d);
            !Within(MoveCaterpillar(s).head, s.leaf, PickupRadius) && r.started ==>
              && r.segments == Follow(s.head, s.segments)
              && r.head == Forward(s.head, s.heading, 10 * s.speed)
              && r.(head := s.head, segments := s.segments) == s
    ensures var r := Tick(s, d);
            !Within(MoveCaterpillar(s).head, s.leaf, PickupRadius) && !r.started ==>
              && r.score == 0 && r.segments == []
              && r.highScore >= s.highScore && r.highScore >= s.score
              && (r.highScore == s.highScore || r.highScore == s.score)
  {
  }

  /** Segment 0 never ends the game: after a move it lies a full step
      (`10 * speed`, more than 10 units) behind the head. */
  lemma FirstSegmentIsSafe(s: GameState)
    requires s.speed > 100 && |s.segments| > 0
    ensures var m := MoveCaterpillar(s);
            !Within(m.head, m.segments[0], BiteRadius)
  {
    var m := MoveCaterpillar(s);
    var step := 10 * s.speed;
    assert step > BiteRadius;
    assert step * step > BiteRadius * step > BiteRadius * BiteRadius;
    WithinSymmetric(m.head, s.head, BiteRadius);
  }

  /** `start_game` from an idle game at its base speed: the first tick runs
      at once, so the head stands one step right of the origin, segment 0 at
      the origin and segment 1 twenty units behind it, and the game is on
      with a score of 0 or, if the leaf lay within reach, 1. */
  lemma StartFromIdle(s: GameState, first: Draw, second: Draw)
    requires InPlacementBox(first) && InPlacementBox(second)
    requires !s.started && !s.paused && s.speed == BaseSpeed(s.difficulty)
    ensures var r := StartGame(s, first, second);
            && r.started && !r.paused
            && r.head == Point(10 * s.speed, 0) && r.heading == Right
            && |r.segments| == r.score + 2 && r.score <= 1
            && r.segments[0] == Origin && r.segments[1] == Point(-SegmentGap, 0)
            && r.highScore == s.highScore
  {
    var l := Launch(s, first);
    var m := MoveCaterpillar(l);
    assert m.head == Point(10 * s.speed, 0);
    assert m.segments == [Origin, Point(-SegmentGap, 0)];
    assert !BitesSelf(m.head, m.segments) by {
      assert !Within(m.head, m.segments[0], BiteRadius);
      assert !Within(m.head, m.segments[1], BiteRadius);
    }
    TickEndsOnCollision(l, second);
  }

  /** Two arrow keys between ticks can reverse the caterpillar: the
      reversal guard compares against the current heading, not the heading
      of the last move. */
  lemma TwoTurnsCanReverse(s: GameState, side: Heading)
    requires s.started && !s.paused
    requires side != s.heading && side != Opposite(s.heading)
    ensures Turn(Turn(s, side), Opposite(s.heading)).heading == Opposite(s.heading)
  {
  }
}
