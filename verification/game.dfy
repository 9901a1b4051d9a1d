/** The caterpillar game's state machine: one record of game state and a
    pure transition function per key handler and per timer tick.

    Units: positions in hundredths of a turtle unit (see Geometry), speeds in
    hundredths, so the game's speed 1.5 is 150 and one step of the head is
    `10 * speed` hundredths. */
module Game {
  import opened Geometry
  import opened Caterpillar

  datatype Difficulty = Easy | Normal | Hard

  /** Speed a game of this difficulty starts with: 1.5, 2 or 3. The setters
      and `reset_game` each write these literals themselves; `SetDifficulty`
      and `ResetGame` are checked against this table. */
  function BaseSpeed(d: Difficulty): (v: nat)
    ensures v == 150 <==> d == Easy
    ensures v == 200 <==> d == Normal
    ensures v == 300 <==> d == Hard
  {
    match d
    case Easy => 150
    case Normal => 200
    case Hard => 300
  }

  /** Speed gained per leaf eaten: 0.05, 0.1 or 0.2. `game_loop` computes
      it with its own if-chain; `EatLeaf` is checked against this table. */
  function SpeedIncrement(d: Difficulty): (v: nat)
    ensures v == 5 <==> d == Easy
    ensures v == 10 <==> d == Normal
    ensures v == 20 <==> d == Hard
  {
    match d
    case Easy => 5
    case Normal => 10
    case Hard => 20
  }

  /** Width and height of the window, in units. */
  const WindowSize: int := 700
  /** How far inside the window edge the walls stand, in units. */
  const WallMargin: int := 20
  /** How far inside the window edge leaves are kept, in units. */
  const LeafMargin: int := 200

  /** Largest |coordinate| of a head still inside the walls (330 units). */
  const WallLimit: int := (WindowSize / 2 - WallMargin) * Scale
  /** Largest |coordinate| `place_leaf` draws, in whole units (150). */
  const LeafRange: int := WindowSize / 2 - LeafMargin
  /** The head eats the leaf when it is closer than 20 units. */
  const PickupRadius: nat := 20 * Scale
  /** The head bites a segment when it is closer than 10 units. */
  const BiteRadius: nat := 10 * Scale

  datatype GameState = GameState(
    started: bool,
    paused: bool,
    score: nat,
    highScore: nat,
    speed: nat,
    difficulty: Difficulty,
    head: Point,
    heading: Heading,
    segments: seq<Point>,
    leaf: Point)

  /** The state `__init__` builds: idle, Normal difficulty at speed 2, no
      segments, head and (hidden) leaf at the origin, heading 0. */
  const Initial: GameState :=
    GameState(false, false, 0, 0, 200, Normal, Origin, Right, [], Origin)

  /** The two `random.randint` results one `place_leaf` call draws, in whole
      units. */
  datatype Draw = Draw(x: int, y: int)

  predicate InPlacementBox(d: Draw)
  {
    -LeafRange <= d.x <= LeafRange && -LeafRange <= d.y <= LeafRange
  }

  /** Where a leaf may lie: at most 350 - 200 units from the centre on each axis. */
  predicate LeafInBounds(p: Point)
  {
    Abs(p.x) <= LeafRange * Scale && Abs(p.y) <= LeafRange * Scale
  }

  /** `place_leaf` without its sound: the leaf goes to the drawn point. */
  function PlaceLeaf(d: Draw): (p: Point)
    requires InPlacementBox(d)
    ensures LeafInBounds(p)
    ensures p.x % Scale == 0 && p.y % Scale == 0
  {
    Point(d.x * Scale, d.y * Scale)
  }

  /** `set_easy/normal/hard_difficulty`: only while no game runs. */
  function SetDifficulty(s: GameState, d: Difficulty): (r: GameState)
    ensures s.started ==> r == s
    ensures !s.started ==> r.difficulty == d && r.speed == BaseSpeed(d)
    ensures r.(difficulty := s.difficulty, speed := s.speed) == s
  {
    if s.started then s
    else
      match d
      case Easy => s.(difficulty := Easy, speed := 150)
      case Normal => s.(difficulty := Normal, speed := 200)
      case Hard => s.(difficulty := Hard, speed := 300)
  }

  /** `move_up/down/left/right`: turn to `h` unless the game is idle or
      paused, or the turtle's heading in degrees is that of the reverse of
      `h` (the handlers test `heading() != 270` and so on). */
  function Turn(s: GameState, h: Heading): (r: GameState)
    ensures r != s <==> s.started && !s.paused && s.heading != h && s.heading != Opposite(h)
    ensures r.heading == h || r.heading == s.heading
    ensures r.(heading := s.heading) == s
  {
    DegreesInjective(s.heading, Opposite(h));
    if s.started && !s.paused && Degrees(s.heading) != Degrees(Opposite(h)) then s.(heading := h) else s
  }

  /** `is_outside_window`: the head has crossed one of the four walls. */
  predicate IsOutsideWindow(p: Point)
  {
    p.x < -WallLimit || p.x > WallLimit || p.y < -WallLimit || p.y > WallLimit
  }

  lemma InsideWindowIsBox(p: Point)
    ensures !IsOutsideWindow(p) <==> Abs(p.x) <= WallLimit && Abs(p.y) <= WallLimit
  {
  }

  /** The self-collision loop of `game_loop`: some segment lies within 10
      units of the head. */
  function BitesSelf(head: Point, segs: seq<Point>): (b: bool)
    ensures b <==> exists i :: 0 <= i < |segs| && Within(head, segs[i], BiteRadius)
  {
    if |segs| == 0 then false
    else if Within(head, segs[0], BiteRadius) then true
    else
      var rest := BitesSelf(head, segs[1..]);
      assert forall i :: 1 <= i < |segs| ==> segs[i] == segs[1..][i - 1];
      rest
  }

  /** `grow_caterpillar` applied to the state. */
  function GrowState(s: GameState): (r: GameState)
    ensures |r.segments| == |s.segments| + 1
    ensures r.segments[..|s.segments|] == s.segments
    ensures |s.segments| > 0 ==> r.segments[|s.segments|] == s.segments[|s.segments| - 1]
    ensures |s.segments| == 0 ==> Forward(r.segments[0], s.heading, SegmentGap) == s.head
    ensures r.(segments := s.segments) == s
  {
    s.(segments := Grow(s.head, s.heading, s.segments))
  }

  /** `move_caterpillar`: shift the body one place towards the head, then
      move the head `10 * speed` along its heading. */
  function MoveCaterpillar(s: GameState): (r: GameState)
    ensures |r.segments| == |s.segments|
    ensures |s.segments| > 0 ==> r.segments[0] == s.head
    ensures forall i :: 1 <= i < |r.segments| ==> r.segments[i] == s.segments[i - 1]
    ensures SqDist(s.head, r.head) == (10 * s.speed) * (10 * s.speed)
    ensures Forward(r.head, Opposite(s.heading), 10 * s.speed) == s.head
    ensures r.(head := s.head, segments := s.segments) == s
  {
    ForwardThenBack(s.head, s.heading, 10 * s.speed);
    s.(segments := Follow(s.head, s.segments),
       head := Forward(s.head, s.heading, 10 * s.speed))
  }

  /** The pickup branch of `game_loop`: a new leaf, one more segment, one
      more point and a faster caterpillar. */
  function EatLeaf(s: GameState, d: Draw): (r: GameState)
    requires InPlacementBox(d)
    ensures r.score == s.score + 1
    ensures |r.segments| == |s.segments| + 1 && r.segments[..|s.segments|] == s.segments
    ensures |s.segments| > 0 ==> r.segments[|s.segments|] == s.segments[|s.segments| - 1]
    ensures |s.segments| == 0 ==> Forward(r.segments[0], s.heading, SegmentGap) == s.head
    ensures r.speed == s.speed + SpeedIncrement(s.difficulty)
    ensures LeafInBounds(r.leaf)
    ensures r.(score := s.score, segments := s.segments, speed := s.speed, leaf := s.leaf) == s
  {
    var grown := GrowState(s.(leaf := PlaceLeaf(d)));
    var increment := if s.difficulty == Hard then 20
                     else if s.difficulty == Easy then 5
                     else 10;
    grown.(score := s.score + 1, speed := s.speed + increment)
  }

  /** `reset_game`: back to idle with an empty body, the head at the origin
      heading 0, the score cleared into the high score and the speed back to
      the difficulty's base. The leaf stays where it was. */
  function ResetGame(s: GameState): (r: GameState)
    ensures !r.started && !r.paused
    ensures r.score == 0 && r.segments == []
    ensures r.head == Origin && r.heading == Right
    ensures r.speed == BaseSpeed(s.difficulty)
    ensures r.highScore >= s.highScore && r.highScore >= s.score
    ensures r.highScore == s.highScore || r.highScore == s.score
    ensures r.difficulty == s.difficulty && r.leaf == s.leaf
  {
    var high := if s.score > s.highScore then s.score else s.highScore;
    var speed := if s.difficulty == Easy then 150
                 else if s.difficulty == Hard then 300
                 else 200;
    GameState(false, false, 0, high, speed, s.difficulty, Origin, Right, [], s.leaf)
  }

  /** `game_over` without its screen: record the high score, then reset. */
  function GameOver(s: GameState): (r: GameState)
    ensures r.highScore >= s.highScore && r.highScore >= s.score
    ensures r.highScore == s.highScore || r.highScore == s.score
    ensures !r.started && r.score == 0 && r.segments == []
  {
    var recorded := if s.score > s.highScore then s.(highScore := s.score) else s;
    ResetGame(recorded)
  }

  /** Recording the high score in `game_over` is redundant: `reset_game`
      records it too. */
  lemma GameOverIsReset(s: GameState)
    ensures GameOver(s) == ResetGame(s)
  {
  }

  /** The head has hit a wall or its own body. */
  predicate Collides(s: GameState)
  {
    IsOutsideWindow(s.head) || BitesSelf(s.head, s.segments)
  }

  /** The state after the move and the pickup check of one tick. */
  function Fed(m: GameState, d: Draw): (r: GameState)
    requires InPlacementBox(d)
  {
    if Within(m.head, m.leaf, PickupRadius) then EatLeaf(m, d) else m
  }

  /** One `game_loop` tick. A tick does nothing while the game is idle or
      paused; otherwise it moves, eats a leaf within reach, and ends the game
      on a wall or self collision. */
  function Tick(s: GameState, d: Draw): (r: GameState)
    requires InPlacementBox(d)
    ensures !s.started || s.paused ==> r == s
    ensures r.highScore >= s.highScore
    ensures r.difficulty == s.difficulty
    ensures s.started && !s.paused && r.started ==> r.highScore == s.highScore && !Collides(r)
  {
    if !s.started || s.paused then s
    else
      var f := Fed(MoveCaterpillar(s), d);
      if Collides(f) then GameOver(f) else f
  }

  /** The first half of `start_game`: a fresh two-segment caterpillar at the
      origin heading 0 and a new leaf. Paused, speed, difficulty and high
      score are left alone. */
  function Launch(s: GameState, d: Draw): (r: GameState)
    requires InPlacementBox(d)
    ensures r.started && r.score == 0
    ensures r.head == Origin && r.heading == Right
    ensures r.segments == [Point(-SegmentGap, 0), Point(-SegmentGap, 0)]
    ensures LeafInBounds(r.leaf)
    ensures r.paused == s.paused && r.speed == s.speed
    ensures r.difficulty == s.difficulty && r.highScore == s.highScore
  {
    var placed := s.(started := true, score := 0, head := Origin, heading := Right, segments := []);
    var once := GrowState(placed);
    var twice := GrowState(once);
    twice.(leaf := PlaceLeaf(d))
  }

  /** `start_game`: nothing while a game runs; otherwise launch a fresh
      caterpillar and run the first tick at once, as the handler calls
      `game_loop` itself. */
  function StartGame(s: GameState, first: Draw, second: Draw): (r: GameState)
    requires InPlacementBox(first) && InPlacementBox(second)
    ensures s.started ==> r == s
    ensures !s.started ==> r.highScore >= s.highScore && r.difficulty == s.difficulty
    ensures !s.started && r.started ==> r.score <= 1 && |r.segments| == r.score + 2
    ensures !s.started ==> r == Tick(Launch(s, first), second)
  {
    if s.started then s else Tick(Launch(s, first), second)
  }

  /** `toggle_pause`: flips the pause flag while a game runs. Unpausing calls
      `game_loop` at once, so it also runs one tick. */
  function TogglePause(s: GameState, d: Draw): (r: GameState)
    requires InPlacementBox(d)
    ensures !s.started ==> r == s
    ensures s.started ==> r.paused == !s.paused
    ensures s.started && !s.paused ==> r == s.(paused := true)
    ensures s.started && s.paused ==> r == Tick(s.(paused := false), d)
  {
    if !s.started then s
    else if s.paused then Tick(s.(paused := false), d)
    else s.(paused := true)
  }
}
