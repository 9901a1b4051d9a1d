/** A session of play as a sequence of events: key presses and timer
    firings, each dispatched to its handler. The invariant every session
    keeps, the high score as a running maximum, and the freeze of a paused
    game are stated here. */
module Session {
  import opened Geometry
  import opened Caterpillar
  import opened Game

  /** An input the game reacts to. Each event carries the random draws the
      handler may need for a new leaf. */
  datatype Event =
    | SpaceKey(first: Draw, second: Draw)
    | ArrowKey(toward: Heading)
    | PauseKey(draw: Draw)
    | DifficultyKey(level: Difficulty)
    | TimerFired(draw: Draw)

  /** The draws an event carries are what `random.randint` can return. */
  predicate FairDraws(e: Event)
  {
    match e
    case SpaceKey(a, b) => InPlacementBox(a) && InPlacementBox(b)
    case PauseKey(d) => InPlacementBox(d)
    case TimerFired(d) => InPlacementBox(d)
    case ArrowKey(_) => true
    case DifficultyKey(_) => true
  }

  predicate AllFair(es: seq<Event>)
  {
    forall i :: 0 <= i < |es| ==> FairDraws(es[i])
  }

  /** Dispatch of one event, as the key bindings and the timer do it. The
      high score never drops, and it moves only when a game ends. */
  function Step(s: GameState, e: Event): (r: GameState)
    requires FairDraws(e)
    ensures r.highScore >= s.highScore
    ensures r.highScore != s.highScore ==> !r.started
  {
    match e
    case SpaceKey(a, b) => StartGame(s, a, b)
    case ArrowKey(h) => Turn(s, h)
    case PauseKey(d) => TogglePause(s, d)
    case DifficultyKey(l) => SetDifficulty(s, l)
    case TimerFired(d) => Tick(s, d)
  }

  /** The state after a whole sequence of events. */
  function Run(s: GameState, es: seq<Event>): (r: GameState)
    requires AllFair(es)
    ensures r.highScore >= s.highScore
    decreases |es|
  {
    if |es| == 0 then s else Run(Step(s, es[0]), es[1..])
  }

  /** An idle game: not paused, no score, no body, the head at the origin
      heading 0 and the speed at the difficulty's base. */
  predicate Idle(s: GameState)
  {
    && !s.paused && s.score == 0 && s.segments == []
    && s.head == Origin && s.heading == Right
    && s.speed == BaseSpeed(s.difficulty)
  }

  /** A running game has two segments plus one per leaf eaten, and has sped
      up by the difficulty's increment per leaf. */
  predicate Grown(s: GameState)
  {
    && |s.segments| == s.score + 2
    && s.speed == BaseSpeed(s.difficulty) + s.score * SpeedIncrement(s.difficulty)
  }

  /** What holds between events of every session. */
  predicate Valid(s: GameState)
  {
    && LeafInBounds(s.leaf)
    && (if s.started then Grown(s) && !Collides(s) else Idle(s))
  }

  lemma InitialIsValid()
    ensures Valid(Initial)
  {
  }

  /** A running, unpaused game whose body and speed match its score is
      valid after one tick, whatever the tick does. */
  lemma TickSettles(s: GameState, d: Draw)
    requires InPlacementBox(d)
    requires s.started && !s.paused && Grown(s) && LeafInBounds(s.leaf)
    ensures Valid(Tick(s, d))
  {
    var m := MoveCaterpillar(s);
    var f := Fed(m, d);
    if Within(m.head, m.leaf, PickupRadius) {
      var inc := SpeedIncrement(s.difficulty);
      assert f.speed == BaseSpeed(s.difficulty) + s.score * inc + inc;
      assert (s.score + 1) * inc == s.score * inc + inc;
      assert Grown(f);
    }
  }

  lemma {:induction false} StepPreservesValid(s: GameState, e: Event)
    requires FairDraws(e) && Valid(s)
    ensures Valid(Step(s, e))
  {
    match e
    case SpaceKey(a, b) =>
      if !s.started {
        TickSettles(Launch(s, a), b);
      }
    case ArrowKey(h) =>
      assert Turn(s, h).(heading := s.heading) == s;
    case PauseKey(d) =>
      if s.started && s.paused {
        TickSettles(s.(paused := false), d);
      }
    case DifficultyKey(l) =>
    case TimerFired(d) =>
      if s.started && !s.paused {
        TickSettles(s, d);
      }
  }

  /** Every session that begins in a valid state stays valid: in particular
      a running caterpillar always has `score + 2` segments, is inside the
      walls and does not touch itself, and the leaf is always in its box. */
  lemma {:induction false} RunPreservesValid(s: GameState, es: seq<Event>)
    requires AllFair(es) && Valid(s)
    ensures Valid(Run(s, es))
    decreases |es|
  {
    if |es| > 0 {
      StepPreservesValid(s, es[0]);
      RunPreservesValid(Step(s, es[0]), es[1..]);
    }
  }

  /** Running two sequences one after the other is running their
      concatenation. */
  lemma {:induction false} RunAppend(s: GameState, a: seq<Event>, b: seq<Event>)
    requires AllFair(a) && AllFair(b)
    ensures AllFair(a + b)
    ensures Run(s, a + b) == Run(Run(s, a), b)
    decreases |a|
  {
    if |a| > 0 {
      assert (a + b)[0] == a[0];
      assert (a + b)[1..] == a[1..] + b;
      RunAppend(Step(s, a[0]), a[1..], b);
    } else {
      assert a + b == b;
    }
  }

  /** The high score is a running maximum: no later point of a session has
      a lower high score than an earlier one. */
  lemma HighScoreNeverDrops(s: GameState, es: seq<Event>, k: nat)
    requires AllFair(es) && k <= |es|
    ensures AllFair(es[..k])
    ensures Run(s, es[..k]).highScore <= Run(s, es).highScore
  {
    assert es == es[..k] + es[k..];
    RunAppend(s, es[..k], es[k..]);
  }

  /** While paused, only the pause key has any effect: arrows, the space
      key, difficulty keys and timer firings leave the game as it is. */
  lemma {:induction false} PausedGameIsFrozen(s: GameState, es: seq<Event>)
    requires AllFair(es)
    requires s.started && s.paused
    requires forall i :: 0 <= i < |es| ==> !es[i].PauseKey?
    ensures Run(s, es) == s
    decreases |es|
  {
    if |es| > 0 {
      assert Step(s, es[0]) == s;
      PausedGameIsFrozen(s, es[1..]);
    }
  }
}
