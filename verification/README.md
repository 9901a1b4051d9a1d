# Caterpillar game: a Dafny model of the game logic

This project models the game logic of `CaterpillarGame` in
`enhanced_caterpillar_game.py`. That is a turtle-graphics snake game. A
caterpillar moves around a 700×700 window. It eats leaves placed at random
to grow and score. It dies when it hits a wall or bites itself.

With the turtle, sound and timer calls removed, the game is a state machine
over one record, `Game.GameState`. It holds:

- the started and paused flags
- the score and the high score
- the speed and the difficulty
- the head position and heading
- the segment positions
- the leaf position

Every key handler and every timer tick is a pure transition function on that
record.

Modules:

- `Geometry` (geometry.dfy): points, the four headings, the turtle's
  `forward`, and squared distances.
- `Caterpillar` (caterpillar.dfy): the body. It has the follow-the-leader
  shift of `move_caterpillar`, both as a function and as the source's
  tail-to-head loop. It also has `grow_caterpillar`.
- `Game` (game.dfy): the state record, the difficulty table, the window
  constants, and one function per handler. These are `start_game`,
  `toggle_pause`, the difficulty setters, the arrow-key handlers,
  `is_outside_window`, `place_leaf`, `move_caterpillar`, `reset_game`,
  `game_over` and one `game_loop` tick.
- `Rules` (rules.dfy): what one tick and one start do, case by case.
- `Session` (session.dfy): a session as a sequence of events. It proves the
  invariant every session keeps, that the high score never drops, and that a
  paused game stays frozen.

Units. Positions are in hundredths of a turtle unit. Speeds are in
hundredths, so the speed 1.5 is 150 and +0.05 is +5. One step of the head
(`forward(speed * 10)`) is then `10 * speed` hundredths. The source's test
`distance(a, b) < r` becomes "the squared distance is less than `r²`". For
real numbers the two are equivalent.

Points where the model follows the code's exact behaviour:

- `start_game` ends by calling `game_loop` (line 113). So a start runs the
  first tick at once. `Game.Launch` is the state just before that tick: two
  segments at (-20, 0), head at the origin, heading 0. `Game.StartGame` is
  that tick applied to it.
- Unpausing in `toggle_pause` also calls `game_loop` (line 179). So
  unpausing runs one tick at once.
- A first segment is seeded 20 units behind the head (lines 248-255).
- The reversal guard of the arrow keys compares against the current
  heading. So two arrow presses between ticks can turn the caterpillar
  around (`Rules.TwoTurnsCanReverse`).

## Model

| member | source | states |
|---|---|---|
| Geometry.Opposite | enhanced_caterpillar_game.py:363-385 | the reverse heading is the one 180 degrees away, modulo 360 |
| Geometry.Degrees | enhanced_caterpillar_game.py:246-255 | `heading()` reports a multiple of 90 degrees in [0, 360) |
| Geometry.DegreesInjective | enhanced_caterpillar_game.py:366 | two headings report the same degrees exactly when they are the same heading, so the handlers' degree tests decide heading equality |
| Geometry.Forward | enhanced_caterpillar_game.py:272 | `forward(d)` moves `d` towards the heading: +x for 0, +y for 90, -x for 180, -y for 270; it lands exactly `d` away |
| Geometry.ForwardIsOrientationStep | enhanced_caterpillar_game.py:272 | `forward(d)` equals the position plus `d` times the `(cos, sin)` of the heading's degrees |
| Geometry.ForwardThenBack | enhanced_caterpillar_game.py:248-255 | moving `d` forward and then `d` along the reverse heading returns to the start |
| Caterpillar.Follow | enhanced_caterpillar_game.py:259-269 | the body keeps its length, segment 0 takes the old head position, and segment i takes the old segment i-1 |
| Caterpillar.ShiftSegments | enhanced_caterpillar_game.py:261-269 | the source's loop, run from the tail down to index 1 and then on segment 0, computes exactly the follow-the-leader shift |
| Caterpillar.SeedBehind | enhanced_caterpillar_game.py:243-255 | the first segment is placed so that 20 units forward along the heading reaches the head |
| Caterpillar.Grow | enhanced_caterpillar_game.py:231-257 | growing adds exactly one segment and keeps the old ones in place; the new tail sits on the old tail, or 20 units behind the head when there were no segments |
| Game.BaseSpeed | enhanced_caterpillar_game.py:148-167 | the base speed is 1.5 exactly for Easy, 2 exactly for Normal and 3 exactly for Hard; the setters' and `reset_game`'s own literals are checked against it in `SetDifficulty` and `ResetGame` |
| Game.SpeedIncrement | enhanced_caterpillar_game.py:339-343 | the per-leaf increment is 0.05 exactly for Easy, 0.1 exactly for Normal and 0.2 exactly for Hard; the tick's own if-chain is checked against it in `EatLeaf` |
| Game.PlaceLeaf | enhanced_caterpillar_game.py:222-228 | a placed leaf lies within 350 - 200 units of the centre on both axes, at whole-unit coordinates |
| Game.SetDifficulty | enhanced_caterpillar_game.py:148-167 | a running game is untouched; an idle game gets the new difficulty and the speed its setter writes, which equals the base-speed table; no other field changes |
| Game.Turn | enhanced_caterpillar_game.py:363-385 | the state changes exactly when the game runs, is not paused, and the new heading is neither the current one nor its reverse (the handlers' degree test); only the heading can change |
| Game.InsideWindowIsBox | enhanced_caterpillar_game.py:181-190 | the head is inside the window exactly when both of its coordinates are at most 350 - 20 units from the centre |
| Game.BitesSelf | enhanced_caterpillar_game.py:353-357 | the self-collision loop fires exactly when some segment is closer than 10 units to the head |
| Game.GrowState | enhanced_caterpillar_game.py:231-257 | growing adds one segment and keeps the old ones; the new segment copies the last one, or sits 20 units behind the head when there were none; no other field changes |
| Game.MoveCaterpillar | enhanced_caterpillar_game.py:259-272 | the body keeps its length; segment 0 takes the old head and segment i takes the old segment i-1; the head moves exactly `10 * speed` along its heading; no other field changes |
| Game.EatLeaf | enhanced_caterpillar_game.py:333-346 | eating adds exactly one point and one segment, which copies the last segment (or is seeded 20 units behind the head), and raises the speed by the difficulty's increment as the tick's if-chain computes it; the new leaf is in its box; no other field changes |
| Game.ResetGame | enhanced_caterpillar_game.py:274-300 | the game is idle and unpaused with score 0, no segments, head at the origin heading 0, and the speed its difficulty's setter would give (1.5, 2 or 3); the high score becomes the larger of itself and the score |
| Game.GameOver | enhanced_caterpillar_game.py:305-322 | the high score becomes the larger of the old high score and the final score; the game is idle with score 0 and no segments |
| Game.GameOverIsReset | enhanced_caterpillar_game.py:311-312 | the high-score update in `game_over` is redundant with the one in `reset_game` |
| Game.Tick | enhanced_caterpillar_game.py:324-361 | a tick changes nothing while the game is idle or paused; the high score never drops; a tick the game survives keeps the high score and leaves the head clear of the walls and the body |
| Game.Launch | enhanced_caterpillar_game.py:84-109 | a new game has started, score 0, head at the origin heading 0, exactly two segments both at (-20, 0), and a leaf in its box; pause flag, speed, difficulty and high score are kept |
| Game.StartGame | enhanced_caterpillar_game.py:82-113 | start is a no-op while a game runs; otherwise it never lowers the high score or changes the difficulty, a game that survives the first tick has score 0 or 1 and two segments plus one per point, and the result is the fresh layout followed immediately by one tick |
| Game.TogglePause | enhanced_caterpillar_game.py:169-179 | an idle game is untouched; a running game's pause flag flips; pausing changes nothing else; unpausing runs one tick at once |
| Rules.GrownTailAddsNoBite | enhanced_caterpillar_game.py:241-242 | a segment copied from the tail never changes whether the head bites the body |
| Rules.TickEndsOnCollision | enhanced_caterpillar_game.py:348-357 | a running tick ends the game exactly when the moved head is outside the walls or within 10 units of a moved segment, whether or not a leaf was eaten |
| Rules.TickPickup | enhanced_caterpillar_game.py:333-346 | after a tick that reaches the leaf and goes on, score and body are one larger, the old segments have followed the leader and the new one copies the moved tail, speed is one increment higher, and the new leaf is in its box; if the tick ends the game, the leaf still counts towards the high score |
| Rules.TickWithoutPickup | enhanced_caterpillar_game.py:329-361 | after a tick that misses the leaf and goes on, only the head and the body have moved; if it ends the game, the high score records the score |
| Rules.FirstSegmentIsSafe | enhanced_caterpillar_game.py:266-272 | at any speed above 1, segment 0 lies a full step behind the moved head and is never bitten |
| Rules.StartFromIdle | enhanced_caterpillar_game.py:82-113 | starting an idle game leaves it running and unpaused, head one step right of the origin, segment 0 at the origin, segment 1 twenty units behind, score 0 or 1 matching the body length |
| Rules.TwoTurnsCanReverse | enhanced_caterpillar_game.py:363-385 | two arrow keys between ticks can turn a running caterpillar to its reverse heading |
| Session.Step | enhanced_caterpillar_game.py:115-126 | dispatching any key or timer event never lowers the high score, and changes it only when the game ends |
| Session.Run | enhanced_caterpillar_game.py:115-126 | a whole sequence of events never lowers the high score |
| Session.InitialIsValid | enhanced_caterpillar_game.py:16-22 | the game as constructed satisfies the session invariant |
| Session.TickSettles | enhanced_caterpillar_game.py:324-361 | a tick of a running game whose body and speed match its score yields a valid state |
| Session.StepPreservesValid | enhanced_caterpillar_game.py:115-126 | every event preserves the invariant. A running game has `score + 2` segments and speed base + score × increment, and is inside the walls and clear of its body. An idle game is unpaused with score 0, no segments and base speed. The leaf is always in its box |
| Session.RunPreservesValid | enhanced_caterpillar_game.py:115-126 | every event sequence from a valid state ends in a valid state |
| Session.HighScoreNeverDrops | enhanced_caterpillar_game.py:286-288 | the high score after any prefix of a session is at most the high score after the whole session |
| Session.PausedGameIsFrozen | enhanced_caterpillar_game.py:326-327 | while paused, any events other than the pause key leave the whole state unchanged |

## Left out

- Drawing: turtle shapes, colours, the score display, and the welcome, pause and game-over screens. These draw only and change no game state.
- Sound in `place_leaf`: a foreign call whose exceptions are swallowed, with no effect on the state.
- Key binding, `listen`, `ontimer` rescheduling and `mainloop`. Events are explicit calls (`Session.Event`), in any order. So the model also admits timer firings the real scheduler would not deliver. Properties proved for all event sequences hold for the ones the scheduler produces.
- How many timer chains are pending. In the source, pausing and unpausing within one 100 ms interval can leave two `game_loop` chains running. The model does not track pending timers, so this is not represented.
- `random.choice` of segment colours: cosmetic.
- `random.randint`: its two results are an input (`Game.Draw`), constrained to the placement box by a precondition.
- Floating point: the source adds 0.05/0.1/0.2 to a binary float speed, and turtle rotation goes through `cos`/`sin`, so its positions carry rounding error. The model is exact.
- Square roots: `distance` is replaced by an exact squared-distance comparison.
- Window size: a fixed constant of 700 × 700, as set at line 10; resizing the window is not modelled.
- `caterpillar_length`: written at lines 21 and 292 but never read, so it is not part of the state.
