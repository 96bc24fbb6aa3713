# Flappy Bird game loop in Dafny

This project models the core of `flappy_bird.py`, a single-screen pygame
arcade game. A bird falls under gravity and flaps upward on SPACE. Pipe pairs
with a gap spawn on a timer at the right edge and scroll left. A pipe that
leaves the screen scores a point, and a new high score is saved at once. The
game ends when the bird's collision circle touches a pipe or the top or bottom
of the screen.

The files:

- `config.dfy` (module `Config`): the game's constants (window size, gravity,
  flap strength, pipe speed, gap, spawn interval, collision margin, pipe
  width, bird x).
- `pipes.dfy` (module `Pipes`): pygame-style integer rectangles and pipe
  pairs, `create_pipe`, the motion of one frame, and the scroll that drops
  off-screen pipes. It also has `list.remove` by value and the proof that it
  removes exactly the pipe the loop is looking at.
- `collision.dfy` (module `Collision`): the bird's sprite rectangle centred
  on `int(bird_y)`, `get_collision_circle`, and `check_collision` as a loop
  with early return, proved equal to a declarative predicate.
- `rules.dfy` (module `Rules`): the module globals as a `World` value. It has
  one function per part of a loop iteration (key handling, the event loop,
  the playing-frame update, the collision step, the whole iteration), the
  invariant kept between iterations, and the properties of the game proved
  about those functions.
- `game.dfy` (module `Game`): class `GameWorld`, which holds the globals as
  fields that its methods update in place, in the source's order. The methods
  `Reset`, `HandleKey`, `HandleEvents`, `AdvancePlaying`, `DetectCollision`,
  `PlayFrame` and `Step` are proved to move the object from `State()` to the
  value the matching function in `Rules` prescribes, so every lemma there
  applies to the object. `UpdateScore`, `ScrollOne` and `ScrollPipes` are
  specified directly: by `Max`, by the pipe functions `Scrolled` and `Exits`,
  and by the loop bookkeeping `Scrolling`. A ghost sequence `saves` records
  each value handed to `save_highscore`.

Numbers are modelled as follows:

- `bird_y` and `bird_velocity` are exact reals. The invariant `IsQuarter`
  keeps both whole multiples of 0.25, which binary floating point represents
  exactly, so the real arithmetic matches the game's float arithmetic.
- Pipe rectangles are integers, as pygame's `Rect` stores them.
- `int(bird_y)` is truncation toward zero.

Pipes carry no "cleared" flag. Every pipe removed in the pipe loop scores
one point, and a pipe is removed only once.

## Model

| member | source | states |
|---|---|---|
| Pipes.CreatePipe | flappy_bird.py:125-141 | The heights plus the 150 gap sum to 600. The top rect starts at y 0 and the bottom rect ends at 600, exactly 150 below the top rect's bottom. The gap centre is the given gap_y. Both rects span x 400 to 480. For gap_y in 100..500 the pair is well formed, with both heights at least 25. |
| Pipes.Moved | flappy_bird.py:406-408 | Both rects move left by exactly PIPE_SPEED, and their y, width and height are kept. Heights are unchanged. A well-formed pair stays well formed, so top and bottom keep equal x. |
| Pipes.OffScreen | flappy_bird.py:411 | The removal test: the top rect's right edge is left of 0. |
| Pipes.Exits | flappy_bird.py:410-413 | The number of pipes of a list that are off screen once moved, the points the pipe loop scores for it (its meaning is stated by Pipes.ScrolledCount). |
| Pipes.Scrolled | flappy_bird.py:405-413 | The scrolled list is no longer than the input, and no survivor is off screen (every right edge ≥ 0). |
| Pipes.ScrolledCount | flappy_bird.py:410-413 | Survivors plus removed pipes equal the pipes before the frame: each pipe is either kept or counted as an exit. |
| Pipes.ScrolledMembers | flappy_bird.py:405-413 | A pipe is in the scrolled list exactly when it is some input pipe moved by one frame and still on screen (both directions). |
| Pipes.ScrolledValid | flappy_bird.py:405-413 | Scrolling well-formed pipes in arrival order, none right of the spawn point, gives a valid list: well formed, on screen, still strictly increasing in x, so relative order is kept. |
| Pipes.RemoveFirst | flappy_bird.py:412 | `list.remove` on a value that is present (the only case the game uses; Python raises otherwise): the result has one element fewer, and its multiset is the input's minus one copy of the value. |
| Pipes.RemoveFirstAt | flappy_bird.py:411-412 | Removing by value removes exactly index j when s[j] is the value and no earlier element equals it. |
| Collision.Trunc | flappy_bird.py:150 | `int()` on a float: floor for non-negative values, ceiling for negative ones. |
| Collision.BirdRect | flappy_bird.py:149-150 | The rect has the sprite's width and height, and its centre is (bird_x, int(bird_y)), which lies inside it. |
| Collision.CollisionCircle | flappy_bird.py:154-163 | The circle is centred on the rect's centre, with a non-negative radius. For sprites at least 2×2 the circle lies inside the rect. |
| Collision.HitsTop | flappy_bird.py:226-228 | The three strict tests against a top pipe: horizontal overlap both ways, and the circle's top above the rect's bottom. |
| Collision.HitsBottom | flappy_bird.py:232-234 | The three strict tests against a bottom pipe: horizontal overlap both ways, and the circle's bottom below the rect's top. |
| Collision.BoundaryHit | flappy_bird.py:238 | The circle's top is at or above 0, or its bottom is at or below the window height. |
| Collision.Collides | flappy_bird.py:224-239 | What check_collision decides: a boundary hit, or a hit on the top or bottom rect of some pipe. |
| Collision.CheckCollision | flappy_bird.py:214-241 | The result is true iff the circle crosses a screen boundary or some pipe satisfies the three strict inequalities against its top or bottom rect. A boundary hit gives true whatever the pipes. With no pipes the result is exactly the boundary test. The method changes no state. |
| Collision.CollidesPermutation | flappy_bird.py:224-235 | The verdict does not depend on pipe order: any permutation of the pipes gives the same answer. |
| Rules.Initial | flappy_bird.py:69-98 | The globals at start-up: the start screen, the loaded high score, last_pipe at the start time, no pipes, score 0, debug on. |
| Rules.ResetWorld | flappy_bird.py:243-251 | reset_game gives a playing game with no pipes and score 0, and keeps the high score, last_pipe and the debug flag. |
| Rules.KeyEffect | flappy_bird.py:377-385 | After SPACE the game is playing and debug is kept. Any other key changes at most the debug flag. No key changes the high score or last_pipe, and a started game stays started. |
| Rules.EventsEffect | flappy_bird.py:368-385 | The event loop keeps the high score and last_pipe, and never returns a started game to the start screen. No events change nothing. A first event of QUIT or ESC ends the process with the world unchanged. |
| Rules.WithSpawn | flappy_bird.py:400-403 | When more than PIPE_FREQUENCY ms have passed (strict), the list gains create_pipe's pair at its end. Otherwise it is unchanged. |
| Rules.AdvanceFrame | flappy_bird.py:395-413 | The frame update keeps both flags and debug. Score and high score never drop. A game that is not active is left as it is. |
| Rules.CollisionEffect | flappy_bird.py:429-430 | The world is unchanged, or a playing game has game_active cleared and nothing else. The result is over iff the game was over, or it was playing and the circle collides. |
| Rules.StepWorld | flappy_bird.py:364-430 | A whole iteration exits iff the event loop does, and then the world is the event loop's. The high score never drops, a started game stays started, and last_pipe is either kept or the current time. |
| Rules.InitialInv | flappy_bird.py:69-98 | The start-up globals satisfy the loop invariant and show the start screen. |
| Rules.SpaceWhilePlaying | flappy_bird.py:382-383 | SPACE while playing sets velocity to exactly -7, whatever it was (overwrite, not add), and changes nothing else. |
| Rules.SpaceWhileIdle | flappy_bird.py:379-385 | SPACE before the first game or after game over is reset_game: playing again, no pipes, score 0. |
| Rules.OtherKeys | flappy_bird.py:377-378 | The d key only toggles debug mode. Other keys change nothing. |
| Rules.KeyEffectInv | flappy_bird.py:373-385 | A key event keeps the invariant, including active ⇒ started, and keeps the high score. A started game stays started. |
| Rules.EventsEffectInv | flappy_bird.py:368-385 | The whole event loop keeps the invariant and the high score, and never returns to the start screen. |
| Rules.QuitIgnoresRest | flappy_bird.py:368-376 | After QUIT or ESC no later event has any effect. |
| Rules.OverWithoutSpace | flappy_bird.py:373-385 | In game over, events without SPACE change nothing but the debug flag. |
| Rules.InactiveFrameFrozen | flappy_bird.py:395 | When the game is not active, the frame update leaves bird, pipes, score, high score and last_pipe unchanged. |
| Rules.ActiveFrame | flappy_bird.py:395-413 | Velocity gains 0.25 first, then y moves by the new velocity. last_pipe becomes the current time when more than 1500 ms have passed (strict) and stays otherwise. Score grows by exactly the number of pipes removed. The high score never drops and changes only to the new score. The flags are unchanged. |
| Rules.SpawnedPipeIsNewest | flappy_bird.py:400-408 | A pipe spawned in a frame is the last of the list and has already moved once, to x = 397. |
| Rules.FramePipes | flappy_bird.py:405-413 | The pipes after an active frame are exactly the moved, on-screen pipes of the list after the spawn decision. |
| Rules.AdvanceFrameInv | flappy_bird.py:395-413 | The frame update keeps the invariant (well-formed, ordered, on-screen pipes; score ≤ high score; quarter-exact physics) and never lowers the high score. |
| Rules.CollisionEffectInv | flappy_bird.py:429-430 | Clearing game_active on a collision keeps the invariant and the high score. |
| Rules.StepInv | flappy_bird.py:364-430 | A whole loop iteration keeps the invariant, never lowers the high score, and never returns a started game to the start screen. |
| Rules.OverStaysOver | flappy_bird.py:364-430 | A finished game with no SPACE key stays over, with bird, pipes, score, high score and last_pipe unchanged. |
| Rules.GameOverOnlyByCollision | flappy_bird.py:429-430 | An active game ends in a frame iff the circle of the moved bird collides with the moved pipes. |
| Rules.StartScenario | flappy_bird.py:379-381 | From the start screen, one SPACE starts a game with the bird at 300, velocity 0, no pipes, score 0, and the loaded high score. |
| Game.SavesStep | flappy_bird.py:256-259 | One more point keeps the saved values equal to the run of new high scores: each value above the starting high score is saved once, in order. |
| Game.SavesLast | flappy_bird.py:257-259 | After a run of saves, the last persisted value is the high score. |
| Game.PipeLoopStep | flappy_bird.py:406-413 | In the loop over the copied list, the copy's i-th pipe is the live list's j-th. Moving it in place puts the moved pipe between the scrolled part and the untouched rest. Scrolling one more pipe keeps it exactly when it is on screen and counts one exit otherwise. |
| Game.RemoveAfterSurvivors | flappy_bird.py:411-412 | Removing an off-screen pipe by value from "survivors, the pipe, rest" removes that very pipe, because no survivor is off screen and so none equals it. |
| Game.GameWorld.constructor | flappy_bird.py:69-123 | The globals at start-up: bird at 300 at rest, no pipes, score 0, the loaded high score, both flags false, debug on, nothing saved. |
| Game.GameWorld.Reset | flappy_bird.py:243-251 | reset_game: bird at 300, velocity 0, pipes empty, score 0, both flags true. The high score is untouched and the invariant is kept. |
| Game.GameWorld.UpdateScore | flappy_bird.py:253-259 | Score rises by exactly 1. The high score becomes the larger of itself and the score, so it is ≥ score and never drops. save is called only when the high score changes, and then with the new high score. |
| Game.GameWorld.HandleKey | flappy_bird.py:377-385 | The d and SPACE branches, in place, agree with the key rules and keep the invariant. |
| Game.GameWorld.HandleEvents | flappy_bird.py:368-385 | The event loop, in place, agrees with the event rules: it stops at QUIT or ESC and reports that. |
| Game.GameWorld.ScrollOne | flappy_bird.py:406-413 | One iteration of the pipe loop keeps the loop's bookkeeping for one more pipe: live list, score, high score and saves. |
| Game.GameWorld.ScrollPipes | flappy_bird.py:405-413 | The pipe loop leaves the scrolled list. Score grows by the number removed. The high score is the larger of the old one and the new score. The saves are exactly the new high scores in order, and the last one is the high score. |
| Game.GameWorld.AdvancePlaying | flappy_bird.py:395-413 | The game_active block, in place, agrees with the frame rules and keeps the invariant. The values saved are exactly the high scores passed in the frame. |
| Game.GameWorld.PlayFrame | flappy_bird.py:395-430 | The frame update followed by the collision check, in place, agrees with the two rules composed, keeps the invariant, and saves exactly the new high scores in order. |
| Game.GameWorld.DetectCollision | flappy_bird.py:422-430 | The collision check, in place, changes only game_active, clears it exactly on a collision, and keeps the invariant. |
| Game.GameWorld.Step | flappy_bird.py:364-430 | One loop iteration (events, frame update, collision) agrees with the iteration rules and keeps the invariant. The high score never drops, a started game stays started, and the values saved during the iteration are exactly the new high scores, in order. |

## Left out

- Rendering is output only and is not modelled: bird, pipes (tile placement), score, start and game-over screens, and the debug shapes.
- The cloud layer is decorative, with random float speeds. It affects no game state.
- Asset loading and `pygame.transform.rotate`: the rotated sprite's width and height are parameters of the collision step.
- JSON file I/O: the loaded high score is a non-negative parameter, and each `save_highscore` call is recorded in a ghost sequence. Failed reads and writes are not modelled.
- `random.randint`, the clock, event polling, `clock.tick`: the gap centre (in 100..500, as randint guarantees), the current time and the event list are parameters.
- `sys.exit` on QUIT or ESC: the step reports it and performs nothing after it.
- The `attempts` counter and the BASE/TIP collision margins are never used by the game logic.
- Collision.CollisionCircle: the radius uses the exact real 0.42. In IEEE doubles it is not exact, so a comparison that lands exactly on a boundary may differ from the game's float result.
- Float range: the quarter-exact argument assumes bird_y and velocity stay well inside the range where doubles hold every quarter. No bound on them is proved.
