# Rusty Pong game state, modelled in Dafny

This project models the game logic of Rusty Pong, a two-player Pong game written
in Rust on top of the ggez engine. All of the logic is in `src/main.rs`. The game
keeps one mutable record, `MainState`. It holds the pause flag, both racket
positions, the ball position and velocity, both scores, the colour of rackets and
ball, and the pause message. Three entry points change it:

- `update` runs one frame, and only while the game is running. In order, it moves
  the rackets from the W/S and Up/Down keys and clamps them to the screen. It then
  moves the ball and checks scoring (left edge, then right edge). Last come the
  wall bounce (top, else bottom) and the racket bounces (player 1, then player 2).
- `key_down_event` handles single key presses. Space toggles pause, C recolours,
  and Escape quits.
- `MainState::new` builds the starting state.

The helpers `clamp`, `move_racket`, `randomize_vec` and `randomized_color` are
modelled too.

The project has four modules:

- `PongTypes` (`pong_types.dfy`) holds the constants of `src/main.rs:9-17`, plane
  vectors, colours and the two pause messages.
- `Randomness` (`randomness.dfy`) covers `randomize_vec` and `randomized_color`.
  The random generator is replaced by the coin flips it would have produced: a
  `SignDraw` per velocity reset, and a finite sequence of `ColorDraw` attempts
  for a colour.
- `FrameStep` (`frame_step.dfy`) is the pure specification. `State` holds every
  field of `MainState`. There is one function per phase of `update`, with `Step`
  composing them in the game's order, plus `KeyDown` and `New`. `Run` folds a
  sequence of frames and key presses. The lemmas show what every run keeps.
- `Game` (`game.dfy`) is the imperative model. The class `MainState` has the same
  fields, updated in place. `Update` calls one method per phase, and the helpers
  `Clamp`, `MoveRacket` and `RandomizeVec` return the value that Rust writes
  through a `&mut` reference. Each method is proved to leave exactly the state
  that the matching `FrameStep` function describes.

The model follows the code wherever a natural reading differs from it:

- Scoring runs before the wall and racket checks, so those checks see the
  re-centred ball after a point.
- A ball that leaves on the left is a point for player 2, the right-hand racket
  (`src/main.rs:145-149`).
- `clamp` with `low > high` gives `low` only when the value is below `low`.
  Otherwise the second test fires and the result is `high` (`src/main.rs:19-25`).
- A wall bounce makes the vertical velocity non-negative (top) or non-positive
  (bottom), because the code takes an absolute value. The direction is strict
  once the speed invariant holds, since the vertical speed is then 300.

The game's inputs become parameters. The elapsed time, the drawable size, the
held keys and the two reset draws of a frame are carried in a `Frame`. The key
press and its colour attempts are arguments of `KeyDown`.

## Model

| member | source | states |
|---|---|---|
| FrameStep.ClampOf | src/main.rs:19-25 | with low <= high the result lies in [low, high] and a value already inside is unchanged; a value below low becomes low (low is checked first), otherwise a value above high becomes high |
| Game.Clamp | src/main.rs:19-25 | the value written back is the clamp result above, computed by the same two tests in the same order |
| FrameStep.RacketMoved | src/main.rs:27-31 | a racket never moves horizontally; it moves by yDir exactly when its key is held and is untouched otherwise |
| Game.MoveRacket | src/main.rs:27-31 | writes back the racket position described by RacketMoved |
| Randomness.RandomVec | src/main.rs:33-44 | each axis keeps its magnitude, and its sign is positive exactly when that axis's flip is true |
| Randomness.RandomVecCoversAllSigns | src/main.rs:33-44 | each of the four sign combinations of a reset velocity is produced by some pair of flips |
| Game.RandomizeVec | src/main.rs:33-44 | overwrites both components with the vector RandomVec describes |
| Randomness.DrawnColor | src/main.rs:49-68 | one attempt gives an opaque colour with every channel 0 or 1; all-black is promoted to white; otherwise the channels are the flips |
| Randomness.RandomizedColor | src/main.rs:46-80 | any colour returned is opaque, 0/1 per channel and never black; given a previous colour it never returns that colour; with no previous colour the first attempt is taken |
| Randomness.RandomizedColorFirstAcceptable | src/main.rs:70-77 | a colour is returned exactly when some attempt differs from the previous colour, and it is the colour of the first such attempt: retries redraw and never take a fixed complement |
| Randomness.AcceptedAttemptsOfEight | src/main.rs:46-80 | of the 8 equally likely attempts, 6 are kept when the previous colour is white (drawn twice, once by promotion from black), 7 for any other colour the game shows, and 8 with no previous colour; so each retry succeeds with probability at least 3/4 |
| FrameStep.Steer | src/main.rs:125-133 | each racket's y moves up by PLAYER_SPEED * dt if W (player 1) or Up (player 2) is held and down by as much if S or Down is held, both applying in the same frame, so both held or both released leave it in place; x and every other field are unchanged |
| Game.MainState.SteerRackets | src/main.rs:125-133 | the fields afterwards are those Steer gives for the old state |
| FrameStep.ClampPaddles | src/main.rs:134-143 | each racket's y is clamped on its own into [RACKET_HEIGHT_HALF, h - RACKET_HEIGHT_HALF]: a racket above lands on RACKET_HEIGHT_HALF, one below on h - RACKET_HEIGHT_HALF, one already inside is unchanged; on a screen at least one racket high both end inside; x and every other field are unchanged |
| Game.MainState.ClampRackets | src/main.rs:134-143 | the fields afterwards are those ClampPaddles gives for the old state |
| FrameStep.Integrate | src/main.rs:144 | only the ball position changes; it is displaced by velocity times dt on each axis, the velocity is kept, and a zero dt changes nothing |
| Game.MainState.MoveBall | src/main.rs:144 | the fields afterwards are those Integrate gives for the old state |
| FrameStep.ScoreLeft | src/main.rs:145-157 | a ball with x < 0 gives player 2 exactly one point and is re-centred at (w/2, h/2) with each velocity component +-BALL_SPEED as the flips choose; player 1's score and the rackets are untouched; a ball with x >= 0 changes nothing |
| FrameStep.ScoreRight | src/main.rs:158-170 | the same for x > w, giving player 1 the point |
| Game.MainState.CheckScores | src/main.rs:145-170 | the fields afterwards are those of the left check followed by the right check, which sees the possibly re-centred ball |
| FrameStep.BounceWalls | src/main.rs:171-177 | a ball above the top is set to y = BALL_SIZE_HALF moving down or level; otherwise a ball below the bottom is set to y = h - BALL_SIZE_HALF moving up or level; otherwise the ball is untouched; the vertical speed and the horizontal motion are kept; on a screen at least one ball high the ball ends between the walls |
| Game.MainState.BounceOffWalls | src/main.rs:171-177 | the fields afterwards are those BounceWalls gives for the old state |
| FrameStep.HitPaddles | src/main.rs:178-193 | overlapping player 1 only sets vel.x = abs(vel.x) * 1.1, overlapping player 2 only sets -abs(vel.x) * 1.1, overlapping both applies the two in turn; horizontal speed never drops; the position and vel.y are not corrected |
| Game.MainState.BounceOffRackets | src/main.rs:178-193 | the fields afterwards are those HitPaddles gives for the old state |
| FrameStep.Step | src/main.rs:120-197 | a paused frame changes nothing; a running frame keeps the rackets on screen and their x fixed; each score rises by 0 or 1 and, on a screen of non-negative width, never both; a ball launched past the left edge gives player 2 the point and is re-centred (past the right edge, player 1); otherwise no score changes; the speed invariant is kept |
| Game.MainState.Update | src/main.rs:120-197 | the fields afterwards are those Step gives for the old state, and the game invariant is kept |
| FrameStep.KeyDown | src/main.rs:257-276 | Space flips running and sets the resume message and nothing else; C changes only the colour, to a different cosmetic one, and fails only when no supplied attempt differs; Escape and every other key leave the state unchanged |
| Game.MainState.KeyDownEvent | src/main.rs:257-276 | the fields afterwards are those KeyDown gives for the old state; C always changes the colour; the game invariant is kept |
| FrameStep.New | src/main.rs:95-116 | the game starts paused with the start message, scores 0-0, the ball centred, both rackets vertically centred at their fixed x, each velocity component +-BALL_SPEED and a cosmetic colour |
| Game.MainState.constructor | src/main.rs:95-116 | the fields are those New gives |
| FrameStep.RunKeepsInvariant | src/main.rs:99-100 | through any sequence of frames and key presses, abs(vel.y) == BALL_SPEED, abs(vel.x) >= BALL_SPEED, the colour stays cosmetic and the scores stay non-negative |
| FrameStep.StartedGameKeepsInvariant | src/main.rs:95-116 | every state reached from start-up satisfies that invariant |
| FrameStep.RunScoresNeverDecrease | src/main.rs:149 | no sequence of events lowers either score |
| FrameStep.RunKeepsPaddlesOnScreen | src/main.rs:134-143 | on a screen of fixed height at least one racket high, rackets that start on screen stay on screen through any sequence of events |
| FrameStep.PausedFramesChangeNothing | src/main.rs:124 | while paused, any number of frames leaves every field unchanged |

## Left out

- Drawing (`draw`, `src/main.rs:199-255`) and the program entry point (`main`,
  `src/main.rs:279-294`) are renderer and window plumbing with no game logic.
- The window title update in `update` is left out. It happens on exactly the
  frames where a score rises (`src/main.rs:150-156, 163-169`), and its text is
  not modelled.
- KeyDown: Escape calls the engine's quit function. The model treats it as a key
  that leaves the state unchanged.
- RandomizedColor: the game retries without bound until the generator gives a
  different colour. The model works over a finite list of attempts and returns
  None when none is acceptable, and `Run` stops with None. Termination is not
  claimed from the generator.
- KeyDownEvent: for C, the method requires that one of the supplied attempts
  differs from the current colour. This stands for the generator eventually
  producing one, which the game relies on and does not check.
- Step: positions, speeds and `dt` are exact reals. The game's 32-bit float
  rounding, including the rounding of the 1.1 factor, is not modelled.
- Step: scores are unbounded integers. The game's 32-bit signed overflow after
  2^31 - 1 points is not modelled.
- RunKeepsPaddlesOnScreen: the lemma assumes a fixed screen height. After a
  window resize, rackets are only back in range once the next running frame
  clamps them.
- The engine calls that read the elapsed time, the drawable size and the held
  keys become fields of `Frame`.
