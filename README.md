# Pong game logic for the LM3S8962 board, in Dafny

This project models the game logic of `hello.c`, a Pong game for the
LM3S8962 evaluation board. The player's paddle is on the left (column 0)
and the computer opponent's paddle is on the right (column 119). A ball
crosses a 120 × 88 board; y grows downwards, so row 0 is the top edge. All of the state lives in global variables. Two
interrupt handlers change them:

- the timer tick (`SysTickIntHandler`, 50 Hz) runs collision detection, then
  ball movement, then the opponent's movement, or counts down the pause
  after a point;
- the button interrupt (`GPIOEIntHandler`) moves the player's paddle.

The first side to reach 10 points wins the match. After that the tick
changes nothing; only the button handler, which is not gated on the match
phase, still moves the player's paddle.

## Layout

- `board.dfy` (module `Board`) holds the board constants, the direction
  types, C `unsigned int` wrap-around (`Wrap`) and the `Roll` type, which
  stands for one `rand() % 100` result (0..99).
- `bounce.dfy` (module `Bounce`) holds the three pure classifiers. They take
  a paddle's y and the ball's y and decide three things: whether the ball
  touches the paddle, its outgoing vertical step (0, 0.2 or 0.75), and its
  outgoing vertical direction.
- `rules.dfy` (module `Rules`) holds `Game`, a value with every global, and
  one pure function per step. These are `AfterCollision`,
  `AfterBallMovement`, `AfterOpponentMovement`, `AfterTick` and
  `AfterButton`. The file also holds the invariant `Inv` and the lemmas about
  each step. These functions are the specification.
- `session.dfy` (module `Session`) runs any sequence of ticks and button
  presses. It proves that the invariant holds after every such sequence, and
  that a pause lasts exactly 101 ticks.
- `pong.dfy` (module `Pong`) holds the class `Pong`, with one field per
  global. Its methods (`CollisionDetector`, `BallMovement`,
  `OpponentMovement`, `SysTick`, `ButtonPress`) update the fields step by step
  as the C code does. Each method is proved to leave the fields exactly as
  the matching `Rules` function says. The two handler methods are also proved
  to keep `Valid()`.

## How the source is represented

- Ball y (`g_ball_y_axis_counter`) and the vertical step (`g_ball_y_step`)
  are C `float`s. Here they are exact `real`s. When the ball's y is passed to
  an `int` parameter, C truncates it toward zero; here that is `.Floor`,
  which is the same thing because y never goes below 0.
- Coordinates are C `unsigned int`s, held as `nat` below 2^32. Unsigned
  wrap-around is written out with `Wrap` for the ball's x ± 1, for
  `opponentY ∓ 4` in the tracking test and for the player's y ± 4. The
  opponent's y ± 1 is guarded by the board edges, so it is plain arithmetic.
  Scores and the pause counter are incremented without `Wrap`, since the
  invariant keeps them at or below 10 and 101.
- `g_game_active` and `g_game_sleep` only ever hold 0 or 1, so they are
  `bool`s. The direction globals are the datatypes `VDir` and `HDir`.
- `g_player_x_axis_counter` (0) and `g_opponent_x_axis_counter` (119) are
  never written, so they are the constants `PlayerX` and `OpponentX`.
- The opponent's two `rand() % 100` results are parameters of type `Roll`.
  Every lemma holds for all rolls. The pins read by the button handler are a
  `bv32` parameter.

Quirks of the code that the model reproduces, each with a lemma:

- The "middle-bottom" branch of `BallYBounceAngle` can never be reached.
  The "bottom" test before it already covers every y it accepts. So a ball
  below the paddle always leaves at 0.75, and the shallow step 0.2 occurs
  only above the paddle (`Bounce.BallYBounceAngle`).
- After a point, the serve-direction "reset" is a comparison, not an
  assignment. The ball keeps its direction: after the opponent scores, the
  serve goes left; after the player scores, it goes right
  (`Rules.LeftWallScores`, `Rules.PointStartsPause`).
- The tick that scores a point still moves the ball. The serve therefore
  starts one pixel off the origin, at column 59 or 61. On the match-ending
  tick the ball is not reset. At column 0 the unsigned x wraps to
  2^32 − 1; at column 120 it reaches 121 (`Rules.MatchPointOvershoots`).
- `opponentY - 4` is unsigned, so it wraps when the opponent is in rows 0..3.
  Tracking then never chooses Down (`Rules.TrackingNearTopWraps`).
- A pause counter of exactly 30 shows "1", not "2" (`Rules.CountdownGlyph`).

Behaviour that is easy to misread:

- Both paddles can reach row 88. The opponent's guard is `< 88`, so its
  paddle can reach 88. The player's guard is `< 87`, so the paddle can go
  from 84 to 88.
- The bounce step is 0 both for a level ball and outside the contact band.
- The drift toggle fires for second rolls 96..99, 4 in 100.
- After a point the serve keeps the direction the ball had when the point
  was scored.
- The pause ends on exactly the 101st tick after the point.

## Model

| member | source | states |
|---|---|---|
| `Board.Wrap` | hello.c:281-287 | The C unsigned result lies in 0..2^32−1, is unchanged for values already in range, adds 2^32 to values just below 0, and subtracts 2^32 from values just above 2^32 − 1. |
| `Board.Flip` | hello.c:342-347 | Flipping a vertical direction always gives the other direction. |
| `Bounce.IsYBounceable` | hello.c:166-177 | Returns 1 exactly when the paddle and the ball are less than 7 apart, and 0 otherwise. So distance 6 bounces and distance 7 does not. |
| `Bounce.BallYBounceAngle` | hello.c:129-163 | A level ball gets step 0. Every ball below the paddle within the band gets 0.75, so the middle-bottom branch is dead. The step is 0.2 exactly when the ball is 1..3 above the paddle. It is 0.75 when the ball is 4..6 above. It is 0 at distance 7 or more. |
| `Bounce.BallDirectionForBounceboardCollision` | hello.c:103-124 | Returns the Down code exactly when the ball is 1..6 below the paddle. Returns the level code −1 exactly when the ball is level. Returns the Up code when the ball is 1..6 above, and also outside the band. |
| `Bounce.Deflect` | hello.c:196-201 | The Down and Up codes set the direction they name. Any other code, including the level code, keeps the current direction. |
| `Bounce.AngleAndDirectionAgree` | hello.c:103-163 | Inside the band the two classifiers agree. Step 0 happens exactly when the direction is "level". A Down result comes with step 0.75. Step 0.2 comes with Up. |
| `Bounce.AngleMonotoneInDistance` | hello.c:127-163 | On each side of the paddle, the step never decreases as the ball moves further from the paddle, up to the band's edge. |
| `Rules.Init` | hello.c:70-96 | At power-on, play is active and not paused with counter 0, and both scores are 0. Both paddles are at row 44 and the opponent heads Up. The ball is at (60, 44.0) moving left and up with step 0. |
| `Rules.InitInv` | hello.c:70-96 | The power-on state satisfies the game invariant. |
| `Rules.AfterCollision` | hello.c:180-278 | The collision step never moves a paddle, changes the opponent's direction or touches the pause counter. It raises at most one score, by exactly one. |
| `Rules.PlayerContact` | hello.c:183-202 | The trigger is x = 5, within 6 of the player's paddle, moving left. The ball then turns right and takes the bounce step of its pre-collision row. It goes Down if below the paddle and Up if above. It keeps its vertical direction if level. Nothing else changes. |
| `Rules.OpponentContact` | hello.c:204-223 | The mirror of `PlayerContact`: x = 114, within 6 of the opponent's paddle, moving right; the ball turns left. |
| `Rules.LeftWallScores` | hello.c:225-249 | At x = 0 the opponent's score rises by exactly 1, the step becomes 0 and play stops. Below match point the pause starts and the ball returns to (60, 44.0) with its horizontal direction unchanged. At 9 points the score becomes 10, and the ball and the pause flag are untouched. |
| `Rules.RightWallScores` | hello.c:251-276 | The mirror of `LeftWallScores`: at x = 120 the player's score rises. |
| `Rules.NoCollision` | hello.c:180-278 | Away from both contact planes and both walls, the collision step changes nothing. |
| `Rules.MissedPaddle` | hello.c:183-223 | On a contact plane, a ball moving away from the paddle, or 7 or more rows from it, passes through unchanged. |
| `Rules.AfterBallMovement` | hello.c:281-307 | Ball movement changes only the ball's x, its y and its vertical direction. The new x is a valid unsigned value. |
| `Rules.BallMovesOnePixel` | hello.c:282-287 | x changes by exactly −1 when moving left from x > 0, and by exactly +1 when moving right below 2^32 − 1. |
| `Rules.BallWrapsAtZero` | hello.c:282-284 | Moving left from x = 0 wraps the unsigned x to 2^32 − 1. |
| `Rules.BallStepsInside` | hello.c:289-306 | Moving down with y < 87, or up with y > 1, the ball keeps its vertical direction and its y changes by exactly + step or − step. |
| `Rules.BallTurnsAtEdge` | hello.c:289-306 | Moving down with y ≥ 87, or up with y ≤ 1, the ball keeps its y and only its vertical direction flips. |
| `Rules.BallStaysOnBoard` | hello.c:289-306 | With a step between 0 and 0.75, a ball in rows 0..88 stays in rows 0..88. |
| `Rules.OpponentAim` | hello.c:318-349 | In drift mode (roll 1 ≥ 70) the direction changes exactly when roll 2 is above 95. In tracking mode with the paddle at y in 4..88, the aim is Down exactly when ball y > opponent y − 4. In tracking mode with the paddle at y < 4, tracking never turns an Up paddle Down. |
| `Rules.OpponentMovesOnePixel` | hello.c:351-367 | Aimed Up with y > 0, the paddle moves to y − 1 heading Up. Aimed Up at y = 0, it stays and turns Down. Aimed Down with y < 88, it moves to y + 1 heading Down. Aimed Down at y = 88, it stays and turns Up. |
| `Rules.AfterOpponentMovement` | hello.c:316-368 | The opponent step changes only the opponent's y and direction. |
| `Rules.OpponentStaysOnBoard` | hello.c:351-367 | For all rolls the opponent's y stays in 0..88, with the bound at 88 itself, and moves at most one pixel. |
| `Rules.DriftToggles` | hello.c:334-349 | When roll 1 is 70 or more, the direction toggles exactly when roll 2 is above 95; otherwise it is kept. |
| `Rules.TrackingIgnoresSecondRoll` | hello.c:319-333 | When roll 1 is below 70, roll 2 has no influence on the opponent's direction. |
| `Rules.TrackingAim` | hello.c:322-333 | With roll 1 below 70 and the opponent at y ≥ 4, the direction becomes Down exactly when ball y > opponent y − 4, and Up otherwise. |
| `Rules.TrackingNearTopWraps` | hello.c:325-332 | With the opponent at y < 4, the unsigned `opponentY − 4` wraps. Tracking then gives Up if ball y < opponent y + 4 and keeps the direction otherwise; it never gives Down. |
| `Rules.Decode` | hello.c:448-449 | The decoded value is at most 15. It is 1 exactly when only pin 0 reads low, and 2 exactly when only pin 1 reads low. Inverting it again gives back the masked pins. |
| `Rules.AfterButton` | hello.c:441-468 | A button press changes only the player's y, whatever the phase of the match. |
| `Rules.ButtonMovesPaddle` | hello.c:450-467 | Value 1 moves the paddle up 4 if y > 0. Value 2 moves it down 4 if y < 87. Otherwise, and for every other value, y is unchanged. |
| `Rules.ButtonKeepsPaddleOnGrid` | hello.c:453-463 | The player's y stays a multiple of 4 in 0..88. |
| `Rules.CountdownGlyph` | hello.c:494-505 | Counters below 30 show "3", counters 31..59 show "2", and 30 or 60 and up show "1". |
| `Rules.AfterTick` | hello.c:473-516 | No tick moves the player's paddle. |
| `Rules.TickGlyphs` | hello.c:491-515 | A paused tick first draws the countdown digit for the incremented counter. It draws "*" as a second glyph only on the tick that ends the pause. Playing and finished ticks draw no countdown glyph. |
| `Rules.PausedTick` | hello.c:491-515 | A paused tick below 100 only increments the counter. The tick from 100 clears the counter, ends the pause, resumes play and draws "1" then "*". |
| `Rules.FinishedTickIsIdle` | hello.c:476-516 | When neither flag is set, a tick changes nothing and draws nothing. |
| `Rules.PlayingTickMovesOpponent` | hello.c:478-482 | A playing tick runs the opponent step after the ball step. The opponent aims with the ball's post-movement row. It then moves one pixel toward its aim, or at the edge it is aimed past, keeps its y and turns back. |
| `Rules.PlayingTickMovesBall` | hello.c:476-482 | A playing tick with no wall hit keeps playing and leaves both scores alone. The ball moves exactly one pixel along x in its post-collision direction. |
| `Rules.PointStartsPause` | hello.c:225-287 | A point below match point leaves the match paused with counter 0 and no vertical step. The ball is at y 44.0 and one pixel from x 60, in its unchanged direction. The score total rises by 1. |
| `Rules.MatchPointOvershoots` | hello.c:225-287 | The tick that reaches 10 finishes the match. At x = 0 the opponent has 10 and x wraps to 2^32 − 1. At x = 120 the player has 10 and x becomes 121. |
| `Rules.CollisionKeepsBall` | hello.c:180-278 | During play the collision step keeps the ball in rows 0..88 with a legal step. If play continues, the ball is strictly between the walls and heads for any paddle it is close to. A point's reset puts it at the origin. |
| `Rules.TickKeepsInv` | hello.c:473-516 | Every tick preserves the invariant: paddle and ball bounds, scores ≤ 10, ball columns 0..120 while playing, and pause counter ≤ 100. |
| `Rules.ButtonKeepsInv` | hello.c:441-468 | Every button press preserves the invariant. |
| `Session.RunKeepsInv` | hello.c:441-516 | Any sequence of ticks and button presses, with any rolls, preserves the invariant. |
| `Session.Reachable` | hello.c:70-96 | Every state reachable from power-on satisfies the invariant. In particular no score exceeds 10 and the opponent's paddle never leaves rows 0..88. |
| `Session.PauseCountsTicks` | hello.c:491-515 | While the counter stays ≤ 100, a pause survives any events. It changes only the counter, by the number of ticks, and the player's paddle. |
| `Session.PauseLasts101Ticks` | hello.c:508-514 | A pause that starts at 0 is still paused after 100 ticks. The 101st tick resumes play with the counter cleared and nothing else changed except the player's paddle. |
| `Session.FinishedIsFinal` | hello.c:476-516 | After the match is finished, no sequence of events changes anything except the player's paddle. |
| `Pong.Pong.constructor` | hello.c:70-96 | The fields start at the globals' initial values and satisfy the invariant. |
| `Pong.Pong.ApplyBounceDirection` | hello.c:196-201 | Sets the ball's vertical direction as `Deflect` says. |
| `Pong.Pong.CollisionDetector` | hello.c:180-278 | The in-place collision step leaves the fields as `AfterCollision` says. |
| `Pong.Pong.BallMovement` | hello.c:281-307 | The in-place ball step leaves the fields as `AfterBallMovement` says. |
| `Pong.Pong.OpponentMovement` | hello.c:316-368 | The in-place opponent step, for the two given rolls, leaves the fields as `AfterOpponentMovement` says. |
| `Pong.Pong.SysTick` | hello.c:473-516 | The timer handler keeps `Valid()`. It leaves the fields as `AfterTick` says: collision, ball and opponent in that order while playing, the countdown while paused, nothing once finished. It returns the countdown glyphs drawn. |
| `Pong.Pong.ButtonPress` | hello.c:441-468 | The button handler keeps `Valid()` and leaves the fields as `AfterButton` says. |

## Left out

- `main` (board clock, GPIO, SysTick and interrupt setup, and the idle loop) is hardware configuration.
- All drawing is left out: `RIT128x96x4StringDraw`, `usprintf`, `BallMovementAnimation`, `PlayerMovementAnimation`, `OpponentMovementAnimation`, `DisplayScores`, the winner messages and the blanking of the ball's old position. These are display calls. The only drawing kept is the countdown glyphs that `SysTick` returns.
- `GPIOPinRead` and `GPIOPinIntClear` are register I/O. The pins read are a parameter.
- `rand()` is a foreign random number generator. Its results are parameters. The C code calls `rand()` a second time only in drift mode; the model always takes both rolls and ignores the second in tracking mode.
- Interleaving of the two interrupts and `volatile` are not modelled. Each handler runs to completion before the next event.
- IEEE float rounding of the ball's y and step is not modelled. Exact reals are used instead. The float conversion of a wrapped `opponentY - 4` is not modelled either; any such value is far above every ball row.
- The conversion of an unsigned paddle y to the classifiers' `int` parameter is modelled as exact. That holds because the invariant keeps paddles at or below 88.
- Scores and the pause counter use unbounded `nat` rather than wrap-around. The invariant bounds them by 10 and 101.
- `g_ulSystemClock`, the unused `g_ball_x_step` and `__error__` play no part in the game logic.
