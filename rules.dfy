/** The game's rules as functions on a value that holds every piece of game
    state: one function per step of the tick (collision, ball movement,
    opponent movement), the tick itself, and the player's button handler.
    These functions are the specification the imperative `Pong` class is
    proved against; the lemmas here state what each step guarantees. */
module Rules {
  import opened Board
  import opened Bounce

  /** Every global the game logic reads or writes. Coordinates are C
      `unsigned int`s, the ball's y and its vertical step are C `float`s
      (here exact reals), `active` and `sleep` are the 0/1 flags. */
  datatype Game = Game(
    playerY: nat,
    opponentY: nat,
    opponentDir: VDir,
    ballX: nat,
    ballY: real,
    ballXDir: HDir,
    ballYDir: VDir,
    ballYStep: real,
    active: bool,
    sleep: bool,
    sleepCounter: nat,
    playerScore: nat,
    opponentScore: nat)

  /** Pixels the player's paddle moves per button press. */
  const PlayerStep := 4
  /** Half-width of the opponent's tracking dead band. */
  const TrackingDeadband := 4
  /** Rolls below this choose tracking mode (70 in 100). */
  const TrackingWeight := 70
  /** In drift mode, second rolls above this toggle the direction (4 in 100). */
  const DriftToggleAbove := 95
  /** The pause ends on the tick whose counter exceeds this. */
  const PauseTicks := 100

  /** The state at power-on. */
  function Init(): (g: Game)
    ensures g.active && !g.sleep && g.playerScore == 0 && g.opponentScore == 0
    ensures g.ballX == BallXOrigin && g.ballY == BallYOrigin && g.ballXDir == Left
    ensures g.playerY == YMax / 2 && g.opponentY == YMax / 2 && g.opponentDir == Up
    ensures g.ballYDir == Up && g.ballYStep == 0.0 && g.sleepCounter == 0
  {
    Game(YMax / 2, YMax / 2, Up, BallXOrigin, BallYOrigin, Left, Up, 0.0,
         true, false, 0, 0, 0)
  }

  /** The abstract phase of the match. */
  datatype Phase = Playing | Paused(counter: nat) | Finished

  function PhaseOf(g: Game): Phase {
    if g.active then Playing
    else if g.sleep then Paused(g.sleepCounter)
    else Finished
  }

  /** The ball is on the board and, close to a paddle, heads for it. */
  ghost predicate BallInField(g: Game) {
    && g.ballX <= XMax
    && (g.ballX < PlayerX + WallSpacer ==> g.ballXDir == Left)
    && (g.ballX > OpponentX - WallSpacer ==> g.ballXDir == Right)
  }

  /** What holds between any two events (ticks or button presses). */
  ghost predicate Inv(g: Game) {
    // paddles
    && g.playerY <= YMax && g.playerY % PlayerStep == 0
    && g.opponentY <= YMax
    // ball
    && 0.0 <= g.ballY <= YMax as real
    && (g.ballYStep == 0.0 || g.ballYStep == 0.2 || g.ballYStep == 0.75)
    && g.ballX < U32
    // match
    && g.playerScore <= 10 && g.opponentScore <= 10
    && !(g.active && g.sleep)
    && (g.active ==> g.sleepCounter == 0)
    && (g.active || g.sleep ==> g.playerScore < 10 && g.opponentScore < 10 && BallInField(g))
    && (g.sleep ==> g.sleepCounter <= PauseTicks && g.ballYStep == 0.0 && g.ballY == BallYOrigin
                    && Dist(g.ballX, BallXOrigin) == 1)
    && (!g.active && !g.sleep ==> g.playerScore == 10 || g.opponentScore == 10)
  }

  // ---------------------------------------------------------------------
  // Collision detection

  /** The ball's y as the classifiers see it: truncated toward zero. */
  function BallRow(g: Game): int {
    g.ballY.Floor
  }

  predicate HitsPlayer(g: Game) {
    && g.ballX == PlayerX + WallSpacer
    && IsYBounceable(g.playerY, BallRow(g)) == 1
    && g.ballXDir == Left
  }

  predicate HitsOpponent(g: Game) {
    && g.ballX == OpponentX - WallSpacer
    && IsYBounceable(g.opponentY, BallRow(g)) == 1
    && g.ballXDir == Right
  }

  /** The ball after bouncing off a paddle at `boardY`. */
  function Bounced(g: Game, boardY: int, outgoing: HDir): Game {
    g.(ballXDir := outgoing,
       ballYStep := BallYBounceAngle(boardY, BallRow(g)),
       ballYDir := Deflect(g.ballYDir, BallDirectionForBounceboardCollision(boardY, BallRow(g))))
  }

  /** The collision step: player paddle, else opponent paddle, else the
      player's wall, else the opponent's wall. */
  function AfterCollision(g: Game): (r: Game)
    // the paddles and the countdown are never touched
    ensures r.playerY == g.playerY && r.opponentY == g.opponentY && r.opponentDir == g.opponentDir
    ensures r.sleepCounter == g.sleepCounter
    // a score changes only by one point, and never both
    ensures (r.playerScore, r.opponentScore) in
              {(g.playerScore, g.opponentScore), (g.playerScore + 1, g.opponentScore), (g.playerScore, g.opponentScore + 1)}
  {
    if HitsPlayer(g) then Bounced(g, g.playerY, Right)
    else if HitsOpponent(g) then Bounced(g, g.opponentY, Left)
    else if g.ballX == XMin then
      if g.opponentScore == 9 then
        g.(ballYStep := 0.0, opponentScore := g.opponentScore + 1, active := false)
      else
        // the serve direction is only compared, never assigned
        g.(ballYStep := 0.0, opponentScore := g.opponentScore + 1, active := false,
           sleep := true, ballY := BallYOrigin, ballX := BallXOrigin)
    else if g.ballX == XMax then
      if g.playerScore == 9 then
        g.(ballYStep := 0.0, playerScore := g.playerScore + 1, active := false)
      else
        g.(ballYStep := 0.0, playerScore := g.playerScore + 1, active := false,
           sleep := true, ballY := BallYOrigin, ballX := BallXOrigin)
    else g
  }

  /** Hitting the player's paddle: the ball turns right, takes the bounce
      angle of its pre-collision row, goes Down when below the paddle and Up
      when above it, keeps its vertical direction when level; nothing else
      changes. */
  lemma PlayerContact(g: Game)
    requires g.ballX == PlayerX + WallSpacer && g.ballXDir == Left
    requires Dist(g.playerY, BallRow(g)) < BoardTolerance
    ensures var r := AfterCollision(g);
      && r.ballXDir == Right
      && r.ballYStep == BallYBounceAngle(g.playerY, BallRow(g))
      && (BallRow(g) > g.playerY ==> r.ballYDir == Down)
      && (BallRow(g) < g.playerY ==> r.ballYDir == Up)
      && (BallRow(g) == g.playerY ==> r.ballYDir == g.ballYDir)
      && r == g.(ballXDir := r.ballXDir, ballYStep := r.ballYStep, ballYDir := r.ballYDir)
  {
  }

  /** The mirror case on the opponent's paddle plane. */
  lemma OpponentContact(g: Game)
    requires g.ballX == OpponentX - WallSpacer && g.ballXDir == Right
    requires Dist(g.opponentY, BallRow(g)) < BoardTolerance
    ensures var r := AfterCollision(g);
      && r.ballXDir == Left
      && r.ballYStep == BallYBounceAngle(g.opponentY, BallRow(g))
      && (BallRow(g) > g.opponentY ==> r.ballYDir == Down)
      && (BallRow(g) < g.opponentY ==> r.ballYDir == Up)
      && (BallRow(g) == g.opponentY ==> r.ballYDir == g.ballYDir)
      && r == g.(ballXDir := r.ballXDir, ballYStep := r.ballYStep, ballYDir := r.ballYDir)
  {
  }

  /** The ball on the player's wall: the opponent scores exactly one point,
      the vertical step stops and play stops. Below match point the ball is
      served again from the origin, in the SAME horizontal direction, and the
      pause starts; at match point the match ends with the ball left where
      it is. */
  lemma LeftWallScores(g: Game)
    requires g.ballX == XMin
    ensures var r := AfterCollision(g);
      && r.opponentScore == g.opponentScore + 1 && r.playerScore == g.playerScore
      && r.ballYStep == 0.0 && !r.active
      && r.ballXDir == g.ballXDir && r.ballYDir == g.ballYDir
      && (g.opponentScore != 9 ==> r.sleep && r.ballX == BallXOrigin && r.ballY == BallYOrigin)
      && (g.opponentScore == 9 ==>
            r.opponentScore == 10 && r.sleep == g.sleep && r.ballX == g.ballX && r.ballY == g.ballY)
  {
  }

  /** The mirror case on the opponent's wall. */
  lemma RightWallScores(g: Game)
    requires g.ballX == XMax
    ensures var r := AfterCollision(g);
      && r.playerScore == g.playerScore + 1 && r.opponentScore == g.opponentScore
      && r.ballYStep == 0.0 && !r.active
      && r.ballXDir == g.ballXDir && r.ballYDir == g.ballYDir
      && (g.playerScore != 9 ==> r.sleep && r.ballX == BallXOrigin && r.ballY == BallYOrigin)
      && (g.playerScore == 9 ==>
            r.playerScore == 10 && r.sleep == g.sleep && r.ballX == g.ballX && r.ballY == g.ballY)
  {
  }

  /** Away from both contact planes and both walls nothing happens. */
  lemma NoCollision(g: Game)
    requires g.ballX != PlayerX + WallSpacer && g.ballX != OpponentX - WallSpacer
    requires g.ballX != XMin && g.ballX != XMax
    ensures AfterCollision(g) == g
  {
  }

  /** A paddle plane reached while moving away from it, or outside the
      paddle's band, is passed through. */
  lemma MissedPaddle(g: Game)
    requires g.ballX == PlayerX + WallSpacer || g.ballX == OpponentX - WallSpacer
    requires g.ballX == PlayerX + WallSpacer ==>
               g.ballXDir == Right || Dist(g.playerY, BallRow(g)) >= BoardTolerance
    requires g.ballX == OpponentX - WallSpacer ==>
               g.ballXDir == Left || Dist(g.opponentY, BallRow(g)) >= BoardTolerance
    ensures AfterCollision(g) == g
  {
  }

  // ---------------------------------------------------------------------
  // Ball movement

  /** One pixel horizontally (in unsigned arithmetic); vertically one step
      unless the ball is at the edge row, where only its direction flips. */
  function AfterBallMovement(g: Game): (r: Game)
    // only the ball's position and vertical direction change
    ensures r == g.(ballX := r.ballX, ballY := r.ballY, ballYDir := r.ballYDir)
    ensures r.ballX < U32
  {
    var x := if g.ballXDir == Left then Wrap(g.ballX - 1) else Wrap(g.ballX + 1);
    if g.ballYDir == Down then
      if g.ballY < (YMax - 1) as real then g.(ballX := x, ballY := g.ballY + g.ballYStep)
      else g.(ballX := x, ballYDir := Up)
    else
      if g.ballY > (YMin + 1) as real then g.(ballX := x, ballY := g.ballY - g.ballYStep)
      else g.(ballX := x, ballYDir := Down)
  }

  /** The ball moves exactly one pixel in its horizontal direction, as long
      as the unsigned counter does not wrap. */
  lemma BallMovesOnePixel(g: Game)
    requires g.ballX < U32
    ensures g.ballXDir == Left && g.ballX > 0 ==> AfterBallMovement(g).ballX == g.ballX - 1
    ensures g.ballXDir == Right && g.ballX < U32 - 1 ==> AfterBallMovement(g).ballX == g.ballX + 1
  {
  }

  /** Away from the edge rows the ball keeps its vertical direction and
      moves one step along it. */
  lemma BallStepsInside(g: Game)
    requires (g.ballYDir == Down && g.ballY < (YMax - 1) as real)
          || (g.ballYDir == Up && g.ballY > (YMin + 1) as real)
    ensures var r := AfterBallMovement(g);
      && r.ballYDir == g.ballYDir
      && r.ballY == (if g.ballYDir == Down then g.ballY + g.ballYStep else g.ballY - g.ballYStep)
  {
  }

  /** Moving left from column 0 wraps the unsigned counter to its maximum. */
  lemma BallWrapsAtZero(g: Game)
    requires g.ballX == 0 && g.ballXDir == Left
    ensures AfterBallMovement(g).ballX == U32 - 1
  {
  }

  /** At the edge rows the ball stays on its row and only turns back. */
  lemma BallTurnsAtEdge(g: Game)
    requires (g.ballYDir == Down && g.ballY >= (YMax - 1) as real)
          || (g.ballYDir == Up && g.ballY <= (YMin + 1) as real)
    ensures var r := AfterBallMovement(g);
      r.ballY == g.ballY && r.ballYDir == Flip(g.ballYDir)
  {
  }

  /** With a step of at most 0.75 the ball never leaves rows 0..88. */
  lemma BallStaysOnBoard(g: Game)
    requires 0.0 <= g.ballY <= YMax as real
    requires 0.0 <= g.ballYStep <= 0.75
    ensures 0.0 <= AfterBallMovement(g).ballY <= YMax as real
  {
  }

  // ---------------------------------------------------------------------
  // Opponent movement

  /** The opponent's chosen direction for this tick, from two rolls. */
  function OpponentAim(g: Game, r1: Roll, r2: Roll): (d: VDir)
    // drift mode: the direction toggles exactly on a second roll above 95
    ensures r1 >= TrackingWeight ==> (d != g.opponentDir <==> r2 > DriftToggleAbove)
    // tracking mode, paddle at y >= 4: Down exactly when ball y > paddle y - 4
    ensures r1 < TrackingWeight && TrackingDeadband <= g.opponentY <= YMax ==>
              (d == Down <==> g.ballY > (g.opponentY - TrackingDeadband) as real)
    // tracking mode, paddle at y < 4: the wrapped subtraction never turns it Down
    ensures r1 < TrackingWeight && g.opponentY < TrackingDeadband && g.ballY <= YMax as real ==>
              (d == Down ==> g.opponentDir == Down)
  {
    if r1 < TrackingWeight then
      // tracking: compare against the dead band, in unsigned arithmetic
      if g.ballY > Wrap(g.opponentY - TrackingDeadband) as real then Down
      else if g.ballY < Wrap(g.opponentY + TrackingDeadband) as real then Up
      else g.opponentDir
    else if r2 > DriftToggleAbove then Flip(g.opponentDir)
    else g.opponentDir
  }

  /** Aim, then move one pixel, turning back at the board's edges. */
  function AfterOpponentMovement(g: Game, r1: Roll, r2: Roll): (r: Game)
    // only the opponent's paddle changes
    ensures r == g.(opponentY := r.opponentY, opponentDir := r.opponentDir)
  {
    var d := OpponentAim(g, r1, r2);
    if d == Up then
      if g.opponentY > YMin then g.(opponentDir := d, opponentY := g.opponentY - 1)
      else g.(opponentDir := Down)
    else
      if g.opponentY < YMax then g.(opponentDir := d, opponentY := g.opponentY + 1)
      else g.(opponentDir := Up)
  }

  /** The paddle moves one pixel in the aimed direction, or, at the edge it
      is aimed past, stays and turns back. */
  lemma OpponentMovesOnePixel(g: Game, r1: Roll, r2: Roll)
    ensures var d, r := OpponentAim(g, r1, r2), AfterOpponentMovement(g, r1, r2);
      && (d == Up && g.opponentY > YMin ==> r.opponentY == g.opponentY - 1 && r.opponentDir == Up)
      && (d == Up && g.opponentY == YMin ==> r.opponentY == g.opponentY && r.opponentDir == Down)
      && (d == Down && g.opponentY < YMax ==> r.opponentY == g.opponentY + 1 && r.opponentDir == Down)
      && (d == Down && g.opponentY >= YMax ==> r.opponentY == g.opponentY && r.opponentDir == Up)
  {
  }

  /** For every pair of rolls the opponent's paddle moves at most one pixel
      and stays within rows 0..88 (the bound at 88 itself). */
  lemma OpponentStaysOnBoard(g: Game, r1: Roll, r2: Roll)
    requires g.opponentY <= YMax
    ensures var r := AfterOpponentMovement(g, r1, r2);
      r.opponentY <= YMax && Dist(r.opponentY, g.opponentY) <= 1
  {
  }

  /** In drift mode the direction toggles exactly when the second roll is
      above 95, and is kept otherwise. */
  lemma DriftToggles(g: Game, r1: Roll, r2: Roll)
    requires r1 >= TrackingWeight
    ensures OpponentAim(g, r1, r2) == (if r2 > DriftToggleAbove then Flip(g.opponentDir) else g.opponentDir)
  {
  }

  /** Outside drift mode (and without the lottery toggle) the aim never
      depends on the second roll. */
  lemma TrackingIgnoresSecondRoll(g: Game, r1: Roll, r2: Roll, r2': Roll)
    requires r1 < TrackingWeight
    ensures OpponentAim(g, r1, r2) == OpponentAim(g, r1, r2')
  {
  }

  /** Tracking with the paddle at y >= 4: Down exactly when ball y exceeds
      paddle y - 4, else Up. */
  lemma TrackingAim(g: Game, r1: Roll, r2: Roll)
    requires r1 < TrackingWeight && TrackingDeadband <= g.opponentY <= YMax
    ensures OpponentAim(g, r1, r2) == Down <==> g.ballY > (g.opponentY - TrackingDeadband) as real
    ensures OpponentAim(g, r1, r2) == Up <==> !(g.ballY > (g.opponentY - TrackingDeadband) as real)
  {
  }

  /** Tracking with the paddle at y < 4: `opponentY - 4` wraps to a huge
      unsigned value, so tracking never chooses Down there; it chooses Up
      when ball y < `opponentY + 4` and otherwise keeps the current
      direction. */
  lemma TrackingNearTopWraps(g: Game, r1: Roll, r2: Roll)
    requires r1 < TrackingWeight && g.opponentY < TrackingDeadband
    requires 0.0 <= g.ballY <= YMax as real
    ensures OpponentAim(g, r1, r2) ==
              (if g.ballY < (g.opponentY + TrackingDeadband) as real then Up else g.opponentDir)
  {
  }

  // ---------------------------------------------------------------------
  // Player input

  /** The buttons are active low: reading pins 0..3 and inverting them. */
  function Decode(pins: bv32): (d: bv32)
    ensures d <= 0xf
    ensures d == 1 <==> pins & 0xf == 0xe    // only pin 0 (Up) pressed
    ensures d == 2 <==> pins & 0xf == 0xd    // only pin 1 (Down) pressed
    ensures d ^ 0xf == pins & 0xf
  {
    (pins & 0xf) ^ 0xf
  }

  /** The Up test, then the Down test, on the decoded button value. */
  function AfterButton(g: Game, pins: bv32): (r: Game)
    // only the player's paddle changes, whatever the match phase
    ensures r == g.(playerY := r.playerY)
  {
    var d := Decode(pins);
    var g1 := if d == 1 && g.playerY > 0 then g.(playerY := Wrap(g.playerY - PlayerStep)) else g;
    if d == 2 && g1.playerY < YMax - 1 then g1.(playerY := Wrap(g1.playerY + PlayerStep)) else g1
  }

  /** Up moves the paddle 4 pixels up unless it is at the top, Down moves
      it 4 pixels down unless it is at row 87 or below, any other value
      leaves it. */
  lemma ButtonMovesPaddle(g: Game, pins: bv32)
    requires g.playerY <= YMax && g.playerY % PlayerStep == 0
    ensures var d, y := Decode(pins), AfterButton(g, pins).playerY;
      && (d == 1 && g.playerY > 0 ==> y == g.playerY - PlayerStep)
      && (d == 2 && g.playerY < YMax - 1 ==> y == g.playerY + PlayerStep)
      && (d == 1 && g.playerY == 0 ==> y == g.playerY)
      && (d == 2 && g.playerY >= YMax - 1 ==> y == g.playerY)
      && (d != 1 && d != 2 ==> y == g.playerY)
  {
  }

  /** The paddle stays a multiple of 4 within rows 0..88. */
  lemma ButtonKeepsPaddleOnGrid(g: Game, pins: bv32)
    requires g.playerY <= YMax && g.playerY % PlayerStep == 0
    ensures var y := AfterButton(g, pins).playerY; y <= YMax && y % PlayerStep == 0
  {
  }

  // ---------------------------------------------------------------------
  // The tick

  /** The countdown digit shown at the serve position. The counter value 30
      matches neither of the first two tests, so it shows "1". */
  function CountdownGlyph(counter: int): (s: string)
    ensures counter < 30 ==> s == "3"
    ensures 30 < counter < 60 ==> s == "2"
    ensures counter == 30 || counter >= 60 ==> s == "1"
  {
    if counter < 30 then "3"
    else if 30 < counter < 60 then "2"
    else "1"
  }

  /** One tick: while playing, collision, then ball movement, then opponent
      movement; while paused, the countdown; once finished, nothing. */
  function AfterTick(g: Game, r1: Roll, r2: Roll): (r: Game)
    // the player's paddle is moved only by the buttons
    ensures r.playerY == g.playerY
  {
    if g.active then
      AfterOpponentMovement(AfterBallMovement(AfterCollision(g)), r1, r2)
    else if g.sleep then
      var c := g.sleepCounter + 1;
      if c > PauseTicks then g.(sleepCounter := 0, sleep := false, active := true)
      else g.(sleepCounter := c)
    else g
  }

  /** The countdown glyphs a tick draws at the serve position: the
      countdown digit, then the ball when play resumes. The drawing a
      playing tick does wherever the ball is is not modelled. */
  function TickGlyphs(g: Game): (s: seq<string>)
    ensures !g.active && g.sleep ==> |s| >= 1 && s[0] == CountdownGlyph(g.sleepCounter + 1)
    // the ball is drawn only on the tick that ends the pause
    ensures !g.active && g.sleep ==>
              |s| == (if g.sleepCounter + 1 > PauseTicks then 2 else 1) && (|s| == 2 ==> s[1] == "*")
    ensures g.active || !g.sleep ==> s == []
  {
    if !g.active && g.sleep then
      [CountdownGlyph(g.sleepCounter + 1)] + (if g.sleepCounter + 1 > PauseTicks then ["*"] else [])
    else []
  }

  /** A paused tick advances the counter and nothing else; the tick whose
      counter passes 100 clears it and resumes play. */
  lemma PausedTick(g: Game, r1: Roll, r2: Roll)
    requires !g.active && g.sleep
    ensures g.sleepCounter < PauseTicks ==> AfterTick(g, r1, r2) == g.(sleepCounter := g.sleepCounter + 1)
    ensures g.sleepCounter == PauseTicks ==>
              AfterTick(g, r1, r2) == g.(sleepCounter := 0, sleep := false, active := true)
              && TickGlyphs(g) == ["1", "*"]
  {
  }

  /** Once the match is over a tick changes nothing and draws nothing. */
  lemma FinishedTickIsIdle(g: Game, r1: Roll, r2: Roll)
    requires !g.active && !g.sleep
    ensures AfterTick(g, r1, r2) == g && TickGlyphs(g) == []
  {
  }

  /** A playing tick moves the opponent last: it aims with the ball's row
      AFTER the ball has moved, then moves one pixel or turns at an edge. */
  lemma PlayingTickMovesOpponent(g: Game, r1: Roll, r2: Roll)
    requires g.active
    ensures var r := AfterTick(g, r1, r2);
      var d := OpponentAim(g.(ballY := r.ballY), r1, r2);
      && r.ballY == AfterBallMovement(AfterCollision(g)).ballY
      && (d == Up && g.opponentY > YMin ==> r.opponentY == g.opponentY - 1 && r.opponentDir == Up)
      && (d == Up && g.opponentY == YMin ==> r.opponentY == g.opponentY && r.opponentDir == Down)
      && (d == Down && g.opponentY < YMax ==> r.opponentY == g.opponentY + 1 && r.opponentDir == Down)
      && (d == Down && g.opponentY >= YMax ==> r.opponentY == g.opponentY && r.opponentDir == Up)
  {
  }

  /** A tick during play in which no wall is hit keeps playing and moves
      the ball exactly one pixel along x. */
  lemma PlayingTickMovesBall(g: Game, r1: Roll, r2: Roll)
    requires Inv(g) && g.active && g.ballX != XMin && g.ballX != XMax
    ensures var r := AfterTick(g, r1, r2);
      && r.active
      && (AfterCollision(g).ballXDir == Left ==> r.ballX == g.ballX - 1)
      && (AfterCollision(g).ballXDir == Right ==> r.ballX == g.ballX + 1)
      && r.playerScore == g.playerScore && r.opponentScore == g.opponentScore
  {
    assert AfterCollision(g).ballX == g.ballX;
  }

  /** A point scored below match point: the tick leaves the match paused
      with a fresh counter, the ball one pixel from the origin on its old
      course (the serve direction is unchanged) and no vertical step. */
  lemma PointStartsPause(g: Game, r1: Roll, r2: Roll)
    requires Inv(g) && g.active
    requires (g.ballX == XMin && g.opponentScore < 9) || (g.ballX == XMax && g.playerScore < 9)
    ensures var r := AfterTick(g, r1, r2);
      && !r.active && r.sleep && r.sleepCounter == 0
      && r.ballXDir == g.ballXDir
      && r.ballX == (if g.ballXDir == Left then BallXOrigin - 1 else BallXOrigin + 1)
      && r.ballY == BallYOrigin && r.ballYStep == 0.0
      && r.playerScore + r.opponentScore == g.playerScore + g.opponentScore + 1
  {
  }

  /** The match-ending tick still moves the ball after the wall hit: at
      column 0 the unsigned counter wraps, at column 120 it reaches 121. */
  lemma MatchPointOvershoots(g: Game, r1: Roll, r2: Roll)
    requires Inv(g) && g.active
    requires (g.ballX == XMin && g.opponentScore == 9) || (g.ballX == XMax && g.playerScore == 9)
    ensures var r := AfterTick(g, r1, r2);
      && PhaseOf(r) == Finished
      && (g.ballX == XMin ==> r.opponentScore == 10 && r.ballX == U32 - 1)
      && (g.ballX == XMax ==> r.playerScore == 10 && r.ballX == XMax + 1)
  {
  }

  // ---------------------------------------------------------------------
  // The invariant

  lemma InitInv()
    ensures Inv(Init())
  {
  }

  /** The collision step of a playing tick, as far as the invariant cares. */
  lemma CollisionKeepsBall(g: Game)
    requires Inv(g) && g.active
    ensures var c := AfterCollision(g);
      && 0.0 <= c.ballY <= YMax as real
      && (c.ballYStep == 0.0 || c.ballYStep == 0.2 || c.ballYStep == 0.75)
      && (c.active ==> 0 < c.ballX < XMax && !c.sleep && c.playerScore < 10 && c.opponentScore < 10)
      && (c.active && c.ballX <= PlayerX + WallSpacer ==> c.ballXDir == Left || c.ballX == PlayerX + WallSpacer)
      && (c.active && c.ballX >= OpponentX - WallSpacer ==> c.ballXDir == Right || c.ballX == OpponentX - WallSpacer)
      && (c.sleep ==> c.ballX == BallXOrigin && c.ballY == BallYOrigin && c.ballYStep == 0.0 && !c.active)
  {
  }

  lemma TickKeepsInv(g: Game, r1: Roll, r2: Roll)
    requires Inv(g)
    ensures Inv(AfterTick(g, r1, r2))
  {
    if g.active {
      CollisionKeepsBall(g);
      var c := AfterCollision(g);
      BallStaysOnBoard(c);
      OpponentStaysOnBoard(AfterBallMovement(c), r1, r2);
    }
  }

  lemma ButtonKeepsInv(g: Game, pins: bv32)
    requires Inv(g)
    ensures Inv(AfterButton(g, pins))
  {
    ButtonKeepsPaddleOnGrid(g, pins);
  }
}
