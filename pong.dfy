/** The game as the firmware runs it: the globals as fields updated in
    place, the game functions as methods, and the two interrupt handlers as
    entry points. Each method is proved to leave the fields exactly as the
    corresponding function of `Rules` says. */
module Pong {
  import opened Board
  import opened Bounce
  import opened Rules

  class Pong {
    // Player coordinates (the x coordinate is the constant PlayerX)
    var playerY: nat
    // Opponent coordinates (the x coordinate is the constant OpponentX)
    var opponentY: nat
    var opponentDir: VDir
    // Ball coordinates, angle and movement
    var ballY: real
    var ballX: nat
    var ballYStep: real
    var ballXDir: HDir
    var ballYDir: VDir
    // General game state
    var active: bool
    var sleep: bool
    var sleepCounter: nat
    var playerScore: nat
    var opponentScore: nat

    /** The value of all globals. */
    ghost function Model(): Game
      reads this
    {
      Game(playerY, opponentY, opponentDir, ballX, ballY, ballXDir, ballYDir, ballYStep,
           active, sleep, sleepCounter, playerScore, opponentScore)
    }

    ghost predicate Valid()
      reads this
    {
      Inv(Model())
    }

    /** The globals' initial values. */
    constructor ()
      ensures Model() == Init() && Valid()
    {
      playerY := YMax / 2;
      opponentY := YMax / 2;
      opponentDir := Up;
      ballY := BallYOrigin;
      ballX := BallXOrigin;
      ballYStep := 0.0;
      ballXDir := Left;
      ballYDir := Up;
      active := true;
      sleep := false;
      sleepCounter := 0;
      playerScore := 0;
      opponentScore := 0;
      InitInv();
    }

    /** Sets the ball's vertical direction from a bounce direction code;
        the level code leaves it. */
    method ApplyBounceDirection(code: int)
      modifies this`ballYDir
      ensures ballYDir == Deflect(old(ballYDir), code)
    {
      if code == DirectionCodeDown {
        ballYDir := Down;
      } else if code == DirectionCodeUp {
        ballYDir := Up;
      }
    }

    /** Ball against paddle, then wall. */
    method CollisionDetector()
      modifies this
      ensures Model() == AfterCollision(old(Model()))
    {
      if ballX == PlayerX + WallSpacer && IsYBounceable(playerY, ballY.Floor) == 1 && ballXDir == Left {
        ballXDir := Right;
        ballYStep := BallYBounceAngle(playerY, ballY.Floor);
        var newBallDirection := BallDirectionForBounceboardCollision(playerY, ballY.Floor);
        ApplyBounceDirection(newBallDirection);
      } else if ballX == OpponentX - WallSpacer && IsYBounceable(opponentY, ballY.Floor) == 1 && ballXDir == Right {
        ballXDir := Left;
        ballYStep := BallYBounceAngle(opponentY, ballY.Floor);
        var newBallDirection := BallDirectionForBounceboardCollision(opponentY, ballY.Floor);
        ApplyBounceDirection(newBallDirection);
      } else if ballX == XMin {
        ballYStep := 0.0;
        if opponentScore == 9 {
          opponentScore := opponentScore + 1;
          active := false;
        } else {
          opponentScore := opponentScore + 1;
          active := false;
          sleep := true;
          ballY := BallYOrigin;
          ballX := BallXOrigin;
          // the serve direction is compared with Right, not set to it
        }
      } else if ballX == XMax {
        ballYStep := 0.0;
        if playerScore == 9 {
          playerScore := playerScore + 1;
          active := false;
        } else {
          playerScore := playerScore + 1;
          active := false;
          sleep := true;
          ballY := BallYOrigin;
          ballX := BallXOrigin;
          // the serve direction is compared with Left, not set to it
        }
      }
    }

    /** One pixel along x, one step along y or a turn at the edge rows. */
    method BallMovement()
      modifies this
      ensures Model() == AfterBallMovement(old(Model()))
    {
      if ballXDir == Left {
        ballX := Wrap(ballX - 1);
      } else {
        ballX := Wrap(ballX + 1);
      }

      if ballYDir == Down {
        if ballY < (YMax - 1) as real {
          ballY := ballY + ballYStep;
        } else {
          ballYDir := Up;
        }
      } else {
        if ballY > (YMin + 1) as real {
          ballY := ballY - ballYStep;
        } else {
          ballYDir := Down;
        }
      }
    }

    /** The two-roll lottery, then one pixel of movement. `invincibleVote`
        and `normalMovementVote` are the two `rand() % 100` results. */
    method OpponentMovement(invincibleVote: Roll, normalMovementVote: Roll)
      modifies this
      ensures Model() == AfterOpponentMovement(old(Model()), invincibleVote, normalMovementVote)
    {
      if invincibleVote < TrackingWeight {
        if ballY > Wrap(opponentY - TrackingDeadband) as real {
          opponentDir := Down;
        } else if ballY < Wrap(opponentY + TrackingDeadband) as real {
          opponentDir := Up;
        }
      } else {
        if normalMovementVote > DriftToggleAbove {
          if opponentDir == Up {
            opponentDir := Down;
          } else {
            opponentDir := Up;
          }
        }
      }

      if opponentDir == Up {
        if opponentY > YMin {
          opponentY := opponentY - 1;
        } else {
          opponentDir := Down;
        }
      } else {
        if opponentY < YMax {
          opponentY := opponentY + 1;
        } else {
          opponentDir := Up;
        }
      }
    }

    /** The timer interrupt. Returns the glyphs drawn at the serve position
        during a pause; the drawing done during play is not modelled. */
    method SysTick(r1: Roll, r2: Roll) returns (glyphs: seq<string>)
      requires Valid()
      modifies this
      ensures Valid()
      ensures Model() == AfterTick(old(Model()), r1, r2)
      ensures glyphs == TickGlyphs(old(Model()))
    {
      ghost var before := Model();
      glyphs := [];
      if active {
        CollisionDetector();
        BallMovement();
        OpponentMovement(r1, r2);
      } else if sleep {
        sleepCounter := sleepCounter + 1;
        glyphs := [CountdownGlyph(sleepCounter)];
        if sleepCounter > PauseTicks {
          glyphs := glyphs + ["*"];
          sleepCounter := 0;
          sleep := false;
          active := true;
        }
      }
      TickKeepsInv(before, r1, r2);
    }

    /** The button interrupt, given the value read from pins 0..3. */
    method ButtonPress(pins: bv32)
      requires Valid()
      modifies this
      ensures Valid()
      ensures Model() == AfterButton(old(Model()), pins)
    {
      ghost var before := Model();
      var data := Decode(pins);
      // Up
      if data == 1 {
        if playerY > 0 {
          playerY := Wrap(playerY - PlayerStep);
        }
      }
      // Down
      if data == 2 {
        if playerY < YMax - 1 {
          playerY := Wrap(playerY + PlayerStep);
        }
      }
      ButtonKeepsInv(before, pins);
    }
  }
}
