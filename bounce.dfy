/** The three pure classifiers that decide, from a paddle's y and the ball's
    (truncated) y, whether the ball touches the paddle, at what vertical step
    it leaves and in which vertical direction. */
module Bounce {
  import opened Board

  /** 1 when the ball is within the paddle's contact band, 0 otherwise. */
  function IsYBounceable(boardY: int, ballY: int): (r: int)
    ensures r == 0 || r == 1
    ensures r == 1 <==> Dist(boardY, ballY) < BoardTolerance
  {
    if boardY + BoardTolerance > ballY && boardY - BoardTolerance < ballY then 1 else 0
  }

  /** The vertical step the ball takes after hitting the paddle. Five zones
      are written out, but the "middle-bottom" zone is shadowed by the
      "bottom" zone tested before it, so the bottom half of the band only
      ever yields the wide angle. */
  function BallYBounceAngle(boardY: int, ballY: int): (r: real)
    ensures r == 0.0 || r == 0.2 || r == 0.75
    ensures ballY == boardY ==> r == 0.0
    // the whole bottom half of the band takes the wide angle
    ensures boardY < ballY < boardY + BoardTolerance ==> r == 0.75
    // the shallow angle is taken exactly in the middle-top zone
    ensures r == 0.2 <==> boardY - BoardTolerance + ShallowAngleOffset < ballY < boardY
    ensures boardY - BoardTolerance < ballY <= boardY - BoardTolerance + ShallowAngleOffset ==> r == 0.75
    ensures Dist(boardY, ballY) >= BoardTolerance ==> r == 0.0
  {
    // bottom
    if boardY + BoardTolerance > ballY && boardY < ballY then 0.75
    // middle-bottom
    else if boardY + BoardTolerance - ShallowAngleOffset > ballY && boardY < ballY then 0.2
    // middle
    else if boardY == ballY then 0.0
    // middle-top
    else if boardY - BoardTolerance + ShallowAngleOffset < ballY && boardY > ballY then 0.2
    // top
    else if boardY - BoardTolerance < ballY && boardY > ballY then 0.75
    else 0.0
  }

  /** The outgoing vertical direction code: Down below the paddle, Up above
      it, the "level" code -1 when the ball is exactly level. Outside the band
      the initial value 0, which is also the Up code, is returned. */
  function BallDirectionForBounceboardCollision(boardY: int, ballY: int): (r: int)
    ensures r == DirectionCodeDown <==> boardY < ballY < boardY + BoardTolerance
    ensures r == DirectionCodeLevel <==> ballY == boardY
    ensures boardY - BoardTolerance < ballY < boardY ==> r == DirectionCodeUp
    ensures Dist(boardY, ballY) >= BoardTolerance ==> r == DirectionCodeUp
  {
    // bottom
    if boardY + BoardTolerance > ballY && boardY < ballY then DirectionCodeDown
    // middle
    else if boardY == ballY then DirectionCodeLevel
    // top
    else if boardY - BoardTolerance < ballY && boardY > ballY then DirectionCodeUp
    else 0
  }

  /** Whatever the direction code, the ball's new vertical direction: the
      code applied when it is Down or Up, the current direction kept when
      it is the level code. */
  function Deflect(current: VDir, code: int): (d: VDir)
    ensures code == DirectionCodeDown ==> d == Down
    ensures code == DirectionCodeUp ==> d == Up
    ensures code != DirectionCodeDown && code != DirectionCodeUp ==> d == current
  {
    if code == DirectionCodeDown then Down
    else if code == DirectionCodeUp then Up
    else current
  }

  /** Inside the contact band, the angle and direction classifiers agree:
      a level ball gets no step and keeps its direction, a ball below the
      paddle goes Down at the wide angle, and a ball above goes Up. */
  lemma AngleAndDirectionAgree(boardY: int, ballY: int)
    requires IsYBounceable(boardY, ballY) == 1
    ensures BallYBounceAngle(boardY, ballY) == 0.0 <==> BallDirectionForBounceboardCollision(boardY, ballY) == DirectionCodeLevel
    ensures BallDirectionForBounceboardCollision(boardY, ballY) == DirectionCodeDown ==> BallYBounceAngle(boardY, ballY) == 0.75
    ensures BallYBounceAngle(boardY, ballY) == 0.2 ==> BallDirectionForBounceboardCollision(boardY, ballY) == DirectionCodeUp
  {
  }

  /** On each side of the paddle, the bounce step never decreases as the
      ball moves away from the paddle's centre, up to the band's edge. */
  lemma AngleMonotoneInDistance(boardY: int, y1: int, y2: int)
    requires (boardY <= y1 <= y2) || (y2 <= y1 <= boardY)
    requires Dist(boardY, y2) < BoardTolerance
    ensures BallYBounceAngle(boardY, y1) <= BallYBounceAngle(boardY, y2)
  {
  }
}
