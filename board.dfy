/** The fixed geometry of the Pong board, the direction encodings and the
    unsigned 32-bit arithmetic of the game's coordinates. */
module Board {

  // Grid
  const XMin := 0
  const XMax := 120
  const YMin := 0
  const YMax := 88
  /** Distance between a paddle and the plane on which the ball touches it. */
  const WallSpacer := 5

  // Bounce boards
  const BoardTolerance := 7
  const ShallowAngleOffset := 3

  // Ball serve position
  const BallXOrigin := 60
  const BallYOrigin: real := 44.0

  /** The paddles' x coordinates; the game never changes them. */
  const PlayerX := XMin
  const OpponentX := XMax - 1

  /** The integer codes the bounce-direction classifier returns. */
  const DirectionCodeUp := 0
  const DirectionCodeDown := 1
  const DirectionCodeLevel := -1

  /** Vertical direction of the ball or of the opponent paddle
      (y grows downwards on the screen). */
  datatype VDir = Up | Down

  /** Horizontal direction of the ball. */
  datatype HDir = Left | Right

  function Flip(d: VDir): (r: VDir)
    ensures r != d
  {
    if d == Up then Down else Up
  }

  /** Values of a C `unsigned int`. */
  const U32 := 0x1_0000_0000

  /** C unsigned arithmetic: the mathematical result reduced modulo 2^32. */
  function Wrap(n: int): (r: nat)
    ensures r < U32
    ensures 0 <= n < U32 ==> r == n
    ensures -U32 <= n < 0 ==> r == n + U32
    ensures U32 <= n < 2 * U32 ==> r == n - U32
  {
    n % U32
  }

  /** One result of `rand() % 100`. */
  type Roll = r: int | 0 <= r < 100

  function Dist(a: int, b: int): (d: nat)
    ensures d == a - b || d == b - a
  {
    if a >= b then a - b else b - a
  }
}
