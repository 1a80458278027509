/** Sequences of the two entry points: timer ticks, each with the two
    opponent rolls it draws, and button edges, each with the pins read.
    The two interrupt handlers are modelled as running one after the other,
    never interleaved within a handler. */
module Session {
  import opened Board
  import opened Rules

  datatype Event = TickEvent(r1: Roll, r2: Roll) | ButtonEvent(pins: bv32)

  function Apply(g: Game, e: Event): Game {
    match e
    case TickEvent(r1, r2) => AfterTick(g, r1, r2)
    case ButtonEvent(pins) => AfterButton(g, pins)
  }

  /** The state after handling `es` in order. */
  function Run(g: Game, es: seq<Event>): Game
    decreases |es|
  {
    if es == [] then g else Run(Apply(g, es[0]), es[1..])
  }

  /** How many of `es` are ticks. */
  function TickCount(es: seq<Event>): nat
    decreases |es|
  {
    if es == [] then 0 else (if es[0].TickEvent? then 1 else 0) + TickCount(es[1..])
  }

  lemma {:induction false} RunAppend(g: Game, a: seq<Event>, b: seq<Event>)
    ensures Run(g, a + b) == Run(Run(g, a), b)
    decreases |a|
  {
    if a != [] {
      assert (a + b)[0] == a[0];
      assert (a + b)[1..] == a[1..] + b;
      RunAppend(Apply(g, a[0]), a[1..], b);
      assert Run(g, a + b) == Run(Apply(g, a[0]), a[1..] + b);
    } else {
      assert a + b == b;
    }
  }

  /** Whatever the rolls and whatever the button presses, and in any order,
      the invariant holds after every event: both paddles stay on the board,
      the player's paddle on the 4-pixel grid, the ball on rows 0..88,
      no score above 10, and during play and pauses the ball within columns
      0..120. */
  lemma {:induction false} RunKeepsInv(g: Game, es: seq<Event>)
    requires Inv(g)
    ensures Inv(Run(g, es))
    decreases |es|
  {
    if es != [] {
      match es[0] {
        case TickEvent(r1, r2) => TickKeepsInv(g, r1, r2);
        case ButtonEvent(pins) => ButtonKeepsInv(g, pins);
      }
      RunKeepsInv(Apply(g, es[0]), es[1..]);
    }
  }

  /** Every state reachable from power-on satisfies the invariant. */
  lemma Reachable(es: seq<Event>)
    ensures Inv(Run(Init(), es))
  {
    InitInv();
    RunKeepsInv(Init(), es);
  }

  /** During a pause, button presses move only the player's paddle and ticks
      only advance the counter: after `n` ticks with the counter still at
      most 100, the same pause holds with the counter raised by `n`. */
  lemma {:induction false} PauseCountsTicks(g: Game, es: seq<Event>)
    requires !g.active && g.sleep
    requires g.sleepCounter + TickCount(es) <= PauseTicks
    ensures var r := Run(g, es);
      r == g.(sleepCounter := g.sleepCounter + TickCount(es), playerY := r.playerY)
    decreases |es|
  {
    if es != [] {
      var g' := Apply(g, es[0]);
      assert g' == g.(sleepCounter := g'.sleepCounter, playerY := g'.playerY);
      PauseCountsTicks(g', es[1..]);
    }
  }

  /** A pause entered with the counter at 0 lasts exactly 101 ticks: after
      100 ticks (and any presses) it is still paused, and the next tick
      resumes play with the counter cleared. */
  lemma PauseLasts101Ticks(g: Game, es: seq<Event>, r1: Roll, r2: Roll)
    requires !g.active && g.sleep && g.sleepCounter == 0
    requires TickCount(es) == PauseTicks
    ensures PhaseOf(Run(g, es)) == Paused(PauseTicks)
    ensures var r := Run(g, es + [TickEvent(r1, r2)]);
      r == g.(sleepCounter := 0, sleep := false, active := true, playerY := r.playerY)
  {
    PauseCountsTicks(g, es);
    RunAppend(g, es, [TickEvent(r1, r2)]);
  }

  /** Once the match is finished, nothing but the player's paddle ever
      changes again. */
  lemma {:induction false} FinishedIsFinal(g: Game, es: seq<Event>)
    requires !g.active && !g.sleep
    ensures var r := Run(g, es); r == g.(playerY := r.playerY)
    decreases |es|
  {
    if es != [] {
      FinishedIsFinal(Apply(g, es[0]), es[1..]);
    }
  }
}
