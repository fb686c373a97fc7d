/** The game state as a value and the pure specification of what one frame, one
    key press and start-up do to it.  `Step` follows the phases of `update` in the
    game's own order: steer the rackets, clamp them, move the ball, score (left
    edge, then right edge), bounce off a wall (top, else bottom) and bounce off a
    racket (player 1, then player 2). */
module FrameStep {
  import opened PongTypes
  import opened Randomness

  /** Every field of the game state. */
  datatype State = State(
    running: bool,
    player1Pos: Vec2,
    player2Pos: Vec2,
    ballPos: Vec2,
    ballVel: Vec2,
    player1Score: int,
    player2Score: int,
    color: Color,
    pauseText: string)

  /** Which movement keys are held: W/S steer player 1, Up/Down player 2. */
  datatype Keys = Keys(w: bool, s: bool, up: bool, down: bool)

  /** Everything one frame reads from outside the state: the elapsed time, the
      drawable size, the held keys, and the sign draws of the two ball resets
      (one per scoring check). */
  datatype Frame = Frame(
    dt: real,
    screenW: real,
    screenH: real,
    keys: Keys,
    leftReset: SignDraw,
    rightReset: SignDraw)

  /** The keys the key-down handler tells apart. */
  datatype Key = Space | C | Escape | Other

  // ---------------------------------------------------------------- helpers

  /** The value `clamp` leaves: the low bound is checked first, then the high one. */
  function ClampOf(value: real, low: real, high: real): (r: real)
    ensures low <= high ==> low <= r <= high
    ensures low <= value <= high ==> r == value
    ensures value < low ==> r == low
    ensures low <= value && high < value ==> r == high
  {
    if value < low then low else if value > high then high else value
  }

  /** The position `move_racket` leaves: only y moves, and only when the key is held. */
  function RacketMoved(pos: Vec2, pressed: bool, yDir: real): (p: Vec2)
    ensures p.x == pos.x
    ensures pressed ==> p.y == pos.y + yDir
    ensures !pressed ==> p == pos
  {
    if pressed then pos.(y := pos.y + yDir) else pos
  }

  /** A racket's centre keeps the whole racket on a screen of height h. */
  predicate OnScreen(y: real, h: real)
  {
    RacketHeightHalf <= y <= h - RacketHeightHalf
  }

  predicate PaddlesOnScreen(s: State, h: real)
  {
    OnScreen(s.player1Pos.y, h) && OnScreen(s.player2Pos.y, h)
  }

  /** The ball's square overlaps the racket's rectangle (strict on every side). */
  predicate Overlaps(ball: Vec2, racket: Vec2)
  {
    ball.x - BallSizeHalf < racket.x + RacketWidthHalf &&
    ball.x + BallSizeHalf > racket.x - RacketWidthHalf &&
    ball.y - BallSizeHalf < racket.y + RacketHeightHalf &&
    ball.y + BallSizeHalf > racket.y - RacketHeightHalf
  }

  /** The speed invariant: the vertical speed is always the base speed, and the
      horizontal speed never drops below it. */
  predicate SpeedOk(v: Vec2)
  {
    Abs(v.y) == BallSpeed && Abs(v.x) >= BallSpeed
  }

  // ----------------------------------------------------------- frame phases

  /** Phase 1: the four movement keys, each checked on its own: W/Up move a racket
      up by PlayerSpeed * dt, S/Down move it down by as much, and both held cancel. */
  function Steer(s: State, keys: Keys, dt: real): (r: State)
    ensures r == s.(player1Pos := r.player1Pos, player2Pos := r.player2Pos)
    ensures r.player1Pos.x == s.player1Pos.x && r.player2Pos.x == s.player2Pos.x
    ensures r.player1Pos.y == s.player1Pos.y - (if keys.w then PlayerSpeed * dt else 0.0)
                                             + (if keys.s then PlayerSpeed * dt else 0.0)
    ensures r.player2Pos.y == s.player2Pos.y - (if keys.up then PlayerSpeed * dt else 0.0)
                                             + (if keys.down then PlayerSpeed * dt else 0.0)
    ensures keys.w == keys.s ==> r.player1Pos == s.player1Pos
    ensures keys.up == keys.down ==> r.player2Pos == s.player2Pos
  {
    var p1 := RacketMoved(RacketMoved(s.player1Pos, keys.w, -PlayerSpeed * dt), keys.s, PlayerSpeed * dt);
    var p2 := RacketMoved(RacketMoved(s.player2Pos, keys.up, -PlayerSpeed * dt), keys.down, PlayerSpeed * dt);
    s.(player1Pos := p1, player2Pos := p2)
  }

  /** Phase 2: both rackets are clamped into [RacketHeightHalf, h - RacketHeightHalf]. */
  function ClampPaddles(s: State, h: real): (r: State)
    ensures r == s.(player1Pos := r.player1Pos, player2Pos := r.player2Pos)
    ensures r.player1Pos.x == s.player1Pos.x && r.player2Pos.x == s.player2Pos.x
    ensures r.player1Pos.y == ClampOf(s.player1Pos.y, RacketHeightHalf, h - RacketHeightHalf)
    ensures r.player2Pos.y == ClampOf(s.player2Pos.y, RacketHeightHalf, h - RacketHeightHalf)
    ensures h >= RacketHeight ==> PaddlesOnScreen(r, h)
    ensures OnScreen(s.player1Pos.y, h) ==> r.player1Pos == s.player1Pos
    ensures OnScreen(s.player2Pos.y, h) ==> r.player2Pos == s.player2Pos
    ensures s.player1Pos.y < RacketHeightHalf ==> r.player1Pos.y == RacketHeightHalf
    ensures s.player2Pos.y < RacketHeightHalf ==> r.player2Pos.y == RacketHeightHalf
    ensures RacketHeightHalf <= s.player1Pos.y && h - RacketHeightHalf < s.player1Pos.y ==>
              r.player1Pos.y == h - RacketHeightHalf
    ensures RacketHeightHalf <= s.player2Pos.y && h - RacketHeightHalf < s.player2Pos.y ==>
              r.player2Pos.y == h - RacketHeightHalf
  {
    var low, high := RacketHeightHalf, h - RacketHeightHalf;
    s.(player1Pos := s.player1Pos.(y := ClampOf(s.player1Pos.y, low, high)),
       player2Pos := s.player2Pos.(y := ClampOf(s.player2Pos.y, low, high)))
  }

  /** Where a ball at pos with velocity vel is after dt seconds. */
  function Advanced(pos: Vec2, vel: Vec2, dt: real): (p: Vec2)
    ensures p.x - pos.x == vel.x * dt && p.y - pos.y == vel.y * dt
  {
    Vec2(pos.x + vel.x * dt, pos.y + vel.y * dt)
  }

  /** Phase 3: the ball moves along its velocity; nothing else changes. */
  function Integrate(s: State, dt: real): (r: State)
    ensures r == s.(ballPos := r.ballPos)
    ensures r.ballPos.x - s.ballPos.x == s.ballVel.x * dt
    ensures r.ballPos.y - s.ballPos.y == s.ballVel.y * dt
    ensures dt == 0.0 ==> r == s
  {
    s.(ballPos := Advanced(s.ballPos, s.ballVel, dt))
  }

  /** Phase 4a: a ball past the left edge is a point for player 2; the ball is
      re-centred and relaunched at the base speed with drawn signs. */
  function ScoreLeft(s: State, w: real, h: real, draw: SignDraw): (r: State)
    ensures s.ballPos.x < 0.0 ==>
              r.player2Score == s.player2Score + 1 &&
              r.ballPos == Vec2(w * 0.5, h * 0.5) &&
              r.ballVel == RandomVec(BallSpeed, BallSpeed, draw) &&
              Abs(r.ballVel.x) == BallSpeed && Abs(r.ballVel.y) == BallSpeed
    ensures r == s.(ballPos := r.ballPos, ballVel := r.ballVel, player2Score := r.player2Score)
    ensures 0.0 <= s.ballPos.x ==> r == s
  {
    if s.ballPos.x < 0.0 then
      s.(ballPos := Vec2(w * 0.5, h * 0.5),
         ballVel := RandomVec(BallSpeed, BallSpeed, draw),
         player2Score := s.player2Score + 1)
    else s
  }

  /** Phase 4b: a ball past the right edge is a point for player 1, with the same reset. */
  function ScoreRight(s: State, w: real, h: real, draw: SignDraw): (r: State)
    ensures w < s.ballPos.x ==>
              r.player1Score == s.player1Score + 1 &&
              r.ballPos == Vec2(w * 0.5, h * 0.5) &&
              r.ballVel == RandomVec(BallSpeed, BallSpeed, draw) &&
              Abs(r.ballVel.x) == BallSpeed && Abs(r.ballVel.y) == BallSpeed
    ensures r == s.(ballPos := r.ballPos, ballVel := r.ballVel, player1Score := r.player1Score)
    ensures s.ballPos.x <= w ==> r == s
  {
    if s.ballPos.x > w then
      s.(ballPos := Vec2(w * 0.5, h * 0.5),
         ballVel := RandomVec(BallSpeed, BallSpeed, draw),
         player1Score := s.player1Score + 1)
    else s
  }

  /** Phase 5: a ball above the top wall is put back on it and sent downwards;
      otherwise a ball below the bottom wall is put back on it and sent upwards. */
  function BounceWalls(s: State, h: real): (r: State)
    ensures r == s.(ballPos := r.ballPos, ballVel := r.ballVel)
    ensures r.ballPos.x == s.ballPos.x && r.ballVel.x == s.ballVel.x
    ensures Abs(r.ballVel.y) == Abs(s.ballVel.y)
    ensures s.ballPos.y < BallSizeHalf ==>
              r.ballPos.y == BallSizeHalf && r.ballVel.y >= 0.0
    ensures BallSizeHalf <= s.ballPos.y && h - BallSizeHalf < s.ballPos.y ==>
              r.ballPos.y == h - BallSizeHalf && r.ballVel.y <= 0.0
    ensures BallSizeHalf <= s.ballPos.y <= h - BallSizeHalf ==> r == s
    ensures h >= BallSize ==> BallSizeHalf <= r.ballPos.y <= h - BallSizeHalf
  {
    if s.ballPos.y < BallSizeHalf then
      s.(ballPos := s.ballPos.(y := BallSizeHalf), ballVel := s.ballVel.(y := Abs(s.ballVel.y)))
    else if s.ballPos.y > h - BallSizeHalf then
      s.(ballPos := s.ballPos.(y := h - BallSizeHalf), ballVel := s.ballVel.(y := -Abs(s.ballVel.y)))
    else s
  }

  /** Phase 6: a ball overlapping player 1's racket is sent right, one overlapping
      player 2's is sent left, each time 10% faster; the ball is not moved out. */
  function HitPaddles(s: State): (r: State)
    ensures r == s.(ballVel := Vec2(r.ballVel.x, s.ballVel.y))
    ensures Abs(r.ballVel.x) >= Abs(s.ballVel.x)
    ensures !Overlaps(s.ballPos, s.player1Pos) && !Overlaps(s.ballPos, s.player2Pos) ==> r == s
    ensures Overlaps(s.ballPos, s.player1Pos) && !Overlaps(s.ballPos, s.player2Pos) ==>
              r.ballVel.x == Abs(s.ballVel.x) * BounceFactor
    ensures !Overlaps(s.ballPos, s.player1Pos) && Overlaps(s.ballPos, s.player2Pos) ==>
              r.ballVel.x == -Abs(s.ballVel.x) * BounceFactor
    ensures Overlaps(s.ballPos, s.player1Pos) && Overlaps(s.ballPos, s.player2Pos) ==>
              r.ballVel.x == -Abs(s.ballVel.x) * BounceFactor * BounceFactor
  {
    var vx1 := if Overlaps(s.ballPos, s.player1Pos) then Abs(s.ballVel.x) * BounceFactor else s.ballVel.x;
    var vx2 := if Overlaps(s.ballPos, s.player2Pos) then -Abs(vx1) * BounceFactor else vx1;
    s.(ballVel := Vec2(vx2, s.ballVel.y))
  }

  // ----------------------------------------------------------- whole frame

  /** One call of `update`: nothing happens while paused; otherwise the six phases in order. */
  function Step(s: State, f: Frame): (r: State)
    ensures !s.running ==> r == s
    ensures r.running == s.running && r.color == s.color && r.pauseText == s.pauseText
    ensures r.player1Pos.x == s.player1Pos.x && r.player2Pos.x == s.player2Pos.x
    ensures s.running && f.screenH >= RacketHeight ==> PaddlesOnScreen(r, f.screenH)
    ensures s.running && f.screenH >= BallSize ==>
              BallSizeHalf <= r.ballPos.y <= f.screenH - BallSizeHalf
    ensures r.player1Score == s.player1Score || r.player1Score == s.player1Score + 1
    ensures r.player2Score == s.player2Score || r.player2Score == s.player2Score + 1
    ensures f.screenW >= 0.0 ==>
              r.player1Score == s.player1Score || r.player2Score == s.player2Score
    ensures s.running && Advanced(s.ballPos, s.ballVel, f.dt).x < 0.0 && f.screenW >= 0.0 ==>
              r.player2Score == s.player2Score + 1 && r.player1Score == s.player1Score &&
              r.ballPos.x == f.screenW * 0.5 &&
              (f.screenH >= BallSize ==> r.ballPos.y == f.screenH * 0.5) &&
              Abs(r.ballVel.y) == BallSpeed && Abs(r.ballVel.x) >= BallSpeed
    ensures s.running && f.screenW < Advanced(s.ballPos, s.ballVel, f.dt).x && f.screenW >= 0.0 ==>
              r.player1Score == s.player1Score + 1 && r.player2Score == s.player2Score &&
              r.ballPos.x == f.screenW * 0.5 &&
              (f.screenH >= BallSize ==> r.ballPos.y == f.screenH * 0.5) &&
              Abs(r.ballVel.y) == BallSpeed && Abs(r.ballVel.x) >= BallSpeed
    ensures s.running && 0.0 <= Advanced(s.ballPos, s.ballVel, f.dt).x <= f.screenW ==>
              r.player1Score == s.player1Score && r.player2Score == s.player2Score &&
              r.ballPos.x == Advanced(s.ballPos, s.ballVel, f.dt).x &&
              Abs(r.ballVel.y) == Abs(s.ballVel.y) && Abs(r.ballVel.x) >= Abs(s.ballVel.x)
    ensures SpeedOk(s.ballVel) ==> SpeedOk(r.ballVel)
  {
    if !s.running then s
    else
      var steered := ClampPaddles(Steer(s, f.keys, f.dt), f.screenH);
      var moved := Integrate(steered, f.dt);
      assert moved.ballPos == Advanced(s.ballPos, s.ballVel, f.dt);
      var scored := ScoreRight(ScoreLeft(moved, f.screenW, f.screenH, f.leftReset),
                               f.screenW, f.screenH, f.rightReset);
      HitPaddles(BounceWalls(scored, f.screenH))
  }

  // ------------------------------------------------------- key presses, start

  /** `key_down_event`: Space toggles pause and switches to the resume message,
      C recolours with a colour different from the current one (None when the
      supplied attempts never give one), every other key changes nothing. */
  function KeyDown(s: State, key: Key, draws: seq<ColorDraw>): (r: Option<State>)
    ensures key == Space ==>
              r == Some(s.(running := !s.running, pauseText := ResumeText))
    ensures key == C && r.Some? ==>
              r.value == s.(color := r.value.color) && r.value.color != s.color &&
              Cosmetic(r.value.color)
    ensures key == C ==> (r.Some? <==> exists i :: 0 <= i < |draws| && Acceptable(Some(s.color), draws[i]))
    ensures key == Escape || key == Other ==> r == Some(s)
  {
    match key
    case Space => Some(s.(running := !s.running, pauseText := ResumeText))
    case C =>
      RandomizedColorFirstAcceptable(Some(s.color), draws);
      (match RandomizedColor(Some(s.color), draws)
       case None => None
       case Some(c) => Some(s.(color := c)))
    case Escape => Some(s)
    case Other => Some(s)
  }

  /** The invariant every reachable state keeps. */
  predicate GameInv(s: State)
  {
    SpeedOk(s.ballVel) && Cosmetic(s.color) && s.player1Score >= 0 && s.player2Score >= 0
  }

  /** `MainState::new` on a screen of size w x h. */
  function New(w: real, h: real, velDraw: SignDraw, colorDraw: ColorDraw): (s: State)
    ensures !s.running && s.pauseText == StartText
    ensures s.player1Score == 0 && s.player2Score == 0
    ensures s.ballPos == Vec2(w * 0.5, h * 0.5)
    ensures s.player1Pos == Vec2(RacketWidthHalf + RacketPadding, h * 0.5)
    ensures s.player2Pos == Vec2(w - RacketWidthHalf - RacketPadding, h * 0.5)
    ensures Abs(s.ballVel.x) == BallSpeed && Abs(s.ballVel.y) == BallSpeed
    ensures GameInv(s)
    ensures h >= RacketHeight ==> PaddlesOnScreen(s, h)
  {
    State(
      running := false,
      player1Pos := Vec2(RacketWidthHalf + RacketPadding, h * 0.5),
      player2Pos := Vec2(w - RacketWidthHalf - RacketPadding, h * 0.5),
      ballPos := Vec2(w * 0.5, h * 0.5),
      ballVel := RandomVec(BallSpeed, BallSpeed, velDraw),
      player1Score := 0,
      player2Score := 0,
      color := RandomizedColor(None, [colorDraw]).value,
      pauseText := StartText)
  }

  // --------------------------------------------------------- runs of events

  /** What the event loop delivers: a frame tick, or a key press with the colour
      attempts the generator would make for it. */
  datatype Event = Tick(frame: Frame) | KeyPress(key: Key, draws: seq<ColorDraw>)

  function Handle(s: State, e: Event): Option<State>
  {
    match e
    case Tick(f) => Some(Step(s, f))
    case KeyPress(k, draws) => KeyDown(s, k, draws)
  }

  /** The state after a sequence of events; None if a recolour ran out of attempts. */
  function Run(s: State, es: seq<Event>): Option<State>
    decreases |es|
  {
    if |es| == 0 then Some(s)
    else
      match Handle(s, es[0])
      case None => None
      case Some(t) => Run(t, es[1..])
  }

  /** The speed invariant, the cosmetic colour and non-negative scores hold from
      start-up through any sequence of frames and key presses. */
  lemma {:induction false} RunKeepsInvariant(s: State, es: seq<Event>)
    requires GameInv(s)
    ensures Run(s, es).Some? ==> GameInv(Run(s, es).value)
    decreases |es|
  {
    if |es| > 0 {
      match Handle(s, es[0])
      case None =>
      case Some(t) => RunKeepsInvariant(t, es[1..]);
    }
  }

  /** Scores never go down over any sequence of events. */
  lemma {:induction false} RunScoresNeverDecrease(s: State, es: seq<Event>)
    ensures Run(s, es).Some? ==>
              Run(s, es).value.player1Score >= s.player1Score &&
              Run(s, es).value.player2Score >= s.player2Score
    decreases |es|
  {
    if |es| > 0 {
      match Handle(s, es[0])
      case None =>
      case Some(t) => RunScoresNeverDecrease(t, es[1..]);
    }
  }

  /** On a screen of fixed height h, rackets that start on screen stay on screen
      through any sequence of events. */
  lemma {:induction false} RunKeepsPaddlesOnScreen(s: State, es: seq<Event>, h: real)
    requires h >= RacketHeight && PaddlesOnScreen(s, h)
    requires forall i :: 0 <= i < |es| && es[i].Tick? ==> es[i].frame.screenH == h
    ensures Run(s, es).Some? ==> PaddlesOnScreen(Run(s, es).value, h)
    decreases |es|
  {
    if |es| > 0 {
      match Handle(s, es[0])
      case None =>
      case Some(t) =>
        assert forall i :: 0 <= i < |es[1..]| ==> es[1..][i] == es[i + 1];
        RunKeepsPaddlesOnScreen(t, es[1..], h);
    }
  }

  /** While paused, frames alone change nothing. */
  lemma {:induction false} PausedFramesChangeNothing(s: State, es: seq<Event>)
    requires !s.running
    requires forall i :: 0 <= i < |es| ==> es[i].Tick?
    ensures Run(s, es) == Some(s)
    decreases |es|
  {
    if |es| > 0 {
      assert Handle(s, es[0]) == Some(s);
      assert forall i :: 0 <= i < |es[1..]| ==> es[1..][i] == es[i + 1];
      PausedFramesChangeNothing(s, es[1..]);
    }
  }

  /** Every state reachable from start-up satisfies the invariant. */
  lemma StartedGameKeepsInvariant(w: real, h: real, velDraw: SignDraw, colorDraw: ColorDraw, es: seq<Event>)
    ensures Run(New(w, h, velDraw, colorDraw), es).Some? ==>
              GameInv(Run(New(w, h, velDraw, colorDraw), es).value)
  {
    RunKeepsInvariant(New(w, h, velDraw, colorDraw), es);
  }
}
