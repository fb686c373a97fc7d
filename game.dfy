/** The game object the event loop owns and updates in place, with the helpers
    that write through mutable references.  Each operation is proved to leave
    exactly the state the pure specification in FrameStep describes. */
module Game {
  import opened PongTypes
  import opened Randomness
  import opened FrameStep

  /** `clamp`: the value written back is checked against the low bound first. */
  method Clamp(value: real, low: real, high: real) returns (clamped: real)
    ensures clamped == ClampOf(value, low, high)
  {
    clamped := value;
    if clamped < low {
      clamped := low;
    } else if clamped > high {
      clamped := high;
    }
  }

  /** `move_racket`: the racket moves by yDir only while its key is held. */
  method MoveRacket(pos: Vec2, pressed: bool, yDir: real) returns (moved: Vec2)
    ensures moved == RacketMoved(pos, pressed, yDir)
  {
    moved := pos;
    if pressed {
      moved := moved.(y := moved.y + yDir);
    }
  }

  /** `randomize_vec`: both components are overwritten with the drawn signs. */
  method RandomizeVec(x: real, y: real, draw: SignDraw) returns (v: Vec2)
    ensures v == RandomVec(x, y, draw)
  {
    var vx := if draw.xPositive then x else -x;
    var vy := if draw.yPositive then y else -y;
    v := Vec2(vx, vy);
  }

  class MainState {
    var running: bool
    var player1Pos: Vec2
    var player2Pos: Vec2
    var ballPos: Vec2
    var ballVel: Vec2
    var player1Score: int
    var player2Score: int
    var color: Color
    var pauseText: string

    /** The fields as one value of the specification's state. */
    function Snapshot(): State
      reads this
    {
      State(running, player1Pos, player2Pos, ballPos, ballVel,
            player1Score, player2Score, color, pauseText)
    }

    /** `MainState::new` on a w x h screen. */
    constructor (w: real, h: real, velDraw: SignDraw, colorDraw: ColorDraw)
      ensures Snapshot() == New(w, h, velDraw, colorDraw)
      ensures GameInv(Snapshot())
    {
      var vel := RandomizeVec(BallSpeed, BallSpeed, velDraw);
      running := false;
      player1Pos := Vec2(RacketWidthHalf + RacketPadding, h * 0.5);
      player2Pos := Vec2(w - RacketWidthHalf - RacketPadding, h * 0.5);
      ballPos := Vec2(w * 0.5, h * 0.5);
      ballVel := vel;
      player1Score := 0;
      player2Score := 0;
      color := RandomizedColor(None, [colorDraw]).value;
      pauseText := StartText;
    }

    /** `update`: one frame, in place; nothing happens while paused. */
    method Update(f: Frame)
      modifies this
      ensures Snapshot() == Step(old(Snapshot()), f)
      ensures old(GameInv(Snapshot())) ==> GameInv(Snapshot())
    {
      if running {
        SteerRackets(f.keys, f.dt);
        ClampRackets(f.screenH);
        MoveBall(f.dt);
        CheckScores(f.screenW, f.screenH, f.leftReset, f.rightReset);
        BounceOffWalls(f.screenH);
        BounceOffRackets();
      }
    }

    /** Step 1 of `update`: the four movement keys. */
    method SteerRackets(keys: Keys, dt: real)
      modifies this
      ensures Snapshot() == Steer(old(Snapshot()), keys, dt)
    {
      player1Pos := MoveRacket(player1Pos, keys.w, -PlayerSpeed * dt);
      player1Pos := MoveRacket(player1Pos, keys.s, PlayerSpeed * dt);
      player2Pos := MoveRacket(player2Pos, keys.up, -PlayerSpeed * dt);
      player2Pos := MoveRacket(player2Pos, keys.down, PlayerSpeed * dt);
    }

    /** Step 2 of `update`: both rackets clamped to the screen. */
    method ClampRackets(h: real)
      modifies this
      ensures Snapshot() == ClampPaddles(old(Snapshot()), h)
    {
      var y1 := Clamp(player1Pos.y, RacketHeightHalf, h - RacketHeightHalf);
      player1Pos := player1Pos.(y := y1);
      var y2 := Clamp(player2Pos.y, RacketHeightHalf, h - RacketHeightHalf);
      player2Pos := player2Pos.(y := y2);
    }

    /** Step 3 of `update`: the ball moves along its velocity. */
    method MoveBall(dt: real)
      modifies this
      ensures Snapshot() == Integrate(old(Snapshot()), dt)
    {
      ballPos := Vec2(ballPos.x + ballVel.x * dt, ballPos.y + ballVel.y * dt);
    }

    /** Step 4 of `update`: the left edge is checked first, then the right edge,
        the latter on the possibly already re-centred ball. */
    method CheckScores(w: real, h: real, leftReset: SignDraw, rightReset: SignDraw)
      modifies this
      ensures Snapshot() == ScoreRight(ScoreLeft(old(Snapshot()), w, h, leftReset), w, h, rightReset)
    {
      ghost var s0 := Snapshot();
      if ballPos.x < 0.0 {
        ballPos := Vec2(w * 0.5, h * 0.5);
        ballVel := RandomizeVec(BallSpeed, BallSpeed, leftReset);
        player2Score := player2Score + 1;
      }
      assert Snapshot() == ScoreLeft(s0, w, h, leftReset);
      if ballPos.x > w {
        ballPos := Vec2(w * 0.5, h * 0.5);
        ballVel := RandomizeVec(BallSpeed, BallSpeed, rightReset);
        player1Score := player1Score + 1;
      }
    }

    /** Step 5 of `update`: the top wall, else the bottom wall. */
    method BounceOffWalls(h: real)
      modifies this
      ensures Snapshot() == BounceWalls(old(Snapshot()), h)
    {
      if ballPos.y < BallSizeHalf {
        ballPos := ballPos.(y := BallSizeHalf);
        ballVel := ballVel.(y := Abs(ballVel.y));
      } else if ballPos.y > h - BallSizeHalf {
        ballPos := ballPos.(y := h - BallSizeHalf);
        ballVel := ballVel.(y := -Abs(ballVel.y));
      }
    }

    /** Step 6 of `update`: player 1's racket, then player 2's. */
    method BounceOffRackets()
      modifies this
      ensures Snapshot() == HitPaddles(old(Snapshot()))
    {
      var intersectsPlayer1 := Overlaps(ballPos, player1Pos);
      if intersectsPlayer1 {
        ballVel := ballVel.(x := Abs(ballVel.x) * BounceFactor);
      }
      var intersectsPlayer2 := Overlaps(ballPos, player2Pos);
      if intersectsPlayer2 {
        ballVel := ballVel.(x := -Abs(ballVel.x) * BounceFactor);
      }
    }

    /** `key_down_event`: the recolour needs one attempt among the supplied draws
        that differs from the current colour (the generator would keep drawing). */
    method KeyDownEvent(key: Key, draws: seq<ColorDraw>)
      requires key == C ==> RandomizedColor(Some(color), draws).Some?
      modifies this
      ensures KeyDown(old(Snapshot()), key, draws) == Some(Snapshot())
      ensures key == C ==> color != old(color)
      ensures old(GameInv(Snapshot())) ==> GameInv(Snapshot())
    {
      match key
      case Space =>
        running := !running;
        pauseText := ResumeText;
      case C =>
        color := RandomizedColor(Some(color), draws).value;
      case Escape =>
        // Quitting is the event loop's business; the state is untouched.
      case Other =>
    }
  }
}
