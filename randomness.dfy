/** The game's two uses of randomness, with the random generator replaced by the
    draws it would have produced: the sign of each axis of a reset velocity, and
    the cosmetic colour of rackets and ball. */
module Randomness {
  import opened PongTypes

  /** The two coin flips of one velocity randomisation: true keeps the axis positive. */
  datatype SignDraw = SignDraw(xPositive: bool, yPositive: bool)

  /** The three coin flips of one colour attempt: true turns the channel fully on. */
  datatype ColorDraw = ColorDraw(r: bool, g: bool, b: bool)

  /** The vector `randomize_vec` writes: each axis keeps its magnitude and takes
      the sign its flip selects. */
  function RandomVec(x: real, y: real, draw: SignDraw): (v: Vec2)
    ensures Abs(v.x) == Abs(x) && Abs(v.y) == Abs(y)
    ensures draw.xPositive ==> v.x == x
    ensures !draw.xPositive ==> v.x == -x
    ensures draw.yPositive ==> v.y == y
    ensures !draw.yPositive ==> v.y == -y
  {
    Vec2(if draw.xPositive then x else -x, if draw.yPositive then y else -y)
  }

  /** All four sign combinations of a reset velocity are reachable. */
  lemma RandomVecCoversAllSigns(x: real, y: real, target: Vec2)
    requires Abs(target.x) == Abs(x) && Abs(target.y) == Abs(y)
    ensures exists draw :: RandomVec(x, y, draw) == target
  {
    var draw := SignDraw(target.x == x, target.y == y);
    assert RandomVec(x, y, draw) == target;
  }

  predicate IsBit(c: real) { c == 0.0 || c == 1.0 }

  /** The colours the game can show: every channel off or fully on, opaque, never black. */
  predicate Cosmetic(c: Color)
  {
    IsBit(c.r) && IsBit(c.g) && IsBit(c.b) && c.a == 1.0 &&
    !(c.r == 0.0 && c.g == 0.0 && c.b == 0.0)
  }

  function Channel(on: bool): real { if on then 1.0 else 0.0 }

  const White: Color := Color(1.0, 1.0, 1.0, 1.0)

  /** The colour one attempt produces: the three flips as channels, except that
      black is promoted to white. */
  function DrawnColor(d: ColorDraw): (c: Color)
    ensures Cosmetic(c)
    ensures (d.r || d.g || d.b) ==> c == Color(Channel(d.r), Channel(d.g), Channel(d.b), 1.0)
    ensures !(d.r || d.g || d.b) ==> c == White
  {
    if !d.r && !d.g && !d.b then White
    else Color(Channel(d.r), Channel(d.g), Channel(d.b), 1.0)
  }

  /** An attempt is kept when there is no previous colour or it differs from it. */
  predicate Acceptable(prev: Option<Color>, d: ColorDraw)
  {
    prev.None? || DrawnColor(d) != prev.value
  }

  /** `randomized_color` over a finite supply of attempts: it retries while the
      attempt repeats the previous colour, and gives None when the supply runs out
      (the game itself would keep drawing). */
  function RandomizedColor(prev: Option<Color>, draws: seq<ColorDraw>): (r: Option<Color>)
    ensures r.Some? ==> Cosmetic(r.value)
    ensures r.Some? && prev.Some? ==> r.value != prev.value
    ensures prev.None? && |draws| > 0 ==> r == Some(DrawnColor(draws[0]))
    decreases |draws|
  {
    if |draws| == 0 then None
    else
      var c := DrawnColor(draws[0]);
      if prev.Some? && c == prev.value then RandomizedColor(prev, draws[1..]) else Some(c)
  }

  /** RandomizedColor succeeds exactly when some attempt is acceptable, and then
      returns the colour of the first acceptable attempt. */
  lemma {:induction false} RandomizedColorFirstAcceptable(prev: Option<Color>, draws: seq<ColorDraw>)
    ensures RandomizedColor(prev, draws).Some? <==>
            exists i :: 0 <= i < |draws| && Acceptable(prev, draws[i])
    ensures RandomizedColor(prev, draws).Some? ==>
            exists i :: 0 <= i < |draws| && Acceptable(prev, draws[i]) &&
                        RandomizedColor(prev, draws).value == DrawnColor(draws[i]) &&
                        forall j :: 0 <= j < i ==> !Acceptable(prev, draws[j])
    decreases |draws|
  {
    if |draws| == 0 {
    } else if Acceptable(prev, draws[0]) {
      assert RandomizedColor(prev, draws) == Some(DrawnColor(draws[0]));
    } else {
      var rest := draws[1..];
      RandomizedColorFirstAcceptable(prev, rest);
      assert RandomizedColor(prev, draws) == RandomizedColor(prev, rest);
      if exists i :: 0 <= i < |draws| && Acceptable(prev, draws[i]) {
        var i :| 0 <= i < |draws| && Acceptable(prev, draws[i]);
        assert i > 0 && rest[i - 1] == draws[i];
      }
      if RandomizedColor(prev, rest).Some? {
        var k :| 0 <= k < |rest| && Acceptable(prev, rest[k]) &&
                 RandomizedColor(prev, rest).value == DrawnColor(rest[k]) &&
                 forall j :: 0 <= j < k ==> !Acceptable(prev, rest[j]);
        assert draws[k + 1] == rest[k];
        forall j | 0 <= j < k + 1
          ensures !Acceptable(prev, draws[j])
        {
          if j > 0 { assert draws[j] == rest[j - 1]; }
        }
      }
    }
  }

  /** The eight possible attempts, one per combination of flips. */
  const AllColorDraws: seq<ColorDraw> := [
    ColorDraw(false, false, false), ColorDraw(false, false, true),
    ColorDraw(false, true, false), ColorDraw(false, true, true),
    ColorDraw(true, false, false), ColorDraw(true, false, true),
    ColorDraw(true, true, false), ColorDraw(true, true, true)]

  /** How many of the attempts ds would be kept. */
  function CountAcceptable(prev: Option<Color>, ds: seq<ColorDraw>): (n: nat)
    ensures n <= |ds|
    ensures n == 0 <==> forall i :: 0 <= i < |ds| ==> !Acceptable(prev, ds[i])
    ensures n == |ds| <==> forall i :: 0 <= i < |ds| ==> Acceptable(prev, ds[i])
  {
    if |ds| == 0 then 0
    else (if Acceptable(prev, ds[0]) then 1 else 0) + CountAcceptable(prev, ds[1..])
  }

  /** Of the eight equally likely attempts, all are kept when there is no
      previous colour (or it is not one the game shows), six when it is white
      (white is drawn twice, once by promotion from black) and seven for any
      other colour the game shows; so each retry succeeds with probability at
      least 3/4. */
  lemma AcceptedAttemptsOfEight(prev: Option<Color>)
    ensures CountAcceptable(prev, AllColorDraws) ==
              if prev == Some(White) then 6
              else if prev.Some? && Cosmetic(prev.value) then 7
              else 8
  {
  }
}
