/** The first two phases of `update` (GameCanvas.tsx:232-266): the monster's move
    from the keyboard or the joystick, and the camera easing towards the monster. */
module Movement {
  import opened Geometry
  import opened Constants

  /** `-1`, `0` or `1` along one axis: `minus` pulls one way, `plus` the other. */
  function Axis(minus: bool, plus: bool): (a: real)
    ensures a == -1.0 <==> minus && !plus
    ensures a == 1.0 <==> plus && !minus
    ensures a == 0.0 <==> minus == plus
  {
    (if minus then -1.0 else 0.0) + (if plus then 1.0 else 0.0)
  }

  /** (dx, dy) of a frame: the pressed keys (lower-cased `e.key` values), replaced
      outright by the joystick vector whenever that is not (0, 0). */
  function Intent(keys: set<string>, joystick: Vec): Vec
  {
    if joystick != Zero then joystick
    else
      Vec(Axis("a" in keys || "arrowleft" in keys, "d" in keys || "arrowright" in keys),
          Axis("w" in keys || "arrowup" in keys, "s" in keys || "arrowdown" in keys))
  }

  /** A joystick that is off leaves each axis to its two keys, giving -1, 0 or 1;
      a joystick that is on decides (dx, dy) by itself. */
  lemma IntentCases(keys: set<string>, joystick: Vec)
    ensures var d := Intent(keys, joystick);
      var left, right := "a" in keys || "arrowleft" in keys, "d" in keys || "arrowright" in keys;
      var up, down := "w" in keys || "arrowup" in keys, "s" in keys || "arrowdown" in keys;
      (joystick != Zero ==> d == joystick) &&
      (joystick == Zero ==>
        (d.x == -1.0 <==> left && !right) && (d.x == 1.0 <==> right && !left) && (d.x == 0.0 <==> left == right) &&
        (d.y == -1.0 <==> up && !down) && (d.y == 1.0 <==> down && !up) && (d.y == 0.0 <==> up == down))
  {
  }

  /** How far the monster moves for (dx, dy): MONSTER_SPEED times (dx, dy), scaled
      down to unit length when its length exceeds 1, and nothing for (0, 0). */
  function Displacement(d: Vec, sqrt: real -> real): Vec
  {
    if d == Zero then Zero
    else
      var length := sqrt(d.NormSq());
      var scale := if length > 1.0 then 1.0 / length else 1.0;
      d.Scale(scale).Scale(MONSTER_SPEED)
  }

  /** With a true `Math.hypot`, the monster never moves more than MONSTER_SPEED in a
      frame: an input longer than 1 moves it exactly MONSTER_SPEED, and an input of
      length at most 1 (a partly pushed joystick) moves it proportionally. */
  lemma DisplacementBounded(d: Vec, sqrt: real -> real)
    requires IsRootOf(sqrt(d.NormSq()), d.NormSq())
    ensures Displacement(d, sqrt).NormSq() <= Mul(MONSTER_SPEED, MONSTER_SPEED)
    ensures sqrt(d.NormSq()) > 1.0 ==> Displacement(d, sqrt).NormSq() == Mul(MONSTER_SPEED, MONSTER_SPEED)
    ensures sqrt(d.NormSq()) <= 1.0 ==> Displacement(d, sqrt) == d.Scale(MONSTER_SPEED)
  {
    if d == Zero {
      assert Displacement(d, sqrt) == Zero;
      MulNonneg(MONSTER_SPEED, MONSTER_SPEED);
      assert d.Scale(MONSTER_SPEED) == Zero;
    } else if sqrt(d.NormSq()) > 1.0 {
      LongInputDisplacement(d, sqrt);
    } else {
      ShortInputDisplacement(d, sqrt);
    }
  }

  /** An input longer than 1 moves the monster exactly MONSTER_SPEED. */
  lemma LongInputDisplacement(d: Vec, sqrt: real -> real)
    requires IsRootOf(sqrt(d.NormSq()), d.NormSq()) && d != Zero && sqrt(d.NormSq()) > 1.0
    ensures Displacement(d, sqrt).NormSq() == Mul(MONSTER_SPEED, MONSTER_SPEED)
  {
    var length := sqrt(d.NormSq());
    assert Displacement(d, sqrt) == d.Scale(MONSTER_SPEED / length);
    ScaledToRadius(d, length, MONSTER_SPEED);
  }

  /** A non-zero input of length at most 1 moves the monster proportionally, so by at
      most MONSTER_SPEED. */
  lemma ShortInputDisplacement(d: Vec, sqrt: real -> real)
    requires IsRootOf(sqrt(d.NormSq()), d.NormSq()) && d != Zero && sqrt(d.NormSq()) <= 1.0
    ensures Displacement(d, sqrt) == d.Scale(MONSTER_SPEED)
    ensures Displacement(d, sqrt).NormSq() <= Mul(MONSTER_SPEED, MONSTER_SPEED)
  {
    var length := sqrt(d.NormSq());
    assert Displacement(d, sqrt) == d.Scale(MONSTER_SPEED);
    SquareNonneg(length);
    SquaresAreMonotone(length, 1.0);
    assert d.NormSq() <= 1.0;
    ScaledNormSq(d, MONSTER_SPEED);
    MulNonneg(Mul(MONSTER_SPEED, MONSTER_SPEED), 1.0 - d.NormSq());
  }

  /** Scaling multiplies the squared length by the square of the factor. */
  lemma ScaledNormSq(v: Vec, k: real)
    ensures v.Scale(k).NormSq() == Mul(v.NormSq(), Mul(k, k))
  {
    SquareOfProduct(v.x, k);
    SquareOfProduct(v.y, k);
    MulDist(Mul(v.x, v.x), Mul(v.y, v.y), Mul(k, k));
  }

  /** Where the camera heads: the view centred on the monster, led by 150 per unit of (dx, dy). */
  function CameraTarget(pos: Vec, d: Vec, view: Vec): Vec
  {
    Vec(pos.x - view.x / 2.0 + d.x * 150.0, pos.y - view.y / 2.0 + d.y * 150.0)
  }

  /** The camera moves a tenth of the way towards `target`. */
  function Follow(camera: Vec, target: Vec): Vec
  {
    Vec(camera.x + (target.x - camera.x) * 0.1, camera.y + (target.y - camera.y) * 0.1)
  }

  /** Each frame leaves nine tenths of the gap between the camera and its target. */
  lemma FollowClosesGap(camera: Vec, target: Vec)
    ensures target.Minus(Follow(camera, target)) == Vec((target.x - camera.x) * 0.9, (target.y - camera.y) * 0.9)
  {
  }

  /** A camera already on its target stays there. */
  lemma FollowSettles(camera: Vec)
    ensures Follow(camera, camera) == camera
  {
  }
}
