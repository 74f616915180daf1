/** Planar geometry shared by the collision tests of GameCanvas.tsx: the closest
    point of an axis-aligned rectangle, squared distances, and the direction
    (cos, sin) of an `atan2` angle. Square roots come from the host as a function
    `sqrt`; every fact that needs a true square root takes it as a hypothesis. */
module Geometry {

  datatype Vec = Vec(x: real, y: real)
  {
    function Plus(o: Vec): Vec { Vec(x + o.x, y + o.y) }
    function Minus(o: Vec): Vec { Vec(x - o.x, y - o.y) }
    function Scale(k: real): Vec { Vec(Mul(x, k), Mul(y, k)) }
    function NormSq(): real { Mul(x, x) + Mul(y, y) }
  }

  const Zero: Vec := Vec(0.0, 0.0)

  /** The product of two reals. Products that the proofs below reason about are
      written through `Mul`, so that each algebraic law is applied by name. */
  function Mul(a: real, b: real): real { a * b }

  /** An axis-aligned rectangle with its top-left corner at (x, y). */
  datatype Rect = Rect(x: real, y: real, width: real, height: real)
  {
    /** The centre of the rectangle. */
    function Mid(): Vec { Vec(x + width / 2.0, y + height / 2.0) }
  }

  function Min(a: real, b: real): real { if a <= b then a else b }
  function Max(a: real, b: real): real { if a >= b then a else b }
  function Abs(a: real): real { if a >= 0.0 then a else -a }

  /** `Math.max(lo, Math.min(v, hi))`. */
  function Clamp(v: real, lo: real, hi: real): (r: real)
    ensures lo <= hi ==> lo <= r <= hi
    ensures lo <= v <= hi ==> r == v
    ensures v < lo ==> r == lo
    ensures lo <= hi < v ==> r == hi
  {
    Max(lo, Min(v, hi))
  }

  /** The point of `box` nearest to `p` (the clamp used by every circle-vs-rectangle test). */
  function ClosestPoint(p: Vec, box: Rect): Vec
  {
    Vec(Clamp(p.x, box.x, box.x + box.width), Clamp(p.y, box.y, box.y + box.height))
  }

  function DistSq(a: Vec, b: Vec): (d: real)
    ensures d >= 0.0
  {
    a.Minus(b).NormSq()
  }

  /** `dist < bound`, decided on the squared distance. */
  predicate Within(distSq: real, bound: real)
  {
    bound > 0.0 && distSq < Mul(bound, bound)
  }

  /** `dist > bound` for a non-negative bound, decided on the squared distance. */
  predicate Beyond(distSq: real, bound: real)
  {
    distSq > Mul(bound, bound)
  }

  /** A circle of `radius` at `center` overlaps `box`. */
  predicate Overlaps(center: Vec, radius: real, box: Rect)
  {
    DistSq(center, ClosestPoint(center, box)) < Mul(radius, radius)
  }

  /** `p` lies strictly inside `box` (the projectile test). */
  predicate StrictlyInside(p: Vec, box: Rect)
  {
    box.x < p.x < box.x + box.width && box.y < p.y < box.y + box.height
  }

  predicate InBox(p: Vec, box: Rect)
  {
    box.x <= p.x <= box.x + box.width && box.y <= p.y <= box.y + box.height
  }

  /** `s` is the non-negative square root of `x`. */
  ghost predicate IsRootOf(s: real, x: real)
  {
    s >= 0.0 && Mul(s, s) == x
  }

  /** (cos a, sin a) for a = atan2(v.y, v.x): the unit vector along `v`,
      and (1, 0) for the zero vector, whose atan2 is 0. */
  function Heading(v: Vec, sqrt: real -> real): Vec
  {
    var h := sqrt(v.NormSq());
    if h > 0.0 then Vec(v.x / h, v.y / h) else Vec(1.0, 0.0)
  }

  /** (cos(a + b), sin(a + b)) from (cos a, sin a) and (cos b, sin b). */
  function Rotate(a: Vec, b: Vec): Vec
  {
    Vec(Mul(a.x, b.x) - Mul(a.y, b.y), Mul(a.y, b.x) + Mul(a.x, b.y))
  }

  /** One push-back of a circle out of a rectangle: when the circle overlaps the box and
      its centre is off the box, the centre moves away from the closest point by the
      penetration depth `radius - dist`. */
  function PushOne(p: Vec, radius: real, box: Rect, sqrt: real -> real): Vec
  {
    var c := ClosestPoint(p, box);
    var distSq := DistSq(p, c);
    if distSq < Mul(radius, radius) then
      var dist := sqrt(distSq);
      if dist > 0.0 then p.Plus(Heading(p.Minus(c), sqrt).Scale(radius - dist)) else p
    else p
  }

  // ----- The laws of `Mul` used below -----

  lemma MulComm(a: real, b: real)
    ensures Mul(a, b) == Mul(b, a)
  {
  }

  lemma MulAssoc(a: real, b: real, c: real)
    ensures Mul(Mul(a, b), c) == Mul(a, Mul(b, c))
  {
  }

  lemma MulDist(a: real, b: real, c: real)
    ensures Mul(a + b, c) == Mul(a, c) + Mul(b, c)
    ensures Mul(a - b, c) == Mul(a, c) - Mul(b, c)
  {
  }

  lemma MulNonneg(a: real, b: real)
    requires a >= 0.0 && b >= 0.0
    ensures Mul(a, b) >= 0.0
  {
  }

  lemma MulPos(a: real, b: real)
    requires a > 0.0 && b > 0.0
    ensures Mul(a, b) > 0.0
  {
  }

  /** A positive factor can be cancelled from both sides. */
  lemma MulCancel(a: real, b: real, c: real)
    requires c > 0.0 && Mul(a, c) == Mul(b, c)
    ensures a == b
  {
  }

  lemma SquareNonneg(a: real)
    ensures Mul(a, a) >= 0.0
  {
    if a < 0.0 { MulPos(-a, -a); } else { MulNonneg(a, a); }
  }

  lemma SquarePositive(a: real)
    requires a != 0.0
    ensures Mul(a, a) > 0.0
  {
    if a < 0.0 { MulPos(-a, -a); } else { MulPos(a, a); }
  }

  /** The square of a product is the product of the squares. */
  lemma SquareOfProduct(a: real, b: real)
    ensures Mul(Mul(a, b), Mul(a, b)) == Mul(Mul(a, a), Mul(b, b))
  {
    MulAssoc(a, b, Mul(a, b));
    MulComm(b, Mul(a, b));
    MulAssoc(a, b, b);
    MulAssoc(a, a, Mul(b, b));
  }

  // ----- Geometry facts -----

  /** For non-negative numbers, comparing squares is comparing the numbers. */
  lemma {:induction false} SquaresAreMonotone(a: real, b: real)
    requires a >= 0.0 && b >= 0.0
    ensures a < b <==> Mul(a, a) < Mul(b, b)
  {
    if a < b {
      MulNonneg(a, b - a);
      MulPos(b - a, b);
    } else {
      MulNonneg(b, a - b);
      MulNonneg(a - b, a);
    }
  }

  /** A non-zero vector has a positive squared length. */
  lemma NormSqPositive(v: Vec)
    requires v != Zero
    ensures v.NormSq() > 0.0
  {
    SquareNonneg(v.x);
    SquareNonneg(v.y);
    if v.x != 0.0 { SquarePositive(v.x); } else { SquarePositive(v.y); }
  }

  /** The squared tests agree with the source's `Math.hypot(..) < bound` and `> bound`. */
  lemma WithinIsDistanceTest(distSq: real, dist: real, bound: real)
    requires IsRootOf(dist, distSq)
    ensures Within(distSq, bound) <==> dist < bound
    ensures bound >= 0.0 ==> (Beyond(distSq, bound) <==> dist > bound)
  {
    if bound >= 0.0 {
      SquaresAreMonotone(dist, bound);
      SquaresAreMonotone(bound, dist);
    }
  }

  /** The closest point lies in the box and is no further from `p` than any point of the box. */
  lemma ClosestPointIsNearest(p: Vec, box: Rect, q: Vec)
    requires box.width >= 0.0 && box.height >= 0.0
    requires InBox(q, box)
    ensures InBox(ClosestPoint(p, box), box)
    ensures DistSq(p, ClosestPoint(p, box)) <= DistSq(p, q)
    ensures InBox(p, box) ==> ClosestPoint(p, box) == p
  {
    AxisNearest(p.x, box.x, box.x + box.width, q.x);
    AxisNearest(p.y, box.y, box.y + box.height, q.y);
  }

  lemma AxisNearest(v: real, lo: real, hi: real, w: real)
    requires lo <= w <= hi
    ensures Mul(v - Clamp(v, lo, hi), v - Clamp(v, lo, hi)) <= Mul(v - w, v - w)
  {
    var c := Clamp(v, lo, hi);
    if v < lo {
      SquaresAreMonotone(lo - v, w - v);
    } else if v > hi {
      SquaresAreMonotone(v - hi, v - w);
    } else {
      SquareNonneg(v - w);
    }
  }

  /** For a true square root, the heading of a non-zero vector is a unit vector,
      and scaling it back by the length gives the vector. */
  lemma HeadingIsUnit(v: Vec, sqrt: real -> real)
    requires IsRootOf(sqrt(v.NormSq()), v.NormSq())
    requires v != Zero
    ensures Heading(v, sqrt).NormSq() == 1.0
    ensures Heading(v, sqrt).Scale(sqrt(v.NormSq())) == v
  {
    var h := sqrt(v.NormSq());
    NormSqPositive(v);
    SquareNonneg(h);
    assert h > 0.0;
    var u := Heading(v, sqrt);
    assert Mul(u.x, h) == v.x && Mul(u.y, h) == v.y;
    SquareOfProduct(u.x, h);
    SquareOfProduct(u.y, h);
    MulDist(Mul(u.x, u.x), Mul(u.y, u.y), Mul(h, h));
    MulPos(h, h);
    assert Mul(u.NormSq(), Mul(h, h)) == Mul(1.0, Mul(h, h));
    MulCancel(u.NormSq(), 1.0, Mul(h, h));
  }

  /** Turning by a rotation multiplies squared lengths. */
  lemma RotateKeepsLength(a: Vec, b: Vec)
    ensures Rotate(a, b).NormSq() == Mul(a.NormSq(), b.NormSq())
  {
  }

  lemma AxisStaysClamped(c: real, v: real, lo: real, hi: real, t: real)
    requires lo <= hi && c == Clamp(v, lo, hi) && t >= 1.0
    ensures Clamp(c + Mul(v - c, t), lo, hi) == c
  {
    if v < lo {
      MulNonneg(c - v, t - 1.0);
      assert Mul(v - c, t) == (v - c) - Mul(c - v, t - 1.0);
      assert c + Mul(v - c, t) <= v;
    } else if v > hi {
      MulNonneg(v - c, t - 1.0);
      assert Mul(v - c, t) == (v - c) + Mul(v - c, t - 1.0);
      assert c + Mul(v - c, t) >= v;
    } else {
      assert v - c == 0.0;
    }
  }

  /** Scaling `v` of length `d` by `radius / d` gives length `radius`. */
  lemma ScaledToRadius(v: Vec, d: real, radius: real)
    requires d > 0.0 && Mul(d, d) == v.NormSq()
    ensures v.Scale(radius / d).NormSq() == Mul(radius, radius)
  {
    var t := radius / d;
    assert Mul(t, d) == radius;
    SquareOfProduct(v.x, t);
    SquareOfProduct(v.y, t);
    MulDist(Mul(v.x, v.x), Mul(v.y, v.y), Mul(t, t));
    SquareOfProduct(t, d);
    MulComm(Mul(t, t), Mul(d, d));
  }

  /** The pushed centre is the closest point plus `p - c` stretched by `radius / dist`. */
  lemma PushOneStretches(p: Vec, radius: real, box: Rect, sqrt: real -> real)
    requires var distSq := DistSq(p, ClosestPoint(p, box));
      distSq < Mul(radius, radius) && sqrt(distSq) > 0.0
    ensures var c := ClosestPoint(p, box);
      PushOne(p, radius, box, sqrt) == c.Plus(p.Minus(c).Scale(radius / sqrt(DistSq(p, c))))
  {
    var c := ClosestPoint(p, box);
    var v := p.Minus(c);
    var d := sqrt(v.NormSq());
    var t := radius / d;
    assert PushOne(p, radius, box, sqrt) == p.Plus(Vec(v.x / d, v.y / d).Scale(radius - d));
    assert Mul(v.x / d, radius - d) == Mul(v.x, t) - v.x;
    assert Mul(v.y / d, radius - d) == Mul(v.y, t) - v.y;
  }

  /** A push-back leaves the circle exactly touching the box: the closest point is
      unchanged and the centre is now `radius` away from it. */
  lemma PushOneReachesRim(p: Vec, radius: real, box: Rect, sqrt: real -> real)
    requires box.width >= 0.0 && box.height >= 0.0 && radius > 0.0
    requires var distSq := DistSq(p, ClosestPoint(p, box));
      0.0 < distSq < Mul(radius, radius) && IsRootOf(sqrt(distSq), distSq)
    ensures ClosestPoint(PushOne(p, radius, box, sqrt), box) == ClosestPoint(p, box)
    ensures DistSq(PushOne(p, radius, box, sqrt), ClosestPoint(p, box)) == Mul(radius, radius)
  {
    var c := ClosestPoint(p, box);
    var v := p.Minus(c);
    var d := sqrt(v.NormSq());
    SquareNonneg(d);
    assert d > 0.0;
    SquaresAreMonotone(d, radius);
    var t := radius / d;
    assert t >= 1.0;
    PushOneStretches(p, radius, box, sqrt);
    var q := PushOne(p, radius, box, sqrt);
    assert q == c.Plus(v.Scale(t));
    AxisStaysClamped(c.x, p.x, box.x, box.x + box.width, t);
    AxisStaysClamped(c.y, p.y, box.y, box.y + box.height, t);
    ScaledToRadius(v, d, radius);
    assert q.Minus(c) == v.Scale(t);
  }
}
