/** `MathUtils`: clamps, signs and small geometric helpers. Floats are reals except
  * where a NaN changes the outcome, which `Float` then tracks. */
module MathUtils {
  import opened Common

  /** The tolerance below which a scalar counts as zero. */
  const ScalarEpsilon: real := 0.0001

  /** `Clamp` on ints: the lower bound is tested first. */
  function Clamp(n: int, min: int, max: int): (r: int)
    ensures min <= max ==> min <= r <= max
    ensures min <= max ==> (r == n <==> min <= n <= max)
    ensures min <= max && n < min ==> r == min
    ensures min <= max && n > max ==> r == max
  {
    if n < min then min else if n > max then max else n
  }

  /** `GetSign`: 1, -1 or 0 as the value is positive, negative or zero; the sign times
    * the value is the value's magnitude. */
  function GetSign(value: real): (r: int)
    ensures -1 <= r <= 1
    ensures r == 1 <==> value > 0.0
    ensures r == -1 <==> value < 0.0
    ensures r as real * value == (if value < 0.0 then -value else value)
  {
    if value > 0.0 then 1 else if value < 0.0 then -1 else 0
  }

  /** `ClampToNonReverse`: a vector that would point against the reference becomes zero;
    * the result never points against the reference. */
  function ClampToNonReverse(reference: Vec3, v: Vec3): (r: Vec3)
    ensures Dot3(reference, r) >= 0.0
    ensures r == v <==> Dot3(reference, v) >= 0.0 || v == Zero3
    ensures r != v ==> r == Zero3
  {
    if Dot3(reference, v) < 0.0 then Zero3 else v
  }

  /** The component-wise product of a non-empty list of vectors. */
  function ComponentProduct(vs: seq<Vec3>): Vec3
    requires |vs| > 0
  {
    if |vs| == 1 then vs[0]
    else
      var p := ComponentProduct(vs[..|vs| - 1]);
      var v := vs[|vs| - 1];
      Vec3(p.x * v.x, p.y * v.y, p.z * v.z)
  }

  /** A zero x component in any factor makes the product's x component zero. */
  lemma {:induction false} ComponentProductZeroFactor(vs: seq<Vec3>, k: int)
    requires 0 <= k < |vs| && vs[k].x == 0.0
    ensures ComponentProduct(vs).x == 0.0
    decreases |vs|
  {
    if k < |vs| - 1 {
      ComponentProductZeroFactor(vs[..|vs| - 1], k);
    }
  }

  /** `MultiplyVectors`: zero for no vectors, otherwise their component-wise product. */
  method MultiplyVectors(vectors: seq<Vec3>) returns (product: Vec3)
    ensures |vectors| == 0 ==> product == Zero3
    ensures |vectors| > 0 ==> product == ComponentProduct(vectors)
  {
    if |vectors| == 0 {
      return Zero3;
    }
    product := vectors[0];
    for i := 1 to |vectors|
      invariant product == ComponentProduct(vectors[..i])
    {
      assert vectors[..i + 1][..i] == vectors[..i];
      product := product.(x := product.x * vectors[i].x);
      product := product.(y := product.y * vectors[i].y);
      product := product.(z := product.z * vectors[i].z);
    }
    assert vectors[..|vectors|] == vectors;
  }

  /** `GetBoxVolume`: zero exactly when a side is zero, and not negative when no side is. */
  function GetBoxVolume(size: Vec3): (r: real)
    ensures r == 0.0 <==> size.x == 0.0 || size.y == 0.0 || size.z == 0.0
    ensures size.x >= 0.0 && size.y >= 0.0 && size.z >= 0.0 ==> r >= 0.0
  {
    size.x * size.y * size.z
  }

  /** `Mathf.PI` as a float. */
  const Pi: real := 3.14159274

  /** The cap height both sphere-cap functions use: clamped into [0, 2 radius]. */
  function CapHeight(radius: real, capHeight: real): (h: real)
    ensures radius >= 0.0 ==> 0.0 <= h <= 2.0 * radius
    ensures radius >= 0.0 && 0.0 <= capHeight <= 2.0 * radius ==> h == capHeight
  {
    MathfClamp(capHeight, 0.0, radius * 2.0)
  }

  /** `GetVolumeOfSphereCap`: pi h^2 (3 radius - h) / 3 on the clamped height h, with the
    * source's float constant for one third; never negative for a non-negative radius. */
  function GetVolumeOfSphereCap(radius: real, capHeight: real): (v: real)
    ensures radius >= 0.0 ==> v >= 0.0
  {
    var h := CapHeight(radius, capHeight);
    NonNegativeCapVolume(radius, h);
    Pi * h * h * 0.3333333333333333 * (3.0 * radius - h)
  }

  lemma NonNegativeCapVolume(radius: real, h: real)
    requires radius >= 0.0 ==> 0.0 <= h <= 2.0 * radius
    ensures radius >= 0.0 ==> Pi * h * h * 0.3333333333333333 * (3.0 * radius - h) >= 0.0
  {
    if radius >= 0.0 {
      assert h * h >= 0.0;
      assert 3.0 * radius - h >= 0.0;
      ProductNonNegative(Pi * h * h * 0.3333333333333333, 3.0 * radius - h);
    }
  }

  lemma ProductNonNegative(a: real, b: real)
    requires a >= 0.0 && b >= 0.0
    ensures a * b >= 0.0
  {
  }

  /** `GetSurfaceAreaOfSphereCap`: 2 pi r h on the clamped height, so never above the
    * sphere's whole surface. */
  function GetSurfaceAreaOfSphereCap(radius: real, capHeight: real): (a: real)
    ensures radius >= 0.0 ==> 0.0 <= a <= 4.0 * Pi * radius * radius
  {
    var h := CapHeight(radius, capHeight);
    CapAreaBounds(radius, h);
    2.0 * Pi * radius * h
  }

  lemma CapAreaBounds(radius: real, h: real)
    requires radius >= 0.0 ==> 0.0 <= h <= 2.0 * radius
    ensures radius >= 0.0 ==> 0.0 <= 2.0 * Pi * radius * h <= 4.0 * Pi * radius * radius
  {
    if radius >= 0.0 {
      ProductNonNegative(2.0 * Pi * radius, h);
      ProductNonNegative(2.0 * Pi * radius, 2.0 * radius - h);
    }
  }

  /** Both sphere-cap functions depend only on the clamped height: a height already in
    * [0, 2 radius] gives the same result as any height it was clamped from. */
  lemma SphereCapUsesClampedHeight(radius: real, capHeight: real)
    requires radius >= 0.0
    ensures GetVolumeOfSphereCap(radius, CapHeight(radius, capHeight)) == GetVolumeOfSphereCap(radius, capHeight)
    ensures GetSurfaceAreaOfSphereCap(radius, CapHeight(radius, capHeight)) == GetSurfaceAreaOfSphereCap(radius, capHeight)
  {
    var h := CapHeight(radius, capHeight);
    assert CapHeight(radius, h) == h;
  }

  /** The "almost parallel" threshold of `FindClosestPointsOnLines`. */
  const ParallelThreshold: real := 0.000001

  /** The line parameters of `FindClosestPointsOnLines`: `t` along AB and `s` along CD.
    * For almost parallel lines `t` is 0 and `s` divides by the larger of `u.v` and
    * `v.v`; when C and D coincide that is 0/0. */
  datatype LineParams = LineParams(t: real, s: Float)

  lemma DotZero(u: Vec3)
    ensures Dot3(u, Zero3) == 0.0 && Dot3(Zero3, u) == 0.0
  {
  }

  /** The dot products of `FindClosestPointsOnLines`, for u = B - A, v = D - C and
    * w = A - C: a = u.u, b = u.v, c = v.v, d = u.w, e = v.w. */
  datatype Coefficients = Coefficients(a: real, b: real, c: real, d: real, e: real)

  /** When C and D coincide, v is zero and so are b, c and e. */
  function CoefficientsOf(A: Vec3, B: Vec3, C: Vec3, D: Vec3): (k: Coefficients)
    ensures C == D ==> k.b == 0.0 && k.c == 0.0 && k.e == 0.0
  {
    var u, v, w := Sub3(B, A), Sub3(D, C), Sub3(A, C);
    DotZero(u);
    DotZero(w);
    Coefficients(Dot3(u, u), Dot3(u, v), Dot3(v, v), Dot3(u, w), Dot3(v, w))
  }

  /** The parameters from the dot products, as written: for almost parallel lines `t`
    * is 0 and `s` divides by the larger of b and c; otherwise both solve the 2 x 2
    * system. With b, c and e all zero `s` is 0/0, a NaN. */
  function ParamsFrom(k: Coefficients, clampOnLines: bool): (p: LineParams)
    ensures k.b == 0.0 && k.c == 0.0 && k.e == 0.0 ==> p.s == NaN
    ensures clampOnLines ==> 0.0 <= p.t <= 1.0
    ensures clampOnLines && p.s != NaN ==> p.s.Finite? && 0.0 <= p.s.r <= 1.0
  {
    var denominator := k.a * k.c - k.b * k.b;
    var t := if denominator < ParallelThreshold then 0.0 else (k.b * k.e - k.c * k.d) / denominator;
    var s := if denominator < ParallelThreshold then (if k.b > k.c then Div(k.d, k.b) else Div(k.e, k.c))
             else Finite((k.a * k.e - k.b * k.d) / denominator);
    if clampOnLines then LineParams(Clamp01(t), Clamp01Float(s)) else LineParams(t, s)
  }

  /** `FindClosestPointsOnLines`' line parameters as written. */
  function ClosestParams(A: Vec3, B: Vec3, C: Vec3, D: Vec3, clampOnLines: bool): (p: LineParams)
    ensures C == D ==> p.s == NaN
    ensures clampOnLines ==> 0.0 <= p.t <= 1.0
    ensures clampOnLines && p.s != NaN ==> p.s.Finite? && 0.0 <= p.s.r <= 1.0
  {
    ParamsFrom(CoefficientsOf(A, B, C, D), clampOnLines)
  }

  /** The as-written parameter along CD is NaN for a zero-length CD, even with
    * clamping, so the clamped parameter is not in [0, 1]. */
  lemma ClosestParamsDegenerateSegment()
    ensures ClosestParams(Zero3, Vec3(1.0, 0.0, 0.0), Zero3, Zero3, true).s == NaN
  {
  }

  /** The parameters with a zero-length CD handled: `s` is 0 where the as-written value
    * is not a finite number (for a zero-length CD, the point C), and the as-written
    * value otherwise; clamped, both always lie in [0, 1]. */
  function ClosestParamsSafe(A: Vec3, B: Vec3, C: Vec3, D: Vec3, clampOnLines: bool): (p: (real, real))
    ensures clampOnLines ==> 0.0 <= p.0 <= 1.0 && 0.0 <= p.1 <= 1.0
    ensures C == D ==> p.1 == 0.0
    ensures ClosestParams(A, B, C, D, clampOnLines).t == p.0
    ensures ClosestParams(A, B, C, D, clampOnLines).s.Finite? ==> ClosestParams(A, B, C, D, clampOnLines).s.r == p.1
  {
    var q := ClosestParams(A, B, C, D, clampOnLines);
    (q.t, if q.s.Finite? then q.s.r else 0.0)
  }

  /** `FindClosestPointsOnLines` with the corrected parameters: the closest point on
    * each line, which with clamping lies on the segment between its ends; for a
    * zero-length CD the point on it is C. */
  function FindClosestPointsOnLines(A: Vec3, B: Vec3, C: Vec3, D: Vec3, clampOnLines: bool): (r: (Vec3, Vec3))
    ensures clampOnLines ==> OnSegment(r.0, A, B) && OnSegment(r.1, C, D)
    ensures C == D ==> r.1 == C
  {
    var p := ClosestParamsSafe(A, B, C, D, clampOnLines);
    PointOnSegment(A, B, p.0);
    PointOnSegment(C, D, p.1);
    ScaledZero(C, D, p.1);
    (Add3(A, Scale3(Sub3(B, A), p.0)), Add3(C, Scale3(Sub3(D, C), p.1)))
  }

  /** A vector of single-precision values, in the cases `Float` distinguishes. */
  datatype FloatVec3 = FloatVec3(x: Float, y: Float, z: Float)

  function FiniteVec3(v: Vec3): FloatVec3
  {
    FloatVec3(Finite(v.x), Finite(v.y), Finite(v.z))
  }

  /** One component of `c + d * s` for finite `c` and `d`: an infinite `s` gives an
    * infinity of the product's sign, or NaN when `d` is 0; a NaN `s` gives NaN. */
  function AddScaled(c: real, d: real, s: Float): (r: Float)
    ensures s.Finite? ==> r == Finite(c + d * s.r)
    ensures s == NaN ==> r == NaN
  {
    match s
    case Finite(_) => Finite(c + d * s.r)
    case NaN => NaN
    case PosInf => if d > 0.0 then PosInf else if d < 0.0 then NegInf else NaN
    case NegInf => if d > 0.0 then NegInf else if d < 0.0 then PosInf else NaN
  }

  /** `FindClosestPointsOnLines` as written: the point on AB, and the point on CD from
    * the as-written parameter. For a zero-length CD that point is NaN in every
    * component; wherever the parameter is a finite number both points are those of
    * the corrected `FindClosestPointsOnLines`. */
  function ClosestPointsAsWritten(A: Vec3, B: Vec3, C: Vec3, D: Vec3, clampOnLines: bool): (r: (Vec3, FloatVec3))
    ensures C == D ==> r.1 == FloatVec3(NaN, NaN, NaN)
    ensures r.0 == FindClosestPointsOnLines(A, B, C, D, clampOnLines).0
    ensures ClosestParams(A, B, C, D, clampOnLines).s.Finite? ==>
              r.1 == FiniteVec3(FindClosestPointsOnLines(A, B, C, D, clampOnLines).1)
  {
    var q := ClosestParams(A, B, C, D, clampOnLines);
    var u := Sub3(D, C);
    (Add3(A, Scale3(Sub3(B, A), q.t)),
     FloatVec3(AddScaled(C.x, u.x, q.s), AddScaled(C.y, u.y, q.s), AddScaled(C.z, u.z, q.s)))
  }

  /** The as-written point on a zero-length CD is NaN even though the segment is the
    * single point C, so it does not lie on the segment. */
  lemma ClosestPointsAsWrittenDegenerate()
    ensures ClosestPointsAsWritten(Zero3, Vec3(1.0, 0.0, 0.0), Zero3, Zero3, true).1 != FiniteVec3(Zero3)
  {
  }

  lemma PointOnSegment(a: Vec3, b: Vec3, k: real)
    ensures 0.0 <= k <= 1.0 ==> OnSegment(Add3(a, Scale3(Sub3(b, a), k)), a, b)
  {
  }

  lemma ScaledZero(c: Vec3, d: Vec3, k: real)
    ensures c == d ==> Add3(c, Scale3(Sub3(d, c), k)) == c
  {
  }

  /** `x` lies on the segment from `a` to `b`. */
  ghost predicate OnSegment(x: Vec3, a: Vec3, b: Vec3)
  {
    exists k :: 0.0 <= k <= 1.0 && x == Add3(a, Scale3(Sub3(b, a), k))
  }
}
