/** Value types and scalar helpers shared by the modules of this model.
  * Single-precision floats are modelled as `real`; where an IEEE special value
  * (infinity, NaN) changes the outcome, `Float` below is used instead. */
module Common {

  datatype Option<T> = None | Some(value: T)

  /** The exceptions the modelled C# code can raise. */
  datatype Error = IndexOutOfRange | NullOrEmpty

  datatype Result<T> = Ok(value: T) | Err(error: Error)

  datatype Int2 = Int2(x: int, y: int)
  datatype Int3 = Int3(x: int, y: int, z: int)
  datatype Real2 = Real2(x: real, y: real)
  datatype Vec3 = Vec3(x: real, y: real, z: real)
  datatype Vec4 = Vec4(x: real, y: real, z: real, w: real)

  const Zero3: Vec3 := Vec3(0.0, 0.0, 0.0)
  const Zero4: Vec4 := Vec4(0.0, 0.0, 0.0, 0.0)

  function Add3(a: Vec3, b: Vec3): Vec3 { Vec3(a.x + b.x, a.y + b.y, a.z + b.z) }
  function Sub3(a: Vec3, b: Vec3): Vec3 { Vec3(a.x - b.x, a.y - b.y, a.z - b.z) }
  function Scale3(a: Vec3, s: real): Vec3 { Vec3(a.x * s, a.y * s, a.z * s) }
  function Dot3(a: Vec3, b: Vec3): real { a.x * b.x + a.y * b.y + a.z * b.z }
  function Cross3(a: Vec3, b: Vec3): Vec3 {
    Vec3(a.y * b.z - a.z * b.y, a.z * b.x - a.x * b.z, a.x * b.y - a.y * b.x)
  }
  function Add4(a: Vec4, b: Vec4): Vec4 { Vec4(a.x + b.x, a.y + b.y, a.z + b.z, a.w + b.w) }
  function Sub4(a: Vec4, b: Vec4): Vec4 { Vec4(a.x - b.x, a.y - b.y, a.z - b.z, a.w - b.w) }
  function Scale4(a: Vec4, s: real): Vec4 { Vec4(a.x * s, a.y * s, a.z * s, a.w * s) }
  lemma Add4Associative(a: Vec4, b: Vec4, c: Vec4)
    ensures Add4(Add4(a, b), c) == Add4(a, Add4(b, c))
  {
  }

  lemma Add4Zero(a: Vec4)
    ensures Add4(a, Zero4) == a && Add4(Zero4, a) == a
  {
  }

  function Xyz(a: Vec4): Vec3 { Vec3(a.x, a.y, a.z) }

  function Min(a: real, b: real): real { if a <= b then a else b }
  function Max(a: real, b: real): real { if a >= b then a else b }
  function MaxInt(a: int, b: int): int { if a >= b then a else b }

  function Lerp(a: real, b: real, t: real): real { a + (b - a) * t }

  /** Unity's `Mathf.Clamp(value, min, max)` on floats: the lower bound is tested first. */
  function MathfClamp(v: real, lo: real, hi: real): (r: real)
    ensures lo <= hi ==> lo <= r <= hi
    ensures lo <= v <= hi ==> r == v
  {
    if v < lo then lo else if v > hi then hi else v
  }

  /** Unity's `Mathf.Clamp(value, min, max)` on ints, the overload of `MathfClamp` for
    * integer arguments (a separate function because `int` and `real` share no type). */
  function MathfClampInt(v: int, lo: int, hi: int): (r: int)
    ensures lo <= hi ==> lo <= r <= hi
    ensures lo <= v <= hi ==> r == v
  {
    if v < lo then lo else if v > hi then hi else v
  }

  /** Unity's `Mathf.Clamp01` on a finite value. */
  function Clamp01(v: real): (r: real)
    ensures 0.0 <= r <= 1.0
    ensures 0.0 <= v <= 1.0 ==> r == v
  {
    MathfClamp(v, 0.0, 1.0)
  }

  /** Burst's `math.clamp(x, a, b)`, which is `max(a, min(b, x))`. */
  function BurstClamp(x: real, a: real, b: real): (r: real)
    ensures a <= b ==> a <= r <= b
    ensures a <= x <= b ==> r == x
  {
    Max(a, Min(b, x))
  }

  /** Burst's `math.saturate`: clamp into [0, 1]. */
  function Saturate(x: real): (r: real)
    ensures 0.0 <= r <= 1.0
    ensures 0.0 <= x <= 1.0 ==> r == x
  {
    BurstClamp(x, 0.0, 1.0)
  }

  /** The C# conversion `(int)f`, which truncates toward zero. */
  function Trunc(f: real): (n: int)
    ensures f >= 0.0 ==> 0 <= n && n as real <= f < n as real + 1.0
    ensures f < 0.0 ==> n <= 0 && n as real - 1.0 < f <= n as real
  {
    if f >= 0.0 then f.Floor else -((-f).Floor)
  }

  /** A single-precision value seen through the cases that matter to this model. */
  datatype Float = Finite(r: real) | PosInf | NegInf | NaN

  /** IEEE division of two finite values; a zero divisor is the positive zero that
    * `x - x` produces. */
  function Div(a: real, b: real): (q: Float)
    ensures b != 0.0 ==> q == Finite(a / b)
    ensures q == NaN <==> a == 0.0 && b == 0.0
  {
    if b != 0.0 then Finite(a / b)
    else if a > 0.0 then PosInf
    else if a < 0.0 then NegInf
    else NaN
  }

  /** Unity's `Mathf.Clamp01` on a float: both comparisons are false for NaN, which
    * therefore passes through. */
  function Clamp01Float(f: Float): (r: Float)
    ensures f != NaN ==> r.Finite? && 0.0 <= r.r <= 1.0
    ensures f == NaN ==> r == NaN
  {
    match f
    case Finite(v) => Finite(Clamp01(v))
    case PosInf => Finite(1.0)
    case NegInf => Finite(0.0)
    case NaN => NaN
  }

  /** Number of occurrences of `x` in `s`. */
  function Occurrences(s: seq<int>, x: int): nat
  {
    if s == [] then 0 else Occurrences(s[..|s| - 1], x) + (if s[|s| - 1] == x then 1 else 0)
  }

  /** No index repeats in `s`. */
  predicate Distinct(s: seq<int>)
  {
    forall i, j :: 0 <= i < j < |s| ==> s[i] != s[j]
  }

  /** A prefix one longer is the prefix with the next entry appended. */
  lemma PrefixStep<T>(s: seq<T>, i: int)
    requires 0 <= i < |s|
    ensures s[..i + 1] == s[..i] + [s[i]]
  {
  }

  /** A sequence that differs from another only at slot i is that one updated at i. */
  lemma UpdatedOnlyAt<T>(a: seq<T>, b: seq<T>, i: int)
    requires |a| == |b| && 0 <= i < |a|
    requires forall k :: 0 <= k < |a| && k != i ==> b[k] == a[k]
    ensures b == a[i := b[i]]
  {
  }

  /** In a list without repeats no entry occurs before its own position. */
  lemma DistinctFresh(s: seq<int>, i: int)
    requires Distinct(s) && 0 <= i < |s|
    ensures s[i] !in s[..i]
  {
    forall j | 0 <= j < i
      ensures s[..i][j] != s[i]
    {
      assert s[..i][j] == s[j];
    }
  }

  // ---------------------------------------------------------------------------
  // A parallel-for job over a list of particle indices, each work item touching only
  // its own particle: a per-particle function applied at every listed index.

  /** `s` with `f` applied at every position listed in `indices`. */
  function MappedAt<T>(s: seq<T>, indices: seq<int>, f: T --> T): (r: seq<T>)
    requires forall j :: 0 <= j < |s| && j in indices ==> f.requires(s[j])
    ensures |r| == |s|
  {
    seq(|s|, j requires 0 <= j < |s| => if j in indices then f(s[j]) else s[j])
  }

  /** Applying `f` at a fresh index extends the indices by one. */
  lemma MappedAtStep<T>(s: seq<T>, indices: seq<int>, x: int, f: T --> T)
    requires 0 <= x < |s| && x !in indices
    requires forall j :: 0 <= j < |s| && j in indices + [x] ==> f.requires(s[j])
    ensures MappedAt(s, indices + [x], f) == MappedAt(s, indices, f)[x := f(s[x])]
  {
  }

  lemma MappedAtIndex<T>(s: seq<T>, indices: seq<int>, f: T --> T, j: int)
    requires forall i :: 0 <= i < |s| && i in indices ==> f.requires(s[i])
    requires 0 <= j < |s|
    ensures j in indices ==> f.requires(s[j]) && MappedAt(s, indices, f)[j] == f(s[j])
    ensures j !in indices ==> MappedAt(s, indices, f)[j] == s[j]
  {
  }

  /** A job whose per-particle function is idempotent is idempotent as a whole. */
  lemma MappedAtIdempotent<T>(s: seq<T>, indices: seq<int>, f: T -> T)
    requires forall q :: f(f(q)) == f(q)
    ensures MappedAt(MappedAt(s, indices, f), indices, f) == MappedAt(s, indices, f)
  {
  }

  /** The parallel-for of a job, run sequentially: particle `indices[p]` is updated
    * by `f` at step `p`. The index list holds no index twice. */
  method ApplyAt<T>(a: array<T>, indices: seq<int>, f: T --> T)
    requires Distinct(indices)
    requires forall k :: 0 <= k < |indices| ==> 0 <= indices[k] < a.Length
    requires forall j :: 0 <= j < a.Length && j in indices ==> f.requires(a[j])
    modifies a
    ensures a[..] == MappedAt(old(a[..]), indices, f)
  {
    for p := 0 to |indices|
      invariant forall j :: 0 <= j < a.Length && j in indices[..p] ==> f.requires(old(a[j]))
      invariant a[..] == MappedAt(old(a[..]), indices[..p], f)
    {
      var i := indices[p];
      assert indices[..p + 1] == indices[..p] + [i];
      assert i !in indices[..p];
      MappedAtStep(old(a[..]), indices[..p], i, f);
      a[i] := f(a[i]);
    }
    assert indices[..|indices|] == indices;
  }

}
