/** The solver's shared enumerations and parameter structures: the constraint type
  * order, the rendering-system and simplex flag sets, and the defaults set by the
  * `SolverParameters` and `ConstraintParameters` constructors. */
module Oni {
  import opened Common

  const ConstraintTypeCount: nat := 18

  datatype ConstraintType =
    | Tether | Volume | Chain | Pinhole | Bending | Distance | ShapeMatching
    | BendTwist | StretchShear | Pin | ParticleCollision | Density | Collision
    | Skin | Aerodynamics | Stitch | ParticleFriction | Friction

  /** The integer each constraint type stands for. */
  function ConstraintTypeValue(t: ConstraintType): (v: nat)
    ensures v < ConstraintTypeCount
  {
    match t
    case Tether => 0
    case Volume => 1
    case Chain => 2
    case Pinhole => 3
    case Bending => 4
    case Distance => 5
    case ShapeMatching => 6
    case BendTwist => 7
    case StretchShear => 8
    case Pin => 9
    case ParticleCollision => 10
    case Density => 11
    case Collision => 12
    case Skin => 13
    case Aerodynamics => 14
    case Stitch => 15
    case ParticleFriction => 16
    case Friction => 17
  }

  /** All constraint types in declaration order. */
  const AllConstraintTypes: seq<ConstraintType> :=
    [Tether, Volume, Chain, Pinhole, Bending, Distance, ShapeMatching, BendTwist,
     StretchShear, Pin, ParticleCollision, Density, Collision, Skin, Aerodynamics,
     Stitch, ParticleFriction, Friction]

  /** The constraint type an integer stands for (the cast back from int). C#'s cast
    * accepts every integer; one outside the declared values names no member, which
    * is `None` here. */
  function ConstraintTypeOf(v: int): (t: Option<ConstraintType>)
    ensures t.Some? <==> 0 <= v < ConstraintTypeCount
  {
    if 0 <= v < |AllConstraintTypes| then Some(AllConstraintTypes[v]) else None
  }

  /** The declared values are exactly 0 .. ConstraintTypeCount - 1, in declaration
    * order, each used once: the count constant equals the number of values. */
  lemma ConstraintTypeOrder()
    ensures |AllConstraintTypes| == ConstraintTypeCount
    ensures forall i :: 0 <= i < |AllConstraintTypes| ==> ConstraintTypeValue(AllConstraintTypes[i]) == i
    ensures forall t: ConstraintType :: AllConstraintTypes[ConstraintTypeValue(t)] == t
  {
  }

  /** Casting a type to its integer and back gives the type again, and every integer
    * in range is the value of exactly the type found for it. */
  lemma ConstraintTypeRoundTrip(t: ConstraintType, v: int)
    ensures ConstraintTypeOf(ConstraintTypeValue(t)) == Some(t)
    ensures ConstraintTypeOf(v).Some? ==> ConstraintTypeValue(ConstraintTypeOf(v).value) == v
  {
    ConstraintTypeOrder();
    if ConstraintTypeOf(v).Some? {
      assert ConstraintTypeValue(AllConstraintTypes[v]) == v;
    }
  }

  // Rendering system flags, as the 32-bit masks of the C# enum.
  const PathSmoother: bv32 := 1 << 0
  const ExtrudedRope: bv32 := 1 << 1
  const ChainRope: bv32 := 1 << 2
  const LineRope: bv32 := 1 << 3
  const MeshRope: bv32 := 1 << 4
  const Cloth: bv32 := 1 << 5
  const SkinnedCloth: bv32 := 1 << 6
  const TearableCloth: bv32 := 1 << 7
  const Softbody: bv32 := 1 << 8
  const Fluid: bv32 := 1 << 9
  const Particles: bv32 := 1 << 10
  const InstancedParticles: bv32 := 1 << 11
  const FoamParticles: bv32 := 1 << 12

  const AllSmoothedRopes: bv32 := PathSmoother | ExtrudedRope | LineRope | MeshRope
  const AllRopes: bv32 := PathSmoother | ExtrudedRope | ChainRope | LineRope | MeshRope | Particles | InstancedParticles
  const AllClothes: bv32 := Cloth | SkinnedCloth | TearableCloth | Particles | InstancedParticles
  const AllParticles: bv32 := Fluid | Particles | InstancedParticles | FoamParticles

  const BasicRenderingSystems: seq<bv32> :=
    [PathSmoother, ExtrudedRope, ChainRope, LineRope, MeshRope, Cloth, SkinnedCloth,
     TearableCloth, Softbody, Fluid, Particles, InstancedParticles, FoamParticles]

  /** `flag` is set in `mask`. */
  predicate HasFlag(mask: bv32, flag: bv32) { mask & flag == flag }

  /** A mask with exactly one bit set. */
  predicate SingleBit(x: bv32) { x != 0 && x & (x - 1) == 0 }

  /** Every basic rendering system is one bit, no two share it, and the composite
    * masks contain the systems they are declared from; every smoothed rope system is
    * a rope system. */
  lemma RenderingSystemFlags()
    ensures forall i :: 0 <= i < |BasicRenderingSystems| ==> SingleBit(BasicRenderingSystems[i])
    ensures forall i, j :: 0 <= i < j < |BasicRenderingSystems| ==>
      BasicRenderingSystems[i] & BasicRenderingSystems[j] == 0
    ensures AllSmoothedRopes & AllRopes == AllSmoothedRopes
    ensures HasFlag(AllRopes, ChainRope) && !HasFlag(AllSmoothedRopes, ChainRope)
    ensures HasFlag(AllClothes, Particles) && HasFlag(AllParticles, Fluid)
  {
  }

  // Simplex flags.
  const SimplexPoint: bv32 := 1 << 0
  const SimplexEdge: bv32 := 1 << 1
  const SimplexTriangle: bv32 := 1 << 2
  /** `All = ~0`: every bit set. */
  const SimplexAll: bv32 := !0

  lemma SimplexAllContainsEverything(flag: bv32)
    ensures HasFlag(SimplexAll, flag)
    ensures HasFlag(SimplexAll, SimplexPoint) && HasFlag(SimplexAll, SimplexEdge) && HasFlag(SimplexAll, SimplexTriangle)
  {
  }

  datatype Mode = Mode3D | Mode2D
  datatype Interpolation = NoInterpolation | Interpolate | Extrapolate

  /** `(int)mode`. */
  function ModeValue(m: Mode): (v: nat)
    ensures v <= 1 && (v == 0 <==> m == Mode3D)
  {
    match m
    case Mode3D => 0
    case Mode2D => 1
  }

  datatype SolverParameters = SolverParameters(
    mode: Mode,
    interpolation: Interpolation,
    gravity: Vec3,
    ambientWind: Vec3,
    foamGravityScale: real,
    damping: real,
    maxAnisotropy: real,
    sleepThreshold: real,
    maxVelocity: real,
    maxAngularVelocity: real,
    collisionMargin: real,
    maxDepenetration: real,
    colliderCCD: real,
    particleCCD: real,
    shockPropagation: real,
    surfaceCollisionIterations: int,
    surfaceCollisionTolerance: real,
    diffusionMask: Vec4)

  /** The ranges the inspector attributes declare for the solver parameters. */
  predicate InDeclaredRanges(p: SolverParameters)
  {
    && -1.0 <= p.foamGravityScale <= 3.0
    && 0.0 <= p.damping <= 1.0
    && 1.0 <= p.maxAnisotropy <= 5.0
    && 0.0 <= p.colliderCCD <= 1.0
    && 0.0 <= p.particleCCD <= 1.0
    && 0.0 <= p.shockPropagation <= 1.0
    && 1 <= p.surfaceCollisionIterations <= 32
  }

  /** The `SolverParameters(interpolation, gravity)` constructor: only the two
    * arguments are taken from the caller; every other field gets its default, and
    * those defaults respect the declared ranges. */
  function NewSolverParameters(interpolation: Interpolation, gravity: Vec4): (p: SolverParameters)
    ensures InDeclaredRanges(p)
    ensures p.mode == Mode3D && p.interpolation == interpolation && p.gravity == Xyz(gravity)
    ensures p.ambientWind == Zero3 && p.damping == 0.0
    ensures p.maxAnisotropy == 3.0 && p.surfaceCollisionIterations == 8
    ensures p.diffusionMask == Vec4(1.0, 1.0, 1.0, 1.0)
  {
    SolverParameters(
      mode := Mode3D,
      interpolation := interpolation,
      gravity := Xyz(gravity),
      ambientWind := Zero3,
      foamGravityScale := 1.0,
      damping := 0.0,
      maxAnisotropy := 3.0,
      sleepThreshold := 0.0005,
      maxVelocity := 50.0,
      maxAngularVelocity := 20.0,
      collisionMargin := 0.02,
      maxDepenetration := 10.0,
      colliderCCD := 1.0,
      particleCCD := 0.0,
      shockPropagation := 0.0,
      surfaceCollisionIterations := 8,
      surfaceCollisionTolerance := 0.005,
      diffusionMask := Vec4(1.0, 1.0, 1.0, 1.0))
  }

  datatype EvaluationOrder = Sequential | Parallel

  datatype ConstraintParameters = ConstraintParameters(
    evaluationOrder: EvaluationOrder, iterations: int, sorFactor: real, enabled: bool)

  /** The `ConstraintParameters(enabled, order, iterations)` constructor: copies its
    * arguments and sets the over-relaxation factor to 1 (no over-relaxation), which
    * is inside its declared range [0.1, 2]. */
  function NewConstraintParameters(enabled: bool, order: EvaluationOrder, iterations: int): (c: ConstraintParameters)
    ensures c.enabled == enabled && c.evaluationOrder == order && c.iterations == iterations
    ensures c.sorFactor == 1.0 && 0.1 <= c.sorFactor <= 2.0
  {
    ConstraintParameters(order, iterations, 1.0, enabled)
  }
}
