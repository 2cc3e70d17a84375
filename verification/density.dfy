/** The per-particle passes of the Burst density (fluid) constraints: clearing the
  * fluid accumulators, the density constraint and its multiplier, applying the
  * accumulated position deltas, and the averaging steps of anisotropy smoothing.
  *
  * Every job is a parallel-for over the fluid particle list that reads and writes the
  * solver's per-particle arrays at one index only. It is modelled as a sequential loop
  * over that list applying a per-particle function to an array of records, one record
  * per particle holding that particle's entry of each solver array involved. */
module BurstDensity {
  import opened Common
  import opened Oni

  datatype Mat4 = Mat4(c0: Vec4, c1: Vec4, c2: Vec4, c3: Vec4)

  const ZeroMat: Mat4 := Mat4(Zero4, Zero4, Zero4, Zero4)
  const IdentityQuaternion: Vec4 := Vec4(0.0, 0.0, 0.0, 1.0)
  /** `math.FLT_MIN_NORMAL`, 2^-126. */
  const FltMinNormal: real := 0.000000000000000000000000000000000000011754943508222875

  /** One particle's entries of the solver arrays the density jobs use. Several arrays
    * are reused under other names by these jobs: `normals` holds mass centres,
    * `renderablePositions` the previous mass centres and `anisotropies` the moments
    * while the multipliers are computed; `restPositions` holds the matching rotation
    * there and `linearFromAngular` when deltas are applied, and `orientationDeltas`
    * holds the matching rotation when deltas are applied. */
  datatype FluidParticle = FluidParticle(
    position: Vec4,               // xyz, w = inverse mass
    prevPosition: Vec4,
    positionDelta: Vec4,
    positionConstraintCount: int,
    normal: Vec4,
    renderablePosition: Vec4,
    anisotropy: Mat4,
    fluidData: Vec4,              // x density, y lambda, z gradient, w squared gradients
    orientationDelta: Vec4,
    restPosition: Vec4,
    principalRadius: real,        // principalRadii.x
    fluidMaterial: Vec4,          // x smoothing radius, w stiffness
    renderableOrientation: Vec4,
    renderableRadii: Vec4,
    life: real)

  // ---------------------------------------------------------------------------
  // ClearFluidDataJob

  /** One particle of `ClearFluidDataJob`. */
  function FluidDataCleared(q: FluidParticle): (r: FluidParticle)
    ensures r.fluidData == Zero4 && r.normal == Zero4 && r.renderablePosition == Zero4
    ensures r.anisotropy == ZeroMat
    ensures r.(fluidData := q.fluidData, normal := q.normal,
               renderablePosition := q.renderablePosition, anisotropy := q.anisotropy) == q
  {
    q.(fluidData := Zero4, normal := Zero4, renderablePosition := Zero4, anisotropy := ZeroMat)
  }

  method ClearFluidData(a: array<FluidParticle>, fluidParticles: seq<int>)
    requires Distinct(fluidParticles)
    requires forall k :: 0 <= k < |fluidParticles| ==> 0 <= fluidParticles[k] < a.Length
    modifies a
    ensures a[..] == MappedAt(old(a[..]), fluidParticles, FluidDataCleared)
  {
    ApplyAt(a, fluidParticles, FluidDataCleared);
  }

  /** The clearing pass zeroes the fluid data, mass centres, previous mass centres and
    * moments at every fluid particle and changes no other particle. */
  lemma ClearFluidDataEffect(s: seq<FluidParticle>, fluidParticles: seq<int>, j: int)
    requires 0 <= j < |s|
    ensures var r := MappedAt(s, fluidParticles, FluidDataCleared);
      && (j in fluidParticles ==>
            r[j].fluidData == Zero4 && r[j].normal == Zero4 &&
            r[j].renderablePosition == Zero4 && r[j].anisotropy == ZeroMat &&
            r[j].position == s[j].position && r[j].life == s[j].life)
      && (j !in fluidParticles ==> r[j] == s[j])
  {
    MappedAtIndex(s, fluidParticles, FluidDataCleared, j);
  }

  // ---------------------------------------------------------------------------
  // CalculateLambdasJob (density, constraint, multiplier and count)

  function Pow(x: real, n: nat): (r: real)
    ensures x > 0.0 ==> r > 0.0
  {
    if n == 0 then 1.0 else x * Pow(x, n - 1)
  }

  /** `math.pow(principalRadius * 2, 3 - (int)mode)`: the rest volume of a particle. */
  function RestVolume(radius: real, mode: Mode): real
  {
    Pow(radius * 2.0, 3 - ModeValue(mode))
  }

  /** The fluid data after adding a particle's own contribution: the density kernel at
    * distance zero to the density, and its own gradient to the gradient terms. The
    * kernels are not part of this model and are given as functions of the smoothing
    * radius. */
  function SelfContribution(q: FluidParticle, mode: Mode, densityW0: real -> real, gradientW0: real -> real): (d: Vec4)
    ensures d.y == q.fluidData.y && d.w >= q.fluidData.w
  {
    var data := q.fluidData;
    var grad := RestVolume(q.principalRadius, mode) * gradientW0(q.fluidMaterial.x);
    Vec4(data.x + densityW0(q.fluidMaterial.x), data.y, data.z + grad, data.w + (grad * grad + data.z * data.z))
  }

  /** The density constraint `max(0, density * restVolume - 1) * stiffness`. */
  function DensityConstraint(density: real, restVolume: real, stiffness: real): (c: real)
    ensures stiffness >= 0.0 ==> c >= 0.0
    ensures density * restVolume <= 1.0 ==> c == 0.0
    ensures density * restVolume > 1.0 ==> c == (density * restVolume - 1.0) * stiffness
  {
    Max(0.0, density * restVolume - 1.0) * stiffness
  }

  /** The lambda denominator `invMass * data.w + FLT_MIN_NORMAL`. */
  function LambdaDenominator(q: FluidParticle, data: Vec4): real
  {
    q.position.w * data.w + FltMinNormal
  }

  /** The quantities `CalculateLambdasJob` derives from the neighbourhood through
    * numerics that are not part of this model: mass centres, moments, the extracted
    * matching rotation and the viscosity delta increment. */
  datatype LambdaNumerics = LambdaNumerics(
    massCenter: Vec4, prevMassCenter: Vec4, moment: Mat4, matchingRotation: Vec4, deltaIncrement: Vec4)

  predicate LambdaDefined(q: FluidParticle, mode: Mode, densityW0: real -> real, gradientW0: real -> real)
  {
    LambdaDenominator(q, SelfContribution(q, mode, densityW0, gradientW0)) != 0.0
  }

  /** One particle of `CalculateLambdasJob`. The multiplier is never positive for a
    * non-negative stiffness and inverse mass, and exactly one constraint is counted. */
  function LambdaUpdated(q: FluidParticle, mode: Mode, densityW0: real -> real, gradientW0: real -> real,
                         numerics: FluidParticle -> LambdaNumerics): (r: FluidParticle)
    requires LambdaDefined(q, mode, densityW0, gradientW0)
    ensures r.positionConstraintCount == q.positionConstraintCount + 1
    ensures q.fluidMaterial.w >= 0.0 && q.position.w * r.fluidData.w >= 0.0 ==> r.fluidData.y <= 0.0
    ensures r.fluidData.w >= q.fluidData.w
    ensures q.fluidData.x * RestVolume(q.principalRadius, mode) + densityW0(q.fluidMaterial.x) * RestVolume(q.principalRadius, mode) <= 1.0
            ==> r.fluidData.y == 0.0
    ensures r.position == q.position && r.life == q.life && r.principalRadius == q.principalRadius
  {
    var n := numerics(q);
    var data := SelfContribution(q, mode, densityW0, gradientW0);
    var restVolume := RestVolume(q.principalRadius, mode);
    var constraint := DensityConstraint(data.x, restVolume, q.fluidMaterial.w);
    var denominator := LambdaDenominator(q, data);
    assert q.position.w * data.w >= 0.0 ==> denominator > 0.0;
    q.(fluidData := data.(y := -constraint / denominator),
       normal := n.massCenter, renderablePosition := n.prevMassCenter, anisotropy := n.moment,
       restPosition := n.matchingRotation,
       positionDelta := Add4(q.positionDelta, n.deltaIncrement),
       positionConstraintCount := q.positionConstraintCount + 1)
  }

  /** The per-particle function of `CalculateLambdasJob`. */
  function LambdaJob(mode: Mode, densityW0: real -> real, gradientW0: real -> real,
                     numerics: FluidParticle -> LambdaNumerics): FluidParticle --> FluidParticle
  {
    (q: FluidParticle) requires LambdaDefined(q, mode, densityW0, gradientW0) =>
      LambdaUpdated(q, mode, densityW0, gradientW0, numerics)
  }

  method CalculateLambdas(a: array<FluidParticle>, fluidParticles: seq<int>, mode: Mode,
                          densityW0: real -> real, gradientW0: real -> real,
                          numerics: FluidParticle -> LambdaNumerics)
    requires Distinct(fluidParticles)
    requires forall k :: 0 <= k < |fluidParticles| ==> 0 <= fluidParticles[k] < a.Length
    requires forall j :: 0 <= j < a.Length && j in fluidParticles ==> LambdaDefined(a[j], mode, densityW0, gradientW0)
    modifies a
    ensures a[..] == MappedAt(old(a[..]), fluidParticles,
                              LambdaJob(mode, densityW0, gradientW0, numerics))
  {
    ApplyAt(a, fluidParticles,
            LambdaJob(mode, densityW0, gradientW0, numerics));
  }

  /** Over the whole job: every fluid particle's count grows by exactly one, every
    * other particle is untouched, and a fluid particle with non-negative stiffness and
    * inverse mass gets a non-positive multiplier. */
  lemma CalculateLambdasEffect(s: seq<FluidParticle>, fluidParticles: seq<int>, mode: Mode,
                               densityW0: real -> real, gradientW0: real -> real,
                               numerics: FluidParticle -> LambdaNumerics, j: int)
    requires 0 <= j < |s|
    requires forall i :: 0 <= i < |s| && i in fluidParticles ==> LambdaDefined(s[i], mode, densityW0, gradientW0)
    ensures var r := MappedAt(s, fluidParticles,
                              LambdaJob(mode, densityW0, gradientW0, numerics));
      && r[j].positionConstraintCount == s[j].positionConstraintCount + (if j in fluidParticles then 1 else 0)
      && (j !in fluidParticles ==> r[j] == s[j])
      && ((j in fluidParticles && s[j].fluidMaterial.w >= 0.0 && s[j].position.w >= 0.0 && s[j].fluidData.w >= 0.0)
            ==> r[j].fluidData.y <= 0.0)
  {
    var f := LambdaJob(mode, densityW0, gradientW0, numerics);
    MappedAtIndex(s, fluidParticles, f, j);
    if j in fluidParticles && s[j].fluidMaterial.w >= 0.0 && s[j].position.w >= 0.0 && s[j].fluidData.w >= 0.0 {
      var r := LambdaUpdated(s[j], mode, densityW0, gradientW0, numerics);
      assert f(s[j]) == r;
      assert r.fluidData.w >= 0.0;
      assert s[j].position.w * r.fluidData.w >= 0.0;
    }
  }

  // ---------------------------------------------------------------------------
  // ApplyPositionDeltasJob

  /** One particle of `ApplyPositionDeltasJob`. */
  function DeltasApplied(q: FluidParticle): (r: FluidParticle)
    ensures q.positionConstraintCount > 0 ==>
      var n := q.positionConstraintCount as real;
      && r.position == Vec4(q.position.x + q.positionDelta.x / n, q.position.y + q.positionDelta.y / n,
                            q.position.z + q.positionDelta.z / n, q.position.w)
      && r.positionDelta == Zero4 && r.positionConstraintCount == 0
    ensures q.positionConstraintCount <= 0 ==>
      r.position == q.position && r.positionDelta == q.positionDelta &&
      r.positionConstraintCount == q.positionConstraintCount
    ensures r.normal == Zero4 && r.anisotropy == ZeroMat && r.restPosition == Zero4
    ensures r.orientationDelta == Vec4(0.0, 0.0, 0.0, 0.0)
    ensures r.fluidData == q.fluidData.(z := 0.0)
    ensures r.life == q.life && r.prevPosition == q.prevPosition && r.renderableRadii == q.renderableRadii
  {
    var q1 :=
      if q.positionConstraintCount > 0 then
        var n := q.positionConstraintCount as real;
        q.(position := Add4(q.position, Vec4(q.positionDelta.x / n, q.positionDelta.y / n, q.positionDelta.z / n, 0.0)),
           positionDelta := Zero4, positionConstraintCount := 0)
      else q;
    q1.(normal := Zero4, anisotropy := ZeroMat, restPosition := Zero4,
        orientationDelta := Vec4(0.0, 0.0, 0.0, 0.0), fluidData := q1.fluidData.(z := 0.0))
  }

  method ApplyPositionDeltas(a: array<FluidParticle>, fluidParticles: seq<int>)
    requires Distinct(fluidParticles)
    requires forall k :: 0 <= k < |fluidParticles| ==> 0 <= fluidParticles[k] < a.Length
    modifies a
    ensures a[..] == MappedAt(old(a[..]), fluidParticles, DeltasApplied)
  {
    ApplyAt(a, fluidParticles, DeltasApplied);
  }

  /** Applying the deltas a second time changes nothing: counts and deltas are already
    * reset and the cleared fields stay cleared. */
  lemma ApplyPositionDeltasTwice(s: seq<FluidParticle>, fluidParticles: seq<int>)
    ensures MappedAt(MappedAt(s, fluidParticles, DeltasApplied), fluidParticles, DeltasApplied)
         == MappedAt(s, fluidParticles, DeltasApplied)
  {
    forall q ensures DeltasApplied(DeltasApplied(q)) == DeltasApplied(q) {
    }
    MappedAtIdempotent(s, fluidParticles, DeltasApplied);
  }

  // ---------------------------------------------------------------------------
  // Anisotropy smoothing: AverageSmoothPositionsJob, AverageAnisotropyJob

  /** One particle of `AverageSmoothPositionsJob`: the accumulated smoothed position
    * (column 3, weight in w) is normalised by its weight, or replaced by the
    * renderable position when nothing was accumulated. */
  function SmoothPositionAveraged(q: FluidParticle): (r: FluidParticle)
    ensures q.anisotropy.c3.w > 0.0 ==>
      r.anisotropy.c3.w == 1.0 && Xyz(r.anisotropy.c3) == Scale3(Xyz(q.anisotropy.c3), 1.0 / q.anisotropy.c3.w)
    ensures q.anisotropy.c3.w <= 0.0 ==>
      Xyz(r.anisotropy.c3) == Xyz(q.renderablePosition) && r.anisotropy.c3.w == q.anisotropy.c3.w
    ensures r == q.(anisotropy := q.anisotropy.(c3 := r.anisotropy.c3))
  {
    var c3 := q.anisotropy.c3;
    var smoothed :=
      if c3.w > 0.0 then Vec4(c3.x / c3.w, c3.y / c3.w, c3.z / c3.w, c3.w / c3.w)
      else c3.(x := q.renderablePosition.x, y := q.renderablePosition.y, z := q.renderablePosition.z);
    q.(anisotropy := q.anisotropy.(c3 := smoothed))
  }

  method AverageSmoothPositions(a: array<FluidParticle>, fluidParticles: seq<int>)
    requires Distinct(fluidParticles)
    requires forall k :: 0 <= k < |fluidParticles| ==> 0 <= fluidParticles[k] < a.Length
    modifies a
    ensures a[..] == MappedAt(old(a[..]), fluidParticles, SmoothPositionAveraged)
  {
    ApplyAt(a, fluidParticles, SmoothPositionAveraged);
  }

  /** The result of the eigen-decomposition branch, which is not part of this model:
    * the orientation from `LookRotationSafe` and the three scaled singular values. */
  datatype Ellipsoid = Ellipsoid(orientation: Vec4, radii: Vec3)

  /** The eigen-decomposition branch is taken for a weighted, non-degenerate moment. */
  predicate HasAnisotropy(m: Mat4)
  {
    m.c3.w > 0.0 && m.c0.x + m.c1.y + m.c2.z > 0.01
  }

  /** The fallback branch divides by the particle's diameter: it is well defined when
    * the eigen branch is taken or the principal radius is non-zero. */
  predicate FallbackDefined(q: FluidParticle)
  {
    HasAnisotropy(q.anisotropy) || q.principalRadius != 0.0
  }

  function Lerp4(a: Vec4, b: Vec4, t: real): Vec4
  {
    Vec4(Lerp(a.x, b.x, t), Lerp(a.y, b.y, t), Lerp(a.z, b.z, t), Lerp(a.w, b.w, t))
  }

  /** One particle of `AverageAnisotropyJob`. Without anisotropy the particle becomes
    * a sphere of radius principalRadius / maxAnisotropy with identity orientation;
    * either way the radii's w is 0 exactly for a dead particle and 1 otherwise. */
  function AnisotropyAveraged(q: FluidParticle, maxAnisotropy: real, mode: Mode,
                              eigen: FluidParticle -> Ellipsoid): (r: FluidParticle)
    requires maxAnisotropy > 1.0 && FallbackDefined(q)
    ensures !HasAnisotropy(q.anisotropy) ==>
      var radius := q.principalRadius / maxAnisotropy;
      && r.renderableRadii.x == radius && r.renderableRadii.y == radius && r.renderableRadii.z == radius
      && r.renderableOrientation == IdentityQuaternion
      && r.fluidData == q.fluidData.(x := 1.0 / Pow(if radius * 2.0 >= 0.0 then radius * 2.0 else -radius * 2.0, 3 - ModeValue(mode)))
    ensures HasAnisotropy(q.anisotropy) ==>
      r.renderableOrientation == eigen(q).orientation && Xyz(r.renderableRadii) == eigen(q).radii &&
      r.fluidData == q.fluidData
    ensures r.renderableRadii.w == (if q.life <= 0.0 then 0.0 else 1.0)
    ensures maxAnisotropy >= 4.0 ==> r.renderablePosition == q.anisotropy.c3
    ensures r.position == q.position && r.anisotropy == q.anisotropy && r.life == q.life
  {
    var q1 :=
      if HasAnisotropy(q.anisotropy) then
        var e := eigen(q);
        q.(renderableOrientation := e.orientation, renderableRadii := Vec4(e.radii.x, e.radii.y, e.radii.z, 1.0))
      else
        var radius := q.principalRadius / maxAnisotropy;
        var diameter := if radius * 2.0 >= 0.0 then radius * 2.0 else -radius * 2.0;
        assert diameter > 0.0;
        q.(renderableOrientation := IdentityQuaternion,
           renderableRadii := Vec4(radius, radius, radius, 1.0),
           fluidData := q.fluidData.(x := 1.0 / Pow(diameter, 3 - ModeValue(mode))));
    var t := Min((maxAnisotropy - 1.0) / 3.0, 1.0);
    var q2 := q1.(renderablePosition := Lerp4(q1.renderablePosition, q1.anisotropy.c3, t));
    q2.(renderableRadii := q2.renderableRadii.(w := if q2.life <= 0.0 then 0.0 else q2.renderableRadii.w))
  }

  /** The per-particle function of `AverageAnisotropyJob`. */
  function AnisotropyJob(maxAnisotropy: real, mode: Mode, eigen: FluidParticle -> Ellipsoid): FluidParticle --> FluidParticle
    requires maxAnisotropy > 1.0
  {
    (q: FluidParticle) requires FallbackDefined(q) => AnisotropyAveraged(q, maxAnisotropy, mode, eigen)
  }

  /** A batch accumulation pass, seen at one particle: the matrix it leaves there. */
  function Accumulated(accumulate: FluidParticle -> Mat4): FluidParticle -> FluidParticle
  {
    (q: FluidParticle) => q.(anisotropy := accumulate(q))
  }

  method AverageAnisotropy(a: array<FluidParticle>, fluidParticles: seq<int>, maxAnisotropy: real,
                           mode: Mode, eigen: FluidParticle -> Ellipsoid)
    requires maxAnisotropy > 1.0
    requires Distinct(fluidParticles)
    requires forall k :: 0 <= k < |fluidParticles| ==> 0 <= fluidParticles[k] < a.Length
    requires forall j :: 0 <= j < a.Length && j in fluidParticles ==> FallbackDefined(a[j])
    modifies a
    ensures a[..] == MappedAt(old(a[..]), fluidParticles,
                              AnisotropyJob(maxAnisotropy, mode, eigen))
  {
    ApplyAt(a, fluidParticles,
            AnisotropyJob(maxAnisotropy, mode, eigen));
  }

  /** A fluid particle as the three passes before the averaging leave it. */
  function Smoothed(q: FluidParticle, accumulateSmoothPositions: FluidParticle -> Mat4,
                    accumulateAnisotropy: FluidParticle -> Mat4): FluidParticle
  {
    Accumulated(accumulateAnisotropy)(SmoothPositionAveraged(Accumulated(accumulateSmoothPositions)(q)))
  }

  /** The three passes before the averaging: the smoothed positions accumulated and
    * averaged, then the anisotropy moments accumulated. Each listed particle ends up
    * `Smoothed`, and the others are untouched. */
  function Prepared(s: seq<FluidParticle>, fluidParticles: seq<int>, accumulateSmoothPositions: FluidParticle -> Mat4,
                    accumulateAnisotropy: FluidParticle -> Mat4): (r: seq<FluidParticle>)
    ensures |r| == |s|
    ensures forall j :: 0 <= j < |s| && j in fluidParticles ==> r[j] == Smoothed(s[j], accumulateSmoothPositions, accumulateAnisotropy)
    ensures forall j :: 0 <= j < |s| && j !in fluidParticles ==> r[j] == s[j]
  {
    var s1 := MappedAt(s, fluidParticles, Accumulated(accumulateSmoothPositions));
    var s2 := MappedAt(s1, fluidParticles, SmoothPositionAveraged);
    var s3 := MappedAt(s2, fluidParticles, Accumulated(accumulateAnisotropy));
    PreparedAt(s, s1, s2, s3, fluidParticles, accumulateSmoothPositions, accumulateAnisotropy);
    s3
  }

  /** `Prepared`, particle by particle. */
  lemma PreparedAt(s: seq<FluidParticle>, s1: seq<FluidParticle>, s2: seq<FluidParticle>, s3: seq<FluidParticle>,
                   fluidParticles: seq<int>, accumulateSmoothPositions: FluidParticle -> Mat4,
                   accumulateAnisotropy: FluidParticle -> Mat4)
    requires s1 == MappedAt(s, fluidParticles, Accumulated(accumulateSmoothPositions))
    requires s2 == MappedAt(s1, fluidParticles, SmoothPositionAveraged)
    requires s3 == MappedAt(s2, fluidParticles, Accumulated(accumulateAnisotropy))
    ensures forall j :: 0 <= j < |s| && j in fluidParticles ==> s3[j] == Smoothed(s[j], accumulateSmoothPositions, accumulateAnisotropy)
    ensures forall j :: 0 <= j < |s| && j !in fluidParticles ==> s3[j] == s[j]
  {
    forall j | 0 <= j < |s|
      ensures j in fluidParticles ==> s3[j] == Smoothed(s[j], accumulateSmoothPositions, accumulateAnisotropy)
      ensures j !in fluidParticles ==> s3[j] == s[j]
    {
      MappedAtIndex(s, fluidParticles, Accumulated(accumulateSmoothPositions), j);
      MappedAtIndex(s1, fluidParticles, SmoothPositionAveraged, j);
      MappedAtIndex(s2, fluidParticles, Accumulated(accumulateAnisotropy), j);
    }
  }

  /** `CalculateAnisotropyLaplacianSmoothing`: nothing at all happens when
    * maxAnisotropy <= 1. Otherwise the smoothed positions are accumulated and
    * averaged, then the anisotropy moments are accumulated and averaged. The
    * accumulation passes belong to the constraint batches and are not part of this
    * model; each is given by the matrix it leaves for a particle. */
  method CalculateAnisotropyLaplacianSmoothing(a: array<FluidParticle>, fluidParticles: seq<int>,
                                               maxAnisotropy: real, mode: Mode,
                                               accumulateSmoothPositions: FluidParticle -> Mat4,
                                               accumulateAnisotropy: FluidParticle -> Mat4,
                                               eigen: FluidParticle -> Ellipsoid)
    requires Distinct(fluidParticles)
    requires forall k :: 0 <= k < |fluidParticles| ==> 0 <= fluidParticles[k] < a.Length
    requires maxAnisotropy > 1.0 ==> forall j :: 0 <= j < a.Length && j in fluidParticles ==>
      FallbackDefined(Smoothed(a[j], accumulateSmoothPositions, accumulateAnisotropy))
    modifies a
    ensures maxAnisotropy <= 1.0 ==> a[..] == old(a[..])
    ensures maxAnisotropy > 1.0 ==>
      a[..] == MappedAt(Prepared(old(a[..]), fluidParticles, accumulateSmoothPositions, accumulateAnisotropy),
                        fluidParticles, AnisotropyJob(maxAnisotropy, mode, eigen))
  {
    if maxAnisotropy <= 1.0 {
      return;
    }
    ApplyAt(a, fluidParticles, Accumulated(accumulateSmoothPositions));
    ApplyAt(a, fluidParticles, SmoothPositionAveraged);
    ApplyAt(a, fluidParticles, Accumulated(accumulateAnisotropy));
    ApplyAt(a, fluidParticles,
            AnisotropyJob(maxAnisotropy, mode, eigen));
  }

  /** After a smoothing pass with maxAnisotropy > 1, every dead fluid particle has
    * radii.w = 0, so it is not rendered, and every live one has radii.w = 1. */
  lemma SmoothingHidesDeadParticles(s: seq<FluidParticle>, fluidParticles: seq<int>, maxAnisotropy: real,
                                    mode: Mode, eigen: FluidParticle -> Ellipsoid, j: int)
    requires maxAnisotropy > 1.0 && 0 <= j < |s| && j in fluidParticles
    requires forall i :: 0 <= i < |s| && i in fluidParticles ==> FallbackDefined(s[i])
    ensures var r := MappedAt(s, fluidParticles,
                              AnisotropyJob(maxAnisotropy, mode, eigen));
      r[j].renderableRadii.w == (if s[j].life <= 0.0 then 0.0 else 1.0)
  {
  }
}
