/** `ApplyInertialForcesJob`: when the solver's reference frame moves, every active
  * particle with finite mass feels the fictitious accelerations of that frame (linear,
  * Euler, Coriolis and centrifugal), and every active particle's wind is reset to the
  * ambient wind, less the frame's own velocity when inertial wind is on. */
module InertialForces {
  import opened Common

  /** One particle's entries of the arrays the job uses. */
  datatype InertialParticle = InertialParticle(position: Vec4, invMass: real, velocity: Vec4, wind: Vec4)

  /** The job's frame inputs: angular velocity, linear and angular (Euler)
    * acceleration of the frame, and the world-space scales of the two inertia kinds. */
  datatype FrameMotion = FrameMotion(
    angularVel: Vec4, inertialAccel: Vec4, eulerAccel: Vec4,
    linearInertiaScale: real, angularInertiaScale: real)

  /** A frame that neither accelerates nor rotates. */
  predicate AtRest(m: FrameMotion)
  {
    m.angularVel == Zero4 && m.inertialAccel == Zero4 && m.eulerAccel == Zero4
  }

  function Extend(v: Vec3): Vec4 { Vec4(v.x, v.y, v.z, 0.0) }

  /** The cross product is orthogonal to both of its factors. */
  lemma CrossOrthogonal(a: Vec3, b: Vec3)
    ensures Dot3(Cross3(a, b), a) == 0.0 && Dot3(Cross3(a, b), b) == 0.0
  {
  }

  /** `euler + coriolis + centrifugal` at a particle: ω̇ × x + 2 ω × v + ω × (ω × x),
    * with a zero w component. Each term is orthogonal to what it is taken against:
    * the Euler term to the position, the Coriolis term to the velocity and the
    * centrifugal term to the angular velocity. */
  function AngularAccel(m: FrameMotion, position: Vec4, velocity: Vec4): (r: Vec4)
    ensures r.w == 0.0
    ensures m.angularVel == Zero4 && m.eulerAccel == Zero4 ==> r == Zero4
  {
    var w := Xyz(m.angularVel);
    var euler := Extend(Cross3(Xyz(m.eulerAccel), Xyz(position)));
    var centrifugal := Extend(Cross3(w, Cross3(w, Xyz(position))));
    var coriolis := Scale4(Extend(Cross3(w, Xyz(velocity))), 2.0);
    Add4(Add4(euler, coriolis), centrifugal)
  }

  /** The three terms of the angular acceleration are each orthogonal to the vector
    * they are taken against: Euler to the position, Coriolis to the velocity,
    * centrifugal to the angular velocity. */
  lemma AngularTermsOrthogonal(m: FrameMotion, position: Vec4, velocity: Vec4)
    ensures Dot3(Cross3(Xyz(m.eulerAccel), Xyz(position)), Xyz(position)) == 0.0
    ensures Dot3(Cross3(Xyz(m.angularVel), Xyz(velocity)), Xyz(velocity)) == 0.0
    ensures Dot3(Cross3(Xyz(m.angularVel), Cross3(Xyz(m.angularVel), Xyz(position))), Xyz(m.angularVel)) == 0.0
  {
    CrossOrthogonal(Xyz(m.eulerAccel), Xyz(position));
    CrossOrthogonal(Xyz(m.angularVel), Xyz(velocity));
    CrossOrthogonal(Xyz(m.angularVel), Cross3(Xyz(m.angularVel), Xyz(position)));
  }

  /** One particle of the job. `frameWind` maps a solver-space position to the
    * frame's velocity there, expressed back in solver space (the inertial frame's
    * transforms are not part of this model). */
  function InertiaApplied(q: InertialParticle, m: FrameMotion, deltaTime: real,
                          ambientWind: Vec4, inertialWind: bool, frameWind: Vec4 -> Vec4): (r: InertialParticle)
    ensures r.position == q.position && r.invMass == q.invMass
    ensures q.invMass <= 0.0 ==> r.velocity == q.velocity
    ensures q.invMass > 0.0 ==> r.velocity.w == q.velocity.w - m.inertialAccel.w * m.linearInertiaScale * deltaTime
    ensures AtRest(m) ==> r.velocity == q.velocity
    ensures !inertialWind ==> r.wind == ambientWind
    ensures inertialWind ==> Add4(r.wind, frameWind(q.position)) == ambientWind
  {
    var velocity :=
      if q.invMass > 0.0 then
        var accel := Add4(Scale4(m.inertialAccel, m.linearInertiaScale),
                          Scale4(AngularAccel(m, q.position, q.velocity), m.angularInertiaScale));
        Sub4(q.velocity, Scale4(accel, deltaTime))
      else q.velocity;
    var wind := if inertialWind then Sub4(ambientWind, frameWind(q.position)) else ambientWind;
    q.(velocity := velocity, wind := wind)
  }

  function InertiaJob(m: FrameMotion, deltaTime: real, ambientWind: Vec4, inertialWind: bool,
                      frameWind: Vec4 -> Vec4): InertialParticle -> InertialParticle
  {
    (q: InertialParticle) => InertiaApplied(q, m, deltaTime, ambientWind, inertialWind, frameWind)
  }

  /** The job, run sequentially over the active particles (no index listed twice). */
  method ApplyInertialForces(a: array<InertialParticle>, activeParticles: seq<int>, m: FrameMotion,
                             deltaTime: real, ambientWind: Vec4, inertialWind: bool, frameWind: Vec4 -> Vec4)
    requires Distinct(activeParticles)
    requires forall k :: 0 <= k < |activeParticles| ==> 0 <= activeParticles[k] < a.Length
    modifies a
    ensures a[..] == MappedAt(old(a[..]), activeParticles, InertiaJob(m, deltaTime, ambientWind, inertialWind, frameWind))
  {
    ApplyAt(a, activeParticles, InertiaJob(m, deltaTime, ambientWind, inertialWind, frameWind));
  }

  /** In a frame at rest the job only resets the wind: with inertial wind off every
    * active particle's wind becomes the ambient wind and nothing else changes. */
  lemma InertialForcesAtRest(s: seq<InertialParticle>, activeParticles: seq<int>, m: FrameMotion,
                             deltaTime: real, ambientWind: Vec4, frameWind: Vec4 -> Vec4, j: int)
    requires AtRest(m) && 0 <= j < |s|
    ensures var r := MappedAt(s, activeParticles, InertiaJob(m, deltaTime, ambientWind, false, frameWind));
      && (j in activeParticles ==> r[j] == s[j].(wind := ambientWind))
      && (j !in activeParticles ==> r[j] == s[j])
  {
    MappedAtIndex(s, activeParticles, InertiaJob(m, deltaTime, ambientWind, false, frameWind), j);
  }

  /** Particles of infinite mass (inverse mass 0 or below) keep their velocity, and
    * inactive particles are untouched. */
  lemma InertialForcesSparePinned(s: seq<InertialParticle>, activeParticles: seq<int>, m: FrameMotion,
                                  deltaTime: real, ambientWind: Vec4, inertialWind: bool,
                                  frameWind: Vec4 -> Vec4, j: int)
    requires 0 <= j < |s|
    ensures var r := MappedAt(s, activeParticles, InertiaJob(m, deltaTime, ambientWind, inertialWind, frameWind));
      && (s[j].invMass <= 0.0 ==> r[j].velocity == s[j].velocity && r[j].position == s[j].position)
      && (j !in activeParticles ==> r[j] == s[j])
  {
    MappedAtIndex(s, activeParticles, InertiaJob(m, deltaTime, ambientWind, inertialWind, frameWind), j);
  }
}
