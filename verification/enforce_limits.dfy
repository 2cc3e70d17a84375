/** `EnforceLimitsJob`: every active particle's position and previous position are
  * clamped into the solver's boundary box, and an isolated particle that was on or
  * past the boundary loses all its life when off-limits particles are killed. */
module EnforceLimits {
  import opened Common

  /** `BurstAabb`: an axis-aligned box; only the xyz components are used here. */
  datatype Aabb = Aabb(min: Vec4, max: Vec4)

  /** One particle's entries of the arrays the job uses; `phase` is the particle's
    * phase word as its 32 bits. */
  datatype LimitParticle = LimitParticle(position: Vec4, prevPosition: Vec4, life: real, phase: bv32)

  /** A box whose lower corner is below its upper corner on every axis. */
  predicate WellFormed(box: Aabb)
  {
    box.min.x <= box.max.x && box.min.y <= box.max.y && box.min.z <= box.max.z
  }

  /** The xyz of `p` lie in the closed box. */
  predicate InClosedBox(p: Vec4, box: Aabb)
  {
    && box.min.x <= p.x <= box.max.x
    && box.min.y <= p.y <= box.max.y
    && box.min.z <= p.z <= box.max.z
  }

  /** The xyz of `p` lie strictly inside the box. */
  predicate StrictlyInside(p: Vec4, box: Aabb)
  {
    && box.min.x < p.x < box.max.x
    && box.min.y < p.y < box.max.y
    && box.min.z < p.z < box.max.z
  }

  /** `math.step(a, b)`: 1 where `b >= a`, 0 elsewhere. */
  function Step(a: real, b: real): (r: real)
    ensures r == 1.0 <==> b >= a
    ensures r == 0.0 || r == 1.0
  {
    if b >= a then 1.0 else 0.0
  }

  /** `math.any(step(pos, min).xyz + step(max, pos).xyz)`: some component of the sum of
    * the two step vectors is non-zero. */
  predicate Outside(pos: Vec4, box: Aabb)
  {
    || Step(pos.x, box.min.x) + Step(box.max.x, pos.x) != 0.0
    || Step(pos.y, box.min.y) + Step(box.max.y, pos.y) != 0.0
    || Step(pos.z, box.min.z) + Step(box.max.z, pos.z) != 0.0
  }

  /** The off-limits test is inclusive: a particle counts as outside exactly when it is
    * not strictly inside the box, so one lying on a face of the box is outside. */
  lemma OutsideIffNotStrictlyInside(pos: Vec4, box: Aabb)
    ensures Outside(pos, box) <==> !StrictlyInside(pos, box)
  {
  }

  /** `pos.xyz = math.clamp(pos, min, max).xyz`: xyz clamped, w kept. */
  function ClampXyz(p: Vec4, box: Aabb): (r: Vec4)
    ensures r.w == p.w
    ensures WellFormed(box) ==> InClosedBox(r, box)
    ensures InClosedBox(p, box) ==> r == p
  {
    Vec4(BurstClamp(p.x, box.min.x, box.max.x),
         BurstClamp(p.y, box.min.y, box.max.y),
         BurstClamp(p.z, box.min.z, box.max.z),
         p.w)
  }

  /** One particle of the job. `isolated` is the isolated-particle bit of the phase
    * word, which is not part of this model and is given as a parameter. */
  function Limited(q: LimitParticle, box: Aabb, killOffLimits: bool, isolated: bv32): (r: LimitParticle)
    ensures r.phase == q.phase
    ensures r.position.w == q.position.w && r.prevPosition.w == q.prevPosition.w
    ensures WellFormed(box) ==> InClosedBox(r.position, box) && InClosedBox(r.prevPosition, box)
    ensures InClosedBox(q.position, box) ==> r.position == q.position
    ensures InClosedBox(q.prevPosition, box) ==> r.prevPosition == q.prevPosition
    ensures r.life == 0.0 || r.life == q.life
    ensures r.life != q.life ==>
      q.phase & isolated != 0 && killOffLimits && !StrictlyInside(q.position, box)
    ensures q.phase & isolated != 0 && killOffLimits && !StrictlyInside(q.position, box) ==> r.life == 0.0
  {
    OutsideIffNotStrictlyInside(q.position, box);
    var outside := Outside(q.position, box);
    var life := if q.phase & isolated != 0 then (if outside && killOffLimits then 0.0 else q.life) else q.life;
    LimitParticle(ClampXyz(q.position, box), ClampXyz(q.prevPosition, box), life, q.phase)
  }

  /** Enforcing the limits twice is the same as enforcing them once: the clamped
    * positions stay put, and a particle killed the first time is on the boundary the
    * second time, where it is killed again. Needs a well-formed box: with an inverted
    * box the clamp's result is itself moved by a second clamp. */
  lemma LimitedIdempotent(q: LimitParticle, box: Aabb, killOffLimits: bool, isolated: bv32)
    requires WellFormed(box)
    ensures Limited(Limited(q, box, killOffLimits, isolated), box, killOffLimits, isolated)
         == Limited(q, box, killOffLimits, isolated)
  {
    var once := Limited(q, box, killOffLimits, isolated);
    if StrictlyInside(q.position, box) {
      assert once.position == q.position;
    }
  }

  function LimitJob(box: Aabb, killOffLimits: bool, isolated: bv32): LimitParticle -> LimitParticle
  {
    (q: LimitParticle) => Limited(q, box, killOffLimits, isolated)
  }

  /** The job, run sequentially over the active particles (no index listed twice). */
  method EnforceParticleLimits(a: array<LimitParticle>, activeParticles: seq<int>,
                               killOffLimits: bool, box: Aabb, isolated: bv32)
    requires Distinct(activeParticles)
    requires forall k :: 0 <= k < |activeParticles| ==> 0 <= activeParticles[k] < a.Length
    modifies a
    ensures a[..] == MappedAt(old(a[..]), activeParticles, LimitJob(box, killOffLimits, isolated))
  {
    ApplyAt(a, activeParticles, LimitJob(box, killOffLimits, isolated));
  }

  /** After the job every active particle lies in a well-formed box and keeps its
    * life unless it is isolated, killing is on and it was not strictly inside;
    * inactive particles are untouched. */
  lemma EnforceLimitsEffect(s: seq<LimitParticle>, activeParticles: seq<int>,
                            killOffLimits: bool, box: Aabb, isolated: bv32, j: int)
    requires WellFormed(box) && 0 <= j < |s|
    ensures var r := MappedAt(s, activeParticles, LimitJob(box, killOffLimits, isolated));
      && (j in activeParticles ==>
            && InClosedBox(r[j].position, box) && InClosedBox(r[j].prevPosition, box)
            && (r[j].life != s[j].life ==> s[j].phase & isolated != 0 && killOffLimits))
      && (j !in activeParticles ==> r[j] == s[j])
  {
    MappedAtIndex(s, activeParticles, LimitJob(box, killOffLimits, isolated), j);
  }

  /** Running the job a second time over the same particles changes nothing. */
  lemma EnforceLimitsIdempotent(s: seq<LimitParticle>, activeParticles: seq<int>,
                                killOffLimits: bool, box: Aabb, isolated: bv32)
    requires WellFormed(box)
    ensures var f := LimitJob(box, killOffLimits, isolated);
      MappedAt(MappedAt(s, activeParticles, f), activeParticles, f) == MappedAt(s, activeParticles, f)
  {
    var f := LimitJob(box, killOffLimits, isolated);
    forall q ensures f(f(q)) == f(q) {
      LimitedIdempotent(q, box, killOffLimits, isolated);
    }
    MappedAtIdempotent(s, activeParticles, f);
  }
}
