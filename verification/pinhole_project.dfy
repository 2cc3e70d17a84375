/** The projection and apply jobs of the Burst pinhole batch
  * (`PinholeConstraintsBatchJob` and `ApplyPinholeConstraintsBatchJob` in
  * BurstPinholeConstraintsBatch.cs).
  *
  * The projection turns each active constraint into a Lagrange multiplier increment and
  * accumulates a position delta and a count on both particles of its edge; the apply job
  * moves each such particle by the average of its accumulated deltas, scaled by the
  * successive over-relaxation factor, and resets the accumulators.
  *
  * Geometry the model does not compute is an input per constraint: the length of the
  * gradient between the interpolated point on the edge and the predicted pin position
  * (`distance`), the gradient direction divided by `distance + epsilon` (`direction`), the
  * rotational inverse mass of the rigidbody at the pin before mass splitting
  * (`rotationalInvMass`) and `BaryScale` of the coordinate (`baryScale`). */
module BurstPinholeProjection {
  import opened Common
  import BurstPinhole

  /** The part of a rigidbody the projection reads: inverse mass and the number of
    * constraints sharing it (set by `Initialize`). */
  datatype Body = Body(inverseMass: real, constraintCount: int)

  datatype ProjectJob = ProjectJob(colliderIndices: seq<int>, edgeIndices: seq<int>, edgeMus: seq<real>,
                                   parameters: seq<real>, invMasses: seq<real>, deformableEdges: seq<int>,
                                   shapeBodies: seq<int>, bodies: seq<Body>,
                                   distance: seq<real>, direction: seq<Vec4>, rotationalInvMass: seq<real>,
                                   baryScale: seq<real>, substepTime: real, substepsToEnd: real, eps: real,
                                   count: nat)

  predicate Active(job: ProjectJob, i: nat)
    requires i < |job.edgeIndices| && i < |job.colliderIndices|
  {
    !BurstPinhole.Ignored(job.edgeIndices[i], job.colliderIndices[i])
  }

  /** Sizes agree, and every active constraint names an existing edge, shape and (when the
    * shape has one) rigidbody, with non-negative masses and compliance. */
  predicate ProjectValid(job: ProjectJob)
  {
    && job.count <= |job.colliderIndices| && job.count <= |job.edgeIndices| && job.count <= |job.edgeMus|
    && 5 * job.count <= |job.parameters| && job.count <= |job.distance| && job.count <= |job.direction|
    && job.count <= |job.rotationalInvMass| && job.count <= |job.baryScale|
    && job.substepTime > 0.0 && job.substepsToEnd > 0.0 && job.eps > 0.0
    && (forall p :: 0 <= p < |job.invMasses| ==> job.invMasses[p] >= 0.0)
    && (forall k :: 0 <= k < |job.deformableEdges| ==> 0 <= job.deformableEdges[k] < |job.invMasses|)
    && (forall b :: 0 <= b < |job.bodies| ==> job.bodies[b].inverseMass >= 0.0 && job.bodies[b].constraintCount >= 0)
    && EdgesKnown(job.edgeIndices, job.deformableEdges, job.count)
    && forall i :: 0 <= i < job.count && Active(job, i) ==> ConstraintValid(job, i)
  }

  predicate ConstraintValid(job: ProjectJob, i: nat)
    requires i < |job.edgeIndices| && i < |job.colliderIndices|
  {
    && i < |job.edgeMus| && 5 * i < |job.parameters| && i < |job.rotationalInvMass|
    && 2 * job.edgeIndices[i] + 1 < |job.deformableEdges| && job.edgeIndices[i] >= 0
    && 0 <= job.colliderIndices[i] < |job.shapeBodies|
    && job.shapeBodies[job.colliderIndices[i]] < |job.bodies|
    && job.parameters[5 * i] >= 0.0
    && job.rotationalInvMass[i] >= 0.0
  }

  function P1(job: ProjectJob, i: nat): int
    requires ProjectValid(job) && i < job.count && Active(job, i)
  {
    job.deformableEdges[2 * job.edgeIndices[i]]
  }

  function P2(job: ProjectJob, i: nat): int
    requires ProjectValid(job) && i < job.count && Active(job, i)
  {
    job.deformableEdges[2 * job.edgeIndices[i] + 1]
  }

  lemma NonNegativeQuotient(a: real, b: real)
    requires a >= 0.0 && b > 0.0
    ensures a / b >= 0.0
  {
  }

  /** Compliance divided by the squared substep time. */
  function Compliance(job: ProjectJob, i: nat): (c: real)
    requires ProjectValid(job) && i < job.count && Active(job, i)
    ensures c >= 0.0
  {
    assert ConstraintValid(job, i);
    NonNegativeQuotient(job.parameters[5 * i], job.substepTime);
    NonNegativeQuotient(job.parameters[5 * i] / job.substepTime, job.substepTime);
    job.parameters[5 * i] / job.substepTime / job.substepTime
  }

  /** Inverse mass of the point on the edge plus the rigidbody's linear and angular inverse
    * masses, both multiplied by its constraint count (mass splitting); a shape without
    * rigidbody contributes nothing. It is non-negative when the point lies on the edge. */
  function EffectiveInvMass(job: ProjectJob, i: nat): (w: real)
    requires ProjectValid(job) && i < job.count && Active(job, i)
    ensures 0.0 <= job.edgeMus[i] <= 1.0 ==> w >= 0.0
  {
    var mix := job.edgeMus[i];
    var w1 := job.invMasses[P1(job, i)];
    var w2 := job.invMasses[P2(job, i)];
    assert Lerp(w1, w2, mix) == w1 * (1.0 - mix) + w2 * mix;
    assert 0.0 <= mix <= 1.0 ==> w1 * (1.0 - mix) >= 0.0 && w2 * mix >= 0.0;
    var b := job.shapeBodies[job.colliderIndices[i]];
    assert b >= 0 ==> job.bodies[b].inverseMass * job.bodies[b].constraintCount as real >= 0.0;
    assert b >= 0 ==> job.rotationalInvMass[i] * job.bodies[b].constraintCount as real >= 0.0;
    Lerp(w1, w2, mix)
      + (if b >= 0 then job.bodies[b].inverseMass * job.bodies[b].constraintCount as real else 0.0)
      + (if b >= 0 then job.rotationalInvMass[i] * job.bodies[b].constraintCount as real else 0.0)
  }

  /** The denominator of constraint i's multiplier increment. */
  function Denominator(job: ProjectJob, i: nat): real
    requires ProjectValid(job) && i < job.count && Active(job, i)
  {
    EffectiveInvMass(job, i) + Compliance(job, i) + job.eps
  }

  /** No active constraint's increment divides by zero. */
  predicate Solvable(job: ProjectJob)
    requires ProjectValid(job)
  {
    forall i {:trigger Denominator(job, i)} :: 0 <= i < job.count && Active(job, i) ==> Denominator(job, i) != 0.0
  }

  /** When every mix places its point on the edge, the denominators are at least epsilon,
    * so the job is solvable. */
  lemma MixesOnEdgeSolvable(job: ProjectJob)
    requires ProjectValid(job)
    requires forall i :: 0 <= i < job.count ==> 0.0 <= job.edgeMus[i] <= 1.0
    ensures Solvable(job)
    ensures forall i :: 0 <= i < job.count && Active(job, i) ==> Denominator(job, i) >= job.eps
  {
  }

  /** The multiplier increment of constraint i whose accumulated multiplier is `lambda`. */
  function DeltaLambda(job: ProjectJob, i: nat, lambda: real): real
    requires ProjectValid(job) && i < job.count && Active(job, i) && Denominator(job, i) != 0.0
  {
    (-job.distance[i] - Compliance(job, i) * lambda) / Denominator(job, i)
  }

  /** The multiplier of constraint i after the projection. */
  function ProjectedLambda(job: ProjectJob, i: nat, lambda: real): real
    requires ProjectValid(job) && Solvable(job) && i < job.count
  {
    if Active(job, i) then lambda + DeltaLambda(job, i, lambda) else lambda
  }

  /** The delta constraint i adds to its first (`second == false`) or second endpoint
    * for multiplier increment `dl`: the correction `dl * direction`, weighted by the
    * endpoint's inverse mass and barycentric weight and divided by the fraction of the
    * substep left. */
  function Correction(job: ProjectJob, i: nat, dl: real, second: bool): Vec4
    requires ProjectValid(job) && i < job.count && Active(job, i)
  {
    var mix := job.edgeMus[i];
    var p := if second then P2(job, i) else P1(job, i);
    var weight := if second then mix else 1.0 - mix;
    Scale4(job.direction[i], dl * job.baryScale[i] * job.invMasses[p] * weight * (1.0 / job.substepsToEnd))
  }

  /** The delta active constraint i adds to particle p for increment `dl`: the sum of the
    * corrections of the endpoints that are p. */
  function EdgeDelta(job: ProjectJob, i: nat, dl: real, p: int): Vec4
    requires ProjectValid(job) && i < job.count && Active(job, i)
  {
    Add4(if P1(job, i) == p then Correction(job, i, dl, false) else Zero4,
         if P2(job, i) == p then Correction(job, i, dl, true) else Zero4)
  }

  /** The multiplier increments of all constraints, for accumulated multipliers
    * `lambdas` (0 for an inactive constraint, which the job skips). */
  function Increments(job: ProjectJob, lambdas: seq<real>): (dls: seq<real>)
    requires ProjectValid(job) && Solvable(job) && job.count <= |lambdas|
    ensures |dls| == job.count
    ensures forall i :: 0 <= i < job.count && Active(job, i) ==> dls[i] == DeltaLambda(job, i, lambdas[i])
  {
    seq(job.count, i requires 0 <= i < job.count => if Active(job, i) then DeltaLambda(job, i, lambdas[i]) else 0.0)
  }

  /** The delta constraint i adds to particle p when its multiplier increment is
    * `dls[i]`; nothing for an inactive constraint. */
  function Contribution(job: ProjectJob, dls: seq<real>, i: nat, p: int): Vec4
    requires ProjectValid(job) && i < job.count && i < |dls|
  {
    if !Active(job, i) then Zero4 else EdgeDelta(job, i, dls[i], p)
  }

  /** How many endpoints of constraint i are particle p (0 for an inactive constraint). */
  function EndpointHits(job: ProjectJob, i: nat, p: int): nat
    requires ProjectValid(job) && i < job.count
  {
    (if Active(job, i) && P1(job, i) == p then 1 else 0) + (if Active(job, i) && P2(job, i) == p then 1 else 0)
  }

  /** Sum of the deltas the first n constraints add to particle p. */
  function DeltaSum(job: ProjectJob, dls: seq<real>, p: int, n: nat): Vec4
    requires ProjectValid(job) && n <= job.count && n <= |dls|
  {
    if n == 0 then Zero4 else Add4(DeltaSum(job, dls, p, n - 1), Contribution(job, dls, n - 1, p))
  }

  /** Number of times particle p is an endpoint of one of the first n active constraints. */
  function EndpointCount(job: ProjectJob, p: int, n: nat): nat
    requires ProjectValid(job) && n <= job.count
  {
    if n == 0 then 0
    else
      EndpointCount(job, p, n - 1) + EndpointHits(job, n - 1, p)
  }

  /** `PinholeConstraintsBatchJob` over all constraints. Each active constraint's
    * multiplier grows by its increment; each particle's delta grows by the sum of the
    * corrections of the constraints it belongs to and its count by how many such
    * endpoints it is. The impulse on the rigidbody is left out. */
  method Project(job: ProjectJob, lambdas: array<real>, deltas: array<Vec4>, counts: array<int>)
    requires ProjectValid(job) && Solvable(job) && job.count <= lambdas.Length
    requires forall k :: 0 <= k < |job.deformableEdges| ==> job.deformableEdges[k] < deltas.Length && job.deformableEdges[k] < counts.Length
    modifies lambdas, deltas, counts
    ensures forall i :: 0 <= i < job.count ==> lambdas[i] == ProjectedLambda(job, i, old(lambdas[i]))
    ensures forall i :: job.count <= i < lambdas.Length ==> lambdas[i] == old(lambdas[i])
    ensures forall p :: 0 <= p < deltas.Length ==> deltas[p] == Add4(old(deltas[p]), DeltaSum(job, Increments(job, old(lambdas[..])), p, job.count))
    ensures forall p :: 0 <= p < counts.Length ==> counts[p] == old(counts[p]) + EndpointCount(job, p, job.count)
  {
    ghost var lambdas0, deltas0, counts0 := lambdas[..], deltas[..], counts[..];
    ghost var dls := Increments(job, lambdas0);
    var i := 0;
    while i < job.count
      invariant 0 <= i <= job.count
      invariant ProjectedPrefix(job, i, lambdas[..], deltas[..], counts[..], lambdas0, dls, deltas0, counts0)
    {
      ProjectNext(job, i, lambdas, deltas, counts, lambdas0, dls, deltas0, counts0);
      i := i + 1;
    }
    ProjectedAll(job, lambdas[..], deltas[..], counts[..], lambdas0, deltas0, counts0);
  }

  /** The arrays after the first n constraints are projected, against their initial
    * contents and the increments `dls`. */
  ghost predicate ProjectedPrefix(job: ProjectJob, n: nat, lambdas: seq<real>, deltas: seq<Vec4>, counts: seq<int>,
                                  lambdas0: seq<real>, dls: seq<real>, deltas0: seq<Vec4>, counts0: seq<int>)
    requires ProjectValid(job) && n <= job.count && |dls| == job.count
  {
    && |lambdas| == |lambdas0| && |deltas| == |deltas0| && |counts| == |counts0| && job.count <= |lambdas|
    && (forall j :: 0 <= j < n ==> lambdas[j] == lambdas0[j] + dls[j])
    && (forall j :: n <= j < |lambdas| ==> lambdas[j] == lambdas0[j])
    && (forall p :: 0 <= p < |deltas| ==> deltas[p] == Add4(deltas0[p], DeltaSum(job, dls, p, n)))
    && (forall p :: 0 <= p < |counts| ==> counts[p] == counts0[p] + EndpointCount(job, p, n))
  }

  /** Once every constraint is projected, each multiplier is its projection. */
  lemma ProjectedAll(job: ProjectJob, lambdas: seq<real>, deltas: seq<Vec4>, counts: seq<int>,
                     lambdas0: seq<real>, deltas0: seq<Vec4>, counts0: seq<int>)
    requires ProjectValid(job) && Solvable(job) && job.count <= |lambdas0|
    requires ProjectedPrefix(job, job.count, lambdas, deltas, counts, lambdas0, Increments(job, lambdas0), deltas0, counts0)
    ensures forall i :: 0 <= i < job.count ==> lambdas[i] == ProjectedLambda(job, i, lambdas0[i])
    ensures forall i :: job.count <= i < |lambdas| ==> lambdas[i] == lambdas0[i]
    ensures forall p :: 0 <= p < |deltas| ==> deltas[p] == Add4(deltas0[p], DeltaSum(job, Increments(job, lambdas0), p, job.count))
    ensures forall p :: 0 <= p < |counts| ==> counts[p] == counts0[p] + EndpointCount(job, p, job.count)
  {
  }

  /** One step of `Project`'s loop: constraint i is projected and every running sum
    * grows by its contribution. */
  method ProjectNext(job: ProjectJob, i: nat, lambdas: array<real>, deltas: array<Vec4>, counts: array<int>,
                     ghost lambdas0: seq<real>, ghost dls: seq<real>, ghost deltas0: seq<Vec4>, ghost counts0: seq<int>)
    requires ProjectValid(job) && Solvable(job) && i < job.count && job.count <= |lambdas0|
    requires dls == Increments(job, lambdas0)
    requires forall k :: 0 <= k < |job.deformableEdges| ==> job.deformableEdges[k] < deltas.Length && job.deformableEdges[k] < counts.Length
    requires ProjectedPrefix(job, i, lambdas[..], deltas[..], counts[..], lambdas0, dls, deltas0, counts0)
    modifies lambdas, deltas, counts
    ensures ProjectedPrefix(job, i + 1, lambdas[..], deltas[..], counts[..], lambdas0, dls, deltas0, counts0)
  {
    ghost var before := deltas[..];
    ProjectOne(job, i, lambdas, deltas, counts, lambdas0, dls);
    DeltaSumStep(job, dls, deltas0, before, deltas[..], i);
  }

  /** One more constraint's contribution extends every particle's running sum. */
  lemma DeltaSumStep(job: ProjectJob, dls: seq<real>, start: seq<Vec4>, before: seq<Vec4>, after: seq<Vec4>, i: nat)
    requires ProjectValid(job) && i < job.count && |dls| == job.count
    requires |start| == |before| == |after|
    requires forall p :: 0 <= p < |before| ==> before[p] == Add4(start[p], DeltaSum(job, dls, p, i))
    requires forall p :: 0 <= p < |after| ==> after[p] == Add4(before[p], Contribution(job, dls, i, p))
    ensures forall p :: 0 <= p < |after| ==> after[p] == Add4(start[p], DeltaSum(job, dls, p, i + 1))
  {
    forall p | 0 <= p < |after|
      ensures after[p] == Add4(start[p], DeltaSum(job, dls, p, i + 1))
    {
      Add4Associative(start[p], DeltaSum(job, dls, p, i), Contribution(job, dls, i, p));
    }
  }

  /** `PinholeConstraintsBatchJob.Execute(i)`. */
  method ProjectOne(job: ProjectJob, i: nat, lambdas: array<real>, deltas: array<Vec4>, counts: array<int>,
                    ghost lambdas0: seq<real>, ghost dls: seq<real>)
    requires ProjectValid(job) && Solvable(job) && i < job.count && job.count <= lambdas.Length && |lambdas0| == lambdas.Length
    requires lambdas[i] == lambdas0[i] && |dls| == job.count && (Active(job, i) ==> dls[i] == DeltaLambda(job, i, lambdas0[i]))
    requires forall k :: 0 <= k < |job.deformableEdges| ==> job.deformableEdges[k] < deltas.Length && job.deformableEdges[k] < counts.Length
    modifies lambdas, deltas, counts
    ensures lambdas[i] == ProjectedLambda(job, i, lambdas0[i])
    ensures forall j :: 0 <= j < lambdas.Length && j != i ==> lambdas[j] == old(lambdas[j])
    ensures forall p :: 0 <= p < deltas.Length ==> deltas[p] == Add4(old(deltas[p]), Contribution(job, dls, i, p))
    ensures forall p :: 0 <= p < counts.Length ==> counts[p] == old(counts[p]) + EndpointHits(job, i, p)
  {
    var edgeIndex := job.edgeIndices[i];
    var colliderIndex := job.colliderIndices[i];
    if edgeIndex < 0 || colliderIndex < 0 {
      return;
    }
    assert Active(job, i);
    var lambda := DeltaLambda(job, i, lambdas[i]);
    lambdas[i] := lambdas[i] + lambda;
    AccumulateEdge(job, i, lambda, deltas, counts);
  }

  /** Both endpoint updates of `PinholeConstraintsBatchJob.Execute(i)`. */
  method AccumulateEdge(job: ProjectJob, i: nat, dl: real, deltas: array<Vec4>, counts: array<int>)
    requires ProjectValid(job) && i < job.count && Active(job, i)
    requires forall k :: 0 <= k < |job.deformableEdges| ==> job.deformableEdges[k] < deltas.Length && job.deformableEdges[k] < counts.Length
    modifies deltas, counts
    ensures forall p :: 0 <= p < deltas.Length ==> deltas[p] == Add4(old(deltas[p]), EdgeDelta(job, i, dl, p))
    ensures forall p :: 0 <= p < counts.Length ==> counts[p] == old(counts[p]) + EndpointHits(job, i, p)
  {
    var p1 := P1(job, i);
    var p2 := P2(job, i);
    var c1 := Correction(job, i, dl, false);
    var c2 := Correction(job, i, dl, true);
    ghost var deltas0 := deltas[..];
    Accumulate(deltas, counts, p1, c1);
    ghost var deltas1 := deltas[..];
    Accumulate(deltas, counts, p2, c2);
    forall p | 0 <= p < deltas.Length
      ensures deltas[p] == Add4(deltas0[p], EdgeDelta(job, i, dl, p))
    {
      var e1 := if p1 == p then c1 else Zero4;
      var e2 := if p2 == p then c2 else Zero4;
      assert deltas1[p] == Add4(deltas0[p], e1);
      assert deltas[p] == Add4(deltas1[p], e2);
      Add4Associative(deltas0[p], e1, e2);
    }
  }

  /** `deltas[p] += d; counts[p]++`. */
  method Accumulate(deltas: array<Vec4>, counts: array<int>, p: int, d: Vec4)
    requires 0 <= p < deltas.Length && p < counts.Length
    modifies deltas, counts
    ensures forall q :: 0 <= q < deltas.Length ==> deltas[q] == if q == p then Add4(old(deltas[q]), d) else old(deltas[q])
    ensures forall q :: 0 <= q < counts.Length ==> counts[q] == if q == p then old(counts[q]) + 1 else old(counts[q])
  {
    deltas[p] := Add4(deltas[p], d);
    counts[p] := counts[p] + 1;
  }

  /** The accumulated multiplier of a constraint never turns positive: starting from a
    * non-positive value, the projection keeps it non-positive (the constraint only pulls
    * the rope towards the pin). With zero compliance the increment is exactly minus the
    * distance over the effective inverse mass. */
  lemma LambdaStaysNonPositive(job: ProjectJob, i: nat, lambda: real)
    requires ProjectValid(job) && Solvable(job) && i < job.count && lambda <= 0.0 && job.distance[i] >= 0.0
    requires 0.0 <= job.edgeMus[i] <= 1.0
    ensures ProjectedLambda(job, i, lambda) <= 0.0
    ensures Active(job, i) && job.parameters[5 * i] == 0.0 ==>
      DeltaLambda(job, i, lambda) == -job.distance[i] / (EffectiveInvMass(job, i) + job.eps)
  {
    if Active(job, i) {
      var a := Compliance(job, i);
      var w := EffectiveInvMass(job, i);
      var den := Denominator(job, i);
      assert den > 0.0;
      var dl := DeltaLambda(job, i, lambda);
      assert dl * den == -job.distance[i] - a * lambda;
      assert (lambda + dl) * den == lambda * (w + job.eps) - job.distance[i];
      assert lambda * (w + job.eps) <= 0.0;
      if job.parameters[5 * i] == 0.0 {
        assert a == 0.0;
      }
    }
  }

  /** Only active constraints touch the accumulators: a particle gains a count only as an
    * endpoint of an active constraint, and the apply job visits every such particle. */
  lemma {:induction false} CountedParticlesAreTouched(job: ProjectJob, p: int, n: nat)
    requires ProjectValid(job) && n <= job.count
    ensures EndpointCount(job, p, n) > 0 ==> Touched(job.edgeIndices, job.deformableEdges, n, p)
  {
    if n > 0 {
      CountedParticlesAreTouched(job, p, n - 1);
      if EndpointCount(job, p, n - 1) > 0 {
        var j :| 0 <= j < n - 1 && Endpoint(job.edgeIndices, job.deformableEdges, j, p);
        assert 0 <= j < n && Endpoint(job.edgeIndices, job.deformableEdges, j, p);
      } else if EndpointCount(job, p, n) > 0 {
        assert Endpoint(job.edgeIndices, job.deformableEdges, n - 1, p);
      }
    }
  }

  /** Constraint j has an edge whose particle p is one endpoint. */
  predicate Endpoint(edgeIndices: seq<int>, deformableEdges: seq<int>, j: int, p: int)
    requires 0 <= j < |edgeIndices|
    requires edgeIndices[j] >= 0 ==> 2 * edgeIndices[j] + 1 < |deformableEdges|
  {
    edgeIndices[j] >= 0 && (deformableEdges[2 * edgeIndices[j]] == p || deformableEdges[2 * edgeIndices[j] + 1] == p)
  }

  predicate EdgesKnown(edgeIndices: seq<int>, deformableEdges: seq<int>, n: nat)
  {
    n <= |edgeIndices| && forall j :: 0 <= j < n && edgeIndices[j] >= 0 ==> 2 * edgeIndices[j] + 1 < |deformableEdges|
  }

  /** Particle p is an endpoint of one of the first n constraints that has an edge. */
  predicate Touched(edgeIndices: seq<int>, deformableEdges: seq<int>, n: nat, p: int)
    requires EdgesKnown(edgeIndices, deformableEdges, n)
  {
    exists j :: 0 <= j < n && Endpoint(edgeIndices, deformableEdges, j, p)
  }

  /** Position, accumulated delta and accumulated count of one particle. */
  datatype Particle = Particle(position: Vec4, delta: Vec4, count: int)

  /** What the apply job does to one particle: a touched particle with a positive count
    * moves by its average delta times the relaxation factor, and its accumulators reset. */
  function ApplyParticle(touched: bool, s: Particle, sorFactor: real): Particle
  {
    if touched && s.count > 0 then Particle(Add4(s.position, Scale4(s.delta, sorFactor / s.count as real)), Zero4, 0)
    else s
  }

  /** Applying twice is applying once: after the apply job the accumulators of every
    * touched particle are empty. */
  lemma ApplyIdempotent(touched: bool, s: Particle, sorFactor: real)
    ensures ApplyParticle(touched, ApplyParticle(touched, s, sorFactor), sorFactor) == ApplyParticle(touched, s, sorFactor)
    ensures touched ==> ApplyParticle(touched, s, sorFactor).count <= 0
  {
  }

  /** With relaxation factor 1, a particle projected by k constraints moves by the mean of
    * their deltas; when the deltas are the same correction d repeated k times, it moves by
    * exactly d. */
  lemma ApplyAverages(s: Particle, d: Vec4, k: nat)
    requires k > 0 && s.delta == Scale4(d, k as real) && s.count == k
    ensures ApplyParticle(true, s, 1.0).position == Add4(s.position, d)
  {
    assert Scale4(s.delta, 1.0 / k as real) == d;
  }

  function ParticleAt(positions: array<Vec4>, deltas: array<Vec4>, counts: array<int>, p: int): Particle
    reads positions, deltas, counts
    requires 0 <= p < positions.Length == deltas.Length == counts.Length
  {
    Particle(positions[p], deltas[p], counts[p])
  }

  /** `ApplyPinholeConstraintsBatchJob`: every particle touched by a constraint with an
    * edge is updated as `ApplyParticle` prescribes, however many constraints share it;
    * every other particle is unchanged. */
  method ApplyPins(edgeIndices: seq<int>, deformableEdges: seq<int>, positions: array<Vec4>, deltas: array<Vec4>,
                   counts: array<int>, sorFactor: real, n: nat)
    requires EdgesKnown(edgeIndices, deformableEdges, n)
    requires positions.Length == deltas.Length == counts.Length && positions != deltas
    requires forall k :: 0 <= k < |deformableEdges| ==> 0 <= deformableEdges[k] < positions.Length
    modifies positions, deltas, counts
    ensures forall p :: 0 <= p < positions.Length ==>
      ParticleAt(positions, deltas, counts, p)
        == ApplyParticle(Touched(edgeIndices, deformableEdges, n, p), old(ParticleAt(positions, deltas, counts, p)), sorFactor)
  {
    var i := 0;
    while i < n
      invariant 0 <= i <= n
      invariant forall p :: 0 <= p < positions.Length ==>
        ParticleAt(positions, deltas, counts, p)
          == ApplyParticle(Touched(edgeIndices, deformableEdges, i, p), old(ParticleAt(positions, deltas, counts, p)), sorFactor)
    {
      var edgeIndex := edgeIndices[i];
      if edgeIndex >= 0 {
        var p1 := deformableEdges[edgeIndex * 2];
        var p2 := deformableEdges[edgeIndex * 2 + 1];
        ApplyOne(positions, deltas, counts, p1, sorFactor);
        ApplyOne(positions, deltas, counts, p2, sorFactor);
      }
      forall p | 0 <= p < positions.Length
        ensures Touched(edgeIndices, deformableEdges, i + 1, p)
                <==> Touched(edgeIndices, deformableEdges, i, p) || Endpoint(edgeIndices, deformableEdges, i, p)
      {
        TouchedStep(edgeIndices, deformableEdges, i, p);
      }
      i := i + 1;
    }
  }

  /** The body of the apply loop for one endpoint. */
  method ApplyOne(positions: array<Vec4>, deltas: array<Vec4>, counts: array<int>, p: int, sorFactor: real)
    requires positions.Length == deltas.Length == counts.Length && positions != deltas && 0 <= p < positions.Length
    modifies positions, deltas, counts
    ensures ParticleAt(positions, deltas, counts, p) == ApplyParticle(true, old(ParticleAt(positions, deltas, counts, p)), sorFactor)
    ensures forall q :: 0 <= q < positions.Length && q != p ==>
      ParticleAt(positions, deltas, counts, q) == old(ParticleAt(positions, deltas, counts, q))
  {
    if counts[p] > 0 {
      positions[p] := Add4(positions[p], Scale4(deltas[p], sorFactor / counts[p] as real));
      deltas[p] := Zero4;
      counts[p] := 0;
    }
  }

  lemma TouchedStep(edgeIndices: seq<int>, deformableEdges: seq<int>, i: nat, p: int)
    requires EdgesKnown(edgeIndices, deformableEdges, i + 1)
    ensures Touched(edgeIndices, deformableEdges, i + 1, p)
            <==> Touched(edgeIndices, deformableEdges, i, p) || Endpoint(edgeIndices, deformableEdges, i, p)
  {
    if Touched(edgeIndices, deformableEdges, i + 1, p) && !Endpoint(edgeIndices, deformableEdges, i, p) {
      var j :| 0 <= j < i + 1 && Endpoint(edgeIndices, deformableEdges, j, p);
      assert j < i;
    }
  }
}
