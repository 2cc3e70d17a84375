/** The Burst pinhole constraint batch (BurstPinholeConstraintsBatch.cs): the jobs that
  * reset and count rigidbody constraints, update each pinhole's edge and coordinate,
  * project the constraint into per-particle deltas and counts, and apply them.
  *
  * Each parallel job is modelled as a sequential loop over its index range. Arrays the
  * job only reads are passed as sequences; arrays it writes are Dafny arrays. Geometry
  * that the model does not compute (edge lengths at the interpolated time, the nearest
  * point on the edge, gradient direction, rotational inverse mass, barycentric scale)
  * is an input. */
module BurstPinhole {
  import opened Common
  import opened PinholeEdgeWalk

  /** Both `UpdatePinsJob` and the projection job skip a constraint without collider or edge. */
  predicate Ignored(edge: int, collider: int)
  {
    collider < 0 || edge < 0
  }

  /** Every constraint below `n` names a known shape (or none, when negative). */
  predicate ShapesKnown(colliders: seq<int>, shapeBodies: seq<int>, n: nat)
  {
    n <= |colliders| && forall i :: 0 <= i < n ==> colliders[i] < |shapeBodies|
  }

  /** Every constraint below `n` names a known shape, and that shape's rigidbody index is
    * below `bodyCount`. */
  predicate CollidersValid(colliders: seq<int>, shapeBodies: seq<int>, bodyCount: int, n: nat)
  {
    && ShapesKnown(colliders, shapeBodies, n)
    && forall i :: 0 <= i < n ==> colliders[i] >= 0 ==> shapeBodies[colliders[i]] < bodyCount
  }

  /** Some constraint below `n` is pinned to a collider of rigidbody `b`. */
  predicate Referenced(colliders: seq<int>, shapeBodies: seq<int>, n: nat, b: int)
    requires n <= |colliders| && forall i :: 0 <= i < n ==> colliders[i] < |shapeBodies|
  {
    exists i :: 0 <= i < n && 0 <= colliders[i] && shapeBodies[colliders[i]] == b
  }

  /** Number of non-ignored constraints below `n` pinned to rigidbody `b`. */
  function PinsOnBody(colliders: seq<int>, edgeIndices: seq<int>, shapeBodies: seq<int>, b: int, n: nat): nat
    requires n <= |edgeIndices| && n <= |colliders|
    requires forall i :: 0 <= i < n ==> colliders[i] < |shapeBodies|
  {
    if n == 0 then 0
    else
      PinsOnBody(colliders, edgeIndices, shapeBodies, b, n - 1)
      + (if !Ignored(edgeIndices[n - 1], colliders[n - 1]) && shapeBodies[colliders[n - 1]] == b then 1 else 0)
  }

  /** `ClearPinsJob`: zero the constraint count of every rigidbody a constraint is pinned to. */
  method ClearPins(colliders: seq<int>, shapeBodies: seq<int>, constraintCount: array<int>, n: nat)
    requires CollidersValid(colliders, shapeBodies, constraintCount.Length, n)
    modifies constraintCount
    ensures forall b :: 0 <= b < constraintCount.Length ==>
      constraintCount[b] == if Referenced(colliders, shapeBodies, n, b) then 0 else old(constraintCount[b])
  {
    var i := 0;
    while i < n
      invariant 0 <= i <= n
      invariant forall b :: 0 <= b < constraintCount.Length ==>
        constraintCount[b] == if Referenced(colliders, shapeBodies, i, b) then 0 else old(constraintCount[b])
    {
      var colliderIndex := colliders[i];
      if colliderIndex >= 0 {
        var rigidbodyIndex := shapeBodies[colliderIndex];
        if rigidbodyIndex >= 0 {
          constraintCount[rigidbodyIndex] := 0;
        }
      }
      i := i + 1;
    }
  }

  /** Coordinate and relative velocity after the motor and the artificial friction. */
  datatype Motor = Motor(velocity: real, mix: real)

  /** The motor and friction step of `UpdatePinsJob`: `nearest` is the coordinate of the
    * nearest point on the edge, `mu` the stored coordinate, `edgeLength` the edge length
    * plus epsilon. */
  function ApplyMotor(nearest: real, mu: real, substepTime: real, edgeLength: real, motorSpeed: real,
                      motorForce: real, friction: real, invMass1: real, invMass2: real, eps: real): Motor
    requires substepTime > 0.0 && edgeLength > 0.0
  {
    var velocity := (nearest - mu) / substepTime * edgeLength;
    var targetAccel := (motorSpeed - velocity) / substepTime;
    var maxAccel := motorForce * Max(Lerp(invMass1, invMass2, nearest), eps);
    var v := velocity + BurstClamp(targetAccel, -maxAccel, maxAccel) * substepTime;
    var corrMix := mu + v * substepTime / edgeLength;
    Motor(velocity, Lerp(nearest, corrMix, friction))
  }

  /** Without motor force the corrected coordinate is the nearest point itself, so friction
    * has nothing to act on: the pinhole follows the rope exactly. */
  lemma MotorWithoutForce(nearest: real, mu: real, substepTime: real, edgeLength: real, motorSpeed: real,
                          friction: real, invMass1: real, invMass2: real, eps: real)
    requires substepTime > 0.0 && edgeLength > 0.0
    ensures ApplyMotor(nearest, mu, substepTime, edgeLength, motorSpeed, 0.0, friction, invMass1, invMass2, eps).mix == nearest
    ensures ApplyMotor(nearest, mu, substepTime, edgeLength, motorSpeed, 0.0, friction, invMass1, invMass2, eps).velocity * substepTime
            == (nearest - mu) * edgeLength
  {
    var velocity := (nearest - mu) / substepTime * edgeLength;
    assert velocity * substepTime / edgeLength == nearest - mu;
  }

  /** Read-only inputs of `UpdatePinsJob`. `nearest[i]` is `NearestPointOnEdge` for
    * constraint i; `edgeLengths[e]` is the length of deformable edge e at the interpolated
    * time; `shapeBodies[c]` is the rigidbody index of collider shape c. */
  datatype PinJob = PinJob(colliderIndices: seq<int>, edgeRanges: seq<Int2>, edgeRangeMus: seq<Real2>,
                           parameters: seq<real>, invMasses: seq<real>, deformableEdges: seq<int>,
                           edgeLengths: seq<real>, nearest: seq<real>, shapeBodies: seq<int>,
                           substepTime: real, eps: real, count: nat)

  /** The walk's view of constraint i. */
  function TrackOf(job: PinJob, i: nat): Track
    requires i < |job.edgeRanges| && i < |job.edgeRangeMus| && 5 * i + 4 < |job.parameters|
  {
    Track(job.deformableEdges, job.edgeLengths, job.edgeRanges[i], job.edgeRangeMus[i], job.parameters[5 * i + 4] > 0.5, job.eps)
  }

  /** What the solver guarantees about the inputs as a whole: sizes agree, every
    * constraint names a known shape and every edge endpoint is a known particle. */
  predicate JobShape(job: PinJob)
  {
    && job.count <= |job.edgeRanges| && job.count <= |job.edgeRangeMus|
    && job.count <= |job.nearest| && 5 * job.count <= |job.parameters|
    && job.substepTime > 0.0
    && ShapesKnown(job.colliderIndices, job.shapeBodies, job.count)
    && (forall k :: 0 <= k < |job.deformableEdges| ==> 0 <= job.deformableEdges[k] < |job.invMasses|)
  }

  /** Constraint i on edge `edge`: when it is not ignored, its edge exists and its edge
    * range is a non-empty run of existing edges. */
  predicate PinValid(job: PinJob, i: nat, edge: int)
  {
    && JobShape(job) && i < job.count
    && (!Ignored(edge, job.colliderIndices[i]) ==> TrackValid(TrackOf(job, i)) && IsEdge(job.deformableEdges, edge))
  }

  predicate PinJobValid(job: PinJob, edgeIndices: seq<int>)
  {
    JobShape(job) && job.count <= |edgeIndices| && forall i :: 0 <= i < job.count ==> PinValid(job, i, edgeIndices[i])
  }

  datatype PinUpdate = Skip | Disable(velocity: real) | Slide(edge: int, mix: real, velocity: real)

  /** Coordinate and relative velocity of constraint i after the motor and friction. */
  function PinMotor(job: PinJob, i: nat, edge: int, mu: real): Motor
    requires PinValid(job, i, edge) && !Ignored(edge, job.colliderIndices[i])
  {
    ApplyMotor(job.nearest[i], mu, job.substepTime, job.edgeLengths[edge] + job.eps,
               job.parameters[5 * i + 2], job.parameters[5 * i + 3], job.parameters[5 * i + 1],
               job.invMasses[job.deformableEdges[2 * edge]], job.invMasses[job.deformableEdges[2 * edge + 1]], job.eps)
  }

  /** The end of the update once the motor has produced coordinate `mix`: clamp to the
    * range, and walk to a neighbouring edge when the coordinate left [0, 1]. */
  function Settle(t: Track, edge: int, mix: real, velocity: real): PinUpdate
    requires TrackValid(t) && IsEdge(t.edges, edge)
  {
    var c := ClampToRange(t.range, t.rangeMus, edge, mix);
    if !c.clamped && (c.mix < 0.0 || c.mix > 1.0) then
      match Walk(t, 0, edge, c.mix, StartDistance(t, edge, c.mix))
      case Disabled => Disable(velocity)
      case Stop(e, x) => Slide(e, x, velocity)
    else Slide(edge, c.mix, velocity)
  }

  /** What `UpdatePinsJob.Execute(i)` decides for a constraint on edge `edge` with stored
    * coordinate `mu`. */
  function PinOutcome(job: PinJob, i: nat, edge: int, mu: real): PinUpdate
    requires PinValid(job, i, edge)
  {
    if Ignored(edge, job.colliderIndices[i]) then Skip
    else
      var m := PinMotor(job, i, edge, mu);
      Settle(TrackOf(job, i), edge, m.mix, m.velocity)
  }

  /** The outcome of one constraint: an ignored constraint is skipped and nothing else is; a
    * constraint is only disabled when its clamp parameter is at most 0.5; a constraint
    * that slides ends on its own edge or on an edge of its range, with a coordinate in
    * [0, 1], set by the range, or (when the walk used up its moves) the motor's own. */
  lemma PinOutcomeProperties(job: PinJob, i: nat, edge: int, mu: real)
    requires PinValid(job, i, edge)
    ensures PinOutcome(job, i, edge, mu) == Skip <==> Ignored(edge, job.colliderIndices[i])
    ensures PinOutcome(job, i, edge, mu).Disable? ==> job.parameters[5 * i + 4] <= 0.5
    ensures PinOutcome(job, i, edge, mu).Slide? ==>
      var o := PinOutcome(job, i, edge, mu);
      && (o.edge == edge || InRange(TrackOf(job, i), o.edge))
      && ((0.0 <= o.mix <= 1.0) || o.mix == job.edgeRangeMus[i].x || o.mix == job.edgeRangeMus[i].y
          || o.mix == PinMotor(job, i, edge, mu).mix)
  {
    if !Ignored(edge, job.colliderIndices[i]) {
      var m := PinMotor(job, i, edge, mu);
      SettleProperties(TrackOf(job, i), edge, m.mix, m.velocity);
    }
  }

  /** Settling disables only without clamp-on-end; it ends on the same edge or one in the
    * range, with a coordinate in [0, 1] or set by the range unless the edge changed. */
  lemma SettleProperties(t: Track, edge: int, mix: real, velocity: real)
    requires TrackValid(t) && IsEdge(t.edges, edge)
    ensures Settle(t, edge, mix, velocity).Disable? ==> !t.clampOnEnd
    ensures Settle(t, edge, mix, velocity).Slide? ==>
      var o := Settle(t, edge, mix, velocity);
      && (o.edge == edge || InRange(t, o.edge))
      && ((0.0 <= o.mix <= 1.0) || o.mix == t.rangeMus.x || o.mix == t.rangeMus.y || o.mix == mix)
      && o.velocity == velocity
    ensures ClampToRange(t.range, t.rangeMus, edge, mix).clamped || 0.0 <= mix <= 1.0 ==>
      Settle(t, edge, mix, velocity) == Slide(edge, ClampToRange(t.range, t.rangeMus, edge, mix).mix, velocity)
    ensures Settle(t, edge, mix, velocity).Disable? ==> Settle(t, edge, mix, velocity).velocity == velocity
  {
    var c := ClampToRange(t.range, t.rangeMus, edge, mix);
    if !c.clamped && (c.mix < 0.0 || c.mix > 1.0) {
      var d := StartDistance(t, edge, c.mix);
      match Walk(t, 0, edge, c.mix, d)
      case Disabled =>
        WalkDisablesOnlyWithoutClamp(t, 0, edge, c.mix, d);
      case Stop(e, x) =>
        WalkStopsNearby(t, 0, edge, c.mix, d);
        var steps: nat :| steps <= MaxWalk && ReachedBy(t, edge, c.mix, steps, e);
        if steps > 0 {
          AdvanceInRange(t, edge, c.mix, steps);
        }
        WalkStopCoordinate(t, 0, edge, c.mix, d);
    }
  }

  /** The triple (edge index, coordinate, relative velocity) stored for one constraint
    * before and after the update, as `PinOutcome` prescribes. */
  predicate Stored(o: PinUpdate, edge0: int, mu0: real, vel0: real, edge: int, mu: real, vel: real)
  {
    match o
    case Skip => edge == edge0 && mu == mu0 && vel == vel0
    case Disable(v) => edge == -1 && mu == mu0 && vel == v
    case Slide(e, m, v) => edge == e && mu == m && vel == v
  }

  /** `UpdatePinsJob` over all constraints: every constraint is updated as `PinOutcome`
    * prescribes, and each rigidbody's constraint count grows by the number of
    * non-ignored constraints pinned to it. */
  method UpdatePins(job: PinJob, particleIndices: array<int>, edgeMus: array<real>,
                    relativeVelocities: array<real>, constraintCount: array<int>)
    requires PinJobValid(job, particleIndices[..])
    requires job.count <= edgeMus.Length && job.count <= relativeVelocities.Length
    requires forall i :: 0 <= i < job.count && job.colliderIndices[i] >= 0 ==>
      job.shapeBodies[job.colliderIndices[i]] < constraintCount.Length
    requires particleIndices != constraintCount && edgeMus != relativeVelocities
    modifies particleIndices, edgeMus, relativeVelocities, constraintCount
    ensures forall i :: 0 <= i < job.count ==>
      PinValid(job, i, old(particleIndices[i])) &&
      Stored(PinOutcome(job, i, old(particleIndices[i]), old(edgeMus[i])),
             old(particleIndices[i]), old(edgeMus[i]), old(relativeVelocities[i]),
             particleIndices[i], edgeMus[i], relativeVelocities[i])
    ensures forall i :: job.count <= i < particleIndices.Length ==> particleIndices[i] == old(particleIndices[i])
    ensures forall i :: job.count <= i < edgeMus.Length ==> edgeMus[i] == old(edgeMus[i])
    ensures forall i :: job.count <= i < relativeVelocities.Length ==> relativeVelocities[i] == old(relativeVelocities[i])
    ensures forall b :: 0 <= b < constraintCount.Length ==>
      constraintCount[b] == old(constraintCount[b]) + PinsOnBody(job.colliderIndices, old(particleIndices[..]), job.shapeBodies, b, job.count)
  {
    ghost var edges0 := particleIndices[..];
    var i := 0;
    while i < job.count
      invariant 0 <= i <= job.count
      invariant forall j :: 0 <= j < i ==>
        Stored(PinOutcome(job, j, edges0[j], old(edgeMus[j])),
               edges0[j], old(edgeMus[j]), old(relativeVelocities[j]),
               particleIndices[j], edgeMus[j], relativeVelocities[j])
      invariant forall j :: i <= j < particleIndices.Length ==> particleIndices[j] == edges0[j]
      invariant forall j :: i <= j < edgeMus.Length ==> edgeMus[j] == old(edgeMus[j])
      invariant forall j :: i <= j < relativeVelocities.Length ==> relativeVelocities[j] == old(relativeVelocities[j])
      invariant forall b :: 0 <= b < constraintCount.Length ==>
        constraintCount[b] == old(constraintCount[b]) + PinsOnBody(job.colliderIndices, edges0, job.shapeBodies, b, i)
    {
      assert PinValid(job, i, edges0[i]);
      var o := UpdatePin(job, i, particleIndices[i], edgeMus[i]);
      CountPin(job, i, particleIndices[i], constraintCount);
      StorePin(o, i, particleIndices, edgeMus, relativeVelocities);
      i := i + 1;
    }
  }

  /** The stores at the end of `UpdatePinsJob.Execute(i)` for outcome `o`. */
  method StorePin(o: PinUpdate, i: nat, particleIndices: array<int>, edgeMus: array<real>, relativeVelocities: array<real>)
    requires i < particleIndices.Length && i < edgeMus.Length && i < relativeVelocities.Length
    requires edgeMus != relativeVelocities
    modifies particleIndices, edgeMus, relativeVelocities
    ensures Stored(o, old(particleIndices[i]), old(edgeMus[i]), old(relativeVelocities[i]),
                   particleIndices[i], edgeMus[i], relativeVelocities[i])
    ensures forall j :: 0 <= j < particleIndices.Length && j != i ==> particleIndices[j] == old(particleIndices[j])
    ensures forall j :: 0 <= j < edgeMus.Length && j != i ==> edgeMus[j] == old(edgeMus[j])
    ensures forall j :: 0 <= j < relativeVelocities.Length && j != i ==> relativeVelocities[j] == old(relativeVelocities[j])
  {
    match o {
      case Skip =>
      case Disable(v) =>
        relativeVelocities[i] := v;
        particleIndices[i] := -1;
      case Slide(e, m, v) =>
        relativeVelocities[i] := v;
        edgeMus[i] := m;
        particleIndices[i] := e;
    }
  }

  /** The mass-splitting count of `UpdatePinsJob.Execute(i)`: a non-ignored constraint
    * adds one to the count of the rigidbody its collider belongs to. */
  method CountPin(job: PinJob, i: nat, edge: int, constraintCount: array<int>)
    requires PinValid(job, i, edge)
    requires job.colliderIndices[i] >= 0 ==> job.shapeBodies[job.colliderIndices[i]] < constraintCount.Length
    modifies constraintCount
    ensures forall b :: 0 <= b < constraintCount.Length ==>
      constraintCount[b] == old(constraintCount[b])
        + (if !Ignored(edge, job.colliderIndices[i]) && job.shapeBodies[job.colliderIndices[i]] == b then 1 else 0)
  {
    if !Ignored(edge, job.colliderIndices[i]) {
      var rigidbodyIndex := job.shapeBodies[job.colliderIndices[i]];
      if rigidbodyIndex >= 0 {
        constraintCount[rigidbodyIndex] := constraintCount[rigidbodyIndex] + 1;
      }
    }
  }

  /** `UpdatePinsJob.Execute(i)` without its stores: the decision for one constraint. */
  method UpdatePin(job: PinJob, i: nat, edge: int, mu: real) returns (o: PinUpdate)
    requires PinValid(job, i, edge)
    ensures o == PinOutcome(job, i, edge, mu)
  {
    var edgeIndex := edge;
    var colliderIndex := job.colliderIndices[i];
    if colliderIndex < 0 || edgeIndex < 0 {
      return Skip;
    }
    var t := TrackOf(job, i);
    var m := PinMotor(job, i, edgeIndex, mu);
    var c := ClampToRange(t.range, t.rangeMus, edgeIndex, m.mix);
    var mix := c.mix;
    if !c.clamped && (mix < 0.0 || mix > 1.0) {
      var w := WalkEdges(t, edgeIndex, mix);
      match w {
        case Disabled => return Disable(m.velocity);
        case Stop(e, x) => return Slide(e, x, m.velocity);
      }
    }
    return Slide(edgeIndex, mix, m.velocity);
  }

  /** A body that some non-ignored constraint counts towards is referenced by it. */
  lemma {:induction false} PinsImplyReferenced(colliders: seq<int>, edgeIndices: seq<int>, shapeBodies: seq<int>, b: int, n: nat)
    requires n <= |edgeIndices| && n <= |colliders|
    requires forall i :: 0 <= i < n ==> colliders[i] < |shapeBodies|
    ensures PinsOnBody(colliders, edgeIndices, shapeBodies, b, n) > 0 ==> Referenced(colliders, shapeBodies, n, b)
  {
    if n > 0 {
      PinsImplyReferenced(colliders, edgeIndices, shapeBodies, b, n - 1);
      if PinsOnBody(colliders, edgeIndices, shapeBodies, b, n - 1) > 0 {
        var i :| 0 <= i < n - 1 && 0 <= colliders[i] && shapeBodies[colliders[i]] == b;
        assert 0 <= i < n && 0 <= colliders[i] && shapeBodies[colliders[i]] == b;
      }
    }
  }

  /** `Initialize`: `ClearPinsJob` followed by `UpdatePinsJob`. Afterwards every rigidbody
    * that a constraint is pinned to counts exactly the non-ignored constraints on it
    * (the mass-splitting factor of the projection), whatever its count was before; the
    * counts of other rigidbodies are untouched. */
  method Initialize(job: PinJob, particleIndices: array<int>, edgeMus: array<real>,
                    relativeVelocities: array<real>, constraintCount: array<int>)
    requires PinJobValid(job, particleIndices[..])
    requires job.count <= edgeMus.Length && job.count <= relativeVelocities.Length
    requires CollidersValid(job.colliderIndices, job.shapeBodies, constraintCount.Length, job.count)
    requires particleIndices != constraintCount && edgeMus != relativeVelocities
    modifies particleIndices, edgeMus, relativeVelocities, constraintCount
    ensures forall i :: 0 <= i < job.count ==>
      PinValid(job, i, old(particleIndices[i])) &&
      Stored(PinOutcome(job, i, old(particleIndices[i]), old(edgeMus[i])),
             old(particleIndices[i]), old(edgeMus[i]), old(relativeVelocities[i]),
             particleIndices[i], edgeMus[i], relativeVelocities[i])
    ensures forall b :: 0 <= b < constraintCount.Length ==>
      constraintCount[b] == if Referenced(job.colliderIndices, job.shapeBodies, job.count, b)
                            then PinsOnBody(job.colliderIndices, old(particleIndices[..]), job.shapeBodies, b, job.count)
                            else old(constraintCount[b])
  {
    ghost var edges0 := particleIndices[..];
    ClearPins(job.colliderIndices, job.shapeBodies, constraintCount, job.count);
    UpdatePins(job, particleIndices, edgeMus, relativeVelocities, constraintCount);
    forall b | 0 <= b < constraintCount.Length
      ensures !Referenced(job.colliderIndices, job.shapeBodies, job.count, b) ==>
        PinsOnBody(job.colliderIndices, edges0, job.shapeBodies, b, job.count) == 0
    {
      PinsImplyReferenced(job.colliderIndices, edges0, job.shapeBodies, b, job.count);
    }
  }
}
