/** The pinhole component attached to a rope: its tunables and dirty flags, the
  * clamping of its position into its edge range, and the synchronisation of its
  * edge, range and parameters with the solver's pinhole batch. The rope's
  * `GetEdgeAt` is a parameter of the rope; the lookup of the component's batch
  * in the solver is a parameter `slot` that holds the batch's offset when the
  * component is enabled, its rope loaded and its batch found. */
module ObiPinholeComponent {
  import opened Common
  import opened PinholeBatch

  /** `float.Epsilon`, the smallest positive single-precision value. */
  const FloatEpsilon: real := 0.000000000000000000000000000000000000000000001401298
  /** `float.MaxValue`. */
  const FloatMax: real := 340282346638528859811704183484516925440.0

  function Abs(x: real): (r: real)
    ensures r >= 0.0 && (r == x || r == -x)
  {
    if x < 0.0 then -x else x
  }

  /** Unity's `Mathf.Approximately`: the difference is below a millionth of the
    * larger magnitude, or below eight times `float.Epsilon`. */
  predicate Approximately(a: real, b: real)
  {
    Abs(b - a) < Max(0.000001 * Max(Abs(a), Abs(b)), FloatEpsilon * 8.0)
  }

  /** A value is approximately itself, so a setter given the current value does nothing. */
  lemma ApproximatelySame(a: real)
    ensures Approximately(a, a)
  {
    assert Abs(a - a) == 0.0;
  }

  /** What the component needs of its rope: the actor's edge numbering and
    * `GetEdgeAt`, which maps a rope coordinate to an edge and a coordinate on it. */
  datatype Rope = Rope(actor: Actor, edgeAt: real -> PinholeEdge)

  /** The fields of the component that its setters and `Calculate*` methods update. */
  datatype PinholeState = PinholeState(
    position: real, limitRange: bool, range: Real2,
    compliance: real, friction: real, motorSpeed: real, motorForce: real, clampAtEnds: bool,
    currentEdge: PinholeEdge, firstEdge: PinholeEdge, lastEdge: PinholeEdge,
    parametersDirty: bool, positionDirty: bool, rangeDirty: bool)

  function MinCoord(s: PinholeState, rope: Rope): real { GetRopeCoordinate(s.firstEdge, rope.actor) }
  function MaxCoord(s: PinholeState, rope: Rope): real { GetRopeCoordinate(s.lastEdge, rope.actor) }

  /** `ClampMuToRange`: with the range limited, a position past the last edge's rope
    * coordinate (or else before the first edge's) moves onto it, takes the rope's
    * edge there and is marked dirty. */
  function ClampedToRange(s: PinholeState, rope: Rope): (r: PinholeState)
    ensures !s.limitRange ==> r == s
    ensures MinCoord(s, rope) <= s.position <= MaxCoord(s, rope) ==> r == s
    ensures s.limitRange && MinCoord(s, rope) <= MaxCoord(s, rope) ==>
              MinCoord(s, rope) <= r.position <= MaxCoord(s, rope)
    ensures r != s ==> s.limitRange && r.positionDirty && r.currentEdge == rope.edgeAt(r.position)
                       && (r.position == MaxCoord(s, rope) || r.position == MinCoord(s, rope))
    ensures s.limitRange && s.position > MaxCoord(s, rope) ==>
              r == s.(position := MaxCoord(s, rope), currentEdge := rope.edgeAt(MaxCoord(s, rope)), positionDirty := true)
    ensures s.limitRange && s.position <= MaxCoord(s, rope) && s.position < MinCoord(s, rope) ==>
              r == s.(position := MinCoord(s, rope), currentEdge := rope.edgeAt(MinCoord(s, rope)), positionDirty := true)
    ensures r.firstEdge == s.firstEdge && r.lastEdge == s.lastEdge && r.limitRange == s.limitRange
    ensures r.rangeDirty == s.rangeDirty && r.parametersDirty == s.parametersDirty
  {
    if s.limitRange then
      var maxCoord, minCoord := MaxCoord(s, rope), MinCoord(s, rope);
      if s.position > maxCoord then
        s.(position := maxCoord, currentEdge := rope.edgeAt(maxCoord), positionDirty := true)
      else if s.position < minCoord then
        s.(position := minCoord, currentEdge := rope.edgeAt(minCoord), positionDirty := true)
      else s
    else s
  }

  /** On an ordered range, clamping twice is clamping once. */
  lemma ClampMuToRangeIdempotent(s: PinholeState, rope: Rope)
    requires MinCoord(s, rope) <= MaxCoord(s, rope)
    ensures ClampedToRange(ClampedToRange(s, rope), rope) == ClampedToRange(s, rope)
  {
    var t := ClampedToRange(s, rope);
    assert MinCoord(t, rope) == MinCoord(s, rope) && MaxCoord(t, rope) == MaxCoord(s, rope);
  }

  /** `CalculateMu`: the current edge is the rope's edge at the position, clamped
    * into the range; the position is marked dirty. */
  function MuRecalculated(s: PinholeState, rope: Rope): (r: PinholeState)
    ensures r.positionDirty
    ensures r.currentEdge == rope.edgeAt(r.position)
    ensures !s.limitRange ==> r.position == s.position
    ensures s.limitRange && MinCoord(s, rope) <= MaxCoord(s, rope) ==>
              MinCoord(s, rope) <= r.position <= MaxCoord(s, rope)
    ensures r.firstEdge == s.firstEdge && r.lastEdge == s.lastEdge
  {
    ClampedToRange(s.(currentEdge := rope.edgeAt(s.position)), rope).(positionDirty := true)
  }

  /** The first and last edges `CalculateRange` computes: the rope's edges at the
    * range's ends, or without a range limit the rope's ends with coordinates
    * at minus and plus `float.MaxValue`. */
  function RangeEdges(s: PinholeState, rope: Rope): (PinholeEdge, PinholeEdge)
  {
    if s.limitRange then (rope.edgeAt(s.range.x), rope.edgeAt(s.range.y))
    else (rope.edgeAt(0.0).(coordinate := -FloatMax), rope.edgeAt(1.0).(coordinate := FloatMax))
  }

  /** `CalculateRange`: recompute the range edges, clamp the position into them and
    * mark the range dirty. */
  function RangeRecalculated(s: PinholeState, rope: Rope): (r: PinholeState)
    ensures r.rangeDirty
    ensures (r.firstEdge, r.lastEdge) == RangeEdges(s, rope)
    ensures !s.limitRange ==> r.firstEdge.coordinate == -FloatMax && r.lastEdge.coordinate == FloatMax
    ensures !s.limitRange ==> r.position == s.position && r.currentEdge == s.currentEdge
    ensures s.limitRange && MinCoord(r, rope) <= MaxCoord(r, rope) ==>
              MinCoord(r, rope) <= r.position <= MaxCoord(r, rope)
  {
    var (first, last) := RangeEdges(s, rope);
    ClampedToRange(s.(firstEdge := first, lastEdge := last), rope).(rangeDirty := true)
  }

  /** With the rope and the range unchanged, a second `CalculateRange` changes
    * nothing: the first one already clamped the position. */
  lemma CalculateRangeIdempotent(s: PinholeState, rope: Rope)
    requires var (first, last) := RangeEdges(s, rope);
             GetRopeCoordinate(first, rope.actor) <= GetRopeCoordinate(last, rope.actor)
    ensures RangeRecalculated(RangeRecalculated(s, rope), rope) == RangeRecalculated(s, rope)
  {
    var t := RangeRecalculated(s, rope);
    assert RangeEdges(t, rope) == RangeEdges(s, rope);
    assert t.(firstEdge := t.firstEdge, lastEdge := t.lastEdge) == t;
  }

  /** The five parameters the solver stores per pinhole constraint. */
  function ParameterBlock(s: PinholeState): (b: seq<real>)
    ensures |b| == 5 && (b[4] == 1.0 <==> s.clampAtEnds) && (b[4] == 0.0 <==> !s.clampAtEnds)
  {
    [s.compliance, s.friction, s.motorSpeed, s.motorForce, if s.clampAtEnds then 1.0 else 0.0]
  }

  /** `UpdateParameters` writes the parameters in the layout `AddConstraint` uses. */
  lemma ParameterBlockMatchesBatch(s: PinholeState, edge: PinholeEdge, first: PinholeEdge, last: PinholeEdge,
                                   body: Option<Collider>, offset: Vec3)
    ensures ParameterBlock(s) == NewRecord(edge, first, last, body, offset, s.compliance, s.friction,
                                           s.motorSpeed, s.motorForce, s.clampAtEnds).parameters
  {
  }

  /** `s` with the `len` entries from `start` on overwritten by `block`, repeated. */
  function Filled<T>(s: seq<T>, start: nat, len: nat, block: seq<T>): (r: seq<T>)
    requires start + len <= |s| && |block| > 0
    ensures |r| == |s|
  {
    seq(|s|, p requires 0 <= p < |s| => if start <= p < start + len then block[(p - start) % |block|] else s[p])
  }

  /** Entry `c * |block| + k` of the filled part holds `block[k]`; entries outside it are kept. */
  lemma FilledEntries<T>(s: seq<T>, start: nat, len: nat, block: seq<T>)
    requires start + len <= |s| && |block| > 0
    ensures forall p :: 0 <= p < |s| && !(start <= p < start + len) ==> Filled(s, start, len, block)[p] == s[p]
    ensures forall p :: start <= p < start + len ==> Filled(s, start, len, block)[p] == block[(p - start) % |block|]
  {
  }

  /** The rope position `UpdateEdgeCoordinate` reads back from the solver: the edge
    * of the batch's last active constraint, moved back into the rope's edge
    * numbering, and its rope coordinate. Without an active constraint nothing is read. */
  function ReadBack(s: PinholeState, rope: Rope, particleIndices: seq<int>, edgeMus: seq<real>,
                    offset: nat, count: nat): (r: PinholeState)
    requires offset + count <= |particleIndices| && offset + count <= |edgeMus|
    ensures count == 0 ==> r == s
    ensures r.position == GetRopeCoordinate(r.currentEdge, rope.actor) || r == s
    ensures r.(position := s.position, currentEdge := s.currentEdge) == s
  {
    if count == 0 then s
    else
      var e := PinholeEdge(particleIndices[offset + count - 1] - rope.actor.deformableEdgesOffset, edgeMus[offset + count - 1]);
      s.(currentEdge := e, position := GetRopeCoordinate(e, rope.actor))
  }

  /** Writing the edge with the actor's offset and reading it back gives the same
    * edge and its rope coordinate. */
  lemma WriteThenRead(s: PinholeState, rope: Rope, pi: seq<int>, mus: seq<real>, offset: nat, count: nat,
                      e: PinholeEdge)
    requires offset + count <= |pi| && offset + count <= |mus| && count > 0
    ensures var r := ReadBack(s, rope, Filled(pi, offset, count, [rope.actor.deformableEdgesOffset + e.edgeIndex]),
                              Filled(mus, offset, count, [e.coordinate]), offset, count);
            r.currentEdge == e && r.position == GetRopeCoordinate(e, rope.actor)
  {
    FilledEntries(pi, offset, count, [rope.actor.deformableEdgesOffset + e.edgeIndex]);
    FilledEntries(mus, offset, count, [e.coordinate]);
  }

  /** The state after `UpdateEdgeCoordinate` with the batch found: both dirty flags
    * cleared, and without a dirty position the edge read back from the solver. */
  function SyncedState(s: PinholeState, rope: Rope, particleIndices: seq<int>, edgeMus: seq<real>,
                       offset: nat, count: nat): (r: PinholeState)
    requires offset + count <= |particleIndices| && offset + count <= |edgeMus|
    ensures !r.rangeDirty && !r.positionDirty
    ensures s.positionDirty ==> r.position == s.position && r.currentEdge == s.currentEdge
  {
    var t := s.(rangeDirty := false);
    if s.positionDirty then t.(positionDirty := false) else ReadBack(t, rope, particleIndices, edgeMus, offset, count)
  }

  /** The solver's range list after `UpdateEdgeCoordinate`: with the range dirty,
    * every active constraint holds the first and last edge in the solver's numbering. */
  function RangeSlots(s: PinholeState, rope: Rope, edgeRanges: seq<int>, offset: nat, count: nat): (r: seq<int>)
    requires 2 * (offset + count) <= |edgeRanges|
    ensures !s.rangeDirty ==> r == edgeRanges
  {
    var off := rope.actor.deformableEdgesOffset;
    if s.rangeDirty then Filled(edgeRanges, 2 * offset, 2 * count, [off + s.firstEdge.edgeIndex, off + s.lastEdge.edgeIndex])
    else edgeRanges
  }

  /** The solver's range coordinates after `UpdateEdgeCoordinate`. */
  function RangeMuSlots(s: PinholeState, edgeRangeMus: seq<real>, offset: nat, count: nat): (r: seq<real>)
    requires 2 * (offset + count) <= |edgeRangeMus|
    ensures !s.rangeDirty ==> r == edgeRangeMus
  {
    if s.rangeDirty then Filled(edgeRangeMus, 2 * offset, 2 * count, [s.firstEdge.coordinate, s.lastEdge.coordinate])
    else edgeRangeMus
  }

  /** The solver's current edges after `UpdateEdgeCoordinate`: with the position
    * dirty, every active constraint holds the current edge in the solver's numbering. */
  function EdgeSlots(s: PinholeState, rope: Rope, particleIndices: seq<int>, offset: nat, count: nat): (r: seq<int>)
    requires offset + count <= |particleIndices|
    ensures !s.positionDirty ==> r == particleIndices
  {
    if s.positionDirty then Filled(particleIndices, offset, count, [rope.actor.deformableEdgesOffset + s.currentEdge.edgeIndex])
    else particleIndices
  }

  /** The solver's edge coordinates after `UpdateEdgeCoordinate`. */
  function MuSlots(s: PinholeState, edgeMus: seq<real>, offset: nat, count: nat): (r: seq<real>)
    requires offset + count <= |edgeMus|
    ensures !s.positionDirty ==> r == edgeMus
  {
    if s.positionDirty then Filled(edgeMus, offset, count, [s.currentEdge.coordinate]) else edgeMus
  }

  /** A dirty position survives the solver round trip: after `UpdateEdgeCoordinate`
    * writes it, reading the same slots back gives the same edge. */
  lemma SyncRoundTrip(s: PinholeState, rope: Rope, particleIndices: seq<int>, edgeMus: seq<real>,
                      offset: nat, count: nat)
    requires offset + count <= |particleIndices| && offset + count <= |edgeMus| && count > 0 && s.positionDirty
    ensures var t := SyncedState(s, rope, particleIndices, edgeMus, offset, count);
            var r := ReadBack(t, rope, EdgeSlots(s, rope, particleIndices, offset, count),
                              MuSlots(s, edgeMus, offset, count), offset, count);
            r.currentEdge == s.currentEdge && r.position == GetRopeCoordinate(s.currentEdge, rope.actor)
  {
    WriteThenRead(SyncedState(s, rope, particleIndices, edgeMus, offset, count), rope, particleIndices, edgeMus,
                  offset, count, s.currentEdge);
  }

  /** The parameter loop of `UpdateParameters`: five slots per active constraint. */
  method WriteParameters(parameters: array<real>, offset: nat, count: nat, block: seq<real>)
    requires |block| == 5 && 5 * (offset + count) <= parameters.Length
    modifies parameters
    ensures parameters[..] == Filled(old(parameters[..]), 5 * offset, 5 * count, block)
  {
    for i := 0 to count
      invariant forall p :: 0 <= p < parameters.Length ==>
                  parameters[p] == if 5 * offset <= p < 5 * offset + 5 * i then block[(p - 5 * offset) % 5] else old(parameters[p])
    {
      var at := (offset + i) * 5;
      parameters[at] := block[0];
      parameters[at + 1] := block[1];
      parameters[at + 2] := block[2];
      parameters[at + 3] := block[3];
      parameters[at + 4] := block[4];
    }
    assert forall p :: 0 <= p < parameters.Length ==> parameters[..][p] == Filled(old(parameters[..]), 5 * offset, 5 * count, block)[p];
  }

  /** The range loop of `UpdateEdgeCoordinate`: first and last edge, in the solver's
    * numbering, and their coordinates, two slots per active constraint. */
  method WriteRange(edgeRanges: array<int>, edgeRangeMus: array<real>, offset: nat, count: nat,
                    first: int, last: int, firstMu: real, lastMu: real)
    requires 2 * (offset + count) <= edgeRanges.Length && 2 * (offset + count) <= edgeRangeMus.Length
    modifies edgeRanges, edgeRangeMus
    ensures edgeRanges[..] == Filled(old(edgeRanges[..]), 2 * offset, 2 * count, [first, last])
    ensures edgeRangeMus[..] == Filled(old(edgeRangeMus[..]), 2 * offset, 2 * count, [firstMu, lastMu])
  {
    for i := 0 to count
      invariant forall p :: 0 <= p < edgeRanges.Length ==>
                  edgeRanges[p] == if 2 * offset <= p < 2 * offset + 2 * i then [first, last][(p - 2 * offset) % 2] else old(edgeRanges[p])
      invariant forall p :: 0 <= p < edgeRangeMus.Length ==>
                  edgeRangeMus[p] == if 2 * offset <= p < 2 * offset + 2 * i then [firstMu, lastMu][(p - 2 * offset) % 2] else old(edgeRangeMus[p])
    {
      edgeRanges[(offset + i) * 2] := first;
      edgeRanges[(offset + i) * 2 + 1] := last;
      edgeRangeMus[(offset + i) * 2] := firstMu;
      edgeRangeMus[(offset + i) * 2 + 1] := lastMu;
    }
    assert forall p :: 0 <= p < edgeRanges.Length ==>
             edgeRanges[..][p] == Filled(old(edgeRanges[..]), 2 * offset, 2 * count, [first, last])[p];
    assert forall p :: 0 <= p < edgeRangeMus.Length ==>
             edgeRangeMus[..][p] == Filled(old(edgeRangeMus[..]), 2 * offset, 2 * count, [firstMu, lastMu])[p];
  }

  /** The position loop of `UpdateEdgeCoordinate`: the current edge, in the solver's
    * numbering, and its coordinate, one slot per active constraint. */
  method WritePosition(particleIndices: array<int>, edgeMus: array<real>, offset: nat, count: nat,
                       index: int, mu: real)
    requires offset + count <= particleIndices.Length && offset + count <= edgeMus.Length
    modifies particleIndices, edgeMus
    ensures particleIndices[..] == Filled(old(particleIndices[..]), offset, count, [index])
    ensures edgeMus[..] == Filled(old(edgeMus[..]), offset, count, [mu])
  {
    for i := 0 to count
      invariant forall p :: 0 <= p < particleIndices.Length ==>
                  particleIndices[p] == if offset <= p < offset + i then index else old(particleIndices[p])
      invariant forall p :: 0 <= p < edgeMus.Length ==>
                  edgeMus[p] == if offset <= p < offset + i then mu else old(edgeMus[p])
    {
      particleIndices[offset + i] := index;
      edgeMus[offset + i] := mu;
    }
    assert forall p :: 0 <= p < particleIndices.Length ==>
             particleIndices[..][p] == Filled(old(particleIndices[..]), offset, count, [index])[p];
    assert forall p :: 0 <= p < edgeMus.Length ==>
             edgeMus[..][p] == Filled(old(edgeMus[..]), offset, count, [mu])[p];
  }

  /** The read-back loop of `UpdateEdgeCoordinate`: every active constraint
    * overwrites the current edge and position in turn. */
  method ReadPosition(s: PinholeState, rope: Rope, particleIndices: seq<int>, edgeMus: seq<real>,
                      offset: nat, count: nat) returns (edge: PinholeEdge, position: real)
    requires offset + count <= |particleIndices| && offset + count <= |edgeMus|
    ensures s.(currentEdge := edge, position := position) == ReadBack(s, rope, particleIndices, edgeMus, offset, count)
  {
    edge, position := s.currentEdge, s.position;
    for i := 0 to count
      invariant s.(currentEdge := edge, position := position) == ReadBack(s, rope, particleIndices, edgeMus, offset, i)
    {
      edge := PinholeEdge(edge.edgeIndex, edgeMus[offset + i]);
      edge := PinholeEdge(particleIndices[offset + i] - rope.actor.deformableEdgesOffset, edge.coordinate);
      position := GetRopeCoordinate(edge, rope.actor);
    }
  }

  /** The relative-velocity loop of `UpdateEdgeCoordinate`: the value of the last
    * active constraint, or the previous value without one. */
  method ReadRelativeVelocity(current: real, relativeVelocities: seq<real>, offset: nat, count: nat)
    returns (velocity: real)
    requires offset + count <= |relativeVelocities|
    ensures count == 0 ==> velocity == current
    ensures count > 0 ==> velocity == relativeVelocities[offset + count - 1]
  {
    velocity := current;
    for i := 0 to count
      invariant i == 0 ==> velocity == current
      invariant i > 0 ==> velocity == relativeVelocities[offset + i - 1]
    {
      velocity := relativeVelocities[offset + i];
    }
  }

  /** IEEE `a > b` on single-precision values: false whenever either is NaN. */
  predicate Greater(a: Float, b: Float)
  {
    match (a, b)
    case (Finite(x), Finite(y)) => x > y
    case (Finite(_), NegInf) => true
    case (PosInf, Finite(_)) => true
    case (PosInf, NegInf) => true
    case _ => false
  }

  /** The break test of `BreakPinhole`: `-lambda / (substepTime * substepTime) > breakThreshold`. */
  predicate Breaks(lambda: real, substepTime: real, breakThreshold: Float)
  {
    Greater(Div(-lambda, substepTime * substepTime), breakThreshold)
  }

  /** With the default threshold, positive infinity, no constraint ever breaks;
    * with a finite threshold and a non-zero substep the test is the real comparison. */
  lemma BreaksExactly(lambda: real, substepTime: real, breakThreshold: Float)
    ensures breakThreshold == PosInf ==> !Breaks(lambda, substepTime, breakThreshold)
    ensures breakThreshold == NaN ==> !Breaks(lambda, substepTime, breakThreshold)
    ensures substepTime != 0.0 && breakThreshold.Finite? ==>
              (Breaks(lambda, substepTime, breakThreshold)
               <==> -lambda / (substepTime * substepTime) > breakThreshold.r)
  {
    if substepTime != 0.0 {
      assert substepTime * substepTime != 0.0;
    }
  }

  /** The indices below `count` whose constraint breaks, in increasing order. */
  function Broken(lambdas: seq<real>, offset: nat, count: nat, substepTime: real, breakThreshold: Float): (r: seq<nat>)
    requires offset + count <= |lambdas|
    ensures forall k :: 0 <= k < |r| ==> r[k] < count && Breaks(lambdas[offset + r[k]], substepTime, breakThreshold)
    ensures forall i :: 0 <= i < count && Breaks(lambdas[offset + i], substepTime, breakThreshold) ==> i in r
  {
    if count == 0 then []
    else
      Broken(lambdas, offset, count - 1, substepTime, breakThreshold)
      + (if Breaks(lambdas[offset + count - 1], substepTime, breakThreshold) then [count - 1] else [])
  }

  /** The loop of `BreakPinhole`: every active constraint's body becomes the
    * collider's current handle, and the constraints whose force exceeds the
    * threshold are listed for deactivation. `dirty` says whether anything changed. */
  method BreakPinhole(pinBodies: array<Option<Handle>>, handle: Option<Handle>, lambdas: seq<real>,
                      offset: nat, count: nat, substepTime: real, breakThreshold: Float)
    returns (broken: seq<nat>, dirty: bool)
    requires count <= pinBodies.Length && offset + count <= |lambdas|
    modifies pinBodies
    ensures forall i :: 0 <= i < count ==> pinBodies[i] == handle
    ensures forall i :: count <= i < pinBodies.Length ==> pinBodies[i] == old(pinBodies[i])
    ensures broken == Broken(lambdas, offset, count, substepTime, breakThreshold)
    ensures dirty <==> broken != [] || exists i :: 0 <= i < count && old(pinBodies[i]) != handle
  {
    broken, dirty := [], false;
    var sqrTime := substepTime * substepTime;
    for i := 0 to count
      invariant forall k :: 0 <= k < i ==> pinBodies[k] == handle
      invariant forall k :: i <= k < pinBodies.Length ==> pinBodies[k] == old(pinBodies[k])
      invariant broken == Broken(lambdas, offset, i, substepTime, breakThreshold)
      invariant dirty <==> broken != [] || exists k :: 0 <= k < i && old(pinBodies[k]) != handle
    {
      if pinBodies[i] != handle {
        pinBodies[i] := handle;
        dirty := true;
      }
      if Greater(Div(-lambdas[offset + i], sqrTime), breakThreshold) {
        broken := broken + [i];
        dirty := true;
      }
    }
  }

  /** The component. `hasTarget` says whether a target transform is set. */
  class Pinhole {
    var rope: Rope
    var hasTarget: bool
    var position: real
    var limitRange: bool
    var range: Real2
    var compliance: real
    var friction: real
    var motorSpeed: real
    var motorForce: real
    var clampAtEnds: bool
    var currentEdge: PinholeEdge
    var firstEdge: PinholeEdge
    var lastEdge: PinholeEdge
    var parametersDirty: bool
    var positionDirty: bool
    var rangeDirty: bool
    var breakThreshold: Float
    var relativeVelocity: real

    function State(): PinholeState
      reads this
    {
      PinholeState(position, limitRange, range, compliance, friction, motorSpeed, motorForce, clampAtEnds,
        currentEdge, firstEdge, lastEdge, parametersDirty, positionDirty, rangeDirty)
    }

    /** Bound: a target is set and the current edge exists. */
    predicate IsBound()
      reads this
    {
      hasTarget && currentEdge.edgeIndex >= 0
    }

    /** A fresh component with the serialized defaults: position 0, range (0, 1)
      * unlimited, no friction, motor or compliance, clamped at the ends, all three
      * edges the struct default (edge 0, coordinate 0), parameters dirty and a break
      * threshold of positive infinity. */
    constructor (rope: Rope)
      ensures this.rope == rope && !hasTarget && !IsBound()
      ensures State() == PinholeState(0.0, false, Real2(0.0, 1.0), 0.0, 0.0, 0.0, 0.0, true,
                PinholeEdge(0, 0.0), PinholeEdge(0, 0.0), PinholeEdge(0, 0.0), true, false, false)
      ensures breakThreshold == PosInf && relativeVelocity == 0.0
    {
      this.rope := rope;
      hasTarget, position, limitRange, range := false, 0.0, false, Real2(0.0, 1.0);
      compliance, friction, motorSpeed, motorForce, clampAtEnds := 0.0, 0.0, 0.0, 0.0, true;
      currentEdge, firstEdge, lastEdge := PinholeEdge(0, 0.0), PinholeEdge(0, 0.0), PinholeEdge(0, 0.0);
      parametersDirty, positionDirty, rangeDirty := true, false, false;
      breakThreshold, relativeVelocity := PosInf, 0.0;
    }

    method SetCompliance(value: real)
      modifies this
      ensures Approximately(value, old(compliance)) ==> State() == old(State())
      ensures !Approximately(value, old(compliance)) ==> State() == old(State()).(compliance := value, parametersDirty := true)
      ensures rope == old(rope) && hasTarget == old(hasTarget) && breakThreshold == old(breakThreshold)
      ensures relativeVelocity == old(relativeVelocity)
    {
      if !Approximately(value, compliance) {
        compliance := value;
        parametersDirty := true;
      }
    }

    method SetFriction(value: real)
      modifies this
      ensures Approximately(value, old(friction)) ==> State() == old(State())
      ensures !Approximately(value, old(friction)) ==> State() == old(State()).(friction := value, parametersDirty := true)
      ensures rope == old(rope) && hasTarget == old(hasTarget) && breakThreshold == old(breakThreshold)
      ensures relativeVelocity == old(relativeVelocity)
    {
      if !Approximately(value, friction) {
        friction := value;
        parametersDirty := true;
      }
    }

    method SetMotorSpeed(value: real)
      modifies this
      ensures Approximately(value, old(motorSpeed)) ==> State() == old(State())
      ensures !Approximately(value, old(motorSpeed)) ==> State() == old(State()).(motorSpeed := value, parametersDirty := true)
      ensures rope == old(rope) && hasTarget == old(hasTarget) && breakThreshold == old(breakThreshold)
      ensures relativeVelocity == old(relativeVelocity)
    {
      if !Approximately(value, motorSpeed) {
        motorSpeed := value;
        parametersDirty := true;
      }
    }

    method SetMotorForce(value: real)
      modifies this
      ensures Approximately(value, old(motorForce)) ==> State() == old(State())
      ensures !Approximately(value, old(motorForce)) ==> State() == old(State()).(motorForce := value, parametersDirty := true)
      ensures rope == old(rope) && hasTarget == old(hasTarget) && breakThreshold == old(breakThreshold)
      ensures relativeVelocity == old(relativeVelocity)
    {
      if !Approximately(value, motorForce) {
        motorForce := value;
        parametersDirty := true;
      }
    }

    method SetClampAtEnds(value: bool)
      modifies this
      ensures value == old(clampAtEnds) ==> State() == old(State())
      ensures value != old(clampAtEnds) ==> State() == old(State()).(clampAtEnds := value, parametersDirty := true)
      ensures rope == old(rope) && hasTarget == old(hasTarget) && breakThreshold == old(breakThreshold)
      ensures relativeVelocity == old(relativeVelocity)
    {
      if clampAtEnds != value {
        clampAtEnds := value;
        parametersDirty := true;
      }
    }

    method ClampMuToRange()
      modifies this
      ensures State() == ClampedToRange(old(State()), rope)
      ensures rope == old(rope) && hasTarget == old(hasTarget) && breakThreshold == old(breakThreshold)
      ensures relativeVelocity == old(relativeVelocity)
    {
      if limitRange {
        var maxCoord := GetRopeCoordinate(lastEdge, rope.actor);
        var minCoord := GetRopeCoordinate(firstEdge, rope.actor);
        if position > maxCoord {
          position := maxCoord;
          currentEdge := rope.edgeAt(position);
          positionDirty := true;
        } else if position < minCoord {
          position := minCoord;
          currentEdge := rope.edgeAt(position);
          positionDirty := true;
        }
      }
    }

    method CalculateMu()
      modifies this
      ensures State() == MuRecalculated(old(State()), rope)
      ensures rope == old(rope) && hasTarget == old(hasTarget) && breakThreshold == old(breakThreshold)
      ensures relativeVelocity == old(relativeVelocity)
    {
      currentEdge := rope.edgeAt(position);
      ClampMuToRange();
      positionDirty := true;
    }

    method CalculateRange()
      modifies this
      ensures State() == RangeRecalculated(old(State()), rope)
      ensures rope == old(rope) && hasTarget == old(hasTarget) && breakThreshold == old(breakThreshold)
      ensures relativeVelocity == old(relativeVelocity)
    {
      if limitRange {
        firstEdge := rope.edgeAt(range.x);
        lastEdge := rope.edgeAt(range.y);
      } else {
        firstEdge := rope.edgeAt(0.0).(coordinate := -FloatMax);
        lastEdge := rope.edgeAt(1.0).(coordinate := FloatMax);
      }
      assert State() == old(State()).(firstEdge := RangeEdges(old(State()), rope).0, lastEdge := RangeEdges(old(State()), rope).1);
      ClampMuToRange();
      rangeDirty := true;
    }

    /** The `position` setter: a value approximately equal to the current one is ignored. */
    method SetPosition(value: real)
      modifies this
      ensures Approximately(value, old(position)) ==> State() == old(State())
      ensures !Approximately(value, old(position)) ==> State() == MuRecalculated(old(State()).(position := value), rope)
      ensures rope == old(rope) && hasTarget == old(hasTarget) && breakThreshold == old(breakThreshold)
      ensures relativeVelocity == old(relativeVelocity)
    {
      if !Approximately(value, position) {
        position := value;
        CalculateMu();
      }
    }

    /** The `limitRange` setter: only a change recalculates the range. */
    method SetLimitRange(value: bool)
      modifies this
      ensures value == old(limitRange) ==> State() == old(State())
      ensures value != old(limitRange) ==> State() == RangeRecalculated(old(State()).(limitRange := value), rope)
      ensures rope == old(rope) && hasTarget == old(hasTarget) && breakThreshold == old(breakThreshold)
      ensures relativeVelocity == old(relativeVelocity)
    {
      if limitRange != value {
        limitRange := value;
        CalculateRange();
      }
    }

    /** The `range` setter: always recalculates the range. */
    method SetRange(value: Real2)
      modifies this
      ensures State() == RangeRecalculated(old(State()).(range := value), rope)
      ensures rope == old(rope) && hasTarget == old(hasTarget) && breakThreshold == old(breakThreshold)
      ensures relativeVelocity == old(relativeVelocity)
    {
      range := value;
      CalculateRange();
    }

    /** `UpdateParameters`: with the batch found at `slot`, the component bound and
      * its parameters dirty, every active constraint gets the five parameters and
      * the flag is cleared; otherwise nothing changes. */
    method UpdateParameters(parameters: array<real>, slot: Option<nat>, count: nat)
      requires slot.Some? ==> 5 * (slot.value + count) <= parameters.Length
      modifies this, parameters
      ensures var act := slot.Some? && old(IsBound()) && old(parametersDirty);
              (act ==> parameters[..] == Filled(old(parameters[..]), 5 * slot.value, 5 * count, ParameterBlock(old(State())))
                       && State() == old(State()).(parametersDirty := false))
              && (!act ==> parameters[..] == old(parameters[..]) && State() == old(State()))
      ensures rope == old(rope) && hasTarget == old(hasTarget) && breakThreshold == old(breakThreshold)
      ensures relativeVelocity == old(relativeVelocity)
    {
      if slot.Some? && IsBound() && parametersDirty {
        WriteParameters(parameters, slot.value, count, ParameterBlock(State()));
        parametersDirty := false;
      }
    }

    /** The range half of `UpdateEdgeCoordinate`. */
    method SyncRange(edgeRanges: array<int>, edgeRangeMus: array<real>, offset: nat, count: nat)
      requires 2 * (offset + count) <= edgeRanges.Length && 2 * (offset + count) <= edgeRangeMus.Length
      modifies this, edgeRanges, edgeRangeMus
      ensures edgeRanges[..] == RangeSlots(old(State()), rope, old(edgeRanges[..]), offset, count)
      ensures edgeRangeMus[..] == RangeMuSlots(old(State()), old(edgeRangeMus[..]), offset, count)
      ensures State() == old(State()).(rangeDirty := false)
      ensures rope == old(rope) && hasTarget == old(hasTarget) && breakThreshold == old(breakThreshold)
      ensures relativeVelocity == old(relativeVelocity)
    {
      ghost var before := State();
      if rangeDirty {
        var off := rope.actor.deformableEdgesOffset;
        WriteRange(edgeRanges, edgeRangeMus, offset, count, off + firstEdge.edgeIndex, off + lastEdge.edgeIndex,
                   firstEdge.coordinate, lastEdge.coordinate);
        rangeDirty := false;
      }
      assert State() == before.(rangeDirty := false);
    }

    /** The position half of `UpdateEdgeCoordinate`, with the relative velocity. */
    method SyncPosition(particleIndices: array<int>, edgeMus: array<real>, relativeVelocities: seq<real>,
                        offset: nat, count: nat)
      requires offset + count <= particleIndices.Length && offset + count <= edgeMus.Length
      requires offset + count <= |relativeVelocities|
      modifies this, particleIndices, edgeMus
      ensures particleIndices[..] == EdgeSlots(old(State()), rope, old(particleIndices[..]), offset, count)
      ensures edgeMus[..] == MuSlots(old(State()), old(edgeMus[..]), offset, count)
      ensures State() == if old(positionDirty) then old(State()).(positionDirty := false)
                         else ReadBack(old(State()), rope, old(particleIndices[..]), old(edgeMus[..]), offset, count)
      ensures count > 0 ==> relativeVelocity == relativeVelocities[offset + count - 1]
      ensures count == 0 ==> relativeVelocity == old(relativeVelocity)
      ensures rope == old(rope) && hasTarget == old(hasTarget) && breakThreshold == old(breakThreshold)
    {
      ghost var before := State();
      if positionDirty {
        WritePosition(particleIndices, edgeMus, offset, count, rope.actor.deformableEdgesOffset + currentEdge.edgeIndex,
                      currentEdge.coordinate);
        positionDirty := false;
        assert State() == before.(positionDirty := false);
      } else {
        var edge, pos := ReadPosition(State(), rope, particleIndices[..], edgeMus[..], offset, count);
        currentEdge, position := edge, pos;
        assert State() == before.(currentEdge := edge, position := pos);
      }
      relativeVelocity := ReadRelativeVelocity(relativeVelocity, relativeVelocities, offset, count);
    }

    /** `UpdateEdgeCoordinate`: with the batch found at `slot` and the component bound,
      * a dirty range is written to the solver, a dirty position is written to it
      * and otherwise read back from it, and the relative velocity is read. */
    method UpdateEdgeCoordinate(particleIndices: array<int>, edgeMus: array<real>, edgeRanges: array<int>,
                                edgeRangeMus: array<real>, relativeVelocities: seq<real>, slot: Option<nat>, count: nat)
      requires particleIndices != edgeRanges && edgeMus != edgeRangeMus
      requires slot.Some? ==> slot.value + count <= particleIndices.Length && slot.value + count <= edgeMus.Length
                              && 2 * (slot.value + count) <= edgeRanges.Length && 2 * (slot.value + count) <= edgeRangeMus.Length
                              && slot.value + count <= |relativeVelocities|
      modifies this, particleIndices, edgeMus, edgeRanges, edgeRangeMus
      ensures rope == old(rope) && hasTarget == old(hasTarget) && breakThreshold == old(breakThreshold)
      ensures !(slot.Some? && old(IsBound())) ==>
                State() == old(State()) && relativeVelocity == old(relativeVelocity)
                && particleIndices[..] == old(particleIndices[..]) && edgeMus[..] == old(edgeMus[..])
                && edgeRanges[..] == old(edgeRanges[..]) && edgeRangeMus[..] == old(edgeRangeMus[..])
      ensures slot.Some? && old(IsBound()) ==>
                State() == SyncedState(old(State()), rope, old(particleIndices[..]), old(edgeMus[..]), slot.value, count)
                && edgeRanges[..] == RangeSlots(old(State()), rope, old(edgeRanges[..]), slot.value, count)
                && edgeRangeMus[..] == RangeMuSlots(old(State()), old(edgeRangeMus[..]), slot.value, count)
                && particleIndices[..] == EdgeSlots(old(State()), rope, old(particleIndices[..]), slot.value, count)
                && edgeMus[..] == MuSlots(old(State()), old(edgeMus[..]), slot.value, count)
                && (count > 0 ==> relativeVelocity == relativeVelocities[slot.value + count - 1])
                && (count == 0 ==> relativeVelocity == old(relativeVelocity))
    {
      if slot.Some? && IsBound() {
        SyncRange(edgeRanges, edgeRangeMus, slot.value, count);
        SyncPosition(particleIndices, edgeMus, relativeVelocities, slot.value, count);
      }
    }
  }
}
