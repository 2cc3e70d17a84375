/** The discrete part of the pinhole constraint's per-substep update in the Burst
  * backend (`UpdatePinsJob` in BurstPinholeConstraintsBatch.cs): clamping the
  * coordinate to the allowed edge range, the contiguity test between consecutive
  * edges, and the bounded walk along the edge chain when the pinhole slides past
  * the end of its current edge.
  *
  * Edge geometry is not modelled: the length of every deformable edge at the
  * interpolated time is an input (`lengths`), as is Burst's epsilon. */
module PinholeEdgeWalk {
  import opened Common

  /** The walk looks at most this many edges away. */
  const MaxWalk: nat := 10

  /** Burst's `nfmod` for a positive modulus: the floored, hence non-negative, remainder. */
  function Nfmod(a: int, n: int): (r: int)
    requires n > 0
    ensures 0 <= r < n
    ensures 0 <= a < n ==> r == a
    ensures a == -1 ==> r == n - 1
    ensures a == n ==> r == 0
  {
    a % n
  }

  /** The particles of deformable edge `e` are `edges[2e]` (start) and `edges[2e + 1]` (end). */
  predicate IsEdge(edges: seq<int>, e: int)
  {
    0 <= e && 2 * e + 1 < |edges|
  }

  /** `IsEdgeValid`: moving backwards, the next edge must end where the current one
    * starts; moving forwards, it must start where the current one ends. */
  predicate EdgeValid(edges: seq<int>, edge: int, next: int, mix: real)
    requires IsEdge(edges, edge) && IsEdge(edges, next)
  {
    if mix < 0.0 then edges[2 * next + 1] == edges[2 * edge]
    else edges[2 * next] == edges[2 * edge + 1]
  }

  datatype RangeClamp = RangeClamp(clamped: bool, mix: real)

  /** `ClampToRange`: on the first edge of the range the coordinate may not go below
    * the range's first coordinate; on the last edge it may not go above its last. */
  function ClampToRange(range: Int2, rangeMus: Real2, edge: int, mix: real): (c: RangeClamp)
    ensures edge != range.x && edge != range.y ==> c == RangeClamp(false, mix)
    ensures !c.clamped ==> c.mix == mix
    ensures c.clamped ==> c.mix == rangeMus.x || c.mix == rangeMus.y
    ensures c.clamped <==> (edge == range.x && mix < rangeMus.x) || (edge == range.y && mix > rangeMus.y)
  {
    var lo := if edge == range.x && mix < rangeMus.x then RangeClamp(true, rangeMus.x) else RangeClamp(false, mix);
    if edge == range.y && lo.mix > rangeMus.y then RangeClamp(true, rangeMus.y) else lo
  }

  /** Everything the walk reads besides its loop variables. `range` holds the first
    * and last edge the pinhole may slide over; `clampOnEnd` is parameter slot 4 > 0.5. */
  datatype Track = Track(edges: seq<int>, lengths: seq<real>, range: Int2, rangeMus: Real2,
                         clampOnEnd: bool, eps: real)

  predicate TrackValid(t: Track)
  {
    && |t.edges| == 2 * |t.lengths|
    && t.eps > 0.0
    && (forall e :: 0 <= e < |t.lengths| ==> t.lengths[e] >= 0.0)
    && 0 <= t.range.x <= t.range.y < |t.lengths|
  }

  /** Number of edges in the range: `max(0, y - x + 1)`, positive for a valid track. */
  function EdgeCount(t: Track): int
  {
    MaxInt(0, t.range.y - t.range.x + 1)
  }

  predicate InRange(t: Track, e: int)
  {
    t.range.x <= e <= t.range.y
  }

  /** The edge after `edge` in the direction of travel, wrapping around the range. */
  function NextEdge(t: Track, edge: int, backwards: bool): (next: int)
    requires TrackValid(t)
    ensures InRange(t, next) && IsEdge(t.edges, next)
  {
    var n := if backwards then edge - 1 else edge + 1;
    t.range.x + Nfmod(n - t.range.x, EdgeCount(t))
  }

  /** The edge reached after `steps` moves from `edge`. */
  function Advance(t: Track, edge: int, mix: real, steps: nat): int
    requires TrackValid(t)
  {
    if steps == 0 then edge else NextEdge(t, Advance(t, edge, mix, steps - 1), mix < 0.0)
  }

  /** `distToTravel`: how far past the end of `edge` the coordinate `mix` lies, in length. */
  function StartDistance(t: Track, edge: int, mix: real): real
    requires TrackValid(t) && IsEdge(t.edges, edge)
  {
    t.lengths[edge] * (if mix < 0.0 then -mix else mix - 1.0)
  }

  datatype WalkEnd = Disabled | Stop(edge: int, mix: real)

  /** The walk from iteration `k` on, on edge `edge`, with `dist` still to travel.
    * The coordinate `mix` keeps its sign for the whole walk: it only changes at a stop. */
  function Walk(t: Track, k: nat, edge: int, mix: real, dist: real): WalkEnd
    requires TrackValid(t) && IsEdge(t.edges, edge) && k <= MaxWalk
    decreases MaxWalk - k
  {
    if k == MaxWalk then Stop(edge, mix)
    else
      var next := NextEdge(t, edge, mix < 0.0);
      if !EdgeValid(t.edges, edge, next, mix) then
        if t.clampOnEnd then Stop(edge, Saturate(mix)) else Disabled
      else
        var len := t.lengths[next] + t.eps;
        if dist <= len then
          var m := if mix < 0.0 then 1.0 - Saturate(dist / len) else Saturate(dist / len);
          Stop(next, ClampToRange(t.range, t.rangeMus, next, m).mix)
        else
          var c := ClampToRange(t.range, t.rangeMus, next, mix);
          if c.clamped then Stop(next, c.mix) else Walk(t, k + 1, next, mix, dist - len)
  }

  /** One iteration of the edge loop at iteration `k`: either the walk ends here, with
    * the result `Walk` gives, or it moves on to `next` with `rest` still to travel. */
  method WalkStep(t: Track, k: nat, edgeIndex: int, mix: real, distToTravel: real)
      returns (result: Option<WalkEnd>, next: int, rest: real)
    requires TrackValid(t) && IsEdge(t.edges, edgeIndex) && k < MaxWalk
    ensures result.Some? ==> result.value == Walk(t, k, edgeIndex, mix, distToTravel)
    ensures result.None? ==> IsEdge(t.edges, next)
    ensures result.None? ==> Walk(t, k + 1, next, mix, rest) == Walk(t, k, edgeIndex, mix, distToTravel)
  {
    next := if mix < 0.0 then edgeIndex - 1 else edgeIndex + 1;
    next := t.range.x + Nfmod(next - t.range.x, EdgeCount(t));
    rest := distToTravel;
    if !EdgeValid(t.edges, edgeIndex, next, mix) {
      if !t.clampOnEnd {
        return Some(Disabled), next, rest;
      }
      return Some(Stop(edgeIndex, Saturate(mix))), next, rest;
    }
    var edgeLength := t.lengths[next] + t.eps;
    if distToTravel <= edgeLength {
      var m := if mix < 0.0 then 1.0 - Saturate(distToTravel / edgeLength) else Saturate(distToTravel / edgeLength);
      var c := ClampToRange(t.range, t.rangeMus, next, m);
      return Some(Stop(next, c.mix)), next, rest;
    }
    var c := ClampToRange(t.range, t.rangeMus, next, mix);
    if c.clamped {
      return Some(Stop(next, c.mix)), next, rest;
    }
    rest := distToTravel - edgeLength;
    WalkContinues(t, k, edgeIndex, mix, distToTravel);
    result := None;
  }

  /** The walk moves on to the next edge when that edge is joined, shorter than the
    * distance left and not clamped. */
  lemma WalkContinues(t: Track, k: nat, edge: int, mix: real, dist: real)
    requires TrackValid(t) && IsEdge(t.edges, edge) && k < MaxWalk
    requires var next := NextEdge(t, edge, mix < 0.0);
      && EdgeValid(t.edges, edge, next, mix)
      && dist > t.lengths[next] + t.eps
      && !ClampToRange(t.range, t.rangeMus, next, mix).clamped
    ensures var next := NextEdge(t, edge, mix < 0.0);
      Walk(t, k, edge, mix, dist) == Walk(t, k + 1, next, mix, dist - (t.lengths[next] + t.eps))
  {
  }

  /** The edge loop of `UpdatePinsJob.Execute`, entered when the coordinate `mix` lies
    * outside [0, 1] on `edge` (whose raw length is `lengths[edge]`). */
  method WalkEdges(t: Track, edge: int, mix: real) returns (r: WalkEnd)
    requires TrackValid(t) && IsEdge(t.edges, edge)
    ensures r == Walk(t, 0, edge, mix, StartDistance(t, edge, mix))
  {
    var distToTravel := StartDistance(t, edge, mix);
    var edgeIndex := edge;
    var k := 0;
    while k < MaxWalk
      invariant 0 <= k <= MaxWalk && IsEdge(t.edges, edgeIndex)
      invariant Walk(t, k, edgeIndex, mix, distToTravel)
             == Walk(t, 0, edge, mix, StartDistance(t, edge, mix))
    {
      var result;
      result, edgeIndex, distToTravel := WalkStep(t, k, edgeIndex, mix, distToTravel);
      if result.Some? {
        return result.value;
      }
      k := k + 1;
    }
    return Stop(edgeIndex, mix);
  }

  /** Every edge reached by advancing lies in the range, whatever the start edge. */
  lemma {:induction false} AdvanceInRange(t: Track, edge: int, mix: real, steps: nat)
    requires TrackValid(t) && steps > 0
    ensures InRange(t, Advance(t, edge, mix, steps))
  {
  }

  /** The walk ends on its start edge or on an edge at most `MaxWalk - k` moves away,
    * and every move it made went between joined edges. */
  lemma {:induction false} WalkStopsNearby(t: Track, k: nat, edge: int, mix: real, dist: real)
    requires TrackValid(t) && IsEdge(t.edges, edge) && k <= MaxWalk
    requires Walk(t, k, edge, mix, dist).Stop?
    ensures exists steps: nat :: steps <= MaxWalk - k && ReachedBy(t, edge, mix, steps, Walk(t, k, edge, mix, dist).edge)
    decreases MaxWalk - k
  {
    var w := Walk(t, k, edge, mix, dist);
    if k == MaxWalk {
      assert ReachedBy(t, edge, mix, 0, w.edge);
    } else {
      var next := NextEdge(t, edge, mix < 0.0);
      if !EdgeValid(t.edges, edge, next, mix) {
        assert ReachedBy(t, edge, mix, 0, w.edge);
      } else {
        var len := t.lengths[next] + t.eps;
        var c := ClampToRange(t.range, t.rangeMus, next, mix);
        if dist <= len || c.clamped {
          assert w.edge == next;
          assert ReachedBy(t, next, mix, 0, w.edge);
          ReachedByStep(t, edge, mix, 0, w.edge);
        } else {
          assert w == Walk(t, k + 1, next, mix, dist - len);
          WalkStopsNearby(t, k + 1, next, mix, dist - len);
          var steps: nat :| steps <= MaxWalk - (k + 1) && ReachedBy(t, next, mix, steps, w.edge);
          ReachedByStep(t, edge, mix, steps, w.edge);
        }
      }
    }
  }

  /** `target` is `steps` moves from `edge`, and each of those moves went between
    * joined edges. */
  predicate ReachedBy(t: Track, edge: int, mix: real, steps: nat, target: int)
    requires TrackValid(t)
  {
    target == Advance(t, edge, mix, steps) && forall j: nat :: j < steps ==> WalkJoined(t, edge, mix, j)
  }

  /** A joined first move followed by a joined path is a joined path one move longer. */
  lemma {:induction false} ReachedByStep(t: Track, edge: int, mix: real, steps: nat, target: int)
    requires TrackValid(t) && IsEdge(t.edges, edge)
    requires EdgeValid(t.edges, edge, NextEdge(t, edge, mix < 0.0), mix)
    requires ReachedBy(t, NextEdge(t, edge, mix < 0.0), mix, steps, target)
    ensures ReachedBy(t, edge, mix, steps + 1, target)
  {
    var next := NextEdge(t, edge, mix < 0.0);
    AdvanceShift(t, edge, mix, steps);
    forall j: nat | j < steps + 1 ensures WalkJoined(t, edge, mix, j) {
      if j == 0 {
        assert Advance(t, edge, mix, 1) == next;
      } else {
        AdvanceShift(t, edge, mix, j - 1);
        AdvanceShift(t, edge, mix, j);
        assert WalkJoined(t, next, mix, j - 1);
      }
    }
  }

  /** The `j`-th move of a walk from `edge` goes between two joined edges. */
  predicate WalkJoined(t: Track, edge: int, mix: real, j: nat)
    requires TrackValid(t)
  {
    var a := Advance(t, edge, mix, j);
    IsEdge(t.edges, a) && EdgeValid(t.edges, a, Advance(t, edge, mix, j + 1), mix)
  }

  /** Advancing one step and then `steps` more is advancing `steps + 1`. */
  lemma {:induction false} AdvanceShift(t: Track, edge: int, mix: real, steps: nat)
    requires TrackValid(t)
    ensures Advance(t, NextEdge(t, edge, mix < 0.0), mix, steps) == Advance(t, edge, mix, steps + 1)
  {
    if steps > 0 {
      AdvanceShift(t, edge, mix, steps - 1);
    }
  }

  /** A walk is only disabled when the track does not clamp on its ends. */
  lemma {:induction false} WalkDisablesOnlyWithoutClamp(t: Track, k: nat, edge: int, mix: real, dist: real)
    requires TrackValid(t) && IsEdge(t.edges, edge) && k <= MaxWalk
    requires Walk(t, k, edge, mix, dist) == Disabled
    decreases MaxWalk - k
    ensures !t.clampOnEnd
  {
    if k < MaxWalk {
      var next := NextEdge(t, edge, mix < 0.0);
      if EdgeValid(t.edges, edge, next, mix) {
        WalkDisablesOnlyWithoutClamp(t, k + 1, next, mix, dist - (t.lengths[next] + t.eps));
      }
    }
  }

  /** Where a walk stops, the coordinate is in [0, 1], or it was set by a range clamp,
    * or the walk used up all its moves and the coordinate is the one it started with. */
  lemma {:induction false} WalkStopCoordinate(t: Track, k: nat, edge: int, mix: real, dist: real)
    requires TrackValid(t) && IsEdge(t.edges, edge) && k <= MaxWalk
    requires Walk(t, k, edge, mix, dist).Stop?
    decreases MaxWalk - k
    ensures var m := Walk(t, k, edge, mix, dist).mix;
      (0.0 <= m <= 1.0) || m == t.rangeMus.x || m == t.rangeMus.y || m == mix
  {
    if k < MaxWalk {
      var next := NextEdge(t, edge, mix < 0.0);
      var len := t.lengths[next] + t.eps;
      if EdgeValid(t.edges, edge, next, mix) && dist > len && !ClampToRange(t.range, t.rangeMus, next, mix).clamped {
        WalkStopCoordinate(t, k + 1, next, mix, dist - len);
      }
    }
  }
}
