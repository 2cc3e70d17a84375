/** The blueprint-side storage of pinhole constraints: parallel lists with one,
  * two or five entries per constraint, appended to, swapped, merged into a
  * solver batch and cleared. The base class that keeps the constraint and
  * active counts is not part of this model; `Merge` takes both active counts
  * as parameters. */
module PinholeBatch {
  import opened Common

  /** A position on a rope: an edge and the normalised coordinate along it. */
  datatype PinholeEdge = PinholeEdge(edgeIndex: int, coordinate: real)

  /** What this model needs of a rope actor: where its edges start in the solver
    * and how many deformable edges it has. */
  datatype Actor = Actor(deformableEdgesOffset: int, deformableEdgeCount: int)

  /** A collider handle; a handle made without a collider carries an index that
    * the handle type decides, which is not part of this model. */
  datatype Handle = Handle(index: int)
  datatype Collider = Collider(handle: Handle)

  /** The rope coordinate of an edge position: 0 for an actor without edges,
    * otherwise the edge-count-normalised position, clamped into [0, 1]. */
  function GetRopeCoordinate(e: PinholeEdge, actor: Actor): (r: real)
    ensures 0.0 <= r <= 1.0
    ensures actor.deformableEdgeCount <= 0 ==> r == 0.0
    ensures actor.deformableEdgeCount > 0 && 0 <= e.edgeIndex < actor.deformableEdgeCount && 0.0 <= e.coordinate <= 1.0 ==>
              r * actor.deformableEdgeCount as real == e.edgeIndex as real + e.coordinate
  {
    var edgeCount := actor.deformableEdgeCount;
    if edgeCount > 0 then RopeFraction(e.edgeIndex as real + e.coordinate, edgeCount) else 0.0
  }

  /** `Clamp01(position / edgeCount)`: a position within the edges is kept exactly. */
  function RopeFraction(position: real, edgeCount: int): (r: real)
    requires edgeCount > 0
    ensures 0.0 <= r <= 1.0
    ensures 0.0 <= position <= edgeCount as real ==> r * edgeCount as real == position
  {
    var n := edgeCount as real;
    var q := position / n;
    assert 0.0 <= position <= n ==> 0.0 <= q <= 1.0;
    Clamp01(q)
  }

  /** The collider index stored for a constraint: the handle's index, or -1 without one. */
  function HandleIndex(h: Option<Handle>): (r: int)
    ensures h.None? ==> r == -1
    ensures h.Some? ==> r == h.value.index
  {
    if h.Some? then h.value.index else -1
  }

  /** `len` consecutive entries starting at `i` exchanged with those starting at
    * `j`; the two blocks coincide or do not overlap. */
  function SwapBlock<T>(s: seq<T>, i: nat, j: nat, len: nat): (r: seq<T>)
    requires i + len <= |s| && j + len <= |s|
    requires i == j || i + len <= j || j + len <= i
    ensures |r| == |s|
  {
    seq(|s|, p requires 0 <= p < |s| =>
      if i <= p < i + len then s[j + (p - i)]
      else if j <= p < j + len then s[i + (p - j)]
      else s[p])
  }

  /** Each block receives the other block's entries in order; the rest is unchanged. */
  lemma SwapBlockEntries<T>(s: seq<T>, i: nat, j: nat, len: nat)
    requires i + len <= |s| && j + len <= |s|
    requires i == j || i + len <= j || j + len <= i
    ensures var r := SwapBlock(s, i, j, len);
            (forall p :: i <= p < i + len ==> r[p] == s[j + (p - i)])
            && (forall p :: j <= p < j + len ==> r[p] == s[i + (p - j)])
            && (forall p :: 0 <= p < |s| && !(i <= p < i + len) && !(j <= p < j + len) ==> r[p] == s[p])
            && r[i..i + len] == s[j..j + len] && r[j..j + len] == s[i..i + len]
  {
  }

  /** Exchanging the same blocks twice gives back the original list. */
  lemma SwapBlockTwice<T>(s: seq<T>, i: nat, j: nat, len: nat)
    requires i + len <= |s| && j + len <= |s|
    requires i == j || i + len <= j || j + len <= i
    ensures SwapBlock(SwapBlock(s, i, j, len), i, j, len) == s
  {
    var t := SwapBlock(s, i, j, len);
    var u := SwapBlock(t, i, j, len);
    SwapBlockEntries(s, i, j, len);
    SwapBlockEntries(t, i, j, len);
    forall p | 0 <= p < |s| ensures u[p] == s[p] {
      if i <= p < i + len {
        assert u[i + (p - i)] == t[j + (p - i)];
      } else if j <= p < j + len {
        assert u[j + (p - j)] == t[i + (p - j)];
      }
    }
  }

  /** Exchanging one more entry of each block extends a block exchange by one. */
  lemma SwapBlockStep<T>(s: seq<T>, i: nat, j: nat, len: nat)
    requires i + len + 1 <= |s| && j + len + 1 <= |s|
    requires i == j || i + len + 1 <= j || j + len + 1 <= i
    ensures SwapBlock(SwapBlock(s, i, j, len), i + len, j + len, 1) == SwapBlock(s, i, j, len + 1)
  {
    var t0 := SwapBlock(s, i, j, len);
    var t := SwapBlock(t0, i + len, j + len, 1);
    var u := SwapBlock(s, i, j, len + 1);
    SwapBlockEntries(s, i, j, len);
    SwapBlockEntries(t0, i + len, j + len, 1);
    SwapBlockEntries(s, i, j, len + 1);
    forall p | 0 <= p < |s| ensures t[p] == u[p] {
      if i <= p < i + len + 1 {
        assert u[i + (p - i)] == s[j + (p - i)];
      } else if j <= p < j + len + 1 {
        assert u[j + (p - j)] == s[i + (p - j)];
      }
    }
  }


  /** A block exchange leaves in place any block that overlaps neither exchanged block. */
  lemma BlockKept<T>(s: seq<T>, i: nat, j: nat, len: nat, q: nat)
    requires i + len <= |s| && j + len <= |s| && q + len <= |s|
    requires i == j || i + len <= j || j + len <= i
    requires q + len <= i || i + len <= q
    requires q + len <= j || j + len <= q
    ensures SwapBlock(s, i, j, len)[q..q + len] == s[q..q + len]
  {
    SwapBlockEntries(s, i, j, len);
  }

  /** The block at i receives the block at j; for single entries, entry i receives entry j. */
  lemma BlockMoved<T>(s: seq<T>, i: nat, j: nat, len: nat)
    requires i + len <= |s| && j + len <= |s|
    requires i == j || i + len <= j || j + len <= i
    ensures SwapBlock(s, i, j, len)[i..i + len] == s[j..j + len]
    ensures len == 1 ==> SwapBlock(s, i, j, len)[i] == s[j]
  {
    SwapBlockEntries(s, i, j, len);
  }

  /** Exchanging entries i and j leaves every other entry in place. */
  lemma EntryKept<T>(s: seq<T>, i: nat, j: nat, q: nat)
    requires i < |s| && j < |s| && q < |s| && q != i && q != j
    ensures SwapBlock(s, i, j, 1)[q] == s[q]
  {
    BlockKept(s, i, j, 1, q);
    assert SwapBlock(s, i, j, 1)[q] == SwapBlock(s, i, j, 1)[q..q + 1][0];
  }

  /** The entry-by-entry exchange of two blocks that `SwapConstraints` performs on
    * the lists with two and five entries per constraint. */
  method SwapEntries<T>(s: seq<T>, i: nat, j: nat, len: nat) returns (r: seq<T>)
    requires i + len <= |s| && j + len <= |s|
    requires i == j || i + len <= j || j + len <= i
    ensures r == SwapBlock(s, i, j, len)
  {
    r := s;
    assert SwapBlock(s, i, j, 0) == s;
    for k := 0 to len
      invariant r == SwapBlock(s, i, j, k)
    {
      SwapBlockStep(s, i, j, k);
      r := SwapBlock(r, i + k, j + k, 1);
    }
  }

  /** One constraint as stored across the parallel lists. */
  datatype PinRecord = PinRecord(
    edge: int, mu: real,
    edgeRange: seq<int>, edgeRangeMus: seq<real>,  // first and last edge, first and last coordinate
    colliderIndex: int, offset: Vec4,
    parameters: seq<real>,  // compliance, friction, motor speed, motor force, clamp at ends
    relativeVelocity: real)

  predicate RecordShaped(rec: PinRecord)
  {
    |rec.edgeRange| == 2 && |rec.edgeRangeMus| == 2 && |rec.parameters| == 5
  }

  /** The lists of a batch that hold a fixed number of entries per constraint. */
  datatype Lists = Lists(
    particleIndices: seq<int>, colliderIndices: seq<int>, offsets: seq<Vec4>, edgeMus: seq<real>,
    edgeRanges: seq<int>, edgeRangeMus: seq<real>, parameters: seq<real>, relativeVelocities: seq<real>)

  function Count(l: Lists): nat { |l.particleIndices| }

  /** One entry per constraint in the per-constraint lists, two in the range lists
    * and five in the parameter list. */
  predicate WellFormed(l: Lists)
  {
    var n := Count(l);
    |l.colliderIndices| == n && |l.offsets| == n && |l.edgeMus| == n && |l.relativeVelocities| == n
    && |l.edgeRanges| == 2 * n && |l.edgeRangeMus| == 2 * n && |l.parameters| == 5 * n
  }

  function RecordAt(l: Lists, i: nat): (rec: PinRecord)
    requires WellFormed(l) && i < Count(l)
    ensures RecordShaped(rec)
  {
    PinRecord(l.particleIndices[i], l.edgeMus[i], l.edgeRanges[2 * i..2 * i + 2], l.edgeRangeMus[2 * i..2 * i + 2],
      l.colliderIndices[i], l.offsets[i], l.parameters[5 * i..5 * i + 5], l.relativeVelocities[i])
  }

  /** The constraints of a batch, read across all lists with their strides. */
  function Records(l: Lists): (rs: seq<PinRecord>)
    requires WellFormed(l)
    ensures |rs| == Count(l)
  {
    seq(Count(l), i requires 0 <= i < Count(l) => RecordAt(l, i))
  }

  const Empty: Lists := Lists([], [], [], [], [], [], [], [])

  /** The lists after appending one constraint to each. */
  function Append(l: Lists, rec: PinRecord): (r: Lists)
    requires RecordShaped(rec)
    ensures WellFormed(l) ==> WellFormed(r) && Count(r) == Count(l) + 1
  {
    Lists(l.particleIndices + [rec.edge], l.colliderIndices + [rec.colliderIndex], l.offsets + [rec.offset],
      l.edgeMus + [rec.mu], l.edgeRanges + rec.edgeRange, l.edgeRangeMus + rec.edgeRangeMus,
      l.parameters + rec.parameters, l.relativeVelocities + [rec.relativeVelocity])
  }

  /** Appending to every list appends one constraint and keeps the others. */
  lemma AppendRecords(l: Lists, rec: PinRecord)
    requires WellFormed(l) && RecordShaped(rec)
    ensures WellFormed(Append(l, rec))
    ensures Records(Append(l, rec)) == Records(l) + [rec]
  {
    var r, n := Append(l, rec), Count(l);
    forall i | 0 <= i < n ensures RecordAt(r, i) == RecordAt(l, i) {
      assert r.edgeRanges[2 * i..2 * i + 2] == l.edgeRanges[2 * i..2 * i + 2];
      assert r.edgeRangeMus[2 * i..2 * i + 2] == l.edgeRangeMus[2 * i..2 * i + 2];
      assert r.parameters[5 * i..5 * i + 5] == l.parameters[5 * i..5 * i + 5];
    }
    assert r.edgeRanges[2 * n..2 * n + 2] == rec.edgeRange;
    assert r.edgeRangeMus[2 * n..2 * n + 2] == rec.edgeRangeMus;
    assert r.parameters[5 * n..5 * n + 5] == rec.parameters;
    assert RecordAt(r, n) == rec;
  }

  /** The lists with constraints a and b exchanged, each list with its stride. */
  function SwapLists(l: Lists, a: nat, b: nat): (r: Lists)
    requires WellFormed(l) && a < Count(l) && b < Count(l)
    ensures WellFormed(r) && Count(r) == Count(l)
  {
    Lists(SwapBlock(l.particleIndices, a, b, 1), SwapBlock(l.colliderIndices, a, b, 1),
      SwapBlock(l.offsets, a, b, 1), SwapBlock(l.edgeMus, a, b, 1),
      SwapBlock(l.edgeRanges, 2 * a, 2 * b, 2), SwapBlock(l.edgeRangeMus, 2 * a, 2 * b, 2),
      SwapBlock(l.parameters, 5 * a, 5 * b, 5), SwapBlock(l.relativeVelocities, a, b, 1))
  }

  /** Two constraints are equal when each list holds the same entries for them. */
  lemma RecordAtFrom(r: Lists, i: nat, l: Lists, j: nat)
    requires WellFormed(r) && WellFormed(l) && i < Count(r) && j < Count(l)
    requires r.particleIndices[i] == l.particleIndices[j] && r.colliderIndices[i] == l.colliderIndices[j]
    requires r.offsets[i] == l.offsets[j] && r.edgeMus[i] == l.edgeMus[j]
    requires r.relativeVelocities[i] == l.relativeVelocities[j]
    requires r.edgeRanges[2 * i..2 * i + 2] == l.edgeRanges[2 * j..2 * j + 2]
    requires r.edgeRangeMus[2 * i..2 * i + 2] == l.edgeRangeMus[2 * j..2 * j + 2]
    requires r.parameters[5 * i..5 * i + 5] == l.parameters[5 * j..5 * j + 5]
    ensures RecordAt(r, i) == RecordAt(l, j)
  {
  }

  /** The single entries of constraint a in the swapped lists are those of constraint b. */
  lemma SwappedEntries(l: Lists, a: nat, b: nat)
    requires WellFormed(l) && a < Count(l) && b < Count(l)
    ensures var r := SwapLists(l, a, b);
            r.particleIndices[a] == l.particleIndices[b] && r.colliderIndices[a] == l.colliderIndices[b]
            && r.offsets[a] == l.offsets[b] && r.edgeMus[a] == l.edgeMus[b]
            && r.relativeVelocities[a] == l.relativeVelocities[b]
  {
    BlockMoved(l.particleIndices, a, b, 1);
    BlockMoved(l.colliderIndices, a, b, 1);
    BlockMoved(l.offsets, a, b, 1);
    BlockMoved(l.edgeMus, a, b, 1);
    BlockMoved(l.relativeVelocities, a, b, 1);
  }

  /** The blocks of constraint a in the swapped range and parameter lists are those of constraint b. */
  lemma SwappedBlocks(l: Lists, a: nat, b: nat)
    requires WellFormed(l) && a < Count(l) && b < Count(l)
    ensures var r := SwapLists(l, a, b);
            r.edgeRanges[2 * a..2 * a + 2] == l.edgeRanges[2 * b..2 * b + 2]
            && r.edgeRangeMus[2 * a..2 * a + 2] == l.edgeRangeMus[2 * b..2 * b + 2]
            && r.parameters[5 * a..5 * a + 5] == l.parameters[5 * b..5 * b + 5]
  {
    BlockMoved(l.edgeRanges, 2 * a, 2 * b, 2);
    BlockMoved(l.edgeRangeMus, 2 * a, 2 * b, 2);
    BlockMoved(l.parameters, 5 * a, 5 * b, 5);
  }

  /** Constraint a of the swapped lists is constraint b of the original lists. */
  lemma SwappedRecordAt(l: Lists, a: nat, b: nat)
    requires WellFormed(l) && a < Count(l) && b < Count(l)
    ensures RecordAt(SwapLists(l, a, b), a) == RecordAt(l, b)
  {
    SwappedEntries(l, a, b);
    SwappedBlocks(l, a, b);
    RecordAtFrom(SwapLists(l, a, b), a, l, b);
  }

  /** The block exchange is the same whichever of the two blocks is named first. */
  lemma SwapBlockSymmetric<T>(s: seq<T>, i: nat, j: nat, len: nat)
    requires i + len <= |s| && j + len <= |s|
    requires i == j || i + len <= j || j + len <= i
    ensures SwapBlock(s, i, j, len) == SwapBlock(s, j, i, len)
  {
    SwapBlockEntries(s, i, j, len);
    SwapBlockEntries(s, j, i, len);
  }

  lemma SwapListsSymmetric(l: Lists, a: nat, b: nat)
    requires WellFormed(l) && a < Count(l) && b < Count(l)
    ensures SwapLists(l, a, b) == SwapLists(l, b, a)
  {
    SwapBlockSymmetric(l.particleIndices, a, b, 1);
    SwapBlockSymmetric(l.colliderIndices, a, b, 1);
    SwapBlockSymmetric(l.offsets, a, b, 1);
    SwapBlockSymmetric(l.edgeMus, a, b, 1);
    SwapBlockSymmetric(l.edgeRanges, 2 * a, 2 * b, 2);
    SwapBlockSymmetric(l.edgeRangeMus, 2 * a, 2 * b, 2);
    SwapBlockSymmetric(l.parameters, 5 * a, 5 * b, 5);
    SwapBlockSymmetric(l.relativeVelocities, a, b, 1);
  }

  /** Any constraint other than a and b keeps its single entries. */
  lemma SwapKeepsEntries(l: Lists, a: nat, b: nat, i: nat)
    requires WellFormed(l) && a < Count(l) && b < Count(l) && i < Count(l) && i != a && i != b
    ensures var r := SwapLists(l, a, b);
            r.particleIndices[i] == l.particleIndices[i] && r.colliderIndices[i] == l.colliderIndices[i]
            && r.offsets[i] == l.offsets[i] && r.edgeMus[i] == l.edgeMus[i]
            && r.relativeVelocities[i] == l.relativeVelocities[i]
  {
    EntryKept(l.particleIndices, a, b, i);
    EntryKept(l.colliderIndices, a, b, i);
    EntryKept(l.offsets, a, b, i);
    EntryKept(l.edgeMus, a, b, i);
    EntryKept(l.relativeVelocities, a, b, i);
  }

  /** Any constraint other than a and b keeps its range and parameter blocks. */
  lemma SwapKeepsBlocks(l: Lists, a: nat, b: nat, i: nat)
    requires WellFormed(l) && a < Count(l) && b < Count(l) && i < Count(l) && i != a && i != b
    ensures var r := SwapLists(l, a, b);
            r.edgeRanges[2 * i..2 * i + 2] == l.edgeRanges[2 * i..2 * i + 2]
            && r.edgeRangeMus[2 * i..2 * i + 2] == l.edgeRangeMus[2 * i..2 * i + 2]
            && r.parameters[5 * i..5 * i + 5] == l.parameters[5 * i..5 * i + 5]
  {
    BlockKept(l.edgeRanges, 2 * a, 2 * b, 2, 2 * i);
    BlockKept(l.edgeRangeMus, 2 * a, 2 * b, 2, 2 * i);
    BlockKept(l.parameters, 5 * a, 5 * b, 5, 5 * i);
  }

  /** Any constraint other than a and b keeps its entries in every list. */
  lemma SwapKeepsRecordAt(l: Lists, a: nat, b: nat, i: nat)
    requires WellFormed(l) && a < Count(l) && b < Count(l) && i < Count(l) && i != a && i != b
    ensures RecordAt(SwapLists(l, a, b), i) == RecordAt(l, i)
  {
    SwapKeepsEntries(l, a, b, i);
    SwapKeepsBlocks(l, a, b, i);
    RecordAtFrom(SwapLists(l, a, b), i, l, i);
  }

  /** Swapping the lists exchanges constraints a and b as wholes and keeps every other one. */
  lemma SwapRecords(l: Lists, a: nat, b: nat)
    requires WellFormed(l) && a < Count(l) && b < Count(l)
    ensures Records(SwapLists(l, a, b)) == SwapBlock(Records(l), a, b, 1)
  {
    var r, rs := SwapLists(l, a, b), SwapBlock(Records(l), a, b, 1);
    SwapBlockEntries(Records(l), a, b, 1);
    forall i | 0 <= i < Count(l) ensures Records(r)[i] == rs[i] {
      if i == a {
        SwappedRecordAt(l, a, b);
      } else if i == b {
        SwapListsSymmetric(l, a, b);
        SwappedRecordAt(l, b, a);
      } else {
        SwapKeepsRecordAt(l, a, b, i);
      }
    }
  }

  /** Swapping the same two constraints twice restores every list. */
  lemma SwapListsTwice(l: Lists, a: nat, b: nat)
    requires WellFormed(l) && a < Count(l) && b < Count(l)
    ensures SwapLists(SwapLists(l, a, b), a, b) == l
  {
    SwapBlockTwice(l.particleIndices, a, b, 1);
    SwapBlockTwice(l.colliderIndices, a, b, 1);
    SwapBlockTwice(l.offsets, a, b, 1);
    SwapBlockTwice(l.edgeMus, a, b, 1);
    SwapBlockTwice(l.edgeRanges, 2 * a, 2 * b, 2);
    SwapBlockTwice(l.edgeRangeMus, 2 * a, 2 * b, 2);
    SwapBlockTwice(l.parameters, 5 * a, 5 * b, 5);
    SwapBlockTwice(l.relativeVelocities, a, b, 1);
  }

  /** The edges a merged constraint gets in the solver: offset by its actor's first
    * edge, or all -1 without an actor; the current edge is clamped into the range. */
  datatype EdgeSpan = EdgeSpan(first: int, last: int, current: int)

  function MergedSpan(actor: Option<Actor>, current: int, first: int, last: int): (r: EdgeSpan)
    ensures actor.None? ==> r == EdgeSpan(-1, -1, -1)
    ensures actor.Some? ==>
              r.first == actor.value.deformableEdgesOffset + first && r.last == actor.value.deformableEdgesOffset + last
    ensures r.first <= r.last ==> r.first <= r.current <= r.last
    ensures actor.Some? && first <= current <= last ==> r.current == actor.value.deformableEdgesOffset + current
  {
    match actor
    case None => EdgeSpan(-1, -1, -1)
    case Some(a) =>
      var f, l := a.deformableEdgesOffset + first, a.deformableEdgesOffset + last;
      EdgeSpan(f, l, MathfClampInt(a.deformableEdgesOffset + current, f, l))
  }

  /** The solver-side edges of the first `count` constraints of a merged batch. */
  function MergedSpans(actors: seq<Option<Actor>>, particleIndices: seq<int>, edgeRanges: seq<int>, count: nat): (spans: seq<EdgeSpan>)
    requires count <= |actors| && count <= |particleIndices| && 2 * count <= |edgeRanges|
    ensures |spans| == count
  {
    seq(count, k requires 0 <= k < count => MergedSpan(actors[k], particleIndices[k], edgeRanges[2 * k], edgeRanges[2 * k + 1]))
  }

  /** The range list of a sequence of spans: first and last edge of each. */
  function SpanRanges(spans: seq<EdgeSpan>): (r: seq<int>)
    ensures |r| == 2 * |spans|
    ensures forall k :: 0 <= k < |spans| ==> r[2 * k] == spans[k].first && r[2 * k + 1] == spans[k].last
  {
    if spans == [] then []
    else
      var init := SpanRanges(spans[..|spans| - 1]);
      assert forall k :: 0 <= k < |spans| - 1 ==> spans[..|spans| - 1][k] == spans[k];
      init + [spans[|spans| - 1].first, spans[|spans| - 1].last]
  }

  /** The receiving lists after `Merge`: the first `active` constraints kept, then the
    * first `otherActive` constraints of `o` with their edges remapped. */
  function MergeLists(l: Lists, active: nat, o: Lists, otherActive: nat,
                      actors: seq<Option<Actor>>, bodies: seq<Option<Handle>>): (r: Lists)
    requires WellFormed(l) && WellFormed(o) && active <= Count(l) && otherActive <= Count(o)
    requires otherActive <= |actors| && otherActive <= |bodies|
    ensures WellFormed(r) && Count(r) == active + otherActive
  {
    var spans := MergedSpans(actors, o.particleIndices, o.edgeRanges, otherActive);
    Lists(l.particleIndices[..active] + seq(otherActive, k requires 0 <= k < otherActive => spans[k].current),
      l.colliderIndices[..active] + seq(otherActive, k requires 0 <= k < otherActive => HandleIndex(bodies[k])),
      l.offsets[..active] + o.offsets[..otherActive],
      l.edgeMus[..active] + o.edgeMus[..otherActive],
      l.edgeRanges[..2 * active] + SpanRanges(spans),
      l.edgeRangeMus[..2 * active] + o.edgeRangeMus[..2 * otherActive],
      l.parameters[..5 * active] + o.parameters[..5 * otherActive],
      l.relativeVelocities[..active] + o.relativeVelocities[..otherActive])
  }

  /** A constraint of the merged batch as the receiving batch stores it. */
  function Remapped(rec: PinRecord, actor: Option<Actor>, body: Option<Handle>): PinRecord
    requires RecordShaped(rec)
  {
    var span := MergedSpan(actor, rec.edge, rec.edgeRange[0], rec.edgeRange[1]);
    rec.(edge := span.current, edgeRange := [span.first, span.last], colliderIndex := HandleIndex(body))
  }

  /** A slice of a concatenation that lies within its first part. */
  lemma SliceBefore<T>(a: seq<T>, b: seq<T>, x: nat, len: nat)
    requires x + len <= |a|
    ensures (a + b)[x..x + len] == a[x..x + len]
  {
  }

  /** A slice of a concatenation that lies within its second part. */
  lemma SliceAfter<T>(a: seq<T>, b: seq<T>, x: nat, len: nat)
    requires |a| <= x && x + len <= |a| + |b|
    ensures (a + b)[x..x + len] == b[x - |a|..x - |a| + len]
  {
  }

  /** A constraint below `active` keeps its entries when the batch is merged into. */
  lemma MergeKeepsRecordAt(l: Lists, active: nat, o: Lists, otherActive: nat,
                           actors: seq<Option<Actor>>, bodies: seq<Option<Handle>>, i: nat)
    requires WellFormed(l) && WellFormed(o) && active <= Count(l) && otherActive <= Count(o)
    requires otherActive <= |actors| && otherActive <= |bodies| && i < active
    ensures RecordAt(MergeLists(l, active, o, otherActive, actors, bodies), i) == RecordAt(l, i)
  {
    var spans := MergedSpans(actors, o.particleIndices, o.edgeRanges, otherActive);
    SliceBefore(l.edgeRanges[..2 * active], SpanRanges(spans), 2 * i, 2);
    SliceBefore(l.edgeRangeMus[..2 * active], o.edgeRangeMus[..2 * otherActive], 2 * i, 2);
    SliceBefore(l.parameters[..5 * active], o.parameters[..5 * otherActive], 5 * i, 5);
  }

  /** The single entries of constraint `active + i` of the merged lists. */
  lemma MergedEntries(l: Lists, active: nat, o: Lists, otherActive: nat,
                      actors: seq<Option<Actor>>, bodies: seq<Option<Handle>>, i: nat)
    requires WellFormed(l) && WellFormed(o) && active <= Count(l) && otherActive <= Count(o)
    requires otherActive <= |actors| && otherActive <= |bodies| && i < otherActive
    ensures var r := MergeLists(l, active, o, otherActive, actors, bodies);
            var span := MergedSpan(actors[i], o.particleIndices[i], o.edgeRanges[2 * i], o.edgeRanges[2 * i + 1]);
            r.particleIndices[active + i] == span.current && r.colliderIndices[active + i] == HandleIndex(bodies[i])
            && r.offsets[active + i] == o.offsets[i] && r.edgeMus[active + i] == o.edgeMus[i]
            && r.relativeVelocities[active + i] == o.relativeVelocities[i]
  {
  }

  /** The edge range of constraint `active + i` of the merged lists is its remapped span. */
  lemma MergedRangeBlock(l: Lists, active: nat, o: Lists, otherActive: nat,
                         actors: seq<Option<Actor>>, bodies: seq<Option<Handle>>, i: nat)
    requires WellFormed(l) && WellFormed(o) && active <= Count(l) && otherActive <= Count(o)
    requires otherActive <= |actors| && otherActive <= |bodies| && i < otherActive
    ensures var r := MergeLists(l, active, o, otherActive, actors, bodies);
            var span := MergedSpan(actors[i], o.particleIndices[i], o.edgeRanges[2 * i], o.edgeRanges[2 * i + 1]);
            r.edgeRanges[2 * (active + i)..2 * (active + i) + 2] == [span.first, span.last]
  {
    var spans := MergedSpans(actors, o.particleIndices, o.edgeRanges, otherActive);
    SliceAfter(l.edgeRanges[..2 * active], SpanRanges(spans), 2 * (active + i), 2);
    assert SpanRanges(spans)[2 * i..2 * i + 2] == [spans[i].first, spans[i].last];
  }

  /** The range coordinates and parameters of constraint `active + i` of the merged
    * lists are those of constraint i of the other batch. */
  lemma MergedCopiedBlocks(l: Lists, active: nat, o: Lists, otherActive: nat,
                           actors: seq<Option<Actor>>, bodies: seq<Option<Handle>>, i: nat)
    requires WellFormed(l) && WellFormed(o) && active <= Count(l) && otherActive <= Count(o)
    requires otherActive <= |actors| && otherActive <= |bodies| && i < otherActive
    ensures var r := MergeLists(l, active, o, otherActive, actors, bodies);
            r.edgeRangeMus[2 * (active + i)..2 * (active + i) + 2] == o.edgeRangeMus[2 * i..2 * i + 2]
            && r.parameters[5 * (active + i)..5 * (active + i) + 5] == o.parameters[5 * i..5 * i + 5]
  {
    SliceAfter(l.edgeRangeMus[..2 * active], o.edgeRangeMus[..2 * otherActive], 2 * (active + i), 2);
    SliceAfter(l.parameters[..5 * active], o.parameters[..5 * otherActive], 5 * (active + i), 5);
  }

  /** Constraint `active + i` of the merged lists is constraint i of the other
    * batch, remapped. */
  lemma MergeAppendsRecordAt(l: Lists, active: nat, o: Lists, otherActive: nat,
                             actors: seq<Option<Actor>>, bodies: seq<Option<Handle>>, i: nat)
    requires WellFormed(l) && WellFormed(o) && active <= Count(l) && otherActive <= Count(o)
    requires otherActive <= |actors| && otherActive <= |bodies| && i < otherActive
    ensures RecordAt(MergeLists(l, active, o, otherActive, actors, bodies), active + i)
            == Remapped(RecordAt(o, i), actors[i], bodies[i])
  {
    MergedEntries(l, active, o, otherActive, actors, bodies, i);
    MergedRangeBlock(l, active, o, otherActive, actors, bodies, i);
    MergedCopiedBlocks(l, active, o, otherActive, actors, bodies, i);
    assert o.edgeRanges[2 * i..2 * i + 2] == [o.edgeRanges[2 * i], o.edgeRanges[2 * i + 1]];
  }

  /** Merging keeps the first `active` constraints of the receiving batch. */
  lemma MergeKeepsActive(l: Lists, active: nat, o: Lists, otherActive: nat,
                         actors: seq<Option<Actor>>, bodies: seq<Option<Handle>>)
    requires WellFormed(l) && WellFormed(o) && active <= Count(l) && otherActive <= Count(o)
    requires otherActive <= |actors| && otherActive <= |bodies|
    ensures Records(MergeLists(l, active, o, otherActive, actors, bodies))[..active] == Records(l)[..active]
  {
    var r := MergeLists(l, active, o, otherActive, actors, bodies);
    forall i | 0 <= i < active ensures Records(r)[i] == Records(l)[i] {
      MergeKeepsRecordAt(l, active, o, otherActive, actors, bodies, i);
    }
  }

  /** Merging appends the other batch's active constraints with their edges moved
    * into the solver's numbering and their collider indices taken from their handles. */
  lemma MergeAppendsOther(l: Lists, active: nat, o: Lists, otherActive: nat,
                          actors: seq<Option<Actor>>, bodies: seq<Option<Handle>>)
    requires WellFormed(l) && WellFormed(o) && active <= Count(l) && otherActive <= Count(o)
    requires otherActive <= |actors| && otherActive <= |bodies|
    ensures var rs := Records(MergeLists(l, active, o, otherActive, actors, bodies));
            forall i :: 0 <= i < otherActive ==> rs[active + i] == Remapped(Records(o)[i], actors[i], bodies[i])
  {
    forall i | 0 <= i < otherActive
      ensures Records(MergeLists(l, active, o, otherActive, actors, bodies))[active + i]
              == Remapped(Records(o)[i], actors[i], bodies[i])
    {
      MergeAppendsRecordAt(l, active, o, otherActive, actors, bodies, i);
    }
  }

  /** The remapping loop of `Merge` over the first `count` constraints of the
    * merged batch: their current edges, collider indices and edge ranges as they
    * are stored in the receiving batch. */
  method MergedEdges(actors: seq<Option<Actor>>, bodies: seq<Option<Handle>>,
                     particleIndices: seq<int>, edgeRanges: seq<int>, count: nat)
    returns (indices: seq<int>, colliders: seq<int>, ranges: seq<int>)
    requires count <= |actors| && count <= |bodies| && count <= |particleIndices| && 2 * count <= |edgeRanges|
    ensures var spans := MergedSpans(actors, particleIndices, edgeRanges, count);
            indices == seq(count, k requires 0 <= k < count => spans[k].current)
            && colliders == seq(count, k requires 0 <= k < count => HandleIndex(bodies[k]))
            && ranges == SpanRanges(spans)
  {
    ghost var spans := MergedSpans(actors, particleIndices, edgeRanges, count);
    // The receiving lists are resized without initialisation; every entry is written below.
    indices, colliders, ranges := seq(count, _ => 0), seq(count, _ => 0), seq(2 * count, _ => 0);
    for i := 0 to count
      invariant |indices| == count && |colliders| == count && |ranges| == 2 * count
      invariant forall k :: 0 <= k < i ==> indices[k] == spans[k].current
      invariant forall k :: 0 <= k < i ==> ranges[2 * k] == spans[k].first && ranges[2 * k + 1] == spans[k].last
      invariant forall k :: 0 <= k < i ==> colliders[k] == HandleIndex(bodies[k])
    {
      var currentEdge, firstEdge, lastEdge := -1, -1, -1;
      if actors[i].Some? {
        var offset := actors[i].value.deformableEdgesOffset;
        currentEdge := offset + particleIndices[i];
        firstEdge := offset + edgeRanges[i * 2];
        lastEdge := offset + edgeRanges[i * 2 + 1];
      }
      ranges := ranges[i * 2 := firstEdge][i * 2 + 1 := lastEdge];
      indices := indices[i := MathfClampInt(currentEdge, firstEdge, lastEdge)];
      colliders := colliders[i := if bodies[i].Some? then bodies[i].value.index else -1];
    }
    forall p | 0 <= p < 2 * count ensures ranges[p] == SpanRanges(spans)[p] {
      var k := p / 2;
      assert 0 <= k < count && (p == 2 * k || p == 2 * k + 1);
      assert ranges[2 * k] == spans[k].first && ranges[2 * k + 1] == spans[k].last;
    }
  }

  /** The constraint `AddConstraint` stores: the pinned edge and its coordinate, the
    * edge range, the body's collider index or -1, the offset as a point, the five
    * parameters with `clampAtEnds` as 1 or 0, and no relative velocity yet. */
  function NewRecord(edge: PinholeEdge, firstEdge: PinholeEdge, lastEdge: PinholeEdge,
                     body: Option<Collider>, offset: Vec3, compliance: real, friction: real,
                     motorSpeed: real, motorForce: real, clampAtEnds: bool): (rec: PinRecord)
    ensures RecordShaped(rec)
    ensures rec.edge == edge.edgeIndex && rec.mu == edge.coordinate
    ensures rec.edgeRange == [firstEdge.edgeIndex, lastEdge.edgeIndex]
    ensures rec.edgeRangeMus == [firstEdge.coordinate, lastEdge.coordinate]
    ensures rec.colliderIndex == if body.Some? then body.value.handle.index else -1
    ensures Xyz(rec.offset) == offset && rec.offset.w == 0.0
    ensures rec.parameters[4] == 1.0 <==> clampAtEnds
    ensures rec.relativeVelocity == 0.0
  {
    PinRecord(edge.edgeIndex, edge.coordinate,
      [firstEdge.edgeIndex, lastEdge.edgeIndex], [firstEdge.coordinate, lastEdge.coordinate],
      if body.Some? then body.value.handle.index else -1,
      Vec4(offset.x, offset.y, offset.z, 0.0),
      [compliance, friction, motorSpeed, motorForce, if clampAtEnds then 1.0 else 0.0],
      0.0)
  }

  /** The exchange `SwapConstraints` performs on each list, with its stride. */
  method SwapListEntries(l: Lists, a: nat, b: nat) returns (r: Lists)
    requires WellFormed(l) && a < Count(l) && b < Count(l)
    ensures r == SwapLists(l, a, b)
  {
    var ranges := SwapEntries(l.edgeRanges, 2 * a, 2 * b, 2);
    var rangeMus := SwapEntries(l.edgeRangeMus, 2 * a, 2 * b, 2);
    var params := SwapEntries(l.parameters, 5 * a, 5 * b, 5);
    r := Lists(SwapBlock(l.particleIndices, a, b, 1), SwapBlock(l.colliderIndices, a, b, 1),
      SwapBlock(l.offsets, a, b, 1), SwapBlock(l.edgeMus, a, b, 1), ranges, rangeMus, params,
      SwapBlock(l.relativeVelocities, a, b, 1));
  }

  class Batch {
    var particleIndices: seq<int>
    var pinBodies: seq<Option<Handle>>
    var pinActors: seq<Option<Actor>>
    var colliderIndices: seq<int>
    var offsets: seq<Vec4>
    var edgeMus: seq<real>
    var edgeRanges: seq<int>
    var edgeRangeMus: seq<real>
    var parameters: seq<real>
    var relativeVelocities: seq<real>

    /** The strided lists of this batch seen together. */
    function Storage(): Lists
      reads this
    {
      Lists(particleIndices, colliderIndices, offsets, edgeMus, edgeRanges, edgeRangeMus, parameters, relativeVelocities)
    }

    predicate Valid()
      reads this
    {
      WellFormed(Storage())
    }

    constructor ()
      ensures Valid() && Storage() == Empty && pinBodies == [] && pinActors == []
    {
      particleIndices, pinBodies, pinActors := [], [], [];
      colliderIndices, offsets, edgeMus := [], [], [];
      edgeRanges, edgeRangeMus, parameters, relativeVelocities := [], [], [], [];
    }

    /** Appends a constraint; a missing body is stored as a fresh handle
      * (`unboundHandle`) in pinBodies and as collider index -1. */
    method AddConstraint(edge: PinholeEdge, firstEdge: PinholeEdge, lastEdge: PinholeEdge,
                         actor: Option<Actor>, body: Option<Collider>, offset: Vec3,
                         compliance: real, friction: real, motorSpeed: real, motorForce: real,
                         clampAtEnds: bool, unboundHandle: Handle)
      requires Valid()
      modifies this
      ensures Valid()
      ensures Storage() == Append(old(Storage()), NewRecord(edge, firstEdge, lastEdge, body, offset,
                compliance, friction, motorSpeed, motorForce, clampAtEnds))
      ensures pinBodies == old(pinBodies) + [if body.Some? then Some(body.value.handle) else Some(unboundHandle)]
      ensures pinActors == old(pinActors) + [actor]
    {
      var rec := NewRecord(edge, firstEdge, lastEdge, body, offset, compliance, friction, motorSpeed, motorForce, clampAtEnds);
      var appended := Append(Storage(), rec);
      particleIndices, colliderIndices, offsets, edgeMus := appended.particleIndices, appended.colliderIndices, appended.offsets, appended.edgeMus;
      edgeRanges, edgeRangeMus, parameters, relativeVelocities := appended.edgeRanges, appended.edgeRangeMus, appended.parameters, appended.relativeVelocities;
      pinBodies := pinBodies + [if body.Some? then Some(body.value.handle) else Some(unboundHandle)];
      pinActors := pinActors + [actor];
      assert Storage() == appended;
    }

    /** Empties every list except pinActors, which keeps its entries. */
    method Clear()
      modifies this
      ensures Valid() && Storage() == Empty && pinBodies == []
      ensures pinActors == old(pinActors)
    {
      particleIndices := [];
      pinBodies := [];
      colliderIndices := [];
      offsets := [];
      edgeMus := [];
      edgeRanges := [];
      edgeRangeMus := [];
      parameters := [];
      relativeVelocities := [];
    }

    /** Appends to `particles` the one entry constraint `index` involves: its edge. */
    method GetParticlesInvolved(index: nat, particles: seq<int>) returns (r: seq<int>)
      requires Valid() && index < Count(Storage())
      ensures |r| == |particles| + 1 && r[..|particles|] == particles
      ensures r[|particles|] == Records(Storage())[index].edge
    {
      r := particles + [particleIndices[index]];
    }

    /** Exchanges constraints a and b in every list except pinActors. */
    method SwapConstraints(a: nat, b: nat)
      requires Valid() && a < Count(Storage()) && b < Count(Storage()) && a < |pinBodies| && b < |pinBodies|
      modifies this
      ensures Valid() && Storage() == SwapLists(old(Storage()), a, b)
      ensures pinBodies == SwapBlock(old(pinBodies), a, b, 1)
      ensures pinActors == old(pinActors)
    {
      var swapped := SwapListEntries(Storage(), a, b);
      pinBodies := SwapBlock(pinBodies, a, b, 1);
      particleIndices, colliderIndices, offsets, edgeMus := swapped.particleIndices, swapped.colliderIndices, swapped.offsets, swapped.edgeMus;
      edgeRanges, edgeRangeMus, parameters, relativeVelocities := swapped.edgeRanges, swapped.edgeRangeMus, swapped.parameters, swapped.relativeVelocities;
      assert Storage() == swapped;
    }

    /** Appends the first `otherActive` constraints of `other` after the first
      * `active` constraints of this batch, moving their edges into the solver's
      * edge numbering. pinBodies and pinActors are left to the base class. */
    method Merge(active: nat, other: Batch, otherActive: nat)
      requires other != this && Valid() && other.Valid()
      requires active <= Count(Storage()) && otherActive <= Count(other.Storage())
      requires otherActive <= |other.pinActors| && otherActive <= |other.pinBodies|
      modifies this
      ensures Valid()
      ensures Storage() == MergeLists(old(Storage()), active, other.Storage(), otherActive, other.pinActors, other.pinBodies)
      ensures pinBodies == old(pinBodies) && pinActors == old(pinActors)
    {
      var l, o := Storage(), other.Storage();
      var indices, colliders, ranges := MergedEdges(other.pinActors, other.pinBodies, o.particleIndices, o.edgeRanges, otherActive);
      var merged := Lists(l.particleIndices[..active] + indices, l.colliderIndices[..active] + colliders,
        l.offsets[..active] + o.offsets[..otherActive], l.edgeMus[..active] + o.edgeMus[..otherActive],
        l.edgeRanges[..2 * active] + ranges, l.edgeRangeMus[..2 * active] + o.edgeRangeMus[..2 * otherActive],
        l.parameters[..5 * active] + o.parameters[..5 * otherActive],
        l.relativeVelocities[..active] + o.relativeVelocities[..otherActive]);
      assert merged == MergeLists(l, active, o, otherActive, other.pinActors, other.pinBodies);
      particleIndices, colliderIndices, offsets, edgeMus := merged.particleIndices, merged.colliderIndices, merged.offsets, merged.edgeMus;
      edgeRanges, edgeRangeMus, parameters, relativeVelocities := merged.edgeRanges, merged.edgeRangeMus, merged.parameters, merged.relativeVelocities;
      assert Storage() == merged;
    }
  }
}
