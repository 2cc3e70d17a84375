/** `VoxelDistanceField`: a distance field over a voxel grid, built by jump flooding.
  * Every voxel starts with its own coordinate as seed when it is outside the mesh and
  * with an unset seed otherwise; each pass lets a voxel adopt a neighbour's seed at
  * the current stride when that seed is strictly closer; the stride halves until it
  * reaches zero. The field then stores, for every voxel not outside, the vector to
  * the centre of its seed voxel.
  *
  * The voxelizer is not part of this model: its classification is an array of
  * "outside" flags with the grid's dimensions, its voxel centres a function of the
  * coordinate, and its neighbourhoods sequences of offsets. */
module VoxelDistanceField {
  import opened Common

  /** The seed of a voxel no seed has reached yet. */
  const Unset: Int3 := Int3(-1, -1, -1)

  predicate InGrid<T>(a: array3<T>, p: Int3)
  {
    0 <= p.x < a.Length0 && 0 <= p.y < a.Length1 && 0 <= p.z < a.Length2
  }

  function At<T>(a: array3<T>, p: Int3): T
    requires InGrid(a, p)
    reads a
  {
    a[p.x, p.y, p.z]
  }

  predicate SameShape<T, U>(a: array3<T>, b: array3<U>)
  {
    a.Length0 == b.Length0 && a.Length1 == b.Length1 && a.Length2 == b.Length2
  }

  function Square(x: int): (r: int)
    ensures r >= 0 && (r == 0 <==> x == 0)
  {
    x * x
  }

  /** `(a - b).sqrMagnitude` of two integer vectors. */
  function SqrDist(a: Int3, b: Int3): (d: int)
    ensures d >= 0
    ensures d == 0 <==> a == b
  {
    Square(a.x - b.x) + Square(a.y - b.y) + Square(a.z - b.z)
  }

  /** The squared distance from `p` to a seed; `None` stands for `float.MaxValue`, the
    * distance given to a seed that is not set (x < 0). */
  function SeedDist(seed: Int3, p: Int3): Option<int>
  {
    if seed.x >= 0 then Some(SqrDist(seed, p)) else None
  }

  /** Distance `a` is at most distance `b`, `None` being the largest. */
  predicate AtMost(a: Option<int>, b: Option<int>)
  {
    b.None? || (a.Some? && a.value <= b.value)
  }

  /** Distance `a` is strictly below distance `b`. */
  predicate Below(a: Option<int>, b: Option<int>)
  {
    a.Some? && (b.None? || a.value < b.value)
  }

  /** `p + o * stride`. */
  function Neighbour(p: Int3, o: Int3, stride: int): Int3
  {
    Int3(p.x + o.x * stride, p.y + o.y * stride, p.z + o.z * stride)
  }

  /** The neighbour at offset `o` lies in the grid and holds a set seed. */
  predicate Offers(input: array3<Int3>, p: Int3, o: Int3, stride: int)
    reads input
  {
    InGrid(input, Neighbour(p, o, stride)) && At(input, Neighbour(p, o, stride)).x >= 0
  }

  /** The seed the neighbour at offset `o` offers. */
  function Offered(input: array3<Int3>, p: Int3, o: Int3, stride: int): Int3
    requires InGrid(input, Neighbour(p, o, stride))
    reads input
  {
    At(input, Neighbour(p, o, stride))
  }

  /** What one pass promises for voxel `p`: a voxel that is its own seed keeps it;
    * otherwise the new seed is the old one or a seed offered by a neighbour; it is
    * no farther than the old seed, and if it is as far it is the old seed; and it is
    * no farther than any seed a neighbour offers. */
  predicate ClosestAmong(input: array3<Int3>, p: Int3, stride: int, offsets: seq<Int3>, out: Int3)
    requires InGrid(input, p)
    reads input
  {
    var s := At(input, p);
    && (s == p ==> out == s)
    && (out == s || exists k :: 0 <= k < |offsets| && Offers(input, p, offsets[k], stride) &&
                                out == Offered(input, p, offsets[k], stride))
    && AtMost(SeedDist(out, p), SeedDist(s, p))
    && (SeedDist(out, p) == SeedDist(s, p) ==> out == s)
    && (forall k :: 0 <= k < |offsets| && Offers(input, p, offsets[k], stride) ==>
          AtMost(SeedDist(out, p), SeedDist(Offered(input, p, offsets[k], stride), p)))
  }

  /** The loop over the neighbourhood for one voxel. `from` is the offset whose seed
    * was adopted, or -1 when the voxel keeps its own; ties go to the first offset
    * reaching the smallest distance. */
  method ClosestSeed(input: array3<Int3>, p: Int3, stride: int, offsets: seq<Int3>)
    returns (best: Int3, ghost from: int)
    requires InGrid(input, p)
    ensures ClosestAmong(input, p, stride, offsets, best)
    ensures -1 <= from < |offsets|
    ensures from == -1 ==> best == At(input, p)
    ensures from >= 0 ==> Offers(input, p, offsets[from], stride) &&
                          best == Offered(input, p, offsets[from], stride)
    ensures forall k :: 0 <= k < from && Offers(input, p, offsets[k], stride) ==>
              Below(SeedDist(best, p), SeedDist(Offered(input, p, offsets[k], stride), p))
  {
    var s := input[p.x, p.y, p.z];
    best := s;
    from := -1;
    if s == p {
      return;
    }
    var dist: Option<int> := if s.x >= 0 then Some(SqrDist(s, p)) else None;
    for i := 0 to |offsets|
      invariant dist == SeedDist(best, p)
      invariant -1 <= from < i
      invariant from == -1 ==> best == s
      invariant from >= 0 ==> Offers(input, p, offsets[from], stride) &&
                              best == Offered(input, p, offsets[from], stride) &&
                              Below(dist, SeedDist(s, p))
      invariant AtMost(dist, SeedDist(s, p))
      invariant forall k :: 0 <= k < i && Offers(input, p, offsets[k], stride) ==>
                  AtMost(dist, SeedDist(Offered(input, p, offsets[k], stride), p))
      invariant forall k :: 0 <= k < from && Offers(input, p, offsets[k], stride) ==>
                  Below(dist, SeedDist(Offered(input, p, offsets[k], stride), p))
    {
      var n := Neighbour(p, offsets[i], stride);
      if 0 <= n.x < input.Length0 && 0 <= n.y < input.Length1 && 0 <= n.z < input.Length2 {
        var nc := input[n.x, n.y, n.z];
        if nc.x >= 0 {
          var newDist := SqrDist(nc, p);
          if dist.None? || newDist < dist.value {
            best := nc;
            dist := Some(newDist);
            from := i;
          }
        }
      }
    }
  }

  /** The innermost loop of a pass: the row of voxels at (x, y). */
  method JumpFloodRow(stride: int, input: array3<Int3>, output: array3<Int3>, offsets: seq<Int3>, x: int, y: int)
    requires SameShape(input, output) && input != output
    requires 0 <= x < output.Length0 && 0 <= y < output.Length1
    modifies output
    ensures forall z :: 0 <= z < output.Length2 ==>
              ClosestAmong(input, Int3(x, y, z), stride, offsets, output[x, y, z])
    ensures forall x', y', z ::
              (0 <= x' < output.Length0 && 0 <= y' < output.Length1 && 0 <= z < output.Length2 && (x' != x || y' != y))
              ==> output[x', y', z] == old(output[x', y', z])
  {
    for z := 0 to input.Length2
      invariant forall z' :: 0 <= z' < z ==>
                  ClosestAmong(input, Int3(x, y, z'), stride, offsets, output[x, y, z'])
      invariant forall x', y', z' ::
                  (0 <= x' < output.Length0 && 0 <= y' < output.Length1 && 0 <= z' < output.Length2 && (x' != x || y' != y))
                  ==> output[x', y', z'] == old(output[x', y', z'])
    {
      var best, _ := ClosestSeed(input, Int3(x, y, z), stride, offsets);
      output[x, y, z] := best;
    }
  }

  /** One jump-flood pass: every output voxel gets the closest seed among its own and
    * those its neighbours at `stride` hold; the input is not changed. */
  method JumpFloodPass(stride: int, input: array3<Int3>, output: array3<Int3>, offsets: seq<Int3>)
    requires SameShape(input, output) && input != output
    modifies output
    ensures PassResult(input, output, stride, offsets)
  {
    for x := 0 to input.Length0
      invariant forall x', y, z :: 0 <= x' < x && 0 <= y < output.Length1 && 0 <= z < output.Length2 ==>
                  ClosestAmong(input, Int3(x', y, z), stride, offsets, output[x', y, z])
    {
      for y := 0 to input.Length1
        invariant forall x', y', z :: 0 <= x' < x && 0 <= y' < output.Length1 && 0 <= z < output.Length2 ==>
                    ClosestAmong(input, Int3(x', y', z), stride, offsets, output[x', y', z])
        invariant forall y', z :: 0 <= y' < y && 0 <= z < output.Length2 ==>
                    ClosestAmong(input, Int3(x, y', z), stride, offsets, output[x, y', z])
      {
        JumpFloodRow(stride, input, output, offsets, x, y);
      }
    }
    assert PassResult(input, output, stride, offsets);
  }

  // ---------------------------------------------------------------------------
  // Seeds

  /** Every stored seed is unset or the coordinate of an outside voxel. */
  predicate SeedsFromOutside(buf: array3<Int3>, outside: array3<bool>)
    requires SameShape(buf, outside)
    reads buf, outside
  {
    forall x, y, z :: 0 <= x < buf.Length0 && 0 <= y < buf.Length1 && 0 <= z < buf.Length2 ==>
      buf[x, y, z] == Unset || (InGrid(outside, buf[x, y, z]) && At(outside, buf[x, y, z]))
  }

  /** Every outside voxel is its own seed. */
  predicate OutsideSelfSeeded(buf: array3<Int3>, outside: array3<bool>)
    requires SameShape(buf, outside)
    reads buf, outside
  {
    forall x, y, z :: 0 <= x < buf.Length0 && 0 <= y < buf.Length1 && 0 <= z < buf.Length2 ==>
      outside[x, y, z] ==> buf[x, y, z] == Int3(x, y, z)
  }

  /** The initialisation loop's row at (x, y). */
  method InitSeedRow(buf: array3<Int3>, outside: array3<bool>, x: int, y: int)
    requires SameShape(buf, outside) && 0 <= x < buf.Length0 && 0 <= y < buf.Length1
    modifies buf
    ensures forall z :: 0 <= z < buf.Length2 ==>
              buf[x, y, z] == (if outside[x, y, z] then Int3(x, y, z) else Unset)
    ensures forall x', y', z ::
              (0 <= x' < buf.Length0 && 0 <= y' < buf.Length1 && 0 <= z < buf.Length2 && (x' != x || y' != y))
              ==> buf[x', y', z] == old(buf[x', y', z])
  {
    for z := 0 to buf.Length2
      invariant forall z' :: 0 <= z' < z ==>
                  buf[x, y, z'] == (if outside[x, y, z'] then Int3(x, y, z') else Unset)
      invariant forall x', y', z' ::
                  (0 <= x' < buf.Length0 && 0 <= y' < buf.Length1 && 0 <= z' < buf.Length2 && (x' != x || y' != y))
                  ==> buf[x', y', z'] == old(buf[x', y', z'])
    {
      if outside[x, y, z] {
        buf[x, y, z] := Int3(x, y, z);
      } else {
        buf[x, y, z] := Unset;
      }
    }
  }

  /** The initialisation: outside voxels seed themselves, all others are unset. */
  method InitSeeds(buf: array3<Int3>, outside: array3<bool>)
    requires SameShape(buf, outside)
    modifies buf
    ensures forall x, y, z :: 0 <= x < buf.Length0 && 0 <= y < buf.Length1 && 0 <= z < buf.Length2 ==>
              buf[x, y, z] == (if outside[x, y, z] then Int3(x, y, z) else Unset)
  {
    for x := 0 to buf.Length0
      invariant forall x', y, z :: 0 <= x' < x && 0 <= y < buf.Length1 && 0 <= z < buf.Length2 ==>
                  buf[x', y, z] == (if outside[x', y, z] then Int3(x', y, z) else Unset)
    {
      for y := 0 to buf.Length1
        invariant forall x', y', z :: 0 <= x' < x && 0 <= y' < buf.Length1 && 0 <= z < buf.Length2 ==>
                    buf[x', y', z] == (if outside[x', y', z] then Int3(x', y', z) else Unset)
        invariant forall y', z :: 0 <= y' < y && 0 <= z < buf.Length2 ==>
                    buf[x, y', z] == (if outside[x, y', z] then Int3(x, y', z) else Unset)
      {
        InitSeedRow(buf, outside, x, y);
      }
    }
  }

  /** The initial seeds satisfy both seed invariants. */
  lemma InitialSeedsValid(buf: array3<Int3>, outside: array3<bool>)
    requires SameShape(buf, outside)
    requires forall x, y, z :: 0 <= x < buf.Length0 && 0 <= y < buf.Length1 && 0 <= z < buf.Length2 ==>
               buf[x, y, z] == (if outside[x, y, z] then Int3(x, y, z) else Unset)
    ensures SeedsFromOutside(buf, outside) && OutsideSelfSeeded(buf, outside)
  {
    forall x, y, z | 0 <= x < buf.Length0 && 0 <= y < buf.Length1 && 0 <= z < buf.Length2
      ensures buf[x, y, z] == Unset || (InGrid(outside, buf[x, y, z]) && At(outside, buf[x, y, z]))
    {
      if outside[x, y, z] {
        assert buf[x, y, z] == Int3(x, y, z);
      }
    }
  }

  /** A pass only moves seeds around: the output seeds satisfy both seed invariants
    * when the input seeds do. */
  lemma PassKeepsSeeds(input: array3<Int3>, output: array3<Int3>, outside: array3<bool>,
                       stride: int, offsets: seq<Int3>)
    requires SameShape(input, outside) && PassResult(input, output, stride, offsets)
    requires SeedsFromOutside(input, outside) && OutsideSelfSeeded(input, outside)
    ensures SeedsFromOutside(output, outside) && OutsideSelfSeeded(output, outside)
  {
    forall x, y, z | 0 <= x < output.Length0 && 0 <= y < output.Length1 && 0 <= z < output.Length2
      ensures output[x, y, z] == Unset || (InGrid(outside, output[x, y, z]) && At(outside, output[x, y, z]))
      ensures outside[x, y, z] ==> output[x, y, z] == Int3(x, y, z)
    {
      var p := Int3(x, y, z);
      assert ClosestAmong(input, p, stride, offsets, output[x, y, z]);
      if output[x, y, z] != At(input, p) {
        var k :| 0 <= k < |offsets| && Offers(input, p, offsets[k], stride) &&
                 output[x, y, z] == Offered(input, p, offsets[k], stride);
        var n := Neighbour(p, offsets[k], stride);
        assert output[x, y, z] == input[n.x, n.y, n.z];
      }
    }
  }

  /** The number of halvings that take `step` to 0. */
  function Halvings(step: nat): nat
  {
    if step == 0 then 0 else 1 + Halvings(step / 2)
  }

  /** `(int)Mathf.Log(size, 2)` for a positive integer size: floor(log2 size). */
  function Log2(n: nat): nat
  {
    if n < 2 then 0 else 1 + Log2(n / 2)
  }

  /** Starting from half the grid size, the halving loop makes floor(log2 size)
    * passes: exactly the count the progress report divides by. */
  lemma {:induction false} HalvingsOfHalfIsLog2(n: nat)
    ensures Halvings(n / 2) == Log2(n)
  {
    if n >= 2 {
      HalvingsOfHalfIsLog2(n / 2);
    }
  }

  /** The strides of the halving loop started at `step`: step, step/2, ..., down to 1. */
  function Strides(step: int): seq<int>
    decreases step
  {
    if step < 1 then [] else [step] + Strides(step / 2)
  }

  /** The strides start at `step`, each is half the one before, all are at least 1, the
    * last is 1, and there are as many as halvings take `step` to 0. */
  lemma {:induction false} StridesHalve(step: nat)
    ensures |Strides(step)| == Halvings(step)
    ensures forall k :: 0 <= k < |Strides(step)| ==> Strides(step)[k] >= 1
    ensures forall k :: 0 < k < |Strides(step)| ==> Strides(step)[k] == Strides(step)[k - 1] / 2
    ensures step >= 1 ==> Strides(step)[0] == step && Strides(step)[|Strides(step)| - 1] == 1
  {
    if step >= 1 {
      StridesHalve(step / 2);
      var rest := Strides(step / 2);
      assert Strides(step) == [step] + rest;
      if step / 2 < 1 {
        assert rest == [];
      }
      forall k | 0 < k < |Strides(step)|
        ensures Strides(step)[k] == Strides(step)[k - 1] / 2
      {
        if k > 1 {
          assert Strides(step)[k] == rest[k - 1] && Strides(step)[k - 1] == rest[k - 2];
        }
      }
    }
  }

  /** Two grids of the same shape holding the same seeds. */
  predicate SameSeeds(a: array3<Int3>, b: array3<Int3>)
    reads a, b
  {
    && SameShape(a, b)
    && forall x, y, z :: 0 <= x < a.Length0 && 0 <= y < a.Length1 && 0 <= z < a.Length2 ==> a[x, y, z] == b[x, y, z]
  }

  /** `output` holds, at every voxel, what one pass at `stride` may make of `input`. */
  predicate PassResult(input: array3<Int3>, output: array3<Int3>, stride: int, offsets: seq<Int3>)
    reads input, output
  {
    && SameShape(input, output)
    && forall x, y, z :: 0 <= x < output.Length0 && 0 <= y < output.Length1 && 0 <= z < output.Length2 ==>
         ClosestAmong(input, Int3(x, y, z), stride, offsets, output[x, y, z])
  }

  /** What a pass promises depends on the seeds the grids hold, not on which arrays
    * hold them. */
  lemma ClosestAmongSameSeeds(a: array3<Int3>, b: array3<Int3>, p: Int3, stride: int, offsets: seq<Int3>, out: Int3)
    requires SameSeeds(a, b) && InGrid(a, p)
    ensures ClosestAmong(a, p, stride, offsets, out) == ClosestAmong(b, p, stride, offsets, out)
  {
    forall k | 0 <= k < |offsets|
      ensures Offers(a, p, offsets[k], stride) == Offers(b, p, offsets[k], stride)
      ensures Offers(a, p, offsets[k], stride) ==> Offered(a, p, offsets[k], stride) == Offered(b, p, offsets[k], stride)
    {
    }
    assert At(a, p) == At(b, p);
  }

  lemma PassResultSameSeeds(a: array3<Int3>, a': array3<Int3>, b: array3<Int3>, b': array3<Int3>,
                            stride: int, offsets: seq<Int3>)
    requires SameSeeds(a, a') && SameSeeds(b, b') && PassResult(a, b, stride, offsets)
    ensures PassResult(a', b', stride, offsets)
  {
    forall x, y, z | 0 <= x < b'.Length0 && 0 <= y < b'.Length1 && 0 <= z < b'.Length2
      ensures ClosestAmong(a', Int3(x, y, z), stride, offsets, b'[x, y, z])
    {
      assert ClosestAmong(a, Int3(x, y, z), stride, offsets, b[x, y, z]);
      ClosestAmongSameSeeds(a, a', Int3(x, y, z), stride, offsets, b[x, y, z]);
    }
  }

  /** Every outside voxel seeds itself and every other seed is unset, as the
    * initialisation leaves them. */
  predicate InitialSeeds(buf: array3<Int3>, outside: array3<bool>)
    reads buf, outside
  {
    && SameShape(buf, outside)
    && forall x, y, z :: 0 <= x < buf.Length0 && 0 <= y < buf.Length1 && 0 <= z < buf.Length2 ==>
         buf[x, y, z] == (if outside[x, y, z] then Int3(x, y, z) else Unset)
  }

  /** Each of the first `n` snapshots is followed by what a pass at its stride makes of it. */
  predicate PassChain(snaps: seq<array3<Int3>>, strides: seq<int>, offsets: seq<Int3>, n: nat)
    requires n < |snaps| && n <= |strides|
    reads snaps
  {
    forall k :: 0 <= k < n ==> PassResult(snaps[k], snaps[k + 1], strides[k], offsets)
  }

  /** A chain of passes grows by a pass over its last snapshot. */
  lemma PassChainExtend(snaps: seq<array3<Int3>>, strides: seq<int>, offsets: seq<Int3>, snap: array3<Int3>, step: int)
    requires |snaps| == |strides| + 1 && PassChain(snaps, strides, offsets, |strides|)
    requires PassResult(snaps[|strides|], snap, step, offsets)
    ensures PassChain(snaps + [snap], strides + [step], offsets, |strides| + 1)
  {
    var s', t' := snaps + [snap], strides + [step];
    forall k | 0 <= k < |strides| + 1
      ensures PassResult(s'[k], s'[k + 1], t'[k], offsets)
    {
      if k < |strides| {
        assert s'[k] == snaps[k] && s'[k + 1] == snaps[k + 1] && t'[k] == strides[k];
      }
    }
  }

  /** One pass of the halving loop: `output` gets the pass over `input`, which is
    * unchanged, and a snapshot of the result is returned. */
  method FloodPass(step: int, input: array3<Int3>, output: array3<Int3>, outside: array3<bool>, offsets: seq<Int3>,
                   ghost last: array3<Int3>)
    returns (ghost snap: array3<Int3>)
    requires SameShape(input, outside) && SameShape(output, outside) && input != output
    requires SeedsFromOutside(input, outside) && OutsideSelfSeeded(input, outside)
    requires SameSeeds(last, input) && last != output
    modifies output
    ensures fresh(snap) && SameSeeds(output, snap) && PassResult(last, snap, step, offsets)
    ensures SeedsFromOutside(output, outside) && OutsideSelfSeeded(output, outside)
  {
    JumpFloodPass(step, input, output, offsets);
    PassKeepsSeeds(input, output, outside, step, offsets);
    snap := Snapshot(output);
    PassResultSameSeeds(input, last, output, snap, step, offsets);
  }

  /** A ghost copy of the seeds `a` holds now, kept to state what each pass saw. */
  method Snapshot(a: array3<Int3>) returns (ghost c: array3<Int3>)
    ensures fresh(c) && SameSeeds(a, c)
  {
    c := new Int3[a.Length0, a.Length1, a.Length2](
      (x, y, z) reads a requires 0 <= x < a.Length0 && 0 <= y < a.Length1 && 0 <= z < a.Length2 => a[x, y, z]);
  }

  /** The two seed buffers of `JumpFlood`, the first initialised, and a snapshot of it. */
  method NewBuffers(outside: array3<bool>) returns (buffer1: array3<Int3>, buffer2: array3<Int3>, ghost first: array3<Int3>)
    ensures fresh(buffer1) && fresh(buffer2) && fresh(first)
    ensures buffer1 != buffer2 && first != buffer1 && first != buffer2
    ensures SameShape(buffer1, outside) && SameShape(buffer2, outside)
    ensures SeedsFromOutside(buffer1, outside) && OutsideSelfSeeded(buffer1, outside)
    ensures InitialSeeds(first, outside) && SameSeeds(first, buffer1)
  {
    buffer1 := new Int3[outside.Length0, outside.Length1, outside.Length2]((_, _, _) => Int3(0, 0, 0));
    buffer2 := new Int3[outside.Length0, outside.Length1, outside.Length2]((_, _, _) => Int3(0, 0, 0));
    InitSeeds(buffer1, outside);
    InitialSeedsValid(buffer1, outside);
    first := Snapshot(buffer1);
    assert InitialSeeds(first, outside);
  }

  /** The seed buffers of `JumpFlood`: initialise, then pass with strides size/2,
    * size/4, ..., 1, swapping buffers after each pass; the last-written buffer is
    * returned. `passes` counts the passes; `snaps` holds the seeds before the first
    * pass and after each one and `strides` the stride of each pass: the first snapshot
    * is the initialisation, each next one is what a pass at its stride makes of the one
    * before, and the last one is the result. */
  method JumpFloodSeeds(outside: array3<bool>, offsets: seq<Int3>)
    returns (seeds: array3<Int3>, ghost passes: nat, ghost snaps: seq<array3<Int3>>, ghost strides: seq<int>)
    ensures fresh(seeds) && SameShape(seeds, outside)
    ensures SeedsFromOutside(seeds, outside) && OutsideSelfSeeded(seeds, outside)
    ensures passes == Log2(Max3(outside.Length0, outside.Length1, outside.Length2))
    ensures strides == Strides(Max3(outside.Length0, outside.Length1, outside.Length2) / 2) && |strides| == passes
    ensures |snaps| == passes + 1 && SameShape(snaps[0], outside)
    ensures InitialSeeds(snaps[0], outside)
    ensures forall k :: 0 <= k < passes ==> PassResult(snaps[k], snaps[k + 1], strides[k], offsets)
    ensures SameSeeds(snaps[passes], seeds)
  {
    var buffer1, buffer2, first := NewBuffers(outside);
    snaps := [first];
    strides := [];
    var size := Max3(buffer1.Length0, buffer1.Length1, buffer1.Length2);
    var step := Trunc(size as real / 2.0);
    assert step == size / 2;
    HalvingsOfHalfIsLog2(size);
    passes := 0;
    while step >= 1
      invariant step >= 0 && passes + Halvings(step) == Log2(size)
      invariant fresh(buffer1) && fresh(buffer2) && buffer1 != buffer2
      invariant SameShape(buffer1, outside) && SameShape(buffer2, outside)
      invariant SeedsFromOutside(buffer1, outside) && OutsideSelfSeeded(buffer1, outside)
      invariant strides + Strides(step) == Strides(size / 2) && |strides| == passes
      invariant |snaps| == passes + 1 && snaps[0] == first && InitialSeeds(first, outside)
      invariant buffer1 !in snaps && buffer2 !in snaps
      invariant PassChain(snaps, strides, offsets, passes)
      invariant SameSeeds(snaps[passes], buffer1)
      decreases step
    {
      ghost var snap := FloodPass(step, buffer1, buffer2, outside, offsets, snaps[passes]);
      assert Strides(step) == [step] + Strides(step / 2);
      PassChainExtend(snaps, strides, offsets, snap, step);
      snaps := snaps + [snap];
      strides := strides + [step];
      step := step / 2;
      passes := passes + 1;
      buffer1, buffer2 := buffer2, buffer1;
    }
    assert Strides(step) == [];
    seeds := buffer1;
    assert PassChain(snaps, strides, offsets, passes);
  }

  /** `Mathf.Max(a, b, c)`. */
  function Max3(a: int, b: int, c: int): (m: int)
    ensures m >= a && m >= b && m >= c && (m == a || m == b || m == c)
  {
    MaxInt(MaxInt(a, b), c)
  }

  // ---------------------------------------------------------------------------
  // Gradients and smoothing

  /** The voxelizer as this model sees it: which voxels are outside the mesh, the
    * centre of a voxel, and the face and full neighbourhoods as offset lists. */
  datatype Voxelizer = Voxelizer(
    outside: array3<bool>, center: Int3 -> Vec3,
    faceNeighbourhood: seq<Int3>, fullNeighbourhood: seq<Int3>)

  /** The gradient `CalculateGradientsAndDistances` stores at `p`. */
  function GradientAt(seeds: array3<Int3>, outside: array3<bool>, center: Int3 -> Vec3, p: Int3): Vec3
    requires SameShape(seeds, outside) && InGrid(seeds, p)
    reads seeds, outside
  {
    if At(outside, p) then Zero3 else Sub3(center(At(seeds, p)), center(p))
  }

  method GradientRow(field: array3<Vec3>, seeds: array3<Int3>, outside: array3<bool>, center: Int3 -> Vec3,
                     x: int, y: int)
    requires SameShape(field, outside) && SameShape(seeds, outside)
    requires 0 <= x < field.Length0 && 0 <= y < field.Length1
    modifies field
    ensures forall z :: 0 <= z < field.Length2 ==> field[x, y, z] == GradientAt(seeds, outside, center, Int3(x, y, z))
    ensures forall x', y', z ::
              (0 <= x' < field.Length0 && 0 <= y' < field.Length1 && 0 <= z < field.Length2 && (x' != x || y' != y))
              ==> field[x', y', z] == old(field[x', y', z])
  {
    for z := 0 to field.Length2
      invariant forall z' :: 0 <= z' < z ==> field[x, y, z'] == GradientAt(seeds, outside, center, Int3(x, y, z'))
      invariant forall x', y', z' ::
                  (0 <= x' < field.Length0 && 0 <= y' < field.Length1 && 0 <= z' < field.Length2 && (x' != x || y' != y))
                  ==> field[x', y', z'] == old(field[x', y', z'])
    {
      if !outside[x, y, z] {
        field[x, y, z] := Sub3(center(seeds[x, y, z]), center(Int3(x, y, z)));
      } else {
        field[x, y, z] := Zero3;
      }
    }
  }

  /** `CalculateGradientsAndDistances`: a fresh field holding, at every voxel not
    * outside, the vector from its centre to its seed's centre, and zero elsewhere. */
  method Gradients(seeds: array3<Int3>, outside: array3<bool>, center: Int3 -> Vec3) returns (field: array3<Vec3>)
    requires SameShape(seeds, outside)
    ensures fresh(field) && SameShape(field, outside)
    ensures forall x, y, z :: 0 <= x < field.Length0 && 0 <= y < field.Length1 && 0 <= z < field.Length2 ==>
              field[x, y, z] == GradientAt(seeds, outside, center, Int3(x, y, z))
  {
    field := new Vec3[outside.Length0, outside.Length1, outside.Length2]((_, _, _) => Zero3);
    for x := 0 to field.Length0
      invariant forall x', y, z :: 0 <= x' < x && 0 <= y < field.Length1 && 0 <= z < field.Length2 ==>
                  field[x', y, z] == GradientAt(seeds, outside, center, Int3(x', y, z))
    {
      for y := 0 to field.Length1
        invariant forall x', y', z :: 0 <= x' < x && 0 <= y' < field.Length1 && 0 <= z < field.Length2 ==>
                    field[x', y', z] == GradientAt(seeds, outside, center, Int3(x', y', z))
        invariant forall y', z :: 0 <= y' < y && 0 <= z < field.Length2 ==>
                    field[x, y', z] == GradientAt(seeds, outside, center, Int3(x, y', z))
      {
        GradientRow(field, seeds, outside, center, x, y);
      }
    }
  }

  /** The sum of the field over the face neighbours of `p` that are in the grid and
    * not outside, and how many there are, taken in neighbourhood order. */
  function NeighbourSum(field: array3<Vec3>, outside: array3<bool>, p: Int3, offsets: seq<Int3>): (r: (Vec3, nat))
    requires SameShape(field, outside)
    reads field, outside
    ensures r.1 <= |offsets|
  {
    if offsets == [] then (Zero3, 0)
    else
      var (sum, count) := NeighbourSum(field, outside, p, offsets[..|offsets| - 1]);
      var n := Neighbour(p, offsets[|offsets| - 1], 1);
      if Contributes(outside, p, offsets[|offsets| - 1]) then (Add3(sum, At(field, n)), count + 1) else (sum, count)
  }

  /** `df /= count`. */
  function Div3(v: Vec3, d: real): Vec3
    requires d != 0.0
  {
    Vec3(v.x / d, v.y / d, v.z / d)
  }

  /** The value `Smooth` gives a voxel not outside: the mean of its own value and its
    * contributing neighbours'. */
  function SmoothedAt(field: array3<Vec3>, outside: array3<bool>, p: Int3, offsets: seq<Int3>): Vec3
    requires SameShape(field, outside) && InGrid(field, p)
    reads field, outside
  {
    var (sum, count) := NeighbourSum(field, outside, p, offsets);
    Div3(Add3(At(field, p), sum), (count + 1) as real)
  }

  /** The neighbourhood loop of `Smooth` for one voxel. */
  method NeighbourAverage(field: array3<Vec3>, outside: array3<bool>, p: Int3, offsets: seq<Int3>) returns (df: Vec3)
    requires SameShape(field, outside) && InGrid(field, p)
    ensures df == SmoothedAt(field, outside, p, offsets)
  {
    df := field[p.x, p.y, p.z];
    var count := 1;
    for i := 0 to |offsets|
      invariant var (sum, c) := NeighbourSum(field, outside, p, offsets[..i]);
        df == Add3(At(field, p), sum) && count == c + 1
    {
      assert offsets[..i + 1][..i] == offsets[..i];
      var n := Neighbour(p, offsets[i], 1);
      if 0 <= n.x < outside.Length0 && 0 <= n.y < outside.Length1 && 0 <= n.z < outside.Length2 && !outside[n.x, n.y, n.z] {
        df := Add3(df, field[n.x, n.y, n.z]);
        count := count + 1;
      }
    }
    assert offsets[..|offsets|] == offsets;
    df := Div3(df, count as real);
  }

  /** The neighbour of `p` at offset `o` contributes to `Smooth`'s mean. */
  predicate Contributes(outside: array3<bool>, p: Int3, o: Int3)
    reads outside
  {
    InGrid(outside, Neighbour(p, o, 1)) && !At(outside, Neighbour(p, o, 1))
  }

  /** Where every contributing neighbour holds `v`, the neighbour sum is `v` times
    * their count. */
  lemma {:induction false} NeighbourSumOfConstant(field: array3<Vec3>, outside: array3<bool>, p: Int3,
                                                  offsets: seq<Int3>, v: Vec3)
    requires SameShape(field, outside)
    requires forall k :: 0 <= k < |offsets| && Contributes(outside, p, offsets[k]) ==>
               At(field, Neighbour(p, offsets[k], 1)) == v
    ensures NeighbourSum(field, outside, p, offsets).0 == Scale3(v, NeighbourSum(field, outside, p, offsets).1 as real)
  {
    if offsets != [] {
      var init := offsets[..|offsets| - 1];
      var last := offsets[|offsets| - 1];
      forall k | 0 <= k < |init| && Contributes(outside, p, init[k])
        ensures At(field, Neighbour(p, init[k], 1)) == v
      {
        assert init[k] == offsets[k];
      }
      NeighbourSumOfConstant(field, outside, p, init, v);
      var r0 := NeighbourSum(field, outside, p, init);
      var c := r0.1 as real;
      var r := NeighbourSum(field, outside, p, offsets);
      if Contributes(outside, p, last) {
        assert At(field, Neighbour(p, last, 1)) == v;
        assert r == (Add3(r0.0, v), r0.1 + 1);
        assert r.1 as real == c + 1.0;
        ScaleStep(v, c);
      } else {
        assert r == r0;
      }
    }
  }

  lemma ScaleStep(v: Vec3, c: real)
    ensures Add3(Scale3(v, c), v) == Scale3(v, c + 1.0)
  {
    assert v.x * (c + 1.0) == v.x * c + v.x;
    assert v.y * (c + 1.0) == v.y * c + v.y;
    assert v.z * (c + 1.0) == v.z * c + v.z;
  }

  /** Smoothing keeps a voxel whose contributing neighbours all share its value. */
  lemma SmoothingKeepsUniformValue(field: array3<Vec3>, outside: array3<bool>, p: Int3, offsets: seq<Int3>)
    requires SameShape(field, outside) && InGrid(field, p)
    requires forall k :: 0 <= k < |offsets| && Contributes(outside, p, offsets[k]) ==>
               At(field, Neighbour(p, offsets[k], 1)) == At(field, p)
    ensures SmoothedAt(field, outside, p, offsets) == At(field, p)
  {
    var v := At(field, p);
    NeighbourSumOfConstant(field, outside, p, offsets, v);
    var r := NeighbourSum(field, outside, p, offsets);
    assert (r.1 + 1) as real == r.1 as real + 1.0;
    MeanOfCopies(v, r.1 as real);
  }

  /** The mean of `c + 1` copies of `v` is `v`. */
  lemma MeanOfCopies(v: Vec3, c: real)
    requires c >= 0.0
    ensures Div3(Add3(v, Scale3(v, c)), c + 1.0) == v
  {
    ScaleStep(v, c);
    assert Add3(v, Scale3(v, c)) == Add3(Scale3(v, c), v);
    assert v.x * (c + 1.0) / (c + 1.0) == v.x;
    assert v.y * (c + 1.0) / (c + 1.0) == v.y;
    assert v.z * (c + 1.0) / (c + 1.0) == v.z;
  }

  method SmoothRow(smoothed: array3<Vec3>, field: array3<Vec3>, outside: array3<bool>, offsets: seq<Int3>,
                   x: int, y: int)
    requires SameShape(smoothed, outside) && SameShape(field, outside) && smoothed != field
    requires 0 <= x < smoothed.Length0 && 0 <= y < smoothed.Length1
    modifies smoothed
    ensures forall z :: 0 <= z < smoothed.Length2 && !outside[x, y, z] ==>
              smoothed[x, y, z] == SmoothedAt(field, outside, Int3(x, y, z), offsets)
    ensures forall x', y', z ::
              (0 <= x' < smoothed.Length0 && 0 <= y' < smoothed.Length1 && 0 <= z < smoothed.Length2 &&
               (x' != x || y' != y || outside[x', y', z]))
              ==> smoothed[x', y', z] == old(smoothed[x', y', z])
  {
    for z := 0 to smoothed.Length2
      invariant forall z' :: 0 <= z' < z && !outside[x, y, z'] ==>
                  smoothed[x, y, z'] == SmoothedAt(field, outside, Int3(x, y, z'), offsets)
      invariant forall x', y', z' ::
                  (0 <= x' < smoothed.Length0 && 0 <= y' < smoothed.Length1 && 0 <= z' < smoothed.Length2 &&
                   (x' != x || y' != y || z' >= z || outside[x', y', z']))
                  ==> smoothed[x', y', z'] == old(smoothed[x', y', z'])
    {
      if !outside[x, y, z] {
        var df := NeighbourAverage(field, outside, Int3(x, y, z), offsets);
        smoothed[x, y, z] := df;
      }
    }
  }

  /** `Smooth`'s loops: a fresh field in which every voxel not outside holds the mean
    * of its own value and its contributing face neighbours', and every outside voxel
    * holds zero. */
  method SmoothField(field: array3<Vec3>, outside: array3<bool>, offsets: seq<Int3>) returns (smoothed: array3<Vec3>)
    requires SameShape(field, outside)
    ensures fresh(smoothed) && SameShape(smoothed, outside)
    ensures forall x, y, z :: 0 <= x < smoothed.Length0 && 0 <= y < smoothed.Length1 && 0 <= z < smoothed.Length2 ==>
              smoothed[x, y, z] == (if outside[x, y, z] then Zero3 else SmoothedAt(field, outside, Int3(x, y, z), offsets))
  {
    smoothed := new Vec3[outside.Length0, outside.Length1, outside.Length2]((_, _, _) => Zero3);
    for x := 0 to smoothed.Length0
      invariant forall x', y, z :: 0 <= x' < smoothed.Length0 && 0 <= y < smoothed.Length1 && 0 <= z < smoothed.Length2 ==>
                  smoothed[x', y, z] == (if outside[x', y, z] || x' >= x then Zero3
                                         else SmoothedAt(field, outside, Int3(x', y, z), offsets))
    {
      for y := 0 to smoothed.Length1
        invariant forall x', y', z :: 0 <= x' < smoothed.Length0 && 0 <= y' < smoothed.Length1 && 0 <= z < smoothed.Length2 ==>
                    smoothed[x', y', z] == (if outside[x', y', z] || x' > x || (x' == x && y' >= y) then Zero3
                                            else SmoothedAt(field, outside, Int3(x', y', z), offsets))
      {
        SmoothRow(smoothed, field, outside, offsets, x, y);
      }
    }
  }

  // ---------------------------------------------------------------------------
  // The component

  type NonNegReal = r: real | r >= 0.0

  /** `VoxelDistanceField`: the voxelizer it was built for and the field it holds. The
    * field is null until `JumpFlood` runs; here it is then an empty grid. */
  class DistanceField {
    const voxelizer: Voxelizer
    var distanceField: array3<Vec3>

    constructor(voxelizer: Voxelizer)
      ensures this.voxelizer == voxelizer
      ensures distanceField.Length0 == 0 && distanceField.Length1 == 0 && distanceField.Length2 == 0
    {
      this.voxelizer := voxelizer;
      distanceField := new Vec3[0, 0, 0];
    }

    /** `JumpFlood`: builds the seeds by jump flooding over the full neighbourhood
      * and stores the gradients. Every outside voxel gets zero; every other voxel
      * gets the vector from its centre to its seed's centre, where the seed is unset
      * or an outside voxel. The coroutine's progress reports are left out; the
      * number of passes is returned as `passes`, and `snaps` and `strides` record each
      * pass as `JumpFloodSeeds` does. */
    method JumpFlood()
      returns (ghost seeds: array3<Int3>, ghost passes: nat, ghost snaps: seq<array3<Int3>>, ghost strides: seq<int>)
      modifies this
      ensures fresh(distanceField) && SameShape(distanceField, voxelizer.outside)
      ensures SameShape(seeds, voxelizer.outside)
      ensures SeedsFromOutside(seeds, voxelizer.outside) && OutsideSelfSeeded(seeds, voxelizer.outside)
      ensures forall x, y, z :: 0 <= x < distanceField.Length0 && 0 <= y < distanceField.Length1 &&
                                0 <= z < distanceField.Length2 ==>
                distanceField[x, y, z] == GradientAt(seeds, voxelizer.outside, voxelizer.center, Int3(x, y, z))
      ensures passes == Log2(Max3(voxelizer.outside.Length0, voxelizer.outside.Length1, voxelizer.outside.Length2))
      ensures strides == Strides(Max3(voxelizer.outside.Length0, voxelizer.outside.Length1, voxelizer.outside.Length2) / 2)
      ensures |strides| == passes && |snaps| == passes + 1 && SameShape(snaps[0], voxelizer.outside)
      ensures InitialSeeds(snaps[0], voxelizer.outside)
      ensures forall k :: 0 <= k < passes ==> PassResult(snaps[k], snaps[k + 1], strides[k], voxelizer.fullNeighbourhood)
      ensures SameSeeds(snaps[passes], seeds)
    {
      var buffer1;
      buffer1, passes, snaps, strides := JumpFloodSeeds(voxelizer.outside, voxelizer.fullNeighbourhood);
      seeds := buffer1;
      distanceField := Gradients(buffer1, voxelizer.outside, voxelizer.center);
    }

    /** `Smooth`: replaces the field by its smoothed copy over the face
      * neighbourhood. */
    method Smooth()
      requires SameShape(distanceField, voxelizer.outside)
      modifies this
      ensures fresh(distanceField) && SameShape(distanceField, voxelizer.outside)
      ensures forall x, y, z :: 0 <= x < distanceField.Length0 && 0 <= y < distanceField.Length1 &&
                                0 <= z < distanceField.Length2 ==>
                distanceField[x, y, z] ==
                  (if voxelizer.outside[x, y, z] then Zero3
                   else SmoothedAt(old(distanceField), voxelizer.outside, Int3(x, y, z), voxelizer.faceNeighbourhood))
    {
      distanceField := SmoothField(distanceField, voxelizer.outside, voxelizer.faceNeighbourhood);
    }

    /** `SampleUnfiltered`: the coordinates are clamped into the grid; the result
      * holds the normalised gradient and minus its length. Vector length and
      * normalisation are Unity's and are given as functions. */
    function SampleUnfiltered(x: int, y: int, z: int, magnitude: Vec3 -> NonNegReal, normalize: Vec3 -> Vec3): (v: Vec4)
      requires SameShape(distanceField, voxelizer.outside)
      requires distanceField.Length0 > 0 && distanceField.Length1 > 0 && distanceField.Length2 > 0
      reads this, distanceField
      ensures v.w <= 0.0
      ensures var p := Int3(MathfClampInt(x, 0, distanceField.Length0 - 1),
                            MathfClampInt(y, 0, distanceField.Length1 - 1),
                            MathfClampInt(z, 0, distanceField.Length2 - 1));
        InGrid(distanceField, p) &&
        v == Vec4(normalize(At(distanceField, p)).x, normalize(At(distanceField, p)).y,
                  normalize(At(distanceField, p)).z, -(magnitude(At(distanceField, p)) as real))
      ensures 0 <= x < distanceField.Length0 && 0 <= y < distanceField.Length1 && 0 <= z < distanceField.Length2 ==>
        v.w == -(magnitude(distanceField[x, y, z]) as real)
    {
      var cx := MathfClampInt(x, 0, distanceField.Length0 - 1);
      var cy := MathfClampInt(y, 0, distanceField.Length1 - 1);
      var cz := MathfClampInt(z, 0, distanceField.Length2 - 1);
      var grad := distanceField[cx, cy, cz];
      var n := normalize(grad);
      Vec4(n.x, n.y, n.z, -(magnitude(grad) as real))
    }
  }
}
