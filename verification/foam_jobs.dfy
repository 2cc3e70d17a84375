/** The buffer bookkeeping of the Burst foam particle jobs. Foam particles live in
  * capacity-bounded buffers (positions, velocities, colours, attributes, always
  * written together at one slot and modelled as one array of records). An integer
  * dispatch buffer holds the alive counter at slot 3 and the next frame's alive
  * counter at slot 7.
  *
  * Emission increments the alive counter once per particle and writes the particle
  * only while the counter is below capacity. Updating pops particles off the alive
  * counter and appends the live ones at the next alive counter. Copying swaps the
  * counters. The random placement of new particles, the grid advection and the
  * packing of attributes are not part of this model: they are given as functions. */
module FoamParticles {
  import opened Common

  const AliveCounter: nat := 3
  const NextAliveCounter: nat := 7

  /** One slot of the foam buffers. `attributes.x` is the remaining life and
    * `attributes.y` the aging rate. */
  datatype FoamParticle = FoamParticle(position: Vec4, velocity: Vec4, color: Vec4, attributes: Vec4)

  /** The dispatch buffer has both counters. */
  predicate DispatchShaped(dispatch: seq<int>)
  {
    |dispatch| > NextAliveCounter
  }

  // ---------------------------------------------------------------------------
  // Emission (EmitParticlesJob, and the emit loop of GenerateParticlesJob)

  /** `buffer` after emitting `particles` with the alive counter starting at `start`:
    * the k-th particle lands in slot start + k when that slot is below capacity;
    * the others are dropped. */
  function EmittedRange(buffer: seq<FoamParticle>, start: int, particles: seq<FoamParticle>): (r: seq<FoamParticle>)
    ensures |r| == |buffer|
  {
    seq(|buffer|, k requires 0 <= k < |buffer| =>
      if start <= k < start + |particles| then particles[k - start] else buffer[k])
  }

  lemma EmittedRangeStep(buffer: seq<FoamParticle>, start: int, particles: seq<FoamParticle>, p: FoamParticle)
    requires start >= 0
    ensures var b := EmittedRange(buffer, start, particles);
      EmittedRange(buffer, start, particles + [p])
        == if start + |particles| < |buffer| then b[start + |particles| := p] else b
  {
  }

  /** Emission never touches a slot below the starting counter, so particles already
    * alive are never overwritten; the slots from the counter up to capacity receive
    * the emitted particles in order. */
  lemma EmittedRangeSlots(buffer: seq<FoamParticle>, start: int, particles: seq<FoamParticle>)
    requires 0 <= start
    ensures var r := EmittedRange(buffer, start, particles);
      && r[..Min(start as real, |buffer| as real).Floor] == buffer[..Min(start as real, |buffer| as real).Floor]
      && (start + |particles| <= |buffer| ==> r[start..start + |particles|] == particles)
  {
    var r := EmittedRange(buffer, start, particles);
    var lo := Min(start as real, |buffer| as real).Floor;
    assert forall k :: 0 <= k < lo ==> r[k] == buffer[k];
    if start + |particles| <= |buffer| {
      assert forall k :: 0 <= k < |particles| ==> r[start..start + |particles|][k] == particles[k];
    }
  }

  /** One emission: atomically take a slot from the alive counter, and fill it only
    * when it is below the buffer capacity. */
  method Emit(output: array<FoamParticle>, dispatch: array<int>, particle: FoamParticle)
    requires DispatchShaped(dispatch[..]) && dispatch[AliveCounter] >= 0
    modifies output, dispatch
    ensures dispatch[..] == old(dispatch[..])[AliveCounter := old(dispatch[AliveCounter]) + 1]
    ensures output[..] == EmittedRange(old(output[..]), old(dispatch[AliveCounter]), [particle])
  {
    var count := dispatch[AliveCounter];
    dispatch[AliveCounter] := count + 1;
    if count < output.Length {
      output[count] := particle;
    }
  }

  /** `EmitParticlesJob` over `n` work items; `spawn(i)` is the particle work item i
    * creates (its random placement, colour and attributes are not modelled). */
  method EmitParticles(output: array<FoamParticle>, dispatch: array<int>, n: int, spawn: int -> FoamParticle)
    requires DispatchShaped(dispatch[..]) && dispatch[AliveCounter] >= 0
    modifies output, dispatch
    ensures dispatch[..] == old(dispatch[..])[AliveCounter := old(dispatch[AliveCounter]) + MaxInt(n, 0)]
    ensures output[..] == EmittedRange(old(output[..]), old(dispatch[AliveCounter]), seq(MaxInt(n, 0), spawn))
  {
    var i := 0;
    while i < n
      invariant 0 <= i <= MaxInt(n, 0)
      invariant dispatch[..] == old(dispatch[..])[AliveCounter := old(dispatch[AliveCounter]) + i]
      invariant output[..] == EmittedRange(old(output[..]), old(dispatch[AliveCounter]), seq(i, spawn))
    {
      EmittedRangeStep(old(output[..]), old(dispatch[AliveCounter]), seq(i, spawn), spawn(i));
      assert seq(i + 1, spawn) == seq(i, spawn) + [spawn(i)];
      Emit(output, dispatch, spawn(i));
      i := i + 1;
    }
  }

  // ---------------------------------------------------------------------------
  // GenerateParticlesJob: the foam potential and its emission accumulator

  /** The foam potential of a fluid particle: `x` accumulates fractional emissions,
    * `y` is the potential itself. (The source packs both into one float.) */
  datatype Potential = Potential(accumulator: real, potential: real)

  /** The potential update of one fluid particle and the number of particles it
    * emits (see `EmissionAccumulator`). */
  function PotentialUpdated(p: Potential, diffusion: real, delta: real, rate: real, dt: real): (r: (Potential, int))
    ensures 0.0 <= r.0.potential <= 1.0
  {
    var y := Saturate(p.potential * diffusion + delta);
    var x := p.accumulator + rate * y * dt;
    var emitCount := Trunc(x);
    (Potential(x - emitCount as real, y), emitCount)
  }

  /** The potential is saturated into [0, 1]; the emission count is the truncated
    * accumulator after adding rate * potential * dt, and the accumulator keeps
    * exactly the remainder, so nothing is lost. For a non-negative accumulator and
    * rate * dt it stays in [0, 1) and the count is not negative. */
  lemma EmissionAccumulator(p: Potential, diffusion: real, delta: real, rate: real, dt: real)
    ensures var r := PotentialUpdated(p, diffusion, delta, rate, dt);
      && r.0.potential == Saturate(p.potential * diffusion + delta)
      && r.1 == Trunc(p.accumulator + rate * r.0.potential * dt)
      && r.0.accumulator + r.1 as real == p.accumulator + rate * r.0.potential * dt
      && (p.accumulator >= 0.0 && rate * dt >= 0.0 ==> 0.0 <= r.0.accumulator < 1.0 && r.1 >= 0)
  {
    var y := Saturate(p.potential * diffusion + delta);
    assert rate * dt >= 0.0 ==> rate * y * dt >= 0.0 by {
      assert rate * y * dt == y * (rate * dt);
    }
  }

  /** Total particles generated by the listed fluid particles: each one emits its
    * emission count, or nothing when the count is negative. */
  function TotalEmitCount(pots: seq<Potential>, active: seq<int>, diffusion: real, delta: int -> real,
                          rate: real, dt: real): (n: nat)
    requires forall k :: 0 <= k < |active| ==> 0 <= active[k] < |pots|
  {
    if active == [] then 0
    else
      var p := active[|active| - 1];
      TotalEmitCount(pots, active[..|active| - 1], diffusion, delta, rate, dt)
        + MaxInt(PotentialUpdated(pots[p], diffusion, delta(p), rate, dt).1, 0)
  }

  /** The particles generated by the listed fluid particles, in order: each one
    * contributes its emission count of particles (none when the count is negative). */
  function Spawned(pots: seq<Potential>, active: seq<int>, diffusion: real, delta: int -> real,
                   rate: real, dt: real, spawn: (int, int) -> FoamParticle): (r: seq<FoamParticle>)
    requires forall k :: 0 <= k < |active| ==> 0 <= active[k] < |pots|
    ensures |r| == TotalEmitCount(pots, active, diffusion, delta, rate, dt)
  {
    if active == [] then []
    else
      var p := active[|active| - 1];
      Spawned(pots, active[..|active| - 1], diffusion, delta, rate, dt, spawn)
        + seq(MaxInt(PotentialUpdated(pots[p], diffusion, delta(p), rate, dt).1, 0), j => spawn(p, j))
  }

  lemma SpawnedStep(pots: seq<Potential>, active: seq<int>, p: int, diffusion: real, delta: int -> real,
                    rate: real, dt: real, spawn: (int, int) -> FoamParticle)
    requires forall k :: 0 <= k < |active| ==> 0 <= active[k] < |pots|
    requires 0 <= p < |pots|
    ensures Spawned(pots, active + [p], diffusion, delta, rate, dt, spawn)
         == Spawned(pots, active, diffusion, delta, rate, dt, spawn)
            + seq(MaxInt(PotentialUpdated(pots[p], diffusion, delta(p), rate, dt).1, 0), j => spawn(p, j))
  {
    assert (active + [p])[..|active|] == active;
  }

  /** Emitting one batch after another, with the counter advanced by the first batch,
    * is emitting both batches at once. */
  lemma EmittedRangeAppend(buffer: seq<FoamParticle>, start: int, first: seq<FoamParticle>, second: seq<FoamParticle>)
    requires start >= 0
    ensures EmittedRange(EmittedRange(buffer, start, first), start + |first|, second)
         == EmittedRange(buffer, start, first + second)
  {
    var lhs := EmittedRange(EmittedRange(buffer, start, first), start + |first|, second);
    var rhs := EmittedRange(buffer, start, first + second);
    forall k | 0 <= k < |buffer|
      ensures lhs[k] == rhs[k]
    {
      if start + |first| <= k < start + |first| + |second| {
        assert (first + second)[k - start] == second[k - start - |first|];
      } else if start <= k < start + |first| {
        assert (first + second)[k - start] == first[k - start];
      }
    }
  }

  /** The potentials after the generation pass. */
  function PotentialsAfter(pots: seq<Potential>, active: seq<int>, diffusion: real, delta: int -> real,
                           rate: real, dt: real): (r: seq<Potential>)
    ensures |r| == |pots|
    ensures forall j :: 0 <= j < |pots| && j in active ==> 0.0 <= r[j].potential <= 1.0
  {
    seq(|pots|, j requires 0 <= j < |pots| =>
      if j in active then PotentialUpdated(pots[j], diffusion, delta(j), rate, dt).0 else pots[j])
  }

  lemma PotentialsAfterUntouched(pots: seq<Potential>, active: seq<int>, p: int, diffusion: real, delta: int -> real,
                                 rate: real, dt: real)
    requires 0 <= p < |pots| && p !in active
    ensures PotentialsAfter(pots, active, diffusion, delta, rate, dt)[p] == pots[p]
  {
  }

  lemma PotentialsAfterStep(pots: seq<Potential>, active: seq<int>, p: int, diffusion: real, delta: int -> real,
                            rate: real, dt: real)
    requires 0 <= p < |pots| && p !in active
    ensures PotentialsAfter(pots, active + [p], diffusion, delta, rate, dt)
         == PotentialsAfter(pots, active, diffusion, delta, rate, dt)[p := PotentialUpdated(pots[p], diffusion, delta(p), rate, dt).0]
  {
  }

  lemma TotalEmitCountStep(pots: seq<Potential>, active: seq<int>, p: int, diffusion: real, delta: int -> real,
                           rate: real, dt: real)
    requires forall k :: 0 <= k < |active| ==> 0 <= active[k] < |pots|
    requires 0 <= p < |pots|
    ensures TotalEmitCount(pots, active + [p], diffusion, delta, rate, dt)
         == TotalEmitCount(pots, active, diffusion, delta, rate, dt)
            + MaxInt(PotentialUpdated(pots[p], diffusion, delta(p), rate, dt).1, 0)
  {
    assert (active + [p])[..|active|] == active;
  }

  /** One work item of `GenerateParticlesJob`: update fluid particle p's potential
    * and emit the particles it accounts for. */
  method GenerateFrom(p: int, potentials: array<Potential>, output: array<FoamParticle>, dispatch: array<int>,
                      diffusion: real, delta: real, rate: real, dt: real, spawn: int -> FoamParticle)
    requires 0 <= p < potentials.Length
    requires DispatchShaped(dispatch[..]) && dispatch[AliveCounter] >= 0
    modifies potentials, output, dispatch
    ensures var updated := PotentialUpdated(old(potentials[p]), diffusion, delta, rate, dt);
      && potentials[..] == old(potentials[..])[p := updated.0]
      && dispatch[..] == old(dispatch[..])[AliveCounter := old(dispatch[AliveCounter]) + MaxInt(updated.1, 0)]
    ensures output[..] == EmittedRange(old(output[..]), old(dispatch[AliveCounter]),
              seq(MaxInt(PotentialUpdated(old(potentials[p]), diffusion, delta, rate, dt).1, 0), spawn))
  {
    var updated := PotentialUpdated(potentials[p], diffusion, delta, rate, dt);
    EmitParticles(output, dispatch, updated.1, spawn);
    potentials[p] := updated.0;
  }

  /** `GenerateParticlesJob`, run sequentially over the active fluid particles.
    * `delta(p)` is particle p's potential increase, which depends on its vorticity
    * and speed through remapping that is not modelled; `spawn(p, j)` is the j-th
    * particle it emits. */
  method GenerateParticles(active: seq<int>, potentials: array<Potential>, output: array<FoamParticle>,
                           dispatch: array<int>, diffusion: real, delta: int -> real, rate: real, dt: real,
                           spawn: (int, int) -> FoamParticle)
    requires Distinct(active)
    requires forall k :: 0 <= k < |active| ==> 0 <= active[k] < potentials.Length
    requires DispatchShaped(dispatch[..]) && dispatch[AliveCounter] >= 0
    modifies potentials, output, dispatch
    ensures potentials[..] == PotentialsAfter(old(potentials[..]), active, diffusion, delta, rate, dt)
    ensures dispatch[..] == old(dispatch[..])[AliveCounter := old(dispatch[AliveCounter])
                              + TotalEmitCount(old(potentials[..]), active, diffusion, delta, rate, dt)]
    ensures output[..] == EmittedRange(old(output[..]), old(dispatch[AliveCounter]),
                                       Spawned(old(potentials[..]), active, diffusion, delta, rate, dt, spawn))
  {
    ghost var pots := old(potentials[..]);
    ghost var out0 := old(output[..]);
    assert active[..0] == [];
    assert EmittedRange(out0, old(dispatch[AliveCounter]), []) == out0;
    ghost var base := old(dispatch[AliveCounter]);
    for i := 0 to |active|
      invariant potentials[..] == PotentialsAfter(pots, active[..i], diffusion, delta, rate, dt)
      invariant dispatch[AliveCounter] == old(dispatch[AliveCounter]) + TotalEmitCount(pots, active[..i], diffusion, delta, rate, dt)
      invariant forall k :: 0 <= k < dispatch.Length && k != AliveCounter ==> dispatch[k] == old(dispatch[k])
      invariant output.Length == |out0|
      invariant output[..] == EmittedRange(out0, base, Spawned(pots, active[..i], diffusion, delta, rate, dt, spawn))
    {
      GenerateNext(active, i, pots, old(dispatch[AliveCounter]), out0, potentials, output, dispatch, diffusion, delta, rate, dt, spawn);
    }
    assert active[..|active|] == active;
    UpdatedOnlyAt(old(dispatch[..]), dispatch[..], AliveCounter);
  }

  /** The work item for `active[i]`, with the state after the first `i` items. */
  method GenerateNext(active: seq<int>, i: int, ghost pots: seq<Potential>, ghost base: int,
                      ghost out0: seq<FoamParticle>, potentials: array<Potential>,
                      output: array<FoamParticle>, dispatch: array<int>, diffusion: real, delta: int -> real,
                      rate: real, dt: real, spawn: (int, int) -> FoamParticle)
    requires Distinct(active) && 0 <= i < |active| && |pots| == potentials.Length
    requires forall k :: 0 <= k < |active| ==> 0 <= active[k] < potentials.Length
    requires DispatchShaped(dispatch[..]) && base >= 0
    requires potentials[..] == PotentialsAfter(pots, active[..i], diffusion, delta, rate, dt)
    requires dispatch[AliveCounter] == base + TotalEmitCount(pots, active[..i], diffusion, delta, rate, dt)
    requires output[..] == EmittedRange(out0, base, Spawned(pots, active[..i], diffusion, delta, rate, dt, spawn))
    modifies potentials, output, dispatch
    ensures potentials[..] == PotentialsAfter(pots, active[..i + 1], diffusion, delta, rate, dt)
    ensures dispatch[AliveCounter] == base + TotalEmitCount(pots, active[..i + 1], diffusion, delta, rate, dt)
    ensures forall k :: 0 <= k < dispatch.Length && k != AliveCounter ==> dispatch[k] == old(dispatch[k])
    ensures output[..] == EmittedRange(out0, base, Spawned(pots, active[..i + 1], diffusion, delta, rate, dt, spawn))
  {
    var p := active[i];
    GenerateStepFacts(pots, active, i, diffusion, delta, rate, dt, spawn);
    assert potentials[p] == potentials[..][p];
    ghost var prev := Spawned(pots, active[..i], diffusion, delta, rate, dt, spawn);
    ghost var batch := seq(MaxInt(PotentialUpdated(pots[p], diffusion, delta(p), rate, dt).1, 0), j => spawn(p, j));
    GenerateFrom(p, potentials, output, dispatch, diffusion, delta(p), rate, dt, j => spawn(p, j));
    EmittedRangeAppend(out0, base, prev, batch);
  }

  /** How the pass's summaries grow when the work item for `active[i]` is added. */
  lemma GenerateStepFacts(pots: seq<Potential>, active: seq<int>, i: int, diffusion: real, delta: int -> real,
                          rate: real, dt: real, spawn: (int, int) -> FoamParticle)
    requires Distinct(active) && 0 <= i < |active|
    requires forall k :: 0 <= k < |active| ==> 0 <= active[k] < |pots|
    ensures PotentialsAfter(pots, active[..i], diffusion, delta, rate, dt)[active[i]] == pots[active[i]]
    ensures PotentialsAfter(pots, active[..i + 1], diffusion, delta, rate, dt)
         == PotentialsAfter(pots, active[..i], diffusion, delta, rate, dt)
              [active[i] := PotentialUpdated(pots[active[i]], diffusion, delta(active[i]), rate, dt).0]
    ensures TotalEmitCount(pots, active[..i + 1], diffusion, delta, rate, dt)
         == TotalEmitCount(pots, active[..i], diffusion, delta, rate, dt)
            + MaxInt(PotentialUpdated(pots[active[i]], diffusion, delta(active[i]), rate, dt).1, 0)
    ensures Spawned(pots, active[..i + 1], diffusion, delta, rate, dt, spawn)
         == Spawned(pots, active[..i], diffusion, delta, rate, dt, spawn)
            + seq(MaxInt(PotentialUpdated(pots[active[i]], diffusion, delta(active[i]), rate, dt).1, 0), j => spawn(active[i], j))
  {
    var p := active[i];
    PrefixStep(active, i);
    DistinctFresh(active, i);
    PotentialsAfterUntouched(pots, active[..i], p, diffusion, delta, rate, dt);
    PotentialsAfterStep(pots, active[..i], p, diffusion, delta, rate, dt);
    TotalEmitCountStep(pots, active[..i], p, diffusion, delta, rate, dt);
    SpawnedStep(pots, active[..i], p, diffusion, delta, rate, dt, spawn);
  }

  // ---------------------------------------------------------------------------
  // UpdateParticlesJob: pop, age and compact

  /** The particles kept by popping `n` slots off an alive counter at `top`, in the
    * order they are appended: slot top-1 first. A slot is kept when it is inside the
    * input buffer and its particle still has life; `aged` is what becomes of it. */
  function Survivors(input: seq<FoamParticle>, top: int, n: nat, aged: FoamParticle -> FoamParticle): (r: seq<FoamParticle>)
    requires n <= top
  {
    if n == 0 then []
    else
      var prev := Survivors(input, top, n - 1, aged);
      var count := top - n;
      if count < |input| && input[count].attributes.x > 0.0 then prev + [aged(input[count])] else prev
  }

  /** At most as many particles survive as there were in-buffer slots popped. */
  lemma {:induction false} SurvivorsBound(input: seq<FoamParticle>, top: int, n: nat, aged: FoamParticle -> FoamParticle)
    requires n <= top
    ensures |Survivors(input, top, n, aged)| <= MaxInt(0, Min(top as real, |input| as real).Floor - (top - n))
    ensures |Survivors(input, top, n, aged)| <= |input|
  {
    if n > 0 {
      SurvivorsBound(input, top, n - 1, aged);
    }
  }

  /** Popping a buffer whose every particle is alive keeps all of them. */
  lemma {:induction false} SurvivorsAllAlive(input: seq<FoamParticle>, top: int, n: nat, aged: FoamParticle -> FoamParticle)
    requires n <= top <= |input|
    requires forall c :: top - n <= c < top ==> input[c].attributes.x > 0.0
    ensures |Survivors(input, top, n, aged)| == n
  {
    if n > 0 {
      SurvivorsAllAlive(input, top, n - 1, aged);
    }
  }

  /** What becomes of a kept particle: its colour is copied, its life drops by
    * aging rate * dt * agingScale, and its motion is integrated by `advect` (the
    * grid advection, not modelled). Whatever `advect` does, the particle keeps its
    * colour, aging rate and other attributes, and it never gains life when the aging
    * rate, the time step and the scale are non-negative (it loses some when all are
    * positive). */
  function Aged(q: FoamParticle, dt: real, agingScale: FoamParticle -> real,
                advect: FoamParticle -> FoamParticle): (r: FoamParticle)
    ensures r.color == q.color
    ensures r.attributes.y == q.attributes.y && r.attributes.z == q.attributes.z && r.attributes.w == q.attributes.w
    ensures q.attributes.y >= 0.0 && dt >= 0.0 && agingScale(q) >= 0.0 ==> r.attributes.x <= q.attributes.x
    ensures q.attributes.y > 0.0 && dt > 0.0 && agingScale(q) > 0.0 ==> r.attributes.x < q.attributes.x
  {
    AgingSign(q.attributes.y, dt, agingScale(q));
    var moved := advect(q);
    moved.(color := q.color, attributes := q.attributes.(x := q.attributes.x - q.attributes.y * dt * agingScale(q)))
  }

  /** `Aged` with the step's time, aging scale and advection fixed: the update
    * `UpdateParticlesJob` applies to each kept particle. */
  function AgeStep(dt: real, agingScale: FoamParticle -> real, advect: FoamParticle -> FoamParticle): FoamParticle -> FoamParticle
  {
    q => Aged(q, dt, agingScale, advect)
  }

  /** The sign of the life a particle loses in one step. */
  lemma AgingSign(rate: real, dt: real, scale: real)
    ensures rate >= 0.0 && dt >= 0.0 && scale >= 0.0 ==> rate * dt * scale >= 0.0
    ensures rate > 0.0 && dt > 0.0 && scale > 0.0 ==> rate * dt * scale > 0.0
  {
    if rate >= 0.0 && dt >= 0.0 {
      assert rate * dt >= 0.0;
    }
    if rate > 0.0 && dt > 0.0 {
      assert rate * dt > 0.0;
    }
  }

  /** `x` is what `aged` makes of a particle alive in one of the input slots the job pops
    * when it pops `n` slots below `top`. */
  ghost predicate FromAlive(input: seq<FoamParticle>, top: int, n: nat, aged: FoamParticle -> FoamParticle, x: FoamParticle)
  {
    exists c :: top - n <= c < top && 0 <= c < |input| && input[c].attributes.x > 0.0 && x == aged(input[c])
  }

  /** Every survivor is what `aged` makes of a popped particle that was alive in the
    * input buffer. */
  lemma {:induction false} SurvivorsComeFromAlive(input: seq<FoamParticle>, top: int, n: nat, aged: FoamParticle -> FoamParticle)
    requires n <= top
    ensures forall k :: 0 <= k < |Survivors(input, top, n, aged)| ==>
      FromAlive(input, top, n, aged, Survivors(input, top, n, aged)[k])
  {
    if n > 0 {
      SurvivorsComeFromAlive(input, top, n - 1, aged);
      var prev := Survivors(input, top, n - 1, aged);
      var s := Survivors(input, top, n, aged);
      forall k | 0 <= k < |s|
        ensures FromAlive(input, top, n, aged, s[k])
      {
        if k < |prev| {
          assert s[k] == prev[k];
          assert FromAlive(input, top, n - 1, aged, prev[k]);
          var c :| top - (n - 1) <= c < top && 0 <= c < |input| && input[c].attributes.x > 0.0 && prev[k] == aged(input[c]);
          assert top - n <= c;
        } else {
          assert s[k] == aged(input[top - n]);
        }
      }
    }
  }

  /** With `Aged` as the update, as `UpdateParticlesJob` does it: when no particle has a
    * negative aging rate or scale and the time step is non-negative, every particle
    * written to the output comes from a live input particle, has its colour, and has
    * no more life than it. */
  lemma AgedSurvivorsLoseLife(input: seq<FoamParticle>, top: int, n: nat, dt: real,
                              agingScale: FoamParticle -> real, advect: FoamParticle -> FoamParticle)
    requires n <= top && dt >= 0.0
    requires forall c :: 0 <= c < |input| ==> input[c].attributes.y >= 0.0 && agingScale(input[c]) >= 0.0
    ensures forall k :: 0 <= k < |Survivors(input, top, n, AgeStep(dt, agingScale, advect))| ==>
      LostLifeFrom(input, top, n, Survivors(input, top, n, AgeStep(dt, agingScale, advect))[k])
  {
    var aged := AgeStep(dt, agingScale, advect);
    SurvivorsComeFromAlive(input, top, n, aged);
    forall k | 0 <= k < |Survivors(input, top, n, aged)|
      ensures LostLifeFrom(input, top, n, Survivors(input, top, n, aged)[k])
    {
      var x := Survivors(input, top, n, aged)[k];
      assert FromAlive(input, top, n, aged, x);
      var c :| top - n <= c < top && 0 <= c < |input| && input[c].attributes.x > 0.0 && x == aged(input[c]);
      assert x == Aged(input[c], dt, agingScale, advect);
    }
  }

  /** `x` has the colour of a live particle in one of the popped slots, and at most its life. */
  ghost predicate LostLifeFrom(input: seq<FoamParticle>, top: int, n: nat, x: FoamParticle)
  {
    exists c :: top - n <= c < top && 0 <= c < |input| && input[c].attributes.x > 0.0
      && x.color == input[c].color && x.attributes.x <= input[c].attributes.x
  }

  /** One work item of `UpdateParticlesJob`: pop the alive counter; if the popped slot
    * is in the input buffer and alive, append its aged particle at the next alive
    * counter. */
  method UpdateParticle(input: seq<FoamParticle>, output: array<FoamParticle>, dispatch: array<int>,
                        aged: FoamParticle -> FoamParticle)
    requires DispatchShaped(dispatch[..]) && dispatch[AliveCounter] >= 1
    requires 0 <= dispatch[NextAliveCounter]
    requires dispatch[AliveCounter] - 1 < |input| && input[dispatch[AliveCounter] - 1].attributes.x > 0.0
             ==> dispatch[NextAliveCounter] < output.Length
    modifies output, dispatch
    ensures var count := old(dispatch[AliveCounter]) - 1;
      var kept := count < |input| && input[count].attributes.x > 0.0;
      && dispatch[..] == old(dispatch[..])[AliveCounter := count]
                           [NextAliveCounter := old(dispatch[NextAliveCounter]) + (if kept then 1 else 0)]
      && (kept ==> output[old(dispatch[NextAliveCounter])] == aged(input[count]))
      && (forall k :: 0 <= k < output.Length && (kept ==> k != old(dispatch[NextAliveCounter])) ==>
            output[k] == old(output[k]))
  {
    var count := dispatch[AliveCounter] - 1;
    dispatch[AliveCounter] := count;
    if count < |input| && input[count].attributes.x > 0.0 {
      var aliveCount := dispatch[NextAliveCounter];
      dispatch[NextAliveCounter] := aliveCount + 1;
      output[aliveCount] := aged(input[count]);
    }
  }

  /** `UpdateParticlesJob` over `n` work items (`n` never exceeds the alive count the
    * job was dispatched with). The alive counter drops by `n`, the next alive counter
    * ends at the number of survivors, and the output buffer starts with the survivors
    * in order, the rest of it untouched: the live particles are compacted. */
  method UpdateParticles(input: seq<FoamParticle>, output: array<FoamParticle>, dispatch: array<int>, n: nat,
                         aged: FoamParticle -> FoamParticle)
    requires DispatchShaped(dispatch[..]) && n <= dispatch[AliveCounter]
    requires dispatch[NextAliveCounter] == 0 && output.Length == |input|
    modifies output, dispatch
    ensures var s := Survivors(input, old(dispatch[AliveCounter]), n, aged);
      && dispatch[..] == old(dispatch[..])[AliveCounter := old(dispatch[AliveCounter]) - n][NextAliveCounter := |s|]
      && |s| <= output.Length
      && output[..|s|] == s && output[|s|..] == old(output[|s|..])
  {
    ghost var top := old(dispatch[AliveCounter]);
    for i := 0 to n
      invariant dispatch[..] == old(dispatch[..])[AliveCounter := top - i]
                                  [NextAliveCounter := |Survivors(input, top, i, aged)|]
      invariant |Survivors(input, top, i, aged)| <= output.Length
      invariant forall k :: 0 <= k < |Survivors(input, top, i, aged)| ==> output[k] == Survivors(input, top, i, aged)[k]
      invariant forall k :: |Survivors(input, top, i, aged)| <= k < output.Length ==> output[k] == old(output[k])
    {
      ghost var before := Survivors(input, top, i, aged);
      ghost var count := top - (i + 1);
      ghost var kept := count < |input| && input[count].attributes.x > 0.0;
      assert Survivors(input, top, i + 1, aged) == if kept then before + [aged(input[count])] else before;
      SurvivorsBound(input, top, i + 1, aged);
      UpdateParticle(input, output, dispatch, aged);
    }
    ghost var s := Survivors(input, top, n, aged);
    assert output[..|s|] == s;
  }

  // ---------------------------------------------------------------------------
  // CopyJob

  /** `CopyJob` over `n` work items: item 0 makes the next alive counter the alive
    * counter and resets it; every item copies its slot unchanged. */
  method Copy(input: seq<FoamParticle>, output: array<FoamParticle>, dispatch: array<int>, n: nat)
    requires DispatchShaped(dispatch[..])
    requires n <= |input| && n <= output.Length
    modifies output, dispatch
    ensures n > 0 ==> dispatch[..] == old(dispatch[..])[AliveCounter := old(dispatch[NextAliveCounter])][NextAliveCounter := 0]
    ensures n == 0 ==> dispatch[..] == old(dispatch[..])
    ensures output[..n] == input[..n] && output[n..] == old(output[n..])
  {
    ghost var counters := old(dispatch[..])[AliveCounter := old(dispatch[NextAliveCounter])][NextAliveCounter := 0];
    for i := 0 to n
      invariant dispatch[..] == if i > 0 then counters else old(dispatch[..])
      invariant forall k :: 0 <= k < i ==> output[k] == input[k]
      invariant forall k :: i <= k < output.Length ==> output[k] == old(output[k])
    {
      if i == 0 {
        dispatch[AliveCounter] := dispatch[NextAliveCounter];
        dispatch[NextAliveCounter] := 0;
        assert dispatch[..] == counters;
      }
      output[i] := input[i];
    }
    assert output[..n] == input[..n];
  }
}
