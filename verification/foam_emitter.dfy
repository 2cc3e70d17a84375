/** `ObiFoamEmitter`: a foam emitter turns a continuous emission rate into whole
  * particles per step, carrying the fractional remainder over in an accumulator. */
module FoamEmitter {
  import opened Common

  /** One step of the accumulator: the whole part of `accumulator + amount` (the C#
    * cast truncates toward zero) is emitted and the fraction kept. Nothing is lost or
    * created, and from a non-negative total the fraction kept is in [0, 1). */
  function Emit(accumulator: real, amount: real): (r: (int, real))
    ensures r.0 as real + r.1 == accumulator + amount
    ensures accumulator + amount >= 0.0 ==> r.0 >= 0 && 0.0 <= r.1 < 1.0
    ensures accumulator + amount < 0.0 ==> r.0 <= 0 && -1.0 < r.1 <= 0.0
  {
    var total := accumulator + amount;
    var particles := Trunc(total);
    (particles, total - particles as real)
  }

  /** Repeated steps with the given amounts (rate times delta time for each call):
    * the particles emitted in total and the final accumulator. */
  function EmitAll(accumulator: real, amounts: seq<real>): (int, real)
  {
    if amounts == [] then (0, accumulator)
    else
      var prev := EmitAll(accumulator, amounts[..|amounts| - 1]);
      var step := Emit(prev.1, amounts[|amounts| - 1]);
      (prev.0 + step.0, step.1)
  }

  function Sum(amounts: seq<real>): real
  {
    if amounts == [] then 0.0 else Sum(amounts[..|amounts| - 1]) + amounts[|amounts| - 1]
  }

  /** Over any sequence of calls the particles emitted plus the final accumulator equal
    * the initial accumulator plus everything added; with non-negative amounts from an
    * accumulator in [0, 1) it stays in [0, 1) and no call emits a negative count. */
  lemma {:induction false} EmitAllConserves(accumulator: real, amounts: seq<real>)
    ensures var r := EmitAll(accumulator, amounts);
      r.0 as real + r.1 == accumulator + Sum(amounts)
    ensures (0.0 <= accumulator < 1.0 && forall i :: 0 <= i < |amounts| ==> amounts[i] >= 0.0) ==>
      var r := EmitAll(accumulator, amounts);
      r.0 >= 0 && 0.0 <= r.1 < 1.0
  {
    if amounts != [] {
      EmitAllConserves(accumulator, amounts[..|amounts| - 1]);
    }
  }

  /** The particles a rate yields over a time step. */
  function Emission(rate: real, deltaTime: real): real
  {
    rate * deltaTime
  }

  /** The emitter's state that these methods touch; `foamGenerationRate` is the
    * particles per second set on the generator. */
  class Emitter {
    var foamGenerationRate: real
    var emissionAccumulator: real

    constructor(foamGenerationRate: real)
      ensures this.foamGenerationRate == foamGenerationRate && emissionAccumulator == 0.0
    {
      this.foamGenerationRate := foamGenerationRate;
      emissionAccumulator := 0.0;
    }

    /** `GetParticleNumberToEmit`: one step of `Emit` with rate times `deltaTime`. */
    method GetParticleNumberToEmit(deltaTime: real) returns (particles: int)
      modifies this
      ensures (particles, emissionAccumulator) == Emit(old(emissionAccumulator), Emission(foamGenerationRate, deltaTime))
      ensures foamGenerationRate == old(foamGenerationRate)
    {
      emissionAccumulator := emissionAccumulator + Emission(foamGenerationRate, deltaTime);
      particles := Trunc(emissionAccumulator);
      emissionAccumulator := emissionAccumulator - particles as real;
    }

    /** `Reset`: the accumulator is emptied. */
    method Reset()
      modifies this
      ensures emissionAccumulator == 0.0 && foamGenerationRate == old(foamGenerationRate)
    {
      emissionAccumulator := 0.0;
    }
  }
}
