/** `PinholeRatchet` (a sample component): a pinhole whose range closes in, tooth by
  * tooth, behind the pinhole's position along the rope, so that it can move one way
  * only. `direction` true moves the range's end down towards the position; false moves
  * its start up. */
module PinholeRatchet {
  import opened Common
  import opened ObiPinholeComponent

  /** The length of `n` whole teeth of the given width. */
  function Teeth(n: nat, width: real): real
  {
    n as real * width
  }

  lemma TeethSucc(n: nat, width: real)
    ensures Teeth(n + 1, width) == Teeth(n, width) + width
  {
  }

  lemma TeethPositive(n: nat, width: real)
    requires n > 0 && width > 0.0
    ensures Teeth(n, width) > 0.0
  {
  }

  lemma ZeroFactor(a: real, b: real)
    requires b != 0.0 && a * b == 0.0
    ensures a == 0.0
  {
  }

  lemma FloorShift(distance: real, separation: real)
    requires separation > 0.0
    ensures ((distance - separation) / separation).Floor == (distance / separation).Floor - 1
  {
    var q, q' := distance / separation, (distance - separation) / separation;
    assert q * separation == distance;
    assert q' * separation == distance - separation;
    assert (q' - q + 1.0) * separation == 0.0;
    ZeroFactor(q' - q + 1.0, separation);
  }

  /** The number of teeth the ratchet advances from `distance` to the next tooth: it
    * stops at the first count that brings the distance within one separation, so the
    * remaining distance is positive whenever it advanced at all. */
  function TeethToNext(distance: real, separation: real): (n: nat)
    requires separation > 0.0
    ensures distance - Teeth(n, separation) <= separation
    ensures n > 0 ==> distance - Teeth(n, separation) > 0.0
    ensures n == 0 <==> distance <= separation
    decreases (distance / separation).Floor
  {
    if distance <= separation then 0
    else
      FloorShift(distance, separation);
      var m := TeethToNext(distance - separation, separation);
      TeethSucc(m, separation);
      m + 1
  }

  /** The tooth width on the normalized range, `Mathf.Max(0.001f, teethSeparation /
    * restLength)`: at least 0.001, and infinite only for a rope of zero rest length. */
  function ToothStep(teethSeparation: real, restLength: real): (r: Float)
    requires teethSeparation > 0.0
    ensures r.Finite? <==> restLength != 0.0
    ensures r.Finite? ==> r.r >= 0.001
    ensures !r.Finite? ==> r == PosInf
  {
    match Div(teethSeparation, restLength)
    case Finite(q) => Finite(Max(0.001, q))
    case other => other
  }

  /** The distance to the next tooth that `Update` measures along the rope: from the
    * position up to the range's end, or from the range's start up to the position. */
  function ToothDistance(direction: bool, range: Real2, position: real, restLength: real): real
  {
    if direction then (range.y - position) * restLength else (position - range.x) * restLength
  }

  datatype Ratcheted = Ratcheted(range: Real2, distanceToNextTooth: real)

  /** What `Update` computes: the range moved by whole teeth until the next tooth is
    * within one separation, and the distance left to it. */
  function Ratcheting(direction: bool, range: Real2, position: real, restLength: real, teethSeparation: real): Ratcheted
    requires teethSeparation > 0.0
  {
    var distance := ToothDistance(direction, range, position, restLength);
    var n := TeethToNext(distance, teethSeparation);
    var step := ToothStep(teethSeparation, restLength);
    var width := if step.Finite? then step.r else 0.0;
    Ratcheted(if direction then range.(y := range.y - Teeth(n, width)) else range.(x := range.x + Teeth(n, width)),
              distance - Teeth(n, teethSeparation))
  }

  /** With `direction` only the range's end moves, and only down; otherwise only its
    * start moves, and only up. The distance left is at most one separation, and when
    * the range moved it is still positive: the ratchet never overshoots the position. */
  lemma RatchetMovesOneEnd(direction: bool, range: Real2, position: real, restLength: real, teethSeparation: real)
    requires teethSeparation > 0.0
    ensures var r := Ratcheting(direction, range, position, restLength, teethSeparation);
      && (direction ==> r.range.x == range.x && r.range.y <= range.y)
      && (!direction ==> r.range.y == range.y && r.range.x >= range.x)
      && r.distanceToNextTooth <= teethSeparation
      && (r.range != range ==> r.distanceToNextTooth > 0.0)
  {
    var distance := ToothDistance(direction, range, position, restLength);
    var n := TeethToNext(distance, teethSeparation);
    var step := ToothStep(teethSeparation, restLength);
    if n > 0 {
      assert restLength != 0.0;
      TeethPositive(n, step.r);
    }
  }

  /** The tooth-advance loop of `Update` with `direction`, on its local copy of the
    * range: the end moves down one tooth per iteration while the next tooth is further
    * than one separation away. */
  method LowerEnd(range0: Real2, position: real, length: real, separation: real)
      returns (range: Real2, distance: real)
    requires separation > 0.0
    ensures Ratcheted(range, distance) == Ratcheting(true, range0, position, length, separation)
  {
    var step := ToothStep(separation, length);
    range := range0;
    ghost var width := if step.Finite? then step.r else 0.0;
    ghost var distance0 := ToothDistance(true, range0, position, length);
    ghost var k: nat := 0;
    distance := (range.y - position) * length;
    while distance > separation
      invariant k + TeethToNext(distance, separation) == TeethToNext(distance0, separation)
      invariant distance == distance0 - Teeth(k, separation)
      invariant range == range0.(y := range0.y - Teeth(k, width))
      invariant length == 0.0 ==> k == 0 && distance == 0.0
      decreases TeethToNext(distance, separation)
    {
      range := range.(y := range.y - step.r);
      distance := distance - separation;
      TeethSucc(k, separation);
      TeethSucc(k, width);
      k := k + 1;
    }
  }

  /** The loop without `direction`: the start moves up one tooth per iteration. */
  method RaiseStart(range0: Real2, position: real, length: real, separation: real)
      returns (range: Real2, distance: real)
    requires separation > 0.0
    ensures Ratcheted(range, distance) == Ratcheting(false, range0, position, length, separation)
  {
    var step := ToothStep(separation, length);
    range := range0;
    ghost var width := if step.Finite? then step.r else 0.0;
    ghost var distance0 := ToothDistance(false, range0, position, length);
    ghost var k: nat := 0;
    distance := (position - range.x) * length;
    while distance > separation
      invariant k + TeethToNext(distance, separation) == TeethToNext(distance0, separation)
      invariant distance == distance0 - Teeth(k, separation)
      invariant range == range0.(x := range0.x + Teeth(k, width))
      invariant length == 0.0 ==> k == 0 && distance == 0.0
      decreases TeethToNext(distance, separation)
    {
      range := range.(x := range.x + step.r);
      distance := distance - separation;
      TeethSucc(k, separation);
      TeethSucc(k, width);
      k := k + 1;
    }
  }

  /** The sample component's fields. `distanceToNextTooth` has a private setter. */
  class Ratchet {
    var pinhole: Option<Pinhole>
    var direction: bool
    var teethSeparation: real
    var distanceToNextTooth: real

    /** A fresh component with the serialized defaults. */
    constructor(pinhole: Option<Pinhole>)
      ensures this.pinhole == pinhole && !direction && teethSeparation == 0.1 && distanceToNextTooth == 0.0
    {
      this.pinhole := pinhole;
      direction := false;
      teethSeparation := 0.1;
      distanceToNextTooth := 0.0;
    }

    /** `Update`: `restLength` is the rest length of the pinhole's rope, `None` when it
      * has no rope. Without a pinhole or rope nothing changes; otherwise the pinhole's
      * range is set (through its setter) to the ratcheted one. */
    method Update(restLength: Option<real>)
      requires teethSeparation > 0.0
      modifies this, if pinhole.Some? then {pinhole.value} else {}
      ensures pinhole == old(pinhole) && direction == old(direction) && teethSeparation == old(teethSeparation)
      ensures pinhole.None? || restLength.None? ==> distanceToNextTooth == old(distanceToNextTooth)
      ensures pinhole.Some? && restLength.Some? ==>
        var r := Ratcheting(direction, old(pinhole.value.range), old(pinhole.value.position), restLength.value, teethSeparation);
        && distanceToNextTooth == r.distanceToNextTooth
        && pinhole.value.State() == RangeRecalculated(old(pinhole.value.State()).(range := r.range), pinhole.value.rope)
        && pinhole.value.rope == old(pinhole.value.rope)
    {
      if pinhole.None? || restLength.None? {
        return;
      }
      var p := pinhole.value;
      var range, distance;
      if direction {
        range, distance := LowerEnd(p.range, p.position, restLength.value, teethSeparation);
      } else {
        range, distance := RaiseStart(p.range, p.position, restLength.value, teethSeparation);
      }
      distanceToNextTooth := distance;
      p.SetRange(range);
    }

    /** `OnDisable`: the pinhole's range is reset to the whole rope. */
    method OnDisable()
      modifies if pinhole.Some? then {pinhole.value} else {}
      ensures pinhole.Some? ==>
        pinhole.value.State() == RangeRecalculated(old(pinhole.value.State()).(range := Real2(0.0, 1.0)), pinhole.value.rope)
    {
      if pinhole.Some? {
        pinhole.value.SetRange(Real2(0.0, 1.0));
      }
    }
  }
}
