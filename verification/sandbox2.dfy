/** `Sandbox2`: an eyelet on a rope. A particle splits one rope element in two; the
  * element ending at that particle is the lead-in and the next one the lead-out. Each
  * simulation step moves rest length from the less stretched side to the more
  * stretched one, and the eyelet moves to a neighbouring particle when one side has
  * (almost) no rest length left. */
module Sandbox2 {
  import opened Common
  import opened MathUtils
  import opened RopeUtils

  /** `GetActorIndex`: the first actor-local index below `activeParticleCount` whose
    * solver index is `solverIndex`, or -1 when there is none. */
  method GetActorIndex(solverIndices: seq<int>, activeParticleCount: int, solverIndex: int) returns (index: int)
    requires activeParticleCount <= |solverIndices|
    ensures index == -1 || 0 <= index < activeParticleCount
    ensures index >= 0 ==> solverIndices[index] == solverIndex
    ensures forall j :: 0 <= j < activeParticleCount && (index == -1 || j < index) ==> solverIndices[j] != solverIndex
  {
    var i := 0;
    while i < activeParticleCount
      invariant 0 <= i <= MaxInt(activeParticleCount, 0)
      invariant forall j :: 0 <= j < i ==> solverIndices[j] != solverIndex
    {
      if solverIndices[i] == solverIndex {
        return i;
      }
      i := i + 1;
    }
    return -1;
  }

  /** The `i`-th particle along a rope of joined elements: the start of element `i`, or
    * the end of the last element for `i == |e|`. */
  function ChainParticle(e: seq<Element>, i: int): int
    requires 0 < |e| && 0 <= i <= |e|
  {
    if i < |e| then e[i].particle1 else e[|e| - 1].particle2
  }

  /** Every element of `e` is joined to the next one. */
  predicate IsChain(e: seq<Element>)
  {
    forall j :: 0 <= j < |e| - 1 ==> e[j].particle2 == e[j + 1].particle1
  }

  /** `LocalRopeIndexToSolver` as written: -1 for an index below 0 or above the element
    * count; the start of element `i` for an even index, the end of element `i - 1` for
    * an odd one. An even index equal to the count reads past the end of the list. */
  function LocalRopeIndexToSolver(e: seq<Element>, localIndex: int): (r: Result<int>)
    ensures r.Err? <==> localIndex == |e| && localIndex % 2 == 0
    ensures r.Err? ==> r.error == IndexOutOfRange
    ensures localIndex < 0 || localIndex > |e| ==> r == Ok(-1)
    ensures r.Ok? && 0 <= localIndex ==> r == Ok(LocalRopeIndexToSolverSafe(e, localIndex))
  {
    if localIndex < 0 || localIndex > |e| then Ok(-1)
    else if localIndex % 2 == 0 then (if localIndex < |e| then Ok(e[localIndex].particle1) else Err(IndexOutOfRange))
    else Ok(e[localIndex - 1].particle2)
  }

  /** The guard admits index `|e|`, the rope's last particle, but an even one fails. */
  lemma LocalRopeIndexToSolverLastParticle()
    ensures LocalRopeIndexToSolver([Element(0, 1, 1.0), Element(1, 2, 1.0)], 2).Err?
  {
  }

  /** `LocalRopeIndexToSolver` with index `|e|` mapped to the end of the last element
    * whatever its parity (and -1 for a rope without elements). On a rope of joined
    * elements every index from 0 to `|e|` gives the particle at that place. */
  function LocalRopeIndexToSolverSafe(e: seq<Element>, localIndex: int): (r: int)
    ensures localIndex < 0 || localIndex > |e| || |e| == 0 ==> r == -1
    ensures IsChain(e) && 0 < |e| && 0 <= localIndex <= |e| ==> r == ChainParticle(e, localIndex)
  {
    if localIndex < 0 || localIndex > |e| || |e| == 0 then -1
    else if localIndex % 2 == 0 && localIndex < |e| then e[localIndex].particle1
    else e[localIndex - 1].particle2
  }

  /** The rest lengths of the lead-in and lead-out after a step that wants to move
    * `shift` from the lead-out to the lead-in (negative: the other way), as written:
    * the lead-out's clamp reads the lead-in length already updated. Both stay
    * non-negative and the lead-in is the intended one. */
  function TransferAsWritten(leadIn: real, leadOut: real, shift: real): (r: (real, real))
    ensures r.0 >= 0.0 && r.1 >= 0.0
    ensures r.0 == Transfer(leadIn, leadOut, shift).0
  {
    var newLeadIn := Max(0.0, leadIn + Min(shift, leadOut));
    (newLeadIn, Max(0.0, leadOut - Max(shift, -newLeadIn)))
  }

  /** For non-negative lengths the as-written step never adds rest length, and keeps
    * their sum exactly when the shift towards the lead-out is at most half the
    * lead-in, or the lead-in is empty. */
  lemma TransferAsWrittenConserves(leadIn: real, leadOut: real, shift: real)
    requires leadIn >= 0.0 && leadOut >= 0.0
    ensures var r := TransferAsWritten(leadIn, leadOut, shift);
      && r.0 + r.1 <= leadIn + leadOut
      && (r.0 + r.1 == leadIn + leadOut <==> 2.0 * shift >= -leadIn || leadIn == 0.0)
  {
  }

  lemma TransferAsWrittenLosesLength()
    ensures TransferAsWritten(1.0, 1.0, -0.75) == (0.25, 1.25)
  {
  }

  /** The step with the shift clamped by the old lengths: `shift` limited to the
    * interval from minus the lead-in to the lead-out. */
  function Transfer(leadIn: real, leadOut: real, shift: real): (r: (real, real))
    ensures r.0 >= 0.0 && r.1 >= 0.0
    ensures leadIn >= 0.0 && leadOut >= 0.0 ==> r.0 + r.1 == leadIn + leadOut
    ensures leadIn >= 0.0 && leadOut >= 0.0 && shift >= 0.0 ==> leadIn <= r.0 && r.1 <= leadOut
    ensures leadIn >= 0.0 && leadOut >= 0.0 && shift <= 0.0 ==> r.0 <= leadIn && leadOut <= r.1
  {
    (Max(0.0, leadIn + Min(shift, leadOut)), Max(0.0, leadOut - Max(shift, -leadIn)))
  }

  /** Where the lead-in moves after a step that left `leadIn` and `leadOut` rest
    * lengths: one element on when the lead-out is spent and another element follows
    * it, else one element back when the lead-in is spent and is not the first. */
  function NextLeadIn(index: int, count: int, leadIn: real, leadOut: real): (r: int)
    ensures r == index + 1 <==> leadOut < ScalarEpsilon && index < count - 2
    ensures r == index - 1 <==> !(leadOut < ScalarEpsilon && index < count - 2) && leadIn < ScalarEpsilon && index > 0
    ensures index - 1 <= r <= index + 1
  {
    if leadOut < ScalarEpsilon && index < count - 2 then index + 1
    else if leadIn < ScalarEpsilon && index > 0 then index - 1
    else index
  }

  /** How much an element is stretched: its particles' distance less its rest length;
    * `distance(p, q)` is the distance between the particles' solver positions. */
  function Stretch(element: Element, distance: (int, int) -> real): real
  {
    distance(element.particle1, element.particle2) - element.restLength
  }

  /** The shift the lead-in asks for: how much more it is stretched than the lead-out,
    * scaled by the speediness. */
  function Shift(leadIn: Element, leadOut: Element, speediness: real, distance: (int, int) -> real): real
  {
    (Stretch(leadIn, distance) - Stretch(leadOut, distance)) * speediness
  }

  /** The elements after one eyelet step at lead-in `i`, as the component performs it:
    * the lead-out's clamp reads the lead-in element it has just updated. */
  function Constrained(e: seq<Element>, i: int, speediness: real, distance: (int, int) -> real): (r: seq<Element>)
    requires 0 <= i < |e| - 1
    ensures |r| == |e|
  {
    var lengths := TransferAsWritten(e[i].restLength, e[i + 1].restLength, Shift(e[i], e[i + 1], speediness, distance));
    e[i := e[i].(restLength := lengths.0)][i + 1 := e[i + 1].(restLength := lengths.1)]
  }

  /** The sum of the rest lengths, with element `i` replaced. */
  lemma {:induction false} RestSumUpdate(e: seq<Element>, i: int, x: Element)
    requires 0 <= i < |e|
    ensures RestSum(e[i := x]) == RestSum(e) - e[i].restLength + x.restLength
  {
    var n := |e| - 1;
    if i < n {
      assert e[i := x][..n] == e[..n][i := x];
      RestSumUpdate(e[..n], i, x);
    } else {
      assert e[i := x][..n] == e[..n];
    }
  }

  lemma {:induction false} RestSumAppend(a: seq<Element>, b: seq<Element>)
    ensures RestSum(a + b) == RestSum(a) + RestSum(b)
  {
    if b != [] {
      var n := |b| - 1;
      assert (a + b)[..|a + b| - 1] == a + b[..n];
      RestSumAppend(a, b[..n]);
    } else {
      assert a + b == a;
    }
  }

  /** An eyelet step slides rest length between the lead-in and the lead-out: every
    * other element is unchanged and, when both had non-negative rest lengths, the
    * rope's total rest length never grows, and stays the same exactly when the shift
    * towards the lead-out is at most half the lead-in (or the lead-in is empty). */
  lemma ConstrainedKeepsRestLength(e: seq<Element>, i: int, speediness: real, distance: (int, int) -> real)
    requires 0 <= i < |e| - 1
    ensures var r := Constrained(e, i, speediness, distance);
      && (forall j :: 0 <= j < |e| && j != i && j != i + 1 ==> r[j] == e[j])
      && (forall j :: 0 <= j < |e| ==> r[j].particle1 == e[j].particle1 && r[j].particle2 == e[j].particle2)
      && (e[i].restLength >= 0.0 && e[i + 1].restLength >= 0.0 ==>
            && RestSum(r) <= RestSum(e)
            && (RestSum(r) == RestSum(e) <==>
                  2.0 * Shift(e[i], e[i + 1], speediness, distance) >= -e[i].restLength || e[i].restLength == 0.0))
  {
    var shift := Shift(e[i], e[i + 1], speediness, distance);
    var lengths := TransferAsWritten(e[i].restLength, e[i + 1].restLength, shift);
    var first := e[i := e[i].(restLength := lengths.0)];
    RestSumUpdate(e, i, e[i].(restLength := lengths.0));
    RestSumUpdate(first, i + 1, e[i + 1].(restLength := lengths.1));
    if e[i].restLength >= 0.0 && e[i + 1].restLength >= 0.0 {
      TransferAsWrittenConserves(e[i].restLength, e[i + 1].restLength, shift);
    }
  }

  /** The new element of `CreateEyeletElement` as written: element `start` is split at
    * `newParticle`, the first half taking half the rest length of element 0. */
  function EyeletSplitAsWritten(e: seq<Element>, start: int, newParticle: int): (r: seq<Element>)
    requires 0 <= start < |e|
    ensures |r| == |e| + 1
    ensures r[start + 1].restLength == e[start].restLength * 0.5
    ensures r[start].restLength == e[0].restLength * 0.5
  {
    Split(e, start, newParticle, e[0].restLength * 0.5, e[start].restLength * 0.5)
  }

  /** Splitting the second element of a rope whose elements differ in rest length
    * changes the rope's total rest length. */
  lemma EyeletSplitAsWrittenChangesLength()
    ensures var e := [Element(0, 1, 1.0), Element(1, 2, 3.0)];
      RestSum(EyeletSplitAsWritten(e, 1, 7)) == 3.0 && RestSum(e) == 4.0
  {
    var e := [Element(0, 1, 1.0), Element(1, 2, 3.0)];
    var r := EyeletSplitAsWritten(e, 1, 7);
    assert r == [Element(0, 1, 1.0), Element(1, 7, 0.5), Element(7, 2, 1.5)];
    assert r[..2][..1] == [r[0]] && e[..1] == [e[0]];
    assert [r[0]][..0] == [] && [e[0]][..0] == [];
    assert RestSum([r[0]]) == 1.0 && RestSum([e[0]]) == 1.0;
    assert RestSum(r[..2]) == 1.5;
  }

  /** The as-written split differs from the even one only in the new element's rest length. */
  lemma EyeletSplitAsWrittenIsUpdate(e: seq<Element>, start: int, newParticle: int)
    requires 0 <= start < |e|
    ensures EyeletSplitAsWritten(e, start, newParticle)
         == EyeletSplit(e, start, newParticle)[start := Element(e[start].particle1, newParticle, e[0].restLength * 0.5)]
  {
    var r := EyeletSplitAsWritten(e, start, newParticle);
    var u := EyeletSplit(e, start, newParticle)[start := Element(e[start].particle1, newParticle, e[0].restLength * 0.5)];
    assert |r| == |u|;
    forall j | 0 <= j < |r|
      ensures r[j] == u[j]
    {
    }
  }

  /** The as-written split changes the rope's total rest length by half the difference
    * between element 0 and the split element: it is kept exactly when they are equal,
    * as when the split element is element 0. */
  lemma EyeletSplitAsWrittenRestSum(e: seq<Element>, start: int, newParticle: int)
    requires 0 <= start < |e|
    ensures var r := EyeletSplitAsWritten(e, start, newParticle);
      && RestSum(r) == RestSum(e) + (e[0].restLength - e[start].restLength) * 0.5
      && (RestSum(r) == RestSum(e) <==> e[0].restLength == e[start].restLength)
      && r[start].particle2 == newParticle == r[start + 1].particle1
  {
    var even := EyeletSplit(e, start, newParticle);
    EyeletSplitAsWrittenIsUpdate(e, start, newParticle);
    EyeletSplitKeepsRestLength(e, start, newParticle);
    RestSumUpdate(even, start, Element(e[start].particle1, newParticle, e[0].restLength * 0.5));
  }

  /** `CreateEyeletElement`'s split with both halves taking half the split element's
    * rest length. */
  function EyeletSplit(e: seq<Element>, start: int, newParticle: int): (r: seq<Element>)
    requires 0 <= start < |e|
    ensures |r| == |e| + 1
    ensures r[start].restLength + r[start + 1].restLength == e[start].restLength
  {
    Split(e, start, newParticle, e[start].restLength * 0.5, e[start].restLength * 0.5)
  }

  /** The split keeps the rope's total rest length, and puts the eyelet particle where
    * the new element ends and the split element now starts. */
  lemma EyeletSplitKeepsRestLength(e: seq<Element>, start: int, newParticle: int)
    requires 0 <= start < |e|
    ensures var r := EyeletSplit(e, start, newParticle);
      && RestSum(r) == RestSum(e)
      && |r| == |e| + 1
      && r[start].particle2 == newParticle == r[start + 1].particle1
  {
    var r := EyeletSplit(e, start, newParticle);
    var half := e[start].restLength * 0.5;
    var mid := [Element(e[start].particle1, newParticle, half), Element(newParticle, e[start].particle2, half)];
    assert r == e[..start] + mid + e[start + 1..];
    assert e == e[..start] + [e[start]] + e[start + 1..];
    RestSumAppend(e[..start] + mid, e[start + 1..]);
    RestSumAppend(e[..start], mid);
    RestSumAppend(e[..start] + [e[start]], e[start + 1..]);
    RestSumAppend(e[..start], [e[start]]);
    assert mid[..1] == [mid[0]] && [mid[0]][..0] == [] && [e[start]][..0] == [];
  }

  /** Who hands its properties to whom when the eyelet moves: on the first move the new
    * eyelet particle only has its velocities cleared; afterwards the old eyelet particle
    * takes the properties of `source`, the neighbour on the side the eyelet moves
    * away from, and the new eyelet particle those of the old one. */
  datatype Handover = Fresh(eyelet: int) | Moved(eyelet: int, oldEyelet: int, source: int)

  /** The component's fields that the eyelet logic updates, and the rope it acts on. */
  class Sandbox {
    var rope: Rope
    var startElement: int
    var speediness: real
    var leadInElementIndex: int
    var leadInElementStretch: real
    var leadOutElementStretch: real

    /** There is no eyelet yet, or the lead-in has a lead-out after it. */
    predicate Valid()
      reads this, rope
    {
      leadInElementIndex == -1 || 0 <= leadInElementIndex < |rope.elements| - 1
    }

    /** A fresh component with the serialized defaults. */
    constructor(rope: Rope)
      ensures this.rope == rope && startElement == -1 && speediness == 1.0
      ensures leadInElementIndex == -1 && leadInElementStretch == 0.0 && leadOutElementStretch == 0.0
      ensures Valid()
    {
      this.rope := rope;
      startElement := -1;
      speediness := 1.0;
      leadInElementIndex := -1;
      leadInElementStretch, leadOutElementStretch := 0.0, 0.0;
    }

    /** `SetLeadInElement`: element `element` becomes the lead-in; its end particle is the
      * new eyelet. The particle snapshots and the stitch are left to the solver. */
    method SetLeadInElement(element: int) returns (handover: Handover)
      requires Valid() && 0 <= element < |rope.elements|
      modifies this
      ensures leadInElementIndex == element
      ensures rope == old(rope) && startElement == old(startElement) && speediness == old(speediness)
      ensures leadInElementStretch == old(leadInElementStretch) && leadOutElementStretch == old(leadOutElementStretch)
      ensures handover.eyelet == rope.elements[element].particle2
      ensures handover.Fresh? <==> old(leadInElementIndex) == -1
      ensures handover.Moved? ==> var i := old(leadInElementIndex);
        && handover.oldEyelet == rope.elements[i].particle2
        && handover.source == (if element > i then rope.elements[i].particle1 else rope.elements[i + 1].particle2)
    {
      var e := rope.elements;
      var newEyeletParticle := e[element].particle2;
      if leadInElementIndex != -1 {
        var sourceParticle := if element > leadInElementIndex then e[leadInElementIndex].particle1
                              else e[leadInElementIndex + 1].particle2;
        handover := Moved(newEyeletParticle, e[leadInElementIndex].particle2, sourceParticle);
      } else {
        handover := Fresh(newEyeletParticle);
      }
      leadInElementIndex := element;
    }

    /** `UpdateEyeletConstraint`: nothing without an eyelet; otherwise the stretches are
      * measured, rest length moves between the lead-in and lead-out as the component's
      * own step does (`Constrained`, through `TransferAsWritten`),
      * and the lead-in moves by at most one element as `NextLeadIn` says. */
    method UpdateEyeletConstraint(distance: (int, int) -> real)
      requires Valid()
      modifies this, rope
      ensures Valid() && rope == old(rope) && startElement == old(startElement) && speediness == old(speediness)
      ensures old(leadInElementIndex) == -1 ==>
        && rope.elements == old(rope.elements) && leadInElementIndex == -1
        && leadInElementStretch == old(leadInElementStretch) && leadOutElementStretch == old(leadOutElementStretch)
      ensures old(leadInElementIndex) != -1 ==>
        var e, i := old(rope.elements), old(leadInElementIndex);
        && rope.elements == Constrained(e, i, speediness, distance)
        && leadInElementStretch == Stretch(e[i], distance)
        && leadOutElementStretch == Stretch(e[i + 1], distance)
        && leadInElementIndex == NextLeadIn(i, |e|, rope.elements[i].restLength, rope.elements[i + 1].restLength)
    {
      if leadInElementIndex == -1 {
        return;
      }
      var i := leadInElementIndex;
      ghost var e := rope.elements;
      var leadInElement := rope.elements[i];
      var leadOutElement := rope.elements[i + 1];
      leadInElementStretch := Stretch(leadInElement, distance);
      leadOutElementStretch := Stretch(leadOutElement, distance);
      var lengths := TransferAsWritten(leadInElement.restLength, leadOutElement.restLength,
                                       Shift(leadInElement, leadOutElement, speediness, distance));
      leadInElement := leadInElement.(restLength := lengths.0);
      leadOutElement := leadOutElement.(restLength := lengths.1);
      rope.elements := rope.elements[i := leadInElement][i + 1 := leadOutElement];
      assert rope.elements == Constrained(e, i, speediness, distance);
      if leadOutElement.restLength < ScalarEpsilon && i < |rope.elements| - 2 {
        var _ := SetLeadInElement(i + 1);
      } else if leadInElement.restLength < ScalarEpsilon && i > 0 {
        var _ := SetLeadInElement(i - 1);
      }
    }

    /** `CreateEyeletElement`: nothing when `startElement` is -1 or has no element after
      * it; an error for any other negative index; otherwise the start element is split
      * at `newParticle` (the particle the rope activates for the eyelet), its first half
      * taking half of element 0's rest length as the component writes it, and that
      * half becomes the lead-in. */
    method CreateEyeletElement(newParticle: int) returns (thrown: Option<Error>)
      requires Valid()
      modifies this, rope
      ensures Valid() && rope == old(rope) && startElement == old(startElement) && speediness == old(speediness)
      ensures leadInElementStretch == old(leadInElementStretch) && leadOutElementStretch == old(leadOutElementStretch)
      ensures thrown.Some? <==> startElement < -1
      ensures thrown.Some? ==> thrown == Some(IndexOutOfRange)
      ensures startElement < 0 || startElement >= |old(rope.elements)| - 1 ==>
        rope.elements == old(rope.elements) && leadInElementIndex == old(leadInElementIndex)
      ensures 0 <= startElement < |old(rope.elements)| - 1 ==>
        rope.elements == EyeletSplitAsWritten(old(rope.elements), startElement, newParticle) && leadInElementIndex == startElement
    {
      if startElement == -1 || startElement >= |rope.elements| - 1 {
        return None;
      }
      if startElement < 0 {
        return Some(IndexOutOfRange);
      }
      var start := rope.elements[startElement];
      var element := Element(start.particle1, newParticle, rope.elements[0].restLength * 0.5);
      start := start.(particle1 := element.particle2, restLength := start.restLength * 0.5);
      rope.elements := rope.elements[..startElement] + [element, start] + rope.elements[startElement + 1..];
      var _ := SetLeadInElement(startElement);
      return None;
    }
  }
}
