/** `RopeUtils`: queries and edits over a rope's ordered list of structural elements.
  * Each element joins two particles and has a rest length; consecutive elements form
  * one segment while the first one's second particle is the next one's first
  * particle, and a segment ends at an element where that fails or at the last
  * element. The queries look only at the first segment. */
module RopeUtils {
  import opened Common

  /** `ObiStructuralElement`. */
  datatype Element = Element(particle1: int, particle2: int, restLength: real)

  /** Elements `i` and `i + 1` are joined: the first ends where the second starts. */
  predicate Joined(e: seq<Element>, i: int)
    requires 0 <= i < |e| - 1
  {
    e[i].particle2 == e[i + 1].particle1
  }

  /** Element `i` ends its segment: it is the last element or not joined to the next. */
  predicate IsSegmentEnd(e: seq<Element>, i: int)
    requires 0 <= i < |e|
  {
    i == |e| - 1 || !Joined(e, i)
  }

  /** The first segment end at or after `i`. */
  function SegmentEndFrom(e: seq<Element>, i: int): (r: int)
    requires 0 <= i < |e|
    ensures i <= r < |e| && IsSegmentEnd(e, r)
    ensures forall j :: i <= j < r ==> !IsSegmentEnd(e, j)
    decreases |e| - i
  {
    if IsSegmentEnd(e, i) then i else SegmentEndFrom(e, i + 1)
  }

  /** The index of the first segment's last element, or -1 for no elements. */
  function LastElement(e: seq<Element>): (r: int)
    ensures -1 <= r < |e| && (r == -1 <==> |e| == 0)
    ensures |e| > 0 ==> IsSegmentEnd(e, r) && forall j :: 0 <= j < r ==> !IsSegmentEnd(e, j)
  {
    if |e| == 0 then -1 else SegmentEndFrom(e, 0)
  }

  /** The sum of the rest lengths of `e`. */
  function RestSum(e: seq<Element>): real
  {
    if e == [] then 0.0 else RestSum(e[..|e| - 1]) + e[|e| - 1].restLength
  }

  /** The first index below `n` of an element ending at `particle`, or -1. */
  function FirstEndingAt(e: seq<Element>, particle: int, n: int): (k: int)
    requires 0 <= n <= |e|
    ensures -1 <= k < n
    ensures k >= 0 ==> e[k].particle2 == particle
    ensures forall j :: 0 <= j < n && (k == -1 || j < k) ==> e[j].particle2 != particle
  {
    if n == 0 then -1
    else if FirstEndingAt(e, particle, n - 1) >= 0 then FirstEndingAt(e, particle, n - 1)
    else if e[n - 1].particle2 == particle then n - 1
    else -1
  }

  /** The rest length from the start of the rope to `particle`: 0 when the rope starts
    * there, the rest length up to the first first-segment element ending there, and 0
    * when no first-segment element does. */
  function RestLengthAtParticle(e: seq<Element>, particle: int): real
    requires |e| > 0
  {
    var k := FirstEndingAt(e, particle, LastElement(e) + 1);
    if e[0].particle1 == particle || k == -1 then 0.0 else RestSum(e[..k + 1])
  }

  /** `e` with element `t` split in two at `newParticle`: `t` now ends at the new
    * particle and a new element from there to the old end follows it, with rest
    * lengths `firstRest` and `secondRest`. */
  function Split(e: seq<Element>, t: int, newParticle: int, firstRest: real, secondRest: real): seq<Element>
    requires 0 <= t < |e|
  {
    e[..t] + [Element(e[t].particle1, newParticle, firstRest), Element(newParticle, e[t].particle2, secondRest)] + e[t + 1..]
  }

  /** Splitting an element adds one element, keeps the others in order, joins the two
    * halves, and keeps every join and every break of the list where it was; the first
    * segment grows by one exactly when the split element is in it. */
  lemma SplitKeepsChain(e: seq<Element>, t: int, newParticle: int, firstRest: real, secondRest: real)
    requires 0 <= t < |e|
    ensures var r := Split(e, t, newParticle, firstRest, secondRest);
      && |r| == |e| + 1
      && r[t].particle1 == e[t].particle1 && r[t].particle2 == newParticle
      && r[t + 1].particle1 == newParticle && r[t + 1].particle2 == e[t].particle2
      && Joined(r, t)
      && (forall j :: 0 <= j < t ==> r[j] == e[j])
      && (forall j :: t < j < |e| ==> r[j + 1] == e[j])
      && (forall j :: 0 <= j < |e| - 1 ==> (Joined(e, j) <==> Joined(r, if j < t then j else j + 1)))
      && LastElement(r) == (if LastElement(e) < t then LastElement(e) else LastElement(e) + 1)
  {
    var r := Split(e, t, newParticle, firstRest, secondRest);
    var last := LastElement(e);
    if last < t {
      assert r[last + 1].particle1 == e[last + 1].particle1;
      forall j | 0 <= j < last
        ensures !IsSegmentEnd(r, j)
      {
        assert !IsSegmentEnd(e, j);
      }
      FirstSegmentEnd(r, last);
    } else {
      assert IsSegmentEnd(r, last + 1);
      forall j | 0 <= j < last + 1
        ensures !IsSegmentEnd(r, j)
      {
        if j < t {
          assert !IsSegmentEnd(e, j);
        } else if j > t {
          assert !IsSegmentEnd(e, j - 1);
        }
      }
      FirstSegmentEnd(r, last + 1);
    }
  }

  /** A rope's elements; the particle and solver machinery around them is not part of
    * this model. */
  /** The second particle of every element, in order. */
  function SecondParticles(es: seq<Element>): (r: seq<int>)
    ensures |r| == |es|
    ensures forall k :: 0 <= k < |es| ==> r[k] == es[k].particle2
  {
    if es == [] then [] else SecondParticles(es[..|es| - 1]) + [es[|es| - 1].particle2]
  }

  class Rope {
    var elements: seq<Element>

    constructor(elements: seq<Element>)
      ensures this.elements == elements
    {
      this.elements := elements;
    }

    /** `GetLastElement`: the first segment's last element, or -1 with no elements. */
    method GetLastElement() returns (r: int)
      ensures r == LastElement(elements)
    {
      for i := 0 to |elements|
        invariant forall j :: 0 <= j < i ==> !IsSegmentEnd(elements, j)
      {
        if i == |elements| - 1 || elements[i].particle2 != elements[i + 1].particle1 {
          FirstSegmentEnd(elements, i);
          return i;
        }
      }
      return -1;
    }

    /** `GetParticlesFromEnd`: how many first-segment elements follow the first one
      * that ends at `targetParticle`, or -1 when no first-segment element does. */
    method GetParticlesFromEnd(targetParticle: int) returns (particlesFromEnd: int)
      ensures var last := LastElement(elements);
        var k := FirstEndingAt(elements, targetParticle, last + 1);
        particlesFromEnd == (if k == -1 then -1 else last - k)
    {
      var e := elements;
      particlesFromEnd := -1;
      var i := 0;
      while i < |e|
        invariant 0 <= i <= |e|
        invariant forall j :: 0 <= j < i ==> !IsSegmentEnd(e, j) || j == |e| - 1
        invariant var k := FirstEndingAt(e, targetParticle, i);
          particlesFromEnd == (if k == -1 then -1 else i - 1 - k)
      {
        if particlesFromEnd != -1 {
          particlesFromEnd := particlesFromEnd + 1;
        } else if e[i].particle2 == targetParticle {
          particlesFromEnd := 0;
        }
        ghost var k := FirstEndingAt(e, targetParticle, i + 1);
        assert particlesFromEnd == (if k == -1 then -1 else i - k);
        if i < |e| - 1 && e[i].particle2 != e[i + 1].particle1 {
          FirstSegmentEnd(e, i);
          return;
        }
        i := i + 1;
      }
      if |e| > 0 {
        FirstSegmentEnd(e, |e| - 1);
      }
    }

    /** `GetRestLengthAtElement`: the rest length up to and including `element`, or
      * of the whole rope when `element` is not an index of it. */
    method GetRestLengthAtElement(element: int) returns (restLength: real)
      ensures 0 <= element < |elements| ==> restLength == RestSum(elements[..element + 1])
      ensures !(0 <= element < |elements|) ==> restLength == RestSum(elements)
    {
      restLength := 0.0;
      for i := 0 to |elements|
        invariant restLength == RestSum(elements[..i])
        invariant !(0 <= element < i)
      {
        assert elements[..i + 1][..i] == elements[..i];
        restLength := restLength + elements[i].restLength;
        if i == element {
          return;
        }
      }
      assert elements[..|elements|] == elements;
    }

    /** `GetRestLengthOfFirstSegment`: 0 with no elements, otherwise the rest length
      * of the first segment. */
    method GetRestLengthOfFirstSegment() returns (restLength: real)
      ensures |elements| == 0 ==> restLength == 0.0
      ensures |elements| > 0 ==> restLength == RestSum(elements[..LastElement(elements) + 1])
    {
      if |elements| == 0 {
        return 0.0;
      }
      restLength := 0.0;
      for i := 0 to |elements|
        invariant restLength == RestSum(elements[..i])
        invariant forall j :: 0 <= j < i ==> !IsSegmentEnd(elements, j)
      {
        assert elements[..i + 1][..i] == elements[..i];
        restLength := restLength + elements[i].restLength;
        if i == |elements| - 1 || elements[i].particle2 != elements[i + 1].particle1 {
          FirstSegmentEnd(elements, i);
          return;
        }
      }
    }

    /** `GetRestLengthAtParticle`: 0 when the rope starts at `particle`; otherwise the
      * rest length up to the first first-segment element ending at it; 0 when there
      * is none. The source reads the first element unconditionally. */
    method GetRestLengthAtParticle(particle: int) returns (length: real)
      requires |elements| > 0
      ensures length == RestLengthAtParticle(elements, particle)
    {
      var e := elements;
      length := 0.0;
      if e[0].particle1 == particle {
        return;
      }
      for i := 0 to |e|
        invariant length == RestSum(e[..i])
        invariant forall j :: 0 <= j < i ==> !IsSegmentEnd(e, j) || j == |e| - 1
        invariant FirstEndingAt(e, particle, i) == -1
      {
        assert e[..i + 1][..i] == e[..i];
        length := length + e[i].restLength;
        if e[i].particle2 == particle {
          assert FirstEndingAt(e, particle, i + 1) == i;
          FirstEndingAtExtends(e, particle, i + 1, LastElement(e) + 1);
          return;
        }
        if i != |e| - 1 && e[i].particle2 != e[i + 1].particle1 {
          FirstSegmentEnd(e, i);
          return 0.0;
        }
      }
      FirstSegmentEnd(e, |e| - 1);
      return 0.0;
    }

    /** `InsertElementBefore`: element `t` is split at `newParticle`, a particle added
      * at the new end position. The first half takes `restLength` when it is not
      * negative and otherwise the distance from its start to the new position; the
      * second half takes the distance from its end to the new position.
      * `distanceToNew(p)` is the distance from particle `p` to the new position. */
    method InsertElementBefore(t: int, newParticle: int, distanceToNew: int -> real, restLength: real)
      requires 0 <= t < |elements|
      modifies this
      ensures var o := old(elements)[t];
        elements == Split(old(elements), t, newParticle,
                          if restLength >= 0.0 then restLength else distanceToNew(o.particle1),
                          distanceToNew(o.particle2))
    {
      var target := elements[t];
      var originalStart := target.particle1;
      target := target.(particle1 := newParticle, restLength := distanceToNew(target.particle2));
      var newElement := Element(originalStart, newParticle,
                                if restLength >= 0.0 then restLength else distanceToNew(originalStart));
      elements := elements[..t] + [newElement, target] + elements[t + 1..];
    }

    /** `InsertElementAfter`: element `t` is split at `newParticle`, a particle added at
      * the new end position; each half takes the distance from its far end to the new
      * position. */
    method InsertElementAfter(t: int, newParticle: int, distanceToNew: int -> real)
      requires 0 <= t < |elements|
      modifies this
      ensures var o := old(elements)[t];
        elements == Split(old(elements), t, newParticle, distanceToNew(o.particle1), distanceToNew(o.particle2))
    {
      var target := elements[t];
      var originalEnd := target.particle2;
      target := target.(particle2 := newParticle, restLength := distanceToNew(target.particle1));
      var newElement := Element(newParticle, originalEnd, distanceToNew(originalEnd));
      elements := elements[..t] + [target, newElement] + elements[t + 1..];
    }

    /** `RemoveElementsAfter`: when element `t` ends its segment nothing changes and 0 is
      * returned; otherwise the rest of that segment, elements `t + 1` through its last
      * element, is removed and its size returned. A negative `t` is an error in the
      * source unless the list is empty. `deactivated` lists, in removal order, the
      * solver particle each removed element ends at, which the source deactivates. */
    method RemoveElementsAfter(t: int) returns (removed: int, deactivated: seq<int>)
      requires 0 <= t || |elements| - 1 <= t
      modifies this
      ensures t >= |old(elements)| - 1 || !Joined(old(elements), t) ==>
        removed == 0 && deactivated == [] && elements == old(elements)
      ensures t < |old(elements)| - 1 && Joined(old(elements), t) ==>
        var last := SegmentEndFrom(old(elements), t + 1);
        && removed == last - t && elements == old(elements)[..t + 1] + old(elements)[last + 1..]
        && deactivated == SecondParticles(old(elements)[t + 1..last + 1])
    {
      removed, deactivated := 0, [];
      if t >= |elements| - 1 || elements[t].particle2 != elements[t + 1].particle1 {
        return;
      }
      ghost var e := elements;
      ghost var last := SegmentEndFrom(e, t + 1);
      var current := t + 1;
      while true
        invariant 0 <= removed && t + 1 + removed <= last
        invariant elements == e[..t + 1] + e[t + 1 + removed..]
        invariant deactivated == SecondParticles(e[t + 1..t + 1 + removed])
        decreases |elements|
      {
        assert t + 1 + removed < |e|;
        assert elements[current] == e[t + 1 + removed];
        var lastElement := current >= |elements| - 1 || elements[current].particle2 != elements[current + 1].particle1;
        assert lastElement <==> IsSegmentEnd(e, t + 1 + removed);
        assert e[t + 1..t + 2 + removed] == e[t + 1..t + 1 + removed] + [e[t + 1 + removed]];
        removed := removed + 1;
        deactivated := deactivated + [elements[current].particle2];
        elements := elements[..current] + elements[current + 1..];
        if lastElement {
          return;
        }
      }
    }

    /** `DoesSegmentHaveElementCount`: whether the first segment has at least
      * `elementCount` elements; false with no elements. `startingElement` is not
      * used by the source. */
    method DoesSegmentHaveElementCount(startingElement: int, elementCount: int) returns (r: bool)
      ensures r <==> |elements| > 0 && elementCount <= LastElement(elements) + 1
    {
      for i := 0 to |elements|
        invariant forall j :: 0 <= j < i ==> !IsSegmentEnd(elements, j)
        invariant i > 0 ==> i < elementCount
      {
        if i + 1 >= elementCount {
          return true;
        }
        if i == |elements| - 1 || elements[i].particle2 != elements[i + 1].particle1 {
          FirstSegmentEnd(elements, i);
          return false;
        }
      }
      return false;
    }
  }

  /** A segment end with no segment end before it is the first segment's end. */
  lemma FirstSegmentEnd(e: seq<Element>, i: int)
    requires 0 <= i < |e| && IsSegmentEnd(e, i)
    requires forall j :: 0 <= j < i ==> !IsSegmentEnd(e, j)
    ensures LastElement(e) == i
  {
  }

  /** A first match below `n` stays the first match below any larger bound. */
  lemma {:induction false} FirstEndingAtExtends(e: seq<Element>, particle: int, n: int, m: int)
    requires 0 <= n <= m <= |e|
    requires FirstEndingAt(e, particle, n) >= 0
    ensures FirstEndingAt(e, particle, m) == FirstEndingAt(e, particle, n)
    decreases m - n
  {
    if n < m {
      FirstEndingAtExtends(e, particle, n, m - 1);
    }
  }
}
