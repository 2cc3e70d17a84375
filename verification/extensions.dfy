/** `Extensions`: small helpers on lists, arrays and vectors. A null collection is
  * `None`; a thrown exception is an `Err` result. */
module Extensions {
  import opened Common

  /** `FastRemoveAt` on the list's contents: an index outside the list is an error;
    * otherwise the last element is moved into the index and the last slot dropped. */
  function FastRemoved<T>(s: seq<T>, index: int): (r: Result<seq<T>>)
    ensures r.Err? <==> index < 0 || index > |s| - 1
    ensures r.Ok? ==> |r.value| == |s| - 1
    ensures r.Ok? && index < |s| - 1 ==> r.value[index] == s[|s| - 1]
    ensures r.Ok? ==> forall j :: 0 <= j < |r.value| && j != index ==> r.value[j] == s[j]
  {
    var lastIndex := |s| - 1;
    if index < 0 || index > lastIndex then Err(IndexOutOfRange)
    else if index < lastIndex then Ok(s[index := s[lastIndex]][..lastIndex])
    else Ok(s[..lastIndex])
  }

  /** Removing swaps order but loses exactly one occurrence of the removed element. */
  lemma FastRemovedLosesOne<T>(s: seq<T>, index: int)
    requires 0 <= index < |s|
    ensures FastRemoved(s, index).Ok?
    ensures multiset(FastRemoved(s, index).value) == multiset(s) - multiset{s[index]}
  {
    var last := |s| - 1;
    assert s == s[..last] + [s[last]];
    if index < last {
      var r := FastRemoved(s, index).value;
      assert s[..last] == s[..index] + [s[index]] + s[index + 1..last];
      assert r == s[..index] + [s[last]] + s[index + 1..last];
    }
  }

  /** A list object whose contents the helpers change in place. */
  class MutableList<T> {
    var items: seq<T>

    constructor(items: seq<T>)
      ensures this.items == items
    {
      this.items := items;
    }

    /** `FastRemoveAt`: O(1) removal that does not keep the order; `thrown` is the
      * exception raised for an index outside the list. */
    method FastRemoveAt(index: int) returns (thrown: Option<Error>)
      modifies this
      ensures thrown.Some? <==> FastRemoved(old(items), index).Err?
      ensures thrown.Some? ==> thrown == Some(IndexOutOfRange) && items == old(items)
      ensures thrown.None? ==> items == FastRemoved(old(items), index).value
    {
      var lastIndex := |items| - 1;
      if index < 0 || index > lastIndex {
        return Some(IndexOutOfRange);
      }
      if index < lastIndex {
        items := items[index := items[lastIndex]];
      }
      items := items[..lastIndex];
      return None;
    }
  }

  /** `IsNullOrEmpty`. */
  function IsNullOrEmpty<T>(collection: Option<seq<T>>): (r: bool)
    ensures r <==> collection == None || collection == Some([])
  {
    collection.None? || |collection.value| < 1
  }

  /** `RandomElement`: an error on a null or empty array; otherwise the element at the
    * index `randomRange(n)` that Unity's `Random.Range(0, n)` draws, which lies in
    * `[0, n)` for `n > 0`. */
  function RandomElement<T>(items: Option<seq<T>>, randomRange: int -> int): (r: Result<T>)
    requires forall n :: n > 0 ==> 0 <= randomRange(n) < n
    ensures r.Err? <==> IsNullOrEmpty(items)
    ensures r.Err? ==> r.error == NullOrEmpty
    ensures r.Ok? ==> r.value in items.value
  {
    if items.None? || |items.value| == 0 then Err(NullOrEmpty)
    else Ok(items.value[randomRange(|items.value|)])
  }

  /** `Range`: the width of the interval `[v.x, v.y]`. */
  function Range(v: Real2): (r: real)
    ensures v.x + r == v.y
  {
    v.y - v.x
  }

  /** `NormalizeValue01` as written: `Mathf.Clamp01((value - x) / Range)` on floats. On
    * a degenerate range the division is by zero; at `value == x` it is 0/0, a NaN that
    * `Mathf.Clamp01` returns unchanged. */
  function NormalizeValue01(range: Real2, value: real): (r: Float)
    ensures r != NaN ==> r.Finite? && 0.0 <= r.r <= 1.0
    ensures r == NaN <==> range.x == range.y && value == range.x
  {
    Clamp01Float(Div(value - range.x, Range(range)))
  }

  /** The as-written function leaves the unit interval on a degenerate range. */
  lemma NormalizeValue01DegenerateRange()
    ensures NormalizeValue01(Real2(1.0, 1.0), 1.0) == NaN
  {
  }

  /** `NormalizeValue01` with the degenerate range handled: a value at or below the
    * collapsed range maps to 0, one above it to 1, as the as-written function does
    * everywhere except at the NaN. */
  function NormalizeValue01Safe(range: Real2, value: real): (r: real)
    ensures 0.0 <= r <= 1.0
    ensures NormalizeValue01(range, value) != NaN ==> NormalizeValue01(range, value) == Finite(r)
  {
    if Range(range) == 0.0 then (if value > range.x then 1.0 else 0.0)
    else Clamp01((value - range.x) / Range(range))
  }

  lemma ProductSign(a: real, b: real)
    requires b > 0.0
    ensures a >= 0.0 <==> a * b >= 0.0
  {
  }

  /** On a proper range the result is 0 exactly at or below its start and 1 exactly at
    * or above its end. */
  lemma NormalizeValue01SafeEnds(range: Real2, value: real)
    requires range.x < range.y
    ensures NormalizeValue01Safe(range, value) == 0.0 <==> value <= range.x
    ensures NormalizeValue01Safe(range, value) == 1.0 <==> value >= range.y
  {
    var w := range.y - range.x;
    var q := (value - range.x) / w;
    assert q * w == value - range.x;
    if q <= 0.0 {
      assert value - range.x <= 0.0;
    }
    assert (q - 1.0) * w == value - range.x - w;
    ProductSign(q - 1.0, w);
    if value <= range.x {
      assert q <= 0.0;
    }
  }

  /** `Abs`: the component-wise absolute value. */
  function Abs(v: Vec3): (r: Vec3)
    ensures r.x >= 0.0 && r.y >= 0.0 && r.z >= 0.0
    ensures (r.x == v.x || r.x == -v.x) && (r.y == v.y || r.y == -v.y) && (r.z == v.z || r.z == -v.z)
  {
    Vec3(if v.x < 0.0 then -v.x else v.x, if v.y < 0.0 then -v.y else v.y, if v.z < 0.0 then -v.z else v.z)
  }

  /** `HadamardProduct`: the component-wise product, whose components sum to the dot
    * product, and which leaves `b` unchanged when `a` is all ones. */
  function HadamardProduct(a: Vec3, b: Vec3): (r: Vec3)
    ensures r.x + r.y + r.z == Dot3(a, b)
    ensures a == Vec3(1.0, 1.0, 1.0) ==> r == b
  {
    Vec3(a.x * b.x, a.y * b.y, a.z * b.z)
  }
}
