/** The two `System.Array` library operations the magazine relies on, written out as loops. */
module SystemArray {

  /** `Array.Resize(ref a, newSize)` for a non-null `a`: when the size is unchanged the same
      array is kept; otherwise a new array of `newSize` slots is allocated, the common prefix
      is copied into it and the remaining slots hold `zero` (the element type's default). */
  method Resize<T>(a: array<T>, newSize: nat, zero: T) returns (r: array<T>)
    ensures newSize == a.Length ==> r == a
    ensures newSize != a.Length ==> fresh(r)
    ensures r.Length == newSize
    ensures forall k :: 0 <= k < newSize && k < a.Length ==> r[k] == a[k]
    ensures forall k :: a.Length <= k < newSize ==> r[k] == zero
  {
    if newSize == a.Length {
      return a;
    }
    r := new T[newSize](_ => zero);
    var common := if a.Length < newSize then a.Length else newSize;
    var i := 0;
    while i < common
      invariant 0 <= i <= common
      invariant forall k :: 0 <= k < i ==> r[k] == a[k]
      invariant forall k :: common <= k < newSize ==> r[k] == zero
    {
      r[i] := a[i];
      i := i + 1;
    }
  }

  /** `Array.Copy(src, srcIndex, dst, dstIndex, length)` with in-range indices and two distinct
      arrays: the `length` elements of `src` starting at `srcIndex` overwrite `dst` from
      `dstIndex` on, and every other slot of `dst` keeps its value. */
  method Copy<T>(src: array<T>, srcIndex: nat, dst: array<T>, dstIndex: nat, length: nat)
    requires srcIndex + length <= src.Length
    requires dstIndex + length <= dst.Length
    requires src != dst
    modifies dst
    ensures dst[..] == old(dst[..dstIndex]) + src[srcIndex..srcIndex + length] + old(dst[dstIndex + length..])
  {
    var i := 0;
    while i < length
      invariant 0 <= i <= length
      invariant forall k :: 0 <= k < dstIndex ==> dst[k] == old(dst[k])
      invariant forall k :: dstIndex <= k < dstIndex + i ==> dst[k] == src[srcIndex + k - dstIndex]
      invariant forall k :: dstIndex + i <= k < dst.Length ==> dst[k] == old(dst[k])
    {
      dst[dstIndex + i] := src[srcIndex + i];
      i := i + 1;
    }
    ghost var expected := old(dst[..dstIndex]) + src[srcIndex..srcIndex + length] + old(dst[dstIndex + length..]);
    assert |expected| == dst.Length;
    forall k | 0 <= k < dst.Length
      ensures dst[k] == expected[k]
    {
      if k < dstIndex {
      } else if k < dstIndex + length {
        assert expected[k] == src[srcIndex + k - dstIndex];
      } else {
        assert expected[k] == old(dst[k]);
      }
    }
    assert dst[..] == expected;
  }
}
