/**
 * `SliceExt::write` for byte slices (src/slice_ext.rs): copy data into the
 * front of a mutable slice and hand back the rest of the slice, so that
 * writes can be chained. A slice is the window a[lo..hi] of an array.
 */
module SliceExt {
  import opened Common

  /** The window s[lo..] with data laid over its first |data| bytes. */
  function Overlay(s: seq<byte>, lo: nat, data: seq<byte>): (r: seq<byte>)
    requires lo + |data| <= |s|
    ensures |r| == |s|
    ensures r[lo..lo + |data|] == data
    ensures forall j :: 0 <= j < |s| && !(lo <= j < lo + |data|) ==> r[j] == s[j]
  {
    seq(|s|, j requires 0 <= j < |s| => if lo <= j < lo + |data| then data[j - lo] else s[j])
  }

  /**
   * `SliceExt::write`: `self[..data.len()]` panics unless data fits in the
   * window; the returned slice is the window's suffix after the copied bytes.
   */
  method Write(a: array<byte>, lo: nat, hi: nat, data: seq<byte>) returns (restLo: nat, restHi: nat)
    requires lo <= hi <= a.Length && |data| <= hi - lo
    modifies a
    ensures restLo == lo + |data| && restHi == hi
    ensures a[..] == Overlay(old(a[..]), lo, data)
  {
    ghost var before := a[..];
    for k := 0 to |data|
      invariant a[..] == Overlay(before, lo, data[..k])
    {
      a[lo + k] := data[k];
      assert data[..k + 1] == data[..k] + [data[k]];
    }
    assert data[..|data|] == data;
    restLo, restHi := lo + |data|, hi;
  }

  /** Chaining: writing a and then b into what is left puts a ++ b at the front of the window. */
  lemma WriteChain(s: seq<byte>, lo: nat, x: seq<byte>, y: seq<byte>)
    requires lo + |x| + |y| <= |s|
    ensures Overlay(Overlay(s, lo, x), lo + |x|, y) == Overlay(s, lo, x + y)
  {
    var l, r := Overlay(Overlay(s, lo, x), lo + |x|, y), Overlay(s, lo, x + y);
    forall j | 0 <= j < |s|
      ensures l[j] == r[j]
    {
      if lo <= j < lo + |x| {
        assert r[j] == r[lo..lo + |x| + |y|][j - lo] == (x + y)[j - lo];
      } else if lo + |x| <= j < lo + |x| + |y| {
        assert l[j] == l[lo + |x|..lo + |x| + |y|][j - lo - |x|];
        assert r[j] == r[lo..lo + |x| + |y|][j - lo] == (x + y)[j - lo];
      }
    }
  }
}
