/** Shared vocabulary of the model: fixed-width integers, optional values and
    32-bit flag words. */
module Common {

  /** Unsigned 32-bit integer (uint32_t, VkFlags, fourcc codes). */
  type u32 = x: int | 0 <= x < 0x1_0000_0000

  /** Unsigned 64-bit integer (DRM format modifiers). */
  type u64 = x: int | 0 <= x < 0x1_0000_0000_0000_0000

  const U32_MAX: u32 := 0xFFFF_FFFF

  /** A 32-bit bit mask (VkFormatFeatureFlags, VkImageUsageFlags, ...). */
  type Flags = bv32

  /** A value that may be missing: the model of a nullable pointer. */
  datatype Option<+T> = None | Some(value: T)

  /** `(f & mask) != 0`: the C idiom for "intersects". */
  predicate Intersects(f: Flags, mask: Flags) {
    f & mask != 0
  }

  /** Two-dimensional extent (VkExtent2D). */
  datatype Extent = Extent(width: nat, height: nat)

  /** The elements of `s` for which `keep` holds, in their original order. */
  function Filter<T>(s: seq<T>, keep: T -> bool): (r: seq<T>)
    ensures |r| <= |s|
    ensures forall x :: x in r ==> x in s && keep(x)
    ensures forall i :: 0 <= i < |s| && keep(s[i]) ==> s[i] in r
  {
    if s == [] then []
    else if keep(s[0]) then [s[0]] + Filter(s[1..], keep)
    else Filter(s[1..], keep)
  }

  lemma {:induction false} FilterAppend<T>(s: seq<T>, x: T, keep: T -> bool)
    ensures Filter(s + [x], keep) == Filter(s, keep) + (if keep(x) then [x] else [])
  {
    if s == [] {
      assert s + [x] == [x];
    } else {
      assert (s + [x])[1..] == s[1..] + [x];
      FilterAppend(s[1..], x, keep);
    }
  }
}
