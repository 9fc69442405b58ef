/** Choice of a device memory type. A device reports up to 32 memory types,
    each with its property flags; a requirement word allows type `i` when bit
    `i` is set. */
module Memory {
  import opened Common

  /** At most this many memory types exist (VK_MAX_MEMORY_TYPES). */
  const MAX_MEMORY_TYPES: nat := 32

  // VkMemoryPropertyFlagBits
  const MEMORY_PROPERTY_DEVICE_LOCAL: Flags := 0x1
  const MEMORY_PROPERTY_HOST_VISIBLE: Flags := 0x2

  /** `(req_bits & (1 << i)) != 0`: the requirement word allows type `i`. */
  predicate TypeAllowed(reqBits: bv32, i: nat)
    requires i < MAX_MEMORY_TYPES
  {
    reqBits & ((1 as bv32) << i) != 0
  }

  /** The type's property flags include every requested flag. */
  predicate Supports(typeFlags: Flags, flags: Flags) {
    typeFlags & flags == flags
  }

  /** Type `i` exists, is allowed by `reqBits` and supports `flags`. */
  predicate Suitable(types: seq<Flags>, flags: Flags, reqBits: bv32, i: nat) {
    && i < |types|
    && i < MAX_MEMORY_TYPES
    && TypeAllowed(reqBits, i)
    && Supports(types[i], flags)
  }

  function FindMemTypeFrom(types: seq<Flags>, flags: Flags, reqBits: bv32, i: nat): (r: int)
    requires i <= |types|
    decreases |types| - i
    ensures r == -1 || (i <= r && Suitable(types, flags, reqBits, r))
    ensures r == -1 <==> forall k :: i <= k < |types| ==> !Suitable(types, flags, reqBits, k)
    ensures r >= 0 ==> forall k :: i <= k < r ==> !Suitable(types, flags, reqBits, k)
  {
    if i == |types| then -1
    else if Suitable(types, flags, reqBits, i) then i
    else FindMemTypeFrom(types, flags, reqBits, i + 1)
  }

  /** `find_mem_type`: the lowest memory type index that the requirement word
      allows and whose flags include `flags`, or -1 when there is none. */
  function FindMemType(types: seq<Flags>, flags: Flags, reqBits: bv32): (r: int)
    ensures r == -1 || (0 <= r < |types| && r < MAX_MEMORY_TYPES)
    ensures r >= 0 ==> TypeAllowed(reqBits, r) && Supports(types[r], flags)
    ensures r >= 0 ==> forall k :: 0 <= k < r ==> !Suitable(types, flags, reqBits, k)
    ensures r == -1 <==> forall k :: 0 <= k < |types| ==> !Suitable(types, flags, reqBits, k)
  {
    FindMemTypeFrom(types, flags, reqBits, 0)
  }

  lemma AllOnesAllowsEvery(i: nat)
    requires i < MAX_MEMORY_TYPES
    ensures TypeAllowed(0xFFFF_FFFF, i)
  {
  }

  /** With the all-ones requirement word only the flags matter: a type is
      found exactly when one of the first 32 types supports them. */
  lemma FindWithAllTypesAllowed(types: seq<Flags>, flags: Flags)
    ensures FindMemType(types, flags, 0xFFFF_FFFF) >= 0 <==>
      exists i :: 0 <= i < |types| && i < MAX_MEMORY_TYPES && Supports(types[i], flags)
  {
    var r := FindMemType(types, flags, 0xFFFF_FFFF);
    if r < 0 {
      forall i | 0 <= i < |types| && i < MAX_MEMORY_TYPES
        ensures !Supports(types[i], flags)
      {
        AllOnesAllowsEvery(i);
        assert !Suitable(types, flags, 0xFFFF_FFFF, i);
      }
    }
  }

  /** With no requested flags any allowed type will do. */
  lemma FindWithoutFlags(types: seq<Flags>, reqBits: bv32)
    ensures FindMemType(types, 0, reqBits) >= 0 <==>
      exists i :: 0 <= i < |types| && i < MAX_MEMORY_TYPES && TypeAllowed(reqBits, i)
  {
    var r := FindMemType(types, 0, reqBits);
    if r < 0 {
      forall i | 0 <= i < |types| && i < MAX_MEMORY_TYPES
        ensures !TypeAllowed(reqBits, i)
      {
        assert Supports(types[i], 0);
        assert !Suitable(types, 0, reqBits, i);
      }
    }
  }

  /** A memory type index or -1 stored in an unsigned 32-bit word: -1
      becomes all ones. */
  function UnsignedWord(found: int): (w: bv32)
    requires -1 <= found < MAX_MEMORY_TYPES
    ensures found < 0 ==> w == 0xFFFF_FFFF
  {
    if found < 0 then 0xFFFF_FFFF else found as bv32
  }

  /** `x & y`: a sub-mask of `y`, all of `y` when `x` is all ones. */
  function Mask(x: bv32, y: bv32): (r: bv32)
    ensures r & y == r
    ensures x == 0xFFFF_FFFF ==> r == y
  {
    x & y
  }

  /** The memory type index `texture_from_pixels` passes to the allocation, as
      written: the device-local type found with every type allowed, converted
      to an unsigned word, masked with the image's requirement word. The
      result is a sub-mask of the image's word, and the whole word when no
      device-local type exists. */
  function PixelsMemoryIndexAsWritten(types: seq<Flags>, imageBits: bv32): (r: bv32)
    ensures r & imageBits == r
    ensures FindMemType(types, MEMORY_PROPERTY_DEVICE_LOCAL, 0xFFFF_FFFF) < 0 ==> r == imageBits
  {
    Mask(UnsignedWord(FindMemType(types, MEMORY_PROPERTY_DEVICE_LOCAL, 0xFFFF_FFFF)), imageBits)
  }

  /** The memory type index evidently intended there: a device-local type the
      image's requirement word allows, or -1 when there is none. */
  function PixelsMemoryIndex(types: seq<Flags>, imageBits: bv32): (r: int)
    ensures r >= 0 ==> r < |types| && r < MAX_MEMORY_TYPES && TypeAllowed(imageBits, r)
    ensures r >= 0 ==> Supports(types[r], MEMORY_PROPERTY_DEVICE_LOCAL)
    ensures r < 0 <==> forall k :: 0 <= k < |types| ==>
      !Suitable(types, MEMORY_PROPERTY_DEVICE_LOCAL, imageBits, k)
  {
    FindMemType(types, MEMORY_PROPERTY_DEVICE_LOCAL, imageBits)
  }

  /** A device with a host-visible type 0 and a device-local type 1, and an
      image that may only live in type 1: the index as written is 0 (the
      found index 1 masked with the word 0b10), a type the image does not
      allow and that is not device local; the intended choice is 1. */
  lemma PixelsMemoryIndexCounterexample()
    ensures var types := [MEMORY_PROPERTY_HOST_VISIBLE, MEMORY_PROPERTY_DEVICE_LOCAL];
      && PixelsMemoryIndexAsWritten(types, 0x2) == 0
      && !TypeAllowed(0x2, 0)
      && !Supports(types[0], MEMORY_PROPERTY_DEVICE_LOCAL)
      && PixelsMemoryIndex(types, 0x2) == 1
  {
    var types := [MEMORY_PROPERTY_HOST_VISIBLE, MEMORY_PROPERTY_DEVICE_LOCAL];
    assert !Suitable(types, MEMORY_PROPERTY_DEVICE_LOCAL, 0xFFFF_FFFF, 0);
    assert Suitable(types, MEMORY_PROPERTY_DEVICE_LOCAL, 0xFFFF_FFFF, 1);
    assert FindMemType(types, MEMORY_PROPERTY_DEVICE_LOCAL, 0xFFFF_FFFF) == 1;
    assert !Suitable(types, MEMORY_PROPERTY_DEVICE_LOCAL, 0x2, 0);
    assert Suitable(types, MEMORY_PROPERTY_DEVICE_LOCAL, 0x2, 1);
  }
}
