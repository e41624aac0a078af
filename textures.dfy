/** The texel fill of `genTextures`: a 1024x1024 RGBA image written into a
    malloc'd array of 32-bit words, then a 16x16 image written over its start. */
module Textures {

  /** Side of the large texture (texture name 1). */
  const LargeSide: nat := 1024
  /** Side of the small texture (texture name 2). */
  const SmallSide: nat := 16
  /** Number of 32-bit words in the malloc'd array (`1024*1024*4` bytes). */
  const LargeCount: nat := LargeSide * LargeSide
  /** Number of texels of the small texture. */
  const SmallCount: nat := SmallSide * SmallSide

  /** The word the first loop stores for column `x`, row `y`: the red and alpha
      bytes are 0xff whatever the coordinates. */
  function LargeTexel(x: bv32, y: bv32): (w: bv32)
    ensures w & 0xff == 0xff && w >> 24 == 0xff
  {
    0xff0000ff | ((x & 0xff) << 8) | (y << 16)
  }

  /** The word the second loop stores for column `x`, row `y`: the red and
      alpha bytes are 0xff whatever the coordinates. */
  function SmallTexel(x: bv32, y: bv32): (w: bv32)
    ensures w & 0xff == 0xff && w >> 24 == 0xff
  {
    0xff0000ff | (x << 12) | (y << 20)
  }

  /** The large image at row-major index `i`. */
  function LargeAt(i: nat): bv32
    requires i < LargeCount
  {
    LargeTexel((i % LargeSide) as bv32, (i / LargeSide) as bv32)
  }

  /** The small image at row-major index `i`. */
  function SmallAt(i: nat): bv32
    requires i < SmallCount
  {
    SmallTexel((i % SmallSide) as bv32, (i / SmallSide) as bv32)
  }

  /** Byte 0 is 0xff, byte 1 is `x` mod 256, byte 2 is `y` mod 256, and byte 3
      is 0xff: the bits of `y << 16` above bit 23 fall into the byte already set. */
  lemma LargeTexelFields(x: bv32, y: bv32)
    requires x < 1024 && y < 1024
    ensures LargeTexel(x, y) & 0xff == 0xff
    ensures (LargeTexel(x, y) >> 8) & 0xff == x % 256
    ensures (LargeTexel(x, y) >> 16) & 0xff == y % 256
    ensures LargeTexel(x, y) >> 24 == 0xff
  {
  }

  /** Byte 0 and byte 3 are 0xff, byte 1 is `16 * x`, byte 2 is `16 * y`. */
  lemma SmallTexelFields(x: bv32, y: bv32)
    requires x < 16 && y < 16
    ensures SmallTexel(x, y) & 0xff == 0xff
    ensures (SmallTexel(x, y) >> 8) & 0xff == 16 * x
    ensures (SmallTexel(x, y) >> 16) & 0xff == 16 * y
    ensures SmallTexel(x, y) >> 24 == 0xff
  {
  }

  /** Row-major index `y * side + x` has column `x` and row `y`, for both sides. */
  lemma RowMajor(side: nat, x: nat, y: nat)
    requires side == LargeSide || side == SmallSide
    requires x < side
    ensures (y * side + x) % side == x && (y * side + x) / side == y
  {
  }

  /** The first pair of loops: every word of `m` becomes its large texel. */
  method FillLarge(m: array<bv32>)
    requires m.Length == LargeCount
    modifies m
    ensures forall i :: 0 <= i < LargeCount ==> m[i] == LargeAt(i)
  {
    for y := 0 to 1024
      invariant forall i :: 0 <= i < y * 1024 ==> m[i] == LargeAt(i)
    {
      for x := 0 to 1024
        invariant forall i :: 0 <= i < y * 1024 + x ==> m[i] == LargeAt(i)
      {
        RowMajor(LargeSide, x, y);
        m[y * 1024 + x] := LargeTexel(x as bv32, y as bv32);
      }
    }
  }

  /** The second pair of loops: words `0 .. 255` become the small texels, the
      rest of `m` is left as it was. */
  method FillSmall(m: array<bv32>)
    requires m.Length >= SmallCount
    modifies m
    ensures forall i :: 0 <= i < SmallCount ==> m[i] == SmallAt(i)
    ensures forall i :: SmallCount <= i < m.Length ==> m[i] == old(m[i])
  {
    for y := 0 to 16
      invariant forall i :: 0 <= i < y * 16 ==> m[i] == SmallAt(i)
      invariant forall i :: SmallCount <= i < m.Length ==> m[i] == old(m[i])
    {
      for x := 0 to 16
        invariant forall i :: 0 <= i < y * 16 + x ==> m[i] == SmallAt(i)
        invariant forall i :: SmallCount <= i < m.Length ==> m[i] == old(m[i])
      {
        RowMajor(SmallSide, x, y);
        m[y * 16 + x] := SmallTexel(x as bv32, y as bv32);
      }
    }
  }

  /** `genTextures` without its GL calls: `large` and `small` are the images the
      two `glTexImage2D` calls read, `m` the array as the function leaves it. */
  method GenTextures() returns (m: array<bv32>, large: seq<bv32>, small: seq<bv32>)
    ensures |large| == LargeCount && forall i :: 0 <= i < LargeCount ==> large[i] == LargeAt(i)
    ensures |small| == SmallCount && forall i :: 0 <= i < SmallCount ==> small[i] == SmallAt(i)
    ensures m.Length == LargeCount
    ensures m[..SmallCount] == small
    ensures forall i :: SmallCount <= i < LargeCount ==> m[i] == LargeAt(i)
  {
    m := new bv32[LargeCount];
    FillLarge(m);
    large := m[..];
    FillSmall(m);
    small := m[..SmallCount];
  }
}
