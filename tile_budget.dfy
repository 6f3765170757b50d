/**
 * The tile and polygon bit budget of the tiled navigation-mesh build
 * (tests/tile_mesh.rs): the tile grid's ceiling divisions, `next_pow2` and `ilog2`
 * on `i32`, and the split of the 22 reference bits between tiles and polygons.
 * The two bit-twiddling helpers work on the `i32` bit pattern, here a `bv32`; their
 * `>>` is Rust's arithmetic shift on a signed value, written out as `Sar`, and their
 * comparisons are signed.
 */
module TileBudget {
  import opened Prelude

  const SIGN_BIT: bv32 := 0x8000_0000

  /** An `i32` bit pattern is non-negative. */
  predicate NonNegative(x: bv32) { x & SIGN_BIT == 0 }

  /** Signed `x > c` for a non-negative constant c. */
  predicate SignedGt(x: bv32, c: bv32)
    requires NonNegative(c)
  {
    NonNegative(x) && x > c
  }

  /** Rust's `>>` on an `i32`: an arithmetic shift, copying the sign bit in. */
  function Sar(x: bv32, k: bv32): (r: bv32)
    requires k < 32
    ensures NonNegative(x) ==> r == x >> k
  {
    if NonNegative(x) then x >> k else (x >> k) | !(0xFFFF_FFFF >> k)
  }

  predicate IsPow2(x: bv32) { x != 0 && x & (x - 1) == 0 }

  /**
   * `next_pow2`: the smallest power of two at or above v for 1 <= v <= 2^30; 0 for 0.
   * Above 2^30 the final `+ 1` overflows to `i32::MIN` (release-mode wrapping), and a
   * negative v other than `i32::MIN` smears to all ones and gives 0.
   */
  method NextPow2(v0: bv32) returns (v: bv32)
    ensures 1 <= v0 <= 0x4000_0000 ==> IsPow2(v) && v0 <= v && (v == v0 || v < v0 << 1)
    ensures 1 <= v0 <= 0x4000_0000 ==> (IsPow2(v0) <==> v == v0)
    ensures v0 == 0 ==> v == 0
    ensures 0x4000_0000 < v0 <= 0x8000_0000 ==> v == 0x8000_0000
    ensures 0x8000_0000 < v0 ==> v == 0
  {
    v := v0 - 1;
    v := v | Sar(v, 1);
    v := v | Sar(v, 2);
    v := v | Sar(v, 4);
    v := v | Sar(v, 8);
    v := v | Sar(v, 16);
    v := v + 1;
  }

  /**
   * `ilog2`: the floor of the base-2 logarithm of a positive v, found by four halving
   * steps on signed comparisons; 0 for 0.
   */
  method ILog2(v0: bv32) returns (r: bv32)
    ensures 1 <= v0 && NonNegative(v0) ==> r < 31 && v0 >> r == 1
    ensures v0 == 0 ==> r == 0
  {
    var v := v0;
    var shift: bv32;
    r := (if SignedGt(v, 0xffff) then 1 else 0) << 4;
    v := Sar(v, r);
    shift := (if SignedGt(v, 0xff) then 1 else 0) << 3;
    v := Sar(v, shift);
    r := r | shift;
    shift := (if SignedGt(v, 0xf) then 1 else 0) << 2;
    v := Sar(v, shift);
    r := r | shift;
    shift := (if SignedGt(v, 0x3) then 1 else 0) << 1;
    v := Sar(v, shift);
    r := r | shift;
    r := r | Sar(v, 1);
  }

  /**
   * The tile grid's extent in tiles, `(grid_size + ts - 1) / ts` on `i32`s; the
   * operands are non-negative, where Rust's truncating division agrees with Dafny's.
   */
  function TileCount(gridSize: nat, ts: nat): (tiles: nat)
    requires ts >= 1 && gridSize + ts - 1 < TWO_31
    ensures gridSize == 0 ==> tiles == 0
    ensures gridSize >= 1 ==> (tiles - 1) * ts < gridSize <= tiles * ts
  {
    var q := (gridSize + ts - 1) / ts;
    var rem := (gridSize + ts - 1) % ts;
    assert gridSize + ts - 1 == q * ts + rem;
    assert (q - 1) * ts == q * ts - ts;
    q
  }

  /** The bits of a tile reference are split at most 14 for tiles, the rest of 22 for polygons. */
  const MAX_TILE_BITS: bv32 := 14
  const REF_BITS: bv32 := 22

  /**
   * The bit budget from the tile count `tw * th` (its `i32` bit pattern):
   * `tile_bits = min(ilog2(next_pow2(tiles)), 14)`, `poly_bits = 22 - tile_bits`, and
   * `max_tiles`, `max_polys` are the matching powers of two. Up to 2^14 tiles, the
   * mesh has room for every tile, and at most twice as many slots as tiles.
   */
  method Budget(tiles: bv32) returns (tileBits: bv32, polyBits: bv32, maxTiles: bv32, maxPolys: bv32)
    ensures tileBits <= MAX_TILE_BITS || 0x4000_0000 < tiles <= 0x8000_0000
    ensures tileBits + polyBits == REF_BITS
    ensures tileBits <= MAX_TILE_BITS ==> maxTiles == 1 << tileBits && maxPolys == 1 << polyBits
    ensures 1 <= tiles <= 0x4000 ==> tiles <= maxTiles && (maxTiles == tiles || maxTiles < tiles << 1)
    ensures 0x4000 < tiles <= 0x4000_0000 ==> tileBits == MAX_TILE_BITS && maxTiles == 0x4000 && 0x4000 < tiles
  {
    var p := NextPow2(tiles);
    var l := ILog2(p);
    tileBits := if !NonNegative(l) || l <= MAX_TILE_BITS then l else MAX_TILE_BITS;
    polyBits := REF_BITS - tileBits;
    maxTiles := 1 << Shift(tileBits);
    maxPolys := 1 << Shift(polyBits);
    if 1 <= tiles <= 0x4000_0000 {
      Pow2Log(p, l);
    }
  }

  /** Rust's `1 << n` on `i32` uses the shift amount modulo 32. */
  function Shift(n: bv32): (k: bv32)
    ensures k < 32
    ensures n < 32 ==> k == n
  {
    n & 31
  }

  /** A power of two is one shifted left by its logarithm. */
  lemma Pow2Log(p: bv32, l: bv32)
    requires IsPow2(p) && l < 31 && p >> l == 1
    ensures p == 1 << l
  {
  }
}
