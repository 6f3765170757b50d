/**
 * The packed bitfields of Recast's heightfield spans, compact cells and compact spans
 * (src/recast/recast.rs), and the guarded views of the heightfield and compact
 * heightfield. Each field accessor is a pure function on the 32-bit word; the Rust
 * setters, which update `bits` through `&mut self`, are methods of classes that hold
 * that word. Where a setter as written does not behave as a setter, the written form
 * and the corrected form are both given, and the corrected one is proved.
 */
module RecastBits {
  import opened Prelude

  const RC_SPAN_HEIGHT_BITS: bv32 := 13
  const RC_SPAN_MAX_HEIGHT: bv32 := 0x1FFF
  const RC_NULL_AREA: u8 := 0
  const RC_WALKABLE_AREA: u8 := 63

  // Span layout: smin in bits 0..12, smax in bits 13..25, area in bits 26..31.
  const RC_SPAN_SMIN_MASK: bv32 := 0x1FFF
  const RC_SPAN_SMAX_OFF: bv32 := 13
  const RC_SPAN_SMAX_MASK: bv32 := 0x3FF_E000
  const RC_SPAN_AREA_OFF: bv32 := 26
  const RC_SPAN_AREA_MASK: bv32 := 0xFC00_0000

  /** The literal constants are the ones the source derives from the 13-bit height. */
  lemma SpanConstantsDerived()
    ensures RC_SPAN_MAX_HEIGHT == (1 << RC_SPAN_HEIGHT_BITS) - 1
    ensures RC_SPAN_SMIN_MASK == RC_SPAN_MAX_HEIGHT
    ensures RC_SPAN_SMAX_OFF == RC_SPAN_HEIGHT_BITS
    ensures RC_SPAN_SMAX_MASK == RC_SPAN_MAX_HEIGHT << RC_SPAN_SMAX_OFF
    ensures RC_SPAN_AREA_OFF == RC_SPAN_HEIGHT_BITS * 2
    ensures RC_SPAN_AREA_MASK == !(RC_SPAN_SMIN_MASK | RC_SPAN_SMAX_MASK)
  {
  }

  /** The three span fields are disjoint and together cover the whole word. */
  lemma SpanMasksPartition()
    ensures RC_SPAN_SMIN_MASK & RC_SPAN_SMAX_MASK == 0
    ensures RC_SPAN_SMIN_MASK & RC_SPAN_AREA_MASK == 0
    ensures RC_SPAN_SMAX_MASK & RC_SPAN_AREA_MASK == 0
    ensures RC_SPAN_SMIN_MASK | RC_SPAN_SMAX_MASK | RC_SPAN_AREA_MASK == 0xFFFF_FFFF
    ensures RC_SPAN_AREA_MASK == 0x3F << RC_SPAN_AREA_OFF
  {
  }

  function SpanSmin(bits: bv32): (v: bv32)
    ensures v <= RC_SPAN_MAX_HEIGHT
  {
    bits & RC_SPAN_SMIN_MASK
  }

  function SpanSmax(bits: bv32): (v: bv32)
    ensures v <= RC_SPAN_MAX_HEIGHT
  {
    (bits & RC_SPAN_SMAX_MASK) >> RC_SPAN_SMAX_OFF
  }

  function SpanArea(bits: bv32): (v: bv32)
    ensures v < 64
  {
    bits >> RC_SPAN_AREA_OFF
  }

  /** A span word is its three fields put back in place. */
  lemma SpanRecompose(a: bv32)
    ensures a == SpanSmin(a) | (SpanSmax(a) << RC_SPAN_SMAX_OFF) | (SpanArea(a) << RC_SPAN_AREA_OFF)
  {
  }

  /** The three fields determine the word: a span is exactly its smin, smax and area. */
  lemma {:induction false} SpanFieldsDetermineBits(a: bv32, b: bv32)
    requires SpanSmin(a) == SpanSmin(b) && SpanSmax(a) == SpanSmax(b) && SpanArea(a) == SpanArea(b)
    ensures a == b
  {
    SpanRecompose(a);
    SpanRecompose(b);
  }

  // Each field fact about a setter is its own small lemma: the solver handles one
  // field of a word at a time far more cheaply than all three together.

  lemma SminOfSetSmin(bits: bv32, smin: bv32)
    ensures SpanSmin((bits & !RC_SPAN_SMIN_MASK) | (smin & RC_SPAN_SMIN_MASK)) == smin & RC_SPAN_SMIN_MASK
  {
  }

  lemma SetSminKeepsOthers(bits: bv32, smin: bv32)
    ensures var r := (bits & !RC_SPAN_SMIN_MASK) | (smin & RC_SPAN_SMIN_MASK);
      SpanSmax(r) == SpanSmax(bits) && SpanArea(r) == SpanArea(bits)
  {
  }

  /** `set_smin`: the smin field takes the low 13 bits of the value; the rest is kept. */
  function SpanSetSmin(bits: bv32, smin: bv32): (r: bv32)
    ensures SpanSmin(r) == smin & RC_SPAN_SMIN_MASK
    ensures SpanSmax(r) == SpanSmax(bits) && SpanArea(r) == SpanArea(bits)
  {
    SminOfSetSmin(bits, smin);
    SetSminKeepsOthers(bits, smin);
    (bits & !RC_SPAN_SMIN_MASK) | (smin & RC_SPAN_SMIN_MASK)
  }

  lemma SmaxOfSetSmaxAsWritten(bits: bv32, smax: bv32)
    ensures SpanSmax((bits & !RC_SPAN_SMAX_MASK) | ((smax << RC_SPAN_SMAX_OFF) | RC_SPAN_SMAX_MASK)) == RC_SPAN_MAX_HEIGHT
  {
  }

  lemma SminOfSetSmaxAsWritten(bits: bv32, smax: bv32)
    ensures SpanSmin((bits & !RC_SPAN_SMAX_MASK) | ((smax << RC_SPAN_SMAX_OFF) | RC_SPAN_SMAX_MASK)) == SpanSmin(bits)
  {
  }

  lemma AreaOfSetSmaxAsWritten(bits: bv32, smax: bv32)
    ensures SpanArea((bits & !RC_SPAN_SMAX_MASK) | ((smax << RC_SPAN_SMAX_OFF) | RC_SPAN_SMAX_MASK)) ==
            SpanArea(bits) | ((smax >> RC_SPAN_HEIGHT_BITS) & 0x3F)
  {
  }

  /**
   * `set_smax` as written: it ORs the whole smax mask into the word instead of masking
   * the shifted value, so the smax field always reads as 0x1FFF afterwards. smin is
   * kept, and the area field gains the value's bits 13..18.
   */
  function SpanSetSmaxAsWritten(bits: bv32, smax: bv32): (r: bv32)
    ensures SpanSmax(r) == RC_SPAN_MAX_HEIGHT
    ensures SpanSmin(r) == SpanSmin(bits)
    ensures SpanArea(r) == SpanArea(bits) | ((smax >> RC_SPAN_HEIGHT_BITS) & 0x3F)
    ensures smax <= RC_SPAN_MAX_HEIGHT ==> SpanArea(r) == SpanArea(bits)
  {
    SmaxOfSetSmaxAsWritten(bits, smax);
    SminOfSetSmaxAsWritten(bits, smax);
    AreaOfSetSmaxAsWritten(bits, smax);
    (bits & !RC_SPAN_SMAX_MASK) | ((smax << RC_SPAN_SMAX_OFF) | RC_SPAN_SMAX_MASK)
  }

  lemma SmaxOfSetSmax(bits: bv32, smax: bv32)
    ensures SpanSmax((bits & !RC_SPAN_SMAX_MASK) | ((smax << RC_SPAN_SMAX_OFF) & RC_SPAN_SMAX_MASK)) ==
            smax & RC_SPAN_MAX_HEIGHT
  {
  }

  lemma SetSmaxKeepsOthers(bits: bv32, smax: bv32)
    ensures var r := (bits & !RC_SPAN_SMAX_MASK) | ((smax << RC_SPAN_SMAX_OFF) & RC_SPAN_SMAX_MASK);
      SpanSmin(r) == SpanSmin(bits) && SpanArea(r) == SpanArea(bits)
  {
  }

  /** `set_smax` with the shifted value masked by the smax mask. */
  function SpanSetSmax(bits: bv32, smax: bv32): (r: bv32)
    ensures SpanSmax(r) == smax & RC_SPAN_MAX_HEIGHT
    ensures SpanSmin(r) == SpanSmin(bits) && SpanArea(r) == SpanArea(bits)
  {
    SmaxOfSetSmax(bits, smax);
    SetSmaxKeepsOthers(bits, smax);
    (bits & !RC_SPAN_SMAX_MASK) | ((smax << RC_SPAN_SMAX_OFF) & RC_SPAN_SMAX_MASK)
  }

  /** The written `set_smax` loses every value but 0x1FFF: storing 5 reads back 0x1FFF. */
  lemma SpanSetSmaxAsWrittenLosesValue()
    ensures SpanSmax(SpanSetSmaxAsWritten(0, 5)) == 0x1FFF
    ensures SpanSmax(SpanSetSmax(0, 5)) == 5
  {
  }

  lemma AreaOfSetArea(bits: bv32, area: bv32)
    ensures SpanArea((bits & !RC_SPAN_AREA_MASK) | (area << RC_SPAN_AREA_OFF)) == area & 0x3F
  {
  }

  lemma SetAreaKeepsOthers(bits: bv32, area: bv32)
    ensures var r := (bits & !RC_SPAN_AREA_MASK) | (area << RC_SPAN_AREA_OFF);
      SpanSmin(r) == SpanSmin(bits) && SpanSmax(r) == SpanSmax(bits)
  {
  }

  /**
   * `set_area`: the value is shifted into the top six bits, so values of 64 and more
   * are truncated to their low six bits; smin and smax are kept.
   */
  function SpanSetArea(bits: bv32, area: bv32): (r: bv32)
    ensures SpanArea(r) == area & 0x3F
    ensures area < 64 ==> SpanArea(r) == area
    ensures SpanSmin(r) == SpanSmin(bits) && SpanSmax(r) == SpanSmax(bits)
  {
    AreaOfSetArea(bits, area);
    SetAreaKeepsOthers(bits, area);
    (bits & !RC_SPAN_AREA_MASK) | (area << RC_SPAN_AREA_OFF)
  }

  // Compact cells and compact spans share one layout: a 24-bit field in the low bits
  // (cell index, span connections) and an 8-bit field in the top byte (cell count,
  // span height).
  const RC_COMPACT_LOW_MASK: bv32 := 0xFF_FFFF
  const RC_COMPACT_HIGH_OFF: bv32 := 24
  const RC_COMPACT_HIGH_MASK: bv32 := 0xFF

  function Low24(bits: bv32): (v: bv32)
    ensures v <= RC_COMPACT_LOW_MASK
  {
    bits & RC_COMPACT_LOW_MASK
  }

  function High8(bits: bv32): (v: bv32)
    ensures v <= RC_COMPACT_HIGH_MASK
  {
    bits >> RC_COMPACT_HIGH_OFF
  }

  /** The two fields determine the word. */
  lemma CompactFieldsDetermineBits(a: bv32, b: bv32)
    requires Low24(a) == Low24(b) && High8(a) == High8(b)
    ensures a == b
  {
  }

  lemma LowOfWithLow24(bits: bv32, v: bv32)
    ensures Low24((bits & !RC_COMPACT_LOW_MASK) | (v & RC_COMPACT_LOW_MASK)) == v & RC_COMPACT_LOW_MASK
  {
  }

  lemma HighOfWithLow24(bits: bv32, v: bv32)
    ensures High8((bits & !RC_COMPACT_LOW_MASK) | (v & RC_COMPACT_LOW_MASK)) == High8(bits)
  {
  }

  /** `set_index` / `set_con`: the low field takes the value's low 24 bits; the top byte is kept. */
  function WithLow24(bits: bv32, v: bv32): (r: bv32)
    ensures Low24(r) == v & RC_COMPACT_LOW_MASK
    ensures High8(r) == High8(bits)
  {
    LowOfWithLow24(bits, v);
    HighOfWithLow24(bits, v);
    (bits & !RC_COMPACT_LOW_MASK) | (v & RC_COMPACT_LOW_MASK)
  }

  /**
   * `set_count` / `set_h` as written: the mask `!0xFF` clears the low byte of the
   * 24-bit field instead of the top byte, and the shifted value is ORed into a top
   * byte that still holds the old value.
   */
  function WithHigh8AsWritten(bits: bv32, v: bv32): (r: bv32)
    ensures High8(r) == High8(bits) | (v & RC_COMPACT_HIGH_MASK)
    ensures Low24(r) == Low24(bits) & 0xFF_FF00
  {
    HighOfWithHigh8AsWritten(bits, v);
    LowOfWithHigh8AsWritten(bits, v);
    (bits & !RC_COMPACT_HIGH_MASK) | (v << RC_COMPACT_HIGH_OFF)
  }

  lemma HighOfWithHigh8AsWritten(bits: bv32, v: bv32)
    ensures High8((bits & !RC_COMPACT_HIGH_MASK) | (v << RC_COMPACT_HIGH_OFF)) ==
            High8(bits) | (v & RC_COMPACT_HIGH_MASK)
  {
  }

  lemma LowOfWithHigh8AsWritten(bits: bv32, v: bv32)
    ensures Low24((bits & !RC_COMPACT_HIGH_MASK) | (v << RC_COMPACT_HIGH_OFF)) == Low24(bits) & 0xFF_FF00
  {
  }

  /** The two compact fields are disjoint, cover the word, and clearing the top byte keeps the low mask. */
  lemma CompactMasksPartition()
    ensures RC_COMPACT_LOW_MASK & (RC_COMPACT_HIGH_MASK << RC_COMPACT_HIGH_OFF) == 0
    ensures RC_COMPACT_LOW_MASK | (RC_COMPACT_HIGH_MASK << RC_COMPACT_HIGH_OFF) == 0xFFFF_FFFF
    ensures !(RC_COMPACT_HIGH_MASK << RC_COMPACT_HIGH_OFF) == RC_COMPACT_LOW_MASK
  {
  }

  /**
   * `set_count` / `set_h` clearing the top byte, as the layout intends: the mask
   * `!(0xFF << 24)` is the low mask (`CompactMasksPartition`).
   */
  function WithHigh8(bits: bv32, v: bv32): (r: bv32)
    ensures High8(r) == v & RC_COMPACT_HIGH_MASK
    ensures Low24(r) == Low24(bits)
  {
    HighOfWithHigh8(bits, v);
    LowOfWithHigh8(bits, v);
    (bits & RC_COMPACT_LOW_MASK) | (v << RC_COMPACT_HIGH_OFF)
  }

  lemma HighOfWithHigh8(bits: bv32, v: bv32)
    ensures High8((bits & RC_COMPACT_LOW_MASK) | (v << RC_COMPACT_HIGH_OFF)) ==
            v & RC_COMPACT_HIGH_MASK
  {
  }

  lemma LowOfWithHigh8(bits: bv32, v: bv32)
    ensures Low24((bits & RC_COMPACT_LOW_MASK) | (v << RC_COMPACT_HIGH_OFF)) ==
            Low24(bits)
  {
  }

  /**
   * The written `set_count` mixes values and damages the index: a cell with index
   * 0x123 and count 1, given count 2, reads back count 3 and index 0x100.
   */
  lemma WithHigh8AsWrittenMixesValues()
    ensures High8(WithHigh8AsWritten(0x0100_0123, 2)) == 3
    ensures Low24(WithHigh8AsWritten(0x0100_0123, 2)) == 0x100
    ensures High8(WithHigh8(0x0100_0123, 2)) == 2
    ensures Low24(WithHigh8(0x0100_0123, 2)) == 0x123
  {
  }

  /** `rcSpan`: one solid span of a heightfield column (the `next` pointer is not modelled). */
  class RcSpan {
    var bits: bv32

    constructor (bits: bv32)
      ensures this.bits == bits
    {
      this.bits := bits;
    }

    function Smin(): (v: bv32) reads this
      ensures v <= 0x1FFF
    { SpanSmin(bits) }

    function Smax(): (v: bv32) reads this
      ensures v <= 0x1FFF
    { SpanSmax(bits) }

    function Area(): (v: bv32) reads this
      ensures v < 64
    { SpanArea(bits) }

    method SetSmin(smin: bv32)
      modifies this
      ensures bits == SpanSetSmin(old(bits), smin)
    {
      bits := (bits & !RC_SPAN_SMIN_MASK) | (smin & RC_SPAN_SMIN_MASK);
    }

    /** The method follows the code as written; see `SpanSetSmaxAsWritten`. */
    method SetSmax(smax: bv32)
      modifies this
      ensures bits == SpanSetSmaxAsWritten(old(bits), smax)
    {
      bits := (bits & !RC_SPAN_SMAX_MASK) | ((smax << RC_SPAN_SMAX_OFF) | RC_SPAN_SMAX_MASK);
    }

    method SetArea(area: bv32)
      modifies this
      ensures bits == SpanSetArea(old(bits), area)
    {
      bits := (bits & !RC_SPAN_AREA_MASK) | (area << RC_SPAN_AREA_OFF);
    }
  }

  /** `rcCompactCell`: the first span index and span count of one grid column. */
  class RcCompactCell {
    var bits: bv32

    constructor (bits: bv32)
      ensures this.bits == bits
    {
      this.bits := bits;
    }

    function Index(): (v: bv32) reads this
      ensures v <= RC_COMPACT_LOW_MASK
    { Low24(bits) }

    function Count(): (v: bv32) reads this
      ensures v <= RC_COMPACT_HIGH_MASK
    { High8(bits) }

    method SetIndex(index: bv32)
      modifies this
      ensures bits == WithLow24(old(bits), index)
    {
      bits := (bits & !RC_COMPACT_LOW_MASK) | (index & RC_COMPACT_LOW_MASK);
    }

    /** The method follows the code as written; see `WithHigh8AsWritten`. */
    method SetCount(count: bv32)
      modifies this
      ensures bits == WithHigh8AsWritten(old(bits), count)
    {
      bits := (bits & !RC_COMPACT_HIGH_MASK) | (count << RC_COMPACT_HIGH_OFF);
    }
  }

  /** `rcCompactSpan`: floor height, region, neighbour connections and clearance. */
  class RcCompactSpan {
    var y: u16
    var reg: u16
    var bits: bv32

    constructor (y: u16, reg: u16, bits: bv32)
      ensures this.y == y && this.reg == reg && this.bits == bits
    {
      this.y := y;
      this.reg := reg;
      this.bits := bits;
    }

    function Con(): (v: bv32) reads this
      ensures v <= RC_COMPACT_LOW_MASK
    { Low24(bits) }

    function H(): (v: bv32) reads this
      ensures v <= RC_COMPACT_HIGH_MASK
    { High8(bits) }

    method SetCon(con: bv32)
      modifies this
      ensures bits == WithLow24(old(bits), con) && y == old(y) && reg == old(reg)
    {
      bits := (bits & !RC_COMPACT_LOW_MASK) | (con & RC_COMPACT_LOW_MASK);
    }

    /** The method follows the code as written; see `WithHigh8AsWritten`. */
    method SetH(h: bv32)
      modifies this
      ensures bits == WithHigh8AsWritten(old(bits), h) && y == old(y) && reg == old(reg)
    {
      bits := (bits & !RC_COMPACT_HIGH_MASK) | (h << RC_COMPACT_HIGH_OFF);
    }
  }

  /**
   * `rcHeightfield`: a width-by-height grid of columns, each the head of a span list
   * (null for an empty column). The dimensions are `i32`s.
   */
  datatype Heightfield = Heightfield(width: int, height: int, spans: seq<RcSpan?>)

  /** `(width * height) as usize`: a wrapping `i32` product, sign-extended. */
  function ColumnBound(width: int, height: int): (n: nat)
    ensures 0 <= width * height < TWO_31 ==> n == width * height
  {
    UsizeOfI32(WrapI32(width * height))
  }

  /**
   * `get_span`: an index at or past `width * height` and an empty column both give
   * None; otherwise the column head. The column array is read only below the bound.
   */
  function GetSpan(hf: Heightfield, idx: nat): (r: Option<RcSpan>)
    requires idx < ColumnBound(hf.width, hf.height) ==> idx < |hf.spans|
    ensures r.Some? <==> idx < ColumnBound(hf.width, hf.height) && hf.spans[idx] != null
    ensures r.Some? ==> r.value == hf.spans[idx]
    ensures 0 <= hf.width * hf.height < TWO_31 && idx >= hf.width * hf.height ==> r.None?
  {
    if idx >= ColumnBound(hf.width, hf.height) then None
    else if hf.spans[idx] == null then None
    else var head: RcSpan := hf.spans[idx]; Some(head)
  }

  /**
   * `rcCompactHeightfield`: a cell per column, `span_count` spans, and per-span
   * areas and (once computed; null before) distances to the boundary.
   */
  datatype CompactHeightfield = CompactHeightfield(
    width: int, height: int, spanCount: int,
    cells: seq<RcCompactCell>, spans: seq<RcCompactSpan>,
    dist: Option<seq<u16>>, areas: seq<u8>)

  /** `span_count as usize`, with `span_count` an `i32`. */
  function SpanCount(chf: CompactHeightfield): (n: nat)
    requires IsI32(chf.spanCount)
    ensures chf.spanCount >= 0 ==> n == chf.spanCount
  {
    UsizeOfI32(chf.spanCount)
  }

  /** `cells()`: `width * height` cells. */
  function Cells(chf: CompactHeightfield): (cs: seq<RcCompactCell>)
    requires ColumnBound(chf.width, chf.height) <= |chf.cells|
    ensures |cs| == ColumnBound(chf.width, chf.height)
    ensures cs == chf.cells[..|cs|]
  {
    chf.cells[..ColumnBound(chf.width, chf.height)]
  }

  /** `spans()`: `span_count` spans. */
  function Spans(chf: CompactHeightfield): (ss: seq<RcCompactSpan>)
    requires IsI32(chf.spanCount) && SpanCount(chf) <= |chf.spans|
    ensures |ss| == SpanCount(chf) && ss == chf.spans[..|ss|]
  {
    chf.spans[..SpanCount(chf)]
  }

  /** `dist()`: empty while the distance field has not been built, else one per span. */
  function Dist(chf: CompactHeightfield): (ds: seq<u16>)
    requires IsI32(chf.spanCount)
    requires chf.dist.Some? ==> SpanCount(chf) <= |chf.dist.value|
    ensures chf.dist.None? ==> ds == []
    ensures chf.dist.Some? ==> |ds| == SpanCount(chf) && ds == chf.dist.value[..|ds|]
  {
    match chf.dist
    case None => []
    case Some(mem) => mem[..SpanCount(chf)]
  }

  /** `areas()`: one area id per span. */
  function Areas(chf: CompactHeightfield): (ar: seq<u8>)
    requires IsI32(chf.spanCount) && SpanCount(chf) <= |chf.areas|
    ensures |ar| == SpanCount(chf) && ar == chf.areas[..|ar|]
  {
    chf.areas[..SpanCount(chf)]
  }
}
