/**
 * Tile-level vocabulary of the Detour navigation mesh (src/detour/mesh.rs): format
 * constants, polygon and tile references, polygon types, link records, and the
 * header-gated array views of a mesh tile. Everything behind the nav-mesh bridge
 * (tile add/remove, reference encoding, the tile lookups) is foreign and not modelled.
 */
module DetourMesh {
  import opened Prelude

  const DT_VERTS_PER_POLYGON: nat := 6

  /** Appending a byte below a value: the byte is the remainder and the value the quotient. */
  lemma AppendByte(hi: nat, lo: nat)
    requires lo < 0x100
    ensures (hi * 0x100 + lo) % 0x100 == lo && (hi * 0x100 + lo) / 0x100 == hi
  {
  }

  /**
   * A four-character code packed most-significant byte first, as the source builds its
   * magic numbers with `(a << 24) | (b << 16) | (c << 8) | d`; the four bytes occupy
   * disjoint bit ranges, so the OR equals the sum written here.
   */
  function FourCC(a: char, b: char, c: char, d: char): (m: u32)
    requires a as int < 0x100 && b as int < 0x100 && c as int < 0x100 && d as int < 0x100
    ensures m as int % 0x100 == d as int
    ensures (m as int / 0x100) % 0x100 == c as int
    ensures (m as int / 0x100 / 0x100) % 0x100 == b as int
    ensures m as int / 0x100 / 0x100 / 0x100 == a as int
  {
    var ab := a as int * 0x100 + b as int;
    var abc := ab * 0x100 + c as int;
    var abcd := abc * 0x100 + d as int;
    AppendByte(a as int, b as int);
    AppendByte(ab, c as int);
    AppendByte(abc, d as int);
    abcd as u32
  }

  const DT_NAVMESH_MAGIC: u32 := FourCC('D', 'N', 'A', 'V')
  const DT_NAVMESH_VERSION: u32 := 7
  const DT_NAVMESH_STATE_MAGIC: u32 := FourCC('D', 'N', 'M', 'S')
  const DT_NAVMESH_STATE_VERSION: u32 := 1

  /** Marks a polygon edge neighbour that lies in another tile. */
  const DT_EXT_LINK: u16 := 0x8000
  /** Terminates a polygon's link chain. */
  const DT_NULL_LINK: u32 := 0xffff_ffff
  const DT_OFFMESH_CON_BIDIR: u32 := 1
  const DT_MAX_AREAS: nat := 64

  lemma MagicValues()
    ensures DT_NAVMESH_MAGIC == 0x444E_4156
    ensures DT_NAVMESH_STATE_MAGIC == 0x444E_4D53
  {
  }

  /** An opaque polygon reference; the raw value 0 is the null reference. */
  datatype PolyRef = PolyRef(raw: u32) {
    predicate IsNull(): (n: bool)
      ensures n <==> this == PolyRef(0)
    {
      raw == 0
    }
  }

  /** An opaque tile reference. */
  datatype TileRef = TileRef(raw: u32)

  /** `DtPolyRef::default()`. */
  const NULL_REF: PolyRef := PolyRef(0)

  /** The null reference is the only reference for which `is_null` holds. */
  lemma NullRefIsUnique(r: PolyRef)
    ensures r.IsNull() <==> r == NULL_REF
  {
  }

  datatype PolyType = Ground | OffMeshConnection

  /**
   * `DtPoly::typ`: the raw type comes from a foreign accessor; only the raw value 1 is an
   * off-mesh connection and every other raw value reads as ground.
   */
  function PolyTypeOf(rawType: u8): (t: PolyType)
    ensures t == OffMeshConnection <==> rawType == 1
    ensures t == Ground <==> rawType != 1
  {
    if rawType == 1 then OffMeshConnection else Ground
  }

  datatype Poly = Poly(
    firstLink: u32,
    verts: seq<u16>,
    neis: seq<u16>,
    flags: u16,
    vertCount: u8,
    areaAndType: u8)

  /** One entry of a tile's link table; `next` indexes the table or is DT_NULL_LINK. */
  datatype Link = Link(ref: PolyRef, next: u32, edge: u8, side: u8, bmin: u8, bmax: u8)

  /** The integer fields of `DtMeshHeader` (the float bounds and walkable sizes are left out). */
  datatype MeshHeader = MeshHeader(
    magic: int,
    version: int,
    x: int,
    y: int,
    layer: int,
    userId: u32,
    polyCount: int,
    vertCount: int,
    maxLinkCount: int,
    detailMeshCount: int,
    detailVertCount: int,
    detailTriCount: int,
    bvNodeCount: int,
    offMeshConCount: int,
    offMeshBase: int)

  /** The header-gated arrays of a tile. */
  datatype TileArray =
    | PolysArray | VertsArray | LinksArray | DetailMeshesArray | DetailVertsArray
    | DetailTrisArray | BvTreeArray | OffMeshConsArray

  /** The header field that sizes each array. */
  function HeaderCount(h: MeshHeader, a: TileArray): int
  {
    match a
    case PolysArray => h.polyCount
    case VertsArray => h.vertCount
    case LinksArray => h.maxLinkCount
    case DetailMeshesArray => h.detailMeshCount
    case DetailVertsArray => h.detailVertCount
    case DetailTrisArray => h.detailTriCount
    case BvTreeArray => h.bvNodeCount
    case OffMeshConsArray => h.offMeshConCount
  }

  /** Every count of the header is an `i32`. */
  predicate HeaderWellTyped(h: MeshHeader) {
    forall a: TileArray :: IsI32(HeaderCount(h, a))
  }

  /**
   * A mesh tile. `header` is None when the header pointer is null. `polyMem` and
   * `linkMem` are what the polygon and link pointers point at; `data` is the tile's
   * raw payload pointer (None when null) together with the memory behind it.
   */
  datatype MeshTile = MeshTile(
    salt: u32,
    linksFreeList: u32,
    header: Option<MeshHeader>,
    polyMem: seq<Poly>,
    linkMem: seq<Link>,
    data: Option<seq<u8>>,
    dataSize: int)

  predicate TileWellTyped(t: MeshTile) {
    (t.header.Some? ==> HeaderWellTyped(t.header.value)) && IsI32(t.dataSize)
  }

  /**
   * The length of an array view such as `DtMeshTile::polys()`: the header's count cast
   * with `as usize`, or 0 when there is no header.
   */
  function ViewLen(t: MeshTile, a: TileArray): (n: nat)
    requires TileWellTyped(t)
    ensures t.header.None? ==> n == 0
    ensures t.header.Some? && HeaderCount(t.header.value, a) >= 0 ==>
      n == HeaderCount(t.header.value, a)
    ensures t.header.Some? && HeaderCount(t.header.value, a) < 0 ==> n >= TWO_64 - TWO_31
  {
    match t.header
    case None => 0
    case Some(h) => UsizeOfI32(HeaderCount(h, a))
  }

  /** The memory behind the polygon and link pointers covers their views. */
  predicate ViewsInBounds(t: MeshTile)
    requires TileWellTyped(t)
  {
    ViewLen(t, PolysArray) <= |t.polyMem| && ViewLen(t, LinksArray) <= |t.linkMem|
  }

  /** `DtMeshTile::polys()`: the first `poly_count` polygons, none without a header. */
  function Polys(t: MeshTile): (ps: seq<Poly>)
    requires TileWellTyped(t) && ViewsInBounds(t)
    ensures |ps| == ViewLen(t, PolysArray)
    ensures t.header.None? ==> ps == []
    ensures forall i :: 0 <= i < |ps| ==> ps[i] == t.polyMem[i]
  {
    t.polyMem[..ViewLen(t, PolysArray)]
  }

  /** `DtMeshTile::links()`: the first `max_link_count` links, none without a header. */
  function Links(t: MeshTile): (ls: seq<Link>)
    requires TileWellTyped(t) && ViewsInBounds(t)
    ensures |ls| == ViewLen(t, LinksArray)
    ensures t.header.None? ==> ls == []
    ensures forall i :: 0 <= i < |ls| ==> ls[i] == t.linkMem[i]
  {
    t.linkMem[..ViewLen(t, LinksArray)]
  }

  /** The memory behind the data pointer covers `data_size` bytes. */
  predicate DataInBounds(t: MeshTile)
    requires TileWellTyped(t)
  {
    t.data.Some? ==> UsizeOfI32(t.dataSize) <= |t.data.value|
  }

  /** `DtMeshTile::data()`: empty for a null pointer, otherwise `data_size` bytes. */
  function Data(t: MeshTile): (bytes: seq<u8>)
    requires TileWellTyped(t) && DataInBounds(t)
    ensures t.data.None? ==> bytes == []
    ensures t.data.Some? ==>
      |bytes| == UsizeOfI32(t.dataSize) && bytes == t.data.value[..|bytes|]
  {
    match t.data
    case None => []
    case Some(mem) => mem[..UsizeOfI32(t.dataSize)]
  }
}
