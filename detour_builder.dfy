/**
 * Tile-builder parameter validation (src/detour/builder.rs). The Rust descriptor holds
 * optional slices; only their presence and lengths matter to validation, so each is an
 * `Option<nat>` here. The descriptor handed to the foreign builder holds a non-null flag
 * per pointer and the derived `i32` counts. The float fields (bounds, walkable sizes,
 * cell sizes) are copied through unchanged and are left out.
 */
module DetourBuilder {
  import opened Prelude
  import opened DetourBase
  import opened DetourMesh

  /** `DtNavMeshCreateParams`: each optional slice is None or Some(its length). */
  datatype CreateParams = CreateParams(
    verts: Option<nat>,
    polys: Option<nat>,
    polyFlags: Option<nat>,
    polyAreas: Option<nat>,
    nvp: nat,
    detailMeshes: Option<nat>,
    detailVerts: Option<nat>,
    detailTris: Option<nat>,
    offMeshConVerts: Option<nat>,
    offMeshConRad: Option<nat>,
    offMeshConFlags: Option<nat>,
    offMeshConAreas: Option<nat>,
    offMeshConDir: Option<nat>,
    offMeshConUserId: Option<nat>,
    userId: u32,
    tileX: int,
    tileY: int,
    tileLayer: int,
    buildBvTree: bool)

  /** `CxxDtNavMeshCreateParams`: pointers reduced to "non-null", plus the derived counts. */
  datatype CxxCreateParams = CxxCreateParams(
    hasVerts: bool,
    vertCount: int,
    hasPolys: bool,
    hasPolyFlags: bool,
    hasPolyAreas: bool,
    polyCount: int,
    nvp: int,
    hasDetailMeshes: bool,
    hasDetailVerts: bool,
    detailVertsCount: int,
    hasDetailTris: bool,
    detailTriCount: int,
    hasOffMeshConVerts: bool,
    hasOffMeshConRad: bool,
    hasOffMeshConFlags: bool,
    hasOffMeshConAreas: bool,
    hasOffMeshConDir: bool,
    hasOffMeshConUserId: bool,
    offMeshConCount: int,
    userId: u32,
    tileX: int,
    tileY: int,
    tileLayer: int,
    buildBvTree: bool)

  /** The tile payload the foreign builder produces (`DtBuf`). */
  datatype TileBuf = TileBuf(bytes: seq<u8>)

  /**
   * The foreign `dtCreateNavMeshData`: Some(payload) when it returns true, None when it
   * returns false.
   */
  type ForeignBuilder = CxxCreateParams -> Option<TileBuf>

  /** `unpack_ptr`: a slice's pointer, null for an absent slice. */
  function UnpackPtr(v: Option<nat>): (nonNull: bool)
    ensures nonNull <==> v.Some?
  {
    v.Some?
  }

  /**
   * `unpack_len`: `len() as i32` of a present slice, 0 for an absent one. Lengths of
   * 2^31 and more wrap around.
   */
  function UnpackLen(v: Option<nat>): (n: int)
    ensures IsI32(n)
    ensures v.None? ==> n == 0
    ensures v.Some? && v.value < TWO_31 ==> n == v.value
    ensures v.Some? ==> (v.value - n) % TWO_32 == 0
  {
    match v
    case None => 0
    case Some(len) => WrapI32(len)
  }

  /**
   * `CxxDtNavMeshCreateParams::from`: the vertex count comes from `verts`, the polygon
   * count from `poly_flags` (not from `polys` or `poly_areas`), the off-mesh connection
   * count from `off_mesh_con_verts`, and `nvp` is truncated to `i32`.
   */
  function FromParams(p: CreateParams): (cp: CxxCreateParams)
    ensures cp.vertCount == UnpackLen(p.verts) && cp.hasVerts == p.verts.Some?
    ensures cp.polyCount == UnpackLen(p.polyFlags)
    ensures cp.offMeshConCount == UnpackLen(p.offMeshConVerts)
    ensures cp.nvp == WrapI32(p.nvp)
    ensures cp.hasPolys == p.polys.Some? && cp.hasPolyFlags == p.polyFlags.Some? &&
      cp.hasPolyAreas == p.polyAreas.Some?
    ensures cp.hasDetailMeshes <==> p.detailMeshes.Some?
    ensures cp.hasDetailVerts == p.detailVerts.Some? && cp.hasDetailTris == p.detailTris.Some?
    ensures cp.detailVertsCount == UnpackLen(p.detailVerts) && cp.detailTriCount == UnpackLen(p.detailTris)
    ensures cp.hasOffMeshConVerts == p.offMeshConVerts.Some? && cp.hasOffMeshConRad == p.offMeshConRad.Some? &&
      cp.hasOffMeshConFlags == p.offMeshConFlags.Some? && cp.hasOffMeshConAreas == p.offMeshConAreas.Some? &&
      cp.hasOffMeshConDir == p.offMeshConDir.Some? && cp.hasOffMeshConUserId == p.offMeshConUserId.Some?
    ensures cp.userId == p.userId && cp.tileX == p.tileX && cp.tileY == p.tileY &&
      cp.tileLayer == p.tileLayer && cp.buildBvTree == p.buildBvTree
  {
    CxxCreateParams(
      UnpackPtr(p.verts), UnpackLen(p.verts),
      UnpackPtr(p.polys), UnpackPtr(p.polyFlags), UnpackPtr(p.polyAreas),
      UnpackLen(p.polyFlags), WrapI32(p.nvp),
      UnpackPtr(p.detailMeshes), UnpackPtr(p.detailVerts), UnpackLen(p.detailVerts),
      UnpackPtr(p.detailTris), UnpackLen(p.detailTris),
      UnpackPtr(p.offMeshConVerts), UnpackPtr(p.offMeshConRad), UnpackPtr(p.offMeshConFlags),
      UnpackPtr(p.offMeshConAreas), UnpackPtr(p.offMeshConDir), UnpackPtr(p.offMeshConUserId),
      UnpackLen(p.offMeshConVerts),
      p.userId, p.tileX, p.tileY, p.tileLayer, p.buildBvTree)
  }

  /** The off-mesh connection arrays all have the length of `off_mesh_con_verts`. */
  predicate OffMeshArraysAgree(p: CreateParams) {
    var oc := UnpackLen(p.offMeshConVerts);
    UnpackLen(p.offMeshConRad) == oc && UnpackLen(p.offMeshConFlags) == oc &&
    UnpackLen(p.offMeshConAreas) == oc && UnpackLen(p.offMeshConDir) == oc &&
    UnpackLen(p.offMeshConUserId) == oc
  }

  /**
   * What the validator of `dt_create_nav_mesh_data` accepts, stated without its
   * redundant steps: the `poly_flags` length test cannot fail (the polygon count is that
   * length), and the detail-mesh test amounts to "detail meshes are present", with no
   * constraint on their length. The product `poly_count * 2 * nvp` is i32 arithmetic.
   */
  predicate ParamsAccepted(p: CreateParams) {
    var vc := UnpackLen(p.verts);
    var pc := UnpackLen(p.polyFlags);
    var nvp := WrapI32(p.nvp);
    3 <= vc < 0xFFFF &&
    pc >= 1 &&
    UnpackLen(p.polys) == WrapI32(pc * 2 * nvp) &&
    UnpackLen(p.polyAreas) == pc &&
    3 <= nvp <= DT_VERTS_PER_POLYGON &&
    p.detailMeshes.Some? &&
    OffMeshArraysAgree(p)
  }

  /**
   * `dt_create_nav_mesh_data`: every failed check returns InvalidParam before the
   * foreign builder is consulted; a builder that reports failure gives Failed.
   */
  function CreateNavMeshData(p: CreateParams, build: ForeignBuilder): (r: Result<TileBuf>)
    ensures !ParamsAccepted(p) ==> r == Err(InvalidParam)
    ensures ParamsAccepted(p) ==>
      r == (match build(FromParams(p)) case Some(buf) => Ok(buf) case None => Err(Failed))
  {
    var cp := FromParams(p);
    WrapI32MulLeft(cp.polyCount * 2, cp.nvp);
    if cp.vertCount < 3 || cp.vertCount >= 0xFFFF then Err(InvalidParam)
    else if cp.polyCount < 1 then Err(InvalidParam)
    else if UnpackLen(p.polys) != WrapI32(WrapI32(cp.polyCount * 2) * cp.nvp) then Err(InvalidParam)
    else if UnpackLen(p.polyFlags) != cp.polyCount then Err(InvalidParam)
    else if UnpackLen(p.polyAreas) != cp.polyCount then Err(InvalidParam)
    else if cp.nvp < 3 || cp.nvp > DT_VERTS_PER_POLYGON as int then Err(InvalidParam)
    else if !cp.hasDetailMeshes && UnpackLen(p.detailMeshes) != cp.polyCount then Err(InvalidParam)
    else if UnpackLen(p.offMeshConRad) != cp.offMeshConCount then Err(InvalidParam)
    else if UnpackLen(p.offMeshConFlags) != cp.offMeshConCount then Err(InvalidParam)
    else if UnpackLen(p.offMeshConAreas) != cp.offMeshConCount then Err(InvalidParam)
    else if UnpackLen(p.offMeshConDir) != cp.offMeshConCount then Err(InvalidParam)
    else if UnpackLen(p.offMeshConUserId) != cp.offMeshConCount then Err(InvalidParam)
    else
      match build(cp)
      case Some(buf) => Ok(buf)
      case None => Err(Failed)
  }

  /** A vertex count outside [3, 0xFFFF) is rejected (lengths below 2^31 are not truncated). */
  lemma VertexCountOutOfRangeRejected(p: CreateParams, build: ForeignBuilder)
    requires p.verts.None? || p.verts.value < 3 || 0xFFFF <= p.verts.value < TWO_31
    ensures CreateNavMeshData(p, build) == Err(InvalidParam)
  {
  }

  /** An absent or empty `poly_flags` gives a polygon count of 0, which is rejected. */
  lemma NoPolyFlagsRejected(p: CreateParams, build: ForeignBuilder)
    requires p.polyFlags.None? || p.polyFlags.value == 0
    ensures CreateNavMeshData(p, build) == Err(InvalidParam)
  {
  }

  /** With no off-mesh connection arrays at all, the off-mesh checks pass. */
  lemma NoOffMeshConnectionsAgree(p: CreateParams)
    requires p.offMeshConVerts.None? && p.offMeshConRad.None? && p.offMeshConFlags.None?
    requires p.offMeshConAreas.None? && p.offMeshConDir.None? && p.offMeshConUserId.None?
    ensures OffMeshArraysAgree(p) && FromParams(p).offMeshConCount == 0
  {
  }

  /** A minimal descriptor: one triangle, three vertices, no off-mesh connections. */
  function OneTriangle(detailMeshes: Option<nat>): CreateParams {
    CreateParams(
      Some(3), Some(6), Some(1), Some(1), 3,
      detailMeshes, None, None,
      None, None, None, None, None, None,
      0, 0, 0, 0, false)
  }

  /**
   * As written, the detail-mesh test only runs when the pointer is null, where the
   * length is 0 and the polygon count at least 1: absent detail meshes are always
   * rejected, and present ones are never length-checked.
   */
  lemma DetailMeshesMandatory(p: CreateParams, build: ForeignBuilder)
    requires p.detailMeshes.None?
    ensures CreateNavMeshData(p, build) == Err(InvalidParam)
  {
  }

  /** The concrete discrepancy: the same triangle with detail meshes of length 0 or absent. */
  lemma DetailMeshCheckAsWritten()
    ensures CreateNavMeshData(OneTriangle(None), _ => Some(TileBuf([]))) == Err(InvalidParam)
    ensures CreateNavMeshData(OneTriangle(Some(0)), _ => Some(TileBuf([]))) == Ok(TileBuf([]))
  {
    assert ParamsAccepted(OneTriangle(Some(0)));
  }

  /**
   * The evidently intended validator: detail meshes are optional, as the `Option` in the
   * descriptor's type declares, but present ones must have one entry per polygon.
   */
  predicate ParamsAcceptedIntended(p: CreateParams) {
    var vc := UnpackLen(p.verts);
    var pc := UnpackLen(p.polyFlags);
    var nvp := WrapI32(p.nvp);
    3 <= vc < 0xFFFF &&
    pc >= 1 &&
    UnpackLen(p.polys) == WrapI32(pc * 2 * nvp) &&
    UnpackLen(p.polyAreas) == pc &&
    3 <= nvp <= DT_VERTS_PER_POLYGON &&
    (p.detailMeshes.Some? ==> UnpackLen(p.detailMeshes) == pc) &&
    OffMeshArraysAgree(p)
  }

  /** `dt_create_nav_mesh_data` with the detail-mesh test guarded by `!is_null()`. */
  function CreateNavMeshDataIntended(p: CreateParams, build: ForeignBuilder): (r: Result<TileBuf>)
    ensures !ParamsAcceptedIntended(p) ==> r == Err(InvalidParam)
    ensures ParamsAcceptedIntended(p) ==>
      r == (match build(FromParams(p)) case Some(buf) => Ok(buf) case None => Err(Failed))
  {
    var cp := FromParams(p);
    WrapI32MulLeft(cp.polyCount * 2, cp.nvp);
    if cp.vertCount < 3 || cp.vertCount >= 0xFFFF then Err(InvalidParam)
    else if cp.polyCount < 1 then Err(InvalidParam)
    else if UnpackLen(p.polys) != WrapI32(WrapI32(cp.polyCount * 2) * cp.nvp) then Err(InvalidParam)
    else if UnpackLen(p.polyFlags) != cp.polyCount then Err(InvalidParam)
    else if UnpackLen(p.polyAreas) != cp.polyCount then Err(InvalidParam)
    else if cp.nvp < 3 || cp.nvp > DT_VERTS_PER_POLYGON as int then Err(InvalidParam)
    else if cp.hasDetailMeshes && UnpackLen(p.detailMeshes) != cp.polyCount then Err(InvalidParam)
    else if UnpackLen(p.offMeshConRad) != cp.offMeshConCount then Err(InvalidParam)
    else if UnpackLen(p.offMeshConFlags) != cp.offMeshConCount then Err(InvalidParam)
    else if UnpackLen(p.offMeshConAreas) != cp.offMeshConCount then Err(InvalidParam)
    else if UnpackLen(p.offMeshConDir) != cp.offMeshConCount then Err(InvalidParam)
    else if UnpackLen(p.offMeshConUserId) != cp.offMeshConCount then Err(InvalidParam)
    else
      match build(cp)
      case Some(buf) => Ok(buf)
      case None => Err(Failed)
  }

  /**
   * The intended validator differs from the written one exactly on detail meshes:
   * absent ones are accepted whenever the same descriptor with one detail mesh per
   * polygon passes the written checks, and present ones of the wrong length are rejected.
   */
  lemma IntendedDetailMeshCheck(p: CreateParams, build: ForeignBuilder)
    ensures p.detailMeshes.None? ==>
      (ParamsAcceptedIntended(p) <==>
       ParamsAccepted(p.(detailMeshes := Some(if p.polyFlags.Some? then p.polyFlags.value else 0))))
    ensures p.detailMeshes.Some? && UnpackLen(p.detailMeshes) != UnpackLen(p.polyFlags) ==>
      CreateNavMeshDataIntended(p, build) == Err(InvalidParam)
    ensures p.detailMeshes.Some? && UnpackLen(p.detailMeshes) == UnpackLen(p.polyFlags) ==>
      CreateNavMeshDataIntended(p, build) == CreateNavMeshData(p, build)
  {
  }
}
