/**
 * The Rust side of the Detour query wrappers (src/detour/query.rs). Every query itself
 * (A*, the funnel, raycasts, Dijkstra floods, wall extraction) runs in the foreign
 * `dtNavMeshQuery` and is a parameter here: a `Search` receives the capacity the
 * wrapper passes as `i32` and answers with a status word and a result count. What
 * the wrappers decide is how many results the foreign query may write, given the
 * output buffers supplied, and how its status and count become a Rust result.
 */
module DetourQuery {
  import opened Prelude
  import opened DetourBase
  import opened DetourMesh

  /** Straight-path vertex flags, `u8`s on the Rust side. */
  const DT_STRAIGHTPATH_START: bv8 := 0x01
  const DT_STRAIGHTPATH_END: bv8 := 0x02
  const DT_STRAIGHTPATH_OFFMESH_CONNECTION: bv8 := 0x04
  const DT_FINDPATH_ANY_ANGLE: bv32 := 0x02

  /** What a foreign query reports: its status word and the number of results written. */
  datatype Reply = Reply(status: bv32, count: i32)

  /** A foreign query, given the capacity it may fill (after the `as i32` cast). */
  type Search = int -> Reply

  /** `.to_result()?` followed by `Ok(count as usize)`. */
  function Finish(reply: Reply): (r: Result<nat>)
    ensures r.Ok? <==> reply.status & DT_SUCCESS != 0
    ensures r.Ok? ==> r.value == UsizeOfI32(reply.count as int)
    ensures reply.count >= 0 && r.Ok? ==> r.value == reply.count as int
    ensures r.Err? ==> ToResult(reply.status) == Err(r.error)
  {
    match ToResult(reply.status)
    case Ok(_) => Ok(UsizeOfI32(reply.count as int))
    case Err(e) => Err(e)
  }

  /**
   * `find_straight_path`: the capacity starts at the `straight_path` length and is
   * lowered to the length of each optional buffer (flags, refs) that is supplied.
   */
  method FindStraightPath(straightLen: usize, flagsLen: Option<usize>, refsLen: Option<usize>, search: Search)
    returns (r: Result<nat>, maxResult: usize)
    ensures maxResult <= straightLen
    ensures flagsLen.Some? ==> maxResult <= flagsLen.value
    ensures refsLen.Some? ==> maxResult <= refsLen.value
    ensures maxResult == straightLen || flagsLen == Some(maxResult) || refsLen == Some(maxResult)
    ensures r == Finish(search(WrapI32(maxResult as int)))
  {
    maxResult := straightLen;
    if flagsLen.Some? {
      maxResult := Min(flagsLen.value as nat, maxResult as nat) as usize;
    }
    if refsLen.Some? {
      maxResult := Min(refsLen.value as nat, maxResult as nat) as usize;
    }
    r := Finish(search(WrapI32(maxResult as int)));
  }

  /**
   * The shared capacity rule of `find_polys_around_circle` and `_shape`: starting from
   * `usize::MAX`, the minimum of the lengths of the buffers supplied. It stays
   * `usize::MAX` exactly when no buffer shorter than that is supplied.
   */
  method PolysAroundCapacity(refLen: Option<usize>, parentLen: Option<usize>, costLen: Option<usize>)
    returns (maxResult: usize)
    ensures refLen.Some? ==> maxResult <= refLen.value
    ensures parentLen.Some? ==> maxResult <= parentLen.value
    ensures costLen.Some? ==> maxResult <= costLen.value
    ensures maxResult as int == USIZE_MAX || refLen == Some(maxResult) ||
            parentLen == Some(maxResult) || costLen == Some(maxResult)
  {
    maxResult := USIZE_MAX as usize;
    if refLen.Some? {
      maxResult := Min(refLen.value as nat, maxResult as nat) as usize;
    }
    if parentLen.Some? {
      maxResult := Min(parentLen.value as nat, maxResult as nat) as usize;
    }
    if costLen.Some? {
      maxResult := Min(costLen.value as nat, maxResult as nat) as usize;
    }
  }

  /** `find_polys_around_circle`: with no output buffer at all, Ok(0) and no search. */
  method FindPolysAroundCircle(refLen: Option<usize>, parentLen: Option<usize>, costLen: Option<usize>, search: Search)
    returns (r: Result<nat>, maxResult: usize)
    ensures refLen.None? && parentLen.None? && costLen.None? ==> r == Ok(0)
    ensures maxResult as int == USIZE_MAX ==> r == Ok(0)
    ensures maxResult as int < USIZE_MAX ==> r == Finish(search(WrapI32(maxResult as int)))
    ensures refLen.Some? ==> maxResult <= refLen.value
    ensures parentLen.Some? ==> maxResult <= parentLen.value
    ensures costLen.Some? ==> maxResult <= costLen.value
    ensures maxResult as int == USIZE_MAX || refLen == Some(maxResult) ||
            parentLen == Some(maxResult) || costLen == Some(maxResult)
  {
    maxResult := PolysAroundCapacity(refLen, parentLen, costLen);
    if maxResult as int == USIZE_MAX {
      return Ok(0), maxResult;
    }
    r := Finish(search(WrapI32(maxResult as int)));
  }

  /** `find_polys_around_shape`: the same capacity rule as the circle query. */
  method FindPolysAroundShape(refLen: Option<usize>, parentLen: Option<usize>, costLen: Option<usize>, search: Search)
    returns (r: Result<nat>, maxResult: usize)
    ensures refLen.None? && parentLen.None? && costLen.None? ==> r == Ok(0)
    ensures maxResult as int == USIZE_MAX ==> r == Ok(0)
    ensures maxResult as int < USIZE_MAX ==> r == Finish(search(WrapI32(maxResult as int)))
    ensures refLen.Some? ==> maxResult <= refLen.value
    ensures parentLen.Some? ==> maxResult <= parentLen.value
    ensures costLen.Some? ==> maxResult <= costLen.value
    ensures maxResult as int == USIZE_MAX || refLen == Some(maxResult) ||
            parentLen == Some(maxResult) || costLen == Some(maxResult)
  {
    maxResult := PolysAroundCapacity(refLen, parentLen, costLen);
    if maxResult as int == USIZE_MAX {
      return Ok(0), maxResult;
    }
    r := Finish(search(WrapI32(maxResult as int)));
  }

  /**
   * `get_poly_wall_segments` as written: the capacity is the `segment_verts` length,
   * replaced by the `segment_refs` length when refs are supplied, so it exceeds the
   * vertex buffer whenever the refs buffer is longer.
   */
  method GetPolyWallSegments(vertsLen: usize, refsLen: Option<usize>, search: Search)
    returns (r: Result<nat>, maxSegments: usize)
    ensures refsLen.None? ==> maxSegments == vertsLen
    ensures refsLen.Some? ==> maxSegments == refsLen.value
    ensures refsLen.Some? && refsLen.value > vertsLen ==> maxSegments > vertsLen
    ensures r == Finish(search(WrapI32(maxSegments as int)))
  {
    maxSegments := vertsLen;
    if refsLen.Some? {
      maxSegments := refsLen.value;
    }
    r := Finish(search(WrapI32(maxSegments as int)));
  }

  /** `get_poly_wall_segments` with the capacity bounded by both buffers. */
  method GetPolyWallSegmentsBounded(vertsLen: usize, refsLen: Option<usize>, search: Search)
    returns (r: Result<nat>, maxSegments: usize)
    ensures maxSegments <= vertsLen
    ensures refsLen.Some? ==> maxSegments <= refsLen.value
    ensures maxSegments == vertsLen || refsLen == Some(maxSegments)
    ensures r == Finish(search(WrapI32(maxSegments as int)))
  {
    maxSegments := vertsLen;
    if refsLen.Some? {
      maxSegments := Min(refsLen.value as nat, maxSegments as nat) as usize;
    }
    r := Finish(search(WrapI32(maxSegments as int)));
  }

  /**
   * `find_local_neighbourhood` as written: the capacity is the `result_parent` length,
   * or 0 without one; the mandatory `result_ref` buffer's length is never consulted.
   */
  method FindLocalNeighbourhood(refLen: usize, parentLen: Option<usize>, search: Search)
    returns (r: Result<nat>, maxResult: usize)
    ensures parentLen.None? ==> maxResult == 0
    ensures parentLen.Some? ==> maxResult == parentLen.value
    ensures parentLen.Some? && parentLen.value > refLen ==> maxResult > refLen
    ensures r == Finish(search(WrapI32(maxResult as int)))
  {
    maxResult := 0;
    if parentLen.Some? {
      maxResult := parentLen.value;
    }
    r := Finish(search(WrapI32(maxResult as int)));
  }

  /** `find_local_neighbourhood` bounded by `result_ref`, and by `result_parent` when given. */
  method FindLocalNeighbourhoodBounded(refLen: usize, parentLen: Option<usize>, search: Search)
    returns (r: Result<nat>, maxResult: usize)
    ensures maxResult <= refLen
    ensures parentLen.Some? ==> maxResult <= parentLen.value
    ensures maxResult == refLen || parentLen == Some(maxResult)
    ensures r == Finish(search(WrapI32(maxResult as int)))
  {
    maxResult := refLen;
    if parentLen.Some? {
      maxResult := Min(parentLen.value as nat, maxResult as nat) as usize;
    }
    r := Finish(search(WrapI32(maxResult as int)));
  }

  /** `raycast_1`: the visited-path capacity is the path length, or 0 without a buffer. */
  method Raycast1(pathLen: Option<usize>, search: Search)
    returns (r: Result<nat>, maxPath: usize)
    ensures pathLen.None? ==> maxPath == 0
    ensures pathLen.Some? ==> maxPath == pathLen.value
    ensures r == Finish(search(WrapI32(maxPath as int)))
  {
    maxPath := 0;
    if pathLen.Some? {
      maxPath := pathLen.value;
    }
    r := Finish(search(WrapI32(maxPath as int)));
  }

  /** `raycast_2`: the previous-polygon argument, the null reference when none is given. */
  function Raycast2PrevRef(prevRef: Option<PolyRef>): (r: PolyRef)
    ensures r.IsNull() <==> prevRef.None? || prevRef.value.IsNull()
    ensures prevRef.Some? ==> r == prevRef.value
  {
    match prevRef
    case None => NULL_REF
    case Some(p) => p
  }

  /**
   * `init_sliced_find_path`: the options word is `DT_FINDPATH_ANY_ANGLE` exactly when
   * any-angle search is asked for, and 0 otherwise; `init` is the foreign call.
   */
  method InitSlicedFindPath(anyAngle: bool, init: bv32 -> bv32)
    returns (r: Result<()>, options: bv32)
    ensures options & DT_FINDPATH_ANY_ANGLE != 0 <==> anyAngle
    ensures options & !DT_FINDPATH_ANY_ANGLE == 0
    ensures r == ToResult(init(options))
  {
    options := 0;
    if anyAngle {
      options := DT_FINDPATH_ANY_ANGLE;
    }
    r := ToResult(init(options));
  }

  /** `dtQueryFilter`: a traversal cost per area and include/exclude polygon flag masks. */
  datatype QueryFilter = QueryFilter(areaCost: seq<real>, includeFlags: bv16, excludeFlags: bv16)

  /**
   * The filter's flag rule: a polygon passes when it has at least one included flag
   * and no excluded one.
   */
  predicate FlagsPass(filter: QueryFilter, polyFlags: bv16) {
    polyFlags & filter.includeFlags != 0 && polyFlags & filter.excludeFlags == 0
  }

  /**
   * Exclusion wins over inclusion: a polygon without flags never passes, one carrying
   * an excluded flag fails whatever is included, and with nothing excluded a polygon
   * passes exactly when it shares a flag with the include mask.
   */
  lemma FlagsPassRule(filter: QueryFilter, polyFlags: bv16)
    ensures polyFlags == 0 ==> !FlagsPass(filter, polyFlags)
    ensures polyFlags & filter.excludeFlags != 0 ==> !FlagsPass(filter, polyFlags)
    ensures filter.excludeFlags == 0 ==>
      (FlagsPass(filter, polyFlags) <==> polyFlags & filter.includeFlags != 0)
  {
  }

  /** `DtQueryFilter::default()`: unit cost for every area, all flags included, none excluded. */
  function DefaultFilter(): (f: QueryFilter)
    ensures |f.areaCost| == DT_MAX_AREAS
    ensures forall i :: 0 <= i < |f.areaCost| ==> f.areaCost[i] == 1.0
    ensures forall flags: bv16 :: FlagsPass(f, flags) <==> flags != 0
  {
    QueryFilter(seq(DT_MAX_AREAS, _ => 1.0), 0xffff, 0)
  }
}
