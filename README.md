# recastnavigation-rs: a verified model of the Rust-side logic

recastnavigation-rs wraps the Recast (navigation-mesh generation) and Detour
(path-finding) C++ libraries for Rust. The geometry itself is built and searched in
C++ behind `cxx` bridges. The Rust crate adds its own small pieces of integer and
bit-level logic, and this project models those pieces and proves their properties:

- **Detour status words** (`DetourBase`). The packed 32-bit status is decoded into
  Ok, InProgress or one error variant, with a fixed precedence. The module also has
  the integer bounding-box overlap test.
- **Tile-builder validation** (`DetourBuilder`). `dt_create_nav_mesh_data` and
  `CxxDtNavMeshCreateParams::from` derive counts from optional slices and reject bad
  descriptors with `InvalidParam` before the foreign builder runs.
- **Packed bitfields** (`RecastBits`). Height-field spans, compact cells and compact
  spans keep their fields in one `u32`. The getters are functions on the word. The
  setters are methods on classes that hold the word, because the Rust setters
  update `bits` in place. The module also has the guarded views of the height field
  and the compact height field.
- **Tile vocabulary** (`DetourMesh`). This covers the magic numbers, the null
  reference and the null-link sentinel, the polygon type, link records, and the
  header-gated array views of a mesh tile.
- **Query capacity rules** (`DetourQuery`). Each query wrapper works out how many
  results the foreign query may write from the output buffers it was given. It then
  turns the foreign status and count into a Rust result.
- **Path-following helpers** of the query tests (`PathFollow`). These are the corridor
  shortcut fix-up, the skip over an off-mesh connection, and the steering-target scan.
  All three are in-place loops over arrays of polygon references.
- **Tile budget** (`TileBudget`). `next_pow2`, `ilog2`, the tile-grid ceiling
  division and the split of the 22 reference bits between tiles and polygons.
- **Area and flag assignment** (`AreaFlags`). The loop that rewrites a polygon mesh's
  `areas` and `flags` arrays before the Detour build.

Each foreign call is a parameter: a `Search`, `ForeignBuilder`, `lookup` or `init`
function value. The model claims nothing about what happens on the C++ side, with one
exception: `DetourQuery.FlagsPass` states Detour's `dtQueryFilter::passFilter` flag rule,
which the Rust `pass_filter` reaches only through the bridge (see "## Left out").

## Model

| member | source | states |
|---|---|---|
| Prelude.WrapI32 | src/detour/builder.rs:74-76 | `x as i32` (and wrapping `i32` arithmetic): the result is an `i32` congruent to x modulo 2^32, and x itself when x already fits |
| Prelude.UsizeOfI32 | src/detour/mesh.rs:435-439 | `i32 as usize`: non-negative values are kept, negative ones land in the top 2^31 values of `usize` |
| DetourBase.ToResult | src/detour/base.rs:34-53 | Ok exactly when the success bit is set, whatever else is set. Otherwise, with the failure bit, a detail field equal to one single-bit code gives that code's error and any other detail gives Failed. Otherwise in-progress gives InProgress, and a status with none of the three bits gives Failed |
| DetourBase.DetailCode | src/detour/base.rs:61-69 | each detail error's code is one of the eight detail codes |
| DetourBase.SingleDetailCodeIsOneLowBit | src/detour/base.rs:61-69 | a detail field is one of the eight codes exactly when it has a single bit set, among the low eight |
| DetourBase.FailureCodeRoundTrip | src/detour/base.rs:37-46 | a failure status carrying a detail error's code decodes back to that error, whatever bits outside success and the detail field it also carries |
| DetourBase.SuccessDominates | src/detour/base.rs:34-36 | a success status still decodes to Ok with the failure, in-progress and every detail bit added |
| DetourBase.OverlapBounds | src/detour/base.rs:238-257 | the result is true iff on every axis amin ≤ bmax and amax ≥ bmin, and it is symmetric in the two boxes |
| DetourMesh.FourCC | src/detour/mesh.rs:13-16 | the four characters are packed most-significant first: each comes back as its own byte of the word |
| DetourMesh.MagicValues | src/detour/mesh.rs:13-16 | `DNAV` packs to 0x444E4156 and `DNMS` to 0x444E4D53 |
| DetourMesh.PolyRef.IsNull | src/detour/mesh.rs:157-160 | `is_null` holds exactly for the reference with raw value 0 |
| DetourMesh.NullRefIsUnique | src/detour/mesh.rs:157-160 | `is_null` holds exactly for the reference whose raw value is 0 |
| DetourMesh.PolyTypeOf | src/detour/mesh.rs:202-209 | the raw type 1 is an off-mesh connection, and every other raw value is ground |
| DetourMesh.ViewLen | src/detour/mesh.rs:435-529 | every array view's length is its header count, cast with `as usize`, and 0 without a header |
| DetourMesh.Polys | src/detour/mesh.rs:435-439 | `polys()` has length `poly_count` and holds the first polygons of the tile's memory; it is empty without a header |
| DetourMesh.Links | src/detour/mesh.rs:459-463 | `links()` has length `max_link_count` and holds the first links; it is empty without a header |
| DetourMesh.Data | src/detour/mesh.rs:531-537 | `data()` is empty for a null pointer, otherwise the first `data_size` bytes |
| DetourBuilder.UnpackPtr | src/detour/builder.rs:70-72 | the pointer is non-null exactly when the slice is present |
| DetourBuilder.UnpackLen | src/detour/builder.rs:74-76 | 0 for an absent slice, the length for one shorter than 2^31, and the length wrapped to `i32` in general |
| DetourBuilder.FromParams | src/detour/builder.rs:131-170 | the vertex count comes from `verts`, the polygon count from `poly_flags`, the off-mesh count from `off_mesh_con_verts`, and `nvp` is cast to `i32`; the identifiers are copied |
| DetourBuilder.CreateNavMeshData | src/detour/builder.rs:173-226 | a descriptor outside the accepted set gives InvalidParam before the foreign builder runs. An accepted one gives the builder's buffer, or Failed when the builder reports failure |
| DetourBuilder.VertexCountOutOfRangeRejected | src/detour/builder.rs:176-178 | absent verts, or fewer than 3, or at least 0xFFFF (below 2^31), give InvalidParam |
| DetourBuilder.NoPolyFlagsRejected | src/detour/builder.rs:180-182 | absent or empty `poly_flags` give InvalidParam |
| DetourBuilder.NoOffMeshConnectionsAgree | src/detour/builder.rs:202-216 | with every off-mesh array absent, the count is 0 and the off-mesh checks pass |
| DetourBuilder.DetailMeshesMandatory | src/detour/builder.rs:196-200 | as written, absent detail meshes always give InvalidParam |
| DetourBuilder.DetailMeshCheckAsWritten | src/detour/builder.rs:196-200 | one valid triangle with absent detail meshes is rejected, and the same triangle with an empty detail-mesh slice is accepted |
| DetourBuilder.CreateNavMeshDataIntended | src/detour/builder.rs:196-200 | the validator with the detail test guarded by "present": every rejection is InvalidParam before the builder runs, and acceptance forwards the builder's outcome |
| DetourBuilder.IntendedDetailMeshCheck | src/detour/builder.rs:196-200 | the intended validator accepts absent detail meshes exactly when the written one accepts the descriptor with one detail mesh per polygon. It rejects present ones of the wrong length, and agrees with the written validator on present ones of the right length |
| RecastBits.SpanConstantsDerived | src/recast/recast.rs:518-522 | the literal span masks and offsets are the ones derived from the 13-bit height |
| RecastBits.SpanMasksPartition | src/recast/recast.rs:518-522 | the smin, smax and area masks are pairwise disjoint and together cover all 32 bits |
| RecastBits.SpanSmin | src/recast/recast.rs:526-529 | smin is at most 0x1FFF |
| RecastBits.SpanSmax | src/recast/recast.rs:536-539 | smax is at most 0x1FFF |
| RecastBits.SpanArea | src/recast/recast.rs:546-549 | the area is below 64 |
| RecastBits.RcSpan.Smin | src/recast/recast.rs:526-529 | the span's smin is at most 0x1FFF |
| RecastBits.RcSpan.Smax | src/recast/recast.rs:536-539 | the span's smax is at most 0x1FFF |
| RecastBits.RcSpan.Area | src/recast/recast.rs:546-549 | the span's area is below 64 |
| RecastBits.SpanFieldsDetermineBits | src/recast/recast.rs:518-522 | two span words with equal smin, smax and area are equal |
| RecastBits.SpanSetSmin | src/recast/recast.rs:531-534 | the new smin is the value's low 13 bits, and smax and area are unchanged |
| RecastBits.SpanSetSmaxAsWritten | src/recast/recast.rs:541-544 | as written, smax always reads 0x1FFF afterwards. smin is unchanged, and the area gains the value's bits 13..18 (so it is unchanged for values below 2^13) |
| RecastBits.SpanSetSmax | src/recast/recast.rs:541-544 | the corrected setter: the new smax is the value's low 13 bits, and smin and area are unchanged |
| RecastBits.SpanSetSmaxAsWrittenLosesValue | src/recast/recast.rs:541-544 | storing 5 reads back 0x1FFF as written and 5 when corrected |
| RecastBits.SpanSetArea | src/recast/recast.rs:551-554 | the new area is the value's low six bits (the value itself below 64), and smin and smax are unchanged |
| RecastBits.RcSpan.SetSmin | src/recast/recast.rs:531-534 | the word becomes `SpanSetSmin` of the old word |
| RecastBits.RcSpan.SetSmax | src/recast/recast.rs:541-544 | the word becomes `SpanSetSmaxAsWritten` of the old word |
| RecastBits.RcSpan.SetArea | src/recast/recast.rs:551-554 | the word becomes `SpanSetArea` of the old word |
| RecastBits.Low24 | src/recast/recast.rs:740-743 | the cell index (and, at recast.rs:795-798, the span connections) is at most 0xFFFFFF |
| RecastBits.High8 | src/recast/recast.rs:750-753 | the cell count (and, at recast.rs:805-808, the span height) is at most 0xFF |
| RecastBits.CompactMasksPartition | src/recast/recast.rs:734-736 | the 24-bit low mask and the top byte are disjoint and cover the word, and `!(0xFF << 24)` is the low mask |
| RecastBits.CompactFieldsDetermineBits | src/recast/recast.rs:734-736 | two words with equal low and high fields are equal |
| RecastBits.WithLow24 | src/recast/recast.rs:745-748 | `set_index` and `set_con`: the low field becomes the value's low 24 bits, and the top byte is unchanged |
| RecastBits.WithHigh8AsWritten | src/recast/recast.rs:755-758 | as written, `set_count` and `set_h` OR the value's low byte into the old top byte and clear the low byte of the 24-bit field |
| RecastBits.WithHigh8 | src/recast/recast.rs:755-758 | the corrected setter: the top byte becomes the value's low byte, and the 24-bit field is unchanged |
| RecastBits.WithHigh8AsWrittenMixesValues | src/recast/recast.rs:755-758 | a cell with index 0x123 and count 1, given count 2, reads back count 3 and index 0x100 as written, and count 2 and index 0x123 when corrected |
| RecastBits.RcCompactCell.Index | src/recast/recast.rs:740-743 | the cell's index fits in 24 bits |
| RecastBits.RcCompactCell.Count | src/recast/recast.rs:750-753 | the cell's count fits in 8 bits |
| RecastBits.RcCompactCell.SetIndex | src/recast/recast.rs:745-748 | the word becomes `WithLow24` of the old word |
| RecastBits.RcCompactCell.SetCount | src/recast/recast.rs:755-758 | the word becomes `WithHigh8AsWritten` of the old word |
| RecastBits.RcCompactSpan.Con | src/recast/recast.rs:795-798 | the span's connection field fits in 24 bits |
| RecastBits.RcCompactSpan.H | src/recast/recast.rs:805-808 | the span's height field fits in 8 bits |
| RecastBits.RcCompactSpan.SetCon | src/recast/recast.rs:800-803 | the word becomes `WithLow24` of the old word; `y` and `reg` are unchanged |
| RecastBits.RcCompactSpan.SetH | src/recast/recast.rs:810-813 | the word becomes `WithHigh8AsWritten` of the old word; `y` and `reg` are unchanged |
| RecastBits.ColumnBound | src/recast/recast.rs:688 | `(width * height) as usize` is the product whenever the product fits in `i32` |
| RecastBits.GetSpan | src/recast/recast.rs:687-697 | Some exactly when the index is below the column bound and the column head is non-null, with that head as the value; an index at or past a representable `width * height` gives None |
| RecastBits.SpanCount | src/recast/recast.rs:922-925 | `span_count as usize` is the count when it is non-negative |
| RecastBits.Cells | src/recast/recast.rs:927-930 | `cells()` holds the first `width * height` cells |
| RecastBits.Spans | src/recast/recast.rs:937-940 | `spans()` holds the first `span_count` spans |
| RecastBits.Dist | src/recast/recast.rs:947-955 | `dist()` is empty while the pointer is null, otherwise the first `span_count` distances |
| RecastBits.Areas | src/recast/recast.rs:967-970 | `areas()` holds the first `span_count` area ids |
| DetourQuery.Finish | src/detour/query.rs:522-523 | `.to_result()?` then `count as usize`: Ok exactly when the status has the success bit, with the sign-extended count. Otherwise it gives the error that `to_result` gives |
| DetourQuery.FindStraightPath | src/detour/query.rs:493-505 | the capacity is the minimum of the `straight_path` length and the lengths of the flag and ref buffers that are supplied, and is one of them. The result is the foreign answer for that capacity cast to `i32` |
| DetourQuery.PolysAroundCapacity | src/detour/query.rs:597-615 | starting from `usize::MAX`, the capacity is at most every supplied buffer's length and equals one of them unless it stays `usize::MAX` |
| DetourQuery.FindPolysAroundCircle | src/detour/query.rs:597-636 | with no buffer, Ok(0) without searching. Otherwise the capacity is the minimum supplied length and the result is the foreign answer |
| DetourQuery.FindPolysAroundShape | src/detour/query.rs:648-687 | the same rule as the circle query |
| DetourQuery.GetPolyWallSegments | src/detour/query.rs:924-930 | as written, the capacity is the `segment_verts` length, replaced by the `segment_refs` length when refs are given, so it exceeds the vertex buffer when the refs buffer is longer |
| DetourQuery.GetPolyWallSegmentsBounded | src/detour/query.rs:924-930 | the corrected capacity is at most both buffer lengths and equal to one of them |
| DetourQuery.FindLocalNeighbourhood | src/detour/query.rs:779-784 | as written, the capacity is the `result_parent` length, or 0 without it. The `result_ref` length is ignored, so the capacity exceeds it when the parent buffer is longer |
| DetourQuery.FindLocalNeighbourhoodBounded | src/detour/query.rs:779-784 | the corrected capacity is at most the `result_ref` length and the parent length, and equal to one of them |
| DetourQuery.Raycast1 | src/detour/query.rs:839-844 | the capacity is the path length, or 0 without a buffer |
| DetourQuery.Raycast2PrevRef | src/detour/query.rs:884 | the previous reference passed is the given one, or the null reference when none is given |
| DetourQuery.InitSlicedFindPath | src/detour/query.rs:535-538 | the options word has the any-angle bit exactly when `any_angle` is true, and no other bit |
| DetourQuery.DefaultFilter | src/detour/query.rs:318-326 | 64 area costs of 1.0, include mask 0xffff and exclude mask 0, so under the `FlagsPass` rule a polygon passes exactly when it has some flag set |
| DetourQuery.FlagsPassRule | src/detour/query.rs:328-331 | under Detour's flag rule, a polygon without flags never passes, an excluded flag fails it whatever is included, and with nothing excluded it passes exactly when it shares a flag with the include mask |
| PathFollow.ChainRefs | tests/query.rs:670-680 | the references along a link chain are all non-null, and there are at most as many as the chain's steps |
| PathFollow.ChainRefsFuelIrrelevant | tests/query.rs:670-680 | the collected references do not depend on the step bound used to show the chain ends |
| PathFollow.Neighbours | tests/query.rs:670-680 | the neighbours are the first min(16, n) references of the chain, in chain order |
| PathFollow.CollectNeighbours | tests/query.rs:667-680 | the walk until `DT_NULL_LINK` fills a fresh 16-slot array whose first `nneis` entries are exactly `Neighbours` |
| PathFollow.CutFrom | tests/query.rs:682-692 | the cut is 0 or an index in [2, i] holding a neighbour, with no neighbour at a larger index up to i |
| PathFollow.Cut | tests/query.rs:682-684 | the cut is 0 or lies in [2, min(6, len) − 1] |
| PathFollow.FindCut | tests/query.rs:682-692 | the nested backward search returns exactly `Cut` of the path and the collected neighbours |
| PathFollow.Offset | tests/query.rs:695-696 | the shift distance is cut − 1 for a cut above 1, else 0 |
| PathFollow.ShortcutAsWritten | tests/query.rs:694-701 | as written, the first len − offset entries become `path[offset..]` and the tail keeps its old entries |
| PathFollow.ShortcutKeepingStart | tests/query.rs:694-701 | the corrected shift keeps entry 0, follows it with `path[cut..]`, and leaves the tail as it was; without a cut the path is unchanged |
| PathFollow.ShortcutLengthBounds | tests/query.rs:694-703 | the returned length lies between len − 4 and len, and is at least 2 |
| PathFollow.ShiftFrom0 | tests/query.rs:698-700 | the in-place loop from index 0 produces `ShortcutAsWritten` |
| PathFollow.ShiftFrom1 | tests/query.rs:698-700 | the in-place loop from index 1 produces `ShortcutKeepingStart` |
| PathFollow.FixupShortcuts | tests/query.rs:654-704 | shorter than 3, or an unresolvable first polygon: the length is returned and the path is untouched. Otherwise the length is len − Offset(Cut) and the path becomes `ShortcutAsWritten` |
| PathFollow.FixupShortcutsKeepingStart | tests/query.rs:654-704 | the same, with the corrected shift `ShortcutKeepingStart` |
| PathFollow.ShortcutAsWrittenDropsStart | tests/query.rs:698-700 | as written, a taken shortcut puts the polygon before the cut at index 0 and the neighbour at index 1, so the corridor start is lost |
| PathFollow.ShortcutAsWrittenExample | tests/query.rs:682-701 | corridor 1, 2, 3 with 3 neighbouring 1: the cut is 2, giving 2, 3 as written and 1, 3 when corrected |
| PathFollow.ShortcutKeepsAdjacency | tests/query.rs:694-701 | the corrected fix-up keeps the start, follows it by a neighbour of the start when a shortcut is taken, and drops exactly the entries between |
| PathFollow.ScanFrom | tests/query.rs:553-557 | the scan ends at the reference bound or with the current reference equal to the steer reference, and a state already on the steer reference stays |
| PathFollow.Scan | tests/query.rs:551-557 | from (0, null, polys[0]): npos ≤ npolys, and either npos = npolys or `poly_ref` is the steer reference |
| PathFollow.ScanFindsSteer | tests/query.rs:551-557 | when the first occurrence of the steer reference is at j ≥ 1, the scan ends with npos = j + 1, `prev_ref` = polys[j − 1] and `poly_ref` = the steer reference |
| PathFollow.ScanFromFirst | tests/query.rs:553-557 | the inductive step of `ScanFindsSteer`, from any intermediate state |
| PathFollow.ScanMissesSteer | tests/query.rs:551-557 | without the steer reference, the scan consumes every reference and ends on the last one |
| PathFollow.ScanMissesFrom | tests/query.rs:553-557 | the inductive step of `ScanMissesSteer` |
| PathFollow.SkipOffMeshPrefix | tests/query.rs:550-562 | returns `Scan`'s `prev_ref` and `poly_ref` and npolys − npos. The array's front becomes the remaining references in order, and the rest is as the shift left it |
| PathFollow.SteerStop | tests/query.rs:626-634 | the first index from ns below the count at which the point is an off-mesh connection or out of range, or the count when there is none |
| PathFollow.ScanSteerPoints | tests/query.rs:626-634 | the loop with `break` stops exactly at `SteerStop` from 0 |
| PathFollow.GetSteerTargetAsWritten | tests/query.rs:596-645 | no target exactly on an error or a zero count. As written, a scan through every point selects the slot at `steer_count`, and panics when that slot is past the three-entry buffer |
| PathFollow.SteerScanRunsPastPoints | tests/query.rs:626-637 | with two in-range ground points the scan stops at index 2, a slot that was never written; with three it stops at 3 |
| PathFollow.GetSteerTarget | tests/query.rs:596-645 | with the guard `ns >= steer_count`, a target is always a found point: the first off-mesh or out-of-range one. No target exactly on an error, a zero count or no stopping point |
| TileBudget.Sar | tests/tile_mesh.rs:320-324 | Rust's `>>` on `i32` is the logical shift on non-negative values and copies the sign bit otherwise |
| TileBudget.NextPow2 | tests/tile_mesh.rs:318-327 | for 1 ≤ v ≤ 2^30 the result is a power of two p with v ≤ p < 2v, and v itself exactly when v is a power of two. 0 ↦ 0; v in (2^30, 2^31] gives `i32::MIN`, and every other negative v gives 0 |
| TileBudget.ILog2 | tests/tile_mesh.rs:329-350 | for a positive v the result r satisfies v >> r = 1, that is 2^r ≤ v < 2^(r+1); 0 ↦ 0 |
| TileBudget.TileCount | tests/tile_mesh.rs:44-46 | the tile count is the ceiling division: (tw − 1)·ts < grid ≤ tw·ts for a non-empty grid, and 0 for an empty one |
| TileBudget.Budget | tests/tile_mesh.rs:48-55 | tile and poly bits sum to 22 and tile bits are at most 14 (barring the `i32::MIN` wrap). Up to 2^14 tiles, `max_tiles` holds every tile with less than twice the room; beyond that it is 2^14 |
| TileBudget.Shift | tests/tile_mesh.rs:54-55 | the shift amount of `1 << n` is taken modulo 32, and is n itself below 32 |
| AreaFlags.AreaAfter | tests/solo_mesh.rs:214-216 | the final area is never the generic walkable area: it becomes Ground, and every other area is kept |
| AreaFlags.FlagsFor | tests/solo_mesh.rs:217-226 | Ground, Grass and Road get Walk; Water gets Swim; Door gets 0x05; any other area keeps its flags |
| AreaFlags.DoorFlagsAreWalkAndDoor | tests/common/mod.rs:20-28 | the Walk flag combined with the Door flag is 0x05 |
| AreaFlags.WalkableBecomesWalkableGround | tests/solo_mesh.rs:214-221 | a walkable polygon ends as Ground with exactly the Walk flag |
| AreaFlags.AssignAreaFlags | tests/tile_mesh.rs:278-292 | each polygon's area becomes `AreaAfter` and its flags `FlagsFor` of that area; no area is left walkable, every other area is unchanged, and Jump polygons keep their flags |

## Left out

- Every foreign call is a function-valued parameter, and its result is taken as given. This covers the C++ query bodies (A*, the funnel, raycasts, Dijkstra floods, wall extraction), the tile builder and tile lookups, `dtp_getType`, and the Recast pipeline (`rc_*`). `nav_mesh.get_tile_and_poly_by_ref` becomes `lookup`.
- DetourQuery.FlagsPass: the include/exclude rule of Detour's `dtQueryFilter::passFilter` is taken as given, because its C++ body is not part of this model. The Rust `pass_filter` only forwards to it, and `DefaultFilter`'s flag clause and `FlagsPassRule` rest on this rule.
- Floating point and the `in_range` distance test are left out. `in_range` arrives as one boolean per steer point, and the default filter's costs are reals.
- The Rust wrappers' pointer plumbing (`as_ptr`, `Pin`, `Drop`, `Deref`) and the `*_mut` twins of each view are left out, because the twins compute the same lengths as the read-only views.
- Integer overflow follows release-mode wrapping (`as i32`, `i32` products, `1 << n` modulo 32). Debug builds would panic at these points instead.
- PathFollow.FixupShortcuts: requires that the first polygon's link chain reach `DT_NULL_LINK` within the ghost bound `fuel`. This assumes a well-formed link table, because a cyclic chain makes the source loop forever and a stray index makes it panic.
- PathFollow.SkipOffMeshPrefix: requires a non-empty array, because the source reads `polys[0]` before the loop and would panic on an empty one.
- PathFollow.GetSteerTarget and GetSteerTargetAsWritten take the `find_straight_path` outcome as a value, so the straight path's positions are not modelled. A count above the three-slot capacity is treated as a panic, for the `steer_path[0..steer_count]` slice.
- TileBudget.TileCount: requires a tile size of at least 1 (Rust panics on division by zero) and no `i32` overflow in `grid + ts - 1`. The float-to-int cast of the tile size is not modelled.
- TileBudget.Budget takes `tw * th` as its `i32` bit pattern, so the multiplication itself is not modelled.
- TileBudget.ILog2 states nothing for negative inputs, where the arithmetic shifts give a negative result. `Budget` meets one only for the `i32::MIN` that `next_pow2` returns above 2^30 tiles; that case is the exception in `Budget`'s first ensures.
- RecastBits.GetSpan: requires the column array to cover every index below `width * height`, the memory the raw pointer is trusted to point at. The `next` pointer of a span and the span pool are not modelled.
- RecastBits.RcSpan, RcCompactCell and RcCompactSpan: the setter methods state the new word through the bitfield functions. The field-level facts are proved about those functions rather than restated per method.
- DetourMesh: tile add and remove, reference encoding and decoding, state storage and endian swapping are foreign, and the float header fields are not modelled.
- DetourBuilder: the float fields of the descriptor are copied through unchanged and are not modelled. `CreateParams` records only each slice's presence and length.
- The demo and test harness I/O, the crowd and path-corridor wrappers, and the off-mesh end-point lookup after the prefix skip are left out, because they only forward to C++.

## Findings

| source | as written | input that shows it | evidently intended | confidence | as-written member | corrected member |
|---|---|---|---|---|---|---|
| src/recast/recast.rs:541-544 | `set_smax` ORs the whole smax mask into the word instead of masking the shifted value | `set_smax(5)` on a zero word: `smax()` reads 0x1FFF | the smax field becomes the value's low 13 bits, the other fields kept | high, not executed | RecastBits.SpanSetSmaxAsWritten | RecastBits.SpanSetSmax |
| src/recast/recast.rs:755-758 | `set_count` (and `set_h`, recast.rs:810-813) masks with `!0xFF`, clearing the low byte of the 24-bit field and keeping the old top byte | cell 0x0100_0123 (index 0x123, count 1), `set_count(2)`: count reads 3, index 0x100 | clear the top byte (`!(0xFF << 24)`) before ORing the shifted value in | high, not executed | RecastBits.WithHigh8AsWritten | RecastBits.WithHigh8 |
| tests/query.rs:635 | the guard `ns > steer_count` can never hold, because the scan stops at `ns ≤ steer_count` | two in-range ground points: ns = 2 selects the unwritten third slot; three points: index 3 is outside the three-slot buffer (panic) | `ns >= steer_count` returns None when no point stops the scan | high, not executed | PathFollow.GetSteerTargetAsWritten | PathFollow.GetSteerTarget |
| src/detour/builder.rs:196-200 | the detail-mesh length test runs only when the pointer is null, so absent detail meshes are always rejected and present ones are never checked | one triangle with `detail_meshes` absent gives InvalidParam, and with an empty slice it gives Ok | test the length only when detail meshes are present, leaving them optional | medium, not executed | DetourBuilder.DetailMeshCheckAsWritten | DetourBuilder.CreateNavMeshDataIntended |
| src/detour/query.rs:924-930 | the capacity takes the `segment_refs` length instead of the minimum with `segment_verts` | `segment_verts` of length 1 and `segment_refs` of length 4: the capacity is 4 | the minimum of the two lengths | high, not executed | DetourQuery.GetPolyWallSegments | DetourQuery.GetPolyWallSegmentsBounded |
| src/detour/query.rs:779-784 | the capacity is the `result_parent` length, or 0, ignoring `result_ref` | `result_ref` of length 2 with `result_parent` of length 8 gives capacity 8; with no parent buffer it is 0, so nothing can be returned | the minimum of the `result_ref` length and the parent length when given | high, not executed | DetourQuery.FindLocalNeighbourhood | DetourQuery.FindLocalNeighbourhoodBounded |
| tests/query.rs:698-700 | the shift runs from index 0, overwriting the corridor's first polygon | corridor 1, 2, 3 whose polygon 3 neighbours polygon 1: the result is 2, 3 | shift from index 1, giving 1, 3 | medium, not executed | PathFollow.FixupShortcuts | PathFollow.FixupShortcutsKeepingStart |
