/**
 * The area-to-flag pass that both sample builds (tests/solo_mesh.rs and
 * tests/tile_mesh.rs) run over a Recast polygon mesh before handing it to Detour:
 * the generic walkable area becomes Ground, and each polygon's flags are set from its
 * area. The pass rewrites the mesh's `areas` and `flags` arrays in place, one polygon
 * at a time. The area and flag values are the sample enums of tests/common/mod.rs.
 */
module AreaFlags {
  import opened Prelude
  import opened RecastBits

  // `SamplePolyAreas`.
  const AREA_GROUND: u8 := 0
  const AREA_WATER: u8 := 1
  const AREA_ROAD: u8 := 2
  const AREA_DOOR: u8 := 3
  const AREA_GRASS: u8 := 4
  const AREA_JUMP: u8 := 5

  // `SamplePolyFlags`.
  const FLAG_WALK: u16 := 0x01
  const FLAG_SWIM: u16 := 0x02
  const FLAG_DOOR: u16 := 0x04
  const FLAG_JUMP: u16 := 0x08
  const FLAG_DISABLED: u16 := 0x10
  const FLAG_ALL: u16 := 0xff

  /** The area a polygon ends with: the walkable area is renamed Ground. */
  function AreaAfter(area: u8): (a: u8)
    ensures a != RC_WALKABLE_AREA
    ensures area != RC_WALKABLE_AREA ==> a == area
    ensures area == RC_WALKABLE_AREA ==> a == AREA_GROUND
  {
    if area == RC_WALKABLE_AREA then AREA_GROUND else area
  }

  /**
   * The flags a polygon ends with, from its final area: walkable ground, grass and
   * road; swimmable water; walkable doors; anything else keeps its flags.
   */
  function FlagsFor(area: u8, flags: u16): (f: u16)
    ensures area == AREA_GROUND || area == AREA_GRASS || area == AREA_ROAD ==> f == FLAG_WALK
    ensures area == AREA_WATER ==> f == FLAG_SWIM
    ensures area == AREA_DOOR ==> f == 0x05
    ensures area > AREA_GRASS ==> f == flags
  {
    if area == AREA_GROUND || area == AREA_GRASS || area == AREA_ROAD then FLAG_WALK
    else if area == AREA_WATER then FLAG_SWIM
    else if area == AREA_DOOR then 0x05
    else flags
  }

  /** `Walk | Door` is 0x05: the two flags are distinct single bits. */
  lemma DoorFlagsAreWalkAndDoor()
    ensures (FLAG_WALK as bv16 | FLAG_DOOR as bv16) as int == 0x05
  {
  }

  /** A walkable polygon ends as walkable Ground, whatever its flags were. */
  lemma WalkableBecomesWalkableGround(flags: u16)
    ensures AreaAfter(RC_WALKABLE_AREA) == AREA_GROUND
    ensures FlagsFor(AreaAfter(RC_WALKABLE_AREA), flags) == FLAG_WALK
  {
  }

  /**
   * The pass over `npolys` polygons, `areas` and `flags` being the mesh's two
   * per-polygon arrays.
   */
  method AssignAreaFlags(areas: array<u8>, flags: array<u16>)
    requires areas.Length == flags.Length
    modifies areas, flags
    ensures forall i :: 0 <= i < areas.Length ==>
      areas[i] == AreaAfter(old(areas[i])) && flags[i] == FlagsFor(areas[i], old(flags[i]))
    ensures forall i :: 0 <= i < areas.Length ==> areas[i] != RC_WALKABLE_AREA
    ensures forall i :: 0 <= i < areas.Length && old(areas[i]) != RC_WALKABLE_AREA ==> areas[i] == old(areas[i])
    ensures forall i :: 0 <= i < areas.Length && old(areas[i]) == AREA_JUMP ==> flags[i] == old(flags[i])
  {
    for i := 0 to areas.Length
      invariant forall m :: 0 <= m < i ==>
        areas[m] == AreaAfter(old(areas[m])) && flags[m] == FlagsFor(areas[m], old(flags[m]))
      invariant forall m :: i <= m < areas.Length ==> areas[m] == old(areas[m]) && flags[m] == old(flags[m])
    {
      if areas[i] == RC_WALKABLE_AREA {
        areas[i] := AREA_GROUND;
      }
      if areas[i] == AREA_GROUND || areas[i] == AREA_GRASS || areas[i] == AREA_ROAD {
        flags[i] := FLAG_WALK;
      } else if areas[i] == AREA_WATER {
        flags[i] := FLAG_SWIM;
      } else if areas[i] == AREA_DOOR {
        flags[i] := (FLAG_WALK as bv16 | FLAG_DOOR as bv16) as u16;
      }
    }
  }
}
