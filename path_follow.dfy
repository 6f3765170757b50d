/**
 * The path-following helpers of the query tests (tests/query.rs): the corridor
 * shortcut fix-up, the off-mesh prefix skip, and the steering-target scan. Each works
 * step by step on a fixed array of polygon references and is modelled as a method
 * with loops, proved against the specification functions beside it. Floating-point
 * tests (`in_range`) and the foreign queries are parameters.
 */
module PathFollow {
  import opened Prelude
  import opened DetourBase
  import opened DetourMesh
  import opened DetourQuery

  const MAX_NEIS: nat := 16
  const MAX_LOOK_AHEAD: nat := 6
  const MAX_STEER_POINTS: nat := 3

  /**
   * What the fix-up reads from `get_tile_and_poly_by_ref(path[0])`: the tile's link
   * table (`tile.links()`) and the polygon's `first_link`.
   */
  datatype TilePoly = TilePoly(links: seq<Link>, firstLink: u32)

  /**
   * The link chain from `k` reaches `DT_NULL_LINK` within `fuel` steps, every index on
   * the way inside the link table. A chain that does not (a cycle, a stray index)
   * makes the source loop forever or panic.
   */
  ghost predicate ChainEnds(links: seq<Link>, k: u32, fuel: nat)
    decreases fuel
  {
    k == DT_NULL_LINK ||
    (k as int < |links| && fuel > 0 && ChainEnds(links, links[k as int].next, fuel - 1))
  }

  /** The non-null neighbour references met along the chain, in chain order. */
  ghost function ChainRefs(links: seq<Link>, k: u32, fuel: nat): (refs: seq<PolyRef>)
    requires ChainEnds(links, k, fuel)
    ensures forall i :: 0 <= i < |refs| ==> !refs[i].IsNull()
    ensures |refs| <= fuel
    decreases fuel
  {
    if k == DT_NULL_LINK then []
    else
      var link := links[k as int];
      (if link.ref.IsNull() then [] else [link.ref]) + ChainRefs(links, link.next, fuel - 1)
  }

  /** The references do not depend on how much fuel proved that the chain ends. */
  lemma {:induction false} ChainRefsFuelIrrelevant(links: seq<Link>, k: u32, f1: nat, f2: nat)
    requires ChainEnds(links, k, f1) && ChainEnds(links, k, f2)
    ensures ChainRefs(links, k, f1) == ChainRefs(links, k, f2)
    decreases f1
  {
    if k != DT_NULL_LINK {
      ChainRefsFuelIrrelevant(links, links[k as int].next, f1 - 1, f2 - 1);
    }
  }

  /** The neighbours the fix-up keeps: the first `MAX_NEIS` chain references. */
  ghost function Neighbours(tp: TilePoly, fuel: nat): (neis: seq<PolyRef>)
    requires ChainEnds(tp.links, tp.firstLink, fuel)
    ensures |neis| == Min(MAX_NEIS, |ChainRefs(tp.links, tp.firstLink, fuel)|)
    ensures neis == ChainRefs(tp.links, tp.firstLink, fuel)[..|neis|]
    ensures |neis| < MAX_NEIS ==> neis == ChainRefs(tp.links, tp.firstLink, fuel)
  {
    var refs := ChainRefs(tp.links, tp.firstLink, fuel);
    refs[..Min(MAX_NEIS, |refs|)]
  }

  /**
   * The fix-up's link walk: follow `next` from `first_link` until `DT_NULL_LINK`,
   * storing each non-null reference while fewer than `MAX_NEIS` are stored.
   */
  method CollectNeighbours(tp: TilePoly, ghost fuel: nat) returns (neis: array<PolyRef>, nneis: nat)
    requires ChainEnds(tp.links, tp.firstLink, fuel)
    ensures fresh(neis) && neis.Length == MAX_NEIS && nneis <= MAX_NEIS
    ensures neis[..nneis] == Neighbours(tp, fuel)
  {
    neis := new PolyRef[MAX_NEIS](_ => NULL_REF);
    nneis := 0;
    var k := tp.firstLink;
    ghost var f := fuel;
    ghost var seen: seq<PolyRef> := [];
    while k != DT_NULL_LINK
      invariant ChainEnds(tp.links, k, f)
      invariant seen + ChainRefs(tp.links, k, f) == ChainRefs(tp.links, tp.firstLink, fuel)
      invariant nneis == Min(MAX_NEIS, |seen|)
      invariant forall m :: 0 <= m < nneis ==> neis[m] == seen[m]
      decreases f
    {
      var link := tp.links[k as int];
      ghost var rest := ChainRefs(tp.links, link.next, f - 1);
      assert ChainRefs(tp.links, k, f) == (if link.ref.IsNull() then [] else [link.ref]) + rest;
      if !link.ref.IsNull() {
        if nneis < MAX_NEIS {
          neis[nneis] := link.ref;
          nneis := nneis + 1;
        }
        assert (seen + [link.ref]) + rest == seen + ([link.ref] + rest);
        seen := seen + [link.ref];
      } else {
        assert [] + rest == rest;
      }
      k := link.next;
      f := f - 1;
    }
    assert seen == ChainRefs(tp.links, tp.firstLink, fuel);
    assert neis[..nneis] == seen[..nneis];
  }

  /**
   * The shortcut cut point searched back from index `i`: the largest index in [2, i]
   * whose reference is a neighbour, or 0 when there is none.
   */
  function CutFrom(path: seq<PolyRef>, neis: seq<PolyRef>, i: int): (cut: nat)
    requires i < |path|
    ensures cut == 0 || (2 <= cut <= i && path[cut] in neis)
    ensures forall m :: 2 <= m <= i && cut < m ==> path[m] !in neis
    decreases i
  {
    if i <= 1 then 0
    else if path[i] in neis then i
    else CutFrom(path, neis, i - 1)
  }

  /** The look-ahead window: the search starts at `min(MAX_LOOK_AHEAD, len) - 1`. */
  function Cut(path: seq<PolyRef>, neis: seq<PolyRef>): (cut: nat)
    requires |path| >= 3
    ensures cut == 0 || 2 <= cut < Min(MAX_LOOK_AHEAD, |path|)
  {
    CutFrom(path, neis, Min(MAX_LOOK_AHEAD, |path|) - 1)
  }

  /**
   * The fix-up's backward search: from the end of the look-ahead window down to
   * index 2, stop at the first reference found among the neighbours.
   */
  method FindCut(path: array<PolyRef>, neis: array<PolyRef>, nneis: nat) returns (cut: nat)
    requires path.Length >= 3 && nneis <= neis.Length
    ensures cut == Cut(path[..], neis[..nneis])
  {
    cut := 0;
    var i := Min(MAX_LOOK_AHEAD, path.Length) - 1;
    while i > 1 && cut == 0
      invariant 1 <= i < path.Length
      invariant cut == 0 ==> Cut(path[..], neis[..nneis]) == CutFrom(path[..], neis[..nneis], i)
      invariant cut != 0 ==> cut == Cut(path[..], neis[..nneis])
      decreases i
    {
      for j := 0 to nneis
        invariant cut == 0
        invariant forall m :: 0 <= m < j ==> neis[m] != path[i]
      {
        if path[i] == neis[j] {
          cut := i;
          break;
        }
      }
      if cut == 0 {
        assert path[..][i] !in neis[..nneis];
      } else {
        assert path[..][i] in neis[..nneis];
      }
      i := i - 1;
    }
  }

  /** How many entries the shift drops. */
  function Offset(cut: nat): (offset: nat)
    ensures cut <= 1 ==> offset == 0
    ensures cut > 1 ==> offset + 1 == cut
  {
    if cut > 1 then cut - 1 else 0
  }

  /**
   * As written, the shift starts at index 0: the first `len - offset` entries become
   * `path[offset..]`, and the tail keeps its old entries.
   */
  function ShortcutAsWritten(path: seq<PolyRef>, cut: nat): (q: seq<PolyRef>)
    requires cut < |path|
    ensures |q| == |path|
    ensures q[..|path| - Offset(cut)] == path[Offset(cut)..]
    ensures q[|path| - Offset(cut)..] == path[|path| - Offset(cut)..]
  {
    path[Offset(cut)..] + path[|path| - Offset(cut)..]
  }

  /**
   * The shift keeping the corridor start: entry 0 stays, entry 1 becomes the
   * neighbour at `cut`, and the entries between are dropped.
   */
  function ShortcutKeepingStart(path: seq<PolyRef>, cut: nat): (q: seq<PolyRef>)
    requires 0 < |path| && cut < |path|
    ensures |q| == |path|
    ensures cut > 1 ==> q[..|path| - Offset(cut)] == [path[0]] + path[cut..]
    ensures cut <= 1 ==> q == path
    ensures q[|path| - Offset(cut)..] == path[|path| - Offset(cut)..]
  {
    if cut > 1 then [path[0]] + path[cut..] + path[|path| - Offset(cut)..] else path
  }

  /** The length bounds of the fix-up: at most four entries go, and two always stay. */
  lemma ShortcutLengthBounds(path: seq<PolyRef>, neis: seq<PolyRef>)
    requires |path| >= 3
    ensures |path| - 4 <= |path| - Offset(Cut(path, neis)) <= |path|
    ensures |path| - Offset(Cut(path, neis)) >= 2
  {
  }

  /** The fix-up's shift as written: `path[i] = path[i + offset]` for i in 0..len - offset. */
  method ShiftFrom0(path: array<PolyRef>, offset: nat)
    requires 0 < offset && offset + 1 < path.Length
    modifies path
    ensures path[..] == ShortcutAsWritten(old(path[..]), offset + 1)
  {
    ghost var before := path[..];
    var npath := path.Length - offset;
    for i := 0 to npath
      invariant forall m :: 0 <= m < i ==> path[m] == before[m + offset]
      invariant forall m :: i <= m < path.Length ==> path[m] == before[m]
    {
      path[i] := path[i + offset];
    }
    assert path[..] == before[offset..] + before[npath..];
  }

  /** The shift keeping index 0: `path[i] = path[i + offset]` for i in 1..len - offset. */
  method ShiftFrom1(path: array<PolyRef>, offset: nat)
    requires 0 < offset && offset + 1 < path.Length
    modifies path
    ensures path[..] == ShortcutKeepingStart(old(path[..]), offset + 1)
  {
    ghost var before := path[..];
    var npath := path.Length - offset;
    for i := 1 to npath
      invariant path[0] == before[0]
      invariant forall m :: 1 <= m < i ==> path[m] == before[m + offset]
      invariant forall m :: i <= m < path.Length ==> path[m] == before[m]
    {
      path[i] := path[i + offset];
    }
    assert path[..] == [before[0]] + before[offset + 1..] + before[npath..];
  }

  /**
   * `fixup_shortcuts`, shifting from index 0 as written. A path shorter than 3, or
   * one whose first polygon does not resolve, is returned unchanged.
   */
  method FixupShortcuts(path: array<PolyRef>, lookup: PolyRef -> Option<TilePoly>, ghost fuel: nat)
    returns (npath: nat)
    requires path.Length >= 3 && lookup(path[0]).Some? ==>
      ChainEnds(lookup(path[0]).value.links, lookup(path[0]).value.firstLink, fuel)
    modifies path
    ensures path.Length < 3 || lookup(old(path[0])).None? ==> npath == path.Length && path[..] == old(path[..])
    ensures path.Length >= 3 && lookup(old(path[0])).Some? ==>
      var cut := Cut(old(path[..]), Neighbours(lookup(old(path[0])).value, fuel));
      npath == path.Length - Offset(cut) && path[..] == ShortcutAsWritten(old(path[..]), cut)
  {
    if path.Length < 3 {
      return path.Length;
    }
    var tp := lookup(path[0]);
    if tp.None? {
      return path.Length;
    }
    var neis, nneis := CollectNeighbours(tp.value, fuel);
    var cut := FindCut(path, neis, nneis);
    npath := path.Length;
    if cut > 1 {
      var offset := cut - 1;
      npath := npath - offset;
      ShiftFrom0(path, offset);
    }
  }

  /** `fixup_shortcuts` with the shift starting at index 1, keeping the corridor start. */
  method FixupShortcutsKeepingStart(path: array<PolyRef>, lookup: PolyRef -> Option<TilePoly>, ghost fuel: nat)
    returns (npath: nat)
    requires path.Length >= 3 && lookup(path[0]).Some? ==>
      ChainEnds(lookup(path[0]).value.links, lookup(path[0]).value.firstLink, fuel)
    modifies path
    ensures path.Length < 3 || lookup(old(path[0])).None? ==> npath == path.Length && path[..] == old(path[..])
    ensures path.Length >= 3 && lookup(old(path[0])).Some? ==>
      var cut := Cut(old(path[..]), Neighbours(lookup(old(path[0])).value, fuel));
      npath == path.Length - Offset(cut) && path[..] == ShortcutKeepingStart(old(path[..]), cut)
  {
    if path.Length < 3 {
      return path.Length;
    }
    var tp := lookup(path[0]);
    if tp.None? {
      return path.Length;
    }
    var neis, nneis := CollectNeighbours(tp.value, fuel);
    var cut := FindCut(path, neis, nneis);
    npath := path.Length;
    if cut > 1 {
      var offset := cut - 1;
      npath := npath - offset;
      ShiftFrom1(path, offset);
    }
  }

  /**
   * As written, a taken shortcut replaces the corridor's first polygon by the one just
   * before the cut, a polygon the shortcut was meant to skip; the neighbour found is
   * left at index 1 only after that skipped polygon.
   */
  lemma ShortcutAsWrittenDropsStart(path: seq<PolyRef>, neis: seq<PolyRef>)
    requires |path| >= 3 && Cut(path, neis) > 1
    ensures ShortcutAsWritten(path, Cut(path, neis))[0] == path[Cut(path, neis) - 1]
    ensures ShortcutAsWritten(path, Cut(path, neis))[1] == path[Cut(path, neis)]
  {
    var q := ShortcutAsWritten(path, Cut(path, neis));
    var n := |path| - Offset(Cut(path, neis));
    assert q[..n][0] == q[0] && q[..n][1] == q[1];
  }

  /** A three-polygon corridor whose last polygon neighbours the first. */
  lemma ShortcutAsWrittenExample()
    ensures Cut([PolyRef(1), PolyRef(2), PolyRef(3)], [PolyRef(3)]) == 2
    ensures ShortcutAsWritten([PolyRef(1), PolyRef(2), PolyRef(3)], 2)[..2] == [PolyRef(2), PolyRef(3)]
    ensures ShortcutKeepingStart([PolyRef(1), PolyRef(2), PolyRef(3)], 2)[..2] == [PolyRef(1), PolyRef(3)]
  {
    assert [PolyRef(1), PolyRef(2), PolyRef(3)][2] in [PolyRef(3)];
  }

  /**
   * The corrected fix-up keeps the start, puts a neighbour of the start right after
   * it, and drops exactly the polygons between them.
   */
  lemma ShortcutKeepsAdjacency(path: seq<PolyRef>, neis: seq<PolyRef>)
    requires |path| >= 3
    ensures var cut := Cut(path, neis); var q := ShortcutKeepingStart(path, cut);
      q[0] == path[0] &&
      (cut > 1 ==> q[1] in neis && q[..|path| - Offset(cut)] == [path[0]] + path[cut..]) &&
      (cut <= 1 ==> q == path)
  {
    var cut := Cut(path, neis);
    var q := ShortcutKeepingStart(path, cut);
    if cut > 1 {
      var n := |path| - Offset(cut);
      assert q[..n][0] == q[0] && q[..n][1] == q[1];
      assert ([path[0]] + path[cut..])[1] == path[cut];
    }
  }

  // The off-mesh prefix skip of `path_find_follow`.

  /** The scan's variables: `npos`, `prev_ref` and `poly_ref`. */
  datatype ScanState = ScanState(npos: nat, prev: PolyRef, cur: PolyRef)

  /** The scan loop run from state `s`: step while `npos < npolys` and `cur` is not the steer ref. */
  function ScanFrom(polys: seq<PolyRef>, npolys: nat, steer: PolyRef, s: ScanState): (r: ScanState)
    requires npolys <= |polys| && s.npos <= npolys
    ensures s.npos <= r.npos <= npolys
    ensures r.npos == npolys || r.cur == steer
    ensures s.cur == steer ==> r == s
    decreases npolys - s.npos
  {
    if s.npos < npolys && s.cur != steer then
      ScanFrom(polys, npolys, steer, ScanState(s.npos + 1, s.cur, polys[s.npos]))
    else s
  }

  /** The scan from its initial state: `npos = 0`, a null `prev_ref`, `poly_ref = polys[0]`. */
  function Scan(polys: seq<PolyRef>, npolys: nat, steer: PolyRef): (r: ScanState)
    requires 0 < |polys| && npolys <= |polys|
    ensures r.npos <= npolys
    ensures r.npos == npolys || r.cur == steer
    ensures polys[0] == steer ==> r == ScanState(0, NULL_REF, steer)
  {
    ScanFrom(polys, npolys, steer, ScanState(0, NULL_REF, polys[0]))
  }

  lemma {:induction false} ScanFromFirst(polys: seq<PolyRef>, npolys: nat, steer: PolyRef, j: nat, t: nat)
    requires npolys <= |polys| && 1 <= j < npolys && polys[j] == steer
    requires forall m :: 0 <= m < j ==> polys[m] != steer
    requires 1 <= t <= j + 1
    ensures ScanFrom(polys, npolys, steer, ScanState(t, polys[if t >= 2 then t - 2 else 0], polys[t - 1])) ==
            ScanState(j + 1, polys[j - 1], steer)
    decreases j + 1 - t
  {
    if t <= j {
      ScanFromFirst(polys, npolys, steer, j, t + 1);
    }
  }

  /**
   * When the steer ref first occurs at index j >= 1, the scan stops one past it:
   * `npos = j + 1`, so the shift also removes the steer polygon itself, and
   * `prev_ref` is the polygon before it.
   */
  lemma ScanFindsSteer(polys: seq<PolyRef>, npolys: nat, steer: PolyRef, j: nat)
    requires npolys <= |polys| && 1 <= j < npolys && polys[j] == steer
    requires forall m :: 0 <= m < j ==> polys[m] != steer
    ensures Scan(polys, npolys, steer) == ScanState(j + 1, polys[j - 1], steer)
  {
    ScanFromFirst(polys, npolys, steer, j, 1);
  }

  /** Without the steer ref among the first npolys entries, the scan consumes them all. */
  lemma {:induction false} ScanMissesSteer(polys: seq<PolyRef>, npolys: nat, steer: PolyRef)
    requires 0 < npolys <= |polys|
    requires forall m :: 0 <= m < npolys ==> polys[m] != steer
    ensures Scan(polys, npolys, steer).npos == npolys
    ensures Scan(polys, npolys, steer).cur == polys[npolys - 1]
  {
    ScanMissesFrom(polys, npolys, steer, 1);
  }

  lemma {:induction false} ScanMissesFrom(polys: seq<PolyRef>, npolys: nat, steer: PolyRef, t: nat)
    requires 0 < npolys <= |polys| && 1 <= t <= npolys
    requires forall m :: 0 <= m < npolys ==> polys[m] != steer
    ensures ScanFrom(polys, npolys, steer, ScanState(t, polys[if t >= 2 then t - 2 else 0], polys[t - 1])) ==
            ScanState(npolys, polys[if npolys >= 2 then npolys - 2 else 0], polys[npolys - 1])
    decreases npolys - t
  {
    if t < npolys {
      ScanMissesFrom(polys, npolys, steer, t + 1);
    }
  }

  /**
   * The skip over an off-mesh connection: scan to the steer ref, then shift the
   * remaining `npolys - npos` references to the front, preserving their order.
   * Returns the new count and the scan's `prev_ref` and `poly_ref`.
   */
  method SkipOffMeshPrefix(polys: array<PolyRef>, npolys: nat, steer: PolyRef)
    returns (remaining: nat, prevRef: PolyRef, polyRef: PolyRef)
    requires 0 < polys.Length && npolys <= polys.Length
    modifies polys
    ensures var s := Scan(old(polys[..]), npolys, steer);
      remaining == npolys - s.npos && prevRef == s.prev && polyRef == s.cur &&
      polys[..] == old(polys[s.npos..npolys]) + old(polys[remaining..])
  {
    var npos := 0;
    prevRef := NULL_REF;
    polyRef := polys[0];
    while npos < npolys && polyRef != steer
      invariant npos <= npolys
      invariant ScanFrom(polys[..], npolys, steer, ScanState(npos, prevRef, polyRef)) == Scan(polys[..], npolys, steer)
      decreases npolys - npos
    {
      prevRef := polyRef;
      polyRef := polys[npos];
      npos := npos + 1;
    }
    ghost var before := polys[..];
    for i := npos to npolys
      invariant polys[..i - npos] == before[npos..i]
      invariant polys[i - npos..] == before[i - npos..]
    {
      polys[i - npos] := polys[i];
    }
    remaining := npolys - npos;
  }

  // The steering-target scan of `get_steer_target`.

  /** What the helper yields: no target, the index of the steer point, or a panic. */
  datatype SteerPick = NoTarget | Target(index: nat) | Panic

  /** The scan stops at an off-mesh connection point or at a point out of range. */
  predicate StopsAt(flags: seq<bv8>, inRange: seq<bool>, i: nat)
    requires i < |flags| && i < |inRange|
  {
    flags[i] & DT_STRAIGHTPATH_OFFMESH_CONNECTION != 0 || !inRange[i]
  }

  /** The first stopping point at or after `ns` among the first `count`, or `count`. */
  function SteerStop(flags: seq<bv8>, inRange: seq<bool>, count: nat, ns: nat): (r: nat)
    requires ns <= count <= |flags| && count <= |inRange|
    ensures ns <= r <= count
    ensures r < count ==> StopsAt(flags, inRange, r)
    ensures forall m :: ns <= m < r ==> !StopsAt(flags, inRange, m)
    decreases count - ns
  {
    if ns == count then count
    else if StopsAt(flags, inRange, ns) then ns
    else SteerStop(flags, inRange, count, ns + 1)
  }

  /** The scan of point indices below `count`, leaving the index where it stopped. */
  method ScanSteerPoints(flags: seq<bv8>, inRange: seq<bool>, count: nat) returns (ns: nat)
    requires count <= |flags| && count <= |inRange|
    ensures ns == SteerStop(flags, inRange, count, 0)
  {
    ns := 0;
    while ns < count
      invariant ns <= count
      invariant SteerStop(flags, inRange, count, ns) == SteerStop(flags, inRange, count, 0)
      decreases count - ns
    {
      if StopsAt(flags, inRange, ns) {
        break;
      }
      ns := ns + 1;
    }
  }

  /**
   * `get_steer_target` as written, on the `find_straight_path` result (capacity 3),
   * the point flags, and the `in_range` test of each point. The guard `ns > steer_count`
   * never holds, so a scan that runs through every point reads the slot at
   * `steer_count`: a never-written default slot, or past the array when it is full.
   */
  method GetSteerTargetAsWritten(found: Result<nat>, flags: seq<bv8>, inRange: seq<bool>)
    returns (pick: SteerPick)
    requires |flags| == MAX_STEER_POINTS && |inRange| == MAX_STEER_POINTS
    ensures found.Err? || found.value == 0 ==> pick == NoTarget
    ensures found.Ok? && found.value > MAX_STEER_POINTS ==> pick == Panic
    ensures found.Ok? && 0 < found.value <= MAX_STEER_POINTS ==>
      var ns := SteerStop(flags, inRange, found.value, 0);
      pick == (if ns == MAX_STEER_POINTS then Panic else Target(ns))
    ensures pick == NoTarget <==> found.Err? || found.value == 0
    ensures pick.Target? ==> pick.index < MAX_STEER_POINTS
  {
    if found.Err? {
      return NoTarget;
    }
    var steerCount := found.value;
    if steerCount == 0 {
      return NoTarget;
    }
    if steerCount > MAX_STEER_POINTS {
      return Panic;
    }
    var ns := ScanSteerPoints(flags, inRange, steerCount);
    if ns > steerCount {
      return NoTarget;
    }
    if ns >= MAX_STEER_POINTS {
      return Panic;
    }
    pick := Target(ns);
  }

  /** Scanning through two in-range ground points stops at the unwritten third slot. */
  lemma SteerScanRunsPastPoints()
    ensures SteerStop([0, 0, 0], [true, true, true], 2, 0) == 2
    ensures SteerStop([0, 0, 0], [true, true, true], 3, 0) == 3
  {
  }

  /**
   * `get_steer_target` with the guard `ns >= steer_count`: a target is always one of
   * the points found, the first that is an off-mesh connection or out of range.
   */
  method GetSteerTarget(found: Result<nat>, flags: seq<bv8>, inRange: seq<bool>)
    returns (pick: SteerPick)
    requires |flags| == MAX_STEER_POINTS && |inRange| == MAX_STEER_POINTS
    ensures pick == Panic <==> found.Ok? && found.value > MAX_STEER_POINTS
    ensures pick.Target? ==>
      (found.Ok? && pick.index < found.value && StopsAt(flags, inRange, pick.index) &&
       forall m :: 0 <= m < pick.index ==> !StopsAt(flags, inRange, m))
    ensures pick == NoTarget <==>
      (found.Err? || found.value == 0 ||
       (found.value <= MAX_STEER_POINTS && forall m :: 0 <= m < found.value ==> !StopsAt(flags, inRange, m)))
  {
    if found.Err? {
      return NoTarget;
    }
    var steerCount := found.value;
    if steerCount == 0 {
      return NoTarget;
    }
    if steerCount > MAX_STEER_POINTS {
      return Panic;
    }
    var ns := ScanSteerPoints(flags, inRange, steerCount);
    if ns >= steerCount {
      return NoTarget;
    }
    pick := Target(ns);
  }
}
