/**
 * Detour status words and their conversion to the crate's error enumeration
 * (src/detour/base.rs, src/base.rs), and the integer bounding-box overlap test.
 */
module DetourBase {

  /** The crate's error enumeration (`XError`, re-exported as `RNError`). */
  datatype XError =
    | Failed
    | InProgress
    | WrongMagic
    | WrongVersion
    | OutOfMemory
    | InvalidParam
    | BufferTooSmall
    | OutOfNodes
    | PartialResult
    | AlreadyOccupied

  /** `Result<T, XError>`. */
  datatype Result<T> = Ok(value: T) | Err(error: XError)

  /** Status word layout: three high "kind" bits and a 24-bit detail field. */
  const DT_FAILURE: bv32 := 1 << 31
  const DT_SUCCESS: bv32 := 1 << 30
  const DT_IN_PROGRESS: bv32 := 1 << 29
  const DT_STATUS_DETAIL_MASK: bv32 := 0x0ff_ffff

  const DT_WRONG_MAGIC: bv32 := 1 << 0
  const DT_WRONG_VERSION: bv32 := 1 << 1
  const DT_OUT_OF_MEMORY: bv32 := 1 << 2
  const DT_INVALID_PARAM: bv32 := 1 << 3
  const DT_BUFFER_TOO_SMALL: bv32 := 1 << 4
  const DT_OUT_OF_NODES: bv32 := 1 << 5
  const DT_PARTIAL_RESULT: bv32 := 1 << 6
  const DT_ALREADY_OCCUPIED: bv32 := 1 << 7

  /** The errors that name one detail bit of a failure status. */
  predicate IsDetailError(e: XError) {
    !(e.Failed? || e.InProgress?)
  }

  /** The detail bit that a failure status carries for a detail error (partner of ToResult). */
  function DetailCode(e: XError): (d: bv32)
    requires IsDetailError(e)
    ensures IsSingleDetailCode(d)
  {
    match e
    case WrongMagic => DT_WRONG_MAGIC
    case WrongVersion => DT_WRONG_VERSION
    case OutOfMemory => DT_OUT_OF_MEMORY
    case InvalidParam => DT_INVALID_PARAM
    case BufferTooSmall => DT_BUFFER_TOO_SMALL
    case OutOfNodes => DT_OUT_OF_NODES
    case PartialResult => DT_PARTIAL_RESULT
    case AlreadyOccupied => DT_ALREADY_OCCUPIED
  }

  /** A detail field that is exactly one of the eight single-bit detail codes. */
  predicate IsSingleDetailCode(d: bv32) {
    d == DT_WRONG_MAGIC || d == DT_WRONG_VERSION || d == DT_OUT_OF_MEMORY ||
    d == DT_INVALID_PARAM || d == DT_BUFFER_TOO_SMALL || d == DT_OUT_OF_NODES ||
    d == DT_PARTIAL_RESULT || d == DT_ALREADY_OCCUPIED
  }

  /** The eight detail codes are the words with exactly one bit set, among the low eight. */
  lemma SingleDetailCodeIsOneLowBit(d: bv32)
    ensures IsSingleDetailCode(d) <==> d != 0 && d & (d - 1) == 0 && d < 0x100
  {
    if d < 0x100 && d != 0 && d & (d - 1) == 0 {
      if d < 0x10 {
        assert d == 1 || d == 2 || d == 4 || d == 8;
      } else {
        assert d == 0x10 || d == 0x20 || d == 0x40 || d == 0x80;
      }
    }
  }

  /**
   * `DtStatus::to_result`: success wins over every other bit, then failure (whose
   * detail field must be exactly one code to name a specific error), then in-progress;
   * a status with none of the three kind bits is a plain failure.
   */
  function ToResult(status: bv32): (r: Result<()>)
    ensures r.Ok? <==> status & DT_SUCCESS != 0
    ensures status & DT_SUCCESS == 0 && status & DT_FAILURE != 0 ==>
      r.Err? &&
      (IsSingleDetailCode(status & DT_STATUS_DETAIL_MASK) ==>
        IsDetailError(r.error) && DetailCode(r.error) == status & DT_STATUS_DETAIL_MASK) &&
      (!IsSingleDetailCode(status & DT_STATUS_DETAIL_MASK) ==> r.error == Failed)
    ensures status & (DT_SUCCESS | DT_FAILURE) == 0 && status & DT_IN_PROGRESS != 0 ==>
      r == Err(InProgress)
    ensures status & (DT_SUCCESS | DT_FAILURE | DT_IN_PROGRESS) == 0 ==> r == Err(Failed)
  {
    if status & DT_SUCCESS != 0 then
      Ok(())
    else if status & DT_FAILURE != 0 then
      var detail := status & DT_STATUS_DETAIL_MASK;
      if detail == DT_WRONG_MAGIC then Err(WrongMagic)
      else if detail == DT_WRONG_VERSION then Err(WrongVersion)
      else if detail == DT_OUT_OF_MEMORY then Err(OutOfMemory)
      else if detail == DT_INVALID_PARAM then Err(InvalidParam)
      else if detail == DT_BUFFER_TOO_SMALL then Err(BufferTooSmall)
      else if detail == DT_OUT_OF_NODES then Err(OutOfNodes)
      else if detail == DT_PARTIAL_RESULT then Err(PartialResult)
      else if detail == DT_ALREADY_OCCUPIED then Err(AlreadyOccupied)
      else Err(Failed)
    else if status & DT_IN_PROGRESS != 0 then
      Err(InProgress)
    else
      Err(Failed)
  }

  /**
   * Round trip: a failure status built from a detail error's code decodes back to that
   * error, whatever other bits outside success and the detail field it carries.
   */
  lemma FailureCodeRoundTrip(e: XError, extra: bv32)
    requires IsDetailError(e)
    requires extra & (DT_SUCCESS | DT_STATUS_DETAIL_MASK) == 0
    ensures ToResult(DT_FAILURE | extra | DetailCode(e)) == Err(e)
  {
    var s := DT_FAILURE | extra | DetailCode(e);
    assert s & DT_SUCCESS == 0;
    assert s & DT_STATUS_DETAIL_MASK == DetailCode(e);
  }

  /** Every status with the success bit set decodes to Ok, whatever else is set. */
  lemma SuccessDominates(status: bv32)
    requires status & DT_SUCCESS != 0
    ensures ToResult(status | DT_FAILURE | DT_IN_PROGRESS | DT_STATUS_DETAIL_MASK) == Ok(())
  {
    assert (status | DT_FAILURE | DT_IN_PROGRESS | DT_STATUS_DETAIL_MASK) & DT_SUCCESS != 0;
  }

  /** Axis-aligned integer boxes overlap (touching counts) on all three axes. */
  ghost predicate BoxesOverlap(amin: seq<int>, amax: seq<int>, bmin: seq<int>, bmax: seq<int>)
    requires |amin| == 3 && |amax| == 3 && |bmin| == 3 && |bmax| == 3
  {
    forall i :: 0 <= i < 3 ==> amin[i] <= bmax[i] && amax[i] >= bmin[i]
  }

  /**
   * `dt_overlap_bounds`: the flag starts true and each axis that separates the boxes
   * clears it.
   */
  method OverlapBounds(amin: seq<int>, amax: seq<int>, bmin: seq<int>, bmax: seq<int>)
      returns (overlap: bool)
    requires |amin| == 3 && |amax| == 3 && |bmin| == 3 && |bmax| == 3
    ensures overlap <==> BoxesOverlap(amin, amax, bmin, bmax)
    ensures overlap <==> BoxesOverlap(bmin, bmax, amin, amax)
  {
    overlap := true;
    overlap := if amin[0] > bmax[0] || amax[0] < bmin[0] then false else overlap;
    overlap := if amin[1] > bmax[1] || amax[1] < bmin[1] then false else overlap;
    overlap := if amin[2] > bmax[2] || amax[2] < bmin[2] then false else overlap;
  }
}
