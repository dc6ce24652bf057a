/**
 * Record types and constants of the U30 scaler plugin header
 * (filter-scaler-xrm-plg-u30.hpp).
 */
module ScalerTypes {

  const INT32_MIN: int := -0x8000_0000
  const INT32_MAX: int := 0x7fff_ffff

  /** A C `int32_t`. */
  type Int32 = x: int | INT32_MIN <= x <= INT32_MAX

  /** Bound on the number of SCALER sessions recorded per request (`MAX_OUT_ELEMENTS`). */
  const MAX_OUT_ELEMENTS: nat := 64

  /** Pixel throughput of one device: 3840 x 2160 at 60 frames per second, twice (`U30_SCAL_MAXCAPACITY`). */
  const U30_SCAL_MAXCAPACITY: nat := 3840 * 2160 * 60 * 2

  /** The full-capacity load unit of the resource manager (`XRM_MAX_CU_LOAD_GRANULARITY_1000000`). */
  const LOAD_GRANULARITY: nat := 1000000

  /** A rational frames-per-second value. */
  datatype FrameRate = FrameRate(numerator: Int32, denominator: Int32)

  /** One video plane: an input or one rung of an output ladder. */
  datatype Resolution = Resolution(width: Int32, height: Int32, frameRate: FrameRate)

  /**
   * One requested session; `kind` is the resource's `function` field. `outRes` keeps the document order of the outputs
   * and is only filled for SCALER sessions.
   */
  datatype ResourceData = ResourceData(
    kind: string,
    format: string,
    channelLoad: Int32,
    lookaheadLoad: Int32,
    inRes: Resolution,
    outRes: seq<Resolution>)

  /** The request-wide parameters: only the optional job count. */
  datatype ParamsData = ParamsData(jobCount: Int32)

  /** The value the load calculation needs as `U30_SCAL_MAXCAPACITY`: positive, so dividing by it is defined. */
  lemma CapacityValue()
    ensures U30_SCAL_MAXCAPACITY == 995328000 && U30_SCAL_MAXCAPACITY > 0
  {
  }
}
