/** The calibration-status constants and the device-code mapping of `check_calibration_status`. */
module Calibration {

  const VnaCalLow: int := 0
  const VnaCalMid: int := 1
  const VnaCalHigh: int := 2
  const VnaCalNoData: int := 3

  predicate IsCalibrationStatus(status: int) {
    status == VnaCalLow || status == VnaCalMid || status == VnaCalHigh || status == VnaCalNoData
  }

  /**
   * The status for the instrument's integer accuracy code.  The mapping is
   * total: code 0 and every code not listed give NO_DATA.
   */
  function CalibrationStatus(code: int): (status: int)
    ensures IsCalibrationStatus(status)
    ensures status == VnaCalLow <==> code == 4
    ensures status == VnaCalMid <==> code == 3 || code == 2
    ensures status == VnaCalHigh <==> code == 1
    ensures status == VnaCalNoData <==> code !in {1, 2, 3, 4}
  {
    if code == 4 then VnaCalLow
    else if code == 3 || code == 2 then VnaCalMid
    else if code == 1 then VnaCalHigh
    else if code == 0 then VnaCalNoData
    else VnaCalNoData
  }
}
