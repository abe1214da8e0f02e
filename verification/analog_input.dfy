/** The state one hardware analog channel keeps: its last reading, whether
    that reading changed, and the bounds observed while calibrating. */
module Analog {

  /** A (first, second) pair of bounds. It may be given reversed, with
      `low > high`, to ask for an inverted mapping. */
  datatype Range = Range(low: real, high: real) {

    /** The pair is reversed: its first bound lies above its second. */
    predicate Reversed() {
      low > high
    }

    /** `x` lies in the closed interval between the two bounds, whichever
        order they are given in. */
    predicate Contains(x: real) {
      if Reversed() then high <= x <= low else low <= x <= high
    }
  }

  /** The change threshold used when the constructor is not given one. */
  const DefaultReadThreshold: real := 0.005

  class AnalogInput {
    var channel: int
    /** The target range; declared constant, so no reading can alter it. */
    const valueRange: Range
    var readThreshold: real

    var hasChanged: bool
    var currentValue: real

    // Calibration
    var calibrate: bool
    var maxValue: real
    var minValue: real

    /** Stores the channel, the target range and the threshold (0.005 when
        none is given) and starts with calibration switched on. The initial
        reading, change flag and observed bounds are left unconstrained. */
    constructor (channel: int, valueRange: Range, readThreshold: real := DefaultReadThreshold)
      ensures this.channel == channel
      ensures this.valueRange == valueRange
      ensures this.readThreshold == readThreshold
      ensures calibrate
    {
      this.channel := channel;
      this.valueRange := valueRange;
      this.readThreshold := readThreshold;
      calibrate := true;
    }

    /** Takes one reading from the hardware. What it computes depends on the
        hardware and is not modelled: it may write every field but
        `valueRange`, which is constant. */
    method Read(frame: int)
      modifies this
    {
      channel, readThreshold := *, *;
      currentValue, hasChanged := *, *;
      calibrate, minValue, maxValue := *, *, *;
    }

    /** The last reading, as stored; reading it changes nothing. */
    method GetCurrentValue() returns (v: real)
      ensures v == currentValue
    {
      v := currentValue;
    }

    /** Whether the last reading counted as a change; asking changes nothing. */
    method HasChanged() returns (b: bool)
      ensures b == hasChanged
    {
      b := hasChanged;
    }

    /** The bounds observed during calibration, (minimum, maximum); this is
        not the target range the input maps onto. */
    method GetValueRange() returns (rg: Range)
      ensures rg.low == minValue && rg.high == maxValue
    {
      rg := Range(minValue, maxValue);
    }
  }
}
