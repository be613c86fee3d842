/** The digital input pins the scripts poll. */
module Gpio {

  /** What `Pin.value()` of an input pin returns: 0 (low) or 1 (high).
      For the IR sensors of both gesture scripts, 0 means a hand is in front
      of the sensor and 1 means it is not. */
  type PinValue = v: int | 0 <= v <= 1

  const LOW: PinValue := 0
  const HIGH: PinValue := 1
}
