/** Fixed-width unsigned integers of the Arduino C++ the helper is written in. */
module StdInt {
  /** `uint8_t`: electrode numbers, thresholds and the touch count. */
  type u8 = bv8

  /** `uint16_t`: touch status words and filtered (proximity) readings. */
  type u16 = bv16
}
