/** Fixed-width C integer types of the firmware and an optional value. */
module Base {

  type uint8 = x: int | 0 <= x < 0x100
  type uint16 = x: int | 0 <= x < 0x1_0000
  type uint32 = x: int | 0 <= x < 0x1_0000_0000
  type int8 = x: int | -0x80 <= x < 0x80
  type int16 = x: int | -0x8000 <= x < 0x8000

  /** A value that may be absent (a NaN reading, a widget that does not exist). */
  datatype Option<+T> = None | Some(value: T)
}
