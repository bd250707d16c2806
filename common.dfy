/** Machine-level types shared by the firmware model: the AVR's byte, its 16-bit
    `size_t`, and an optional value for results that may be absent. */
module Common {

  /** An 8-bit register or data byte. */
  type byte = bv8

  /** `size_t` and `uint16_t` on the 8-bit AVR target: 16 bits wide. */
  const U16_MODULUS: int := 0x1_0000
  type u16 = x: int | 0 <= x < U16_MODULUS

  /** An 8-bit I/O register seen bit by bit: element k is bit k. */
  const ZeroRegister: seq<bool> := [false, false, false, false, false, false, false, false]
  type Register = r: seq<bool> | |r| == 8 witness ZeroRegister

  datatype Option<T> = None | Some(value: T)
}
