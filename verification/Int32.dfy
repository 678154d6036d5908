/** 32-bit integers. */
module Int32 {
  const INT_MIN := -0x8000_0000
  const INT_MAX := 0x7FFF_FFFF

  /** A 32-bit result as the machine leaves it. */
  function Wrap(x: int): int {
    var r := x % 0x1_0000_0000;
    if r > INT_MAX then r - 0x1_0000_0000 else r
  }
}
