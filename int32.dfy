/** Java's `int`: 32-bit two's complement, additions wrap around. */
module Int32 {

  const Min: int := -0x8000_0000
  const Max: int := 0x7fff_ffff
  const Modulus: int := 0x1_0000_0000

  type int32 = x: int | -0x8000_0000 <= x <= 0x7fff_ffff

  /** The `int` that Java's `+` yields for the mathematical sum `x`. */
  function Wrap(x: int): (r: int32)
    ensures (x - r) % Modulus == 0
    ensures Min <= x <= Max ==> r == x
    ensures Max < x <= Max + Modulus ==> r == x - Modulus
  {
    (x - Min) % Modulus + Min
  }
}
