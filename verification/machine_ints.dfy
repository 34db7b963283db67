/** The integer widths of the source, and the conversions its assignments perform. */
module MachineInts {

  const TWO31 := 0x8000_0000
  const TWO32 := 0x1_0000_0000
  const TWO63 := 0x8000_0000_0000_0000
  const TWO64 := 0x1_0000_0000_0000_0000

  type I32 = x: int | -TWO31 <= x < TWO31
  type I64 = x: int | -TWO63 <= x < TWO63
  type U32 = x: int | 0 <= x < TWO32
  type U64 = x: int | 0 <= x < TWO64

  /** An IPv4 address as the 32-bit word the socket interface carries (`in_addr_t`). */
  type Addr = U32

  function ToU32(x: int): U32 {
    x % TWO32
  }

  function ToU64(x: int): U64 {
    x % TWO64
  }

  /** Conversion to a 32-bit `int`: keep the low 32 bits, read as two's complement. */
  function ToI32(x: int): I32 {
    var low := x % TWO32;
    if low < TWO31 then low else low - TWO32
  }

  /** Equality of the low 32 bits. */
  predicate Congruent(x: int, y: int) {
    (x - y) % TWO32 == 0
  }

  lemma ToI32Congruent(x: int)
    ensures Congruent(ToI32(x), x)
  {
    var low := x % TWO32;
    assert x == x / TWO32 * TWO32 + low;
    assert Congruent(low, x);
  }

  /** Numbers with equal low words are told apart by their width alone. */
  lemma CongruentI32(x: I32, y: int)
    ensures Congruent(x, y) <==> x == ToI32(y)
  {
    ToI32Congruent(y);
    if Congruent(x, y) {
      Multiples(x, ToI32(y), (x - y) / TWO32 - (ToI32(y) - y) / TWO32);
    }
  }

  lemma Multiples(x: I32, z: I32, k: int)
    requires x - z == k * TWO32
    ensures x == z
  {
    assert k == 0;
  }
}
