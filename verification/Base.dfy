/** Shared small types. */
module Base {

  datatype Option<+T> = None | Some(value: T)

  /** Go's conversion of an integer to int32: two's complement wrap-around. */
  function Int32(x: int): (r: int)
    ensures -0x8000_0000 <= r < 0x8000_0000
    ensures -0x8000_0000 <= x < 0x8000_0000 ==> r == x
    ensures (x - r) % 0x1_0000_0000 == 0
  {
    (x + 0x8000_0000) % 0x1_0000_0000 - 0x8000_0000
  }

  /** Incrementing an int32 counter n times is the int32 image of counting to n. */
  lemma Int32Step(n: int)
    ensures Int32(Int32(n) + 1) == Int32(n + 1)
  {
  }
}
