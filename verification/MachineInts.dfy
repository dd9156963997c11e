/** Fixed-width integers of the daemon, as bounded mathematical integers with
    their wrap-around written out, and pointers that may be null. */
module MachineInts {
  datatype Option<T> = None | Some(value: T)

  const TWO_8: int := 0x100
  const TWO_16: int := 0x1_0000
  const TWO_32: int := 0x1_0000_0000
  const TWO_48: int := 0x1_0000_0000_0000
  const TWO_63: int := 0x8000_0000_0000_0000
  const TWO_64: int := 0x1_0000_0000_0000_0000

  type uint8 = x: int | 0 <= x < 0x100
  type uint16 = x: int | 0 <= x < 0x1_0000
  type uint32 = x: int | 0 <= x < 0x1_0000_0000
  type uint64 = x: int | 0 <= x < 0x1_0000_0000_0000_0000
  type int64 = x: int | -0x8000_0000_0000_0000 <= x < 0x8000_0000_0000_0000

  /** Conversion of any integer to 64 unsigned bits. */
  function ToUint64(x: int): uint64 { x % TWO_64 }

  /** Reinterpretation of an integer as 64 signed bits. */
  function ToInt64(x: int): int64 {
    if x % TWO_64 < TWO_63 then x % TWO_64 else x % TWO_64 - TWO_64
  }

  lemma Fits64(x: int)
    ensures 0 <= x < TWO_64 ==> ToUint64(x) == x
    ensures -TWO_63 <= x < TWO_63 ==> ToInt64(x) == x
  {
  }

  function Abs(x: real): real { if x < 0.0 then -x else x }

  /** C++ conversion of a floating value to an integer: towards zero. */
  function Truncate(x: real): (r: int)
    ensures if x >= 0.0 then r >= 0 && 0.0 <= x - r as real < 1.0 else r <= 0 && 0.0 <= r as real - x < 1.0
  {
    if x >= 0.0 then x.Floor else -((-x).Floor)
  }

  /** C++ integer division by two: towards zero. */
  function Half(x: int): (r: int)
    ensures if x >= 0 then 0 <= x - 2 * r <= 1 else 0 <= 2 * r - x <= 1
  {
    if x >= 0 then x / 2 else -((-x) / 2)
  }
}
