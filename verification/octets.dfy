/** Go's `byte` and `[]byte`, as the AES codec sees them. */
module Octets {

  newtype byte = x: int | 0 <= x < 256

  type Bytes = seq<byte>

  /** `n` copies of `b` (Go's `make([]byte, n)` followed by a fill loop). */
  function Repeat(b: byte, n: nat): (r: Bytes)
    ensures |r| == n
    ensures forall i :: 0 <= i < n ==> r[i] == b
  {
    seq(n, _ => b)
  }

  /** A fresh buffer of `n` zero bytes (`make([]byte, n)`). */
  function Zeros(n: nat): (r: Bytes)
    ensures |r| == n
  {
    Repeat(0, n)
  }

  /** Go's `byte(n)` conversion: truncation modulo 256. */
  function ToByte(n: int): (b: byte)
    ensures 0 <= n < 256 ==> b as int == n
  {
    (n % 256) as byte
  }
}
