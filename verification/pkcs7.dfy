/**
 * PKCS#7 padding as the backend implements it (`pad` and `unpad` in
 * backend/utils/aes.go), following section 6.3 of RFC 5652.
 */
module Pkcs7 {
  import opened Octets
  import opened CodecErrors

  /** `pad(data, blockSize)`: append `n` bytes of value `byte(n)`, `n = blockSize - len % blockSize`. */
  function Pad(data: Bytes, blockSize: int): (r: Bytes)
    requires blockSize >= 1
    ensures |r| % blockSize == 0
    ensures data <= r
    ensures 1 <= |r| - |data| <= blockSize
    ensures forall i :: |data| <= i < |r| ==> r[i] as int == (|r| - |data|) % 256
  {
    var n := blockSize - |data| % blockSize;
    PaddedLength(|data|, blockSize);
    data + Repeat(ToByte(n), n)
  }

  lemma PaddedLength(len: nat, blockSize: int)
    requires blockSize >= 1
    ensures (len + (blockSize - len % blockSize)) % blockSize == 0
  {
    var q := len / blockSize;
    assert len == blockSize * q + len % blockSize;
    assert len + (blockSize - len % blockSize) == (q + 1) * blockSize;
    MultipleModulo(q + 1, blockSize);
  }

  lemma MultipleModulo(k: nat, b: int)
    requires b >= 1
    ensures (k * b) % b == 0
  {
    var x := k * b;
    assert x == b * (x / b) + x % b;
    assert 0 <= x % b < b;
    var d := k - x / b;
    assert x % b == b * d;
  }

  /**
   * The inputs `unpad` accepts: a last byte `n` with `1 <= n <= blockSize`,
   * at least `n` bytes, and the last `n` bytes all equal to `n`.
   */
  predicate WellPadded(data: Bytes, blockSize: int) {
    && |data| > 0
    && var n := data[|data| - 1] as int;
    && 1 <= n <= blockSize
    && n <= |data|
    && forall i :: |data| - n <= i < |data| ==> data[i] == data[|data| - 1]
  }

  /**
   * `unpad(data, blockSize)`. An empty input panics (it reads `data[len-1]`),
   * and so does a pad length within `1..blockSize` that exceeds the data
   * length (the slice `data[len-n:]`).
   */
  function Unpad(data: Bytes, blockSize: int): (r: Outcome<Bytes>)
    ensures |data| == 0 ==> r.Panic?
    ensures (|data| > 0 && !(1 <= data[|data| - 1] as int <= blockSize)) ==>
              r == Err(InvalidPadding(data[|data| - 1] as int, blockSize))
    ensures r.Panic? <==> |data| == 0 || blockSize >= data[|data| - 1] as int > |data|
    ensures r.Ok? <==> WellPadded(data, blockSize)
    ensures r == Err(IncorrectPadding) <==>
              |data| > 0 && 1 <= data[|data| - 1] as int <= |data| && data[|data| - 1] as int <= blockSize
              && !WellPadded(data, blockSize)
    ensures r.Ok? ==> |data| - |r.value| == data[|data| - 1] as int
    ensures r.Ok? ==> data == r.value + Repeat(data[|data| - 1], data[|data| - 1] as int)
  {
    if |data| == 0 then Panic
    else
      var n := data[|data| - 1] as int;
      if n < 1 || n > blockSize then Err(InvalidPadding(n, blockSize))
      else if n > |data| then Panic
      else if data[|data| - n..] != Repeat(ToByte(n), n) then
        Err(IncorrectPadding)
      else
        assert data == data[..|data| - n] + data[|data| - n..];
        Ok(data[..|data| - n])
  }

  /** For block sizes a byte can count, `unpad` undoes `pad`. */
  lemma UnpadPad(data: Bytes, blockSize: int)
    requires 1 <= blockSize <= 255
    ensures Unpad(Pad(data, blockSize), blockSize) == Ok(data)
  {
    var p := Pad(data, blockSize);
    var n := |p| - |data|;
    assert p[|p| - 1] as int == n;
    assert WellPadded(p, blockSize);
    assert p[..|p| - n] == data;
  }

  /**
   * The byte conversion in `pad` wraps at 256: with a block size of 256 an
   * aligned input gets 256 bytes of value 0, which `unpad` rejects.
   */
  lemma PadWrapsAtByteRange()
    ensures Unpad(Pad([], 256), 256) == Err(InvalidPadding(0, 256))
  {
    var p := Pad([], 256);
    assert p[255] as int == 0;
  }
}
