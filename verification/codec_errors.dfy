/**
 * The error values of the backend's byte codec (backend/utils/error.go), plus
 * the two plain errors the codec returns without a dedicated type, and the
 * three-way outcome of a codec call: a value, an error, or a Go runtime panic.
 */
module CodecErrors {
  import Decimal

  datatype CodecError =
    | InvalidKeyLength(length: int)
    | KeyNotFound
    | InvalidDstBlock(dst: int, src: int)
    | InvalidPadding(length: int, blockSize: int)
    | InvalidSrcBlock(src: int, block: int)
      /** `errors.New("incorrect padding found")` in `unpad` */
    | IncorrectPadding
      /** the base64 decoder's `CorruptInputError` */
    | CorruptBase64
  {
    /** The text of the error's `Error()` method. */
    function Message(): string {
      match this
      case InvalidKeyLength(n) =>
        "invalid key length. Key must be either 16, 24 or 32 bytes, Got: " + Decimal.Show(n)
      case KeyNotFound =>
        "key not found"
      case InvalidDstBlock(dst, src) =>
        "length of dst block is less than length of src block. Dst: " + Decimal.Show(dst)
        + " bytes, Src: " + Decimal.Show(src) + " bytes"
      case InvalidPadding(n, b) =>
        "incorrect padding length. Padding must be between 1 and " + Decimal.Show(b)
        + ", Got: " + Decimal.Show(n)
      case InvalidSrcBlock(src, b) =>
        "length of src block must be multiple of block size. Src: " + Decimal.Show(src)
        + " bytes, Block Size: " + Decimal.Show(b)
      case IncorrectPadding =>
        "incorrect padding found"
      case CorruptBase64 =>
        "illegal base64 data"
    }
  }

  /**
   * What a codec call ends in. `Panic` stands for a Go runtime panic (an index
   * or slice out of range, a wrong IV length handed to the CBC mode), which the
   * codec does not turn into an error.
   */
  datatype Outcome<+T> = Ok(value: T) | Err(error: CodecError) | Panic {

    predicate IsFailure() {
      !Ok?
    }

    function PropagateFailure<U>(): Outcome<U>
      requires !Ok?
    {
      if Err? then Err(error) else Panic
    }

    function Extract(): T
      requires Ok?
    {
      value
    }
  }

  /** The key-length error's message determines the rejected length. */
  lemma KeyLengthMessageDeterminesLength(a: int, b: int)
    requires InvalidKeyLength(a).Message() == InvalidKeyLength(b).Message()
    ensures a == b
  {
    var p := "invalid key length. Key must be either 16, 24 or 32 bytes, Got: ";
    var ma := InvalidKeyLength(a).Message();
    var mb := InvalidKeyLength(b).Message();
    assert Decimal.Show(a) == ma[|p|..];
    assert Decimal.Show(b) == mb[|p|..];
    Decimal.ShowInjective(a, b);
  }
}
