/** Constants, errors and small enumerations shared by every component (lib.rs, error.rs). */
module Common {
  import opened Bytes

  const PROTOCOL_VERSION: byte := 1
  const MAX_FRAME_LEN := 1_048_576
  const MAX_TEXT_CLIP := 262_144
  const STAGE_DEPTH := 5

  datatype CborError =
    | Malformed
    | ExpectedMap
    | KeyNotInteger
    | DuplicateKey
    | MissingKey(key: u64)
    | WrongType(key: u64)
    | OutOfRange(key: u64)
    | WrongWidth(key: u64, want: nat)

  datatype Error =
    | BadMagic
    | FrameTooLarge(len: u32)
    | UnknownFrameType(code: byte)
    | Cbor(cause: CborError)
    | Crypto

  datatype Result<+T> = Ok(value: T) | Err(error: Error) {
    predicate IsFailure() { Err? }
    function PropagateFailure<U>(): Result<U> requires Err? { Err(error) }
    function Extract(): T requires Ok? { value }
  }

  datatype Role = Phone | Pc

  datatype ContentType = PlainText | Url

  function ContentCode(t: ContentType): byte {
    match t case PlainText => 1 case Url => 2
  }

  /** `u8::try_from(ct)` followed by `ContentType::try_from`. */
  function ContentOfCode(n: u64): Option<ContentType> {
    if n == 1 then Some(PlainText) else if n == 2 then Some(Url) else None
  }
}
