/** The error type of the crate and the classification of the driver's status
    codes (`src/error.rs`). */
module Errors {
  import opened Ffi
  import opened Types

  /** Every error the core produces. */
  datatype DaqmxError =
      /** The driver failed: its status code and extended description. */
    | DaqmxError(code: i32, message: RustString)
      /** A string given to the driver holds a zero byte. */
    | CStringError
      /** An enumeration property read back a code outside the enumeration. */
    | UnexpectedValue(name: string, value: i32)
      /** A string property changed length between the size probe and the fill. */
    | StringPropertyLengthChanged
      /** A string property read back bytes that are not UTF-8. */
    | Utf8Error

  datatype Result<+T> = Ok(value: T) | Err(error: DaqmxError) {
    predicate IsFailure() { Err? }
    function PropagateFailure<U>(): Result<U> requires Err? { Err(error) }
    function Extract(): T requires Ok? { value }
  }

  /** `CString::new`: the bytes as a C string, unless one of them is zero. */
  function NewCString(bytes: seq<u8>): (r: Result<CString>)
    ensures r.Err? <==> 0 in bytes
    ensures r.Err? ==> r.error == CStringError
    ensures r.Ok? ==> r.value == bytes
  {
    if 0 in bytes then Err(CStringError) else Ok(bytes)
  }

  /** The length of the scratch buffer the message calls fill. */
  const MESSAGE_BUFFER_LEN: nat := 2048

  /** What the driver's two message calls write: the extended description of
      the last error, and the description of each status code. */
  datatype ErrorTexts = ErrorTexts(extendedInfo: seq<i8>, errorString: i32 -> seq<i8>)

  /** The scratch buffer, `vec![0i8; 2048]`, after the driver wrote `written`. */
  function MessageBuffer(written: seq<i8>): (buffer: seq<i8>)
    ensures |buffer| == MESSAGE_BUFFER_LEN
  {
    Filled(Zeros(MESSAGE_BUFFER_LEN), written)
  }

  /** Reading the extended error description does not panic: it is UTF-8. */
  predicate ExtendedDecodable(texts: ErrorTexts) {
    Decodable(MessageBuffer(texts.extendedInfo))
  }

  /** Classifying `code` does not panic: the one message it fetches, if any,
      is UTF-8. */
  predicate CodeDecodable(texts: ErrorTexts, code: i32) {
    && (code < 0 ==> ExtendedDecodable(texts))
    && (code > 0 ==> Decodable(MessageBuffer(texts.errorString(code))))
  }

  /** The extended description of the last error, as `handle_error` reads
      it for a negative code: the buffer's entries up to its first zero. */
  function ExtendedMessage(texts: ErrorTexts): (message: RustString)
    requires ExtendedDecodable(texts)
    ensures |message| <= MESSAGE_BUFFER_LEN && 0 !in message
    ensures forall i :: 0 <= i < |message| ==> message[i] == AsU8(MessageBuffer(texts.extendedInfo)[i])
    ensures |message| < MESSAGE_BUFFER_LEN ==> MessageBuffer(texts.extendedInfo)[|message|] == 0
  {
    BufferToString(MessageBuffer(texts.extendedInfo))
  }

  /** The three ways a status code is read: success, a hard error, or a
      warning whose message is logged. */
  datatype Outcome =
    | Success
    | HardError(code: i32, message: RustString)
    | Warning(code: i32, message: RustString)

  /** The classification `handle_error` performs, with the warning it logs
      made visible: the sign of the code decides, a negative code fetches the
      extended error description, a positive one the description of that same
      code. */
  function Classify(code: i32, texts: ErrorTexts): (o: Outcome)
    requires CodeDecodable(texts, code)
    ensures o.Success? <==> code == 0
    ensures o.HardError? <==> code < 0
    ensures o.Warning? <==> code > 0
    ensures !o.Success? ==> o.code == code && |o.message| <= MESSAGE_BUFFER_LEN && 0 !in o.message
    ensures o.HardError? ==> o.message == BufferToString(MessageBuffer(texts.extendedInfo))
    ensures o.Warning? ==> o.message == BufferToString(MessageBuffer(texts.errorString(code)))
  {
    if code == 0 then Success
    else if code < 0 then HardError(code, BufferToString(MessageBuffer(texts.extendedInfo)))
    else Warning(code, BufferToString(MessageBuffer(texts.errorString(code))))
  }

  /** `handle_error`: fails exactly on a negative code, with that code and the
      extended description; zero and every warning succeed. */
  function HandleError(code: i32, texts: ErrorTexts): (r: Result<()>)
    requires CodeDecodable(texts, code)
    ensures r.Err? <==> code < 0
    ensures r.Err? ==> r.error == DaqmxError(code, BufferToString(MessageBuffer(texts.extendedInfo)))
  {
    match Classify(code, texts)
    case HardError(c, message) => Err(DaqmxError(c, message))
    case _ => Ok(())
  }
}
