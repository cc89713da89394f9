/** The first version of the task wrapper (`src/task.rs`): its own copy of the
    buffer conversion, and a status check that only prints. */
module LegacyTask {
  import opened Ffi
  import opened Utf8
  import opened Types
  import opened Errors

  /** `take_while(|&e| e != 0).map(|e| e as u8)`, one entry at a time. */
  function TakeNonNul(buffer: seq<i8>): (bytes: seq<u8>)
    ensures |bytes| <= |buffer|
  {
    if buffer == [] || buffer[0] == 0 then [] else [AsU8(buffer[0])] + TakeNonNul(buffer[1..])
  }

  /** The legacy conversion takes the same bytes as `buffer_to_string`. */
  lemma {:induction false} TakeNonNulIsNulPrefix(buffer: seq<i8>)
    ensures TakeNonNul(buffer) == NulPrefix(buffer)
  {
    if buffer == [] || buffer[0] == 0 {
    } else {
      TakeNonNulIsNulPrefix(buffer[1..]);
      assert FirstNul(buffer) == 1 + FirstNul(buffer[1..]);
      assert forall i :: 0 <= i < FirstNul(buffer) ==> NulPrefix(buffer)[i] == ([AsU8(buffer[0])] + NulPrefix(buffer[1..]))[i];
    }
  }

  /** `error_buffer_to_string`: panics exactly when the text before the first
      zero is not UTF-8, which is its precondition here; it then agrees with
      `buffer_to_string` on every buffer. */
  function ErrorBufferToString(buffer: seq<i8>): (s: RustString)
    requires ValidUtf8(TakeNonNul(buffer))
    ensures Decodable(buffer) && s == BufferToString(buffer)
  {
    TakeNonNulIsNulPrefix(buffer);
    TakeNonNul(buffer)
  }

  /** Unit test: the trailing zeros are dropped. */
  lemma LegacyDeviceIdenWithTrailingZeros(buffer: seq<i8>)
    requires buffer == DEVICE_IDEN + [0, 0, 0]
    ensures ValidUtf8(TakeNonNul(buffer)) && ErrorBufferToString(buffer) == DEVICE_IDEN
  {
    DeviceIdenWithTrailingZeros(buffer);
    TakeNonNulIsNulPrefix(buffer);
  }

  /** Unit test: an unterminated buffer converts in full. */
  lemma LegacyDeviceIdenUnterminated(buffer: seq<i8>)
    requires buffer == DEVICE_IDEN
    ensures ValidUtf8(TakeNonNul(buffer)) && ErrorBufferToString(buffer) == DEVICE_IDEN
  {
    DeviceIdenUnterminated(buffer);
    TakeNonNulIsNulPrefix(buffer);
  }

  /** The line the legacy check prints, if any. */
  datatype Console = Silent | ErrorLine(message: RustString) | WarningLine(message: RustString)

  /** The legacy `handle_error`: it returns nothing for every code; zero
      prints nothing, a negative code prints the extended error description
      and a positive one the description of that same code. */
  function LegacyHandleError(code: i32, texts: ErrorTexts): (out: Console)
    requires CodeDecodable(texts, code)
    ensures out.Silent? <==> code == 0
    ensures out.ErrorLine? <==> code < 0
    ensures out.WarningLine? <==> code > 0
    ensures out.ErrorLine? ==> out.message == BufferToString(MessageBuffer(texts.extendedInfo))
    ensures out.WarningLine? ==> out.message == BufferToString(MessageBuffer(texts.errorString(code)))
  {
    if code == 0 then Silent
    else if code < 0 then
      TakeNonNulIsNulPrefix(MessageBuffer(texts.extendedInfo));
      ErrorLine(ErrorBufferToString(MessageBuffer(texts.extendedInfo)))
    else
      TakeNonNulIsNulPrefix(MessageBuffer(texts.errorString(code)));
      WarningLine(ErrorBufferToString(MessageBuffer(texts.errorString(code))))
  }

  /** The legacy check prints what the current one reports: an error line
      for a hard error and a warning line for a warning, with the same
      message. */
  lemma LegacyAgreesWithClassify(code: i32, texts: ErrorTexts)
    requires CodeDecodable(texts, code)
    ensures LegacyHandleError(code, texts) == match Classify(code, texts)
      case Success => Silent
      case HardError(_, message) => ErrorLine(message)
      case Warning(_, message) => WarningLine(message)
  {
  }
}
