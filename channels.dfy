/** Reading a property of a channel back from the driver, generic over the
    native getter (`src/channels/mod.rs`): a scalar read through an
    out-parameter, and a string read in two phases, first probing the size and
    then filling a buffer of that size. */
module Channels {
  import opened Ffi
  import opened Utf8
  import opened Types
  import opened Errors

  /** What a native call returns, and what it writes into the buffer it is
      given (the driver writes no more than the buffer's length). */
  datatype Fill<T> = Fill(status: i32, written: seq<T>)

  /** The arguments of a call to a string-property getter: the task, the
      channel's name, the buffer and the size the caller claims for it. */
  datatype StringCall = StringCall(task: RawHandle, channel: CString, buffer: BufferPtr, size: u32)

  /** A native string-property getter. It is a function of its arguments
      only, so the probe and the fill, whose arguments differ, may answer
      unrelated things: the property may change between the two calls. */
  type StringGetter = StringCall -> Fill<u8>

  /** The size probe: a null buffer and a size of 0. */
  function ProbeCall(task: RawHandle, channel: CString): StringCall {
    StringCall(task, channel, NullPtr, 0)
  }

  /** The fill: a buffer of exactly the probed size. */
  function FillCall(task: RawHandle, channel: CString, size: u32): StringCall {
    StringCall(task, channel, BufferOf(size), size)
  }

  /** A failed size probe is classified without a panic: only a negative
      probe result goes through `handle_error`. */
  predicate ProbeDecodable(task: RawHandle, channel: CString, getter: StringGetter, texts: ErrorTexts) {
    getter(ProbeCall(task, channel)).status < 0 ==> ExtendedDecodable(texts)
  }

  /** The result of `read_channel_property_string`, where `sizeCheck` is
      `string_property_size_error`: `Ok(true)` for the two status codes that
      mean the buffer was too small. */
  function StringPropertyRead(task: RawHandle, channel: CString, getter: StringGetter,
                              sizeCheck: i32 -> Result<bool>, texts: ErrorTexts): (r: Result<RustString>)
    requires ProbeDecodable(task, channel, getter, texts)
    // a failed probe is reported with its own code
    ensures getter(ProbeCall(task, channel)).status < 0 ==>
      r == Err(DaqmxError(getter(ProbeCall(task, channel)).status, ExtendedMessage(texts)))
    // once the probe succeeds, the size check of the fill decides
    ensures getter(ProbeCall(task, channel)).status >= 0 ==>
      var size := getter(ProbeCall(task, channel)).status;
      var fill := getter(FillCall(task, channel, size));
      && (sizeCheck(fill.status).Err? ==> r == Err(sizeCheck(fill.status).error))
      && (sizeCheck(fill.status) == Ok(true) ==> r == Err(StringPropertyLengthChanged))
      && (sizeCheck(fill.status) == Ok(false) ==>
            var text := if size == 0 then [] else Filled(Zeros(size), fill.written)[..size - 1];
            r == if ValidUtf8(text) then Ok(text) else Err(Utf8Error))
    // a successful read is the filled buffer without its last byte
    ensures r.Ok? ==> var size := getter(ProbeCall(task, channel)).status;
      && size >= 0
      && |r.value| == (if size == 0 then 0 else size - 1)
      && forall i :: 0 <= i < |r.value| ==>
           var written := getter(FillCall(task, channel, size)).written;
           r.value[i] == if i < |written| then written[i] else 0
  {
    var probe := getter(ProbeCall(task, channel)).status;
    if probe < 0 then
      HandleError(probe, texts).PropagateFailure()
    else
      var fill := getter(FillCall(task, channel, probe));
      var buffer: seq<u8> := Filled(Zeros(probe), fill.written);
      var retry :- sizeCheck(fill.status);
      if retry then Err(StringPropertyLengthChanged)
      else
        var text := if |buffer| == 0 then buffer else buffer[..|buffer| - 1];
        if ValidUtf8(text) then Ok(text) else Err(Utf8Error)
  }

  /** `read_channel_property_string`: probe the size, allocate a zeroed
      buffer of exactly that size, have the driver fill it, report a size
      change instead of retrying, drop the terminator and decode. `calls` are
      the getter calls made, in order. */
  method ReadChannelPropertyString(task: RawHandle, channel: CString, getter: StringGetter,
                                   sizeCheck: i32 -> Result<bool>, texts: ErrorTexts)
    returns (r: Result<RustString>, calls: seq<StringCall>)
    requires ProbeDecodable(task, channel, getter, texts)
    ensures r == StringPropertyRead(task, channel, getter, sizeCheck, texts)
    ensures |calls| >= 1 && calls[0] == ProbeCall(task, channel)
    ensures |calls| == 1 <==> getter(ProbeCall(task, channel)).status < 0
    ensures |calls| == 2 ==> calls[1] == FillCall(task, channel, getter(ProbeCall(task, channel)).status)
    ensures |calls| <= 2
  {
    calls := [ProbeCall(task, channel)];
    var probe := getter(calls[0]).status;
    if probe < 0 {
      r := HandleError(probe, texts).PropagateFailure();
      return;
    }
    var bufferSize: u32 := probe;
    var buffer: seq<u8> := Zeros(probe);
    var fillCall := FillCall(task, channel, bufferSize);
    calls := calls + [fillCall];
    var fill := getter(fillCall);
    buffer := Filled(buffer, fill.written);
    var retry :- sizeCheck(fill.status);
    if retry {
      return Err(StringPropertyLengthChanged), calls;
    }
    if |buffer| > 0 {
      buffer := buffer[..|buffer| - 1];
    }
    if ValidUtf8(buffer) {
      r := Ok(buffer);
    } else {
      r := Err(Utf8Error);
    }
  }

  /** The driver holds the property's value `value` and does not change it
      between the calls: the probe answers the size with the terminator, and a
      fill of that size writes the value and its terminator. */
  predicate StableString(task: RawHandle, channel: CString, getter: StringGetter, value: seq<u8>) {
    && |value| < I32_MAX
    && getter(ProbeCall(task, channel)).status == |value| + 1
    && getter(FillCall(task, channel, |value| + 1)) == Fill(0, value + [0])
  }

  /** A property that does not change while it is read reads back as its
      value, provided the size check accepts a success code. */
  lemma StableStringReadsBack(task: RawHandle, channel: CString, getter: StringGetter,
                              sizeCheck: i32 -> Result<bool>, texts: ErrorTexts, value: RustString)
    requires StableString(task, channel, getter, value)
    requires sizeCheck(0) == Ok(false)
    ensures StringPropertyRead(task, channel, getter, sizeCheck, texts) == Ok(value)
  {
    var buffer: seq<u8> := Filled(Zeros(|value| + 1), value + [0]);
    assert buffer == value + [0];
    assert buffer[..|value|] == value;
  }

  /** A probe of 0 reads the empty string, whatever the fill writes. */
  lemma EmptyProbeReadsEmpty(task: RawHandle, channel: CString, getter: StringGetter,
                             sizeCheck: i32 -> Result<bool>, texts: ErrorTexts)
    requires getter(ProbeCall(task, channel)).status == 0
    requires sizeCheck(getter(FillCall(task, channel, 0)).status) == Ok(false)
    ensures StringPropertyRead(task, channel, getter, sizeCheck, texts) == Ok([])
  {
  }

  /** What a native scalar getter returns, and the value it writes through
      its out-pointer, if it writes one. */
  datatype ScalarReply<T> = ScalarReply(status: i32, written: Option<T>)

  /** A native scalar-property getter, called with the task and the channel's
      name. */
  type ScalarGetter<T> = (RawHandle, CString) -> ScalarReply<T>

  /** The result of `read_channel_property`: the value the getter wrote over
      `T::default()`, exactly when its status is not negative. */
  function ScalarPropertyRead<T>(task: RawHandle, channel: CString, getter: ScalarGetter<T>,
                                 default: T, texts: ErrorTexts): (r: Result<T>)
    requires CodeDecodable(texts, getter(task, channel).status)
    ensures r.Ok? <==> getter(task, channel).status >= 0
    ensures r.Ok? ==> r.value == getter(task, channel).written.GetOr(default)
    ensures r.Err? ==> r.error == DaqmxError(getter(task, channel).status, ExtendedMessage(texts))
  {
    var reply := getter(task, channel);
    var _ :- HandleError(reply.status, texts);
    Ok(reply.written.GetOr(default))
  }

  /** `read_channel_property`: start from the default, let the getter write
      through the out-pointer, classify its status. */
  method ReadChannelProperty<T>(task: RawHandle, channel: CString, getter: ScalarGetter<T>,
                                default: T, texts: ErrorTexts) returns (r: Result<T>)
    requires CodeDecodable(texts, getter(task, channel).status)
    ensures r == ScalarPropertyRead(task, channel, getter, default, texts)
  {
    var value := default;
    var reply := getter(task, channel);
    if reply.written.Some? {
      value := reply.written.value;
    }
    var _ :- HandleError(reply.status, texts);
    r := Ok(value);
  }
}
