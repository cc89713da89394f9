/** Reading samples from an input task into a caller's buffer
    (`src/tasks/input.rs`): the marshalling of the sample count and the buffer
    length, and the count the driver reports back. */
module Input {
  import opened Ffi
  import opened Errors

  /** The sentinel the driver reads as "all available samples". */
  const ALL_AVAILABLE: i32 := -1

  /** The sample count passed to the driver: `None` is the sentinel, a
      count is cast with `as i32`, which wraps counts above `i32::MAX`. */
  function RequestedSamples(samples: Option<u32>): (n: i32)
    ensures samples.None? ==> n == ALL_AVAILABLE
    ensures samples.Some? && samples.value <= I32_MAX ==> n == samples.value
    ensures samples.Some? && samples.value > I32_MAX ==> n < 0 && (n - samples.value) % 0x1_0000_0000 == 0
  {
    match samples
    case None => ALL_AVAILABLE
    case Some(v) => U32AsI32(v)
  }

  /** The meaning of a sample count on the driver's side, as assumed here
      (no line of the crate states it): the sentinel is "all available", a
      non-negative value that many samples, any other negative value no
      request the crate can express. */
  function SamplesMeant(n: i32): Option<Option<u32>> {
    if n == ALL_AVAILABLE then Some(None)
    else if n >= 0 then Some(Some(n))
    else None
  }

  /** Every request that fits in an `i32` reaches the driver as meant. */
  lemma RequestedSamplesRoundTrip(samples: Option<u32>)
    requires samples.Some? ==> samples.value <= I32_MAX
    ensures SamplesMeant(RequestedSamples(samples)) == Some(samples)
  {
  }

  /** `Some(u32::MAX)` wraps to the sentinel: it asks for all available
      samples, exactly as `None` does. */
  lemma LargestCountIsSentinel()
    ensures RequestedSamples(Some(U32_MAX)) == RequestedSamples(None)
  {
    assert U32AsI32(U32_MAX) == -1;
  }

  /** Every other count above `i32::MAX` wraps to a negative value that is
      not the sentinel, so it names neither a count nor "all available". */
  lemma OtherLargeCountsWrapNegative(v: u32)
    requires I32_MAX < v < U32_MAX
    ensures RequestedSamples(Some(v)) < 0 && RequestedSamples(Some(v)) != ALL_AVAILABLE
    ensures SamplesMeant(RequestedSamples(Some(v))) == None
  {
  }

  /** The arguments of the native read: the sample count per channel, the
      timeout in seconds, the fill mode as the driver's boolean, and the
      buffer length. */
  datatype ReadCall = ReadCall(samplesPerChannel: i32, timeout: real, fillMode: u32, bufferSize: u32)

  /** What the native read returns: its status, the samples it writes into
      the buffer (no more than the length it was given), and the count it
      writes through its out-pointer, if it writes one. */
  datatype ReadReply<T> = ReadReply(status: i32, samples: seq<T>, actual: Option<i32>)

  /** The arguments `read` passes for a buffer of length `len`: the sample
      count with its sentinel and the length saturated at `u32::MAX`. */
  function Marshalled(timeout: real, fillMode: u32, samples: Option<u32>, len: nat): (call: ReadCall)
    ensures call.bufferSize <= len
  {
    ReadCall(RequestedSamples(samples), timeout, fillMode, SaturatingU32(len))
  }

  /** `InputTask::read`: the driver fills the buffer in place; the result is
      the count of samples per channel it reports, 0 when it reports none,
      exactly when its status is not negative. */
  method Read<T>(timeout: real, fillMode: u32, samples: Option<u32>, buffer: array<T>,
                 reader: ReadCall -> ReadReply<T>, texts: ErrorTexts)
    returns (r: Result<i32>, call: ReadCall)
    requires CodeDecodable(texts, reader(Marshalled(timeout, fillMode, samples, buffer.Length)).status)
    modifies buffer
    ensures call == Marshalled(timeout, fillMode, samples, buffer.Length)
    ensures buffer[..] == Filled(old(buffer[..]), reader(call).samples[..Min(|reader(call).samples|, call.bufferSize)])
    ensures r.Ok? <==> reader(call).status >= 0
    ensures r.Ok? ==> r.value == reader(call).actual.GetOr(0)
    ensures r.Err? ==> r.error == DaqmxError(reader(call).status, ExtendedMessage(texts))
  {
    var actualSamplesPerChannel: i32 := 0;
    var requestedSamplesPerChannel := RequestedSamples(samples);
    var bufferLength := SaturatingU32(buffer.Length);
    call := ReadCall(requestedSamplesPerChannel, timeout, fillMode, bufferLength);
    assert call == Marshalled(timeout, fillMode, samples, buffer.Length);
    var reply := reader(call);
    var written := reply.samples[..Min(|reply.samples|, bufferLength)];
    forall i | 0 <= i < |written| {
      buffer[i] := written[i];
    }
    if reply.actual.Some? {
      actualSamplesPerChannel := reply.actual.value;
    }
    var _ :- HandleError(reply.status, texts);
    r := Ok(actualSamplesPerChannel);
  }

  /** The smaller of two lengths. */
  function Min(a: nat, b: nat): (m: nat)
    ensures m <= a && m <= b && (m == a || m == b)
  {
    if a <= b then a else b
  }
}
