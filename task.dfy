/** Operations on a task handle (`src/tasks/task.rs`): reading the task's name
    back in two phases, and creating a task. */
module Tasks {
  import opened Ffi
  import opened Types
  import opened Errors
  import opened Channels

  /** The arguments of a call to the task-name getter: the task, the buffer
      and the size the caller claims for it. */
  datatype NameCall = NameCall(task: RawHandle, buffer: BufferPtr, size: u32)

  /** The native task-name getter. Like a string-property getter it answers
      the probe and the fill independently. */
  type NameGetter = NameCall -> Fill<i8>

  /** The size probe: a null buffer and a size of 0. */
  function NameProbe(task: RawHandle): NameCall {
    NameCall(task, NullPtr, 0)
  }

  /** The fill: a buffer of exactly the probed size. */
  function NameFill(task: RawHandle, size: u32): NameCall {
    NameCall(task, BufferOf(size), size)
  }

  /** The zeroed buffer of the probed size after the fill wrote into it. */
  function FilledName(task: RawHandle, getter: NameGetter): (buffer: seq<i8>)
    requires getter(NameProbe(task)).status >= 0
    ensures |buffer| == getter(NameProbe(task)).status
  {
    var size := getter(NameProbe(task)).status;
    Filled(Zeros(size), getter(NameFill(task, size)).written)
  }

  /** `name` does not panic: whenever it reaches the conversion, the filled
      buffer's text is UTF-8. */
  predicate NameDecodable(task: RawHandle, getter: NameGetter) {
    var probe := getter(NameProbe(task)).status;
    probe >= 0 && getter(NameFill(task, probe)).status >= 0 ==> Decodable(FilledName(task, getter))
  }

  /** `name` classifies its statuses without a panic: a failed probe's, and
      the fill's after a successful probe. */
  predicate NameStatusesDecodable(task: RawHandle, getter: NameGetter, texts: ErrorTexts) {
    var probe := getter(NameProbe(task)).status;
    && (probe < 0 ==> ExtendedDecodable(texts))
    && (probe >= 0 ==> CodeDecodable(texts, getter(NameFill(task, probe)).status))
  }

  /** The result of `Task::name`: a failed probe or a failed fill is
      reported with its code; a warning from the fill is not a failure; the
      name is the filled buffer's text up to its first zero. */
  function TaskNameRead(task: RawHandle, getter: NameGetter, texts: ErrorTexts): (r: Result<RustString>)
    requires NameStatusesDecodable(task, getter, texts) && NameDecodable(task, getter)
    ensures getter(NameProbe(task)).status < 0 ==>
      r == Err(DaqmxError(getter(NameProbe(task)).status, ExtendedMessage(texts)))
    ensures getter(NameProbe(task)).status >= 0 ==>
      var fill := getter(NameFill(task, getter(NameProbe(task)).status));
      && (r.Err? <==> fill.status < 0)
      && (r.Err? ==> r.error == DaqmxError(fill.status, ExtendedMessage(texts)))
    ensures r.Ok? ==> var size := getter(NameProbe(task)).status;
      var written := getter(NameFill(task, size)).written;
      && size >= 0
      && |r.value| <= size && 0 !in r.value
      && (forall i :: 0 <= i < |r.value| ==> r.value[i] == AsU8(if i < |written| then written[i] else 0))
      && (|r.value| < size ==> (if |r.value| < |written| then written[|r.value|] else 0) == 0)
  {
    var probe := getter(NameProbe(task)).status;
    if probe < 0 then
      HandleError(probe, texts).PropagateFailure()
    else
      var fill := getter(NameFill(task, probe));
      var _ :- HandleError(fill.status, texts);
      Ok(BufferToString(FilledName(task, getter)))
  }

  /** `Task::name`: probe, allocate a zeroed buffer of the probed size,
      fill it, check the fill's status and convert. `calls` are the getter
      calls made, in order. */
  method Name(task: RawHandle, getter: NameGetter, texts: ErrorTexts)
    returns (r: Result<RustString>, calls: seq<NameCall>)
    requires NameStatusesDecodable(task, getter, texts) && NameDecodable(task, getter)
    ensures r == TaskNameRead(task, getter, texts)
    ensures |calls| >= 1 && calls[0] == NameProbe(task)
    ensures |calls| == 1 <==> getter(NameProbe(task)).status < 0
    ensures |calls| == 2 ==> calls[1] == NameFill(task, getter(NameProbe(task)).status)
    ensures |calls| <= 2
  {
    calls := [NameProbe(task)];
    var returnCode := getter(calls[0]).status;
    if returnCode < 0 {
      r := HandleError(returnCode, texts).PropagateFailure();
      return;
    }
    var bufferSize: u32 := returnCode;
    var buffer: seq<i8> := Zeros(bufferSize);
    calls := calls + [NameFill(task, bufferSize)];
    var fill := getter(calls[1]);
    buffer := Filled(buffer, fill.written);
    returnCode := fill.status;
    var _ :- HandleError(returnCode, texts);
    r := Ok(BufferToString(buffer));
  }

  /** A name the driver holds steadily reads back: the probe answers its size
      with the terminator and the fill writes it and its terminator, even
      with a warning status. */
  lemma StableNameReadsBack(task: RawHandle, getter: NameGetter, texts: ErrorTexts, name: seq<i8>)
    requires 0 !in name && Decodable(name) && |name| < I32_MAX
    requires getter(NameProbe(task)).status == |name| + 1
    requires getter(NameFill(task, |name| + 1)).written == name + [0]
    requires getter(NameFill(task, |name| + 1)).status >= 0
    requires CodeDecodable(texts, getter(NameFill(task, |name| + 1)).status)
    ensures NameStatusesDecodable(task, getter, texts) && NameDecodable(task, getter)
    ensures TaskNameRead(task, getter, texts) == Ok(BufferToString(name))
  {
    assert FilledName(task, getter) == name + [0] + [];
    RestAfterNulIgnored(name, []);
  }

  /** There is no race check: when the name grew between the probe and the
      fill, so that the fill wrote no terminator within the probed size, the
      name is cut to that size and the read still succeeds. */
  lemma GrownNameIsTruncated(task: RawHandle, getter: NameGetter, texts: ErrorTexts, grown: seq<i8>)
    requires getter(NameProbe(task)).status >= 0
    requires getter(NameFill(task, getter(NameProbe(task)).status)).written == grown
    requires getter(NameFill(task, getter(NameProbe(task)).status)).status >= 0
    requires CodeDecodable(texts, getter(NameFill(task, getter(NameProbe(task)).status)).status)
    requires |grown| > getter(NameProbe(task)).status
    requires 0 !in grown[..getter(NameProbe(task)).status]
    requires Decodable(grown[..getter(NameProbe(task)).status])
    ensures NameStatusesDecodable(task, getter, texts) && NameDecodable(task, getter)
    ensures TaskNameRead(task, getter, texts) == Ok(BufferToString(grown[..getter(NameProbe(task)).status]))
  {
    var size := getter(NameProbe(task)).status;
    assert FilledName(task, getter) == grown[..size];
  }

  /** What the native task constructor returns, and the handle it writes
      through its out-pointer, if it writes one. */
  datatype CreateReply = CreateReply(status: i32, handle: Option<RawHandle>)

  /** The native task constructor, called with the task's name. */
  type TaskCreator = CString -> CreateReply

  /** `new_task`: a name holding a zero byte fails before any native call;
      otherwise the task is created and its handle returned exactly when the
      status is not negative. `calls` are the names passed to the driver. */
  method NewTask(name: RustString, create: TaskCreator, texts: ErrorTexts)
    returns (r: Result<RawHandle>, calls: seq<CString>)
    requires 0 !in name ==> CodeDecodable(texts, create(name).status)
    ensures 0 in name ==> r == Err(CStringError) && calls == []
    ensures 0 !in name ==> calls == [name]
    ensures 0 !in name ==> (r.Ok? <==> create(name).status >= 0)
    ensures 0 !in name && r.Ok? ==> r.value == create(name).handle.GetOr(Null)
    ensures 0 !in name && r.Err? ==> r.error == DaqmxError(create(name).status, ExtendedMessage(texts))
  {
    calls := [];
    var cName :- NewCString(name);
    var tmpHandle := Null;
    calls := [cName];
    var reply := create(cName);
    if reply.handle.Some? {
      tmpHandle := reply.handle.value;
    }
    var _ :- HandleError(reply.status, texts);
    r := Ok(tmpHandle);
  }
}
