# daqmx-rs: the decision logic around the NI-DAQmx driver calls

`daqmx-rs` is a Rust wrapper over the NI-DAQmx C driver. Almost every
operation is one call into the driver. What the wrapper decides for itself
happens around those calls, and that is what this project models and proves
things about:

- how a driver status code is classified (success, error or warning);
- how the driver's zero-terminated `i8` text buffers become Rust strings;
- the codecs between the driver's integer codes and the crate's
  enumerations (terminal configuration, voltage scale, pre-scaled units);
- the voltage-channel builder and the argument record it hands the driver;
- the two-phase "probe the size, then fill" string reads;
- the argument marshalling of the buffered sample read.

Modules, one per source file:

- `Ffi`: machine integers, C strings, raw handles, and how a driver writes
  into a buffer.
- `Vendor`: the vendor constants.
- `Utf8`: the byte-string grammar of section 4 of RFC 3629.
- `Types`: `src/types.rs`.
- `Errors`: `src/error.rs`.
- `Scales`: `src/scales/mod.rs`.
- `Channels`: `src/channels/mod.rs`.
- `AiChannels`: `src/channels/ai_channels.rs`.
- `Tasks`: `src/tasks/task.rs`.
- `Input`: `src/tasks/input.rs`.
- `LegacyTask`: `src/task.rs`.

The model stays on the Rust side of the driver boundary:

- **Native calls are parameters.** Each native call is a function from the
  record of its arguments to what it returns and writes. A string getter is
  a function of its arguments, so the size probe and the fill can answer
  unrelated things. That is how the model shows the property changing
  between the two calls.
- **Recorded calls.** Some operations also return the argument records of
  the driver calls they made, in order:
  - `Channels.ReadChannelPropertyString` and `Tasks.Name` return the probe
    and the fill;
  - `AiChannels.Scale` returns the calls of its name read, and none when it
    skips that read;
  - `Tasks.NewTask` returns the names passed to the driver;
  - `AiChannels.VoltageChannelBuilder.AddToTask` and `Input.Read` return
    their one call.

  The scalar reads (`Channels.ReadChannelProperty`,
  `AiChannels.AiTerminalConfig`, and the unit read of `AiChannels.Scale`)
  make exactly one call and return no record.
- **Vendor constants are symbolic.** A `Vendor.Table` maps each
  `DAQmx_Val_*` constant the code uses to an `i32`. The round-trip lemmas
  require only that the table be injective (`Vendor.Distinct`).
- **Panics become preconditions.** `buffer_to_string` panics when the text
  before the first zero is not UTF-8, so that condition is its precondition
  (`Types.Decodable`). `handle_error` reaches it for the one description it
  fetches, so an operation requires that description to be decodable for
  exactly the statuses it classifies (`Errors.CodeDecodable`,
  `Errors.ExtendedDecodable`, `Channels.ProbeDecodable`,
  `AiChannels.ScaleDecodable`, `Tasks.NameStatusesDecodable`).
- **Strings.** A Rust `String` is a well-formed UTF-8 byte sequence
  (`Types.RustString`). A `CString` is a byte sequence without a zero byte
  (`Ffi.CString`).
- **Macros and helpers.** `daqmx_call!(e)` is `handle_error(e)`.
  `string_property_size_error` is a parameter of type `i32 -> Result<bool>`.
- **Encoders.** The encoders `c as i32` are the functions
  `AiChannels.TerminalCode`, `AiChannels.ScaleUnitCode` and
  `Scales.UnitCode`. Each one's contract says that no other variant gets its
  code. The round-trip lemmas say that the decoders map the code back.

Where the model keeps what the code does:

- **The scale decoder's error name.** The `VoltageScale` decoder reports an
  unknown unit code under the name `"AnalogTerminalConfig"`.
  `AiChannels.ScaleFromCode` keeps that literal.
- **Sample counts that wrap.** A sample count above `i32::MAX` is wrapped
  by the `as i32` cast. `Some(u32::MAX)` therefore reaches the driver as
  the `-1` that means "all available samples" (`Input.LargestCountIsSentinel`).
- **The error type.** The `src/error.rs` file has only two variants of
  `DaqmxError`. The model's error type also has the three variants that the
  channel code constructs: `UnexpectedValue`, `StringPropertyLengthChanged`,
  and a UTF-8 error.

## Model

| member | source | states |
|---|---|---|
| Ffi.AsU8 | src/types.rs:11 | `e as u8` keeps the value modulo 256 and is zero exactly when the entry is zero |
| Ffi.U32AsI32 | src/tasks/input.rs:37 | `v as i32` keeps the value modulo 2^32, is `v` when `v <= i32::MAX` and negative otherwise |
| Ffi.SaturatingU32 | src/tasks/input.rs:40-42 | the buffer length as `u32`, saturated at `u32::MAX`, never more than the real length |
| Utf8.CharWidth | src/types.rs:15 | the width of the UTF-8 character a byte string starts with: 1 exactly for an ASCII byte, at most 4, its later bytes continuation bytes |
| Utf8.AsciiIsValid | src/types.rs:15 | every ASCII byte string is accepted by `String::from_utf8` |
| Utf8.RejectsIllFormed | src/types.rs:15 | an overlong encoding, an encoded surrogate and a lone continuation byte are rejected |
| Types.FirstNul | src/types.rs:11 | where `take_while(e != 0)` stops: every earlier entry is nonzero, the entry there is zero or the buffer ended |
| Types.NulPrefix | src/types.rs:11 | the entries before the first zero, each reinterpreted as `u8`; it holds no zero byte |
| Types.BufferToString | src/types.rs:8-17 | exactly the bytes before the first zero, reinterpreted as `u8`, no longer than the buffer and without a zero byte; defined exactly when they are UTF-8 |
| Types.UnterminatedConvertsInFull | src/types.rs:11 | a buffer without a zero entry converts in full |
| Types.FirstNulAt | src/types.rs:11 | the first zero is unique: a position with only nonzero entries before it and a zero at it is the first zero |
| Types.RestAfterNulIgnored | src/types.rs:11 | the entries after the first zero never affect the result |
| Types.AsciiDecodable | src/types.rs:15 | a buffer of non-negative entries never makes the conversion panic |
| Types.AsciiUnterminated | src/types.rs:30-35 | a buffer of positive entries converts to itself |
| Types.DeviceIdenUnterminated | src/types.rs:30-35 | the unit test: "Device iden" without a terminator converts to "Device iden" |
| Types.DeviceIdenWithTrailingZeros | src/types.rs:23-28 | the unit test: "Device iden" followed by three zeros converts to "Device iden" |
| Errors.NewCString | src/channels/ai_channels.rs:37 | `CString::new` fails with `CStringError` exactly when the bytes hold a zero, and otherwise keeps them |
| Errors.MessageBuffer | src/error.rs:27-28 | the scratch buffer the message calls fill has 2048 entries |
| Errors.ExtendedMessage | src/error.rs:27-29 | the extended error description is the fetched entries reinterpreted as `u8` up to the first zero entry, or all 2048 of them when there is none; it holds no zero byte |
| Errors.Classify | src/error.rs:18-44 | the sign decides: 0 is success, a negative code a hard error and a positive one a warning, each carrying the code; a hard error's message is the extended description, a warning's the description of that same code, both at most 2048 bytes |
| Errors.HandleError | src/error.rs:18-44 | fails exactly on a negative code, with that code and the extended description; zero and every warning succeed |
| Scales.UnitOfConstant | src/scales/mod.rs:12-41 | the variant whose declared discriminant is a given vendor constant, and `None` exactly when no variant is declared with it |
| Scales.UnitCode | src/scales/mod.rs:10-41 | `u as i32` is a discriminant no other variant shares, given distinct vendor constants |
| Scales.UnitIndex | src/scales/mod.rs:12-41 | each of the 28 variants has a position in the declaration |
| Scales.UnitAtIndex | src/scales/mod.rs:12-41 | every variant is the one declared at its position |
| Scales.FirstWithCode | src/scales/mod.rs:11-12 | the derived search from a position on: what it finds has the code, and it finds nothing exactly when no later variant has the code |
| Scales.FromI32 | src/scales/mod.rs:11-41 | `from_i32` returns a variant whose discriminant is the code, and `None` exactly when no variant has that discriminant |
| Scales.DiscriminantsDistinct | src/scales/mod.rs:12-41 | two variants with the same discriminant are the same variant, given distinct vendor constants |
| Scales.FromI32RoundTrip | src/scales/mod.rs:11-12 | `from_i32(u as i32) == Some(u)` for every variant |
| AiChannels.TerminalCode | src/channels/ai_channels.rs:99-113 | `c as i32` is a code no other configuration shares, given distinct vendor constants |
| AiChannels.TerminalConfigFromCode | src/channels/ai_channels.rs:121-138 | a decoded configuration encodes back to the code; the error is `UnexpectedValue("AnalogTerminalConfig", value)` exactly when no configuration has the code |
| AiChannels.TerminalConfigRoundTrip | src/channels/ai_channels.rs:102-113 | `try_from(c as i32) == Ok(c)` for all five configurations |
| AiChannels.DefaultIsDriverDefault | src/channels/ai_channels.rs:115-119 | the default configuration is encoded as the driver's default code, which decodes back to it |
| AiChannels.ScaleUnitCode | src/channels/ai_channels.rs:150-158 | the unit code is the volts constant exactly for `Volts`, the custom-scale constant exactly for a custom scale, and the TEDS constant exactly for `FromTEDS`, given distinct vendor constants |
| AiChannels.ScaleName | src/channels/ai_channels.rs:161-169 | a named custom scale gives its name; every other scale, `CustomScale(None)` included, the empty string |
| AiChannels.ScaleFromCode | src/channels/ai_channels.rs:171-186 | a decoded scale encodes back to the code and a decoded custom scale is unnamed; any other code is `UnexpectedValue("AnalogTerminalConfig", value)` |
| AiChannels.ScaleRoundTrip | src/channels/ai_channels.rs:150-158 | decoding the unit code of `Volts` or `FromTEDS` gives it back, and of any custom scale gives `CustomScale(None)` |
| AiChannels.NewChannelBase | src/channels/ai_channels.rs:35-40 | a channel handle fails with `CStringError` exactly when the name holds a zero, and otherwise keeps the task and the name |
| AiChannels.AiTerminalConfig | src/channels/ai_channels.rs:62-65 | the configuration is the scalar read's code, decoded; a failed read is passed on |
| AiChannels.ScaleRead | src/channels/ai_channels.rs:77-89 | the scale is never `CustomScale(None)` and encodes back to the unit code the driver reported; a failed unit read and an unknown unit code are passed on; `Volts` and `FromTEDS` come back as decoded; a custom scale takes the name read's error, `CStringError` for a zero byte, or the name |
| AiChannels.Scale | src/channels/ai_channels.rs:77-89 | `scale()` returns what `ScaleRead` describes, and reads the name (starting with a null/0 probe) exactly when the unit read succeeds with a custom unit code |
| AiChannels.ScaleReadsBack | src/channels/ai_channels.rs:77-89 | a scale the driver reports steadily, with a success or a warning status and with its name when custom, reads back as exactly that scale |
| AiChannels.VoltageChannelBuilder.constructor | src/channels/ai_channels.rs:206-213 | no display name, range -5 to 5, volts, the default terminal configuration |
| AiChannels.VoltageChannelBuilder.New | src/channels/ai_channels.rs:205-214 | fails with `CStringError` exactly when the physical channel holds a zero; otherwise a fresh builder with the defaults |
| AiChannels.VoltageChannelBuilder.Name | src/channels/ai_channels.rs:216-219 | on success sets the name and returns the same builder, changing nothing else; on a zero byte leaves the builder as it was |
| AiChannels.VoltageChannelBuilder.AddToTask | src/channels/ai_channels.rs:223-234 | passes the physical channel, the name or "", the terminal code, min, max, and the unit code and scale name of the same scale; fails exactly on a negative status, with it |
| Channels.StringPropertyRead | src/channels/mod.rs:15-60 | a failed probe is reported with its code; the size check of the fill decides next (its error passed on, `true` a length-change error); on success the text is the filled buffer without its last byte, of length size-1, or a UTF-8 error |
| Channels.ReadChannelPropertyString | src/channels/mod.rs:15-60 | returns what `StringPropertyRead` describes; the probe passes a null buffer and 0; after a failed probe no other call; otherwise one fill whose size is the probe's result |
| Channels.StableStringReadsBack | src/channels/mod.rs:41-59 | a property that does not change between the probe and the fill reads back as its value |
| Channels.EmptyProbeReadsEmpty | src/channels/mod.rs:37-59 | a probe of 0 reads the empty string |
| Channels.ScalarPropertyRead | src/channels/mod.rs:62-75 | succeeds exactly when the status is not negative, with the value the getter wrote over the default; otherwise the status and the extended description |
| Channels.ReadChannelProperty | src/channels/mod.rs:62-75 | returns what `ScalarPropertyRead` describes |
| Tasks.FilledName | src/tasks/task.rs:35-37 | the fill buffer has exactly the probed size |
| Tasks.TaskNameRead | src/tasks/task.rs:27-42 | a failed probe is reported with its code; a failed fill with its code; a warning still succeeds; the name is the filled buffer's text up to its first zero, within the probed size |
| Tasks.Name | src/tasks/task.rs:27-42 | returns what `TaskNameRead` describes; the probe passes a null buffer and 0; after a failed probe no other call; otherwise one fill of the probed size |
| Tasks.StableNameReadsBack | src/tasks/task.rs:35-41 | a name the driver reports steadily reads back, even with a warning status |
| Tasks.GrownNameIsTruncated | src/tasks/task.rs:35-41 | without a race check, a name that grew after the probe is cut to the probed size and the read succeeds |
| Tasks.NewTask | src/tasks/task.rs:49-62 | a name holding a zero fails with `CStringError` before any driver call; otherwise the handle the driver wrote, or null, exactly when the status is not negative |
| Input.RequestedSamples | src/tasks/input.rs:36-39 | `None` is -1; a count up to `i32::MAX` is passed unchanged; a larger one wraps to a negative value congruent modulo 2^32 |
| Input.RequestedSamplesRoundTrip | src/tasks/input.rs:36-39 | every request that fits in an `i32` reaches the driver as meant |
| Input.LargestCountIsSentinel | src/tasks/input.rs:37 | `Some(u32::MAX)` reaches the driver as the `None` sentinel |
| Input.OtherLargeCountsWrapNegative | src/tasks/input.rs:37 | every other count above `i32::MAX` reaches the driver as a negative count that is not the sentinel |
| Input.Marshalled | src/tasks/input.rs:35-51 | the buffer length passed never exceeds the real length |
| Input.Read | src/tasks/input.rs:28-54 | passes the sample count, timeout, fill mode and the saturated buffer length; the driver's samples fill the buffer in place; succeeds exactly on a non-negative status, with the reported count or 0 |
| LegacyTask.TakeNonNul | src/task.rs:78 | the fused `take_while`/`map` is never longer than the buffer |
| LegacyTask.TakeNonNulIsNulPrefix | src/task.rs:75-84 | the legacy copy takes exactly the bytes `buffer_to_string` takes, on every buffer |
| LegacyTask.ErrorBufferToString | src/task.rs:75-84 | `error_buffer_to_string` is defined exactly when `buffer_to_string` is, and agrees with it |
| LegacyTask.LegacyDeviceIdenWithTrailingZeros | src/task.rs:102-107 | the unit test: trailing zeros are dropped |
| LegacyTask.LegacyDeviceIdenUnterminated | src/task.rs:110-114 | the unit test: an unterminated buffer converts in full |
| LegacyTask.LegacyHandleError | src/task.rs:49-73 | returns nothing for every code; prints nothing for 0, the extended description for a negative code and the description of that same code for a positive one |
| LegacyTask.LegacyAgreesWithClassify | src/task.rs:49-73 | the legacy check prints what the current classification reports, with the same message |

## Left out

- Native driver entry points (`ni_daqmx_sys::*`, `nidaqmx_sys::*`) are foreign calls. They are parameters of the operations that call them. The numeric values of the vendor constants are a parameter table.
- Task lifetime (`Drop`, `clear`) and the cloning and thread sharing of `Task<AnalogInput>` manage resources and concurrency, which this model does not cover. The generic task type is not part of this model; a task is its raw handle.
- `src/tasks/ai_task.rs` is a thin wrapper whose `read` discards the status. It is not part of this model.
- `src/ai_channels.rs` is a legacy, unreferenced single driver call. It is not part of this model.
- `src/lib.rs` and the tests under `tests/` are example code and hardware-in-the-loop tests. They are not part of this model.
- The legacy `Task::new`, `Task::add_channel` and `Task::read` in `src/task.rs` are not part of this model. The file is not declared in `src/lib.rs`. `Task::new` panics on a name holding a zero byte, then makes one driver call and ignores its status. `Task::read` makes one driver call and ignores its status. `Task::add_channel` makes no call itself: it forwards to `TaskChannel::add_to_task`, whose only implementation passes the status to the legacy `handle_error` that prints it.
- How the driver interprets a sample count is not stated by the crate. `Input.SamplesMeant` assumes the reading that `Input.RequestedSamplesRoundTrip` relies on: -1 means all available samples, and a non-negative value means that many.
- Floating-point values (`min`, `max`, the timeout) are passed through unchanged as `real`; the code does no arithmetic on them.
- `LegacyTask.LegacyHandleError`: the printed line's prefix ("DAQmx Error: ", "DAQmx Warning: ") and the `warn!` log of the current `handle_error` are side effects. Only the message is modelled.
- `Input.Read`: takes the timeout and fill mode already converted, because the `Timeout` and `DataFillMode` conversions are not part of this model.
- The bodies of `string_property_size_error` and the `daqmx_call!` macro are not part of this model.
- `physical_channel`, `ai_max`, `ai_min` and `custom_scale_name` are each a single use of `ReadChannelPropertyString` or `ReadChannelProperty` with a particular getter. They have no members of their own. The `delegate!` forwarding is the identity.
- `AiChannels.VoltageChannelBuilder.AddToTask`: does not model that `add_to_task` consumes the builder. The method reads the builder and leaves it unchanged.
- `Tasks.Name`: `self.handle()` is called once per driver call in the source; the model takes the handle as one value.
- A `BufferPtr` records only the length of a buffer passed to the driver, not its address.
