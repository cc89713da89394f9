/** Analog-input voltage channels (`src/channels/ai_channels.rs`): the codecs
    between the driver's integer codes and the terminal configuration and
    voltage scale, the accessor that reads a registered channel back, and the
    builder that registers a channel with one native call. */
module AiChannels {
  import opened Ffi
  import V = Vendor
  import Scales
  import opened Errors
  import opened Channels

  // ---------------------------------------------------------------------------
  // Terminal configuration

  /** `#[repr(i32)]`: each variant's discriminant is a vendor constant. */
  datatype AnalogTerminalConfig = Default | RSE | NRSE | Differential | PseudoDifferential

  /** `impl Default for AnalogTerminalConfig`. */
  const DEFAULT_TERMINAL_CONFIG: AnalogTerminalConfig := Default

  /** The vendor constant each variant is declared equal to. */
  function TerminalConstant(c: AnalogTerminalConfig): V.Constant {
    match c
    case Default => V.CfgDefault
    case RSE => V.RSE
    case NRSE => V.NRSE
    case Differential => V.Diff
    case PseudoDifferential => V.PseudoDiff
  }

  /** `c as i32`: the vendor constant the variant is declared with, so that
      no other variant has the same code. */
  function TerminalCode(t: V.Table, c: AnalogTerminalConfig): (code: i32)
    ensures V.Distinct(t) ==> forall d :: t(TerminalConstant(d)) == code <==> d == c
  {
    t(TerminalConstant(c))
  }

  /** `AnalogTerminalConfig::try_from`: the variant whose code is `value`, or
      an `UnexpectedValue` error that names the enumeration and keeps the
      value. */
  function TerminalConfigFromCode(t: V.Table, value: i32): (r: Result<AnalogTerminalConfig>)
    ensures r.Ok? ==> TerminalCode(t, r.value) == value
    ensures r.Err? <==> forall c :: TerminalCode(t, c) != value
    ensures r.Err? ==> r.error == UnexpectedValue("AnalogTerminalConfig", value)
  {
    if value == t(V.CfgDefault) then Ok(Default)
    else if value == t(V.RSE) then Ok(RSE)
    else if value == t(V.NRSE) then Ok(NRSE)
    else if value == t(V.Diff) then Ok(Differential)
    else if value == t(V.PseudoDiff) then Ok(PseudoDifferential)
    else Err(UnexpectedValue("AnalogTerminalConfig", value))
  }

  /** Decoding a variant's code gives the variant back. */
  lemma TerminalConfigRoundTrip(t: V.Table, c: AnalogTerminalConfig)
    requires V.Distinct(t)
    ensures TerminalConfigFromCode(t, TerminalCode(t, c)) == Ok(c)
  {
    var r := TerminalConfigFromCode(t, TerminalCode(t, c));
    assert t(TerminalConstant(r.value)) == t(TerminalConstant(c));
  }

  /** The crate's default configuration is the one the driver's own default
      code decodes to, and it is encoded as that code. */
  lemma DefaultIsDriverDefault(t: V.Table)
    ensures TerminalCode(t, DEFAULT_TERMINAL_CONFIG) == t(V.CfgDefault)
    ensures TerminalConfigFromCode(t, t(V.CfgDefault)) == Ok(DEFAULT_TERMINAL_CONFIG)
  {
  }

  // ---------------------------------------------------------------------------
  // Voltage scale

  /** The units of a voltage channel. A custom scale read from the driver
      starts without its name (`None`). */
  datatype VoltageScale = Volts | CustomScale(name: Option<CString>) | FromTEDS

  /** `From<VoltageScale> for i32`: the unit code. Volts and TEDS go through
      the discriminants of `PreScaledUnits`. */
  function ScaleUnitCode(t: V.Table, s: VoltageScale): (code: i32)
    ensures V.Distinct(t) ==>
      && (code == t(V.Volts) <==> s.Volts?)
      && (code == t(V.FromCustomScale) <==> s.CustomScale?)
      && (code == t(V.FromTEDS) <==> s.FromTEDS?)
  {
    match s
    case Volts => Scales.UnitCode(t, Scales.Volts)
    case CustomScale(_) => t(V.FromCustomScale)
    case FromTEDS => Scales.UnitCode(t, Scales.FromTEDS)
  }

  /** `From<VoltageScale> for CString`: the scale name passed with the unit
      code. Only a named custom scale has a non-empty one. */
  function ScaleName(s: VoltageScale): (n: CString)
    ensures s.CustomScale? && s.name.Some? ==> n == s.name.value
    ensures n != [] ==> s == CustomScale(Some(n))
  {
    match s
    case CustomScale(Some(name)) => name
    case _ => []
  }

  /** `VoltageScale::try_from`: the scale whose unit code is `value`; a
      custom scale comes back unnamed. An unknown code is reported under the
      name "AnalogTerminalConfig", as the source does. */
  function ScaleFromCode(t: V.Table, value: i32): (r: Result<VoltageScale>)
    ensures r.Ok? && r.value.CustomScale? ==> r.value.name.None?
    ensures r.Ok? ==> ScaleUnitCode(t, r.value) == value
    ensures r.Err? <==> value !in {t(V.Volts), t(V.FromCustomScale), t(V.FromTEDS)}
    ensures r.Err? ==> r.error == UnexpectedValue("AnalogTerminalConfig", value)
  {
    if value == t(V.Volts) then Ok(Volts)
    else if value == t(V.FromCustomScale) then Ok(CustomScale(None))
    else if value == t(V.FromTEDS) then Ok(FromTEDS)
    else Err(UnexpectedValue("AnalogTerminalConfig", value))
  }

  /** The scale as the driver can report it: a custom scale loses its name. */
  function Unnamed(s: VoltageScale): VoltageScale {
    if s.CustomScale? then CustomScale(None) else s
  }

  /** Decoding a scale's unit code gives the scale back, except that a custom
      scale comes back unnamed. This rests on `PreScaledUnits::Volts` and
      `PreScaledUnits::FromTEDS` carrying the constants the decoder tests. */
  lemma ScaleRoundTrip(t: V.Table, s: VoltageScale)
    requires V.Distinct(t)
    ensures ScaleFromCode(t, ScaleUnitCode(t, s)) == Ok(Unnamed(s))
  {
    assert Scales.UnitConstant(Scales.Volts) == V.Volts;
    assert Scales.UnitConstant(Scales.FromTEDS) == V.FromTEDS;
    assert t(V.Volts) != t(V.FromCustomScale) && t(V.FromCustomScale) != t(V.FromTEDS)
        && t(V.Volts) != t(V.FromTEDS);
  }

  // ---------------------------------------------------------------------------
  // Reading a registered channel back

  /** A handle on a channel already registered in a task: the task's raw
      handle and the channel's name. */
  datatype AnalogInputChannelBase = AnalogInputChannelBase(task: RawHandle, name: CString)

  /** `AnalogInputChannelBase::new` (and `VoltageInputChannel::new`, which
      wraps it): fails only when the name holds a zero byte. */
  function NewChannelBase(task: RawHandle, name: seq<u8>): (r: Result<AnalogInputChannelBase>)
    ensures r.Err? <==> 0 in name
    ensures r.Err? ==> r.error == CStringError
    ensures r.Ok? ==> r.value.task == task && r.value.name == name
  {
    var cname :- NewCString(name);
    Ok(AnalogInputChannelBase(task, cname))
  }

  /** `ai_terminal_config`: the code the getter reports, decoded. */
  method AiTerminalConfig(ch: AnalogInputChannelBase, t: V.Table, getter: ScalarGetter<i32>,
                          texts: ErrorTexts) returns (r: Result<AnalogTerminalConfig>)
    requires CodeDecodable(texts, getter(ch.task, ch.name).status)
    ensures var code := ScalarPropertyRead(ch.task, ch.name, getter, 0, texts);
      r == if code.Err? then Err(code.error) else TerminalConfigFromCode(t, code.value)
  {
    var code :- ReadChannelProperty(ch.task, ch.name, getter, 0, texts);
    r := TerminalConfigFromCode(t, code);
  }

  /** `scale` goes on to read the custom scale's name: the unit read
      succeeded and its code decodes to a custom scale. */
  predicate ReadsScaleName(ch: AnalogInputChannelBase, t: V.Table, unitsGetter: ScalarGetter<i32>) {
    var units := unitsGetter(ch.task, ch.name);
    && units.status >= 0
    && ScaleFromCode(t, units.written.GetOr(0)).Ok?
    && ScaleFromCode(t, units.written.GetOr(0)).value.CustomScale?
  }

  /** `scale` does not panic: the unit read's status is classified without
      one, and so is the name probe's when the name is read. */
  predicate ScaleDecodable(ch: AnalogInputChannelBase, t: V.Table, unitsGetter: ScalarGetter<i32>,
                           nameGetter: StringGetter, texts: ErrorTexts) {
    && CodeDecodable(texts, unitsGetter(ch.task, ch.name).status)
    && (ReadsScaleName(ch, t, unitsGetter) ==> ProbeDecodable(ch.task, ch.name, nameGetter, texts))
  }

  /** The result of `VoltageInputChannel::scale`: read the unit code, decode
      it, and for a custom scale read its name as a second property. */
  function ScaleRead(ch: AnalogInputChannelBase, t: V.Table, unitsGetter: ScalarGetter<i32>,
                     nameGetter: StringGetter, sizeCheck: i32 -> Result<bool>,
                     texts: ErrorTexts): (r: Result<VoltageScale>)
    requires ScaleDecodable(ch, t, unitsGetter, nameGetter, texts)
    // never an unnamed custom scale
    ensures r.Ok? ==> r.value != CustomScale(None)
    // the scale encodes back to the unit code the driver reported
    ensures r.Ok? ==> var units := ScalarPropertyRead(ch.task, ch.name, unitsGetter, 0, texts);
      units.Ok? && ScaleUnitCode(t, r.value) == units.value
    // a failed unit read is passed on unchanged
    ensures ScalarPropertyRead(ch.task, ch.name, unitsGetter, 0, texts).Err? ==>
      r == Err(ScalarPropertyRead(ch.task, ch.name, unitsGetter, 0, texts).error)
    // after a successful unit read, the decoding decides
    ensures ScalarPropertyRead(ch.task, ch.name, unitsGetter, 0, texts).Ok? ==>
      var scale := ScaleFromCode(t, ScalarPropertyRead(ch.task, ch.name, unitsGetter, 0, texts).value);
      // an unknown unit code is reported
      && (scale.Err? ==> r == Err(scale.error))
      // volts and TEDS come back as decoded
      && (scale.Ok? && !scale.value.CustomScale? ==> r == scale)
      // a custom scale takes the name read: its error, a zero byte, or the name
      && (scale.Ok? && scale.value.CustomScale? ==>
            var name := StringPropertyRead(ch.task, ch.name, nameGetter, sizeCheck, texts);
            && (name.Err? ==> r == Err(name.error))
            && (name.Ok? && 0 in name.value ==> r == Err(CStringError))
            && (name.Ok? && 0 !in name.value ==> r == Ok(CustomScale(Some(name.value)))))
  {
    var units :- ScalarPropertyRead(ch.task, ch.name, unitsGetter, 0, texts);
    var scale :- ScaleFromCode(t, units);
    if scale.CustomScale? then
      var name :- StringPropertyRead(ch.task, ch.name, nameGetter, sizeCheck, texts);
      var cname :- NewCString(name);
      Ok(CustomScale(Some(cname)))
    else
      Ok(scale)
  }

  /** `VoltageInputChannel::scale`. `nameCalls` are the calls of the name
      read: there are some exactly when the unit code decodes to a custom
      scale. */
  method Scale(ch: AnalogInputChannelBase, t: V.Table, unitsGetter: ScalarGetter<i32>,
               nameGetter: StringGetter, sizeCheck: i32 -> Result<bool>,
               texts: ErrorTexts) returns (r: Result<VoltageScale>, nameCalls: seq<StringCall>)
    requires ScaleDecodable(ch, t, unitsGetter, nameGetter, texts)
    ensures r == ScaleRead(ch, t, unitsGetter, nameGetter, sizeCheck, texts)
    ensures nameCalls != [] <==> ReadsScaleName(ch, t, unitsGetter)
    ensures nameCalls != [] ==> nameCalls[0] == ProbeCall(ch.task, ch.name) && |nameCalls| <= 2
  {
    nameCalls := [];
    var units :- ReadChannelProperty(ch.task, ch.name, unitsGetter, 0, texts);
    var scale :- ScaleFromCode(t, units);
    if scale.CustomScale? {
      var name;
      name, nameCalls := ReadChannelPropertyString(ch.task, ch.name, nameGetter, sizeCheck, texts);
      var n :- name;
      var cname :- NewCString(n);
      r := Ok(CustomScale(Some(cname)));
    } else {
      r := Ok(scale);
    }
  }

  /** A scale configured on a channel reads back as configured, when the
      driver reports the unit code it was given, with a success or a warning
      status, and, for a custom scale, holds its name steadily. */
  lemma ScaleReadsBack(ch: AnalogInputChannelBase, t: V.Table, s: VoltageScale,
                       unitsGetter: ScalarGetter<i32>, nameGetter: StringGetter,
                       sizeCheck: i32 -> Result<bool>, texts: ErrorTexts)
    requires V.Distinct(t)
    requires s != CustomScale(None)
    requires unitsGetter(ch.task, ch.name).status >= 0
    requires CodeDecodable(texts, unitsGetter(ch.task, ch.name).status)
    requires unitsGetter(ch.task, ch.name).written == Some(ScaleUnitCode(t, s))
    requires s.CustomScale? ==>
      && Utf8.ValidUtf8(s.name.value)
      && StableString(ch.task, ch.name, nameGetter, s.name.value)
      && sizeCheck(0) == Ok(false)
    ensures ScaleDecodable(ch, t, unitsGetter, nameGetter, texts)
    ensures ScaleRead(ch, t, unitsGetter, nameGetter, sizeCheck, texts) == Ok(s)
  {
    ScaleRoundTrip(t, s);
    if s.CustomScale? {
      StableStringReadsBack(ch.task, ch.name, nameGetter, sizeCheck, texts, s.name.value);
    }
  }

  // ---------------------------------------------------------------------------
  // Registering a channel

  /** The arguments of `DAQmxCreateAIVoltageChan`. */
  datatype VoltageChanArgs = VoltageChanArgs(
    task: RawHandle, physicalChannel: CString, nameToAssign: CString,
    terminalConfig: i32, min: real, max: real, units: i32, customScaleName: CString)

  /** The native call that registers a voltage channel; it returns a status. */
  type VoltageChanCreator = VoltageChanArgs -> i32

  /** The configuration of a voltage channel before it is registered. */
  class VoltageChannelBuilder {
    var physicalChannel: CString
    var name: Option<CString>
    var max: real
    var min: real
    var scale: VoltageScale
    var terminalConfig: AnalogTerminalConfig

    /** The builder with its default settings: no display name, a range of
        -5 V to 5 V, volts, and the hardware's default terminal configuration. */
    constructor (physicalChannel: CString)
      ensures this.physicalChannel == physicalChannel && name == None
      ensures max == 5.0 && min == -5.0
      ensures scale == Volts && terminalConfig == DEFAULT_TERMINAL_CONFIG
    {
      this.physicalChannel := physicalChannel;
      name := None;
      max := 5.0;
      min := -5.0;
      scale := Volts;
      terminalConfig := Default;
    }

    /** `VoltageChannelBuilder::new`: fails only when the physical channel
        holds a zero byte. */
    static method New(physicalChannel: seq<u8>) returns (r: Result<VoltageChannelBuilder>)
      ensures r.Err? <==> 0 in physicalChannel
      ensures r.Err? ==> r.error == CStringError
      ensures r.Ok? ==> && fresh(r.value)
                        && r.value.physicalChannel == physicalChannel && r.value.name == None
                        && r.value.max == 5.0 && r.value.min == -5.0
                        && r.value.scale == Volts && r.value.terminalConfig == DEFAULT_TERMINAL_CONFIG
    {
      var channel :- NewCString(physicalChannel);
      var b := new VoltageChannelBuilder(channel);
      r := Ok(b);
    }

    /** `VoltageChannelBuilder::name`: sets the display name and returns the
        same builder; a name holding a zero byte leaves the builder as it was. */
    method Name(n: seq<u8>) returns (r: Result<VoltageChannelBuilder>)
      modifies this`name
      ensures r.Err? <==> 0 in n
      ensures r.Err? ==> r.error == CStringError && name == old(name)
      ensures r.Ok? ==> r.value == this && name == Some(n)
    {
      var cname :- NewCString(n);
      name := Some(cname);
      r := Ok(this);
    }

    /** The arguments `add_to_task` passes for this configuration. */
    function Marshalled(task: RawHandle, t: V.Table): VoltageChanArgs
      reads this
    {
      VoltageChanArgs(task, physicalChannel, if name.Some? then name.value else [],
                      TerminalCode(t, terminalConfig), min, max, ScaleUnitCode(t, scale), ScaleName(scale))
    }

    /** `add_to_task`: one call to the driver carrying the whole
        configuration, its status read by `handle_error`. An unset display
        name is passed as the empty string, and the scale is passed both as a
        unit code and as a scale name. */
    method AddToTask(task: RawHandle, t: V.Table, create: VoltageChanCreator, texts: ErrorTexts)
      returns (r: Result<()>, call: VoltageChanArgs)
      requires CodeDecodable(texts, create(Marshalled(task, t)))
      ensures call == Marshalled(task, t)
      ensures call.task == task && call.physicalChannel == physicalChannel
      ensures call.nameToAssign == (if name.Some? then name.value else [])
      ensures call.terminalConfig == TerminalCode(t, terminalConfig)
      ensures call.min == min && call.max == max
      ensures call.units == ScaleUnitCode(t, scale) && call.customScaleName == ScaleName(scale)
      ensures r.Err? <==> create(call) < 0
      ensures r.Err? ==> r.error == DaqmxError(create(call), ExtendedMessage(texts))
    {
      var emptyString: CString := [];
      var displayName := if name.Some? then name.value else emptyString;
      call := VoltageChanArgs(task, physicalChannel, displayName, TerminalCode(t, terminalConfig),
                              min, max, ScaleUnitCode(t, scale), ScaleName(scale));
      assert call == Marshalled(task, t);
      r := HandleError(create(call), texts);
    }
  }
}
