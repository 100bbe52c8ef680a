/**
 * The configuration surface of the receiver that has logic of its own: the
 * mode strings of the setters, the three-way handling of a device status, the
 * options read by the constructor, the AGC table search, antenna validity, and
 * the constraints and channel wiring set up at construction.
 */
module Config {
  import opened Wrappers

  /** libbladeRF's BLADERF_ERR_UNSUPPORTED. */
  const ErrUnsupported: int := -8

  /** `sizeof(gr_complex)`: two 32-bit floats. */
  const ComplexSize: nat := 8

  /** What a call throws: a device status, or a mode name it does not know. */
  datatype Error = DeviceError(code: int) | UnknownMode(name: string)

  /**
   * How a mode setter ends: the mode was set, the device does not support it
   * (a warning only), or the setter threw.
   */
  datatype Applied<M> = Set(mode: M) | Unsupported(mode: M) | Failed(error: Error)

  /**
   * The status check shared by the bias-tee, loopback and RX-mux setters:
   * zero is success, BLADERF_ERR_UNSUPPORTED is only a warning, anything else
   * throws.
   */
  function Classify<M>(mode: M, status: int): (r: Applied<M>)
    ensures r.Set? <==> status == 0
    ensures r.Unsupported? <==> status == ErrUnsupported
    ensures r.Failed? <==> status != 0 && status != ErrUnsupported
    ensures r.Failed? ==> r.error == DeviceError(status)
    ensures !r.Failed? ==> r.mode == mode
  {
    if status == ErrUnsupported then Unsupported(mode)
    else if status != 0 then Failed(DeviceError(status))
    else Set(mode)
  }

  // ---------------------------------------------------------------- bias tee

  /** The names that switch the bias tee on. */
  const BiasTeeOnNames: set<string> := {"on", "1", "rx"}

  /** `set_biastee_mode`: any name other than the three "on" names switches it off. */
  function SetBiasTeeMode(mode: string, status: int): (r: Applied<bool>)
    ensures !r.Failed? ==> (r.mode <==> mode in BiasTeeOnNames)
    ensures r.Set? <==> status == 0
    ensures r.Failed? <==> status != 0 && status != ErrUnsupported
    ensures r.Failed? ==> r.error == DeviceError(status)
  {
    var enable := mode == "on" || mode == "1" || mode == "rx";
    Classify(enable, status)
  }

  // ---------------------------------------------------------------- loopback

  datatype Loopback =
    | BbTxlpfRxvga2 | BbTxlpfRxlpf | BbTxvga1Rxvga2 | BbTxvga1Rxlpf
    | RfLna1 | RfLna2 | RfLna3 | Firmware | RficBist | NoLoopback

  /** The configuration name of each loopback mode. */
  function LoopbackName(m: Loopback): string
  {
    match m
    case BbTxlpfRxvga2 => "bb_txlpf_rxvga2"
    case BbTxlpfRxlpf => "bb_txlpf_rxlpf"
    case BbTxvga1Rxvga2 => "bb_txvga1_rxvga2"
    case BbTxvga1Rxlpf => "bb_txvga1_rxlpf"
    case RfLna1 => "rf_lna1"
    case RfLna2 => "rf_lna2"
    case RfLna3 => "rf_lna3"
    case Firmware => "firmware"
    case RficBist => "rfic_bist"
    case NoLoopback => "none"
  }

  /** The if/else chain of `set_loopback_mode`. */
  function ParseLoopback(name: string): (r: Option<Loopback>)
    ensures r.Some? ==> LoopbackName(r.value) == name
  {
    if name == "bb_txlpf_rxvga2" then Some(BbTxlpfRxvga2)
    else if name == "bb_txlpf_rxlpf" then Some(BbTxlpfRxlpf)
    else if name == "bb_txvga1_rxvga2" then Some(BbTxvga1Rxvga2)
    else if name == "bb_txvga1_rxlpf" then Some(BbTxvga1Rxlpf)
    else if name == "rf_lna1" then Some(RfLna1)
    else if name == "rf_lna2" then Some(RfLna2)
    else if name == "rf_lna3" then Some(RfLna3)
    else if name == "firmware" then Some(Firmware)
    else if name == "rfic_bist" then Some(RficBist)
    else if name == "none" then Some(NoLoopback)
    else None
  }

  /** Every loopback mode is reached from its own name, so the ten names are distinct. */
  lemma LoopbackRoundTrip(m: Loopback)
    ensures ParseLoopback(LoopbackName(m)) == Some(m)
  {
  }

  /** The parse rejects exactly the strings that are no mode's name. */
  lemma ParseLoopbackTotal(name: string)
    ensures ParseLoopback(name).None? <==> forall m :: LoopbackName(m) != name
  {
    if ParseLoopback(name).None? {
      forall m ensures LoopbackName(m) != name {
        LoopbackRoundTrip(m);
      }
    }
  }

  /** `set_loopback_mode`: an unknown name throws before the device is called. */
  function SetLoopbackMode(name: string, status: int): (r: Applied<Loopback>)
    ensures r == Failed(UnknownMode(name)) <==> forall m :: LoopbackName(m) != name
    ensures !r.Failed? ==> LoopbackName(r.mode) == name
    ensures r.Set? <==> status == 0 && exists m :: LoopbackName(m) == name
    ensures r.Failed? && r.error.DeviceError? ==> r.error.code == status && status != 0 && status != ErrUnsupported
    ensures r.Unsupported? <==> status == ErrUnsupported && ParseLoopback(name).Some?
    ensures ParseLoopback(name).Some? && status != 0 && status != ErrUnsupported ==> r == Failed(DeviceError(status))
  {
    ParseLoopbackTotal(name);
    match ParseLoopback(name)
    case None => Failed(UnknownMode(name))
    case Some(m) => Classify(m, status)
  }

  // ------------------------------------------------------------------ RX mux

  datatype RxMux = Baseband | Counter12Bit | Counter32Bit | DigitalLoopback

  /** The configuration name of each RX-mux mode. */
  function RxMuxName(m: RxMux): string
  {
    match m
    case Baseband => "baseband"
    case Counter12Bit => "12bit"
    case Counter32Bit => "32bit"
    case DigitalLoopback => "digital"
  }

  /** The if/else chain of `set_rx_mux_mode`. */
  function ParseRxMux(name: string): (r: Option<RxMux>)
    ensures r.Some? ==> RxMuxName(r.value) == name
  {
    if name == "baseband" then Some(Baseband)
    else if name == "12bit" then Some(Counter12Bit)
    else if name == "32bit" then Some(Counter32Bit)
    else if name == "digital" then Some(DigitalLoopback)
    else None
  }

  /** Every RX-mux mode is reached from its own name. */
  lemma RxMuxRoundTrip(m: RxMux)
    ensures ParseRxMux(RxMuxName(m)) == Some(m)
  {
  }

  /** The parse rejects exactly the strings that are no mode's name. */
  lemma ParseRxMuxTotal(name: string)
    ensures ParseRxMux(name).None? <==> forall m :: RxMuxName(m) != name
  {
    if ParseRxMux(name).None? {
      forall m ensures RxMuxName(m) != name {
        RxMuxRoundTrip(m);
      }
    }
  }

  /** `set_rx_mux_mode`: an unknown name throws before the device is called. */
  function SetRxMuxMode(name: string, status: int): (r: Applied<RxMux>)
    ensures r == Failed(UnknownMode(name)) <==> forall m :: RxMuxName(m) != name
    ensures !r.Failed? ==> RxMuxName(r.mode) == name
    ensures r.Set? <==> status == 0 && exists m :: RxMuxName(m) == name
    ensures r.Failed? && r.error.DeviceError? ==> r.error.code == status && status != 0 && status != ErrUnsupported
    ensures r.Unsupported? <==> status == ErrUnsupported && ParseRxMux(name).Some?
    ensures ParseRxMux(name).Some? && status != 0 && status != ErrUnsupported ==> r == Failed(DeviceError(status))
  {
    ParseRxMuxTotal(name);
    match ParseRxMux(name)
    case None => Failed(UnknownMode(name))
    case Some(m) => Classify(m, status)
  }

  // ---------------------------------------------------------------- sampling

  datatype Sampling = SamplingUnknown | SamplingInternal | SamplingExternal

  /** What the constructor does with the "sampling" option. */
  datatype SamplingStep =
    | NotRequested
    | InvalidSampling(value: string)
    | SamplingSet(mode: Sampling, warned: bool)

  /**
   * The "sampling" option: "internal" or "external" is passed to the device,
   * and a device failure only warns; any other value warns and is ignored.
   * This step never throws.
   */
  function SamplingOption(options: map<string, string>, status: int): (r: SamplingStep)
    ensures r.NotRequested? <==> "sampling" !in options
    ensures r.InvalidSampling? <==> "sampling" in options && options["sampling"] !in {"internal", "external"}
    ensures r.InvalidSampling? ==> r.value == options["sampling"]
    ensures r.SamplingSet? ==> r.mode != SamplingUnknown && (r.warned <==> status != 0)
    ensures r.SamplingSet? ==> (r.mode == SamplingInternal <==> options["sampling"] == "internal")
  {
    if "sampling" !in options then NotRequested
    else
      var value := options["sampling"];
      var sampling :=
        if value == "internal" then SamplingInternal
        else if value == "external" then SamplingExternal
        else SamplingUnknown;
      if sampling == SamplingUnknown then InvalidSampling(value)
      else SamplingSet(sampling, status != 0)
  }

  /** The settings the constructor applies from its options, in order. */
  datatype Settings = Settings(
    sampling: SamplingStep,
    biasTee: Option<Applied<bool>>,
    loopback: Applied<Loopback>,
    rxMux: Applied<RxMux>,
    agcMode: GainMode)

  /** The option value for `key`, or the default used when it is absent. */
  function OptionOr(options: map<string, string>, key: string, default: string): string
  {
    if key in options then options[key] else default
  }

  /** The "biastee" option: the setter runs only when the option is given. */
  function BiasTeeOption(options: map<string, string>, status: int): Option<Applied<bool>>
  {
    if "biastee" in options then Some(SetBiasTeeMode(options["biastee"], status)) else None
  }

  /** The "loopback" option, "none" when absent. */
  function LoopbackOption(options: map<string, string>, status: int): Applied<Loopback>
  {
    SetLoopbackMode(OptionOr(options, "loopback", "none"), status)
  }

  /** The "rxmux" option, "baseband" when absent. */
  function RxMuxOption(options: map<string, string>, status: int): Applied<RxMux>
  {
    SetRxMuxMode(OptionOr(options, "rxmux", "baseband"), status)
  }

  /** The "agc_mode" option: when given, `set_agc_mode` runs from the default gain mode. */
  function AgcModeOption(options: map<string, string>, listStatus: int, table: seq<GainModeEntry>): Option<Result<GainMode, Error>>
    requires listStatus >= 0 ==> listStatus <= |table|
  {
    if "agc_mode" in options then Some(AgcModeAfter(options["agc_mode"], listStatus, table, GainDefault)) else None
  }

  /** The error a mode setter threw, if it threw. */
  function AppliedError<M>(a: Applied<M>): Option<Error>
  {
    if a.Failed? then Some(a.error) else None
  }

  /**
   * What each throwing step of the constructor would throw, in the order the
   * constructor runs them: bias tee, loopback, RX mux, gain mode.
   */
  function StepErrors(options: map<string, string>, biasTeeStatus: int, loopbackStatus: int,
                      rxMuxStatus: int, listStatus: int, table: seq<GainModeEntry>): seq<Option<Error>>
    requires listStatus >= 0 ==> listStatus <= |table|
  {
    var biasTee := BiasTeeOption(options, biasTeeStatus);
    var agc := AgcModeOption(options, listStatus, table);
    [ if biasTee.Some? then AppliedError(biasTee.value) else None,
      AppliedError(LoopbackOption(options, loopbackStatus)),
      AppliedError(RxMuxOption(options, rxMuxStatus)),
      if agc.Some? && agc.value.Failure? then Some(agc.value.error) else None ]
  }

  /** The error of the earliest step that throws: the one that aborts a run of steps. */
  function FirstError(errors: seq<Option<Error>>): (r: Option<Error>)
    ensures r.None? <==> forall k :: 0 <= k < |errors| ==> errors[k].None?
    ensures r.Some? ==> exists k :: 0 <= k < |errors| && errors[k] == r &&
                                    forall j :: 0 <= j < k ==> errors[j].None?
  {
    if errors == [] then None
    else if errors[0].Some? then errors[0]
    else
      var rest := FirstError(errors[1..]);
      assert forall k :: 1 <= k < |errors| ==> errors[k] == errors[1..][k - 1];
      rest
  }

  /** The first step that throws decides the error, whatever later steps would do. */
  lemma FirstErrorIs(errors: seq<Option<Error>>, k: nat)
    requires k < |errors| && errors[k].Some?
    requires forall j :: 0 <= j < k ==> errors[j].None?
    ensures FirstError(errors) == errors[k]
  {
  }

  /**
   * The option handling of the constructor: sampling (warnings only), bias
   * tee when asked for, then loopback (default "none"), RX mux (default
   * "baseband") and the gain mode when asked for. Each of the last four may
   * throw, and the first that does aborts the construction.
   */
  function ApplyOptions(options: map<string, string>, samplingStatus: int, biasTeeStatus: int,
                        loopbackStatus: int, rxMuxStatus: int,
                        listStatus: int, table: seq<GainModeEntry>): (r: Result<Settings, Error>)
    requires listStatus >= 0 ==> listStatus <= |table|
    ensures r.Success? ==> r.value.sampling == SamplingOption(options, samplingStatus)
    ensures r.Success? ==> (r.value.biasTee.Some? <==> "biastee" in options)
    ensures r.Success? ==> r.value.biasTee == BiasTeeOption(options, biasTeeStatus)
    ensures r.Success? ==> r.value.loopback == LoopbackOption(options, loopbackStatus)
    ensures r.Success? ==> r.value.rxMux == RxMuxOption(options, rxMuxStatus)
    ensures r.Success? ==> !r.value.loopback.Failed? && !r.value.rxMux.Failed?
    ensures r.Success? ==> LoopbackName(r.value.loopback.mode) == OptionOr(options, "loopback", "none")
    ensures r.Success? ==> RxMuxName(r.value.rxMux.mode) == OptionOr(options, "rxmux", "baseband")
    ensures r.Success? && "agc_mode" !in options ==> r.value.agcMode == GainDefault
    ensures r.Success? && "agc_mode" in options ==>
              AgcModeAfter(options["agc_mode"], listStatus, table, GainDefault) == Success(r.value.agcMode)
    ensures r.Failure? && r.error.UnknownMode? ==>
              ("loopback" in options && r.error.name == options["loopback"]) ||
              ("rxmux" in options && r.error.name == options["rxmux"])
    ensures r.Failure? && r.error.DeviceError? ==>
              r.error.code in {biasTeeStatus, loopbackStatus, rxMuxStatus, listStatus} && r.error.code != 0
  {
    var sampling := SamplingOption(options, samplingStatus);
    var biasTee := BiasTeeOption(options, biasTeeStatus);
    if biasTee.Some? && biasTee.value.Failed? then Failure(biasTee.value.error)
    else
      var loopback := LoopbackOption(options, loopbackStatus);
      if loopback.Failed? then Failure(loopback.error)
      else
        var rxMux := RxMuxOption(options, rxMuxStatus);
        if rxMux.Failed? then Failure(rxMux.error)
        else
          var agc := AgcModeOption(options, listStatus, table);
          if agc.Some? && agc.value.Failure? then Failure(agc.value.error)
          else
            var agcMode := if agc.Some? then agc.value.value else GainDefault;
            Success(Settings(sampling, biasTee, loopback, rxMux, agcMode))
  }

  /**
   * The constructor throws exactly when one of its steps throws, and then
   * with the error of the earliest such step.
   */
  lemma ApplyOptionsFirstError(options: map<string, string>, samplingStatus: int, biasTeeStatus: int,
                               loopbackStatus: int, rxMuxStatus: int,
                               listStatus: int, table: seq<GainModeEntry>)
    requires listStatus >= 0 ==> listStatus <= |table|
    ensures var r := ApplyOptions(options, samplingStatus, biasTeeStatus, loopbackStatus, rxMuxStatus, listStatus, table);
            var first := FirstError(StepErrors(options, biasTeeStatus, loopbackStatus, rxMuxStatus, listStatus, table));
            (r.Failure? <==> first.Some?) && (r.Failure? ==> first == Some(r.error))
  {
    var errors := StepErrors(options, biasTeeStatus, loopbackStatus, rxMuxStatus, listStatus, table);
    var k := if errors[0].Some? then 0 else if errors[1].Some? then 1 else if errors[2].Some? then 2 else 3;
    if errors[k].Some? {
      FirstErrorIs(errors, k);
    }
  }

  /**
   * With no options and every device call succeeding, the constructor
   * disables loopback, selects the baseband RX mux and keeps the default
   * gain mode.
   */
  lemma DefaultOptions(samplingStatus: int, listStatus: int, table: seq<GainModeEntry>)
    requires listStatus >= 0 ==> listStatus <= |table|
    ensures ApplyOptions(map[], samplingStatus, 0, 0, 0, listStatus, table)
         == Success(Settings(NotRequested, None, Set(NoLoopback), Set(Baseband), GainDefault))
  {
  }

  // --------------------------------------------------------------------- AGC

  /** libbladeRF's gain modes. */
  datatype GainMode = GainDefault | GainManual | FastAttackAgc | SlowAttackAgc | HybridAgc

  /** One row of the table `bladerf_get_gain_modes` returns. */
  datatype GainModeEntry = GainModeEntry(name: string, mode: GainMode)

  /** Index of the first row named `name`. */
  function FirstMatch(table: seq<GainModeEntry>, name: string): (r: Option<nat>)
    ensures r.Some? ==> r.value < |table| && table[r.value].name == name
    ensures r.Some? ==> forall j :: 0 <= j < r.value ==> table[j].name != name
    ensures r.None? ==> forall j :: 0 <= j < |table| ==> table[j].name != name
  {
    if table == [] then None
    else if table[0].name == name then Some(0)
    else match FirstMatch(table[1..], name)
      case None => None
      case Some(k) => Some(k + 1)
  }

  /** The mode of the first row named `name`, if there is one. */
  function LookupGainMode(table: seq<GainModeEntry>, name: string): Option<GainMode>
  {
    match FirstMatch(table, name)
    case None => None
    case Some(k) => Some(table[k].mode)
  }

  /**
   * The gain mode `set_agc_mode` leaves, starting from `current`: a negative
   * table count throws; otherwise the mode of the first of the first
   * `listStatus` rows named `name`, or `current` (with a warning) when none is.
   */
  function AgcModeAfter(name: string, listStatus: int, table: seq<GainModeEntry>, current: GainMode): (r: Result<GainMode, Error>)
    requires listStatus >= 0 ==> listStatus <= |table|
    ensures r.Failure? <==> listStatus < 0
    ensures r.Failure? ==> r.error == DeviceError(listStatus)
    ensures r.Success? && (forall k :: 0 <= k < listStatus ==> table[k].name != name) ==> r.value == current
    ensures forall k :: (r.Success? && 0 <= k < listStatus && table[k].name == name &&
                         forall j :: 0 <= j < k ==> table[j].name != name) ==> r.value == table[k].mode
  {
    if listStatus < 0 then Failure(DeviceError(listStatus))
    else match LookupGainMode(table[..listStatus], name)
      case Some(m) => Success(m)
      case None => Success(current)
  }

  /** The search loop of `set_agc_mode` over the first `count` rows; it stops at the first match. */
  method FindGainMode(table: seq<GainModeEntry>, count: nat, name: string) returns (found: Option<GainMode>)
    requires count <= |table|
    ensures found == LookupGainMode(table[..count], name)
  {
    var i := 0;
    while i < count
      invariant i <= count
      invariant forall j :: 0 <= j < i ==> table[j].name != name
    {
      if table[i].name == name {
        return Some(table[i].mode);
      }
      i := i + 1;
    }
    return None;
  }

  // ---------------------------------------------------------------- antennas

  /** `is_antenna_valid`: a scan of the device's antenna names for an equal one. */
  method IsAntennaValid(antenna: string, antennas: seq<string>) returns (valid: bool)
    ensures valid <==> antenna in antennas
  {
    var k := 0;
    while k < |antennas|
      invariant k <= |antennas|
      invariant antenna !in antennas[..k]
    {
      if antenna == antennas[k] {
        return true;
      }
      k := k + 1;
    }
    return false;
  }

  // ----------------------------------------------------- block constraints

  /** The alignment, in complex samples, asked of the scheduler: max(1, volk alignment / 8). */
  function Alignment(volkAlignment: nat): (r: nat)
    ensures r >= 1
    ensures volkAlignment >= ComplexSize ==> r * ComplexSize <= volkAlignment < (r + 1) * ComplexSize
    ensures volkAlignment < ComplexSize ==> r == 1
  {
    var multiple := volkAlignment / ComplexSize;
    if multiple > 1 then multiple else 1
  }

  /** The stream layout of libbladeRF's synchronous interface. */
  datatype Layout = RxX1 | RxX2

  /** Streams interleaved in one transfer buffer for a layout. */
  function NumStreams(layout: Layout): (r: nat)
    ensures 1 <= r <= 2
    ensures r > 1 <==> layout == RxX2
  {
    match layout
    case RxX1 => 1
    case RxX2 => 2
  }

  /** libbladeRF's BLADERF_CHANNEL_RX(ch): receive channels are the even channel numbers. */
  function RxChannel(ch: nat): int
  {
    2 * ch
  }

  /**
   * The output port a channel is wired to after construction: RX(ch) feeds
   * port ch for each of the first numChannels channels, every other channel
   * is unwired (-1).
   */
  function WiredPort(channel: int, numChannels: nat): (port: int)
    ensures port == -1 || (0 <= port < numChannels && channel == RxChannel(port))
    ensures forall ch :: 0 <= ch < numChannels && channel == RxChannel(ch) ==> port == ch
  {
    if 0 <= channel && channel % 2 == 0 && channel / 2 < numChannels then channel / 2 else -1
  }

  /** Each port is fed by exactly one channel. */
  lemma WiringInjective(a: int, b: int, numChannels: nat)
    requires WiredPort(a, numChannels) == WiredPort(b, numChannels) != -1
    ensures a == b
  {
  }
}
