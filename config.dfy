/**
 * The configuration records: output channels, inputs and the whole device
 * configuration with the divider values the divider synthesis fills in.
 */
module Config {

  /** What a disabled output drives. */
  datatype DisabledState = StopLow | StopHigh

  /** Output signal standards. */
  datatype SignalType = Lvpecl | Lvds | Hcsl | LvcmosInPhase | LvcmosCompl
  {
    /** The enum's string value. */
    function Value(): string
    {
      match this
      case Lvpecl => "LVPECL"
      case Lvds => "LVDS"
      case Hcsl => "HCSL"
      case LvcmosInPhase => "LVCMOS IN PHASE"
      case LvcmosCompl => "LVCMOS COMPL"
    }

    predicate IsCmos()
    {
      this == LvcmosInPhase || this == LvcmosCompl
    }
  }

  /** Input signal formats. */
  datatype InputFormat = Standard | CmosStd | CmosPls | CmosNon

  /** Output supply voltage. */
  datatype SignalVoltage = V1p8 | V2p5 | V3p3
  {
    function Value(): string
    {
      match this
      case V1p8 => "1.8 V"
      case V2p5 => "2.5 V"
      case V3p3 => "3.3 V"
    }
  }

  /** Format of one output: standard, disabled state and termination index. */
  datatype SignalFormat = SignalFormat(kind: SignalType, stopHigh: DisabledState, impedance: nat)

  /** One output channel with the divider path NN/ND and R the synthesis computes. */
  datatype OutChannel = OutChannel(
    index: nat,
    frequency: nat,
    signal: SignalFormat,
    enabled: bool,
    NN: int,
    ND: int,
    R: int,
    realFrequency: real)

  /** One input with its divider PN/PD; index -1 means no valid input. */
  datatype Input = Input(index: int, enabled: bool, frequency: nat, format: InputFormat, PN: nat, PD: nat)

  /** The device configuration. */
  datatype Configuration = Configuration(
    channels: seq<OutChannel>,
    inputs: seq<Input>,
    MN: nat,
    MD: nat,
    MxaxbN: nat,
    MxaxbD: nat,
    Pxaxb: nat,
    fvco: nat,
    Fpfd: real,
    vddo: SignalVoltage)

  /** The variants of each enum, in declaration order. */
  const SignalTypes: seq<SignalType> := [Lvpecl, Lvds, Hcsl, LvcmosInPhase, LvcmosCompl]
  const InputFormats: seq<InputFormat> := [Standard, CmosStd, CmosPls, CmosNon]
  const SignalVoltages: seq<SignalVoltage> := [V1p8, V2p5, V3p3]
  const DisabledStates: seq<DisabledState> := [StopLow, StopHigh]

  /** Every value of an enum is in its list exactly once: five signal types, four input
      formats, three voltages and two disabled states, with distinct string values. */
  lemma VariantCounts()
    ensures |SignalTypes| == 5 && |InputFormats| == 4 && |SignalVoltages| == 3 && |DisabledStates| == 2
    ensures forall t: SignalType :: t in SignalTypes
    ensures forall f: InputFormat :: f in InputFormats
    ensures forall v: SignalVoltage :: v in SignalVoltages
    ensures forall d: DisabledState :: d in DisabledStates
    ensures forall i, j :: 0 <= i < j < 5 ==> SignalTypes[i].Value() != SignalTypes[j].Value()
    ensures forall i, j :: 0 <= i < j < 3 ==> SignalVoltages[i].Value() != SignalVoltages[j].Value()
  {
    forall t: SignalType ensures t in SignalTypes {
      match t
      case Lvpecl => assert SignalTypes[0] == t;
      case Lvds => assert SignalTypes[1] == t;
      case Hcsl => assert SignalTypes[2] == t;
      case LvcmosInPhase => assert SignalTypes[3] == t;
      case LvcmosCompl => assert SignalTypes[4] == t;
    }
    forall f: InputFormat ensures f in InputFormats {
      match f
      case Standard => assert InputFormats[0] == f;
      case CmosStd => assert InputFormats[1] == f;
      case CmosPls => assert InputFormats[2] == f;
      case CmosNon => assert InputFormats[3] == f;
    }
    forall v: SignalVoltage ensures v in SignalVoltages {
      match v
      case V1p8 => assert SignalVoltages[0] == v;
      case V2p5 => assert SignalVoltages[1] == v;
      case V3p3 => assert SignalVoltages[2] == v;
    }
    forall d: DisabledState ensures d in DisabledStates {
      match d
      case StopLow => assert DisabledStates[0] == d;
      case StopHigh => assert DisabledStates[1] == d;
    }
  }

  /** A channel that carries no divider. */
  predicate NoDivider(ch: OutChannel)
  {
    ch.NN == 0 && ch.ND == 0 && ch.R == 0 && ch.realFrequency == 0.0
  }

  /** The signal an output channel gets when none is given: LVDS, stopped low, impedance 0. */
  const DefaultSignal: SignalFormat := SignalFormat(Lvds, StopLow, 0)

  /** `OutChannel(index, frequency=0.0, enabled=False, signal=LVDS)`: a channel with no divider yet. */
  function NewOutChannel(index: nat, frequency: nat := 0, enabled: bool := false, signal: SignalFormat := DefaultSignal): (ch: OutChannel)
    ensures ch.index == index && ch.frequency == frequency && ch.enabled == enabled && ch.signal == signal
    ensures NoDivider(ch)
  {
    OutChannel(index, frequency, signal, enabled, 0, 0, 0, 0.0)
  }

  /** `Input(index=-1, frequency=0.0, format=STANDARD)`: a disabled input with no divider yet;
      index -1 stands for no valid input. */
  function NewInput(index: int := -1, frequency: nat := 0, format: InputFormat := Standard): (inp: Input)
    ensures inp.index == index && inp.frequency == frequency && inp.format == format
    ensures !inp.enabled && inp.PN == 0 && inp.PD == 0
  {
    Input(index, false, frequency, format, 0, 0)
  }

  /** With no argument an input has index -1, frequency 0 and the standard format; given only
      an index, as the application builds its inputs, it still has frequency 0. */
  lemma NewInputDefaults(index: int)
    ensures var inp := NewInput();
      inp.index == -1 && inp.frequency == 0 && inp.format == Standard && !inp.enabled
    ensures var inp := NewInput(index);
      inp.index == index && inp.frequency == 0 && inp.format == Standard && !inp.enabled
  {
  }

  /** Given only an index, an output channel is disabled, at frequency 0, with the LVDS signal. */
  lemma NewOutChannelDefaults(index: nat)
    ensures var ch := NewOutChannel(index);
      ch.index == index && ch.frequency == 0 && !ch.enabled && ch.signal == SignalFormat(Lvds, StopLow, 0)
      && NoDivider(ch)
  {
  }

  /** `Configuration(channels, inputs)`: no dividers, fvco 0 and a 1.8 V output supply. */
  function NewConfiguration(channels: seq<OutChannel>, inputs: seq<Input>): (c: Configuration)
    ensures c.channels == channels && c.inputs == inputs
    ensures c.MN == 0 && c.MD == 0 && c.MxaxbN == 0 && c.MxaxbD == 0 && c.Pxaxb == 0
    ensures c.fvco == 0 && c.Fpfd == 0.0 && c.vddo == V1p8
  {
    Configuration(channels, inputs, 0, 0, 0, 0, 0, 0, 0.0, V1p8)
  }

  /** `hasActiveChannel`: some channel is enabled. */
  function HasActiveChannel(conf: Configuration): (r: bool)
    ensures r <==> exists i :: 0 <= i < |conf.channels| && conf.channels[i].enabled
  {
    AnyChannelEnabled(conf.channels)
  }

  function AnyChannelEnabled(chs: seq<OutChannel>): (r: bool)
    ensures r <==> exists i :: 0 <= i < |chs| && chs[i].enabled
  {
    if |chs| == 0 then false
    else chs[0].enabled || (assert forall i :: 0 < i < |chs| ==> chs[i] == chs[1..][i - 1]; AnyChannelEnabled(chs[1..]))
  }

  /** `any(input.enabled for input in conf.inputs)`. */
  function AnyInputEnabled(inputs: seq<Input>): (r: bool)
    ensures r <==> exists i :: 0 <= i < |inputs| && inputs[i].enabled
  {
    if |inputs| == 0 then false
    else inputs[0].enabled || (assert forall i :: 0 < i < |inputs| ==> inputs[i] == inputs[1..][i - 1]; AnyInputEnabled(inputs[1..]))
  }

  /** The shape the application builds: outputs 0..3 and inputs 0 and 1, each at its own position. */
  predicate WellFormed(conf: Configuration)
  {
    |conf.channels| == 4 && |conf.inputs| == 2
    && (forall i :: 0 <= i < 4 ==> conf.channels[i].index == i)
    && (forall i :: 0 <= i < 2 ==> conf.inputs[i].index == i)
  }

  /** The start-up configuration of the application: four disabled 20 MHz LVDS outputs and inputs 0 and 1. */
  function DefaultConfiguration(): (c: Configuration)
    ensures WellFormed(c) && !HasActiveChannel(c) && !AnyInputEnabled(c.inputs)
  {
    var lvds := SignalFormat(Lvds, StopLow, 0);
    NewConfiguration(
      [NewOutChannel(0, 20_000_000, false, lvds), NewOutChannel(1, 20_000_000, false, lvds),
       NewOutChannel(2, 20_000_000, false, lvds), NewOutChannel(3, 20_000_000, false, lvds)],
      [NewInput(0), NewInput(1)])
  }
}
