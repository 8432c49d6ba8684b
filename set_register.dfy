/**
 * The configuration compiler of logic/SetRegister.py: `setRegister` builds a
 * fresh register map and fills in every field from the configuration, through
 * `setLOS`, `setOutputFormat`, `setInputDivider`, `setOutputDivider` and
 * `setPLLConfig`, OR-accumulating the per-channel and per-input bit masks.
 *
 * Each step is a method on the map whose new values are a function of the
 * configuration and the old values; the properties the source promises are
 * lemmas about those functions.
 */
module SetRegister {

  import opened Bits
  import opened Config
  import opened Constants
  import opened Numeric
  import opened RegisterMap

  type Vals = map<FieldId, nat>

  function Min(a: nat, b: nat): nat { if a < b then a else b }

  /** `num << i` does not fit `pN` bits or `den << i` does not fit `pD` bits. */
  predicate Overflows(num: int, den: int, pN: nat, pD: nat, i: nat)
  {
    num * Pow2(i) > Pow2(pN) - 1 || den * Pow2(i) > Pow2(pD) - 1
  }

  /** The result of `leftShiftMax` when the search has reached shift i. */
  function ShiftFrom(num: int, den: int, pN: nat, pD: nat, i: nat): int
    decreases Min(pN, pD) - i
  {
    if i >= Min(pN, pD) then Min(pN, pD) - 1
    else if Overflows(num, den, pN, pD, i) then i - 1
    else ShiftFrom(num, den, pN, pD, i + 1)
  }

  /** `leftShiftMax(num, den, pN, pD)` on integral num and den. */
  function ShiftMax(num: int, den: int, pN: nat, pD: nat): int
  {
    ShiftFrom(num, den, pN, pD, 0)
  }

  lemma {:induction false} ShiftFromBounds(num: int, den: int, pN: nat, pD: nat, i: nat)
    requires i <= Min(pN, pD)
    ensures var s := ShiftFrom(num, den, pN, pD, i);
      i - 1 <= s < Min(pN, pD)
      && (forall j: nat :: i <= j <= s ==> !Overflows(num, den, pN, pD, j))
      && (s + 1 < Min(pN, pD) ==> Overflows(num, den, pN, pD, s + 1))
    decreases Min(pN, pD) - i
  {
    if i < Min(pN, pD) && !Overflows(num, den, pN, pD, i) {
      ShiftFromBounds(num, den, pN, pD, i + 1);
    }
  }

  /** The shift is the largest one below min(pN, pD) up to which both values fit: every shift up
      to the result fits, and the next one (if still below the bound) overflows. */
  lemma ShiftMaxIsLargest(num: int, den: int, pN: nat, pD: nat)
    ensures var s := ShiftMax(num, den, pN, pD);
      -1 <= s < Min(pN, pD)
      && (forall j: nat :: j <= s ==> !Overflows(num, den, pN, pD, j))
      && (s + 1 < Min(pN, pD) ==> Overflows(num, den, pN, pD, s + 1))
  {
    ShiftFromBounds(num, den, pN, pD, 0);
  }

  /** A non-negative shift keeps both shifted values within their widths. */
  lemma ShiftMaxFits(num: int, den: int, pN: nat, pD: nat)
    requires ShiftMax(num, den, pN, pD) >= 0
    ensures var s := ShiftMax(num, den, pN, pD);
      num * Pow2(s) <= Pow2(pN) - 1 && den * Pow2(s) <= Pow2(pD) - 1
  {
    ShiftMaxIsLargest(num, den, pN, pD);
    var s := ShiftMax(num, den, pN, pD);
    assert !Overflows(num, den, pN, pD, s as nat);
  }

  /** The shift is -1 exactly when a width is zero or num or den does not fit unshifted. */
  lemma ShiftMaxNegative(num: int, den: int, pN: nat, pD: nat)
    ensures ShiftMax(num, den, pN, pD) < 0 <==> Min(pN, pD) == 0 || num > Pow2(pN) - 1 || den > Pow2(pD) - 1
  {
    ShiftMaxIsLargest(num, den, pN, pD);
  }

  /** `leftShiftMax`: the first shift i below min(pN, pD) at which a value overflows, less one. */
  method LeftShiftMax(num: int, den: int, maxPwrNum: nat, maxPwrDen: nat) returns (shift: int)
    ensures shift == ShiftMax(num, den, maxPwrNum, maxPwrDen)
  {
    var n := Min(maxPwrNum, maxPwrDen);
    for i := 0 to n
      invariant ShiftFrom(num, den, maxPwrNum, maxPwrDen, i) == ShiftMax(num, den, maxPwrNum, maxPwrDen)
    {
      if num * Pow2(i) > Pow2(maxPwrNum) - 1 {
        return i - 1;
      }
      if den * Pow2(i) > Pow2(maxPwrDen) - 1 {
        return i - 1;
      }
    }
    return n as int - 1;
  }

  /** `x << s` */
  function Shl(x: nat, s: nat): nat
  {
    x * Pow2(s)
  }

  /** `x << s` on a Python integer of either sign. */
  function ShlInt(x: int, s: nat): int
  {
    x * Pow2(s)
  }

  /** A Python integer v as a field of w bits sends it: two's complement, reduced modulo 2^w. */
  function Fit(v: int, w: nat): (r: nat)
    ensures r < Pow2(w)
    ensures 0 <= v < Pow2(w) ==> r == v
  {
    if 0 <= v < Pow2(w) then
      DivModUnique(v, Pow2(w), 0, v);
      v % Pow2(w)
    else v % Pow2(w)
  }

  /** `int(x)` on a float: truncation toward zero. */
  function Trunc(x: real): int
  {
    if x >= 0.0 then x.Floor else -((-x).Floor)
  }

  /** `int((R/2)-1)`, the R_REG value of an R divider: the divide value is `(R_REG+1) x 2`. */
  function RRegValue(R: int): int
  {
    Trunc(R as real / 2.0 - 1.0)
  }

  lemma RRegValueInverts(R: int)
    requires R >= 2 && R % 2 == 0
    ensures RRegValue(R) >= 0 && (RRegValue(R) + 1) * 2 == R
  {
  }

  /** Byte widths of the multi-address fields the compiler can give a negative value: the R dividers
      span three bytes, N_NUM six and N_DEN four. */
  const RRegBits: nat := 24
  const NNumBits: nat := 48
  const NDenBits: nat := 32

  /** `1 << input.index*2`: inputs IN0 and IN1 sit on positions 0 and 2 of the device. */
  function InBit(inp: Input): nat
    requires inp.index >= 0
  {
    Pow2(2 * inp.index)
  }

  /** The shifts by `input.index*2` are only defined for non-negative indices; the source evaluates
      them for every input once one input is enabled. */
  predicate InputsIndexed(inputs: seq<Input>)
  {
    forall i :: 0 <= i < |inputs| ==> inputs[i].index >= 0
  }

  /** What `setRegister` needs of the configuration not to raise: every output index names one of
      the four output drivers, enabled dividers fit their registers unshifted (a negative
      `leftShiftMax` result is an invalid shift count), and the input indices are shiftable. */
  predicate Compilable(conf: Configuration)
  {
    ChannelsCompilable(conf.channels)
    && InputsCompilable(conf.inputs)
    && (AnyInputEnabled(conf.inputs) ==> InputsIndexed(conf.inputs))
  }

  predicate ChannelCompilable(ch: OutChannel)
  {
    ch.index < 4 && (ch.enabled ==> ch.NN < Pow2(NnMaxPwr) && ch.ND < Pow2(NdMaxPwr))
  }

  predicate InputCompilable(inp: Input)
  {
    inp.enabled && 0 <= inp.index < 2 && inp.PD > 1 ==> inp.PN < Pow2(PnMaxPwr) && inp.PD < Pow2(PdMaxPwr)
  }

  // ---------------------------------------------------------------------------------------------
  // setRegister, lines 620-656: status masks, interrupt masks, serial interface.

  /** The interrupt-mask loop: bit `2*index` of LOS_INTR_MSK toggled for every input. */
  function LosMaskLoop(inputs: seq<Input>, v: Vals): (r: Vals)
    requires InputsIndexed(inputs)
    ensures forall k {:trigger k in r} {:trigger r[k]} :: k != G(LOS_INTR_MSK) ==> (k in r <==> k in v) && (k in v ==> r[k] == v[k])
  {
    if |inputs| == 0 then v
    else
      var w := LosMaskLoop(inputs[..|inputs| - 1], v);
      w[G(LOS_INTR_MSK) := Xor(ValueOf(w, G(LOS_INTR_MSK)), InBit(inputs[|inputs| - 1]))]
  }

  predicate PreambleKey(k: FieldId)
  {
    k.G? && (k.g == LOL_ON_HOLD || k.g == SYSINCAL_INTR_MSK || k.g == LOSXAXB_INTR_MSK
      || k.g == SMB_TMOUT_INTR_MSK || k.g == LOS_INTR_MSK || k.g == OOF_INTR_MSK || k.g == LOL_INTR_MSK
      || k.g == HOLD_INTR_MSK || k.g == CAL_INTR_MSK || k.g == SPI_3WIRE || k.g == I2C_ADDR
      || k.g == AUTO_NDIV_UPDATE)
  }

  function Preamble(conf: Configuration, v: Vals): (r: Vals)
    requires Compilable(conf)
    ensures forall k {:trigger k in r} {:trigger r[k]} :: !PreambleKey(k) ==> (k in r <==> k in v) && (k in v ==> r[k] == v[k])
  {
    var v := Masks(v);
    var v := if AnyInputEnabled(conf.inputs) then UnmaskLock(LosMaskLoop(conf.inputs, v)) else v;
    SerialInterface(v)
  }

  predicate LockMaskKey(k: FieldId)
  {
    k.G? && (k.g == LOL_INTR_MSK || k.g == HOLD_INTR_MSK)
  }

  predicate SerialKey(k: FieldId)
  {
    k.G? && (k.g == SPI_3WIRE || k.g == I2C_ADDR || k.g == AUTO_NDIV_UPDATE)
  }

  /** Loss of lock and holdover interrupts unmasked. */
  function UnmaskLock(v: Vals): (r: Vals)
    ensures forall k {:trigger k in r} {:trigger r[k]} :: !LockMaskKey(k) ==> (k in r <==> k in v) && (k in v ==> r[k] == v[k])
  {
    v[G(LOL_INTR_MSK) := 0][G(HOLD_INTR_MSK) := 0]
  }

  /** 4-wire SPI, the I2C address and no automatic N divider update. */
  function SerialInterface(v: Vals): (r: Vals)
    ensures forall k {:trigger k in r} {:trigger r[k]} :: !SerialKey(k) ==> (k in r <==> k in v) && (k in v ==> r[k] == v[k])
  {
    v[G(SPI_3WIRE) := 0][G(I2C_ADDR) := 0x68][G(AUTO_NDIV_UPDATE) := 0]
  }

  /** The status flag masks, and every interrupt masked. */
  function Masks(v: Vals): (r: Vals)
    ensures forall k {:trigger k in r} {:trigger r[k]} :: !PreambleKey(k) ==> (k in r <==> k in v) && (k in v ==> r[k] == v[k])
  {
    var v := v[G(LOL_ON_HOLD) := 1][G(SYSINCAL_INTR_MSK) := 1][G(LOSXAXB_INTR_MSK) := 1]
      [G(SMB_TMOUT_INTR_MSK) := 1];
    v[G(LOS_INTR_MSK) := 0xFF][G(OOF_INTR_MSK) := 0xFF][G(LOL_INTR_MSK) := 1][G(HOLD_INTR_MSK) := 1]
      [G(CAL_INTR_MSK) := 1]
  }

  method SetPreamble(conf: Configuration, m: RegisterMap)
    requires Compilable(conf)
    modifies m
    ensures m.vals == Preamble(conf, old(m.vals))
  {
    SetMasks(m);
    if AnyInputEnabled(conf.inputs) {
      // OOF_ENABLE is off in the source: only the LOS mask is toggled.
      ToggleLosMask(conf.inputs, m);
      // LOL_ENABLE and HOLD_ENABLE are on, CAL_ENABLE is off.
      m.Set(G(LOL_INTR_MSK), 0);
      m.Set(G(HOLD_INTR_MSK), 0);
    }
    m.Set(G(SPI_3WIRE), 0);
    m.Set(G(I2C_ADDR), 0x68);
    m.Set(G(AUTO_NDIV_UPDATE), 0);
  }

  method SetMasks(m: RegisterMap)
    modifies m
    ensures m.vals == Masks(old(m.vals))
  {
    m.Set(G(LOL_ON_HOLD), 1);
    m.Set(G(SYSINCAL_INTR_MSK), 1);
    m.Set(G(LOSXAXB_INTR_MSK), 1);
    m.Set(G(SMB_TMOUT_INTR_MSK), 1);
    m.Set(G(LOS_INTR_MSK), 0xFF);
    m.Set(G(OOF_INTR_MSK), 0xFF);
    m.Set(G(LOL_INTR_MSK), 1);
    m.Set(G(HOLD_INTR_MSK), 1);
    m.Set(G(CAL_INTR_MSK), 1);
  }

  method ToggleLosMask(inputs: seq<Input>, m: RegisterMap)
    requires InputsIndexed(inputs)
    modifies m
    ensures m.vals == LosMaskLoop(inputs, old(m.vals))
  {
    var v0 := m.vals;
    for i := 0 to |inputs|
      invariant m.vals == LosMaskLoop(inputs[..i], v0)
    {
      assert inputs[..i + 1][..i] == inputs[..i];
      m.Set(G(LOS_INTR_MSK), Xor(m.Get(G(LOS_INTR_MSK)), InBit(inputs[i])));
    }
    assert inputs[..|inputs|] == inputs;
  }

  // ---------------------------------------------------------------------------------------------
  // setLOS

  /** `max(min(0xFFFF, x), 1)` */
  function Clamp(x: int): nat
  {
    if x > 0xFFFF then 0xFFFF else if x < 1 then 1 else x
  }

  /** The LOS trigger threshold, `round(4.0*26.5)` clamped. */
  function MaxLos(): nat { Clamp(Round(4.0 * 26.5)) }

  /** The LOS clear threshold: `ceil(0.483*32.0)` with two enabled inputs, else `ceil(0.038*32.0)`. */
  function MinLos(inputs: seq<Input>): nat
  {
    if CountEnabled(inputs) == 2 then Clamp(Ceil(0.483 * 32.0)) else Clamp(Ceil(0.038 * 32.0))
  }

  lemma LosThresholds(inputs: seq<Input>)
    ensures MaxLos() == 106
    ensures MinLos(inputs) == if CountEnabled(inputs) == 2 then 16 else 2
  {
  }

  /** `list(map(lambda a: a.enabled, inputs)).count(True)` */
  function CountEnabled(inputs: seq<Input>): (n: nat)
    ensures n <= |inputs|
    ensures n == 0 <==> !AnyInputEnabled(inputs)
  {
    if |inputs| == 0 then 0
    else
      var n := CountEnabled(inputs[..|inputs| - 1]);
      assert AnyInputEnabled(inputs) <==>
        AnyInputEnabled(inputs[..|inputs| - 1]) || inputs[|inputs| - 1].enabled by {
        assert forall i :: 0 <= i < |inputs| - 1 ==> inputs[..|inputs| - 1][i] == inputs[i];
      }
      n + (if inputs[|inputs| - 1].enabled then 1 else 0)
  }

  /** Every enabled input has a shiftable index. */
  predicate EnabledIndexed(inputs: seq<Input>)
  {
    forall i :: 0 <= i < |inputs| && inputs[i].enabled ==> inputs[i].index >= 0
  }

  lemma CompilableEnabledIndexed(conf: Configuration)
    requires Compilable(conf)
    ensures EnabledIndexed(conf.inputs)
  {
  }

  /** x with bit `2*index` ORed in for every enabled input, in input order. */
  function EnabledBits(x: nat, inputs: seq<Input>): nat
    requires EnabledIndexed(inputs)
  {
    if |inputs| == 0 then x
    else
      var y := EnabledBits(x, inputs[..|inputs| - 1]);
      if inputs[|inputs| - 1].enabled then Or(y, InBit(inputs[|inputs| - 1])) else y
  }

  /** Bit j of the result is set exactly when it is set in x or j is the position of an enabled input. */
  lemma {:induction false} EnabledBitsBit(x: nat, inputs: seq<Input>, j: nat)
    requires EnabledIndexed(inputs)
    ensures Bit(EnabledBits(x, inputs), j) <==>
      Bit(x, j) || exists t :: 0 <= t < |inputs| && inputs[t].enabled && j == 2 * inputs[t].index
  {
    if |inputs| > 0 {
      var n := |inputs| - 1;
      var pre := inputs[..n];
      EnabledBitsBit(x, pre, j);
      assert forall t :: 0 <= t < n ==> pre[t] == inputs[t];
      if inputs[n].enabled {
        OrBit(EnabledBits(x, pre), InBit(inputs[n]), j);
        Pow2Bit(2 * inputs[n].index, j);
      }
    }
  }

  predicate LosThresholdKey(k: FieldId)
  {
    k.G? && (k.g.LOS_TRG_THR? || k.g.LOS_CLR_THR? || k.g == LOS_MIN_PERIOD_EN)
  }

  /** The threshold loop of `setLOS`: inputs whose position `2*index` is a LOS detector get both
      thresholds, and every enabled input its LOS_MIN_PERIOD_EN bit. */
  function LosThresholdLoop(inputs: seq<Input>, maxLos: nat, minLos: nat, v: Vals): (r: Vals)
    requires InputsIndexed(inputs)
    ensures forall k {:trigger k in r} {:trigger r[k]} :: !LosThresholdKey(k) ==> (k in r <==> k in v) && (k in v ==> r[k] == v[k])
  {
    if |inputs| == 0 then v
    else
      var w := LosThresholdLoop(inputs[..|inputs| - 1], maxLos, minLos, v);
      var inp := inputs[|inputs| - 1];
      if !inp.enabled then w
      else
        var p := 2 * inp.index;
        var w := if p < 4 then w[G(LOS_TRG_THR(p)) := maxLos][G(LOS_CLR_THR(p)) := minLos] else w;
        w[G(LOS_MIN_PERIOD_EN) := Or(ValueOf(w, G(LOS_MIN_PERIOD_EN)), InBit(inp))]
  }

  predicate LosKey(k: FieldId)
  {
    LosThresholdKey(k)
    || (k.G? && (k.g.LOS_VAL_TIME? || k.g == LOS_EN || k.g == LOSXAXB_DIS || k.g == LOS_CMOS_MIN_PER_EN
      || k.g == LOS_CLK_DIS))
  }

  /** `setLOS` */
  function LosF(conf: Configuration, v: Vals): (r: Vals)
    requires Compilable(conf)
    ensures forall k {:trigger k in r} {:trigger r[k]} :: !LosKey(k) ==> (k in r <==> k in v) && (k in v ==> r[k] == v[k])
  {
    var any := AnyInputEnabled(conf.inputs);
    var v := LosEnable(if any then EnabledBits(0, conf.inputs) else 0, v);
    var v := if any then LosThresholdLoop(conf.inputs, MaxLos(), MinLos(conf.inputs), v) else v;
    LosTimes(v)
  }

  /** The LOS detectors of mask x enabled, the crystal's LOS detector on. */
  function LosEnable(x: nat, v: Vals): (r: Vals)
    ensures forall k {:trigger k in r} {:trigger r[k]} :: !LosKey(k) ==> (k in r <==> k in v) && (k in v ==> r[k] == v[k])
  {
    v[G(LOS_EN) := x][G(LOSXAXB_DIS) := 0]
  }

  predicate LosTimesKey(k: FieldId)
  {
    k.G? && (k.g.LOS_VAL_TIME? || k.g == LOS_CMOS_MIN_PER_EN || k.g == LOS_CLK_DIS)
  }

  /** The validation times, the CMOS minimum period detection and the LOS clocks. */
  function LosTimes(v: Vals): (r: Vals)
    ensures forall k {:trigger k in r} {:trigger r[k]} :: !LosTimesKey(k) ==> (k in r <==> k in v) && (k in v ==> r[k] == v[k])
  {
    LosValTimes(v)[G(LOS_CMOS_MIN_PER_EN) := 0][G(LOS_CLK_DIS) := 0]
  }

  /** The four LOS validation times. */
  function LosValTimes(v: Vals): (r: Vals)
    ensures forall k: FieldId {:trigger k in r} {:trigger r[k]} :: !(k.G? && k.g.LOS_VAL_TIME?) ==> (k in r <==> k in v) && (k in v ==> r[k] == v[k])
  {
    v[G(LOS_VAL_TIME(0)) := 0][G(LOS_VAL_TIME(1)) := 0][G(LOS_VAL_TIME(2)) := 0][G(LOS_VAL_TIME(3)) := 0]
  }

  /** A loop ORing bit `2*index` of every enabled input into x0 (`setLOS`, `setRegister`). */
  method EnabledMask(x0: nat, inputs: seq<Input>) returns (x: nat)
    requires EnabledIndexed(inputs)
    ensures x == EnabledBits(x0, inputs)
  {
    x := x0;
    for i := 0 to |inputs|
      invariant x == EnabledBits(x0, inputs[..i])
    {
      assert inputs[..i + 1][..i] == inputs[..i];
      if inputs[i].enabled {
        x := Or(x, InBit(inputs[i]));
      }
    }
    assert inputs[..|inputs|] == inputs;
  }

  /** The threshold loop of `setLOS`. */
  method SetLosThresholds(inputs: seq<Input>, maxLos: nat, minLos: nat, m: RegisterMap)
    requires InputsIndexed(inputs)
    modifies m
    ensures m.vals == LosThresholdLoop(inputs, maxLos, minLos, old(m.vals))
  {
    var v0 := m.vals;
    for i := 0 to |inputs|
      invariant m.vals == LosThresholdLoop(inputs[..i], maxLos, minLos, v0)
    {
      assert inputs[..i + 1][..i] == inputs[..i];
      var inp := inputs[i];
      if inp.enabled {
        var p := 2 * inp.index;
        if p < 4 {
          m.Set(G(LOS_TRG_THR(p)), maxLos);
          m.Set(G(LOS_CLR_THR(p)), minLos);
        }
        m.Set(G(LOS_MIN_PERIOD_EN), Or(m.Get(G(LOS_MIN_PERIOD_EN)), InBit(inp)));
      }
    }
    assert inputs[..|inputs|] == inputs;
  }

  /** `setLOS` */
  method SetLos(conf: Configuration, m: RegisterMap)
    requires Compilable(conf)
    modifies m
    ensures m.vals == LosF(conf, old(m.vals))
  {
    var x := 0;
    if AnyInputEnabled(conf.inputs) {
      x := EnabledMask(0, conf.inputs);
    }
    m.Set(G(LOS_EN), x);
    m.Set(G(LOSXAXB_DIS), 0);
    if AnyInputEnabled(conf.inputs) {
      SetLosThresholds(conf.inputs, MaxLos(), MinLos(conf.inputs), m);
    }
    m.Set(G(LOS_VAL_TIME(0)), 0);
    m.Set(G(LOS_VAL_TIME(1)), 0);
    m.Set(G(LOS_VAL_TIME(2)), 0);
    m.Set(G(LOS_VAL_TIME(3)), 0);
    m.Set(G(LOS_CMOS_MIN_PER_EN), 0);
    m.Set(G(LOS_CLK_DIS), 0);
  }

  // ---------------------------------------------------------------------------------------------
  // setOutputFormat

  /** Every output channel names one of the four output drivers and its divider fits. */
  predicate ChannelsCompilable(chs: seq<OutChannel>)
  {
    forall i :: 0 <= i < |chs| ==> ChannelCompilable(chs[i])
  }

  /** OUT_CM of an LVDS output per supply voltage. */
  function LvdsCm(vddo: SignalVoltage): nat
  {
    match vddo
    case V1p8 => 13
    case V2p5 => 11
    case V3p3 => 3
  }

  /** OUT_VDD_SEL per supply voltage. */
  function VddSel(vddo: SignalVoltage): nat
  {
    match vddo
    case V1p8 => 1
    case V2p5 => 2
    case V3p3 => 0
  }

  predicate FormatKey(c: Ch, k: FieldId)
  {
    (k.OutFmt? && k.ch == c) || k == G(N_CLK_DIS)
  }

  /** One pass of the channel loop of `setOutputFormat`, in the order of its assignments. */
  function FormatChannel(vddo: SignalVoltage, ch: OutChannel, v: Vals): (r: Vals)
    requires ch.index < 4
    ensures forall k {:trigger k in r} {:trigger r[k]} :: !FormatKey(ch.index, k) ==> (k in r <==> k in v) && (k in v ==> r[k] == v[k])
  {
    FormatRouting(vddo, ch, FormatLevels(vddo, ch, FormatDrive(ch, FormatPower(ch, v))))
  }

  /** Power, output enable, clock enable and the R-divider-is-2 flag. */
  function FormatPower(ch: OutChannel, v: Vals): (r: Vals)
    requires ch.index < 4
    ensures forall k {:trigger k in r} {:trigger r[k]} :: !FormatKey(ch.index, k) ==> (k in r <==> k in v) && (k in v ==> r[k] == v[k])
  {
    var pwrDown := if ch.enabled then 0 else 1;
    StorePower(ch.index, pwrDown, 1 - pwrDown, Or(ValueOf(v, G(N_CLK_DIS)), pwrDown * Pow2(ch.index)),
      if ch.R == 2 then 1 else 0, v)
  }

  function StorePower(c: Ch, pwrDown: nat, oe: nat, clockDis: nat, force2: nat, v: Vals): (r: Vals)
    ensures forall k {:trigger k in r} {:trigger r[k]} :: !FormatKey(c, k) ==> (k in r <==> k in v) && (k in v ==> r[k] == v[k])
  {
    v[OutFmt(c, OUT_PDN) := pwrDown][OutFmt(c, OUT_OE) := oe][G(N_CLK_DIS) := clockDis]
      [OutFmt(c, OUT_RDIV_FORCE2) := force2]
  }

  /** The CMOS format, synchronous disable, the disabled state and the CMOS drive strength. */
  function FormatDrive(ch: OutChannel, v: Vals): (r: Vals)
    requires ch.index < 4
    ensures forall k {:trigger k in r} {:trigger r[k]} :: !FormatKey(ch.index, k) ==> (k in r <==> k in v) && (k in v ==> r[k] == v[k])
  {
    var c: Ch := ch.index;
    var cmos := ch.signal.kind.IsCmos();
    var v := if cmos then v[OutFmt(c, OUT_FORMAT) := 4] else v;
    var v := v[OutFmt(c, OUT_SYNC_EN) := 1][OutFmt(c, OUT_DIS_STATE) := if ch.signal.stopHigh == StopLow then 0 else 1];
    if cmos then v[OutFmt(c, OUT_CMOS_DRV) := ch.signal.impedance + 1] else v
  }

  /** Amplitude, common mode voltage and format of the differential standards. */
  function FormatLevels(vddo: SignalVoltage, ch: OutChannel, v: Vals): (r: Vals)
    requires ch.index < 4
    ensures forall k {:trigger k in r} {:trigger r[k]} :: !FormatKey(ch.index, k) ==> (k in r <==> k in v) && (k in v ==> r[k] == v[k])
  {
    var c: Ch := ch.index;
    match ch.signal.kind
    case Lvpecl => v[OutFmt(c, OUT_AMPL) := 6][OutFmt(c, OUT_CM) := 11][OutFmt(c, OUT_FORMAT) := 1]
    case Lvds => v[OutFmt(c, OUT_CM) := LvdsCm(vddo)][OutFmt(c, OUT_AMPL) := 3][OutFmt(c, OUT_FORMAT) := 1]
    case Hcsl => v[OutFmt(c, OUT_CM) := if vddo == V1p8 then 13 else 11][OutFmt(c, OUT_AMPL) := 3]
    case _ => v
  }

  /** Mux routing, supply selection and polarity. */
  function FormatRouting(vddo: SignalVoltage, ch: OutChannel, v: Vals): (r: Vals)
    requires ch.index < 4
    ensures forall k {:trigger k in r} {:trigger r[k]} :: !FormatKey(ch.index, k) ==> (k in r <==> k in v) && (k in v ==> r[k] == v[k])
  {
    var c: Ch := ch.index;
    v[OutFmt(c, OUT_MUX_SEL) := c][OutFmt(c, OUT_VDD_SEL_EN) := 1][OutFmt(c, OUT_VDD_SEL) := VddSel(vddo)]
      [OutFmt(c, OUT_INV) := if ch.signal.kind == LvcmosCompl then 1 else 0]
  }

  /** The value the output-format step leaves in field f of the driver of ch, given its old value: the
      table of formats, field by field. */
  function FormatValue(vddo: SignalVoltage, ch: OutChannel, f: FmtField, old_: nat): nat
  {
    var t := ch.signal.kind;
    match f
    case OUT_PDN => if ch.enabled then 0 else 1
    case OUT_OE => if ch.enabled then 1 else 0
    case OUT_RDIV_FORCE2 => if ch.R == 2 then 1 else 0
    case OUT_FORMAT => if t.IsCmos() then 4 else if t == Lvpecl || t == Lvds then 1 else old_
    case OUT_SYNC_EN => 1
    case OUT_DIS_STATE => if ch.signal.stopHigh == StopHigh then 1 else 0
    case OUT_CMOS_DRV => if t.IsCmos() then ch.signal.impedance + 1 else old_
    case OUT_CM =>
      if t == Lvpecl then 11 else if t == Lvds then LvdsCm(vddo)
      else if t == Hcsl then (if vddo == V1p8 then 13 else 11) else old_
    case OUT_AMPL => if t == Lvpecl then 6 else if t == Lvds || t == Hcsl then 3 else old_
    case OUT_MUX_SEL => ch.index
    case OUT_VDD_SEL_EN => 1
    case OUT_VDD_SEL => VddSel(vddo)
    case OUT_INV => if t == LvcmosCompl then 1 else 0
  }

  /** The sequence of assignments leaves every driver field at its table value. */
  lemma FormatChannelValue(vddo: SignalVoltage, ch: OutChannel, v: Vals, f: FmtField)
    requires ch.index < 4
    ensures var k := OutFmt(ch.index, f);
      ValueOf(FormatChannel(vddo, ch, v), k) == FormatValue(vddo, ch, f, ValueOf(v, k))
  {
    var v1 := FormatPower(ch, v);
    var v2 := FormatDrive(ch, v1);
    var v3 := FormatLevels(vddo, ch, v2);
    PowerValue(ch, v, f);
    DriveValue(ch, v1, f);
    LevelsValue(vddo, ch, v2, f);
    RoutingValue(vddo, ch, v3, f);
  }

  lemma PowerValue(ch: OutChannel, v: Vals, f: FmtField)
    requires ch.index < 4
    ensures var k := OutFmt(ch.index, f);
      ValueOf(FormatPower(ch, v), k) ==
        if f == OUT_PDN || f == OUT_OE || f == OUT_RDIV_FORCE2 then FormatValue(V1p8, ch, f, 0) else ValueOf(v, k)
  {
  }

  lemma DriveValue(ch: OutChannel, v: Vals, f: FmtField)
    requires ch.index < 4
    ensures var k := OutFmt(ch.index, f);
      ValueOf(FormatDrive(ch, v), k) ==
        if f == OUT_SYNC_EN || f == OUT_DIS_STATE || (ch.signal.kind.IsCmos() && (f == OUT_FORMAT || f == OUT_CMOS_DRV))
        then FormatValue(V1p8, ch, f, 0) else ValueOf(v, k)
  {
  }

  lemma LevelsValue(vddo: SignalVoltage, ch: OutChannel, v: Vals, f: FmtField)
    requires ch.index < 4
    ensures var k := OutFmt(ch.index, f);
      var t := ch.signal.kind;
      ValueOf(FormatLevels(vddo, ch, v), k) ==
        if ((t == Lvpecl || t == Lvds) && (f == OUT_CM || f == OUT_AMPL || f == OUT_FORMAT))
          || (t == Hcsl && (f == OUT_CM || f == OUT_AMPL))
        then FormatValue(vddo, ch, f, 0) else ValueOf(v, k)
  {
  }

  lemma RoutingValue(vddo: SignalVoltage, ch: OutChannel, v: Vals, f: FmtField)
    requires ch.index < 4
    ensures var k := OutFmt(ch.index, f);
      ValueOf(FormatRouting(vddo, ch, v), k) ==
        if f == OUT_MUX_SEL || f == OUT_VDD_SEL_EN || f == OUT_VDD_SEL || f == OUT_INV
        then FormatValue(vddo, ch, f, 0) else ValueOf(v, k)
  {
  }

  /** The step sets bit `index` of N_CLK_DIS for a disabled channel and keeps every other bit. */
  lemma FormatChannelClockBit(vddo: SignalVoltage, ch: OutChannel, v: Vals, j: nat)
    requires ch.index < 4
    ensures Bit(ValueOf(FormatChannel(vddo, ch, v), G(N_CLK_DIS)), j) <==>
      Bit(ValueOf(v, G(N_CLK_DIS)), j) || (!ch.enabled && j == ch.index)
  {
    var c := ch.index;
    var v1 := FormatPower(ch, v);
    assert ValueOf(FormatChannel(vddo, ch, v), G(N_CLK_DIS)) == ValueOf(v1, G(N_CLK_DIS));
    OrBit(ValueOf(v, G(N_CLK_DIS)), (if ch.enabled then 0 else 1) * Pow2(c), j);
    Pow2Bit(c, j);
    ZeroHasNoBits(j);
  }

  predicate FormatLoopKey(k: FieldId)
  {
    k.OutFmt? || k == G(N_CLK_DIS)
  }

  /** The channel loop of `setOutputFormat`. */
  function FormatLoop(vddo: SignalVoltage, chs: seq<OutChannel>, v: Vals): (r: Vals)
    requires ChannelsCompilable(chs)
    ensures forall k {:trigger k in r} {:trigger r[k]} :: !FormatLoopKey(k) ==> (k in r <==> k in v) && (k in v ==> r[k] == v[k])
  {
    if |chs| == 0 then v
    else FormatChannel(vddo, chs[|chs| - 1], FormatLoop(vddo, chs[..|chs| - 1], v))
  }

  /** `setOutputFormat` */
  function OutputFormatF(conf: Configuration, v: Vals): (r: Vals)
    requires Compilable(conf)
    ensures forall k {:trigger k in r} {:trigger r[k]} :: !FormatLoopKey(k) ==> (k in r <==> k in v) && (k in v ==> r[k] == v[k])
  {
    FormatLoop(conf.vddo, conf.channels, ClockDisable(v))
  }

  /** The default of N_CLK_DIS, before the channels clear their bits. */
  function ClockDisable(v: Vals): (r: Vals)
    ensures forall k {:trigger k in r} {:trigger r[k]} :: !FormatLoopKey(k) ==> (k in r <==> k in v) && (k in v ==> r[k] == v[k])
  {
    v[G(N_CLK_DIS) := 0x10]
  }

  /** The driver fields of the only channel with a given index are its table values. */
  lemma {:induction false} FormatLoopValue(vddo: SignalVoltage, chs: seq<OutChannel>, v: Vals, t: nat, f: FmtField)
    requires ChannelsCompilable(chs) && t < |chs|
    requires forall u :: 0 <= u < |chs| && u != t ==> chs[u].index != chs[t].index
    ensures var k := OutFmt(chs[t].index, f);
      ValueOf(FormatLoop(vddo, chs, v), k) == FormatValue(vddo, chs[t], f, ValueOf(v, k))
  {
    var n := |chs| - 1;
    var pre := chs[..n];
    assert forall u :: 0 <= u < n ==> pre[u] == chs[u];
    if t == n {
      assert chs == pre + [chs[n]];
      FormatLoopLast(vddo, pre, chs[n], v, f);
    } else {
      FormatLoopValue(vddo, pre, v, t, f);
      FormatChannelOther(vddo, chs[n], FormatLoop(vddo, pre, v), chs[t].index, f);
    }
  }

  /** The last channel of the loop sets its driver fields when no earlier channel has its index. */
  lemma FormatLoopLast(vddo: SignalVoltage, pre: seq<OutChannel>, ch: OutChannel, v: Vals, f: FmtField)
    requires ChannelsCompilable(pre) && ChannelCompilable(ch)
    requires forall u :: 0 <= u < |pre| ==> pre[u].index != ch.index
    ensures var k := OutFmt(ch.index, f);
      ValueOf(FormatLoop(vddo, pre + [ch], v), k) == FormatValue(vddo, ch, f, ValueOf(v, k))
  {
    var chs := pre + [ch];
    assert chs[..|chs| - 1] == pre && chs[|chs| - 1] == ch;
    assert ChannelsCompilable(chs);
    var w := FormatLoop(vddo, pre, v);
    FormatLoopUntouched(vddo, pre, v, ch.index, f);
    FormatChannelValue(vddo, ch, w, f);
  }

  /** A channel step leaves the driver fields of every other index alone. */
  lemma FormatChannelOther(vddo: SignalVoltage, ch: OutChannel, v: Vals, c: Ch, f: FmtField)
    requires ch.index < 4 && c != ch.index
    ensures ValueOf(FormatChannel(vddo, ch, v), OutFmt(c, f)) == ValueOf(v, OutFmt(c, f))
  {
    assert !FormatKey(ch.index, OutFmt(c, f));
  }

  /** Channels with other indices leave the driver fields of index c alone. */
  lemma {:induction false} FormatLoopUntouched(vddo: SignalVoltage, chs: seq<OutChannel>, v: Vals, c: Ch, f: FmtField)
    requires ChannelsCompilable(chs)
    requires forall u :: 0 <= u < |chs| ==> chs[u].index != c
    ensures ValueOf(FormatLoop(vddo, chs, v), OutFmt(c, f)) == ValueOf(v, OutFmt(c, f))
  {
    if |chs| > 0 {
      FormatLoopUntouched(vddo, chs[..|chs| - 1], v, c, f);
    }
  }

  /** Some channel with index j is disabled. */
  predicate DisabledAt(chs: seq<OutChannel>, j: nat)
  {
    exists t :: 0 <= t < |chs| && !chs[t].enabled && j == chs[t].index
  }

  lemma DisabledAtLast(chs: seq<OutChannel>, j: nat)
    requires |chs| > 0
    ensures var n := |chs| - 1;
      DisabledAt(chs, j) <==> DisabledAt(chs[..n], j) || (!chs[n].enabled && j == chs[n].index)
  {
    var n := |chs| - 1;
    assert forall t :: 0 <= t < n ==> chs[..n][t] == chs[t];
    if DisabledAt(chs, j) {
      var t :| 0 <= t < |chs| && !chs[t].enabled && j == chs[t].index;
      if t < n {
        assert chs[..n][t] == chs[t];
      }
    }
  }

  /** Bit j of N_CLK_DIS after the loop: set before, or the index of a disabled channel. */
  lemma {:induction false} FormatLoopClockBit(vddo: SignalVoltage, chs: seq<OutChannel>, v: Vals, j: nat)
    requires ChannelsCompilable(chs)
    ensures Bit(ValueOf(FormatLoop(vddo, chs, v), G(N_CLK_DIS)), j) <==>
      Bit(ValueOf(v, G(N_CLK_DIS)), j) || DisabledAt(chs, j)
  {
    if |chs| > 0 {
      var n := |chs| - 1;
      var pre := chs[..n];
      var w := FormatLoop(vddo, pre, v);
      FormatLoopClockBit(vddo, pre, v, j);
      FormatChannelClockBit(vddo, chs[n], w, j);
      DisabledAtLast(chs, j);
    }
  }

  method SetChannelFormat(vddo: SignalVoltage, ch: OutChannel, m: RegisterMap)
    requires ch.index < 4
    modifies m
    ensures m.vals == FormatChannel(vddo, ch, old(m.vals))
  {
    SetPower(ch, m);
    SetDrive(ch, m);
    SetLevels(vddo, ch, m);
    SetRouting(vddo, ch, m);
  }

  method SetPower(ch: OutChannel, m: RegisterMap)
    requires ch.index < 4
    modifies m
    ensures m.vals == FormatPower(ch, old(m.vals))
  {
    var c: Ch := ch.index;
    var pwrDown := if ch.enabled then 0 else 1;
    m.Set(OutFmt(c, OUT_PDN), pwrDown);
    m.Set(OutFmt(c, OUT_OE), if ch.enabled then 1 else 0);
    // enable the clock of an active channel
    m.Set(G(N_CLK_DIS), Or(m.Get(G(N_CLK_DIS)), pwrDown * Pow2(c)));
    m.Set(OutFmt(c, OUT_RDIV_FORCE2), if ch.R == 2 then 1 else 0);
  }

  method SetDrive(ch: OutChannel, m: RegisterMap)
    requires ch.index < 4
    modifies m
    ensures m.vals == FormatDrive(ch, old(m.vals))
  {
    var c: Ch := ch.index;
    if ch.signal.kind.IsCmos() {
      m.Set(OutFmt(c, OUT_FORMAT), 4);
    }
    // finish the last clock period when turning off
    m.Set(OutFmt(c, OUT_SYNC_EN), 1);
    m.Set(OutFmt(c, OUT_DIS_STATE), if ch.signal.stopHigh == StopLow then 0 else 1);
    if ch.signal.kind.IsCmos() {
      m.Set(OutFmt(c, OUT_CMOS_DRV), ch.signal.impedance + 1);
    }
  }

  method SetLevels(vddo: SignalVoltage, ch: OutChannel, m: RegisterMap)
    requires ch.index < 4
    modifies m
    ensures m.vals == FormatLevels(vddo, ch, old(m.vals))
  {
    var c: Ch := ch.index;
    match ch.signal.kind {
      case Lvpecl =>
        m.Set(OutFmt(c, OUT_AMPL), 6);
        m.Set(OutFmt(c, OUT_CM), 11);
        m.Set(OutFmt(c, OUT_FORMAT), 1);
      case Lvds =>
        m.Set(OutFmt(c, OUT_CM), LvdsCm(vddo));
        m.Set(OutFmt(c, OUT_AMPL), 3);
        m.Set(OutFmt(c, OUT_FORMAT), 1);
      case Hcsl =>
        m.Set(OutFmt(c, OUT_CM), if vddo == V1p8 then 13 else 11);
        m.Set(OutFmt(c, OUT_AMPL), 3);
      case _ =>
    }
  }

  method SetRouting(vddo: SignalVoltage, ch: OutChannel, m: RegisterMap)
    requires ch.index < 4
    modifies m
    ensures m.vals == FormatRouting(vddo, ch, old(m.vals))
  {
    var c: Ch := ch.index;
    m.Set(OutFmt(c, OUT_MUX_SEL), c);
    m.Set(OutFmt(c, OUT_VDD_SEL_EN), 1);
    m.Set(OutFmt(c, OUT_VDD_SEL), VddSel(vddo));
    m.Set(OutFmt(c, OUT_INV), if ch.signal.kind == LvcmosCompl then 1 else 0);
  }

  method SetChannelFormats(vddo: SignalVoltage, chs: seq<OutChannel>, m: RegisterMap)
    requires ChannelsCompilable(chs)
    modifies m
    ensures m.vals == FormatLoop(vddo, chs, old(m.vals))
  {
    var v0 := m.vals;
    for i := 0 to |chs|
      invariant m.vals == FormatLoop(vddo, chs[..i], v0)
    {
      assert chs[..i + 1][..i] == chs[..i];
      SetChannelFormat(vddo, chs[i], m);
    }
    assert chs[..|chs|] == chs;
  }

  /** `setOutputFormat` */
  method SetOutputFormat(conf: Configuration, m: RegisterMap)
    requires Compilable(conf)
    modifies m
    ensures m.vals == OutputFormatF(conf, old(m.vals))
  {
    m.Set(G(N_CLK_DIS), 0x10);
    SetChannelFormats(conf.vddo, conf.channels, m);
  }

  // ---------------------------------------------------------------------------------------------
  // setRegister, lines 670-684: output gating and disable masks.

  predicate OutputGlobalsKey(k: FieldId)
  {
    k.G? && (k.g == OUTALL_DISABLE_LOW || k.g == OUTX_ALWAYS_ON || k.g == OUT_DIS_MSK || k.g == OUT_DIS_LOL_MSK
      || k.g == OUT_DIS_LOSXAXB_MSK || k.g == OUT_DIS_MSK_LOS_PFD || k.g == OUT_DIS_MSK_LOL || k.g == OUT_DIS_MSK_HOLD)
  }

  function OutputGlobals(v: Vals): (r: Vals)
    ensures forall k {:trigger k in r} {:trigger r[k]} :: !OutputGlobalsKey(k) ==> (k in r <==> k in v) && (k in v ==> r[k] == v[k])
  {
    v[G(OUTALL_DISABLE_LOW) := 1][G(OUTX_ALWAYS_ON) := 0][G(OUT_DIS_MSK) := 0][G(OUT_DIS_LOL_MSK) := 0]
      [G(OUT_DIS_LOSXAXB_MSK) := 1][G(OUT_DIS_MSK_LOS_PFD) := 0][G(OUT_DIS_MSK_LOL) := 1][G(OUT_DIS_MSK_HOLD) := 1]
  }

  method SetOutputGlobals(m: RegisterMap)
    modifies m
    ensures m.vals == OutputGlobals(old(m.vals))
  {
    m.Set(G(OUTALL_DISABLE_LOW), 1);
    m.Set(G(OUTX_ALWAYS_ON), 0);
    m.Set(G(OUT_DIS_MSK), 0);
    m.Set(G(OUT_DIS_LOL_MSK), 0);
    // all outputs stay on at a loss of the crystal, of lock or in holdover
    m.Set(G(OUT_DIS_LOSXAXB_MSK), 1);
    m.Set(G(OUT_DIS_MSK_LOS_PFD), 0);
    m.Set(G(OUT_DIS_MSK_LOL), 1);
    m.Set(G(OUT_DIS_MSK_HOLD), 1);
  }

  // ---------------------------------------------------------------------------------------------
  // setInputDivider

  predicate InputsCompilable(inputs: seq<Input>)
  {
    forall i :: 0 <= i < |inputs| ==> InputCompilable(inputs[i])
  }

  /** Input divider d is the one of the input at position `2*index == d`. */
  predicate Feeds(inp: Input, d: Ch)
  {
    inp.enabled && 2 * inp.index == d
  }

  predicate PDivKey(d: Ch, k: FieldId)
  {
    (k.InDiv? && k.ch == d)
    || (k.G? && (k.g == INX_TO_PFD_EN || k.g == IN_EN || k.g == PDIV_FRACN_CLK_DIS || k.g == IN_PULSED_CMOS_EN
      || k.g == IN_CMOS_USE1P8))
  }

  /** The shift of a fractional input divider: non-negative, since both values fit their fields. */
  function PShift(inp: Input): (s: nat)
    requires InputCompilable(inp) && inp.enabled && 0 <= inp.index < 2 && inp.PD > 1
    ensures s == ShiftMax(inp.PN, inp.PD, PnMaxPwr, PdMaxPwr)
  {
    ShiftMaxNegative(inp.PN, inp.PD, PnMaxPwr, PdMaxPwr);
    ShiftMax(inp.PN, inp.PD, PnMaxPwr, PdMaxPwr)
  }

  /** The divider values and the enable bits of input inp on divider d. */
  function InputEnable(d: Ch, inp: Input, v: Vals): (r: Vals)
    requires Feeds(inp, d)
    ensures forall k {:trigger k in r} {:trigger r[k]} :: !PDivKey(d, k) ==> (k in r <==> k in v) && (k in v ==> r[k] == v[k])
  {
    var b := InBit(inp);
    v[InDiv(d, P_NUM) := inp.PN][InDiv(d, P_DEN) := inp.PD][InDiv(d, P_UPDATE) := 1][InDiv(d, P_FRAC_EN) := 0]
      [G(INX_TO_PFD_EN) := Or(ValueOf(v, G(INX_TO_PFD_EN)), b)][G(IN_EN) := Or(ValueOf(v, G(IN_EN)), b)]
  }

  /** A fractional divider: fraction enabled, its clock on, both values shifted left as far as they fit. */
  function InputFraction(d: Ch, inp: Input, v: Vals): (r: Vals)
    requires Feeds(inp, d) && InputCompilable(inp)
    ensures forall k {:trigger k in r} {:trigger r[k]} :: !PDivKey(d, k) ==> (k in r <==> k in v) && (k in v ==> r[k] == v[k])
  {
    if inp.PD > 1 then
      var s := PShift(inp);
      StoreFraction(d, AndNot(ValueOf(v, G(PDIV_FRACN_CLK_DIS)), InBit(inp)), Shl(inp.PN, s), Shl(inp.PD, s), v)
    else v
  }

  function StoreFraction(d: Ch, clockDis: nat, num: nat, den: nat, v: Vals): (r: Vals)
    ensures forall k {:trigger k in r} {:trigger r[k]} :: !PDivKey(d, k) ==> (k in r <==> k in v) && (k in v ==> r[k] == v[k])
  {
    v[InDiv(d, P_FRAC_EN) := 1][G(PDIV_FRACN_CLK_DIS) := clockDis][InDiv(d, P_NUM) := num][InDiv(d, P_DEN) := den]
  }

  predicate PulsedCmos(f: InputFormat) { f == CmosStd || f == CmosPls || f == CmosNon }

  predicate Use1p8(f: InputFormat) { f == CmosStd || f == Standard }

  /** The DC-coupled CMOS and standard CMOS bits of the input format. */
  function InputFormatBits(d: Ch, inp: Input, v: Vals): (r: Vals)
    requires Feeds(inp, d)
    ensures forall k {:trigger k in r} {:trigger r[k]} :: !PDivKey(d, k) ==> (k in r <==> k in v) && (k in v ==> r[k] == v[k])
  {
    var b := InBit(inp);
    var v := if PulsedCmos(inp.format) then v[G(IN_PULSED_CMOS_EN) := Or(ValueOf(v, G(IN_PULSED_CMOS_EN)), b)] else v;
    if Use1p8(inp.format) then v[G(IN_CMOS_USE1P8) := Or(ValueOf(v, G(IN_CMOS_USE1P8)), b)] else v
  }

  /** The body of the nested loop of `setInputDivider` for a matching divider and input. */
  function InputDividerOne(d: Ch, inp: Input, v: Vals): (r: Vals)
    requires Feeds(inp, d) && InputCompilable(inp)
    ensures forall k {:trigger k in r} {:trigger r[k]} :: !PDivKey(d, k) ==> (k in r <==> k in v) && (k in v ==> r[k] == v[k])
  {
    InputFormatBits(d, inp, InputFraction(d, inp, InputEnable(d, inp, v)))
  }

  predicate PassKey(k: FieldId)
  {
    k.InDiv?
    || (k.G? && (k.g == INX_TO_PFD_EN || k.g == IN_EN || k.g == PDIV_FRACN_CLK_DIS || k.g == IN_PULSED_CMOS_EN
      || k.g == IN_CMOS_USE1P8))
  }

  /** The inner loop for divider d: every input feeding it, in input order. */
  function InputPass(d: Ch, inputs: seq<Input>, v: Vals): (r: Vals)
    requires InputsCompilable(inputs)
    ensures forall k {:trigger k in r} {:trigger r[k]} :: !PDivKey(d, k) ==> (k in r <==> k in v) && (k in v ==> r[k] == v[k])
  {
    if |inputs| == 0 then v
    else
      var w := InputPass(d, inputs[..|inputs| - 1], v);
      var inp := inputs[|inputs| - 1];
      if Feeds(inp, d) then InputDividerOne(d, inp, w) else w
  }

  /** The outer loop over the first n input dividers. */
  function InputPasses(n: nat, inputs: seq<Input>, v: Vals): (r: Vals)
    requires n <= 4 && InputsCompilable(inputs)
    ensures forall k {:trigger k in r} {:trigger r[k]} :: !PassKey(k) ==> (k in r <==> k in v) && (k in v ==> r[k] == v[k])
  {
    if n == 0 then v else InputPass(n - 1, inputs, InputPasses(n - 1, inputs, v))
  }

  /** P_FRACN_MODE of the first n input dividers set to 0xB. */
  function FracnModes(n: nat, v: Vals): (r: Vals)
    requires n <= 4
    ensures forall k: FieldId {:trigger k in r} {:trigger r[k]} :: !(k.InDiv? && k.p == P_FRACN_MODE) ==> (k in r <==> k in v) && (k in v ==> r[k] == v[k])
  {
    if n == 0 then v else FracnModes(n - 1, v)[InDiv(n - 1, P_FRACN_MODE) := 0xB]
  }

  predicate InputDividerKey(k: FieldId)
  {
    PassKey(k) || k == G(REFCLK_HYS_SEL) || k == G(MXAXB_INTEGER)
  }

  /** `setInputDivider` */
  function InputDividerF(conf: Configuration, v: Vals): (r: Vals)
    requires Compilable(conf)
    ensures forall k {:trigger k in r} {:trigger r[k]} :: !InputDividerKey(k) ==> (k in r <==> k in v) && (k in v ==> r[k] == v[k])
  {
    var v := FracnClockDisable(v);
    var v := if AnyInputEnabled(conf.inputs) then InputPasses(4, conf.inputs, v) else v;
    InputTail(FracnModes(4, v))
  }

  /** The fractional clocks of all four input dividers off. */
  function FracnClockDisable(v: Vals): (r: Vals)
    ensures forall k {:trigger k in r} {:trigger r[k]} :: !InputDividerKey(k) ==> (k in r <==> k in v) && (k in v ==> r[k] == v[k])
  {
    v[G(PDIV_FRACN_CLK_DIS) := 0xf]
  }

  function InputTail(v: Vals): (r: Vals)
    ensures forall k {:trigger k in r} {:trigger r[k]} :: !InputDividerKey(k) ==> (k in r <==> k in v) && (k in v ==> r[k] == v[k])
  {
    v[G(REFCLK_HYS_SEL) := 0x249][G(MXAXB_INTEGER) := 0]
  }

  method SetInputEnable(d: Ch, inp: Input, m: RegisterMap)
    requires Feeds(inp, d)
    modifies m
    ensures m.vals == InputEnable(d, inp, old(m.vals))
  {
    // not shifted like the N dividers
    m.Set(InDiv(d, P_NUM), inp.PN);
    m.Set(InDiv(d, P_DEN), inp.PD);
    m.Set(InDiv(d, P_UPDATE), 1);
    m.Set(InDiv(d, P_FRAC_EN), 0);
    m.Set(G(INX_TO_PFD_EN), Or(m.Get(G(INX_TO_PFD_EN)), InBit(inp)));
    m.Set(G(IN_EN), Or(m.Get(G(IN_EN)), InBit(inp)));
  }

  method SetInputFraction(d: Ch, inp: Input, m: RegisterMap)
    requires Feeds(inp, d) && InputCompilable(inp)
    modifies m
    ensures m.vals == InputFraction(d, inp, old(m.vals))
  {
    if inp.PD > 1 {
      m.Set(InDiv(d, P_FRAC_EN), 1);
      m.Set(G(PDIV_FRACN_CLK_DIS), AndNot(m.Get(G(PDIV_FRACN_CLK_DIS)), InBit(inp)));
      var shift := LeftShiftMax(inp.PN, inp.PD, PnMaxPwr, PdMaxPwr);
      assert shift == PShift(inp);
      m.Set(InDiv(d, P_NUM), Shl(inp.PN, shift));
      m.Set(InDiv(d, P_DEN), Shl(inp.PD, shift));
    }
  }

  method SetInputFormatBits(d: Ch, inp: Input, m: RegisterMap)
    requires Feeds(inp, d)
    modifies m
    ensures m.vals == InputFormatBits(d, inp, old(m.vals))
  {
    if PulsedCmos(inp.format) {
      m.Set(G(IN_PULSED_CMOS_EN), Or(m.Get(G(IN_PULSED_CMOS_EN)), InBit(inp)));
    }
    if Use1p8(inp.format) {
      m.Set(G(IN_CMOS_USE1P8), Or(m.Get(G(IN_CMOS_USE1P8)), InBit(inp)));
    }
  }

  method SetInputPass(d: Ch, inputs: seq<Input>, m: RegisterMap)
    requires InputsCompilable(inputs)
    modifies m
    ensures m.vals == InputPass(d, inputs, old(m.vals))
  {
    var v0 := m.vals;
    for i := 0 to |inputs|
      invariant m.vals == InputPass(d, inputs[..i], v0)
    {
      assert inputs[..i + 1][..i] == inputs[..i];
      var inp := inputs[i];
      if d == inp.index * 2 && inp.enabled {
        SetInputEnable(d, inp, m);
        SetInputFraction(d, inp, m);
        SetInputFormatBits(d, inp, m);
      }
    }
    assert inputs[..|inputs|] == inputs;
  }

  method SetInputPasses(inputs: seq<Input>, m: RegisterMap)
    requires InputsCompilable(inputs)
    modifies m
    ensures m.vals == InputPasses(4, inputs, old(m.vals))
  {
    var v0 := m.vals;
    for d := 0 to 4
      invariant m.vals == InputPasses(d, inputs, v0)
    {
      SetInputPass(d, inputs, m);
    }
  }

  method SetFracnModes(m: RegisterMap)
    modifies m
    ensures m.vals == FracnModes(4, old(m.vals))
  {
    var v0 := m.vals;
    for d := 0 to 4
      invariant m.vals == FracnModes(d, v0)
    {
      // must be 0xB for proper operation
      m.Set(InDiv(d, P_FRACN_MODE), 0xB);
    }
  }

  /** `setInputDivider` */
  method SetInputDivider(conf: Configuration, m: RegisterMap)
    requires Compilable(conf)
    modifies m
    ensures m.vals == InputDividerF(conf, old(m.vals))
  {
    m.Set(G(PDIV_FRACN_CLK_DIS), 0xf);
    if AnyInputEnabled(conf.inputs) {
      SetInputPasses(conf.inputs, m);
    }
    SetFracnModes(m);
    m.Set(G(REFCLK_HYS_SEL), 0x249);
    m.Set(G(MXAXB_INTEGER), 0);
  }

  // ---------------------------------------------------------------------------------------------
  // setOutputDivider

  predicate NDivKey(c: Ch, k: FieldId)
  {
    (k.OutDiv? && k.ch == c) || k == G(N_CLK_TO_OUTX_EN) || k == G(N_PIBYP)
  }

  /** The shift of an enabled output divider: non-negative, since both values fit their fields. */
  function NShift(ch: OutChannel): (s: nat)
    requires ChannelCompilable(ch) && ch.enabled
    ensures s == ShiftMax(ch.NN, ch.ND, NnMaxPwr, NdMaxPwr)
  {
    ShiftMaxNegative(ch.NN, ch.ND, NnMaxPwr, NdMaxPwr);
    ShiftMax(ch.NN, ch.ND, NnMaxPwr, NdMaxPwr)
  }

  /** An enabled channel's R divider and its N divider shifted left as far as it fits. */
  function NDividerValues(ch: OutChannel, v: Vals): (r: Vals)
    requires ChannelCompilable(ch) && ch.enabled
    ensures forall k {:trigger k in r} {:trigger r[k]} :: !NDivKey(ch.index, k) ==> (k in r <==> k in v) && (k in v ==> r[k] == v[k])
  {
    var s := NShift(ch);
    StoreNDivider(ch.index, Fit(RRegValue(ch.R), RRegBits), Fit(ShlInt(ch.NN, s), NNumBits),
      Fit(ShlInt(ch.ND, s), NDenBits), v)
  }

  function StoreNDivider(c: Ch, rReg: nat, num: nat, den: nat, v: Vals): (r: Vals)
    ensures forall k {:trigger k in r} {:trigger r[k]} :: !NDivKey(c, k) ==> (k in r <==> k in v) && (k in v ==> r[k] == v[k])
  {
    v[OutDiv(c, R_REG) := rReg][OutDiv(c, N_NUM) := num][OutDiv(c, N_DEN) := den][OutDiv(c, N_UPDATE) := 1]
  }

  /** The Multisynth of an enabled channel routed to its output mux, bypassed when the divider is integer. */
  function NDividerRouting(ch: OutChannel, v: Vals): (r: Vals)
    requires ChannelCompilable(ch) && ch.enabled
    ensures forall k {:trigger k in r} {:trigger r[k]} :: !NDivKey(ch.index, k) ==> (k in r <==> k in v) && (k in v ==> r[k] == v[k])
  {
    var b := Pow2(ch.index);
    var v := v[G(N_CLK_TO_OUTX_EN) := Or(ValueOf(v, G(N_CLK_TO_OUTX_EN)), b)];
    if ch.ND <= 1 then v[G(N_PIBYP) := Or(ValueOf(v, G(N_PIBYP)), b)] else v
  }

  /** One pass of the channel loop of `setOutputDivider`. */
  function OutputDividerOne(ch: OutChannel, v: Vals): (r: Vals)
    requires ChannelCompilable(ch)
    ensures forall k {:trigger k in r} {:trigger r[k]} :: !NDivKey(ch.index, k) ==> (k in r <==> k in v) && (k in v ==> r[k] == v[k])
  {
    if ch.enabled then NDividerRouting(ch, NDividerValues(ch, v)) else v[OutDiv(ch.index, N_UPDATE) := 0]
  }

  predicate NDivLoopKey(k: FieldId)
  {
    k.OutDiv? || k == G(N_CLK_TO_OUTX_EN) || k == G(N_PIBYP)
  }

  function OutputDividerLoop(chs: seq<OutChannel>, v: Vals): (r: Vals)
    requires ChannelsCompilable(chs)
    ensures forall k {:trigger k in r} {:trigger r[k]} :: !NDivLoopKey(k) ==> (k in r <==> k in v) && (k in v ==> r[k] == v[k])
  {
    if |chs| == 0 then v else OutputDividerOne(chs[|chs| - 1], OutputDividerLoop(chs[..|chs| - 1], v))
  }

  /** `setOutputDivider` */
  function OutputDividerF(conf: Configuration, v: Vals): (r: Vals)
    requires Compilable(conf)
    ensures forall k {:trigger k in r} {:trigger r[k]} :: !NDivLoopKey(k) ==> (k in r <==> k in v) && (k in v ==> r[k] == v[k])
  {
    OutputDividerLoop(conf.channels, v[G(N_CLK_TO_OUTX_EN) := 0])
  }

  method SetNDividerValues(ch: OutChannel, m: RegisterMap)
    requires ChannelCompilable(ch) && ch.enabled
    modifies m
    ensures m.vals == NDividerValues(ch, old(m.vals))
  {
    var c: Ch := ch.index;
    var shift := LeftShiftMax(ch.NN, ch.ND, NnMaxPwr, NdMaxPwr);
    assert shift == NShift(ch);
    // the divide value is (R_REG + 1) * 2
    m.Set(OutDiv(c, R_REG), Fit(RRegValue(ch.R), RRegBits));
    m.Set(OutDiv(c, N_NUM), Fit(ShlInt(ch.NN, shift), NNumBits));
    m.Set(OutDiv(c, N_DEN), Fit(ShlInt(ch.ND, shift), NDenBits));
    m.Set(OutDiv(c, N_UPDATE), 1);
  }

  method SetNDividerRouting(ch: OutChannel, m: RegisterMap)
    requires ChannelCompilable(ch) && ch.enabled
    modifies m
    ensures m.vals == NDividerRouting(ch, old(m.vals))
  {
    m.Set(G(N_CLK_TO_OUTX_EN), Or(m.Get(G(N_CLK_TO_OUTX_EN)), Pow2(ch.index)));
    if ch.ND <= 1 {
      // integer divider
      m.Set(G(N_PIBYP), Or(m.Get(G(N_PIBYP)), Pow2(ch.index)));
    }
  }

  method SetOutputDividers(chs: seq<OutChannel>, m: RegisterMap)
    requires ChannelsCompilable(chs)
    modifies m
    ensures m.vals == OutputDividerLoop(chs, old(m.vals))
  {
    var v0 := m.vals;
    for i := 0 to |chs|
      invariant m.vals == OutputDividerLoop(chs[..i], v0)
    {
      assert chs[..i + 1][..i] == chs[..i];
      var ch := chs[i];
      if ch.enabled {
        SetNDividerValues(ch, m);
        SetNDividerRouting(ch, m);
      } else {
        m.Set(OutDiv(ch.index, N_UPDATE), 0);
      }
    }
    assert chs[..|chs|] == chs;
  }

  /** `setOutputDivider` */
  method SetOutputDivider(conf: Configuration, m: RegisterMap)
    requires Compilable(conf)
    modifies m
    ensures m.vals == OutputDividerF(conf, old(m.vals))
  {
    // routes the Multisynth outputs to the output driver muxes
    m.Set(G(N_CLK_TO_OUTX_EN), 0);
    SetOutputDividers(conf.channels, m);
  }

  // ---------------------------------------------------------------------------------------------
  // setRegister, lines 694-701: single channel update, no frequency stepping, no zero delay mode.

  predicate StepGlobalsKey(k: FieldId)
  {
    k.G? && (k.g == N_UPDATE_ALL || k.g == N_FSTEP_MSK || k.g == ZDM_EN || k.g == ZDM_IN_SEL || k.g == ZDM_AUTOSW_EN)
  }

  function StepGlobals(v: Vals): (r: Vals)
    ensures forall k {:trigger k in r} {:trigger r[k]} :: !StepGlobalsKey(k) ==> (k in r <==> k in v) && (k in v ==> r[k] == v[k])
  {
    v[G(N_UPDATE_ALL) := 0][G(N_FSTEP_MSK) := 0x1F][G(ZDM_EN) := 0][G(ZDM_IN_SEL) := 0][G(ZDM_AUTOSW_EN) := 0]
  }

  method SetStepGlobals(m: RegisterMap)
    modifies m
    ensures m.vals == StepGlobals(old(m.vals))
  {
    m.Set(G(N_UPDATE_ALL), 0);
    m.Set(G(N_FSTEP_MSK), 0x1F);
    m.Set(G(ZDM_EN), 0);
    m.Set(G(ZDM_IN_SEL), 0);
    m.Set(G(ZDM_AUTOSW_EN), 0);
  }

  // ---------------------------------------------------------------------------------------------
  // setPLLConfig

  predicate PllInputKey(k: FieldId)
  {
    k.G? && (k.g == IN_SEL || k.g == BW_UPDATE_PLL || k.g.BW_PLL? || k.g.FASTLOCK_BW_PLL?)
  }

  /** The selected input and, with an input, the loop bandwidth. */
  function PllInput(conf: Configuration, v: Vals): (r: Vals)
    requires Compilable(conf)
    ensures forall k {:trigger k in r} {:trigger r[k]} :: !PllInputKey(k) ==> (k in r <==> k in v) && (k in v ==> r[k] == v[k])
  {
    var v := PllSelect(conf, v);
    if AnyInputEnabled(conf.inputs) then FastlockBw(LoopBw(v)) else v
  }

  /** The first input's index, or input 0 when none is enabled. */
  function PllSelect(conf: Configuration, v: Vals): (r: Vals)
    requires Compilable(conf)
    ensures forall k {:trigger k in r} {:trigger r[k]} :: !PllInputKey(k) ==> (k in r <==> k in v) && (k in v ==> r[k] == v[k])
  {
    if AnyInputEnabled(conf.inputs) then v[G(IN_SEL) := conf.inputs[0].index][G(BW_UPDATE_PLL) := 1]
    else v[G(IN_SEL) := 0]
  }

  /** The parameters of the 4 kHz loop bandwidth. */
  function LoopBw(v: Vals): (r: Vals)
    ensures forall k: FieldId {:trigger k in r} {:trigger r[k]} :: !(k.G? && k.g.BW_PLL?) ==> (k in r <==> k in v) && (k in v ==> r[k] == v[k])
  {
    v[G(BW_PLL(0)) := 19][G(BW_PLL(1)) := 39][G(BW_PLL(2)) := 7][G(BW_PLL(3)) := 6][G(BW_PLL(4)) := 63]
      [G(BW_PLL(5)) := 3]
  }

  /** The parameters of the fast-lock bandwidth. */
  function FastlockBw(v: Vals): (r: Vals)
    ensures forall k: FieldId {:trigger k in r} {:trigger r[k]} :: !(k.G? && k.g.FASTLOCK_BW_PLL?) ==> (k in r <==> k in v) && (k in v ==> r[k] == v[k])
  {
    v[G(FASTLOCK_BW_PLL(0)) := 19][G(FASTLOCK_BW_PLL(1)) := 41][G(FASTLOCK_BW_PLL(2)) := 7]
      [G(FASTLOCK_BW_PLL(3)) := 6][G(FASTLOCK_BW_PLL(4)) := 63][G(FASTLOCK_BW_PLL(5)) := 3]
  }

  /** `x << max(0, shift)` */
  function ShiftedBy(x: nat, shift: int): nat
  {
    if shift > 0 then Shl(x, shift) else x
  }

  predicate PllDividerKey(k: FieldId)
  {
    k.G? && (k.g == PXAXB || k.g == M_NUM || k.g == M_DEN || k.g == M_UPDATE || k.g == MXAXB_NUM
      || k.g == MXAXB_DEN || k.g == MXAXB_UPDATE || k.g == MXAXB_INTEGER)
  }

  /** The feedback divider M and the crystal divider MXAXB, both shifted left as far as they fit. */
  function PllDividers(conf: Configuration, v: Vals): (r: Vals)
    ensures forall k {:trigger k in r} {:trigger r[k]} :: !PllDividerKey(k) ==> (k in r <==> k in v) && (k in v ==> r[k] == v[k])
  {
    XaxbDivider(conf, FeedbackDivider(conf, v))
  }

  function FeedbackDivider(conf: Configuration, v: Vals): (r: Vals)
    ensures forall k {:trigger k in r} {:trigger r[k]} :: !PllDividerKey(k) ==> (k in r <==> k in v) && (k in v ==> r[k] == v[k])
  {
    var s := ShiftMax(conf.MN, conf.MD, MnMaxPwr, MdMaxPwr);
    StoreFeedback(ShiftedBy(conf.MN, s), ShiftedBy(conf.MD, s), v)
  }

  function StoreFeedback(num: nat, den: nat, v: Vals): (r: Vals)
    ensures forall k {:trigger k in r} {:trigger r[k]} :: !PllDividerKey(k) ==> (k in r <==> k in v) && (k in v ==> r[k] == v[k])
  {
    v[G(PXAXB) := 0][G(M_NUM) := num][G(M_DEN) := den][G(M_UPDATE) := 1]
  }

  function XaxbDivider(conf: Configuration, v: Vals): (r: Vals)
    ensures forall k {:trigger k in r} {:trigger r[k]} :: !PllDividerKey(k) ==> (k in r <==> k in v) && (k in v ==> r[k] == v[k])
  {
    var t := ShiftMax(conf.MxaxbN, conf.MxaxbD, MnMaxPwr, MdMaxPwr);
    StoreXaxb(ShiftedBy(conf.MxaxbN, t), ShiftedBy(conf.MxaxbD, t), if conf.MxaxbD > 1 then 0 else 1, v)
  }

  function StoreXaxb(num: nat, den: nat, integer: nat, v: Vals): (r: Vals)
    ensures forall k {:trigger k in r} {:trigger r[k]} :: !PllDividerKey(k) ==> (k in r <==> k in v) && (k in v ==> r[k] == v[k])
  {
    v[G(MXAXB_NUM) := num][G(MXAXB_DEN) := den][G(MXAXB_UPDATE) := 1][G(MXAXB_INTEGER) := integer]
  }

  /** `(MN / MD) % 1`, or 0.1 when MD is zero. */
  function FracPart(MN: nat, MD: nat): real
  {
    if MD > 0 then
      var q := MN as real / MD as real;
      q - q.Floor as real
    else 0.1
  }

  /** The feedback divider is fractional: `MD > 1` and a non-zero fractional part. */
  predicate FractionalM(MN: nat, MD: nat)
  {
    MD > 1 && FracPart(MN, MD) != 0.0
  }

  /** The feedback divider is fractional exactly when MD > 1 does not divide MN. */
  lemma FractionalMIff(MN: nat, MD: nat)
    ensures FractionalM(MN, MD) <==> MD > 1 && MN % MD != 0
  {
    if MD > 1 {
      var q := MN as real / MD as real;
      assert FracPart(MN, MD) == q - q.Floor as real;
      var f := MN / MD;
      assert MN == f * MD + MN % MD;
      if MN % MD == 0 {
        assert q == f as real;
      } else {
        assert f as real < q < (f + 1) as real by {
          assert MN as real == f as real * MD as real + (MN % MD) as real;
        }
        assert q.Floor == f;
      }
    }
  }

  predicate PllModeKey(k: FieldId)
  {
    k.G? && (k.g == FRACN_CLK_DIS_PLL || k.g == M_FRAC_EN || k.g == M_FRAC_MODE || k.g == CLK_SWTCH_MODE)
  }

  /** Fractional or integer feedback division, and automatic revertive input switching. */
  function PllMode(conf: Configuration, v: Vals): (r: Vals)
    ensures forall k {:trigger k in r} {:trigger r[k]} :: !PllModeKey(k) ==> (k in r <==> k in v) && (k in v ==> r[k] == v[k])
  {
    var frac := FractionalM(conf.MN, conf.MD);
    v[G(FRACN_CLK_DIS_PLL) := if frac then 0 else 1][G(M_FRAC_EN) := if frac then 1 else 0][G(M_FRAC_MODE) := 0xB]
      [G(CLK_SWTCH_MODE) := 2]
  }

  predicate PllKey(k: FieldId)
  {
    PllInputKey(k) || PllDividerKey(k) || PllModeKey(k)
  }

  /** `setPLLConfig` */
  function PllConfigF(conf: Configuration, v: Vals): (r: Vals)
    requires Compilable(conf)
    ensures forall k {:trigger k in r} {:trigger r[k]} :: !PllKey(k) ==> (k in r <==> k in v) && (k in v ==> r[k] == v[k])
  {
    PllMode(conf, PllDividers(conf, PllInput(conf, v)))
  }

  method SetPllInput(conf: Configuration, m: RegisterMap)
    requires Compilable(conf)
    modifies m
    ensures m.vals == PllInput(conf, old(m.vals))
  {
    if AnyInputEnabled(conf.inputs) {
      m.Set(G(IN_SEL), conf.inputs[0].index);
      m.Set(G(BW_UPDATE_PLL), 1);
      SetLoopBandwidth(m);
      SetFastlockBandwidth(m);
    } else {
      m.Set(G(IN_SEL), 0);
    }
  }

  method SetLoopBandwidth(m: RegisterMap)
    modifies m
    ensures m.vals == LoopBw(old(m.vals))
  {
    // 4 kHz
    m.Set(G(BW_PLL(0)), 19);
    m.Set(G(BW_PLL(1)), 39);
    m.Set(G(BW_PLL(2)), 7);
    m.Set(G(BW_PLL(3)), 6);
    m.Set(G(BW_PLL(4)), 63);
    m.Set(G(BW_PLL(5)), 3);
  }

  method SetFastlockBandwidth(m: RegisterMap)
    modifies m
    ensures m.vals == FastlockBw(old(m.vals))
  {
    // 4 kHz fast lock
    m.Set(G(FASTLOCK_BW_PLL(0)), 19);
    m.Set(G(FASTLOCK_BW_PLL(1)), 41);
    m.Set(G(FASTLOCK_BW_PLL(2)), 7);
    m.Set(G(FASTLOCK_BW_PLL(3)), 6);
    m.Set(G(FASTLOCK_BW_PLL(4)), 63);
    m.Set(G(FASTLOCK_BW_PLL(5)), 3);
  }

  method SetPllDividers(conf: Configuration, m: RegisterMap)
    modifies m
    ensures m.vals == PllDividers(conf, old(m.vals))
  {
    SetFeedbackDivider(conf, m);
    SetXaxbDivider(conf, m);
  }

  method SetFeedbackDivider(conf: Configuration, m: RegisterMap)
    modifies m
    ensures m.vals == FeedbackDivider(conf, old(m.vals))
  {
    // prescaler 1: only usable with external clock sources
    m.Set(G(PXAXB), 0);
    var shift := LeftShiftMax(conf.MN, conf.MD, MnMaxPwr, MdMaxPwr);
    m.Set(G(M_NUM), ShiftedBy(conf.MN, shift));
    m.Set(G(M_DEN), ShiftedBy(conf.MD, shift));
    m.Set(G(M_UPDATE), 1);
  }

  method SetXaxbDivider(conf: Configuration, m: RegisterMap)
    modifies m
    ensures m.vals == XaxbDivider(conf, old(m.vals))
  {
    var shift := LeftShiftMax(conf.MxaxbN, conf.MxaxbD, MnMaxPwr, MdMaxPwr);
    m.Set(G(MXAXB_NUM), ShiftedBy(conf.MxaxbN, shift));
    m.Set(G(MXAXB_DEN), ShiftedBy(conf.MxaxbD, shift));
    m.Set(G(MXAXB_UPDATE), 1);
    m.Set(G(MXAXB_INTEGER), if conf.MxaxbD > 1 then 0 else 1);
  }

  method SetPllMode(conf: Configuration, m: RegisterMap)
    modifies m
    ensures m.vals == PllMode(conf, old(m.vals))
  {
    var frac := 0.1;
    if conf.MD > 0 {
      // detects an upscaled integer
      frac := FracPart(conf.MN, conf.MD);
    }
    if conf.MD > 1 && frac != 0.0 {
      m.Set(G(FRACN_CLK_DIS_PLL), 0);
      m.Set(G(M_FRAC_EN), 1);
    } else {
      m.Set(G(FRACN_CLK_DIS_PLL), 1);
      m.Set(G(M_FRAC_EN), 0);
    }
    m.Set(G(M_FRAC_MODE), 0xB);
    m.Set(G(CLK_SWTCH_MODE), 2);
  }

  /** `setPLLConfig` */
  method SetPllConfig(conf: Configuration, m: RegisterMap)
    requires Compilable(conf)
    modifies m
    ensures m.vals == PllConfigF(conf, old(m.vals))
  {
    SetPllInput(conf, m);
    SetPllDividers(conf, m);
    SetPllMode(conf, m);
  }

  // ---------------------------------------------------------------------------------------------
  // setRegister, lines 706-740: input selection, fast lock, holdover and input priorities.

  predicate HoldoverKey(k: FieldId)
  {
    k.G? && (k.g == IN_SEL_REGCTRL || k.g == FASTLOCK_AUTO_EN || k.g == FASTLOCK_MAN || k.g == HOLD_EN
      || k.g == HOLD_RAMP_BYP || k.g == HOLDEXIT_BW_SEL1 || k.g == RAMP_STEP_INTERVAL)
  }

  function Holdover(v: Vals): (r: Vals)
    ensures forall k {:trigger k in r} {:trigger r[k]} :: !HoldoverKey(k) ==> (k in r <==> k in v) && (k in v ==> r[k] == v[k])
  {
    v[G(IN_SEL_REGCTRL) := 0][G(FASTLOCK_AUTO_EN) := 1][G(FASTLOCK_MAN) := 0][G(HOLD_EN) := 1]
      [G(HOLD_RAMP_BYP) := 0][G(HOLDEXIT_BW_SEL1) := 0][G(RAMP_STEP_INTERVAL) := 4]
  }

  predicate HistoryKey(k: FieldId)
  {
    k.G? && (k.g == HOLD_RAMPBYP_NOHIST || k.g == HOLD_HIST_LEN || k.g == HOLD_HIST_DELAY
      || k.g == HOLD_REF_COUNT_FRC || k.g == HOLD_15M_CYC_COUNT || k.g == FORCE_HOLD || k.g == IN_LOS_MSK
      || k.g == IN_OOF_MSK)
  }

  function History(v: Vals): (r: Vals)
    ensures forall k {:trigger k in r} {:trigger r[k]} :: !HistoryKey(k) ==> (k in r <==> k in v) && (k in v ==> r[k] == v[k])
  {
    v[G(HOLD_RAMPBYP_NOHIST) := 1][G(HOLD_HIST_LEN) := 0x19][G(HOLD_HIST_DELAY) := 0x19][G(HOLD_REF_COUNT_FRC) := 0]
      [G(HOLD_15M_CYC_COUNT) := 0x683][G(FORCE_HOLD) := 0][G(IN_LOS_MSK) := 0][G(IN_OOF_MSK) := 5]
  }

  /** The priority of input position p: 2 for position 2, 1 (selected, lowest) for the others. */
  function Priority(p: Ch): nat
  {
    if p == 2 then 2 else 1
  }

  /** The priority loop: every enabled input at a position `2*index` of the four gets its priority. */
  function PriorityLoop(inputs: seq<Input>, v: Vals): (r: Vals)
    ensures forall k: FieldId {:trigger k in r} {:trigger r[k]} :: !(k.G? && k.g.IN_PRIORITY?) ==> (k in r <==> k in v) && (k in v ==> r[k] == v[k])
  {
    if |inputs| == 0 then v
    else
      var w := PriorityLoop(inputs[..|inputs| - 1], v);
      var inp := inputs[|inputs| - 1];
      var p := 2 * inp.index;
      if inp.enabled && 0 <= p < 4 then w[G(IN_PRIORITY(p)) := Priority(p)] else w
  }

  method SetHoldover(m: RegisterMap)
    modifies m
    ensures m.vals == Holdover(old(m.vals))
  {
    // clock selection by the device, not by register
    m.Set(G(IN_SEL_REGCTRL), 0);
    m.Set(G(FASTLOCK_AUTO_EN), 1);
    m.Set(G(FASTLOCK_MAN), 0);
    // HOLD_ENABLE is on
    m.Set(G(HOLD_EN), 1);
    m.Set(G(HOLD_RAMP_BYP), 0);
    m.Set(G(HOLDEXIT_BW_SEL1), 0);
    m.Set(G(RAMP_STEP_INTERVAL), 4);
  }

  method SetHistory(m: RegisterMap)
    modifies m
    ensures m.vals == History(old(m.vals))
  {
    m.Set(G(HOLD_RAMPBYP_NOHIST), 1);
    m.Set(G(HOLD_HIST_LEN), 0x19);
    m.Set(G(HOLD_HIST_DELAY), 0x19);
    m.Set(G(HOLD_REF_COUNT_FRC), 0);
    m.Set(G(HOLD_15M_CYC_COUNT), 0x683);
    m.Set(G(FORCE_HOLD), 0);
    m.Set(G(IN_LOS_MSK), 0);
    // OOF is masked from the clock selection
    m.Set(G(IN_OOF_MSK), 5);
  }

  method SetPriorities(inputs: seq<Input>, m: RegisterMap)
    modifies m
    ensures m.vals == PriorityLoop(inputs, old(m.vals))
  {
    var v0 := m.vals;
    for i := 0 to |inputs|
      invariant m.vals == PriorityLoop(inputs[..i], v0)
    {
      assert inputs[..i + 1][..i] == inputs[..i];
      var inp := inputs[i];
      var p := inp.index * 2;
      if inp.enabled && 0 <= p < 4 {
        m.Set(G(IN_PRIORITY(p)), Priority(p));
      }
    }
    assert inputs[..|inputs|] == inputs;
  }

  // ---------------------------------------------------------------------------------------------
  // setRegister, lines 745-784: crystal, I/O voltage, divider power-up and input clock validation.

  /** Bit i set for every enabled channel at list position i (`powerUpBits`). */
  function PowerUpBits(chs: seq<OutChannel>): nat
  {
    if |chs| == 0 then 0
    else Or(PowerUpBits(chs[..|chs| - 1]), if chs[|chs| - 1].enabled then Pow2(|chs| - 1) else 0)
  }

  /** Bit j of the power-up mask is set exactly when the channel at position j is enabled. */
  lemma {:induction false} PowerUpBitsBit(chs: seq<OutChannel>, j: nat)
    ensures Bit(PowerUpBits(chs), j) <==> j < |chs| && chs[j].enabled
  {
    if |chs| == 0 {
      ZeroHasNoBits(j);
    } else {
      var n := |chs| - 1;
      PowerUpBitsBit(chs[..n], j);
      OrBit(PowerUpBits(chs[..n]), if chs[n].enabled then Pow2(n) else 0, j);
      Pow2Bit(n, j);
      ZeroHasNoBits(j);
      if j < n {
        assert chs[..n][j] == chs[j];
      }
    }
  }

  method PowerUpMask(chs: seq<OutChannel>) returns (powerUpBits: nat)
    ensures powerUpBits == PowerUpBits(chs)
  {
    powerUpBits := 0;
    var bit := 1;
    for i := 0 to |chs|
      invariant powerUpBits == PowerUpBits(chs[..i]) && bit == Pow2(i)
    {
      assert chs[..i + 1][..i] == chs[..i];
      if chs[i].enabled {
        powerUpBits := Or(powerUpBits, bit);
      } else {
        OrZero(powerUpBits);
      }
      bit := bit * 2;
    }
    assert chs[..|chs|] == chs;
  }

  predicate CrystalKey(k: FieldId)
  {
    k.G? && (k.g == XAXB_EXTCLK_EN || k.g == IO_VDD_SEL || k.g == N_ADD_0P5 || k.g == N_PDNB
      || k.g == VCO_RESET_CALCODE || k.g == VAL_DIV_CTL0 || k.g == VAL_DIV_CTL1)
  }

  function Crystal(conf: Configuration, v: Vals): (r: Vals)
    ensures forall k {:trigger k in r} {:trigger r[k]} :: !CrystalKey(k) ==> (k in r <==> k in v) && (k in v ==> r[k] == v[k])
  {
    StoreCrystal(PowerUpBits(conf.channels), v)
  }

  function StoreCrystal(powerUp: nat, v: Vals): (r: Vals)
    ensures forall k {:trigger k in r} {:trigger r[k]} :: !CrystalKey(k) ==> (k in r <==> k in v) && (k in v ==> r[k] == v[k])
  {
    v[G(XAXB_EXTCLK_EN) := 0][G(IO_VDD_SEL) := 1][G(N_ADD_0P5) := 0][G(N_PDNB) := powerUp]
      [G(VCO_RESET_CALCODE) := 240][G(XAXB_EXTCLK_EN) := 1][G(VAL_DIV_CTL0) := 3][G(VAL_DIV_CTL1) := 0]
  }

  predicate ValidationKey(k: FieldId)
  {
    k.G? && (k.g == IN_CLK_VAL_PWR_UP_DIS || k.g == IN_CLK_VAL_EN || k.g == IN_CLK_VAL_TIME)
  }

  function Validation(conf: Configuration, v: Vals): (r: Vals)
    requires Compilable(conf)
    ensures forall k {:trigger k in r} {:trigger r[k]} :: !ValidationKey(k) ==> (k in r <==> k in v) && (k in v ==> r[k] == v[k])
  {
    StoreValidation(EnabledBits(ValueOf(v, G(IN_CLK_VAL_PWR_UP_DIS)), conf.inputs), v)
  }

  function StoreValidation(x: nat, v: Vals): (r: Vals)
    ensures forall k {:trigger k in r} {:trigger r[k]} :: !ValidationKey(k) ==> (k in r <==> k in v) && (k in v ==> r[k] == v[k])
  {
    v[G(IN_CLK_VAL_PWR_UP_DIS) := x][G(IN_CLK_VAL_EN) := 1][G(IN_CLK_VAL_TIME) := 1]
  }

  method SetCrystal(conf: Configuration, m: RegisterMap)
    modifies m
    ensures m.vals == Crystal(conf, old(m.vals))
  {
    // a crystal at the XAXB pins
    m.Set(G(XAXB_EXTCLK_EN), 0);
    // 3.3 V serial interface
    m.Set(G(IO_VDD_SEL), 1);
    m.Set(G(N_ADD_0P5), 0);
    var powerUpBits := PowerUpMask(conf.channels);
    m.Set(G(N_PDNB), powerUpBits);
    m.Set(G(VCO_RESET_CALCODE), 240);
    m.Set(G(XAXB_EXTCLK_EN), 1);
    m.Set(G(VAL_DIV_CTL0), 3);
    m.Set(G(VAL_DIV_CTL1), 0);
  }

  method SetValidation(conf: Configuration, m: RegisterMap)
    requires Compilable(conf)
    modifies m
    ensures m.vals == Validation(conf, old(m.vals))
  {
    var x := EnabledMask(m.Get(G(IN_CLK_VAL_PWR_UP_DIS)), conf.inputs);
    m.Set(G(IN_CLK_VAL_PWR_UP_DIS), x);
    m.Set(G(IN_CLK_VAL_EN), 1);
    m.Set(G(IN_CLK_VAL_TIME), 1);
  }

  // ---------------------------------------------------------------------------------------------
  // setRegister

  /** The stages of `setRegister`, each a function of the configuration and the values so far. */
  datatype Stage =
    | PreambleStage | LosStage | OutputFormatStage | OutputGlobalsStage
    | InputDividerStage | OutputDividerStage | StepGlobalsStage | PllStage
    | HoldoverStage | HistoryStage | PriorityStage | CrystalStage | ValidationStage

  /** The position of s among the stages, in the order `setRegister` runs them. */
  function Index(s: Stage): (r: nat)
    ensures r < 13
  {
    match s
    case PreambleStage => 0
    case LosStage => 1
    case OutputFormatStage => 2
    case OutputGlobalsStage => 3
    case InputDividerStage => 4
    case OutputDividerStage => 5
    case StepGlobalsStage => 6
    case PllStage => 7
    case HoldoverStage => 8
    case HistoryStage => 9
    case PriorityStage => 10
    case CrystalStage => 11
    case ValidationStage => 12
  }

  /** The stage run just before s. */
  function Prev(s: Stage): (r: Stage)
    requires s != PreambleStage
    ensures Index(r) == Index(s) - 1
  {
    match s
    case LosStage => PreambleStage
    case OutputFormatStage => LosStage
    case OutputGlobalsStage => OutputFormatStage
    case InputDividerStage => OutputGlobalsStage
    case OutputDividerStage => InputDividerStage
    case StepGlobalsStage => OutputDividerStage
    case PllStage => StepGlobalsStage
    case HoldoverStage => PllStage
    case HistoryStage => HoldoverStage
    case PriorityStage => HistoryStage
    case CrystalStage => PriorityStage
    case ValidationStage => CrystalStage
  }

  function Apply(conf: Configuration, s: Stage, v: Vals): (r: Vals)
    requires Compilable(conf)
    ensures s == PreambleStage ==> r == Preamble(conf, v)
    ensures s == LosStage ==> r == LosF(conf, v)
    ensures s == OutputFormatStage ==> r == OutputFormatF(conf, v)
    ensures s == OutputGlobalsStage ==> r == OutputGlobals(v)
    ensures s == InputDividerStage ==> r == InputDividerF(conf, v)
    ensures s == OutputDividerStage ==> r == OutputDividerF(conf, v)
    ensures s == StepGlobalsStage ==> r == StepGlobals(v)
    ensures s == PllStage ==> r == PllConfigF(conf, v)
    ensures s == HoldoverStage ==> r == Holdover(v)
    ensures s == HistoryStage ==> r == History(v)
    ensures s == PriorityStage ==> r == PriorityLoop(conf.inputs, v)
    ensures s == CrystalStage ==> r == Crystal(conf, v)
    ensures s == ValidationStage ==> r == Validation(conf, v)
  {
    match s
    case PreambleStage => Preamble(conf, v)
    case LosStage => LosF(conf, v)
    case OutputFormatStage => OutputFormatF(conf, v)
    case OutputGlobalsStage => OutputGlobals(v)
    case InputDividerStage => InputDividerF(conf, v)
    case OutputDividerStage => OutputDividerF(conf, v)
    case StepGlobalsStage => StepGlobals(v)
    case PllStage => PllConfigF(conf, v)
    case HoldoverStage => Holdover(v)
    case HistoryStage => History(v)
    case PriorityStage => PriorityLoop(conf.inputs, v)
    case CrystalStage => Crystal(conf, v)
    case ValidationStage => Validation(conf, v)
  }

  /** The fields stage s may write: every other field keeps its value. */
  predicate Writes(s: Stage, k: FieldId)
  {
    match s
    case PreambleStage => PreambleKey(k)
    case LosStage => LosKey(k)
    case OutputFormatStage => FormatLoopKey(k)
    case OutputGlobalsStage => OutputGlobalsKey(k)
    case InputDividerStage => InputDividerKey(k)
    case OutputDividerStage => NDivLoopKey(k)
    case StepGlobalsStage => StepGlobalsKey(k)
    case PllStage => PllKey(k)
    case HoldoverStage => HoldoverKey(k)
    case HistoryStage => HistoryKey(k)
    case PriorityStage => k.G? && k.g.IN_PRIORITY?
    case CrystalStage => CrystalKey(k)
    case ValidationStage => ValidationKey(k)
  }

  lemma ApplyKeeps(conf: Configuration, s: Stage, v: Vals, k: FieldId)
    requires Compilable(conf) && !Writes(s, k)
    ensures ValueOf(Apply(conf, s, v), k) == ValueOf(v, k)
  {
  }

  /** The values once `setRegister` has run every stage up to and including s on a fresh map. */
  function Through(conf: Configuration, s: Stage): Vals
    requires Compilable(conf)
    decreases Index(s)
  {
    if s == PreambleStage then Preamble(conf, map[]) else Apply(conf, s, Through(conf, Prev(s)))
  }

  /** One more stage: the values through s are s applied to the values through the stage before. */
  lemma ThroughStep(conf: Configuration, s: Stage)
    requires Compilable(conf) && s != PreambleStage
    ensures Through(conf, s) == Apply(conf, s, Through(conf, Prev(s)))
  {
  }

  /** The register values `setRegister` compiles from the configuration. */
  function Compiled(conf: Configuration): Vals
    requires Compilable(conf)
  {
    Through(conf, ValidationStage)
  }

  /** A field that no stage after t up to s writes keeps, at s, the value it had after t. */
  lemma {:induction false} Keeps(conf: Configuration, t: Stage, s: Stage, k: FieldId)
    requires Compilable(conf) && Index(t) <= Index(s)
    requires forall u: Stage :: Index(t) < Index(u) <= Index(s) ==> !Writes(u, k)
    ensures ValueOf(Through(conf, s), k) == ValueOf(Through(conf, t), k)
    decreases Index(s)
  {
    if Index(t) < Index(s) {
      var w := Through(conf, Prev(s));
      assert ValueOf(w, k) == ValueOf(Through(conf, t), k) by {
        Keeps(conf, t, Prev(s), k);
      }
      assert !Writes(s, k);
      ApplyKeeps(conf, s, w, k);
      ThroughStep(conf, s);
    }
  }

  /** `setRegister`: a fresh register map holding the compiled values. */
  method SetRegisterMap(conf: Configuration) returns (m: RegisterMap)
    requires Compilable(conf)
    ensures fresh(m) && m.Valid() && m.vals == Compiled(conf)
  {
    m := new RegisterMap();
    CompileEarly(conf, m);
    CompileDividers(conf, m);
    CompilePll(conf, m);
    CompileLate(conf, m);
  }

  /** Lines 619-684: masks, LOS and the output drivers. */
  method CompileEarly(conf: Configuration, m: RegisterMap)
    requires Compilable(conf) && m.vals == map[]
    modifies m
    ensures m.vals == Through(conf, OutputGlobalsStage)
  {
    SetPreamble(conf, m);
    assert m.vals == Through(conf, PreambleStage);
    SetLos(conf, m);
    ThroughStep(conf, LosStage);
    assert m.vals == Through(conf, LosStage);
    // setOOF and setLOL only write fields outside the table
    SetOutputFormat(conf, m);
    ThroughStep(conf, OutputFormatStage);
    assert m.vals == Through(conf, OutputFormatStage);
    SetOutputGlobals(m);
    ThroughStep(conf, OutputGlobalsStage);
  }

  /** Lines 690-701: input and output dividers. */
  method CompileDividers(conf: Configuration, m: RegisterMap)
    requires Compilable(conf) && m.vals == Through(conf, OutputGlobalsStage)
    modifies m
    ensures m.vals == Through(conf, StepGlobalsStage)
  {
    SetInputDivider(conf, m);
    ThroughStep(conf, InputDividerStage);
    assert m.vals == Through(conf, InputDividerStage);
    SetOutputDivider(conf, m);
    ThroughStep(conf, OutputDividerStage);
    assert m.vals == Through(conf, OutputDividerStage);
    SetStepGlobals(m);
    ThroughStep(conf, StepGlobalsStage);
  }

  /** Lines 703-728: PLL and holdover. */
  method CompilePll(conf: Configuration, m: RegisterMap)
    requires Compilable(conf) && m.vals == Through(conf, StepGlobalsStage)
    modifies m
    ensures m.vals == Through(conf, HistoryStage)
  {
    SetPllConfig(conf, m);
    ThroughStep(conf, PllStage);
    assert m.vals == Through(conf, PllStage);
    SetHoldover(m);
    ThroughStep(conf, HoldoverStage);
    assert m.vals == Through(conf, HoldoverStage);
    SetHistory(m);
    ThroughStep(conf, HistoryStage);
  }

  /** Lines 730-784: priorities, crystal and validation. */
  method CompileLate(conf: Configuration, m: RegisterMap)
    requires Compilable(conf) && m.vals == Through(conf, HistoryStage)
    modifies m
    ensures m.vals == Compiled(conf)
  {
    SetPriorities(conf.inputs, m);
    ThroughStep(conf, PriorityStage);
    assert m.vals == Through(conf, PriorityStage);
    // setHSWConfig only writes fields outside the table
    SetCrystal(conf, m);
    ThroughStep(conf, CrystalStage);
    assert m.vals == Through(conf, CrystalStage);
    SetValidation(conf, m);
    ThroughStep(conf, ValidationStage);
  }
}
