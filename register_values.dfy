/**
 * What the register map compiled by `setRegister` holds, field by field: the
 * output driver table, the enable masks built from the enabled channels and
 * inputs, the fractional-feedback switch and the divider ratios.  Each fact
 * follows one field from the stage that last writes it to the end, using the
 * frames of the later stages.
 */
module RegisterValues {

  import opened Bits
  import opened Config
  import opened Constants
  import opened RegisterMap
  import opened SetRegister
  import opened StageWrites

  /** The fields the preamble leaves alone are at their reset values after it. */
  lemma AfterPreamble(conf: Configuration, k: FieldId)
    requires Compilable(conf) && !PreambleKey(k)
    ensures ValueOf(Through(conf, PreambleStage), k) == Init(k)
  {
  }

  /** A field no stage writes keeps its reset value. */
  lemma Unwritten(conf: Configuration, k: FieldId)
    requires Compilable(conf)
    requires forall u: Stage :: !Writes(u, k)
    ensures ValueOf(Compiled(conf), k) == Init(k)
  {
    assert !Writes(PreambleStage, k);
    Keeps(conf, PreambleStage, ValidationStage, k);
    AfterPreamble(conf, k);
  }

  /** A field no stage before s writes still holds its reset value when s starts. */
  lemma FreshBefore(conf: Configuration, s: Stage, k: FieldId)
    requires Compilable(conf) && s != PreambleStage
    requires forall u: Stage :: Index(u) < Index(s) ==> !Writes(u, k)
    ensures ValueOf(Through(conf, Prev(s)), k) == Init(k)
  {
    Keeps(conf, PreambleStage, Prev(s), k);
    AfterPreamble(conf, k);
  }

  /** A field only stage s writes holds, in the compiled map, what s makes of its reset value. */
  lemma OnlyWriter(conf: Configuration, s: Stage, k: FieldId)
    requires Compilable(conf) && s != PreambleStage
    requires forall u: Stage :: u != s ==> !Writes(u, k)
    ensures ValueOf(Through(conf, Prev(s)), k) == Init(k)
    ensures ValueOf(Compiled(conf), k) == ValueOf(Apply(conf, s, Through(conf, Prev(s))), k)
  {
    FreshBefore(conf, s, k);
    Keeps(conf, s, ValidationStage, k);
    ThroughStep(conf, s);
  }

  /** A field only the preamble writes holds, in the compiled map, what the preamble makes of it. */
  lemma PreambleOnly(conf: Configuration, k: FieldId)
    requires Compilable(conf)
    requires forall u: Stage :: u != PreambleStage ==> !Writes(u, k)
    ensures ValueOf(Compiled(conf), k) == ValueOf(Preamble(conf, map[]), k)
  {
    Keeps(conf, PreambleStage, ValidationStage, k);
  }

  // ---------------------------------------------------------------------------------------------
  // Output drivers

  /** `setOutputFormat` leaves the driver of a channel whose index no other channel shares at its row
      of the format table. */
  lemma OutputFormatValue(conf: Configuration, v: Vals, t: nat, f: FmtField)
    requires Compilable(conf) && t < |conf.channels|
    requires forall u :: 0 <= u < |conf.channels| && u != t ==> conf.channels[u].index != conf.channels[t].index
    ensures var k := OutFmt(conf.channels[t].index, f);
      ValueOf(OutputFormatF(conf, v), k) == FormatValue(conf.vddo, conf.channels[t], f, ValueOf(v, k))
  {
    FormatLoopValue(conf.vddo, conf.channels, ClockDisable(v), t, f);
  }

  /** The driver of a channel whose index no other channel shares holds its row of the format
      table; fields the row leaves alone keep their reset values. */
  lemma DriverFields(conf: Configuration, t: nat, f: FmtField)
    requires Compilable(conf) && t < |conf.channels|
    requires forall u :: 0 <= u < |conf.channels| && u != t ==> conf.channels[u].index != conf.channels[t].index
    ensures var k := OutFmt(conf.channels[t].index, f);
      ValueOf(Compiled(conf), k) == FormatValue(conf.vddo, conf.channels[t], f, Init(k))
  {
    var k := OutFmt(conf.channels[t].index, f);
    var v := Through(conf, Prev(OutputFormatStage));
    assert ValueOf(v, k) == Init(k) by {
      OnlyFormatWritesDrivers(k);
      FreshBefore(conf, OutputFormatStage, k);
    }
    assert ValueOf(Compiled(conf), k) == ValueOf(OutputFormatF(conf, v), k) by {
      OnlyFormatWritesDrivers(k);
      OnlyWriter(conf, OutputFormatStage, k);
    }
    OutputFormatValue(conf, v, t, f);
  }

  /** After `setOutputFormat`, bit j of N_CLK_DIS is bit 4 or the index of a disabled channel. */
  lemma OutputFormatClockBits(conf: Configuration, v: Vals, j: nat)
    requires Compilable(conf)
    ensures Bit(ValueOf(OutputFormatF(conf, v), G(N_CLK_DIS)), j) <==> j == 4 || DisabledAt(conf.channels, j)
  {
    FormatLoopClockBit(conf.vddo, conf.channels, ClockDisable(v), j);
    assert Pow2(4) == 0x10;
    Pow2Bit(4, j);
  }

  /** N_CLK_DIS: bit 4 and the bit of every disabled channel's index. */
  lemma ClockDisableBits(conf: Configuration, j: nat)
    requires Compilable(conf)
    ensures Bit(ValueOf(Compiled(conf), G(N_CLK_DIS)), j) <==> j == 4 || DisabledAt(conf.channels, j)
  {
    var v := Through(conf, Prev(OutputFormatStage));
    assert ValueOf(Compiled(conf), G(N_CLK_DIS)) == ValueOf(OutputFormatF(conf, v), G(N_CLK_DIS)) by {
      ClockDisableKept();
      OnlyWriter(conf, OutputFormatStage, G(N_CLK_DIS));
    }
    OutputFormatClockBits(conf, v, j);
  }

  /** N_PDNB: the bit of every enabled channel, by its position in the list. */
  lemma PowerUpBitsCompiled(conf: Configuration, j: nat)
    requires Compilable(conf)
    ensures Bit(ValueOf(Compiled(conf), G(N_PDNB)), j) <==> j < |conf.channels| && conf.channels[j].enabled
  {
    var v := Through(conf, Prev(CrystalStage));
    assert ValueOf(Compiled(conf), G(N_PDNB)) == ValueOf(Crystal(conf, v), G(N_PDNB)) by {
      PowerUpKept();
      OnlyWriter(conf, CrystalStage, G(N_PDNB));
    }
    CrystalPowerUp(conf, v);
    PowerUpBitsBit(conf.channels, j);
  }

  lemma CrystalPowerUp(conf: Configuration, v: Vals)
    requires Compilable(conf)
    ensures ValueOf(Crystal(conf, v), G(N_PDNB)) == PowerUpBits(conf.channels)
  {
  }

  // ---------------------------------------------------------------------------------------------
  // Loss of signal

  /** `setLOS` enables the detector of every enabled input and the crystal's. */
  lemma LosStageEnable(conf: Configuration, v: Vals)
    requires Compilable(conf)
    ensures EnabledIndexed(conf.inputs)
      && ValueOf(LosF(conf, v), G(LOS_EN)) == if AnyInputEnabled(conf.inputs) then EnabledBits(0, conf.inputs) else 0
    ensures ValueOf(LosF(conf, v), G(LOSXAXB_DIS)) == 0
  {
    CompilableEnabledIndexed(conf);
    var any := AnyInputEnabled(conf.inputs);
    LosEnableSurvives(any, if any then EnabledBits(0, conf.inputs) else 0, conf.inputs, MaxLos(), MinLos(conf.inputs), v);
  }

  /** The detector bits set first are left alone by the threshold loop and the validation times. */
  lemma LosEnableSurvives(any: bool, x: nat, inputs: seq<Input>, maxLos: nat, minLos: nat, v: Vals)
    requires any ==> InputsIndexed(inputs)
    ensures var w := LosEnable(x, v);
      var u := LosTimes(if any then LosThresholdLoop(inputs, maxLos, minLos, w) else w);
      ValueOf(u, G(LOS_EN)) == x && ValueOf(u, G(LOSXAXB_DIS)) == 0
  {
    var w := LosEnable(x, v);
    assert ValueOf(w, G(LOS_EN)) == x && ValueOf(w, G(LOSXAXB_DIS)) == 0;
    var t := if any then LosThresholdLoop(inputs, maxLos, minLos, w) else w;
    assert ValueOf(t, G(LOS_EN)) == x && ValueOf(t, G(LOSXAXB_DIS)) == 0 by {
      assert !LosThresholdKey(G(LOS_EN)) && !LosThresholdKey(G(LOSXAXB_DIS));
    }
    assert !LosTimesKey(G(LOS_EN)) && !LosTimesKey(G(LOSXAXB_DIS));
  }

  /** LOS_EN holds the detector bit `2*index` of every enabled input, and the crystal's detector is on. */
  lemma LosEnableBits(conf: Configuration, j: nat)
    requires Compilable(conf)
    ensures Bit(ValueOf(Compiled(conf), G(LOS_EN)), j) <==>
      exists t :: 0 <= t < |conf.inputs| && conf.inputs[t].enabled && j == 2 * conf.inputs[t].index
    ensures ValueOf(Compiled(conf), G(LOSXAXB_DIS)) == 0
  {
    var v := Through(conf, Prev(LosStage));
    assert ValueOf(Compiled(conf), G(LOS_EN)) == ValueOf(LosF(conf, v), G(LOS_EN)) by {
      LosEnableKept();
      OnlyWriter(conf, LosStage, G(LOS_EN));
    }
    assert ValueOf(Compiled(conf), G(LOSXAXB_DIS)) == ValueOf(LosF(conf, v), G(LOSXAXB_DIS)) by {
      CrystalLosKept();
      OnlyWriter(conf, LosStage, G(LOSXAXB_DIS));
    }
    LosStageEnable(conf, v);
    CompilableEnabledIndexed(conf);
    EnabledBitsBit(0, conf.inputs, j);
    ZeroHasNoBits(j);
  }

  // ---------------------------------------------------------------------------------------------
  // PLL

  lemma PllStageMode(conf: Configuration, v: Vals)
    requires Compilable(conf)
    ensures var frac := FractionalM(conf.MN, conf.MD);
      ValueOf(PllConfigF(conf, v), G(M_FRAC_EN)) == (if frac then 1 else 0)
      && ValueOf(PllConfigF(conf, v), G(FRACN_CLK_DIS_PLL)) == (if frac then 0 else 1)
  {
  }

  /** Fractional feedback (M_FRAC_EN set, FRACN_CLK_DIS_PLL clear) exactly when MD > 1 does not divide
      MN; integer feedback otherwise. */
  lemma FractionalFeedback(conf: Configuration)
    requires Compilable(conf)
    ensures var frac := conf.MD > 1 && conf.MN % conf.MD != 0;
      ValueOf(Compiled(conf), G(M_FRAC_EN)) == (if frac then 1 else 0)
      && ValueOf(Compiled(conf), G(FRACN_CLK_DIS_PLL)) == (if frac then 0 else 1)
  {
    var v := Through(conf, Prev(PllStage));
    assert ValueOf(Compiled(conf), G(M_FRAC_EN)) == ValueOf(PllConfigF(conf, v), G(M_FRAC_EN)) by {
      FractionalEnableKept();
      OnlyWriter(conf, PllStage, G(M_FRAC_EN));
    }
    assert ValueOf(Compiled(conf), G(FRACN_CLK_DIS_PLL)) == ValueOf(PllConfigF(conf, v), G(FRACN_CLK_DIS_PLL)) by {
      FractionalClockKept();
      OnlyWriter(conf, PllStage, G(FRACN_CLK_DIS_PLL));
    }
    PllStageMode(conf, v);
    FractionalMIff(conf.MN, conf.MD);
  }

  // ---------------------------------------------------------------------------------------------
  // Output dividers

  /** The value `setOutputDivider` leaves in field d of the divider of ch, given its old value. */
  function DividerValue(ch: OutChannel, d: NDivField, old_: nat): nat
    requires ChannelCompilable(ch)
  {
    if !ch.enabled then (if d == N_UPDATE then 0 else old_)
    else
      match d
      case R_REG => Fit(RRegValue(ch.R), RRegBits)
      case N_NUM => Fit(ShlInt(ch.NN, NShift(ch)), NNumBits)
      case N_DEN => Fit(ShlInt(ch.ND, NShift(ch)), NDenBits)
      case N_UPDATE => 1
      case N_FSTEPW => old_
  }

  lemma DividerOneValue(ch: OutChannel, v: Vals, d: NDivField)
    requires ChannelCompilable(ch)
    ensures var k := OutDiv(ch.index, d);
      ValueOf(OutputDividerOne(ch, v), k) == DividerValue(ch, d, ValueOf(v, k))
  {
    if ch.enabled {
      var u := NDividerValues(ch, v);
      assert ValueOf(OutputDividerOne(ch, v), OutDiv(ch.index, d)) == ValueOf(u, OutDiv(ch.index, d));
      var s := NShift(ch);
      StoreNDividerValue(ch.index, Fit(RRegValue(ch.R), RRegBits), Fit(ShlInt(ch.NN, s), NNumBits),
        Fit(ShlInt(ch.ND, s), NDenBits), v, d);
    }
  }

  /** The divider fields stored for index c: the divider values and the update bit. */
  lemma StoreNDividerValue(c: Ch, rReg: nat, num: nat, den: nat, v: Vals, d: NDivField)
    ensures var k := OutDiv(c, d);
      ValueOf(StoreNDivider(c, rReg, num, den, v), k)
        == match d
           case R_REG => rReg
           case N_NUM => num
           case N_DEN => den
           case N_UPDATE => 1
           case N_FSTEPW => ValueOf(v, k)
  {
  }

  /** The divider fields of the only channel with a given index are the values of that channel. */
  lemma {:induction false} DividerLoopValue(chs: seq<OutChannel>, v: Vals, t: nat, d: NDivField)
    requires ChannelsCompilable(chs) && t < |chs|
    requires forall u :: 0 <= u < |chs| && u != t ==> chs[u].index != chs[t].index
    ensures var k := OutDiv(chs[t].index, d);
      ValueOf(OutputDividerLoop(chs, v), k) == DividerValue(chs[t], d, ValueOf(v, k))
  {
    var n := |chs| - 1;
    var pre := chs[..n];
    assert forall u :: 0 <= u < n ==> pre[u] == chs[u];
    var w := OutputDividerLoop(pre, v);
    if t == n {
      DividerLoopUntouched(pre, v, chs[t].index, d);
      DividerOneValue(chs[n], w, d);
    } else {
      DividerLoopValue(pre, v, t, d);
      assert !NDivKey(chs[n].index, OutDiv(chs[t].index, d));
    }
  }

  /** Channels with other indices leave the divider fields of index c alone. */
  lemma {:induction false} DividerLoopUntouched(chs: seq<OutChannel>, v: Vals, c: Ch, d: NDivField)
    requires ChannelsCompilable(chs)
    requires forall u :: 0 <= u < |chs| ==> chs[u].index != c
    ensures ValueOf(OutputDividerLoop(chs, v), OutDiv(c, d)) == ValueOf(v, OutDiv(c, d))
  {
    if |chs| > 0 {
      DividerLoopUntouched(chs[..|chs| - 1], v, c, d);
      assert !NDivKey(chs[|chs| - 1].index, OutDiv(c, d));
    }
  }

  /** The divider of a channel whose index no other channel shares: for an enabled channel, R_REG
      encodes R, the N divider is shifted left as far as both parts fit their fields and keeps the
      ratio NN / ND, and the update bit is set; for a disabled one only the update bit is cleared. */
  lemma OutputDividerFields(conf: Configuration, t: nat)
    requires Compilable(conf) && t < |conf.channels|
    requires forall u :: 0 <= u < |conf.channels| && u != t ==> conf.channels[u].index != conf.channels[t].index
    ensures var ch := conf.channels[t];
      forall d: NDivField :: ValueOf(Compiled(conf), OutDiv(ch.index, d)) == DividerValue(ch, d, Init(OutDiv(ch.index, d)))
  {
    var ch := conf.channels[t];
    forall d: NDivField
      ensures ValueOf(Compiled(conf), OutDiv(ch.index, d)) == DividerValue(ch, d, Init(OutDiv(ch.index, d)))
    {
      var k := OutDiv(ch.index, d);
      var w := Through(conf, Prev(OutputDividerStage));
      assert ValueOf(w, k) == Init(k) by {
        OnlyOutputDividerWritesDividers(k);
        FreshBefore(conf, OutputDividerStage, k);
      }
      assert ValueOf(Compiled(conf), k) == ValueOf(OutputDividerF(conf, w), k) by {
        OnlyOutputDividerWritesDividers(k);
        OnlyWriter(conf, OutputDividerStage, k);
      }
      DividerLoopValue(conf.channels, w[G(N_CLK_TO_OUTX_EN) := 0], t, d);
    }
  }

  /** An enabled channel's N divider: both parts fit their fields and keep the ratio NN / ND. */
  lemma DividerRatio(ch: OutChannel)
    requires ChannelCompilable(ch) && ch.enabled && ch.NN >= 0 && ch.ND >= 0
    ensures var num, den := DividerValue(ch, N_NUM, 0), DividerValue(ch, N_DEN, 0);
      num < Pow2(NnMaxPwr) && den < Pow2(NdMaxPwr) && num * ch.ND == den * ch.NN
  {
    var s := NShift(ch);
    ShiftMaxFits(ch.NN, ch.ND, NnMaxPwr, NdMaxPwr);
    FitShifted(ch.NN, s, NnMaxPwr, NNumBits);
    FitShifted(ch.ND, s, NdMaxPwr, NDenBits);
    ScaledRatio(ch.NN, ch.ND, Pow2(s));
  }

  /** A non-negative value shifted within p <= w bits is sent unchanged in a field of w bits. */
  lemma FitShifted(x: int, s: nat, p: nat, w: nat)
    requires 0 <= x && x * Pow2(s) <= Pow2(p) - 1 && p <= w
    ensures Fit(ShlInt(x, s), w) == x * Pow2(s) < Pow2(p)
  {
    Pow2Le(p, w);
    assert 0 <= x * Pow2(s);
  }

  /** Scaling numerator and denominator by the same factor keeps the ratio. */
  lemma ScaledRatio(a: int, b: int, p: int)
    ensures (a * p) * b == (b * p) * a
  {
  }

  /** Some enabled channel has index j. */
  predicate EnabledAt(chs: seq<OutChannel>, j: nat)
  {
    exists t :: 0 <= t < |chs| && chs[t].enabled && j == chs[t].index
  }

  /** Some enabled channel with an integer divider (`ND <= 1`) has index j. */
  predicate BypassedAt(chs: seq<OutChannel>, j: nat)
  {
    exists t :: 0 <= t < |chs| && chs[t].enabled && chs[t].ND <= 1 && j == chs[t].index
  }

  lemma AtLast(chs: seq<OutChannel>, j: nat)
    requires |chs| > 0
    ensures var n, ch := |chs| - 1, chs[|chs| - 1];
      (EnabledAt(chs, j) <==> EnabledAt(chs[..n], j) || (ch.enabled && j == ch.index))
      && (BypassedAt(chs, j) <==> BypassedAt(chs[..n], j) || (ch.enabled && ch.ND <= 1 && j == ch.index))
  {
    var n := |chs| - 1;
    assert forall t :: 0 <= t < n ==> chs[..n][t] == chs[t];
    if EnabledAt(chs, j) {
      var t :| 0 <= t < |chs| && chs[t].enabled && j == chs[t].index;
      if t < n {
        assert chs[..n][t] == chs[t];
      }
    }
    if BypassedAt(chs, j) {
      var t :| 0 <= t < |chs| && chs[t].enabled && chs[t].ND <= 1 && j == chs[t].index;
      if t < n {
        assert chs[..n][t] == chs[t];
      }
    }
  }

  /** One pass of the channel loop ORs the bit of an enabled channel's index into N_CLK_TO_OUTX_EN and,
      for an integer divider, into N_PIBYP. */
  lemma DividerOneRouting(ch: OutChannel, v: Vals, j: nat)
    requires ChannelCompilable(ch)
    ensures Bit(ValueOf(OutputDividerOne(ch, v), G(N_CLK_TO_OUTX_EN)), j) <==>
      Bit(ValueOf(v, G(N_CLK_TO_OUTX_EN)), j) || (ch.enabled && j == ch.index)
    ensures Bit(ValueOf(OutputDividerOne(ch, v), G(N_PIBYP)), j) <==>
      Bit(ValueOf(v, G(N_PIBYP)), j) || (ch.enabled && ch.ND <= 1 && j == ch.index)
  {
    if ch.enabled {
      var u := NDividerValues(ch, v);
      var b := Pow2(ch.index);
      OrBit(ValueOf(u, G(N_CLK_TO_OUTX_EN)), b, j);
      OrBit(ValueOf(u, G(N_PIBYP)), b, j);
      Pow2Bit(ch.index, j);
    }
  }

  /** The channel loop ORs the bit of every enabled channel's index into N_CLK_TO_OUTX_EN and, for an
      integer divider, into N_PIBYP. */
  lemma {:induction false} DividerLoopRouting(chs: seq<OutChannel>, v: Vals, j: nat)
    requires ChannelsCompilable(chs)
    ensures Bit(ValueOf(OutputDividerLoop(chs, v), G(N_CLK_TO_OUTX_EN)), j) <==>
      Bit(ValueOf(v, G(N_CLK_TO_OUTX_EN)), j) || EnabledAt(chs, j)
    ensures Bit(ValueOf(OutputDividerLoop(chs, v), G(N_PIBYP)), j) <==>
      Bit(ValueOf(v, G(N_PIBYP)), j) || BypassedAt(chs, j)
  {
    if |chs| > 0 {
      var n := |chs| - 1;
      DividerLoopRouting(chs[..n], v, j);
      AtLast(chs, j);
      DividerOneRouting(chs[n], OutputDividerLoop(chs[..n], v), j);
    }
  }

  /** After `setOutputDivider`, which first clears N_CLK_TO_OUTX_EN. */
  lemma OutputDividerRouting(conf: Configuration, v: Vals, j: nat)
    requires Compilable(conf)
    ensures Bit(ValueOf(OutputDividerF(conf, v), G(N_CLK_TO_OUTX_EN)), j) <==> EnabledAt(conf.channels, j)
    ensures Bit(ValueOf(OutputDividerF(conf, v), G(N_PIBYP)), j) <==>
      Bit(ValueOf(v, G(N_PIBYP)), j) || BypassedAt(conf.channels, j)
  {
    DividerLoopRouting(conf.channels, v[G(N_CLK_TO_OUTX_EN) := 0], j);
    ZeroHasNoBits(j);
  }

  /** N_CLK_TO_OUTX_EN holds the bit of every enabled channel's index. */
  lemma OutputEnableBits(conf: Configuration, j: nat)
    requires Compilable(conf)
    ensures Bit(ValueOf(Compiled(conf), G(N_CLK_TO_OUTX_EN)), j) <==> EnabledAt(conf.channels, j)
  {
    var v := Through(conf, Prev(OutputDividerStage));
    assert ValueOf(Compiled(conf), G(N_CLK_TO_OUTX_EN)) == ValueOf(OutputDividerF(conf, v), G(N_CLK_TO_OUTX_EN)) by {
      RoutingKept();
      OnlyWriter(conf, OutputDividerStage, G(N_CLK_TO_OUTX_EN));
    }
    OutputDividerRouting(conf, v, j);
  }

  /** N_PIBYP holds the bit of every enabled channel with an integer divider. */
  lemma OutputBypassBits(conf: Configuration, j: nat)
    requires Compilable(conf)
    ensures Bit(ValueOf(Compiled(conf), G(N_PIBYP)), j) <==> BypassedAt(conf.channels, j)
  {
    var v := Through(conf, Prev(OutputDividerStage));
    assert ValueOf(Compiled(conf), G(N_PIBYP)) == ValueOf(OutputDividerF(conf, v), G(N_PIBYP)) by {
      BypassKept();
      OnlyWriter(conf, OutputDividerStage, G(N_PIBYP));
    }
    BypassBeforeDividers(conf, j);
    OutputDividerRouting(conf, v, j);
  }

  /** No stage before `setOutputDivider` sets a bit of N_PIBYP. */
  lemma BypassBeforeDividers(conf: Configuration, j: nat)
    requires Compilable(conf)
    ensures !Bit(ValueOf(Through(conf, Prev(OutputDividerStage)), G(N_PIBYP)), j)
  {
    BypassKept();
    FreshBefore(conf, OutputDividerStage, G(N_PIBYP));
    ZeroHasNoBits(j);
  }
}
