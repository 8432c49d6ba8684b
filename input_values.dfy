/**
 * What the register map compiled by `setRegister` holds in the four input
 * dividers: the divider an enabled input feeds carries its P divider (shifted
 * left as far as it fits when fractional), its update bit and its fraction
 * bit; a divider nothing feeds keeps its reset values; every divider gets the
 * fractional mode 0xB.
 */
module InputValues {

  import opened Bits
  import opened Config
  import opened Constants
  import opened RegisterMap
  import opened SetRegister
  import opened StageWrites
  import RegisterValues

  /** Field p of an input divider fed by inp, after `setInputDivider`. */
  function FedValue(inp: Input, p: PDivField): nat
    requires InputCompilable(inp) && inp.enabled && 0 <= inp.index < 2
  {
    var frac := inp.PD > 1;
    match p
    case P_NUM => if frac then Shl(inp.PN, PShift(inp)) else inp.PN
    case P_DEN => if frac then Shl(inp.PD, PShift(inp)) else inp.PD
    case P_UPDATE => 1
    case P_FRAC_EN => if frac then 1 else 0
    case P_FRACN_MODE => 0xB
  }

  /** The body of the nested loop writes every field of the divider but its fractional mode. */
  lemma InputOneValue(d: Ch, inp: Input, v: Vals, p: PDivField)
    requires Feeds(inp, d) && InputCompilable(inp)
    ensures var k := InDiv(d, p);
      ValueOf(InputDividerOne(d, inp, v), k) == if p == P_FRACN_MODE then ValueOf(v, k) else FedValue(inp, p)
  {
    var w := InputEnable(d, inp, v);
    EnableValue(d, inp, v, p);
    FractionValue(d, inp, w, p);
    FormatBitsKeep(d, inp, InputFraction(d, inp, w), p);
  }

  lemma EnableValue(d: Ch, inp: Input, v: Vals, p: PDivField)
    requires Feeds(inp, d)
    ensures var k := InDiv(d, p);
      ValueOf(InputEnable(d, inp, v), k)
        == match p
           case P_NUM => inp.PN
           case P_DEN => inp.PD
           case P_UPDATE => 1
           case P_FRAC_EN => 0
           case P_FRACN_MODE => ValueOf(v, k)
  {
  }

  lemma FractionValue(d: Ch, inp: Input, v: Vals, p: PDivField)
    requires Feeds(inp, d) && InputCompilable(inp)
    ensures var k := InDiv(d, p);
      ValueOf(InputFraction(d, inp, v), k)
        == if inp.PD <= 1 then ValueOf(v, k)
           else match p
             case P_NUM => Shl(inp.PN, PShift(inp))
             case P_DEN => Shl(inp.PD, PShift(inp))
             case P_FRAC_EN => 1
             case _ => ValueOf(v, k)
  {
    if inp.PD > 1 {
      var s := PShift(inp);
      StoreFractionValue(d, AndNot(ValueOf(v, G(PDIV_FRACN_CLK_DIS)), InBit(inp)), Shl(inp.PN, s), Shl(inp.PD, s), v, p);
    }
  }

  /** The fraction stored for divider d: its numerator, denominator and enable bit. */
  lemma StoreFractionValue(d: Ch, clockDis: nat, num: nat, den: nat, v: Vals, p: PDivField)
    ensures var k := InDiv(d, p);
      ValueOf(StoreFraction(d, clockDis, num, den, v), k)
        == match p
           case P_NUM => num
           case P_DEN => den
           case P_FRAC_EN => 1
           case _ => ValueOf(v, k)
  {
  }

  lemma FormatBitsKeep(d: Ch, inp: Input, v: Vals, p: PDivField)
    requires Feeds(inp, d)
    ensures ValueOf(InputFormatBits(d, inp, v), InDiv(d, p)) == ValueOf(v, InDiv(d, p))
  {
  }

  /** Inputs that feed other dividers leave the fields of divider d alone. */
  lemma {:induction false} InputPassUntouched(d: Ch, inputs: seq<Input>, v: Vals, p: PDivField)
    requires InputsCompilable(inputs)
    requires forall u :: 0 <= u < |inputs| ==> !Feeds(inputs[u], d)
    ensures ValueOf(InputPass(d, inputs, v), InDiv(d, p)) == ValueOf(v, InDiv(d, p))
  {
    if |inputs| > 0 {
      InputPassUntouched(d, inputs[..|inputs| - 1], v, p);
    }
  }

  /** The inner loop for divider d leaves there the values of the only input that feeds it. */
  lemma {:induction false} InputPassValue(d: Ch, inputs: seq<Input>, v: Vals, t: nat, p: PDivField)
    requires InputsCompilable(inputs) && t < |inputs| && Feeds(inputs[t], d) && p != P_FRACN_MODE
    requires forall u :: 0 <= u < |inputs| && u != t ==> !Feeds(inputs[u], d)
    ensures ValueOf(InputPass(d, inputs, v), InDiv(d, p)) == FedValue(inputs[t], p)
  {
    var n := |inputs| - 1;
    var pre := inputs[..n];
    assert forall u :: 0 <= u < n ==> pre[u] == inputs[u];
    var w := InputPass(d, pre, v);
    if t == n {
      InputPassUntouched(d, pre, v, p);
      InputOneValue(d, inputs[n], w, p);
    } else {
      InputPassValue(d, pre, v, t, p);
    }
  }

  /** Of the first n passes of the outer loop, only pass d writes divider d. */
  lemma {:induction false} InputPassesValue(n: nat, inputs: seq<Input>, v: Vals, d: Ch, p: PDivField)
    requires n <= 4 && InputsCompilable(inputs)
    ensures var k := InDiv(d, p);
      ValueOf(InputPasses(n, inputs, v), k)
        == if d < n then ValueOf(InputPass(d, inputs, InputPasses(d, inputs, v)), k) else ValueOf(v, k)
  {
    if n > 0 {
      InputPassesValue(n - 1, inputs, v, d, p);
      assert n - 1 != d ==> !PDivKey(n - 1, InDiv(d, p));
    }
  }

  /** The last loop of `setInputDivider` sets the fractional mode of every divider to 0xB. */
  lemma {:induction false} FracnModesValue(n: nat, v: Vals, d: Ch, p: PDivField)
    requires n <= 4 && d < n
    ensures var k := InDiv(d, p);
      ValueOf(FracnModes(n, v), k) == if p == P_FRACN_MODE then 0xB else ValueOf(v, k)
  {
    if n - 1 != d {
      FracnModesValue(n - 1, v, d, p);
    }
  }

  /** After `setInputDivider`, a divider fed by exactly one input holds that input's values. */
  lemma InputDividerFed(conf: Configuration, v: Vals, t: nat, d: Ch, p: PDivField)
    requires Compilable(conf) && t < |conf.inputs| && Feeds(conf.inputs[t], d)
    requires forall u :: 0 <= u < |conf.inputs| && u != t ==> !Feeds(conf.inputs[u], d)
    ensures ValueOf(InputDividerF(conf, v), InDiv(d, p)) == FedValue(conf.inputs[t], p)
  {
    var w := FracnClockDisable(v);
    assert conf.inputs[t].enabled;
    var x := InputPasses(4, conf.inputs, w);
    FracnModesValue(4, x, d, p);
    InputPassesValue(4, conf.inputs, w, d, p);
    if p != P_FRACN_MODE {
      InputPassValue(d, conf.inputs, InputPasses(d, conf.inputs, w), t, p);
    }
  }

  /** After `setInputDivider`, a divider no input feeds keeps its old values but the fractional mode. */
  lemma InputDividerUnfed(conf: Configuration, v: Vals, d: Ch, p: PDivField)
    requires Compilable(conf)
    requires forall u :: 0 <= u < |conf.inputs| ==> !Feeds(conf.inputs[u], d)
    ensures var k := InDiv(d, p);
      ValueOf(InputDividerF(conf, v), k) == if p == P_FRACN_MODE then 0xB else ValueOf(v, k)
  {
    var w := FracnClockDisable(v);
    if AnyInputEnabled(conf.inputs) {
      FracnModesValue(4, InputPasses(4, conf.inputs, w), d, p);
      InputPassesValue(4, conf.inputs, w, d, p);
      InputPassUntouched(d, conf.inputs, InputPasses(d, conf.inputs, w), p);
      InputPassesValue(d, conf.inputs, w, d, p);
    } else {
      FracnModesValue(4, w, d, p);
    }
  }

  /** The divider an enabled input feeds, alone, holds that input's divider values in the compiled map. */
  lemma FedDividerFields(conf: Configuration, t: nat, d: Ch, p: PDivField)
    requires Compilable(conf) && t < |conf.inputs| && Feeds(conf.inputs[t], d)
    requires forall u :: 0 <= u < |conf.inputs| && u != t ==> !Feeds(conf.inputs[u], d)
    ensures ValueOf(Compiled(conf), InDiv(d, p)) == FedValue(conf.inputs[t], p)
  {
    var k := InDiv(d, p);
    var v := Through(conf, Prev(InputDividerStage));
    assert ValueOf(Compiled(conf), k) == ValueOf(InputDividerF(conf, v), k) by {
      OnlyInputDividerWritesDividers(k);
      RegisterValues.OnlyWriter(conf, InputDividerStage, k);
    }
    InputDividerFed(conf, v, t, d, p);
  }

  /** A divider no enabled input feeds holds zeros and the fractional mode 0xB in the compiled map. */
  lemma UnfedDividerFields(conf: Configuration, d: Ch, p: PDivField)
    requires Compilable(conf)
    requires forall u :: 0 <= u < |conf.inputs| ==> !Feeds(conf.inputs[u], d)
    ensures ValueOf(Compiled(conf), InDiv(d, p)) == if p == P_FRACN_MODE then 0xB else 0
  {
    var k := InDiv(d, p);
    var v := Through(conf, Prev(InputDividerStage));
    assert ValueOf(v, k) == 0 by {
      OnlyInputDividerWritesDividers(k);
      RegisterValues.FreshBefore(conf, InputDividerStage, k);
    }
    assert ValueOf(Compiled(conf), k) == ValueOf(InputDividerF(conf, v), k) by {
      OnlyInputDividerWritesDividers(k);
      RegisterValues.OnlyWriter(conf, InputDividerStage, k);
    }
    InputDividerUnfed(conf, v, d, p);
  }

  /** A fractional input divider is shifted left as far as both parts fit their fields and keeps the
      ratio PN / PD; an integer one is PN / PD unshifted with the fraction off. */
  lemma FedRatio(inp: Input)
    requires InputCompilable(inp) && inp.enabled && 0 <= inp.index < 2
    ensures var num, den := FedValue(inp, P_NUM), FedValue(inp, P_DEN);
      num * inp.PD == den * inp.PN
      && (inp.PD > 1 ==> num < Pow2(PnMaxPwr) && den < Pow2(PdMaxPwr) && FedValue(inp, P_FRAC_EN) == 1)
      && (inp.PD <= 1 ==> num == inp.PN && den == inp.PD && FedValue(inp, P_FRAC_EN) == 0)
  {
    if inp.PD > 1 {
      var s := PShift(inp);
      ShiftMaxFits(inp.PN, inp.PD, PnMaxPwr, PdMaxPwr);
      RegisterValues.ScaledRatio(inp.PN, inp.PD, Pow2(s));
    }
  }
}
