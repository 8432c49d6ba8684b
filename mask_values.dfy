/**
 * What the register map compiled by `setRegister` holds in its input-side
 * masks: the LOS interrupt mask toggled at the position of every input, the
 * loss-of-lock and holdover interrupts unmasked once an input is enabled, the
 * LOS thresholds of the enabled inputs and the power-up validation bits.
 */
module MaskValues {

  import opened Bits
  import opened Config
  import opened RegisterMap
  import opened SetRegister
  import opened StageWrites
  import RegisterValues

  /** Some enabled input sits at position j, that is `2*index == j`. */
  predicate EnabledInputAt(inputs: seq<Input>, j: int)
  {
    exists t :: 0 <= t < |inputs| && inputs[t].enabled && j == 2 * inputs[t].index
  }

  lemma EnabledInputAtLast(inputs: seq<Input>, j: int)
    requires |inputs| > 0
    ensures var n, inp := |inputs| - 1, inputs[|inputs| - 1];
      EnabledInputAt(inputs, j) <==> EnabledInputAt(inputs[..n], j) || (inp.enabled && j == 2 * inp.index)
  {
    var n := |inputs| - 1;
    assert forall t :: 0 <= t < n ==> inputs[..n][t] == inputs[t];
    if EnabledInputAt(inputs, j) {
      var t :| 0 <= t < |inputs| && inputs[t].enabled && j == 2 * inputs[t].index;
      if t < n {
        assert inputs[..n][t] == inputs[t];
      }
    }
  }

  /** How many inputs, enabled or not, sit at position j. */
  function InputsAt(inputs: seq<Input>, j: int): (r: nat)
    ensures r <= |inputs|
  {
    if |inputs| == 0 then 0
    else InputsAt(inputs[..|inputs| - 1], j) + (if 2 * inputs[|inputs| - 1].index == j then 1 else 0)
  }

  // ---------------------------------------------------------------------------------------------
  // Interrupt masks

  /** The toggle loop flips bit j of LOS_INTR_MSK once for every input at position j. */
  lemma {:induction false} LosMaskLoopBit(inputs: seq<Input>, v: Vals, j: nat)
    requires InputsIndexed(inputs)
    ensures Bit(ValueOf(LosMaskLoop(inputs, v), G(LOS_INTR_MSK)), j) <==>
      (Bit(ValueOf(v, G(LOS_INTR_MSK)), j) != (InputsAt(inputs, j) % 2 == 1))
  {
    if |inputs| > 0 {
      var n := |inputs| - 1;
      var w := LosMaskLoop(inputs[..n], v);
      LosMaskLoopBit(inputs[..n], v, j);
      XorBit(ValueOf(w, G(LOS_INTR_MSK)), InBit(inputs[n]), j);
      Pow2Bit(2 * inputs[n].index, j);
    }
  }

  /** LOS_INTR_MSK: the eight mask bits 0xFF, with bit j flipped when some input is enabled and an odd
      number of inputs sit at position j. */
  lemma LosInterruptBits(conf: Configuration, j: nat)
    requires Compilable(conf)
    ensures Bit(ValueOf(Compiled(conf), G(LOS_INTR_MSK)), j) <==>
      (j < 8) != (AnyInputEnabled(conf.inputs) && InputsAt(conf.inputs, j) % 2 == 1)
  {
    assert ValueOf(Compiled(conf), G(LOS_INTR_MSK)) == ValueOf(Preamble(conf, map[]), G(LOS_INTR_MSK)) by {
      LosInterruptKept();
      RegisterValues.PreambleOnly(conf, G(LOS_INTR_MSK));
    }
    PreambleLosValue(conf, map[]);
    ToggledMaskBit(conf, Masks(map[]), j);
  }

  /** Bit j of 0xFF, toggled by the loop when some input is enabled. */
  lemma ToggledMaskBit(conf: Configuration, w: Vals, j: nat)
    requires Compilable(conf) && ValueOf(w, G(LOS_INTR_MSK)) == Pow2(8) - 1
    ensures var x := if AnyInputEnabled(conf.inputs) then ValueOf(LosMaskLoop(conf.inputs, w), G(LOS_INTR_MSK))
        else Pow2(8) - 1;
      Bit(x, j) <==> (j < 8) != (AnyInputEnabled(conf.inputs) && InputsAt(conf.inputs, j) % 2 == 1)
  {
    MaskBit(8, j);
    if AnyInputEnabled(conf.inputs) {
      LosMaskLoopBit(conf.inputs, w, j);
    }
  }

  /** LOS_INTR_MSK after the preamble: 0xFF, toggled by the loop when some input is enabled. */
  lemma PreambleLosValue(conf: Configuration, v: Vals)
    requires Compilable(conf)
    ensures ValueOf(Masks(v), G(LOS_INTR_MSK)) == Pow2(8) - 1
    ensures ValueOf(Preamble(conf, v), G(LOS_INTR_MSK))
      == if AnyInputEnabled(conf.inputs) then ValueOf(LosMaskLoop(conf.inputs, Masks(v)), G(LOS_INTR_MSK))
         else Pow2(8) - 1
  {
    MasksLos(v);
  }

  /** The mask stage sets all eight LOS interrupt mask bits. */
  lemma MasksLos(v: Vals)
    ensures ValueOf(Masks(v), G(LOS_INTR_MSK)) == Pow2(8) - 1
  {
    Pow2Of8();
  }

  /** Inputs IN0 and IN1 of the device sit at positions 0 and 2, so with both configured
      LosInterruptBits unmasks exactly bits 0 and 2 once one of them is enabled. */
  lemma InputsAtDevice(inputs: seq<Input>, j: int)
    requires |inputs| == 2 && inputs[0].index == 0 && inputs[1].index == 1
    ensures InputsAt(inputs, j) == if j == 0 || j == 2 then 1 else 0
  {
    assert inputs[..1][..0] == [];
    assert inputs[..2][..1] == inputs[..1];
    assert inputs == inputs[..2];
  }

  /** The loss-of-lock and holdover interrupts are unmasked exactly when some input is enabled. */
  lemma LockInterrupts(conf: Configuration)
    requires Compilable(conf)
    ensures ValueOf(Compiled(conf), G(LOL_INTR_MSK)) == if AnyInputEnabled(conf.inputs) then 0 else 1
    ensures ValueOf(Compiled(conf), G(HOLD_INTR_MSK)) == if AnyInputEnabled(conf.inputs) then 0 else 1
  {
    assert ValueOf(Compiled(conf), G(LOL_INTR_MSK)) == ValueOf(Preamble(conf, map[]), G(LOL_INTR_MSK)) by {
      LockInterruptKept();
      RegisterValues.PreambleOnly(conf, G(LOL_INTR_MSK));
    }
    assert ValueOf(Compiled(conf), G(HOLD_INTR_MSK)) == ValueOf(Preamble(conf, map[]), G(HOLD_INTR_MSK)) by {
      HoldInterruptKept();
      RegisterValues.PreambleOnly(conf, G(HOLD_INTR_MSK));
    }
    PreambleLock(conf, map[]);
  }

  lemma PreambleLock(conf: Configuration, v: Vals)
    requires Compilable(conf)
    ensures ValueOf(Preamble(conf, v), G(LOL_INTR_MSK)) == if AnyInputEnabled(conf.inputs) then 0 else 1
    ensures ValueOf(Preamble(conf, v), G(HOLD_INTR_MSK)) == if AnyInputEnabled(conf.inputs) then 0 else 1
  {
  }

  // ---------------------------------------------------------------------------------------------
  // LOS thresholds

  /** The threshold loop writes the trigger threshold at the position of every enabled input. */
  lemma {:induction false} TriggerLoopValue(inputs: seq<Input>, maxLos: nat, minLos: nat, v: Vals, p: Ch)
    requires InputsIndexed(inputs)
    ensures ValueOf(LosThresholdLoop(inputs, maxLos, minLos, v), G(LOS_TRG_THR(p)))
      == if EnabledInputAt(inputs, p) then maxLos else ValueOf(v, G(LOS_TRG_THR(p)))
  {
    if |inputs| > 0 {
      TriggerLoopValue(inputs[..|inputs| - 1], maxLos, minLos, v, p);
      EnabledInputAtLast(inputs, p);
    }
  }

  /** The threshold loop writes the clear threshold at the position of every enabled input. */
  lemma {:induction false} ClearLoopValue(inputs: seq<Input>, maxLos: nat, minLos: nat, v: Vals, p: Ch)
    requires InputsIndexed(inputs)
    ensures ValueOf(LosThresholdLoop(inputs, maxLos, minLos, v), G(LOS_CLR_THR(p)))
      == if EnabledInputAt(inputs, p) then minLos else ValueOf(v, G(LOS_CLR_THR(p)))
  {
    if |inputs| > 0 {
      ClearLoopValue(inputs[..|inputs| - 1], maxLos, minLos, v, p);
      EnabledInputAtLast(inputs, p);
    }
  }

  /** From a zero trigger threshold, `setLOS` leaves 106 at an enabled input's position. */
  lemma LosStageTrigger(conf: Configuration, v: Vals, p: Ch)
    requires Compilable(conf) && ValueOf(v, G(LOS_TRG_THR(p))) == 0
    ensures ValueOf(LosF(conf, v), G(LOS_TRG_THR(p))) == if EnabledInputAt(conf.inputs, p) then 106 else 0
  {
    var any := AnyInputEnabled(conf.inputs);
    var w := LosEnable(if any then EnabledBits(0, conf.inputs) else 0, v);
    if any {
      TriggerLoopValue(conf.inputs, MaxLos(), MinLos(conf.inputs), w, p);
      LosThresholds(conf.inputs);
    }
  }

  /** From a zero clear threshold, `setLOS` leaves 16 or 2 at an enabled input's position. */
  lemma LosStageClear(conf: Configuration, v: Vals, p: Ch)
    requires Compilable(conf) && ValueOf(v, G(LOS_CLR_THR(p))) == 0
    ensures ValueOf(LosF(conf, v), G(LOS_CLR_THR(p)))
      == if EnabledInputAt(conf.inputs, p) then (if CountEnabled(conf.inputs) == 2 then 16 else 2) else 0
  {
    var any := AnyInputEnabled(conf.inputs);
    var w := LosEnable(if any then EnabledBits(0, conf.inputs) else 0, v);
    if any {
      ClearLoopValue(conf.inputs, MaxLos(), MinLos(conf.inputs), w, p);
      LosThresholds(conf.inputs);
    }
  }

  /** An enabled input's LOS detector triggers at 106; a position without an enabled input keeps a zero
      threshold. */
  lemma LosTriggerValue(conf: Configuration, p: Ch)
    requires Compilable(conf)
    ensures ValueOf(Compiled(conf), G(LOS_TRG_THR(p))) == if EnabledInputAt(conf.inputs, p) then 106 else 0
  {
    var k := G(LOS_TRG_THR(p));
    var v := Through(conf, Prev(LosStage));
    assert ValueOf(v, k) == 0 by {
      TriggerThresholdKept(p);
      RegisterValues.FreshBefore(conf, LosStage, k);
    }
    assert ValueOf(Compiled(conf), k) == ValueOf(LosF(conf, v), k) by {
      TriggerThresholdKept(p);
      RegisterValues.OnlyWriter(conf, LosStage, k);
    }
    LosStageTrigger(conf, v, p);
  }

  /** An enabled input's LOS detector clears at 16 when both inputs are enabled, at 2 otherwise; a
      position without an enabled input keeps a zero threshold. */
  lemma LosClearValue(conf: Configuration, p: Ch)
    requires Compilable(conf)
    ensures ValueOf(Compiled(conf), G(LOS_CLR_THR(p)))
      == if EnabledInputAt(conf.inputs, p) then (if CountEnabled(conf.inputs) == 2 then 16 else 2) else 0
  {
    var k := G(LOS_CLR_THR(p));
    var v := Through(conf, Prev(LosStage));
    assert ValueOf(v, k) == 0 by {
      ClearThresholdKept(p);
      RegisterValues.FreshBefore(conf, LosStage, k);
    }
    assert ValueOf(Compiled(conf), k) == ValueOf(LosF(conf, v), k) by {
      ClearThresholdKept(p);
      RegisterValues.OnlyWriter(conf, LosStage, k);
    }
    LosStageClear(conf, v, p);
  }

  // ---------------------------------------------------------------------------------------------
  // Input clock validation

  /** IN_CLK_VAL_PWR_UP_DIS holds the bit of every enabled input's position. */
  lemma ValidationBits(conf: Configuration, j: nat)
    requires Compilable(conf)
    ensures Bit(ValueOf(Compiled(conf), G(IN_CLK_VAL_PWR_UP_DIS)), j) <==> EnabledInputAt(conf.inputs, j)
  {
    ValidationValue(conf);
    EnabledBitsBit(0, conf.inputs, j);
    ZeroHasNoBits(j);
  }

  /** IN_CLK_VAL_PWR_UP_DIS is the mask of the enabled inputs' positions. */
  lemma ValidationValue(conf: Configuration)
    requires Compilable(conf)
    ensures EnabledIndexed(conf.inputs)
    ensures ValueOf(Compiled(conf), G(IN_CLK_VAL_PWR_UP_DIS)) == EnabledBits(0, conf.inputs)
  {
    ValidationPowerUpKept();
    RegisterValues.OnlyWriter(conf, ValidationStage, G(IN_CLK_VAL_PWR_UP_DIS));
    ValidationStore(conf, Through(conf, Prev(ValidationStage)));
  }

  lemma ValidationStore(conf: Configuration, v: Vals)
    requires Compilable(conf) && ValueOf(v, G(IN_CLK_VAL_PWR_UP_DIS)) == Init(G(IN_CLK_VAL_PWR_UP_DIS))
    ensures EnabledIndexed(conf.inputs)
    ensures ValueOf(Validation(conf, v), G(IN_CLK_VAL_PWR_UP_DIS)) == EnabledBits(0, conf.inputs)
  {
    CompilableEnabledIndexed(conf);
    assert ValueOf(v, G(IN_CLK_VAL_PWR_UP_DIS)) == 0;
  }

  /** Input clock validation is on, with time setting 1. */
  lemma ValidationEnabled(conf: Configuration)
    requires Compilable(conf)
    ensures ValueOf(Compiled(conf), G(IN_CLK_VAL_EN)) == 1 && ValueOf(Compiled(conf), G(IN_CLK_VAL_TIME)) == 1
  {
    var v := Through(conf, Prev(ValidationStage));
    ThroughStep(conf, ValidationStage);
    ValidationSwitches(conf, v);
  }

  lemma ValidationSwitches(conf: Configuration, v: Vals)
    requires Compilable(conf)
    ensures ValueOf(Validation(conf, v), G(IN_CLK_VAL_EN)) == 1 && ValueOf(Validation(conf, v), G(IN_CLK_VAL_TIME)) == 1
  {
  }
}
