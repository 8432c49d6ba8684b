/**
 * Which stages of `setRegister` write the fields the value lemmas follow: for
 * each, every stage but one leaves it alone.
 */
module StageWrites {

  import opened RegisterMap
  import opened SetRegister

  lemma OnlyFormatWritesDrivers(k: FieldId)
    requires k.OutFmt?
    ensures forall u: Stage :: u != OutputFormatStage ==> !Writes(u, k)
  {
  }

  lemma ClockDisableKept()
    ensures forall u: Stage :: u != OutputFormatStage ==> !Writes(u, G(N_CLK_DIS))
  {
  }

  lemma PowerUpKept()
    ensures forall u: Stage :: u != CrystalStage ==> !Writes(u, G(N_PDNB))
  {
  }

  lemma LosEnableKept()
    ensures forall u: Stage :: u != LosStage ==> !Writes(u, G(LOS_EN))
  {
  }

  lemma CrystalLosKept()
    ensures forall u: Stage :: u != LosStage ==> !Writes(u, G(LOSXAXB_DIS))
  {
  }

  lemma FractionalEnableKept()
    ensures forall u: Stage :: u != PllStage ==> !Writes(u, G(M_FRAC_EN))
  {
  }

  lemma FractionalClockKept()
    ensures forall u: Stage :: u != PllStage ==> !Writes(u, G(FRACN_CLK_DIS_PLL))
  {
  }

  lemma OnlyOutputDividerWritesDividers(k: FieldId)
    requires k.OutDiv?
    ensures forall u: Stage :: u != OutputDividerStage ==> !Writes(u, k)
  {
  }

  lemma RoutingKept()
    ensures forall u: Stage :: u != OutputDividerStage ==> !Writes(u, G(N_CLK_TO_OUTX_EN))
  {
  }

  lemma BypassKept()
    ensures forall u: Stage :: u != OutputDividerStage ==> !Writes(u, G(N_PIBYP))
  {
  }

  lemma OnlyInputDividerWritesDividers(k: FieldId)
    requires k.InDiv?
    ensures forall u: Stage :: u != InputDividerStage ==> !Writes(u, k)
  {
  }
  lemma LosInterruptKept()
    ensures forall u: Stage :: u != PreambleStage ==> !Writes(u, G(LOS_INTR_MSK))
  {
  }

  lemma LockInterruptKept()
    ensures forall u: Stage :: u != PreambleStage ==> !Writes(u, G(LOL_INTR_MSK))
  {
  }

  lemma HoldInterruptKept()
    ensures forall u: Stage :: u != PreambleStage ==> !Writes(u, G(HOLD_INTR_MSK))
  {
  }

  lemma ValidationPowerUpKept()
    ensures forall u: Stage :: u != ValidationStage ==> !Writes(u, G(IN_CLK_VAL_PWR_UP_DIS))
  {
  }

  lemma TriggerThresholdKept(p: Ch)
    ensures forall u: Stage :: u != LosStage ==> !Writes(u, G(LOS_TRG_THR(p)))
  {
  }

  lemma ClearThresholdKept(p: Ch)
    ensures forall u: Stage :: u != LosStage ==> !Writes(u, G(LOS_CLR_THR(p)))
  {
  }
}
