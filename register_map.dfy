/**
 * The register map of the Si5394 (class `RegisterMap` of logic/RegisterMap.py):
 * the fields the compiler writes, the status and flag fields, their addresses,
 * bit ranges and access types, the per-channel address formulas, and the
 * transfer list of (address, byte) pairs that is sent to the device.
 */
module RegisterMap {

  import opened Bits
  import opened Text
  import opened Registers
  import opened Wrappers

  /** An output channel or input divider index, 0..3. */
  type Ch = i: nat | i < 4

  /** A loop bandwidth parameter index, 0..5. */
  type Bw = i: nat | i < 6

  /** The fields of one output driver (`OutputFormatChannel`). */
  datatype FmtField = OUT_PDN | OUT_OE | OUT_RDIV_FORCE2 | OUT_FORMAT | OUT_SYNC_EN | OUT_DIS_STATE
    | OUT_CMOS_DRV | OUT_CM | OUT_AMPL | OUT_MUX_SEL | OUT_VDD_SEL_EN | OUT_VDD_SEL | OUT_INV

  /** The fields of one output divider (`OutputDividerChannel`). */
  datatype NDivField = N_NUM | N_DEN | N_UPDATE | N_FSTEPW | R_REG

  /** The fields of one input divider (`InputDividerChannel`). */
  datatype PDivField = P_NUM | P_DEN | P_UPDATE | P_FRACN_MODE | P_FRAC_EN

  /** The device-wide fields of the map, in the order the map declares them. */
  datatype Global =
    PN_BASE | GRADE | I2C_ADDR | LOS | OOF | LOL | HOLD | CAL_PLL
  | SYSINCAL_FLG | LOSXAXB_FLG | XAXB_ERR_FLG | SMBUS_TIMEOUT_FLG | LOS_FLG | OOF_FLG | LOL_FLG
  | HOLD_FLG | CAL_FLG_PLL | LOL_ON_HOLD
  | SYSINCAL_INTR_MSK | LOSXAXB_INTR_MSK | SMB_TMOUT_INTR_MSK | RESERVED_STATUSA | RESERVED_STATUSB
  | LOS_INTR_MSK | OOF_INTR_MSK | LOL_INTR_MSK | HOLD_INTR_MSK | CAL_INTR_MSK
  | SOFT_RST_ALL | SOFT_RST | PDN | SPI_3WIRE | AUTO_NDIV_UPDATE | LOS_EN | LOSXAXB_DIS
  | LOS_VAL_TIME(los: Ch) | LOS_TRG_THR(los: Ch) | LOS_CLR_THR(los: Ch) | LOS_MIN_PERIOD_EN
  | DEVICE_READY | OUTALL_DISABLE_LOW
  | OUTX_ALWAYS_ON | OUT_DIS_MSK | OUT_DIS_LOL_MSK | OUT_DIS_LOSXAXB_MSK | OUT_DIS_MSK_LOS_PFD
  | OUT_DIS_MSK_LOL | OUT_DIS_MSK_HOLD | PXAXB
  | MXAXB_NUM | MXAXB_DEN | MXAXB_UPDATE | LOS_CMOS_MIN_PER_EN | N_UPDATE_ALL | N_FSTEP_MSK
  | ZDM_EN | ZDM_IN_SEL | ZDM_AUTOSW_EN | IN_ACTV | BW_PLL(bw: Bw) | FASTLOCK_BW_PLL(bw: Bw)
  | BW_UPDATE_PLL | M_NUM | M_DEN | M_UPDATE | M_FRAC_MODE | M_FRAC_EN | PLL_OUT_RATE_SEL
  | IN_SEL_REGCTRL | IN_SEL | FASTLOCK_AUTO_EN | FASTLOCK_MAN | HOLD_EN | EXTRA | HOLD_RAMP_BYP
  | HOLDEXIT_BW_SEL1 | RAMP_STEP_INTERVAL | HOLD_RAMPBYP_NOHIST | HOLD_RAMPBYP_NOHIST_EXTRA
  | HOLD_HIST_LEN | HOLD_HIST_DELAY | HOLD_REF_COUNT_FRC | HOLD_15M_CYC_COUNT | FORCE_HOLD
  | CLK_SWTCH_MODE | IN_LOS_MSK | IN_OOF_MSK | IN_PRIORITY(prio: Ch) | HOLD_HIST_VALID
  | INIT_LP_CLOSE_HO_EXTRA | XAXB_EXTCLK_EN | IO_VDD_SEL | IN_EN | IN_PULSED_CMOS_EN
  | INX_TO_PFD_EN | REFCLK_HYS_SEL | IN_CMOS_USE1P8 | MXAXB_INTEGER
  | N_ADD_0P5 | N_CLK_TO_OUTX_EN | N_PIBYP | N_PDNB
  | PDIV_FRACN_CLK_DIS | FRACN_CLK_DIS_PLL | LOS_CLK_DIS | N_CLK_DIS | VCO_RESET_CALCODE
  | VAL_DIV_CTL0 | VAL_DIV_CTL1 | IN_CLK_VAL_PWR_UP_DIS | IN_CLK_VAL_EN | IN_CLK_VAL_TIME

  /** A field of the map: a device-wide field or a field of output driver, output divider
      or input divider number `ch`. */
  datatype FieldId = G(g: Global) | OutFmt(ch: Ch, f: FmtField) | OutDiv(ch: Ch, d: NDivField)
    | InDiv(ch: Ch, p: PDivField)

  /** The table entry of a field: its address list, its bit range and its access type string as
      the table writes it (R, R/W, S, R/O, some with trailing blanks). */
  datatype Field = Field(addresses: seq<nat>, bits: BitSpec, kind: string)
  {
    /** One or two addresses, and a bit range that is not reversed. */
    predicate Sane()
    {
      (|addresses| == 1 || |addresses| == 2) && bits.Lsb() <= bits.Msb()
    }
  }

  const RW: string := "R/W"

  /** "R/W" has no blank to strip, and marks a writable register. */
  lemma RWKind()
    ensures Strip(RW) == RW && 'W' in RW
  {
    assert RW[0] == 'R' && RW[2] == 'W';
    assert TrimLeft(RW) == RW;
    assert TrimRight(RW) == RW;
  }

  /** The channel offsets of the output drivers. */
  function OutFormatOffset(ch: Ch): nat
  {
    [0x0112, 0x0117, 0x0126, 0x012B][ch]
  }

  /** The channel offsets of the output dividers. */
  function OutDividerOffset(ch: Ch): nat
  {
    [0x0302, 0x030D, 0x0318, 0x0323][ch]
  }

  /** The channel offsets of the input dividers. */
  function InDividerOffset(ch: Ch): nat
  {
    [0x0208, 0x0212, 0x021C, 0x0226][ch]
  }

  /** First address of R divider i: there is a hole after R1_REG. */
  function RRegFirst(ch: Ch): nat
  {
    0x0250 + 3 * ch + (ch / 2 * 6)
  }

  type Entry = f: Field | f.Sane() witness Field([0], OneBit(0), "")

  function Single(a: nat, b: BitSpec, kind: string): (f: Entry)
    requires b.Lsb() <= b.Msb()
    ensures f.addresses == [a] && f.bits == b && f.kind == kind
  {
    Field([a], b, kind)
  }

  function Multi(a: nat, z: nat, h: nat, kind: string): (f: Entry)
    ensures f.addresses == [a, z] && f.bits == Span(h, 0) && f.kind == kind
  {
    Field([a, z], Span(h, 0), kind)
  }

  /** The register table. */
  function Desc(k: FieldId): Entry
  {
    match k
    case OutFmt(ch, f) =>
      var o := OutFormatOffset(ch);
      (match f
       case OUT_PDN => Single(o, OneBit(0), RW)
       case OUT_OE => Single(o, OneBit(1), RW)
       case OUT_RDIV_FORCE2 => Single(o, OneBit(2), RW)
       case OUT_FORMAT => Single(o + 1, Span(2, 0), RW)
       case OUT_SYNC_EN => Single(o + 1, OneBit(3), RW)
       case OUT_DIS_STATE => Single(o + 1, Span(5, 4), RW)
       case OUT_CMOS_DRV => Single(o + 1, Span(7, 6), RW)
       case OUT_CM => Single(o + 2, Span(3, 0), RW)
       case OUT_AMPL => Single(o + 2, Span(6, 4), RW)
       case OUT_MUX_SEL => Single(o + 3, Span(1, 0), RW)
       case OUT_VDD_SEL_EN => Single(o + 3, OneBit(3), RW)
       case OUT_VDD_SEL => Single(o + 3, Span(5, 4), RW)
       case OUT_INV => Single(o + 3, Span(7, 6), RW))
    case OutDiv(ch, d) =>
      var o := OutDividerOffset(ch);
      (match d
       case N_NUM => Multi(o, o + 5, 43, RW)
       case N_DEN => Multi(o + 6, o + 9, 31, RW)
       case N_UPDATE => Single(o + 0xA, OneBit(0), "S")
       case N_FSTEPW => Multi(0x033B + 6 * ch, 0x0340 + 6 * ch, 43, RW)
       case R_REG => Multi(RRegFirst(ch), RRegFirst(ch) + 2, 23, RW))
    case InDiv(ch, p) =>
      var o := InDividerOffset(ch);
      (match p
       case P_NUM => Multi(o, o + 5, 47, RW)
       case P_DEN => Multi(o + 6, o + 9, 31, RW)
       case P_UPDATE => Single(0x0230, OneBit(ch), "S")
       case P_FRACN_MODE => Single(0x0231 + ch, Span(3, 0), RW)
       case P_FRAC_EN => Single(0x0231 + ch, OneBit(4), RW))
    case G(g) => GlobalDesc(g)
  }

  function GlobalDesc(g: Global): Entry
  {
    match g
    case PN_BASE => Multi(0x0002, 0x0003, 15, "R")
    case GRADE => Single(0x0004, Span(7, 0), "R")
    case I2C_ADDR => Single(0x000B, Span(6, 0), RW)
    case LOS => Single(0x000D, Span(3, 0), "R")
    case OOF => Single(0x000D, Span(7, 4), "R")
    case LOL => Single(0x000E, OneBit(1), "R")
    case HOLD => Single(0x000E, OneBit(5), "R")
    case CAL_PLL => Single(0x000F, OneBit(5), "R")
    case SYSINCAL_FLG => Single(0x0011, OneBit(0), RW)
    case LOSXAXB_FLG => Single(0x0011, OneBit(1), RW)
    case XAXB_ERR_FLG => Single(0x0011, OneBit(3), RW)
    case SMBUS_TIMEOUT_FLG => Single(0x0011, OneBit(5), RW)
    case LOS_FLG => Single(0x0012, Span(3, 0), RW)
    case OOF_FLG => Single(0x0012, Span(7, 4), RW)
    case LOL_FLG => Single(0x0013, OneBit(1), RW)
    case HOLD_FLG => Single(0x0013, OneBit(5), RW)
    case CAL_FLG_PLL => Single(0x0014, OneBit(5), RW)
    case LOL_ON_HOLD => Single(0x0016, OneBit(1), RW)
    case SYSINCAL_INTR_MSK => Single(0x0017, OneBit(0), RW)
    case LOSXAXB_INTR_MSK => Single(0x0017, OneBit(1), RW)
    case SMB_TMOUT_INTR_MSK => Single(0x0017, OneBit(5), RW)
    case RESERVED_STATUSA => Single(0x0017, OneBit(6), RW)
    case RESERVED_STATUSB => Single(0x0017, OneBit(7), RW)
    case LOS_INTR_MSK => Single(0x0018, Span(3, 0), RW)
    case OOF_INTR_MSK => Single(0x0018, Span(7, 4), RW)
    case LOL_INTR_MSK => Single(0x0019, OneBit(1), RW)
    case HOLD_INTR_MSK => Single(0x0019, OneBit(5), RW)
    case CAL_INTR_MSK => Single(0x001A, OneBit(5), RW)
    case SOFT_RST_ALL => Single(0x001C, OneBit(0), "S")
    case SOFT_RST => Single(0x001C, OneBit(2), "S")
    case PDN => Single(0x001E, OneBit(0), RW)
    case SPI_3WIRE => Single(0x002B, OneBit(3), RW)
    case AUTO_NDIV_UPDATE => Single(0x002B, OneBit(5), RW)
    case LOS_EN => Single(0x002C, Span(3, 0), RW)
    case LOSXAXB_DIS => Single(0x002C, OneBit(4), RW)
    case LOS_VAL_TIME(i) => Single(0x002D, Span(2 * i + 1, 2 * i), RW)
    case LOS_TRG_THR(i) => Multi(0x002E + 2 * i, 0x002F + 2 * i, 15, RW)
    case LOS_CLR_THR(i) => Multi(0x0036 + 2 * i, 0x0037 + 2 * i, 15, RW)
    case LOS_MIN_PERIOD_EN => Single(0x003E, Span(7, 4), RW)
    case DEVICE_READY => Single(0x00FE, Span(7, 0), "R")
    case OUTALL_DISABLE_LOW => Single(0x0102, OneBit(0), RW)
    case OUTX_ALWAYS_ON => Multi(0x013F, 0x0140, 11, RW)
    case OUT_DIS_MSK => Single(0x0141, OneBit(1), RW)
    case OUT_DIS_LOL_MSK => Single(0x0141, OneBit(5), RW)
    case OUT_DIS_LOSXAXB_MSK => Single(0x0141, OneBit(6), RW)
    case OUT_DIS_MSK_LOS_PFD => Single(0x0141, OneBit(7), RW)
    case OUT_DIS_MSK_LOL => Single(0x0142, OneBit(1), RW)
    case OUT_DIS_MSK_HOLD => Single(0x0142, OneBit(5), RW)
    case PXAXB => Single(0x0206, Span(1, 0), RW)
    case MXAXB_NUM => Multi(0x0235, 0x023A, 43, RW)
    case MXAXB_DEN => Multi(0x023B, 0x023E, 31, RW)
    case MXAXB_UPDATE => Single(0x023F, OneBit(0), "S")
    case LOS_CMOS_MIN_PER_EN => Single(0x02BC, Span(7, 6), RW)
    case N_UPDATE_ALL => Single(0x0338, OneBit(1), "S")
    case N_FSTEP_MSK => Single(0x0339, Span(4, 0), RW)
    case ZDM_EN => Single(0x0487, OneBit(0), RW)
    case ZDM_IN_SEL => Single(0x0487, Span(2, 1), RW)
    case ZDM_AUTOSW_EN => Single(0x0487, OneBit(4), RW)
    case IN_ACTV => Single(0x0507, Span(7, 6), "R  ")
    case BW_PLL(i) => Single(0x0508 + i, Span(5, 0), RW)
    case FASTLOCK_BW_PLL(i) => Single(0x050E + i, Span(5, 0), RW)
    case BW_UPDATE_PLL => Single(0x0514, OneBit(0), "S  ")
    case M_NUM => Multi(0x0515, 0x051B, 55, RW)
    case M_DEN => Multi(0x051C, 0x051F, 31, RW)
    case M_UPDATE => Single(0x0520, OneBit(0), "S  ")
    case M_FRAC_MODE => Single(0x0521, Span(3, 0), RW)
    case M_FRAC_EN => Single(0x0521, OneBit(4), RW)
    case PLL_OUT_RATE_SEL => Single(0x0521, OneBit(5), RW)
    case IN_SEL_REGCTRL => Single(0x052A, OneBit(0), RW)
    case IN_SEL => Single(0x052A, Span(2, 1), RW)
    case FASTLOCK_AUTO_EN => Single(0x052B, OneBit(0), RW)
    case FASTLOCK_MAN => Single(0x052B, OneBit(1), RW)
    case HOLD_EN => Single(0x052C, OneBit(0), RW)
    case EXTRA => Single(0x052C, Span(2, 1), RW)
    case HOLD_RAMP_BYP => Single(0x052C, OneBit(3), RW)
    case HOLDEXIT_BW_SEL1 => Single(0x052C, OneBit(4), RW)
    case RAMP_STEP_INTERVAL => Single(0x052C, Span(7, 5), RW)
    case HOLD_RAMPBYP_NOHIST => Single(0x052D, OneBit(1), RW)
    case HOLD_RAMPBYP_NOHIST_EXTRA => Single(0x052D, OneBit(0), RW)
    case HOLD_HIST_LEN => Single(0x052E, Span(4, 0), RW)
    case HOLD_HIST_DELAY => Single(0x052F, Span(4, 0), RW)
    case HOLD_REF_COUNT_FRC => Single(0x0531, Span(4, 0), RW)
    case HOLD_15M_CYC_COUNT => Multi(0x0532, 0x0534, 23, RW)
    case FORCE_HOLD => Single(0x0535, OneBit(0), RW)
    case CLK_SWTCH_MODE => Single(0x0536, Span(1, 0), RW)
    case IN_LOS_MSK => Single(0x0537, Span(3, 0), RW)
    case IN_OOF_MSK => Single(0x0537, Span(7, 4), RW)
    case IN_PRIORITY(i) => Single(0x0538 + i / 2, if i % 2 == 0 then Span(2, 0) else Span(6, 4), RW)
    case HOLD_HIST_VALID => Single(0x053F, OneBit(1), "R/O")
    case INIT_LP_CLOSE_HO_EXTRA => Single(0x059B, OneBit(3), RW)
    case XAXB_EXTCLK_EN => Single(0x090E, OneBit(1), RW)
    case IO_VDD_SEL => Single(0x0943, OneBit(0), RW)
    case IN_EN => Single(0x0949, Span(3, 0), RW)
    case IN_PULSED_CMOS_EN => Single(0x0949, Span(7, 4), RW)
    case INX_TO_PFD_EN => Single(0x094A, Span(3, 0), RW)
    case REFCLK_HYS_SEL => Multi(0x094E, 0x094F, 11, RW)
    case IN_CMOS_USE1P8 => Single(0x094F, Span(7, 4), RW)
    case MXAXB_INTEGER => Single(0x095E, OneBit(0), RW)
    case N_ADD_0P5 => Single(0x0A02, Span(4, 0), RW)
    case N_CLK_TO_OUTX_EN => Single(0x0A03, Span(4, 0), RW)
    case N_PIBYP => Single(0x0A04, Span(4, 0), RW)
    case N_PDNB => Single(0x0A05, Span(4, 0), RW)
    case PDIV_FRACN_CLK_DIS => Single(0x0B44, Span(3, 0), RW)
    case FRACN_CLK_DIS_PLL => Single(0x0B44, OneBit(5), RW)
    case LOS_CLK_DIS => Single(0x0B46, Span(3, 0), RW)
    case N_CLK_DIS => Single(0x0B4A, Span(4, 0), RW)
    case VCO_RESET_CALCODE => Multi(0x0B57, 0x0B58, 11, RW)
    case VAL_DIV_CTL0 => Single(0x0C02, Span(2, 0), RW)
    case VAL_DIV_CTL1 => Single(0x0C02, OneBit(4), RW)
    case IN_CLK_VAL_PWR_UP_DIS => Single(0x0C03, Span(3, 0), RW)
    case IN_CLK_VAL_EN => Single(0x0C07, OneBit(0), RW)
    case IN_CLK_VAL_TIME => Single(0x0C08, Span(7, 0), RW)
  }

  /** The value a fresh map gives a field: zero except for the few the table initialises. */
  function Init(k: FieldId): nat
  {
    if k == G(EXTRA) then 0xF
    else if k == G(RESERVED_STATUSA) || k == G(RESERVED_STATUSB) || k == G(PLL_OUT_RATE_SEL)
      || k == G(HOLD_RAMPBYP_NOHIST_EXTRA) || k == G(INIT_LP_CLOSE_HO_EXTRA) then 1
    else 0
  }

  /** The value of field k in a map of assigned values: the assigned one, else the initial one. */
  function ValueOf(vals: map<FieldId, nat>, k: FieldId): nat
  {
    if k in vals then vals[k] else Init(k)
  }

  /** R divider i spans three bytes from 0x0250, 0x0253, 0x025C and 0x025F. */
  lemma RRegAddresses()
    ensures Desc(OutDiv(0, R_REG)).addresses == [0x0250, 0x0252]
    ensures Desc(OutDiv(1, R_REG)).addresses == [0x0253, 0x0255]
    ensures Desc(OutDiv(2, R_REG)).addresses == [0x025C, 0x025E]
    ensures Desc(OutDiv(3, R_REG)).addresses == [0x025F, 0x0261]
  {
  }

  /** The fields of output driver ch. */
  function FmtChannel(ch: Ch): seq<FieldId>
  {
    [OutFmt(ch, OUT_PDN), OutFmt(ch, OUT_OE), OutFmt(ch, OUT_RDIV_FORCE2), OutFmt(ch, OUT_FORMAT)]
    + [OutFmt(ch, OUT_SYNC_EN), OutFmt(ch, OUT_DIS_STATE), OutFmt(ch, OUT_CMOS_DRV), OutFmt(ch, OUT_CM)]
    + [OutFmt(ch, OUT_AMPL), OutFmt(ch, OUT_MUX_SEL), OutFmt(ch, OUT_VDD_SEL_EN), OutFmt(ch, OUT_VDD_SEL)]
    + [OutFmt(ch, OUT_INV)]
  }

  /** The fields of output divider ch. */
  function NDivChannel(ch: Ch): seq<FieldId>
  {
    [OutDiv(ch, N_NUM), OutDiv(ch, N_DEN), OutDiv(ch, N_UPDATE), OutDiv(ch, N_FSTEPW), OutDiv(ch, R_REG)]
  }

  /** The fields of input divider ch. */
  function PDivChannel(ch: Ch): seq<FieldId>
  {
    [InDiv(ch, P_NUM), InDiv(ch, P_DEN), InDiv(ch, P_UPDATE), InDiv(ch, P_FRACN_MODE), InDiv(ch, P_FRAC_EN)]
  }

  /** The status, flag, interrupt mask and loss-of-signal fields that open the map. */
  function StatusFields(): seq<FieldId>
  {
    [G(PN_BASE), G(GRADE), G(I2C_ADDR), G(LOS), G(OOF), G(LOL)]
    + [G(HOLD), G(CAL_PLL), G(SYSINCAL_FLG), G(LOSXAXB_FLG), G(XAXB_ERR_FLG), G(SMBUS_TIMEOUT_FLG)]
    + [G(LOS_FLG), G(OOF_FLG), G(LOL_FLG), G(HOLD_FLG), G(CAL_FLG_PLL), G(LOL_ON_HOLD)]
    + [G(SYSINCAL_INTR_MSK), G(LOSXAXB_INTR_MSK), G(SMB_TMOUT_INTR_MSK), G(RESERVED_STATUSA), G(RESERVED_STATUSB), G(LOS_INTR_MSK)]
    + [G(OOF_INTR_MSK), G(LOL_INTR_MSK), G(HOLD_INTR_MSK), G(CAL_INTR_MSK), G(SOFT_RST_ALL), G(SOFT_RST)]
    + [G(PDN), G(SPI_3WIRE), G(AUTO_NDIV_UPDATE), G(LOS_EN), G(LOSXAXB_DIS), G(LOS_VAL_TIME(0))]
    + [G(LOS_VAL_TIME(1)), G(LOS_VAL_TIME(2)), G(LOS_VAL_TIME(3)), G(LOS_TRG_THR(0)), G(LOS_TRG_THR(1)), G(LOS_TRG_THR(2))]
    + [G(LOS_TRG_THR(3)), G(LOS_CLR_THR(0)), G(LOS_CLR_THR(1)), G(LOS_CLR_THR(2)), G(LOS_CLR_THR(3)), G(LOS_MIN_PERIOD_EN)]
    + [G(DEVICE_READY), G(OUTALL_DISABLE_LOW)]
  }

  /** Every field of the map in the order the map declares it. */
  function Table(): seq<FieldId>
  {
    StatusFields()
    + FmtChannel(0) + FmtChannel(1) + FmtChannel(2) + FmtChannel(3)
    + [G(OUTX_ALWAYS_ON), G(OUT_DIS_MSK), G(OUT_DIS_LOL_MSK), G(OUT_DIS_LOSXAXB_MSK), G(OUT_DIS_MSK_LOS_PFD), G(OUT_DIS_MSK_LOL)]
    + [G(OUT_DIS_MSK_HOLD), G(PXAXB)]
    + NDivChannel(0) + NDivChannel(1) + NDivChannel(2) + NDivChannel(3)
    + PDivChannel(0) + PDivChannel(1) + PDivChannel(2) + PDivChannel(3)
    + [G(MXAXB_NUM), G(MXAXB_DEN), G(MXAXB_UPDATE), G(LOS_CMOS_MIN_PER_EN), G(N_UPDATE_ALL), G(N_FSTEP_MSK)]
    + [G(ZDM_EN), G(ZDM_IN_SEL), G(ZDM_AUTOSW_EN), G(IN_ACTV), G(BW_PLL(0)), G(BW_PLL(1))]
    + [G(BW_PLL(2)), G(BW_PLL(3)), G(BW_PLL(4)), G(BW_PLL(5)), G(FASTLOCK_BW_PLL(0)), G(FASTLOCK_BW_PLL(1))]
    + [G(FASTLOCK_BW_PLL(2)), G(FASTLOCK_BW_PLL(3)), G(FASTLOCK_BW_PLL(4)), G(FASTLOCK_BW_PLL(5)), G(BW_UPDATE_PLL), G(M_NUM)]
    + [G(M_DEN), G(M_UPDATE), G(M_FRAC_MODE), G(M_FRAC_EN), G(PLL_OUT_RATE_SEL), G(IN_SEL_REGCTRL)]
    + [G(IN_SEL), G(FASTLOCK_AUTO_EN), G(FASTLOCK_MAN), G(HOLD_EN), G(EXTRA), G(HOLD_RAMP_BYP)]
    + [G(HOLDEXIT_BW_SEL1), G(RAMP_STEP_INTERVAL), G(HOLD_RAMPBYP_NOHIST), G(HOLD_RAMPBYP_NOHIST_EXTRA), G(HOLD_HIST_LEN), G(HOLD_HIST_DELAY)]
    + [G(HOLD_REF_COUNT_FRC), G(HOLD_15M_CYC_COUNT), G(FORCE_HOLD), G(CLK_SWTCH_MODE), G(IN_LOS_MSK), G(IN_OOF_MSK)]
    + [G(IN_PRIORITY(0)), G(IN_PRIORITY(1)), G(IN_PRIORITY(2)), G(IN_PRIORITY(3)), G(HOLD_HIST_VALID), G(INIT_LP_CLOSE_HO_EXTRA)]
    + [G(XAXB_EXTCLK_EN), G(IO_VDD_SEL), G(IN_EN), G(IN_PULSED_CMOS_EN), G(INX_TO_PFD_EN), G(REFCLK_HYS_SEL)]
    + [G(IN_CMOS_USE1P8), G(MXAXB_INTEGER), G(N_ADD_0P5), G(N_CLK_TO_OUTX_EN), G(N_PIBYP), G(N_PDNB)]
    + [G(PDIV_FRACN_CLK_DIS), G(FRACN_CLK_DIS_PLL), G(LOS_CLK_DIS), G(N_CLK_DIS), G(VCO_RESET_CALCODE), G(VAL_DIV_CTL0)]
    + [G(VAL_DIV_CTL1), G(IN_CLK_VAL_PWR_UP_DIS), G(IN_CLK_VAL_EN), G(IN_CLK_VAL_TIME)]
  }

  /** The field as a `Reg` holding value v. */
  function RegOf(k: FieldId, v: nat): (r: Reg)
    ensures r.Encodable()
  {
    var d := Desc(k);
    Reg(d.addresses, d.bits.Lsb(), d.bits.Msb(), Strip(d.kind), v)
  }

  /** `RegOf` is the register the map's constructor builds from the table row. */
  lemma RegOfIsTableRow(k: FieldId, v: nat)
    ensures MakeReg(Desc(k).addresses, Desc(k).bits.Text(), Desc(k).kind, v) == Some(RegOf(k, v))
  {
    BitSpecParses(Desc(k).bits);
  }

  /** The first address of a register, the key by which the map orders its registers. */
  function FirstAddress(r: Reg): int
  {
    if |r.addresses| > 0 then r.addresses[0] else 0
  }

  function PairAddress(p: (nat, nat)): int { p.0 }

  /** The registers that the transfer list sends: access type with a 'W' or an 'S' in it. */
  predicate Writable(r: Reg)
  {
    'W' in r.kind || 'S' in r.kind
  }

  /** The filter of `buildTransferList`: the writable registers in their order. */
  function Kept(regs: seq<Reg>): (r: seq<Reg>)
    ensures forall x :: x in r <==> x in regs && Writable(x)
  {
    if |regs| == 0 then []
    else
      var init, last := regs[..|regs| - 1], regs[|regs| - 1];
      assert regs == init + [last];
      Kept(init) + (if Writable(last) then [last] else [])
  }

  /** `Writable` is the filter `"W" in reg.type or "S" in reg.type`. */
  lemma WritableKinds(r: Reg)
    ensures Writable(r) <==> Contains(r.kind, "W") || Contains(r.kind, "S")
  {
    ContainsChar(r.kind, 'W');
    ContainsChar(r.kind, 'S');
  }

  /** All (address, byte) pairs of the registers, register after register. */
  function Expand(regs: seq<Reg>): seq<(nat, nat)>
    requires forall r :: r in regs ==> r.Encodable()
  {
    if |regs| == 0 then []
    else Expand(regs[..|regs| - 1]) + RegBytes(regs[|regs| - 1])
  }

  /** Addresses in strictly increasing order, so that no address appears twice. */
  predicate Increasing(ps: seq<(nat, nat)>)
  {
    forall i, j :: 0 <= i < j < |ps| ==> ps[i].0 < ps[j].0
  }

  function AddressSet(ps: seq<(nat, nat)>): set<nat>
  {
    set p | p in ps :: p.0
  }

  /** The bitwise OR of every byte that ps contributes to address a. */
  function OrAt(ps: seq<(nat, nat)>, a: nat): nat
  {
    if |ps| == 0 then 0
    else
      var last := ps[|ps| - 1];
      if last.0 == a then Or(last.1, OrAt(ps[..|ps| - 1], a)) else OrAt(ps[..|ps| - 1], a)
  }

  /** Bit j of the OR at address a is set exactly when some contribution at a has it set. */
  lemma {:induction false} OrAtBits(ps: seq<(nat, nat)>, a: nat, j: nat)
    ensures Bit(OrAt(ps, a), j) <==> exists p :: p in ps && p.0 == a && Bit(p.1, j)
  {
    if |ps| == 0 {
      ZeroHasNoBits(j);
    } else {
      var init, last := ps[..|ps| - 1], ps[|ps| - 1];
      assert ps == init + [last];
      OrAtBits(init, a, j);
      if last.0 == a {
        OrBit(last.1, OrAt(init, a), j);
      }
    }
  }

  /** The OR at an address depends only on which contributions there are, not on their order. */
  lemma OrAtSameElements(ps: seq<(nat, nat)>, qs: seq<(nat, nat)>, a: nat)
    requires forall p :: p in ps <==> p in qs
    ensures OrAt(ps, a) == OrAt(qs, a)
  {
    forall j: nat ensures Bit(OrAt(ps, a), j) == Bit(OrAt(qs, a), j) {
      OrAtBits(ps, a, j);
      OrAtBits(qs, a, j);
    }
    BitsDetermine(OrAt(ps, a), OrAt(qs, a));
  }

  lemma OrAtSnoc(ps: seq<(nat, nat)>, p: (nat, nat))
    ensures forall a :: OrAt(ps + [p], a) == if p.0 == a then Or(p.1, OrAt(ps, a)) else OrAt(ps, a)
  {
    assert (ps + [p])[..|ps|] == ps;
  }

  lemma {:induction false} OrAtBelow(ps: seq<(nat, nat)>, a: nat)
    requires forall i :: 0 <= i < |ps| ==> ps[i].0 < a
    ensures OrAt(ps, a) == 0
  {
    if |ps| > 0 {
      OrAtBelow(ps[..|ps| - 1], a);
    }
  }

  lemma AddressSetAppend(ps: seq<(nat, nat)>, p: (nat, nat))
    ensures AddressSet(ps + [p]) == AddressSet(ps) + {p.0}
  {
    var l, r := AddressSet(ps + [p]), AddressSet(ps) + {p.0};
    forall a | a in l ensures a in r {
      var q :| q in ps + [p] && q.0 == a;
    }
    forall a | a in r ensures a in l {
      if a != p.0 {
        var q :| q in ps && q.0 == a;
        assert q in ps + [p];
      }
    }
  }

  lemma ExpandPrefix(regs: seq<Reg>, i: nat)
    requires i < |regs| && forall r :: r in regs ==> r.Encodable()
    ensures forall r :: r in regs[..i + 1] ==> r.Encodable()
    ensures Expand(regs[..i + 1]) == Expand(regs[..i]) + RegBytes(regs[i])
  {
    assert regs[..i + 1][..i] == regs[..i];
  }

  /** What the merge loop knows after the first i pairs: `data` holds the finished addresses in
      increasing order, each with the OR of its bytes, and `squashed` the OR at the address of
      pair i - 1, which is above all finished ones. */
  ghost predicate SquashInv(sorted: seq<(nat, nat)>, i: nat, data: seq<(nat, nat)>, squashed: (nat, nat))
    requires 0 < i <= |sorted|
  {
    squashed.0 == sorted[i - 1].0
    && squashed.1 == OrAt(sorted[..i], squashed.0)
    && AddressSet(data) + {squashed.0} == AddressSet(sorted[..i])
    && Increasing(data)
    && (forall k :: 0 <= k < |data| ==> data[k].0 < squashed.0)
    && (forall k :: 0 <= k < |data| ==> data[k].1 == OrAt(sorted[..i], data[k].0))
  }

  lemma SquashFirst(sorted: seq<(nat, nat)>)
    requires |sorted| > 0
    ensures SquashInv(sorted, 1, [], (Or(sorted[0].0, sorted[0].0), Or(sorted[0].1, sorted[0].1)))
  {
    OrIdempotent(sorted[0].0);
    OrIdempotent(sorted[0].1);
    OrAtSnoc([], sorted[0]);
    OrZero(sorted[0].1);
    assert sorted[..1] == [] + [sorted[0]];
    AddressSetAppend([], sorted[0]);
  }

  /** A pair at the current address is ORed into `squashed`. */
  lemma SquashSame(sorted: seq<(nat, nat)>, i: nat, data: seq<(nat, nat)>, squashed: (nat, nat))
    requires 0 < i < |sorted| && SquashInv(sorted, i, data, squashed)
    requires sorted[i].0 == squashed.0
    ensures SquashInv(sorted, i + 1, data, (Or(sorted[i].0, squashed.0), Or(sorted[i].1, squashed.1)))
  {
    var reg := sorted[i];
    assert sorted[..i + 1] == sorted[..i] + [reg];
    OrAtSnoc(sorted[..i], reg);
    AddressSetAppend(sorted[..i], reg);
    OrIdempotent(reg.0);
  }

  /** A pair at a new address finishes `squashed` and starts the next one. */
  lemma SquashNew(sorted: seq<(nat, nat)>, i: nat, data: seq<(nat, nat)>, squashed: (nat, nat))
    requires 0 < i < |sorted| && SortedBy(sorted, PairAddress) && SquashInv(sorted, i, data, squashed)
    requires sorted[i].0 != squashed.0
    ensures SquashInv(sorted, i + 1, data + [squashed], sorted[i])
  {
    var reg := sorted[i];
    assert sorted[..i + 1] == sorted[..i] + [reg];
    OrAtSnoc(sorted[..i], reg);
    AddressSetAppend(sorted[..i], reg);
    AddressSetAppend(data, squashed);
    SquashNewBelow(sorted, i);
    OrZero(reg.1);
    var data' := data + [squashed];
    forall k | 0 <= k < |data'| ensures data'[k].1 == OrAt(sorted[..i + 1], data'[k].0) {
      assert data'[k].0 <= squashed.0 < reg.0;
    }
    forall k | 0 <= k < |data'| ensures data'[k].0 < reg.0 {
      assert data'[k].0 <= squashed.0;
    }
  }

  /** In sorted pairs, a new address at i is above every earlier one, which contribute nothing
      to it. */
  lemma SquashNewBelow(sorted: seq<(nat, nat)>, i: nat)
    requires 0 < i < |sorted| && SortedBy(sorted, PairAddress)
    requires sorted[i].0 != sorted[i - 1].0
    ensures sorted[i - 1].0 < sorted[i].0
    ensures OrAt(sorted[..i], sorted[i].0) == 0
  {
    assert PairAddress(sorted[i - 1]) <= PairAddress(sorted[i]);
    forall j | 0 <= j < i ensures sorted[..i][j].0 < sorted[i].0 {
      assert PairAddress(sorted[j]) <= PairAddress(sorted[i - 1]);
    }
    OrAtBelow(sorted[..i], sorted[i].0);
  }

  lemma SquashLast(sorted: seq<(nat, nat)>, data: seq<(nat, nat)>, squashed: (nat, nat))
    requires |sorted| > 0 && SquashInv(sorted, |sorted|, data, squashed)
    ensures Increasing(data + [squashed])
    ensures AddressSet(data + [squashed]) == AddressSet(sorted)
    ensures forall k :: 0 <= k < |data| + 1 ==> (data + [squashed])[k].1 == OrAt(sorted, (data + [squashed])[k].0)
  {
    assert sorted[..|sorted|] == sorted;
    AddressSetAppend(data, squashed);
  }

  /** The merge loop of `buildTransferList` over the address-sorted pairs. */
  method Squash(sorted: seq<(nat, nat)>) returns (data: seq<(nat, nat)>)
    requires |sorted| > 0 && SortedBy(sorted, PairAddress)
    ensures Increasing(data)
    ensures AddressSet(data) == AddressSet(sorted)
    ensures forall k :: 0 <= k < |data| ==> data[k].1 == OrAt(sorted, data[k].0)
  {
    data := [];
    var squashed := sorted[0];
    for i := 0 to |sorted|
      invariant i == 0 ==> squashed == sorted[0] && data == []
      invariant i > 0 ==> SquashInv(sorted, i, data, squashed)
    {
      var reg := sorted[i];
      if squashed.0 == reg.0 {
        if i == 0 {
          SquashFirst(sorted);
        } else {
          SquashSame(sorted, i, data, squashed);
        }
        squashed := (Or(reg.0, squashed.0), Or(reg.1, squashed.1));
      } else {
        SquashNew(sorted, i, data, squashed);
        data := data + [squashed];
        squashed := reg;
      }
    }
    SquashLast(sorted, data, squashed);
    data := data + [squashed];
  }

  /** `buildTransferList` on a given register list: drop the read-only registers, expand the
      rest into (address, byte) pairs, sort them by address and OR together the bytes that
      share an address. The list indexes the first pair, so it needs at least one. */
  method TransferList(regs: seq<Reg>) returns (data: seq<(nat, nat)>)
    requires forall r :: r in regs ==> r.Encodable()
    requires |Expand(Kept(regs))| > 0
    ensures Increasing(data)
    ensures AddressSet(data) == AddressSet(Expand(Kept(regs)))
    ensures forall k :: 0 <= k < |data| ==> data[k].1 == OrAt(Expand(Kept(regs)), data[k].0)
  {
    var register := Kept(regs);
    var expanded: seq<(nat, nat)> := [];
    for i := 0 to |register|
      invariant forall r :: r in register[..i] ==> r.Encodable()
      invariant expanded == Expand(register[..i])
    {
      var b := Bytes(register[i]);
      ExpandPrefix(register, i);
      expanded := expanded + b;
    }
    assert register[..|register|] == register;
    var sortedRegister := SortBy(expanded, PairAddress);
    assert forall p :: p in sortedRegister <==> p in expanded by {
      assert forall p :: p in sortedRegister <==> p in multiset(sortedRegister);
      assert forall p :: p in expanded <==> p in multiset(expanded);
    }
    data := Squash(sortedRegister);
    assert AddressSet(sortedRegister) == AddressSet(expanded);
    forall k | 0 <= k < |data| ensures data[k].1 == OrAt(expanded, data[k].0) {
      OrAtSameElements(sortedRegister, expanded, data[k].0);
    }
  }

  /** The registers of the device: each field's table entry, fixed when the map is built, and
      its value; a field absent from `vals` still has its initial value. */
  /** A register that can be encoded, as every row of the table is. */
  type Slot = r: Reg | r.Encodable() witness Reg([0], 0, 0, "", 0)

  class RegisterMap {
    const layout: FieldId -> Slot
    const order: seq<FieldId>
    var vals: map<FieldId, nat>

    /** A fresh map: the register table, every field at its initial value. */
    constructor()
      ensures Valid() && vals == map[]
    {
      layout := k => RegOf(k, 0);
      order := Table();
      vals := map[];
    }

    /** The map was built from the register table, in its declaration order. */
    ghost predicate Valid()
    {
      InOrder() && FromTable()
    }

    ghost predicate InOrder()
    {
      order == Table()
    }

    ghost predicate FromTable()
    {
      forall k :: layout(k) == RegOf(k, 0)
    }

    function Get(k: FieldId): nat
      reads this
    {
      ValueOf(vals, k)
    }

    /** `reg.val = v` */
    method Set(k: FieldId, v: nat)
      modifies this
      ensures vals == old(vals)[k := v]
    {
      vals := vals[k := v];
    }

    /** The `Reg` object of field k. */
    function RegAt(k: FieldId): (r: Reg)
      reads this
      ensures r.Encodable() && r.val == Get(k)
    {
      layout(k).(val := Get(k))
    }

    /** In a map built from the table, the register of k is k's table row with k's value. */
    lemma RegAtIsTableRow(k: FieldId)
      requires FromTable()
      ensures RegAt(k) == RegOf(k, Get(k))
    {
    }

    /** The registers of fields ks, in that order (`getRegs` over the declared fields). */
    function RegsOf(ks: seq<FieldId>): (rs: seq<Reg>)
      reads this
      ensures |rs| == |ks|
      ensures forall i :: 0 <= i < |ks| ==> rs[i] == RegAt(ks[i])
      ensures forall r :: r in rs ==> r.Encodable()
    {
      if |ks| == 0 then [] else RegsOf(ks[..|ks| - 1]) + [RegAt(ks[|ks| - 1])]
    }

    /** `getRegs`: the registers of every field, in declaration order. */
    function Regs(): seq<Reg>
      reads this
    {
      RegsOf(order)
    }

    lemma RegsOfContains(ks: seq<FieldId>, k: FieldId)
      requires k in ks
      ensures RegAt(k) in RegsOf(ks)
    {
      var i :| 0 <= i < |ks| && ks[i] == k;
      assert RegsOf(ks)[i] == RegAt(k);
    }

    /** `getOrderedRegList`: all registers of the map, stably ordered by first address. */
    function OrderedRegList(): (rs: seq<Reg>)
      reads this
      ensures SortedBy(rs, FirstAddress)
      ensures multiset(rs) == multiset(Regs())
      ensures forall r :: r in rs ==> r.Encodable()
    {
      var all := Regs();
      var sorted := SortBy(all, FirstAddress);
      assert forall r :: r in sorted ==> r in multiset(all);
      sorted
    }

    /** `buildTransferList(givenRegister)`: the given registers, or else the whole map. */
    method BuildTransferList(givenRegister: Option<seq<Reg>>) returns (data: seq<(nat, nat)>)
      requires givenRegister.None? ==> |Expand(Kept(OrderedRegList()))| > 0
      requires givenRegister.Some? ==> forall r :: r in givenRegister.value ==> r.Encodable()
      requires givenRegister.Some? ==> |Expand(Kept(givenRegister.value))| > 0
      ensures var regs := if givenRegister.Some? then givenRegister.value else OrderedRegList();
        Increasing(data)
        && AddressSet(data) == AddressSet(Expand(Kept(regs)))
        && forall k :: 0 <= k < |data| ==> data[k].1 == OrAt(Expand(Kept(regs)), data[k].0)
    {
      var allRegister;
      if givenRegister.None? {
        allRegister := OrderedRegList();
      } else {
        allRegister := givenRegister.value;
      }
      data := TransferList(allRegister);
    }

    /** Some field of the map is a one-byte register that is sent. */
    ghost predicate Sendable()
    {
      exists k :: k in order && Writable(layout(k)) && |layout(k).addresses| == 1
    }

    /** A map built from the table is sendable: I2C_ADDR is such a field. */
    lemma ValidIsSendable()
      requires Valid()
      ensures Sendable()
    {
      I2CInOrder();
      I2CWritable();
    }

    lemma I2CInOrder()
      requires InOrder()
      ensures G(I2C_ADDR) in order
    {
      I2CInTable();
    }

    lemma I2CWritable()
      requires FromTable()
      ensures Writable(layout(G(I2C_ADDR))) && |layout(G(I2C_ADDR)).addresses| == 1
    {
      I2CEntry();
      RWKind();
    }

    /** A sendable map always has a first pair to send, so `buildTransferList()` can always be
        called on it. */
    lemma FullMapNonEmpty()
      requires Sendable()
      ensures exists r :: r in OrderedRegList() && Writable(r) && |r.addresses| == 1
      ensures |Expand(Kept(OrderedRegList()))| > 0
    {
      var k :| k in order && Writable(layout(k)) && |layout(k).addresses| == 1;
      RegsOfContains(order, k);
      assert RegAt(k) in multiset(Regs());
      assert RegAt(k) in OrderedRegList();
      SomethingToSend(OrderedRegList(), RegAt(k));
    }
  }

  lemma I2CInTable()
    ensures G(I2C_ADDR) in Table()
  {
    assert G(I2C_ADDR) in StatusFields();
  }

  lemma I2CEntry()
    ensures Desc(G(I2C_ADDR)) == Field([0x000B], Span(6, 0), RW)
  {
  }

  /** One writable register is enough for the transfer list to have a first pair. */
  lemma SomethingToSend(regs: seq<Reg>, r: Reg)
    requires forall x :: x in regs ==> x.Encodable()
    requires r in regs && Writable(r) && |RegBytes(r)| > 0
    ensures |Expand(Kept(regs))| > 0
  {
    ExpandContains(Kept(regs), r);
  }

  lemma {:induction false} ExpandContains(regs: seq<Reg>, r: Reg)
    requires forall x :: x in regs ==> x.Encodable()
    requires r in regs
    ensures |Expand(regs)| >= |RegBytes(r)|
  {
    var init, last := regs[..|regs| - 1], regs[|regs| - 1];
    assert regs == init + [last];
    if r != last {
      ExpandContains(init, r);
    }
  }
}
