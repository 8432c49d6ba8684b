/**
 * The two fixed messages of the worker, worked out from the register table: the sticky
 * flags `__clearFlags` clears and the PDN bit `__powerDown` sets, each taken from a
 * freshly built register map.
 */
module Messages {

  import opened Bits
  import opened Text
  import opened Registers
  import opened RegisterMap
  import opened Transfer

  /** The registers of fields ks in a fresh `RegisterMap()`: each field's table row at its
      initial value. */
  function FreshRegs(ks: seq<FieldId>): (r: seq<Slot>)
    ensures |r| == |ks|
  {
    seq(|ks|, i requires 0 <= i < |ks| => RegOf(ks[i], Init(ks[i])))
  }

  /** A map just built from the register table holds exactly those registers. */
  lemma FreshMapRegs(m: RegisterMap, ks: seq<FieldId>)
    requires m.FromTable() && m.vals == map[]
    ensures m.RegsOf(ks) == FreshRegs(ks)
  {
    forall i | 0 <= i < |ks| ensures m.RegsOf(ks)[i] == FreshRegs(ks)[i] {
      m.RegAtIsTableRow(ks[i]);
    }
  }

  /** The nine sticky flags `__clearFlags` sends, each at its initial value 0. */
  function ClearFlagFields(): seq<FieldId>
  {
    [G(SYSINCAL_FLG), G(LOSXAXB_FLG), G(XAXB_ERR_FLG), G(SMBUS_TIMEOUT_FLG), G(LOS_FLG), G(OOF_FLG),
     G(LOL_FLG), G(HOLD_FLG), G(CAL_FLG_PLL)]
  }

  /** The transfer list of the clear-flags message: four flag bytes, all cleared. */
  const ClearFlagsData: seq<(nat, nat)> := [(0x0011, 0), (0x0012, 0), (0x0013, 0), (0x0014, 0)]

  /** The power-down message: PDN, bit 0 of 0x001E, set. */
  const PowerDownData: seq<(nat, nat)> := [(0x001E, 1)]

  /** A one-byte writable register at 0, as each sticky flag of a fresh map is. */
  predicate ZeroByte(r: Reg)
  {
    |r.addresses| == 1 && 0 <= r.lsb <= r.msb + 1 && Writable(r) && r.val == 0
  }

  /** A zero byte at the address of each register. */
  function ZeroPairs(regs: seq<Reg>): seq<(nat, nat)>
    requires forall i :: 0 <= i < |regs| ==> ZeroByte(regs[i])
  {
    seq(|regs|, i requires 0 <= i < |regs| => assert ZeroByte(regs[i]); (regs[i].addresses[0], 0))
  }

  /** Zero one-byte writable registers are all kept. */
  lemma {:induction false} ZeroBytesKept(regs: seq<Reg>)
    requires forall i :: 0 <= i < |regs| ==> ZeroByte(regs[i])
    ensures Kept(regs) == regs
    decreases |regs|
  {
    if |regs| > 0 {
      var init, last := regs[..|regs| - 1], regs[|regs| - 1];
      assert regs == init + [last];
      assert ZeroByte(last);
      ZeroBytesKept(init);
    }
  }

  /** Zero one-byte registers contribute one zero byte each, at their address. */
  lemma {:induction false} ZeroBytesExpand(regs: seq<Reg>)
    requires forall i :: 0 <= i < |regs| ==> ZeroByte(regs[i])
    ensures forall r :: r in regs ==> r.Encodable()
    ensures Expand(regs) == ZeroPairs(regs)
    decreases |regs|
  {
    assert forall r :: r in regs ==> r.Encodable() by {
      forall r | r in regs ensures r.Encodable() {
        var i :| 0 <= i < |regs| && regs[i] == r;
        assert ZeroByte(regs[i]);
      }
    }
    if |regs| > 0 {
      var init, last := regs[..|regs| - 1], regs[|regs| - 1];
      assert ZeroByte(last);
      ZeroBytesExpand(init);
      assert Expand(regs) == Expand(init) + RegBytes(last);
      assert RegBytes(last) == [(last.addresses[0], 0)];
      assert ZeroPairs(regs) == ZeroPairs(init) + [(last.addresses[0], 0)];
    }
  }

  /** With every contribution zero, the OR at every address is zero. */
  lemma {:induction false} OrAtZeros(ps: seq<(nat, nat)>, a: nat)
    requires forall i :: 0 <= i < |ps| ==> ps[i].1 == 0
    ensures OrAt(ps, a) == 0
    decreases |ps|
  {
    if |ps| > 0 {
      OrAtZeros(ps[..|ps| - 1], a);
      OrZero(0);
    }
  }

  /** The table rows of the four flags at 0x0011: bits 0, 1, 3 and 5, read/write. */
  lemma StickyFlagEntries()
    ensures Desc(G(SYSINCAL_FLG)) == Field([0x0011], OneBit(0), RW)
    ensures Desc(G(LOSXAXB_FLG)) == Field([0x0011], OneBit(1), RW)
    ensures Desc(G(XAXB_ERR_FLG)) == Field([0x0011], OneBit(3), RW)
    ensures Desc(G(SMBUS_TIMEOUT_FLG)) == Field([0x0011], OneBit(5), RW)
  {
  }

  /** The table rows of the five flags at 0x0012 to 0x0014, read/write. */
  lemma LockFlagEntries()
    ensures Desc(G(LOS_FLG)) == Field([0x0012], Span(3, 0), RW)
    ensures Desc(G(OOF_FLG)) == Field([0x0012], Span(7, 4), RW)
    ensures Desc(G(LOL_FLG)) == Field([0x0013], OneBit(1), RW)
    ensures Desc(G(HOLD_FLG)) == Field([0x0013], OneBit(5), RW)
    ensures Desc(G(CAL_FLG_PLL)) == Field([0x0014], OneBit(5), RW)
  {
  }

  /** The nine flags start at 0. */
  lemma FlagInits()
    ensures Init(G(SYSINCAL_FLG)) == 0 && Init(G(LOSXAXB_FLG)) == 0 && Init(G(XAXB_ERR_FLG)) == 0
    ensures Init(G(SMBUS_TIMEOUT_FLG)) == 0 && Init(G(LOS_FLG)) == 0 && Init(G(OOF_FLG)) == 0
    ensures Init(G(LOL_FLG)) == 0 && Init(G(HOLD_FLG)) == 0 && Init(G(CAL_FLG_PLL)) == 0
  {
  }

  /** The bytes of the nine flag registers, one per register, all zero. */
  const FlagBytes: seq<(nat, nat)> :=
    [(0x11, 0), (0x11, 0), (0x11, 0), (0x11, 0), (0x12, 0), (0x12, 0), (0x13, 0), (0x13, 0), (0x14, 0)]

  /** A field whose table row is one read/write byte and whose initial value is 0. */
  predicate ClearedRow(k: FieldId)
  {
    |Desc(k).addresses| == 1 && Desc(k).kind == RW && Init(k) == 0
  }

  /** Such a field is a zero one-byte register in a fresh map, at its table address. */
  lemma ClearedRowZeroByte(k: FieldId)
    requires ClearedRow(k)
    ensures ZeroByte(RegOf(k, Init(k))) && RegOf(k, Init(k)).addresses[0] == Desc(k).addresses[0]
  {
    ZeroRow(RegOf(k, Init(k)));
  }

  /** A one-byte register of kind "R/W" at 0 is a zero byte. */
  lemma ZeroRow(r: Reg)
    requires |r.addresses| == 1 && 0 <= r.lsb <= r.msb + 1 && r.kind == Strip(RW) && r.val == 0
    ensures ZeroByte(r)
  {
    RWKind();
  }

  /** Such fields are zero one-byte registers in a fresh map, each at its table address. */
  lemma FreshZeroBytes(ks: seq<FieldId>)
    requires forall i :: 0 <= i < |ks| ==> ClearedRow(ks[i])
    ensures forall i :: 0 <= i < |FreshRegs(ks)| ==> ZeroByte(FreshRegs(ks)[i])
    ensures forall i :: 0 <= i < |ks| ==> ZeroPairs(FreshRegs(ks))[i] == (Desc(ks[i]).addresses[0], 0)
  {
    var regs := FreshRegs(ks);
    forall i | 0 <= i < |ks| ensures ZeroByte(regs[i]) && regs[i].addresses[0] == Desc(ks[i]).addresses[0] {
      ClearedRowZeroByte(ks[i]);
    }
  }

  /** The nine flags are such fields, at the bytes FlagBytes names. */
  lemma FlagRows()
    ensures forall i :: 0 <= i < 9 ==> ClearedRow(ClearFlagFields()[i])
    ensures forall i :: 0 <= i < 9 ==> Desc(ClearFlagFields()[i]).addresses[0] == FlagBytes[i].0
  {
    StickyFlagEntries();
    LockFlagEntries();
    FlagInits();
  }

  /** Every byte FlagBytes names is 0. */
  lemma FlagBytesZero()
    ensures |FlagBytes| == 9 && forall i :: 0 <= i < 9 ==> FlagBytes[i].1 == 0
  {
  }

  /** So the nine flags of a fresh map contribute the bytes FlagBytes. */
  lemma ClearFlagRegs(ks: seq<FieldId>)
    requires |ks| == 9 && forall i :: 0 <= i < 9 ==> ClearedRow(ks[i])
    requires forall i :: 0 <= i < 9 ==> Desc(ks[i]).addresses[0] == FlagBytes[i].0
    ensures forall i :: 0 <= i < |FreshRegs(ks)| ==> ZeroByte(FreshRegs(ks)[i])
    ensures ZeroPairs(FreshRegs(ks)) == FlagBytes
  {
    FreshZeroBytes(ks);
    FlagBytesZero();
    var zs := ZeroPairs(FreshRegs(ks));
    forall i | 0 <= i < 9 ensures zs[i] == FlagBytes[i] {
      var b := FlagBytes[i];
      assert zs[i] == (b.0, 0) == (b.0, b.1);
    }
  }

  /** Merging the flag bytes gives the four cleared bytes. */
  lemma FlagBytesMerged()
    ensures TransferData(FlagBytes) == ClearFlagsData
  {
    var ps, d := FlagBytes, ClearFlagsData;
    assert AddressSet(ps) == {0x11, 0x12, 0x13, 0x14} by {
      assert ps[0] in ps && ps[4] in ps && ps[6] in ps && ps[8] in ps;
    }
    assert AddressSet(d) == {0x11, 0x12, 0x13, 0x14} by {
      assert d[0] in d && d[1] in d && d[2] in d && d[3] in d;
    }
    forall k | 0 <= k < 4 ensures d[k].1 == OrAt(ps, d[k].0) {
      OrAtZeros(ps, d[k].0);
    }
    TransferDataUnique(d, ps);
  }

  /**
   * `__clearFlags`: the nine flags of a fresh map, at value 0, give the transfer list
   * [(0x11, 0), (0x12, 0), (0x13, 0), (0x14, 0)].
   */
  lemma ClearFlagsMessage()
    ensures |Expand(Kept(FreshRegs(ClearFlagFields())))| > 0
    ensures TransferData(Expand(Kept(FreshRegs(ClearFlagFields())))) == ClearFlagsData
  {
    var regs := FreshRegs(ClearFlagFields());
    FlagRows();
    ClearFlagRegs(ClearFlagFields());
    ZeroBytesKept(regs);
    ZeroBytesExpand(regs);
    FlagBytesMerged();
  }

  /** The table row of PDN: bit 0 of 0x001E, read/write, initially 0. */
  lemma PdnEntry()
    ensures Desc(G(PDN)) == Field([0x001E], OneBit(0), RW) && Init(G(PDN)) == 0
  {
  }

  /** `__powerDown`: PDN of a fresh map, set to 1, is the single pair (0x001E, 0x01). */
  lemma PowerDownMessage()
    ensures RegBytes(FreshRegs([G(PDN)])[0].(val := 1)) == PowerDownData
  {
    PdnEntry();
    RWKind();
    var message := FreshRegs([G(PDN)])[0].(val := 1);
    assert message == Reg([0x001E], 0, 0, RW, 1);
    SetBitByte(0x001E, RW);
  }

  /** Bit 0 of a one-byte register, set, is the byte 0x01 at its address. */
  lemma SetBitByte(a: nat, kind: string)
    ensures RegBytes(Reg([a], 0, 0, kind, 1)) == [(a, 1)]
  {
    assert Pow2(0) == 1 && Pow2(1) == 2;
    assert (1 % 2) * 1 == 1;
  }

  /** `__clearFlags`'s message: `buildTransferList` of the nine flags of a fresh map. */
  method ClearFlagsList() returns (data: seq<(nat, nat)>)
    ensures data == ClearFlagsData
  {
    var regs := FreshRegs(ClearFlagFields());
    ClearFlagsMessage();
    data := SendList(regs);
  }

  /** `__powerDown`'s message: the bytes of PDN of a fresh map, set to 1. */
  method PowerDownList() returns (data: seq<(nat, nat)>)
    ensures data == PowerDownData
  {
    var message := FreshRegs([G(PDN)])[0].(val := 1);
    PowerDownMessage();
    data := Bytes(message);
  }
}
