/**
 * The device status the controller reads back over SPI (logic/Status.py):
 * loss of signal and out of frequency per input, loss of lock and holdover.
 */
module Status {

  import opened Bits

  /** `(x & mask) > 0` for a one-bit mask: the flag test Status applies to register values. */
  predicate FlagSet(x: nat, mask: nat)
  {
    And(x, mask) > 0
  }

  /** Testing against the mask `1 << j` reads bit j. */
  lemma FlagSetIsBit(x: nat, j: nat)
    ensures FlagSet(x, Pow2(j)) <==> Bit(x, j)
  {
    AndPow2(x, j);
  }

  /**
   * The lists `los` and `oof` that Status declares at class level. Python
   * resolves `self.los[i] = ...` to these class attributes, so every Status
   * object reads and writes the same two lists.
   */
  class SharedLists {
    const los: array<bool>
    const oof: array<bool>

    constructor ()
      ensures fresh(los) && fresh(oof)
      ensures los[..] == [true, true, true, true] && oof[..] == [true, true, true, true]
    {
      los := new bool[4](_ => true);
      oof := new bool[4](_ => true);
    }
  }

  class Status {
    /** Loss of signal, per input 0..3 (shared with every other Status object). */
    const los: array<bool>
    /** Out of frequency, per input 0..3 (shared with every other Status object). */
    const oof: array<bool>
    /** Loss of lock. */
    var lol: bool
    /** Holdover. */
    var hold: bool
    /** The input the PLL is locked to; the constructor leaves it at -1. */
    var input: int

    /**
     * `Status(res)` from the register values res[0] (0x0D: LOS bits 0..3,
     * OOF bits 4..7) and res[1] (0x0E: LOL bit 1, HOLD bit 5). The flags
     * are written into the shared class-level lists.
     */
    constructor (res: seq<nat>, shared: SharedLists)
      requires |res| >= 2
      requires shared.los.Length == 4 && shared.oof.Length == 4 && shared.los != shared.oof
      modifies shared.los, shared.oof
      ensures los == shared.los && oof == shared.oof
      ensures forall i :: 0 <= i < 4 ==> los[i] == Bit(res[0], i) && oof[i] == Bit(res[0], 4 + i)
      ensures hold == Bit(res[1], 5) && lol == Bit(res[1], 1)
      ensures input == -1
    {
      los := shared.los;
      oof := shared.oof;
      input := -1;
      Pow2Of8();
      FlagSetIsBit(res[1], 5);
      FlagSetIsBit(res[1], 1);
      hold := FlagSet(res[1], 0x20);
      lol := FlagSet(res[1], 0x2);
      new;
      for i := 0 to 4
        modifies los, oof
        invariant forall k :: 0 <= k < i ==> los[k] == Bit(res[0], k) && oof[k] == Bit(res[0], 4 + k)
      {
        Pow2Add(4, i);
        FlagSetIsBit(res[0], i);
        FlagSetIsBit(res[0], 4 + i);
        los[i] := FlagSet(res[0], Pow2(i));
        oof[i] := FlagSet(res[0], 0x10 * Pow2(i));
      }
    }
  }
}
