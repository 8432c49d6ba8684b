/**
 * One bit-field register of the Si5394 (class `Reg` of logic/RegisterMap.py):
 * its address list, its bit range, its access type and its value, the parser
 * of the bit-range strings of the register table, and the encoding of a value
 * into (address, byte) pairs.
 */
module Registers {

  import opened Bits
  import opened Text
  import opened Wrappers

  /** A register field. `addresses` is `[a]` for a field inside one byte or `[first, last]` for a
      field spread over consecutive bytes, least significant byte first. */
  datatype Reg = Reg(addresses: seq<nat>, lsb: int, msb: int, kind: string, val: nat)
  {
    /** The fields `bytes()` can encode without raising: a single-byte field needs a
        non-negative lsb and a width `msb + 1 - lsb` that is not negative. */
    predicate Encodable()
    {
      |addresses| >= 1 && (|addresses| == 1 ==> 0 <= lsb <= msb + 1)
    }
  }

  /** The bit ranges written in the register table: one bit `"n"` or a range `"h:l"`. */
  datatype BitSpec = OneBit(n: nat) | Span(high: nat, low: nat)
  {
    function Text(): string
    {
      match this
      case OneBit(n) => NatToString(n)
      case Span(h, l) => NatToString(h) + ":" + NatToString(l)
    }

    function Lsb(): nat { match this case OneBit(n) => n case Span(_, l) => l }

    function Msb(): nat { match this case OneBit(n) => n case Span(h, _) => h }
  }

  /** Python's `str.isnumeric` on ASCII text. */
  predicate IsNumeric(s: string)
  {
    |s| > 0 && IsDigitString(s)
  }

  /** `bitRange`: the (lsb, msb) it assigns; None where `int()` raises on a malformed range. */
  function BitRange(s: string): (r: Option<(int, int)>)
  {
    var parts := Split(s, ':');
    if |parts| == 1 then
      if IsNumeric(parts[0]) then
        var n := DigitsValue(parts[0], 10);
        Some((n, n))
      else Some((-1, -1))
    else
      match (ParseInteger(parts[1], 10), ParseInteger(parts[0], 10))
      case (Some(l), Some(h)) => Some((l, h))
      case _ => None
  }

  lemma DigitsHaveNoColon(s: string)
    requires AllDigits(s)
    ensures ':' !in s
  {
    assert forall i :: 0 <= i < |s| ==> IsDigit(s[i]) && s[i] != ':';
  }

  lemma SplitAtColon(a: string, b: string)
    requires ':' !in a && ':' !in b
    ensures Split(a + ":" + b, ':') == [a, b]
  {
    var s := a + ":" + b;
    assert s[|a|] == ':';
    assert forall k :: 0 <= k < |a| ==> s[k] == a[k] && s[k] != ':';
    var i := FirstIndex(s, ':');
    assert i == |a|;
    assert s[..i] == a;
    assert s[i + 1..] == b;
  }

  /** `"h:l"` parses to lsb = l and msb = h. */
  lemma BitRangeSpan(h: nat, l: nat)
    ensures BitRange(NatToString(h) + ":" + NatToString(l)) == Some((l, h))
  {
    DigitsHaveNoColon(NatToString(h));
    DigitsHaveNoColon(NatToString(l));
    SplitAtColon(NatToString(h), NatToString(l));
    ParseNatToString(h);
    ParseNatToString(l);
  }

  /** A single number `"n"` parses to lsb = msb = n. */
  lemma BitRangeOneBit(n: nat)
    ensures BitRange(NatToString(n)) == Some((n, n))
  {
    DigitsHaveNoColon(NatToString(n));
    assert Split(NatToString(n), ':') == [NatToString(n)];
  }

  /** A single token that is not a number parses to lsb = msb = -1. */
  lemma BitRangeNotNumeric(s: string)
    requires ':' !in s && !IsNumeric(s)
    ensures BitRange(s) == Some((-1, -1))
  {
    assert Split(s, ':') == [s];
  }

  /** Every range of the register table parses back to its own bounds. */
  lemma BitSpecParses(b: BitSpec)
    ensures BitRange(b.Text()) == Some((b.Lsb() as int, b.Msb() as int))
  {
    match b
    case OneBit(n) => BitRangeOneBit(n);
    case Span(h, l) => BitRangeSpan(h, l);
  }

  /** `Reg(addresses, bits, type, ...)`: the access type is stripped of surrounding blanks. */
  function MakeReg(addresses: seq<nat>, bits: string, kind: string, val: nat): (r: Option<Reg>)
    ensures r.Some? <==> BitRange(bits).Some?
    ensures r.Some? ==> r.value.addresses == addresses && r.value.kind == Strip(kind) && r.value.val == val
    ensures r.Some? ==> (r.value.lsb, r.value.msb) == BitRange(bits).value
  {
    match BitRange(bits)
    case Some((l, h)) => Some(Reg(addresses, l, h, Strip(kind), val))
    case None => None
  }

  /** `v >> 8k`: v with its k low bytes dropped. */
  function ShiftBytes(v: nat, k: nat): nat
  {
    if k == 0 then v else ShiftBytes(v / 256, k - 1)
  }

  /** Byte k of v, little-endian: `(v >> 8k) & 0xFF`. */
  function ByteOf(v: nat, k: nat): nat
  {
    ShiftBytes(v, k) % 256
  }

  /** The (address, byte) pairs of a field: a one-byte field masks its value to the field width
      and moves it to lsb; a multi-byte field gives one byte per address of `[first, last]`,
      least significant first, and ignores lsb and msb. */
  function RegBytes(r: Reg): (ps: seq<(nat, nat)>)
    requires r.Encodable()
  {
    if |r.addresses| == 1 then
      [(r.addresses[0], (r.val % Pow2(r.msb + 1 - r.lsb)) * Pow2(r.lsb))]
    else
      var first, last := r.addresses[0], r.addresses[1];
      var n := if last + 1 >= first then last + 1 - first else 0;
      seq(n, k requires 0 <= k < n => (first + k, ByteOf(r.val, k)))
  }

  /** `(v >> 8k) & 0xFF` */
  method ByteAt(v: nat, k: nat) returns (b: nat)
    ensures b == ByteOf(v, k)
  {
    var shifted := ShiftBytes(v, k);
    b := And(shifted, 0xFF);
    LowByte(shifted);
  }

  /** `x & 0xFF` is x modulo 256. */
  lemma LowByte(x: nat)
    ensures And(x, 0xFF) == x % 256
  {
    Pow2Of8();
    MaskIsModRight(x, 8);
  }

  /** `bytes()`. */
  method Bytes(r: Reg) returns (res: seq<(nat, nat)>)
    requires r.Encodable()
    ensures res == RegBytes(r)
  {
    if |r.addresses| == 1 {
      var diff := r.msb + 1 - r.lsb;
      var masked := And(Pow2(diff) - 1, r.val);
      MaskIsMod(r.val, diff);
      return [(r.addresses[0], masked * Pow2(r.lsb))];
    }
    var byteIndex := 0;
    res := [];
    var b := r.addresses[0];
    while b < r.addresses[1] + 1
      invariant b == r.addresses[0] + byteIndex
      invariant byteIndex <= if r.addresses[1] + 1 >= r.addresses[0] then r.addresses[1] + 1 - r.addresses[0] else 0
      invariant |res| == byteIndex
      invariant forall k :: 0 <= k < byteIndex ==> res[k] == (r.addresses[0] + k, ByteOf(r.val, k))
    {
      var byte := ByteAt(r.val, byteIndex);
      res := res + [(b, byte)];
      byteIndex := byteIndex + 1;
      b := b + 1;
    }
  }

  /** A one-byte field always gives exactly one pair, at its address, whose bit j is bit
      j - lsb of the value inside `[lsb, msb]` and clear outside it. */
  lemma OneByteField(r: Reg, j: nat)
    requires r.Encodable() && |r.addresses| == 1
    ensures |RegBytes(r)| == 1 && RegBytes(r)[0].0 == r.addresses[0]
    ensures Bit(RegBytes(r)[0].1, j) <==> r.lsb <= j <= r.msb && Bit(r.val, j - r.lsb)
  {
    var w := r.msb + 1 - r.lsb;
    var m := r.val % Pow2(w);
    ShiftedBit(m, r.lsb, j);
    if j >= r.lsb {
      ModBit(r.val, w, j - r.lsb);
    }
  }

  /** Bit j of `m << s` is bit j - s of m. */
  lemma {:induction false} ShiftedBit(m: nat, s: nat, j: nat)
    ensures Bit(m * Pow2(s), j) <==> j >= s && Bit(m, j - s)
    decreases s
  {
    if s > 0 {
      assert m * Pow2(s) == 2 * (m * Pow2(s - 1));
      if j == 0 {
        assert (m * Pow2(s)) % 2 == 0;
      } else {
        assert (m * Pow2(s)) / 2 == m * Pow2(s - 1);
        ShiftedBit(m, s - 1, j - 1);
      }
    }
  }

  /** The value of a little-endian byte sequence. */
  function LittleEndian(bs: seq<nat>): nat
  {
    if |bs| == 0 then 0 else bs[0] + 256 * LittleEndian(bs[1..])
  }

  function Values(ps: seq<(nat, nat)>): (vs: seq<nat>)
    ensures |vs| == |ps| && forall k :: 0 <= k < |ps| ==> vs[k] == ps[k].1
  {
    seq(|ps|, k requires 0 <= k < |ps| => ps[k].1)
  }

  /** Reassembling the bytes of a multi-byte field gives its value modulo 2^(8n). */
  lemma BytesReassemble(r: Reg)
    requires r.Encodable() && |r.addresses| >= 2
    ensures LittleEndian(Values(RegBytes(r))) == r.val % Pow2(8 * |RegBytes(r)|)
  {
    var n := |RegBytes(r)|;
    assert Values(RegBytes(r)) == seq(n, k requires 0 <= k < n => ByteOf(r.val, k));
    LittleEndianBytes(r.val, n);
  }

  lemma {:induction false} LittleEndianBytes(v: nat, n: nat)
    ensures LittleEndian(seq(n, k requires 0 <= k < n => ByteOf(v, k))) == v % Pow2(8 * n)
    decreases n
  {
    var bs := seq(n, k requires 0 <= k < n => ByteOf(v, k));
    if n > 0 {
      var tail := seq(n - 1, k requires 0 <= k < n - 1 => ByteOf(v / 256, k));
      assert bs[1..] == tail;
      LittleEndianBytes(v / 256, n - 1);
      assert Pow2(8) == 256;
      Pow2Add(8, 8 * (n - 1));
      ModProduct(v, 256, Pow2(8 * (n - 1)));
      assert bs[0] == v % 256;
    }
  }

  /** Keys in non-decreasing order. */
  predicate SortedBy<T>(s: seq<T>, key: T -> int)
  {
    forall i, j :: 0 <= i < j < |s| ==> key(s[i]) <= key(s[j])
  }

  /** Inserts x after every element whose key is not larger (the stable insertion). */
  function InsertBy<T>(s: seq<T>, x: T, key: T -> int): (r: seq<T>)
    ensures multiset(r) == multiset(s) + multiset{x}
    decreases |s|
  {
    if |s| == 0 then [x]
    else if key(s[|s| - 1]) <= key(x) then s + [x]
    else
      var init, last := s[..|s| - 1], s[|s| - 1];
      assert s == init + [last];
      InsertBy(init, x, key) + [last]
  }

  /** Inserting into a sorted sequence keeps it sorted, and no key rises above the larger of
      x's and the last element's. */
  lemma {:induction false} InsertBySorted<T>(s: seq<T>, x: T, key: T -> int)
    requires SortedBy(s, key)
    ensures SortedBy(InsertBy(s, x, key), key)
    ensures |s| > 0 ==> forall i :: 0 <= i < |InsertBy(s, x, key)| ==>
      key(InsertBy(s, x, key)[i]) <= MaxInt(key(s[|s| - 1]), key(x))
    decreases |s|
  {
    if |s| > 0 && key(s[|s| - 1]) > key(x) {
      var init, last := s[..|s| - 1], s[|s| - 1];
      InsertBySorted(init, x, key);
      var r0 := InsertBy(init, x, key);
      assert |init| > 0 ==> key(init[|init| - 1]) <= key(last);
      assert forall i :: 0 <= i < |r0| ==> key(r0[i]) <= key(last);
    }
  }

  function MaxInt(a: int, b: int): int { if a < b then b else a }

  /** Python's `sorted(xs, key=key)`, a stable sort: ordered by key and a permutation of xs. */
  function SortBy<T>(xs: seq<T>, key: T -> int): (r: seq<T>)
    ensures SortedBy(r, key)
    ensures multiset(r) == multiset(xs)
    decreases |xs|
  {
    if |xs| == 0 then []
    else
      assert xs == xs[..|xs| - 1] + [xs[|xs| - 1]];
      InsertBySorted(SortBy(xs[..|xs| - 1], key), xs[|xs| - 1], key);
      InsertBy(SortBy(xs[..|xs| - 1], key), xs[|xs| - 1], key)
  }
}
