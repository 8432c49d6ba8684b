/**
 * Bit-level arithmetic on unbounded naturals: the masks, shifts and bitwise
 * operators that the register compiler applies to Python integers.
 * `x << n` is `x * Pow2(n)`, `x >> n` is `x / Pow2(n)`, and `|`, `&`, `^`
 * and `& ~` are instances of `Bitwise`.
 */
module Bits {

  /** 2 to the power n. */
  function Pow2(n: nat): (r: nat)
    ensures r >= 1
  {
    if n == 0 then 1 else 2 * Pow2(n - 1)
  }

  /** Bit j of x, that is `(x >> j) & 1 == 1`. */
  predicate Bit(x: nat, j: nat)
  {
    if j == 0 then x % 2 == 1 else Bit(x / 2, j - 1)
  }

  /** The bitwise operators: `|`, `&`, `^` and `& ~`. */
  datatype Op = OrOp | AndOp | XorOp | AndNotOp
  {
    predicate Apply(x: bool, y: bool)
    {
      match this
      case OrOp => x || y
      case AndOp => x && y
      case XorOp => x != y
      case AndNotOp => x && !y
    }
  }

  /** Combines a and b bit by bit with op (each op maps two clear bits to a clear bit). */
  function Bitwise(a: nat, b: nat, op: Op): nat
    decreases a + b
  {
    if a == 0 && b == 0 then 0
    else 2 * Bitwise(a / 2, b / 2, op) + (if op.Apply(a % 2 == 1, b % 2 == 1) then 1 else 0)
  }

  /** `a | b` */
  function Or(a: nat, b: nat): nat { Bitwise(a, b, OrOp) }

  /** `a & b` */
  function And(a: nat, b: nat): nat { Bitwise(a, b, AndOp) }

  /** `a ^ b` */
  function Xor(a: nat, b: nat): nat { Bitwise(a, b, XorOp) }

  /** `a & ~b` */
  function AndNot(a: nat, b: nat): nat { Bitwise(a, b, AndNotOp) }

  lemma {:induction false} ZeroHasNoBits(j: nat)
    ensures !Bit(0, j)
  {
    if j > 0 {
      ZeroHasNoBits(j - 1);
    }
  }

  /** Each bit of a bitwise combination is op applied to the operands' bits. */
  lemma {:induction false} BitwiseBit(a: nat, b: nat, op: Op, j: nat)
    ensures Bit(Bitwise(a, b, op), j) == op.Apply(Bit(a, j), Bit(b, j))
    decreases j
  {
    if a == 0 && b == 0 {
      ZeroHasNoBits(j);
    } else if j > 0 {
      BitwiseBit(a / 2, b / 2, op, j - 1);
    }
  }

  lemma OrBit(a: nat, b: nat, j: nat)
    ensures Bit(Or(a, b), j) == (Bit(a, j) || Bit(b, j))
  {
    BitwiseBit(a, b, OrOp, j);
  }

  lemma AndBit(a: nat, b: nat, j: nat)
    ensures Bit(And(a, b), j) == (Bit(a, j) && Bit(b, j))
  {
    BitwiseBit(a, b, AndOp, j);
  }

  lemma XorBit(a: nat, b: nat, j: nat)
    ensures Bit(Xor(a, b), j) == (Bit(a, j) != Bit(b, j))
  {
    BitwiseBit(a, b, XorOp, j);
  }

  lemma AndNotBit(a: nat, b: nat, j: nat)
    ensures Bit(AndNot(a, b), j) == (Bit(a, j) && !Bit(b, j))
  {
    BitwiseBit(a, b, AndNotOp, j);
  }

  /** A natural number is determined by its bits. */
  lemma {:induction false} BitsDetermine(a: nat, b: nat)
    requires forall j: nat :: Bit(a, j) == Bit(b, j)
    ensures a == b
    decreases a + b
  {
    if a != b {
      assert Bit(a, 0) == Bit(b, 0);
      forall j: nat
        ensures Bit(a / 2, j) == Bit(b / 2, j)
      {
        assert Bit(a, j + 1) == Bit(b, j + 1);
      }
      BitsDetermine(a / 2, b / 2);
    }
  }

  lemma OrIdempotent(a: nat)
    ensures Or(a, a) == a
  {
    forall j: nat ensures Bit(Or(a, a), j) == Bit(a, j) {
      OrBit(a, a, j);
    }
    BitsDetermine(Or(a, a), a);
  }

  lemma OrZero(a: nat)
    ensures Or(0, a) == a && Or(a, 0) == a
  {
    forall j: nat ensures Bit(Or(0, a), j) == Bit(a, j) && Bit(Or(a, 0), j) == Bit(a, j) {
      OrBit(0, a, j);
      OrBit(a, 0, j);
      ZeroHasNoBits(j);
    }
    BitsDetermine(Or(0, a), a);
    BitsDetermine(Or(a, 0), a);
  }

  /** Bit j of a power of two is set exactly at j == n. */
  lemma {:induction false} Pow2Bit(n: nat, j: nat)
    ensures Bit(Pow2(n), j) <==> j == n
    decreases n
  {
    if n == 0 {
      if j > 0 {
        ZeroHasNoBits(j - 1);
      }
    } else if j > 0 {
      Pow2Bit(n - 1, j - 1);
    }
  }

  /** Bit j of `2^w - 1` (a mask of w ones) is set exactly below w. */
  lemma {:induction false} MaskBit(w: nat, j: nat)
    ensures Bit(Pow2(w) - 1, j) <==> j < w
    decreases w
  {
    if w == 0 {
      ZeroHasNoBits(j);
    } else if j > 0 {
      assert (Pow2(w) - 1) / 2 == Pow2(w - 1) - 1;
      MaskBit(w - 1, j - 1);
    }
  }

  /** Euclidean quotient and remainder are unique. */
  lemma DivModUnique(x: int, m: int, q: int, r: int)
    requires m > 0 && 0 <= r < m && x == q * m + r
    ensures x / m == q && x % m == r
  {
    var q', r' := x / m, x % m;
    var d := q' - q;
    assert d * m == r - r' by {
      assert q' * m + r' == q * m + r;
      assert d * m == q' * m - q * m;
    }
    if d >= 1 {
      MulAtLeast(d, m);
    } else if d <= -1 {
      MulAtLeast(-d, m);
    }
  }

  lemma MulAtLeast(k: int, m: int)
    requires k >= 1 && m > 0
    ensures k * m >= m
  {
    assert k * m == (k - 1) * m + m;
    assert (k - 1) * m >= 0;
  }

  /** Splitting a remainder by a product of moduli: `x % (a*b) == x % a + a * ((x / a) % b)`. */
  lemma ModProduct(x: nat, a: nat, b: nat)
    requires a > 0 && b > 0
    ensures x % (a * b) == x % a + a * ((x / a) % b)
    ensures x / (a * b) == (x / a) / b
  {
    var q, r := x / a, x % a;
    var s, t := q / b, q % b;
    assert x == q * a + r;
    assert q == s * b + t;
    assert x == s * (a * b) + (a * t + r) by {
      calc {
        x;
        == q * a + r;
        == (s * b + t) * a + r;
        == s * (a * b) + (a * t + r);
      }
    }
    assert a * t + r < a * b by {
      assert t <= b - 1;
      assert a * t <= a * (b - 1);
    }
    DivModUnique(x, a * b, s, a * t + r);
  }

  lemma Pow2Add(m: nat, n: nat)
    ensures Pow2(m + n) == Pow2(m) * Pow2(n)
  {
    if m > 0 {
      Pow2Add(m - 1, n);
    }
  }

  // The powers of two the divider fields are sized by, each from smaller ones.
  lemma Pow2Of8()
    ensures Pow2(4) == 16 && Pow2(8) == 256
  {
    Pow2Add(4, 4);
  }

  lemma Pow2Of16()
    ensures Pow2(12) == 0x1000 && Pow2(16) == 0x1_0000
  {
    Pow2Of8();
    Pow2Add(8, 4);
    Pow2Add(8, 8);
  }

  lemma Pow2Of32()
    ensures Pow2(32) == 0x1_0000_0000
  {
    Pow2Of16();
    Pow2Add(16, 16);
  }

  lemma Pow2Of44()
    ensures Pow2(44) == 0x1000_0000_0000
  {
    Pow2Of32();
    Pow2Of16();
    Pow2Add(32, 12);
  }

  lemma Pow2Of23()
    ensures Pow2(9) == 512 && Pow2(23) == 0x80_0000
  {
    Pow2Of16();
    Pow2Add(8, 1);
    Pow2Add(16, 8);
  }

  lemma Pow2Of56()
    ensures Pow2(56) == 0x100_0000_0000_0000
  {
    Pow2Of44();
    Pow2Of16();
    Pow2Add(44, 12);
  }

  lemma {:induction false} Pow2Le(m: nat, n: nat)
    requires m <= n
    ensures Pow2(m) <= Pow2(n)
    decreases n
  {
    if m < n {
      Pow2Le(m, n - 1);
    }
  }

  lemma OrComm(a: nat, b: nat)
    ensures Or(a, b) == Or(b, a)
  {
    forall j: nat ensures Bit(Or(a, b), j) == Bit(Or(b, a), j) {
      OrBit(a, b, j);
      OrBit(b, a, j);
    }
    BitsDetermine(Or(a, b), Or(b, a));
  }

  /** `x & (2^w - 1) == x % 2^w`, the mask on the right. */
  lemma MaskIsModRight(x: nat, w: nat)
    ensures And(x, Pow2(w) - 1) == x % Pow2(w)
  {
    var m := Pow2(w) - 1;
    forall j: nat ensures Bit(And(x, m), j) == Bit(And(m, x), j) {
      AndBit(x, m, j);
      AndBit(m, x, j);
    }
    BitsDetermine(And(x, m), And(m, x));
    MaskIsMod(x, w);
  }

  /** Masking with `2^w - 1` keeps the low w bits: `(2^w - 1) & x == x % 2^w`. */
  lemma {:induction false} MaskIsMod(x: nat, w: nat)
    ensures And(Pow2(w) - 1, x) == x % Pow2(w)
  {
    forall j: nat ensures Bit(And(Pow2(w) - 1, x), j) == Bit(x % Pow2(w), j) {
      AndBit(Pow2(w) - 1, x, j);
      MaskBit(w, j);
      ModBit(x, w, j);
    }
    BitsDetermine(And(Pow2(w) - 1, x), x % Pow2(w));
  }

  /** Bit j of `x % 2^w` is bit j of x below w and clear from w on. */
  lemma {:induction false} ModBit(x: nat, w: nat, j: nat)
    ensures Bit(x % Pow2(w), j) <==> j < w && Bit(x, j)
    decreases w
  {
    if w == 0 {
      ZeroHasNoBits(j);
    } else {
      ModProduct(x, 2, Pow2(w - 1));
      var low := (x / 2) % Pow2(w - 1);
      assert x % Pow2(w) == x % 2 + 2 * low;
      if j > 0 {
        assert (x % 2 + 2 * low) / 2 == low;
        ModBit(x / 2, w - 1, j - 1);
      }
    }
  }

  /** `x & (1 << i)` is 2^i when bit i of x is set and 0 otherwise. */
  lemma {:induction false} AndPow2(x: nat, i: nat)
    ensures And(x, Pow2(i)) == if Bit(x, i) then Pow2(i) else 0
  {
    var e := if Bit(x, i) then Pow2(i) else 0;
    forall j: nat ensures Bit(And(x, Pow2(i)), j) == Bit(e, j) {
      AndBit(x, Pow2(i), j);
      Pow2Bit(i, j);
      ZeroHasNoBits(j);
    }
    BitsDetermine(And(x, Pow2(i)), e);
  }

  /** A number with no bit at or above w is below 2^w. */
  lemma {:induction false} BitsBelow(x: nat, w: nat)
    requires forall j: nat :: j >= w ==> !Bit(x, j)
    ensures x < Pow2(w)
    decreases w
  {
    if w == 0 {
      if x != 0 {
        forall j: nat ensures Bit(x, j) == Bit(0, j) {
          ZeroHasNoBits(j);
        }
        BitsDetermine(x, 0);
      }
    } else {
      forall j: nat | j >= w - 1 ensures !Bit(x / 2, j) {
        assert !Bit(x, j + 1);
      }
      BitsBelow(x / 2, w - 1);
    }
  }

  /** Any number below 2^w has no bit at or above w. */
  lemma {:induction false} BitsAbove(x: nat, w: nat, j: nat)
    requires x < Pow2(w) && j >= w
    ensures !Bit(x, j)
  {
    ModBit(x, w, j);
    DivModUnique(x, Pow2(w), 0, x);
  }

  /** OR keeps values below 2^w. */
  lemma OrBelow(a: nat, b: nat, w: nat)
    requires a < Pow2(w) && b < Pow2(w)
    ensures Or(a, b) < Pow2(w)
  {
    forall j: nat | j >= w ensures !Bit(Or(a, b), j) {
      OrBit(a, b, j);
      BitsAbove(a, w, j);
      BitsAbove(b, w, j);
    }
    BitsBelow(Or(a, b), w);
  }
}
