/**
 * Reference arithmetic: Python's `round` and `math.ceil` on exact reals, and
 * the greatest common divisor and least common multiple of naturals with the
 * number theory that characterises them.
 */
module Numeric {

  import opened Bits

  /** `math.ceil(x)`: the least integer not below x. */
  function Ceil(x: real): (r: int)
    ensures x <= r as real < x + 1.0
  {
    -((-x).Floor)
  }

  /** Python 3 `round(x)`: the nearest integer, ties to the even neighbour. */
  function Round(x: real): (r: int)
    ensures x - 0.5 <= r as real <= x + 0.5
    ensures (r as real == x + 0.5 || r as real == x - 0.5) ==> r % 2 == 0
  {
    var f := x.Floor;
    var d := x - f as real;
    if d < 0.5 then f
    else if d > 0.5 then f + 1
    else if f % 2 == 0 then f
    else f + 1
  }

  lemma RoundOfInteger(n: int)
    ensures Round(n as real) == n
  {
  }

  /** d divides n. */
  predicate Divides(d: nat, n: nat)
  {
    d > 0 && n % d == 0
  }

  /** Euclid's algorithm, the reference greatest common divisor. */
  function Gcd(a: nat, b: nat): nat
    decreases b
  {
    if b == 0 then a else Gcd(b, a % b)
  }

  /** If d divides x and y, it divides `x - q*y`. */
  lemma DividesCombination(d: nat, x: nat, y: nat, q: int)
    requires Divides(d, x) && Divides(d, y) && x - q * y >= 0
    ensures Divides(d, x - q * y)
  {
    var kx, ky := x / d, y / d;
    assert x == kx * d && y == ky * d;
    assert x - q * y == (kx - q * ky) * d by {
      assert q * y == q * (ky * d) == (q * ky) * d;
    }
    ModOfMultiple(kx - q * ky, d);
  }

  lemma ModOfMultiple(k: int, d: nat)
    requires d > 0 && k * d >= 0
    ensures (k * d) % d == 0 && (d * k) % d == 0
  {
    DivModUnique(k * d, d, k, 0);
  }

  /** The result of Euclid's algorithm is a common divisor... */
  lemma {:induction false} GcdDivides(a: nat, b: nat)
    requires a > 0 || b > 0
    ensures Divides(Gcd(a, b), a) && Divides(Gcd(a, b), b)
    decreases b
  {
    if b == 0 {
      assert a % a == 0 by { ModOfMultiple(1, a); }
    } else {
      GcdDivides(b, a % b);
      var g := Gcd(a, b);
      // a == (a / b) * b + a % b, and g divides both b and a % b
      assert a == a % b - (-(a / b)) * b;
      DividesCombination(g, a % b, b, -(a / b));
    }
  }

  /** ...and every common divisor divides it. */
  lemma {:induction false} GcdGreatest(a: nat, b: nat, d: nat)
    requires Divides(d, a) && Divides(d, b)
    ensures Divides(d, Gcd(a, b))
    decreases b
  {
    if b != 0 {
      assert a % b == a - (a / b) * b;
      DividesCombination(d, a, b, a / b);
      GcdGreatest(b, a % b, d);
    }
  }

  /** Scaling both arguments scales the gcd. */
  lemma {:induction false} GcdScale(a: nat, b: nat, k: nat)
    requires k > 0
    ensures Gcd(a * k, b * k) == Gcd(a, b) * k
    decreases b
  {
    if b != 0 {
      assert (a * k) % (b * k) == (a % b) * k by {
        var q, r := a / b, a % b;
        assert a * k == q * (b * k) + r * k by {
          assert a == q * b + r;
          assert a * k == (q * b + r) * k == q * (b * k) + r * k;
        }
        assert r * k < b * k by {
          assert r <= b - 1;
          assert r * k <= (b - 1) * k;
        }
        DivModUnique(a * k, b * k, q, r * k);
      }
      GcdScale(b, a % b, k);
    }
  }

  /** `lcm(a, b) = a / gcd(a, b) * b`, the two-argument least common multiple. */
  function Lcm(a: nat, b: nat): nat
    requires a > 0 && b > 0
  {
    GcdDivides(a, b);
    a / Gcd(a, b) * b
  }

  /** With g = gcd(a, b), `lcm(a, b) == a * (b/g) == b * (a/g)` and the cofactors are coprime. */
  lemma LcmCofactors(a: nat, b: nat)
    requires a > 0 && b > 0
    ensures Divides(Gcd(a, b), a) && Divides(Gcd(a, b), b)
    ensures Lcm(a, b) == a * (b / Gcd(a, b)) == b * (a / Gcd(a, b))
    ensures Gcd(a / Gcd(a, b), b / Gcd(a, b)) == 1
  {
    GcdDivides(a, b);
    CofactorProducts(a, b, Gcd(a, b));
    CofactorsCoprime(a, b);
  }

  /** For a common divisor g, `a/g * b == a * (b/g) == b * (a/g)`. */
  lemma CofactorProducts(a: nat, b: nat, g: nat)
    requires Divides(g, a) && Divides(g, b)
    ensures a / g * b == a * (b / g) == b * (a / g)
  {
    var a', b' := a / g, b / g;
    assert a == a' * g && b == b' * g;
    Assoc(a', b', g);
  }

  /** Dividing both numbers by their gcd leaves coprime cofactors. */
  lemma CofactorsCoprime(a: nat, b: nat)
    requires a > 0 && b > 0
    ensures Gcd(a, b) > 0
    ensures Gcd(a / Gcd(a, b), b / Gcd(a, b)) == 1
  {
    GcdDivides(a, b);
    var g := Gcd(a, b);
    var a', b' := a / g, b / g;
    assert a == a' * g && b == b' * g;
    GcdScale(a', b', g);
    assert Gcd(a', b') * g == 1 * g;
    CancelFactor(Gcd(a', b'), 1, g);
  }

  /** `x * (y * z) == y * (x * z) == (x * z) * y`, spelled out for the solver. */
  lemma Assoc(x: int, y: int, z: int)
    ensures x * (y * z) == (x * z) * y == y * (x * z) == (x * y) * z
  {
  }

  /** The lcm of two positive numbers is a positive common multiple of both... */
  lemma LcmCommonMultiple(a: nat, b: nat)
    requires a > 0 && b > 0
    ensures Lcm(a, b) > 0 && Divides(a, Lcm(a, b)) && Divides(b, Lcm(a, b))
  {
    LcmCofactors(a, b);
    var g := Gcd(a, b);
    var a', b' := a / g, b / g;
    var l := Lcm(a, b);
    assert l == a * b' && l == b * a';
    assert b' > 0 by {
      assert b == b' * g;
    }
    MulPositive(a, b');
    ModOfMultiple(b', a);
    assert b' * a == l;
    ModOfMultiple(a', b);
    assert a' * b == l;
  }

  /** Euclid's lemma: a divisor of `x * k` that is coprime to x divides k. */
  lemma CoprimeDivides(x: nat, d: nat, k: nat)
    requires x > 0 && d > 0 && Gcd(x, d) == 1 && Divides(d, x * k)
    ensures Divides(d, k)
  {
    if k == 0 {
      assert 0 % d == 0;
    } else {
      ModOfMultiple(k, d);
      assert Divides(d, d * k);
      GcdGreatest(x * k, d * k, d);
      GcdScale(x, d, k);
    }
  }

  /** ...that divides every common multiple. */
  lemma LcmDividesCommonMultiple(a: nat, b: nat, m: nat)
    requires a > 0 && b > 0 && Divides(a, m) && Divides(b, m)
    ensures Divides(Lcm(a, b), m)
  {
    var a', b', g := LcmParts(a, b);
    CofactorsDivide(a', b', g, m);
  }

  /** The decomposition `a = a' * g`, `b = b' * g`, `lcm(a, b) = a' * g * b'` with coprime cofactors. */
  lemma LcmParts(a: nat, b: nat) returns (a': nat, b': nat, g: nat)
    requires a > 0 && b > 0
    ensures a' > 0 && b' > 0 && g > 0 && Gcd(a', b') == 1
    ensures a == a' * g && b == b' * g && Lcm(a, b) == (a' * g) * b'
  {
    LcmCofactors(a, b);
    g := Gcd(a, b);
    a', b' := a / g, b / g;
    QuotientExact(a, g);
    QuotientExact(b, g);
    assert Lcm(a, b) == a * b';
  }

  lemma CofactorsDivide(a': nat, b': nat, g: nat, m: nat)
    requires a' > 0 && b' > 0 && g > 0 && Gcd(a', b') == 1
    requires Divides(a' * g, m) && Divides(b' * g, m)
    ensures Divides((a' * g) * b', m)
  {
    var ag, bg := a' * g, b' * g;
    MulPositive(a', g);
    MulPositive(b', g);
    var k, l := m / ag, m / bg;
    QuotientExact(m, ag);
    QuotientExact(m, bg);
    SharedFactor(a', b', g, k, l);
    assert Divides(b', k) by {
      ModOfMultiple(l, b');
      CoprimeDivides(a', b', k);
    }
    MultipleOfProduct(k, b', ag, m);
  }

  /** A multiple of d is d times its quotient. */
  lemma QuotientExact(n: nat, d: nat)
    requires Divides(d, n)
    ensures n == (n / d) * d
  {
  }

  lemma SharedFactor(a': nat, b': nat, g: nat, k: nat, l: nat)
    requires g > 0 && k * (a' * g) == l * (b' * g)
    ensures a' * k == b' * l
  {
    Assoc(k, a', g);
    Assoc(l, b', g);
    CancelFactor(a' * k, b' * l, g);
  }

  /** If d divides k then `d * x` divides `k * x`. */
  lemma MultipleOfProduct(k: nat, d: nat, x: nat, m: nat)
    requires Divides(d, k) && x > 0 && m == k * x
    ensures Divides(x * d, m)
  {
    var j := k / d;
    assert k == j * d;
    Assoc(j, d, x);
    assert m == j * (x * d);
    MulPositive(x, d);
    ModOfMultiple(j, x * d);
  }

  lemma CancelFactor(x: int, y: int, g: int)
    requires g > 0 && x * g == y * g
    ensures x == y
  {
    if x < y {
      MulPositive(y - x, g);
    } else if x > y {
      MulPositive(x - y, g);
    }
  }

  lemma MulPositive(x: int, y: int)
    requires x > 0 && y > 0
    ensures x * y > 0
  {
  }

  /** The lcm of a non-empty list of positive numbers, folded left as numpy's `lcm.reduce` does. */
  function LcmList(values: seq<nat>): (r: nat)
    requires |values| > 0 && forall i :: 0 <= i < |values| ==> values[i] > 0
    ensures r > 0
    decreases |values|
  {
    if |values| == 1 then values[0]
    else
      var rest := LcmList(values[..|values| - 1]);
      LcmCommonMultiple(rest, values[|values| - 1]);
      Lcm(rest, values[|values| - 1])
  }

  /** The lcm of a list is a common multiple of its values that divides every common multiple. */
  lemma {:induction false} LcmListLeast(values: seq<nat>)
    requires |values| > 0 && forall i :: 0 <= i < |values| ==> values[i] > 0
    ensures forall i :: 0 <= i < |values| ==> Divides(values[i], LcmList(values))
    ensures forall m: nat :: (forall i :: 0 <= i < |values| ==> Divides(values[i], m)) ==> Divides(LcmList(values), m)
    decreases |values|
  {
    if |values| == 1 {
      ModOfMultiple(1, values[0]);
    } else {
      var init := values[..|values| - 1];
      var last := values[|values| - 1];
      LcmListLeast(init);
      var rest := LcmList(init);
      LcmCommonMultiple(rest, last);
      forall i | 0 <= i < |values| ensures Divides(values[i], LcmList(values)) {
        if i < |values| - 1 {
          assert values[i] == init[i];
          DividesTransitive(values[i], rest, LcmList(values));
        }
      }
      forall m: nat | (forall i :: 0 <= i < |values| ==> Divides(values[i], m))
        ensures Divides(LcmList(values), m)
      {
        assert forall i :: 0 <= i < |init| ==> Divides(init[i], m) by {
          forall i | 0 <= i < |init| ensures Divides(init[i], m) {
            assert init[i] == values[i];
          }
        }
        assert Divides(last, m);
        LcmDividesCommonMultiple(rest, last, m);
      }
    }
  }

  lemma DividesTransitive(a: nat, b: nat, c: nat)
    requires Divides(a, b) && Divides(b, c)
    ensures Divides(a, c)
  {
    var k, l := b / a, c / b;
    assert b == a * k && c == b * l;
    assert c == a * (k * l);
    ModOfMultiple(k * l, a);
  }

  /** A divisor of a positive number is at most that number. */
  lemma DivisorAtMost(d: nat, n: nat)
    requires Divides(d, n) && n > 0
    ensures d <= n
  {
    var k := n / d;
    assert n == d * k;
    assert k >= 1;
    assert d * k >= d * 1;
  }
}
