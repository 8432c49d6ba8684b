/**
 * The divider synthesis of `calcDivider`: the PLL frequency fvco from the
 * enabled output frequencies, the output path NN/ND and R of every channel,
 * the input dividers PN/PD and the feedback divider MN/MD. Each step takes the
 * configuration (or a channel) and returns it with the fields it computes, as
 * the source returns the `conf` it updated. Frequencies are exact: the float
 * divisions of the source are `real` divisions here.
 */
module DividerCalc {

  import opened Bits
  import opened Config
  import opened Constants
  import opened Numeric
  import Util

  function Abs(x: real): real { if x < 0.0 then -x else x }

  function MinReal(a: real, b: real): real { if a < b then a else b }

  /** Python's `x % 1` on a float: the fractional part, in [0, 1). */
  function Frac(x: real): (r: real)
    ensures 0.0 <= r < 1.0
  {
    x - x.Floor as real
  }

  /** `min(x % 1, -x % 1)`: how far x is from the nearest integer. */
  function IntegerDistance(x: real): (r: real)
    ensures 0.0 <= r < 1.0
  {
    MinReal(Frac(x), Frac(-x))
  }

  // ---------------------------------------------------------------- findFPLL

  /** The target of `findFPLL`: the lcm of the frequencies when it is within 14 GHz, else their maximum. */
  function TargetFvco(fs: seq<nat>): (t: nat)
    requires |fs| > 0 && forall i :: 0 <= i < |fs| ==> fs[i] > 0
    ensures t > 0
  {
    var l := Util.FloatLcm(fs);
    if l <= MaxPllF then l else MaxOf(fs)
  }

  function MaxOf(fs: seq<nat>): (m: nat)
    requires |fs| > 0
    ensures forall i :: 0 <= i < |fs| ==> fs[i] <= m
    ensures exists i :: 0 <= i < |fs| && fs[i] == m
    decreases |fs|
  {
    if |fs| == 1 then fs[0]
    else
      var m := MaxOf(fs[..|fs| - 1]);
      assert forall i :: 0 <= i < |fs| - 1 ==> fs[..|fs| - 1][i] == fs[i];
      if fs[|fs| - 1] > m then fs[|fs| - 1] else m
  }

  /** `findFPLL`: fvco and Mxaxb_N become the largest multiple of the target within 14 GHz, and
      Mxaxb_D the 54 MHz reference. */
  function FindFpll(conf: Configuration, fs: seq<nat>): (c: Configuration)
    requires |fs| > 0 && forall i :: 0 <= i < |fs| ==> fs[i] > 0
    ensures c == conf.(MxaxbN := c.fvco, MxaxbD := ExternalRefFreq, fvco := c.fvco)
    ensures var t := TargetFvco(fs); c.fvco % t == 0 && c.fvco <= MaxPllF < c.fvco + t
  {
    var fvco := FloorMultiple(MaxPllF, TargetFvco(fs));
    conf.(MxaxbN := fvco, MxaxbD := ExternalRefFreq, fvco := fvco)
  }

  /** With the lcm within 14 GHz, fvco is a positive multiple of every frequency; otherwise a positive
      multiple of the largest one whenever that one is within 14 GHz. */
  lemma FpllCoversFrequencies(conf: Configuration, fs: seq<nat>)
    requires |fs| > 0 && forall i :: 0 <= i < |fs| ==> 0 < fs[i] <= MaxPllF
    ensures var c := FindFpll(conf, fs);
      c.fvco > 0 && (forall i :: 0 <= i < |fs| ==> fs[i] <= c.fvco)
      && (Util.FloatLcm(fs) <= MaxPllF ==> forall i :: 0 <= i < |fs| ==> Divides(fs[i], c.fvco))
  {
    var c := FindFpll(conf, fs);
    var t := TargetFvco(fs);
    var l := Util.FloatLcm(fs);
    if l <= MaxPllF {
      assert t == l;
      forall i | 0 <= i < |fs| ensures Divides(fs[i], c.fvco) && fs[i] <= c.fvco {
        assert Divides(fs[i], l);
        assert Divides(l, c.fvco) by {
          assert c.fvco > 0 by { assert MaxPllF < c.fvco + t && t <= MaxPllF; }
        }
        DividesTransitive(fs[i], l, c.fvco);
        DivisorAtMost(fs[i], c.fvco);
      }
    }
  }

  /** `math.floor(n / t) * t`: the largest multiple of t within n, at least t when t is within n. */
  function FloorMultiple(n: nat, t: nat): (m: nat)
    requires t > 0
    ensures m % t == 0 && m <= n < m + t && (t <= n ==> m >= t)
  {
    var q := n / t;
    ModOfMultiple(q, t);
    if t <= n then
      assert q >= 1;
      MulAtLeast(q, t);
      q * t
    else q * t
  }

  // --------------------------------------------------------- findBestDivider

  /** Whether `findBestDivider` breaks before recording multiplier i: NN = fvco*i or ND = 2f*i leaves
      its field, or the error err(i) is zero. */
  function Breaks(fvco: nat, f: nat, err: nat -> real): (stops: nat -> bool)
  {
    (i: nat) => fvco * i >= Pow2(NnMaxPwr) || f * 2 * i >= Pow2(NdMaxPwr) || err(i) == 0.0
  }

  /** The multiplier the loop of `findBestDivider` ends with, continuing at multiplier i with the best
      error and multiplier so far; the loop breaks where stops holds. */
  function BestMultFrom(stops: nat -> bool, err: nat -> real, i: nat, bestErr: real, bestMult: nat): (m: nat)
    requires 1 <= i <= 100
    decreases 100 - i
  {
    if i == 100 || stops(i) then bestMult
    else if err(i) < bestErr then BestMultFrom(stops, err, i + 1, err(i), i)
    else BestMultFrom(stops, err, i + 1, bestErr, bestMult)
  }

  /** The multiplier at which the loop ends, from i on. */
  function StopFrom(stops: nat -> bool, i: nat): (s: nat)
    requires 1 <= i <= 100
    ensures i <= s <= 100 && (s == 100 || stops(s))
    ensures forall j :: i <= j < s ==> !stops(j)
    decreases 100 - i
  {
    if i == 100 || stops(i) then i else StopFrom(stops, i + 1)
  }

  /** Multiplier m has the least error among i..s-1, below b, and a strictly smaller one than any
      multiplier before it. */
  ghost predicate FirstLeast(err: nat -> real, i: nat, s: nat, b: real, m: nat)
  {
    i <= m < s && err(m) < b
    && (forall j :: i <= j < s ==> err(m) <= err(j))
    && (forall j :: i <= j < m ==> err(m) < err(j))
  }

  /** No multiplier among i..s-1 has an error below b. */
  ghost predicate NoneBelow(err: nat -> real, i: nat, s: nat, b: real)
  {
    forall j :: i <= j < s ==> err(j) >= b
  }

  /** The search keeps the first multiplier of least error among those it tries, and only one whose
      error is below the initial bound; with none, the initial multiplier stays. */
  lemma {:induction false} BestMultIsFirstLeast(stops: nat -> bool, err: nat -> real, i: nat, b: real, bm: nat)
    requires 1 <= i <= 100
    ensures var m, s := BestMultFrom(stops, err, i, b, bm), StopFrom(stops, i);
      (m == bm && NoneBelow(err, i, s, b)) || FirstLeast(err, i, s, b, m)
    decreases 100 - i
  {
    if i < 100 && !stops(i) {
      var s := StopFrom(stops, i);
      if err(i) < b {
        BestMultIsFirstLeast(stops, err, i + 1, err(i), i);
        FirstLeastImproves(err, i, s, b, BestMultFrom(stops, err, i + 1, err(i), i));
      } else {
        BestMultIsFirstLeast(stops, err, i + 1, b, bm);
        FirstLeastKeeps(err, i, s, b, BestMultFrom(stops, err, i + 1, b, bm));
      }
    }
  }

  /** A step that improves the bound to err(i) < b. */
  lemma FirstLeastImproves(err: nat -> real, i: nat, s: nat, b: real, m: nat)
    requires i < s && err(i) < b
    requires (m == i && NoneBelow(err, i + 1, s, err(i))) || FirstLeast(err, i + 1, s, err(i), m)
    ensures FirstLeast(err, i, s, b, m)
  {
  }

  /** A step that keeps the bound b <= err(i). */
  lemma FirstLeastKeeps(err: nat -> real, i: nat, s: nat, b: real, m: nat)
    requires i < s && err(i) >= b
    requires NoneBelow(err, i + 1, s, b) || FirstLeast(err, i + 1, s, b, m)
    ensures NoneBelow(err, i, s, b) || FirstLeast(err, i, s, b, m)
  {
  }

  /** The error `findBestDivider` computes for multiplier i: `|fvco / (NN/ND) / 2 - f|` with
      NN = fvco*i and ND = 2f*i, in exact arithmetic. */
  function ExactError(fvco: nat, f: nat): (err: nat -> real)
    requires fvco > 0 && f > 0
  {
    (i: nat) =>
      if i == 0 then 0.0
      else
        var n, d := (fvco * i) as real, (f * 2 * i) as real;
        Abs(fvco as real / (n / d) / 2.0 - f as real)
  }

  /** In exact arithmetic every multiplier hits the frequency exactly. */
  lemma ExactErrorIsZero(fvco: nat, f: nat, i: nat)
    requires fvco > 0 && f > 0 && i > 0
    ensures ExactError(fvco, f)(i) == 0.0
  {
    var n, d := (fvco * i) as real, (f * 2 * i) as real;
    assert n / d == fvco as real / (f * 2) as real;
    assert fvco as real / (n / d) == (f * 2) as real;
  }

  /** So the exact search stops at the first multiplier, keeping multiplier 1. */
  lemma ExactSearchKeepsOne(fvco: nat, f: nat)
    requires fvco > 0 && f > 0
    ensures var err := ExactError(fvco, f); BestMultFrom(Breaks(fvco, f, err), err, 1, Pow2(NdMaxPwr) as real, 1) == 1
  {
    ExactErrorIsZero(fvco, f, 1);
  }

  /** `findBestDivider` with multiplier m: NN = fvco*m, ND = 2f*m, R = 2 and the frequency they give. */
  function WithMultiplier(fvco: nat, ch: OutChannel, m: nat): (r: OutChannel)
    requires fvco > 0 && ch.frequency > 0 && m > 0
  {
    var nn, nd := fvco * m, ch.frequency * 2 * m;
    ch.(NN := nn, ND := nd, R := 2, realFrequency := fvco as real / (nn as real / nd as real) / 2.0)
  }

  /** The channel `findBestDivider` returns, the search running on the errors err. */
  function BestDivider(fvco: nat, ch: OutChannel, err: nat -> real): (r: OutChannel)
    requires fvco > 0 && ch.frequency > 0
  {
    var stops := Breaks(fvco, ch.frequency, err);
    var m := BestMultFrom(stops, err, 1, Pow2(NdMaxPwr) as real, 1);
    BestMultRange(stops, err, 1, Pow2(NdMaxPwr) as real, 1);
    WithMultiplier(fvco, ch, m)
  }

  lemma {:induction false} BestMultRange(stops: nat -> bool, err: nat -> real, i: nat, b: real, bm: nat)
    requires 1 <= i <= 100 && bm >= 1
    ensures BestMultFrom(stops, err, i, b, bm) >= 1
    decreases 100 - i
  {
    if i < 100 && !stops(i) {
      if err(i) < b {
        BestMultRange(stops, err, i + 1, err(i), i);
      } else {
        BestMultRange(stops, err, i + 1, b, bm);
      }
    }
  }

  /** In exact arithmetic `findBestDivider` gives NN = fvco, ND = 2f and R = 2, which hit the channel
      frequency exactly. */
  lemma BestDividerExact(fvco: nat, ch: OutChannel)
    requires fvco > 0 && ch.frequency > 0
    ensures BestDivider(fvco, ch, ExactError(fvco, ch.frequency)) == ExactChannel(fvco, ch)
  {
    ExactSearchKeepsOne(fvco, ch.frequency);
    WithMultiplierOne(fvco, ch);
  }

  /** The channel with NN = fvco, ND = 2f, R = 2 and its own frequency as the real one. */
  function ExactChannel(fvco: nat, ch: OutChannel): OutChannel
  {
    ch.(NN := fvco, ND := 2 * ch.frequency, R := 2, realFrequency := ch.frequency as real)
  }

  lemma WithMultiplierOne(fvco: nat, ch: OutChannel)
    requires fvco > 0 && ch.frequency > 0
    ensures WithMultiplier(fvco, ch, 1) == ExactChannel(fvco, ch)
  {
    DivideByRatio(fvco as real, (ch.frequency * 2) as real);
  }

  lemma DivideByRatio(a: real, b: real)
    requires a > 0.0 && b > 0.0
    ensures a / (a / b) == b
  {
  }

  /** `findBestDivider`: tries the multipliers 1..99 and keeps the first with the least error.
      The error of each multiplier is err, the computation the source does in floating point. */
  method FindBestDivider(conf: Configuration, ch: OutChannel, err: nat -> real) returns (r: OutChannel)
    requires conf.fvco > 0 && ch.frequency > 0
    ensures r == BestDivider(conf.fvco, ch, err)
  {
    ghost var stops := Breaks(conf.fvco, ch.frequency, err);
    var bestError: real, bestMult: nat := Pow2(NdMaxPwr) as real, 1;
    var i := 1;
    while i < 100
      invariant 1 <= i <= 100 && bestMult >= 1
      invariant BestMultFrom(stops, err, i, bestError, bestMult) == BestMultFrom(stops, err, 1, Pow2(NdMaxPwr) as real, 1)
    {
      var nNew := conf.fvco * i;
      var dNew := ch.frequency * 2 * i;
      var errorNew := err(i);
      if nNew >= Pow2(NnMaxPwr) || dNew >= Pow2(NdMaxPwr) {
        break;
      }
      if errorNew == 0.0 {
        break;
      }
      if errorNew < bestError {
        bestError, bestMult := errorNew, i;
      }
      i := i + 1;
    }
    r := WithMultiplier(conf.fvco, ch, bestMult);
  }

  // ------------------------------------------------------------- capNdivider

  /** The N divider can divide by at most 4096: ND/NN must not fall below 1/4096. */
  const NnMaxValue: nat := 4096
  /** Half of the NN/ND ceiling: the floor of the ratio after the halving path. */
  const NnHalfValue: nat := 2048

  /** 2^44 and 2^32, the widths of the N divider's numerator and denominator fields. */
  const NnLimit: nat := 0x1000_0000_0000
  const NdLimit: nat := 0x1_0000_0000

  lemma FieldLimits()
    ensures NnLimit == Pow2(NnMaxPwr) && NdLimit == Pow2(NdMaxPwr)
  {
    Pow2Of44();
    Pow2Of32();
  }

  /** NN exceeds 4096 * ND: the test of `capNdivider`, ND/NN < 1/4096, for a positive NN. */
  predicate NumeratorTooLarge(nn: real, nd: nat)
  {
    NnMaxValue as real * nd as real < nn
  }

  /** Multiplying by a positive number keeps the order. */
  lemma MulLess(x: real, y: real, k: real)
    requires k > 0.0
    ensures x < y <==> x * k < y * k
  {
    assert (y - x) * k == y * k - x * k;
    if x < y {
      assert (y - x) * k > 0.0;
    } else {
      assert (x - y) * k >= 0.0;
    }
  }

  /** Multiplying by k > 0 keeps x < y. */
  lemma MulBelow(x: real, y: real, k: real)
    requires k > 0.0 && x < y
    ensures x * k < y * k
  {
    assert (y - x) * k == y * k - x * k;
    assert (y - x) * k > 0.0;
  }

  /** a == b < c gives a < c; stated apart so that the solver need not rewrite products. */
  lemma EqualBelow(a: real, b: real, c: real)
    requires a == b && b < c
    ensures a < c
  {
  }

  /** Multiplying by k > 0 keeps x <= y. */
  lemma MulAtMost(x: real, y: real, k: real)
    requires k > 0.0 && x <= y
    ensures x * k <= y * k
  {
    assert (y - x) * k == y * k - x * k;
    assert (y - x) * k >= 0.0;
  }

  /** The test as `capNdivider` writes it, ND/NN < 1/4096, is `NumeratorTooLarge`. */
  lemma RatioTest(nn: real, nd: nat)
    requires nn > 0.0
    ensures nd as real / nn < 1.0 / NnMaxValue as real <==> NumeratorTooLarge(nn, nd)
  {
    var q, k := nd as real / nn, NnMaxValue as real;
    assert q * nn == nd as real;
    MulLess(q, 1.0 / k, k);
    assert (1.0 / k) * k == 1.0;
    MulLess(q * k, 1.0, nn);
    assert (q * k) * nn == k * nd as real;
  }

  /** NN and R after the halving loop. */
  datatype Halved = Halved(nn: real, R: nat)

  /** The halving loop of `capNdivider` from NN = nn and R: while NN exceeds 4096 * ND,
      halve NN and double R. */
  function HalveFrom(nn: real, nd: nat, R: nat): (r: Halved)
    requires nn > 0.0 && nd > 0
    decreases nn.Floor
  {
    if NumeratorTooLarge(nn, nd) then HalveFrom(nn / 2.0, nd, R * 2) else Halved(nn, R)
  }

  /** Integral x: x % 1 == 0. */
  predicate IsIntegral(x: real)
  {
    Frac(x) == 0.0
  }

  /** A numerator and denominator pair of the N divider before the numerator is truncated. */
  datatype Scaled = Scaled(nn: real, nd: nat)

  /** The test of the rescale loop: NN still has a fraction and the doubled candidates fit their fields. */
  predicate Rescales(nn: real, tn: real, td: nat)
  {
    !IsIntegral(nn) && tn < NnLimit as real && td < NdLimit
  }

  /** The rescale loop of `capNdivider` from NN = nn, ND = nd and the doubled candidates tn, td:
      while NN is not integral and the candidates fit 2^44 and 2^32, take them and double again. */
  function RescaleFrom(nn: real, nd: nat, tn: real, td: nat): (r: Scaled)
    requires td > 0
    decreases NdLimit - td
  {
    if Rescales(nn, tn, td) then RescaleFrom(tn, td, 2.0 * tn, 2 * td)
    else Scaled(nn, nd)
  }

  /** `capNdivider`: when ND/NN < 1/4096, NN is halved and R doubled (from R = 2) until the ratio
      is back in range, then NN and ND are doubled together while that leaves a fraction in NN
      and both fit their fields; NN is truncated to an integer at the end. */
  function CapN(ch: OutChannel): (r: OutChannel)
    requires ch.NN > 0 && ch.ND > 0
  {
    if NumeratorTooLarge(ch.NN as real, ch.ND) then
      var halved := HalveFrom(ch.NN as real, ch.ND, 2);
      var scaled := RescaleFrom(halved.nn, ch.ND, halved.nn, ch.ND);
      ch.(NN := scaled.nn.Floor, ND := scaled.nd, R := halved.R)
    else ch
  }

  method CapNdivider(ch: OutChannel) returns (r: OutChannel)
    requires ch.NN > 0 && ch.ND > 0
    ensures r == CapN(ch)
  {
    r := ch;
    RatioTest(ch.NN as real, ch.ND);
    if ch.ND as real / ch.NN as real < 1.0 / NnMaxValue as real {
      var nn, R := HalveNumerator(ch.NN, ch.ND);
      var nd: nat;
      nn, nd := RescaleDivider(nn, ch.ND);
      r := ch.(NN := nn.Floor, ND := nd, R := R);
    }
  }

  /** The halving loop of `capNdivider`, from R = 2. */
  method HalveNumerator(nn0: nat, nd: nat) returns (nn: real, R: nat)
    requires nn0 > 0 && nd > 0
    ensures Halved(nn, R) == HalveFrom(nn0 as real, nd, 2)
  {
    nn, R := nn0 as real, 2;
    while nd as real / nn < 1.0 / NnMaxValue as real
      invariant nn > 0.0 && HalveFrom(nn, nd, R) == HalveFrom(nn0 as real, nd, 2)
      decreases nn.Floor
    {
      RatioTest(nn, nd);
      nn := nn / 2.0;
      R := R * 2;
    }
    RatioTest(nn, nd);
  }

  /** The rescale loop of `capNdivider`. */
  method RescaleDivider(nn0: real, nd0: nat) returns (nn: real, nd: nat)
    requires nd0 > 0
    ensures Scaled(nn, nd) == RescaleFrom(nn0, nd0, nn0, nd0)
  {
    nn, nd := nn0, nd0;
    var tn: real, td: nat := nn, nd;
    while !IsIntegral(nn) && tn < NnLimit as real && td < NdLimit
      invariant td > 0 && RescaleFrom(nn, nd, tn, td) == RescaleFrom(nn0, nd0, nn0, nd0)
      decreases NdLimit - td
    {
      nn, nd := tn, td;
      td := td * 2;
      tn := tn * 2.0;
    }
  }

  /** Halving from an NN above 4096 * ND ends with NN in (2048 * ND, 4096 * ND]. */
  lemma {:induction false} HalveBounds(nn: real, nd: nat, R: nat)
    requires nn > 0.0 && nd > 0 && NumeratorTooLarge(nn, nd)
    ensures var r := HalveFrom(nn, nd, R);
      NnHalfValue as real * nd as real < r.nn <= NnMaxValue as real * nd as real
    decreases nn.Floor
  {
    if NumeratorTooLarge(nn / 2.0, nd) {
      HalveBounds(nn / 2.0, nd, R * 2);
    }
  }

  /** Halving NN and doubling R keeps NN * R. */
  lemma {:induction false} HalveKeepsProduct(nn: real, nd: nat, R: nat)
    requires nn > 0.0 && nd > 0
    ensures var r := HalveFrom(nn, nd, R); r.nn * r.R as real == nn * R as real
    decreases nn.Floor
  {
    if NumeratorTooLarge(nn, nd) {
      HalveKeepsProduct(nn / 2.0, nd, R * 2);
      assert (nn / 2.0) * (R * 2) as real == nn * R as real;
    }
  }

  /** Halving from an NN above 4096 * ND at least doubles R, by a whole factor. */
  lemma {:induction false} HalveDoublesR(nn: real, nd: nat, R: nat)
    requires nn > 0.0 && nd > 0 && R > 0 && NumeratorTooLarge(nn, nd)
    ensures var r := HalveFrom(nn, nd, R); r.R >= 2 * R && Divides(R, r.R)
    decreases nn.Floor
  {
    var r := HalveFrom(nn, nd, R);
    if NumeratorTooLarge(nn / 2.0, nd) {
      HalveDoublesR(nn / 2.0, nd, R * 2);
      assert Divides(R, R * 2);
      DividesTransitive(R, R * 2, r.R);
    } else {
      assert Divides(R, R * 2);
    }
  }

  /** The rescale loop doubles NN and ND together, so NN/ND stays the same quotient q. */
  lemma {:induction false} RescaleKeepsRatio(nn: real, nd: nat, tn: real, td: nat, q: real)
    requires td > 0 && nn == q * nd as real && tn == q * td as real
    ensures RescaleFrom(nn, nd, tn, td).nn == q * RescaleFrom(nn, nd, tn, td).nd as real
    decreases NdLimit - td
  {
    if Rescales(nn, tn, td) {
      DoubleKeepsRatio(tn, td, q);
      RescaleKeepsRatio(tn, td, 2.0 * tn, 2 * td, q);
    }
  }

  /** Doubling both parts of a pair keeps its ratio. */
  lemma DoubleKeepsRatio(tn: real, td: nat, q: real)
    requires tn == q * td as real
    ensures 2.0 * tn == q * (2 * td) as real
  {
  }

  /** The rescale loop only ever doubles ND. */
  lemma {:induction false} RescaleGrows(nn: real, nd: nat, tn: real, td: nat)
    requires td > 0 && td >= nd
    ensures RescaleFrom(nn, nd, tn, td).nd >= nd
    decreases NdLimit - td
  {
    if Rescales(nn, tn, td) {
      RescaleGrows(tn, td, 2.0 * tn, 2 * td);
    }
  }


  /** The rescale loop keeps NN below 2^44 and ND below 2^32. */
  lemma {:induction false} RescaleInRange(nn: real, nd: nat, tn: real, td: nat)
    requires td > 0 && nn < NnLimit as real && nd < NdLimit
    ensures var r := RescaleFrom(nn, nd, tn, td); r.nn < NnLimit as real && r.nd < NdLimit
    decreases NdLimit - td
  {
    if Rescales(nn, tn, td) {
      RescaleInRange(tn, td, 2.0 * tn, 2 * td);
    }
  }

  /** The rescale loop leaves a fraction in NN only when doubling once more would overflow a field. */
  lemma {:induction false} RescaleMaximal(nn: real, nd: nat, tn: real, td: nat)
    requires td > 0 && tn == 2.0 * nn && td == 2 * nd
    ensures var r := RescaleFrom(nn, nd, tn, td);
      !IsIntegral(r.nn) ==> 2.0 * r.nn >= NnLimit as real || 2 * r.nd >= NdLimit
    decreases NdLimit - td
  {
    if Rescales(nn, tn, td) {
      RescaleMaximal(tn, td, 2.0 * tn, 2 * td);
    }
  }

  /** From the start of the loop (the candidates equal NN and ND) the same holds. */
  lemma RescaleMaximalFromStart(nn: real, nd: nat)
    requires nd > 0
    ensures var r := RescaleFrom(nn, nd, nn, nd);
      !IsIntegral(r.nn) ==> 2.0 * r.nn >= NnLimit as real || 2 * r.nd >= NdLimit
  {
    if Rescales(nn, nn, nd) {
      RescaleMaximal(nn, nd, 2.0 * nn, 2 * nd);
    }
  }

  /** Multiplying lo < q <= hi by a positive d. */
  lemma ScaleBetween(q: real, d: real, lo: real, hi: real)
    requires d > 0.0 && lo < q <= hi
    ensures lo * d < q * d <= hi * d
  {
    MulLess(lo, q, d);
    MulLess(hi, q, d);
  }

  /** The rescale loop from its start returns a pair with the ratio NN/ND it started from. */
  lemma RescaleStart(nn: real, nd: nat) returns (q: real, s: real, d: nat)
    requires nd > 0
    ensures Scaled(s, d) == RescaleFrom(nn, nd, nn, nd) && d >= nd
    ensures q == nn / nd as real && s == q * d as real
  {
    q := nn / nd as real;
    RescaleGrows(nn, nd, nn, nd);
    RescaleKeepsRatio(nn, nd, nn, nd, q);
    s, d := RescaleFrom(nn, nd, nn, nd).nn, RescaleFrom(nn, nd, nn, nd).nd;
  }


  /** A channel whose NN is at most 4096 * ND is left as it is. */
  lemma CapNKeepsSmall(ch: OutChannel)
    requires ch.NN > 0 && ch.ND > 0 && !NumeratorTooLarge(ch.NN as real, ch.ND)
    ensures CapN(ch) == ch && ch.NN <= NnMaxValue * ch.ND
  {
    assert (NnMaxValue * ch.ND) as real == NnMaxValue as real * ch.ND as real;
  }

  /** The halving path of `capNdivider` in plain values: NN and R after the halving loop,
      and the pair the rescale loop returns from them. */
  lemma HalvingPath(ch: OutChannel) returns (half: real, R: nat, s: real, d: nat)
    requires ch.NN > 0 && ch.ND > 0 && NumeratorTooLarge(ch.NN as real, ch.ND)
    ensures CapN(ch) == ch.(NN := s.Floor, ND := d, R := R)
    ensures Halved(half, R) == HalveFrom(ch.NN as real, ch.ND, 2)
    ensures Scaled(s, d) == RescaleFrom(half, ch.ND, half, ch.ND)
  {
    half, R := HalveFrom(ch.NN as real, ch.ND, 2).nn, HalveFrom(ch.NN as real, ch.ND, 2).R;
    s, d := RescaleFrom(half, ch.ND, half, ch.ND).nn, RescaleFrom(half, ch.ND, half, ch.ND).nd;
  }

  /** On the halving path only NN, ND and R change, and R becomes an even number of at least 4. */
  lemma CapNSetsR(ch: OutChannel)
    requires ch.NN > 0 && ch.ND > 0 && NumeratorTooLarge(ch.NN as real, ch.ND)
    ensures var r := CapN(ch); r == ch.(NN := r.NN, ND := r.ND, R := r.R) && r.R >= 4 && Divides(2, r.R)
  {
    var half, R, s, d := HalvingPath(ch);
    HalveDoublesR(ch.NN as real, ch.ND, 2);
  }

  /** lo * n < x <= hi * n with n > 0 gives lo < x / n <= hi. */
  lemma QuotientBetween(x: real, n: real, lo: real, hi: real)
    requires n > 0.0 && lo * n < x <= hi * n
    ensures lo < x / n <= hi
  {
    assert (x / n) * n == x;
    MulLess(lo, x / n, n);
    MulLess(hi, x / n, n);
  }

  /** lo < q <= hi scaled by d > 0 truncates to an integer in [lo * d, hi * d]. */
  lemma ScaledFloorBetween(q: real, d: nat, lo: nat, hi: nat)
    requires d > 0 && lo as real < q <= hi as real
    ensures lo * d <= (q * d as real).Floor <= hi * d
  {
    ScaleBetween(q, d as real, lo as real, hi as real);
    var t := q * d as real;
    IntProduct(lo, d);
    IntProduct(hi, d);
    assert (lo * d) as real < t <= (hi * d) as real;
  }

  /** Rescaling an NN in (2048 * ND, 4096 * ND] gives, once truncated, NN/ND in [2048, 4096]
      and an ND no smaller than before. */
  lemma RescaledRange(half: real, nd: nat, s: real, d: nat)
    requires nd > 0 && NnHalfValue as real * nd as real < half <= NnMaxValue as real * nd as real
    requires Scaled(s, d) == RescaleFrom(half, nd, half, nd)
    ensures d >= nd && NnHalfValue * d <= s.Floor <= NnMaxValue * d
  {
    var q, s', d' := RescaleStart(half, nd);
    QuotientBetween(half, nd as real, NnHalfValue as real, NnMaxValue as real);
    ScaledFloorBetween(q, d, NnHalfValue, NnMaxValue);
  }

  /** On the halving path the new NN/ND lies in [2048, 4096], and ND is no smaller than before. */
  lemma CapNRatioRange(ch: OutChannel)
    requires ch.NN > 0 && ch.ND > 0 && NumeratorTooLarge(ch.NN as real, ch.ND)
    ensures var r := CapN(ch); r.ND >= ch.ND && NnHalfValue * r.ND <= r.NN <= NnMaxValue * r.ND
  {
    var half, R, s, d := HalvingPath(ch);
    HalveBounds(ch.NN as real, ch.ND, 2);
    RescaledRange(half, ch.ND, s, d);
  }

  /** Rescaling an NN of at most 4096 * ND with ND below 2^32 keeps NN below 2^44 and ND below 2^32. */
  lemma RescaledFits(half: real, nd: nat, s: real, d: nat)
    requires 0 < nd < NdLimit && half <= NnMaxValue as real * nd as real
    requires Scaled(s, d) == RescaleFrom(half, nd, half, nd)
    ensures s.Floor < NnLimit && d < NdLimit
  {
    RescaleInRange(half, nd, half, nd);
  }

  /** On the halving path an ND below 2^32 keeps NN below 2^44 and ND below 2^32. */
  lemma CapNFitsFields(ch: OutChannel)
    requires ch.NN > 0 && ch.ND > 0 && NumeratorTooLarge(ch.NN as real, ch.ND) && ch.ND < NdLimit
    ensures var r := CapN(ch); r.NN < NnLimit && r.ND < NdLimit
  {
    var half, R, s, d := HalvingPath(ch);
    HalveBounds(ch.NN as real, ch.ND, 2);
    RescaledFits(half, ch.ND, s, d);
  }

  /** s == (half / nd) * d and half * R == 2 * nn give s * (R * nd) == 2 * nn * d. */
  lemma ProductIdentity(s: real, half: real, nd: real, R: real, d: real, nn: real)
    requires nd > 0.0 && s == (half / nd) * d && half * R == nn * 2.0
    ensures s * (R * nd) == 2.0 * nn * d
  {
    assert (half / nd) * nd == half;
    calc {
      s * (R * nd);
      ((half / nd) * nd) * (R * d);
      (half * R) * d;
    }
  }

  /** Rescaling keeps the product: the untruncated NN times R * ND equals 2 * NN0 * ND'
      when the halving kept half * R == NN0 * 2. */
  lemma RescaledProduct(nn0: real, half: real, R: real, nd: nat, s: real, d: nat)
    requires nd > 0 && half * R == nn0 * 2.0 && Scaled(s, d) == RescaleFrom(half, nd, half, nd)
    ensures s * (R * nd as real) == 2.0 * nn0 * d as real
  {
    var q, s', d' := RescaleStart(half, nd);
    ProductIdentity(s, half, nd as real, R, d as real, nn0);
  }

  /** t == x * k with k > 0 lies in [x.Floor * k, (x.Floor + 1) * k). */
  lemma FloorScaled(x: real, k: real, t: real)
    requires k > 0.0 && x * k == t
    ensures x.Floor as real * k <= t < (x.Floor + 1) as real * k
  {
    MulBelow(x, (x.Floor + 1) as real, k);
    MulAtMost(x.Floor as real, x, k);
    EqualBelow(t, x * k, (x.Floor + 1) as real * k);
  }

  /** The halving loop keeps NN * R at its start value 2 * NN and leaves R positive. */
  lemma HalvedProduct(nn0: real, nd: nat, half: real, R: nat)
    requires nn0 > 0.0 && nd > 0 && NumeratorTooLarge(nn0, nd) && Halved(half, R) == HalveFrom(nn0, nd, 2)
    ensures half * R as real == nn0 * 2.0 && R > 0
  {
    HalveKeepsProduct(nn0, nd, 2);
    HalveDoublesR(nn0, nd, 2);
  }

  /** n is the whole part of t / k: n * k <= t < (n + 1) * k. */
  predicate TruncatesTo(n: int, k: real, t: real)
  {
    n as real * k <= t < (n + 1) as real * k
  }

  /** n * k == t, unless doubling n + 1 or d would leave the NN or the ND field. */
  predicate ExactUnlessAtWidth(n: int, k: real, t: real, d: int)
  {
    n as real * k == t || 2 * (n + 1) > NnLimit || 2 * d >= NdLimit
  }

  /** The capped channel r undershoots the divider 2 * NN/ND of ch by less than one unit of its
      truncated NN: NN' * R * ND <= 2 * NN * ND' < (NN' + 1) * R * ND. */
  predicate CapTruncates(ch: OutChannel, r: OutChannel)
  {
    TruncatesTo(r.NN, r.R as real * ch.ND as real, 2.0 * ch.NN as real * r.ND as real)
  }

  /** The capped channel r divides exactly like 2 * NN/ND of ch unless it stopped at a field width. */
  predicate CapExact(ch: OutChannel, r: OutChannel)
  {
    ExactUnlessAtWidth(r.NN, r.R as real * ch.ND as real, 2.0 * ch.NN as real * r.ND as real, r.ND)
  }

  /** The channel the halving path builds from half, R and the rescaled pair (s, d) has
      NN * R * ND within one step of R * ND below 2 * NN0 * ND'. */
  lemma RescaledTruncation(ch: OutChannel, r: OutChannel, half: real, R: nat, s: real, d: nat)
    requires ch.ND > 0 && R > 0 && half * R as real == ch.NN as real * 2.0
    requires Scaled(s, d) == RescaleFrom(half, ch.ND, half, ch.ND) && r == ch.(NN := s.Floor, ND := d, R := R)
    ensures CapTruncates(ch, r)
  {
    RescaledProduct(ch.NN as real, half, R as real, ch.ND, s, d);
    FloorScaled(s, R as real * ch.ND as real, 2.0 * ch.NN as real * d as real);
  }

  /** On the halving path the divider NN/ND * R undershoots the original 2 * NN/ND by less
      than one unit of the truncated NN: NN' * R * ND <= 2 * NN * ND' < (NN' + 1) * R * ND. */
  lemma CapNTruncation(ch: OutChannel)
    requires ch.NN > 0 && ch.ND > 0 && NumeratorTooLarge(ch.NN as real, ch.ND)
    ensures CapTruncates(ch, CapN(ch))
  {
    var half, R, s, d := HalvingPath(ch);
    HalvedProduct(ch.NN as real, ch.ND, half, R);
    RescaledTruncation(ch, CapN(ch), half, R, s, d);
  }

  /** The channel the halving path builds is exact unless the rescale loop stopped at the
      width of a field. */
  lemma RescaledExact(ch: OutChannel, r: OutChannel, half: real, R: nat, s: real, d: nat)
    requires ch.ND > 0 && half * R as real == ch.NN as real * 2.0
    requires Scaled(s, d) == RescaleFrom(half, ch.ND, half, ch.ND) && r == ch.(NN := s.Floor, ND := d, R := R)
    ensures CapExact(ch, r)
  {
    RescaledProduct(ch.NN as real, half, R as real, ch.ND, s, d);
    RescaleMaximalFromStart(half, ch.ND);
  }

  /** The truncation loses nothing unless the rescale loop stopped at the width of a field. */
  lemma CapNExact(ch: OutChannel)
    requires ch.NN > 0 && ch.ND > 0 && NumeratorTooLarge(ch.NN as real, ch.ND)
    ensures CapExact(ch, CapN(ch))
  {
    var half, R, s, d := HalvingPath(ch);
    HalvedProduct(ch.NN as real, ch.ND, half, R);
    RescaledExact(ch, CapN(ch), half, R, s, d);
  }

  /** CapN keeps NN and ND positive, leaves R even and at least 2, caps NN/ND at 4096 and never
      lowers ND; only NN, ND and R change. */
  lemma CapNShape(ch: OutChannel)
    requires ch.NN > 0 && ch.ND > 0 && ch.R >= 2 && Divides(2, ch.R)
    ensures var r := CapN(ch);
      && r == ch.(NN := r.NN, ND := r.ND, R := r.R)
      && r.NN > 0 && r.ND >= ch.ND && r.R >= 2 && Divides(2, r.R) && r.NN <= NnMaxValue * r.ND
  {
    if NumeratorTooLarge(ch.NN as real, ch.ND) {
      CapNSetsR(ch);
      CapNRatioRange(ch);
    } else {
      CapNKeepsSmall(ch);
    }
  }

  // ------------------------------------------------------- calcChannelDivider

  /** The error `findBestDivider` computes in floating point for multiplier i of a channel of
      frequency f on fvco; `ExactError` is its value in exact arithmetic. */
  type ErrorModel = (nat, nat, nat) -> real

  /** The divider `calcChannelDivider` starts from, fvco / 2f. */
  function ChannelRatio(fvco: nat, f: nat): (d: real)
    requires f > 0
    ensures d * (2 * f) as real == fvco as real
  {
    fvco as real / (f * 2) as real
  }

  /** What `calcChannelDivider` needs of an enabled channel not to divide by zero: a frequency,
      and a divider that does not round to 0 where it is taken as an integer. */
  predicate Dividable(fvco: nat, ch: OutChannel)
  {
    ch.enabled ==>
      && ch.frequency > 0
      && (IntegerDistance(ChannelRatio(fvco, ch.frequency)) <= FvcoToMultiError ==> Round(ChannelRatio(fvco, ch.frequency)) > 0)
  }

  /** Rounding moves x by exactly its distance to the nearest integer. */
  lemma RoundDistance(x: real)
    ensures Abs(Round(x) as real - x) == IntegerDistance(x)
  {
    var f := x.Floor;
    if f as real < x {
      assert (-x).Floor == -f - 1;
    } else {
      assert (-x).Floor == -f;
    }
  }

  /** The best-divider branch is only taken on a positive fvco. */
  lemma InexactHasFvco(fvco: nat, f: nat)
    requires f > 0 && IntegerDistance(ChannelRatio(fvco, f)) > FvcoToMultiError
    ensures fvco > 0
  {
  }

  /** The divider `findBestDivider` returns keeps NN/ND == fvco/2f exactly, whatever multiplier
      it settles on, with R = 2 and the other fields unchanged but the frequency. */
  lemma BestDividerRatio(fvco: nat, ch: OutChannel, err: nat -> real)
    requires fvco > 0 && ch.frequency > 0
    ensures var r := BestDivider(fvco, ch, err);
      && r == ch.(NN := r.NN, ND := r.ND, R := 2, realFrequency := r.realFrequency)
      && r.NN > 0 && r.ND > 0 && r.NN * (2 * ch.frequency) == r.ND * fvco
  {
    var stops := Breaks(fvco, ch.frequency, err);
    BestMultRange(stops, err, 1, Pow2(NdMaxPwr) as real, 1);
    WithMultiplierRatio(fvco, ch, BestMultFrom(stops, err, 1, Pow2(NdMaxPwr) as real, 1));
  }

  /** Any multiplier m gives NN/ND == fvco/2f. */
  lemma WithMultiplierRatio(fvco: nat, ch: OutChannel, m: nat)
    requires fvco > 0 && ch.frequency > 0 && m > 0
    ensures var r := WithMultiplier(fvco, ch, m);
      && r == ch.(NN := r.NN, ND := r.ND, R := 2, realFrequency := r.realFrequency)
      && r.NN > 0 && r.ND > 0 && r.NN * (2 * ch.frequency) == r.ND * fvco
  {
    var f := ch.frequency;
    MulPositive(fvco, m);
    MulPositive(f * 2, m);
    CrossProduct(fvco, f, m);
  }

  /** (a * m) * (2 * f) == (f * 2 * m) * a. */
  lemma CrossProduct(a: nat, f: nat, m: nat)
    ensures (a * m) * (2 * f) == (f * 2 * m) * a
  {
    calc {
      (a * m) * (2 * f);
      2 * (a * (m * f));
      2 * (a * (f * m));
      (f * 2 * m) * a;
    }
  }

  /** Equal cross products give equal ratios. */
  lemma RatioOfCrossProduct(a: nat, b: nat, c: nat, d: nat)
    requires b > 0 && d > 0 && a * d == b * c
    ensures a as real / b as real == c as real / d as real
  {
    assert a as real * d as real == b as real * c as real;
  }

  /** The divider `calcChannelDivider` picks before capping: the nearest integer with ND = 1 and
      R = 2 when fvco/2f is within 1e-6 of an integer, else the one `findBestDivider` finds
      with the errors em gives. Either way NN/ND is within 1e-6 of fvco/2f. */
  function PickedDivider(fvco: nat, ch: OutChannel, em: ErrorModel): (r: OutChannel)
    requires ch.enabled && Dividable(fvco, ch)
    ensures r == ch.(NN := r.NN, ND := r.ND, R := 2, realFrequency := r.realFrequency)
    ensures r.NN > 0 && r.ND > 0
    ensures Abs(r.NN as real / r.ND as real - ChannelRatio(fvco, ch.frequency)) <= FvcoToMultiError
  {
    if IntegerDistance(ChannelRatio(fvco, ch.frequency)) > FvcoToMultiError then SearchedDivider(fvco, ch, em)
    else RoundedDivider(fvco, ch)
  }

  /** The divider `findBestDivider` finds when fvco/2f is not within 1e-6 of an integer. */
  function SearchedDivider(fvco: nat, ch: OutChannel, em: ErrorModel): (r: OutChannel)
    requires ch.enabled && Dividable(fvco, ch)
    requires IntegerDistance(ChannelRatio(fvco, ch.frequency)) > FvcoToMultiError
    ensures r == ch.(NN := r.NN, ND := r.ND, R := 2, realFrequency := r.realFrequency)
    ensures r.NN > 0 && r.ND > 0
    ensures Abs(r.NN as real / r.ND as real - ChannelRatio(fvco, ch.frequency)) <= FvcoToMultiError
  {
    InexactHasFvco(fvco, ch.frequency);
    var err := (i: nat) => em(fvco, ch.frequency, i);
    var r := BestDivider(fvco, ch, err);
    BestDividerRatio(fvco, ch, err);
    CrossProductRatio(r.NN, r.ND, fvco, ch.frequency);
    r
  }

  /** NN * 2f == ND * fvco makes NN/ND exactly fvco/2f. */
  lemma CrossProductRatio(nn: nat, nd: nat, fvco: nat, f: nat)
    requires nd > 0 && f > 0 && nn * (2 * f) == nd * fvco
    ensures nn as real / nd as real == ChannelRatio(fvco, f)
  {
    RatioOfCrossProduct(nn, nd, fvco, 2 * f);
    assert 2 * f == f * 2;
  }

  /** The nearest integer to fvco/2f, with ND = 1 and R = 2. */
  function RoundedDivider(fvco: nat, ch: OutChannel): (r: OutChannel)
    requires ch.enabled && Dividable(fvco, ch)
    requires IntegerDistance(ChannelRatio(fvco, ch.frequency)) <= FvcoToMultiError
    ensures r == ch.(NN := r.NN, ND := r.ND, R := 2, realFrequency := r.realFrequency)
    ensures r.NN > 0 && r.ND > 0
    ensures Abs(r.NN as real / r.ND as real - ChannelRatio(fvco, ch.frequency)) <= FvcoToMultiError
  {
    RoundDistance(ChannelRatio(fvco, ch.frequency));
    ch.(NN := Round(ChannelRatio(fvco, ch.frequency)), ND := 1, R := 2)
  }

  /** The frequency the divider path produces: fvco / (NN/ND) / R. */
  function OutputFrequency(fvco: nat, nn: nat, nd: nat, R: nat): real
    requires nn > 0 && nd > 0 && R > 0
  {
    fvco as real / (nn as real / nd as real) / R as real
  }

  /** `calcChannelDivider` on one channel: a disabled channel loses its divider; an enabled one
      gets the picked divider capped to NN/ND <= 4096 and the frequency that divider produces. */
  function ChannelDivider(fvco: nat, ch: OutChannel, em: ErrorModel): (r: OutChannel)
    requires Dividable(fvco, ch)
    ensures !ch.enabled ==> r == ch.(NN := 0, ND := 0, R := 0, realFrequency := 0.0)
    ensures ch.enabled ==>
      && r == ch.(NN := r.NN, ND := r.ND, R := r.R, realFrequency := r.realFrequency)
      && r.NN > 0 && r.ND > 0 && r.R >= 2 && Divides(2, r.R) && r.NN <= NnMaxValue * r.ND
      && r.realFrequency == OutputFrequency(fvco, r.NN, r.ND, r.R)
  {
    if !ch.enabled then ch.(NN := 0, ND := 0, R := 0, realFrequency := 0.0)
    else
      var picked := PickedDivider(fvco, ch, em);
      var capped := CapN(picked);
      CapNShape(picked);
      capped.(realFrequency := OutputFrequency(fvco, capped.NN, capped.ND, capped.R))
  }

  /** When fvco is d times 2f with d <= 4096, a channel gets NN = d, ND = 1, R = 2 and produces
      its own frequency exactly. */
  lemma ChannelDividerIntegral(fvco: nat, ch: OutChannel, em: ErrorModel, d: nat)
    requires ch.enabled && ch.frequency > 0 && 0 < d <= NnMaxValue && fvco == 2 * ch.frequency * d
    ensures Dividable(fvco, ch)
    ensures ChannelDivider(fvco, ch, em) == ch.(NN := d, ND := 1, R := 2, realFrequency := ch.frequency as real)
  {
    var f := ch.frequency;
    RatioOfMultiple(f, d);
    RoundOfInteger(d);
    IntegerDistanceOfInteger(d);
    assert PickedDivider(fvco, ch, em) == ch.(NN := d, ND := 1, R := 2);
    assert !NumeratorTooLarge(d as real, 1);
    OutputOfMultiple(f, d);
  }

  /** fvco = 2f * d divides to fvco/2f == d. */
  lemma RatioOfMultiple(f: nat, d: nat)
    requires f > 0
    ensures ChannelRatio(2 * f * d, f) == d as real
  {
    assert (2 * f * d) as real == d as real * (f * 2) as real;
  }

  /** An integer is at distance 0 from the nearest integer. */
  lemma IntegerDistanceOfInteger(d: int)
    ensures IntegerDistance(d as real) == 0.0
  {
    assert Frac(d as real) == 0.0;
    assert (-(d as real)).Floor == -d;
  }

  /** NN = d, ND = 1, R = 2 on fvco = 2f * d produces f. */
  lemma OutputOfMultiple(f: nat, d: nat)
    requires f > 0 && d > 0
    ensures OutputFrequency(2 * f * d, d, 1, 2) == f as real
  {
    assert (2 * f * d) as real / (d as real / 1.0) == (2 * f) as real;
  }

  /** With fvco/2f not an integer, a best-divider search that is exact at multiplier 1 (as
      `ExactErrorIsZero` shows it is in exact arithmetic) gives NN = fvco, ND = 2f, R = 2 and the
      channel's own frequency, as long as fvco <= 4096 * 2f. */
  lemma ChannelDividerZeroError(fvco: nat, ch: OutChannel, em: ErrorModel)
    requires ch.enabled && ch.frequency > 0 && IntegerDistance(ChannelRatio(fvco, ch.frequency)) > FvcoToMultiError
    requires em(fvco, ch.frequency, 1) == 0.0 && fvco <= NnMaxValue * (2 * ch.frequency)
    ensures Dividable(fvco, ch)
    ensures ChannelDivider(fvco, ch, em) == ExactChannel(fvco, ch)
  {
    var f := ch.frequency;
    InexactHasFvco(fvco, f);
    PickedZeroError(fvco, ch, em);
    assert !NumeratorTooLarge(fvco as real, 2 * f) by {
      assert (NnMaxValue * (2 * f)) as real == NnMaxValue as real * (2 * f) as real;
    }
    OutputOfExact(fvco, f);
  }

  /** The search exact at multiplier 1 keeps multiplier 1. */
  lemma PickedZeroError(fvco: nat, ch: OutChannel, em: ErrorModel)
    requires ch.enabled && ch.frequency > 0 && fvco > 0 && IntegerDistance(ChannelRatio(fvco, ch.frequency)) > FvcoToMultiError
    requires em(fvco, ch.frequency, 1) == 0.0
    ensures Dividable(fvco, ch) && PickedDivider(fvco, ch, em) == ExactChannel(fvco, ch)
  {
    var err := (i: nat) => em(fvco, ch.frequency, i);
    assert BestMultFrom(Breaks(fvco, ch.frequency, err), err, 1, Pow2(NdMaxPwr) as real, 1) == 1;
    WithMultiplierOne(fvco, ch);
  }

  /** NN = fvco, ND = 2f, R = 2 produces f. */
  lemma OutputOfExact(fvco: nat, f: nat)
    requires fvco > 0 && f > 0
    ensures OutputFrequency(fvco, fvco, 2 * f, 2) == f as real
  {
    DivideByRatio(fvco as real, (2 * f) as real);
  }

  /** A 20 MHz output on a 14 GHz fvco divides by NN = 350, ND = 1, R = 2. */
  lemma ChannelDividerExample(ch: OutChannel, em: ErrorModel)
    requires ch.enabled && ch.frequency == 20_000_000
    ensures Dividable(14_000_000_000, ch)
    ensures var r := ChannelDivider(14_000_000_000, ch, em);
      r.NN == 350 && r.ND == 1 && r.R == 2 && r.realFrequency == 20_000_000.0
  {
    ChannelDividerIntegral(14_000_000_000, ch, em, 350);
  }

  /** The body of the channel loop of `calcChannelDivider`, through `findBestDivider` and
      `capNdivider` as the source calls them. */
  method DivideChannel(conf: Configuration, ch0: OutChannel, em: ErrorModel) returns (ch: OutChannel)
    requires Dividable(conf.fvco, ch0)
    ensures ch == ChannelDivider(conf.fvco, ch0, em)
  {
    ch := ch0;
    if ch.enabled {
      var f := ch.frequency;
      var divider := ChannelRatio(conf.fvco, f);
      if IntegerDistance(divider) > FvcoToMultiError {
        InexactHasFvco(conf.fvco, f);
        ch := FindBestDivider(conf, ch, (i: nat) => em(conf.fvco, f, i));
      } else {
        ch := ch.(NN := Round(divider), ND := 1, R := 2);
      }
      assert ch == PickedDivider(conf.fvco, ch0, em);
      ch := CapNdivider(ch);
      CapNShape(PickedDivider(conf.fvco, ch0, em));
      ch := ch.(realFrequency := conf.fvco as real / (ch.NN as real / ch.ND as real) / ch.R as real);
    } else {
      ch := ch.(NN := 0, ND := 0, R := 0, realFrequency := 0.0);
    }
  }

  /** `calcChannelDivider`: every channel gets `ChannelDivider`, computed through the search
      and the cap as the source does; the rest of the configuration is unchanged. */
  method CalcChannelDivider(conf: Configuration, em: ErrorModel) returns (c: Configuration)
    requires forall i :: 0 <= i < |conf.channels| ==> Dividable(conf.fvco, conf.channels[i])
    ensures c == conf.(channels := c.channels) && |c.channels| == |conf.channels|
    ensures forall i :: 0 <= i < |conf.channels| ==> c.channels[i] == ChannelDivider(conf.fvco, conf.channels[i], em)
  {
    var chs := conf.channels;
    var k := 0;
    while k < |chs|
      invariant 0 <= k <= |chs| == |conf.channels|
      invariant forall i :: 0 <= i < k ==> chs[i] == ChannelDivider(conf.fvco, conf.channels[i], em)
      invariant forall i :: k <= i < |chs| ==> chs[i] == conf.channels[i]
    {
      var ch := DivideChannel(conf, chs[k], em);
      chs := chs[k := ch];
      k := k + 1;
    }
    c := conf.(channels := chs);
  }

  // ------------------------------------------------- calcPhaseDetectorDivider

  /** 2^56 and 2^32, the sizes of the M_NUM and M_DEN fields. */
  const MnLimit: nat := 0x100_0000_0000_0000
  const MdLimit: nat := 0x1_0000_0000

  lemma MLimits()
    ensures MnLimit == Pow2(MnMaxPwr) && MdLimit == Pow2(MdMaxPwr)
  {
    Pow2Of56();
    Pow2Of32();
  }

  /** The two forms of the width test of the shift loop of `calcPhaseDetectorDivider`. */
  datatype WidthTest = AsWritten | Corrected

  /** Whether the shift loop stops at shift s: as written, once fvco << s or ceil(Ftmp) << s is
      above 2^56 or 2^32; corrected, once either no longer fits its field, reaching 2^56 or 2^32. */
  predicate Exceeds(test: WidthTest, fvco: nat, c: int, s: nat)
  {
    match test
    case AsWritten => fvco * Pow2(s) > MnLimit || c * Pow2(s) > MdLimit
    case Corrected => fvco * Pow2(s) >= MnLimit || c * Pow2(s) >= MdLimit
  }

  /** The shift at which the loop over i in 0..55 breaks when it has reached shift s; 57 when
      it never breaks. */
  function BreakShift(test: WidthTest, fvco: nat, c: int, s: nat): (r: nat)
    requires 1 <= s <= MnMaxPwr + 1
    ensures s <= r <= MnMaxPwr + 1 && (r <= MnMaxPwr ==> Exceeds(test, fvco, c, r))
    ensures forall j :: s <= j < r ==> !Exceeds(test, fvco, c, j)
    decreases MnMaxPwr + 1 - s
  {
    if s == MnMaxPwr + 1 || Exceeds(test, fvco, c, s) then s else BreakShift(test, fvco, c, s + 1)
  }

  /** The break shift is the first test that fails. */
  lemma {:induction false} BreakShiftAt(test: WidthTest, fvco: nat, c: int, s: nat, t: nat)
    requires 1 <= s <= t <= MnMaxPwr && Exceeds(test, fvco, c, t)
    requires forall j :: s <= j < t ==> !Exceeds(test, fvco, c, j)
    ensures BreakShift(test, fvco, c, s) == t
    decreases t - s
  {
    if s < t {
      BreakShiftAt(test, fvco, c, s + 1, t);
    }
  }

  /** The shift `calcPhaseDetectorDivider` keeps: one below the one it broke at. */
  function MShift(test: WidthTest, fvco: nat, c: int): (k: nat)
    ensures k <= MnMaxPwr
  {
    BreakShift(test, fvco, c, 1) - 1
  }

  /** x * P stays non-negative. */
  lemma ScaledNonNegative(x: real, P: nat)
    requires x >= 0.0
    ensures x * P as real >= 0.0 && (x * P as real).Floor >= 0
  {
  }

  /** MN = fvco * P and MD = int(5 Fpfd * P): MN/MD is fvco/(5 Fpfd) scaled by P. */
  function ScaleM(conf: Configuration, P: nat): (c: Configuration)
    requires conf.Fpfd >= 0.0 && P > 0
    ensures c == conf.(MN := c.MN, MD := c.MD)
    ensures c.MN == conf.fvco * P && c.MD as real <= conf.Fpfd * 5.0 * P as real < c.MD as real + 1.0
  {
    ScaledNonNegative(conf.Fpfd * 5.0, P);
    conf.(MN := conf.fvco * P, MD := (conf.Fpfd * 5.0 * P as real).Floor)
  }

  /** MN and MD shifted by the shift the test settles on. */
  function ShiftedM(conf: Configuration, test: WidthTest): (c: Configuration)
    requires conf.Fpfd >= 0.0
  {
    ScaleM(conf, Pow2(MShift(test, conf.fvco, Ceil(conf.Fpfd * 5.0))))
  }

  /** `calcPhaseDetectorDivider` as written. */
  function PhaseDetectorDividerAsWritten(conf: Configuration): (c: Configuration)
    requires conf.Fpfd >= 0.0
  {
    ShiftedM(conf, AsWritten)
  }

  /** `calcPhaseDetectorDivider` with the corrected width test; the model uses this one. */
  function PhaseDetectorDivider(conf: Configuration): (c: Configuration)
    requires conf.Fpfd >= 0.0
  {
    ShiftedM(conf, Corrected)
  }

  /** floor(x * P) stays below a limit that ceil(x) * P stays below. */
  lemma FloorBelow(x: real, c: int, P: nat, limit: nat)
    requires 0.0 <= x <= c as real && P > 0 && c * P < limit
    ensures (x * P as real).Floor < limit
  {
    MulAtMost(x, c as real, P as real);
    assert c as real * P as real == (c * P) as real;
  }

  /** With the corrected test, MN/MD is fvco/(5 Fpfd) scaled by 2^k (`ScaleM`): MN and MD fit
      their 56- and 32-bit fields whenever the loop shifted at all, and one more shift would not fit. */
  lemma PhaseDetectorFits(conf: Configuration)
    requires conf.Fpfd >= 0.0
    ensures var c, m := PhaseDetectorDivider(conf), Ceil(conf.Fpfd * 5.0);
      var k := MShift(Corrected, conf.fvco, m);
      && c == ScaleM(conf, Pow2(k))
      && (k >= 1 ==> c.MN < MnLimit && c.MD < MdLimit)
      && (k < MnMaxPwr ==> Exceeds(Corrected, conf.fvco, m, k + 1))
  {
    var k := MShift(Corrected, conf.fvco, Ceil(conf.Fpfd * 5.0));
    if k >= 1 {
      ScaleMFits(conf, k);
    }
  }

  /** A shift k that passes the corrected test keeps MN and MD in their fields. */
  lemma ScaleMFits(conf: Configuration, k: nat)
    requires conf.Fpfd >= 0.0 && !Exceeds(Corrected, conf.fvco, Ceil(conf.Fpfd * 5.0), k)
    ensures ScaleM(conf, Pow2(k)).MN < MnLimit && ScaleM(conf, Pow2(k)).MD < MdLimit
  {
    FloorBelow(conf.Fpfd * 5.0, Ceil(conf.Fpfd * 5.0), Pow2(k), MdLimit);
  }

  /** As written, when 5 Fpfd is exactly 2^a (a <= 32) and fvco << (32 - a) stays within 2^56, the
      loop keeps shift 32 - a and MD becomes 2^32, one past the largest value of the 32-bit M_DEN. */
  lemma PhaseDetectorAsWrittenOverflows(conf: Configuration, a: nat)
    requires a <= MdMaxPwr && conf.Fpfd * 5.0 == Pow2(a) as real
    requires conf.fvco * Pow2(MdMaxPwr - a) <= MnLimit
    ensures PhaseDetectorDividerAsWritten(conf).MD == MdLimit
  {
    var c := Pow2(a);
    assert Ceil(conf.Fpfd * 5.0) == c;
    var t := MdMaxPwr + 1 - a;
    forall j | 1 <= j < t
      ensures !Exceeds(AsWritten, conf.fvco, c, j)
    {
      Pow2Add(a, j);
      Pow2Le(a + j, MdMaxPwr);
      Pow2Le(j, MdMaxPwr - a);
      MulMonotone(conf.fvco, Pow2(j), Pow2(MdMaxPwr - a));
      MLimits();
    }
    Pow2Add(a, t);
    Pow2Add(MdMaxPwr, 1);
    MLimits();
    BreakShiftAt(AsWritten, conf.fvco, c, 1, t);
    Pow2Add(a, t - 1);
    ScaleMExact(conf, c, Pow2(t - 1));
  }

  /** When 5 Fpfd is the whole number c, MD is exactly c * P. */
  lemma ScaleMExact(conf: Configuration, c: nat, P: nat)
    requires conf.Fpfd * 5.0 == c as real && P > 0
    ensures ScaleM(conf, P).MD == c * P
  {
    assert c as real * P as real == (c * P) as real;
  }

  /** n * x <= n * y when x <= y. */
  lemma MulMonotone(n: nat, x: nat, y: nat)
    requires x <= y
    ensures n * x <= n * y
  {
  }

  /** The corrected loop: shifts MN and MD left as far as both fit their fields. */
  method CalcPhaseDetectorDivider(conf: Configuration) returns (c: Configuration)
    requires conf.Fpfd >= 0.0
    ensures c == PhaseDetectorDivider(conf)
  {
    var ftmp := conf.Fpfd * 5.0;
    var shift := 1;
    for i := 0 to MnMaxPwr
      invariant shift == i + 1
      invariant BreakShift(Corrected, conf.fvco, Ceil(ftmp), shift) == BreakShift(Corrected, conf.fvco, Ceil(ftmp), 1)
    {
      if conf.fvco * Pow2(shift) >= MnLimit || Ceil(ftmp) * Pow2(shift) >= MdLimit {
        break;
      }
      shift := shift + 1;
    }
    shift := shift - 1;
    c := ScaleM(conf, Pow2(shift));
  }

  // ------------------------------------------------ inputConfigurationSingle

  /** PN = ceil(f / 2 MHz): the least integer divider that brings f down to 2 MHz or below. */
  function SingleInputPn(f: nat): (pn: nat)
    requires f > 0
    ensures pn >= 1 && (pn - 1) * FPfdMax < f <= pn * FPfdMax
  {
    var r := Ceil(f as real / FPfdMax as real);
    CeilBounds(f, FPfdMax, r);
    r
  }

  /** ceil(f / M) = r brackets f between (r - 1) * M and r * M. */
  lemma CeilBounds(f: nat, M: nat, r: int)
    requires f > 0 && M > 0 && f as real / M as real <= r as real < f as real / M as real + 1.0
    ensures r >= 1 && (r - 1) * M < f <= r * M
  {
    var x := f as real / M as real;
    assert x * M as real == f as real;
    assert r >= 1 by {
      MulLess(0.0, x, M as real);
    }
    assert f <= r * M by {
      MulAtMost(x, r as real, M as real);
      IntProduct(r, M);
    }
    assert (r - 1) * M < f by {
      IntBelow(r - 1, x, M);
    }
  }

  /** a < x carries over to a * M < x * M for an integer a. */
  lemma IntBelow(a: int, x: real, M: nat)
    requires M > 0 && a as real < x
    ensures (a * M) as real < x * M as real
  {
    MulBelow(a as real, x, M as real);
    IntProduct(a, M);
  }

  /** The product of two integers, taken as reals. */
  lemma IntProduct(a: int, b: int)
    ensures (a * b) as real == a as real * b as real
  {
  }

  /** The input settings `inputConfigurationSingle` makes before it derives MN and MD. */
  function SingleInputSetup(conf: Configuration, index: nat): (c: Configuration)
    requires index < |conf.inputs| && conf.inputs[index].frequency > 0
    ensures c.Fpfd >= 0.0
  {
    var inp := conf.inputs[index];
    var pn := SingleInputPn(inp.frequency);
    conf.(inputs := conf.inputs[index := inp.(PN := pn, PD := 1)], Fpfd := inp.frequency as real / pn as real)
  }

  /** `inputConfigurationSingle`: input `index` divides by PN = ceil(f / 2 MHz) and PD = 1, Fpfd
      becomes f / PN, and MN/MD follow from it. */
  function InputSingle(conf: Configuration, index: nat): (c: Configuration)
    requires index < |conf.inputs| && conf.inputs[index].frequency > 0
  {
    PhaseDetectorDivider(SingleInputSetup(conf, index))
  }

  /** Deriving MN and MD changes nothing else. */
  lemma PhaseDetectorKeeps(conf: Configuration)
    requires conf.Fpfd >= 0.0
    ensures var c := PhaseDetectorDivider(conf); c == conf.(MN := c.MN, MD := c.MD)
  {
  }

  /** `inputConfigurationSingle` changes only input `index` (its PN and PD := 1), Fpfd, MN and MD. */
  lemma InputSingleKeeps(conf: Configuration, index: nat)
    requires index < |conf.inputs| && conf.inputs[index].frequency > 0
    ensures var c := InputSingle(conf, index);
      && c == conf.(inputs := c.inputs, Fpfd := c.Fpfd, MN := c.MN, MD := c.MD)
      && |c.inputs| == |conf.inputs|
      && (forall i :: 0 <= i < |conf.inputs| && i != index ==> c.inputs[i] == conf.inputs[i])
      && c.inputs[index] == conf.inputs[index].(PN := c.inputs[index].PN, PD := 1)
  {
    PhaseDetectorKeeps(SingleInputSetup(conf, index));
  }

  /** Dividing f by pn gives q: pn >= 1, q * pn == f, 0 < q <= 2 MHz, and pn - 1 would leave
      more than 2 MHz. */
  predicate LeastDivision(f: nat, pn: int, q: real)
  {
    pn >= 1 && q * pn as real == f as real && 0.0 < q <= FPfdMax as real && (pn - 1) * FPfdMax < f
  }

  /** A single input is divided down to the largest phase detector frequency within 2 MHz an
      integer divider reaches. */
  lemma InputSingleFpfd(conf: Configuration, index: nat)
    requires index < |conf.inputs| && conf.inputs[index].frequency > 0
    ensures var c := InputSingle(conf, index);
      LeastDivision(conf.inputs[index].frequency, c.inputs[index].PN, c.Fpfd)
  {
    var c, f := InputSingle(conf, index), conf.inputs[index].frequency;
    InputSingleSettings(conf, index);
    SingleInputFpfd(f, c.inputs[index].PN, c.Fpfd);
  }

  /** The input divider and Fpfd of `inputConfigurationSingle`, before MN and MD. */
  lemma InputSingleSettings(conf: Configuration, index: nat)
    requires index < |conf.inputs| && conf.inputs[index].frequency > 0
    ensures var c, f := InputSingle(conf, index), conf.inputs[index].frequency;
      c.inputs[index].PN == SingleInputPn(f) && c.Fpfd == f as real / SingleInputPn(f) as real
  {
    PhaseDetectorKeeps(SingleInputSetup(conf, index));
  }

  /** f / ceil(f / 2 MHz) is within 2 MHz and recovers f. */
  lemma SingleInputFpfd(f: nat, pn: nat, q: real)
    requires f > 0 && pn == SingleInputPn(f) && q == f as real / pn as real
    ensures LeastDivision(f, pn, q)
  {
    DividedBelow(f, pn, FPfdMax);
  }

  /** f / pn <= M when f <= pn * M. */
  lemma DividedBelow(f: nat, pn: nat, M: nat)
    requires f > 0 && pn > 0 && f <= pn * M
    ensures var q := f as real / pn as real; 0.0 < q <= M as real && q * pn as real == f as real
  {
    var q := f as real / pn as real;
    assert q * pn as real == f as real;
    assert (pn * M) as real == M as real * pn as real;
    MulLess(M as real, q, pn as real);
  }

  /** `inputConfigurationSingle`, through the shift loop. */
  method InputConfigurationSingle(conf: Configuration, index: nat) returns (c: Configuration)
    requires index < |conf.inputs| && conf.inputs[index].frequency > 0
    ensures c == InputSingle(conf, index)
  {
    var inp := conf.inputs[index];
    var pn := Ceil(inp.frequency as real / FPfdMax as real);
    CeilBounds(inp.frequency, FPfdMax, pn);
    c := conf.(inputs := conf.inputs[index := inp.(PN := pn, PD := 1)]);
    c := c.(Fpfd := inp.frequency as real / pn as real);
    c := CalcPhaseDetectorDivider(c);
  }

  /** A single input of 8388608 Hz (2^23) divides by PN = 5, so ceil(5 * Fpfd) = 2^23: the
      strict width test then lets MD reach 2^32, one past the 32-bit M_DEN field, while the
      corrected test keeps MN and MD within their fields. */
  lemma SingleInputOverflowExample(conf: Configuration, index: nat)
    requires index < |conf.inputs| && conf.inputs[index].frequency == 8_388_608 && conf.fvco <= MaxPllF
    ensures PhaseDetectorDividerAsWritten(SingleInputSetup(conf, index)).MD == MdLimit
    ensures var c := InputSingle(conf, index); c.MN < MnLimit && c.MD < MdLimit
  {
    var pre := SingleInputSetup(conf, index);
    assert SingleInputPn(8_388_608) == 5;
    Pow2Of23();
    assert pre.Fpfd * 5.0 == Pow2(23) as real;
    MLimits();
    PhaseDetectorAsWrittenOverflows(pre, 23);
    var m := Ceil(pre.Fpfd * 5.0);
    assert m == 0x80_0000;
    assert !Exceeds(Corrected, conf.fvco, m, 1);
    PhaseDetectorFits(pre);
  }

  // ------------------------------------------------- inputConfigurationMulti

  /** Both inputs are enabled. */
  predicate BothInputs(conf: Configuration)
    requires |conf.inputs| >= 2
  {
    conf.inputs[0].enabled && conf.inputs[1].enabled
  }

  /** Both inputs run from one phase detector frequency: their gcd is at least 20 kHz. */
  predicate UsesGcd(conf: Configuration)
    requires |conf.inputs| >= 2
  {
    BothInputs(conf) && Gcd(conf.inputs[0].frequency, conf.inputs[1].frequency) >= FPfdMin
  }

  /** The input the fallback configures alone: input 0 when it is enabled, else input 1. */
  function FallbackIndex(conf: Configuration): (i: nat)
    requires |conf.inputs| >= 2
    ensures i < 2 && (conf.inputs[0].enabled <==> i == 0)
  {
    if conf.inputs[0].enabled then 0 else 1
  }

  /** What `inputConfigurationMulti` needs not to divide by zero: inputs 0 and 1 exist, the gcd
      has a non-zero second operand, and the input configured alone has a frequency. */
  predicate InputsConfigurable(conf: Configuration)
  {
    && |conf.inputs| >= 2
    && (BothInputs(conf) ==> conf.inputs[1].frequency > 0)
    && (AnyInputEnabled(conf.inputs) && !UsesGcd(conf) ==> conf.inputs[FallbackIndex(conf)].frequency > 0)
  }

  /** How many times the gcd is divided to come within 2 MHz: ceil(g / 2 MHz) above 2 MHz, else once. */
  function GcdSteps(g: nat): (k: nat)
    requires g > 0
    ensures k >= 1 && g <= k * FPfdMax
  {
    if g > FPfdMax then SingleInputPn(g) else 1
  }

  /** The phase detector frequency of two inputs: their gcd, divided by ceil(g / 2 MHz) above 2 MHz. */
  function GcdPfd(g: nat): (p: real)
    requires g > 0
    ensures 0.0 < p <= FPfdMax as real && p * GcdSteps(g) as real == g as real
  {
    DividedBelow(g, GcdSteps(g), FPfdMax);
    if g > FPfdMax then g as real / GcdSteps(g) as real else g as real
  }

  /** `round(f / Fpfd)`, never negative for a frequency. */
  function NearestPn(f: nat, fpfd: real): (pn: nat)
    requires fpfd > 0.0
    ensures Abs(pn as real - f as real / fpfd) <= 0.5
  {
    var x := f as real / fpfd;
    assert x >= 0.0;
    Round(x)
  }

  /** Every input with PN = round(f / Fpfd) and PD = 1, as the loop over the inputs sets them. */
  function DividedInputs(inputs: seq<Input>, fpfd: real): (r: seq<Input>)
    requires fpfd > 0.0
    ensures |r| == |inputs|
    ensures forall i :: 0 <= i < |inputs| ==> r[i] == inputs[i].(PN := NearestPn(inputs[i].frequency, fpfd), PD := 1)
  {
    seq(|inputs|, i requires 0 <= i < |inputs| => inputs[i].(PN := NearestPn(inputs[i].frequency, fpfd), PD := 1))
  }

  /** Every input with PN = PD = 0. */
  function ZeroedInputs(inputs: seq<Input>): (r: seq<Input>)
    ensures |r| == |inputs| && forall i :: 0 <= i < |inputs| ==> r[i] == inputs[i].(PN := 0, PD := 0)
  {
    seq(|inputs|, i requires 0 <= i < |inputs| => inputs[i].(PN := 0, PD := 0))
  }

  /** The phase detector frequency and input dividers the gcd branch sets before MN and MD. */
  function GcdSetup(conf: Configuration): (c: Configuration)
    requires InputsConfigurable(conf) && UsesGcd(conf)
    ensures c.Fpfd >= 0.0
  {
    var fpfd := GcdPfd(Gcd(conf.inputs[0].frequency, conf.inputs[1].frequency));
    conf.(Fpfd := fpfd, inputs := DividedInputs(conf.inputs, fpfd))
  }

  /** `inputConfigurationMulti`: with no input enabled MN, MD and every PN, PD become 0; with both
      enabled and a gcd of at least 20 kHz every input divides to the gcd-based Fpfd; otherwise
      the fallback input is configured alone. */
  function InputMulti(conf: Configuration): (c: Configuration)
    requires InputsConfigurable(conf)
  {
    if !AnyInputEnabled(conf.inputs) then
      conf.(MN := 0, MD := 0, inputs := ZeroedInputs(conf.inputs))
    else if UsesGcd(conf) then
      PhaseDetectorDivider(GcdSetup(conf))
    else
      InputSingle(conf, FallbackIndex(conf))
  }

  /** Without an enabled input only MN, MD and the input dividers change, all to 0. */
  lemma InputMultiNone(conf: Configuration)
    requires InputsConfigurable(conf) && !AnyInputEnabled(conf.inputs)
    ensures var c := InputMulti(conf);
      && c == conf.(MN := 0, MD := 0, inputs := c.inputs) && |c.inputs| == |conf.inputs|
      && forall i :: 0 <= i < |conf.inputs| ==> c.inputs[i] == conf.inputs[i].(PN := 0, PD := 0)
  {
  }

  /** (g * m) / (g / k) == m * k, and m * k times g / k gives back g * m. */
  lemma ExactMultiple(g: nat, k: nat, m: nat)
    requires g > 0 && k > 0
    ensures var p := g as real / k as real;
      (g * m) as real / p == (m * k) as real && (m * k) as real * p == (g * m) as real
  {
    var p := g as real / k as real;
    assert p * k as real == g as real;
    assert (m * k) as real * p == m as real * (p * k as real);
    assert (g * m) as real == m as real * g as real;
  }

  /** An input whose frequency is a multiple of g divides exactly onto GcdPfd(g). */
  lemma GcdPnExact(f: nat, g: nat, p: real)
    requires g > 0 && Divides(g, f) && p == GcdPfd(g)
    ensures ExactDivision(f, NearestPn(f, p), p)
  {
    var k, m := GcdSteps(g), f / g;
    QuotientExact(f, g);
    if g > FPfdMax {
      ExactMultiple(g, k, m);
      assert g * m == m * g;
      PnOfMultiple(f, p, m * k);
    } else {
      IntProduct(m, g);
      PnOfMultiple(f, p, m);
    }
  }

  /** A frequency that is n times p divides onto p with PN = n. */
  lemma PnOfMultiple(f: nat, p: real, n: nat)
    requires p > 0.0 && f as real == n as real * p
    ensures NearestPn(f, p) == n && ExactDivision(f, n, p)
  {
    assert f as real / p == n as real;
    RoundOfInteger(n);
  }

  /** q times pn gives back f. */
  predicate ExactDivision(f: nat, pn: int, q: real)
  {
    pn as real * q == f as real
  }

  /** The gcd branch changes only Fpfd, the input dividers, MN and MD. */
  lemma InputMultiGcdKeeps(conf: Configuration)
    requires InputsConfigurable(conf) && UsesGcd(conf)
    ensures var c, p := InputMulti(conf), GcdSetup(conf);
      && c == conf.(Fpfd := c.Fpfd, inputs := c.inputs, MN := c.MN, MD := c.MD)
      && c.Fpfd == p.Fpfd && c.inputs == p.inputs
  {
    PhaseDetectorKeeps(GcdSetup(conf));
  }

  /** With both inputs on a gcd of at least 20 kHz, both divide exactly onto one phase detector
      frequency within 2 MHz: PN * Fpfd == f and PD == 1 for inputs 0 and 1. */
  lemma InputMultiGcd(conf: Configuration)
    requires InputsConfigurable(conf) && UsesGcd(conf)
    ensures var c := InputMulti(conf);
      && |c.inputs| == |conf.inputs| && 0.0 < c.Fpfd <= FPfdMax as real
      && forall i :: 0 <= i < 2 ==> c.inputs[i].PD == 1 && ExactDivision(conf.inputs[i].frequency, c.inputs[i].PN, c.Fpfd)
  {
    var f0, f1 := conf.inputs[0].frequency, conf.inputs[1].frequency;
    var g := Gcd(f0, f1);
    InputMultiGcdKeeps(conf);
    var c := InputMulti(conf);
    GcdDivides(f0, f1);
    GcdPnExact(f0, g, c.Fpfd);
    GcdPnExact(f1, g, c.Fpfd);
  }

  /** Otherwise the fallback input is configured alone, input 0 in preference. */
  lemma InputMultiFallback(conf: Configuration)
    requires InputsConfigurable(conf) && AnyInputEnabled(conf.inputs) && !UsesGcd(conf)
    ensures InputMulti(conf) == InputSingle(conf, if conf.inputs[0].enabled then 0 else 1)
  {
  }

  /** Inputs of 10 MHz and 15 MHz share a 5 MHz gcd, divided by 3 to 5/3 MHz: PN 6 and 9. */
  lemma InputMultiExample(conf: Configuration)
    requires |conf.inputs| == 2 && conf.inputs[0].enabled && conf.inputs[1].enabled
    requires conf.inputs[0].frequency == 10_000_000 && conf.inputs[1].frequency == 15_000_000
    ensures InputsConfigurable(conf) && UsesGcd(conf)
    ensures var c := InputMulti(conf); c.inputs[0].PN == 6 && c.inputs[1].PN == 9
  {
    assert Gcd(10_000_000, 15_000_000) == 5_000_000;
    assert GcdSteps(5_000_000) == 3;
    var p := GcdPfd(5_000_000);
    ExactMultiple(5_000_000, 3, 2);
    ExactMultiple(5_000_000, 3, 3);
    RoundOfInteger(6);
    RoundOfInteger(9);
  }

  /** The loop of the no-input branch. */
  method ZeroInputDividers(inputs: seq<Input>) returns (r: seq<Input>)
    ensures r == ZeroedInputs(inputs)
  {
    r := inputs;
    for i := 0 to |inputs|
      invariant |r| == |inputs|
      invariant forall j :: 0 <= j < i ==> r[j] == inputs[j].(PN := 0, PD := 0)
      invariant forall j :: i <= j < |inputs| ==> r[j] == inputs[j]
    {
      r := r[i := r[i].(PN := 0, PD := 0)];
    }
  }

  /** The loop of the gcd branch. */
  method DivideInputs(inputs: seq<Input>, fpfd: real) returns (r: seq<Input>)
    requires fpfd > 0.0
    ensures r == DividedInputs(inputs, fpfd)
  {
    r := inputs;
    for i := 0 to |inputs|
      invariant |r| == |inputs|
      invariant forall j :: 0 <= j < i ==> r[j] == inputs[j].(PN := NearestPn(inputs[j].frequency, fpfd), PD := 1)
      invariant forall j :: i <= j < |inputs| ==> r[j] == inputs[j]
    {
      r := r[i := r[i].(PN := NearestPn(r[i].frequency, fpfd), PD := 1)];
    }
  }

  /** `inputConfigurationMulti`, through `floatGcd`, the input loops and the shift loop. */
  method InputConfigurationMulti(conf: Configuration) returns (c: Configuration)
    requires InputsConfigurable(conf)
    ensures c == InputMulti(conf)
  {
    if !AnyInputEnabled(conf.inputs) {
      var inputs := ZeroInputDividers(conf.inputs);
      return conf.(MN := 0, MD := 0, inputs := inputs);
    }
    if conf.inputs[0].enabled && conf.inputs[1].enabled {
      var gcd := Util.FloatGcd(conf.inputs[0].frequency, conf.inputs[1].frequency);
      if gcd >= FPfdMin {
        var fpfd := gcd as real;
        if gcd > FPfdMax {
          fpfd := gcd as real / Ceil(gcd as real / FPfdMax as real) as real;
        }
        assert fpfd == GcdPfd(gcd);
        var inputs := DivideInputs(conf.inputs, fpfd);
        c := CalcPhaseDetectorDivider(conf.(Fpfd := fpfd, inputs := inputs));
        return;
      }
    }
    var index := 1;
    if conf.inputs[0].enabled {
      index := 0;
    }
    c := InputConfigurationSingle(conf, index);
  }

  /** `inputConfigurationMulti` changes only the inputs, Fpfd, MN and MD. */
  lemma InputMultiKeeps(conf: Configuration)
    requires InputsConfigurable(conf)
    ensures var c := InputMulti(conf); c == conf.(inputs := c.inputs, Fpfd := c.Fpfd, MN := c.MN, MD := c.MD)
  {
    if !AnyInputEnabled(conf.inputs) {
    } else if UsesGcd(conf) {
      InputMultiGcdKeeps(conf);
    } else {
      InputSingleKeeps(conf, FallbackIndex(conf));
    }
  }

  // ------------------------------------------------------------- calcDivider

  /** Twice the frequency of every enabled channel, in channel order: the frequencies `findFPLL`
      is given. */
  function DoubledFrequencies(chs: seq<OutChannel>): (fs: seq<nat>)
    ensures |fs| <= |chs| && (|fs| > 0 <==> AnyChannelEnabled(chs))
    ensures FrequenciesInRange(chs) ==> forall j :: 0 <= j < |fs| ==> 0 < fs[j] <= MaxPllF
    decreases |chs|
  {
    if |chs| == 0 then []
    else
      var rest := chs[1..];
      assert forall i :: 0 <= i < |rest| ==> rest[i] == chs[i + 1];
      Doubled(chs[0]) + DoubledFrequencies(rest)
  }

  /** The one frequency an enabled channel contributes. */
  function Doubled(ch: OutChannel): (fs: seq<nat>)
    ensures fs == if ch.enabled then [2 * ch.frequency] else []
  {
    if ch.enabled then [2 * ch.frequency] else []
  }

  /** Collecting over two runs of channels collects over each in turn. */
  lemma {:induction false} DoubledConcat(a: seq<OutChannel>, b: seq<OutChannel>)
    ensures DoubledFrequencies(a + b) == DoubledFrequencies(a) + DoubledFrequencies(b)
    decreases |a|
  {
    if |a| == 0 {
      assert a + b == b;
    } else {
      assert (a + b)[1..] == a[1..] + b;
      DoubledConcat(a[1..], b);
    }
  }

  /** The doubled frequencies are exactly the doubles of the enabled channels' frequencies. */
  lemma {:induction false} DoubledMembers(chs: seq<OutChannel>)
    ensures forall i :: 0 <= i < |chs| && chs[i].enabled ==> 2 * chs[i].frequency in DoubledFrequencies(chs)
    ensures forall x :: x in DoubledFrequencies(chs) ==> exists i :: 0 <= i < |chs| && chs[i].enabled && x == 2 * chs[i].frequency
    decreases |chs|
  {
    if |chs| > 0 {
      var rest := chs[1..];
      DoubledMembers(rest);
      var fs, tail := DoubledFrequencies(chs), DoubledFrequencies(rest);
      assert fs == Doubled(chs[0]) + tail;
      forall i | 0 <= i < |chs| && chs[i].enabled
        ensures 2 * chs[i].frequency in fs
      {
        if i > 0 {
          assert rest[i - 1] == chs[i];
          assert 2 * rest[i - 1].frequency in tail;
        }
      }
      forall x | x in fs
        ensures exists i :: 0 <= i < |chs| && chs[i].enabled && x == 2 * chs[i].frequency
      {
        if x in tail {
          var i :| 0 <= i < |rest| && rest[i].enabled && x == 2 * rest[i].frequency;
          assert chs[i + 1] == rest[i];
        } else {
          assert chs[0].enabled && x == 2 * chs[0].frequency;
        }
      }
    }
  }

  /** Every enabled channel has a frequency whose double is within 14 GHz. */
  predicate FrequenciesInRange(chs: seq<OutChannel>)
  {
    forall i :: 0 <= i < |chs| && chs[i].enabled ==> 0 < chs[i].frequency && 2 * chs[i].frequency <= MaxPllF
  }

  /** Every channel with NN, ND, R and realFrequency reset to 0. */
  function ResetChannels(chs: seq<OutChannel>): (r: seq<OutChannel>)
    ensures |r| == |chs|
    ensures forall i :: 0 <= i < |chs| ==> r[i] == chs[i].(NN := 0, ND := 0, R := 0, realFrequency := 0.0)
  {
    seq(|chs|, i requires 0 <= i < |chs| => chs[i].(NN := 0, ND := 0, R := 0, realFrequency := 0.0))
  }

  /** Every channel divided from one VCO frequency. */
  function DividedChannels(fvco: nat, chs: seq<OutChannel>, em: ErrorModel): (r: seq<OutChannel>)
    requires forall i :: 0 <= i < |chs| ==> Dividable(fvco, chs[i])
    ensures |r| == |chs| && forall i :: 0 <= i < |chs| ==> r[i] == ChannelDivider(fvco, chs[i], em)
  {
    seq(|chs|, i requires 0 <= i < |chs| => ChannelDivider(fvco, chs[i], em))
  }

  /** What `calcDivider` needs: every enabled channel has a frequency whose double is within
      14 GHz, and the inputs can be configured. */
  predicate DividerConfigurable(conf: Configuration)
  {
    FrequenciesInRange(conf.channels) && InputsConfigurable(conf)
  }

  /** A channel whose double frequency is within fvco divides: its ratio is at least 1. */
  lemma DividableBelow(fvco: nat, ch: OutChannel)
    requires ch.enabled ==> 0 < ch.frequency && 2 * ch.frequency <= fvco
    ensures Dividable(fvco, ch)
  {
    if ch.enabled {
      var d := ChannelRatio(fvco, ch.frequency);
      MulLess(d, 1.0, (2 * ch.frequency) as real);
    }
  }

  /** The VCO frequency of `calcDivider` covers every enabled channel's double frequency. */
  lemma PllCoversChannels(conf: Configuration)
    requires DividerConfigurable(conf) && AnyChannelEnabled(conf.channels)
    ensures var fs := DoubledFrequencies(conf.channels);
      && |fs| > 0 && (forall j :: 0 <= j < |fs| ==> 0 < fs[j] <= MaxPllF)
      && forall i :: 0 <= i < |conf.channels| ==> Dividable(FindFpll(conf, fs).fvco, conf.channels[i])
  {
    var fs := DoubledFrequencies(conf.channels);
    DoubledMembers(conf.channels);
    var i0 :| 0 <= i0 < |conf.channels| && conf.channels[i0].enabled;
    assert 2 * conf.channels[i0].frequency in fs;
    FpllCoversFrequencies(conf, fs);
    var fvco := FindFpll(conf, fs).fvco;
    forall i | 0 <= i < |conf.channels|
      ensures Dividable(fvco, conf.channels[i])
    {
      if conf.channels[i].enabled {
        assert 2 * conf.channels[i].frequency in fs;
      }
      DividableBelow(fvco, conf.channels[i]);
    }
  }

  /** `calcDivider`: with no channel enabled the channel dividers are reset and nothing else
      changes; otherwise fvco is chosen for the doubled channel frequencies, every channel is
      divided from it, and the inputs are configured. */
  function Divider(conf: Configuration, em: ErrorModel): (c: Configuration)
    requires DividerConfigurable(conf)
  {
    if !AnyChannelEnabled(conf.channels) then
      conf.(channels := ResetChannels(conf.channels))
    else
      var p := FindFpll(conf, DoubledFrequencies(conf.channels));
      PllCoversChannels(conf);
      InputMulti(p.(channels := DividedChannels(p.fvco, p.channels, em)))
  }

  /** Without an enabled channel only the channel dividers change, each to 0. */
  lemma DividerNoChannel(conf: Configuration, em: ErrorModel)
    requires DividerConfigurable(conf) && !AnyChannelEnabled(conf.channels)
    ensures var c := Divider(conf, em);
      && c == conf.(channels := c.channels) && |c.channels| == |conf.channels|
      && forall i :: 0 <= i < |conf.channels| ==> NoDivider(c.channels[i]) && c.channels[i].realFrequency == 0.0
  {
  }

  /** With an enabled channel, fvco lies within 14 GHz and at or above every doubled channel
      frequency, is a multiple of each when their lcm fits, feeds Mxaxb_N over the 54 MHz
      reference, and every channel is divided from it; the inputs are configured last. */
  lemma DividerSetsPll(conf: Configuration, em: ErrorModel)
    requires DividerConfigurable(conf) && AnyChannelEnabled(conf.channels)
    ensures var c, fs := Divider(conf, em), DoubledFrequencies(conf.channels);
      && c.fvco <= MaxPllF && c.MxaxbN == c.fvco && c.MxaxbD == ExternalRefFreq && |c.channels| == |conf.channels|
      && (forall i :: 0 <= i < |conf.channels| && conf.channels[i].enabled ==> 2 * conf.channels[i].frequency <= c.fvco)
      && (Util.FloatLcm(fs) <= MaxPllF ==>
            forall i :: 0 <= i < |conf.channels| && conf.channels[i].enabled ==> Divides(2 * conf.channels[i].frequency, c.fvco))
      && (forall i :: 0 <= i < |conf.channels| ==> Dividable(c.fvco, conf.channels[i]) && c.channels[i] == ChannelDivider(c.fvco, conf.channels[i], em))
  {
    var fs := DoubledFrequencies(conf.channels);
    PllCoversChannels(conf);
    DividerKeepsPll(conf, em);
    var p := FindFpll(conf, fs);
    FpllCoversFrequencies(conf, fs);
    EnabledCovered(conf.channels, p.fvco);
    if Util.FloatLcm(fs) <= MaxPllF {
      EnabledDivide(conf.channels, p.fvco);
    }
  }

  /** The PLL settings `findFPLL` chooses and the divided channels survive the input configuration. */
  lemma DividerKeepsPll(conf: Configuration, em: ErrorModel)
    requires DividerConfigurable(conf) && AnyChannelEnabled(conf.channels)
    ensures var c, p := Divider(conf, em), FindFpll(conf, DoubledFrequencies(conf.channels));
      && c.fvco == p.fvco && c.MxaxbN == p.MxaxbN && c.MxaxbD == p.MxaxbD
      && (forall i :: 0 <= i < |conf.channels| ==> Dividable(p.fvco, conf.channels[i]))
      && c.channels == DividedChannels(p.fvco, conf.channels, em)
  {
    PllCoversChannels(conf);
    var p := FindFpll(conf, DoubledFrequencies(conf.channels));
    var divided := p.(channels := DividedChannels(p.fvco, p.channels, em));
    DividerUnfolds(conf, em, divided);
    InputMultiKeeps(divided);
  }

  /** A bound on every doubled frequency bounds every enabled channel's double frequency. */
  lemma EnabledCovered(chs: seq<OutChannel>, fvco: nat)
    requires forall j :: 0 <= j < |DoubledFrequencies(chs)| ==> DoubledFrequencies(chs)[j] <= fvco
    ensures forall i :: 0 <= i < |chs| && chs[i].enabled ==> 2 * chs[i].frequency <= fvco
  {
    var fs := DoubledFrequencies(chs);
    DoubledMembers(chs);
    forall i | 0 <= i < |chs| && chs[i].enabled
      ensures 2 * chs[i].frequency <= fvco
    {
      assert 2 * chs[i].frequency in fs;
      var j :| 0 <= j < |fs| && fs[j] == 2 * chs[i].frequency;
    }
  }

  /** A common multiple of the doubled frequencies is one of every enabled channel's double frequency. */
  lemma EnabledDivide(chs: seq<OutChannel>, fvco: nat)
    requires forall j :: 0 <= j < |DoubledFrequencies(chs)| ==> Divides(DoubledFrequencies(chs)[j], fvco)
    ensures forall i :: 0 <= i < |chs| && chs[i].enabled ==> Divides(2 * chs[i].frequency, fvco)
  {
    var fs := DoubledFrequencies(chs);
    DoubledMembers(chs);
    forall i | 0 <= i < |chs| && chs[i].enabled
      ensures Divides(2 * chs[i].frequency, fvco)
    {
      assert 2 * chs[i].frequency in fs;
      var j :| 0 <= j < |fs| && fs[j] == 2 * chs[i].frequency;
    }
  }

  /** When the lcm of the doubled frequencies fits within 14 GHz, every enabled channel whose
      divider fvco / 2f stays within 4096 produces exactly its own frequency. */
  lemma DividerExactChannels(conf: Configuration, em: ErrorModel)
    requires DividerConfigurable(conf) && AnyChannelEnabled(conf.channels)
    requires Util.FloatLcm(DoubledFrequencies(conf.channels)) <= MaxPllF
    ensures var c := Divider(conf, em);
      forall i :: 0 <= i < |conf.channels| && conf.channels[i].enabled && c.fvco <= NnMaxValue * (2 * conf.channels[i].frequency) ==>
        c.channels[i].realFrequency == conf.channels[i].frequency as real
  {
    var c := Divider(conf, em);
    DividerSetsPll(conf, em);
    forall i | 0 <= i < |conf.channels| && conf.channels[i].enabled && c.fvco <= NnMaxValue * (2 * conf.channels[i].frequency)
      ensures c.channels[i].realFrequency == conf.channels[i].frequency as real
    {
      DividedExactly(c.fvco, conf.channels[i], em);
    }
  }

  /** a * d <= n * a with a > 0 bounds d by n. */
  lemma FactorAtMost(a: nat, d: nat, n: nat)
    requires a > 0 && a * d <= n * a
    ensures d <= n
  {
    if d > n {
      MulPositive(a, d - n);
    }
  }

  /** A channel whose double frequency divides fvco, at most 4096 times, is produced exactly. */
  lemma DividedExactly(fvco: nat, ch: OutChannel, em: ErrorModel)
    requires ch.enabled && ch.frequency > 0 && Divides(2 * ch.frequency, fvco)
    requires 2 * ch.frequency <= fvco <= NnMaxValue * (2 * ch.frequency)
    ensures Dividable(fvco, ch) && ChannelDivider(fvco, ch, em).realFrequency == ch.frequency as real
  {
    var f2 := 2 * ch.frequency;
    var d := fvco / f2;
    assert fvco == f2 * d;
    FactorAtMost(f2, d, NnMaxValue);
    assert fvco == 2 * ch.frequency * d;
    ChannelDividerIntegral(fvco, ch, em, d);
  }

  /** Whether the inputs can be configured depends on the inputs alone. */
  lemma SameInputsConfigurable(conf: Configuration, c: Configuration)
    requires InputsConfigurable(conf) && c.inputs == conf.inputs
    ensures InputsConfigurable(c)
  {
  }

  /** One more channel adds its own doubled frequency, if any, at the end. */
  lemma DoubledStep(chs: seq<OutChannel>, k: nat)
    requires k < |chs|
    ensures DoubledFrequencies(chs[..k + 1]) == DoubledFrequencies(chs[..k]) + Doubled(chs[k])
  {
    assert chs[..k + 1] == chs[..k] + [chs[k]];
    DoubledConcat(chs[..k], [chs[k]]);
    assert [chs[k]][1..] == [];
  }

  /** The loop that collects the doubled frequencies of the enabled channels. */
  method CollectFrequencies(chs: seq<OutChannel>) returns (fs: seq<nat>)
    ensures fs == DoubledFrequencies(chs)
  {
    fs := [];
    for k := 0 to |chs|
      invariant fs == DoubledFrequencies(chs[..k])
    {
      DoubledStep(chs, k);
      if chs[k].enabled {
        fs := fs + [2 * chs[k].frequency];
      }
    }
    assert chs[..|chs|] == chs;
  }

  /** The loop that resets the channel dividers. */
  method ResetChannelDividers(chs: seq<OutChannel>) returns (r: seq<OutChannel>)
    ensures r == ResetChannels(chs)
  {
    r := chs;
    for k := 0 to |chs|
      invariant |r| == |chs|
      invariant forall i :: 0 <= i < k ==> r[i] == chs[i].(NN := 0, ND := 0, R := 0, realFrequency := 0.0)
      invariant forall i :: k <= i < |chs| ==> r[i] == chs[i]
    {
      r := r[k := r[k].(NN := 0, ND := 0, R := 0, realFrequency := 0.0)];
    }
  }

  /** `calcDivider`, through its loops and the methods of each step. */
  method CalcDivider(conf: Configuration, em: ErrorModel) returns (c: Configuration)
    requires DividerConfigurable(conf)
    ensures c == Divider(conf, em)
  {
    var fs := CollectFrequencies(conf.channels);
    if |fs| == 0 {
      var chs := ResetChannelDividers(conf.channels);
      return conf.(channels := chs);
    }
    c := DivideFromPll(conf, fs, em);
  }

  /** The steps of `calcDivider` once a channel is enabled: `findFPLL`, `calcChannelDivider`
      and `inputConfigurationMulti`. */
  method DivideFromPll(conf: Configuration, fs: seq<nat>, em: ErrorModel) returns (c: Configuration)
    requires DividerConfigurable(conf) && AnyChannelEnabled(conf.channels) && fs == DoubledFrequencies(conf.channels)
    ensures c == Divider(conf, em)
  {
    PllCoversChannels(conf);
    var divided := DivideAtPll(conf, fs, em);
    SameInputsConfigurable(conf, divided);
    c := InputConfigurationMulti(divided);
    DividerUnfolds(conf, em, divided);
  }

  /** `findFPLL` followed by `calcChannelDivider`. */
  method DivideAtPll(conf: Configuration, fs: seq<nat>, em: ErrorModel) returns (divided: Configuration)
    requires |fs| > 0 && forall j :: 0 <= j < |fs| ==> fs[j] > 0
    requires var p := FindFpll(conf, fs); forall i :: 0 <= i < |p.channels| ==> Dividable(p.fvco, p.channels[i])
    ensures var p := FindFpll(conf, fs); divided == p.(channels := DividedChannels(p.fvco, p.channels, em))
  {
    var p := FindFpll(conf, fs);
    divided := CalcChannelDivider(p, em);
    assert divided.channels == DividedChannels(p.fvco, p.channels, em);
  }

  /** The last step of `calcDivider` on the divided channels. */
  lemma DividerUnfolds(conf: Configuration, em: ErrorModel, divided: Configuration)
    requires DividerConfigurable(conf) && AnyChannelEnabled(conf.channels)
    requires var p := FindFpll(conf, DoubledFrequencies(conf.channels));
      && (forall i :: 0 <= i < |p.channels| ==> Dividable(p.fvco, p.channels[i]))
      && divided == p.(channels := DividedChannels(p.fvco, p.channels, em))
    ensures InputsConfigurable(divided) && Divider(conf, em) == InputMulti(divided)
  {
  }
}
