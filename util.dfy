/**
 * The helpers of Util.py: the gcd and lcm the divider synthesis uses, and
 * the HTML text of the lock display and the output format tooltip.
 */
module Util {

  import opened Numeric
  import opened Constants
  import opened Text
  import opened Config
  import opened Status

  /** `floatLCMNP` on whole numbers: one value is returned as it is, more are reduced with lcm. */
  function FloatLcm(values: seq<nat>): (r: nat)
    requires |values| > 0 && forall i :: 0 <= i < |values| ==> values[i] > 0
    ensures |values| == 1 ==> r == values[0]
    ensures forall i :: 0 <= i < |values| ==> Divides(values[i], r)
    ensures forall m: nat :: (forall i :: 0 <= i < |values| ==> Divides(values[i], m)) ==> Divides(r, m)
  {
    LcmListLeast(values);
    if |values| == 1 then values[0] else LcmList(values)
  }

  /** `floatGcd`: Euclid's loop, stopped once the remainder is within 0.001. */
  method FloatGcd(a0: nat, b0: nat) returns (g: nat)
    requires b0 != 0
    ensures g == Gcd(a0, b0)
  {
    var a, b := a0, b0;
    while (a % b) as real > GcdInputError
      invariant b != 0 && Gcd(a, b) == Gcd(a0, b0)
      decreases b
    {
      var r := a % b;
      a := b;
      b := r;
    }
    g := b;
  }

  /** Python's `floatGcd` of two whole numbers is their greatest common divisor. */
  lemma FloatGcdIsGreatest(a: nat, b: nat)
    requires b != 0
    ensures Divides(Gcd(a, b), a) && Divides(Gcd(a, b), b)
    ensures forall d: nat :: Divides(d, a) && Divides(d, b) ==> Divides(d, Gcd(a, b))
  {
    GcdDivides(a, b);
    forall d: nat | Divides(d, a) && Divides(d, b) ensures Divides(d, Gcd(a, b)) {
      GcdGreatest(a, b, d);
    }
  }

  /** The defaults of `styleText`: 20 px, not bold. */
  const DefaultSize: nat := 20

  /** The tags `styleText` opens: `<b>` when bold, then the font tag. */
  function StyleOpen(size: nat, bold: bool, color: string): string
  {
    (if bold then "<b>" else "") + "<font font-size=\"" + NatToString(size) + "px\"; color=\"" + color + "\">"
  }

  /** The tags `styleText` closes, innermost first. */
  function StyleClose(bold: bool): string
  {
    "</font>" + (if bold then "</b>" else "")
  }

  /** `styleText(text, size, bold, color)`: text in font (and bold) tags, its line breaks as `<br>`. */
  function StyleText(text: string, size: nat, bold: bool, color: string): (r: string)
    ensures |r| >= 7
    ensures bold ==> r[..3] == "<b>" && r[|r| - 4..] == "</b>"
    ensures !bold ==> r[..5] == "<font" && r[|r| - 7..] == "</font>"
    ensures '\n' !in color ==> '\n' !in r
    ensures '\n' !in text ==> r == StyleOpen(size, bold, color) + text + StyleClose(bold)
  {
    var open, body, close := StyleOpen(size, bold, color), Replace(text, '\n', "<br>"), StyleClose(bold);
    OpenTagsOneLine(size, bold, color);
    Concat3(open, body, close);
    open + body + close
  }

  /** `styleText` turns the text's lines into `<br>`-separated lines between its tags. */
  lemma StyleTextLines(text: string, size: nat, bold: bool, color: string)
    ensures StyleText(text, size, bold, color)
      == StyleOpen(size, bold, color) + JoinWith(Split(text, '\n'), "<br>") + StyleClose(bold)
  {
    ReplaceSplit(text, '\n', "<br>");
  }

  /** The opening tags keep to one line when the color does. */
  lemma OpenTagsOneLine(size: nat, bold: bool, color: string)
    ensures |StyleOpen(size, bold, color)| >= 5
    ensures bold ==> StyleOpen(size, bold, color)[..3] == "<b>"
    ensures !bold ==> StyleOpen(size, bold, color)[..5] == "<font"
    ensures '\n' !in color ==> '\n' !in StyleOpen(size, bold, color)
  {
    var digits := NatToString(size);
    assert forall i :: 0 <= i < |digits| ==> IsDigit(digits[i]);
  }

  /** The ends of a concatenation of three strings. */
  lemma Concat3(a: string, b: string, c: string)
    ensures |a + b + c| == |a| + |b| + |c|
    ensures |a| >= 5 ==> (a + b + c)[..5] == a[..5] && (a + b + c)[..3] == a[..3]
    ensures (a + b + c)[|a| + |b|..] == c
    ensures forall x :: x in a + b + c <==> x in a || x in b || x in c
  {
  }

  /** What `printLocked` shows for one input. */
  datatype InputReport = Locked | NoSignal | Signal | Off

  function ReportText(rep: InputReport): string
  {
    match rep
    case Locked => StyleText("LOCK", DefaultSize, false, "green") + "<br>"
    case NoSignal => "No signal<br>"
    case Signal => "Signal<br>"
    case Off => "off<br>"
  }

  /** The four reports read differently. */
  lemma ReportTextInjective(a: InputReport, b: InputReport)
    ensures ReportText(a) == ReportText(b) ==> a == b
  {
  }

  /**
   * The report for input `2 * ch`, tested in the order `printLocked` tests:
   * locked to this input, loss of signal, input enabled, otherwise off.
   */
  function InputReportOf(conf: Configuration, lol: bool, locked: int, los: seq<bool>, ch: nat): InputReport
    requires ch < 2 && |los| == 4 && |conf.inputs| >= 2
  {
    if locked == 2 * ch && !lol then Locked
    else if los[2 * ch] then NoSignal
    else if conf.inputs[ch].enabled then Signal
    else Off
  }

  /** The line `In{2 * ch}: ...` of one input. */
  function InputLine(conf: Configuration, lol: bool, locked: int, los: seq<bool>, ch: nat): string
    requires ch < 2 && |los| == 4 && |conf.inputs| >= 2
  {
    "In" + NatToString(2 * ch) + ": " + ReportText(InputReportOf(conf, lol, locked, los, ch))
  }

  /** The headline: NO LOCK in red or LOCKED in green, bold in 30 px. */
  function LockHeader(lol: bool): (r: string)
    ensures |r| >= 3 && r[..3] == "<b>"
  {
    var h := StyleText(if lol then "NO LOCK" else "LOCKED", 30, true, if lol then "red" else "green");
    assert (h + "<br>")[..3] == h[..3];
    h + "<br>"
  }

  /** The headline says NO LOCK in red when the lock is lost and LOCKED in green otherwise. */
  lemma LockHeaderWords(lol: bool)
    ensures LockHeader(lol) == StyleOpen(30, true, if lol then "red" else "green")
      + (if lol then "NO LOCK" else "LOCKED") + StyleClose(true) + "<br>"
    ensures Contains(LockHeader(lol), if lol then "NO LOCK" else "LOCKED")
  {
    HeadlineWord(if lol then "NO LOCK" else "LOCKED", 30, if lol then "red" else "green");
  }

  /** A one-line bold text followed by `<br>` is the word between the tags, and holds it. */
  lemma {:induction false} HeadlineWord(word: string, size: nat, color: string)
    requires '\n' !in word && '\n' !in color
    ensures StyleText(word, size, true, color) + "<br>" == StyleOpen(size, true, color) + word + StyleClose(true) + "<br>"
    ensures Contains(StyleText(word, size, true, color) + "<br>", word)
  {
    ContainsMiddle(StyleOpen(size, true, color), word, StyleClose(true) + "<br>");
    assert StyleText(word, size, true, color) + "<br>" == StyleOpen(size, true, color) + word + (StyleClose(true) + "<br>");
  }

  /** The headline followed by the lines of inputs 0, 2, ... below 2 * n; it opens in bold. */
  function LockLines(conf: Configuration, lol: bool, locked: int, los: seq<bool>, n: nat): (r: string)
    requires n <= 2 && |los| == 4 && |conf.inputs| >= 2
    ensures |r| >= 3 && r[..3] == "<b>"
  {
    if n == 0 then LockHeader(lol)
    else
      var a, b := LockLines(conf, lol, locked, los, n - 1), InputLine(conf, lol, locked, los, n - 1);
      assert (a + b)[..3] == a[..3];
      a + b
  }

  /**
   * What `printLocked` returns for the lock flag `lol`, the locked input and
   * the loss-of-signal flags. Its two plain messages appear exactly in the
   * situations they name.
   */
  function LockText(conf: Configuration, lol: bool, locked: int, los: seq<bool>): (r: string)
    requires |los| == 4
    requires AnyInputEnabled(conf.inputs) && AnyChannelEnabled(conf.channels) ==> |conf.inputs| >= 2
    ensures r == "No input configured" <==> !AnyInputEnabled(conf.inputs)
    ensures r == "No output configured" <==> AnyInputEnabled(conf.inputs) && !AnyChannelEnabled(conf.channels)
  {
    if !AnyInputEnabled(conf.inputs) then "No input configured"
    else if !AnyChannelEnabled(conf.channels) then "No output configured"
    else
      var r := LockLines(conf, lol, locked, los, 2);
      assert r[0] == '<';
      r
  }

  /**
   * In the lock display at most one input line says LOCK, and none while
   * the PLL has lost lock.
   */
  lemma LockReportsAgree(conf: Configuration, lol: bool, locked: int, los: seq<bool>)
    requires |los| == 4 && |conf.inputs| >= 2
    ensures InputReportOf(conf, lol, locked, los, 0) != Locked || InputReportOf(conf, lol, locked, los, 1) != Locked
    ensures lol ==> InputReportOf(conf, lol, locked, los, 0) != Locked && InputReportOf(conf, lol, locked, los, 1) != Locked
  {
  }

  /** `printLocked(conf, status)`, building the text input by input. */
  method PrintLocked(conf: Configuration, status: Status) returns (text: string)
    requires status.los.Length == 4
    requires AnyInputEnabled(conf.inputs) && AnyChannelEnabled(conf.channels) ==> |conf.inputs| >= 2
    ensures text == LockText(conf, status.lol, status.input, status.los[..])
  {
    if !AnyInputEnabled(conf.inputs) {
      return "No input configured";
    }
    if !AnyChannelEnabled(conf.channels) {
      return "No output configured";
    }
    var los := status.los[..];
    assert LockText(conf, status.lol, status.input, los) == LockLines(conf, status.lol, status.input, los, 2);
    text := LockHeader(status.lol);
    for ch := 0 to 2
      invariant text == LockLines(conf, status.lol, status.input, los, ch)
    {
      text := text + InputLine(conf, status.lol, status.input, los, ch);
    }
  }

  /** `list(SignalVoltage).index(v)`: the position of v among the voltage options. */
  function VoltIndex(v: SignalVoltage): (i: nat)
    ensures i < |VoltOptions| && VoltOptions[i] == v.Value()
  {
    match v
    case V1p8 => 0
    case V2p5 => 1
    case V3p3 => 2
  }

  /** The option lists hold one termination list per voltage, none with a line break. */
  lemma TermOptionsOneLine(v: SignalVoltage, k: nat)
    requires k < |TermOptions[VoltIndex(v)]|
    ensures '\n' !in TermOptions[VoltIndex(v)][k]
  {
  }

  /** What `printFormat` needs: the channel exists, and an LVCMOS channel's termination index is an option of the voltage. */
  predicate FormatPrintable(conf: Configuration, index: nat)
  {
    index < |conf.channels|
    && (conf.channels[index].signal.kind.IsCmos() ==>
          conf.channels[index].signal.impedance < |TermOptions[VoltIndex(conf.vddo)]|)
  }

  /**
   * `printFormat(conf, index)`: the signal standard on the first line; for
   * LVCMOS the voltage and the termination on two more.
   */
  function PrintFormat(conf: Configuration, index: nat): (r: string)
    requires FormatPrintable(conf, index)
    ensures var sig := conf.channels[index].signal;
      !sig.kind.IsCmos() ==> Split(r, '\n') == [sig.kind.Value(), ""]
    ensures var sig := conf.channels[index].signal;
      sig.kind.IsCmos() ==>
        Split(r, '\n') == [sig.kind.Value(), "volt: " + conf.vddo.Value(), "term: " + TermOptions[VoltIndex(conf.vddo)][sig.impedance]]
  {
    var sig := conf.channels[index].signal;
    var kind := sig.kind.Value();
    assert '\n' !in kind;
    if sig.kind.IsCmos() then
      var volt, term := "volt: " + conf.vddo.Value(), "term: " + TermOptions[VoltIndex(conf.vddo)][sig.impedance];
      assert '\n' !in volt;
      TermOptionsOneLine(conf.vddo, sig.impedance);
      SplitThree(kind, volt, term, '\n');
      kind + "\n" + volt + "\n" + term
    else
      SplitTwo(kind, "", '\n');
      kind + "\n"
  }
}
