/**
 * The logic of the frequency keypad dialog (dialog/FreqPicker.py): digits, a decimal point
 * and delete edit the displayed text, the text's value is the entered frequency, a unit
 * button scales it, and "Ok" hands it on only inside the dialog's bounds.
 */
module FreqPicker {

  import opened Wrappers
  import opened Text
  import opened Constants

  /** The number of blanks a text starts with. */
  function Lead(t: string): (n: nat)
    ensures n <= |t|
  {
    if |t| > 0 && IsSpace(t[0]) then 1 + Lead(t[1..]) else 0
  }

  /** The number of decimal points in a text. */
  function Points(t: string): nat
  {
    if |t| == 0 then 0 else (if t[0] == '.' then 1 else 0) + Points(t[1..])
  }

  /** The texts the dialog shows: blanks in front, as in the right-aligned field `printFreq`
      fills, then a body of digits with at most one decimal point that starts with a digit. */
  predicate KeypadText(t: string)
  {
    (forall i :: 0 <= i < |t| ==> if i < Lead(t) then IsSpace(t[i]) else IsDigit(t[i]) || t[i] == '.')
    && Points(t) <= 1
    && (Lead(t) < |t| ==> IsDigit(t[Lead(t)]))
  }

  /** The body of a keypad text, which is what is left once its blanks are stripped. */
  predicate KeypadCore(w: string)
  {
    (forall i :: 0 <= i < |w| ==> IsDigit(w[i]) || w[i] == '.')
    && Points(w) <= 1
    && (|w| > 0 ==> IsDigit(w[0]))
  }

  predicate AllBlank(p: string)
  {
    forall i :: 0 <= i < |p| ==> IsSpace(p[i])
  }

  lemma {:induction false} PointsAppend(a: string, b: string)
    ensures Points(a + b) == Points(a) + Points(b)
    decreases |a|
  {
    if |a| == 0 {
      assert a + b == b;
    } else {
      assert (a + b)[1..] == a[1..] + b;
      PointsAppend(a[1..], b);
    }
  }

  lemma {:induction false} NoPoints(s: string)
    ensures Points(s) == 0 <==> '.' !in s
    decreases |s|
  {
    if |s| > 0 {
      NoPoints(s[1..]);
      assert s == [s[0]] + s[1..];
    }
  }

  /** Blanks are not points, so stripping them keeps the count. */
  lemma {:induction false} PointsTrimLeft(t: string)
    ensures Points(TrimLeft(t)) == Points(t)
    decreases |t|
  {
    if |t| > 0 && IsSpace(t[0]) {
      PointsTrimLeft(t[1..]);
    }
  }

  /** Blanks in front of a text that starts with no blank are what `TrimLeft` removes. */
  lemma {:induction false} BlanksThen(p: string, x: string)
    requires AllBlank(p) && (|x| > 0 ==> !IsSpace(x[0]))
    ensures TrimLeft(p + x) == x
    decreases |p|
  {
    if |p| > 0 {
      assert (p + x)[1..] == p[1..] + x;
      BlanksThen(p[1..], x);
    } else {
      assert p + x == x;
    }
  }

  /** Text after the first non-blank is kept by `TrimLeft`. */
  lemma {:induction false} TrimLeftAppend(s: string, x: string)
    requires |TrimLeft(s)| > 0 || |x| == 0 || !IsSpace(x[0])
    ensures TrimLeft(s + x) == TrimLeft(s) + x
    decreases |s|
  {
    if |s| > 0 && IsSpace(s[0]) {
      assert (s + x)[1..] == s[1..] + x;
      TrimLeftAppend(s[1..], x);
    } else if |s| == 0 {
      assert s + x == x;
    }
  }

  /** Appending text that starts with no blank keeps the count of leading blanks, unless the
      text was blank to begin with. */
  lemma {:induction false} LeadAppend(t: string, x: string)
    requires Lead(t) < |t| || |x| == 0 || !IsSpace(x[0])
    ensures Lead(t + x) == Lead(t)
    decreases |t|
  {
    if |t| > 0 && IsSpace(t[0]) {
      assert (t + x)[1..] == t[1..] + x;
      LeadAppend(t[1..], x);
    } else if |t| == 0 {
      assert t + x == x;
    } else {
      assert (t + x)[0] == t[0];
    }
  }

  lemma {:induction false} BlanksLead(p: string, x: string)
    requires AllBlank(p) && (|x| > 0 ==> !IsSpace(x[0]))
    ensures Lead(p + x) == |p|
    decreases |p|
  {
    if |p| > 0 {
      assert (p + x)[1..] == p[1..] + x;
      BlanksLead(p[1..], x);
    } else {
      assert p + x == x;
    }
  }

  /** `TrimLeft` removes exactly the leading blanks. */
  lemma {:induction false} TrimLeftLead(t: string)
    ensures |TrimLeft(t)| == |t| - Lead(t)
    decreases |t|
  {
    if |t| > 0 && IsSpace(t[0]) {
      TrimLeftLead(t[1..]);
    }
  }

  lemma TrimRightNoBlank(v: string)
    requires forall i :: 0 <= i < |v| ==> !IsSpace(v[i])
    ensures TrimRight(v) == v
  {
    if |v| > 0 {
      assert !IsSpace(v[|v| - 1]);
    }
  }

  /** A non-empty keypad body is a decimal numeral. */
  lemma CoreParses(w: string)
    requires KeypadCore(w)
    ensures |w| > 0 ==> DecimalValue(w).Some?
  {
    if |w| > 0 && '.' in w {
      var i := FirstIndex(w, '.');
      var head, frac := w[..i + 1], w[i + 1..];
      assert w == head + frac;
      PointsAppend(head, frac);
      assert head == w[..i] + ['.'];
      PointsAppend(w[..i], ['.']);
      NoPoints(w[..i]);
      NoPoints(frac);
      forall k | 0 <= k < |frac| ensures IsDigitIn(frac[k], 10) {
        assert frac[k] == w[i + 1 + k];
      }
      forall k | 0 <= k < i ensures IsDigitIn(w[..i][k], 10) {
        assert w[..i][k] == w[k];
      }
    } else if |w| > 0 {
      forall k | 0 <= k < |w| ensures IsDigitIn(w[k], 10) {
        assert w[k] != '.';
      }
    }
  }

  /** Stripping a keypad text removes just its leading blanks and leaves its body, and a text
      with a non-blank body is a decimal number `float` accepts. */
  lemma KeypadParses(t: string)
    requires KeypadText(t)
    ensures Strip(t) == TrimLeft(t) && |Strip(t)| == |t| - Lead(t) && KeypadCore(Strip(t))
    ensures |Strip(t)| > 0 ==> ParseDecimal(t).Some?
  {
    var n := Lead(t);
    var w := TrimLeft(t);
    TrimLeftLead(t);
    PointsTrimLeft(t);
    forall i | 0 <= i < |w| ensures (IsDigit(w[i]) || w[i] == '.') && !IsSpace(w[i]) {
      assert w[i] == t[n + i];
    }
    TrimRightNoBlank(w);
    CoreParses(w);
  }

  /** `float(text)` of a keypad text, 0.0 for a blank one (`updateFreq`). */
  function TextValue(t: string): (r: real)
    requires KeypadText(t)
  {
    KeypadParses(t);
    if |Strip(t)| > 0 then ParseDecimal(t).value else 0.0
  }

  /** The number a keypad body denotes, 0.0 for an empty one. */
  function CoreValue(w: string): real
    requires KeypadCore(w)
  {
    CoreParses(w);
    if |w| > 0 then DecimalValue(w).value else 0.0
  }

  /** The value of a keypad text is that of its stripped body. */
  lemma BodyValue(t: string)
    requires KeypadText(t)
    ensures KeypadCore(Strip(t)) && TextValue(t) == CoreValue(Strip(t))
  {
    KeypadParses(t);
  }

  /** Leading blanks change neither that a text is a keypad text nor its value: "   20.0"
      reads as "20.0". */
  lemma PaddedValue(p: string, w: string)
    requires AllBlank(p) && KeypadCore(w)
    ensures KeypadText(p + w) && TextValue(p + w) == CoreValue(w)
  {
    var u := p + w;
    BlanksLead(p, w);
    BlanksThen(p, w);
    PointsAppend(p, w);
    NoPoints(p);
    forall i | 0 <= i < |u| ensures if i < |p| then IsSpace(u[i]) else IsDigit(u[i]) || u[i] == '.' {
      if i >= |p| { assert u[i] == w[i - |p|]; }
    }
    BodyValue(u);
  }

  /** A whole number has a whole body. */
  lemma NoPointBody(t: string)
    requires KeypadText(t) && '.' !in t
    ensures '.' !in Strip(t)
  {
    KeypadParses(t);
    PointsTrimLeft(t);
    NoPoints(t);
    NoPoints(Strip(t));
  }

  /** Appending text that starts with no blank to a keypad text appends it to the body. */
  lemma StripAppend(t: string, x: string)
    requires KeypadText(t) && KeypadText(t + x) && (|x| > 0 ==> !IsSpace(x[0]))
    ensures Strip(t + x) == Strip(t) + x
  {
    KeypadParses(t);
    KeypadParses(t + x);
    TrimLeftAppend(t, x);
  }

  /** A digit typed after any keypad text leaves one. */
  lemma AppendDigit(t: string, c: char)
    requires KeypadText(t) && IsDigit(c)
    ensures KeypadText(t + [c])
  {
    var u := t + [c];
    LeadAppend(t, [c]);
    PointsAppend(t, [c]);
    forall i | 0 <= i < |u| ensures if i < Lead(u) then IsSpace(u[i]) else IsDigit(u[i]) || u[i] == '.' {
      if i < |t| { assert u[i] == t[i]; }
    }
    if Lead(u) < |t| {
      assert u[Lead(u)] == t[Lead(t)];
    }
  }

  /** Typing a digit after a whole number, or after blanks only, multiplies the value by ten
      and adds the digit. */
  lemma AppendDigitValue(t: string, d: nat)
    requires KeypadText(t) && '.' !in t && d < 10
    ensures KeypadText(t + ['0' + d as char])
    ensures TextValue(t + ['0' + d as char]) == 10.0 * TextValue(t) + d as real
  {
    var c := '0' + d as char;
    AppendDigit(t, c);
    StripAppend(t, [c]);
    KeypadParses(t);
    var w := Strip(t);
    NoPointBody(t);
    CoreAppendDigit(w, c, d);
    BodyValue(t);
    BodyValue(t + [c]);
  }

  lemma CoreAppendDigit(w: string, c: char, d: nat)
    requires KeypadCore(w) && '.' !in w && d < 10 && c == '0' + d as char
    ensures KeypadCore(w + [c]) && CoreValue(w + [c]) == 10.0 * CoreValue(w) + d as real
  {
    var u := w + [c];
    assert u[..|u| - 1] == w;
    PointsAppend(w, [c]);
    assert KeypadCore(u) by {
      forall i | 0 <= i < |u| ensures IsDigit(u[i]) {
        if i < |w| { assert u[i] == w[i] && w[i] != '.'; }
      }
    }
    assert '.' !in u;
    forall k | 0 <= k < |u| ensures IsDigitIn(u[k], 10) {
      assert u[k] != '.';
    }
    forall k | 0 <= k < |w| ensures IsDigitIn(w[k], 10) {
      assert w[k] != '.';
    }
    assert HexDigitValue(c) == d;
    assert DecimalValue(u) == Some(DigitsValue(u, 10) as real);
    assert DigitsValue(u, 10) == DigitsValue(w, 10) * 10 + d;
    if |w| > 0 {
      assert DecimalValue(w) == Some(DigitsValue(w, 10) as real);
    }
  }

  /** A digit key on a keypad text: "0" is replaced by the digit and any other text gets the
      digit appended; in a whole number the value becomes ten times the old one plus the
      digit. */
  lemma DigitKey(t: string, d: nat)
    requires KeypadText(t) && d < 10
    ensures KeypadText(if t == "0" then ['0' + d as char] else t + ['0' + d as char])
    ensures '.' !in t ==>
      TextValue(if t == "0" then ['0' + d as char] else t + ['0' + d as char]) == 10.0 * TextValue(t) + d as real
  {
    var c := '0' + d as char;
    if t == "0" {
      AppendDigitValue("", 0);
      AppendDigitValue("", d);
      assert "" + ['0'] == "0" && "" + [c] == [c];
    } else {
      AppendDigit(t, c);
      if '.' !in t {
        AppendDigitValue(t, d);
      }
    }
  }

  lemma CorePointValue(w: string)
    requires KeypadCore(w) && |w| > 0 && '.' !in w
    ensures KeypadCore(w + ".") && CoreValue(w + ".") == CoreValue(w)
  {
    var u := w + ".";
    assert u[..|w|] == w;
    NoPoints(w);
    PointsAppend(w, ".");
    forall i | 0 <= i < |u| ensures IsDigit(u[i]) || u[i] == '.' {
      if i < |w| { assert u[i] == w[i]; }
    }
    assert u[0] == w[0];
    assert u[|w|] == '.';
    assert FirstIndex(u, '.') == |w|;
    assert u[|w| + 1..] == "";
    forall k | 0 <= k < |w| ensures IsDigitIn(w[k], 10) {
      assert w[k] != '.';
    }
  }

  /** A point after a whole number keeps the text a keypad text and its value unchanged:
      "12." reads as 12, blanks in front or not. */
  lemma PointKeepsValue(t: string)
    requires KeypadText(t) && |Strip(t)| > 0 && '.' !in t
    ensures KeypadText(t + ".")
    ensures TextValue(t + ".") == TextValue(t)
  {
    KeypadParses(t);
    var w := Strip(t);
    NoPointBody(t);
    PointText(t);
    StripAppend(t, ".");
    CorePointValue(w);
    BodyValue(t);
    BodyValue(t + ".");
  }

  lemma PointText(t: string)
    requires KeypadText(t) && Lead(t) < |t| && '.' !in t
    ensures KeypadText(t + ".")
  {
    var u := t + ".";
    LeadAppend(t, ".");
    NoPoints(t);
    PointsAppend(t, ".");
    forall i | 0 <= i < |u| ensures if i < Lead(u) then IsSpace(u[i]) else IsDigit(u[i]) || u[i] == '.' {
      if i < |t| { assert u[i] == t[i]; }
    }
    assert u[Lead(u)] == t[Lead(t)];
  }

  /** "0." is a keypad body with value 0. */
  lemma ZeroPoint()
    ensures KeypadCore("0.") && CoreValue("0.") == 0.0
  {
    var z := "0";
    assert Points(z) == 0 by { assert z[..0] == ""; }
    assert KeypadCore(z) && '.' !in z;
    CorePointValue(z);
    assert z + "." == "0.";
    assert DigitsValue(z, 10) == 0 by { assert z[..0] == ""; }
  }

  /** A point on a blank text, empty or not, appends "0.", which reads as 0: "   " becomes
      "   0.". */
  lemma PointOnBlank(t: string)
    requires KeypadText(t) && |Strip(t)| == 0
    ensures KeypadText(t + "0.") && TextValue(t + "0.") == 0.0
  {
    KeypadParses(t);
    var u := t + "0.";
    LeadAppend(t, "0.");
    ZeroPoint();
    NoPoints(t);
    PointsAppend(t, "0.");
    forall i | 0 <= i < |u| ensures if i < Lead(u) then IsSpace(u[i]) else IsDigit(u[i]) || u[i] == '.' {
      if i < |t| { assert u[i] == t[i]; }
    }
    assert u[Lead(u)] == '0';
    assert KeypadText(u);
    StripAppend(t, "0.");
    assert Strip(u) == "0.";
    BodyValue(u);
  }

  /** Removing the last character of a keypad text leaves a keypad text: "   2" becomes "   ",
      which is blank. */
  lemma DropLast(t: string)
    requires KeypadText(t) && |t| > 0
    ensures KeypadText(t[..|t| - 1])
  {
    var s := t[..|t| - 1];
    assert t == s + [t[|t| - 1]];
    PointsAppend(s, [t[|t| - 1]]);
    if Lead(s) < |s| {
      LeadAppend(s, [t[|t| - 1]]);
      assert s[Lead(s)] == t[Lead(t)];
    } else {
      LeadAll(s);
    }
    forall i | 0 <= i < |s| ensures if i < Lead(s) then IsSpace(s[i]) else IsDigit(s[i]) || s[i] == '.' {
      assert s[i] == t[i];
    }
  }

  lemma {:induction false} LeadAll(s: string)
    requires Lead(s) == |s|
    ensures AllBlank(s)
    decreases |s|
  {
    if |s| > 0 {
      LeadAll(s[1..]);
      forall i | 0 < i < |s| ensures IsSpace(s[i]) { assert s[i] == s[1..][i - 1]; }
    }
  }

  /** The value of a text scaled by its unit, as `okClicked` computes it. */
  function Scaled(value: real, unit: string): (r: real)
    ensures unit == KHz ==> r == value * 1000.0
    ensures unit == MHz ==> r == value * 1_000_000.0
    ensures unit != KHz && unit != MHz ==> r == value
  {
    if unit == KHz then value * 1000.0
    else if unit == MHz then value * 1_000_000.0
    else value
  }

  /** The keypad's state: the displayed text, its unit, the frequency last read from the text,
      and the bounds `minMax`; no upper bound is `float("inf")`, the default. */
  class Picker {
    var text: string
    var unit: string
    var frequency: real
    const minF: real
    const maxF: Option<real>

    ghost predicate Valid()
      reads this
    {
      KeypadText(text)
    }

    /** `checkBounds`: the frequency is at least the minimum and at most the maximum. */
    predicate InBounds(f: real)
      reads this
    {
      minF <= f && (maxF.None? || f <= maxF.value)
    }

    /** `FreqPicker(callback, frequency, minMax)`: a zero frequency shows "0" Hz; any other
        shows its formatted value and unit, given as `shown` and `shownUnit`. */
    constructor (initial: real, minF: real, maxF: Option<real>, shown: string, shownUnit: string)
      requires initial != 0.0 ==> KeypadText(shown)
      ensures Valid() && frequency == initial && this.minF == minF && this.maxF == maxF
      ensures text == (if initial == 0.0 then "0" else shown)
      ensures unit == (if initial == 0.0 then Hz else shownUnit)
    {
      frequency := initial;
      this.minF := minF;
      this.maxF := maxF;
      if initial == 0.0 {
        text := "0";
        unit := Hz;
      } else {
        text := shown;
        unit := shownUnit;
      }
    }

    /** `updateFreq`: the frequency becomes the text's value, 0.0 for a blank text. */
    method UpdateFreq()
      requires Valid()
      modifies this`frequency
      ensures frequency == TextValue(text)
      ensures |Strip(text)| > 0 ==> ParseDecimal(text) == Some(frequency)
      ensures |Strip(text)| == 0 ==> frequency == 0.0
    {
      KeypadParses(text);
      if |Strip(text)| > 0 {
        frequency := ParseDecimal(text).value;
      } else {
        frequency := 0.0;
      }
    }

    /** `numberClicked(num)`: the digit replaces a text of exactly "0" and is appended to any
        other; in a whole number the value becomes ten times the old one plus the digit. */
    method NumberClicked(num: nat)
      requires Valid() && num < 10
      modifies this`text, this`frequency
      ensures Valid()
      ensures text == if old(text) == "0" then ['0' + num as char] else old(text) + ['0' + num as char]
      ensures frequency == TextValue(text)
      ensures '.' !in old(text) ==> frequency == 10.0 * TextValue(old(text)) + num as real
    {
      var digit := '0' + num as char;
      DigitKey(text, num);
      if text == "0" {
        text := [digit];
      } else {
        text := text + [digit];
      }
      UpdateFreq();
    }

    /** `pointClicked`: a point is added only when there is none; a blank text gets "0.", any
        other a point that does not change its value. */
    method PointClicked()
      requires Valid()
      modifies this`text, this`frequency
      ensures Valid()
      ensures '.' in old(text) ==> text == old(text)
      ensures '.' !in old(text) ==> text == old(text) + if |Strip(old(text))| == 0 then "0." else "."
      ensures frequency == TextValue(text)
      ensures frequency == TextValue(old(text))
    {
      if '.' !in text {
        if |Strip(text)| == 0 {
          PointOnBlank(text);
          text := text + "0.";
        } else {
          PointKeepsValue(text);
          text := text + ".";
        }
      }
      UpdateFreq();
    }

    /** `deleteClicked`: the last character is removed; an empty text stays as it is. */
    method DeleteClicked()
      requires Valid()
      modifies this`text, this`frequency
      ensures Valid()
      ensures |old(text)| > 0 ==> text == old(text)[..|old(text)| - 1] && frequency == TextValue(text)
      ensures |old(text)| == 0 ==> text == old(text) && frequency == old(frequency)
    {
      if |text| > 0 {
        DropLast(text);
        text := text[..|text| - 1];
        UpdateFreq();
      }
    }

    /** `hertzClicked(hz)`: the unit becomes hz. */
    method HertzClicked(hz: string)
      requires Valid()
      modifies this`unit, this`frequency
      ensures Valid() && unit == hz && frequency == TextValue(text)
    {
      unit := hz;
      UpdateFreq();
    }

    /** `okClicked`: the text's value scaled by the unit is handed to the callback exactly
        when it lies within the bounds. */
    method OkClicked() returns (sent: Option<real>)
      requires Valid()
      modifies this`frequency
      ensures frequency == TextValue(text)
      ensures sent == if InBounds(Scaled(frequency, unit)) then Some(Scaled(frequency, unit)) else None
    {
      UpdateFreq();
      var floatFreq := Scaled(frequency, unit);
      if InBounds(floatFreq) {
        sent := Some(floatFreq);
      } else {
        sent := None;
      }
    }
  }
}
