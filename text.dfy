/**
 * The parts of Python's string handling that the controller relies on:
 * `str.strip`, `str.split`, `in` on strings, `str.replace` of one character,
 * `str(n)` for naturals, `int(s)`, `int(s, 16)` and `float(s)` for plain
 * decimal notation.
 */
module Text {

  import opened Wrappers

  /** The ASCII characters `str.isspace` accepts. */
  predicate IsSpace(c: char)
  {
    c == ' ' || c == '\t' || c == '\n' || c == '\r' || c as int == 11 || c as int == 12
  }

  function TrimLeft(s: string): (r: string)
    ensures |r| <= |s| && r == s[|s| - |r|..]
    ensures r == [] || !IsSpace(r[0])
    ensures forall i :: 0 <= i < |s| - |r| ==> IsSpace(s[i])
  {
    if |s| > 0 && IsSpace(s[0]) then TrimLeft(s[1..]) else s
  }

  function TrimRight(s: string): (r: string)
    ensures |r| <= |s| && r == s[..|r|]
    ensures r == [] || !IsSpace(r[|r| - 1])
    ensures forall i :: |r| <= i < |s| ==> IsSpace(s[i])
  {
    if |s| > 0 && IsSpace(s[|s| - 1]) then TrimRight(s[..|s| - 1]) else s
  }

  /** `s.strip()`: s without its leading and trailing whitespace. */
  function Strip(s: string): string
  {
    TrimRight(TrimLeft(s))
  }

  lemma StripNoSpace(s: string)
    requires forall i :: 0 <= i < |s| ==> !IsSpace(s[i])
    ensures Strip(s) == s
  {
  }

  /** `sub in s` */
  predicate Contains(s: string, sub: string)
  {
    |sub| <= |s| && (s[..|sub|] == sub || Contains(s[1..], sub))
  }

  /** `c in s` for a single character. */
  lemma {:induction false} ContainsChar(s: string, c: char)
    ensures Contains(s, [c]) <==> c in s
  {
    if |s| > 0 {
      ContainsChar(s[1..], c);
      assert s == [s[0]] + s[1..];
    }
  }

  predicate IsDigit(c: char)
  {
    '0' <= c <= '9'
  }

  predicate AllDigits(s: string)
  {
    forall i :: 0 <= i < |s| ==> IsDigit(s[i])
  }

  predicate IsHexDigit(c: char)
  {
    IsDigit(c) || 'a' <= c <= 'f' || 'A' <= c <= 'F'
  }

  function HexDigitValue(c: char): (r: nat)
    requires IsHexDigit(c)
    ensures r < 16
  {
    if IsDigit(c) then c as int - '0' as int
    else if 'a' <= c <= 'f' then c as int - 'a' as int + 10
    else c as int - 'A' as int + 10
  }

  /** The value of a non-empty digit string in the given base (most significant digit first). */
  function DigitsValue(s: string, base: nat): nat
    requires base == 10 || base == 16
    requires forall i :: 0 <= i < |s| ==> IsHexDigit(s[i]) && HexDigitValue(s[i]) < base
    decreases |s|
  {
    if |s| == 0 then 0
    else DigitsValue(s[..|s| - 1], base) * base + HexDigitValue(s[|s| - 1])
  }

  predicate IsDigitIn(c: char, base: nat)
  {
    IsHexDigit(c) && HexDigitValue(c) < base
  }

  /** Python's `int(s, base)` for base 10 and 16: surrounding whitespace, an optional sign,
      for base 16 an optional `0x`/`0X` prefix, then at least one digit. */
  function ParseInteger(s: string, base: nat): (r: Option<int>)
    requires base == 10 || base == 16
  {
    var t := Strip(s);
    if |t| > 0 && t[0] == '-' then
      match ParseUnsigned(t[1..], base)
      case Some(v) => Some(-v)
      case None => None
    else if |t| > 0 && t[0] == '+' then ParseUnsigned(t[1..], base)
    else ParseUnsigned(t, base)
  }

  /** Digits without a sign, for base 16 after an optional `0x`/`0X` prefix. */
  function ParseUnsigned(s: string, base: nat): (r: Option<int>)
    requires base == 10 || base == 16
  {
    var digits :=
      if base == 16 && |s| >= 2 && s[0] == '0' && (s[1] == 'x' || s[1] == 'X') then s[2..] else s;
    if |digits| > 0 && IsDigitStringIn(digits, base) then Some(DigitsValue(digits, base)) else None
  }

  /** `str(n)` for a natural number. */
  function NatToString(n: nat): (r: string)
    ensures |r| > 0 && AllDigits(r)
    ensures forall i :: 0 <= i < |r| ==> IsDigitIn(r[i], 10)
    ensures DigitsValue(r, 10) == n
    ensures r[0] == '0' ==> r == "0"
    decreases n
  {
    var d := ['0' + (n % 10) as char];
    assert HexDigitValue(d[0]) == n % 10;
    if n < 10 then d
    else
      var p := NatToString(n / 10);
      assert (p + d)[..|p + d| - 1] == p;
      p + d
  }

  /** `int(str(n)) == n`. */
  lemma ParseNatToString(n: nat)
    ensures ParseInteger(NatToString(n), 10) == Some(n)
  {
    var s := NatToString(n);
    assert Strip(s) == s by {
      forall i | 0 <= i < |s| ensures !IsSpace(s[i]) {
        assert IsDigit(s[i]);
      }
      StripNoSpace(s);
    }
    assert IsDigit(s[0]);
  }

  /** `s.split(sep)`: the pieces between occurrences of sep. */
  function Split(s: string, sep: char): (r: seq<string>)
    ensures |r| > 0
    ensures forall k :: 0 <= k < |r| ==> sep !in r[k]
    decreases |s|
  {
    if sep in s then
      var i := FirstIndex(s, sep);
      [s[..i]] + Split(s[i + 1..], sep)
    else [s]
  }

  function FirstIndex(s: string, c: char): (i: nat)
    requires c in s
    ensures i < |s| && s[i] == c && c !in s[..i]
  {
    if s[0] == c then 0 else 1 + FirstIndex(s[1..], c)
  }

  /** `sep.join(parts)` */
  function Join(parts: seq<string>, sep: char): string
    requires |parts| > 0
  {
    if |parts| == 1 then parts[0] else parts[0] + [sep] + Join(parts[1..], sep)
  }

  /** Splitting and joining again gives back the string. */
  lemma {:induction false} JoinSplit(s: string, sep: char)
    ensures Join(Split(s, sep), sep) == s
    decreases |s|
  {
    if sep in s {
      var i := FirstIndex(s, sep);
      var rest := s[i + 1..];
      var pieces := Split(s, sep);
      assert pieces == [s[..i]] + Split(rest, sep);
      assert pieces[0] == s[..i] && pieces[1..] == Split(rest, sep);
      JoinSplit(rest, sep);
      assert Join(pieces, sep) == s[..i] + [sep] + rest;
      assert s == s[..i] + [sep] + rest;
    }
  }

  /** Joining one piece more appends the separator and the piece. */
  lemma {:induction false} JoinSnoc(parts: seq<string>, p: string, sep: char)
    requires |parts| > 0
    ensures Join(parts + [p], sep) == Join(parts, sep) + [sep] + p
    decreases |parts|
  {
    if |parts| > 1 {
      assert (parts + [p])[1..] == parts[1..] + [p];
      JoinSnoc(parts[1..], p, sep);
    }
  }

  /** Pieces without the separator, joined by it, split back into the same pieces. */
  lemma {:induction false} SplitJoin(parts: seq<string>, sep: char)
    requires |parts| > 0 && forall k :: 0 <= k < |parts| ==> sep !in parts[k]
    ensures Split(Join(parts, sep), sep) == parts
    decreases |parts|
  {
    if |parts| > 1 {
      SplitJoin(parts[1..], sep);
      SplitAfter(parts[0], Join(parts[1..], sep), sep);
    }
  }

  /** `int(" " + str(n))`, as `int` ignores the blank, is n again. */
  lemma ParsePaddedNat(n: nat)
    ensures ParseInteger(" " + NatToString(n), 10) == Some(n)
  {
    var t := NatToString(n);
    assert !IsSpace(t[0]) by {
      assert IsDigit(t[0]);
    }
    StripLeadingBlank(t);
    ParseNatToString(n);
  }

  /** A blank in front of a text that does not start with one is stripped away. */
  lemma StripLeadingBlank(t: string)
    requires |t| > 0 && !IsSpace(t[0])
    ensures Strip(" " + t) == Strip(t)
  {
    var s := " " + t;
    assert s[1..] == t;
    assert TrimLeft(s) == TrimLeft(t);
  }

  /** A separator first found after the piece a splits a off. */
  lemma SplitAfter(a: string, b: string, sep: char)
    requires sep !in a
    ensures Split(a + [sep] + b, sep) == [a] + Split(b, sep)
  {
    var s := a + [sep] + b;
    assert s[|a|] == sep;
    var i := FirstIndex(s, sep);
    assert s[..|a|] == a;
    assert s[|a| + 1..] == b;
  }

  /** Two pieces joined by a separator split back into them. */
  lemma SplitTwo(a: string, b: string, sep: char)
    requires sep !in a && sep !in b
    ensures Split(a + [sep] + b, sep) == [a, b]
  {
    SplitAfter(a, b, sep);
  }

  /** Three pieces joined by separators split back into them. */
  lemma SplitThree(a: string, b: string, c: string, sep: char)
    requires sep !in a && sep !in b && sep !in c
    ensures Split(a + [sep] + b + [sep] + c, sep) == [a, b, c]
  {
    SplitAfter(b, c, sep);
    SplitAfter(a, b + [sep] + c, sep);
    assert a + [sep] + b + [sep] + c == a + [sep] + (b + [sep] + c);
  }

  /** `s.replace(c, with)` for a single character c. */
  function Replace(s: string, c: char, with: string): (r: string)
    ensures c !in with ==> c !in r
    ensures c !in s ==> r == s
  {
    if |s| == 0 then ""
    else (if s[0] == c then with else [s[0]]) + Replace(s[1..], c, with)
  }

  /** `sep.join(parts)` for a separator of any length. */
  function JoinWith(parts: seq<string>, sep: string): string
    requires |parts| > 0
  {
    if |parts| == 1 then parts[0] else parts[0] + sep + JoinWith(parts[1..], sep)
  }

  /** Replacing every c by `with` is splitting at c and joining with `with`:
      `s.replace(c, w) == w.join(s.split(c))`. */
  lemma {:induction false} ReplaceSplit(s: string, c: char, with: string)
    ensures Replace(s, c, with) == JoinWith(Split(s, c), with)
    decreases |s|
  {
    if c in s {
      ReplaceSplit(s[1..], c, with);
      if s[0] == c {
        assert FirstIndex(s, c) == 0;
        assert s[..0] == "";
      } else {
        SplitCons(s, c);
        JoinWithCons([s[0]], Split(s[1..], c), with);
      }
    }
  }

  /** A first character other than the separator joins the first piece. */
  lemma SplitCons(s: string, c: char)
    requires |s| > 0 && s[0] != c
    ensures var t := Split(s[1..], c); Split(s, c) == [[s[0]] + t[0]] + t[1..]
  {
    var tail := s[1..];
    if c in s {
      var i := FirstIndex(s, c);
      var j := FirstIndex(tail, c);
      assert i == j + 1;
      var rest := Split(s[i + 1..], c);
      assert tail[j + 1..] == s[i + 1..];
      assert Split(tail, c) == [tail[..j]] + rest;
      assert s[..i] == [s[0]] + tail[..j];
      assert Split(s, c) == [s[..i]] + rest;
    } else {
      assert c !in tail;
      assert s == [s[0]] + tail;
    }
  }

  /** Text in front of the first piece comes out in front of the join. */
  lemma JoinWithCons(x: string, parts: seq<string>, sep: string)
    requires |parts| > 0
    ensures JoinWith([x + parts[0]] + parts[1..], sep) == x + JoinWith(parts, sep)
  {
    var q := [x + parts[0]] + parts[1..];
    assert q[1..] == parts[1..];
  }

  /** A string occurs in any string that has it in the middle. */
  lemma {:induction false} ContainsMiddle(a: string, sub: string, b: string)
    ensures Contains(a + sub + b, sub)
    decreases |a|
  {
    if |a| == 0 {
      assert (a + sub + b)[..|sub|] == sub;
    } else {
      ContainsMiddle(a[1..], sub, b);
      assert (a + sub + b)[1..] == a[1..] + sub + b;
    }
  }

  /** Python's `float(s)` for decimal notation: surrounding whitespace, digits with at most one
      decimal point, at least one digit. */
  function ParseDecimal(s: string): Option<real>
  {
    DecimalValue(Strip(s))
  }

  /** The value of a decimal numeral that has no surrounding whitespace. */
  function DecimalValue(t: string): Option<real>
  {
    if '.' in t then
      var i := FirstIndex(t, '.');
      var whole, frac := t[..i], t[i + 1..];
      if (|whole| > 0 || |frac| > 0) && IsDigitString(whole) && IsDigitString(frac) then
        Some(DigitsValue(whole, 10) as real + DigitsValue(frac, 10) as real / Pow10(|frac|) as real)
      else None
    else if |t| > 0 && IsDigitString(t) then Some(DigitsValue(t, 10) as real)
    else None
  }

  predicate IsDigitString(s: string)
  {
    IsDigitStringIn(s, 10)
  }

  predicate IsDigitStringIn(s: string, base: nat)
  {
    forall i :: 0 <= i < |s| ==> IsDigitIn(s[i], base)
  }

  function Pow10(n: nat): (r: nat)
    ensures r >= 1
  {
    if n == 0 then 1 else 10 * Pow10(n - 1)
  }
}
