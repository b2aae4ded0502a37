/**
 * JavaScript's `parseInt(string)` with no radix, as the feedback guild
 * selection uses it: leading white space is skipped, a sign is read, a
 * `0x`/`0X` prefix switches to base 16, and the longest run of digits
 * that follows is the value.  `None` stands for `NaN`.
 */
module JsParseInt {
  import opened Wrappers
  import Text

  function DigitValue(c: char, base: nat): (v: Option<nat>)
    requires base == 10 || base == 16
    ensures v.Some? ==> v.value < base
  {
    if '0' <= c <= '9' then Some(c as int - '0' as int)
    else if base == 16 && 'a' <= c <= 'f' then Some(c as int - 'a' as int + 10)
    else if base == 16 && 'A' <= c <= 'F' then Some(c as int - 'A' as int + 10)
    else None
  }

  /** The longest prefix of `s` made of digits of `base`. */
  function LeadingDigits(s: string, base: nat): (r: string)
    requires base == 10 || base == 16
    ensures Text.StartsWith(s, r)
    ensures forall i | 0 <= i < |r| :: DigitValue(r[i], base).Some?
    ensures |r| < |s| ==> DigitValue(s[|r|], base).None?
  {
    if s == [] || DigitValue(s[0], base).None? then []
    else
      var rest := LeadingDigits(s[1..], base);
      assert s[1..][..|rest|] == rest;
      [s[0]] + rest
  }

  /** The value of a run of digits, most significant first. */
  function Value(ds: string, base: nat): nat
    requires base == 10 || base == 16
    requires forall i | 0 <= i < |ds| :: DigitValue(ds[i], base).Some?
  {
    if ds == [] then 0 else Value(ds[..|ds| - 1], base) * base + DigitValue(ds[|ds| - 1], base).value
  }

  /** The digits after the sign: base 16 behind `0x` or `0X`, base 10 otherwise. */
  function ParseUnsigned(u: string): (r: Option<nat>)
  {
    var hex := Text.StartsWith(u, "0x") || Text.StartsWith(u, "0X");
    var base := if hex then 16 else 10;
    var ds := LeadingDigits(if hex then u[2..] else u, base);
    if ds == [] then None else Some(Value(ds, base))
  }

  /** `parseInt(s)`. */
  function ParseInt(s: string): (r: Option<int>)
  {
    ParseSigned(Text.TrimStart(s))
  }

  /** The sign, then the digits. */
  function ParseSigned(t: string): (r: Option<int>)
  {
    if Text.StartsWith(t, "-") then
      match ParseUnsigned(t[1..])
      case None => None
      case Some(v) => Some(-(v as int))
    else if Text.StartsWith(t, "+") then
      match ParseUnsigned(t[1..])
      case None => None
      case Some(v) => Some(v as int)
    else
      match ParseUnsigned(t)
      case None => None
      case Some(v) => Some(v as int)
  }

  function DecimalDigit(d: nat): (c: char)
    requires d < 10
    ensures DigitValue(c, 10) == Some(d)
  {
    ('0' as int + d) as char
  }

  /** The decimal numeral of `n`, as `String(n)` writes it. */
  function Numeral(n: nat): (r: string)
    ensures r != [] && forall i | 0 <= i < |r| :: DigitValue(r[i], 10).Some?
    ensures n > 0 ==> r[0] != '0'
  {
    if n < 10 then [DecimalDigit(n)] else Numeral(n / 10) + [DecimalDigit(n % 10)]
  }

  lemma {:induction false} NumeralValue(n: nat)
    ensures Value(Numeral(n), 10) == n
  {
    if n >= 10 {
      NumeralValue(n / 10);
      assert Numeral(n)[..|Numeral(n)| - 1] == Numeral(n / 10);
    }
  }

  lemma {:induction false} LeadingDigitsOfDigits(ds: string, rest: string, base: nat)
    requires base == 10 || base == 16
    requires forall i | 0 <= i < |ds| :: DigitValue(ds[i], base).Some?
    requires rest == [] || DigitValue(rest[0], base).None?
    ensures LeadingDigits(ds + rest, base) == ds
  {
    if ds != [] {
      assert (ds + rest)[1..] == ds[1..] + rest;
      LeadingDigitsOfDigits(ds[1..], rest, base);
    } else {
      assert ds + rest == rest;
    }
  }

  /** What may follow a numeral without changing what it reads as. */
  predicate Ends(rest: string) {
    rest == [] || (DigitValue(rest[0], 10).None? && rest[0] != 'x' && rest[0] != 'X')
  }

  lemma {:induction false} NumeralNotHex(n: nat, rest: string)
    requires Ends(rest)
    ensures !Text.StartsWith(Numeral(n) + rest, "0x") && !Text.StartsWith(Numeral(n) + rest, "0X")
  {
    var u := Numeral(n) + rest;
    if |u| >= 2 {
      if |Numeral(n)| == 1 {
        assert u[1] == rest[0];
      } else {
        assert u[1] == Numeral(n)[1];
        assert DigitValue(u[1], 10).Some?;
      }
    }
  }

  /** A numeral followed by a non-digit reads as its number. */
  lemma {:induction false} ParseUnsignedNumeral(n: nat, rest: string)
    requires Ends(rest)
    ensures ParseUnsigned(Numeral(n) + rest) == Some(n)
  {
    NumeralNotHex(n, rest);
    LeadingDigitsOfDigits(Numeral(n), rest, 10);
    NumeralValue(n);
  }

  /** Leading white space is skipped. */
  lemma {:induction false} ParseIntAfterWhitespace(w: string, t: string)
    requires Text.AllWhitespace(w)
    ensures ParseInt(w + t) == ParseInt(t)
  {
    Text.TrimStartOfWhitespacePrefix(w, t);
  }

  /** A minus sign negates, and text that starts with a digit has no sign. */
  lemma {:induction false} ParseIntOfSign(u: string, v: nat)
    requires u != [] && DigitValue(u[0], 10).Some? && ParseUnsigned(u) == Some(v)
    ensures ParseInt(u) == Some(v as int)
    ensures ParseInt("-" + u) == Some(-(v as int))
  {
    TrimStartOfNonWhitespace(u);
    TrimStartOfNonWhitespace("-" + u);
    assert ("-" + u)[1..] == u;
    assert !Text.StartsWith(u, "-") && !Text.StartsWith(u, "+");
  }

  /** White space, an optional minus sign, then digits. */
  lemma {:induction false} ParseIntSigned(w: string, negative: bool, u: string, v: nat)
    requires Text.AllWhitespace(w)
    requires u != [] && DigitValue(u[0], 10).Some? && ParseUnsigned(u) == Some(v)
    ensures ParseInt(w + (if negative then "-" else "") + u) == Some(if negative then -(v as int) else v as int)
  {
    var sign := if negative then "-" else "";
    assert w + sign + u == w + (sign + u);
    ParseIntAfterWhitespace(w, sign + u);
    ParseIntOfSign(u, v);
    if negative {
      assert sign + u == "-" + u;
    } else {
      assert sign + u == u;
    }
  }

  /**
   * A numeral, with an optional minus sign, white space in front and
   * anything behind that is neither a digit nor an `x`, parses to its
   * number.
   */
  lemma {:induction false} ParseNumeral(w: string, n: nat, negative: bool, rest: string)
    requires Text.AllWhitespace(w)
    requires Ends(rest)
    ensures ParseInt(w + (if negative then "-" else "") + Numeral(n) + rest) == Some(if negative then -(n as int) else n as int)
  {
    var u := Numeral(n) + rest;
    var sign := if negative then "-" else "";
    ParseUnsignedNumeral(n, rest);
    assert DigitValue(u[0], 10).Some? by {
      assert u[0] == Numeral(n)[0];
    }
    ParseIntSigned(w, negative, u, n);
    assert w + sign + Numeral(n) + rest == w + sign + u;
  }

  lemma TrimStartOfNonWhitespace(t: string)
    requires t != [] && !Text.IsWhitespace(t[0])
    ensures Text.TrimStart(t) == t
  {
  }
}
