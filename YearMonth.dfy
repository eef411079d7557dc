/** The "year.month" texts both timelines use for dates ("1995.8" is
    August 1995, "2010.10" October 2010), JavaScript's `Number.parseFloat`
    on such texts, and the English month names. Numbers are exact rationals
    here, not binary floating point. */
module YearMonth {
  import opened Wrappers
  import opened Text

  const MonthNames: seq<string> := [
    "January", "February", "March", "April", "May", "June",
    "July", "August", "September", "October", "November", "December"]

  /** `year.toString()`, "NaN" for `NaN`. */
  function YearText(year: Option<int>): string {
    match year
    case None => "NaN"
    case Some(y) => IntToString(y)
  }

  function Pow10(n: nat): (r: nat)
    ensures r >= 1
  {
    if n == 0 then 1 else 10 * Pow10(n - 1)
  }

  /** A run of digits is worth less than ten to the power of its length. */
  lemma {:induction false} DigitsBelowPow10(s: string)
    requires AllDigits(s)
    ensures DigitsValue(s) < Pow10(|s|)
  {
    if s != [] {
      DigitsBelowPow10(s[..|s| - 1]);
    }
  }

  /** Unsigned decimal text at the front of `u`: digits, then optionally a
      point and more digits; `None` when there is no digit at all. */
  function DecimalPrefix(u: string): (r: Option<real>)
    ensures r.Some? ==> r.value >= 0.0
  {
    var whole := LeadingDigits(u);
    var rest := u[|whole|..];
    var fraction := if rest != [] && rest[0] == '.' then LeadingDigits(rest[1..]) else "";
    if whole == [] && fraction == [] then None
    else Some(DecimalValue(whole, fraction))
  }

  /** The value of `whole.fraction`. */
  function DecimalValue(whole: string, fraction: string): (r: real)
    requires AllDigits(whole) && AllDigits(fraction)
    ensures r >= 0.0
  {
    DigitsValue(whole) as real + DigitsValue(fraction) as real / Pow10(|fraction|) as real
  }

  /** JavaScript `Number.parseFloat` on decimal text: leading whitespace,
      an optional sign, then what `DecimalPrefix` reads; whatever follows is
      ignored; `None` is NaN. Exponents and "Infinity" are not read. */
  function JsParseFloat(s: string): (r: Option<real>)
    ensures s != [] && IsDigit(s[0]) ==> r == DecimalPrefix(s)
  {
    var t := StripLeft(s);
    assert s != [] && IsDigit(s[0]) ==> t == s;
    var negative := t != [] && t[0] == '-';
    var u := if t != [] && (t[0] == '-' || t[0] == '+') then t[1..] else t;
    match DecimalPrefix(u)
    case None => None
    case Some(v) => Some(if negative then -v else v)
  }

  /** The digits at the front of `w + rest` are `w` when `rest` does not
      start with a digit. */
  lemma {:induction false} LeadingDigitsStop(w: string, rest: string)
    requires AllDigits(w)
    requires rest == [] || !IsDigit(rest[0])
    ensures LeadingDigits(w + rest) == w
  {
    if w != [] {
      assert (w + rest)[1..] == w[1..] + rest;
      LeadingDigitsStop(w[1..], rest);
    }
  }

  /** The pieces `DecimalPrefix` finds in digits, a point and digits. */
  lemma DecimalPieces(w: string, f: string)
    requires AllDigits(w) && AllDigits(f)
    ensures LeadingDigits(w + "." + f) == w
    ensures (w + "." + f)[|w|..] == "." + f
    ensures LeadingDigits(("." + f)[1..]) == f
  {
    assert w + "." + f == w + ("." + f);
    LeadingDigitsStop(w, "." + f);
    assert ("." + f)[1..] == f;
    AllDigitsLeadingDigits(f);
  }

  /** `DecimalPrefix` on digits, a point and digits. */
  lemma DecimalPrefixOfDecimal(w: string, f: string)
    requires AllDigits(w) && AllDigits(f) && (w != [] || f != [])
    ensures DecimalPrefix(w + "." + f) == Some(DecimalValue(w, f))
  {
    DecimalPieces(w, f);
    var rest := (w + "." + f)[|w|..];
    assert rest != [] && rest[0] == '.';
  }

  /** Digits then a point then digits read as the whole part plus the
      fraction. */
  lemma ParseFloatOfDecimal(w: string, f: string)
    requires w != [] && AllDigits(w) && AllDigits(f)
    ensures JsParseFloat(w + "." + f) == Some(DecimalValue(w, f))
  {
    var s := w + "." + f;
    assert s != [] && IsDigit(s[0]);
    DecimalPrefixOfDecimal(w, f);
  }

  /** `DecimalPrefix` on digits alone. */
  lemma DecimalPrefixOfDigits(w: string)
    requires w != [] && AllDigits(w)
    ensures DecimalPrefix(w) == Some(DigitsValue(w) as real)
  {
    AllDigitsLeadingDigits(w);
    assert w[|w|..] == [];
    assert DecimalValue(w, "") == DigitsValue(w) as real by {
      assert Pow10(0) == 1 && DigitsValue("") == 0;
    }
  }

  /** Digits alone read as their value. */
  lemma ParseFloatOfDigits(w: string)
    requires w != [] && AllDigits(w)
    ensures JsParseFloat(w) == Some(DigitsValue(w) as real)
  {
    assert IsDigit(w[0]);
    DecimalPrefixOfDigits(w);
  }

  /** `s.split(".")[0]`. */
  function YearPart(s: string): string {
    Split(s, '.')[0]
  }

  /** `s.split(".")[1]`, empty (falsy) when there is no point. */
  function MonthPart(s: string): string {
    var parts := Split(s, '.');
    if |parts| > 1 then parts[1] else ""
  }

  /** The parts of "year.month". */
  lemma SplitYearMonth(y: string, m: string)
    requires '.' !in y && '.' !in m
    ensures YearPart(y + "." + m) == y && MonthPart(y + "." + m) == m
  {
    SplitAtFirst(y, m, '.');
    SplitWithoutSeparator(m, '.');
  }

  /** A text without a point is all year. */
  lemma SplitYearOnly(y: string)
    requires '.' !in y
    ensures YearPart(y) == y && MonthPart(y) == ""
  {
    SplitWithoutSeparator(y, '.');
  }

  /** A digit text has no point. */
  lemma DigitsHaveNoPoint(s: string)
    requires AllDigits(s)
    ensures '.' !in s
  {
    DigitsLackChar(s, '.');
  }

  /** The parts of "year.month" when both are digits. */
  lemma DigitParts(y: string, m: string)
    requires AllDigits(y) && AllDigits(m)
    ensures YearPart(y + "." + m) == y && MonthPart(y + "." + m) == m
  {
    DigitsHaveNoPoint(y);
    DigitsHaveNoPoint(m);
    SplitYearMonth(y, m);
  }

  /** `parseInt` reads a run of digits as its value. */
  lemma DigitsParse(s: string)
    requires s != [] && AllDigits(s)
    ensures JsParseInt(s) == Some(DigitsValue(s))
  {
    assert IsDigit(s[0]);
  }

  // ---------------------------------------------------------------------------
  // Two decimals
  // ---------------------------------------------------------------------------

  /** A whole part and a count of hundredths as decimal text with two
      places. */
  function HundredthsText(whole: nat, cents: nat): string
    requires cents < 100
  {
    NatToString(whole) + "." + Pad2(cents)
  }

  function Abs(x: real): (r: real)
    ensures r >= 0.0 && (r == x || r == -x)
  {
    if x < 0.0 then -x else x
  }

  /** The nearest count of hundredths, the larger on a tie. */
  function RoundHundredths(a: real): (n: nat)
    requires a >= 0.0
    ensures a - 0.005 <= n as real / 100.0 <= a + 0.005
  {
    (a * 100.0 + 0.5).Floor
  }

  /** `x.toFixed(2)`: the nearest hundredth, with a leading "-" for a
      negative `x`. */
  function ToFixed2(x: real): (r: string)
    ensures r != []
  {
    var n := RoundHundredths(Abs(x));
    (if x < 0.0 then "-" else "") + HundredthsText(n / 100, n % 100)
  }

  /** The digits of `HundredthsText` are worth the whole part plus the
      hundredths. */
  lemma HundredthsValue(whole: nat, cents: nat)
    requires cents < 100
    ensures DecimalValue(NatToString(whole), Pad2(cents)) == whole as real + cents as real / 100.0
  {
    DigitsValueOfNatToString(whole);
    Pad2Value(cents);
    assert Pow10(2) == 100;
  }

  /** `x.toFixed(2)` is a sign for a negative `x`, then whole digits, a
      point and two digits whose value is within half a hundredth of `|x|`. */
  lemma ToFixed2Nearest(x: real)
    ensures ToFixed2(x)[0] == '-' <==> x < 0.0
    ensures exists w: string, f: string | w != [] && AllDigits(w) && |f| == 2 && AllDigits(f) ::
      && ToFixed2(x) == (if x < 0.0 then "-" else "") + (w + "." + f)
      && Abs(x) - 0.005 <= DecimalValue(w, f) <= Abs(x) + 0.005
  {
    var whole, cents := FixedDigits(x);
    var w, f := NatToString(whole), Pad2(cents);
    HundredthsValue(whole, cents);
    assert HundredthsText(whole, cents) == w + "." + f;
    assert IsDigit(w[0]);
  }

  /** The whole part and hundredths `ToFixed2` writes. */
  lemma FixedDigits(x: real) returns (whole: nat, cents: nat)
    ensures cents < 100
    ensures ToFixed2(x) == (if x < 0.0 then "-" else "") + HundredthsText(whole, cents)
    ensures Abs(x) - 0.005 <= whole as real + cents as real / 100.0 <= Abs(x) + 0.005
  {
    var n := RoundHundredths(Abs(x));
    whole, cents := n / 100, n % 100;
    assert whole * 100 + cents == n;
    assert whole as real + cents as real / 100.0 == n as real / 100.0;
  }
}
