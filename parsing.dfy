// Python's `float()` on the decimal literals that Prometheus sends, and the literal `NaN`.
module NumberParsing {
  import opened Wrappers
  import opened Strings
  import opened Numbers

  /** A power of ten with an integer exponent. */
  function Scale10(e: int): (r: real)
    ensures r > 0.0
  {
    if e >= 0 then Pow10(e) else 1.0 / Pow10(-e)
  }

  predicate AllDigits(s: string) { forall i :: 0 <= i < |s| ==> IsDigit(s[i]) }

  /** Length of the longest run of digits at the start of `s`. */
  function LeadingDigits(s: string): (k: nat)
    ensures k <= |s| && AllDigits(s[..k])
    ensures k == |s| || !IsDigit(s[k])
  {
    if s != [] && IsDigit(s[0]) then
      var k := 1 + LeadingDigits(s[1..]);
      assert s[..k] == [s[0]] + s[1..][..k - 1];
      k
    else 0
  }

  /** The optional exponent `[eE][+-]?digits` at the end of a literal. */
  function ParseExponent(s: string): (r: Option<int>)
    ensures s == [] ==> r == Some(0)
  {
    if s == [] then Some(0)
    else if s[0] != 'e' && s[0] != 'E' then None
    else
      var t := s[1..];
      var digits := if t != [] && (t[0] == '+' || t[0] == '-') then t[1..] else t;
      if digits != [] && AllDigits(digits) then
        var v: int := DigitsValue(digits);
        Some(if t[0] == '-' then -v else v)
      else None
  }

  /** Splits what follows the integer digits into the fraction digits and the tail. */
  function FractionPart(rest: string): (r: (string, string))
    ensures AllDigits(r.0)
    ensures (rest == [] || rest[0] != '.') ==> r == ([], rest)
  {
    if rest != [] && rest[0] == '.' then
      var after := rest[1..];
      var j := LeadingDigits(after);
      (after[..j], after[j..])
    else ([], rest)
  }

  /** Value of `whole.frac`. */
  function MantissaValue(whole: string, frac: string): (r: real)
    requires AllDigits(whole) && AllDigits(frac)
    ensures r >= 0.0
  {
    assert AllDigits(whole + frac);
    DigitsValue(whole + frac) as real / Pow10(|frac|)
  }

  /** `digits[.digits][exponent]` or `.digits[exponent]`, with no sign. */
  function ParseDecimal(u: string): (r: Option<Num>)
  {
    var i := LeadingDigits(u);
    var parts := FractionPart(u[i..]);
    if i == 0 && parts.0 == [] then None
    else match ParseExponent(parts.1)
      case None => None
      case Some(e) => Some(Fin(MantissaValue(u[..i], parts.0) * Scale10(e)))
  }

  function ParseUnsigned(u: string): (r: Option<Num>)
  {
    var l := ToLower(u);
    if l == "inf" || l == "infinity" then Some(PosInf)
    else if l == "nan" then Some(NaN)
    else ParseDecimal(u)
  }

  /**
   * Python's `float(s)` on a string: surrounding whitespace is ignored, then an
   * optional sign and a decimal literal or `inf`/`infinity`/`nan` in any case.
   * `None` stands for the `ValueError` Python raises.
   */
  function ParseFloat(s: string): (r: Option<Num>)
  {
    var t := Strip(s);
    if t != [] && (t[0] == '+' || t[0] == '-') then
      match ParseUnsigned(t[1..])
      case None => None
      case Some(v) => Some(if t[0] == '-' then Neg(v) else v)
    else ParseUnsigned(t)
  }

  lemma {:induction false} StripDigits(s: string)
    requires AllDigits(s)
    ensures Strip(s) == s
  {
    if s != [] {
      assert IsDigit(s[0]) && IsDigit(s[|s| - 1]);
    }
  }

  lemma {:induction false} LeadingDigitsAll(s: string)
    requires AllDigits(s)
    ensures LeadingDigits(s) == |s|
  {
  }

  lemma {:induction false} ParseDecimalDigits(s: string)
    requires s != [] && AllDigits(s)
    ensures ParseDecimal(s) == Some(Fin(DigitsValue(s) as real))
  {
    LeadingDigitsAll(s);
    assert s[|s|..] == [];
    assert FractionPart([]) == ([], []);
    assert s[..|s|] + [] == s;
  }

  lemma {:induction false} ParseUnsignedDigits(s: string)
    requires s != [] && AllDigits(s)
    ensures ParseUnsigned(s) == ParseDecimal(s)
  {
    var l := ToLower(s);
    assert IsDigit(s[0]) && l[0] == s[0];
    assert l != "inf" && l != "infinity" && l != "nan";
  }

  lemma {:induction false} ParseFloatDigits(s: string)
    requires s != [] && AllDigits(s)
    ensures ParseFloat(s) == Some(Fin(DigitsValue(s) as real))
  {
    StripDigits(s);
    assert IsDigit(s[0]);
    ParseUnsignedDigits(s);
    ParseDecimalDigits(s);
  }

  /** `float(str(n)) == n` for every natural number `n`. */
  lemma {:induction false} ParseFloatOfNat(n: nat)
    ensures ParseFloat(NatToString(n)) == Some(Fin(n as real))
  {
    ParseFloatDigits(NatToString(n));
    DigitsValueOfNatToString(n);
  }

  /** The literal `'NaN'` already parses to NaN. */
  lemma NaNLiteral()
    ensures ParseFloat("NaN") == Some(NaN)
  {
    var s := "NaN";
    assert StripLeft(s) == s;
    assert StripRight(s) == s;
    var l := ToLower(s);
    assert l == "nan";
    assert ParseUnsigned(s) == Some(NaN);
  }
}
