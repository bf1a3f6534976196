/** Exact conversion of integer base units to the decimal string a transfer body carries. */
module AmountPrinting {
  import opened Outcomes

  function Pow10(n: nat): (p: nat)
    ensures p >= 1
  {
    if n == 0 then 1 else 10 * Pow10(n - 1)
  }

  function DigitChar(d: nat): char
    requires d < 10
  {
    '0' + d as char
  }

  function Digits(n: nat): string {
    if n < 10 then [DigitChar(n)] else Digits(n / 10) + [DigitChar(n % 10)]
  }

  /** Left padding with zeros to at least the given width. */
  function ZeroPad(s: string, width: nat): string
    decreases width - |s|
  {
    if |s| < width then ZeroPad("0" + s, width) else s
  }

  /** Strip trailing zeros. */
  function TrimZeros(s: string): string {
    if s != "" && s[|s| - 1] == '0' then TrimZeros(s[..|s| - 1]) else s
  }

  function Quotient(n: nat, d: nat): nat
    requires d >= 1
  {
    n / d
  }

  function Remainder(n: nat, d: nat): nat
    requires d >= 1
  {
    n % d
  }

  function Print(amount: int, decimals: int): Result<string> {
    if amount < 1 then Failure(InvalidAmountBaseUnits)
    else if !(0 <= decimals <= 36) then Failure(InvalidDecimals)
    else if decimals == 0 then Success(Digits(amount))
    else
      var whole, remainder := Quotient(amount, Pow10(decimals)), Remainder(amount, Pow10(decimals));
      if remainder == 0 then Success(Digits(whole))
      else Success(Digits(whole) + "." + TrimZeros(ZeroPad(Digits(remainder), decimals)))
  }

  // ---- reading a decimal string back ----

  predicate IsNumeral(s: string) {
    forall i :: 0 <= i < |s| ==> '0' <= s[i] <= '9'
  }

  function NumberOf(s: string): nat
    requires IsNumeral(s)
  {
    if s == "" then 0 else NumberOf(s[..|s| - 1]) * 10 + (s[|s| - 1] - '0') as nat
  }

  function DotAt(s: string): (i: nat)
    ensures i <= |s|
  {
    if s == "" || s[0] == '.' then 0 else 1 + DotAt(s[1..])
  }

  function WholePart(s: string): string { s[..DotAt(s)] }

  function FractionPart(s: string): string {
    if DotAt(s) == |s| then "" else s[DotAt(s) + 1..]
  }

  /** A decimal string with a non-empty canonical whole part, and a fraction that is absent or
      ends in a non-zero digit. */
  predicate IsCanonicalDecimal(s: string) {
    var whole, fraction := WholePart(s), FractionPart(s);
    && IsNumeral(whole) && whole != "" && (|whole| > 1 ==> whole[0] != '0')
    && IsNumeral(fraction)
    && (DotAt(s) < |s| ==> fraction != "" && fraction[|fraction| - 1] != '0')
  }

  /** The value of s in units of 10^-decimals. */
  function ScaledValue(s: string, decimals: nat): nat
    requires IsCanonicalDecimal(s) && |FractionPart(s)| <= decimals
  {
    NumberOf(WholePart(s)) * Pow10(decimals) + NumberOf(FractionPart(s)) * Pow10(decimals - |FractionPart(s)|)
  }

  // ---- numerals ----

  lemma {:induction false} DigitsRead(n: nat)
    ensures IsNumeral(Digits(n)) && Digits(n) != "" && NumberOf(Digits(n)) == n
    ensures n >= 1 ==> Digits(n)[0] != '0'
    ensures |Digits(n)| > 1 ==> Digits(n)[0] != '0'
  {
    if n >= 10 {
      DigitsRead(n / 10);
      assert Digits(n)[..|Digits(n)| - 1] == Digits(n / 10);
    } else {
      assert Digits(n)[..0] == "";
    }
  }

  lemma {:induction false} DigitsFit(n: nat, width: nat)
    requires 1 <= width && n < Pow10(width)
    ensures |Digits(n)| <= width
  {
    if n >= 10 {
      assert Pow10(1) == 10;
      DigitsFit(n / 10, width - 1);
    }
  }

  lemma {:induction false} LeadingZero(s: string)
    requires IsNumeral(s)
    ensures IsNumeral("0" + s) && NumberOf("0" + s) == NumberOf(s)
  {
    var z := "0" + s;
    if s == "" {
      assert z[..0] == "";
    } else {
      LeadingZero(s[..|s| - 1]);
      assert z[..|z| - 1] == "0" + s[..|s| - 1];
    }
  }

  lemma {:induction false} PaddingKeepsNumber(s: string, width: nat)
    requires IsNumeral(s)
    ensures IsNumeral(ZeroPad(s, width)) && NumberOf(ZeroPad(s, width)) == NumberOf(s)
    ensures |ZeroPad(s, width)| == if |s| < width then width else |s|
    decreases width - |s|
  {
    if |s| < width {
      LeadingZero(s);
      PaddingKeepsNumber("0" + s, width);
    }
  }

  lemma {:induction false} TrimmingScales(s: string)
    requires IsNumeral(s)
    ensures var t := TrimZeros(s);
      && IsNumeral(t) && |t| <= |s| && NumberOf(s) == NumberOf(t) * Pow10(|s| - |t|)
      && (t != "" ==> t[|t| - 1] != '0')
  {
    if s != "" && s[|s| - 1] == '0' {
      var shorter := s[..|s| - 1];
      TrimmingScales(shorter);
      var t := TrimZeros(shorter);
      var gap := |shorter| - |t|;
      assert |s| - |t| == gap + 1 && NumberOf(s) == NumberOf(shorter) * 10;
      hide NumberOf, TrimZeros, IsNumeral;
      TenTimes(NumberOf(t), gap);
    }
  }

  lemma TenTimes(n: nat, gap: nat)
    ensures n * Pow10(gap + 1) == n * Pow10(gap) * 10
  {
    assert Pow10(gap + 1) == Pow10(gap) * 10;
  }

  lemma {:induction false} DotAfterNumeral(whole: string, rest: string)
    requires IsNumeral(whole) && (rest == "" || rest[0] == '.')
    ensures DotAt(whole + rest) == |whole|
  {
    if whole == "" {
      assert whole + rest == rest;
    } else {
      DotAfterNumeral(whole[1..], rest);
      assert (whole + rest)[1..] == whole[1..] + rest;
    }
  }

  // ---- main results ----

  lemma FractionIsExact(remainder: nat, decimals: nat)
    requires 1 <= remainder < Pow10(decimals) && decimals >= 1
    ensures var f := TrimZeros(ZeroPad(Digits(remainder), decimals));
      && IsNumeral(f) && f != "" && f[|f| - 1] != '0' && |f| <= decimals
      && NumberOf(f) * Pow10(decimals - |f|) == remainder
  {
    DigitsRead(remainder);
    DigitsFit(remainder, decimals);
    PaddingKeepsNumber(Digits(remainder), decimals);
    TrimmingScales(ZeroPad(Digits(remainder), decimals));
    var f := TrimZeros(ZeroPad(Digits(remainder), decimals));
    assert NumberOf("") == 0;
  }

  /** Printing succeeds exactly on amounts of at least one unit with 0 to 36 decimals, the string is
      canonical, and reading it back at the same scale returns the amount. */
  lemma PrintingIsExact(amount: int, decimals: int)
    ensures Print(amount, decimals).Success? <==> amount >= 1 && 0 <= decimals <= 36
    ensures Print(amount, decimals).Success? ==>
      var s := Print(amount, decimals).value;
      && IsCanonicalDecimal(s) && |FractionPart(s)| <= decimals
      && ScaledValue(s, decimals) == amount
  {
    if Print(amount, decimals).Success? {
      if decimals == 0 {
        assert Pow10(0) == 1;
        WholeAmountIsExact(amount, 0);
      } else {
        DivisionSplits(amount, Pow10(decimals));
        var whole, remainder := Quotient(amount, Pow10(decimals)), Remainder(amount, Pow10(decimals));
        if remainder == 0 {
          WholeAmountIsExact(whole, decimals);
        } else {
          FractionIsExact(remainder, decimals);
          SplitAmountIsExact(whole, TrimZeros(ZeroPad(Digits(remainder), decimals)), decimals);
        }
      }
    }
  }

  lemma DivisionSplits(n: nat, d: nat)
    requires d >= 1
    ensures n / d >= 0 && 0 <= n % d < d && (n / d) * d + n % d == n
  {
  }

  lemma WholeAmountIsExact(whole: nat, decimals: nat)
    ensures var s := Digits(whole);
      && IsCanonicalDecimal(s) && FractionPart(s) == "" && ScaledValue(s, decimals) == whole * Pow10(decimals)
  {
    var s := Digits(whole);
    DigitsRead(whole);
    DotAfterNumeral(s, "");
    assert s + "" == s;
    assert WholePart(s) == s && NumberOf("") == 0;
  }

  lemma SplitAmountIsExact(whole: nat, f: string, decimals: nat)
    requires IsNumeral(f) && f != "" && f[|f| - 1] != '0' && |f| <= decimals
    ensures var s := Digits(whole) + "." + f;
      && IsCanonicalDecimal(s) && FractionPart(s) == f
      && ScaledValue(s, decimals) == whole * Pow10(decimals) + NumberOf(f) * Pow10(decimals - |f|)
  {
    var s := Digits(whole) + "." + f;
    DigitsRead(whole);
    DotAfterNumeral(Digits(whole), "." + f);
    assert s == Digits(whole) + ("." + f);
    assert WholePart(s) == Digits(whole) && FractionPart(s) == f;
  }

  /** At a fixed scale different amounts never print alike. */
  lemma PrintingIsInjective(a: int, b: int, decimals: int)
    requires Print(a, decimals).Success? && Print(a, decimals) == Print(b, decimals)
    ensures a == b
  {
    PrintingIsExact(a, decimals);
    PrintingIsExact(b, decimals);
  }
}
