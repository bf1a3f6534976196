/** The hexadecimal fields of the chain's answers: how the verifier reads them, how a node writes numbers and
    addresses, and that reading finds exactly what was written. */
module ChainFields {
  import opened Outcomes
  import opened MissionIdentity
  import opened Evidence

  // ---- reading: None is a refusal ----

  function LoweredHex(v: Option<string>, digits: nat): Option<string> {
    if v.Some? && IsHexText(v.value, digits) then Some(Lower(v.value)) else None
  }

  function DigitValue(c: char): nat {
    if '0' <= c <= '9' then (c - '0') as nat
    else if 'a' <= c <= 'f' then 10 + (c - 'a') as nat
    else if 'A' <= c <= 'F' then 10 + (c - 'A') as nat
    else 0
  }

  function HexValue(digits: string): nat {
    if digits == "" then 0 else 16 * HexValue(digits[..|digits| - 1]) + DigitValue(digits[|digits| - 1])
  }

  /** No leading zeros, except for zero itself. */
  function Quantity(v: Option<string>): Option<nat> {
    if v.Some? && |v.value| >= 3 && IsHexText(v.value, |v.value| - 2) && (v.value[2] != '0' || |v.value| == 3)
    then Some(HexValue(v.value[2..])) else None
  }

  function TopicAddress(v: Option<string>): Option<string> {
    if v.Some? && IsHexText(v.value, 64) then Some("0x" + Lower(v.value[26..])) else None
  }

  function Amount(v: Option<string>): Option<nat> {
    if v.Some? && IsHexText(v.value, 64) && HexValue(v.value[2..]) >= 1 then Some(HexValue(v.value[2..])) else None
  }

  // ---- writing ----

  const DIGITS := "0123456789abcdef"

  /** The shortest numeral of a number in base sixteen. */
  function Numeral(n: nat): string {
    if n < 16 then [Digit(n)] else Numeral(n / 16) + [Digit(n % 16)]
  }

  function Zeros(n: nat): string {
    seq(n, _ => '0')
  }

  /** The numeral with zeros before it, up to this width. */
  function Padded(n: nat, width: nat): string {
    if |Numeral(n)| <= width then Zeros(width - |Numeral(n)|) + Numeral(n) else Numeral(n)
  }

  /** A text that spells these lower-case digits after 0x, in letters of either case. */
  predicate Spells(v: Option<string>, digits: string) {
    v.Some? && |v.value| == |digits| + 2 && v.value[..2] == "0x" && Lower(v.value[2..]) == digits
  }

  /** A 32-byte word whose last 20 bytes are this address. */
  predicate SpellsAddress(v: Option<string>, address: string) {
    v.Some? && IsHexText(v.value, 64) && |address| == 42 && address[..2] == "0x" && Lower(v.value[26..]) == address[2..]
  }

  // ---- digits ----

  predicate IsLowDigit(c: char) {
    c in DIGITS
  }

  predicate IsNumeralText(s: string) {
    forall i :: 0 <= i < |s| ==> IsLowDigit(s[i])
  }

  /** The digit of this value. */
  function Digit(n: nat): char
    requires n < 16
  {
    DIGITS[n]
  }

  lemma DigitIsRead(n: nat)
    requires n < 16
    ensures DigitValue(Digit(n)) == n && IsLowDigit(Digit(n))
    ensures Digit(n) == '0' <==> n == 0
  {
  }

  /** A hexadecimal digit, whatever its letter case, is lowered to the digit of the same value. */
  lemma DigitIsWritten(c: char)
    requires IsHexDigit(c)
    ensures DigitValue(c) < 16 && Digit(DigitValue(c)) == LowerChar(c) && DigitValue(LowerChar(c)) == DigitValue(c)
    ensures IsLowDigit(LowerChar(c))
  {
  }

  lemma OnlyHexDigitsLowerToDigits(c: char)
    requires IsLowDigit(LowerChar(c))
    ensures IsHexDigit(c)
  {
  }

  lemma LowerOfPrefix(s: string)
    requires s != ""
    ensures Lower(s)[..|s| - 1] == Lower(s[..|s| - 1]) && Lower(s)[|s| - 1] == LowerChar(s[|s| - 1])
  {
  }

  /** The letter case does not matter to the value. */
  lemma {:induction false} ValueForgetsCase(s: string)
    requires forall i :: 0 <= i < |s| ==> IsHexDigit(s[i])
    ensures HexValue(Lower(s)) == HexValue(s) && IsNumeralText(Lower(s))
  {
    hide DigitValue, IsHexDigit, LowerChar, IsLowDigit, Digit;
    if s != "" {
      LowerOfPrefix(s);
      DigitIsWritten(s[|s| - 1]);
      ValueForgetsCase(s[..|s| - 1]);
    }
  }

  // ---- numerals ----

  lemma {:induction false} NumeralIsRead(n: nat)
    ensures Numeral(n) != "" && IsNumeralText(Numeral(n)) && HexValue(Numeral(n)) == n
    ensures Numeral(n)[0] == '0' <==> n == 0
    ensures n == 0 ==> |Numeral(n)| == 1
  {
    hide DigitValue, IsLowDigit, Digit;
    DigitIsRead(n % 16);
    if n >= 16 {
      NumeralIsRead(n / 16);
      assert Numeral(n)[..|Numeral(n)| - 1] == Numeral(n / 16);
    } else {
      assert Numeral(n)[..0] == "" && HexValue("") == 0;
    }
  }

  lemma {:induction false} ZerosAreNothing(k: nat)
    ensures HexValue(Zeros(k)) == 0
  {
    if k > 0 {
      assert Zeros(k)[..k - 1] == Zeros(k - 1);
      ZerosAreNothing(k - 1);
    }
  }

  lemma {:induction false} LeadingZerosAreNothing(k: nat, s: string)
    ensures HexValue(Zeros(k) + s) == HexValue(s)
  {
    hide DigitValue;
    if s == "" {
      ZerosAreNothing(k);
      assert Zeros(k) + s == Zeros(k);
    } else {
      LeadingZerosAreNothing(k, s[..|s| - 1]);
      assert (Zeros(k) + s)[..k + |s| - 1] == Zeros(k) + s[..|s| - 1];
    }
  }

  lemma PaddedIsRead(n: nat, width: nat)
    ensures IsNumeralText(Padded(n, width)) && HexValue(Padded(n, width)) == n
    ensures |Numeral(n)| <= width ==> |Padded(n, width)| == width
  {
    NumeralIsRead(n);
    LeadingZerosAreNothing(if |Numeral(n)| <= width then width - |Numeral(n)| else 0, Numeral(n));
  }

  lemma {:induction false} NothingIsZeros(s: string)
    requires IsNumeralText(s) && HexValue(s) == 0
    ensures s == Zeros(|s|)
  {
    if s != "" {
      var (before, c) := (s[..|s| - 1], s[|s| - 1]);
      assert s == before + [c];
      LastDigit(before, c);
      NothingIsZeros(before);
      hide HexValue, IsNumeralText, DigitValue;
      DigitIsRead(0);
      assert c == '0';
    }
  }

  /** A non-empty text of lower-case digits is the padded numeral of its value. */
  lemma {:induction false} ReadIsPadded(s: string)
    requires IsNumeralText(s) && s != ""
    ensures |Numeral(HexValue(s))| <= |s| && s == Padded(HexValue(s), |s|)
  {
    var (before, c) := (s[..|s| - 1], s[|s| - 1]);
    assert s == before + [c] && IsLowDigit(c);
    assert IsNumeralText(before) && HexValue("") == 0;
    hide *;
    LastDigit(before, c);
    if HexValue(before) == 0 {
      NothingIsZeros(before);
      PaddedDigit(HexValue(s), c, |before|);
    } else {
      ReadIsPadded(before);
      PaddedGrows(HexValue(before), HexValue(s), c, |before|);
    }
  }

  lemma PaddedDigit(n: nat, c: char, width: nat)
    requires Numeral(n) == [c]
    ensures |Numeral(n)| <= width + 1 && Padded(n, width + 1) == Zeros(width) + [c]
  {
  }

  lemma PaddedGrows(m: nat, n: nat, c: char, width: nat)
    requires Numeral(n) == Numeral(m) + [c] && |Numeral(m)| <= width
    ensures |Numeral(n)| <= width + 1 && Padded(n, width + 1) == Padded(m, width) + [c]
  {
    hide Numeral, Zeros;
  }

  lemma LastDigit(before: string, c: char)
    requires IsLowDigit(c)
    ensures DigitValue(c) < 16 && Digit(DigitValue(c)) == c
    ensures HexValue(before + [c]) == 16 * HexValue(before) + DigitValue(c)
    ensures HexValue(before + [c]) / 16 == HexValue(before) && HexValue(before + [c]) % 16 == DigitValue(c)
    ensures Numeral(HexValue(before + [c])) ==
      if HexValue(before) == 0 then [c] else Numeral(HexValue(before)) + [c]
  {
    assert (before + [c])[..|before|] == before;
    hide HexValue;
  }

  /** Two addresses are the same in lower case if and only if they are the same number. */
  lemma AddressIsItsValue(a: string, b: string)
    requires IsAddress(a) && IsAddress(b)
    ensures Lower(a) == Lower(b) <==> HexValue(a[2..]) == HexValue(b[2..])
  {
    AddressIsPadded(a);
    AddressIsPadded(b);
    hide *;
  }

  lemma AddressIsPadded(a: string)
    requires IsAddress(a)
    ensures |a| == 42 && Lower(a) == "0x" + Lower(a[2..]) && Lower(a[2..]) == Padded(HexValue(a[2..]), 40)
    ensures Lower(a)[2..] == Lower(a[2..]) && HexValue(Lower(a[2..])) == HexValue(a[2..])
  {
    LowerAfterPrefix(a);
    ValueForgetsCase(a[2..]);
    hide HexValue, Padded, Numeral;
    ReadIsPadded(Lower(a[2..]));
  }

  lemma LowerAfterPrefix(s: string)
    requires |s| >= 2 && s[..2] == "0x"
    ensures Lower(s) == "0x" + Lower(s[2..])
  {
  }

  // ---- what each field parser finds ----

  lemma SpeltIsHex(v: Option<string>, digits: string)
    requires Spells(v, digits) && IsNumeralText(digits)
    ensures IsHexText(v.value, |digits|) && HexValue(v.value[2..]) == HexValue(digits)
  {
    hide DigitValue, IsLowDigit, Digit, LowerChar, IsHexDigit, HexValue;
    forall i | 2 <= i < |v.value| ensures IsHexDigit(v.value[i]) {
      assert Lower(v.value[2..])[i - 2] == LowerChar(v.value[i]);
      assert IsLowDigit(digits[i - 2]);
      OnlyHexDigitsLowerToDigits(v.value[i]);
    }
    ValueForgetsCase(v.value[2..]);
  }

  lemma HexIsSpelt(v: Option<string>, digits: nat)
    requires v.Some? && IsHexText(v.value, digits)
    ensures v.value[..2] == "0x" && Spells(v, Lower(v.value[2..]))
    ensures IsNumeralText(Lower(v.value[2..])) && HexValue(Lower(v.value[2..])) == HexValue(v.value[2..])
  {
    ValueForgetsCase(v.value[2..]);
  }

  /** A quantity reads as a number if and only if it spells the number's shortest numeral. */
  lemma QuantityIsExact(v: Option<string>, n: nat)
    ensures Quantity(v) == Some(n) <==> Spells(v, Numeral(n))
  {
    NumeralIsRead(n);
    if Spells(v, Numeral(n)) {
      SpeltIsHex(v, Numeral(n));
      assert Lower(v.value[2..])[0] == LowerChar(v.value[2]);
    }
    if Quantity(v) == Some(n) {
      HexIsSpelt(v, |v.value| - 2);
      var digits := Lower(v.value[2..]);
      ReadIsPadded(digits);
      assert digits[0] == LowerChar(v.value[2]);
      NoZerosLeft(n, digits);
    }
  }

  lemma NoZerosLeft(n: nat, digits: string)
    requires digits != "" && digits == Padded(n, |digits|) && |Numeral(n)| <= |digits|
    requires digits[0] != '0' || |digits| == 1
    ensures digits == Numeral(n)
  {
    NumeralIsRead(n);
    PaddingStartsWithZero(n, |digits|);
    assert Zeros(0) + Numeral(n) == Numeral(n);
  }

  lemma PaddingStartsWithZero(n: nat, width: nat)
    ensures |Numeral(n)| < width ==> Padded(n, width) != "" && Padded(n, width)[0] == '0'
  {
  }

  /** A 32-byte word reads as an amount if and only if it spells the padded numeral of this positive number. */
  lemma AmountIsExact(v: Option<string>, n: nat)
    ensures Amount(v) == Some(n) <==> n >= 1 && |Numeral(n)| <= 64 && Spells(v, Padded(n, 64))
  {
    PaddedIsRead(n, 64);
    if n >= 1 && |Numeral(n)| <= 64 && Spells(v, Padded(n, 64)) {
      SpeltIsHex(v, Padded(n, 64));
    }
    if Amount(v) == Some(n) {
      HexIsSpelt(v, 64);
      ReadIsPadded(Lower(v.value[2..]));
    }
  }

  /** An address or hash is read as the lower-case text it spells. */
  lemma LoweredHexIsExact(v: Option<string>, s: string, digits: nat)
    requires IsLoweredHex(s, digits)
    ensures LoweredHex(v, digits) == Some(s) <==> Spells(v, s[2..])
  {
    HexIsSpelt(Some(s), digits);
    assert Lower(s[2..]) == s[2..] && s == "0x" + s[2..];
    if Spells(v, s[2..]) {
      SpeltIsHex(v, s[2..]);
      LowerAfterPrefix(v.value);
    }
    if LoweredHex(v, digits) == Some(s) {
      HexIsSpelt(v, digits);
      LowerAfterPrefix(v.value);
    }
  }

  /** The address in a topic is the one its last 20 bytes spell. */
  lemma TopicAddressIsExact(v: Option<string>, address: string)
    ensures TopicAddress(v) == Some(address) <==> SpellsAddress(v, address)
  {
    if TopicAddress(v).Some? {
      var found := TopicAddress(v).value;
      assert found[..2] == "0x" && found[2..] == Lower(v.value[26..]);
      assert SpellsAddress(v, address) ==> address == address[..2] + address[2..] == found;
    }
  }

  // ---- the width of a word ----

  function Pow16(n: nat): nat {
    if n == 0 then 1 else 16 * Pow16(n - 1)
  }

  /** A number fits into a word of this many digits if and only if it is below that power of sixteen. */
  lemma {:induction false} NumeralFits(n: nat, width: nat)
    requires width >= 1
    ensures |Numeral(n)| <= width <==> n < Pow16(width)
  {
    if n >= 16 && width > 1 {
      NumeralFits(n / 16, width - 1);
    } else if n >= 16 {
      NumeralIsRead(n / 16);
      assert Pow16(1) == 16;
    } else {
      PowIsLarge(width);
    }
  }

  lemma {:induction false} PowIsLarge(width: nat)
    requires width >= 1
    ensures Pow16(width) >= 16
  {
    if width > 1 { PowIsLarge(width - 1); }
  }
}
