/** Integer widths of the C# code and the decimal text that `ToString()` and
    `byte.TryParse` convert between. The permission store keeps both user ids
    and levels as decimal strings, and the help listing and the VT escape
    sequences print bytes in decimal. */
module Decimal {
  import opened Wrappers

  /** C# `byte`. */
  type Byte = x: int | 0 <= x < 0x100

  /** C# `ulong`, the type of user ids. */
  type ULong = x: int | 0 <= x < 0x1_0000_0000_0000_0000

  predicate IsDigit(c: char) {
    '0' <= c <= '9'
  }

  function DigitValue(c: char): (d: nat)
    requires IsDigit(c)
    ensures d < 10
  {
    (c as int) - ('0' as int)
  }

  function DigitChar(d: nat): (c: char)
    requires d < 10
    ensures IsDigit(c) && DigitValue(c) == d
  {
    (('0' as int) + d) as char
  }

  predicate AllDigits(s: string) {
    forall i | 0 <= i < |s| :: IsDigit(s[i])
  }

  /** The number that a string of decimal digits denotes; leading zeros are allowed. */
  function DigitsValue(s: string): nat
    requires AllDigits(s)
    decreases |s|
  {
    if s == [] then 0 else DigitsValue(s[..|s| - 1]) * 10 + DigitValue(s[|s| - 1])
  }

  /** `n.ToString()` for a non-negative integer: decimal digits, no sign, and
      no leading zero except for zero itself. */
  function NatToString(n: nat): (s: string)
    ensures |s| > 0 && AllDigits(s)
    ensures s[0] == '0' <==> n == 0
    decreases n
  {
    if n < 10 then [DigitChar(n)] else NatToString(n / 10) + [DigitChar(n % 10)]
  }

  /** Reading back the text that `NatToString` writes gives the number. */
  lemma {:induction false} NatToStringValue(n: nat)
    ensures DigitsValue(NatToString(n)) == n
    decreases n
  {
    if n >= 10 {
      NatToStringValue(n / 10);
      var s := NatToString(n);
      assert s[..|s| - 1] == NatToString(n / 10);
    }
  }

  /** Different numbers have different decimal texts, so decimal ids are
      usable as keys of the string-keyed permission store. */
  lemma NatToStringInjective(a: nat, b: nat)
    ensures NatToString(a) == NatToString(b) ==> a == b
  {
    NatToStringValue(a);
    NatToStringValue(b);
  }

  /** `byte.TryParse`, modelled for plain decimal digits: the text must be a
      non-empty run of digits whose value fits in a byte. */
  function ParseByte(s: string): (r: Option<Byte>)
    ensures s == [] || !AllDigits(s) ==> r.None?
    ensures s != [] && AllDigits(s) && DigitsValue(s) < 0x100 ==> r == Some(DigitsValue(s))
    ensures r.Some? ==> DigitsValue(s) == r.value
    ensures r.Some? && (s[0] != '0' || |s| == 1) ==> NatToString(r.value) == s
  {
    if s != [] && AllDigits(s) && DigitsValue(s) < 0x100 then
      if s[0] != '0' || |s| == 1 then CanonicalDigits(s); Some(DigitsValue(s))
      else Some(DigitsValue(s))
    else None
  }

  /** Parsing inverts printing, for every byte. */
  lemma ParseByteOfString(b: Byte)
    ensures ParseByte(NatToString(b)) == Some(b)
  {
    NatToStringValue(b);
  }

  /** A parsed byte prints back to the input exactly when the input has no
      redundant leading zero. */
  lemma ParseByteCanonical(s: string)
    requires ParseByte(s).Some?
    ensures NatToString(ParseByte(s).value) == s <==> (s[0] != '0' || |s| == 1)
  {
    var b := ParseByte(s).value;
    if s[0] != '0' || |s| == 1 {
      CanonicalDigits(s);
    } else {
      assert NatToString(0) == "0";
    }
  }

  /** A digit string without a redundant leading zero is the decimal text of its value. */
  lemma {:induction false} CanonicalDigits(s: string)
    requires s != [] && AllDigits(s)
    requires s[0] != '0' || |s| == 1
    ensures NatToString(DigitsValue(s)) == s
    decreases |s|
  {
    var init := s[..|s| - 1];
    var d := DigitValue(s[|s| - 1]);
    if |s| == 1 {
      assert DigitsValue(s) == d;
      assert DigitChar(d) == s[0];
    } else {
      assert AllDigits(init);
      CanonicalDigits(init);
      PositiveLeading(init);
      var v := DigitsValue(s);
      assert v == DigitsValue(init) * 10 + d;
      assert v / 10 == DigitsValue(init) && v % 10 == d;
      assert DigitChar(d) == s[|s| - 1];
      assert s == init + [s[|s| - 1]];
    }
  }

  /** A digit string that starts with a non-zero digit denotes a positive number. */
  lemma {:induction false} PositiveLeading(s: string)
    requires s != [] && AllDigits(s) && s[0] != '0'
    ensures DigitsValue(s) > 0
    decreases |s|
  {
    if |s| > 1 {
      assert AllDigits(s[..|s| - 1]);
      PositiveLeading(s[..|s| - 1]);
    }
  }
}
