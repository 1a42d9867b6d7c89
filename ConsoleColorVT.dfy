/** 24-bit console colours: the table of the sixteen stock console colours,
    parsing of `^#RRGGBB;` colour codes, VT escape sequences, equality, and
    the search for the nearest stock colour with its per-object cache. */
module ConsoleColors {
  import opened Wrappers
  import opened Decimal
  import opened Strings

  /** The sixteen stock console colours. */
  datatype ConsoleColor =
    | Black | DarkBlue | DarkGreen | DarkCyan | DarkRed | DarkMagenta | DarkYellow | DarkGray
    | Gray | Blue | Green | Cyan | Red | Magenta | Yellow | White

  /** The colour value of a `ConsoleColorVT`. */
  datatype Rgb = Rgb(r: Byte, g: Byte, b: Byte)

  datatype ArgumentException = ArgumentException(message: string)

  datatype NotSupportedException = NotSupportedException(message: string)

  const FormatErrorMessage: string :=
    "Expected text formatted like ^#......; (where ...... translates into a hex color code)."

  const NotStockColorMessage: string :=
    "This ConsoleColorVT does not have a color identical to a stock Windows console."

  /** The `Colors` dictionary in its declaration order: each stock colour
      with its MS-DOS default value. */
  const Colors: seq<(ConsoleColor, Rgb)> := [
    (Black, Rgb(0, 0, 0)),
    (DarkBlue, Rgb(0, 0, 128)),
    (DarkGreen, Rgb(0, 128, 0)),
    (DarkCyan, Rgb(0, 128, 128)),
    (DarkRed, Rgb(128, 0, 0)),
    (DarkMagenta, Rgb(128, 0, 128)),
    (DarkYellow, Rgb(128, 128, 0)),
    (DarkGray, Rgb(128, 128, 128)),
    (Gray, Rgb(192, 192, 192)),
    (Blue, Rgb(0, 0, 255)),
    (Green, Rgb(0, 255, 0)),
    (Cyan, Rgb(0, 255, 255)),
    (Red, Rgb(255, 0, 0)),
    (Magenta, Rgb(255, 0, 255)),
    (Yellow, Rgb(255, 255, 0)),
    (White, Rgb(255, 255, 255))
  ]

  /** The position of a stock colour's key in the table. */
  function TableIndex(c: ConsoleColor): (i: nat)
    ensures i < |Colors| && Colors[i].0 == c
  {
    match c
    case Black => 0
    case DarkBlue => 1
    case DarkGreen => 2
    case DarkCyan => 3
    case DarkRed => 4
    case DarkMagenta => 5
    case DarkYellow => 6
    case DarkGray => 7
    case Gray => 8
    case Blue => 9
    case Green => 10
    case Cyan => 11
    case Red => 12
    case Magenta => 13
    case Yellow => 14
    case White => 15
  }

  /** `FromConsoleColor`: the table's value for a stock colour. */
  function FromConsoleColor(stockColor: ConsoleColor): (v: Rgb)
    ensures forall i | 0 <= i < |Colors| && Colors[i].0 == stockColor :: Colors[i].1 == v
  {
    ColorsDistinct();
    Colors[TableIndex(stockColor)].1
  }

  /** Keys and values of the table are pairwise distinct. */
  lemma ColorsDistinct()
    ensures forall i, j | 0 <= i < j < |Colors| :: Colors[i].1 != Colors[j].1
    ensures forall i, j | 0 <= i < j < |Colors| :: Colors[i].0 != Colors[j].0
  {
  }

  /** The first table position at or after `from` whose value is `v`; the
      model of `KeyOf`, which returns the first key mapped to a value. */
  function FindValueFrom(v: Rgb, from: nat): (r: Option<nat>)
    requires from <= |Colors|
    ensures r.Some? ==>
      (from <= r.value < |Colors| && Colors[r.value].1 == v
       && forall j | from <= j < r.value :: Colors[j].1 != v)
    ensures r.None? ==> forall j | from <= j < |Colors| :: Colors[j].1 != v
    decreases |Colors| - from
  {
    if from == |Colors| then None
    else if Colors[from].1 == v then Some(from)
    else FindValueFrom(v, from + 1)
  }

  /** `AsConsoleColor`: the stock colour with exactly this value, if any. */
  function AsConsoleColor(v: Rgb): (r: Option<ConsoleColor>)
    ensures r.Some? ==> (r.value, v) in Colors
    ensures r.None? ==> forall i | 0 <= i < |Colors| :: Colors[i].1 != v
  {
    match FindValueFrom(v, 0)
    case Some(i) => Some(Colors[i].0)
    case None => None
  }

  /** Turning a stock colour into its value and back gives that colour. */
  lemma AsConsoleColorOfStock(c: ConsoleColor)
    ensures AsConsoleColor(FromConsoleColor(c)) == Some(c)
  {
    ColorsDistinct();
    var i := TableIndex(c);
    var r := FindValueFrom(FromConsoleColor(c), 0);
    assert r.Some? && r.value <= i;
  }

  /** `AsConsoleColor` finds a colour exactly when the value is a stock
      colour's, and the colour it finds has that value. */
  lemma AsConsoleColorExact(v: Rgb)
    ensures AsConsoleColor(v).None? <==> forall c: ConsoleColor :: FromConsoleColor(c) != v
    ensures AsConsoleColor(v).Some? ==> FromConsoleColor(AsConsoleColor(v).value) == v
  {
    ColorsDistinct();
    match FindValueFrom(v, 0)
    case Some(i) =>
      var c := Colors[i].0;
      var k := TableIndex(c);
      assert Colors[k].0 == Colors[i].0;
      assert k == i;
      assert FromConsoleColor(c) == v;
    case None =>
      forall c: ConsoleColor
        ensures FromConsoleColor(c) != v
      {
        assert Colors[TableIndex(c)].1 != v;
      }
  }

  // ---- colour codes ----

  predicate IsHexDigit(c: char) {
    '0' <= c <= '9' || 'a' <= c <= 'f' || 'A' <= c <= 'F'
  }

  function HexDigitValue(c: char): (d: nat)
    requires IsHexDigit(c)
    ensures d < 16
  {
    if '0' <= c <= '9' then (c as int) - ('0' as int)
    else if 'a' <= c <= 'f' then (c as int) - ('a' as int) + 10
    else (c as int) - ('A' as int) + 10
  }

  /** Upper-case hex digit of a value below 16. */
  function HexDigitChar(d: nat): (c: char)
    requires d < 16
    ensures IsHexDigit(c) && HexDigitValue(c) == d
  {
    if d < 10 then (('0' as int) + d) as char else (('A' as int) + d - 10) as char
  }

  predicate AllHexDigits(s: string) {
    forall i | 0 <= i < |s| :: IsHexDigit(s[i])
  }

  /** `int.Parse(s, NumberStyles.HexNumber)` for a string of hex digits. */
  function HexValue(s: string): nat
    requires AllHexDigits(s)
    decreases |s|
  {
    if s == [] then 0 else HexValue(s[..|s| - 1]) * 16 + HexDigitValue(s[|s| - 1])
  }

  /** The byte that two hex digits denote. */
  function HexPair(hi: char, lo: char): Byte
    requires IsHexDigit(hi) && IsHexDigit(lo)
  {
    HexDigitValue(hi) * 16 + HexDigitValue(lo)
  }

  /** `COLOR_CODE_REGEX` matching at position `i`: `^#`, six hex digits, `;`. */
  predicate MatchAt(s: string, i: nat) {
    i + 9 <= |s| && s[i] == '^' && s[i + 1] == '#'
    && (forall k | i + 2 <= k < i + 8 :: IsHexDigit(s[k]))
    && s[i + 8] == ';'
  }

  /** `Regex.IsMatch` with `COLOR_CODE_REGEX`: a match anywhere in `s`. */
  predicate RegexIsMatch(s: string) {
    exists i: nat | i + 9 <= |s| :: MatchAt(s, i)
  }

  /** The whole string is a colour code. */
  predicate IsColorCode(s: string) {
    MatchAt(s, 0) && |s| == 9
  }

  /** Together with the length check, the unanchored match is a whole-string match. */
  lemma RegexAtLengthNine(s: string)
    requires |s| == 9
    ensures RegexIsMatch(s) <==> IsColorCode(s)
  {
    if IsColorCode(s) {
      assert MatchAt(s, 0);
    }
  }

  /** Without the length check the match would also accept surrounding text. */
  lemma RegexIsUnanchored()
    ensures RegexIsMatch("x^#00ff00;y") && !IsColorCode("x^#00ff00;y")
  {
    assert MatchAt("x^#00ff00;y", 1);
  }

  /** Six hex digits denote the three bytes of their pairs. */
  lemma SixHexDigits(t: string)
    requires |t| == 6 && AllHexDigits(t)
    ensures HexValue(t) == HexPair(t[0], t[1]) * 0x10000 + HexPair(t[2], t[3]) * 0x100 + HexPair(t[4], t[5])
  {
    assert t[..5][..4] == t[..4];
    assert t[..4][..3] == t[..3];
    assert t[..3][..2] == t[..2];
    assert t[..2][..1] == t[..1];
    assert t[..1][..0] == [];
    var d0, d1, d2 := HexDigitValue(t[0]), HexDigitValue(t[1]), HexDigitValue(t[2]);
    var d3, d4, d5 := HexDigitValue(t[3]), HexDigitValue(t[4]), HexDigitValue(t[5]);
    assert HexValue(t[..1]) == d0;
    assert HexValue(t[..2]) == d0 * 16 + d1;
    assert HexValue(t[..3]) == (d0 * 16 + d1) * 16 + d2;
    assert HexValue(t[..4]) == (d0 * 16 + d1) * 256 + d2 * 16 + d3;
    assert HexValue(t[..5]) == (d0 * 16 + d1) * 4096 + (d2 * 16 + d3) * 16 + d4;
    assert HexValue(t) == (d0 * 16 + d1) * 65536 + (d2 * 16 + d3) * 256 + d4 * 16 + d5;
  }

  /** The bytes of a 24-bit value: `(value & 0xFF0000) >> 16` and so on. */
  lemma ByteLanes(a: Byte, b: Byte, c: Byte)
    ensures var value := a * 0x10000 + b * 0x100 + c;
      (value / 0x10000) % 0x100 == a && (value / 0x100) % 0x100 == b && value % 0x100 == c
  {
    var value := a * 0x10000 + b * 0x100 + c;
    assert value == (a * 0x100 + b) * 0x100 + c;
    assert value / 0x100 == a * 0x100 + b;
    assert value == a * 0x10000 + (b * 0x100 + c);
    assert value / 0x10000 == a;
  }

  /** `FromFormattedString`: the colour a `^#RRGGBB;` code denotes, or the
      `ArgumentException` for any other text. */
  function FromFormattedString(formatted: string): (r: Result<Rgb, ArgumentException>)
    ensures r.Success? <==> IsColorCode(formatted)
    ensures r.Failure? ==> r.error == ArgumentException(FormatErrorMessage)
    ensures r.Success? ==>
      r.value == Rgb(HexPair(formatted[2], formatted[3]), HexPair(formatted[4], formatted[5]), HexPair(formatted[6], formatted[7]))
  {
    if |formatted| != 9 || !RegexIsMatch(formatted) then
      Failure(ArgumentException(FormatErrorMessage))
    else
      RegexAtLengthNine(formatted);
      var hexClip := formatted[2..8];
      assert AllHexDigits(hexClip) by {
        forall k | 0 <= k < 6
          ensures IsHexDigit(hexClip[k])
        {
          assert hexClip[k] == formatted[k + 2];
        }
      }
      var value := HexValue(hexClip);
      SixHexDigits(hexClip);
      ByteLanes(HexPair(formatted[2], formatted[3]), HexPair(formatted[4], formatted[5]), HexPair(formatted[6], formatted[7]));
      Success(Rgb((value / 0x10000) % 0x100, (value / 0x100) % 0x100, value % 0x100))
  }

  /** Upper- and lower-case hex digits give the same colour. */
  lemma FromFormattedStringIgnoresCase(s: string)
    ensures FromFormattedString(ToLower(s)) == FromFormattedString(s)
  {
    var t := ToLower(s);
    forall k | 0 <= k < |s|
      ensures IsHexDigit(t[k]) <==> IsHexDigit(s[k])
      ensures IsHexDigit(s[k]) ==> HexDigitValue(t[k]) == HexDigitValue(s[k])
      ensures t[k] == '^' <==> s[k] == '^'
      ensures t[k] == '#' <==> s[k] == '#'
      ensures t[k] == ';' <==> s[k] == ';'
    {
      assert t[k] == ToLowerChar(s[k]);
    }
    assert IsColorCode(t) <==> IsColorCode(s);
  }

  /** Two upper-case hex digits of a byte. */
  function HexByte(x: Byte): string {
    [HexDigitChar(x / 16), HexDigitChar(x % 16)]
  }

  /** The colour code of a value; the encoder of the `^#RRGGBB;` format. */
  function FormatColorCode(v: Rgb): string {
    "^#" + HexByte(v.r) + HexByte(v.g) + HexByte(v.b) + ";"
  }

  /** Parsing a formatted code gives back the colour. */
  lemma FormatColorCodeRoundTrip(v: Rgb)
    ensures FromFormattedString(FormatColorCode(v)) == Success(v)
  {
    var s := FormatColorCode(v);
    assert s[2] == HexDigitChar(v.r / 16) && s[3] == HexDigitChar(v.r % 16);
    assert s[4] == HexDigitChar(v.g / 16) && s[5] == HexDigitChar(v.g % 16);
    assert s[6] == HexDigitChar(v.b / 16) && s[7] == HexDigitChar(v.b % 16);
    assert IsColorCode(s);
  }

  // ---- VT sequences ----

  /** The escape and SGR lead of `ToStringVT`: 48 selects the background, 38 the foreground. */
  function VtLead(background: bool): string {
    if background then "\U{1B}[48;2;" else "\U{1B}[38;2;"
  }

  /** `ToStringVT`: the 24-bit SGR escape sequence with decimal components. */
  function ToStringVT(v: Rgb, background: bool): (s: string)
    ensures 13 <= |s| <= 19
    ensures s[0] == '\U{1B}' && s[|s| - 1] == 'm'
  {
    ByteTextLength(v.r);
    ByteTextLength(v.g);
    ByteTextLength(v.b);
    Assoc7(VtLead(background), NatToString(v.r), NatToString(v.g), NatToString(v.b));
    VtLead(background) + NatToString(v.r) + ";" + NatToString(v.g) + ";" + NatToString(v.b) + "m"
  }

  /** The decimal text of a byte has one to three digits. */
  lemma ByteTextLength(b: Byte)
    ensures 1 <= |NatToString(b)| <= 3
  {
    if b >= 10 {
      assert NatToString(b) == NatToString(b / 10) + [DigitChar(b % 10)];
      if b / 10 >= 10 {
        assert NatToString(b / 10) == NatToString(b / 100) + [DigitChar(b / 10 % 10)];
        assert b / 100 < 10;
      }
    }
  }

  /** The sequence starts with the escape character and ends with `m`. */
  lemma ToStringVTShape(v: Rgb, background: bool)
    ensures var s := ToStringVT(v, background);
      |s| > 8 && s[0] == '\U{1B}' && s[1] == '[' && s[2] == (if background then '4' else '3')
      && s[3..7] == "8;2;" && s[|s| - 1] == 'm'
  {
    var s := ToStringVT(v, background);
    Assoc7(VtLead(background), NatToString(v.r), NatToString(v.g), NatToString(v.b));
    assert s[..7] == VtLead(background);
  }

  lemma Assoc7(lead: string, r: string, g: string, b: string)
    ensures lead + r + ";" + g + ";" + b + "m" == lead + (r + (";" + (g + (";" + (b + "m")))))
  {
  }

  /** A run of digits ended by a non-digit separator is determined by the text. */
  lemma DigitsBeforeSeparator(a: string, x: string, b: string, y: string, sep: char)
    requires AllDigits(a) && AllDigits(b) && !IsDigit(sep)
    requires a + ([sep] + x) == b + ([sep] + y)
    ensures a == b && x == y
  {
    var s := a + ([sep] + x);
    assert forall i | 0 <= i < |a| :: IsDigit(s[i]);
    assert s[|a|] == sep;
    assert forall i | 0 <= i < |b| :: IsDigit(s[i]);
    assert s[|b|] == sep;
    assert |a| == |b|;
    assert a == s[..|a|] && b == s[..|b|];
    assert x == s[|a| + 1..] && y == s[|b| + 1..];
  }

  /** Different colours or planes give different sequences, so the sequence
      determines both. */
  lemma ToStringVTInjective(v: Rgb, bg: bool, w: Rgb, bg': bool)
    requires ToStringVT(v, bg) == ToStringVT(w, bg')
    ensures v == w && bg == bg'
  {
    var r1, g1, b1 := NatToString(v.r), NatToString(v.g), NatToString(v.b);
    var r2, g2, b2 := NatToString(w.r), NatToString(w.g), NatToString(w.b);
    Assoc7(VtLead(bg), r1, g1, b1);
    Assoc7(VtLead(bg'), r2, g2, b2);
    var s := ToStringVT(v, bg);
    var f1 := r1 + (";" + (g1 + (";" + (b1 + "m"))));
    var f2 := r2 + (";" + (g2 + (";" + (b2 + "m"))));
    assert s[..7] == VtLead(bg) && s[..7] == VtLead(bg');
    assert bg == bg' by {
      assert VtLead(bg)[2] == VtLead(bg')[2];
    }
    assert f1 == s[7..] == f2;
    DigitsBeforeSeparator(r1, g1 + (";" + (b1 + "m")), r2, g2 + (";" + (b2 + "m")), ';');
    DigitsBeforeSeparator(g1, b1 + "m", g2, b2 + "m", ';');
    assert b1 == (b1 + "m")[..|b1|];
    assert |b1| == |b2|;
    assert b2 == (b2 + "m")[..|b2|];
    NatToStringInjective(v.r, w.r);
    NatToStringInjective(v.g, w.g);
    NatToStringInjective(v.b, w.b);
  }

  // ---- nearest stock colour ----

  /** `GetColorDistance` squared: the order of Euclidean distances is the
      order of their squares, so the search picks the same entry. */
  function SquaredDistance(a: Rgb, b: Rgb): (d: nat)
    ensures d < DistanceSentinel
    ensures d == 0 <==> a == b
  {
    SquareBounds(a.r - b.r);
    SquareBounds(a.g - b.g);
    SquareBounds(a.b - b.b);
    (a.r - b.r) * (a.r - b.r) + (a.g - b.g) * (a.g - b.g) + (a.b - b.b) * (a.b - b.b)
  }

  /** Stands for `double.MaxValue`: larger than every squared distance. */
  const DistanceSentinel: nat := 3 * 255 * 255 + 1

  lemma SquaredDistanceBounds(a: Rgb, b: Rgb)
    ensures SquaredDistance(a, b) < DistanceSentinel
    ensures SquaredDistance(a, b) == 0 <==> a == b
  {
    SquareBounds(a.r - b.r);
    SquareBounds(a.g - b.g);
    SquareBounds(a.b - b.b);
  }

  /** The square of a component difference lies in 0..255*255 and is zero
      only for a zero difference. */
  lemma SquareBounds(d: int)
    requires -255 <= d <= 255
    ensures 0 <= d * d <= 255 * 255
    ensures d * d == 0 <==> d == 0
  {
    var x := if d >= 0 then d else -d;
    assert d * d == x * x;
    MulMonotone(x, 255, x);
    MulMonotone(0, x, x);
    if x > 0 {
      MulMonotone(1, x, x);
    }
  }

  lemma {:induction false} MulMonotone(a: nat, b: nat, c: nat)
    requires a <= b
    ensures a * c <= b * c
    decreases c
  {
    if c > 0 {
      MulMonotone(a, b, c - 1);
      assert a * c == a * (c - 1) + a;
      assert b * c == b * (c - 1) + b;
    }
  }

  /** The position the search loop settles on after the first `n` entries:
      the earliest entry of least distance, since only a strictly smaller
      distance replaces the current choice. */
  function ClosestIndex(v: Rgb, n: nat): (i: nat)
    requires 1 <= n <= |Colors|
    ensures i < n
    ensures forall k | 0 <= k < n :: SquaredDistance(v, Colors[i].1) <= SquaredDistance(v, Colors[k].1)
    ensures forall k | 0 <= k < i :: SquaredDistance(v, Colors[k].1) > SquaredDistance(v, Colors[i].1)
  {
    if n == 1 then 0
    else
      var j := ClosestIndex(v, n - 1);
      if SquaredDistance(v, Colors[n - 1].1) < SquaredDistance(v, Colors[j].1) then n - 1 else j
  }

  /** The result of `GetNearestConsoleColor`: the exact stock colour when
      there is one, otherwise the closest table entry. */
  function NearestConsoleColor(v: Rgb): (c: ConsoleColor)
    ensures forall k | 0 <= k < |Colors| ::
      SquaredDistance(v, FromConsoleColor(c)) <= SquaredDistance(v, Colors[k].1)
  {
    match AsConsoleColor(v)
    case Some(c) => assert SquaredDistance(v, FromConsoleColor(c)) == SquaredDistance(v, v) == 0; c
    case None => Colors[ClosestIndex(v, |Colors|)].0
  }

  /** The exact match is also the closest entry, so the result is always
      the earliest table colour at least distance, and it is the colour
      itself for a stock value. */
  lemma NearestIsClosest(v: Rgb)
    ensures NearestConsoleColor(v) == Colors[ClosestIndex(v, |Colors|)].0
    ensures forall k | 0 <= k < |Colors| ::
      SquaredDistance(v, FromConsoleColor(NearestConsoleColor(v))) <= SquaredDistance(v, Colors[k].1)
    ensures AsConsoleColor(v).Some? ==> NearestConsoleColor(v) == AsConsoleColor(v).value
  {
    var i := ClosestIndex(v, |Colors|);
    ColorsDistinct();
    match FindValueFrom(v, 0)
    case Some(j) =>
      SquaredDistanceBounds(v, Colors[j].1);
      SquaredDistanceBounds(v, Colors[i].1);
      assert Colors[i].1 == v;
      assert i == j;
    case None =>
  }

  /** Every stock colour is its own nearest colour. */
  lemma NearestOfStock(c: ConsoleColor)
    ensures NearestConsoleColor(FromConsoleColor(c)) == c
  {
    AsConsoleColorOfStock(c);
  }

  /** `ToStringNonVT`: the legacy colour code of the exact stock colour, or
      of the nearest one unless an exact one is required. `legacyCode`
      stands for the hex key that `XanBotLogger.ConsoleColorMap` gives a
      stock colour. */
  function LegacyFormat(v: Rgb, requireExactConsoleColor: bool, legacyCode: ConsoleColor -> string)
    : (r: Result<string, NotSupportedException>)
    ensures !requireExactConsoleColor ==> r.Success?
    ensures r.Success? ==> |r.value| >= 1 && r.value[0] == '\U{A7}'
    ensures r.Failure? ==> r.error == NotSupportedException(NotStockColorMessage)
  {
    match AsConsoleColor(v)
    case Some(c) => Success("\U{A7}" + legacyCode(c))
    case None =>
      if !requireExactConsoleColor then Success("\U{A7}" + legacyCode(NearestConsoleColor(v)))
      else Failure(NotSupportedException(NotStockColorMessage))
  }

  /** The legacy format fails only when an exact colour is required and the
      value is not a stock colour; otherwise it names the nearest colour. */
  lemma LegacyFormatOutcome(v: Rgb, requireExactConsoleColor: bool, legacyCode: ConsoleColor -> string)
    ensures LegacyFormat(v, requireExactConsoleColor, legacyCode).Failure?
      <==> requireExactConsoleColor && forall c: ConsoleColor :: FromConsoleColor(c) != v
    ensures LegacyFormat(v, requireExactConsoleColor, legacyCode).Success? ==>
      LegacyFormat(v, requireExactConsoleColor, legacyCode) == Success("\U{A7}" + legacyCode(NearestConsoleColor(v)))
  {
    AsConsoleColorExact(v);
    match AsConsoleColor(v)
    case Some(c) =>
      NearestIsClosest(v);
    case None =>
  }

  /** `ToString(asVT, background)` with `ToStringNonVT()` at its default. */
  function FormatCode(v: Rgb, asVT: bool, background: bool, legacyCode: ConsoleColor -> string): (s: string)
    ensures |s| >= 1 && (s[0] == '\U{1B}' <==> asVT)
    ensures !asVT ==> Success(s) == LegacyFormat(v, false, legacyCode)
  {
    LegacyFormatOutcome(v, false, legacyCode);
    if asVT then ToStringVT(v, background) else "\U{A7}" + legacyCode(NearestConsoleColor(v))
  }

  /** The legacy format is the same for both planes, while the VT format differs. */
  lemma FormatCodeBackground(v: Rgb, legacyCode: ConsoleColor -> string)
    ensures FormatCode(v, false, true, legacyCode) == FormatCode(v, false, false, legacyCode)
    ensures FormatCode(v, true, true, legacyCode) != FormatCode(v, true, false, legacyCode)
  {
    if FormatCode(v, true, true, legacyCode) == FormatCode(v, true, false, legacyCode) {
      ToStringVTInjective(v, true, v, false);
    }
  }

  /** A `ConsoleColorVT` object: a fixed colour and the cache of its nearest
      stock colour. */
  class ConsoleColorVT {
    const R: Byte
    const G: Byte
    const B: Byte
    var nearestConsoleColorCache: Option<ConsoleColor>

    /** A cached colour is the one the search would find. */
    ghost predicate Valid()
      reads this
    {
      nearestConsoleColorCache.Some? ==> nearestConsoleColorCache.value == NearestConsoleColor(Value())
    }

    function Value(): Rgb {
      Rgb(R, G, B)
    }

    constructor (r: Byte, g: Byte, b: Byte)
      ensures R == r && G == g && B == b
      ensures nearestConsoleColorCache == None
      ensures Valid()
    {
      R, G, B := r, g, b;
      nearestConsoleColorCache := None;
    }

    /** `Equals(object)`: componentwise on R, G and B; false for null and
        for an object that is not a colour. */
    predicate Equals(obj: object?): (r: bool)
      ensures r ==> obj is ConsoleColorVT && (obj as ConsoleColorVT).Value() == Value()
      ensures obj == this ==> r
    {
      obj != null && obj is ConsoleColorVT
      && var other := obj as ConsoleColorVT;
      R == other.R && G == other.G && B == other.B
    }

    /** `GetNearestConsoleColor`, which fills the cache on the first search. */
    method GetNearestConsoleColor() returns (c: ConsoleColor)
      requires Valid()
      modifies this`nearestConsoleColorCache
      ensures Valid()
      ensures c == NearestConsoleColor(Value())
      ensures AsConsoleColor(Value()).Some? ==> nearestConsoleColorCache == old(nearestConsoleColorCache)
      ensures AsConsoleColor(Value()).None? ==> nearestConsoleColorCache == Some(c)
    {
      var retn := AsConsoleColor(Value());
      if retn.Some? {
        return retn.value;
      }
      if nearestConsoleColorCache.Some? {
        return nearestConsoleColorCache.value;
      }
      var minObj := White;
      var minDist := DistanceSentinel;
      for i := 0 to |Colors|
        invariant i == 0 ==> minObj == White && minDist == DistanceSentinel
        invariant i > 0 ==>
          minObj == Colors[ClosestIndex(Value(), i)].0
          && minDist == SquaredDistance(Value(), Colors[ClosestIndex(Value(), i)].1)
      {
        var distance := SquaredDistance(Value(), Colors[i].1);
        SquaredDistanceBounds(Value(), Colors[i].1);
        if distance < minDist {
          minObj := Colors[i].0;
          minDist := distance;
        }
      }
      nearestConsoleColorCache := Some(minObj);
      return minObj;
    }

    /** `ToStringNonVT(requireExactConsoleColor)`. */
    method ToStringNonVT(requireExactConsoleColor: bool, legacyCode: ConsoleColor -> string)
      returns (r: Result<string, NotSupportedException>)
      requires Valid()
      modifies this`nearestConsoleColorCache
      ensures Valid()
      ensures r == LegacyFormat(Value(), requireExactConsoleColor, legacyCode)
      ensures AsConsoleColor(Value()).Some? || requireExactConsoleColor ==>
        nearestConsoleColorCache == old(nearestConsoleColorCache)
      ensures AsConsoleColor(Value()).None? && !requireExactConsoleColor ==>
        nearestConsoleColorCache == Some(NearestConsoleColor(Value()))
    {
      var exact := AsConsoleColor(Value());
      if exact.Some? {
        return Success("\U{A7}" + legacyCode(exact.value));
      }
      if !requireExactConsoleColor {
        var nearest := GetNearestConsoleColor();
        return Success("\U{A7}" + legacyCode(nearest));
      }
      return Failure(NotSupportedException(NotStockColorMessage));
    }

    /** `ToString(asVT, background)`. */
    method ToString(asVT: bool, background: bool, legacyCode: ConsoleColor -> string) returns (s: string)
      requires Valid()
      modifies this`nearestConsoleColorCache
      ensures Valid()
      ensures s == FormatCode(Value(), asVT, background, legacyCode)
      ensures asVT || AsConsoleColor(Value()).Some? ==> nearestConsoleColorCache == old(nearestConsoleColorCache)
      ensures !asVT && AsConsoleColor(Value()).None? ==> nearestConsoleColorCache == Some(NearestConsoleColor(Value()))
    {
      if asVT {
        return ToStringVT(Value(), background);
      }
      var r := ToStringNonVT(false, legacyCode);
      LegacyFormatOutcome(Value(), false, legacyCode);
      return r.value;
    }
  }

  /** `operator ==`: two nulls are equal, null and an object are not, and
      two objects compare by `Equals`. */
  function OpEquals(alpha: ConsoleColorVT?, bravo: ConsoleColorVT?): (r: bool)
    ensures r <==> (alpha == null && bravo == null) || (alpha != null && bravo != null && alpha.Value() == bravo.Value())
  {
    if alpha == null then bravo == null
    else if bravo == null then false
    else alpha.Equals(bravo)
  }

  /** `operator !=`. */
  function OpNotEquals(alpha: ConsoleColorVT?, bravo: ConsoleColorVT?): (r: bool)
    ensures r <==> (alpha == null) != (bravo == null) || (alpha != null && bravo != null && alpha.Value() != bravo.Value())
  {
    if alpha == null then bravo != null
    else if bravo == null then true
    else !alpha.Equals(bravo)
  }

  /** `!=` is always the negation of `==`. */
  lemma OpNotEqualsNegates(alpha: ConsoleColorVT?, bravo: ConsoleColorVT?)
    ensures OpNotEquals(alpha, bravo) == !OpEquals(alpha, bravo)
  {
  }

  /** `==` is an equivalence relation. */
  lemma OpEqualsEquivalence(a: ConsoleColorVT?, b: ConsoleColorVT?, c: ConsoleColorVT?)
    ensures OpEquals(a, a)
    ensures OpEquals(a, b) == OpEquals(b, a)
    ensures OpEquals(a, b) && OpEquals(b, c) ==> OpEquals(a, c)
  {
  }

  /** `Equals` is false for null and for any object that is not a colour. */
  lemma EqualsRejectsOthers(self: ConsoleColorVT, obj: object?)
    ensures obj == null ==> !self.Equals(obj)
    ensures obj != null && !(obj is ConsoleColorVT) ==> !self.Equals(obj)
    ensures obj is ConsoleColorVT ==> (self.Equals(obj) <==> self.Value() == (obj as ConsoleColorVT).Value())
  {
  }
}
