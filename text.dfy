/**
 * Small string codecs: decimal and hexadecimal digits, the `#rrggbb` colour
 * codec of modules/color-detect.js and modules/ui.js, `String.prototype.trim`
 * and the XLSX sheet-name sanitiser of data-history.js.
 */
module Text {
  import opened Wrappers

  // ---------------------------------------------------------------------
  // Decimal numerals (template literals such as `${base} (${suffix})`)

  function DecimalDigit(d: nat): char
    requires d < 10
  {
    "0123456789"[d]
  }

  /** `String(n)` for a natural number. */
  function NatToString(n: nat): (s: string)
    ensures |s| >= 1
    decreases n
  {
    if n < 10 then [DecimalDigit(n)] else NatToString(n / 10) + [DecimalDigit(n % 10)]
  }

  function Pow10(m: nat): (p: nat)
    ensures p >= 1
  {
    if m == 0 then 1 else 10 * Pow10(m - 1)
  }

  /** A numeral of at most `m` digits denotes a number below `10^m`. */
  lemma {:induction false} NatToStringShort(n: nat, m: nat)
    ensures |NatToString(n)| <= m ==> n < Pow10(m)
  {
    if m > 0 && n >= 10 {
      NatToStringShort(n / 10, m - 1);
    }
  }

  // ---------------------------------------------------------------------
  // Hexadecimal colours

  datatype Rgb = Rgb(r: int, g: int, b: int)

  predicate InByte(v: int) { 0 <= v <= 255 }

  predicate IsByteColor(c: Rgb) { InByte(c.r) && InByte(c.g) && InByte(c.b) }

  /** A hexadecimal digit in the lower case `toString(16)` writes. */
  function HexDigit(d: nat): (c: char)
    requires d < 16
    ensures IsLowerHexDigit(c)
  {
    if d < 10 then ('0' as int + d) as char else ('a' as int + d - 10) as char
  }

  predicate IsLowerHexDigit(c: char) { '0' <= c <= '9' || 'a' <= c <= 'f' }

  /** The value of a hexadecimal digit, either case, or nothing for any other character. */
  function HexValue(c: char): (v: Option<nat>)
    ensures v.Some? ==> v.value < 16
    ensures v.Some? <==> ('0' <= c <= '9' || 'a' <= c <= 'f' || 'A' <= c <= 'F')
  {
    if '0' <= c <= '9' then Some(c as int - '0' as int)
    else if 'a' <= c <= 'f' then Some(c as int - 'a' as int + 10)
    else if 'A' <= c <= 'F' then Some(c as int - 'A' as int + 10)
    else None
  }

  /** Reading a written digit gives its value back. */
  lemma HexDigitValue(d: nat)
    requires d < 16
    ensures HexValue(HexDigit(d)) == Some(d)
  {
  }

  /** `v.toString(16)` for a natural number. */
  function NatToHex(n: nat): (s: string)
    ensures |s| >= 1
    decreases n
  {
    if n < 16 then [HexDigit(n)] else NatToHex(n / 16) + [HexDigit(n % 16)]
  }

  /** `v.toString(16)` for an integer: a minus sign in front of a negative one. */
  function IntToHex(v: int): string
  {
    if v < 0 then "-" + NatToHex(-v) else NatToHex(v)
  }

  /** `s.padStart(2, '0')`. */
  function PadStart2(s: string): (p: string)
    ensures |p| == if |s| < 2 then 2 else |s|
  {
    if |s| == 0 then "00" else if |s| == 1 then "0" + s else s
  }

  /** The two-character form of one channel in `rgbToHex`. */
  function ChannelHex(v: int): string
  {
    PadStart2(IntToHex(v))
  }

  /** `rgbToHex`: `#` followed by each channel in hexadecimal, padded to two digits. */
  function RgbToHex(c: Rgb): (s: string)
  {
    "#" + ChannelHex(c.r) + ChannelHex(c.g) + ChannelHex(c.b)
  }

  /** A byte channel is written as exactly two lower-case hexadecimal digits giving its value. */
  lemma ByteChannelHex(v: int)
    requires InByte(v)
    ensures ChannelHex(v) == [HexDigit(v / 16), HexDigit(v % 16)]
    ensures HexValue(ChannelHex(v)[0]) == Some(v / 16) && HexValue(ChannelHex(v)[1]) == Some(v % 16)
    ensures (v / 16) * 16 + v % 16 == v
  {
    if v < 16 {
      assert NatToHex(v) == [HexDigit(v)];
    } else {
      assert NatToHex(v / 16) == [HexDigit(v / 16)];
    }
    HexDigitValue(v / 16);
    HexDigitValue(v % 16);
  }

  /** The two-hex-digit byte at positions `i` and `i + 1`. */
  function HexByte(s: string, i: nat): Option<int>
    requires i + 1 < |s|
  {
    var hi, lo := HexValue(s[i]), HexValue(s[i + 1]);
    if hi.Some? && lo.Some? then Some(hi.value * 16 + lo.value) else None
  }

  /**
   * `hexToRgb`: an optional `#` followed by exactly six hexadecimal digits of
   * either case, read as three bytes; anything else gives `null`.
   */
  function HexToRgb(s: string): (c: Option<Rgb>)
    ensures c.Some? ==> IsByteColor(c.value)
  {
    var digits := Digits(s);
    if |digits| != 6 then None
    else
      var r, g, b := HexByte(digits, 0), HexByte(digits, 2), HexByte(digits, 4);
      if r.Some? && g.Some? && b.Some? then Some(Rgb(r.value, g.value, b.value)) else None
  }

  /** The text after an optional leading `#`. */
  function Digits(s: string): string
  {
    if |s| > 0 && s[0] == '#' then s[1..] else s
  }

  /** The exact shape `hexToRgb` accepts. */
  predicate HexColorShape(s: string)
  {
    |Digits(s)| == 6 && forall i :: 0 <= i < 6 ==> HexValue(Digits(s)[i]).Some?
  }

  /** `hexToRgb` succeeds exactly on strings of the accepted shape. */
  lemma HexToRgbAccepts(s: string)
    ensures HexToRgb(s).Some? <==> HexColorShape(s)
  {
    var digits := Digits(s);
    if |digits| == 6 && HexToRgb(s).Some? {
      assert HexByte(digits, 0).Some? && HexByte(digits, 2).Some? && HexByte(digits, 4).Some?;
      forall i | 0 <= i < 6 ensures HexValue(digits[i]).Some? {
        assert HexByte(digits, i / 2 * 2).Some?;
      }
    }
  }

  /** Formatting a byte colour yields `#` and six lower-case hexadecimal digits. */
  lemma RgbToHexShape(c: Rgb)
    requires IsByteColor(c)
    ensures |RgbToHex(c)| == 7 && RgbToHex(c)[0] == '#'
    ensures forall i :: 1 <= i < 7 ==> IsLowerHexDigit(RgbToHex(c)[i])
  {
    ByteChannelHex(c.r);
    ByteChannelHex(c.g);
    ByteChannelHex(c.b);
  }

  /** Parsing a formatted byte colour gives the colour back. */
  lemma HexRoundTrip(c: Rgb)
    requires IsByteColor(c)
    ensures HexToRgb(RgbToHex(c)) == Some(c)
  {
    ByteChannelHex(c.r);
    ByteChannelHex(c.g);
    ByteChannelHex(c.b);
    var digits := RgbToHex(c)[1..];
    assert digits == ChannelHex(c.r) + ChannelHex(c.g) + ChannelHex(c.b);
    assert HexByte(digits, 0) == Some(c.r);
    assert HexByte(digits, 2) == Some(c.g);
    assert HexByte(digits, 4) == Some(c.b);
  }

  /** The lower-case form of a hexadecimal digit of either case. */
  function LowerHexDigit(c: char): char
  {
    if 'A' <= c <= 'F' then (c as int + 32) as char else c
  }

  /** Formatting a parsed colour gives back its six digits in lower case, after a `#`. */
  lemma HexRoundTripBack(s: string)
    requires HexToRgb(s).Some?
    ensures var digits := if s[0] == '#' then s[1..] else s;
      |digits| == 6 && |RgbToHex(HexToRgb(s).value)| == 7 && RgbToHex(HexToRgb(s).value)[0] == '#' &&
      forall i :: 0 <= i < 6 ==> RgbToHex(HexToRgb(s).value)[i + 1] == LowerHexDigit(digits[i])
  {
    var digits := if s[0] == '#' then s[1..] else s;
    var c := HexToRgb(s).value;
    assert digits == Digits(s);
    assert c == Rgb(HexByte(digits, 0).value, HexByte(digits, 2).value, HexByte(digits, 4).value);
    ChannelDigits(digits, 0);
    ChannelDigits(digits, 2);
    ChannelDigits(digits, 4);
    var h := RgbToHex(c);
    var r, g, b := ChannelHex(c.r), ChannelHex(c.g), ChannelHex(c.b);
    assert h == "#" + r + g + b;
    forall i | 0 <= i < 6 ensures h[i + 1] == LowerHexDigit(digits[i]) {
      if i < 2 {
        assert h[i + 1] == r[i];
      } else if i < 4 {
        assert h[i + 1] == g[i - 2];
      } else {
        assert h[i + 1] == b[i - 4];
      }
    }
  }

  /** Writing back a byte read from two digits gives the digits in lower case. */
  lemma ChannelDigits(digits: string, i: nat)
    requires i + 1 < |digits| && HexByte(digits, i).Some?
    ensures ChannelHex(HexByte(digits, i).value)
      == [LowerHexDigit(digits[i]), LowerHexDigit(digits[i + 1])]
  {
    var hi, lo := HexValue(digits[i]).value, HexValue(digits[i + 1]).value;
    var v := hi * 16 + lo;
    assert v / 16 == hi && v % 16 == lo;
    ByteChannelHex(v);
  }

  // ---------------------------------------------------------------------
  // trim

  /**
   * The characters `trim` removes: the white space and line terminators of
   * ECMAScript (the White Space and Line Terminators sections of ECMA-262):
   * tab, vertical tab, form feed, the byte order mark, the space separators
   * of Unicode and the four line terminators.
   */
  predicate IsSpace(c: char)
  {
    || c == '\t' || c == '\U{000B}' || c == '\U{000C}' || c == ' ' || c == '\U{00A0}' || c == '\U{FEFF}'
    || c == '\U{1680}' || '\U{2000}' <= c <= '\U{200A}' || c == '\U{202F}' || c == '\U{205F}' || c == '\U{3000}'
    || c == '\n' || c == '\r' || c == '\U{2028}' || c == '\U{2029}'
  }

  /** An ideographic space alone trims to nothing. */
  lemma IdeographicSpaceTrimmed()
    ensures Trim("\U{3000}") == []
  {
    assert LeadingSpaces("\U{3000}") == 1;
  }

  /** The number of spaces `s` starts with. */
  function LeadingSpaces(s: string): (n: nat)
    ensures n <= |s|
    ensures forall k :: 0 <= k < n ==> IsSpace(s[k])
    ensures n < |s| ==> !IsSpace(s[n])
  {
    if s != [] && IsSpace(s[0]) then 1 + LeadingSpaces(s[1..]) else 0
  }

  /** The number of spaces `s` ends with. */
  function TrailingSpaces(s: string): (n: nat)
    ensures n <= |s|
    ensures forall k :: |s| - n <= k < |s| ==> IsSpace(s[k])
    ensures n < |s| ==> !IsSpace(s[|s| - n - 1])
  {
    if s != [] && IsSpace(s[|s| - 1]) then 1 + TrailingSpaces(s[..|s| - 1]) else 0
  }

  /** `s.trim()`: `s` without its leading and trailing spaces. */
  function Trim(s: string): (r: string)
    ensures var i := LeadingSpaces(s);
      exists j :: (i <= j <= |s| && r == s[i..j] && forall k :: j <= k < |s| ==> IsSpace(s[k]))
    ensures r != [] ==> !IsSpace(r[0]) && !IsSpace(r[|r| - 1])
  {
    var rest := s[LeadingSpaces(s)..];
    var r := rest[..|rest| - TrailingSpaces(rest)];
    assert r == s[LeadingSpaces(s)..|s| - TrailingSpaces(rest)];
    r
  }

  /** Trimming is idempotent. */
  lemma TrimIdempotent(s: string)
    ensures Trim(Trim(s)) == Trim(s)
  {
    var r := Trim(s);
    if r != [] {
      assert LeadingSpaces(r) == 0;
      assert TrailingSpaces(r) == 0;
    }
  }

  // ---------------------------------------------------------------------
  // XLSX sheet names (data-history.js)

  /** The characters Excel refuses in a sheet name. */
  predicate ForbiddenInSheet(c: char)
  {
    c == '\\' || c == '[' || c == ']' || c == '*' || c == '/' || c == '?' || c == ':'
  }

  /** The first 31 characters of the line name, each forbidden character replaced by `_`. */
  function SheetName(name: string): (r: string)
    ensures |r| <= 31 && |r| == if |name| < 31 then |name| else 31
    ensures forall i :: 0 <= i < |r| ==> !ForbiddenInSheet(r[i])
    ensures forall i :: 0 <= i < |r| ==> r[i] == if ForbiddenInSheet(name[i]) then '_' else name[i]
  {
    var cut := if |name| < 31 then name else name[..31];
    seq(|cut|, i requires 0 <= i < |cut| => if ForbiddenInSheet(cut[i]) then '_' else cut[i])
  }
}
