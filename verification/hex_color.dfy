/**
 * `UIColor(hex:)` of PantheonGoals: trim, uppercase, drop one leading
 * '#', scan a hexadecimal integer the way Foundation's `Scanner` does,
 * and take red, green and blue from bits 16-23, 8-15 and 0-7.
 */
module HexColor {
  import opened Wrappers

  /** The characters of `CharacterSet.whitespacesAndNewlines`. */
  predicate IsWhitespace(c: char)
  {
    var n := c as int;
    || n == 0x20 || 0x09 <= n <= 0x0D || n == 0x85 || n == 0xA0 || n == 0x1680
    || 0x2000 <= n <= 0x200A || n == 0x2028 || n == 0x2029 || n == 0x202F || n == 0x205F || n == 0x3000
  }

  /** Drop leading whitespace. */
  function TrimLeading(s: string): (r: string)
    ensures |r| <= |s| && r == s[|s| - |r|..]
    ensures forall i :: 0 <= i < |s| - |r| ==> IsWhitespace(s[i])
    ensures r == [] || !IsWhitespace(r[0])
  {
    if |s| > 0 && IsWhitespace(s[0]) then TrimLeading(s[1..]) else s
  }

  /** Drop trailing whitespace. */
  function TrimTrailing(s: string): (r: string)
    ensures |r| <= |s| && r == s[..|r|]
    ensures forall i :: |r| <= i < |s| ==> IsWhitespace(s[i])
    ensures r == [] || !IsWhitespace(r[|r| - 1])
  {
    if |s| > 0 && IsWhitespace(s[|s| - 1]) then TrimTrailing(s[..|s| - 1]) else s
  }

  /** `trimmingCharacters(in: .whitespacesAndNewlines)`. */
  function Trim(s: string): string
  {
    TrimLeading(TrimTrailing(s))
  }

  function Upper(c: char): (u: char)
    ensures 'a' <= c <= 'z' ==> u as int == c as int - 32
    ensures !('a' <= c <= 'z') ==> u == c
  {
    if 'a' <= c <= 'z' then (c as int - 32) as char else c
  }

  /** `uppercased()`, on ASCII letters. */
  function UpperCased(s: string): (r: string)
    ensures |r| == |s| && forall i :: 0 <= i < |s| ==> r[i] == Upper(s[i])
  {
    seq(|s|, i requires 0 <= i < |s| => Upper(s[i]))
  }

  /** Remove one leading '#', if present. */
  function StripHash(s: string): (r: string)
    ensures |s| > 0 && s[0] == '#' ==> r == s[1..]
    ensures !(|s| > 0 && s[0] == '#') ==> r == s
  {
    if |s| > 0 && s[0] == '#' then s[1..] else s
  }

  /** The string the scanner sees. */
  function Prepared(hex: string): string
  {
    StripHash(UpperCased(Trim(hex)))
  }

  predicate IsHexDigit(c: char)
  {
    ('0' <= c <= '9') || ('A' <= c <= 'F') || ('a' <= c <= 'f')
  }

  predicate AllHex(s: string)
  {
    forall i :: 0 <= i < |s| ==> IsHexDigit(s[i])
  }

  function DigitValue(c: char): (v: nat)
    requires IsHexDigit(c)
    ensures v < 16
  {
    if '0' <= c <= '9' then c as int - '0' as int
    else if 'A' <= c <= 'F' then c as int - 'A' as int + 10
    else c as int - 'a' as int + 10
  }

  /** The value of a string of hex digits, most significant first. */
  function HexValue(s: string): nat
    requires AllHex(s)
  {
    if s == [] then 0 else HexValue(s[..|s| - 1]) * 16 + DigitValue(s[|s| - 1])
  }

  /** The longest prefix made of hex digits. */
  function HexPrefix(s: string): (p: string)
    ensures |p| <= |s| && p == s[..|p|] && AllHex(p)
    ensures |p| == |s| || !IsHexDigit(s[|p|])
  {
    if |s| > 0 && IsHexDigit(s[0]) then [s[0]] + HexPrefix(s[1..]) else []
  }

  const UInt64Max: nat := 0xFFFF_FFFF_FFFF_FFFF

  /** `scanHexInt64` reports the largest value on overflow. */
  function Saturate(v: nat): (r: nat)
    ensures r <= UInt64Max
    ensures v <= UInt64Max ==> r == v
    ensures v > UInt64Max ==> r == UInt64Max
  {
    if v > UInt64Max then UInt64Max else v
  }

  /** Step over "0x" or "0X" when a digit follows it. */
  function SkipHexPrefix(t: string): (r: string)
    ensures |r| == |t| || (|t| >= 3 && r == t[2..] && IsHexDigit(r[0]))
  {
    if |t| >= 3 && t[0] == '0' && (t[1] == 'x' || t[1] == 'X') && IsHexDigit(t[2]) then t[2..] else t
  }

  /** Where the digits start: after skipped whitespace and an optional prefix. */
  function DigitsStart(s: string): string
  {
    SkipHexPrefix(TrimLeading(s))
  }

  /** `Scanner(string:).scanHexInt64`: the value, or None when no digit scans. */
  function ScanHex(s: string): (r: Option<nat>)
    ensures r.Some? ==> r.value <= UInt64Max
    ensures r.None? <==> HexPrefix(DigitsStart(s)) == []
  {
    var digits := HexPrefix(DigitsStart(s));
    if digits == [] then None else Some(Saturate(HexValue(digits)))
  }

  /** The scanned value, left at 0 when nothing scans. */
  function Scanned(s: string): (v: nat)
    ensures v <= UInt64Max
    ensures ScanHex(s).None? ==> v == 0
  {
    match ScanHex(s)
    case None => 0
    case Some(v) => v
  }

  function Red(v: nat): (r: nat)   { (v / 0x1_0000) % 0x100 }
  function Green(v: nat): (g: nat) { (v / 0x100) % 0x100 }
  function Blue(v: nat): (b: nat)  { v % 0x100 }

  /** The three masks take the low 24 bits apart, each channel one byte. */
  lemma ChannelsSplitLowBits(v: nat)
    ensures Red(v) < 256 && Green(v) < 256 && Blue(v) < 256
    ensures Red(v) * 0x1_0000 + Green(v) * 0x100 + Blue(v) == v % 0x100_0000
  {
    var q1 := v / 0x100;
    var q2 := q1 / 0x100;
    var q3 := q2 / 0x100;
    var b, g, r := v % 0x100, q1 % 0x100, q2 % 0x100;
    assert v == 0x100 * q1 + b;
    assert q1 == 0x100 * q2 + g;
    assert q2 == 0x100 * q3 + r;
    assert v == 0x1_0000 * q2 + (0x100 * g + b);
    assert v / 0x1_0000 == q2;
    assert v == 0x100_0000 * q3 + (0x1_0000 * r + 0x100 * g + b);
  }

  datatype Color = Color(red: real, green: real, blue: real, alpha: real)

  /** The colour of a scanned value: channels over 255, opaque. */
  function ColorOfValue(v: nat): (c: Color)
    ensures 0.0 <= c.red <= 1.0 && 0.0 <= c.green <= 1.0 && 0.0 <= c.blue <= 1.0
    ensures c.alpha == 1.0
    ensures c.red * 255.0 == Red(v) as real && c.green * 255.0 == Green(v) as real && c.blue * 255.0 == Blue(v) as real
  {
    Color(Red(v) as real / 255.0, Green(v) as real / 255.0, Blue(v) as real / 255.0, 1.0)
  }

  /** `UIColor(hex:)`. */
  function ColorOf(hex: string): (c: Color)
    ensures c.alpha == 1.0
    ensures ScanHex(Prepared(hex)).None? ==> c == Color(0.0, 0.0, 0.0, 1.0)
  {
    var v := Scanned(Prepared(hex));
    BlackOfZero();
    ColorOfValue(v)
  }

  lemma BlackOfZero()
    ensures ColorOfValue(0) == Color(0.0, 0.0, 0.0, 1.0)
  {
    assert Red(0) == 0 && Green(0) == 0 && Blue(0) == 0;
  }

  // ---------------------------------------------------------------------
  // The initialiser, step by step

  lemma SaturateStep(x: nat, d: nat)
    requires d < 16
    ensures Saturate(Saturate(x) * 16 + d) == Saturate(x * 16 + d)
  {
    if x > UInt64Max {
      assert x * 16 + d >= x;
    }
  }

  lemma HexValueSnoc(s: string, c: char)
    requires AllHex(s) && IsHexDigit(c)
    ensures AllHex(s + [c]) && HexValue(s + [c]) == HexValue(s) * 16 + DigitValue(c)
  {
    assert (s + [c])[..|s|] == s;
  }

  /** The scanner skipping its leading whitespace. */
  method SkipWhitespace(s: string) returns (i: nat)
    ensures i <= |s| && s[i..] == TrimLeading(s)
  {
    i := 0;
    while i < |s| && IsWhitespace(s[i])
      invariant 0 <= i <= |s|
      invariant TrimLeading(s[i..]) == TrimLeading(s)
    {
      assert s[i..][1..] == s[i + 1..];
      i := i + 1;
    }
  }

  /** The scanner reading hex digits while they last, saturating on overflow. */
  method ScanDigits(t: string) returns (n: nat, value: nat)
    ensures n <= |t| && HexPrefix(t) == t[..n]
    ensures value == Saturate(HexValue(t[..n]))
  {
    n := 0;
    value := 0;
    while n < |t| && IsHexDigit(t[n])
      invariant n <= |t| && AllHex(t[..n])
      invariant value == Saturate(HexValue(t[..n]))
    {
      SaturateStep(HexValue(t[..n]), DigitValue(t[n]));
      HexValueSnoc(t[..n], t[n]);
      assert t[..n + 1] == t[..n] + [t[n]];
      value := Saturate(value * 16 + DigitValue(t[n]));
      n := n + 1;
    }
    PrefixGrows(t, n);
    PrefixStops(t, n);
  }

  /** `scanHexInt64`, leaving the value at 0 when nothing scans. */
  method ScanHexInt64(s: string) returns (found: bool, value: nat)
    ensures found <==> ScanHex(s).Some?
    ensures value == Scanned(s)
  {
    var i := SkipWhitespace(s);
    var t := SkipHexPrefix(s[i..]);
    var n, scanned := ScanDigits(t);
    ScannedFromPrefix(s, t[..n]);
    found := n > 0;
    value := if found then scanned else 0;
  }

  lemma ScannedFromPrefix(s: string, digits: string)
    requires digits == HexPrefix(DigitsStart(s))
    ensures ScanHex(s).Some? <==> digits != []
    ensures Scanned(s) == if digits == [] then 0 else Saturate(HexValue(digits))
  {
  }

  /** A run of hex digits is inside the longest hex prefix. */
  lemma {:induction false} PrefixGrows(s: string, n: nat)
    requires n <= |s| && AllHex(s[..n])
    ensures |HexPrefix(s)| >= n && HexPrefix(s)[..n] == s[..n]
    decreases n
  {
    if n > 0 {
      assert s[1..][..n - 1] == s[1..n];
      PrefixGrows(s[1..], n - 1);
    }
  }

  /** The longest hex prefix ends where the digits stop. */
  lemma PrefixStops(s: string, n: nat)
    requires n <= |s| && |HexPrefix(s)| >= n && HexPrefix(s)[..n] == s[..n]
    requires n == |s| || !IsHexDigit(s[n])
    ensures HexPrefix(s) == s[..n]
  {
  }

  /** The initialiser itself, mutating its local string as the source does. */
  method InitColor(hex: string) returns (c: Color)
    ensures c == ColorOf(hex)
  {
    var hexString := UpperCased(Trim(hex));
    if |hexString| > 0 && hexString[0] == '#' {
      hexString := hexString[1..];
    }
    var _, rgbValue := ScanHexInt64(hexString);
    c := ColorOfValue(rgbValue);
  }

  // ---------------------------------------------------------------------
  // Round trip

  function HexDigitChar(d: nat): (c: char)
    requires d < 16
    ensures IsHexDigit(c) && UpperHexDigit(c) && DigitValue(c) == d
  {
    if d < 10 then ('0' as int + d) as char else ('A' as int + d - 10) as char
  }

  /** Two upper-case hex digits for a byte. */
  function HexByte(b: nat): (s: string)
    requires b < 256
    ensures |s| == 2 && AllHex(s) && UpperHexDigit(s[0]) && UpperHexDigit(s[1])
  {
    [HexDigitChar(b / 16), HexDigitChar(b % 16)]
  }

  /** `#RRGGBB`, as the app writes its colour constants. */
  function HexString(r: nat, g: nat, b: nat): (s: string)
    requires r < 256 && g < 256 && b < 256
  {
    "#" + HexByte(r) + HexByte(g) + HexByte(b)
  }

  lemma HexByteValue(b: nat)
    requires b < 256
    ensures HexValue(HexByte(b)) == b
  {
    var s := HexByte(b);
    assert s[..1] == [s[0]] && [s[0]][..0] == [];
    assert HexValue([s[0]]) == b / 16;
    assert HexValue(s) == HexValue(s[..1]) * 16 + b % 16;
  }

  lemma HexValueSixDigits(r: nat, g: nat, b: nat)
    requires r < 256 && g < 256 && b < 256
    ensures AllHex(HexByte(r) + HexByte(g) + HexByte(b))
    ensures HexValue(HexByte(r) + HexByte(g) + HexByte(b)) == r * 0x1_0000 + g * 0x100 + b
  {
    var hr, hg, hb := HexByte(r), HexByte(g), HexByte(b);
    HexByteValue(r);
    HexByteValue(g);
    HexByteValue(b);
    HexValueSnoc(hr, hg[0]);
    assert hr + [hg[0]] + [hg[1]] == hr + hg;
    HexValueSnoc(hr + [hg[0]], hg[1]);
    assert HexValue(hg) == DigitValue(hg[0]) * 16 + DigitValue(hg[1]) by {
      assert hg[..1] == [hg[0]];
      assert [hg[0]][..0] == [];
    }
    assert HexValue(hr + hg) == r * 0x100 + g;
    HexValueSnoc(hr + hg, hb[0]);
    assert hr + hg + [hb[0]] + [hb[1]] == hr + hg + hb;
    HexValueSnoc(hr + hg + [hb[0]], hb[1]);
    assert HexValue(hb) == DigitValue(hb[0]) * 16 + DigitValue(hb[1]) by {
      assert hb[..1] == [hb[0]];
      assert [hb[0]][..0] == [];
    }
  }

  /** Channel extraction inverts the packing of three bytes. */
  lemma ChannelsOfPacked(v: nat, r: nat, g: nat, b: nat)
    requires r < 256 && g < 256 && b < 256
    requires v == r * 0x1_0000 + g * 0x100 + b
    ensures Red(v) == r && Green(v) == g && Blue(v) == b
  {
  }

  predicate UpperHexDigit(c: char)
  {
    ('0' <= c <= '9') || ('A' <= c <= 'F')
  }

  /** Trimming and uppercasing leave `#RRGGBB` as it is; the '#' then goes. */
  lemma PreparedHexString(r: nat, g: nat, b: nat)
    requires r < 256 && g < 256 && b < 256
    ensures Prepared(HexString(r, g, b)) == HexByte(r) + HexByte(g) + HexByte(b)
  {
    var digits := HexByte(r) + HexByte(g) + HexByte(b);
    var s := HexString(r, g, b);
    assert s == ['#'] + digits;
    assert s[|s| - 1] == HexByte(b)[1];
    TrimTrailingKeeps(s);
    TrimLeadingKeeps(s);
    assert Trim(s) == s;
    UpperDigitsKeep(s, digits);
  }

  lemma TrimTrailingKeeps(s: string)
    requires |s| > 0 && UpperHexDigit(s[|s| - 1])
    ensures TrimTrailing(s) == s
  {
  }

  lemma TrimLeadingKeeps(s: string)
    requires |s| > 0 && s[0] == '#'
    ensures TrimLeading(s) == s
  {
  }

  /** Upper-case digits after a '#' are left alone by uppercasing. */
  lemma UpperDigitsKeep(s: string, digits: string)
    requires s == ['#'] + digits
    requires forall i :: 0 <= i < |digits| ==> UpperHexDigit(digits[i])
    ensures UpperCased(s) == s
  {
    forall i | 0 <= i < |s|
      ensures UpperCased(s)[i] == s[i]
    {
      if i > 0 {
        assert s[i] == digits[i - 1];
      }
    }
  }

  /** The six digits scan whole, with no prefix to skip and no overflow. */
  lemma ScanSixDigits(r: nat, g: nat, b: nat)
    requires r < 256 && g < 256 && b < 256
    ensures Scanned(HexByte(r) + HexByte(g) + HexByte(b)) == r * 0x1_0000 + g * 0x100 + b
  {
    var digits := HexByte(r) + HexByte(g) + HexByte(b);
    assert TrimLeading(digits) == digits;
    assert DigitsStart(digits) == digits;
    HexValueSixDigits(r, g, b);
    assert digits[..|digits|] == digits;
    PrefixGrows(digits, |digits|);
    assert HexPrefix(digits) == digits;
  }

  /** Parsing `#RRGGBB` gives back exactly the three bytes, opaque. */
  lemma HexRoundTrip(r: nat, g: nat, b: nat)
    requires r < 256 && g < 256 && b < 256
    ensures ColorOf(HexString(r, g, b)) == Color(r as real / 255.0, g as real / 255.0, b as real / 255.0, 1.0)
  {
    var hex := HexString(r, g, b);
    var digits := HexByte(r) + HexByte(g) + HexByte(b);
    PreparedHexString(r, g, b);
    assert Prepared(hex) == digits;
    ScanSixDigits(r, g, b);
    var v := Scanned(digits);
    assert ColorOf(hex) == ColorOfValue(v);
    ChannelsOfPacked(v, r, g, b);
    ColorOfChannels(v, r, g, b);
  }

  lemma ColorOfChannels(v: nat, r: nat, g: nat, b: nat)
    requires Red(v) == r && Green(v) == g && Blue(v) == b
    ensures ColorOfValue(v) == Color(r as real / 255.0, g as real / 255.0, b as real / 255.0, 1.0)
  {
  }
}
