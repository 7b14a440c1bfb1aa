/**
  The C-level number conversions the platform adapter relies on: the Win32 integer
  widths (DWORD, WORD, BYTE), the LOWORD/LOBYTE/HIBYTE extraction macros, and the two
  printf conversions used by the host identity string, `%d` and `%08x`.

  Each conversion comes with its inverse (a parser) and a round-trip lemma, so that the
  rendered text is shown to determine the number it was rendered from.
*/
module Formatting {

  import opened Wrappers

  type Dword = x: int | 0 <= x < 0x1_0000_0000
  type Word = x: int | 0 <= x < 0x1_0000
  type Byte = x: int | 0 <= x < 0x100

  // ---------------------------------------------------------------------------
  // Win32 macros

  /** LOWORD(v): the low 16 bits of a DWORD. */
  function LoWord(v: Dword): (w: Word)
    ensures exists hi: Word :: v == hi * 0x1_0000 + w
  {
    var w := v % 0x1_0000;
    assert v == (v / 0x1_0000) * 0x1_0000 + w;
    w
  }

  /** LOBYTE(w): the low 8 bits of a WORD. */
  function LoByte(w: Word): (b: Byte)
    ensures (w - b) % 0x100 == 0
  {
    w % 0x100
  }

  /** HIBYTE(w): the high 8 bits of a WORD. */
  function HiByte(w: Word): (b: Byte)
    ensures b * 0x100 <= w < (b + 1) * 0x100
  {
    w / 0x100
  }

  /** A WORD is its two bytes put back together (MAKEWORD(LOBYTE(w), HIBYTE(w)) == w). */
  lemma WordFromBytes(w: Word)
    ensures w == LoByte(w) + HiByte(w) * 0x100
  {
  }

  /** MAKEWORD(lo, hi), as used for the Winsock version request. */
  function MakeWord(lo: Byte, hi: Byte): (w: Word)
    ensures LoByte(w) == lo && HiByte(w) == hi
  {
    lo + hi * 0x100
  }

  // ---------------------------------------------------------------------------
  // Digits

  predicate IsDigit(c: char) {
    '0' <= c <= '9'
  }

  predicate IsHexDigit(c: char) {
    IsDigit(c) || 'a' <= c <= 'f'
  }

  predicate AllDigits(s: string) {
    forall i :: 0 <= i < |s| ==> IsDigit(s[i])
  }

  predicate AllHexDigits(s: string) {
    forall i :: 0 <= i < |s| ==> IsHexDigit(s[i])
  }

  /** The lower-case digit for a value below 16, as printf writes it. */
  function DigitChar(d: nat): (c: char)
    requires d < 16
    ensures IsHexDigit(c)
    ensures IsDigit(c) <==> d < 10
  {
    if d < 10 then ('0' as int + d) as char else ('a' as int + d - 10) as char
  }

  function DigitValue(c: char): (d: nat)
    requires IsHexDigit(c)
    ensures d < 16 && DigitChar(d) == c
    ensures IsDigit(c) ==> d < 10
  {
    if IsDigit(c) then c as int - '0' as int else c as int - 'a' as int + 10
  }

  lemma DigitValueOfDigitChar(d: nat)
    requires d < 16
    ensures DigitValue(DigitChar(d)) == d
  {
  }

  // ---------------------------------------------------------------------------
  // Decimal: printf "%d"

  /** The decimal digits of n, most significant first, without leading zeros. */
  function Dec(n: nat): (s: string)
    ensures 1 <= |s| && AllDigits(s)
    ensures |s| > 1 ==> s[0] != '0'
  {
    if n < 10 then [DigitChar(n)] else Dec(n / 10) + [DigitChar(n % 10)]
  }

  /** The value of a string of decimal digits. */
  function DecValue(s: string): nat
    requires AllDigits(s)
  {
    if s == [] then 0 else 10 * DecValue(s[..|s| - 1]) + DigitValue(s[|s| - 1])
  }

  lemma {:induction false} DecRoundTrip(n: nat)
    ensures DecValue(Dec(n)) == n
  {
    if n >= 10 {
      var s := Dec(n);
      assert s[..|s| - 1] == Dec(n / 10);
      DecRoundTrip(n / 10);
      DigitValueOfDigitChar(n % 10);
    } else {
      DigitValueOfDigitChar(n);
    }
  }

  /** printf "%d" of a C int: a minus sign for negative values, then the magnitude. */
  function FormatInt(i: int): (s: string)
    ensures 1 <= |s|
    ensures s[0] == '-' <==> i < 0
  {
    if i < 0 then "-" + Dec(-i) else Dec(i)
  }

  /**
    A DWORD passed to "%d" is read back as a 32-bit two's complement int: values from
    2^31 upwards print as negative numbers.
  */
  function AsInt32(v: Dword): (i: int)
    ensures -0x8000_0000 <= i < 0x8000_0000
    ensures (i - v) % 0x1_0000_0000 == 0
  {
    if v < 0x8000_0000 then v else v - 0x1_0000_0000
  }

  /** The inverse of AsInt32. */
  function AsDword(i: int): (v: Dword)
    requires -0x8000_0000 <= i < 0x8000_0000
    ensures AsInt32(v) == i
  {
    if i < 0 then i + 0x1_0000_0000 else i
  }

  function PrintfD(v: Dword): (s: string)
    ensures v < 0x8000_0000 ==> s == Dec(v)
  {
    FormatInt(AsInt32(v))
  }

  /**
    Reads an optionally signed decimal number from the front of s; gives the number and
    the text after it. The number ends at the first character that is not a digit.
  */
  function ParseInt(s: string): Option<(int, string)>
  {
    var negative := |s| > 0 && s[0] == '-';
    var body := if negative then s[1..] else s;
    var k := DigitSpan(body);
    if k == 0 then None
    else
      var magnitude: int := DecValue(body[..k]);
      Some((if negative then -magnitude else magnitude, body[k..]))
  }

  /** The number of decimal digits at the front of s. */
  function DigitSpan(s: string): (k: nat)
    ensures k <= |s| && AllDigits(s[..k])
    ensures k < |s| ==> !IsDigit(s[k])
  {
    if s == [] || !IsDigit(s[0]) then 0 else 1 + DigitSpan(s[1..])
  }

  lemma {:induction false} DigitSpanOfDigits(d: string, rest: string)
    requires AllDigits(d)
    requires rest == [] || !IsDigit(rest[0])
    ensures DigitSpan(d + rest) == |d|
  {
    if d != [] {
      assert (d + rest)[1..] == d[1..] + rest;
      DigitSpanOfDigits(d[1..], rest);
    }
  }

  /** A number printed by "%d" is read back whole, whatever follows it, if that is not a digit. */
  lemma FormatIntRoundTrip(i: int, rest: string)
    requires rest == [] || !IsDigit(rest[0])
    ensures ParseInt(FormatInt(i) + rest) == Some((i, rest))
  {
    var magnitude := if i < 0 then -i else i;
    var d := Dec(magnitude);
    DigitSpanOfDigits(d, rest);
    DecRoundTrip(magnitude);
    assert (d + rest)[..|d|] == d;
    assert (d + rest)[|d|..] == rest;
    if i < 0 {
      assert FormatInt(i) + rest == "-" + (d + rest);
      assert ("-" + (d + rest))[1..] == d + rest;
    } else {
      assert d[0] != '-';
    }
  }

  lemma PrintfDRoundTrip(v: Dword, rest: string)
    requires rest == [] || !IsDigit(rest[0])
    ensures ParseInt(PrintfD(v) + rest) == Some((AsInt32(v), rest))
  {
    FormatIntRoundTrip(AsInt32(v), rest);
  }

  // ---------------------------------------------------------------------------
  // Hexadecimal: printf "%08x"

  function Pow16(k: nat): (p: nat)
    ensures p >= 1
  {
    if k == 0 then 1 else 16 * Pow16(k - 1)
  }

  /** The last `width` lower-case hex digits of n, most significant first. */
  function HexDigits(n: nat, width: nat): (s: string)
    ensures |s| == width && AllHexDigits(s)
  {
    if width == 0 then [] else HexDigits(n / 16, width - 1) + [DigitChar(n % 16)]
  }

  function HexValue(s: string): (v: nat)
    requires AllHexDigits(s)
    ensures v < Pow16(|s|)
  {
    if s == [] then 0 else 16 * HexValue(s[..|s| - 1]) + DigitValue(s[|s| - 1])
  }

  lemma {:induction false} HexRoundTrip(n: nat, width: nat)
    requires n < Pow16(width)
    ensures HexValue(HexDigits(n, width)) == n
  {
    if width > 0 {
      var s := HexDigits(n, width);
      assert s[..|s| - 1] == HexDigits(n / 16, width - 1);
      HexRoundTrip(n / 16, width - 1);
      DigitValueOfDigitChar(n % 16);
    }
  }

  lemma {:induction false} HexDigitsOfZero(width: nat)
    ensures HexDigits(0, width) == seq(width, _ => '0')
  {
    if width > 0 {
      HexDigitsOfZero(width - 1);
    }
  }

  /**
    printf "%08x" of a DWORD: at least eight digits, zero-padded; a DWORD never needs more
    than eight, so it is exactly eight.
  */
  function Printf08x(v: Dword): (s: string)
    ensures |s| == 8 && AllHexDigits(s)
  {
    HexDigits(v, 8)
  }

  lemma Printf08xRoundTrip(v: Dword)
    ensures HexValue(Printf08x(v)) == v
  {
    assert Pow16(8) == 0x1_0000_0000;
    HexRoundTrip(v, 8);
  }
}
