/** Text helpers shared by the services: the decimal text a JavaScript
    template literal gives a non-negative integer, decimal parsing,
    `String.prototype.padStart`, and the UTF-8 encoding that
    `Buffer.from(string)` and `hash.update(string)` apply to a string. */
module Text {
  import opened Wrappers

  type Byte = b: int | 0 <= b < 256

  /** JavaScript truthiness of a string field that may be missing: present
      and not empty. */
  predicate Truthy(s: Option<string>) {
    s.Some? && s.value != ""
  }

  predicate IsDigit(c: char) {
    '0' <= c <= '9'
  }

  predicate AllDigits(s: string) {
    forall i :: 0 <= i < |s| ==> IsDigit(s[i])
  }

  function DigitChar(d: nat): (c: char)
    requires d < 10
    ensures IsDigit(c) && DigitValue(c) == d
  {
    ('0' as int + d) as char
  }

  function DigitValue(c: char): (d: nat)
    requires IsDigit(c)
    ensures d < 10
  {
    c as int - '0' as int
  }

  /** `String(n)` for a non-negative integer: its decimal digits, without
      leading zeros. */
  function NatToString(n: nat): (s: string)
    ensures 1 <= |s| && AllDigits(s)
    ensures |s| > 1 ==> s[0] != '0'
    ensures n < 10 <==> |s| == 1
    decreases n
  {
    if n < 10 then [DigitChar(n)] else NatToString(n / 10) + [DigitChar(n % 10)]
  }

  /** The value of a string of decimal digits (leading zeros allowed). */
  function ParseNat(s: string): nat
    requires AllDigits(s)
  {
    if s == [] then 0 else 10 * ParseNat(s[..|s| - 1]) + DigitValue(s[|s| - 1])
  }

  lemma {:induction false} ParseNatToString(n: nat)
    ensures ParseNat(NatToString(n)) == n
  {
    if n >= 10 {
      var s := NatToString(n);
      assert s[..|s| - 1] == NatToString(n / 10);
      ParseNatToString(n / 10);
    }
  }

  lemma NatToStringInjective(m: nat, n: nat)
    requires NatToString(m) == NatToString(n)
    ensures m == n
  {
    ParseNatToString(m);
    ParseNatToString(n);
  }

  lemma {:induction false} ParseNatLeadingZero(s: string)
    requires AllDigits(s)
    ensures AllDigits("0" + s) && ParseNat("0" + s) == ParseNat(s)
    decreases |s|
  {
    if s != [] {
      assert ("0" + s)[..|s|] == "0" + s[..|s| - 1];
      ParseNatLeadingZero(s[..|s| - 1]);
    }
  }

  /** `s.padStart(targetLength, filler)` for a one-character filler. */
  function PadStart(s: string, targetLength: nat, filler: char): (r: string)
    ensures |r| == if |s| < targetLength then targetLength else |s|
  {
    if |s| >= targetLength then s else seq(targetLength - |s|, _ => filler) + s
  }

  /** Padding only prepends fillers: the string itself ends the result. */
  lemma PadStartKeepsSuffix(s: string, targetLength: nat, filler: char)
    ensures var r := PadStart(s, targetLength, filler);
      r[|r| - |s|..] == s && forall i :: 0 <= i < |r| - |s| ==> r[i] == filler
  {
  }

  /** `String(n).padStart(2, '0')`. */
  function Pad2(n: nat): string {
    PadStart(NatToString(n), 2, '0')
  }

  /** A value below 100 pads to exactly two digits. */
  lemma Pad2Shape(n: nat)
    requires n < 100
    ensures |Pad2(n)| == 2 && AllDigits(Pad2(n))
  {
    if n >= 10 {
      assert NatToString(n) == NatToString(n / 10) + [DigitChar(n % 10)];
    }
  }

  /** A value below 100 gives two digits that read back as the value; a
      one-digit value gets a leading '0', a two-digit value is unchanged. */
  lemma Pad2Digits(n: nat)
    requires n < 100
    ensures |Pad2(n)| == 2 && AllDigits(Pad2(n)) && ParseNat(Pad2(n)) == n
    ensures n < 10 ==> Pad2(n) == "0" + NatToString(n)
    ensures 10 <= n ==> Pad2(n) == NatToString(n)
  {
    Pad2Shape(n);
    ParseNatToString(n);
    if n < 10 {
      assert Pad2(n) == "0" + NatToString(n);
      ParseNatLeadingZero(NatToString(n));
    }
  }

  predicate IsAscii(c: char) {
    c as int < 0x80
  }

  /** The UTF-8 encoding of one Unicode scalar value. */
  function Utf8Char(c: char): (bs: seq<Byte>)
    ensures 1 <= |bs| <= 4
    ensures |bs| == 1 <==> IsAscii(c)
    ensures IsAscii(c) ==> bs == [c as int]
  {
    var v := c as int;
    if v < 0x80 then [v]
    else if v < 0x800 then [0xC0 + v / 0x40, 0x80 + v % 0x40]
    else if v < 0x1_0000 then [0xE0 + v / 0x1000, 0x80 + (v / 0x40) % 0x40, 0x80 + v % 0x40]
    else [0xF0 + v / 0x4_0000, 0x80 + (v / 0x1000) % 0x40, 0x80 + (v / 0x40) % 0x40, 0x80 + v % 0x40]
  }

  function Utf8Encode(s: string): seq<Byte> {
    if s == [] then [] else Utf8Char(s[0]) + Utf8Encode(s[1..])
  }

  lemma {:induction false} Utf8Append(a: string, b: string)
    ensures Utf8Encode(a + b) == Utf8Encode(a) + Utf8Encode(b)
    decreases |a|
  {
    if a != [] {
      assert (a + b)[1..] == a[1..] + b;
      Utf8Append(a[1..], b);
    } else {
      assert a + b == b;
    }
  }

  /** An ASCII string encodes to one byte per character, the character's code. */
  lemma {:induction false} Utf8Ascii(s: string)
    requires forall i :: 0 <= i < |s| ==> IsAscii(s[i])
    ensures |Utf8Encode(s)| == |s|
    ensures forall i :: 0 <= i < |s| ==> Utf8Encode(s)[i] == s[i] as int
    decreases |s|
  {
    if s != [] {
      Utf8Ascii(s[1..]);
    }
  }
}
