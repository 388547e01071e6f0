/** Lower-case hexadecimal text of a byte string, as Node's
    `digest('hex')` produces it, with its decoder. */
module Hex {
  import opened Wrappers
  import opened Text

  predicate IsLowerHex(c: char) {
    '0' <= c <= '9' || 'a' <= c <= 'f'
  }

  function HexDigit(n: nat): (c: char)
    requires n < 16
    ensures IsLowerHex(c) && HexValue(c) == n
  {
    if n < 10 then ('0' as int + n) as char else ('a' as int + n - 10) as char
  }

  function HexValue(c: char): (n: nat)
    requires IsLowerHex(c)
    ensures n < 16
  {
    if c <= '9' then c as int - '0' as int else c as int - 'a' as int + 10
  }

  /** Two digits per byte, high nibble first. */
  function HexEncode(bs: seq<Byte>): (s: string)
    ensures |s| == 2 * |bs|
    ensures forall i :: 0 <= i < |s| ==> IsLowerHex(s[i])
  {
    if bs == [] then [] else [HexDigit(bs[0] / 16), HexDigit(bs[0] % 16)] + HexEncode(bs[1..])
  }

  function HexDecode(s: string): Option<seq<Byte>>
    decreases |s|
  {
    if s == [] then Some([])
    else if |s| == 1 || !IsLowerHex(s[0]) || !IsLowerHex(s[1]) then None
    else match HexDecode(s[2..])
      case None => None
      case Some(rest) => Some([16 * HexValue(s[0]) + HexValue(s[1])] + rest)
  }

  lemma {:induction false} HexRoundTrip(bs: seq<Byte>)
    ensures HexDecode(HexEncode(bs)) == Some(bs)
  {
    if bs != [] {
      var s := HexEncode(bs);
      assert s[2..] == HexEncode(bs[1..]);
      HexRoundTrip(bs[1..]);
      assert [bs[0]] + bs[1..] == bs;
    }
  }

  /** The first 2k hex digits are exactly the hex text of the first k bytes. */
  lemma {:induction false} HexPrefix(bs: seq<Byte>, k: nat)
    requires k <= |bs|
    ensures HexEncode(bs)[..2 * k] == HexEncode(bs[..k])
  {
    if k > 0 {
      var s := HexEncode(bs);
      assert s == [HexDigit(bs[0] / 16), HexDigit(bs[0] % 16)] + HexEncode(bs[1..]);
      HexPrefix(bs[1..], k - 1);
      assert bs[..k][1..] == bs[1..][..k - 1];
    }
  }
}
