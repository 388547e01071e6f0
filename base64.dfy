/** Base64 with the standard alphabet and '=' padding (section 4 of
    RFC 4648), as `Buffer.prototype.toString('base64')` writes it. */
module Base64 {
  import opened Wrappers
  import opened Text

  function Char(i: nat): (c: char)
    requires i < 64
    ensures IsBase64Char(c) && Index(c) == i
  {
    if i < 26 then ('A' as int + i) as char
    else if i < 52 then ('a' as int + i - 26) as char
    else if i < 62 then ('0' as int + i - 52) as char
    else if i == 62 then '+'
    else '/'
  }

  predicate IsBase64Char(c: char) {
    'A' <= c <= 'Z' || 'a' <= c <= 'z' || '0' <= c <= '9' || c == '+' || c == '/'
  }

  function Index(c: char): (i: nat)
    requires IsBase64Char(c)
    ensures i < 64
  {
    if 'A' <= c <= 'Z' then c as int - 'A' as int
    else if 'a' <= c <= 'z' then c as int - 'a' as int + 26
    else if '0' <= c <= '9' then c as int - '0' as int + 52
    else if c == '+' then 62
    else 63
  }

  /** Three bytes (24 bits) as four 6-bit characters. */
  function EncodeBlock(b0: Byte, b1: Byte, b2: Byte): seq<char> {
    [Char(b0 / 4), Char((b0 % 4) * 16 + b1 / 16), Char((b1 % 16) * 4 + b2 / 64), Char(b2 % 64)]
  }

  function Encode(bs: seq<Byte>): (s: string)
    ensures |s| == 4 * ((|bs| + 2) / 3)
    decreases |bs|
  {
    if |bs| == 0 then []
    else if |bs| == 1 then [Char(bs[0] / 4), Char((bs[0] % 4) * 16), '=', '=']
    else if |bs| == 2 then [Char(bs[0] / 4), Char((bs[0] % 4) * 16 + bs[1] / 16), Char((bs[1] % 16) * 4), '=']
    else EncodeBlock(bs[0], bs[1], bs[2]) + Encode(bs[3..])
  }

  /** Decodes one four-character group; '=' may end the last group only,
      and the bits a padded group leaves over must be zero, so that only
      the text `Encode` writes is accepted. */
  function DecodeGroup(g: string, last: bool): Option<seq<Byte>>
    requires |g| == 4
  {
    if !IsBase64Char(g[0]) || !IsBase64Char(g[1]) then None
    else
      var c0, c1 := Index(g[0]), Index(g[1]);
      if last && g[2] == '=' && g[3] == '=' then
        if c1 % 16 == 0 then Some([c0 * 4 + c1 / 16]) else None
      else if !IsBase64Char(g[2]) then None
      else
        var c2 := Index(g[2]);
        if last && g[3] == '=' then
          if c2 % 4 == 0 then Some([c0 * 4 + c1 / 16, (c1 % 16) * 16 + c2 / 4]) else None
        else if !IsBase64Char(g[3]) then None
        else
          var c3 := Index(g[3]);
          Some([c0 * 4 + c1 / 16, (c1 % 16) * 16 + c2 / 4, (c2 % 4) * 64 + c3])
  }

  function Decode(s: string): Option<seq<Byte>>
    decreases |s|
  {
    if s == [] then Some([])
    else if |s| < 4 then None
    else match DecodeGroup(s[..4], |s| == 4)
      case None => None
      case Some(head) =>
        match Decode(s[4..])
        case None => None
        case Some(rest) => Some(head + rest)
  }

  lemma BlockRoundTrip(b0: Byte, b1: Byte, b2: Byte, last: bool)
    ensures DecodeGroup(EncodeBlock(b0, b1, b2), last) == Some([b0, b1, b2])
  {
    var c1 := (b0 % 4) * 16 + b1 / 16;
    var c2 := (b1 % 16) * 4 + b2 / 64;
    assert c1 / 16 == b0 % 4 && c1 % 16 == b1 / 16;
    assert c2 / 4 == b1 % 16 && c2 % 4 == b2 / 64;
  }

  /** A single group decodes as the last group. */
  lemma DecodeOneGroup(g: string)
    requires |g| == 4
    ensures Decode(g) == DecodeGroup(g, true)
  {
    assert g[..4] == g && g[4..] == [];
    if DecodeGroup(g, true).Some? {
      assert DecodeGroup(g, true).value + [] == DecodeGroup(g, true).value;
    }
  }

  lemma SingleRoundTrip(b0: Byte)
    ensures DecodeGroup([Char(b0 / 4), Char((b0 % 4) * 16), '=', '='], true) == Some([b0])
  {
    assert ((b0 % 4) * 16) / 16 == b0 % 4;
    assert ((b0 % 4) * 16) % 16 == 0;
  }

  lemma DecodeEncodeOne(bs: seq<Byte>)
    requires |bs| == 1
    ensures Decode(Encode(bs)) == Some(bs)
  {
    var g := [Char(bs[0] / 4), Char((bs[0] % 4) * 16), '=', '='];
    assert Encode(bs) == g;
    SingleRoundTrip(bs[0]);
    DecodeOneGroup(g);
    assert [bs[0]] == bs;
  }

  lemma PairRoundTrip(b0: Byte, b1: Byte)
    ensures DecodeGroup([Char(b0 / 4), Char((b0 % 4) * 16 + b1 / 16), Char((b1 % 16) * 4), '='], true)
         == Some([b0, b1])
  {
    var c1 := (b0 % 4) * 16 + b1 / 16;
    var c2 := (b1 % 16) * 4;
    assert c1 / 16 == b0 % 4 && c1 % 16 == b1 / 16;
    assert c2 / 4 == b1 % 16 && c2 % 4 == 0;
    assert (b1 / 16) * 16 + b1 % 16 == b1;
  }

  lemma DecodeEncodeTwo(bs: seq<Byte>)
    requires |bs| == 2
    ensures Decode(Encode(bs)) == Some(bs)
  {
    var g := [Char(bs[0] / 4), Char((bs[0] % 4) * 16 + bs[1] / 16), Char((bs[1] % 16) * 4), '='];
    assert Encode(bs) == g;
    PairRoundTrip(bs[0], bs[1]);
    DecodeOneGroup(g);
    assert [bs[0], bs[1]] == bs;
  }

  /** Decoding undoes encoding for every byte string. */
  lemma {:induction false} DecodeEncode(bs: seq<Byte>)
    ensures Decode(Encode(bs)) == Some(bs)
    decreases |bs|
  {
    if |bs| == 1 {
      DecodeEncodeOne(bs);
    } else if |bs| == 2 {
      DecodeEncodeTwo(bs);
    } else if |bs| >= 3 {
      var s := Encode(bs);
      assert s[..4] == EncodeBlock(bs[0], bs[1], bs[2]) && s[4..] == Encode(bs[3..]);
      BlockRoundTrip(bs[0], bs[1], bs[2], |s| == 4);
      DecodeEncode(bs[3..]);
      assert [bs[0], bs[1], bs[2]] + bs[3..] == bs;
    }
  }

  /** Every character of an encoding is from the alphabet or padding, and
      padding occurs only in the last two positions. */
  lemma {:induction false} EncodeAlphabet(bs: seq<Byte>)
    ensures forall i :: 0 <= i < |Encode(bs)| - 2 ==> IsBase64Char(Encode(bs)[i])
    ensures forall i :: 0 <= i < |Encode(bs)| ==> IsBase64Char(Encode(bs)[i]) || Encode(bs)[i] == '='
    decreases |bs|
  {
    if |bs| >= 3 {
      EncodeAlphabet(bs[3..]);
      var s := Encode(bs);
      assert s == EncodeBlock(bs[0], bs[1], bs[2]) + Encode(bs[3..]);
      forall i | 0 <= i < |s| ensures IsBase64Char(s[i]) || s[i] == '=' {
        if i >= 4 { assert s[i] == Encode(bs[3..])[i - 4]; }
      }
      forall i | 0 <= i < |s| - 2 ensures IsBase64Char(s[i]) {
        if i >= 4 { assert s[i] == Encode(bs[3..])[i - 4]; }
      }
    }
  }

  lemma CharIndex(c: char)
    requires IsBase64Char(c)
    ensures Char(Index(c)) == c
  {
  }

  /** The three bytes of a full group re-encode to its four characters. */
  lemma TripleCanonical(c0: nat, c1: nat, c2: nat, c3: nat)
    requires c0 < 64 && c1 < 64 && c2 < 64 && c3 < 64
    ensures
      var b0, b1, b2 := c0 * 4 + c1 / 16, (c1 % 16) * 16 + c2 / 4, (c2 % 4) * 64 + c3;
      && b0 < 256 && b1 < 256 && b2 < 256
      && EncodeBlock(b0, b1, b2) == [Char(c0), Char(c1), Char(c2), Char(c3)]
      && Encode([b0, b1, b2]) == EncodeBlock(b0, b1, b2)
  {
    var b0, b1, b2 := c0 * 4 + c1 / 16, (c1 % 16) * 16 + c2 / 4, (c2 % 4) * 64 + c3;
    assert b0 / 4 == c0 && (b0 % 4) * 16 + b1 / 16 == c1;
    assert (b1 % 16) * 4 + b2 / 64 == c2 && b2 % 64 == c3;
    assert [b0, b1, b2][3..] == [];
  }

  /** The two bytes of a group padded with one '=' re-encode to it. */
  lemma PairCanonical(c0: nat, c1: nat, c2: nat)
    requires c0 < 64 && c1 < 64 && c2 < 64 && c2 % 4 == 0
    ensures
      var b0, b1 := c0 * 4 + c1 / 16, (c1 % 16) * 16 + c2 / 4;
      && b0 < 256 && b1 < 256
      && Encode([b0, b1]) == [Char(c0), Char(c1), Char(c2), '=']
  {
    var b0, b1 := c0 * 4 + c1 / 16, (c1 % 16) * 16 + c2 / 4;
    assert b0 / 4 == c0 && (b0 % 4) * 16 + b1 / 16 == c1 && (b1 % 16) * 4 == c2;
  }

  /** The byte of a group padded with "==" re-encodes to it. */
  lemma SingleCanonical(c0: nat, c1: nat)
    requires c0 < 64 && c1 < 64 && c1 % 16 == 0
    ensures
      var b0 := c0 * 4 + c1 / 16;
      && b0 < 256 && Encode([b0]) == [Char(c0), Char(c1), '=', '=']
  {
    var b0 := c0 * 4 + c1 / 16;
    assert b0 / 4 == c0 && (b0 % 4) * 16 == c1;
  }

  lemma SingleGroup(g: string)
    requires |g| == 4 && IsBase64Char(g[0]) && IsBase64Char(g[1]) && g[2] == '=' && g[3] == '='
    requires Index(g[1]) % 16 == 0
    ensures DecodeGroup(g, true).Some? && Encode(DecodeGroup(g, true).value) == g
  {
    var c0, c1 := Index(g[0]), Index(g[1]);
    CharIndex(g[0]);
    CharIndex(g[1]);
    SingleCanonical(c0, c1);
    assert DecodeGroup(g, true) == Some([c0 * 4 + c1 / 16]);
    assert g == [Char(c0), Char(c1), '=', '='];
  }

  lemma PairGroup(g: string)
    requires |g| == 4 && IsBase64Char(g[0]) && IsBase64Char(g[1]) && IsBase64Char(g[2]) && g[3] == '='
    requires Index(g[2]) % 4 == 0
    ensures DecodeGroup(g, true).Some? && Encode(DecodeGroup(g, true).value) == g
  {
    var c0, c1, c2 := Index(g[0]), Index(g[1]), Index(g[2]);
    CharIndex(g[0]);
    CharIndex(g[1]);
    CharIndex(g[2]);
    PairCanonical(c0, c1, c2);
    assert DecodeGroup(g, true) == Some([c0 * 4 + c1 / 16, (c1 % 16) * 16 + c2 / 4]);
    assert g == [Char(c0), Char(c1), Char(c2), '='];
  }

  lemma FullGroup(g: string, last: bool)
    requires |g| == 4 && IsBase64Char(g[0]) && IsBase64Char(g[1]) && IsBase64Char(g[2]) && IsBase64Char(g[3])
    ensures DecodeGroup(g, last).Some?
    ensures var bs := DecodeGroup(g, last).value;
      |bs| == 3 && g == EncodeBlock(bs[0], bs[1], bs[2]) && Encode(bs) == g
  {
    var c0, c1, c2, c3 := Index(g[0]), Index(g[1]), Index(g[2]), Index(g[3]);
    CharIndex(g[0]);
    CharIndex(g[1]);
    CharIndex(g[2]);
    CharIndex(g[3]);
    TripleCanonical(c0, c1, c2, c3);
    assert DecodeGroup(g, last) == Some([c0 * 4 + c1 / 16, (c1 % 16) * 16 + c2 / 4, (c2 % 4) * 64 + c3]);
    assert g == [Char(c0), Char(c1), Char(c2), Char(c3)];
  }

  /** A group that decodes is the encoding of what it decodes to; only the
      last group may hold fewer than three bytes. */
  lemma GroupCanonical(g: string, last: bool)
    requires |g| == 4 && DecodeGroup(g, last).Some?
    ensures
      var bs := DecodeGroup(g, last).value;
      && Encode(bs) == g
      && (!last ==> |bs| == 3 && g == EncodeBlock(bs[0], bs[1], bs[2]))
  {
    if g[2] == '=' {
      SingleGroup(g);
    } else if g[3] == '=' {
      PairGroup(g);
    } else {
      FullGroup(g, last);
    }
  }

  /** Decoding accepts only the text `Encode` writes: a text that decodes
      to `bs` is the encoding of `bs`, so the Base64 text of a byte string
      is unique. */
  lemma {:induction false} EncodeDecode(s: string, bs: seq<Byte>)
    requires Decode(s) == Some(bs)
    ensures Encode(bs) == s
    decreases |s|
  {
    if s != [] {
      var g := s[..4];
      var last := |s| == 4;
      var head := DecodeGroup(g, last).value;
      var rest := Decode(s[4..]).value;
      assert bs == head + rest;
      GroupCanonical(g, last);
      EncodeDecode(s[4..], rest);
      if last {
        assert s[4..] == [] && rest == [] && bs == head && g == s;
      } else {
        assert bs[..3] == head && bs[3..] == rest;
        assert Encode(bs) == EncodeBlock(bs[0], bs[1], bs[2]) + Encode(bs[3..]);
        assert s == g + s[4..];
      }
    }
  }
}
