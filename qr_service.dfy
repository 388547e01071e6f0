/** The QR service: the redemption token derived from an order id, a
    ticket id and the clock, the QR payload built from it, and validation
    delegated to the tickets table. SHA-256 (FIPS 180-4) and the QR image
    renderer are foreign libraries and enter as parameters. */
module QrService {
  import opened Wrappers
  import opened Text
  import opened Hex
  import opened Database

  /** A SHA-256 digest: 32 bytes. */
  type Digest = d: seq<Byte> | |d| == 32 witness seq(32, _ => 0)

  const TokenLength: nat := 32

  /** The hashed text: order id, ticket id and `Date.now()`, joined by ':'. */
  function HashInput(orderId: string, ticketId: string, nowMs: nat): (data: string)
    ensures |data| == |orderId| + |ticketId| + |NatToString(nowMs)| + 2
    ensures data[..|orderId|] == orderId && data[|orderId|] == ':'
    ensures data[|orderId| + 1..|orderId| + 1 + |ticketId|] == ticketId && data[|orderId| + 1 + |ticketId|] == ':'
    ensures data[|orderId| + |ticketId| + 2..] == NatToString(nowMs)
  {
    orderId + ":" + ticketId + ":" + NatToString(nowMs)
  }

  /** `generateToken`: the first 32 hex digits of the SHA-256 digest of the
      hashed text, which is the hex text of the digest's first 16 bytes. */
  function GenerateToken(sha256: seq<Byte> -> Digest, orderId: string, ticketId: string, nowMs: nat): (token: string)
    ensures |token| == TokenLength
    ensures forall i :: 0 <= i < |token| ==> IsLowerHex(token[i])
    ensures HexDecode(token) == Some(sha256(Utf8Encode(HashInput(orderId, ticketId, nowMs)))[..16])
  {
    var digest := sha256(Utf8Encode(HashInput(orderId, ticketId, nowMs)));
    HexPrefix(digest, 16);
    HexRoundTrip(digest[..16]);
    HexEncode(digest)[..TokenLength]
  }

  predicate ColonFree(s: string) {
    forall i :: 0 <= i < |s| ==> s[i] != ':'
  }

  /** The index of the first ':' in `s`, or |s| when there is none. */
  function FirstColon(s: string): (i: nat)
    ensures i <= |s|
  {
    if s == [] || s[0] == ':' then 0 else 1 + FirstColon(s[1..])
  }

  lemma {:induction false} FirstColonAfter(a: string, rest: string)
    requires ColonFree(a)
    ensures FirstColon(a + ":" + rest) == |a|
    decreases |a|
  {
    if a != [] {
      assert (a + ":" + rest)[1..] == a[1..] + ":" + rest;
      FirstColonAfter(a[1..], rest);
    }
  }

  lemma SplitAtColon(a: string, rest: string, b: string, rest': string)
    requires ColonFree(a) && ColonFree(b)
    requires a + ":" + rest == b + ":" + rest'
    ensures a == b && rest == rest'
  {
    var s := a + ":" + rest;
    FirstColonAfter(a, rest);
    FirstColonAfter(b, rest');
    assert a == s[..|a|] == b;
    assert rest == s[|a| + 1..] == rest';
  }

  /** When ids contain no ':', the hashed text determines the order id, the
      ticket id and the clock reading, so distinct triples hash distinct texts. */
  lemma HashInputInjective(orderId: string, ticketId: string, nowMs: nat,
                           orderId': string, ticketId': string, nowMs': nat)
    requires ColonFree(orderId) && ColonFree(ticketId) && ColonFree(orderId') && ColonFree(ticketId')
    requires HashInput(orderId, ticketId, nowMs) == HashInput(orderId', ticketId', nowMs')
    ensures orderId == orderId' && ticketId == ticketId' && nowMs == nowMs'
  {
    var rest := ticketId + ":" + NatToString(nowMs);
    var rest' := ticketId' + ":" + NatToString(nowMs');
    assert HashInput(orderId, ticketId, nowMs) == orderId + ":" + rest;
    assert HashInput(orderId', ticketId', nowMs') == orderId' + ":" + rest';
    SplitAtColon(orderId, rest, orderId', rest');
    SplitAtColon(ticketId, NatToString(nowMs), ticketId', NatToString(nowMs'));
    NatToStringInjective(nowMs, nowMs');
  }

  datatype QrCode = QrCode(qrCode: string, qrImageBase64: string)

  /** `generateQRCode`: the token, and the image the renderer draws of it; a
      renderer failure becomes the error "Failed to generate QR code". */
  function GenerateQRCode(sha256: seq<Byte> -> Digest, render: string -> Option<string>,
                          orderId: string, ticketId: string, nowMs: nat): (r: Result<QrCode, string>)
    ensures r.Ok? ==> r.value.qrCode == GenerateToken(sha256, orderId, ticketId, nowMs)
                      && |r.value.qrCode| == TokenLength
                      && render(r.value.qrCode) == Some(r.value.qrImageBase64)
    ensures r.Err? <==> render(GenerateToken(sha256, orderId, ticketId, nowMs)).None?
    ensures r.Err? ==> r.error == "Failed to generate QR code"
  {
    var token := GenerateToken(sha256, orderId, ticketId, nowMs);
    match render(token)
    case None => Err("Failed to generate QR code")
    case Some(image) => Ok(QrCode(token, image))
  }

  /** What `validateQRCode` returns for a result of `validateTicket`: the
      result itself, or the error "Failed to validate QR code". */
  function ValidationOutcome(result: Result<Validation, DbError>): (r: Result<Validation, string>)
    ensures r.Ok? <==> result.Ok?
    ensures r.Ok? ==> r.value == result.value
    ensures r.Err? ==> r.error == "Failed to validate QR code"
  {
    match result
    case Ok(v) => Ok(v)
    case Err(_) => Err("Failed to validate QR code")
  }

  /** `validateQRCode(qrCode)`. */
  method ValidateQRCode(db: Store, qrCode: string, now: IsoTime) returns (r: Result<Validation, string>)
    requires db.Valid()
    modifies db
    ensures db.Valid()
    ensures db.State() == ValidateTicketSpec(old(db.State()), qrCode, now).0
    ensures r == ValidationOutcome(ValidateTicketSpec(old(db.State()), qrCode, now).1)
  {
    var result := db.ValidateTicket(qrCode, now);
    r := ValidationOutcome(result);
  }
}
