/** The QR controller: the response to a gate scan, shaped from the
    validation result, and the argument check of the test-QR endpoint. */
module QrController {
  import opened Wrappers
  import opened Text
  import opened Database
  import opened QrService

  /** The ticket fields a scan reports. */
  datatype TicketSummary = TicketSummary(id: TicketId, orderId: OrderId, isUsed: bool, usedAt: Option<IsoTime>)

  datatype ValidateResponse =
    | ValidateBadRequest(error: string)        // 400
    | Validated(valid: bool, message: string, ticket: Option<TicketSummary>)
    | ValidateServerError(message: string)     // 500, through the error middleware

  function Summary(t: Ticket): TicketSummary {
    TicketSummary(t.id, t.orderId, t.isUsed, t.usedAt)
  }

  /** The body of the reply to a validation result. */
  function ToResponse(v: Validation): (r: ValidateResponse)
    ensures r.Validated? && r.valid == v.valid && r.message == v.message
    ensures r.ticket.None? <==> !v.valid
    ensures r.ticket.Some? ==> r.ticket.value == TicketSummary(v.ticket.id, v.ticket.orderId, v.ticket.isUsed, v.ticket.usedAt)
  {
    Validated(v.valid, v.message, if v.valid then Some(Summary(v.ticket)) else None)
  }

  /** `validateQR` as a function of the tickets table it reads and writes. */
  ghost function ValidateQRSpec(db: Tables, qrCode: Option<string>, now: IsoTime): (r: (Tables, ValidateResponse))
    requires WellFormed(db)
    ensures WellFormed(r.0)
    ensures !Truthy(qrCode) ==> r == (db, ValidateBadRequest("QR code is required"))
    ensures Truthy(qrCode) ==>
      var v := ValidateTicketSpec(db, qrCode.value, now);
      && r.0 == v.0
      && (v.1.Ok? ==> r.1 == ToResponse(v.1.value))
      && (v.1.Err? ==> r.1 == ValidateServerError("Failed to validate QR code"))
  {
    if !Truthy(qrCode) then (db, ValidateBadRequest("QR code is required"))
    else
      var (db', result) := ValidateTicketSpec(db, qrCode.value, now);
      match ValidationOutcome(result)
      case Ok(v) => (db', ToResponse(v))
      case Err(e) => (db', ValidateServerError(e))
  }

  /** `validateQR`: a missing code is refused before anything is read. */
  method ValidateQR(db: Store, qrCode: Option<string>, now: IsoTime) returns (resp: ValidateResponse)
    requires db.Valid()
    modifies db
    ensures db.Valid() && (db.State(), resp) == ValidateQRSpec(old(db.State()), qrCode, now)
  {
    if !Truthy(qrCode) {
      return ValidateBadRequest("QR code is required");
    }
    var result := ValidateQRCode(db, qrCode.value, now);
    match result
    case Ok(v) => resp := ToResponse(v);
    case Err(e) => resp := ValidateServerError(e);
  }

  /** The first scan of an unused ticket admits, and its summary is the row
      read before the update: it still shows the ticket unused, with no
      used-at time. A second scan of the same code is refused with no
      summary and changes nothing. An unknown code is a server error, not a
      refusal. */
  lemma ScanTwice(db: Tables, qrCode: string, now1: IsoTime, now2: IsoTime)
    requires WellFormed(db) && qrCode != ""
    requires |TicketsWithQr(db.tickets, qrCode)| == 1
    requires forall k :: k in TicketsWithQr(db.tickets, qrCode) ==> !db.tickets[k].isUsed && db.tickets[k].usedAt.None?
    ensures var (db1, r1) := ValidateQRSpec(db, Some(qrCode), now1);
      var (db2, r2) := ValidateQRSpec(db1, Some(qrCode), now2);
      && r1.Validated? && r1.valid && r1.message == "Ticket valid"
      && r1.ticket.Some? && !r1.ticket.value.isUsed && r1.ticket.value.usedAt.None?
      && r2 == Validated(false, "Ticket already used", None)
      && db2 == db1
  {
    var (db1, v1) := ValidateTicketSpec(db, qrCode, now1);
    ValidateTwice(db, qrCode, now1, now2);
  }

  lemma UnknownCode(db: Tables, qrCode: string, now: IsoTime)
    requires WellFormed(db) && qrCode != ""
    requires TicketsWithQr(db.tickets, qrCode) == {}
    ensures ValidateQRSpec(db, Some(qrCode), now) == (db, ValidateServerError("Failed to validate QR code"))
  {
  }

  datatype TestQrResponse =
    | TestQrBadRequest(error: string)
    | TestQr(qrCode: string, qrImageBase64: string)
    | TestQrServerError(message: string)

  /** `generateTestQR`: both ids are required. */
  function GenerateTestQR(sha256: seq<Byte> -> Digest, render: string -> Option<string>,
                          orderId: Option<string>, ticketId: Option<string>, nowMs: nat): (r: TestQrResponse)
    ensures r.TestQrBadRequest? <==> !Truthy(orderId) || !Truthy(ticketId)
    ensures r.TestQrBadRequest? ==> r.error == "Order ID and Ticket ID are required"
    ensures Truthy(orderId) && Truthy(ticketId) ==>
      (r.TestQr? <==> render(GenerateToken(sha256, orderId.value, ticketId.value, nowMs)).Some?)
    ensures r.TestQr? ==> (r.qrCode == GenerateToken(sha256, orderId.value, ticketId.value, nowMs)
                           && render(r.qrCode) == Some(r.qrImageBase64))
    ensures r.TestQrServerError? ==> r.message == "Failed to generate QR code"
  {
    if !Truthy(orderId) || !Truthy(ticketId) then TestQrBadRequest("Order ID and Ticket ID are required")
    else match GenerateQRCode(sha256, render, orderId.value, ticketId.value, nowMs)
      case Ok(q) => TestQr(q.qrCode, q.qrImageBase64)
      case Err(e) => TestQrServerError(e)
  }
}
