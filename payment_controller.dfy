/** The settlement workflow: starting a payment, the gateway's callback that
    settles or cancels the order and issues its ticket, and the status poll.
    Each handler is a specification function over the tables, returning the
    new tables and the HTTP response, and a method that performs the same
    steps on the store. The gateway's replies, the renderer of the ticket
    image and the outcome of the notification e-mails are inputs. A handler
    that throws reaches the server's error middleware, which answers 500
    with the error's message. */
module PaymentController {
  import opened Wrappers
  import opened Text
  import opened Database
  import opened MpesaService
  import QrService

  /** The body of `POST /initiate`; a field the client left out is `None`. */
  datatype InitiateRequest = InitiateRequest(
    phoneNumber: Option<string>,
    amount: Option<int>,
    customerName: Option<string>,
    customerEmail: Option<string>,
    ticketTypeId: Option<string>)

  /** JavaScript truthiness of the amount: present and not zero. */
  predicate TruthyAmount(a: Option<int>) {
    a.Some? && a.value != 0
  }

  /** Every required field is present and not falsy: the strings are
      non-empty and the amount is not zero. */
  predicate HasRequiredFields(req: InitiateRequest): (ok: bool)
    ensures ok <==> && req.phoneNumber.Some? && req.phoneNumber.value != ""
                    && req.amount.Some? && req.amount.value != 0
                    && req.customerName.Some? && req.customerName.value != ""
                    && req.customerEmail.Some? && req.customerEmail.value != ""
                    && req.ticketTypeId.Some? && req.ticketTypeId.value != ""
  {
    && Truthy(req.phoneNumber) && TruthyAmount(req.amount) && Truthy(req.customerName)
    && Truthy(req.customerEmail) && Truthy(req.ticketTypeId)
  }

  /** The part of the gateway's reply to an STK push that the handler reads. */
  datatype StkPushReply = StkPushReply(checkoutRequestId: string)

  datatype InitiateResponse =
    | InitiateBadRequest(error: string)
    | Initiated(orderId: OrderId, checkoutRequestId: string, message: string)
    | InitiateServerError(message: string)

  /** The order row `initiatePayment` creates: pending, in shillings, with
      an empty payment reference. The requested ticket type is not stored. */
  function PendingOrderRow(req: InitiateRequest): NewOrder
    requires HasRequiredFields(req)
  {
    NewOrder(req.customerName.value, req.customerEmail.value, req.phoneNumber.value,
             req.amount.value, "KES", Pending, "", None)
  }

  /** `initiatePayment` at clock reading `now`; `push` is the gateway's
      reply to an STK-push request, `None` when the push fails. */
  function InitiateSpec(db: Tables, cfg: Config, req: InitiateRequest, now: DateTime,
                        push: StkPushRequest -> Option<StkPushReply>): (r: (Tables, InitiateResponse))
    requires WellFormed(db) && ValidDateTime(now)
    ensures WellFormed(r.0) && r.0.tickets == db.tickets && r.0.nextTicketId == db.nextTicketId
    ensures !HasRequiredFields(req) ==> r == (db, InitiateBadRequest("Missing required fields"))
    ensures HasRequiredFields(req) ==>
      var id := db.nextOrderId;
      var reply := push(StkPushBody(cfg, req.phoneNumber.value, req.amount.value, NatToString(id), now));
      && id !in db.orders
      && r.0.orders.Keys == db.orders.Keys + {id}
      && (forall k :: k in db.orders ==> r.0.orders[k] == db.orders[k])
      && r.0.orders[id].id == id && r.0.orders[id].status == Pending
      && OrderRow(r.0.orders[id]).(paymentReference := "") == PendingOrderRow(req)
      && (reply.None? ==> r.0.orders[id].paymentReference == ""
                          && r.1 == InitiateServerError("Failed to initiate payment"))
      && (reply.Some? ==> r.0.orders[id].paymentReference == reply.value.checkoutRequestId
                          && r.1 == Initiated(id, reply.value.checkoutRequestId,
                                              "Payment initiated. Please complete on your phone."))
  {
    if !HasRequiredFields(req) then (db, InitiateBadRequest("Missing required fields"))
    else
      var (db1, order) := InsertOrder(db, PendingOrderRow(req));
      match push(StkPushBody(cfg, req.phoneNumber.value, req.amount.value, NatToString(order.id), now))
      case None => (db1, InitiateServerError("Failed to initiate payment"))
      case Some(reply) =>
        (PatchOrder(db1, order.id, OrderPatch(None, Some(reply.checkoutRequestId))),
         Initiated(order.id, reply.checkoutRequestId, "Payment initiated. Please complete on your phone."))
  }

  /** One `{ Name, Value }` entry of `CallbackMetadata.Item`. */
  datatype MetadataItem = MetadataItem(name: string, value: string)

  /** `Body.stkCallback`; `callbackMetadata` is `None` when the gateway sent
      no item list. */
  datatype StkCallback = StkCallback(
    resultCode: int,
    resultDesc: string,
    checkoutRequestId: string,
    callbackMetadata: Option<seq<MetadataItem>>)

  datatype CallbackBody = CallbackBody(stkCallback: Option<StkCallback>)

  /** The JSON body of the callback: `{ Body: { stkCallback } }`. */
  datatype CallbackRequest = CallbackRequest(body: Option<CallbackBody>)

  datatype CallbackResponse =
    | CallbackBadRequest(error: string)
    | CallbackNotFound(error: string)
    | CallbackAccepted
    | CallbackServerError(message: string)

  /** The message of the TypeError raised by reading `Item` of a missing
      `CallbackMetadata`. */
  const MissingMetadataMessage: string := "Cannot read properties of undefined (reading 'Item')"

  /** The message of the TypeError raised by reading `name` of the
      ticket-type row when the lookup by the ticket's type id found none. */
  const NoTicketTypeMessage: string := "Cannot read properties of null (reading 'name')"

  function CallbackOf(req: CallbackRequest): Option<StkCallback> {
    if req.body.Some? then req.body.value.stkCallback else None
  }

  /** The `forEach` that copies the items into an object: each item sets
      its name's entry, a later item overwriting an earlier one. */
  function Metadata(items: seq<MetadataItem>): (m: map<string, string>)
    ensures m.Keys == set i | 0 <= i < |items| :: items[i].name
    decreases |items|
  {
    if items == [] then map[]
    else
      var last := items[|items| - 1];
      var rest := Metadata(items[..|items| - 1]);
      assert forall i :: 0 <= i < |items| - 1 ==> items[..|items| - 1][i] == items[i];
      rest[last.name := last.value]
  }

  /** The value recorded under a name is that of the last item with the name. */
  lemma {:induction false} MetadataLastWins(items: seq<MetadataItem>, i: nat)
    requires i < |items|
    requires forall j :: i < j < |items| ==> items[j].name != items[i].name
    ensures items[i].name in Metadata(items) && Metadata(items)[items[i].name] == items[i].value
    decreases |items|
  {
    if i < |items| - 1 {
      var prefix := items[..|items| - 1];
      assert forall j :: i < j < |prefix| ==> prefix[j] == items[j];
      MetadataLastWins(prefix, i);
    }
  }

  /** The payment reference a successful callback records: the receipt
      number when the metadata carries a non-empty one, else the checkout id. */
  function SettledReference(metadata: map<string, string>, checkoutRequestId: string): (ref: string)
    ensures "MpesaReceiptNumber" in metadata && metadata["MpesaReceiptNumber"] != "" ==>
              ref == metadata["MpesaReceiptNumber"]
    ensures !("MpesaReceiptNumber" in metadata && metadata["MpesaReceiptNumber"] != "") ==>
              ref == checkoutRequestId
  {
    if "MpesaReceiptNumber" in metadata && metadata["MpesaReceiptNumber"] != "" then metadata["MpesaReceiptNumber"]
    else checkoutRequestId
  }

  /** The tickets issued for an order. */
  function TicketsFor(tickets: map<TicketId, Ticket>, orderId: OrderId): set<TicketId> {
    set k | k in tickets && tickets[k].orderId == orderId
  }

  /** The reply once the token is attached: the ticket type is looked up
      by the ticket's type id. A ticket without one matches no row, and
      reading the row's name throws, so the reply is a 500 and no e-mail is
      sent. Otherwise `notify` is the outcome of that lookup and of the two
      e-mails: `None`, or the message of the error raised. */
  function NotifyOutcome(ticketTypeId: Option<string>, notify: Option<string>): (r: CallbackResponse)
    ensures r == CallbackAccepted <==> ticketTypeId.Some? && notify.None?
    ensures ticketTypeId.None? ==> r == CallbackServerError(NoTicketTypeMessage)
    ensures ticketTypeId.Some? && notify.Some? ==> r == CallbackServerError(notify.value)
  {
    if ticketTypeId.None? then CallbackServerError(NoTicketTypeMessage)
    else if notify.None? then CallbackAccepted
    else CallbackServerError(notify.value)
  }

  /** The successful branch of `mpesaCallback` for the matched order `o`:
      mark it paid, create its ticket, mint and attach the token, then look
      up the ticket type and notify (`NotifyOutcome`). */
  function SettleSpec(db: Tables, o: Order, reference: string,
                      sha256: seq<Byte> -> QrService.Digest, render: string -> Option<string>,
                      nowMs: nat, notify: Option<string>): (r: (Tables, CallbackResponse))
    requires WellFormed(db) && o.id in db.orders
    ensures WellFormed(r.0)
    ensures r.0.orders == db.orders[o.id := db.orders[o.id].(status := Paid, paymentReference := reference)]
    ensures r.0.nextOrderId == db.nextOrderId && r.0.nextTicketId == db.nextTicketId + 1
    ensures
      var t := db.nextTicketId;
      var token := QrService.GenerateToken(sha256, NatToString(o.id), NatToString(t), nowMs);
      && t !in db.tickets && t in r.0.tickets
      && r.0.tickets == db.tickets[t := r.0.tickets[t]]
      && r.0.tickets[t].orderId == o.id && r.0.tickets[t].ticketTypeId == o.ticketTypeId
      && !r.0.tickets[t].isUsed && r.0.tickets[t].usedAt == None
      && (render(token).None? ==> r.0.tickets[t].qrCode == None
                                  && r.1 == CallbackServerError("Failed to generate QR code"))
      && (render(token).Some? ==> r.0.tickets[t].qrCode == Some(token)
                                  && r.1 == NotifyOutcome(o.ticketTypeId, notify))
  {
    var db1 := PatchOrder(db, o.id, OrderPatch(Some(Paid), Some(reference)));
    var (db2, ticket) := InsertTicket(db1, NewTicket(o.id, o.ticketTypeId, false));
    match QrService.GenerateQRCode(sha256, render, NatToString(o.id), NatToString(ticket.id), nowMs)
    case Err(e) => (db2, CallbackServerError(e))
    case Ok(qr) =>
      (AttachQr(db2, ticket.id, qr.qrCode), NotifyOutcome(ticket.ticketTypeId, notify))
  }

  /** `mpesaCallback`: the Date.now() reading `nowMs` feeds the token. */
  ghost function CallbackSpec(db: Tables, req: CallbackRequest,
                              sha256: seq<Byte> -> QrService.Digest, render: string -> Option<string>,
                              nowMs: nat, notify: Option<string>): (r: (Tables, CallbackResponse))
    requires WellFormed(db)
    ensures WellFormed(r.0)
    ensures r.0.orders.Keys == db.orders.Keys && r.0.nextOrderId == db.nextOrderId
    ensures CallbackOf(req).None? ==> r == (db, CallbackBadRequest("Invalid callback data"))
    ensures (CallbackOf(req).Some? && FindByReference(db, CallbackOf(req).value.checkoutRequestId).None?)
              ==> r == (db, CallbackNotFound("Order not found"))
    ensures r.1 == CallbackNotFound("Order not found") ==>
              |OrdersWithReference(db.orders, CallbackOf(req).value.checkoutRequestId)| != 1
    ensures CallbackOf(req).Some? && FindByReference(db, CallbackOf(req).value.checkoutRequestId).Some? ==>
      var cb := CallbackOf(req).value;
      var o := FindByReference(db, cb.checkoutRequestId).value;
      && (cb.resultCode == 0 && cb.callbackMetadata.None? ==> r == (db, CallbackServerError(MissingMetadataMessage)))
      && (cb.resultCode == 0 && cb.callbackMetadata.Some? ==>
            r == SettleSpec(db, o, SettledReference(Metadata(cb.callbackMetadata.value), cb.checkoutRequestId),
                            sha256, render, nowMs, notify))
      && (cb.resultCode != 0 ==>
            r == (db.(orders := db.orders[o.id := o.(status := Cancelled, paymentReference := cb.checkoutRequestId)]),
                  CallbackAccepted))
  {
    match CallbackOf(req)
    case None => (db, CallbackBadRequest("Invalid callback data"))
    case Some(cb) =>
      match FindByReference(db, cb.checkoutRequestId)
      case None => (db, CallbackNotFound("Order not found"))
      case Some(o) =>
        if cb.resultCode == 0 then
          match cb.callbackMetadata
          case None => (db, CallbackServerError(MissingMetadataMessage))
          case Some(items) =>
            SettleSpec(db, o, SettledReference(Metadata(items), cb.checkoutRequestId), sha256, render, nowMs, notify)
        else
          (PatchOrder(db, o.id, OrderPatch(Some(Cancelled), Some(cb.checkoutRequestId))), CallbackAccepted)
  }

  /** The part of the gateway's reply to a status query that the handler reads. */
  datatype StatusReply = StatusReply(resultCode: int)

  datatype StatusResponse =
    | StatusBadRequest(error: string)
    | StatusNotFound(error: string)
    | StatusReport(orderId: OrderId, status: OrderStatus, paymentReference: string)

  /** The order a route parameter selects with `.eq('id', orderId)`: a
      non-empty string of decimal digits names the order with that number;
      any other text matches no row. */
  function ParamId(orderId: string): (r: Option<OrderId>)
    ensures r.Some? <==> orderId != "" && AllDigits(orderId)
  {
    if AllDigits(orderId) && orderId != "" then Some(ParseNat(orderId)) else None
  }

  /** The id the client received, written in decimal, selects that order. */
  lemma ParamIdOfDecimal(id: OrderId)
    ensures ParamId(NatToString(id)) == Some(id)
  {
    ParseNatToString(id);
  }

  /** `checkPaymentStatus` for the route parameter `orderId` at clock
      reading `now`; `query` is the gateway's reply to a status query,
      `None` when the query fails. */
  function CheckStatusSpec(db: Tables, cfg: Config, orderId: string, now: DateTime,
                           query: StatusQueryRequest -> Option<StatusReply>): (r: (Tables, StatusResponse))
    requires WellFormed(db) && ValidDateTime(now)
    ensures WellFormed(r.0) && r.0.tickets == db.tickets
    ensures r.0.nextOrderId == db.nextOrderId && r.0.nextTicketId == db.nextTicketId
    ensures orderId == "" ==> r == (db, StatusBadRequest("Order ID is required"))
    ensures (orderId != "" && (ParamId(orderId).None? || ParamId(orderId).value !in db.orders))
              ==> r == (db, StatusNotFound("Order not found"))
    ensures ParamId(orderId).Some? && ParamId(orderId).value in db.orders ==>
              r.1.StatusReport? && r.1.orderId == ParamId(orderId).value
    ensures r.1.StatusReport? ==>
      var id := r.1.orderId;
      && ParamId(orderId) == Some(id) && id in db.orders
      && var o := db.orders[id];
      && r.0.orders == db.orders[id := o.(status := r.1.status)]
      && r.1.paymentReference == o.paymentReference
      && (r.1.status != o.status <==>
            && o.status == Pending && o.paymentReference != ""
            && var reply := query(StatusQueryBody(cfg, o.paymentReference, now));
               reply.Some? && reply.value.resultCode == 0)
      && (r.1.status != o.status ==> r.1.status == Paid)
  {
    if orderId == "" then (db, StatusBadRequest("Order ID is required"))
    else
      match ParamId(orderId)
      case None => (db, StatusNotFound("Order not found"))
      case Some(id) =>
        if id !in db.orders then (db, StatusNotFound("Order not found"))
        else
          var o := db.orders[id];
          if o.status == Pending && o.paymentReference != "" then
            match query(StatusQueryBody(cfg, o.paymentReference, now))
            case Some(reply) =>
              if reply.resultCode == 0 then
                (PatchOrder(db, id, OrderPatch(Some(Paid), None)), StatusReport(id, Paid, o.paymentReference))
              else (db, StatusReport(id, o.status, o.paymentReference))
            case None => (db, StatusReport(id, o.status, o.paymentReference))
          else (db, StatusReport(id, o.status, o.paymentReference))
  }

  /** Writing one order changes which orders carry a reference only at that order. */
  lemma ReferenceAfterWrite(orders: map<OrderId, Order>, id: OrderId, o: Order, reference: string)
    ensures OrdersWithReference(orders[id := o], reference)
         == (OrdersWithReference(orders, reference) - {id}) + (if o.paymentReference == reference then {id} else {})
  {
  }

  /** Writing one ticket changes which tickets belong to an order only at that ticket. */
  lemma TicketsAfterWrite(tickets: map<TicketId, Ticket>, t: TicketId, ticket: Ticket, orderId: OrderId)
    ensures TicketsFor(tickets[t := ticket], orderId)
         == (TicketsFor(tickets, orderId) - {t}) + (if ticket.orderId == orderId then {t} else {})
  {
  }

  /** The callback the gateway sends for the push `checkoutRequestId`. */
  function GatewayCallback(resultCode: int, resultDesc: string, checkoutRequestId: string,
                           items: Option<seq<MetadataItem>>): CallbackRequest {
    CallbackRequest(Some(CallbackBody(Some(StkCallback(resultCode, resultDesc, checkoutRequestId, items)))))
  }

  /** A push the gateway accepted: the new order is pending and is the
      only one carrying the checkout id. */
  lemma InitiateAccepted(db: Tables, cfg: Config, req: InitiateRequest, now: DateTime,
                         push: StkPushRequest -> Option<StkPushReply>, checkoutRequestId: string)
    requires WellFormed(db) && ValidDateTime(now) && HasRequiredFields(req)
    requires push(StkPushBody(cfg, req.phoneNumber.value, req.amount.value, NatToString(db.nextOrderId), now))
             == Some(StkPushReply(checkoutRequestId))
    requires OrdersWithReference(db.orders, checkoutRequestId) == {}
    ensures
      var id := db.nextOrderId;
      var r := InitiateSpec(db, cfg, req, now, push);
      && r.1.Initiated? && r.1.orderId == id
      && r.0.orders[id].status == Pending && r.0.orders[id].ticketTypeId.None?
      && OrdersWithReference(r.0.orders, checkoutRequestId) == {id}
      && r.0.tickets == db.tickets && r.0.nextTicketId == db.nextTicketId
  {
    var id := db.nextOrderId;
    var r := InitiateSpec(db, cfg, req, now, push);
    assert r.0.orders == db.orders[id := r.0.orders[id]];
    ReferenceAfterWrite(db.orders, id, r.0.orders[id], checkoutRequestId);
  }

  /** A successful callback for the order `k` that alone carries the
      checkout id: `k` is paid under the settled reference and gains one
      new, unused ticket. */
  lemma SuccessCallback(db: Tables, k: OrderId, checkoutRequestId: string, resultDesc: string,
                        items: seq<MetadataItem>,
                        sha256: seq<Byte> -> QrService.Digest, render: string -> Option<string>,
                        nowMs: nat, notify: Option<string>)
    requires WellFormed(db) && OrdersWithReference(db.orders, checkoutRequestId) == {k}
    ensures
      var reference := SettledReference(Metadata(items), checkoutRequestId);
      var r := CallbackSpec(db, GatewayCallback(0, resultDesc, checkoutRequestId, Some(items)),
                            sha256, render, nowMs, notify);
      && k in db.orders
      && r.0.orders == db.orders[k := db.orders[k].(status := Paid, paymentReference := reference)]
      && db.nextTicketId !in db.tickets
      && TicketsFor(r.0.tickets, k) == TicketsFor(db.tickets, k) + {db.nextTicketId}
      && !r.0.tickets[db.nextTicketId].isUsed
      && r.0.nextTicketId == db.nextTicketId + 1
      && OrdersWithReference(r.0.orders, checkoutRequestId)
         == (if reference == checkoutRequestId then {k} else {})
  {
    var o := FindByReference(db, checkoutRequestId).value;
    var reference := SettledReference(Metadata(items), checkoutRequestId);
    var r := SettleSpec(db, o, reference, sha256, render, nowMs, notify);
    assert r == CallbackSpec(db, GatewayCallback(0, resultDesc, checkoutRequestId, Some(items)),
                             sha256, render, nowMs, notify);
    TicketsAfterWrite(db.tickets, db.nextTicketId, r.0.tickets[db.nextTicketId], k);
    ReferenceAfterWrite(db.orders, k, r.0.orders[k], checkoutRequestId);
  }

  /** The reply to that callback: a 500 when the image does not render,
      else the outcome of the ticket-type lookup and the e-mails. */
  lemma SuccessCallbackReply(db: Tables, k: OrderId, checkoutRequestId: string, resultDesc: string,
                             items: seq<MetadataItem>,
                             sha256: seq<Byte> -> QrService.Digest, render: string -> Option<string>,
                             nowMs: nat, notify: Option<string>)
    requires WellFormed(db) && OrdersWithReference(db.orders, checkoutRequestId) == {k}
    ensures
      var r := CallbackSpec(db, GatewayCallback(0, resultDesc, checkoutRequestId, Some(items)),
                            sha256, render, nowMs, notify);
      var token := QrService.GenerateToken(sha256, NatToString(k), NatToString(db.nextTicketId), nowMs);
      && k in db.orders
      && r.1 == (if render(token).None? then CallbackServerError("Failed to generate QR code")
                 else NotifyOutcome(db.orders[k].ticketTypeId, notify))
  {
    assert k in OrdersWithReference(db.orders, checkoutRequestId);
    assert FindByReference(db, checkoutRequestId) == Some(db.orders[k]);
  }

  /** The ticket a settlement issues is redeemed by its token exactly once:
      when the image renders and no ticket already carries the token, the
      first scan of the token admits the new ticket and the second is
      refused with the first scan's time. */
  lemma SettleThenScanTwice(db: Tables, o: Order, reference: string,
                            sha256: seq<Byte> -> QrService.Digest, render: string -> Option<string>,
                            nowMs: nat, notify: Option<string>, now1: IsoTime, now2: IsoTime)
    requires WellFormed(db) && o.id in db.orders
    requires
      var token := QrService.GenerateToken(sha256, NatToString(o.id), NatToString(db.nextTicketId), nowMs);
      render(token).Some? && TicketsWithQr(db.tickets, token) == {}
    ensures
      var t := db.nextTicketId;
      var token := QrService.GenerateToken(sha256, NatToString(o.id), NatToString(t), nowMs);
      var db1 := SettleSpec(db, o, reference, sha256, render, nowMs, notify).0;
      var v1 := ValidateTicketSpec(db1, token, now1);
      var v2 := ValidateTicketSpec(v1.0, token, now2);
      && v1.1.Ok? && v1.1.value.valid && v1.1.value.ticket.id == t && v1.1.value.ticket.orderId == o.id
      && v2.1.Ok? && !v2.1.value.valid && v2.1.value.ticket.id == t
      && v2.1.value.ticket.usedAt == Some(now1)
  {
    var t := db.nextTicketId;
    var token := QrService.GenerateToken(sha256, NatToString(o.id), NatToString(t), nowMs);
    var db1 := SettleSpec(db, o, reference, sha256, render, nowMs, notify).0;
    forall k | k in db1.tickets ensures (db1.tickets[k].qrCode == Some(token)) <==> k == t {
      if k != t {
        assert db1.tickets[k] == db.tickets[k];
        assert k !in TicketsWithQr(db.tickets, token);
      }
    }
    assert TicketsWithQr(db1.tickets, token) == {t};
    ValidateTwice(db1, token, now1, now2);
  }

  /** A payment started and then confirmed by the gateway: the new order is
      paid and has exactly one ticket, unused. */
  lemma InitiateThenSettle(db: Tables, cfg: Config, req: InitiateRequest, now: DateTime,
                           push: StkPushRequest -> Option<StkPushReply>, checkoutRequestId: string,
                           resultDesc: string, items: seq<MetadataItem>,
                           sha256: seq<Byte> -> QrService.Digest, render: string -> Option<string>,
                           nowMs: nat, notify: Option<string>)
    requires WellFormed(db) && ValidDateTime(now) && HasRequiredFields(req)
    requires push(StkPushBody(cfg, req.phoneNumber.value, req.amount.value, NatToString(db.nextOrderId), now))
             == Some(StkPushReply(checkoutRequestId))
    requires OrdersWithReference(db.orders, checkoutRequestId) == {}
    requires TicketsFor(db.tickets, db.nextOrderId) == {}
    ensures
      var id := db.nextOrderId;
      var r1 := InitiateSpec(db, cfg, req, now, push);
      var r2 := CallbackSpec(r1.0, GatewayCallback(0, resultDesc, checkoutRequestId, Some(items)),
                             sha256, render, nowMs, notify);
      && r1.1.Initiated? && r1.1.orderId == id
      && r2.0.orders[id].status == Paid
      && TicketsFor(r2.0.tickets, id) == {db.nextTicketId}
      && !r2.0.tickets[db.nextTicketId].isUsed
  {
    var id := db.nextOrderId;
    InitiateAccepted(db, cfg, req, now, push, checkoutRequestId);
    var r1 := InitiateSpec(db, cfg, req, now, push);
    var r2 := CallbackSpec(r1.0, GatewayCallback(0, resultDesc, checkoutRequestId, Some(items)),
                           sha256, render, nowMs, notify);
    SuccessCallback(r1.0, id, checkoutRequestId, resultDesc, items, sha256, render, nowMs, notify);
    assert r2.0.orders[id].status == Paid;
    assert TicketsFor(r2.0.tickets, id) == TicketsFor(db.tickets, id) + {db.nextTicketId};
  }

  /** As written, the order records no ticket type, so the gateway's
      confirmation of a payment just started is answered with a 500 after
      the ticket is stored: "Failed to generate QR code" when the image
      does not render, else the TypeError of reading the missing ticket
      type's name. No e-mail is sent. */
  lemma InitiateThenSettleReply(db: Tables, cfg: Config, req: InitiateRequest, now: DateTime,
                                push: StkPushRequest -> Option<StkPushReply>, checkoutRequestId: string,
                                resultDesc: string, items: seq<MetadataItem>,
                                sha256: seq<Byte> -> QrService.Digest, render: string -> Option<string>,
                                nowMs: nat, notify: Option<string>)
    requires WellFormed(db) && ValidDateTime(now) && HasRequiredFields(req)
    requires push(StkPushBody(cfg, req.phoneNumber.value, req.amount.value, NatToString(db.nextOrderId), now))
             == Some(StkPushReply(checkoutRequestId))
    requires OrdersWithReference(db.orders, checkoutRequestId) == {}
    ensures
      var id := db.nextOrderId;
      var r1 := InitiateSpec(db, cfg, req, now, push);
      var r2 := CallbackSpec(r1.0, GatewayCallback(0, resultDesc, checkoutRequestId, Some(items)),
                             sha256, render, nowMs, notify);
      var token := QrService.GenerateToken(sha256, NatToString(id), NatToString(db.nextTicketId), nowMs);
      r2.1 == CallbackServerError(if render(token).None? then "Failed to generate QR code" else NoTicketTypeMessage)
  {
    InitiateAccepted(db, cfg, req, now, push, checkoutRequestId);
    var db1 := InitiateSpec(db, cfg, req, now, push).0;
    SuccessCallbackReply(db1, db.nextOrderId, checkoutRequestId, resultDesc, items, sha256, render, nowMs, notify);
  }

  /** A payment started and then declined: the order is cancelled, keeps
      the checkout id as its reference, and has no ticket. */
  lemma InitiateThenDecline(db: Tables, cfg: Config, req: InitiateRequest, now: DateTime,
                            push: StkPushRequest -> Option<StkPushReply>, checkoutRequestId: string,
                            resultCode: int, resultDesc: string, items: Option<seq<MetadataItem>>,
                            sha256: seq<Byte> -> QrService.Digest, render: string -> Option<string>,
                            nowMs: nat, notify: Option<string>)
    requires WellFormed(db) && ValidDateTime(now) && HasRequiredFields(req) && resultCode != 0
    requires push(StkPushBody(cfg, req.phoneNumber.value, req.amount.value, NatToString(db.nextOrderId), now))
             == Some(StkPushReply(checkoutRequestId))
    requires OrdersWithReference(db.orders, checkoutRequestId) == {}
    requires TicketsFor(db.tickets, db.nextOrderId) == {}
    ensures
      var id := db.nextOrderId;
      var r1 := InitiateSpec(db, cfg, req, now, push);
      var r2 := CallbackSpec(r1.0, GatewayCallback(resultCode, resultDesc, checkoutRequestId, items),
                             sha256, render, nowMs, notify);
      && r2.1 == CallbackAccepted
      && r2.0.orders[id].status == Cancelled && r2.0.orders[id].paymentReference == checkoutRequestId
      && TicketsFor(r2.0.tickets, id) == {}
  {
    InitiateAccepted(db, cfg, req, now, push, checkoutRequestId);
  }

  /** As written, a successful callback delivered twice issues two tickets
      when the metadata carries no receipt number: the order keeps the
      checkout id as its reference, so the replay finds it again and takes
      the successful branch a second time. */
  lemma DuplicateSuccessIssuesTwice(db: Tables, k: OrderId, checkoutRequestId: string, resultDesc: string,
                                    items: seq<MetadataItem>,
                                    sha256: seq<Byte> -> QrService.Digest, render: string -> Option<string>,
                                    nowMs1: nat, nowMs2: nat, notify: Option<string>)
    requires WellFormed(db)
    requires OrdersWithReference(db.orders, checkoutRequestId) == {k}
    requires SettledReference(Metadata(items), checkoutRequestId) == checkoutRequestId
    ensures
      var req := GatewayCallback(0, resultDesc, checkoutRequestId, Some(items));
      var r1 := CallbackSpec(db, req, sha256, render, nowMs1, notify);
      var r2 := CallbackSpec(r1.0, req, sha256, render, nowMs2, notify);
      && k in db.orders && r2.0.orders[k].status == Paid
      && db.nextTicketId !in db.tickets && db.nextTicketId + 1 !in db.tickets
      && TicketsFor(r2.0.tickets, k) == TicketsFor(db.tickets, k) + {db.nextTicketId, db.nextTicketId + 1}
  {
    var req := GatewayCallback(0, resultDesc, checkoutRequestId, Some(items));
    SuccessCallback(db, k, checkoutRequestId, resultDesc, items, sha256, render, nowMs1, notify);
    var db1 := CallbackSpec(db, req, sha256, render, nowMs1, notify).0;
    SuccessCallback(db1, k, checkoutRequestId, resultDesc, items, sha256, render, nowMs2, notify);
  }

  /** As written, once a successful callback has replaced the checkout id
      with a receipt number, a replay of that callback finds no order and
      is answered 404, changing nothing. */
  lemma ReplayAfterReceiptNotFound(db: Tables, k: OrderId, checkoutRequestId: string, resultDesc: string,
                                   items: seq<MetadataItem>,
                                   sha256: seq<Byte> -> QrService.Digest, render: string -> Option<string>,
                                   nowMs1: nat, nowMs2: nat, notify: Option<string>)
    requires WellFormed(db)
    requires OrdersWithReference(db.orders, checkoutRequestId) == {k}
    requires SettledReference(Metadata(items), checkoutRequestId) != checkoutRequestId
    ensures
      var req := GatewayCallback(0, resultDesc, checkoutRequestId, Some(items));
      var r1 := CallbackSpec(db, req, sha256, render, nowMs1, notify);
      CallbackSpec(r1.0, req, sha256, render, nowMs2, notify) == (r1.0, CallbackNotFound("Order not found"))
  {
    SuccessCallback(db, k, checkoutRequestId, resultDesc, items, sha256, render, nowMs1, notify);
  }

  /** As written, a declining callback that arrives after a successful one
      (without receipt number) cancels the paid order; its ticket stays
      issued and usable. */
  lemma LateDeclineCancelsPaid(db: Tables, k: OrderId, checkoutRequestId: string, resultDesc: string,
                               items: seq<MetadataItem>, resultCode: int, declineDesc: string,
                               sha256: seq<Byte> -> QrService.Digest, render: string -> Option<string>,
                               nowMs1: nat, nowMs2: nat, notify: Option<string>)
    requires WellFormed(db) && resultCode != 0
    requires OrdersWithReference(db.orders, checkoutRequestId) == {k}
    requires SettledReference(Metadata(items), checkoutRequestId) == checkoutRequestId
    ensures
      var r1 := CallbackSpec(db, GatewayCallback(0, resultDesc, checkoutRequestId, Some(items)),
                             sha256, render, nowMs1, notify);
      var r2 := CallbackSpec(r1.0, GatewayCallback(resultCode, declineDesc, checkoutRequestId, None),
                             sha256, render, nowMs2, notify);
      && r1.0.orders[k].status == Paid
      && r2.0.orders[k].status == Cancelled
      && r2.1 == CallbackAccepted
      && db.nextTicketId in TicketsFor(r2.0.tickets, k)
      && !r2.0.tickets[db.nextTicketId].isUsed
  {
    SuccessCallback(db, k, checkoutRequestId, resultDesc, items, sha256, render, nowMs1, notify);
  }

  /** As written, the status poll marks an order paid without issuing a
      ticket: the tickets are untouched, so a pending order without one is
      left paid without one. */
  lemma PollPaysWithoutTicket(db: Tables, cfg: Config, id: OrderId, now: DateTime,
                              query: StatusQueryRequest -> Option<StatusReply>)
    requires WellFormed(db) && ValidDateTime(now) && id in db.orders
    requires db.orders[id].status == Pending && db.orders[id].paymentReference != ""
    requires query(StatusQueryBody(cfg, db.orders[id].paymentReference, now)) == Some(StatusReply(0))
    requires TicketsFor(db.tickets, id) == {}
    ensures
      var (db1, r) := CheckStatusSpec(db, cfg, NatToString(id), now, query);
      && r == StatusReport(id, Paid, db.orders[id].paymentReference)
      && db1.orders[id].status == Paid
      && TicketsFor(db1.tickets, id) == {}
  {
    ParamIdOfDecimal(id);
  }

  /** As written, an order whose push failed keeps an empty reference: it
      stays pending, the poll never queries the gateway for it, and no
      callback can single it out once two such orders exist. */
  lemma FailedPushStaysPending(db: Tables, cfg: Config, req: InitiateRequest, now: DateTime,
                               push: StkPushRequest -> Option<StkPushReply>, later: DateTime,
                               query: StatusQueryRequest -> Option<StatusReply>)
    requires WellFormed(db) && ValidDateTime(now) && ValidDateTime(later) && HasRequiredFields(req)
    requires push(StkPushBody(cfg, req.phoneNumber.value, req.amount.value, NatToString(db.nextOrderId), now)).None?
    ensures
      var id := db.nextOrderId;
      var (db1, r1) := InitiateSpec(db, cfg, req, now, push);
      && r1 == InitiateServerError("Failed to initiate payment")
      && db1.orders[id].status == Pending && db1.orders[id].paymentReference == ""
      && CheckStatusSpec(db1, cfg, NatToString(id), later, query) == (db1, StatusReport(id, Pending, ""))
      && (OrdersWithReference(db.orders, "") != {} ==> |OrdersWithReference(db1.orders, "")| >= 2)
  {
    var id := db.nextOrderId;
    var (db1, r1) := InitiateSpec(db, cfg, req, now, push);
    ParamIdOfDecimal(id);
    if OrdersWithReference(db.orders, "") != {} {
      var k :| k in OrdersWithReference(db.orders, "");
      assert {k, id} <= OrdersWithReference(db1.orders, "");
      assert |{k, id}| == 2;
      SubsetCard({k, id}, OrdersWithReference(db1.orders, ""));
    }
  }

  /** `initiatePayment`. */
  method InitiatePayment(db: Store, cfg: Config, req: InitiateRequest, now: DateTime,
                         push: StkPushRequest -> Option<StkPushReply>) returns (resp: InitiateResponse)
    requires db.Valid() && ValidDateTime(now)
    modifies db
    ensures db.Valid() && (db.State(), resp) == InitiateSpec(old(db.State()), cfg, req, now, push)
  {
    if !HasRequiredFields(req) {
      return InitiateBadRequest("Missing required fields");
    }
    var order := db.CreateOrder(PendingOrderRow(req));
    var reply := push(StkPushBody(cfg, req.phoneNumber.value, req.amount.value, NatToString(order.id), now));
    if reply.None? {
      return InitiateServerError("Failed to initiate payment");
    }
    db.UpdateOrder(order.id, OrderPatch(None, Some(reply.value.checkoutRequestId)));
    resp := Initiated(order.id, reply.value.checkoutRequestId, "Payment initiated. Please complete on your phone.");
  }

  /** The `forEach` over `CallbackMetadata.Item`. */
  method CollectMetadata(items: seq<MetadataItem>) returns (metadata: map<string, string>)
    ensures metadata == Metadata(items)
  {
    metadata := map[];
    var i := 0;
    while i < |items|
      invariant 0 <= i <= |items|
      invariant metadata == Metadata(items[..i])
    {
      assert items[..i + 1][..i] == items[..i];
      metadata := metadata[items[i].name := items[i].value];
      i := i + 1;
    }
    assert items[..i] == items;
  }

  /** `mpesaCallback`. */
  method MpesaCallback(db: Store, req: CallbackRequest,
                       sha256: seq<Byte> -> QrService.Digest, render: string -> Option<string>,
                       nowMs: nat, notify: Option<string>) returns (resp: CallbackResponse)
    requires db.Valid()
    modifies db
    ensures db.Valid() && (db.State(), resp) == CallbackSpec(old(db.State()), req, sha256, render, nowMs, notify)
  {
    if req.body.None? || req.body.value.stkCallback.None? {
      return CallbackBadRequest("Invalid callback data");
    }
    var cb := req.body.value.stkCallback.value;
    var found := db.FindOrderByReference(cb.checkoutRequestId);
    if found.None? {
      return CallbackNotFound("Order not found");
    }
    var order := found.value;
    if cb.resultCode == 0 {
      if cb.callbackMetadata.None? {
        return CallbackServerError(MissingMetadataMessage);
      }
      var metadata := CollectMetadata(cb.callbackMetadata.value);
      db.UpdateOrder(order.id, OrderPatch(Some(Paid), Some(SettledReference(metadata, cb.checkoutRequestId))));
      var ticket := db.CreateTicket(NewTicket(order.id, order.ticketTypeId, false));
      var qr := QrService.GenerateQRCode(sha256, render, NatToString(order.id), NatToString(ticket.id), nowMs);
      if qr.Err? {
        return CallbackServerError(qr.error);
      }
      db.SetTicketQr(ticket.id, qr.value.qrCode);
      resp := NotifyOutcome(ticket.ticketTypeId, notify);
    } else {
      db.UpdateOrder(order.id, OrderPatch(Some(Cancelled), Some(cb.checkoutRequestId)));
      resp := CallbackAccepted;
    }
  }

  /** `checkPaymentStatus`. */
  method CheckPaymentStatus(db: Store, cfg: Config, orderId: string, now: DateTime,
                            query: StatusQueryRequest -> Option<StatusReply>) returns (resp: StatusResponse)
    requires db.Valid() && ValidDateTime(now)
    modifies db
    ensures db.Valid() && (db.State(), resp) == CheckStatusSpec(old(db.State()), cfg, orderId, now, query)
  {
    if orderId == "" {
      return StatusBadRequest("Order ID is required");
    }
    var id := ParamId(orderId);
    if id.None? {
      return StatusNotFound("Order not found");
    }
    var found := db.FindOrder(id.value);
    if found.None? {
      return StatusNotFound("Order not found");
    }
    var order := found.value;
    if order.status == Pending && order.paymentReference != "" {
      var reply := query(StatusQueryBody(cfg, order.paymentReference, now));
      if reply.Some? && reply.value.resultCode == 0 {
        db.UpdateOrder(order.id, OrderPatch(Some(Paid), None));
        return StatusReport(order.id, Paid, order.paymentReference);
      }
    }
    resp := StatusReport(order.id, order.status, order.paymentReference);
  }
}
