# Events ticketing: settlement and redemption, in Dafny

This project models the core of an events-ticketing site that sells tickets through M-Pesa.

1. A customer starts a payment: an order is created pending, and the gateway is asked to push a payment prompt to the customer's phone.
2. The gateway later calls back with the outcome. On success the order is marked paid, one ticket is issued, and the ticket gets a QR token. On failure the order is cancelled.
3. A status poll can also mark a pending order paid.
4. At the gate, scanning the QR token redeems the ticket once.

Around this sit small helpers:

- the gateway's request builders: timestamp, password, request bodies;
- the token codec: SHA-256, then hex, then a 32-character prefix;
- the client's endpoint templating;
- the client's payment hook, which polls the status.

The model has one module per source file:

| file | module | models |
|---|---|---|
| `database.dfy` | `Database` | orders and tickets tables, `createOrder`, `createTicket`, `validateTicket`, `getTicketTypes` |
| `payment_controller.dfy` | `PaymentController` | `initiatePayment`, `mpesaCallback`, `checkPaymentStatus` |
| `qr_service.dfy` | `QrService` | `generateToken`, `generateQRCode`, `validateQRCode` |
| `qr_controller.dfy` | `QrController` | `validateQR`, `generateTestQR` |
| `mpesa_service.dfy` | `MpesaService` | `getTimestamp`, password, Basic credentials, STK-push and status-query bodies |
| `api.dfy` | `Api` | `formatEndpoint` |
| `use_payment.dfy` | `UsePayment` | `initiatePayment`, `checkPaymentStatus`, `pollPaymentStatus` of the hook |
| `text.dfy`, `hex.dfy`, `base64.dfy`, `wrappers.dfy` | `Text`, `Hex`, `Base64`, `Wrappers` | decimal text, `padStart`, UTF-8, lowercase hex, Base64 (RFC 4648 section 4), Option/Result |

The code that changes tables is imperative.

- The tables live in the class `Database.Store`: map fields `orders` and `tickets`, plus the serial-key counters.
- Each handler is a method on the store.
- Each method's postcondition equates the new table state and the HTTP response with a specification function of the old state, for example `PaymentController.CallbackSpec`.
- Lemmas about several calls in a row are stated over those functions.

A Supabase select ending in `.single()` succeeds only when exactly one row matches. The model keeps that rule, so a lookup fails both when no row matches and when two or more do.

Foreign code enters as parameters:

- SHA-256 is a function from bytes to 32 bytes.
- The QR image renderer is a function from text to an optional image.
- Gateway replies, the outcome of the notification e-mails, and server replies seen by the hook are all inputs.
- Clock readings are inputs: `Date.now()` as milliseconds, `new Date()` as a date record or an ISO string.

Handlers that throw reach the Express error middleware (`server.js:34-40`). The model turns those into a 500 carrying the error's message.

### What the code does not guard against (the model follows the code)

- **No status guard on callbacks.** Settlement is not idempotent and not first-wins: every callback updates the order whatever its status.
  - A declining callback cancels a paid order and leaves its ticket usable: `LateDeclineCancelsPaid`.
  - A repeated success callback issues a second ticket when the reference stayed the checkout id: `DuplicateSuccessIssuesTwice`.
  - If the reference was rewritten to the receipt number, the replay is answered 404 instead: `ReplayAfterReceiptNotFound`.
- **The status poll is a second settlement path.** It marks the order paid without going through the callback's steps, so no ticket is issued: `PollPaysWithoutTicket`.
- **An unmatched callback gets a 404.** The gateway's delivery is not acknowledged.
- **An unknown QR code gives a 500 "Failed to validate QR code".** It is not answered as a refused scan with `valid: false`: `QrController.UnknownCode`.
- **Orders never record their ticket type.** The requested ticket type is checked but not stored, so tickets are issued with no ticket type. The success callback then looks up the ticket type by a null id, finds no row, and throws reading its name. The callback is answered 500 after the order is paid and the ticket stored, and no e-mail is sent: `InitiateThenSettleReply`.
- **A failed push strands the order.** The order stays pending with an empty reference. The poll never queries the gateway for it: `FailedPushStaysPending`.

## Model

| member | source | states |
|---|---|---|
| Text.NatToString | qrService.js:60 | an id or clock reading in a template literal is non-empty decimal digits, with no leading zero, and has one digit exactly when below 10 |
| Text.ParseNatToString | qrService.js:60 | the decimal text of a number reads back as that number |
| Text.NatToStringInjective | qrService.js:60 | distinct numbers have distinct decimal texts |
| Text.PadStart | mpesaService.js:130-134 | `padStart` yields the target length, or the string's own length when that is longer |
| Text.PadStartKeepsSuffix | mpesaService.js:130-134 | `padStart` only prepends the filler; the string itself ends the result |
| Text.Pad2Digits | mpesaService.js:130-134 | a value below 100 pads to two digits that read back as the value; a single digit gets a leading '0', two digits are unchanged |
| Text.Utf8Char | mpesaService.js:53-55 | a character encodes to 1–4 bytes, and to exactly its code when it is ASCII |
| Text.Utf8Append | mpesaService.js:53-55 | encoding a concatenation is the concatenation of the encodings |
| Text.Utf8Ascii | mpesaService.js:53-55 | an ASCII string encodes to one byte per character |
| Hex.HexEncode | qrService.js:63 | the hex digest has two lowercase hex digits per byte |
| Hex.HexRoundTrip | qrService.js:63 | decoding the hex text gives the bytes back |
| Hex.HexPrefix | qrService.js:63-66 | the first 2k hex digits are the hex text of the first k bytes |
| Base64.Encode | mpesaService.js:53-55 | Base64 text has 4 characters per started 3-byte group |
| Base64.DecodeEncode | mpesaService.js:53-55 | decoding Base64 text gives the encoded bytes back |
| Base64.EncodeDecode | mpesaService.js:53-55 | the decoder accepts only the text `Buffer.toString('base64')` writes: a text that decodes to some bytes is their encoding, so leftover bits of a padded group must be zero |
| Base64.EncodeAlphabet | mpesaService.js:53-55 | Base64 text uses the RFC 4648 alphabet, with '=' only in the last two places |
| MpesaService.GetTimestamp | mpesaService.js:127-137 | the timestamp starts with the decimal year (its length and the fields after the year are stated by `TimestampFields`) |
| MpesaService.TimestampFields | mpesaService.js:127-137 | the timestamp is all digits: the year, then month (1-based), day, hours, minutes and seconds, each two digits |
| MpesaService.MonthField | mpesaService.js:130 | the month field is `getMonth() + 1`, between "01" and "12" |
| MpesaService.TimestampRoundTrip | mpesaService.js:127-137 | for a four-digit year the timestamp has 14 characters and reads back as the date |
| MpesaService.Password | mpesaService.js:53-55 | the password decodes from Base64 to the UTF-8 bytes of shortcode, passkey and timestamp |
| MpesaService.PasswordDetermined | mpesaService.js:53-55 | the password is the only Base64 text of those bytes |
| MpesaService.BasicCredentials | mpesaService.js:26 | the Basic credentials decode from Base64 to `key:secret` |
| MpesaService.CredentialsDetermined | mpesaService.js:26 | the credentials are the only Base64 text of `key:secret` |
| MpesaService.StkPushBody | mpesaService.js:49-71 | BusinessShortCode and PartyB are the shortcode; PartyA and PhoneNumber are the phone; TransactionType is 'CustomerPayBillOnline'; CallBackURL is the configured one; Amount, AccountReference and "Payment for " + reference are set; the Password decodes to shortcode, passkey and the body's Timestamp, which by `PasswordDetermined` pins it |
| MpesaService.StatusQueryBody | mpesaService.js:92-107 | the query carries the shortcode, the checkout id and the timestamp; its password decodes to shortcode, passkey and that timestamp, which by `PasswordDetermined` pins it |
| Database.InsertOrder | database.js:41-50 | `createOrder` adds exactly one order under a fresh id, holding the given row, and returns it; tickets are unchanged |
| Database.InsertTicket | database.js:52-61 | `createTicket` adds exactly one ticket under a fresh id, with no use time and no code, and returns it; orders are unchanged |
| Database.Patched | paymentController.js:98-104 | the columns a patch names take its values; every other column keeps its value |
| Database.PatchOrder | paymentController.js:98-104 | an update by id sets that order to its patched row and changes no other order; an absent id changes nothing |
| Database.AttachQr | paymentController.js:117-120 | the ticket's `qr_code` becomes the given code, no other row changes, and an absent id changes nothing |
| Database.FindByReference | paymentController.js:79-87 | the lookup by payment reference succeeds exactly when one order carries the reference, and returns that order |
| Database.ValidateTicketSpec | database.js:63-87 | no single ticket with the code: error, nothing changes; a used ticket: `valid` false, 'Ticket already used', nothing changes; an unused ticket: `valid` true, 'Ticket valid', only that ticket becomes used at `now`; the reported ticket is the row read before the update |
| Database.ValidateTwice | database.js:74-86 | a second scan of an admitted code reports 'Ticket already used' for the same ticket, with the first scan's time, and changes nothing |
| Database.AdmittedAtMostOnce | database.js:74-86 | over any run of scans a ticket is admitted at most once, and never if it was absent or already used |
| Database.ActiveTicketTypes | database.js:30-39 | `getTicketTypes` returns exactly the rows of the event that are active |
| Database.Store.CreateOrder | database.js:41-50 | the store method performs `InsertOrder` on its tables |
| Database.Store.CreateTicket | database.js:52-61 | the store method performs `InsertTicket` on its tables |
| Database.Store.UpdateOrder | paymentController.js:98-104 | the store method performs `PatchOrder` on its tables |
| Database.Store.SetTicketQr | paymentController.js:117-120 | the store method performs `AttachQr` on its tables |
| Database.Store.FindOrder | paymentController.js:178-186 | the lookup by id finds the order exactly when the id is present |
| Database.Store.FindOrderByReference | paymentController.js:79-83 | the store method returns what `FindByReference` specifies |
| Database.Store.ValidateTicket | database.js:63-87 | the store method performs `ValidateTicketSpec` on its tables |
| QrService.HashInput | qrService.js:60 | the hashed text is the order id, ':', the ticket id, ':' and the decimal clock reading, at those positions |
| QrService.GenerateToken | qrService.js:58-67 | the token has 32 lowercase hex digits and is the hex text of the first 16 bytes of SHA-256 of `orderId:ticketId:now` |
| QrService.HashInputInjective | qrService.js:60 | when the ids hold no ':', the hashed text determines order id, ticket id and clock reading |
| QrService.GenerateQRCode | qrService.js:17-34 | the QR code is the generated token and the image is its rendering; a render failure is the error "Failed to generate QR code" |
| QrService.ValidationOutcome | qrService.js:41-50 | the database result passes through unchanged; any failure becomes "Failed to validate QR code" |
| QrService.ValidateQRCode | qrService.js:41-50 | validation delegates to the tickets table and maps its outcome |
| QrController.ToResponse | qrController.js:27-36 | `valid` and `message` are copied; the ticket summary is present exactly when valid and maps id, order id, used flag and use time |
| QrController.ValidateQRSpec | qrController.js:16-40 | a missing or empty code gives 400 'QR code is required' and reads nothing; any other code updates the tables as `ValidateTicketSpec` does, and the reply is the shaped validation result, or a 500 "Failed to validate QR code" when the lookup fails |
| QrController.ValidateQR | qrController.js:16-40 | the handler performs `ValidateQRSpec` on the store |
| QrController.ScanTwice | qrController.js:25-36 | a first scan admits and shows the ticket unused; a second is refused with no summary and changes nothing |
| QrController.UnknownCode | qrController.js:37-39 | a code that matches no ticket yields a 500 "Failed to validate QR code" and no change |
| QrController.GenerateTestQR | qrController.js:49-67 | 400 'Order ID and Ticket ID are required' exactly when either id is missing; otherwise the generated token and its image when the image renders, and a 500 "Failed to generate QR code" when it does not |
| PaymentController.HasRequiredFields | paymentController.js:22-24 | the request passes exactly when phone, name, e-mail and ticket type are present and non-empty and the amount is present and not zero |
| PaymentController.InitiateSpec | paymentController.js:18-59 | missing field: 400, no order; otherwise one new pending order in KES with no ticket type. After a failed push its reference stays empty and the reply is 500 'Failed to initiate payment'; after a successful push its reference is the CheckoutRequestID, which is returned. The push is addressed with the order id in decimal |
| PaymentController.InitiatePayment | paymentController.js:18-59 | the handler performs `InitiateSpec` on the store |
| PaymentController.Metadata | paymentController.js:92-95 | the metadata names are exactly the item names |
| PaymentController.MetadataLastWins | paymentController.js:92-95 | a later item with the same name overwrites an earlier one |
| PaymentController.CollectMetadata | paymentController.js:92-95 | the `forEach` loop computes `Metadata` |
| PaymentController.SettledReference | paymentController.js:102 | the new reference is the receipt number when the metadata carries a non-empty one, and the checkout id otherwise |
| PaymentController.NotifyOutcome | paymentController.js:122-144 | a ticket without a type id gets a 500 with the TypeError of reading `name` of the missing row; otherwise the reply is 'Accepted' exactly when the lookup and the e-mails succeed, else a 500 with their error |
| PaymentController.SettleSpec | paymentController.js:97-144 | the order becomes paid under the new reference; exactly one unused ticket is added for it, with the order's ticket type; its code is the token when the image renders, otherwise the reply is 500 "Failed to generate QR code"; after the code is attached the reply is `NotifyOutcome` |
| PaymentController.CallbackSpec | paymentController.js:67-161 | missing Body or stkCallback: 400 and no change; no single order with the reference: 404 and no change; ResultCode 0 without metadata: 500 and no change; ResultCode 0: `SettleSpec`; otherwise the order is cancelled with the checkout id as reference, and the reply is 'Accepted' |
| PaymentController.MpesaCallback | paymentController.js:67-161 | the handler performs `CallbackSpec` on the store |
| PaymentController.ParamId | paymentController.js:178-182 | a route parameter selects an order exactly when it is a non-empty digit string |
| PaymentController.ParamIdOfDecimal | paymentController.js:178-182 | the decimal text of an id selects that id |
| PaymentController.CheckStatusSpec | paymentController.js:169-216 | empty id: 400; an id naming no order: 404; an id naming an order: a report for that order; tickets never change. The status changes only from pending with a non-empty reference, and only when the gateway answers ResultCode 0; it then becomes paid. A failed query leaves the order as it was. The reply carries the id, status and reference |
| PaymentController.CheckPaymentStatus | paymentController.js:169-216 | the handler performs `CheckStatusSpec` on the store |
| PaymentController.InitiateAccepted | paymentController.js:27-48 | after an accepted push the new pending order is the only one carrying the checkout id |
| PaymentController.SuccessCallback | paymentController.js:90-120 | a success callback marks its order paid and adds exactly one unused ticket for it; afterwards the checkout id still selects the order only if no receipt number replaced it |
| PaymentController.SuccessCallbackReply | paymentController.js:114-144 | the reply to a success callback: a 500 when the image does not render, else `NotifyOutcome` of the order's ticket type |
| PaymentController.InitiateThenSettle | paymentController.js:18-120 | initiate, then a success callback: the order is paid with exactly one ticket, unused |
| PaymentController.SettleThenScanTwice | paymentController.js:107-120 | when the image renders and no ticket already carries the new token, the ticket a settlement issues is admitted by the first scan of its token and refused by the second, with the first scan's time |
| PaymentController.InitiateThenSettleReply | paymentController.js:27-35 | as written, that callback is answered 500 after the ticket is stored: the image failure, or else the TypeError of the missing ticket type |
| PaymentController.InitiateThenDecline | paymentController.js:145-154 | initiate, then a failure callback: the order is cancelled under the checkout id and has no ticket |
| PaymentController.DuplicateSuccessIssuesTwice | paymentController.js:79-111 | as written, a success callback delivered twice without a receipt number issues two tickets |
| PaymentController.ReplayAfterReceiptNotFound | paymentController.js:79-104 | as written, after a receipt number replaced the reference, a replayed callback gets 404 and changes nothing |
| PaymentController.LateDeclineCancelsPaid | paymentController.js:145-154 | as written, a failure callback after a success cancels the paid order, whose ticket stays unused and valid |
| PaymentController.PollPaysWithoutTicket | paymentController.js:189-201 | as written, the poll marks a pending order paid and issues no ticket |
| PaymentController.FailedPushStaysPending | paymentController.js:27-48 | as written, after a failed push the order stays pending with an empty reference, the poll never changes it, and two such orders can no longer be told apart by reference |
| Api.IndexFrom | api.js:57 | the least index at or after `from` where the pattern occurs, or none |
| Api.ReplaceFirst | api.js:57 | only the first occurrence of the pattern is replaced; with none the string is unchanged |
| Api.FormatAll | api.js:53-61 | the parameters applied in key order, each to the previous output; an endpoint without ':' comes back unchanged whatever the parameters |
| Api.FormatEndpoint | api.js:53-61 | the loop applies the parameters in key order, each to the previous output (`FormatAll`) |
| Api.FormatNoParams | api.js:53-61 | with no parameters the endpoint is returned unchanged |
| Api.FormatAppend | api.js:56-58 | one more parameter acts on the output of the earlier ones |
| Api.FormatStatus | api.js:29 | `/payments/status/:orderId` with `{orderId: X}` is `/payments/status/X` |
| Api.FirstOccurrenceOnly | api.js:57 | for any key, value and colon-free prefix, only the first placeholder is filled and the rest of the endpoint, even one holding the same placeholder again, is kept |
| Api.EarlierKeyCapturesLongerPlaceholder | api.js:56-58 | for any colon-free prefix and values, a key that prefixes a later placeholder's name fills that placeholder first and leaves the rest of the name; the later key then fills nothing |
| UsePayment.Outcome | usePayment.js:33-37 | an ok reply gives its body; otherwise the body's error, else the fallback message; a failed fetch gives its message |
| UsePayment.InitiateSpec | usePayment.js:20-49 | on success the hook stores `data.orderId` and status 'pending' and clears the error; on failure it records the message; loading ends false |
| UsePayment.PaymentHook.InitiatePayment | usePayment.js:20-49 | the hook method performs `InitiateSpec` on its fields |
| UsePayment.CheckRequest | usePayment.js:56-69 | a check asks for `/payments/status/<id>`, where id is the argument if truthy, else the stored order id; with neither it fails with 'No order ID provided' and makes no request |
| UsePayment.CheckUpdatesStatus | usePayment.js:64-85 | a successful check records the reported status and clears the error; a failed one records its message and keeps the status |
| UsePayment.CheckSpec | usePayment.js:56-86 | a check never changes the stored order id; a failure records its message and keeps the status; a success clears the error, ends loading and records the reported status |
| UsePayment.PaymentHook.CheckPaymentStatus | usePayment.js:56-86 | the hook method performs `CheckSpec` on its fields |
| UsePayment.PollFrom | usePayment.js:103-128 | from check k on, the poll stops at the first paid result and returns it; it makes at most max(k+1, maxAttempts) checks; a poll that ends before maxAttempts ended on paid |
| UsePayment.PollSpec | usePayment.js:95-130 | with no id, 'No order ID provided' and no check; otherwise at least one check, and the result is the last check's |
| UsePayment.PollRule | usePayment.js:95-130 | no id: 'No order ID provided' and no check. Otherwise at least one check and at most max(1, maxAttempts). The result is the last check's; no earlier check was paid; an unpaid result means the attempts reached maxAttempts |
| UsePayment.PollWithDefault | usePayment.js:95 | with the default of ten attempts, a poll for an order id makes one to ten checks, and an unpaid outcome means all ten were made |
| UsePayment.PaymentHook.PollPaymentStatus | usePayment.js:95-130 | the hook's loop performs `PollSpec`: the count of checks and the final state match |

## Left out

- HTTP, OAuth and Supabase transport are left out: the axios calls in `mpesaService.js`, the Supabase client, and `fetch` in the hook. Their replies are inputs. Only the Basic credential text of the token request is modelled.
- Database errors on insert and update are left out. `createOrder` and `createTicket` always succeed. The handlers ignore the result of their updates, and the model treats every update as applied.
- SHA-256 and the QR image renderer are left out. They are foreign libraries and enter as function parameters.
- The clock is left out. `Date.now()` and `new Date()` are parameters.
- The concurrent check-then-set race in `validateTicket` is left out. Redemption is modelled one request at a time.
- The notification e-mails are left out (`emailService.js`). For a ticket without a type id the model states the outcome: the lookup finds no row and reading its name throws. For a ticket with a type id, the lookup and both e-mails are one input: either they succeed, or they fail with a message that becomes the 500.
- `getEvent`, `getArtists` and `getGallery` are left out. They are read-only passthroughs.
- These files are left out: `eventController.js`, `ticketController.js`, the route files, the configuration files, `EventContext.js` and `useQRCode.js`. From `server.js` only the error middleware's 500 is modelled.
- The `created_at` column and the receipt e-mail's fields are left out.
- PaymentController.StkCallback: metadata values are text. A numeric `Value` is represented by its text.
- PaymentController.StkCallback: a `CallbackMetadata` without `Item` is not told apart from a missing one. Both take the TypeError path, whose exact message comes from the JavaScript engine.
- MpesaService.StkPushBody: AccountReference is text. The handler sends the order id, a JSON number; the model holds its decimal text.
- PaymentController.StkPushReply: a reply without `CheckoutRequestID` is not modelled.
- PaymentController.StatusReply: the query's `ResultCode` is taken as a number, matching the `=== 0` comparison.
- PaymentController.InitiateRequest: `amount` is an integer. Other JSON values and their truthiness are not modelled.
- PaymentController.ParamId: only digit strings select an order. The database's own integer cast would also accept signs and surrounding spaces.
- Database.Store: ids are unbounded serial keys starting at 1. JavaScript number limits are not modelled.
- Database.ActiveTicketTypes: states which rows are returned and not their order, because the query has no order clause.
- MpesaService.TimestampRoundTrip: only four-digit years are covered. `GetTimestamp` itself takes any non-negative year; negative years are not modelled.
- Api.ReplaceFirst: inserts the value literally and does not interpret `$&`, `$1` and the other replacement patterns of `String.prototype.replace`.
- Api.FormatEndpoint: parameters are a list in key order. `Object.keys` puts integer-like keys first, which is not modelled.
- UsePayment.PaymentHook: React state updates are modelled as immediate assignments. Stale closures between renders are not modelled, nor are the timer between polls and the promise plumbing. The default `intervalMs = 3000` is a timer delay and is not modelled; callers of `PollPaymentStatus` pass `maxAttempts`, whose default of 10 is `DefaultMaxAttempts`.
- UsePayment.Json: the order id is kept as text.
