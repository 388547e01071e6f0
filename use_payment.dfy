/** The client's payment hook: the state it keeps (loading flag, error,
    payment status, order id), starting a payment, checking an order's
    status, and polling that status until it is paid or the attempts run
    out. Each server reply is an input; polling reads the reply to its
    k-th check from a function of k, in place of the timer between checks. */
module UsePayment {
  import opened Wrappers
  import opened Text
  import Api

  /** The fields of a JSON reply that the hook reads; a missing field is `None`. */
  datatype Json = Json(orderId: Option<string>, status: Option<string>, error: Option<string>)

  /** What `fetch` and `response.json()` yield together: a response with its
      `ok` flag and parsed body, or the message of the error either raised. */
  datatype HttpReply = Response(ok: bool, body: Json) | FetchError(message: string)

  /** What the hook's operations resolve to: the reply's body, or `{ error }`. */
  datatype HookResult = Data(body: Json) | Failure(error: string)

  /** The four `useState` values. */
  datatype HookState = HookState(
    loading: bool,
    error: Option<string>,
    paymentStatus: Option<string>,
    orderId: Option<string>)

  const NoOrderId: string := "No order ID provided"
  const InitiateFallback: string := "Failed to initiate payment"
  const CheckFallback: string := "Failed to check payment status"

  /** The result of one request: the body of an ok response; for a response
      that is not ok, the body's error, or `fallback` when that is missing
      or empty; for a failed fetch, its message. */
  function Outcome(reply: HttpReply, fallback: string): (r: HookResult)
    ensures r.Data? <==> reply.Response? && reply.ok
    ensures r.Data? ==> r.body == reply.body
    ensures reply.Response? && !reply.ok ==>
              r.error == if Truthy(reply.body.error) then reply.body.error.value else fallback
    ensures reply.FetchError? ==> r == Failure(reply.message)
  {
    match reply
    case FetchError(message) => Failure(message)
    case Response(ok, body) =>
      if ok then Data(body)
      else Failure(if Truthy(body.error) then body.error.value else fallback)
  }

  /** A status result read as the poll reads it: `result.status === 'paid'`. */
  predicate IsPaid(r: HookResult) {
    r.Data? && r.body.status == Some("paid")
  }

  /** `initiatePayment` with the server's reply to the POST. */
  function InitiateSpec(s: HookState, reply: HttpReply): (r: (HookState, HookResult))
    ensures r.1 == Outcome(reply, InitiateFallback)
    ensures !r.0.loading
    ensures r.1.Data? ==> r.0 == HookState(false, None, Some("pending"), reply.body.orderId)
    ensures r.1.Failure? ==> r.0 == s.(loading := false, error := Some(r.1.error))
  {
    var result := Outcome(reply, InitiateFallback);
    match result
    case Data(body) => (HookState(false, None, Some("pending"), body.orderId), result)
    case Failure(message) => (s.(loading := false, error := Some(message)), result)
  }

  /** The URL `checkPaymentStatus` requests for order `id`. */
  function StatusUrl(baseUrl: string, id: string): string {
    baseUrl + Api.FormatAll(Api.StatusEndpoint, [("orderId", id)])
  }

  /** The id a check uses: its argument when truthy, else the stored one. */
  function IdToCheck(arg: Option<string>, stored: Option<string>): Option<string> {
    if Truthy(arg) then arg else stored
  }

  /** The state after a status request with result `r`. */
  function AfterStatus(s: HookState, r: HookResult): HookState {
    match r
    case Data(body) => s.(loading := false, error := None, paymentStatus := body.status)
    case Failure(message) => s.(loading := false, error := Some(message))
  }

  /** `checkPaymentStatus(arg)`; `fetch` is the server's reply to a GET of a URL. */
  function CheckSpec(s: HookState, arg: Option<string>, baseUrl: string,
                     fetch: string -> HttpReply): (r: (HookState, HookResult))
    ensures r.0.orderId == s.orderId
    ensures r.1.Failure? ==> r.0.error == Some(r.1.error) && r.0.paymentStatus == s.paymentStatus
    ensures r.1.Data? ==> r.0.error == None && r.0.paymentStatus == r.1.body.status && !r.0.loading
  {
    var id := IdToCheck(arg, s.orderId);
    if !Truthy(id) then (s.(error := Some(NoOrderId)), Failure(NoOrderId))
    else
      var r := Outcome(fetch(StatusUrl(baseUrl, id.value)), CheckFallback);
      (AfterStatus(s, r), r)
  }

  /** Which order a check asks about: the argument when it is truthy, else
      the stored order id; with neither there is no request and the error
      'No order ID provided'. */
  lemma CheckRequest(s: HookState, arg: Option<string>, baseUrl: string, fetch: string -> HttpReply)
    ensures Truthy(arg) ==>
      CheckSpec(s, arg, baseUrl, fetch).1 == Outcome(fetch(baseUrl + "/payments/status/" + arg.value), CheckFallback)
    ensures !Truthy(arg) && Truthy(s.orderId) ==>
      CheckSpec(s, arg, baseUrl, fetch).1 == Outcome(fetch(baseUrl + "/payments/status/" + s.orderId.value), CheckFallback)
    ensures !Truthy(arg) && !Truthy(s.orderId) ==>
      CheckSpec(s, arg, baseUrl, fetch) == (s.(error := Some(NoOrderId)), Failure(NoOrderId))
  {
    var id := IdToCheck(arg, s.orderId);
    if Truthy(id) {
      Api.FormatStatus(id.value);
      assert StatusUrl(baseUrl, id.value) == baseUrl + "/payments/status/" + id.value;
    }
  }

  /** A successful check records the reported status and clears the error;
      a failed one records its message and keeps the last status. */
  lemma CheckUpdatesStatus(s: HookState, id: string, baseUrl: string, fetch: string -> HttpReply)
    requires id != ""
    ensures var (s1, r) := CheckSpec(s, Some(id), baseUrl, fetch);
      && !s1.loading && s1.orderId == s.orderId
      && (r.Data? ==> s1.paymentStatus == r.body.status && s1.error == None)
      && (r.Failure? ==> s1.paymentStatus == s.paymentStatus && s1.error == Some(r.error))
  {
  }

  /** The result of the check numbered `k` (from 0) of a poll for order `id`. */
  function Attempt(baseUrl: string, id: string, k: nat, fetch: (nat, string) -> HttpReply): HookResult {
    Outcome(fetch(k, StatusUrl(baseUrl, id)), CheckFallback)
  }

  function Bound(k: nat, maxAttempts: int): nat {
    if maxAttempts > k then maxAttempts - k else 0
  }

  /** The poll from check `k` on: the state, the result it resolves with,
      and how many checks were made in all. */
  function PollFrom(s: HookState, baseUrl: string, id: string, k: nat, maxAttempts: int,
                    fetch: (nat, string) -> HttpReply): (r: (HookState, HookResult, nat))
    ensures k + 1 <= r.2 && (r.2 <= maxAttempts || r.2 == k + 1)
    ensures r.1 == Attempt(baseUrl, id, r.2 - 1, fetch)
    ensures forall j: nat :: k <= j < r.2 - 1 ==> !IsPaid(Attempt(baseUrl, id, j, fetch))
    ensures r.2 < maxAttempts ==> IsPaid(r.1)
    decreases Bound(k, maxAttempts), 1
  {
    var result := Attempt(baseUrl, id, k, fetch);
    PollAfter(AfterStatus(s, result), result, baseUrl, id, k, maxAttempts, fetch)
  }

  /** The poll after check `k` gave `result`: stop at a paid result or once
      `k + 1` attempts reach `maxAttempts`, else check again. */
  function PollAfter(s: HookState, result: HookResult, baseUrl: string, id: string, k: nat, maxAttempts: int,
                     fetch: (nat, string) -> HttpReply): (r: (HookState, HookResult, nat))
    requires result == Attempt(baseUrl, id, k, fetch)
    ensures k + 1 <= r.2 && (r.2 <= maxAttempts || r.2 == k + 1)
    ensures r.1 == Attempt(baseUrl, id, r.2 - 1, fetch)
    ensures forall j: nat :: k <= j < r.2 - 1 ==> !IsPaid(Attempt(baseUrl, id, j, fetch))
    ensures r.2 < maxAttempts ==> IsPaid(r.1)
    decreases Bound(k, maxAttempts), 0
  {
    if IsPaid(result) || k + 1 >= maxAttempts then (s, result, k + 1)
    else PollFrom(s, baseUrl, id, k + 1, maxAttempts, fetch)
  }

  /** `pollPaymentStatus(arg, intervalMs, maxAttempts)`. */
  function PollSpec(s: HookState, arg: Option<string>, baseUrl: string, maxAttempts: int,
                    fetch: (nat, string) -> HttpReply): (r: (HookState, HookResult, nat))
    ensures var id := IdToCheck(arg, s.orderId);
      && (!Truthy(id) ==> r == (s.(error := Some(NoOrderId)), Failure(NoOrderId), 0))
      && (Truthy(id) ==> 1 <= r.2 && r.1 == Attempt(baseUrl, id.value, r.2 - 1, fetch))
  {
    var id := IdToCheck(arg, s.orderId);
    if !Truthy(id) then (s.(error := Some(NoOrderId)), Failure(NoOrderId), 0)
    else PollFrom(s, baseUrl, id.value, 0, maxAttempts, fetch)
  }

  /** The polling rule: with no order id, no check is made; otherwise at
      least one check and at most max(1, maxAttempts), stopping at the first
      paid result, which is returned; if none is paid, the last result is
      returned once the attempts reach maxAttempts. */
  lemma PollRule(s: HookState, arg: Option<string>, baseUrl: string, maxAttempts: int,
                 fetch: (nat, string) -> HttpReply)
    ensures var (s1, r, checks) := PollSpec(s, arg, baseUrl, maxAttempts, fetch);
      var id := IdToCheck(arg, s.orderId);
      && (!Truthy(id) <==> checks == 0)
      && (!Truthy(id) ==> r == Failure(NoOrderId) && s1.error == Some(NoOrderId))
      && (Truthy(id) ==>
            && 1 <= checks && (checks <= maxAttempts || checks == 1)
            && r == Attempt(baseUrl, id.value, checks - 1, fetch)
            && (forall j: nat :: j < checks - 1 ==> !IsPaid(Attempt(baseUrl, id.value, j, fetch)))
            && (!IsPaid(r) ==> checks >= maxAttempts))
  {
  }

  /** The default for `maxAttempts` when the caller gives none. */
  const DefaultMaxAttempts: int := 10

  /** With the default of ten attempts, a poll for an order id makes between
      one and ten checks, and one that ends unpaid made all ten. */
  lemma PollWithDefault(s: HookState, arg: Option<string>, baseUrl: string,
                        fetch: (nat, string) -> HttpReply)
    ensures var (s1, r, checks) := PollSpec(s, arg, baseUrl, DefaultMaxAttempts, fetch);
      && (Truthy(IdToCheck(arg, s.orderId)) ==> 1 <= checks <= 10)
      && (Truthy(IdToCheck(arg, s.orderId)) && !IsPaid(r) ==> checks == 10)
  {
    PollRule(s, arg, baseUrl, DefaultMaxAttempts, fetch);
  }

  /** The hook, its state held in fields that its operations set. */
  class PaymentHook {
    var loading: bool
    var error: Option<string>
    var paymentStatus: Option<string>
    var orderId: Option<string>

    function State(): HookState
      reads this
    {
      HookState(loading, error, paymentStatus, orderId)
    }

    constructor ()
      ensures State() == HookState(false, None, None, None)
    {
      loading, error, paymentStatus, orderId := false, None, None, None;
    }

    /** `initiatePayment(paymentData)`; `reply` is the server's reply to the POST. */
    method InitiatePayment(reply: HttpReply) returns (r: HookResult)
      modifies this
      ensures (State(), r) == InitiateSpec(old(State()), reply)
    {
      loading := true;
      error := None;
      r := Outcome(reply, InitiateFallback);
      if r.Data? {
        orderId := r.body.orderId;
        paymentStatus := Some("pending");
      } else {
        error := Some(r.error);
      }
      loading := false;
    }

    /** `checkPaymentStatus(arg)`. */
    method CheckPaymentStatus(arg: Option<string>, baseUrl: string, fetch: string -> HttpReply) returns (r: HookResult)
      modifies this
      ensures (State(), r) == CheckSpec(old(State()), arg, baseUrl, fetch)
    {
      var id := IdToCheck(arg, orderId);
      if !Truthy(id) {
        error := Some(NoOrderId);
        return Failure(NoOrderId);
      }
      loading := true;
      error := None;
      var endpoint := Api.FormatEndpoint(Api.StatusEndpoint, [("orderId", id.value)]);
      r := Outcome(fetch(baseUrl + endpoint), CheckFallback);
      if r.Data? {
        paymentStatus := r.body.status;
      } else {
        error := Some(r.error);
      }
      loading := false;
    }

    /** `pollPaymentStatus(arg, intervalMs, maxAttempts)`; `fetch(k, url)` is
        the server's reply to the check numbered `k`. Also returns how many
        checks were made. */
    method PollPaymentStatus(arg: Option<string>, baseUrl: string, maxAttempts: int,
                             fetch: (nat, string) -> HttpReply) returns (r: HookResult, checks: nat)
      modifies this
      ensures (State(), r, checks) == PollSpec(old(State()), arg, baseUrl, maxAttempts, fetch)
    {
      var id := IdToCheck(arg, orderId);
      if !Truthy(id) {
        error := Some(NoOrderId);
        return Failure(NoOrderId), 0;
      }
      ghost var expected := PollSpec(State(), arg, baseUrl, maxAttempts, fetch);
      var attempts: nat := 0;
      r := CheckPaymentStatus(id, baseUrl, url => fetch(0, url));
      while !IsPaid(r) && attempts + 1 < maxAttempts
        invariant r == Attempt(baseUrl, id.value, attempts, fetch)
        invariant expected == PollAfter(State(), r, baseUrl, id.value, attempts, maxAttempts, fetch)
        decreases Bound(attempts, maxAttempts)
      {
        attempts := attempts + 1;
        var k := attempts;
        r := CheckPaymentStatus(id, baseUrl, url => fetch(k, url));
      }
      checks := attempts + 1;
    }
  }
}
