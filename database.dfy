/** The two tables the settlement and redemption logic works on, orders and
    tickets, held as maps keyed by id, plus the catalogue's ticket-type
    filter. The store assigns ids from counters (the tables' serial keys).
    A select that ends in `.single()` succeeds only when exactly one row
    matches; an `update(...).eq('id', id)` changes the row with that id, or
    nothing when there is none. */
module Database {
  import opened Wrappers

  type OrderId = nat
  type TicketId = nat

  /** An instant as `new Date().toISOString()` writes it, read from the
      caller's clock. */
  type IsoTime = string

  datatype OrderStatus = Pending | Paid | Cancelled

  datatype Order = Order(
    id: OrderId,
    customerName: string,
    customerEmail: string,
    customerPhone: string,
    totalAmount: int,
    currency: string,
    status: OrderStatus,
    paymentReference: string,
    ticketTypeId: Option<string>)

  /** A row given to `createOrder`: an order without its id. */
  datatype NewOrder = NewOrder(
    customerName: string,
    customerEmail: string,
    customerPhone: string,
    totalAmount: int,
    currency: string,
    status: OrderStatus,
    paymentReference: string,
    ticketTypeId: Option<string>)

  datatype Ticket = Ticket(
    id: TicketId,
    orderId: OrderId,
    ticketTypeId: Option<string>,
    isUsed: bool,
    usedAt: Option<IsoTime>,
    qrCode: Option<string>)

  /** A row given to `createTicket`; `used_at` and `qr_code` start empty. */
  datatype NewTicket = NewTicket(orderId: OrderId, ticketTypeId: Option<string>, isUsed: bool)

  datatype TicketType = TicketType(id: string, eventId: string, name: string, isActive: bool)

  datatype Tables = Tables(
    orders: map<OrderId, Order>,
    tickets: map<TicketId, Ticket>,
    nextOrderId: OrderId,
    nextTicketId: TicketId)

  /** Every row is stored under its own id, and the next ids are unused. */
  predicate WellFormed(db: Tables) {
    && (forall k :: k in db.orders ==> db.orders[k].id == k && k < db.nextOrderId)
    && (forall k :: k in db.tickets ==> db.tickets[k].id == k && k < db.nextTicketId)
  }

  function OrderRow(o: Order): NewOrder {
    NewOrder(o.customerName, o.customerEmail, o.customerPhone, o.totalAmount, o.currency,
             o.status, o.paymentReference, o.ticketTypeId)
  }

  /** `createOrder(row)`: inserts one order and returns the stored row. */
  function InsertOrder(db: Tables, row: NewOrder): (r: (Tables, Order))
    requires WellFormed(db)
    ensures WellFormed(r.0)
    ensures r.1.id !in db.orders && r.0.orders == db.orders[r.1.id := r.1] && OrderRow(r.1) == row
    ensures r.0.tickets == db.tickets && r.0.nextTicketId == db.nextTicketId
  {
    var o := Order(db.nextOrderId, row.customerName, row.customerEmail, row.customerPhone,
                   row.totalAmount, row.currency, row.status, row.paymentReference, row.ticketTypeId);
    (db.(orders := db.orders[o.id := o], nextOrderId := db.nextOrderId + 1), o)
  }

  /** `createTicket(row)`: inserts one ticket and returns the stored row. */
  function InsertTicket(db: Tables, row: NewTicket): (r: (Tables, Ticket))
    requires WellFormed(db)
    ensures WellFormed(r.0)
    ensures r.1.id !in db.tickets && r.0.tickets == db.tickets[r.1.id := r.1]
    ensures r.1 == Ticket(r.1.id, row.orderId, row.ticketTypeId, row.isUsed, None, None)
    ensures r.0.orders == db.orders && r.0.nextOrderId == db.nextOrderId
  {
    var t := Ticket(db.nextTicketId, row.orderId, row.ticketTypeId, row.isUsed, None, None);
    (db.(tickets := db.tickets[t.id := t], nextTicketId := db.nextTicketId + 1), t)
  }

  /** The columns of an order that an update sets; `None` leaves a column as it is. */
  datatype OrderPatch = OrderPatch(status: Option<OrderStatus>, paymentReference: Option<string>)

  /** The order with the columns the patch names set, and every other
      column as it was. */
  function Patched(o: Order, p: OrderPatch): (r: Order)
    ensures r.status == (if p.status.Some? then p.status.value else o.status)
    ensures r.paymentReference == (if p.paymentReference.Some? then p.paymentReference.value else o.paymentReference)
    ensures r == o.(status := r.status, paymentReference := r.paymentReference)
  {
    o.(status := if p.status.Some? then p.status.value else o.status,
       paymentReference := if p.paymentReference.Some? then p.paymentReference.value else o.paymentReference)
  }

  /** `from('orders').update(patch).eq('id', id)`. */
  function PatchOrder(db: Tables, id: OrderId, p: OrderPatch): (r: Tables)
    requires WellFormed(db)
    ensures WellFormed(r)
    ensures r.tickets == db.tickets && r.orders.Keys == db.orders.Keys
    ensures forall k :: k in db.orders && k != id ==> r.orders[k] == db.orders[k]
    ensures id in db.orders ==> r.orders[id] == Patched(db.orders[id], p)
    ensures id !in db.orders ==> r == db
  {
    if id in db.orders then db.(orders := db.orders[id := Patched(db.orders[id], p)]) else db
  }

  /** `from('tickets').update({ qr_code }).eq('id', id)`. */
  function AttachQr(db: Tables, id: TicketId, qrCode: string): (r: Tables)
    requires WellFormed(db)
    ensures WellFormed(r)
    ensures r.orders == db.orders && r.tickets.Keys == db.tickets.Keys
    ensures forall k :: k in db.tickets && k != id ==> r.tickets[k] == db.tickets[k]
    ensures id in db.tickets ==> r.tickets[id] == db.tickets[id].(qrCode := Some(qrCode))
    ensures id !in db.tickets ==> r == db
  {
    if id in db.tickets then db.(tickets := db.tickets[id := db.tickets[id].(qrCode := Some(qrCode))]) else db
  }

  function OrdersWithReference(orders: map<OrderId, Order>, reference: string): set<OrderId> {
    set k | k in orders && orders[k].paymentReference == reference
  }

  function TicketsWithQr(tickets: map<TicketId, Ticket>, qrCode: string): set<TicketId> {
    set k | k in tickets && tickets[k].qrCode == Some(qrCode)
  }

  lemma SingletonMember<K>(s: set<K>, a: K, b: K)
    requires |s| == 1 && a in s && b in s
    ensures a == b
  {
    if a != b {
      assert {a, b} <= s;
      assert |{a, b}| == 2;
      SubsetCard({a, b}, s);
    }
  }

  lemma {:induction false} SubsetCard<K>(a: set<K>, b: set<K>)
    requires a <= b
    ensures |a| <= |b|
    decreases |a|
  {
    if a != {} {
      var x :| x in a;
      SubsetCard(a - {x}, b - {x});
    }
  }

  /** `select('*').eq('payment_reference', reference).single()`. */
  ghost function FindByReference(db: Tables, reference: string): (r: Option<Order>)
    requires WellFormed(db)
    ensures r.Some? <==> |OrdersWithReference(db.orders, reference)| == 1
    ensures r.Some? ==> r.value.id in db.orders && db.orders[r.value.id] == r.value
                        && r.value.paymentReference == reference
    ensures r.Some? ==> OrdersWithReference(db.orders, reference) == {r.value.id}
  {
    var s := OrdersWithReference(db.orders, reference);
    if |s| == 1 then
      var k :| k in s;
      assert s == {k} by {
        forall j | j in s ensures j == k { SingletonMember(s, j, k); }
      }
      Some(db.orders[k])
    else None
  }

  /** What `validateTicket` reports: whether the scan admits, a message, and
      the ticket row as it was read before any update. */
  datatype Validation = Validation(valid: bool, message: string, ticket: Ticket)

  /** The error a `.single()` select raises when it does not match exactly one row. */
  datatype DbError = NotSingleRow

  /** `validateTicket(qrCode)` with the clock reading `now`. */
  ghost function ValidateTicketSpec(db: Tables, qrCode: string, now: IsoTime): (r: (Tables, Result<Validation, DbError>))
    requires WellFormed(db)
    ensures WellFormed(r.0)
    ensures r.0.orders == db.orders && r.0.tickets.Keys == db.tickets.Keys
    ensures r.0.nextOrderId == db.nextOrderId && r.0.nextTicketId == db.nextTicketId
    ensures r.1.Err? <==> |TicketsWithQr(db.tickets, qrCode)| != 1
    ensures r.1.Err? ==> r.0 == db
    ensures r.1.Ok? ==>
      var t := r.1.value.ticket;
      && TicketsWithQr(db.tickets, qrCode) == {t.id}
      && t.id in db.tickets && db.tickets[t.id] == t
      && r.1.value.valid == !t.isUsed
      && (t.isUsed ==> r.1.value.message == "Ticket already used" && r.0 == db)
      && (!t.isUsed ==> r.1.value.message == "Ticket valid"
                        && r.0.tickets == db.tickets[t.id := t.(isUsed := true, usedAt := Some(now))])
  {
    var s := TicketsWithQr(db.tickets, qrCode);
    if |s| != 1 then (db, Err(NotSingleRow))
    else
      var k :| k in s;
      assert s == {k} by {
        forall j | j in s ensures j == k { SingletonMember(s, j, k); }
      }
      var ticket := db.tickets[k];
      if ticket.isUsed then (db, Ok(Validation(false, "Ticket already used", ticket)))
      else
        var marked := ticket.(isUsed := true, usedAt := Some(now));
        (db.(tickets := db.tickets[k := marked]), Ok(Validation(true, "Ticket valid", ticket)))
  }

  /** Marking a ticket used keeps every ticket's code, so a scan finds the
      same tickets before and after. */
  lemma MarkKeepsCodes(tickets: map<TicketId, Ticket>, k: TicketId, now: IsoTime, qrCode: string)
    requires k in tickets
    ensures TicketsWithQr(tickets[k := tickets[k].(isUsed := true, usedAt := Some(now))], qrCode)
         == TicketsWithQr(tickets, qrCode)
  {
  }

  /** Scanning the same code twice: the first scan of an unused ticket
      admits, the second reports the ticket used, with the time of the first. */
  lemma ValidateTwice(db: Tables, qrCode: string, now1: IsoTime, now2: IsoTime)
    requires WellFormed(db)
    requires ValidateTicketSpec(db, qrCode, now1).1.Ok? && ValidateTicketSpec(db, qrCode, now1).1.value.valid
    ensures var (db1, r1) := ValidateTicketSpec(db, qrCode, now1);
      var (db2, r2) := ValidateTicketSpec(db1, qrCode, now2);
      && r2.Ok? && !r2.value.valid && r2.value.message == "Ticket already used"
      && r2.value.ticket.id == r1.value.ticket.id
      && r2.value.ticket.usedAt == Some(now1)
      && db2 == db1
  {
    var (db1, r1) := ValidateTicketSpec(db, qrCode, now1);
    MarkKeepsCodes(db.tickets, r1.value.ticket.id, now1, qrCode);
  }

  /** A run of scans, one after the other, each with its own code and clock reading. */
  ghost function ValidateAll(db: Tables, scans: seq<(string, IsoTime)>): (r: (Tables, seq<Result<Validation, DbError>>))
    requires WellFormed(db)
    ensures WellFormed(r.0) && |r.1| == |scans|
    decreases |scans|
  {
    if scans == [] then (db, [])
    else
      var (db1, r1) := ValidateTicketSpec(db, scans[0].0, scans[0].1);
      var (db2, rs) := ValidateAll(db1, scans[1..]);
      (db2, [r1] + rs)
  }

  /** How many of the results admitted ticket `k`. */
  function Admissions(results: seq<Result<Validation, DbError>>, k: TicketId): nat {
    if results == [] then 0
    else (if results[0].Ok? && results[0].value.valid && results[0].value.ticket.id == k then 1 else 0)
         + Admissions(results[1..], k)
  }

  /** Redemption is at most once: over any run of scans a ticket is admitted
      at most once, and never if it was already used or absent. */
  lemma {:induction false} AdmittedAtMostOnce(db: Tables, scans: seq<(string, IsoTime)>, k: TicketId)
    requires WellFormed(db)
    ensures Admissions(ValidateAll(db, scans).1, k) <= 1
    ensures (k !in db.tickets || db.tickets[k].isUsed) ==> Admissions(ValidateAll(db, scans).1, k) == 0
    decreases |scans|
  {
    if scans != [] {
      var (db1, r1) := ValidateTicketSpec(db, scans[0].0, scans[0].1);
      var (db2, rs) := ValidateAll(db1, scans[1..]);
      assert ValidateAll(db, scans).1 == [r1] + rs;
      assert ([r1] + rs)[1..] == rs;
      AdmittedAtMostOnce(db1, scans[1..], k);
    }
  }

  /** `getTicketTypes(eventId)`: the active ticket types of the event. */
  function ActiveTicketTypes(rows: seq<TicketType>, eventId: string): (r: seq<TicketType>)
    ensures forall t :: t in r <==> t in rows && t.eventId == eventId && t.isActive
    ensures |r| <= |rows|
  {
    if rows == [] then []
    else
      var rest := ActiveTicketTypes(rows[1..], eventId);
      if rows[0].eventId == eventId && rows[0].isActive then [rows[0]] + rest else rest
  }

  /** The store: the two tables as fields that its operations update in place. */
  class Store {
    var orders: map<OrderId, Order>
    var tickets: map<TicketId, Ticket>
    var nextOrderId: OrderId
    var nextTicketId: TicketId

    function State(): Tables
      reads this
    {
      Tables(orders, tickets, nextOrderId, nextTicketId)
    }

    ghost predicate Valid()
      reads this
    {
      WellFormed(State())
    }

    constructor ()
      ensures Valid() && State() == Tables(map[], map[], 1, 1)
    {
      orders, tickets := map[], map[];
      nextOrderId, nextTicketId := 1, 1;
    }

    method CreateOrder(row: NewOrder) returns (o: Order)
      requires Valid()
      modifies this
      ensures Valid() && (State(), o) == InsertOrder(old(State()), row)
    {
      o := Order(nextOrderId, row.customerName, row.customerEmail, row.customerPhone,
                 row.totalAmount, row.currency, row.status, row.paymentReference, row.ticketTypeId);
      orders := orders[o.id := o];
      nextOrderId := nextOrderId + 1;
    }

    method CreateTicket(row: NewTicket) returns (t: Ticket)
      requires Valid()
      modifies this
      ensures Valid() && (State(), t) == InsertTicket(old(State()), row)
    {
      t := Ticket(nextTicketId, row.orderId, row.ticketTypeId, row.isUsed, None, None);
      tickets := tickets[t.id := t];
      nextTicketId := nextTicketId + 1;
    }

    method UpdateOrder(id: OrderId, p: OrderPatch)
      requires Valid()
      modifies this
      ensures Valid() && State() == PatchOrder(old(State()), id, p)
    {
      if id in orders {
        orders := orders[id := Patched(orders[id], p)];
      }
    }

    method SetTicketQr(id: TicketId, qrCode: string)
      requires Valid()
      modifies this
      ensures Valid() && State() == AttachQr(old(State()), id, qrCode)
    {
      if id in tickets {
        tickets := tickets[id := tickets[id].(qrCode := Some(qrCode))];
      }
    }

    /** `select('*').eq('id', id).single()`. */
    method FindOrder(id: OrderId) returns (r: Option<Order>)
      requires Valid()
      ensures r.Some? <==> id in orders
      ensures r.Some? ==> r.value == orders[id] && r.value.id == id
    {
      r := if id in orders then Some(orders[id]) else None;
    }

    /** `select('*').eq('payment_reference', reference).single()`. */
    method FindOrderByReference(reference: string) returns (r: Option<Order>)
      requires Valid()
      ensures r == FindByReference(State(), reference)
    {
      var matches := set k | k in orders && orders[k].paymentReference == reference;
      if |matches| != 1 {
        r := None;
      } else {
        var k :| k in matches;
        ghost var expected := FindByReference(State(), reference);
        SingletonMember(matches, k, expected.value.id);
        r := Some(orders[k]);
      }
    }

    /** `validateTicket(qrCode)`: the check-then-set on the tickets table. */
    method ValidateTicket(qrCode: string, now: IsoTime) returns (r: Result<Validation, DbError>)
      requires Valid()
      modifies this
      ensures Valid() && (State(), r) == ValidateTicketSpec(old(State()), qrCode, now)
    {
      var matches := set k | k in tickets && tickets[k].qrCode == Some(qrCode);
      if |matches| != 1 {
        return Err(NotSingleRow);
      }
      var k :| k in matches;
      ghost var expected := ValidateTicketSpec(State(), qrCode, now);
      SingletonMember(matches, k, expected.1.value.ticket.id);
      var ticket := tickets[k];
      if ticket.isUsed {
        return Ok(Validation(false, "Ticket already used", ticket));
      }
      tickets := tickets[k := ticket.(isUsed := true, usedAt := Some(now))];
      r := Ok(Validation(true, "Ticket valid", ticket));
    }
  }
}
