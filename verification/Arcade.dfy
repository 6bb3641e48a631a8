/**
 * Arcade admission: apps/arcade-service/payments.ts over the admissions table of
 * packages/store/src/arcade.ts, the settlement journal and the orders table, with the read-only
 * repair of apps/arcade-service/fork.ts. One function per stretch of `buy` between two awaits.
 */
module Arcade {
  import opened Wrappers
  import opened Journal
  import opened Receipts
  import R = Recovery

  type Id = nat

  const SLUG := "mapae-arcade"

  datatype Game = Stamp | Race | Shop
  datatype Status = Pending | Unknown | Rejected | Ready | Consumed
  datatype Admission = Admission(id: Id, requestId: Id, game: Game, status: Status, intent: Option<Intent>,
                                 runId: Option<Id>, error: Option<string>)
  {
    predicate Unresolved() { status.Pending? || status.Unknown? }
    predicate Admitted() { status.Ready? || status.Consumed? }
  }

  datatype Order = Order(seller: string, item: Game, intent: Intent, payer: Address, amount: nat, tx: Option<Hash>)

  /** The three durable tables a crash can separate. */
  datatype Db = Db(tickets: seq<Admission>, orders: map<Intent, Order>, journal: Tables)

  /** `limits` are those the settlement journal claims under. */
  datatype Config = Config(payTo: Address, price: nat, repairs: bool, limits: Limits)

  /** The refusals of the admissions table and of the payment service. */
  datatype Code =
    | RequestConflict | UnresolvedPayment | IntentConflict | TicketNotReady | TicketNotFound
    | TicketAlreadyConsumed | RunConflict | PaymentConflict | PaymentRejected | PaymentUnresolved

  datatype Reply = Have(ticket: Admission) | Refuse(code: Code)
  datatype Ticketing = Ticketing(tickets: seq<Admission>, reply: Reply)

  // ---- the admissions table ------------------------------------------------------------------

  function ById(ts: seq<Admission>, id: Id): (k: int)
    ensures -1 <= k < |ts| && (k >= 0 ==> ts[k].id == id)
    ensures k < 0 ==> forall j :: 0 <= j < |ts| ==> ts[j].id != id
  {
    if ts == [] then -1
    else if ts[|ts| - 1].id == id then |ts| - 1
    else ById(ts[..|ts| - 1], id)
  }

  function ByRequest(ts: seq<Admission>, request: Id): (k: int)
    ensures -1 <= k < |ts| && (k >= 0 ==> ts[k].requestId == request)
    ensures k < 0 ==> forall j :: 0 <= j < |ts| ==> ts[j].requestId != request
  {
    if ts == [] then -1
    else if ts[|ts| - 1].requestId == request then |ts| - 1
    else ByRequest(ts[..|ts| - 1], request)
  }

  predicate AnyUnresolved(ts: seq<Admission>) {
    exists k :: 0 <= k < |ts| && ts[k].Unresolved()
  }

  /** One ticket per request, and no new one while any payment is unresolved. */
  function ReserveIn(ts: seq<Admission>, request: Id, game: Game, minted: Id): Ticketing {
    var k := ByRequest(ts, request);
    if k >= 0 then Ticketing(ts, if ts[k].game != game then Refuse(RequestConflict) else Have(ts[k]))
    else if AnyUnresolved(ts) then Ticketing(ts, Refuse(UnresolvedPayment))
    else
      var ticket := Admission(minted, request, game, Pending, None, None, None);
      Ticketing(ts + [ticket], Have(ticket))
  }

  predicate IntentTaken(ts: seq<Admission>, i: Intent, but: int) {
    exists k :: 0 <= k < |ts| && k != but && ts[k].intent == Some(i)
  }

  function BindIn(ts: seq<Admission>, id: Id, i: Intent): Ticketing {
    var k := ById(ts, id);
    if k < 0 || !ts[k].status.Pending? || (ts[k].intent.Some? && ts[k].intent != Some(i)) || IntentTaken(ts, i, k)
    then Ticketing(ts, Refuse(IntentConflict))
    else Ticketing(ts[k := ts[k].(intent := Some(i))], Have(ts[k].(intent := Some(i))))
  }

  function ReadyIn(ts: seq<Admission>, id: Id, i: Intent): Ticketing {
    var k := ById(ts, id);
    if k < 0 || ts[k].intent != Some(i) then Ticketing(ts, Refuse(IntentConflict))
    else if ts[k].Admitted() then Ticketing(ts, Have(ts[k]))
    else if !ts[k].Unresolved() then Ticketing(ts, Refuse(TicketNotReady))
    else Ticketing(ts[k := ts[k].(status := Ready, error := None)], Have(ts[k].(status := Ready, error := None)))
  }

  function FailIn(ts: seq<Admission>, id: Id, status: Status, code: string): seq<Admission> {
    var k := ById(ts, id);
    if k < 0 || !ts[k].Unresolved() then ts else ts[k := ts[k].(status := status, error := Some(code))]
  }

  function ConsumeIn(ts: seq<Admission>, id: Id, run: Id): Ticketing {
    var k := ById(ts, id);
    if k < 0 then Ticketing(ts, Refuse(TicketNotFound))
    else if ts[k].status.Consumed? then
      Ticketing(ts, if ts[k].runId != Some(run) then Refuse(TicketAlreadyConsumed) else Have(ts[k]))
    else if !ts[k].status.Ready? then Ticketing(ts, Refuse(TicketNotReady))
    else if exists j :: 0 <= j < |ts| && ts[j].runId == Some(run) then Ticketing(ts, Refuse(RunConflict))
    else
      var used := ts[k].(status := Consumed, runId := Some(run));
      Ticketing(ts[k := used], Have(used))
  }

  // ---- recovery of a ticket ------------------------------------------------------------------

  datatype Found = Missing | Held(ticket: Admission, order: Order) | Conflict | Denied(code: Code)
  datatype Recovered = Recovered(db: Db, found: Found)

  predicate RowSettled(rows: seq<Row>, i: Intent) {
    var row := Get(rows, i);
    row.Some? && row.value.terminal.Some? && !row.value.terminal.value.ending.Failed()
  }

  predicate RowOpen(rows: seq<Row>, i: Intent) {
    Get(rows, i).Some? && Get(rows, i).value.terminal.None?
  }

  /** The order on file for the ticket, written from the journal if the seller never got to. */
  function OrderFor(c: Config, db: Db, ticket: Admission): Option<Order> {
    if ticket.intent.None? then None
    else
      var i := ticket.intent.value;
      if i in db.orders then Some(db.orders[i])
      else if RowSettled(db.journal.rows, i) && i.payTo == c.payTo && i.amount == c.price then
        Some(Order(SLUG, ticket.game, i, i.payer, i.amount, Some(Get(db.journal.rows, i).value.claim.hash)))
      else None
  }

  function RecoverFrom(c: Config, db: Db, ticket: Admission): Recovered {
    match OrderFor(c, db, ticket)
    case None => Recovered(db, Missing)
    case Some(order) =>
      var db' := db.(orders := db.orders[ticket.intent.value := order]);
      if order.seller != SLUG || order.item != ticket.game || order.amount != c.price then Recovered(db', Conflict)
      else
        var marked := ReadyIn(db.tickets, ticket.id, order.intent);
        Recovered(db'.(tickets := marked.tickets),
                  match marked.reply case Have(t) => Held(t, order) case Refuse(code) => Denied(code))
  }

  datatype Answer = Ticket(ticket: Admission, order: Order) | Problem(code: Code)

  function AnswerOf(f: Found): Answer {
    match f
    case Missing => Problem(PaymentUnresolved)
    case Held(ticket, order) => Ticket(ticket, order)
    case Conflict => Problem(PaymentConflict)
    case Denied(code) => Problem(code)
  }

  // ---- the stretches of `buy` ------------------------------------------------------------------

  /**
   * Where a live `buy` is suspended: on its repair, which went to the chain only if its row was
   * `open` then, or on its payment, where `sent` is the intent it bound before submitting its leaf.
   */
  datatype Run = Repairing(snapshot: Admission, open: bool) | Paying(id: Id, sent: Option<Intent>)
  datatype Outcome = Told(answer: Answer) | Suspended(run: Run)
  datatype Move = Move(db: Db, outcome: Outcome)

  /** After the reservation, and the repair if there was one: recover, refuse, or start paying. */
  function AfterReserve(c: Config, db: Db, ticket: Admission, created: bool): Move {
    var r := RecoverFrom(c, db, ticket);
    if !r.found.Missing? then Move(r.db, Told(AnswerOf(r.found)))
    else if ticket.status.Rejected? then Move(r.db, Told(Problem(PaymentRejected)))
    else if !created then Move(r.db, Told(Problem(PaymentUnresolved)))
    else Move(r.db, Suspended(Paying(ticket.id, None)))
  }

  function Begin(c: Config, db: Db, request: Id, game: Game, minted: Id): Move {
    var reserved := ReserveIn(db.tickets, request, game, minted);
    var db' := db.(tickets := reserved.tickets);
    match reserved.reply
    case Refuse(code) => Move(db', Told(Problem(code)))
    case Have(ticket) =>
      if ticket.intent.Some? && ticket.Unresolved() && c.repairs then Move(db', Suspended(Repairing(ticket, RowOpen(db.journal.rows, ticket.intent.value))))
      else AfterReserve(c, db', ticket, ByRequest(db.tickets, request) < 0)
  }

  datatype Fixed = Fixed(journal: Tables, ok: bool)

  /** The repair resumes: nothing to do unless its row was open, and a lookup that failed is an error. */
  function Repair(t: Tables, i: Intent, open: bool, lookup: R.Answer<R.Lookup>, now: nat, disk: Disk): Fixed {
    if !open then Fixed(t, true)
    else match lookup
      case Failed(_) => Fixed(t, false)
      case Got(Nothing) => Fixed(t, true)
      case Got(Found(r)) =>
        var txn := R.Reconcile(t, i, r, now, disk);
        Fixed(txn.tables, txn.reply.Kept?)
  }

  function AfterRepair(c: Config, db: Db, snapshot: Admission, open: bool, lookup: R.Answer<R.Lookup>, now: nat, disk: Disk): Move
    requires snapshot.intent.Some?
  {
    var fixed := Repair(db.journal, snapshot.intent.value, open, lookup, now, disk);
    var db' := db.(journal := fixed.journal);
    if !fixed.ok then Move(db', Told(Problem(PaymentUnresolved))) else AfterReserve(c, db', snapshot, false)
  }

  /** The payment client's result: `unknown` is a settlement it cannot vouch for either way. */
  datatype Result = Paid | Refused(unknown: bool, code: string) | Interrupted

  function AfterPayment(c: Config, db: Db, id: Id, result: Result): Move
    requires ById(db.tickets, id) >= 0
  {
    var r := RecoverFrom(c, db, db.tickets[ById(db.tickets, id)]);
    if result.Interrupted? then
      Move(db.(tickets := FailIn(db.tickets, id, Unknown, "PAYMENT_INTERRUPTED")), Told(Problem(PaymentUnresolved)))
    else match r.found
      case Held(_, _) => Move(r.db, Told(AnswerOf(r.found)))
      case Conflict => Move(r.db, Told(AnswerOf(r.found)))
      case Denied(_) =>
        Move(r.db.(tickets := FailIn(r.db.tickets, id, Unknown, "PAYMENT_INTERRUPTED")), Told(Problem(PaymentUnresolved)))
      case Missing =>
        match result
        case Refused(unknown, code) =>
          Move(r.db.(tickets := FailIn(r.db.tickets, id, if unknown then Unknown else Rejected, code)),
               Told(Problem(if unknown then PaymentUnresolved else PaymentRejected)))
        case _ =>
          Move(r.db.(tickets := FailIn(r.db.tickets, id, Unknown, "ORDER_MISSING")), Told(Problem(PaymentUnresolved)))
  }

  function Lookup(c: Config, db: Db, id: Id): (m: Move)
    ensures m.outcome.Told?
  {
    var k := ById(db.tickets, id);
    if k < 0 then Move(db, Told(Problem(TicketNotFound)))
    else
      var r := RecoverFrom(c, db, db.tickets[k]);
      Move(r.db, Told(AnswerOf(r.found)))
  }

  /** A ticket is spent only while it has its order, and shown again afterwards. */
  function Spend(c: Config, db: Db, id: Id, run: Id): Move {
    var shown := Lookup(c, db, id);
    if shown.outcome.answer.Problem? then shown
    else
      var spent := ConsumeIn(shown.db.tickets, id, run);
      match spent.reply
      case Refuse(code) => Move(shown.db, Told(Problem(code)))
      case Have(_) => Lookup(c, shown.db.(tickets := spent.tickets), id)
  }

  // ---- the admissions store as it runs -----------------------------------------------------------

  class ArcadeStore {
    var tickets: seq<Admission>

    constructor ()
      ensures tickets == []
    {
      tickets := [];
    }

    method Reserve(request: Id, game: Game, minted: Id) returns (reply: Reply, created: bool)
      modifies this
      ensures Ticketing(tickets, reply) == ReserveIn(old(tickets), request, game, minted)
      ensures created <==> reply.Have? && |tickets| > |old(tickets)|
    {
      var k := ByRequest(tickets, request);
      if k >= 0 {
        return if tickets[k].game != game then Refuse(RequestConflict) else Have(tickets[k]), false;
      }
      var blocked := false;
      for j := 0 to |tickets|
        invariant !blocked ==> forall x :: 0 <= x < j ==> !tickets[x].Unresolved()
        invariant blocked ==> AnyUnresolved(tickets)
      {
        if tickets[j].Unresolved() {
          blocked := true;
        }
      }
      if blocked {
        return Refuse(UnresolvedPayment), false;
      }
      var ticket := Admission(minted, request, game, Pending, None, None, None);
      tickets := tickets + [ticket];
      return Have(ticket), true;
    }

    method Bind(id: Id, i: Intent) returns (reply: Reply)
      modifies this
      ensures Ticketing(tickets, reply) == BindIn(old(tickets), id, i)
    {
      var k := ById(tickets, id);
      if k < 0 || !tickets[k].status.Pending? || (tickets[k].intent.Some? && tickets[k].intent != Some(i)) || IntentTaken(tickets, i, k) {
        return Refuse(IntentConflict);
      }
      tickets := tickets[k := tickets[k].(intent := Some(i))];
      return Have(tickets[k]);
    }

    method Ready(id: Id, i: Intent) returns (reply: Reply)
      modifies this
      ensures Ticketing(tickets, reply) == ReadyIn(old(tickets), id, i)
    {
      var k := ById(tickets, id);
      if k < 0 || tickets[k].intent != Some(i) {
        return Refuse(IntentConflict);
      }
      if tickets[k].Admitted() {
        return Have(tickets[k]);
      }
      if !tickets[k].Unresolved() {
        return Refuse(TicketNotReady);
      }
      tickets := tickets[k := tickets[k].(status := Status.Ready, error := None)];
      return Have(tickets[k]);
    }

    method Fail(id: Id, status: Status, code: string)
      modifies this
      ensures tickets == FailIn(old(tickets), id, status, code)
    {
      var k := ById(tickets, id);
      if k >= 0 && tickets[k].Unresolved() {
        tickets := tickets[k := tickets[k].(status := status, error := Some(code))];
      }
    }

    method Consume(id: Id, run: Id) returns (reply: Reply)
      modifies this
      ensures Ticketing(tickets, reply) == ConsumeIn(old(tickets), id, run)
    {
      var k := ById(tickets, id);
      if k < 0 {
        return Refuse(TicketNotFound);
      }
      if tickets[k].status.Consumed? {
        return if tickets[k].runId != Some(run) then Refuse(TicketAlreadyConsumed) else Have(tickets[k]);
      }
      if !tickets[k].status.Ready? {
        return Refuse(TicketNotReady);
      }
      var used := tickets[k].(status := Consumed, runId := Some(run));
      if exists j :: 0 <= j < |tickets| && tickets[j].runId == Some(run) {
        return Refuse(RunConflict);
      }
      tickets := tickets[k := used];
      return Have(used);
    }
  }

  /** The orders, the tickets and the journal as `recover` and the end of `buy` change them. */
  class Payments {
    const config: Config
    const store: ArcadeStore
    const settlements: SettlementJournal
    var orders: map<Intent, Order>

    constructor (config: Config, store: ArcadeStore, settlements: SettlementJournal)
      ensures this.config == config && this.store == store && this.settlements == settlements && orders == map[]
    {
      this.config, this.store, this.settlements, orders := config, store, settlements, map[];
    }

    function State(): Db
      reads this, store, settlements
    {
      Db(store.tickets, orders, settlements.State())
    }

    /** The first order for an intent stays; a later one is answered with it. */
    method CreateOnce(order: Order) returns (kept: Order)
      modifies this
      ensures kept == if order.intent in old(orders) then old(orders)[order.intent] else order
      ensures orders == old(orders)[order.intent := kept]
    {
      if order.intent !in orders {
        orders := orders[order.intent := order];
      }
      kept := orders[order.intent];
    }

    method Recover(ticket: Admission) returns (found: Found)
      modifies this, store
      ensures Recovered(State(), found) == RecoverFrom(config, old(State()), ticket)
    {
      if ticket.intent.None? {
        return Missing;
      }
      var i := ticket.intent.value;
      var order: Order;
      if i in orders {
        order := orders[i];
        assert orders == orders[i := order];
      } else if RowSettled(settlements.rows, i) && i.payTo == config.payTo && i.amount == config.price {
        var hash := Get(settlements.rows, i).value.claim.hash;
        order := CreateOnce(Order(SLUG, ticket.game, i, i.payer, i.amount, Some(hash)));
      } else {
        return Missing;
      }
      if order.seller != SLUG || order.item != ticket.game || order.amount != config.price {
        return Conflict;
      }
      var reply := store.Ready(ticket.id, order.intent);
      match reply {
        case Have(t) => found := Held(t, order);
        case Refuse(code) => found := Denied(code);
      }
    }

    /** The end of a paying `buy`: a durable order decides; without one the ticket says why not. */
    method Conclude(id: Id, result: Result) returns (answer: Answer)
      requires ById(store.tickets, id) >= 0
      modifies this, store
      ensures Move(State(), Told(answer)) == AfterPayment(config, old(State()), id, result)
    {
      if result.Interrupted? {
        store.Fail(id, Unknown, "PAYMENT_INTERRUPTED");
        return Problem(PaymentUnresolved);
      }
      var found := Recover(store.tickets[ById(store.tickets, id)]);
      match found {
        case Held(_, _) => answer := AnswerOf(found);
        case Conflict => answer := AnswerOf(found);
        case Denied(_) =>
          store.Fail(id, Unknown, "PAYMENT_INTERRUPTED");
          answer := Problem(PaymentUnresolved);
        case Missing =>
          if result.Refused? {
            store.Fail(id, if result.unknown then Unknown else Rejected, result.code);
            answer := Problem(if result.unknown then PaymentUnresolved else PaymentRejected);
          } else {
            store.Fail(id, Unknown, "ORDER_MISSING");
            answer := Problem(PaymentUnresolved);
          }
      }
    }
  }
}
