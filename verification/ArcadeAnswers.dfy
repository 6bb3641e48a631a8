/**
 * What `buy`, `get` and the repair answer for any ticket, and what they leave on it, in the terms of the
 * tickets, the orders and the journal they find.
 */
module ArcadeAnswers {
  import opened Wrappers
  import opened Journal
  import opened Arcade
  import opened ArcadeRuns
  import opened ArcadeProperties
  import Receipts
  import R = Recovery

  // ---- recovery ----------------------------------------------------------------------------------------------

  /** The journal shows the payment settled: its row has ended, and with no error. */
  predicate SettledRow(rows: seq<Row>, i: Intent) {
    var row := Get(rows, i);
    row.Some? && row.value.terminal.Some? && row.value.terminal.value.ending.errorCode in {None, Some("")}
  }

  /** The ticket's payment has an order, or has settled to the arcade at its price and so can be given one. */
  predicate Due(c: Config, db: Db, t: Admission) {
    t.intent.Some? && (t.intent.value in db.orders
                       || (SettledRow(db.journal.rows, t.intent.value) && t.intent.value.payTo == c.payTo && t.intent.value.amount == c.price))
  }

  /** The one order the ticket's payment can have. */
  function OrderOf(c: Config, db: Db, t: Admission): Order
    requires t.intent.Some? && Get(db.journal.rows, t.intent.value).Some?
  {
    var i := t.intent.value;
    Order("mapae-arcade", t.game, i, i.payer, c.price, Some(Get(db.journal.rows, i).value.claim.hash))
  }

  function MadeReady(t: Admission): Admission { t.(status := Ready, error := None) }

  lemma SettledRowIs(rows: seq<Row>, i: Intent)
    ensures SettledRow(rows, i) <==> RowSettled(rows, i)
  {
    if Get(rows, i).Some? && Get(rows, i).value.terminal.Some? {
      var code := Get(rows, i).value.terminal.value.ending.errorCode;
      assert code.Some? ==> (code.value == "" <==> code == Some(""));
    }
  }

  lemma DueHasOrder(c: Config, db: Db, k: nat)
    requires DbOk(c, db) && k < |db.tickets|
    ensures OrderFor(c, db, db.tickets[k]).Some? <==> Due(c, db, db.tickets[k])
    ensures Due(c, db, db.tickets[k]) ==>
              Get(db.journal.rows, db.tickets[k].intent.value).Some?
              && OrderFor(c, db, db.tickets[k]) == Some(OrderOf(c, db, db.tickets[k]))
  {
    var t := db.tickets[k];
    if t.intent.Some? {
      SettledRowIs(db.journal.rows, t.intent.value);
      if t.intent.value in db.orders {
        assert OrderOk(c, db, t.intent.value);
      }
    }
  }

  /**
   * The recovery of a ticket: one that is due is answered with its order, and made ready if its payment was
   * unresolved; one that was refused stays so although its payment is there; one that is not due is missing.
   */
  lemma RecoveryIs(c: Config, db: Db, k: nat)
    requires DbOk(c, db) && k < |db.tickets|
    ensures var t, r := db.tickets[k], RecoverFrom(c, db, db.tickets[k]);
            if Due(c, db, t) then
              var order := OrderOf(c, db, t);
              && r.db.orders == db.orders[t.intent.value := order] && r.db.journal == db.journal
              && match t.status
                 case Rejected => r.db.tickets == db.tickets && r.found == Denied(TicketNotReady)
                 case Ready => r.db == db && r.found == Held(t, order)
                 case Consumed => r.db == db && r.found == Held(t, order)
                 case _ => r.db.tickets == db.tickets[k := MadeReady(t)] && r.found == Held(MadeReady(t), order)
            else r == Recovered(db, Missing)
  {
    var t := db.tickets[k];
    DueHasOrder(c, db, k);
    ByIdIs(db.tickets, k);
    if Due(c, db, t) {
      if t.Admitted() {
        assert OrderOk(c, db, t.intent.value);
        assert db.orders[t.intent.value := db.orders[t.intent.value]] == db.orders;
      }
    }
  }

  // ---- answers -----------------------------------------------------------------------------------------------

  /** The answer to whoever asks for a ticket: the ticket and its order, or why not. */
  function Shown(c: Config, db: Db, t: Admission): Answer {
    if !Due(c, db, t) || Get(db.journal.rows, t.intent.value).None? then Problem(PaymentUnresolved)
    else if t.status.Rejected? then Problem(TicketNotReady)
    else Ticket(if t.Unresolved() then MadeReady(t) else t, OrderOf(c, db, t))
  }

  /** `get`: a ticket is shown, with its order, if and only if its payment has settled and it was not refused. */
  lemma GetIsAnswered(c: Config, db: Db, k: nat)
    requires DbOk(c, db) && k < |db.tickets|
    ensures var m := Lookup(c, db, db.tickets[k].id);
            m.outcome == Told(Shown(c, db, db.tickets[k])) && m.db == RecoverFrom(c, db, db.tickets[k]).db
  {
    ByIdIs(db.tickets, k);
    RecoveryIs(c, db, k);
    DueHasOrder(c, db, k);
  }

  lemma NoTicketIsFound(c: Config, db: Db, id: Id, run: Id)
    requires forall k :: 0 <= k < |db.tickets| ==> db.tickets[k].id != id
    ensures Lookup(c, db, id) == Move(db, Told(Problem(TicketNotFound))) == Spend(c, db, id, run)
  {
  }

  /** The end of a request that was asked before, when there was nothing to repair or the repair is done. */
  function AskedAgain(c: Config, db: Db, t: Admission): Answer {
    if !Due(c, db, t) && t.status.Rejected? then Problem(PaymentRejected) else Shown(c, db, t)
  }

  lemma AskedAgainIs(c: Config, db: Db, k: nat)
    requires DbOk(c, db) && k < |db.tickets|
    ensures var m := AfterReserve(c, db, db.tickets[k], false);
            m.outcome == Told(AskedAgain(c, db, db.tickets[k])) && m.db == RecoverFrom(c, db, db.tickets[k]).db
  {
    RecoveryIs(c, db, k);
    DueHasOrder(c, db, k);
  }

  /**
   * `buy` of a request that has a ticket: for another game it is a conflict; a payment that is unresolved is
   * repaired first where repairs are configured, by going to the chain if its row is open; any other ticket is
   * answered from the tables, and never paid again.
   */
  lemma KnownRequestIsAnswered(c: Config, db: Db, k: nat, game: Game, minted: Id)
    requires DbOk(c, db) && k < |db.tickets|
    ensures var t := db.tickets[k];
            var m := Begin(c, db, t.requestId, game, minted);
            if game != t.game then m == Move(db, Told(Problem(RequestConflict)))
            else if t.intent.Some? && t.status in {Pending, Unknown} && c.repairs then
              var row := Get(db.journal.rows, t.intent.value);
              m == Move(db, Suspended(Repairing(t, row.Some? && row.value.terminal.None?)))
            else m.outcome == Told(AskedAgain(c, db, t)) && m.db == RecoverFrom(c, db, t).db
  {
    RequestIs(db.tickets, k);
    AskedAgainIs(c, db, k);
    assert db.(tickets := db.tickets) == db;
  }

  /** `buy` of a new request: it pays, on a ticket of its own, if and only if no payment is unresolved. */
  lemma NewRequestIsAnswered(c: Config, db: Db, request: Id, game: Game, minted: Id)
    requires forall k :: 0 <= k < |db.tickets| ==> db.tickets[k].requestId != request
    ensures var m := Begin(c, db, request, game, minted);
            if exists k :: 0 <= k < |db.tickets| && db.tickets[k].status in {Pending, Unknown}
            then m == Move(db, Told(Problem(UnresolvedPayment)))
            else m == Move(db.(tickets := db.tickets + [Admission(minted, request, game, Pending, None, None, None)]),
                           Suspended(Paying(minted, None)))
  {
    assert ByRequest(db.tickets, request) < 0;
    if k :| 0 <= k < |db.tickets| && db.tickets[k].status in {Pending, Unknown} {
      assert db.tickets[k].Unresolved();
    }
    assert db.(tickets := db.tickets) == db;
  }

  /** A repair that could not read the chain, or found a receipt that does not end the row, resolves nothing. */
  lemma FailedRepairIsAnswered(c: Config, db: Db, k: nat, lookup: R.Answer<R.Lookup>, now: nat)
    requires DbOk(c, db) && k < |db.tickets| && db.tickets[k].intent.Some? && RowOpen(db.journal.rows, db.tickets[k].intent.value)
    requires match lookup
             case Failed(_) => true
             case Got(Nothing) => false
             case Got(Found(r)) =>
               r.hash != Get(db.journal.rows, db.tickets[k].intent.value).value.claim.hash || r.gasUsed in {None, Some(0)}
               || r.price.None? || r.l1Fee.Unreadable? || now > MAX_SAFE
    ensures AfterRepair(c, db, db.tickets[k], true, lookup, now, Healthy) == Move(db, Told(Problem(PaymentUnresolved)))
  {
    assert db.(journal := db.journal) == db;
  }

  /** A repair with nothing to do, or of a transaction that has not mined, answers from the tables. */
  lemma IdleRepairIsAnswered(c: Config, db: Db, k: nat, open: bool, lookup: R.Answer<R.Lookup>, now: nat, disk: Disk)
    requires DbOk(c, db) && k < |db.tickets| && db.tickets[k].intent.Some? && (!open || lookup == R.Got(R.Nothing))
    ensures var m := AfterRepair(c, db, db.tickets[k], open, lookup, now, disk);
            m.outcome == Told(AskedAgain(c, db, db.tickets[k])) && m.db == RecoverFrom(c, db, db.tickets[k]).db
  {
    AskedAgainIs(c, db, k);
    assert db.(journal := db.journal) == db;
  }

  // ---- the end of a payment ----------------------------------------------------------------------------------

  function Failing(t: Admission, status: Status, code: string): Admission {
    t.(status := status, error := Some(code))
  }

  /**
   * The end of a paying `buy`, for each result of its payment. Something thrown leaves the ticket unknown, whatever
   * the tables hold. Else a payment that is due decides, whatever the client was told; and where none is, the ticket
   * is rejected on a refusal that is vouched for, and unknown on any other answer, with the code that says why.
   */
  lemma PaymentEnds(c: Config, db: Db, k: nat, result: Result)
    requires DbOk(c, db) && k < |db.tickets| && db.tickets[k].Unresolved()
    ensures var t := db.tickets[k];
            var m := AfterPayment(c, db, t.id, result);
            && m.db.journal == db.journal
            && if result.Interrupted? then
                 && m.db == db.(tickets := db.tickets[k := Failing(t, Unknown, "PAYMENT_INTERRUPTED")])
                 && m.outcome == Told(Problem(PaymentUnresolved))
               else if Due(c, db, t) then
                 && Get(db.journal.rows, t.intent.value).Some?
                 && m.db.tickets == db.tickets[k := MadeReady(t)]
                 && m.db.orders == db.orders[t.intent.value := OrderOf(c, db, t)]
                 && m.outcome == Told(Ticket(MadeReady(t), OrderOf(c, db, t)))
               else
                 match result
                 case Refused(unknown, code) =>
                   && m.db == db.(tickets := db.tickets[k := Failing(t, if unknown then Unknown else Rejected, code)])
                   && m.outcome == Told(Problem(if unknown then PaymentUnresolved else PaymentRejected))
                 case _ =>
                   && m.db == db.(tickets := db.tickets[k := Failing(t, Unknown, "ORDER_MISSING")])
                   && m.outcome == Told(Problem(PaymentUnresolved))
  {
    ByIdIs(db.tickets, k);
    RecoveryIs(c, db, k);
    DueHasOrder(c, db, k);
  }

  /**
   * The binding of a payment: taken if and only if the ticket is pending, has no other intent, and no other ticket has
   * this one; the ticket then carries it, and nothing else changes.
   */
  lemma IntentIsBoundIff(ts: seq<Admission>, k: nat, i: Intent)
    requires Unique(ts) && k < |ts|
    ensures var bound := BindIn(ts, ts[k].id, i);
            if ts[k].status.Pending? && ts[k].intent in {None, Some(i)} && forall j :: 0 <= j < |ts| && j != k ==> ts[j].intent != Some(i)
            then bound == Ticketing(ts[k := ts[k].(intent := Some(i))], Have(ts[k].(intent := Some(i))))
            else bound == Ticketing(ts, Refuse(IntentConflict))
  {
    ByIdIs(ts, k);
  }
}
