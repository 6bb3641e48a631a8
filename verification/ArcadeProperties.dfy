/** What holds of every run of arcade admission. */
module ArcadeProperties {
  import opened Wrappers
  import opened Journal
  import opened Arcade
  import opened ArcadeRuns
  import Receipts
  import R = Recovery
  import RR = RecoveryRuns

  // ---- one payment per request -----------------------------------------------------------------

  /** A request starts paying once at most: whoever entered first made the one ticket it can have. */
  lemma EachRequestPaysOnce(c: Config, es: seq<Occurrence>, j: nat, k: nat)
    requires Legal(c, Start(), es) && j < k < |Exec(c, Start(), es).entered|
    ensures Exec(c, Start(), es).entered[j] != Exec(c, Start(), es).entered[k]
  {
    Reached(c, es);
    var ts := Exec(c, Start(), es).db.tickets;
    assert ts[j].requestId != ts[k].requestId;
  }

  /** A request submits at most one intent, bound before it was sent, and no two submit the same one. */
  lemma OneIntentPerRequest(c: Config, es: seq<Occurrence>, p: (Id, Intent), q: (Id, Intent))
    requires Legal(c, Start(), es) && p in Exec(c, Start(), es).submitted && q in Exec(c, Start(), es).submitted
    ensures p.0 == q.0 <==> p.1 == q.1
  {
    Reached(c, es);
    var ts := Exec(c, Start(), es).db.tickets;
    assert Submitted(ts, p.0, p.1) && Submitted(ts, q.0, q.1);
    var j :| 0 <= j < |ts| && ts[j].requestId == p.0 && ts[j].intent == Some(p.1);
    var k :| 0 <= k < |ts| && ts[k].requestId == q.0 && ts[k].intent == Some(q.1);
    if j < k {
      assert ts[j].requestId != ts[k].requestId && ts[j].intent != ts[k].intent;
    } else if k < j {
      assert ts[k].requestId != ts[j].requestId && ts[k].intent != ts[j].intent;
    }
  }

  /** The stretches that end in an answer. */
  predicate Answers(e: Occurrence) { e.Buy? || e.Repaired? || e.Done? || e.Show? || e.Consume? }

  ghost function MoveOf(c: Config, w: World, e: Occurrence): Move
    requires Can(c, w, e) && Answers(e)
  {
    match e
    case Buy(_, request, game, minted) => Begin(c, w.db, request, game, minted)
    case Repaired(run, lookup, now, disk) => AfterRepair(c, w.db, w.runs[run].snapshot, w.runs[run].open, lookup, now, disk)
    case Done(run, result) => AfterPayment(c, w.db, w.runs[run].id, result)
    case Show(id) => Lookup(c, w.db, id)
    case Consume(id, play) => Spend(c, w.db, id, play)
  }

  /** A recorded payment never turns out to belong to another ticket. */
  lemma NoPaymentConflict(c: Config, es: seq<Occurrence>, e: Occurrence)
    requires Legal(c, Start(), es) && Can(c, Exec(c, Start(), es), e) && Answers(e)
    ensures MoveOf(c, Exec(c, Start(), es), e).outcome != Told(Problem(PaymentConflict))
  {
    Reached(c, es);
    var w := Exec(c, Start(), es);
    match e {
      case Buy(_, request, game, minted) => BeginOk(c, w.db, request, game, minted);
      case Repaired(run, lookup, now, disk) =>
        assert RunOk(w.db.tickets, w.runs[run]);
        AfterRepairOk(c, w.db, w.runs[run].snapshot, w.runs[run].open, lookup, now, disk);
      case Done(run, result) => AfterPaymentOk(c, w.db, w.runs[run].id, result);
      case Show(id) => LookupOk(c, w.db, id);
      case Consume(id, play) => SpendOk(c, w.db, id, play);
    }
  }

  // ---- an admitted ticket is a paid one ------------------------------------------------------------

  /** A ready or consumed ticket has the order of its own intent, game and price, and its payment settled. */
  lemma AdmittedIsPaid(c: Config, es: seq<Occurrence>, k: nat)
    requires Legal(c, Start(), es)
    requires k < |Exec(c, Start(), es).db.tickets| && Exec(c, Start(), es).db.tickets[k].Admitted()
    ensures var db := Exec(c, Start(), es).db;
            var t := db.tickets[k];
            && t.intent.Some? && t.intent.value in db.orders
            && RowSettled(db.journal.rows, t.intent.value) && t.intent.value.payTo == c.payTo
            && db.orders[t.intent.value] == Order(SLUG, t.game, t.intent.value, t.intent.value.payer, c.price,
                                                  Some(Get(db.journal.rows, t.intent.value).value.claim.hash))
  {
    Reached(c, es);
    var db := Exec(c, Start(), es).db;
    assert OrderOk(c, db, db.tickets[k].intent.value);
  }

  /** An order exists only for a settled payment to the arcade, at its price. */
  lemma OrdersArePaid(c: Config, es: seq<Occurrence>, i: Intent)
    requires Legal(c, Start(), es) && i in Exec(c, Start(), es).db.orders
    ensures var db := Exec(c, Start(), es).db;
            RowSettled(db.journal.rows, i) && Derived(c, i) && db.orders[i].intent == i && db.orders[i].amount == c.price
  {
    Reached(c, es);
    var db := Exec(c, Start(), es).db;
    assert OrderOk(c, db, i);
    var k :| 0 <= k < |db.tickets| && k != -1 && db.tickets[k].intent == Some(i);
  }

  function AdmittedCount(ts: seq<Admission>): nat {
    if ts == [] then 0 else AdmittedCount(ts[..|ts| - 1]) + if ts[|ts| - 1].Admitted() then 1 else 0
  }

  predicate Paid(r: Row) { r.terminal.Some? && !r.terminal.value.ending.Failed() }

  function SettledCount(rows: seq<Row>): nat {
    if rows == [] then 0 else SettledCount(rows[..|rows| - 1]) + if Paid(rows[|rows| - 1]) then 1 else 0
  }

  ghost function AdmittedIntents(ts: seq<Admission>): set<Intent> {
    set t | t in ts && t.Admitted() && t.intent.Some? :: t.intent.value
  }

  ghost function SettledIntents(rows: seq<Row>): set<Intent> {
    set r | r in rows && Paid(r) :: r.claim.intent
  }

  ghost predicate OwnIntents(ts: seq<Admission>) {
    && (forall t :: t in ts && t.Admitted() ==> t.intent.Some?)
    && forall j, k :: 0 <= j < k < |ts| && ts[j].intent.Some? ==> ts[j].intent != ts[k].intent
  }

  lemma OneMoreAdmitted(rest: seq<Admission>, last: Admission)
    requires OwnIntents(rest + [last])
    ensures AdmittedIntents(rest + [last]) == AdmittedIntents(rest) + if last.Admitted() then {last.intent.value} else {}
    ensures last.Admitted() ==> last.intent.value !in AdmittedIntents(rest)
  {
    var ts := rest + [last];
    assert ts[|rest|] == last;
    forall t | t in rest
      ensures t in ts && (t.intent.Some? ==> t.intent != last.intent)
    {
      var k :| 0 <= k < |rest| && rest[k] == t;
      assert ts[k] == t;
    }
  }

  lemma OwnRest(ts: seq<Admission>)
    requires ts != [] && OwnIntents(ts)
    ensures OwnIntents(ts[..|ts| - 1])
  {
    assert forall t :: t in ts[..|ts| - 1] ==> t in ts;
  }

  lemma {:induction false} AdmittedByIntent(ts: seq<Admission>)
    requires OwnIntents(ts)
    ensures |AdmittedIntents(ts)| == AdmittedCount(ts)
  {
    if ts != [] {
      var rest, last := ts[..|ts| - 1], ts[|ts| - 1];
      OwnRest(ts);
      AdmittedByIntent(rest);
      assert ts == rest + [last];
      OneMoreAdmitted(rest, last);
    }
  }

  lemma {:induction false} SettledByIntent(rows: seq<Row>)
    requires Distinct(rows)
    ensures |SettledIntents(rows)| == SettledCount(rows)
  {
    if rows != [] {
      var rest, last := rows[..|rows| - 1], rows[|rows| - 1];
      SettledByIntent(rest);
      assert rows == rest + [last];
      if Paid(last) {
        assert last.claim.intent !in SettledIntents(rest);
        assert SettledIntents(rows) == SettledIntents(rest) + {last.claim.intent};
      } else {
        assert SettledIntents(rows) == SettledIntents(rest);
      }
    }
  }

  lemma SubsetIsSmaller<T>(a: set<T>, b: set<T>)
    requires a <= b
    ensures |a| <= |b|
  {
    assert b == a + (b - a);
  }

  /** There are never more admitted tickets than payments that settled. */
  lemma AdmittedAtMostSettled(c: Config, es: seq<Occurrence>)
    requires Legal(c, Start(), es)
    ensures AdmittedCount(Exec(c, Start(), es).db.tickets) <= SettledCount(Exec(c, Start(), es).db.journal.rows)
  {
    Reached(c, es);
    var db := Exec(c, Start(), es).db;
    AdmittedByIntent(db.tickets);
    SettledByIntent(db.journal.rows);
    forall i | i in AdmittedIntents(db.tickets)
      ensures i in SettledIntents(db.journal.rows)
    {
      assert OrderOk(c, db, i);
      assert Get(db.journal.rows, i).value in db.journal.rows;
    }
    SubsetIsSmaller(AdmittedIntents(db.tickets), SettledIntents(db.journal.rows));
  }

  /** One payment at most is unresolved at any time: the next request waits for it. */
  lemma OneUnresolvedPayment(c: Config, es: seq<Occurrence>, j: nat, k: nat)
    requires Legal(c, Start(), es)
    requires j < k < |Exec(c, Start(), es).db.tickets| && Exec(c, Start(), es).db.tickets[j].Unresolved()
    ensures !Exec(c, Start(), es).db.tickets[k].Unresolved()
  {
    Reached(c, es);
  }

  // ---- the journal underneath ------------------------------------------------------------------------

  lemma DeliveryMovesJournal(u: RR.Setup, s: RR.State, e: R.Input)
    requires RR.Inv(u, s) && RR.Enabled(u, s, RR.Deliver(e)) && !e.Call?
    ensures var t, t' := s.proc.tables, RR.Apply(u, s, RR.Deliver(e)).proc.tables;
            JournalMoves(t, t', s.proc.inflight.Keys) && Sound(t', u.config.limits)
  {
    RR.DecideFits(u, s, e);
  }

  lemma RepairMovesJournal(u: RR.Setup, s: RR.State, e: RR.Occurrence)
    requires RR.Inv(u, s) && RR.Enabled(u, s, e) && e.Repair?
    ensures var t, t' := s.proc.tables, RR.Apply(u, s, e).proc.tables;
            JournalMoves(t, t', s.proc.inflight.Keys) && Sound(t', u.config.limits)
  {
    RR.RepairTablesKept(u, s.proc.tables, s.world, e.intent, e.receipt, e.now, e.disk);
  }

  /** Every step of the settlement protocol moves the journal as these runs allow it to move. */
  lemma ProtocolMovesJournal(u: RR.Setup, s: RR.State, e: RR.Occurrence)
    requires RR.Inv(u, s) && RR.Enabled(u, s, e)
    ensures var t, t' := s.proc.tables, RR.Apply(u, s, e).proc.tables;
            JournalMoves(t, t', s.proc.inflight.Keys) && Sound(t', u.config.limits)
  {
    if e.Deliver? && !e.input.Call? {
      DeliveryMovesJournal(u, s, e.input);
    } else if e.Repair? {
      RepairMovesJournal(u, s, e);
    }
  }

  // ---- repair without payment -------------------------------------------------------------------------

  lemma RequestIs(ts: seq<Admission>, k: nat)
    requires Unique(ts) && k < |ts|
    ensures ByRequest(ts, ts[k].requestId) == k
  {
    var j := ByRequest(ts, ts[k].requestId);
    assert j >= 0;
  }

  /** A ticket whose payment settled is made ready from the journal alone. */
  lemma SettledRecovers(c: Config, db: Db, k: nat)
    requires DbOk(c, db) && k < |db.tickets| && db.tickets[k].intent.Some? && db.tickets[k].Unresolved()
    requires RowSettled(db.journal.rows, db.tickets[k].intent.value)
    ensures var r := RecoverFrom(c, db, db.tickets[k]);
            var i, ready := db.tickets[k].intent.value, db.tickets[k].(status := Ready, error := None);
            && r.found.Held? && r.found.ticket == ready && r.db.tickets == db.tickets[k := ready]
            && r.db.journal == db.journal && i in r.db.orders && r.found.order == r.db.orders[i]
            && r.found.order == Order(SLUG, ready.game, i, i.payer, c.price, Some(Get(db.journal.rows, i).value.claim.hash))
  {
    ByIdIs(db.tickets, k);
    OrderForIsOwn(c, db, db.tickets[k], k);
    if db.tickets[k].intent.value in db.orders {
      assert OrderOk(c, db, db.tickets[k].intent.value);
    }
  }

  /** The receipt of the original transaction, with the vendor credited, settles its open row. */
  ghost predicate Settling(t: Tables, i: Intent, r: Receipts.Receipt, now: nat) {
    && Get(t.rows, i).Some? && Get(t.rows, i).value.terminal.None? && now <= MAX_SAFE
    && r.hash == Get(t.rows, i).value.claim.hash && Receipts.ActualCost(r).Some?
    && Receipts.Credited(r.success, r.logs, i)
  }

  lemma RepairSettles(t: Tables, i: Intent, r: Receipts.Receipt, now: nat, limits: Limits)
    requires Sound(t, limits) && Settling(t, i, r, now)
    ensures var fixed := Repair(t, i, true, R.Got(R.Found(r)), now, Healthy);
            fixed.ok && RowSettled(fixed.journal.rows, i) && |fixed.journal.rows| == |t.rows|
  {
    Receipts.NoFailureIffCredited(r.success, r.logs, i);
    var ending := Receipts.EndingOf(r, Get(t.rows, i).value.claim.hash, i, now).value;
    FinishLands(t, i, ending, limits);
    RR.FinishTouches(t, i, ending, Healthy);
  }

  /** The stretch after the repair hands out the ticket of a payment that has settled by then. */
  lemma AfterRepairAdmits(c: Config, db: Db, k: nat, open: bool, lookup: R.Answer<R.Lookup>, now: nat, disk: Disk)
    requires DbOk(c, db) && k < |db.tickets| && db.tickets[k].intent.Some? && db.tickets[k].Unresolved()
    requires var fixed := Repair(db.journal, db.tickets[k].intent.value, open, lookup, now, disk);
             fixed.ok && RowSettled(fixed.journal.rows, db.tickets[k].intent.value)
    ensures var m := AfterRepair(c, db, db.tickets[k], open, lookup, now, disk);
            var i, ready := db.tickets[k].intent.value, db.tickets[k].(status := Ready, error := None);
            && m.db.tickets == db.tickets[k := ready] && i in m.db.orders && m.db.orders[i].payer == i.payer
            && m.db.journal == Repair(db.journal, i, open, lookup, now, disk).journal
            && m.outcome == Told(Ticket(ready, m.db.orders[i]))
  {
    var i := db.tickets[k].intent.value;
    var fixed := Repair(db.journal, i, open, lookup, now, disk);
    RepairKeeps(db.journal, i, open, lookup, now, disk, c.limits);
    JournalKeeps(c, db, fixed.journal, {});
    SettledRecovers(c, db.(journal := fixed.journal), k);
  }

  /** A recovery killed between its two writes is completed by the next one, exactly as if nothing had happened. */
  lemma KilledRecoveryResumes(c: Config, db: Db, t: Admission)
    requires DbOk(c, db) && Known(db.tickets, t)
    ensures RecoverFrom(c, OrderFirst(c, db, t), t) == RecoverFrom(c, db, t)
  {
    var order := OrderFor(c, db, t);
    if order.Some? {
      var k :| 0 <= k < |db.tickets| && SameTicket(t, db.tickets[k]);
      OrderForIsOwn(c, db, t, k);
      var i := t.intent.value;
      assert db.orders[i := order.value][i := order.value] == db.orders[i := order.value];
      assert OrderFor(c, OrderFirst(c, db, t), t) == order;
    }
  }

  lemma RetrySuspends(c: Config, w: World, k: nat, run: nat, minted: Id)
    requires Unique(w.db.tickets) && c.repairs && run !in w.runs && ById(w.db.tickets, minted) < 0
    requires k < |w.db.tickets| && w.db.tickets[k].Unresolved() && w.db.tickets[k].intent.Some?
    ensures var t := w.db.tickets[k];
            Do(c, w, Buy(run, t.requestId, t.game, minted)) == w.(runs := w.runs[run := Repairing(t, RowOpen(w.db.journal.rows, t.intent.value))])
  {
    RequestIs(w.db.tickets, k);
  }

  lemma RepairedAdmits(c: Config, w: World, k: nat, r: Receipts.Receipt, now: nat)
    requires DbOk(c, w.db) && k < |w.db.tickets| && w.db.tickets[k].Unresolved() && w.db.tickets[k].intent.Some?
    requires Settling(w.db.journal, w.db.tickets[k].intent.value, r, now)
    ensures var t := w.db.tickets[k];
            var m := AfterRepair(c, w.db, t, true, R.Got(R.Found(r)), now, Healthy);
            && m.db.tickets == w.db.tickets[k := t.(status := Ready, error := None)]
            && t.intent.value in m.db.orders && m.db.orders[t.intent.value].payer == t.intent.value.payer
            && |m.db.journal.rows| == |w.db.journal.rows| && RowSettled(m.db.journal.rows, t.intent.value)
            && m.outcome == Told(Ticket(m.db.tickets[k], m.db.orders[t.intent.value]))
  {
    RepairSettles(w.db.journal, w.db.tickets[k].intent.value, r, now, c.limits);
    AfterRepairAdmits(c, w.db, k, true, R.Got(R.Found(r)), now, Healthy);
  }

  lemma RetryRepairs(c: Config, w: World, k: nat, run: nat, minted: Id, lookup: R.Answer<R.Lookup>, now: nat)
    requires Unique(w.db.tickets) && c.repairs && run !in w.runs && ById(w.db.tickets, minted) < 0
    requires k < |w.db.tickets| && w.db.tickets[k].Unresolved() && w.db.tickets[k].intent.Some?
    requires RowOpen(w.db.journal.rows, w.db.tickets[k].intent.value)
    ensures var t := w.db.tickets[k];
            var e1, e2 := Buy(run, t.requestId, t.game, minted), Repaired(run, lookup, now, Healthy);
            var m := AfterRepair(c, w.db, t, true, lookup, now, Healthy);
            && Can(c, w, e1) && Can(c, Do(c, w, e1), e2) && MoveOf(c, Do(c, w, e1), e2) == m
            && (m.outcome.Told? ==> Do(c, Do(c, w, e1), e2) == w.(db := m.db))
  {
    RetrySuspends(c, w, k, run, minted);
    assert w.runs[run := Repairing(w.db.tickets[k], true)] - {run} == w.runs;
  }

  /**
   * The same request, retried when its original transaction has mined with the vendor credited,
   * reaches its ticket: no new request paying, no intent submitted, no journal row added.
   */
  lemma RepairAdmits(c: Config, w: World, k: nat, run: nat, minted: Id, r: Receipts.Receipt, now: nat)
    requires Inv(c, w) && c.repairs && run !in w.runs && ById(w.db.tickets, minted) < 0
    requires k < |w.db.tickets| && w.db.tickets[k].Unresolved() && w.db.tickets[k].intent.Some?
    requires Settling(w.db.journal, w.db.tickets[k].intent.value, r, now)
    ensures var t := w.db.tickets[k];
            var e1, e2 := Buy(run, t.requestId, t.game, minted), Repaired(run, R.Got(R.Found(r)), now, Healthy);
            && Can(c, w, e1) && Can(c, Do(c, w, e1), e2)
            && var w' := Do(c, Do(c, w, e1), e2);
            && w'.db.tickets == w.db.tickets[k := t.(status := Ready, error := None)]
            && t.intent.value in w'.db.orders && w'.db.orders[t.intent.value].payer == t.intent.value.payer
            && |w'.db.journal.rows| == |w.db.journal.rows| && RowSettled(w'.db.journal.rows, t.intent.value)
            && w'.entered == w.entered && w'.submitted == w.submitted && w'.live == w.live && w'.runs == w.runs
            && MoveOf(c, Do(c, w, e1), e2).outcome == Told(Ticket(w'.db.tickets[k], w'.db.orders[t.intent.value]))
  {
    RetryRepairs(c, w, k, run, minted, R.Got(R.Found(r)), now);
    RepairedAdmits(c, w, k, r, now);
  }

  /** Asking again for an admitted ticket gives the same answer and changes nothing. */
  lemma RetryIsTheSame(c: Config, w: World, k: nat, run: nat, minted: Id)
    requires Inv(c, w) && k < |w.db.tickets| && w.db.tickets[k].Admitted() && run !in w.runs && ById(w.db.tickets, minted) < 0
    ensures var t := w.db.tickets[k];
            && t.intent.Some? && t.intent.value in w.db.orders
            && Begin(c, w.db, t.requestId, t.game, minted) == Move(w.db, Told(Ticket(t, w.db.orders[t.intent.value])))
            && Do(c, w, Buy(run, t.requestId, t.game, minted)) == w
  {
    var t := w.db.tickets[k];
    RequestIs(w.db.tickets, k);
    ByIdIs(w.db.tickets, k);
    assert OrderOk(c, w.db, t.intent.value);
    assert w.db.orders[t.intent.value := w.db.orders[t.intent.value]] == w.db.orders;
    assert w.runs - {run} == w.runs;
  }

  predicate Retry(t: Admission, e: Occurrence) { e.Buy? && e.request == t.requestId && e.game == t.game }

  lemma {:induction false} RetriesChangeNothing(c: Config, w: World, k: nat, es: seq<Occurrence>)
    requires Inv(c, w) && k < |w.db.tickets| && w.db.tickets[k].Admitted()
    requires Legal(c, w, es) && forall e :: e in es ==> Retry(w.db.tickets[k], e)
    ensures Exec(c, w, es) == w
    decreases |es|
  {
    if es != [] {
      assert es[0] in es && forall e :: e in es[1..] ==> e in es;
      RetryIsTheSame(c, w, k, es[0].run, es[0].minted);
      RetriesChangeNothing(c, w, k, es[1..]);
    }
  }

  // ---- one ticket, one run ----------------------------------------------------------------------------------

  /** Of all the answers to `consume`, any two that hand out one ticket are for one run, and the other way round. */
  lemma OneRunPerTicket(c: Config, es: seq<Occurrence>, p: Play, q: Play)
    requires Legal(c, Start(), es) && p in Exec(c, Start(), es).plays && q in Exec(c, Start(), es).plays
    requires p.answer.Ticket? && q.answer.Ticket?
    ensures p.ticket == q.ticket <==> p.run == q.run
  {
    Reached(c, es);
    var ts := Exec(c, Start(), es).db.tickets;
    assert SpentBy(ts, p.ticket, p.run) && SpentBy(ts, q.ticket, q.run);
    var j :| 0 <= j < |ts| && ts[j].id == p.ticket && ts[j].status.Consumed? && ts[j].runId == Some(p.run);
    var k :| 0 <= k < |ts| && ts[k].id == q.ticket && ts[k].status.Consumed? && ts[k].runId == Some(q.run);
    if j < k {
      assert ts[j].id != ts[k].id && ts[j].runId != ts[k].runId;
    } else if k < j {
      assert ts[k].id != ts[j].id && ts[k].runId != ts[j].runId;
    }
  }

  /** An admitted ticket is recovered as it is. */
  lemma AdmittedStays(c: Config, db: Db, k: nat)
    requires DbOk(c, db) && k < |db.tickets| && db.tickets[k].Admitted()
    ensures var t := db.tickets[k];
            && t.intent.Some? && t.intent.value in db.orders && ById(db.tickets, t.id) == k
            && Lookup(c, db, t.id) == Move(db, Told(Ticket(t, db.orders[t.intent.value])))
  {
    ByIdIs(db.tickets, k);
    assert OrderOk(c, db, db.tickets[k].intent.value);
    assert db.orders[db.tickets[k].intent.value := db.orders[db.tickets[k].intent.value]] == db.orders;
  }

  lemma Consuming(c: Config, w: World, id: Id, run: Id, db: Db, answer: Answer)
    requires Spend(c, w.db, id, run) == Move(db, Told(answer))
    ensures Do(c, w, Consume(id, run)) == w.(db := db, plays := w.plays + [Play(id, run, answer)])
  {
  }

  lemma ReadyConsumes(ts: seq<Admission>, k: nat, run: Id)
    requires k < |ts| && ts[k].status.Ready? && ById(ts, ts[k].id) == k
    ensures ConsumeIn(ts, ts[k].id, run) ==
              if exists j :: 0 <= j < |ts| && ts[j].runId == Some(run) then Ticketing(ts, Refuse(RunConflict))
              else
                var used := ts[k].(status := Consumed, runId := Some(run));
                Ticketing(ts[k := used], Have(used))
  {
  }

  lemma ReadySpends(c: Config, db: Db, k: nat, run: Id)
    requires DbOk(c, db) && k < |db.tickets| && db.tickets[k].status.Ready?
    requires forall j :: 0 <= j < |db.tickets| ==> db.tickets[j].runId != Some(run)
    ensures var t := db.tickets[k];
            var used := t.(status := Consumed, runId := Some(run));
            && t.intent.Some? && t.intent.value in db.orders
            && Spend(c, db, t.id, run) == Move(db.(tickets := db.tickets[k := used]), Told(Ticket(used, db.orders[t.intent.value])))
  {
    var t := db.tickets[k];
    var used := t.(status := Consumed, runId := Some(run));
    AdmittedStays(c, db, k);
    ReadyConsumes(db.tickets, k, run);
    ConsumeKeeps(c, db, t.id, run);
    AdmittedStays(c, db.(tickets := db.tickets[k := used]), k);
    SpendShape(c, db, t.id, run);
  }

  /** A ready ticket goes to the first run that asks, if that run has spent no other. */
  lemma ReadyIsSpent(c: Config, w: World, k: nat, run: Id)
    requires Inv(c, w) && k < |w.db.tickets| && w.db.tickets[k].status.Ready?
    requires forall j :: 0 <= j < |w.db.tickets| ==> w.db.tickets[j].runId != Some(run)
    ensures var t := w.db.tickets[k];
            var used := t.(status := Consumed, runId := Some(run));
            && t.intent.Some? && t.intent.value in w.db.orders
            && Do(c, w, Consume(t.id, run))
               == w.(db := w.db.(tickets := w.db.tickets[k := used]), plays := w.plays + [Play(t.id, run, Ticket(used, w.db.orders[t.intent.value]))])
  {
    var t := w.db.tickets[k];
    var used := t.(status := Consumed, runId := Some(run));
    ReadySpends(c, w.db, k, run);
    Consuming(c, w, t.id, run, w.db.(tickets := w.db.tickets[k := used]), Ticket(used, w.db.orders[t.intent.value]));
  }

  lemma ConsumedSpends(c: Config, db: Db, k: nat, run: Id)
    requires DbOk(c, db) && k < |db.tickets| && db.tickets[k].status.Consumed?
    ensures var t := db.tickets[k];
            && t.intent.Some? && t.intent.value in db.orders
            && Spend(c, db, t.id, run) ==
                 Move(db, Told(if t.runId == Some(run) then Ticket(t, db.orders[t.intent.value]) else Problem(TicketAlreadyConsumed)))
  {
    AdmittedStays(c, db, k);
    SpendShape(c, db, db.tickets[k].id, run);
  }

  /** A consumed ticket is answered again to its own run, and refused to any other; either way nothing changes. */
  lemma ConsumedIsKept(c: Config, w: World, k: nat, run: Id)
    requires Inv(c, w) && k < |w.db.tickets| && w.db.tickets[k].status.Consumed?
    ensures var t := w.db.tickets[k];
            && t.intent.Some? && t.intent.value in w.db.orders
            && Do(c, w, Consume(t.id, run)) == w.(plays := w.plays
                 + [Play(t.id, run, if t.runId == Some(run) then Ticket(t, w.db.orders[t.intent.value]) else Problem(TicketAlreadyConsumed))])
  {
    var t := w.db.tickets[k];
    ConsumedSpends(c, w.db, k, run);
    Consuming(c, w, t.id, run, w.db, if t.runId == Some(run) then Ticket(t, w.db.orders[t.intent.value]) else Problem(TicketAlreadyConsumed));
  }

  lemma ConflictSpends(c: Config, db: Db, j: nat, k: nat, run: Id)
    requires DbOk(c, db) && j < |db.tickets| && k < |db.tickets| && db.tickets[j].runId == Some(run) && db.tickets[k].status.Ready?
    ensures Spend(c, db, db.tickets[k].id, run) == Move(db, Told(Problem(RunConflict)))
  {
    AdmittedStays(c, db, k);
    ReadyConsumes(db.tickets, k, run);
    SpendShape(c, db, db.tickets[k].id, run);
  }

  /** A run that has spent one ticket is refused every other, ready as it may be. */
  lemma SecondTicketIsRefused(c: Config, w: World, j: nat, k: nat, run: Id)
    requires Inv(c, w) && j < |w.db.tickets| && k < |w.db.tickets| && w.db.tickets[j].runId == Some(run)
    requires w.db.tickets[k].status.Ready?
    ensures var t := w.db.tickets[k];
            Do(c, w, Consume(t.id, run)) == w.(plays := w.plays + [Play(t.id, run, Problem(RunConflict))])
  {
    ConflictSpends(c, w.db, j, k, run);
    Consuming(c, w, w.db.tickets[k].id, run, w.db, Problem(RunConflict));
  }

  // ---- the gate ------------------------------------------------------------------------------------------

  /**
   * Nothing is left that could settle the ticket's payment: no `buy` of it is alive, and its intent is
   * not bound, or has no row and is not being submitted, or has a row that ended without settling.
   */
  ghost predicate Hopeless(w: World, k: nat)
    requires k < |w.db.tickets|
  {
    var t := w.db.tickets[k];
    && t.Unresolved()
    && (forall run :: run in w.runs && w.runs[run].Paying? ==> w.runs[run].id != t.id)
    && (t.intent.Some? ==> t.intent.value !in w.db.orders && DeadEnd(w.db.journal.rows, w.live, t.intent.value))
  }

  predicate DeadEnd(rows: seq<Row>, live: set<Intent>, i: Intent) {
    match Get(rows, i)
    case None => i !in live
    case Some(row) => row.terminal.Some? && row.terminal.value.ending.Failed()
  }

  /** While it stands, every new request is refused. */
  lemma HopelessClosesTheGate(c: Config, w: World, k: nat, request: Id, game: Game, minted: Id)
    requires k < |w.db.tickets| && Hopeless(w, k) && ByRequest(w.db.tickets, request) < 0
    ensures Begin(c, w.db, request, game, minted) == Move(w.db, Told(Problem(UnresolvedPayment)))
  {
    assert AnyUnresolved(w.db.tickets);
  }

  /** A write about another ticket leaves this one, and the order of its intent, as they were. */
  ghost predicate Apart(db: Db, db': Db, k: nat)
    requires k < |db.tickets|
  {
    && k < |db'.tickets| && db'.tickets[k] == db.tickets[k]
    && (db.tickets[k].intent.Some? ==>
          (db.tickets[k].intent.value in db'.orders ==> db.tickets[k].intent.value in db.orders))
  }

  lemma RecoverApart(c: Config, db: Db, t: Admission, j: nat, k: nat)
    requires DbOk(c, db) && j < |db.tickets| && k < |db.tickets| && SameTicket(t, db.tickets[j]) && j != k
    ensures Apart(db, RecoverFrom(c, db, t).db, k)
  {
    ByIdIs(db.tickets, j);
    if OrderFor(c, db, t).Some? {
      OrderForIsOwn(c, db, t, j);
      assert t.intent != db.tickets[k].intent by {
        if j < k {
          assert db.tickets[j].intent != db.tickets[k].intent;
        } else {
          assert db.tickets[k].intent.Some? ==> db.tickets[k].intent != db.tickets[j].intent;
        }
      }
    }
  }

  lemma RecoverHopeless(c: Config, w: World, k: nat, t: Admission)
    requires k < |w.db.tickets| && Hopeless(w, k) && SameTicket(t, w.db.tickets[k])
    ensures RecoverFrom(c, w.db, t) == Recovered(w.db, Missing)
  {
  }

  /** Whichever ticket a recovery is about, the hopeless one stays. */
  lemma RecoverLeaves(c: Config, w: World, k: nat, t: Admission)
    requires DbOk(c, w.db) && k < |w.db.tickets| && Hopeless(w, k) && Known(w.db.tickets, t)
    ensures Apart(w.db, RecoverFrom(c, w.db, t).db, k)
    ensures t.id == w.db.tickets[k].id ==> RecoverFrom(c, w.db, t) == Recovered(w.db, Missing)
  {
    var j :| 0 <= j < |w.db.tickets| && SameTicket(t, w.db.tickets[j]);
    if j == k {
      RecoverHopeless(c, w, k, t);
    } else {
      RecoverApart(c, w.db, t, j, k);
      ByIdIs(w.db.tickets, k);
    }
  }

  lemma HopelessKept(w: World, w': World, k: nat)
    requires k < |w.db.tickets| && Hopeless(w, k) && Apart(w.db, w'.db, k)
    requires JournalMoves(w.db.journal, w'.db.journal, w.live)
    requires w.db.tickets[k].intent.Some? && Get(w.db.journal.rows, w.db.tickets[k].intent.value).None?
             ==> w.db.tickets[k].intent.value !in w'.live
    requires forall run :: run in w'.runs && w'.runs[run].Paying? ==> w'.runs[run].id != w.db.tickets[k].id
    ensures Hopeless(w', k)
  {
  }

  lemma ReserveElsewhere(c: Config, w: World, k: nat, t: Admission)
    requires DbOk(c, w.db) && k < |w.db.tickets| && Hopeless(w, k) && Known(w.db.tickets, t)
    ensures var m := AfterReserve(c, w.db, t, false);
            Apart(w.db, m.db, k) && m.db.journal == w.db.journal && m.outcome.Told?
  {
    RecoverLeaves(c, w, k, t);
    RecoverKeeps(c, w.db, t);
  }

  /** With a ticket unresolved, a request is refused, repaired or recovered from its own ticket. */
  lemma ClosedGateShape(c: Config, db: Db, request: Id, game: Game, minted: Id)
    requires AnyUnresolved(db.tickets)
    ensures var m, j := Begin(c, db, request, game, minted), ByRequest(db.tickets, request);
            || (m.db == db && (m.outcome.Told? || (m.outcome.Suspended? && m.outcome.run.Repairing?)))
            || (j >= 0 && m == AfterReserve(c, db, db.tickets[j], false))
  {
  }

  /** Nothing new starts paying while the gate is closed. */
  lemma ClosedGateBegins(c: Config, w: World, k: nat, request: Id, game: Game, minted: Id)
    requires DbOk(c, w.db) && k < |w.db.tickets| && Hopeless(w, k)
    ensures var m := Begin(c, w.db, request, game, minted);
            && Apart(w.db, m.db, k) && m.db.journal == w.db.journal
            && (m.outcome.Suspended? ==> m.outcome.run.Repairing?)
  {
    assert AnyUnresolved(w.db.tickets);
    ClosedGateShape(c, w.db, request, game, minted);
    var j := ByRequest(w.db.tickets, request);
    if j >= 0 {
      assert SameTicket(w.db.tickets[j], w.db.tickets[j]);
      ReserveElsewhere(c, w, k, w.db.tickets[j]);
    }
  }

  lemma RepairLeavesHopeless(c: Config, w: World, k: nat, t: Admission, open: bool,
                             lookup: R.Answer<R.Lookup>, now: nat, disk: Disk)
    requires DbOk(c, w.db) && k < |w.db.tickets| && Hopeless(w, k) && Known(w.db.tickets, t) && t.intent.Some?
    ensures var m := AfterRepair(c, w.db, t, open, lookup, now, disk);
            Apart(w.db, m.db, k) && JournalMoves(w.db.journal, m.db.journal, {}) && m.outcome.Told?
  {
    var fixed := Repair(w.db.journal, t.intent.value, open, lookup, now, disk);
    RepairKeeps(w.db.journal, t.intent.value, open, lookup, now, disk, c.limits);
    JournalKeeps(c, w.db, fixed.journal, {});
    var w1 := w.(db := w.db.(journal := fixed.journal));
    HopelessKept(w, w1, k);
    ReserveElsewhere(c, w1, k, t);
  }

  /** The order a recovery of another ticket writes first is not the hopeless one's. */
  lemma OrderFirstLeaves(c: Config, w: World, k: nat, t: Admission)
    requires DbOk(c, w.db) && k < |w.db.tickets| && Hopeless(w, k) && Known(w.db.tickets, t)
    ensures Apart(w.db, OrderFirst(c, w.db, t), k) && OrderFirst(c, w.db, t).journal == w.db.journal
  {
    RecoverLeaves(c, w, k, t);
    assert OrderFirst(c, w.db, t).orders == RecoverFrom(c, w.db, t).db.orders;
  }

  lemma RecoveryLeaves(c: Config, w: World, k: nat, j: nat)
    requires DbOk(c, w.db) && k < |w.db.tickets| && Hopeless(w, k) && j < |w.db.tickets|
    ensures forall db :: db in {OrderFirst(c, w.db, w.db.tickets[j]), RecoverFrom(c, w.db, w.db.tickets[j]).db} ==>
              Apart(w.db, db, k) && db.journal == w.db.journal
  {
    OwnIsKnown(w.db.tickets, j);
    OrderFirstLeaves(c, w, k, w.db.tickets[j]);
    RecoverLeaves(c, w, k, w.db.tickets[j]);
    RecoverKeeps(c, w.db, w.db.tickets[j]);
  }

  lemma FailElsewhere(db: Db, db': Db, id: Id, status: Status, code: string, k: nat)
    requires k < |db.tickets| && Apart(db, db', k) && id != db.tickets[k].id
    ensures Apart(db, db'.(tickets := FailIn(db'.tickets, id, status, code)), k)
  {
  }

  lemma PaymentElsewhere(c: Config, w: World, k: nat, id: Id, result: Result)
    requires DbOk(c, w.db) && k < |w.db.tickets| && Hopeless(w, k) && ById(w.db.tickets, id) >= 0 && id != w.db.tickets[k].id
    ensures var m := AfterPayment(c, w.db, id, result);
            Apart(w.db, m.db, k) && m.db.journal == w.db.journal && m.outcome.Told?
  {
    var j := ById(w.db.tickets, id);
    RecoveryLeaves(c, w, k, j);
    var r := RecoverFrom(c, w.db, w.db.tickets[j]);
    if result.Interrupted? {
      FailElsewhere(w.db, w.db, id, Unknown, "PAYMENT_INTERRUPTED", k);
    } else if r.found.Denied? {
      FailElsewhere(w.db, r.db, id, Unknown, "PAYMENT_INTERRUPTED", k);
    } else if r.found.Missing? && result.Refused? {
      FailElsewhere(w.db, r.db, id, if result.unknown then Unknown else Rejected, result.code, k);
    } else if r.found.Missing? {
      FailElsewhere(w.db, r.db, id, Unknown, "ORDER_MISSING", k);
    }
  }

  lemma LookupElsewhere(c: Config, w: World, k: nat, id: Id)
    requires DbOk(c, w.db) && k < |w.db.tickets| && Hopeless(w, k)
    ensures var m := Lookup(c, w.db, id);
            && Apart(w.db, m.db, k) && m.db.journal == w.db.journal && Hopeless(w.(db := m.db), k) && DbOk(c, m.db)
            && (id == w.db.tickets[k].id ==> m.outcome.answer.Problem?)
  {
    var j := ById(w.db.tickets, id);
    if j >= 0 {
      assert SameTicket(w.db.tickets[j], w.db.tickets[j]);
      RecoverLeaves(c, w, k, w.db.tickets[j]);
      RecoverKeeps(c, w.db, w.db.tickets[j]);
    }
    HopelessKept(w, w.(db := Lookup(c, w.db, id).db), k);
  }

  lemma ConsumeElsewhere(c: Config, w: World, k: nat, id: Id, play: Id)
    requires DbOk(c, w.db) && k < |w.db.tickets| && Hopeless(w, k) && id != w.db.tickets[k].id
    ensures var db := w.db.(tickets := ConsumeIn(w.db.tickets, id, play).tickets);
            Apart(w.db, db, k) && DbOk(c, db) && Hopeless(w.(db := db), k)
  {
    ConsumeKeeps(c, w.db, id, play);
    HopelessKept(w, w.(db := w.db.(tickets := ConsumeIn(w.db.tickets, id, play).tickets)), k);
  }

  lemma SpendElsewhere(c: Config, w: World, k: nat, id: Id, play: Id)
    requires DbOk(c, w.db) && k < |w.db.tickets| && Hopeless(w, k)
    ensures var m := Spend(c, w.db, id, play);
            Apart(w.db, m.db, k) && m.db.journal == w.db.journal
  {
    var shown := Lookup(c, w.db, id);
    LookupElsewhere(c, w, k, id);
    if shown.outcome.answer.Ticket? {
      ConsumeElsewhere(c, w.(db := shown.db), k, id, play);
      LookupElsewhere(c, w.(db := shown.db.(tickets := ConsumeIn(shown.db.tickets, id, play).tickets)), k, id);
    }
  }

  lemma BoundElsewhere(c: Config, w: World, k: nat, run: nat, i: Intent)
    requires Inv(c, w) && k < |w.db.tickets| && Hopeless(w, k) && Can(c, w, Bound(run, i))
    ensures Hopeless(Do(c, w, Bound(run, i)), k)
  {
  }

  lemma CreditElsewhere(c: Config, w: World, k: nat, run: nat)
    requires Inv(c, w) && k < |w.db.tickets| && Hopeless(w, k) && Can(c, w, Credit(run))
    ensures Hopeless(Do(c, w, Credit(run)), k)
  {
    var id, i := w.runs[run].id, w.runs[run].sent.value;
    assert RunOk(w.db.tickets, w.runs[run]);
    var j :| 0 <= j < |w.db.tickets| && w.db.tickets[j].id == id && w.db.tickets[j].intent == Some(i);
    assert w.db.tickets[k].intent != Some(i) by {
      if j < k {
        assert w.db.tickets[j].intent != w.db.tickets[k].intent;
      } else {
        assert w.db.tickets[k].intent.Some? ==> w.db.tickets[k].intent != w.db.tickets[j].intent;
      }
    }
  }

  lemma HopelessThroughAnswers(c: Config, w: World, e: Occurrence, k: nat)
    requires Inv(c, w) && k < |w.db.tickets| && Hopeless(w, k) && Can(c, w, e) && Answers(e)
    ensures var m := MoveOf(c, w, e);
            && Apart(w.db, m.db, k) && JournalMoves(w.db.journal, m.db.journal, {})
            && (m.outcome.Suspended? ==> m.outcome.run.Repairing?)
  {
    match e {
      case Buy(run, request, game, minted) => ClosedGateBegins(c, w, k, request, game, minted);
      case Repaired(run, lookup, now, disk) =>
        assert RunOk(w.db.tickets, w.runs[run]);
        RepairLeavesHopeless(c, w, k, w.runs[run].snapshot, w.runs[run].open, lookup, now, disk);
      case Done(run, result) => PaymentElsewhere(c, w, k, w.runs[run].id, result);
      case Show(id) => LookupElsewhere(c, w, k, id);
      case Consume(id, play) =>
        SpendElsewhere(c, w, k, id, play);
        SpendOk(c, w.db, id, play);
    }
  }

  lemma RepairedLeaves(c: Config, w: World, k: nat, t: Admission, open: bool, lookup: R.Answer<R.Lookup>, now: nat, disk: Disk)
    requires DbOk(c, w.db) && k < |w.db.tickets| && Hopeless(w, k) && Known(w.db.tickets, t) && t.intent.Some?
    ensures forall db :: db in BetweenRepaired(c, w.db, t, open, lookup, now, disk) ==>
              Apart(w.db, db, k) && JournalMoves(w.db.journal, db.journal, {})
  {
    RepairedBetween(c, w.db, t, open, lookup, now, disk);
    var w1 := w.(db := w.db.(journal := Repair(w.db.journal, t.intent.value, open, lookup, now, disk).journal));
    assert w1.db in BetweenRepaired(c, w.db, t, open, lookup, now, disk);
    HopelessKept(w, w1, k);
    OrderFirstLeaves(c, w1, k, t);
  }

  lemma KilledElsewhere(c: Config, w: World, e: Occurrence, n: nat, k: nat)
    requires Inv(c, w) && k < |w.db.tickets| && Hopeless(w, k) && Starts(c, w, e) && n < |Between(c, w, e)|
    ensures Apart(w.db, Between(c, w, e)[n], k) && JournalMoves(w.db.journal, Between(c, w, e)[n].journal, {})
    ensures Hopeless(w.(db := Between(c, w, e)[n], runs := map[], live := {}), k)
  {
    match e {
      case Buy(_, request, _, _) => RecoveryLeaves(c, w, k, ByRequest(w.db.tickets, request));
      case Repaired(run, lookup, now, disk) =>
        assert RunOk(w.db.tickets, w.runs[run]);
        RepairedLeaves(c, w, k, w.runs[run].snapshot, w.runs[run].open, lookup, now, disk);
        assert Between(c, w, e)[n] in Between(c, w, e);
      case Done(run, _) => RecoveryLeaves(c, w, k, ById(w.db.tickets, w.runs[run].id));
      case Show(id) => RecoveryLeaves(c, w, k, ById(w.db.tickets, id));
      case Consume(id, _) => RecoveryLeaves(c, w, k, ById(w.db.tickets, id));
    }
  }

  /** What submits less may move the journal no further. */
  lemma StillMoves(t: Tables, t': Tables, some: set<Intent>, live: set<Intent>)
    requires JournalMoves(t, t', some) && some <= live
    ensures JournalMoves(t, t', live)
  {
  }

  lemma AnsweredRuns(c: Config, w: World, e: Occurrence)
    requires Can(c, w, e) && Answers(e)
    ensures var w', m := Do(c, w, e), MoveOf(c, w, e);
            && w'.db == m.db && w'.live == w.live
            && forall run :: run in w'.runs && w'.runs[run].Paying? ==>
                 (run in w.runs && w'.runs[run] == w.runs[run]) || m.outcome == Suspended(w'.runs[run])
  {
  }

  lemma AnswersLeave(c: Config, w: World, e: Occurrence, k: nat)
    requires Inv(c, w) && k < |w.db.tickets| && Hopeless(w, k) && Can(c, w, e) && Answers(e)
    ensures k < |Do(c, w, e).db.tickets| && Hopeless(Do(c, w, e), k)
  {
    HopelessThroughAnswers(c, w, e, k);
    AnsweredRuns(c, w, e);
    StillMoves(w.db.journal, MoveOf(c, w, e).db.journal, {}, w.live);
    HopelessKept(w, Do(c, w, e), k);
  }

  lemma HopelessOnce(c: Config, w: World, e: Occurrence, k: nat)
    requires Inv(c, w) && k < |w.db.tickets| && Hopeless(w, k) && Can(c, w, e)
    ensures k < |Do(c, w, e).db.tickets| && Hopeless(Do(c, w, e), k)
  {
    if Answers(e) {
      AnswersLeave(c, w, e, k);
    } else if e.Bound? {
      BoundElsewhere(c, w, k, e.run, e.intent);
    } else if e.Credit? {
      CreditElsewhere(c, w, k, e.run);
    } else if e.Killed? {
      KilledElsewhere(c, w, e.step, e.writes, k);
    } else {
      HopelessKept(w, Do(c, w, e), k);
    }
  }

  lemma {:induction false} HopelessForever(c: Config, w: World, es: seq<Occurrence>, k: nat)
    requires Inv(c, w) && k < |w.db.tickets| && Hopeless(w, k) && Legal(c, w, es)
    ensures k < |Exec(c, w, es).db.tickets| && Hopeless(Exec(c, w, es), k)
    decreases |es|
  {
    if es != [] {
      HopelessOnce(c, w, es[0], k);
      InvKept(c, w, es[0]);
      HopelessForever(c, Do(c, w, es[0]), es[1..], k);
    }
  }

  ghost predicate Reopens(c: Config, w: World, es: seq<Occurrence>, k: nat) {
    Legal(c, w, es) && k < |Exec(c, w, es).db.tickets| && !Exec(c, w, es).db.tickets[k].Unresolved()
  }

  function FreshId(ts: seq<Admission>): (id: Id)
    ensures forall k :: 0 <= k < |ts| ==> ts[k].id < id
  {
    if ts == [] then 0
    else
      var rest := FreshId(ts[..|ts| - 1]);
      if ts[|ts| - 1].id < rest then rest else ts[|ts| - 1].id + 1
  }

  /** The chain and the facilitator may still settle a payment that was claimed and is open. */
  lemma MaySettle(t: Tables, i: Intent, limits: Limits)
    requires Sound(t, limits) && Get(t.rows, i).Some? && Get(t.rows, i).value.terminal.None?
    ensures var t' := FinishTxn(t, i, Ending(0, 1, 0, None), Healthy).tables;
            JournalMoves(t, t', {}) && Sound(t', limits) && RowSettled(t'.rows, i)
  {
    FinishLands(t, i, Ending(0, 1, 0, None), limits);
    FinishKeeps(t, i, Ending(0, 1, 0, None), limits, Healthy);
    RR.FinishTouches(t, i, Ending(0, 1, 0, None), Healthy);
  }

  /** One retry of the request after its payment settled. */
  function Retrying(c: Config, w: World, k: nat): seq<Occurrence>
    requires k < |w.db.tickets|
  {
    [Buy(0, w.db.tickets[k].requestId, w.db.tickets[k].game, FreshId(w.db.tickets))]
    + if c.repairs then [Repaired(0, R.Got(R.Nothing), 0, Healthy)] else []
  }

  lemma RunsInto(c: Config, w: World, e: Occurrence, rest: seq<Occurrence>)
    requires Can(c, w, e) && Legal(c, Do(c, w, e), rest)
    ensures Legal(c, w, [e] + rest) && Exec(c, w, [e] + rest) == Exec(c, Do(c, w, e), rest)
  {
    assert ([e] + rest)[1..] == rest;
  }

  lemma RepairReopens(c: Config, w: World, k: nat)
    requires Inv(c, w) && k < |w.db.tickets| && w.runs == map[] && w.db.tickets[k].Unresolved() && c.repairs
    requires w.db.tickets[k].intent.Some? && RowSettled(w.db.journal.rows, w.db.tickets[k].intent.value)
    ensures Reopens(c, w, Retrying(c, w, k), k)
  {
    var t, minted := w.db.tickets[k], FreshId(w.db.tickets);
    var e1, e2 := Buy(0, t.requestId, t.game, minted), Repaired(0, R.Got(R.Nothing), 0, Healthy);
    RetrySuspends(c, w, k, 0, minted);
    AfterRepairAdmits(c, w.db, k, RowOpen(w.db.journal.rows, t.intent.value), R.Got(R.Nothing), 0, Healthy);
    RunsInto(c, Do(c, w, e1), e2, []);
    assert [e2] + [] == [e2];
    RunsInto(c, w, e1, [e2]);
  }

  lemma SettledReopens(c: Config, w: World, k: nat)
    requires Inv(c, w) && k < |w.db.tickets| && w.runs == map[] && w.db.tickets[k].Unresolved()
    requires w.db.tickets[k].intent.Some? && RowSettled(w.db.journal.rows, w.db.tickets[k].intent.value)
    ensures Reopens(c, w, Retrying(c, w, k), k)
  {
    if c.repairs {
      RepairReopens(c, w, k);
    } else {
      RequestIs(w.db.tickets, k);
      SettledRecovers(c, w.db, k);
      RunsInto(c, w, Buy(0, w.db.tickets[k].requestId, w.db.tickets[k].game, FreshId(w.db.tickets)), []);
    }
  }

  lemma CrashFirst(c: Config, w: World, es: seq<Occurrence>, k: nat)
    requires Reopens(c, Do(c, w, Crash), es, k)
    ensures Reopens(c, w, [Crash] + es, k)
  {
    RunsInto(c, w, Crash, es);
  }

  /** The payment has settled: whatever else is going on, a restart and one retry resolve the ticket. */
  lemma RestartReopens(c: Config, w: World, k: nat)
    requires Inv(c, w) && k < |w.db.tickets| && w.db.tickets[k].Unresolved()
    requires w.db.tickets[k].intent.Some? && RowSettled(w.db.journal.rows, w.db.tickets[k].intent.value)
    ensures Reopens(c, w, [Crash] + Retrying(c, w, k), k)
  {
    InvKept(c, w, Crash);
    SettledReopens(c, Do(c, w, Crash), k);
    CrashFirst(c, w, Retrying(c, w, k), k);
  }

  lemma OpenReopens(c: Config, w: World, k: nat)
    requires Inv(c, w) && k < |w.db.tickets| && w.db.tickets[k].Unresolved()
    requires w.db.tickets[k].intent.Some? && RowOpen(w.db.journal.rows, w.db.tickets[k].intent.value)
    ensures exists es :: Reopens(c, w, es, k)
  {
    var i := w.db.tickets[k].intent.value;
    MaySettle(w.db.journal, i, c.limits);
    var e := Settles(FinishTxn(w.db.journal, i, Ending(0, 1, 0, None), Healthy).tables);
    StillMoves(w.db.journal, e.journal, {}, w.live);
    InvKept(c, w, e);
    var w1 := Do(c, w, e);
    RestartReopens(c, w1, k);
    RunsInto(c, w, e, [Crash] + Retrying(c, w1, k));
    assert Reopens(c, w, [e] + ([Crash] + Retrying(c, w1, k)), k);
  }

  /** A nonce that no claimed transaction carries. */
  function FreeNonce(rows: seq<Row>): (n: nat)
    ensures forall k :: 0 <= k < |rows| ==> rows[k].claim.hash.tx.nonce < n
  {
    if rows == [] then 0
    else
      var rest, last := FreeNonce(rows[..|rows| - 1]), rows[|rows| - 1].claim.hash.tx.nonce;
      if last < rest then rest else last + 1
  }

  /** A row for an intent that has none: of a new transaction, with nothing reserved. */
  function FreeRow(rows: seq<Row>, i: Intent): Row {
    var n := FreeNonce(rows);
    NewRow(Claim.Claim(i, Keccak(Tx(true, 1, n, Some(1), Some(0), Some(0), i)), 0, 1, n, 1, 0, 0, 0))
  }

  lemma FreeRowIsSound(t: Tables, row: Row, limits: Limits)
    requires Sound(t, limits) && row == FreeRow(t.rows, row.claim.intent) && Get(t.rows, row.claim.intent).None?
    ensures Sound(Tables(t.rows + [row], t.spent, t.events), limits)
  {
    var rows := t.rows + [row];
    forall s: Series
      ensures Charged(rows, s) == Charged(t.rows, s) && Excess(rows, s) == Excess(t.rows, s)
      ensures FinishedCount(rows) == FinishedCount(t.rows)
    {
      AppendRow(t.rows, row, s);
    }
    assert FinishedCount(rows) == FinishedCount(t.rows) by {
      AppendRow(t.rows, row, TotalSeries(row));
    }
  }

  /** A payment that was submitted may still be claimed. */
  lemma MayClaim(t: Tables, i: Intent, limits: Limits)
    requires Sound(t, limits) && Get(t.rows, i).None?
    ensures var t' := Tables(t.rows + [FreeRow(t.rows, i)], t.spent, t.events);
            JournalMoves(t, t', {i}) && Sound(t', limits) && RowOpen(t'.rows, i)
  {
    var row := FreeRow(t.rows, i);
    FreeRowIsSound(t, row, limits);
    assert (t.rows + [row])[..|t.rows|] == t.rows;
    assert forall j :: Get(t.rows + [row], j) == if j == i then Some(row) else Get(t.rows, j);
  }

  lemma SubmittedReopens(c: Config, w: World, k: nat)
    requires Inv(c, w) && k < |w.db.tickets| && w.db.tickets[k].Unresolved()
    requires w.db.tickets[k].intent.Some? && w.db.tickets[k].intent.value in w.live
    requires Get(w.db.journal.rows, w.db.tickets[k].intent.value).None?
    ensures exists es :: Reopens(c, w, es, k)
  {
    var i, t := w.db.tickets[k].intent.value, w.db.journal;
    var t' := Tables(t.rows + [FreeRow(t.rows, i)], t.spent, t.events);
    MayClaim(t, i, c.limits);
    StillMoves(t, t', {i}, w.live);
    InvKept(c, w, Settles(t'));
    OpenReopens(c, Do(c, w, Settles(t')), k);
    ReopensLater(c, w, Settles(t'), k);
  }

  lemma ReopensLater(c: Config, w: World, e: Occurrence, k: nat)
    requires Can(c, w, e) && exists es :: Reopens(c, Do(c, w, e), es, k)
    ensures exists es :: Reopens(c, w, es, k)
  {
    var es :| Reopens(c, Do(c, w, e), es, k);
    RunsInto(c, w, e, es);
    assert Reopens(c, w, [e] + es, k);
  }

  lemma OwnRecovery(c: Config, db: Db, k: nat)
    requires DbOk(c, db) && k < |db.tickets| && db.tickets[k].Unresolved()
    ensures var r, t := RecoverFrom(c, db, db.tickets[k]), db.tickets[k];
            (r.found.Missing? && r.db == db)
            || (r.found.Held? && r.db.tickets == db.tickets[k := t.(status := Ready, error := None)])
  {
    ByIdIs(db.tickets, k);
    if OrderFor(c, db, db.tickets[k]).Some? {
      OwnIsKnown(db.tickets, k);
      OrderForIsOwn(c, db, db.tickets[k], k);
    }
  }

  lemma RefusedResolves(c: Config, db: Db, k: nat)
    requires DbOk(c, db) && k < |db.tickets| && db.tickets[k].Unresolved() && ById(db.tickets, db.tickets[k].id) == k
    ensures var m := AfterPayment(c, db, db.tickets[k].id, Refused(false, ""));
            m.outcome.Told? && k < |m.db.tickets| && !m.db.tickets[k].Unresolved()
  {
    OwnRecovery(c, db, k);
  }

  /** A `buy` that still pays may end with its order, or refused: either way its ticket is resolved. */
  lemma PayingReopens(c: Config, w: World, k: nat, run: nat)
    requires Inv(c, w) && k < |w.db.tickets| && w.db.tickets[k].Unresolved()
    requires run in w.runs && w.runs[run].Paying? && w.runs[run].id == w.db.tickets[k].id
    ensures Reopens(c, w, [Done(run, Refused(false, ""))], k)
  {
    var e := Done(run, Refused(false, ""));
    ByIdIs(w.db.tickets, k);
    RefusedResolves(c, w.db, k);
    RunsInto(c, w, e, []);
    assert [e] + [] == [e];
  }

  lemma NotHopelessReopens(c: Config, w: World, k: nat)
    requires Inv(c, w) && k < |w.db.tickets| && w.db.tickets[k].Unresolved() && !Hopeless(w, k)
    ensures exists es :: Reopens(c, w, es, k)
  {
    var t := w.db.tickets[k];
    if run :| run in w.runs && w.runs[run].Paying? && w.runs[run].id == t.id {
      PayingReopens(c, w, k, run);
    } else {
      var i := t.intent.value;
      assert i in w.db.orders ==> OrderOk(c, w.db, i);
      if RowSettled(w.db.journal.rows, i) {
        RestartReopens(c, w, k);
      } else if RowOpen(w.db.journal.rows, i) {
        OpenReopens(c, w, k);
      } else {
        SubmittedReopens(c, w, k);
      }
    }
  }

  /**
   * At any time, an unresolved ticket can stop blocking every later request if and only if it is not
   * hopeless. No crash is needed for that: a payment that mined as a failure closes the arcade for good
   * (FailedPaymentCloses), and so does anything thrown before an intent was bound (InterruptedCloses),
   * just as a crash before the claim does (CrashAfterReserving, CrashAfterBinding).
   */
  lemma GateReopensIff(c: Config, w: World, k: nat)
    requires Inv(c, w) && k < |w.db.tickets| && w.db.tickets[k].Unresolved()
    ensures (exists es :: Reopens(c, w, es, k)) <==> !Hopeless(w, k)
  {
    if Hopeless(w, k) {
      forall es | Legal(c, w, es)
        ensures !Reopens(c, w, es, k)
      {
        HopelessForever(c, w, es, k);
      }
    } else {
      NotHopelessReopens(c, w, k);
    }
  }

  // ---- runs that close the gate ----------------------------------------------------------------------------

  function Reserving(request: Id, game: Game): Occurrence { Buy(0, request, game, 0) }

  function NewTicket(request: Id, game: Game, intent: Option<Intent>): Admission {
    Admission(0, request, game, Pending, intent, None, None)
  }

  /** The first `buy` of all has reserved its ticket, and perhaps bound its intent. */
  function FirstBuy(request: Id, game: Game, sent: Option<Intent>): World {
    World(Db([NewTicket(request, game, sent)], map[], Tables([], map[], [])), map[0 := Paying(0, sent)],
          if sent.Some? then {sent.value} else {}, [request], if sent.Some? then {(request, sent.value)} else {}, [])
  }

  lemma FirstReserves(c: Config, request: Id, game: Game)
    ensures Can(c, Start(), Reserving(request, game)) && Do(c, Start(), Reserving(request, game)) == FirstBuy(request, game, None)
  {
    var w := Do(c, Start(), Reserving(request, game));
    assert [] + [NewTicket(request, game, None)] == [NewTicket(request, game, None)];
    assert [] + [request] == [request];
    assert w.runs == map[0 := Paying(0, None)];
  }

  lemma FirstBinds(c: Config, request: Id, game: Game, i: Intent)
    requires Derived(c, i)
    ensures Can(c, FirstBuy(request, game, None), Bound(0, i))
    ensures Do(c, FirstBuy(request, game, None), Bound(0, i)) == FirstBuy(request, game, Some(i))
  {
    var ts := [NewTicket(request, game, None)];
    assert ById(ts, 0) == 0 && ts[0 := NewTicket(request, game, Some(i))] == [NewTicket(request, game, Some(i))];
    assert {} + {i} == {i} && {} + {(request, i)} == {(request, i)};
  }

  /** `es` leads from the start to a state with a hopeless ticket, in which no request is ever served again. */
  ghost predicate ClosesForGood(c: Config, es: seq<Occurrence>) {
    && Legal(c, Start(), es) && 0 < |Exec(c, Start(), es).db.tickets|
    && forall fs :: Legal(c, Exec(c, Start(), es), fs) ==> Shut(c, Exec(c, Exec(c, Start(), es), fs))
  }

  /** Every request that has no ticket yet is refused one. */
  ghost predicate Shut(c: Config, w: World) {
    forall request, game, minted :: ByRequest(w.db.tickets, request) < 0 ==>
      Begin(c, w.db, request, game, minted) == Move(w.db, Told(Problem(UnresolvedPayment)))
  }

  lemma HopelessIsForGood(c: Config, es: seq<Occurrence>)
    requires Legal(c, Start(), es) && 0 < |Exec(c, Start(), es).db.tickets| && Hopeless(Exec(c, Start(), es), 0)
    ensures ClosesForGood(c, es)
  {
    var w := Exec(c, Start(), es);
    Reached(c, es);
    forall fs | Legal(c, w, fs)
      ensures Shut(c, Exec(c, w, fs))
    {
      HopelessForever(c, w, fs, 0);
      forall request, game, minted | ByRequest(Exec(c, w, fs).db.tickets, request) < 0
        ensures Begin(c, Exec(c, w, fs).db, request, game, minted) == Move(Exec(c, w, fs).db, Told(Problem(UnresolvedPayment)))
      {
        HopelessClosesTheGate(c, Exec(c, w, fs), 0, request, game, minted);
      }
    }
  }

  /** Killed after the reservation, before an intent is bound: no new request is ever admitted again. */
  lemma CrashAfterReserving(c: Config, request: Id, game: Game)
    ensures ClosesForGood(c, [Reserving(request, game), Crash])
  {
    var w1 := FirstBuy(request, game, None);
    FirstReserves(c, request, game);
    RunsInto(c, w1, Crash, []);
    assert [Crash] + [] == [Crash];
    RunsInto(c, Start(), Reserving(request, game), [Crash]);
    assert [Reserving(request, game)] + [Crash] == [Reserving(request, game), Crash];
    HopelessIsForGood(c, [Reserving(request, game), Crash]);
  }

  /** Killed after the binding, before the claim: no better. */
  lemma CrashAfterBinding(c: Config, request: Id, game: Game, i: Intent)
    requires Derived(c, i)
    ensures ClosesForGood(c, [Reserving(request, game), Bound(0, i), Crash])
  {
    var w1, w2 := FirstBuy(request, game, None), FirstBuy(request, game, Some(i));
    FirstReserves(c, request, game);
    FirstBinds(c, request, game, i);
    RunsInto(c, w2, Crash, []);
    assert [Crash] + [] == [Crash];
    RunsInto(c, w1, Bound(0, i), [Crash]);
    assert [Bound(0, i)] + [Crash] == [Bound(0, i), Crash];
    RunsInto(c, Start(), Reserving(request, game), [Bound(0, i), Crash]);
    assert [Reserving(request, game)] + [Bound(0, i), Crash] == [Reserving(request, game), Bound(0, i), Crash];
    HopelessIsForGood(c, [Reserving(request, game), Bound(0, i), Crash]);
  }

  /** Something is thrown before an intent is bound, with no crash at all: closed just the same. */
  lemma InterruptedCloses(c: Config, request: Id, game: Game)
    ensures ClosesForGood(c, [Reserving(request, game), Done(0, Interrupted)])
  {
    var w1, e := FirstBuy(request, game, None), Done(0, Interrupted);
    FirstReserves(c, request, game);
    assert ById([NewTicket(request, game, None)], 0) == 0;
    RunsInto(c, w1, e, []);
    assert [e] + [] == [e];
    RunsInto(c, Start(), Reserving(request, game), [e]);
    assert [Reserving(request, game)] + [e] == [Reserving(request, game), e];
    HopelessIsForGood(c, [Reserving(request, game), e]);
  }

  /** The first payment of all has mined, and its row ended without settling. */
  ghost predicate EndedUnpaid(c: Config, t: Tables, i: Intent) {
    && JournalMoves(Tables([], map[], []), t, {i}) && Sound(t, c.limits)
    && Get(t.rows, i).Some? && Get(t.rows, i).value.terminal.Some? && Get(t.rows, i).value.terminal.value.ending.Failed()
  }

  function Failing(request: Id, game: Game, i: Intent, t: Tables, code: string): seq<Occurrence> {
    [Reserving(request, game)] + ([Bound(0, i)] + ([Settles(t)] + [Done(0, Refused(true, code))]))
  }

  lemma FailedStep(c: Config, request: Id, game: Game, i: Intent, t: Tables, code: string)
    requires Derived(c, i) && EndedUnpaid(c, t, i)
    ensures var w3 := FirstBuy(request, game, Some(i)).(db := Db([NewTicket(request, game, Some(i))], map[], t));
            var e := Done(0, Refused(true, code));
            Can(c, w3, e) && |Do(c, w3, e).db.tickets| == 1 && Hopeless(Do(c, w3, e), 0)
  {
    assert ById([NewTicket(request, game, Some(i))], 0) == 0;
  }

  /**
   * The payment mined, and reverted or credited someone else: the ticket stays unknown for good, since no
   * answer and no repair will ever settle it, and with it the arcade is closed to every later request.
   */
  lemma FailedPaymentCloses(c: Config, request: Id, game: Game, i: Intent, t: Tables, code: string)
    requires Derived(c, i) && EndedUnpaid(c, t, i)
    ensures ClosesForGood(c, Failing(request, game, i, t, code))
  {
    var w1, w2, e := FirstBuy(request, game, None), FirstBuy(request, game, Some(i)), Done(0, Refused(true, code));
    var w3 := w2.(db := Db([NewTicket(request, game, Some(i))], map[], t));
    FirstReserves(c, request, game);
    FirstBinds(c, request, game, i);
    FailedStep(c, request, game, i, t, code);
    RunsInto(c, w3, e, []);
    assert [e] + [] == [e];
    RunsInto(c, w2, Settles(t), [e]);
    RunsInto(c, w1, Bound(0, i), [Settles(t)] + [e]);
    RunsInto(c, Start(), Reserving(request, game), [Bound(0, i)] + ([Settles(t)] + [e]));
    HopelessIsForGood(c, Failing(request, game, i, t, code));
  }
}
