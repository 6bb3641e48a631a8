/**
 * Whole runs of arcade admission: any interleaving of `buy`, `get` and `consume`, the facilitator
 * moving the settlement journal underneath, and a crash between any two writes: between two
 * stretches of a `buy`, or within one.
 */
module ArcadeRuns {
  import opened Wrappers
  import opened Journal
  import opened Arcade
  import Receipts
  import R = Recovery
  import RR = RecoveryRuns

  /** What a `consume` of a ticket for a run was answered. */
  datatype Play = Play(ticket: Id, run: Id, answer: Answer)

  /** `live` are the intents submitted since the process started; the last three fields only grow. */
  datatype World = World(db: Db, runs: map<nat, Run>, live: set<Intent>,
                         entered: seq<Id>, submitted: set<(Id, Intent)>, plays: seq<Play>)

  datatype Occurrence =
    | Buy(run: nat, request: Id, game: Game, minted: Id)
    | Repaired(run: nat, lookup: R.Answer<R.Lookup>, now: nat, disk: Disk)
    | Bound(run: nat, intent: Intent)
    | Credit(run: nat)
    | Done(run: nat, result: Result)
    | Settles(journal: Tables)
    | Show(id: Id)
    | Consume(id: Id, play: Id)
    | Crash
    | Killed(step: Occurrence, writes: nat)

  function Start(): World {
    World(Db([], map[], Tables([], map[], [])), map[], {}, [], {}, [])
  }

  /** The journal keeps its rows and its endings, and claims only what this process submitted. */
  ghost predicate JournalMoves(t: Tables, t': Tables, live: set<Intent>) {
    forall i :: match Get(t.rows, i)
      case None => Get(t'.rows, i).Some? ==> i in live
      case Some(row) => Get(t'.rows, i).Some? && Get(t'.rows, i).value.claim == row.claim
                        && (row.terminal.Some? ==> Get(t'.rows, i) == Some(row))
  }

  predicate Derived(c: Config, i: Intent) { i.payTo == c.payTo && i.amount == c.price }

  ghost predicate Can(c: Config, w: World, e: Occurrence) {
    if e.Killed? then Starts(c, w, e.step) && e.writes < |Between(c, w, e.step)| else Starts(c, w, e)
  }

  /** Whether the process can go through a stretch, or be killed in it. */
  ghost predicate Starts(c: Config, w: World, e: Occurrence) {
    match e
    case Buy(run, _, _, minted) => run !in w.runs && ById(w.db.tickets, minted) < 0
    case Repaired(run, _, _, _) => run in w.runs && w.runs[run].Repairing? && w.runs[run].snapshot.intent.Some?
    case Bound(run, i) => run in w.runs && w.runs[run].Paying? && ById(w.db.tickets, w.runs[run].id) >= 0 && Derived(c, i)
    case Credit(run) => run in w.runs && w.runs[run].Paying? && w.runs[run].sent.Some?
                        && ById(w.db.tickets, w.runs[run].id) >= 0 && RowSettled(w.db.journal.rows, w.runs[run].sent.value)
    case Done(run, _) => run in w.runs && w.runs[run].Paying? && ById(w.db.tickets, w.runs[run].id) >= 0
    case Settles(t) => JournalMoves(w.db.journal, t, w.live) && Sound(t, c.limits)
    case Show(_) => true
    case Consume(_, _) => true
    case Crash => true
    case Killed(_, _) => false
  }

  /** The first write of a recovery: the order is on file, its ticket not marked yet. */
  function OrderFirst(c: Config, db: Db, ticket: Admission): Db {
    match OrderFor(c, db, ticket)
    case None => db
    case Some(order) => db.(orders := db.orders[ticket.intent.value := order])
  }

  /** The journal is finished by the repair, and then perhaps the order written. */
  function BetweenRepaired(c: Config, db: Db, t: Admission, open: bool, lookup: R.Answer<R.Lookup>, now: nat, disk: Disk): seq<Db>
    requires t.intent.Some?
  {
    var fixed := Repair(db.journal, t.intent.value, open, lookup, now, disk);
    var db' := db.(journal := fixed.journal);
    if fixed.ok then [db', OrderFirst(c, db', t)] else [db']
  }

  /**
   * What is on disk between two writes of one stretch. The reservation of a new ticket is the last
   * write of its stretch, and a binding, a callback and a journal commit are the only ones of theirs.
   */
  ghost function Between(c: Config, w: World, e: Occurrence): seq<Db>
    requires Starts(c, w, e)
  {
    match e
    case Buy(_, request, game, minted) =>
      var k := ByRequest(w.db.tickets, request);
      if k >= 0 && Begin(c, w.db, request, game, minted).db != w.db then [OrderFirst(c, w.db, w.db.tickets[k])] else []
    case Repaired(run, lookup, now, disk) =>
      BetweenRepaired(c, w.db, w.runs[run].snapshot, w.runs[run].open, lookup, now, disk)
    case Done(run, result) =>
      var ticket := w.db.tickets[ById(w.db.tickets, w.runs[run].id)];
      if result.Interrupted? then [] else [OrderFirst(c, w.db, ticket), RecoverFrom(c, w.db, ticket).db]
    case Show(id) =>
      var k := ById(w.db.tickets, id);
      if k < 0 then [] else [OrderFirst(c, w.db, w.db.tickets[k])]
    case Consume(id, _) =>
      var k := ById(w.db.tickets, id);
      if k < 0 then [] else [OrderFirst(c, w.db, w.db.tickets[k]), RecoverFrom(c, w.db, w.db.tickets[k]).db]
    case _ => []
  }

  /** The seller's callback, once its paywall has a settled answer for the leaf it was sent. */
  function Credited(c: Config, db: Db, id: Id, i: Intent): Db
    requires ById(db.tickets, id) >= 0 && Get(db.journal.rows, i).Some?
  {
    if i in db.orders then db
    else db.(orders := db.orders[i := Order(SLUG, db.tickets[ById(db.tickets, id)].game, i, i.payer, c.price,
                                            Some(Get(db.journal.rows, i).value.claim.hash))])
  }

  function Resume(w: World, run: nat, m: Move): World {
    match m.outcome
    case Told(_) => w.(db := m.db, runs := w.runs - {run})
    case Suspended(r) => w.(db := m.db, runs := w.runs[run := r])
  }

  ghost function Do(c: Config, w: World, e: Occurrence): World
    requires Can(c, w, e)
  {
    match e
    case Buy(run, request, game, minted) =>
      var m := Begin(c, w.db, request, game, minted);
      var next := Resume(w, run, m);
      if m.outcome.Suspended? && m.outcome.run.Paying? then next.(entered := w.entered + [request]) else next
    case Repaired(run, lookup, now, disk) => Resume(w, run, AfterRepair(c, w.db, w.runs[run].snapshot, w.runs[run].open, lookup, now, disk))
    case Bound(run, i) =>
      var id := w.runs[run].id;
      var bound := BindIn(w.db.tickets, id, i);
      if bound.reply.Refuse? then w
      else w.(db := w.db.(tickets := bound.tickets), runs := w.runs[run := Paying(id, Some(i))], live := w.live + {i},
              submitted := w.submitted + {(bound.reply.ticket.requestId, i)})
    case Credit(run) => w.(db := Credited(c, w.db, w.runs[run].id, w.runs[run].sent.value))
    case Done(run, result) => Resume(w, run, AfterPayment(c, w.db, w.runs[run].id, result))
    case Settles(t) => w.(db := w.db.(journal := t))
    case Show(id) => w.(db := Lookup(c, w.db, id).db)
    case Consume(id, play) =>
      var m := Spend(c, w.db, id, play);
      w.(db := m.db, plays := w.plays + [Play(id, play, m.outcome.answer)])
    case Crash => w.(runs := map[], live := {})
    case Killed(step, writes) => w.(db := Between(c, w, step)[writes], runs := map[], live := {})
  }

  ghost predicate Legal(c: Config, w: World, es: seq<Occurrence>)
    decreases |es|
  {
    es == [] || (Can(c, w, es[0]) && Legal(c, Do(c, w, es[0]), es[1..]))
  }

  ghost function Exec(c: Config, w: World, es: seq<Occurrence>): World
    requires Legal(c, w, es)
    decreases |es|
  {
    if es == [] then w else Exec(c, Do(c, w, es[0]), es[1..])
  }

  // ---- the invariant ----------------------------------------------------------------------------

  ghost predicate Unique(ts: seq<Admission>) {
    forall j, k :: 0 <= j < k < |ts| ==>
      && ts[j].id != ts[k].id && ts[j].requestId != ts[k].requestId
      && (ts[j].intent.Some? ==> ts[j].intent != ts[k].intent)
      && (ts[j].runId.Some? ==> ts[j].runId != ts[k].runId)
      && !(ts[j].Unresolved() && ts[k].Unresolved())
  }

  ghost predicate TicketsOk(c: Config, db: Db) {
    forall k :: 0 <= k < |db.tickets| ==>
      && (db.tickets[k].Admitted() ==> db.tickets[k].intent.Some? && db.tickets[k].intent.value in db.orders)
      && (db.tickets[k].intent.Some? ==> Derived(c, db.tickets[k].intent.value))
      && (db.tickets[k].intent.Some? && db.tickets[k].intent.value in db.orders ==>
            db.orders[db.tickets[k].intent.value].item == db.tickets[k].game)
  }

  ghost predicate OrderOk(c: Config, db: Db, i: Intent)
    requires i in db.orders
  {
    && IntentTaken(db.tickets, i, -1) && RowSettled(db.journal.rows, i)
    && db.orders[i] == Order(SLUG, db.orders[i].item, i, i.payer, c.price, Some(Get(db.journal.rows, i).value.claim.hash))
  }

  ghost predicate DbOk(c: Config, db: Db) {
    && Unique(db.tickets) && TicketsOk(c, db) && Sound(db.journal, c.limits)
    && forall i :: i in db.orders ==> OrderOk(c, db, i)
  }

  /** A snapshot names a row of the table: its identity never changes, nor does an intent once bound. */
  ghost predicate Known(ts: seq<Admission>, t: Admission) {
    exists k :: 0 <= k < |ts| && SameTicket(t, ts[k])
  }

  predicate SameTicket(t: Admission, t': Admission) {
    t'.id == t.id && t'.requestId == t.requestId && t'.game == t.game && (t.intent.Some? ==> t'.intent == t.intent)
  }

  ghost predicate RunOk(ts: seq<Admission>, r: Run) {
    match r
    case Repairing(snapshot, _) => snapshot.intent.Some? && Known(ts, snapshot)
    case Paying(id, sent) => exists k :: 0 <= k < |ts| && ts[k].id == id && (sent.Some? ==> ts[k].intent == sent)
  }

  ghost predicate Submitted(ts: seq<Admission>, request: Id, i: Intent) {
    exists k :: 0 <= k < |ts| && ts[k].requestId == request && ts[k].intent == Some(i)
  }

  /** The ticket is consumed, by that run. */
  ghost predicate SpentBy(ts: seq<Admission>, id: Id, run: Id) {
    exists k :: 0 <= k < |ts| && ts[k].id == id && ts[k].status.Consumed? && ts[k].runId == Some(run)
  }

  ghost predicate Inv(c: Config, w: World) {
    && DbOk(c, w.db)
    && (forall run :: run in w.runs ==> RunOk(w.db.tickets, w.runs[run]))
    && |w.entered| == |w.db.tickets| && (forall k :: 0 <= k < |w.entered| ==> w.entered[k] == w.db.tickets[k].requestId)
    && (forall p :: p in w.submitted ==> Submitted(w.db.tickets, p.0, p.1))
    && (forall p :: p in w.plays && p.answer.Ticket? ==> SpentBy(w.db.tickets, p.ticket, p.run))
  }

  // ---- what one write keeps -----------------------------------------------------------------------

  /** Tickets are never removed or renamed, an intent once bound stays, and a consumed ticket never changes. */
  ghost predicate Grows(ts: seq<Admission>, ts': seq<Admission>) {
    |ts| <= |ts'| && forall k :: 0 <= k < |ts| ==> SameTicket(ts[k], ts'[k]) && (ts[k].status.Consumed? ==> ts'[k] == ts[k])
  }

  lemma GrowsKeeps(ts: seq<Admission>, ts': seq<Admission>)
    requires Grows(ts, ts')
    ensures forall t :: Known(ts, t) ==> Known(ts', t)
    ensures forall r :: RunOk(ts, r) ==> RunOk(ts', r)
    ensures forall request, i :: Submitted(ts, request, i) ==> Submitted(ts', request, i)
    ensures forall i :: IntentTaken(ts, i, -1) ==> IntentTaken(ts', i, -1)
    ensures forall id: Id, run: Id :: SpentBy(ts, id, run) ==> SpentBy(ts', id, run)
  {
    forall id: Id, run: Id | SpentBy(ts, id, run)
      ensures SpentBy(ts', id, run)
    {
      var k :| 0 <= k < |ts| && ts[k].id == id && ts[k].status.Consumed? && ts[k].runId == Some(run);
      assert ts'[k] == ts[k];
    }
    forall t | Known(ts, t)
      ensures Known(ts', t)
    {
      var k :| 0 <= k < |ts| && SameTicket(t, ts[k]);
      assert SameTicket(t, ts'[k]);
    }
    forall r | RunOk(ts, r) && r.Paying?
      ensures RunOk(ts', r)
    {
      var k :| 0 <= k < |ts| && ts[k].id == r.id && (r.sent.Some? ==> ts[k].intent == r.sent);
      assert ts'[k].id == r.id;
    }
    forall request, i | Submitted(ts, request, i)
      ensures Submitted(ts', request, i)
    {
      var k :| 0 <= k < |ts| && ts[k].requestId == request && ts[k].intent == Some(i);
      assert ts'[k].requestId == request;
    }
    forall i | IntentTaken(ts, i, -1)
      ensures IntentTaken(ts', i, -1)
    {
      var k :| 0 <= k < |ts| && k != -1 && ts[k].intent == Some(i);
      assert ts'[k].intent == Some(i);
    }
  }

  lemma ByIdIs(ts: seq<Admission>, k: nat)
    requires Unique(ts) && k < |ts|
    ensures ById(ts, ts[k].id) == k
  {
    var j := ById(ts, ts[k].id);
    assert j >= 0;
  }

  /** A ticket's own later state: same identity, not unresolved again, and the same for good once consumed. */
  ghost predicate Later(ts: seq<Admission>, k: nat, t: Admission)
    requires k < |ts|
  {
    && SameTicket(ts[k], t) && t.intent == ts[k].intent && (t.Unresolved() ==> ts[k].Unresolved())
    && (ts[k].status.Consumed? ==> t == ts[k])
    && (t.runId == ts[k].runId || forall j :: 0 <= j < |ts| ==> ts[j].runId != t.runId)
  }

  lemma UniqueKept(ts: seq<Admission>, k: nat, t: Admission)
    requires Unique(ts) && k < |ts| && Later(ts, k, t)
    ensures Unique(ts[k := t])
  {
  }

  lemma TicketsOkKept(c: Config, db: Db, k: nat, t: Admission)
    requires TicketsOk(c, db) && k < |db.tickets| && Later(db.tickets, k, t)
    requires t.Admitted() ==> t.intent.Some? && t.intent.value in db.orders
    ensures TicketsOk(c, db.(tickets := db.tickets[k := t]))
  {
  }

  /** An order stays good while the tickets only grow. */
  lemma OrdersKept(c: Config, db: Db, ts: seq<Admission>)
    requires Grows(db.tickets, ts) && forall i :: i in db.orders ==> OrderOk(c, db, i)
    ensures var db' := db.(tickets := ts); forall i :: i in db'.orders ==> OrderOk(c, db', i)
  {
    GrowsKeeps(db.tickets, ts);
    forall i | i in db.orders
      ensures OrderOk(c, db.(tickets := ts), i)
    {
      assert OrderOk(c, db, i);
    }
  }

  /** Replacing a ticket's status, without unresolving one, keeps the tables in order. */
  lemma StatusKeeps(c: Config, db: Db, k: nat, t: Admission)
    requires DbOk(c, db) && k < |db.tickets| && Later(db.tickets, k, t)
    requires t.Admitted() ==> t.intent.Some? && t.intent.value in db.orders
    ensures DbOk(c, db.(tickets := db.tickets[k := t])) && Grows(db.tickets, db.tickets[k := t])
  {
    UniqueKept(db.tickets, k, t);
    TicketsOkKept(c, db, k, t);
    OrdersKept(c, db, db.tickets[k := t]);
  }

  lemma OrderKeeps(c: Config, db: Db, k: nat, i: Intent, order: Order)
    requires DbOk(c, db) && k < |db.tickets| && db.tickets[k].intent == Some(i) && RowSettled(db.journal.rows, i)
    requires i !in db.orders
    requires order == Order(SLUG, db.tickets[k].game, i, i.payer, c.price, Some(Get(db.journal.rows, i).value.claim.hash))
    ensures DbOk(c, db.(orders := db.orders[i := order]))
  {
    assert IntentTaken(db.tickets, i, -1);
  }

  /** The order recovery finds or writes is the ticket's own. */
  lemma OrderForIsOwn(c: Config, db: Db, t: Admission, k: nat)
    requires DbOk(c, db) && k < |db.tickets| && SameTicket(t, db.tickets[k]) && OrderFor(c, db, t).Some?
    ensures var order := OrderFor(c, db, t).value;
            && t.intent == Some(order.intent) && DbOk(c, db.(orders := db.orders[order.intent := order]))
            && order.seller == SLUG && order.item == t.game && order.amount == c.price
  {
    var i := t.intent.value;
    if i in db.orders {
      assert OrderOk(c, db, i);
      assert db.orders[i := db.orders[i]] == db.orders;
    } else {
      OrderKeeps(c, db, k, i, OrderFor(c, db, t).value);
    }
  }

  /** Recovery writes at most the missing order and the ticket's readiness, and never finds a conflict. */
  lemma RecoverKeeps(c: Config, db: Db, t: Admission)
    requires DbOk(c, db) && Known(db.tickets, t)
    ensures var r := RecoverFrom(c, db, t);
            && DbOk(c, r.db) && Grows(db.tickets, r.db.tickets) && |r.db.tickets| == |db.tickets| && r.db.journal == db.journal
            && AnswerOf(r.found) != Problem(PaymentConflict)
            && (r.found.Missing? ==> r.db == db)
  {
    var k :| 0 <= k < |db.tickets| && SameTicket(t, db.tickets[k]);
    ByIdIs(db.tickets, k);
    var order := OrderFor(c, db, t);
    if order.Some? {
      OrderForIsOwn(c, db, t, k);
      var db' := db.(orders := db.orders[order.value.intent := order.value]);
      if ReadyIn(db.tickets, t.id, order.value.intent).tickets != db.tickets {
        StatusKeeps(c, db', k, db.tickets[k].(status := Ready, error := None));
      }
    }
  }

  lemma FailKeeps(c: Config, db: Db, id: Id, status: Status, code: string)
    requires DbOk(c, db) && (status.Unknown? || status.Rejected?)
    ensures var ts := FailIn(db.tickets, id, status, code);
            DbOk(c, db.(tickets := ts)) && Grows(db.tickets, ts) && |ts| == |db.tickets|
  {
    var k := ById(db.tickets, id);
    if k >= 0 && db.tickets[k].Unresolved() {
      StatusKeeps(c, db, k, db.tickets[k].(status := status, error := Some(code)));
    }
  }

  lemma ConsumedIsLater(ts: seq<Admission>, id: Id, run: Id)
    requires ConsumeIn(ts, id, run).tickets != ts
    ensures var k := ById(ts, id);
            k >= 0 && Later(ts, k, ts[k].(status := Consumed, runId := Some(run)))
            && ConsumeIn(ts, id, run).tickets == ts[k := ts[k].(status := Consumed, runId := Some(run))]
            && ts[k].Admitted()
  {
  }

  lemma ConsumeKeeps(c: Config, db: Db, id: Id, run: Id)
    requires DbOk(c, db)
    ensures var ts := ConsumeIn(db.tickets, id, run).tickets;
            DbOk(c, db.(tickets := ts)) && Grows(db.tickets, ts) && |ts| == |db.tickets|
  {
    var k := ById(db.tickets, id);
    if ConsumeIn(db.tickets, id, run).tickets != db.tickets {
      ConsumedIsLater(db.tickets, id, run);
      StatusKeeps(c, db, k, db.tickets[k].(status := Consumed, runId := Some(run)));
    }
  }

  lemma BindKeeps(c: Config, db: Db, id: Id, i: Intent)
    requires DbOk(c, db) && Derived(c, i)
    ensures var ts := BindIn(db.tickets, id, i).tickets;
            DbOk(c, db.(tickets := ts)) && Grows(db.tickets, ts) && |ts| == |db.tickets|
  {
    var ts := BindIn(db.tickets, id, i).tickets;
    if ts != db.tickets {
      assert i in db.orders ==> OrderOk(c, db, i);
      OrdersKept(c, db, ts);
    }
  }

  lemma NewTicketIsApart(ts: seq<Admission>, t: Admission)
    requires Unique(ts) && ById(ts, t.id) < 0 && ByRequest(ts, t.requestId) < 0 && !AnyUnresolved(ts)
    requires t.intent.None? && t.runId.None?
    ensures Unique(ts + [t]) && Grows(ts, ts + [t])
  {
  }

  lemma ReserveKeeps(c: Config, db: Db, request: Id, game: Game, minted: Id)
    requires DbOk(c, db) && ById(db.tickets, minted) < 0
    ensures var ts := ReserveIn(db.tickets, request, game, minted).tickets;
            DbOk(c, db.(tickets := ts)) && Grows(db.tickets, ts)
  {
    var ts := ReserveIn(db.tickets, request, game, minted).tickets;
    if ts != db.tickets {
      NewTicketIsApart(db.tickets, Admission(minted, request, game, Pending, None, None, None));
    }
    OrdersKept(c, db, ts);
  }

  lemma JournalKeeps(c: Config, db: Db, t: Tables, live: set<Intent>)
    requires DbOk(c, db) && JournalMoves(db.journal, t, live) && Sound(t, c.limits)
    ensures DbOk(c, db.(journal := t))
  {
    forall i | i in db.orders
      ensures OrderOk(c, db.(journal := t), i)
    {
      assert OrderOk(c, db, i);
    }
  }

  /** The repair only ever finishes the row it was asked about. */
  lemma RepairKeeps(t: Tables, i: Intent, open: bool, lookup: R.Answer<R.Lookup>, now: nat, disk: Disk, limits: Limits)
    requires Sound(t, limits)
    ensures var fixed := Repair(t, i, open, lookup, now, disk);
            JournalMoves(t, fixed.journal, {}) && Sound(fixed.journal, limits)
  {
    if Repair(t, i, open, lookup, now, disk).journal != t {
      var r := lookup.value.receipt;
      var e := R.Reconcile(t, i, r, now, disk);
      var ending := Receipts.EndingOf(r, Get(t.rows, i).value.claim.hash, i, now).value;
      FinishKeeps(t, i, ending, limits, disk);
      RR.FinishTouches(t, i, ending, disk);
    }
  }

  // ---- what each stretch keeps ----------------------------------------------------------------------

  /** The tables after a stretch, against the tables before it. */
  ghost predicate MoveOk(c: Config, db: Db, m: Move) {
    && DbOk(c, m.db) && Grows(db.tickets, m.db.tickets)
    && JournalMoves(db.journal, m.db.journal, {})
    && m.outcome != Told(Problem(PaymentConflict))
    && (m.outcome.Suspended? ==> RunOk(m.db.tickets, m.outcome.run))
  }

  lemma KnownMayPay(ts: seq<Admission>, t: Admission)
    requires Known(ts, t)
    ensures RunOk(ts, Paying(t.id, None))
  {
    var k :| 0 <= k < |ts| && SameTicket(t, ts[k]);
    assert ts[k].id == t.id;
  }

  lemma Recovers(c: Config, db: Db, t: Admission)
    requires DbOk(c, db) && Known(db.tickets, t)
    ensures var r := RecoverFrom(c, db, t);
            && |r.db.tickets| == |db.tickets| && AnswerOf(r.found) != Problem(PaymentConflict)
            && (r.found.Missing? ==> r.db == db)
            && forall answer :: answer != Problem(PaymentConflict) ==> MoveOk(c, db, Move(r.db, Told(answer)))
  {
    RecoverKeeps(c, db, t);
    var r := RecoverFrom(c, db, t);
    assert JournalMoves(db.journal, r.db.journal, {});
  }

  lemma AfterReserveOk(c: Config, db: Db, t: Admission, created: bool)
    requires DbOk(c, db) && Known(db.tickets, t)
    ensures MoveOk(c, db, AfterReserve(c, db, t, created)) && |AfterReserve(c, db, t, created).db.tickets| == |db.tickets|
  {
    var r := RecoverFrom(c, db, t);
    Recovers(c, db, t);
    KnownMayPay(db.tickets, t);
    var told := Move(r.db, Told(Problem(PaymentUnresolved)));
    assert MoveOk(c, db, told);
  }

  lemma BeginOk(c: Config, db: Db, request: Id, game: Game, minted: Id)
    requires DbOk(c, db) && ById(db.tickets, minted) < 0
    ensures MoveOk(c, db, Begin(c, db, request, game, minted))
  {
    var reserved := ReserveIn(db.tickets, request, game, minted);
    ReserveKeeps(c, db, request, game, minted);
    if reserved.reply.Have? {
      var t := reserved.reply.ticket;
      var k: int := if ByRequest(db.tickets, request) >= 0 then ByRequest(db.tickets, request) else |db.tickets|;
      assert SameTicket(t, reserved.tickets[k]);
      AfterReserveOk(c, db.(tickets := reserved.tickets), t, ByRequest(db.tickets, request) < 0);
    }
  }

  lemma AfterRepairOk(c: Config, db: Db, t: Admission, open: bool, lookup: R.Answer<R.Lookup>, now: nat, disk: Disk)
    requires DbOk(c, db) && Known(db.tickets, t) && t.intent.Some?
    ensures MoveOk(c, db, AfterRepair(c, db, t, open, lookup, now, disk))
    ensures |AfterRepair(c, db, t, open, lookup, now, disk).db.tickets| == |db.tickets|
  {
    var fixed := Repair(db.journal, t.intent.value, open, lookup, now, disk);
    RepairKeeps(db.journal, t.intent.value, open, lookup, now, disk, c.limits);
    JournalKeeps(c, db, fixed.journal, {});
    AfterReserveOk(c, db.(journal := fixed.journal), t, false);
  }

  /** No order: the ticket records why, and stays where a later repair can find it unless it was refused. */
  lemma FailOk(c: Config, db: Db, id: Id, status: Status, code: string, answer: Answer)
    requires DbOk(c, db) && (status.Unknown? || status.Rejected?) && answer != Problem(PaymentConflict)
    ensures var m := Move(db.(tickets := FailIn(db.tickets, id, status, code)), Told(answer));
            MoveOk(c, db, m) && |m.db.tickets| == |db.tickets|
  {
    FailKeeps(c, db, id, status, code);
  }

  /** One stretch after another within a step. */
  lemma Chain(c: Config, db: Db, mid: Db, m: Move)
    requires Grows(db.tickets, mid.tickets) && JournalMoves(db.journal, mid.journal, {}) && MoveOk(c, mid, m)
    ensures MoveOk(c, db, m)
  {
    forall k | 0 <= k < |db.tickets|
      ensures SameTicket(db.tickets[k], m.db.tickets[k]) && (db.tickets[k].status.Consumed? ==> m.db.tickets[k] == db.tickets[k])
    {
      assert SameTicket(db.tickets[k], mid.tickets[k]) && SameTicket(mid.tickets[k], m.db.tickets[k]);
    }
  }

  lemma DeniedOk(c: Config, db: Db, mid: Db, id: Id)
    requires DbOk(c, mid) && Grows(db.tickets, mid.tickets) && JournalMoves(db.journal, mid.journal, {})
    ensures var m := Move(mid.(tickets := FailIn(mid.tickets, id, Unknown, "PAYMENT_INTERRUPTED")), Told(Problem(PaymentUnresolved)));
            MoveOk(c, db, m) && |m.db.tickets| == |mid.tickets|
  {
    FailOk(c, mid, id, Unknown, "PAYMENT_INTERRUPTED", Problem(PaymentUnresolved));
    Chain(c, db, mid, Move(mid.(tickets := FailIn(mid.tickets, id, Unknown, "PAYMENT_INTERRUPTED")), Told(Problem(PaymentUnresolved))));
  }

  lemma AfterPaymentOk(c: Config, db: Db, id: Id, result: Result)
    requires DbOk(c, db) && ById(db.tickets, id) >= 0
    ensures MoveOk(c, db, AfterPayment(c, db, id, result)) && |AfterPayment(c, db, id, result).db.tickets| == |db.tickets|
  {
    var k := ById(db.tickets, id);
    var r := RecoverFrom(c, db, db.tickets[k]);
    assert SameTicket(db.tickets[k], db.tickets[k]);
    Recovers(c, db, db.tickets[k]);
    if result.Interrupted? {
      FailOk(c, db, id, Unknown, "PAYMENT_INTERRUPTED", Problem(PaymentUnresolved));
    } else if r.found.Denied? {
      var m := Move(r.db, Told(Problem(PaymentUnresolved)));
      assert MoveOk(c, db, m);
      DeniedOk(c, db, r.db, id);
    } else if r.found.Missing? {
      if result.Refused? {
        FailOk(c, db, id, if result.unknown then Unknown else Rejected, result.code,
               Problem(if result.unknown then PaymentUnresolved else PaymentRejected));
      } else {
        FailOk(c, db, id, Unknown, "ORDER_MISSING", Problem(PaymentUnresolved));
      }
    }
  }

  lemma LookupOk(c: Config, db: Db, id: Id)
    requires DbOk(c, db)
    ensures MoveOk(c, db, Lookup(c, db, id)) && |Lookup(c, db, id).db.tickets| == |db.tickets|
  {
    var k := ById(db.tickets, id);
    if k >= 0 {
      assert SameTicket(db.tickets[k], db.tickets[k]);
      RecoverKeeps(c, db, db.tickets[k]);
    }
  }

  lemma ConsumeReplies(ts: seq<Admission>, id: Id, play: Id)
    ensures var spent := ConsumeIn(ts, id, play);
            |spent.tickets| == |ts| && (spent.reply.Refuse? ==> spent.reply.code != PaymentConflict && spent.tickets == ts)
  {
  }

  lemma ConsumeOk(c: Config, db: Db, id: Id, play: Id)
    requires DbOk(c, db)
    ensures var spent := ConsumeIn(db.tickets, id, play);
            && |spent.tickets| == |db.tickets|
            && MoveOk(c, db, Move(db.(tickets := spent.tickets), Told(Problem(RunConflict))))
            && (spent.reply.Refuse? ==> spent.reply.code != PaymentConflict && spent.tickets == db.tickets)
  {
    ConsumeReplies(db.tickets, id, play);
    ConsumeKeeps(c, db, id, play);
  }

  lemma SpentOk(c: Config, db: Db, shown: Db, id: Id, play: Id)
    requires DbOk(c, shown) && Grows(db.tickets, shown.tickets) && JournalMoves(db.journal, shown.journal, {})
    ensures var after := shown.(tickets := ConsumeIn(shown.tickets, id, play).tickets);
            MoveOk(c, db, Lookup(c, after, id)) && |Lookup(c, after, id).db.tickets| == |shown.tickets|
  {
    ConsumeOk(c, shown, id, play);
    var after := shown.(tickets := ConsumeIn(shown.tickets, id, play).tickets);
    Chain(c, db, shown, Move(after, Told(Problem(RunConflict))));
    LookupOk(c, after, id);
    Chain(c, db, after, Lookup(c, after, id));
  }

  /** What a `consume` comes to: shown a problem, refused, or spent and shown again. */
  lemma SpendShape(c: Config, db: Db, id: Id, play: Id)
    ensures var shown := Lookup(c, db, id);
            var spent := ConsumeIn(shown.db.tickets, id, play);
            Spend(c, db, id, play) ==
              if shown.outcome.answer.Problem? then shown
              else if spent.reply.Refuse? then Move(shown.db, Told(Problem(spent.reply.code)))
              else Lookup(c, shown.db.(tickets := spent.tickets), id)
  {
  }

  lemma RefusedSpendOk(c: Config, db: Db, shown: Move, code: Code)
    requires MoveOk(c, db, shown) && code != PaymentConflict
    ensures MoveOk(c, db, Move(shown.db, Told(Problem(code))))
  {
  }

  lemma SpendOk(c: Config, db: Db, id: Id, play: Id)
    requires DbOk(c, db)
    ensures MoveOk(c, db, Spend(c, db, id, play)) && |Spend(c, db, id, play).db.tickets| == |db.tickets|
  {
    LookupOk(c, db, id);
    SpendShape(c, db, id, play);
    var shown := Lookup(c, db, id);
    if shown.outcome.answer.Ticket? {
      ConsumeReplies(shown.db.tickets, id, play);
      if ConsumeIn(shown.db.tickets, id, play).reply.Refuse? {
        RefusedSpendOk(c, db, shown, ConsumeIn(shown.db.tickets, id, play).reply.code);
      } else {
        SpentOk(c, db, shown.db, id, play);
      }
    }
  }

  /** A stretch that keeps the tables keeps the whole world. */
  lemma StretchKeeps(c: Config, w: World, db': Db, runs': map<nat, Run>, live': set<Intent>)
    requires Inv(c, w) && DbOk(c, db') && Grows(w.db.tickets, db'.tickets) && |db'.tickets| == |w.db.tickets|
    requires forall run :: run in runs' ==> (run in w.runs && runs'[run] == w.runs[run]) || RunOk(db'.tickets, runs'[run])
    ensures Inv(c, w.(db := db', runs := runs', live := live'))
  {
    GrowsKeeps(w.db.tickets, db'.tickets);
    assert forall k :: 0 <= k < |w.entered| ==> SameTicket(w.db.tickets[k], db'.tickets[k]);
  }

  lemma BuyKeeps(c: Config, w: World, run: nat, request: Id, game: Game, minted: Id)
    requires Inv(c, w) && Can(c, w, Buy(run, request, game, minted))
    ensures Inv(c, Do(c, w, Buy(run, request, game, minted)))
  {
    var m := Begin(c, w.db, request, game, minted);
    BeginOk(c, w.db, request, game, minted);
    GrowsKeeps(w.db.tickets, m.db.tickets);
    NewTicketPays(c, w.db, request, game, minted);
    var w' := Do(c, w, Buy(run, request, game, minted));
    forall k | 0 <= k < |w'.entered|
      ensures k < |w'.db.tickets| && w'.entered[k] == w'.db.tickets[k].requestId
    {
      if k < |w.db.tickets| {
        assert SameTicket(w.db.tickets[k], w'.db.tickets[k]);
      }
    }
  }

  /** A `buy` starts paying exactly when it made the ticket. */
  lemma NewTicketPays(c: Config, db: Db, request: Id, game: Game, minted: Id)
    requires DbOk(c, db) && ById(db.tickets, minted) < 0
    ensures var m := Begin(c, db, request, game, minted);
            if m.outcome.Suspended? && m.outcome.run.Paying?
            then |m.db.tickets| == |db.tickets| + 1 && m.db.tickets[|db.tickets|].requestId == request
                 && ByRequest(db.tickets, request) < 0
            else |m.db.tickets| == |db.tickets|
  {
    var reserved := ReserveIn(db.tickets, request, game, minted);
    ReserveKeeps(c, db, request, game, minted);
    if reserved.reply.Have? {
      var k: int := if ByRequest(db.tickets, request) >= 0 then ByRequest(db.tickets, request) else |db.tickets|;
      assert SameTicket(reserved.reply.ticket, reserved.tickets[k]);
      RecoverKeeps(c, db.(tickets := reserved.tickets), reserved.reply.ticket);
    }
  }

  lemma BoundKeeps(c: Config, w: World, run: nat, i: Intent)
    requires Inv(c, w) && Can(c, w, Bound(run, i))
    ensures Inv(c, Do(c, w, Bound(run, i)))
  {
    var id := w.runs[run].id;
    var bound := BindIn(w.db.tickets, id, i);
    BindKeeps(c, w.db, id, i);
    if bound.reply.Have? {
      var k := ById(w.db.tickets, id);
      assert bound.tickets[k].id == id && bound.tickets[k].intent == Some(i);
      assert Submitted(bound.tickets, bound.reply.ticket.requestId, i);
      StretchKeeps(c, w, w.db.(tickets := bound.tickets), w.runs[run := Paying(id, Some(i))], w.live + {i});
    }
  }

  lemma CreditKeeps(c: Config, w: World, run: nat)
    requires Inv(c, w) && Can(c, w, Credit(run))
    ensures Inv(c, Do(c, w, Credit(run)))
  {
    var id, i := w.runs[run].id, w.runs[run].sent.value;
    if i !in w.db.orders {
      assert RunOk(w.db.tickets, w.runs[run]);
      var k :| 0 <= k < |w.db.tickets| && w.db.tickets[k].id == id && w.db.tickets[k].intent == Some(i);
      ByIdIs(w.db.tickets, k);
      OrderKeeps(c, w.db, k, i, Credited(c, w.db, id, i).orders[i]);
    }
  }

  lemma OrderFirstKeeps(c: Config, db: Db, t: Admission)
    requires DbOk(c, db) && Known(db.tickets, t)
    ensures var db' := OrderFirst(c, db, t); DbOk(c, db') && db'.tickets == db.tickets && db'.journal == db.journal
  {
    var k :| 0 <= k < |db.tickets| && SameTicket(t, db.tickets[k]);
    if OrderFor(c, db, t).Some? {
      OrderForIsOwn(c, db, t, k);
    }
  }

  lemma OwnIsKnown(ts: seq<Admission>, k: nat)
    requires k < |ts|
    ensures Known(ts, ts[k])
  {
    assert SameTicket(ts[k], ts[k]);
  }

  /** Both states that a recovery passes through are in order. */
  lemma RecoveryKeeps(c: Config, db: Db, k: nat)
    requires DbOk(c, db) && k < |db.tickets|
    ensures forall db' :: db' in {OrderFirst(c, db, db.tickets[k]), RecoverFrom(c, db, db.tickets[k]).db} ==>
              DbOk(c, db') && Grows(db.tickets, db'.tickets) && |db'.tickets| == |db.tickets|
  {
    OwnIsKnown(db.tickets, k);
    OrderFirstKeeps(c, db, db.tickets[k]);
    RecoverKeeps(c, db, db.tickets[k]);
  }

  lemma RepairedBetween(c: Config, db: Db, t: Admission, open: bool, lookup: R.Answer<R.Lookup>, now: nat, disk: Disk)
    requires DbOk(c, db) && Known(db.tickets, t) && t.intent.Some?
    ensures forall db' :: db' in BetweenRepaired(c, db, t, open, lookup, now, disk) ==>
              DbOk(c, db') && db'.tickets == db.tickets && JournalMoves(db.journal, db'.journal, {})
  {
    var fixed := Repair(db.journal, t.intent.value, open, lookup, now, disk);
    RepairKeeps(db.journal, t.intent.value, open, lookup, now, disk, c.limits);
    JournalKeeps(c, db, fixed.journal, {});
    OrderFirstKeeps(c, db.(journal := fixed.journal), t);
  }

  /** Killed between two writes: what is on disk is in order, whatever the rest of the stretch would have done. */
  lemma BetweenOk(c: Config, w: World, e: Occurrence, n: nat)
    requires Inv(c, w) && Starts(c, w, e) && n < |Between(c, w, e)|
    ensures var db := Between(c, w, e)[n];
            DbOk(c, db) && Grows(w.db.tickets, db.tickets) && |db.tickets| == |w.db.tickets|
  {
    match e {
      case Buy(_, request, _, _) => RecoveryKeeps(c, w.db, ByRequest(w.db.tickets, request));
      case Repaired(run, lookup, now, disk) =>
        assert RunOk(w.db.tickets, w.runs[run]);
        RepairedBetween(c, w.db, w.runs[run].snapshot, w.runs[run].open, lookup, now, disk);
        assert Between(c, w, e)[n] in Between(c, w, e);
      case Done(run, _) => RecoveryKeeps(c, w.db, ById(w.db.tickets, w.runs[run].id));
      case Show(id) => RecoveryKeeps(c, w.db, ById(w.db.tickets, id));
      case Consume(id, _) => RecoveryKeeps(c, w.db, ById(w.db.tickets, id));
    }
  }

  /** A ticket that a `consume` hands out is consumed by its own run. */
  lemma SpendNames(c: Config, db: Db, id: Id, play: Id)
    requires DbOk(c, db)
    ensures var m := Spend(c, db, id, play);
            m.outcome.answer.Ticket? ==> SpentBy(m.db.tickets, id, play)
  {
    LookupOk(c, db, id);
    var shown := Lookup(c, db, id).db;
    var spent := ConsumeIn(shown.tickets, id, play);
    if Lookup(c, db, id).outcome.answer.Ticket? && spent.reply.Have? {
      SpentKeeps(c, shown, id, play);
    }
  }

  lemma SpentKeeps(c: Config, shown: Db, id: Id, play: Id)
    requires DbOk(c, shown) && ConsumeIn(shown.tickets, id, play).reply.Have?
    ensures var after := shown.(tickets := ConsumeIn(shown.tickets, id, play).tickets);
            SpentBy(Lookup(c, after, id).db.tickets, id, play)
  {
    var after := shown.(tickets := ConsumeIn(shown.tickets, id, play).tickets);
    ConsumeOk(c, shown, id, play);
    ConsumedBy(shown.tickets, id, play);
    LookupOk(c, after, id);
    SpentStays(after.tickets, Lookup(c, after, id).db.tickets, id, play);
  }

  lemma ConsumedBy(ts: seq<Admission>, id: Id, play: Id)
    requires ConsumeIn(ts, id, play).reply.Have?
    ensures SpentBy(ConsumeIn(ts, id, play).tickets, id, play)
  {
    var k, ts' := ById(ts, id), ConsumeIn(ts, id, play).tickets;
    assert ts'[k].id == id && ts'[k].status.Consumed? && ts'[k].runId == Some(play);
  }

  lemma SpentStays(ts: seq<Admission>, ts': seq<Admission>, id: Id, play: Id)
    requires Grows(ts, ts') && SpentBy(ts, id, play)
    ensures SpentBy(ts', id, play)
  {
    GrowsKeeps(ts, ts');
  }

  lemma ConsumeKept(c: Config, w: World, id: Id, play: Id)
    requires Inv(c, w)
    ensures Inv(c, Do(c, w, Consume(id, play)))
  {
    var w' := Do(c, w, Consume(id, play));
    SpendOk(c, w.db, id, play);
    SpendNames(c, w.db, id, play);
    StretchKeeps(c, w, w'.db, w.runs, w.live);
  }

  lemma KilledKeeps(c: Config, w: World, e: Occurrence, n: nat)
    requires Inv(c, w) && Starts(c, w, e) && n < |Between(c, w, e)|
    ensures Inv(c, w.(db := Between(c, w, e)[n], runs := map[], live := {}))
  {
    BetweenOk(c, w, e, n);
    StretchKeeps(c, w, Between(c, w, e)[n], map[], {});
  }

  lemma RepairedKeeps(c: Config, w: World, e: Occurrence)
    requires Inv(c, w) && Can(c, w, e) && e.Repaired?
    ensures Inv(c, Do(c, w, e))
  {
    assert RunOk(w.db.tickets, w.runs[e.run]);
    AfterRepairOk(c, w.db, w.runs[e.run].snapshot, w.runs[e.run].open, e.lookup, e.now, e.disk);
    StretchKeeps(c, w, Do(c, w, e).db, Do(c, w, e).runs, Do(c, w, e).live);
  }

  lemma InvKept(c: Config, w: World, e: Occurrence)
    requires Inv(c, w) && Can(c, w, e)
    ensures Inv(c, Do(c, w, e))
  {
    var w' := Do(c, w, e);
    match e {
      case Buy(run, request, game, minted) => BuyKeeps(c, w, run, request, game, minted);
      case Repaired(_, _, _, _) => RepairedKeeps(c, w, e);
      case Bound(run, i) => BoundKeeps(c, w, run, i);
      case Credit(run) => CreditKeeps(c, w, run);
      case Done(run, result) =>
        AfterPaymentOk(c, w.db, w.runs[run].id, result);
        StretchKeeps(c, w, w'.db, w'.runs, w'.live);
      case Settles(t) => JournalKeeps(c, w.db, t, w.live);
      case Show(id) =>
        LookupOk(c, w.db, id);
        StretchKeeps(c, w, w'.db, w'.runs, w'.live);
      case Consume(id, play) => ConsumeKept(c, w, id, play);
      case Crash =>
      case Killed(step, writes) => KilledKeeps(c, w, step, writes);
    }
  }

  lemma {:induction false} RunsKeep(c: Config, w: World, es: seq<Occurrence>)
    requires Inv(c, w) && Legal(c, w, es)
    ensures Inv(c, Exec(c, w, es))
    decreases |es|
  {
    if es != [] {
      InvKept(c, w, es[0]);
      RunsKeep(c, Do(c, w, es[0]), es[1..]);
    }
  }

  lemma Reached(c: Config, es: seq<Occurrence>)
    requires Legal(c, Start(), es)
    ensures Inv(c, Exec(c, Start(), es))
  {
    EmptyIsSound(c.limits);
    RunsKeep(c, Start(), es);
  }
}
