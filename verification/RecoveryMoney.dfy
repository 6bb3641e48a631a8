/**
 * What the journal's rows and events amount to, over every run, in the terms of the transactions that
 * were claimed and of the receipts that came back.
 */
module RecoveryMoney {
  import opened Wrappers
  import opened Journal
  import opened Guards
  import opened Receipts
  import opened Recovery
  import opened RecoveryRuns
  import opened RecoveryProperties
  import opened RecoveryAnswers

  // ---- what a claim reserves -------------------------------------------------------------------------------

  /** The row names its own signed transaction, and reserves the most that can cost, on the day of the claim. */
  ghost predicate Enveloped(c: Config, r: Row) {
    var claim, tx := r.claim, r.claim.hash.tx;
    && tx.eip1559 && tx.gas.Some? && tx.maxFee.Some? && tx.priority.Some?
    && claim.signer == c.signer && claim.chainId == c.chainId == tx.chainId && claim.nonce == tx.nonce && claim.intent == tx.call
    && claim.gas == tx.gas.value && claim.maxFee == tx.maxFee.value && claim.priority == tx.priority.value
    && r.reserved == tx.gas.value * tx.maxFee.value
    && r.day * 86_400_000 <= claim.createdAt < (r.day + 1) * 86_400_000
  }

  ghost predicate AllEnveloped(c: Config, rows: seq<Row>) {
    forall k :: 0 <= k < |rows| ==> Enveloped(c, rows[k])
  }

  lemma ClaimIsEnveloped(c: Config, i: Intent, tx: Tx, nonce: nat, now: nat)
    requires Matches(c, tx, nonce) && tx.call == i
    ensures Enveloped(c, NewRow(ClaimFor(c, i, tx, nonce, now)))
  {
  }

  /** The rows of a journal after a move: one of them ended, or one of them new, or the same. */
  ghost predicate RowsMove(rows: seq<Row>, rows': seq<Row>) {
    || rows' == rows
    || (exists k, end :: 0 <= k < |rows| && rows' == rows[k := rows[k].(terminal := Some(end))])
  }

  lemma FinishMoves(t: Tables, i: Intent, e: Ending, disk: Disk)
    ensures RowsMove(t.rows, FinishTxn(t, i, e, disk).tables.rows)
  {
    var k := IndexOf(t.rows, i);
    if FinishTxn(t, i, e, disk).tables != t {
      var end := Terminal(|t.events|, e);
      assert FinishTxn(t, i, e, disk).tables.rows == t.rows[k := t.rows[k].(terminal := Some(end))];
    }
  }

  lemma MovedStaysEnveloped(c: Config, rows: seq<Row>, rows': seq<Row>)
    requires AllEnveloped(c, rows) && RowsMove(rows, rows')
    ensures AllEnveloped(c, rows')
  {
    forall k | 0 <= k < |rows'|
      ensures Enveloped(c, rows'[k])
    {
      assert Enveloped(c, rows[k]);
    }
  }

  lemma PreparedEnvelopes(u: Setup, s: State, e: Input)
    requires AllEnveloped(u.config, s.proc.tables.rows) && e.Prepared? && Ready(s.proc, e) && Plausible(u, s, e)
    ensures AllEnveloped(u.config, React(u.config, s.proc, e).proc.tables.rows)
  {
    var i := s.proc.preparing[0];
    var op := s.proc.inflight[i];
    if e.tx.Got? && Matches(u.config, e.tx.value, op.stage.nonce) {
      var c := ClaimFor(u.config, i, e.tx.value, op.stage.nonce, e.now);
      ClaimTouches(s.proc.tables, c, u.config.limits, e.disk);
      ClaimIsEnveloped(u.config, i, e.tx.value, op.stage.nonce, e.now);
    }
  }

  lemma OtherMoves(c: Config, t: Tables, i: Intent, op: Op, e: Input)
    requires Resumes(e, op.stage) && !e.Prepared?
    ensures RowsMove(t.rows, Decide(c, t, i, op, e).tables.rows)
  {
    if (e.ReceiptRead? && e.lookup.Got? && e.lookup.value.Found?) || (e.Waited? && e.receipt.Got?) {
      var r := if e.Waited? then e.receipt.value else e.lookup.value.receipt;
      var ending := EndingOf(r, op.stage.row.claim.hash, i, e.now);
      if ending.Some? {
        FinishMoves(t, i, ending.value, e.disk);
      }
    }
  }

  lemma EnvelopedOnce(u: Setup, s: State, e: Occurrence)
    requires AllEnveloped(u.config, s.proc.tables.rows) && Enabled(u, s, e)
    ensures AllEnveloped(u.config, Apply(u, s, e).proc.tables.rows)
  {
    match e {
      case Deliver(input) =>
        if input.Prepared? {
          PreparedEnvelopes(u, s, input);
        } else if !input.Call? {
          var i := Focus(s.proc, input).value;
          OtherMoves(u.config, s.proc.tables, i, s.proc.inflight[i], input);
          MovedStaysEnveloped(u.config, s.proc.tables.rows, Apply(u, s, e).proc.tables.rows);
        }
      case Repair(i, r, now, disk) =>
        RepairMoves(s.proc.tables, i, r, now, disk);
        MovedStaysEnveloped(u.config, s.proc.tables.rows, Apply(u, s, e).proc.tables.rows);
      case _ =>
    }
  }

  lemma RepairMoves(t: Tables, i: Intent, r: Receipt, now: nat, disk: Disk)
    ensures RowsMove(t.rows, Reconcile(t, i, r, now, disk).tables.rows)
  {
    if Get(t.rows, i).Some? && EndingOf(r, Get(t.rows, i).value.claim.hash, i, now).Some? {
      FinishMoves(t, i, EndingOf(r, Get(t.rows, i).value.claim.hash, i, now).value, disk);
    }
  }

  lemma {:induction false} EnvelopesKept(u: Setup, s: State, es: seq<Occurrence>)
    requires AllEnveloped(u.config, s.proc.tables.rows) && Legal(u, s, es)
    ensures AllEnveloped(u.config, Exec(u, s, es).proc.tables.rows)
    decreases |es|
  {
    if es != [] {
      EnvelopedOnce(u, s, es[0]);
      EnvelopesKept(u, Apply(u, s, es[0]), es[1..]);
    }
  }

  /**
   * Over every run, each row carries the envelope of the transaction whose hash it names, and reserves
   * that transaction's gas at its maximum fee, on the day the claim was made.
   */
  lemma ReservedIsTheMost(u: Setup, es: seq<Occurrence>, k: nat)
    requires Legal(u, Start(), es) && k < |Exec(u, Start(), es).proc.tables.rows|
    ensures var r := Exec(u, Start(), es).proc.tables.rows[k];
            var claim, tx := r.claim, r.claim.hash.tx;
            && tx.eip1559 && claim.signer == u.config.signer && claim.chainId == u.config.chainId == tx.chainId
            && claim.nonce == tx.nonce && claim.intent == tx.call
            && tx.gas == Some(claim.gas) && tx.maxFee == Some(claim.maxFee) && tx.priority == Some(claim.priority)
            && r.reserved == tx.gas.value * tx.maxFee.value
            && r.day * 86_400_000 <= claim.createdAt < (r.day + 1) * 86_400_000
  {
    EnvelopesKept(u, Start(), es);
    assert Enveloped(u.config, Exec(u, Start(), es).proc.tables.rows[k]);
  }

  function Envelope(i: Intent, gas: nat, maxFee: nat, priority: nat): Tx {
    Tx(true, 1, 0, Some(gas), Some(maxFee), Some(priority), i)
  }

  /**
   * A claim is refused by what it could cost, not by what it tips: gas 100000 at a maximum of 20 and a
   * tip of 1 needs 2000000.
   */
  lemma TipIsNotReserved(i: Intent, tx: Tx, c: Claim, t: Tables, day: nat)
    requires tx == Envelope(i, 100_000, 20, 1) && t == Tables([], map[], []) && day <= 1000
    requires c == Claim.Claim(i, Keccak(tx), 0, 1, 0, 100_000, 20, 1, day * 86_400_000)
    ensures ClaimTxn(t, c, Limits(3_000_000, 1_999_999), Healthy) == Txn(t, OverBudget("payer_budget_exhausted"))
    ensures var txn := ClaimTxn(t, c, Limits(3_000_000, 2_000_000), Healthy);
            txn.reply == Kept(Row(c, day, 2_000_000, None)) && txn.tables.rows == [Row(c, day, 2_000_000, None)]
  {
  }

  /** A row that a step adds is the claim of the transaction it was handed, made then, for the head of the queue. */
  lemma NewRowIsTheClaims(u: Setup, s: State, e: Occurrence)
    requires Inv(u, s) && Enabled(u, s, e) && |Apply(u, s, e).proc.tables.rows| != |s.proc.tables.rows|
    ensures e.Deliver? && e.input.Prepared? && e.input.tx.Got? && s.proc.preparing != []
    ensures var rows, rows' := s.proc.tables.rows, Apply(u, s, e).proc.tables.rows;
            && |rows'| == |rows| + 1 && rows'[..|rows|] == rows && rows'[|rows|].terminal.None?
            && var claim := rows'[|rows|].claim;
               claim.intent == s.proc.preparing[0] && claim.hash == Keccak(e.input.tx.value) && claim.createdAt == e.input.now
  {
    if e.Deliver? && !e.input.Call? {
      DecideFits(u, s, e.input);
      if e.input.Prepared? {
        CommitWithinLimits(u, s, e.input);
        var op := s.proc.inflight[s.proc.preparing[0]];
        if e.input.tx.Got? && Matches(u.config, e.input.tx.value, op.stage.nonce) {
          ClaimTouches(s.proc.tables, ClaimFor(u.config, s.proc.preparing[0], e.input.tx.value, op.stage.nonce, e.input.now),
                       u.config.limits, e.input.disk);
        }
      }
    } else if e.Repair? {
      RepairTablesKept(u, s.proc.tables, s.world, e.intent, e.receipt, e.now, e.disk);
    }
  }

  // ---- what an ending costs --------------------------------------------------------------------------------

  predicate FeesReadable(r: Receipt) {
    r.gasUsed.Some? && r.gasUsed.value > 0 && r.price.Some? && !r.l1Fee.Unreadable?
  }

  /** Gas at its price, and the fee of the layer below where the receipt has one. */
  function Paid(r: Receipt): nat
    requires FeesReadable(r)
  {
    r.gasUsed.value * r.price.value + match r.l1Fee case Absent => 0 case Readable(wei) => wei
  }

  /** The row's last entry, in the receipt's own terms. */
  function EndedFrom(row: Row, id: nat, r: Receipt, now: nat): Row
    requires FeesReadable(r)
  {
    row.(terminal := Some(Terminal(id, Ending(now, r.gasUsed.value, Paid(r), ReceiptFailure(r.success, r.logs, row.claim.intent)))))
  }

  lemma EndingFrom(r: Receipt, hash: Hash, i: Intent, now: nat)
    ensures EndingOf(r, hash, i, now) ==
              if r.hash == hash && FeesReadable(r) then Some(Ending(now, r.gasUsed.value, Paid(r), ReceiptFailure(r.success, r.logs, i)))
              else None
  {
  }

  /** How much a series is owed or given back when the row ends at `cost`. */
  function Adjustment(row: Row, s: Series, cost: nat): int {
    if s.day == row.day && (s.scope.Total? || s.scope.payer == row.claim.intent.payer) then cost - row.reserved else 0
  }

  lemma FinishBooks(t: Tables, i: Intent, row: Row, e: Ending, limits: Limits)
    requires Sound(t, limits) && Get(t.rows, i) == Some(row) && row.terminal.None? && e.at <= MAX_SAFE
    ensures var txn := FinishTxn(t, i, e, Healthy);
            var ended := row.(terminal := Some(Terminal(|t.events|, e)));
            && txn.reply == Kept(ended) && Get(txn.tables.rows, i) == Some(ended)
            && txn.tables != t
            && txn.tables.events == t.events + [Event(row.claim.hash, i.payer, i.payTo, i.amount, e)]
            && forall s: Series :: Load(txn.tables.spent, s) == Load(t.spent, s) + Adjustment(row, s, e.actualCost)
  {
    FinishLands(t, i, e, limits);
    FinishTouches(t, i, e, Healthy);
    var k := IndexOf(t.rows, i);
    assert FinishTxn(t, i, e, Healthy).tables == End(t, k, e);
    forall s: Series
      ensures Load(End(t, k, e).spent, s) == Load(t.spent, s) + Adjustment(row, s, e.actualCost)
    {
      TwoSeries(row, s);
    }
  }

  /**
   * The close of an open row, for every receipt: its own, with fees that can be read, ends the row at what
   * it says was paid, books that on the claim's day and in the ledger, and answers the row; any other
   * receipt leaves everything as it is, and the answer is pending.
   */
  lemma CloseIsTheReceipts(u: Setup, t: Tables, i: Intent, op: Op, row: Row, r: Receipt, now: nat)
    requires Sound(t, u.config.limits) && Get(t.rows, i) == Some(row) && row.terminal.None?
    requires !op.stage.Preparing() && op.stage.row.claim == row.claim
    ensures var m := Close(t, i, op, r, now, Healthy);
            if r.hash == row.claim.hash && FeesReadable(r) && now <= MAX_SAFE then
              var ended := EndedFrom(row, |t.events|, r, now);
              && m.next == Conclude(Resolved(ended, op.replayed)) && m.acts == [Finished(i, Some(op.owner))]
              && Get(m.tables.rows, i) == Some(ended)
              && m.tables.events == t.events + [Event(row.claim.hash, i.payer, i.payTo, i.amount, ended.terminal.value.ending)]
              && forall s: Series :: Load(m.tables.spent, s) == Load(t.spent, s) + Adjustment(row, s, Paid(r))
            else m == Move(t, Conclude(Raised(Raise(Pending(row.claim.hash)))), [])
  {
    EndingFrom(r, row.claim.hash, i, now);
    if r.hash == row.claim.hash && FeesReadable(r) && now <= MAX_SAFE {
      FinishBooks(t, i, row, EndingOf(r, row.claim.hash, i, now).value, u.config.limits);
    }
  }

  // ---- over every run --------------------------------------------------------------------------------------

  datatype Reading = Reading(intent: Intent, receipt: Receipt, now: nat)

  /** The receipt an occurrence brings, and when. */
  function ReadingOf(e: Occurrence): Option<Reading> {
    match e
    case Deliver(ReceiptRead(i, Got(Found(r)), now, _)) => Some(Reading(i, r, now))
    case Deliver(Waited(i, Got(r), now, _)) => Some(Reading(i, r, now))
    case Repair(i, r, now, _) => Some(Reading(i, r, now))
    case _ => None
  }

  /** The row's ending is what that receipt says, and its receipt is its own. */
  predicate Says(x: Reading, row: Row) {
    && FeesReadable(x.receipt) && x.receipt.hash == row.claim.hash && x.intent == row.claim.intent
    && row.terminal.Some? && row == EndedFrom(row, row.terminal.value.id, x.receipt, x.now)
  }

  lemma FinishSays(t: Tables, i: Intent, x: Reading, hash: Hash, disk: Disk)
    requires Distinct(t.rows) && x.intent == i && EndingOf(x.receipt, hash, i, x.now).Some?
    requires Get(t.rows, i).Some? && Get(t.rows, i).value.claim.hash == hash
    ensures var t' := FinishTxn(t, i, EndingOf(x.receipt, hash, i, x.now).value, disk).tables;
            !Ended(t.rows, i) && Ended(t'.rows, i) ==> Says(x, Get(t'.rows, i).value)
  {
    EndingFrom(x.receipt, hash, i, x.now);
    FinishTouches(t, i, EndingOf(x.receipt, hash, i, x.now).value, disk);
  }

  lemma DecideEnds(c: Config, t: Tables, i: Intent, op: Op, e: Input)
    requires Distinct(t.rows) && Resumes(e, op.stage) && !e.Prepared? && Focused(e, i)
    requires !op.stage.Preparing() ==> Get(t.rows, i).Some? && Get(t.rows, i).value.claim == op.stage.row.claim
    requires !Ended(t.rows, i) && Ended(Decide(c, t, i, op, e).tables.rows, i)
    ensures ReadingOf(Deliver(e)).Some? && Says(ReadingOf(Deliver(e)).value, Get(Decide(c, t, i, op, e).tables.rows, i).value)
  {
    var x := ReadingOf(Deliver(e)).value;
    FinishSays(t, i, x, op.stage.row.claim.hash, e.disk);
  }

  predicate Focused(e: Input, i: Intent) {
    match e
    case ReceiptRead(j, _, _, _) => j == i
    case Waited(j, _, _, _) => j == i
    case _ => true
  }

  lemma DeliveryEnds(u: Setup, s: State, e: Input, i: Intent)
    requires Inv(u, s) && !e.Call? && Ready(s.proc, e) && Plausible(u, s, e)
    requires !Ended(s.proc.tables.rows, i) && Ended(React(u.config, s.proc, e).proc.tables.rows, i)
    ensures ReadingOf(Deliver(e)).Some? && Says(ReadingOf(Deliver(e)).value, Get(React(u.config, s.proc, e).proc.tables.rows, i).value)
  {
    var j := Focus(s.proc, e).value;
    var op := s.proc.inflight[j];
    var t, m := s.proc.tables, Decide(u.config, s.proc.tables, j, op, e);
    assert OpOk(u, t.rows, s.history, s.nextCall, j, op);
    assert React(u.config, s.proc, e).proc.tables == m.tables;
    if e.Prepared? {
      NoEndByClaim(u, s, e, i);
    } else {
      OnlyItsOwn(u, s, e, i);
      DecideEnds(u.config, t, j, op, e);
    }
  }

  lemma OnlyItsOwn(u: Setup, s: State, e: Input, i: Intent)
    requires Inv(u, s) && !e.Call? && Ready(s.proc, e) && Plausible(u, s, e)
    requires Get(React(u.config, s.proc, e).proc.tables.rows, i) != Get(s.proc.tables.rows, i)
    ensures Focus(s.proc, e) == Some(i)
  {
    DecideFits(u, s, e);
  }

  lemma NoEndByClaim(u: Setup, s: State, e: Input, i: Intent)
    requires Inv(u, s) && e.Prepared? && Ready(s.proc, e) && Plausible(u, s, e)
    ensures Ended(React(u.config, s.proc, e).proc.tables.rows, i) ==> Ended(s.proc.tables.rows, i)
  {
    var j := s.proc.preparing[0];
    var op := s.proc.inflight[j];
    if e.tx.Got? && Matches(u.config, e.tx.value, op.stage.nonce) {
      ClaimTouches(s.proc.tables, ClaimFor(u.config, j, e.tx.value, op.stage.nonce, e.now), u.config.limits, e.disk);
    }
  }

  lemma RepairEnds(u: Setup, s: State, e: Occurrence, i: Intent)
    requires Inv(u, s) && Enabled(u, s, e) && e.Repair?
    requires !Ended(s.proc.tables.rows, i) && Ended(Apply(u, s, e).proc.tables.rows, i)
    ensures Says(ReadingOf(e).value, Get(Apply(u, s, e).proc.tables.rows, i).value)
  {
    RepairTablesKept(u, s.proc.tables, s.world, e.intent, e.receipt, e.now, e.disk);
    var row := Get(s.proc.tables.rows, e.intent);
    if row.Some? && EndingOf(e.receipt, row.value.claim.hash, e.intent, e.now).Some? {
      FinishSays(s.proc.tables, e.intent, ReadingOf(e).value, row.value.claim.hash, e.disk);
    }
  }

  lemma EndOnce(u: Setup, s: State, e: Occurrence, i: Intent)
    requires Inv(u, s) && Enabled(u, s, e)
    requires !Ended(s.proc.tables.rows, i) && Ended(Apply(u, s, e).proc.tables.rows, i)
    ensures ReadingOf(e).Some? && Says(ReadingOf(e).value, Get(Apply(u, s, e).proc.tables.rows, i).value)
  {
    if e.Deliver? && !e.input.Call? {
      DeliveryEnds(u, s, e.input, i);
    } else if e.Repair? {
      RepairEnds(u, s, e, i);
    }
  }

  /** The run's step `k` brings the receipt that says so. */
  predicate SaidAt(es: seq<Occurrence>, k: nat, row: Row) {
    k < |es| && ReadingOf(es[k]).Some? && Says(ReadingOf(es[k]).value, row)
  }

  lemma SaidLater(es: seq<Occurrence>, j: nat, row: Row) returns (k: nat)
    requires es != [] && SaidAt(es[1..], j, row)
    ensures SaidAt(es, k, row)
  {
    k := j + 1;
    assert es[1..][j] == es[k];
  }

  lemma EndsAtOnce(u: Setup, s: State, es: seq<Occurrence>, i: Intent)
    requires Inv(u, s) && es != [] && Legal(u, s, es) && !Ended(s.proc.tables.rows, i) && Ended(Apply(u, s, es[0]).proc.tables.rows, i)
    ensures Ended(Exec(u, s, es).proc.tables.rows, i) && SaidAt(es, 0, Get(Exec(u, s, es).proc.tables.rows, i).value)
  {
    InvKept(u, s, es[0]);
    EndOnce(u, s, es[0], i);
    EndedStays(u, Apply(u, s, es[0]), es[1..], i);
  }

  lemma {:induction false} EndsBySaying(u: Setup, s: State, es: seq<Occurrence>, i: Intent, last: State) returns (k: nat)
    requires Inv(u, s) && Legal(u, s, es) && last == Exec(u, s, es)
    requires !Ended(s.proc.tables.rows, i) && Ended(last.proc.tables.rows, i)
    ensures SaidAt(es, k, Get(last.proc.tables.rows, i).value)
    decreases |es|
  {
    if Ended(Apply(u, s, es[0]).proc.tables.rows, i) {
      EndsAtOnce(u, s, es, i);
      k := 0;
    } else {
      InvKept(u, s, es[0]);
      var j := EndsBySaying(u, Apply(u, s, es[0]), es[1..], i, last);
      k := SaidLater(es, j, Get(last.proc.tables.rows, i).value);
    }
  }

  /**
   * Over every run, each finished row was finished by the receipt of its own transaction that some step of
   * the run brought, at that step's time, for the gas it used and at gas times price plus the lower fee.
   */
  lemma EndingsAreReceipts(u: Setup, es: seq<Occurrence>, i: Intent) returns (k: nat)
    requires Legal(u, Start(), es) && Ended(Exec(u, Start(), es).proc.tables.rows, i)
    ensures k < |es| && ReadingOf(es[k]).Some?
    ensures var row, x := Get(Exec(u, Start(), es).proc.tables.rows, i).value, ReadingOf(es[k]).value;
            var ending, r := row.terminal.value.ending, x.receipt;
            && x.intent == i && r.hash == row.claim.hash && ending.at == x.now
            && r.gasUsed == Some(ending.gasUsed) && ending.gasUsed > 0 && r.price.Some?
            && ((r.l1Fee == Absent && ending.actualCost == ending.gasUsed * r.price.value)
                || (r.l1Fee.Readable? && ending.actualCost == ending.gasUsed * r.price.value + r.l1Fee.wei))
            && (ending.errorCode.None? <==> Credited(r.success, r.logs, i))
  {
    StartIsFine(u);
    k := EndsBySaying(u, Start(), es, i, Exec(u, Start(), es));
    var r := ReadingOf(es[k]).value.receipt;
    NoFailureIffCredited(r.success, r.logs, i);
  }

  /** Every finished row has its event, which carries the payment, its transaction and its ending. */
  ghost predicate Booked(t: Tables) {
    forall k :: 0 <= k < |t.rows| && t.rows[k].terminal.Some? ==>
      var end, i := t.rows[k].terminal.value, t.rows[k].claim.intent;
      end.id < |t.events| && t.events[end.id] == Event(t.rows[k].claim.hash, i.payer, i.payTo, i.amount, end.ending)
  }

  lemma FinishStaysBooked(t: Tables, i: Intent, e: Ending, disk: Disk)
    requires Booked(t)
    ensures Booked(FinishTxn(t, i, e, disk).tables)
  {
  }

  lemma ClaimStaysBooked(t: Tables, c: Claim, limits: Limits, disk: Disk)
    requires Booked(t)
    ensures Booked(ClaimTxn(t, c, limits, disk).tables)
  {
  }

  lemma BookedDelivery(u: Setup, s: State, e: Input)
    requires Booked(s.proc.tables) && !e.Call? && Ready(s.proc, e)
    ensures Booked(React(u.config, s.proc, e).proc.tables)
  {
    var i := Focus(s.proc, e).value;
    var op, t := s.proc.inflight[i], s.proc.tables;
    if e.Prepared? && e.tx.Got? && Matches(u.config, e.tx.value, op.stage.nonce) {
      ClaimStaysBooked(t, ClaimFor(u.config, i, e.tx.value, op.stage.nonce, e.now), u.config.limits, e.disk);
    } else if (e.ReceiptRead? && e.lookup.Got? && e.lookup.value.Found?) || (e.Waited? && e.receipt.Got?) {
      var r := if e.Waited? then e.receipt.value else e.lookup.value.receipt;
      var ending := EndingOf(r, op.stage.row.claim.hash, i, e.now);
      if ending.Some? {
        FinishStaysBooked(t, i, ending.value, e.disk);
      }
    }
  }

  lemma BookedOnce(u: Setup, s: State, e: Occurrence)
    requires Booked(s.proc.tables) && Enabled(u, s, e)
    ensures Booked(Apply(u, s, e).proc.tables)
  {
    if e.Deliver? && !e.input.Call? {
      BookedDelivery(u, s, e.input);
    } else if e.Repair? {
      var row := Get(s.proc.tables.rows, e.intent);
      if row.Some? && EndingOf(e.receipt, row.value.claim.hash, e.intent, e.now).Some? {
        FinishStaysBooked(s.proc.tables, e.intent, EndingOf(e.receipt, row.value.claim.hash, e.intent, e.now).value, e.disk);
      }
    }
  }

  /** Over every run, the ledger tells of each finished row who was paid what by whom, in which transaction, and how it ended. */
  lemma {:induction false} LedgerTells(u: Setup, s: State, es: seq<Occurrence>)
    requires Booked(s.proc.tables) && Legal(u, s, es)
    ensures Booked(Exec(u, s, es).proc.tables)
    decreases |es|
  {
    if es != [] {
      BookedOnce(u, s, es[0]);
      LedgerTells(u, Apply(u, s, es[0]), es[1..]);
    }
  }
}
