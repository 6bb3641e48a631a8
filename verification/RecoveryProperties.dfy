/**
 * What holds of every run of the settlement protocol. The lemmas named for a property speak of
 * runs from the empty journal; those they rest on speak of any state that meets the invariant.
 */
module RecoveryProperties {
  import opened Wrappers
  import opened Journal
  import opened Guards
  import opened Receipts
  import opened Recovery
  import opened RecoveryRuns

  lemma Reached(u: Setup, es: seq<Occurrence>)
    requires Legal(u, Start(), es)
    ensures Inv(u, Exec(u, Start(), es))
  {
    StartIsFine(u);
    RunsKeep(u, Start(), es);
  }

  // ---- one transaction per payment ---------------------------------------------------------

  /** Every send of an intent, in any process, carries the transaction its one row names. */
  lemma SendsCarryTheJournalledHash(u: Setup, es: seq<Occurrence>)
    requires Legal(u, Start(), es)
    ensures var s := Exec(u, Start(), es);
            && (forall i, o, tx :: Handed(i, o, tx) in s.history ==>
                  Get(s.proc.tables.rows, i).Some? && Get(s.proc.tables.rows, i).value.claim.hash == Keccak(tx))
            && (forall i, o, tx, o', tx' :: Handed(i, o, tx) in s.history && Handed(i, o', tx') in s.history ==> tx == tx')
  {
    var s := Exec(u, Start(), es);
    Reached(u, es);
    forall i, o, tx | Handed(i, o, tx) in s.history
      ensures Get(s.proc.tables.rows, i).Some? && Get(s.proc.tables.rows, i).value.claim.hash == Keccak(tx)
    {
      assert ActOk(s.proc, s.history, s.nextCall, Handed(i, o, tx));
    }
  }

  /** Answers aside, the acts of a step are those of its move. */
  lemma DurableActsAreTheMoves(p: Proc, i: Intent, m: Move, a: Act)
    requires i in p.inflight && a in Perform(p, i, m).acts && Durable(a)
    ensures a in m.acts
  {
    if m.next.Conclude? {
      var answers := AnswersTo(i, p.inflight[i], m.next.body);
      forall k: nat | k < |answers|
        ensures answers[k].Answered?
      {
        AnswersShape(i, p.inflight[i], m.next.body, k);
      }
    }
  }

  lemma HandedFits(u: Setup, s: State, i: Intent, m: Move, a: Act)
    requires i in s.proc.inflight && TablesFit(u, s.world, s.proc.tables, i, s.proc.inflight[i], m)
    requires a in m.acts && a.Handed?
    ensures Get(s.proc.tables.rows, a.intent).Some? && Get(s.proc.tables.rows, a.intent).value.claim.hash == Keccak(a.tx)
  {
  }

  /** The row a send relies on was in the journal before the step that sends. */
  lemma DurableBeforeSend(u: Setup, es: seq<Occurrence>, e: Input, a: Act)
    requires Legal(u, Start(), es) && Enabled(u, Exec(u, Start(), es), Deliver(e))
    requires a in React(u.config, Exec(u, Start(), es).proc, e).acts && a.Handed?
    ensures var rows := Exec(u, Start(), es).proc.tables.rows;
            Get(rows, a.intent).Some? && Get(rows, a.intent).value.claim.hash == Keccak(a.tx)
  {
    var s := Exec(u, Start(), es);
    Reached(u, es);
    var i := Focus(s.proc, e).value;
    var m := Decide(u.config, s.proc.tables, i, s.proc.inflight[i], e);
    DecideFits(u, s, e);
    DurableActsAreTheMoves(s.proc, i, m, a);
    HandedFits(u, s, i, m, a);
  }

  /** The chain never mines two transactions for one intent. */
  lemma MinedAtMostOnce(u: Setup, es: seq<Occurrence>, j: nat, k: nat)
    requires Legal(u, Start(), es) && j < k < |Exec(u, Start(), es).world.mined|
    ensures var mined := Exec(u, Start(), es).world.mined;
            mined[j].tx.call != mined[k].tx.call
  {
    Reached(u, es);
    var s := Exec(u, Start(), es);
    assert s.world.mined[j].tx in s.world.accepted && s.world.mined[k].tx in s.world.accepted;
  }

  // ---- budgets, nonces and the ledger --------------------------------------------------------

  /** Each running total is the sum of its rows' charges, and passes its limit by their excess at most. */
  lemma BudgetConserved(u: Setup, es: seq<Occurrence>, day: Series)
    requires Legal(u, Start(), es)
    ensures var t := Exec(u, Start(), es).proc.tables;
            Load(t.spent, day) == Charged(t.rows, day) <= Ceiling(u.config.limits, day) + Excess(t.rows, day)
  {
    Reached(u, es);
  }

  /** A step that adds a row leaves its day total and its payer's share within their limits. */
  lemma ClaimsStayWithinLimits(u: Setup, es: seq<Occurrence>, e: Occurrence)
    requires Legal(u, Start(), es) && Enabled(u, Exec(u, Start(), es), e)
    ensures var rows := Exec(u, Start(), es).proc.tables.rows;
            var rows' := Apply(u, Exec(u, Start(), es), e).proc.tables.rows;
            |rows'| == |rows| ||
              (&& |rows'| == |rows| + 1 && rows'[..|rows|] == rows && rows'[|rows|].terminal.None?
               && Charged(rows', TotalSeries(rows'[|rows|])) <= u.config.limits.total
               && Charged(rows', ShareSeries(rows'[|rows|])) <= u.config.limits.payer)
  {
    var s := Exec(u, Start(), es);
    Reached(u, es);
    match e {
      case Deliver(input) =>
        if input.Prepared? {
          CommitWithinLimits(u, s, input);
        } else if !input.Call? {
          DecideFits(u, s, input);
        }
      case Repair(i, r, now, disk) =>
        RepairTablesKept(u, s.proc.tables, s.world, i, r, now, disk);
      case _ =>
    }
  }

  lemma CommitWithinLimits(u: Setup, s: State, e: Input)
    requires Inv(u, s) && e.Prepared? && Ready(s.proc, e)
    ensures var rows, rows' := s.proc.tables.rows, React(u.config, s.proc, e).proc.tables.rows;
            rows' == rows ||
              (&& |rows'| == |rows| + 1 && rows'[..|rows|] == rows && rows'[|rows|].terminal.None?
               && Charged(rows', TotalSeries(rows'[|rows|])) <= u.config.limits.total
               && Charged(rows', ShareSeries(rows'[|rows|])) <= u.config.limits.payer)
  {
    var i := Focus(s.proc, e).value;
    var op := s.proc.inflight[i];
    if e.tx.Got? && Matches(u.config, e.tx.value, op.stage.nonce) {
      var c := ClaimFor(u.config, i, e.tx.value, op.stage.nonce, e.now);
      ClaimKeeps(s.proc.tables, c, u.config.limits, e.disk);
      if React(u.config, s.proc, e).proc.tables != s.proc.tables {
        assert React(u.config, s.proc, e).proc.tables.rows == s.proc.tables.rows + [NewRow(c)];
      }
    }
  }

  /** The claimed nonces run from the signer's first free one without a gap or a repeat. */
  lemma NoncesAreGapFree(u: Setup, es: seq<Occurrence>, k: nat)
    requires Legal(u, Start(), es) && k < |Exec(u, Start(), es).proc.tables.rows|
    ensures Exec(u, Start(), es).proc.tables.rows[k].claim.nonce == u.base + k
  {
    Reached(u, es);
  }

  /** One ledger event per finished row: never more events than rows, and as many when all are finished. */
  lemma EventsCountFinishedRows(u: Setup, es: seq<Occurrence>)
    requires Legal(u, Start(), es)
    ensures var t := Exec(u, Start(), es).proc.tables;
            && |t.events| == FinishedCount(t.rows) <= |t.rows|
            && (|t.events| == |t.rows| <==> forall k :: 0 <= k < |t.rows| ==> t.rows[k].terminal.Some?)
  {
    Reached(u, es);
  }

  // ---- the unmarked answer ------------------------------------------------------------------

  /** Of all the answers to one intent, at most one is unmarked. */
  lemma AtMostOneUnmarkedAnswer(u: Setup, es: seq<Occurrence>, j: nat, k: nat)
    requires Legal(u, Start(), es)
    requires var h := Exec(u, Start(), es).history;
             j < |h| && k < |h| && h[j].intent == h[k].intent && Unmarked(h[j]) && Unmarked(h[k])
    ensures j == k
  {
    Reached(u, es);
    var h := Exec(u, Start(), es).history;
    if j < k {
      assert Clash(h[j], h[k]);
    } else if k < j {
      assert Clash(h[k], h[j]);
    }
  }

  ghost predicate NoRepair(es: seq<Occurrence>) {
    forall k :: 0 <= k < |es| ==> !es[k].Repair?
  }

  lemma {:induction false} OnlyRepairsHaveNoCall(u: Setup, s: State, es: seq<Occurrence>, i: Intent)
    requires Inv(u, s) && Legal(u, s, es) && NoRepair(es) && Finished(i, None) !in s.history
    ensures Finished(i, None) !in Exec(u, s, es).history
    decreases |es|
  {
    if es != [] {
      var s' := Apply(u, s, es[0]);
      InvKept(u, s, es[0]);
      assert !es[0].Repair? && NoRepair(es[1..]);
      if es[0].Deliver? && !es[0].input.Call? {
        DecideFits(u, s, es[0].input);
        var j := Focus(s.proc, es[0].input).value;
        var m := Decide(u.config, s.proc.tables, j, s.proc.inflight[j], es[0].input);
        StepActsOwn(s.proc, j, m, m.tables.rows);
      }
      OnlyRepairsHaveNoCall(u, s', es[1..], i);
    }
  }

  /**
   * The unmarked answer went to the call that made the claim. That call also finished the row,
   * unless the repair got there first; so a coalesced call and a resumed claim are always marked.
   */
  lemma UnmarkedAnswerIsTheClaimers(u: Setup, es: seq<Occurrence>, a: Act)
    requires Legal(u, Start(), es) && a in Exec(u, Start(), es).history && Unmarked(a)
    ensures var h := Exec(u, Start(), es).history;
            && a.call == a.owner && Claimed(a.intent, a.call) in h
            && (Finished(a.intent, Some(a.call)) in h || Finished(a.intent, None) in h)
            && (NoRepair(es) ==> Finished(a.intent, Some(a.call)) in h)
            && (forall o :: Claimed(a.intent, o) in h ==> o == a.call)
  {
    var s := Exec(u, Start(), es);
    Reached(u, es);
    assert ActOk(s.proc, s.history, s.nextCall, a);
    forall o | Claimed(a.intent, o) in s.history
      ensures o == a.call
    {
      OneClaimer(s.history, a.intent, o, a.call);
    }
    if NoRepair(es) {
      StartIsFine(u);
      OnlyRepairsHaveNoCall(u, Start(), es, a.intent);
    }
  }

  // ---- a finished row stays finished -----------------------------------------------------------

  /** The row is terminal, and a live operation of its intent has not looked at the journal yet. */
  ghost predicate SettledAs(p: Proc, i: Intent, row: Row) {
    && Get(p.tables.rows, i) == Some(row) && row.terminal.Some?
    && (i in p.inflight ==> p.inflight[i].stage.Queued?)
  }

  /** All a finished intent may still be told: its row, marked, or that the journal was unreadable. */
  predicate SameOutcome(a: Act, row: Row) {
    a.Answered? && (a.body == Resolved(row, true) || (a.body.Raised? && a.body.error.Kind().StorageUnavailable?))
  }

  /** The queue reaches an operation whose row is terminal: it is over at once. */
  lemma SettledTurn(p: Proc, i: Intent, row: Row, disk: Disk)
    requires SettledAs(p, i, row) && i in p.inflight
    ensures var step := Perform(p, i, OnTurn(p.tables, i, disk));
            SettledAs(step.proc, i, row) && forall a :: a in step.acts ==> SameOutcome(a, row)
  {
    var op, m := p.inflight[i], OnTurn(p.tables, i, disk);
    forall k: nat | k < |AnswersTo(i, op, m.next.body)|
      ensures SameOutcome(AnswersTo(i, op, m.next.body)[k], row)
    {
      AnswersShape(i, op, m.next.body, k);
    }
  }

  lemma SettledBeside(p: Proc, j: Intent, m: Move, i: Intent, row: Row)
    requires SettledAs(p, i, row) && j in p.inflight && j != i && Touches(p.tables.rows, m.tables.rows, j)
    ensures SettledAs(Perform(p, j, m).proc, i, row)
  {
  }

  lemma SettledStep(u: Setup, s: State, e: Input, i: Intent, row: Row)
    requires Inv(u, s) && SettledAs(s.proc, i, row) && !e.Call? && Ready(s.proc, e) && Plausible(u, s, e)
    ensures var step := React(u.config, s.proc, e);
            SettledAs(step.proc, i, row) && forall a :: a in step.acts && a.intent == i ==> SameOutcome(a, row)
  {
    var j := Focus(s.proc, e).value;
    if j == i {
      SettledTurn(s.proc, i, row, e.disk);
    } else {
      var m := Decide(u.config, s.proc.tables, j, s.proc.inflight[j], e);
      DecideFits(u, s, e);
      StepActsOwn(s.proc, j, m, m.tables.rows);
      SettledBeside(s.proc, j, m, i, row);
    }
  }

  lemma RepairLeavesEnded(u: Setup, s: State, e: Occurrence, i: Intent)
    requires Inv(u, s) && e.Repair? && Enabled(u, s, e) && Ended(s.proc.tables.rows, i)
    ensures Get(Apply(u, s, e).proc.tables.rows, i) == Get(s.proc.tables.rows, i)
    ensures e.intent == i ==> Apply(u, s, e).history == s.history
  {
    RepairTablesKept(u, s.proc.tables, s.world, e.intent, e.receipt, e.now, e.disk);
  }

  /** The row stands, and every answer to its intent that was added to the history is that row, or not-ready. */
  ghost predicate StaysSettled(s: State, s': State, i: Intent, row: Row) {
    && SettledAs(s'.proc, i, row) && |s'.history| >= |s.history| && s'.history[..|s.history|] == s.history
    && forall k :: |s.history| <= k < |s'.history| && s'.history[k].intent == i ==> SameOutcome(s'.history[k], row)
  }

  lemma SettledGrows(s: State, s': State, acts: seq<Act>, i: Intent, row: Row)
    requires SettledAs(s'.proc, i, row) && s'.history == s.history + acts
    requires forall a :: a in acts && a.intent == i ==> SameOutcome(a, row)
    ensures StaysSettled(s, s', i, row)
  {
    forall k | |s.history| <= k < |s'.history| && s'.history[k].intent == i
      ensures SameOutcome(s'.history[k], row)
    {
      assert s'.history[k] == acts[k - |s.history|];
    }
  }

  lemma SettledDelivery(u: Setup, s: State, e: Input, i: Intent, row: Row)
    requires Inv(u, s) && SettledAs(s.proc, i, row) && Enabled(u, s, Deliver(e)) && !e.Call?
    ensures StaysSettled(s, Apply(u, s, Deliver(e)), i, row)
  {
    SettledStep(u, s, e, i, row);
    SettledGrows(s, Apply(u, s, Deliver(e)), React(u.config, s.proc, e).acts, i, row);
  }

  lemma SettledRepair(u: Setup, s: State, e: Occurrence, i: Intent, row: Row)
    requires Inv(u, s) && SettledAs(s.proc, i, row) && Enabled(u, s, e) && e.Repair?
    ensures StaysSettled(s, Apply(u, s, e), i, row)
  {
    RepairLeavesEnded(u, s, e, i);
  }

  lemma SettledOnce(u: Setup, s: State, e: Occurrence, i: Intent, row: Row)
    requires Inv(u, s) && SettledAs(s.proc, i, row) && Enabled(u, s, e)
    ensures StaysSettled(s, Apply(u, s, e), i, row)
  {
    if e.Deliver? && !e.input.Call? {
      SettledDelivery(u, s, e.input, i, row);
    } else if e.Repair? {
      SettledRepair(u, s, e, i, row);
    }
  }

  /**
   * Once the row is terminal, whatever happens next every answer to its intent is that row, marked,
   * or not-ready; nothing is claimed, sent or finished for it, and no operation prepares it again.
   */
  lemma {:induction false} TerminalAnswersAreStable(u: Setup, s: State, es: seq<Occurrence>, i: Intent, row: Row)
    requires Inv(u, s) && SettledAs(s.proc, i, row) && Legal(u, s, es)
    ensures StaysSettled(s, Exec(u, s, es), i, row)
    decreases |es|
  {
    if es != [] {
      var s1 := Apply(u, s, es[0]);
      SettledOnce(u, s, es[0], i, row);
      InvKept(u, s, es[0]);
      TerminalAnswersAreStable(u, s1, es[1..], i, row);
      var s' := Exec(u, s, es);
      assert forall k :: 0 <= k < |s1.history| ==> s'.history[k] == s'.history[..|s1.history|][k];
    }
  }

  /** Without a repair beside it, the process never works on a row that is already terminal. */
  ghost predicate NoLateWork(p: Proc) {
    forall i :: i in p.inflight && Ended(p.tables.rows, i) ==> p.inflight[i].stage.Queued?
  }

  /** An operation goes on only from a row that is still open. */
  lemma ParkedIsOpen(c: Config, t: Tables, i: Intent, op: Op, e: Input)
    requires Resumes(e, op.stage) && (!op.stage.Queued? ==> !Ended(t.rows, i))
    requires op.stage.AskedPrepare? ==> Get(t.rows, i).None?
    requires e.Prepared? && e.tx.Got? ==> e.tx.value.call == i
    ensures var m := Decide(c, t, i, op, e);
            m.next.Park? ==> !Ended(m.tables.rows, i)
  {
    if e.Prepared? && e.tx.Got? && Matches(c, e.tx.value, op.stage.nonce) {
      ClaimTouches(t, ClaimFor(c, i, e.tx.value, op.stage.nonce, e.now), c.limits, e.disk);
    }
  }

  lemma LateWorkKept(p: Proc, i: Intent, m: Move)
    requires NoLateWork(p) && i in p.inflight && Touches(p.tables.rows, m.tables.rows, i)
    requires m.next.Park? ==> !Ended(m.tables.rows, i)
    ensures NoLateWork(Perform(p, i, m).proc)
  {
  }

  lemma LateWorkOnce(u: Setup, s: State, e: Occurrence)
    requires Inv(u, s) && NoLateWork(s.proc) && Enabled(u, s, e) && !e.Repair?
    ensures NoLateWork(Apply(u, s, e).proc)
  {
    if e.Deliver? && !e.input.Call? {
      var i := Focus(s.proc, e.input).value;
      var op := s.proc.inflight[i];
      assert OpOk(u, s.proc.tables.rows, s.history, s.nextCall, i, op);
      DecideFits(u, s, e.input);
      ParkedIsOpen(u.config, s.proc.tables, i, op, e.input);
      LateWorkKept(s.proc, i, Decide(u.config, s.proc.tables, i, op, e.input));
    }
  }

  lemma {:induction false} TerminalRowsAreLeftAlone(u: Setup, s: State, es: seq<Occurrence>)
    requires Inv(u, s) && NoLateWork(s.proc) && Legal(u, s, es) && NoRepair(es)
    ensures NoLateWork(Exec(u, s, es).proc)
    decreases |es|
  {
    if es != [] {
      assert !es[0].Repair? && NoRepair(es[1..]);
      LateWorkOnce(u, s, es[0]);
      InvKept(u, s, es[0]);
      TerminalRowsAreLeftAlone(u, Apply(u, s, es[0]), es[1..]);
    }
  }

  /** The end of a run without repairs leaves every finished intent to its row for good. */
  lemma EveryLaterSettleAgrees(u: Setup, es: seq<Occurrence>, fs: seq<Occurrence>, i: Intent)
    requires Legal(u, Start(), es) && NoRepair(es) && Legal(u, Exec(u, Start(), es), fs)
    requires Ended(Exec(u, Start(), es).proc.tables.rows, i)
    ensures var s, s' := Exec(u, Start(), es), Exec(u, Exec(u, Start(), es), fs);
            var row := Get(s.proc.tables.rows, i).value;
            && Get(s'.proc.tables.rows, i) == Some(row) && |s'.history| >= |s.history|
            && forall k :: |s.history| <= k < |s'.history| && s'.history[k].intent == i ==> SameOutcome(s'.history[k], row)
  {
    Reached(u, es);
    StartIsFine(u);
    TerminalRowsAreLeftAlone(u, Start(), es);
    var s := Exec(u, Start(), es);
    TerminalAnswersAreStable(u, s, fs, i, Get(s.proc.tables.rows, i).value);
  }

  // ---- recovery converges ---------------------------------------------------------------------

  /** How the receipt reaches the call: it was there already, or only after sending again. */
  datatype Path = Seen | Resent(tx: Tx)

  function SendAgain(i: Intent, tx: Tx, now: nat, rest: seq<Occurrence>): seq<Occurrence> {
    [Deliver(ReceiptRead(i, Got(Nothing), now, Healthy))]
    + ([Deliver(Restored(i, Got(tx)))] + ([Deliver(SendReturned(i))] + rest))
  }

  function Looking(i: Intent, r: Receipt, now: nat, path: Path): seq<Occurrence> {
    match path
    case Seen => [Deliver(ReceiptRead(i, Got(Found(r)), now, Healthy))]
    case Resent(tx) => SendAgain(i, tx, now, [Deliver(Waited(i, Got(r), now, Healthy))])
  }

  /** One call from its arrival to its answer, with nothing in between. */
  function Recovering(call: CallId, i: Intent, r: Receipt, now: nat, path: Path): seq<Occurrence> {
    [Deliver(Call(call, i))] + ([Deliver(Turn(Healthy))] + Looking(i, r, now, path))
  }

  /** A receipt that closes the row: its own transaction's, with readable fees. */
  ghost predicate Closes(w: World, row: Row, r: Receipt, now: nat) {
    r.hash == row.claim.hash && ActualCost(r).Some? && now <= MAX_SAFE && Honest(w, row.claim.hash, r)
  }

  /** The state with only the operation of `i` moved on. */
  function At(s: State, i: Intent, op: Op): State {
    s.(proc := s.proc.(inflight := s.proc.inflight[i := op]))
  }

  lemma RunsInto(u: Setup, s: State, e: Occurrence, rest: seq<Occurrence>)
    requires Enabled(u, s, e) && Legal(u, Apply(u, s, e), rest)
    ensures Legal(u, s, [e] + rest) && Exec(u, s, [e] + rest) == Exec(u, Apply(u, s, e), rest)
  {
    assert ([e] + rest)[1..] == rest;
  }

  /** The closing step commits the receipt's cost to the row and answers every caller with it. */
  lemma ClosingStep(u: Setup, s: State, i: Intent, op: Op, row: Row, r: Receipt, now: nat)
    requires Sound(s.proc.tables, u.config.limits) && i in s.proc.inflight && s.proc.inflight[i] == op
    requires !op.stage.Preparing() && op.stage.row.claim == row.claim
    requires Get(s.proc.tables.rows, i) == Some(row) && row.terminal.None? && Closes(s.world, row, r, now)
    ensures var step := Perform(s.proc, i, Close(s.proc.tables, i, op, r, now, Healthy));
            var t, t' := s.proc.tables, step.proc.tables;
            var ended := row.(terminal := Some(Terminal(|t.events|, EndingOf(r, row.claim.hash, i, now).value)));
            && Get(t'.rows, i) == Some(ended)
            && |t'.rows| == |t.rows| && |t'.events| == |t.events| + 1
            && (forall j :: j != i ==> Get(t'.rows, j) == Get(t.rows, j))
            && step.acts == [Finished(i, Some(op.owner))] + AnswersTo(i, op, Resolved(ended, op.replayed))
  {
    var t := s.proc.tables;
    var ending := EndingOf(r, row.claim.hash, i, now).value;
    FinishLands(t, i, ending, u.config.limits);
    FinishTouches(t, i, ending, Healthy);
  }

  /** What a recovery leaves behind. */
  ghost predicate Recovered(s: State, s': State, i: Intent, r: Receipt, now: nat, path: Path) {
    var t, t', call := s.proc.tables, s'.proc.tables, s.nextCall;
    Get(t.rows, i).Some? && EndingOf(r, Get(t.rows, i).value.claim.hash, i, now).Some? &&
    var row := Get(t.rows, i).value.(terminal := Some(Terminal(|t.events|, EndingOf(r, Get(t.rows, i).value.claim.hash, i, now).value)));
    && Get(t'.rows, i) == Some(row)
    && |t'.rows| == |t.rows| && |t'.events| == |t.events| + 1
    && (forall j :: j != i ==> Get(t'.rows, j) == Get(t.rows, j))
    && s'.history == s.history + (if path.Resent? then [Handed(i, call, path.tx)] else [])
                     + [Finished(i, Some(call)), Answered(call, i, call, Resolved(row, true))]
  }

  /** `s` is `s0` with the call suspended on its row, after sending what the path sends. */
  ghost predicate Suspended(s: State, s0: State, i: Intent, row: Row, stage: Stage, sent: seq<Act>) {
    && s.proc.tables == s0.proc.tables && s.world == s0.world && s.history == s0.history + sent
    && i in s.proc.inflight && s.proc.inflight[i] == Op(s0.nextCall, [], stage, true)
  }

  lemma LastStep(u: Setup, s: State, s0: State, i: Intent, row: Row, r: Receipt, now: nat, path: Path)
    requires Sound(s0.proc.tables, u.config.limits) && Get(s0.proc.tables.rows, i) == Some(row) && row.terminal.None?
    requires path.Resent? ==> Keccak(path.tx) == row.claim.hash
    requires match path case Seen => Suspended(s, s0, i, row, AskedReceipt(row), [])
                        case Resent(tx) => Suspended(s, s0, i, row, Waiting(row), [Handed(i, s0.nextCall, tx)])
    requires Closes(s.world, row, r, now)
    ensures var e := if path.Seen? then ReceiptRead(i, Got(Found(r)), now, Healthy) else Waited(i, Got(r), now, Healthy);
            Enabled(u, s, Deliver(e)) && Recovered(s0, Apply(u, s, Deliver(e)), i, r, now, path)
  {
    var op := s.proc.inflight[i];
    ClosingStep(u, s, i, op, row, r, now);
    var b := Resolved(row.(terminal := Some(Terminal(|s0.proc.tables.events|, EndingOf(r, row.claim.hash, i, now).value))), true);
    assert AnswersTo(i, op, b) == [Answered(op.owner, i, op.owner, b)];
  }

  function Sent(s: State, i: Intent, row: Row, call: CallId, tx: Tx): State {
    At(s, i, Op(call, [], Waiting(row), true)).(history := s.history + [Handed(i, call, tx)])
  }

  lemma SendingAgain(u: Setup, s: State, s0: State, i: Intent, row: Row, tx: Tx, now: nat, rest: seq<Occurrence>)
    requires Suspended(s, s0, i, row, AskedReceipt(row), []) && Keccak(tx) == row.claim.hash
    requires Legal(u, Sent(s, i, row, s0.nextCall, tx), rest)
    ensures var es := SendAgain(i, tx, now, rest);
            Legal(u, s, es) && Exec(u, s, es) == Exec(u, Sent(s, i, row, s0.nextCall, tx), rest)
  {
    var e1, e2, e3 := Deliver(ReceiptRead(i, Got(Nothing), now, Healthy)), Deliver(Restored(i, Got(tx))), Deliver(SendReturned(i));
    var op := s.proc.inflight[i];
    var s1 := At(s, i, op.(stage := AskedRestore(row)));
    assert Apply(u, s, e1) == s1;
    var s2 := At(s1, i, op.(stage := Sending(row))).(history := s.history + [Handed(i, s0.nextCall, tx)]);
    assert Apply(u, s1, e2) == s2;
    assert Apply(u, s2, e3) == Sent(s, i, row, s0.nextCall, tx);
    RunsInto(u, s2, e3, rest);
    RunsInto(u, s1, e2, [e3] + rest);
    RunsInto(u, s, e1, [e2] + ([e3] + rest));
  }

  lemma SeenFinishes(u: Setup, s: State, s0: State, i: Intent, row: Row, r: Receipt, now: nat)
    requires Sound(s0.proc.tables, u.config.limits) && Get(s0.proc.tables.rows, i) == Some(row) && row.terminal.None?
    requires Suspended(s, s0, i, row, AskedReceipt(row), []) && Closes(s.world, row, r, now)
    ensures Legal(u, s, Looking(i, r, now, Seen)) && Recovered(s0, Exec(u, s, Looking(i, r, now, Seen)), i, r, now, Seen)
  {
    var e := Deliver(ReceiptRead(i, Got(Found(r)), now, Healthy));
    LastStep(u, s, s0, i, row, r, now, Seen);
    RunsInto(u, s, e, []);
    assert Looking(i, r, now, Seen) == [e] + [];
  }

  lemma ResentFinishes(u: Setup, s: State, s0: State, i: Intent, row: Row, r: Receipt, now: nat, tx: Tx)
    requires Sound(s0.proc.tables, u.config.limits) && Get(s0.proc.tables.rows, i) == Some(row) && row.terminal.None?
    requires Suspended(s, s0, i, row, AskedReceipt(row), []) && Closes(s.world, row, r, now) && Keccak(tx) == row.claim.hash
    ensures Legal(u, s, Looking(i, r, now, Resent(tx)))
    ensures Recovered(s0, Exec(u, s, Looking(i, r, now, Resent(tx))), i, r, now, Resent(tx))
  {
    var s3 := Sent(s, i, row, s0.nextCall, tx);
    var last := Deliver(Waited(i, Got(r), now, Healthy));
    LastStep(u, s3, s0, i, row, r, now, Resent(tx));
    RunsInto(u, s3, last, []);
    assert [last] + [] == [last];
    SendingAgain(u, s, s0, i, row, tx, now, [last]);
  }

  /** The call finds its row in the journal and asks for the receipt. */
  lemma OpeningSteps(u: Setup, s: State, i: Intent, row: Row, rest: seq<Occurrence>)
    requires s.proc.preparing == [] && i !in s.proc.inflight
    requires Get(s.proc.tables.rows, i) == Some(row) && row.terminal.None?
    requires var s2 := At(s, i, Op(s.nextCall, [], AskedReceipt(row), true)).(nextCall := s.nextCall + 1);
             Legal(u, s2, rest)
    ensures var s2 := At(s, i, Op(s.nextCall, [], AskedReceipt(row), true)).(nextCall := s.nextCall + 1);
            var es := [Deliver(Call(s.nextCall, i))] + ([Deliver(Turn(Healthy))] + rest);
            Legal(u, s, es) && Exec(u, s, es) == Exec(u, s2, rest)
  {
    var e1, e2 := Deliver(Call(s.nextCall, i)), Deliver(Turn(Healthy));
    var s1 := Apply(u, s, e1);
    assert s1.proc.preparing == [i] && s1.history == s.history;
    assert Apply(u, s1, e2) == At(s, i, Op(s.nextCall, [], AskedReceipt(row), true)).(nextCall := s.nextCall + 1);
    RunsInto(u, s1, e2, rest);
    RunsInto(u, s, e1, [e2] + rest);
  }

  /**
   * One uninterrupted call for an unfinished row finishes it from its receipt: the same row, no new
   * row, no new hash, one more ledger event, and the answer marked as an earlier attempt's.
   */
  lemma RecoveryConverges(u: Setup, s: State, i: Intent, r: Receipt, now: nat, path: Path)
    requires Inv(u, s) && s.proc.preparing == [] && i !in s.proc.inflight
    requires Get(s.proc.tables.rows, i).Some? && !Ended(s.proc.tables.rows, i)
    requires Closes(s.world, Get(s.proc.tables.rows, i).value, r, now)
    requires path.Resent? ==> Keccak(path.tx) == Get(s.proc.tables.rows, i).value.claim.hash
    ensures Legal(u, s, Recovering(s.nextCall, i, r, now, path))
    ensures Recovered(s, Exec(u, s, Recovering(s.nextCall, i, r, now, path)), i, r, now, path)
  {
    var row := Get(s.proc.tables.rows, i).value;
    var s2 := At(s, i, Op(s.nextCall, [], AskedReceipt(row), true)).(nextCall := s.nextCall + 1);
    assert s2.history == s.history + [];
    if path.Seen? {
      SeenFinishes(u, s2, s, i, row, r, now);
    } else {
      ResentFinishes(u, s2, s, i, row, r, now, path.tx);
    }
    OpeningSteps(u, s, i, row, Looking(i, r, now, path));
  }

  /** From any reachable state with an unfinished row, a restart and one such call are enough. */
  lemma RestartRecovers(u: Setup, es: seq<Occurrence>, i: Intent, r: Receipt, now: nat, path: Path)
    requires Legal(u, Start(), es)
    requires var s := Exec(u, Start(), es);
             && Get(s.proc.tables.rows, i).Some? && !Ended(s.proc.tables.rows, i)
             && Closes(s.world, Get(s.proc.tables.rows, i).value, r, now)
             && (path.Resent? ==> Keccak(path.tx) == Get(s.proc.tables.rows, i).value.claim.hash)
    ensures var s := Exec(u, Start(), es);
            var fs := [Crash] + Recovering(s.nextCall, i, r, now, path);
            Legal(u, s, fs) && Recovered(s, Exec(u, s, fs), i, r, now, path)
  {
    var s := Exec(u, Start(), es);
    Reached(u, es);
    AroundKept(u, s, Crash);
    RecoveryConverges(u, Apply(u, s, Crash), i, r, now, path);
    RunsInto(u, s, Crash, Recovering(s.nextCall, i, r, now, path));
  }
}
