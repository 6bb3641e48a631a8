/**
 * What a caller can be told, with exact conditions: when every later answer about a finished payment
 * is its row, when an answer after a claim is not-ready, and who finished the row behind the unmarked one.
 */
module RecoveryAnswers {
  import opened Wrappers
  import opened Journal
  import opened Guards
  import opened Receipts
  import opened Recovery
  import opened RecoveryRuns
  import opened RecoveryProperties

  // ---- later answers about a finished row ------------------------------------------------------------------

  /** Whatever was added to the history answers `i` with the row, marked, or with not-ready. */
  ghost predicate SameAnswers(s: State, s': State, i: Intent, row: Row) {
    && |s'.history| >= |s.history|
    && forall k :: |s.history| <= k < |s'.history| && s'.history[k].intent == i && s'.history[k].Answered? ==>
         SameOutcome(s'.history[k], row)
  }

  const LOST := Raise(Other)

  /** The answers that make an operation past its claim give up. */
  function GivingUp(i: Intent, stage: Stage): seq<Occurrence>
    requires !stage.Preparing()
  {
    var wait := Deliver(Waited(i, Failed(LOST), 0, Healthy));
    match stage
    case AskedReceipt(_) => [Deliver(ReceiptRead(i, Failed(LOST), 0, Healthy))]
    case AskedRestore(_) => [Deliver(Restored(i, Failed(LOST)))]
    case Sending(_) => [Deliver(SendReturned(i))] + [wait]
    case _ => [wait]
  }

  lemma PendingAnswer(p: Proc, i: Intent, row: Row)
    requires i in p.inflight
    ensures var step := Perform(p, i, Move(p.tables, PendingOn(row), []));
            step.acts != [] && step.acts[0] == Answered(p.inflight[i].owner, i, p.inflight[i].owner, Raised(Raise(Pending(row.claim.hash))))
  {
  }

  lemma GivesUp(u: Setup, s: State, i: Intent)
    requires i in s.proc.inflight && !s.proc.inflight[i].stage.Preparing() && !s.proc.inflight[i].stage.Sending?
    ensures var es := GivingUp(i, s.proc.inflight[i].stage);
            var hash := s.proc.inflight[i].stage.row.claim.hash;
            && Legal(u, s, es) && |Exec(u, s, es).history| > |s.history|
            && Exec(u, s, es).history[|s.history|]
               == Answered(s.proc.inflight[i].owner, i, s.proc.inflight[i].owner, Raised(Raise(Pending(hash))))
  {
    var es := GivingUp(i, s.proc.inflight[i].stage);
    assert Enabled(u, s, es[0]) && es == [es[0]] + [];
    RunsInto(u, s, es[0], []);
    PendingAnswer(s.proc, i, s.proc.inflight[i].stage.row);
  }

  lemma SendGivesUp(u: Setup, s: State, i: Intent)
    requires i in s.proc.inflight && s.proc.inflight[i].stage.Sending?
    ensures var es := GivingUp(i, s.proc.inflight[i].stage);
            var hash := s.proc.inflight[i].stage.row.claim.hash;
            && Legal(u, s, es) && |Exec(u, s, es).history| > |s.history|
            && Exec(u, s, es).history[|s.history|]
               == Answered(s.proc.inflight[i].owner, i, s.proc.inflight[i].owner, Raised(Raise(Pending(hash))))
  {
    var e := Deliver(SendReturned(i));
    var s1 := Apply(u, s, e);
    assert s1.history == s.history;
    GivesUp(u, s1, i);
    RunsInto(u, s, e, GivingUp(i, s1.proc.inflight[i].stage));
  }

  /**
   * From a state in which the row is finished, every continuation answers its intent with that row alone
   * if and only if no operation of the intent is past its claim. Only a repair can finish the row of one
   * that is; if its own lookup or wait then fails, it still answers settlement_pending.
   */
  lemma AnswersStableIff(u: Setup, s: State, i: Intent, row: Row)
    requires Inv(u, s) && Get(s.proc.tables.rows, i) == Some(row) && row.terminal.Some?
    ensures (forall es :: Legal(u, s, es) ==> SameAnswers(s, Exec(u, s, es), i, row))
            <==> (i in s.proc.inflight ==> s.proc.inflight[i].stage.Queued?)
  {
    if i in s.proc.inflight && !s.proc.inflight[i].stage.Queued? {
      var stage := s.proc.inflight[i].stage;
      assert OpOk(u, s.proc.tables.rows, s.history, s.nextCall, i, s.proc.inflight[i]);
      var es := GivingUp(i, stage);
      if stage.Sending? {
        SendGivesUp(u, s, i);
      } else {
        GivesUp(u, s, i);
      }
      assert Legal(u, s, es) && !SameAnswers(s, Exec(u, s, es), i, row);
    } else {
      forall es | Legal(u, s, es)
        ensures SameAnswers(s, Exec(u, s, es), i, row)
      {
        TerminalAnswersAreStable(u, s, es, i, row);
      }
    }
  }

  lemma EndedStaysInStep(u: Setup, s: State, e: Input, i: Intent)
    requires Inv(u, s) && !e.Call? && Enabled(u, s, Deliver(e)) && Ended(s.proc.tables.rows, i)
    ensures Get(React(u.config, s.proc, e).proc.tables.rows, i) == Get(s.proc.tables.rows, i)
  {
    DecideFits(u, s, e);
  }

  lemma EndedStaysOnce(u: Setup, s: State, e: Occurrence, i: Intent)
    requires Inv(u, s) && Enabled(u, s, e) && Ended(s.proc.tables.rows, i)
    ensures Get(Apply(u, s, e).proc.tables.rows, i) == Get(s.proc.tables.rows, i)
    ensures |Apply(u, s, e).history| >= |s.history| && Apply(u, s, e).history[..|s.history|] == s.history
  {
    if e.Deliver? && !e.input.Call? {
      EndedStaysInStep(u, s, e.input, i);
    } else if e.Repair? {
      RepairLeavesEnded(u, s, e, i);
    }
  }

  lemma {:induction false} EndedStays(u: Setup, s: State, es: seq<Occurrence>, i: Intent)
    requires Inv(u, s) && Legal(u, s, es) && Ended(s.proc.tables.rows, i)
    ensures Get(Exec(u, s, es).proc.tables.rows, i) == Get(s.proc.tables.rows, i)
    ensures |Exec(u, s, es).history| >= |s.history| && Exec(u, s, es).history[..|s.history|] == s.history
    decreases |es|
  {
    if es != [] {
      var s1 := Apply(u, s, es[0]);
      EndedStaysOnce(u, s, es[0], i);
      InvKept(u, s, es[0]);
      EndedStays(u, s1, es[1..], i);
      PrefixOfPrefix(s.history, s1.history, Exec(u, s1, es[1..]).history);
    }
  }

  lemma PrefixOfPrefix(a: seq<Act>, b: seq<Act>, c: seq<Act>)
    requires |a| <= |b| <= |c| && b[..|a|] == a && c[..|b|] == b
    ensures c[..|a|] == a
  {
    assert c[..|b|][..|a|] == c[..|a|];
  }

  lemma NotRefusedAgain(h: seq<Act>, i: Intent, j: nat, k: nat)
    requires Once(h) && j < k < |h| && h[j].intent == i && h[k].intent == i && Durable(h[j])
    ensures !Refused(h[k])
  {
    assert !Clash(h[j], h[k]);
  }

  /** The end of a row stands in the history: some call, or the repair, finished it. */
  lemma EndIsInHistory(rows: seq<Row>, h: seq<Act>, i: Intent) returns (j: nat)
    requires Accounted(rows, h) && Ended(rows, i)
    ensures j < |h| && h[j].Finished? && h[j].intent == i
  {
    if Finished(i, None) in h {
      j :| 0 <= j < |h| && h[j] == Finished(i, None);
    } else {
      var o :| Finished(i, Some(o)) in h;
      j :| 0 <= j < |h| && h[j] == Finished(i, Some(o));
    }
  }

  /** Whoever is answered after the row is finished is told the row, its hash as pending, or not-ready. */
  lemma LaterAnswersNameTheRow(u: Setup, s: State, es: seq<Occurrence>, i: Intent, k: nat)
    requires Inv(u, s) && Legal(u, s, es) && Ended(s.proc.tables.rows, i)
    requires |s.history| <= k < |Exec(u, s, es).history|
    requires Exec(u, s, es).history[k].intent == i && Exec(u, s, es).history[k].Answered?
    ensures var row, b := Get(s.proc.tables.rows, i).value, Exec(u, s, es).history[k].body;
            match b
            case Resolved(r, _) => r == row
            case Raised(e) => e.Kind() == Pending(row.claim.hash) || e.Kind().StorageUnavailable?
  {
    var s' := Exec(u, s, es);
    RunsKeep(u, s, es);
    EndedStays(u, s, es, i);
    assert ActOk(s'.proc, s'.history, s'.nextCall, s'.history[k]);
    var j := EndIsInHistory(s.proc.tables.rows, s.history, i);
    assert s'.history[j] == s'.history[..|s.history|][j] == s.history[j];
    NotRefusedAgain(s'.history, i, j, k);
  }

  // ---- not-ready after a claim -----------------------------------------------------------------------------

  predicate SaysNotReady(b: Body) { b.Raised? && DescribeFailure(b.error, Settle).NotReady? }

  /** The day's running total of everyone, and of one payer. */
  function TotalOn(t: Tables, day: nat): nat { Load(t.spent, Series(Total, day)) }

  function ShareOn(t: Tables, payer: Address, day: nat): nat { Load(t.spent, Series(Payer(payer), day)) }

  /** The payer's share of the claim's day has room for the most the transaction can cost. */
  predicate ShareFits(t: Tables, c: Claim, limits: Limits) {
    ShareOn(t, c.intent.payer, c.createdAt / DAY_MS) + c.gas * c.maxFee <= limits.payer
  }

  predicate TotalFits(t: Tables, c: Claim, limits: Limits) {
    TotalOn(t, c.createdAt / DAY_MS) + c.gas * c.maxFee <= limits.total
  }

  /** Both of the day's totals have room for the claim. */
  predicate Fits(t: Tables, c: Claim, limits: Limits) { ShareFits(t, c, limits) && TotalFits(t, c, limits) }

  /** An instant a date can hold, some gas, a tip within the maximum fee, and limits the payer's within the total. */
  predicate Payable(c: Claim, limits: Limits) {
    c.createdAt <= 8_640_000_000_000_000 && c.gas > 0 && c.priority <= c.maxFee && 0 < limits.payer <= limits.total
  }

  /** Neither its transaction nor its nonce has been claimed, and the columns can hold its numbers. */
  predicate Storable(t: Tables, c: Claim) {
    && (forall k :: 0 <= k < |t.rows| ==>
          var other := t.rows[k].claim;
          other.hash != c.hash && !(other.chainId == c.chainId && other.signer == c.signer && other.nonce == c.nonce))
    && c.chainId <= 9_007_199_254_740_991 && c.nonce <= 9_007_199_254_740_991
  }

  /** A claim the journal takes, as far as it can be seen before it is made. */
  predicate Claimable(t: Tables, c: Claim, limits: Limits) {
    Get(t.rows, c.intent).None? && Payable(c, limits) && Fits(t, c, limits) && Storable(t, c)
  }

  /** Such a claim is committed and its answer lost by the disk. */
  predicate LosesClaim(c: Config, p: Proc, e: Input)
    requires Ready(p, e)
  {
    && e.Prepared? && e.tx.Got? && e.disk.LostAfter?
    && var i := p.preparing[0];
       var nonce := p.inflight[i].stage.nonce;
       Matches(c, e.tx.value, nonce) && Claimable(p.tables, ClaimFor(c, i, e.tx.value, nonce, e.now), c.limits)
  }

  lemma ClaimLandsIff(t: Tables, c: Claim, limits: Limits, disk: Disk)
    ensures ClaimTxn(t, c, limits, disk).tables != t <==> !disk.LostBefore? && Claimable(t, c, limits)
    ensures ClaimTxn(t, c, limits, disk).tables != t ==>
              ClaimTxn(t, c, limits, disk).reply == if disk.LostAfter? then Threw else Kept(NewRow(c))
  {
    if Claimable(t, c, limits) {
      assert |Reserve(t, NewRow(c)).rows| == |t.rows| + 1;
    }
  }

  /** What becomes of a claim the disk takes: the known row, the payer's refusal before the day's, or an error. */
  lemma ClaimIsAnswered(t: Tables, c: Claim, limits: Limits)
    ensures var reply := ClaimTxn(t, c, limits, Healthy).reply;
            var known := Get(t.rows, c.intent);
            && (known.Some? ==> reply == Kept(known.value))
            && (known.None? && Payable(c, limits) ==>
                  && (reply == OverBudget("payer_budget_exhausted") <==> !ShareFits(t, c, limits))
                  && (reply == OverBudget("budget_exhausted") <==> ShareFits(t, c, limits) && !TotalFits(t, c, limits)))
            && (reply == Threw <==> known.None? && !Claimable(t, c, limits) && (Payable(c, limits) ==> Fits(t, c, limits)))
  {
    assert "payer_budget_exhausted"[0] == 'p' && "budget_exhausted"[0] == 'b';
  }

  /** In one step: a committed row stands behind a not-ready answer exactly when the disk lost a claimable claim. */
  lemma NotReadyHidesARowIff(c: Config, t: Tables, i: Intent, op: Op, tx: Tx, now: nat, disk: Disk)
    requires op.stage.AskedPrepare? && Matches(c, tx, op.stage.nonce) && tx.call == i
    ensures var m := OnPrepared(c, t, i, op, Got(tx), true, now, disk);
            (m.next == NotStored() && Claimed(i, op.owner) in m.acts)
            <==> disk.LostAfter? && Claimable(t, ClaimFor(c, i, tx, op.stage.nonce, now), c.limits)
  {
    ClaimLandsIff(t, ClaimFor(c, i, tx, op.stage.nonce, now), c.limits, disk);
  }

  lemma PreparedIsTold(c: Config, t: Tables, i: Intent, op: Op, e: Input)
    requires op.stage.AskedPrepare? && e.Prepared?
    requires e.tx.Got? ==> e.tx.value.call == i
    ensures var m := OnPrepared(c, t, i, op, e.tx, e.guarded, e.now, e.disk);
            var loses := e.tx.Got? && e.disk.LostAfter? && Matches(c, e.tx.value, op.stage.nonce)
                         && Claimable(t, ClaimFor(c, i, e.tx.value, op.stage.nonce, e.now), c.limits);
            && (loses ==> m.next.Conclude? && m.acts == [Claimed(i, op.owner)])
            && (m.next.Conclude? && Claimed(i, op.owner) in m.acts ==> (SaysNotReady(m.next.body) <==> loses))
  {
    if e.tx.Got? && Matches(c, e.tx.value, op.stage.nonce) {
      ClaimLandsIff(t, ClaimFor(c, i, e.tx.value, op.stage.nonce, e.now), c.limits, e.disk);
    }
  }

  /** An operation past its claim never answers not-ready, and one before its claim has not claimed. */
  lemma OthersAreTold(c: Config, t: Tables, i: Intent, op: Op, e: Input)
    requires Resumes(e, op.stage) && !e.Prepared?
    ensures var m := Decide(c, t, i, op, e);
            && (m.next.Conclude? && !op.stage.Preparing() ==> !SaysNotReady(m.next.body))
            && (op.stage.Preparing() ==> m.acts == [])
  {
  }

  /** What a step answers its callers, if the operation has claimed by its end. */
  lemma ClaimerIsTold(u: Setup, s: State, e: Input)
    requires Inv(u, s) && !e.Call? && Ready(s.proc, e) && Plausible(u, s, e)
    ensures var i := Focus(s.proc, e).value;
            var op := s.proc.inflight[i];
            var m := Decide(u.config, s.proc.tables, i, op, e);
            && (LosesClaim(u.config, s.proc, e) ==> m.next.Conclude? && m.acts == [Claimed(i, op.owner)])
            && (m.next.Conclude? && (!op.stage.Preparing() || Claimed(i, op.owner) in m.acts) ==>
                  (SaysNotReady(m.next.body) <==> LosesClaim(u.config, s.proc, e)))
  {
    var i := Focus(s.proc, e).value;
    if e.Prepared? {
      PreparedIsTold(u.config, s.proc.tables, i, s.proc.inflight[i], e);
    } else {
      OthersAreTold(u.config, s.proc.tables, i, s.proc.inflight[i], e);
    }
  }

  /** The calls whose claim was committed while its answer was lost, over a run. */
  ghost function LostClaims(u: Setup, s: State, es: seq<Occurrence>): set<CallId>
    requires Legal(u, s, es)
    decreases |es|
  {
    if es == [] then {}
    else LostNow(u, s, es[0]) + LostClaims(u, Apply(u, s, es[0]), es[1..])
  }

  ghost function LostNow(u: Setup, s: State, e: Occurrence): set<CallId>
    requires Enabled(u, s, e)
  {
    if e.Deliver? && LosesClaim(u.config, s.proc, e.input) then {s.proc.inflight[s.proc.preparing[0]].owner} else {}
  }

  /** The calls that lost their claim are over, and are the claimers that were told not-ready. */
  ghost predicate LostOk(s: State, lost: set<CallId>) {
    && (forall o :: o in lost ==> Gone(s.proc.inflight, s.nextCall, o) && !NoClaim(s.history, o))
    && (forall a :: a in s.history && a.Answered? && !NoClaim(s.history, a.owner) ==> (SaysNotReady(a.body) <==> a.owner in lost))
  }

  lemma OthersClaims(h: seq<Act>, g: seq<Act>, i: Intent, owner: CallId, o: CallId)
    requires Own(g, i, owner) && o != owner
    ensures NoClaim(h + g, o) <==> NoClaim(h, o)
  {
    if NoClaim(h, o) {
      forall a | a in h + g && a.Claimed?
        ensures a.caller != o
      {
        assert a in h || a in g;
      }
    } else {
      var a :| a in h && a.Claimed? && a.caller == o;
      assert a in h + g;
    }
  }

  lemma AnswerBody(i: Intent, op: Op, b: Body, a: Act)
    requires a in AnswersTo(i, op, b)
    ensures a.Answered? && a.owner == op.owner && (SaysNotReady(a.body) <==> SaysNotReady(b))
  {
    var k: nat :| k < |AnswersTo(i, op, b)| && AnswersTo(i, op, b)[k] == a;
    AnswersShape(i, op, b, k);
  }

  /** An answer of the step itself. */
  lemma NewAnswerOk(u: Setup, s: State, e: Input, a: Act)
    requires Inv(u, s) && !e.Call? && Ready(s.proc, e) && Plausible(u, s, e)
    requires a in React(u.config, s.proc, e).acts && a.Answered?
    requires !NoClaim(s.history + React(u.config, s.proc, e).acts, a.owner)
    ensures SaysNotReady(a.body) <==> LosesClaim(u.config, s.proc, e)
  {
    var i := Focus(s.proc, e).value;
    var op := s.proc.inflight[i];
    var m := Decide(u.config, s.proc.tables, i, op, e);
    DecideFits(u, s, e);
    ClaimerIsTold(u, s, e);
    assert a !in m.acts;
    AnswerBody(i, op, m.next.body, a);
    if op.stage.Preparing() {
      assert OpOk(u, s.proc.tables.rows, s.history, s.nextCall, i, op);
      var c :| c in s.history + React(u.config, s.proc, e).acts && c.Claimed? && c.caller == op.owner;
      assert c in React(u.config, s.proc, e).acts;
      DurableActsAreTheMoves(s.proc, i, m, c);
    }
  }

  lemma OldAnswerOk(u: Setup, s: State, e: Input, a: Act)
    requires Inv(u, s) && !e.Call? && Ready(s.proc, e) && Plausible(u, s, e) && a in s.history && a.Answered?
    ensures var g := React(u.config, s.proc, e).acts;
            && a.owner != s.proc.inflight[Focus(s.proc, e).value].owner
            && (NoClaim(s.history + g, a.owner) <==> NoClaim(s.history, a.owner))
  {
    var i := Focus(s.proc, e).value;
    var m := Decide(u.config, s.proc.tables, i, s.proc.inflight[i], e);
    DecideFits(u, s, e);
    StepActsOwn(s.proc, i, m, m.tables.rows);
    assert ActOk(s.proc, s.history, s.nextCall, a);
    OthersClaims(s.history, React(u.config, s.proc, e).acts, i, s.proc.inflight[i].owner, a.owner);
  }

  lemma LostCallIsGone(u: Setup, s: State, e: Input)
    requires Inv(u, s) && !e.Call? && Ready(s.proc, e) && Plausible(u, s, e) && LosesClaim(u.config, s.proc, e)
    ensures var step := React(u.config, s.proc, e);
            var o := s.proc.inflight[s.proc.preparing[0]].owner;
            Gone(step.proc.inflight, s.nextCall, o) && !NoClaim(s.history + step.acts, o)
  {
    var i := s.proc.preparing[0];
    ClaimerIsTold(u, s, e);
    assert OpOk(u, s.proc.tables.rows, s.history, s.nextCall, i, s.proc.inflight[i]);
    assert Claimed(i, s.proc.inflight[i].owner) in s.history + React(u.config, s.proc, e).acts;
  }

  lemma OldLostIsGone(u: Setup, s: State, e: Input, o: CallId)
    requires Inv(u, s) && !e.Call? && Ready(s.proc, e) && Plausible(u, s, e)
    requires Gone(s.proc.inflight, s.nextCall, o) && !NoClaim(s.history, o)
    ensures Gone(React(u.config, s.proc, e).proc.inflight, s.nextCall, o) && !NoClaim(s.history + React(u.config, s.proc, e).acts, o)
    ensures o != s.proc.inflight[Focus(s.proc, e).value].owner
  {
    var i := Focus(s.proc, e).value;
    var step := React(u.config, s.proc, e);
    ClaimStays(s.history, step.acts, o);
    SameOwners(s.proc, i, Decide(u.config, s.proc.tables, i, s.proc.inflight[i], e));
    GoneKept(s.proc, step.proc, s.nextCall, i, o);
  }

  lemma ClaimStays(h: seq<Act>, g: seq<Act>, o: CallId)
    requires !NoClaim(h, o)
    ensures !NoClaim(h + g, o)
  {
    var a :| a in h && a.Claimed? && a.caller == o;
    assert a in h + g;
  }

  lemma SameOwners(p: Proc, i: Intent, m: Move)
    requires i in p.inflight
    ensures var q := Perform(p, i, m).proc;
            forall j :: j in q.inflight ==> j in p.inflight && q.inflight[j].owner == p.inflight[j].owner
  {
  }

  lemma LostThroughStep(u: Setup, s: State, e: Input, lost: set<CallId>)
    requires Inv(u, s) && LostOk(s, lost) && !e.Call? && Enabled(u, s, Deliver(e))
    ensures LostOk(Apply(u, s, Deliver(e)), lost + LostNow(u, s, Deliver(e)))
  {
    var s', step := Apply(u, s, Deliver(e)), React(u.config, s.proc, e);
    var lost' := lost + LostNow(u, s, Deliver(e));
    forall o | o in lost'
      ensures Gone(s'.proc.inflight, s'.nextCall, o) && !NoClaim(s'.history, o)
    {
      if o in lost {
        OldLostIsGone(u, s, e, o);
      } else {
        LostCallIsGone(u, s, e);
      }
    }
    forall a | a in s'.history && a.Answered? && !NoClaim(s'.history, a.owner)
      ensures SaysNotReady(a.body) <==> a.owner in lost'
    {
      if a in s.history {
        OldAnswerOk(u, s, e, a);
      } else {
        NewAnswerOk(u, s, e, a);
        NewAnswerOwner(u, s, e, lost, a);
      }
    }
  }

  lemma NewAnswerOwner(u: Setup, s: State, e: Input, lost: set<CallId>, a: Act)
    requires Inv(u, s) && LostOk(s, lost) && !e.Call? && Enabled(u, s, Deliver(e))
    requires a in React(u.config, s.proc, e).acts && a.Answered?
    ensures a.owner !in lost && (a.owner in LostNow(u, s, Deliver(e)) <==> LosesClaim(u.config, s.proc, e))
  {
    var i := Focus(s.proc, e).value;
    var m := Decide(u.config, s.proc.tables, i, s.proc.inflight[i], e);
    DecideFits(u, s, e);
    StepActsOwn(s.proc, i, m, m.tables.rows);
  }

  lemma LostThroughCall(u: Setup, s: State, call: CallId, i: Intent, lost: set<CallId>)
    requires Inv(u, s) && LostOk(s, lost) && Enabled(u, s, Deliver(Call(call, i)))
    ensures LostOk(Apply(u, s, Deliver(Call(call, i))), lost)
  {
    assert s.history + [] == s.history;
  }

  lemma LostThroughRepair(u: Setup, s: State, e: Occurrence, lost: set<CallId>)
    requires Inv(u, s) && LostOk(s, lost) && Enabled(u, s, e) && e.Repair?
    ensures LostOk(Apply(u, s, e), lost)
  {
    var s' := Apply(u, s, e);
    var g := s'.history[|s.history|..];
    assert s'.history == s.history + g && forall a :: a in g ==> a.Finished?;
    forall o: CallId
      ensures NoClaim(s'.history, o) <==> NoClaim(s.history, o)
    {
      if !NoClaim(s.history, o) {
        var a :| a in s.history && a.Claimed? && a.caller == o;
        assert a in s'.history;
      }
    }
  }

  lemma LostOnce(u: Setup, s: State, e: Occurrence, lost: set<CallId>)
    requires Inv(u, s) && LostOk(s, lost) && Enabled(u, s, e)
    ensures LostOk(Apply(u, s, e), lost + LostNow(u, s, e))
  {
    if e.Deliver? && !e.input.Call? {
      LostThroughStep(u, s, e.input, lost);
    } else {
      assert lost + LostNow(u, s, e) == lost;
      if e.Deliver? {
        LostThroughCall(u, s, e.input.call, e.input.intent, lost);
      } else if e.Repair? {
        LostThroughRepair(u, s, e, lost);
      }
    }
  }

  lemma {:induction false} LostKept(u: Setup, s: State, es: seq<Occurrence>, lost: set<CallId>)
    requires Inv(u, s) && LostOk(s, lost) && Legal(u, s, es)
    ensures LostOk(Exec(u, s, es), lost + LostClaims(u, s, es))
    decreases |es|
  {
    if es == [] {
      assert lost + {} == lost;
    } else {
      LostOnce(u, s, es[0], lost);
      InvKept(u, s, es[0]);
      var now, later := LostNow(u, s, es[0]), LostClaims(u, Apply(u, s, es[0]), es[1..]);
      LostKept(u, Apply(u, s, es[0]), es[1..], lost + now);
      assert lost + now + later == lost + (now + later);
    }
  }

  /**
   * Over every run: the operation of a call that claimed answers not-ready if and only if the disk lost
   * the answer of its claim, and any other failure it answers is pending on its row's hash.
   */
  lemma ClaimerNotReadyIff(u: Setup, es: seq<Occurrence>, k: nat)
    requires Legal(u, Start(), es) && k < |Exec(u, Start(), es).history| && Exec(u, Start(), es).history[k].Answered?
    requires !NoClaim(Exec(u, Start(), es).history, Exec(u, Start(), es).history[k].owner)
    ensures var s := Exec(u, Start(), es);
            var a := s.history[k];
            && (SaysNotReady(a.body) <==> a.owner in LostClaims(u, Start(), es))
            && (a.body.Raised? && !SaysNotReady(a.body) ==>
                  && Get(s.proc.tables.rows, a.intent).Some?
                  && a.body.error.Kind() == Pending(Get(s.proc.tables.rows, a.intent).value.claim.hash))
  {
    var s := Exec(u, Start(), es);
    Reached(u, es);
    StartIsFine(u);
    LostKept(u, Start(), es, {});
    assert {} + LostClaims(u, Start(), es) == LostClaims(u, Start(), es);
    assert ActOk(s.proc, s.history, s.nextCall, s.history[k]);
  }

  // ---- who finished the row behind the unmarked answer -----------------------------------------------------

  lemma FinishedOnce(h: seq<Act>, i: Intent, o: CallId)
    requires Once(h)
    ensures !(Finished(i, Some(o)) in h && Finished(i, None) in h)
  {
    if Finished(i, Some(o)) in h && Finished(i, None) in h {
      var j :| 0 <= j < |h| && h[j] == Finished(i, Some(o));
      var k :| 0 <= k < |h| && h[k] == Finished(i, None);
      assert Clash(h[j], h[k]) && Clash(h[k], h[j]);
    }
  }

  /** The unmarked answer's call finished the row itself if and only if the repair did not. */
  lemma ClaimerFinishedIff(u: Setup, es: seq<Occurrence>, a: Act)
    requires Legal(u, Start(), es) && a in Exec(u, Start(), es).history && Unmarked(a)
    ensures var h := Exec(u, Start(), es).history;
            Finished(a.intent, Some(a.call)) in h <==> Finished(a.intent, None) !in h
  {
    Reached(u, es);
    UnmarkedAnswerIsTheClaimers(u, es, a);
    FinishedOnce(Exec(u, Start(), es).history, a.intent, a.call);
  }
}
