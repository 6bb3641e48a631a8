/**
 * Runs that reach the states the exact conditions speak of: a claim whose answer the disk loses, a row
 * the repair finishes under a live call, and a mined payment that credited nobody.
 */
module RecoveryWitness {
  import opened Wrappers
  import opened Journal
  import opened Guards
  import opened Receipts
  import opened Recovery
  import opened RecoveryRuns
  import opened RecoveryProperties
  import opened RecoveryAnswers

  // ---- one payment, from its call to the mined transaction -------------------------------------------------

  const ONE: Setup := Setup(Config(7, 1, Limits(10, 10)), 0)
  const PAYMENT: Intent := Intent.Intent(9, 1, 2, 3, 0)
  const SIGNED: Tx := Tx(true, 1, 0, Some(5), Some(1), Some(1), PAYMENT)
  const NOBODY: World := World({}, [])
  const EMPTY: Tables := Tables([], map[], [])

  function FirstClaim(): Claim { Claim.Claim(PAYMENT, Keccak(SIGNED), 7, 1, 0, 5, 1, 1, 0) }

  function FirstRow(): Row { NewRow(FirstClaim()) }

  function Claimed1(): Tables { Reserve(EMPTY, FirstRow()) }

  /** The one operation before its claim, and after it. */
  function Early(stage: Stage): State {
    State(Proc(map[PAYMENT := Op(0, [], stage, false)], [PAYMENT], EMPTY), NOBODY, [], 1)
  }

  function Late(stage: Stage, w: World, h: seq<Act>): State {
    State(Proc(map[PAYMENT := Op(0, [], stage, false)], [], Claimed1()), w, h, 1)
  }

  const CLAIMED_ONLY: seq<Act> := [Claimed(PAYMENT, 0)]
  const SENT_TOO: seq<Act> := [Claimed(PAYMENT, 0), Handed(PAYMENT, 0, SIGNED)]

  /** One more occurrence at the end of a run. */
  lemma {:induction false} Longer(u: Setup, s: State, es: seq<Occurrence>, e: Occurrence)
    requires Legal(u, s, es) && Enabled(u, Exec(u, s, es), e)
    ensures Legal(u, s, es + [e]) && Exec(u, s, es + [e]) == Apply(u, Exec(u, s, es), e)
    decreases |es|
  {
    if es == [] {
      assert es + [e] == [e] + [];
      RunsInto(u, s, e, []);
    } else {
      Longer(u, Apply(u, s, es[0]), es[1..], e);
      assert es + [e] == [es[0]] + (es[1..] + [e]);
      RunsInto(u, s, es[0], es[1..] + [e]);
    }
  }

  /** The run `es` from the start leads to `s`. */
  ghost predicate Leads(es: seq<Occurrence>, s: State) {
    Legal(ONE, Start(), es) && Exec(ONE, Start(), es) == s
  }

  lemma Onward(es: seq<Occurrence>, s: State, e: Occurrence, s': State)
    requires Leads(es, s) && Enabled(ONE, s, e) && Apply(ONE, s, e) == s'
    ensures Leads(es + [e], s')
  {
    Longer(ONE, Start(), es, e);
  }

  const CALL: Occurrence := Deliver(Call(0, PAYMENT))
  const TURN: Occurrence := Deliver(Turn(Healthy))
  const NONCE: Occurrence := Deliver(NonceRead(Got(0), Healthy))

  function Prepare(disk: Disk): Occurrence { Deliver(Prepared(Got(SIGNED), true, 0, disk)) }

  function Asking(): seq<Occurrence> { [] + [CALL] + [TURN] + [NONCE] }

  lemma Asks()
    ensures Leads(Asking(), Early(AskedPrepare(0)))
  {
    assert Leads([], Start());
    assert Apply(ONE, Start(), CALL) == Early(Queued);
    Onward([], Start(), CALL, Early(Queued));
    assert Apply(ONE, Early(Queued), TURN) == Early(AskedNonce);
    Onward([] + [CALL], Early(Queued), TURN, Early(AskedNonce));
    assert Apply(ONE, Early(AskedNonce), NONCE) == Early(AskedPrepare(0));
    Onward([] + [CALL] + [TURN], Early(AskedNonce), NONCE, Early(AskedPrepare(0)));
  }

  lemma ClaimLands(disk: Disk)
    requires !disk.LostBefore?
    ensures ClaimTxn(EMPTY, FirstClaim(), Limits(10, 10), disk)
            == Txn(Claimed1(), if disk.LostAfter? then Threw else Kept(FirstRow()))
    ensures Claimed1() != EMPTY
  {
    assert |Claimed1().rows| == 1;
  }

  lemma ClaimStep(disk: Disk)
    requires !disk.LostBefore?
    ensures Enabled(ONE, Early(AskedPrepare(0)), Prepare(disk))
    ensures var s := Apply(ONE, Early(AskedPrepare(0)), Prepare(disk));
            if disk.LostAfter? then
              s == State(Proc(map[], [], Claimed1()), NOBODY,
                         CLAIMED_ONLY + [Answered(0, PAYMENT, 0, Raised(Raise(StorageUnavailable)))], 1)
            else s == Late(AskedReceipt(FirstRow()), NOBODY, CLAIMED_ONLY)
  {
    ClaimLands(disk);
    var s := Early(AskedPrepare(0));
    assert ClaimFor(ONE.config, PAYMENT, SIGNED, 0, 0) == FirstClaim();
    var b := Raised(Raise(StorageUnavailable));
    assert AnswersTo(PAYMENT, s.proc.inflight[PAYMENT], b) == [Answered(0, PAYMENT, 0, b)];
    assert map[PAYMENT := Op(0, [], AskedPrepare(0), false)] - {PAYMENT} == map[];
    assert [PAYMENT][1..] == [];
    assert [] + CLAIMED_ONLY == CLAIMED_ONLY;
  }

  // ---- a claim whose answer is lost ------------------------------------------------------------------------

  /** A call that claimed answers not-ready: its row is committed, and nothing was sent. */
  lemma LostClaimIsReached()
    ensures var es := Asking() + [Prepare(LostAfter)];
            && Legal(ONE, Start(), es)
            && var s := Exec(ONE, Start(), es);
            && Get(s.proc.tables.rows, PAYMENT) == Some(FirstRow()) && 0 in LostClaims(ONE, Start(), es)
            && s.history == CLAIMED_ONLY + [Answered(0, PAYMENT, 0, Raised(Raise(StorageUnavailable)))]
  {
    Asks();
    ClaimStep(LostAfter);
    var es := Asking() + [Prepare(LostAfter)];
    var s := Apply(ONE, Early(AskedPrepare(0)), Prepare(LostAfter));
    Onward(Asking(), Early(AskedPrepare(0)), Prepare(LostAfter), s);
    assert s.history[0] == Claimed(PAYMENT, 0);
    ClaimerNotReadyIff(ONE, es, 1);
    RowIsThere();
  }

  lemma RowIsThere()
    ensures Get(Claimed1().rows, PAYMENT) == Some(FirstRow())
  {
    assert Claimed1().rows == [FirstRow()];
  }

  // ---- a transaction mined under a live call ---------------------------------------------------------------

  const LOOK: Occurrence := Deliver(ReceiptRead(PAYMENT, Got(Nothing), 0, Healthy))
  const RESTORE: Occurrence := Deliver(Restored(PAYMENT, Got(SIGNED)))
  const SEND: Occurrence := Deliver(SendReturned(PAYMENT))

  function Mining(logs: seq<Log>): World { World({SIGNED}, [Mined(SIGNED, true, logs)]) }

  function Sending1(): seq<Occurrence> { Asking() + [Prepare(Healthy)] + [LOOK] + [RESTORE] }

  function Waiting1(logs: seq<Log>): seq<Occurrence> {
    Sending1() + [Accept(SIGNED)] + [SEND] + [Mine(SIGNED, true, logs)]
  }

  lemma LookStep()
    ensures var s := Late(AskedReceipt(FirstRow()), NOBODY, CLAIMED_ONLY);
            Enabled(ONE, s, LOOK) && Apply(ONE, s, LOOK) == Late(AskedRestore(FirstRow()), NOBODY, CLAIMED_ONLY)
  {
    assert CLAIMED_ONLY + [] == CLAIMED_ONLY;
  }

  lemma Sends()
    ensures Leads(Sending1(), Late(Sending(FirstRow()), NOBODY, SENT_TOO))
  {
    var s4, s5 := Late(AskedReceipt(FirstRow()), NOBODY, CLAIMED_ONLY), Late(AskedRestore(FirstRow()), NOBODY, CLAIMED_ONLY);
    Asks();
    ClaimStep(Healthy);
    Onward(Asking(), Early(AskedPrepare(0)), Prepare(Healthy), s4);
    LookStep();
    Onward(Asking() + [Prepare(Healthy)], s4, LOOK, s5);
    RestoreStep();
    Onward(Asking() + [Prepare(Healthy)] + [LOOK], s5, RESTORE, Late(Sending(FirstRow()), NOBODY, SENT_TOO));
  }

  lemma RestoreStep()
    ensures var s := Late(AskedRestore(FirstRow()), NOBODY, CLAIMED_ONLY);
            Enabled(ONE, s, RESTORE) && Apply(ONE, s, RESTORE) == Late(Sending(FirstRow()), NOBODY, SENT_TOO)
  {
    assert CLAIMED_ONLY + [Handed(PAYMENT, 0, SIGNED)] == SENT_TOO;
  }

  const TAKEN: World := World({SIGNED}, [])

  lemma AcceptStep()
    ensures var s := Late(Sending(FirstRow()), NOBODY, SENT_TOO);
            Enabled(ONE, s, Accept(SIGNED)) && Apply(ONE, s, Accept(SIGNED)) == Late(Sending(FirstRow()), TAKEN, SENT_TOO)
  {
    assert SENT_TOO[1] == Handed(PAYMENT, 0, SIGNED);
    assert {} + {SIGNED} == {SIGNED};
  }

  lemma SendStep()
    ensures var s := Late(Sending(FirstRow()), TAKEN, SENT_TOO);
            Enabled(ONE, s, SEND) && Apply(ONE, s, SEND) == Late(Waiting(FirstRow()), TAKEN, SENT_TOO)
  {
    assert SENT_TOO + [] == SENT_TOO;
  }

  lemma MineStep(logs: seq<Log>)
    ensures var s, e := Late(Waiting(FirstRow()), TAKEN, SENT_TOO), Mine(SIGNED, true, logs);
            Enabled(ONE, s, e) && Apply(ONE, s, e) == Late(Waiting(FirstRow()), Mining(logs), SENT_TOO)
  {
    assert [] + [Mined(SIGNED, true, logs)] == [Mined(SIGNED, true, logs)];
  }

  lemma Mines(logs: seq<Log>)
    ensures Leads(Waiting1(logs), Late(Waiting(FirstRow()), Mining(logs), SENT_TOO))
  {
    var s6, s7 := Late(Sending(FirstRow()), NOBODY, SENT_TOO), Late(Sending(FirstRow()), TAKEN, SENT_TOO);
    var s8 := Late(Waiting(FirstRow()), TAKEN, SENT_TOO);
    Sends();
    AcceptStep();
    Onward(Sending1(), s6, Accept(SIGNED), s7);
    SendStep();
    Onward(Sending1() + [Accept(SIGNED)], s7, SEND, s8);
    MineStep(logs);
    Onward(Sending1() + [Accept(SIGNED)] + [SEND], s8, Mine(SIGNED, true, logs), Late(Waiting(FirstRow()), Mining(logs), SENT_TOO));
  }

  function MinedReceipt(logs: seq<Log>): Receipt { Receipt(Keccak(SIGNED), true, logs, Some(1), Some(1), Absent) }

  function FirstEnding(logs: seq<Log>): Ending { Ending(0, 1, 1, ReceiptFailure(true, logs, PAYMENT)) }

  function EndedRow(logs: seq<Log>): Row { FirstRow().(terminal := Some(Terminal(0, FirstEnding(logs)))) }

  function Ended1(logs: seq<Log>): Tables { FinishTxn(Claimed1(), PAYMENT, FirstEnding(logs), Healthy).tables }

  lemma EndShape(logs: seq<Log>)
    ensures FinishTxn(Claimed1(), PAYMENT, FirstEnding(logs), Healthy) == Txn(Ended1(logs), Kept(EndedRow(logs)))
    ensures Ended1(logs) != Claimed1() && Get(Ended1(logs).rows, PAYMENT) == Some(EndedRow(logs))
  {
    RowIsThere();
    assert Claimed1().rows == [FirstRow()];
    assert Covered(Claimed1(), FirstRow(), FirstEnding(logs));
    assert Ended1(logs) == End(Claimed1(), 0, FirstEnding(logs));
    assert Ended1(logs).rows == [EndedRow(logs)];
  }

  lemma OneRow(logs: seq<Log>)
    ensures Ended1(logs).rows == [EndedRow(logs)]
  {
    EndShape(logs);
    assert Claimed1().rows == [FirstRow()];
    assert Ended1(logs) == End(Claimed1(), 0, FirstEnding(logs));
  }

  lemma ReceiptIsRead(logs: seq<Log>)
    ensures EndingOf(MinedReceipt(logs), Keccak(SIGNED), PAYMENT, 0) == Some(FirstEnding(logs))
    ensures Honest(Mining(logs), Keccak(SIGNED), MinedReceipt(logs))
  {
    assert Mining(logs).mined[0] == Mined(SIGNED, true, logs);
  }

  // ---- a mined payment that credited nobody ----------------------------------------------------------------

  function Arrives(logs: seq<Log>): Occurrence { Deliver(Waited(PAYMENT, Got(MinedReceipt(logs)), 0, Healthy)) }

  /** The call closes its row from the receipt it waited for, and is answered. */
  function Arrived1(logs: seq<Log>): State {
    State(Proc(map[], [], Ended1(logs)), Mining(logs),
          SENT_TOO + [Finished(PAYMENT, Some(0)), Answered(0, PAYMENT, 0, Resolved(EndedRow(logs), false))], 1)
  }

  lemma OneAnswer(op: Op, b: Body)
    requires op.owner == 0 && op.waiters == []
    ensures AnswersTo(PAYMENT, op, b) == [Answered(0, PAYMENT, 0, b)]
  {
  }

  lemma ArriveStep(logs: seq<Log>)
    ensures var s := Late(Waiting(FirstRow()), Mining(logs), SENT_TOO);
            Enabled(ONE, s, Arrives(logs)) && Apply(ONE, s, Arrives(logs)) == Arrived1(logs)
  {
    ReceiptIsRead(logs);
    EndShape(logs);
    var op, b := Op(0, [], Waiting(FirstRow()), false), Resolved(EndedRow(logs), false);
    OneAnswer(op, b);
    assert [Finished(PAYMENT, Some(0))] + [Answered(0, PAYMENT, 0, b)] == [Finished(PAYMENT, Some(0)), Answered(0, PAYMENT, 0, b)];
    assert map[PAYMENT := op] - {PAYMENT} == map[];
  }

  /** A run that ends with the vendor not credited: the transaction mined, and moved nothing to the vendor. */
  lemma MisdirectedIsReached()
    ensures Leads(Waiting1([]) + [Arrives([])], Arrived1([]))
    ensures Ended(Ended1([]).rows, PAYMENT) && Get(Ended1([]).rows, PAYMENT) == Some(EndedRow([]))
    ensures EndedRow([]).terminal.value.ending.errorCode == Some(VENDOR_NOT_CREDITED)
  {
    Mines([]);
    ArriveStep([]);
    EndShape([]);
    Onward(Waiting1([]), Late(Waiting(FirstRow()), Mining([]), SENT_TOO), Arrives([]), Arrived1([]));
    assert ReceiptFailure(true, [], PAYMENT) == Some(VENDOR_NOT_CREDITED);
  }

  // ---- the repair finishes first ---------------------------------------------------------------------------

  function Repairs(logs: seq<Log>): Occurrence { Repair(PAYMENT, MinedReceipt(logs), 0, Healthy) }

  /** The row is finished while its call still waits. */
  function Repaired1(logs: seq<Log>): State {
    State(Proc(map[PAYMENT := Op(0, [], Waiting(FirstRow()), false)], [], Ended1(logs)), Mining(logs),
          SENT_TOO + [Finished(PAYMENT, None)], 1)
  }

  lemma RepairStep(logs: seq<Log>)
    ensures var s := Late(Waiting(FirstRow()), Mining(logs), SENT_TOO);
            Enabled(ONE, s, Repairs(logs)) && Apply(ONE, s, Repairs(logs)) == Repaired1(logs)
  {
    ReceiptIsRead(logs);
    EndShape(logs);
    RowIsThere();
  }

  lemma RepairLeads(logs: seq<Log>)
    ensures Leads(Waiting1(logs) + [Repairs(logs)], Repaired1(logs))
  {
    Mines(logs);
    RepairStep(logs);
    Onward(Waiting1(logs), Late(Waiting(FirstRow()), Mining(logs), SENT_TOO), Repairs(logs), Repaired1(logs));
  }

  lemma ArriveLate(logs: seq<Log>)
    ensures var s := Repaired1(logs);
            && Enabled(ONE, s, Arrives(logs))
            && Apply(ONE, s, Arrives(logs)).history
               == s.history + [Answered(0, PAYMENT, 0, Resolved(EndedRow(logs), false))]
  {
    ReceiptIsRead(logs);
    EndShape(logs);
    assert FinishTxn(Ended1(logs), PAYMENT, FirstEnding(logs), Healthy) == Txn(Ended1(logs), Kept(EndedRow(logs)));
    var b := Resolved(EndedRow(logs), false);
    assert AnswersTo(PAYMENT, Repaired1(logs).proc.inflight[PAYMENT], b) == [Answered(0, PAYMENT, 0, b)];
    assert [] + [Answered(0, PAYMENT, 0, b)] == [Answered(0, PAYMENT, 0, b)];
  }

  /** The repair finishes the row, and the claiming call then gets the unmarked answer without having finished it. */
  lemma RepairFinishesFirst(logs: seq<Log>)
    ensures var es := Waiting1(logs) + [Repairs(logs)] + [Arrives(logs)];
            && Legal(ONE, Start(), es)
            && var h := Exec(ONE, Start(), es).history;
            && h == SENT_TOO + [Finished(PAYMENT, None)] + [Answered(0, PAYMENT, 0, Resolved(EndedRow(logs), false))]
            && Finished(PAYMENT, Some(0)) !in h
  {
    RepairLeads(logs);
    ArriveLate(logs);
    var s := Apply(ONE, Repaired1(logs), Arrives(logs));
    Onward(Waiting1(logs) + [Repairs(logs)], Repaired1(logs), Arrives(logs), s);
    OnlyTheRepair(s.history, Resolved(EndedRow(logs), false));
  }

  lemma OnlyTheRepair(h: seq<Act>, b: Body)
    requires h == SENT_TOO + [Finished(PAYMENT, None)] + [Answered(0, PAYMENT, 0, b)]
    ensures Finished(PAYMENT, Some(0)) !in h
  {
    assert |h| == 4 && h[2] == Finished(PAYMENT, None);
  }

  // ---- a later caller of a finished payment told that it is pending ----------------------------------------

  const SECOND: Occurrence := Deliver(Call(1, PAYMENT))
  const TIMEOUT: Occurrence := Deliver(Waited(PAYMENT, Failed(LOST), 0, Healthy))

  function Coalesced1(logs: seq<Log>): State {
    State(Proc(map[PAYMENT := Op(0, [1], Waiting(FirstRow()), false)], [], Ended1(logs)), Mining(logs),
          SENT_TOO + [Finished(PAYMENT, None)], 2)
  }

  lemma TwoAnswers(op: Op, b: Body)
    requires op.owner == 0 && op.waiters == [1] && b.Raised?
    ensures AnswersTo(PAYMENT, op, b) == [Answered(0, PAYMENT, 0, b), Answered(1, PAYMENT, 0, b)]
  {
    var answers := AnswersTo(PAYMENT, op, b);
    assert |answers| == 2 && answers[0] == Answered(0, PAYMENT, 0, b);
    assert answers[1] == Answered(op.waiters[0], PAYMENT, 0, Coalesced(b));
  }

  lemma TimeoutStep(logs: seq<Log>)
    ensures var s, b := Coalesced1(logs), Raised(Raise(Pending(Keccak(SIGNED))));
            && Enabled(ONE, s, TIMEOUT)
            && Apply(ONE, s, TIMEOUT).proc.tables == Ended1(logs)
            && Apply(ONE, s, TIMEOUT).history == s.history + [Answered(0, PAYMENT, 0, b), Answered(1, PAYMENT, 0, b)]
  {
    var op, b := Coalesced1(logs).proc.inflight[PAYMENT], Raised(Raise(Pending(Keccak(SIGNED))));
    TwoAnswers(op, b);
    assert [] + AnswersTo(PAYMENT, op, b) == AnswersTo(PAYMENT, op, b);
  }

  /** A second call arrives after its payment is finished on the journal, and is told settlement_pending. */
  lemma FinishedYetPending(logs: seq<Log>)
    ensures var before := Waiting1(logs) + [Repairs(logs)];
            var es := before + [SECOND] + [TIMEOUT];
            && Legal(ONE, Start(), before) && Get(Exec(ONE, Start(), before).proc.tables.rows, PAYMENT) == Some(EndedRow(logs))
            && Legal(ONE, Start(), es)
            && Answered(1, PAYMENT, 0, Raised(Raise(Pending(Keccak(SIGNED))))) in Exec(ONE, Start(), es).history
  {
    RepairLeads(logs);
    EndShape(logs);
    SecondTimesOut(Waiting1(logs) + [Repairs(logs)], logs);
  }

  lemma SecondStep(logs: seq<Log>)
    ensures Enabled(ONE, Repaired1(logs), SECOND) && Apply(ONE, Repaired1(logs), SECOND) == Coalesced1(logs)
  {
    assert (SENT_TOO + [Finished(PAYMENT, None)]) + [] == SENT_TOO + [Finished(PAYMENT, None)] && [] + [1] == [1];
  }

  lemma SecondTimesOut(before: seq<Occurrence>, logs: seq<Log>)
    requires Leads(before, Repaired1(logs))
    ensures var es := before + [SECOND] + [TIMEOUT];
            && Legal(ONE, Start(), es)
            && Answered(1, PAYMENT, 0, Raised(Raise(Pending(Keccak(SIGNED))))) in Exec(ONE, Start(), es).history
  {
    SecondStep(logs);
    Onward(before, Repaired1(logs), SECOND, Coalesced1(logs));
    TimeoutStep(logs);
    Onward(before + [SECOND], Coalesced1(logs), TIMEOUT, Apply(ONE, Coalesced1(logs), TIMEOUT));
    var h := Apply(ONE, Coalesced1(logs), TIMEOUT).history;
    assert h[|h| - 1] == Answered(1, PAYMENT, 0, Raised(Raise(Pending(Keccak(SIGNED)))));
  }
}
