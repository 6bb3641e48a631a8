/**
 * What the two payment routes put on the wire (apps/facilitator-erc7710/routes.ts, settlement.ts)
 * and what the seller makes of it (packages/delegation/src/facilitator-contract.ts,
 * packages/seller/src/index.ts), held against what the settlement protocol did.
 */
module Wire {
  import opened Wrappers
  import opened Journal
  import opened Guards
  import opened Receipts
  import opened Recovery
  import opened RecoveryRuns
  import opened RecoveryProperties
  import opened RecoveryAnswers
  import W = RecoveryWitness

  const RATE_LIMITED := "rate_limited"
  const FACILITATOR_NOT_READY := "facilitator_not_ready"
  const INVALID_TRANSACTION_STATE := "invalid_transaction_state"

  const MINED_REFUSAL_REASONS: set<string> := {SETTLEMENT_REVERTED, VENDOR_NOT_CREDITED}
  const KNOWN_REFUSAL_REASONS: set<string> :=
    {"insufficient_funds", "invalid_scheme", "unsupported_scheme", "invalid_network", "invalid_payload",
     "invalid_payment_requirements", "invalid_x402_version", INVALID_TRANSACTION_STATE, DELEGATION_REJECTED,
     "payer_budget_exhausted", "budget_exhausted", SETTLEMENT_REVERTED, VENDOR_NOT_CREDITED}

  // ---- the facilitator's side ------------------------------------------------------------

  /** A `/settle` body; no hash is the wire's empty transaction. */
  datatype SettleBody = SettleBody(success: bool, transaction: Option<Hash>, payer: Option<Address>,
                                   errorReason: Option<string>, replayed: bool)

  /** A `/verify` answer; a 503 is not readable as a body. */
  datatype VerifyBody = NoVerdict | Valid(payer: Address) | Invalid(reason: string)

  function OfFailure(f: Failure): SettleBody {
    match f
    case NotReady => SettleBody(false, None, None, Some(FACILITATOR_NOT_READY), false)
    case Rejected(code) => SettleBody(false, None, None, Some(code), false)
    case InDoubt(hash) => SettleBody(false, Some(hash), None, Some(SETTLEMENT_PENDING), false)
  }

  /** The answer for a resolved row; one that is not terminal is an unexpected error. */
  function SettlementResponse(row: Row, replayed: bool): SettleBody {
    if row.terminal.None? then OfFailure(DescribeFailure(Raise(Other), Settle))
    else
      var ending := row.terminal.value.ending;
      SettleBody(!ending.Failed(), Some(row.claim.hash), Some(row.claim.intent.payer),
                 if ending.Failed() then ending.errorCode else None, replayed)
  }

  function SettleRoute(b: Body): SettleBody {
    match b
    case Resolved(row, replayed) => SettlementResponse(row, replayed)
    case Raised(e) => OfFailure(DescribeFailure(e, Settle))
  }

  /** `/verify`: a known row is never simulated again, and only a failed one is refused. */
  function Simulate(rows: seq<Row>, i: Intent, disk: Disk, prepared: Answer<bool>): Answer<bool> {
    if !disk.Healthy? then Failed(Raise(StorageUnavailable))
    else match Get(rows, i)
      case Some(row) =>
        if row.terminal.Some? && row.terminal.value.ending.Failed()
        then Failed(Raise(Validation(INVALID_TRANSACTION_STATE))) else Got(true)
      case None => if prepared.Failed? then Failed(BeforeBroadcast(prepared.error)) else prepared
  }

  /** Only a rejection is copied onto the wire; anything else is no verdict. */
  function VerifyRoute(rows: seq<Row>, i: Intent, disk: Disk, prepared: Answer<bool>): VerifyBody {
    match Simulate(rows, i, disk, prepared)
    case Got(_) => Valid(i.payer)
    case Failed(e) => match DescribeFailure(e, Verify)
      case Rejected(code) => Invalid(code)
      case _ => NoVerdict
  }

  // ---- the seller's side -------------------------------------------------------------------

  function FoldRefusalReason(word: Option<string>): string {
    if word.Some? && word.value in KNOWN_REFUSAL_REASONS then word.value else DELEGATION_REJECTED
  }

  datatype Outcome =
    | Unavailable(word: string)
    | Unknown(transaction: Option<Hash>)
    | Refusal(word: string, transaction: Option<Hash>)
    | Settled(transaction: Option<Hash>, replayed: bool)

  /** A missing body is every way the answer can be lost. */
  function DecideSettlement(reply: Option<SettleBody>, expectedPayer: Address): Outcome {
    if reply.None? then Unknown(None)
    else
      var body := reply.value;
      if body.errorReason == Some(RATE_LIMITED) then Unavailable(RATE_LIMITED)
      else if body.errorReason == Some(FACILITATOR_NOT_READY) then Unavailable(FACILITATOR_NOT_READY)
      else if body.errorReason == Some(SETTLEMENT_PENDING) || body.errorReason == Some(UNEXPECTED_SETTLE_ERROR)
      then Unknown(body.transaction)
      else if !body.success then
        var word := FoldRefusalReason(body.errorReason);
        if body.transaction.Some? && word !in MINED_REFUSAL_REASONS then Unknown(body.transaction)
        else Refusal(word, body.transaction)
      else if body.payer != Some(expectedPayer) then Unknown(body.transaction)
      else Settled(body.transaction, body.replayed)
  }

  datatype Verdict = VerifyUnavailable(word: string) | VerifyRejected(word: string) | VerifyAccepted

  function DecideVerification(body: VerifyBody, expectedPayer: Address): Verdict {
    match body
    case NoVerdict => VerifyUnavailable(FACILITATOR_NOT_READY)
    case Invalid(word) =>
      if word == RATE_LIMITED then VerifyUnavailable(RATE_LIMITED)
      else if word == FACILITATOR_NOT_READY || word == UNEXPECTED_VERIFY_ERROR then VerifyUnavailable(FACILITATOR_NOT_READY)
      else VerifyRejected(FoldRefusalReason(Some(word)))
    case Valid(payer) => if payer == expectedPayer then VerifyAccepted else VerifyRejected(FoldRefusalReason(None))
  }

  /** How the seller answers the buyer: 200, 503, 504, 502, or 402 with the offer again. */
  datatype Rung =
    | Serve(transaction: Option<Hash>)
    | RetryLater(word: string)
    | Doubtful(transaction: Option<Hash>)
    | Misdirected(transaction: Option<Hash>)
    | Reoffer(word: string, transaction: Option<Hash>)

  function AfterSettle(o: Outcome): Rung {
    match o
    case Unavailable(word) => RetryLater(word)
    case Unknown(tx) => Doubtful(tx)
    case Refusal(word, tx) => if word == VENDOR_NOT_CREDITED then Misdirected(tx) else Reoffer(word, tx)
    case Settled(tx, _) => Serve(tx)
  }

  /** One presentation of a payment: `/verify` first, and `/settle` only when that accepts. */
  function Present(verdict: Verdict, outcome: Outcome): Rung {
    match verdict
    case VerifyUnavailable(word) => RetryLater(word)
    case VerifyRejected(word) => Reoffer(word, None)
    case VerifyAccepted => AfterSettle(outcome)
  }

  /** What the seller tells the buyer when the answer `b` to `/settle` arrives. */
  function SellerRung(i: Intent, b: Body): Rung {
    AfterSettle(DecideSettlement(Some(SettleRoute(b)), i.payer))
  }

  // ---- failures before the claim --------------------------------------------------------------

  /**
   * The RPC did not answer: among the error and its first seven causes a transport failure stands above any
   * revert, or there is neither and the text is a rate limit.
   */
  ghost predicate Unanswered(e: Thrown) {
    var chain := Causes(e.links, e.top, 8);
    || (exists k :: 0 <= k < |chain| && chain[k].kind in {HttpRequest, TimedOut}
                    && forall j :: 0 <= j < k ==> chain[j].kind !in {ContractReverted, ExecutionReverted})
    || (e.rateLimitText && forall k :: 0 <= k < |chain| ==> chain[k].kind !in {HttpRequest, TimedOut, ContractReverted, ExecutionReverted})
  }

  /** The word for a failure that is a verdict: a revert among the same links, or a redemption that was refused, speaks of the delegation. */
  ghost function OwnWord(e: Thrown, ours: string): string {
    var chain := Causes(e.links, e.top, 8);
    if e.Kind().RedemptionRejected? || exists k :: 0 <= k < |chain| && chain[k].kind in {ContractReverted, ExecutionReverted}
    then "delegation_rejected" else ours
  }

  lemma UnansweredIs(e: Thrown)
    ensures Unanswered(e) <==> RpcUnreachable(e)
  {
    var chain := Causes(e.links, e.top, 8);
    WalkDecides(chain, e.rateLimitText);
    assert forall k :: 0 <= k < |chain| ==> (chain[k].Transport() <==> chain[k].kind in {HttpRequest, TimedOut});
    assert forall k :: 0 <= k < |chain| ==> (chain[k].Reverted() <==> chain[k].kind in {ContractReverted, ExecutionReverted});
  }

  lemma OwnWordIs(e: Thrown, ours: string)
    ensures OwnWord(e, ours) == if e.Kind().RedemptionRejected? || RevertSeen(Chain(e)) then DELEGATION_REJECTED else ours
  {
    var chain := Causes(e.links, e.top, 8);
    assert forall k :: 0 <= k < |chain| ==> (chain[k].Reverted() <==> chain[k].kind in {ContractReverted, ExecutionReverted});
  }

  lemma GuardedFailure(e: Thrown, route: Route)
    requires Foreign(e.Kind()) || e.Kind().RedemptionRejected?
    ensures var f := DescribeFailure(BeforeBroadcast(e), route);
            f == if Unanswered(e) then NotReady
                 else Rejected(OwnWord(e, if route.Verify? then "unexpected_verify_error" else "unexpected_settle_error"))
  {
    UnansweredIs(e);
    OwnWordIs(e, if route.Verify? then "unexpected_verify_error" else "unexpected_settle_error");
  }

  lemma PlainFailure(e: Thrown)
    requires Foreign(e.Kind()) || e.Kind().RedemptionRejected?
    ensures DescribeFailure(e, Settle) == Rejected(OwnWord(e, "unexpected_settle_error"))
  {
    OwnWordIs(e, "unexpected_settle_error");
  }

  /** A signed transaction that is the one asked for: its type, its chain, its nonce, and every field of its fees. */
  predicate AsAsked(c: Config, tx: Tx, nonce: nat) {
    tx.eip1559 && tx.chainId == c.chainId && tx.nonce == nonce && tx.gas.Some? && tx.maxFee.Some? && tx.priority.Some?
  }

  const NO_VERDICT := "facilitator_not_ready"

  /** What the operation at the head of the queue is ended with, if the claim of this transaction ends it. */
  function ClaimEnds(t: Tables, c: Claim, limits: Limits, disk: Disk): Option<string> {
    if disk.LostBefore? then Some(NO_VERDICT)
    else if Get(t.rows, c.intent).Some? then if disk.LostAfter? then Some(NO_VERDICT) else None
    else if !Payable(c, limits) then Some(NO_VERDICT)
    else if !ShareFits(t, c, limits) then Some("payer_budget_exhausted")
    else if !TotalFits(t, c, limits) then Some("budget_exhausted")
    else if !Storable(t, c) then Some(NO_VERDICT)
    else None
  }

  /**
   * The word an operation is ended with before its claim, if this input ends it: no verdict when the journal
   * cannot be read or the RPC does not answer, the word of a budget that is full, and for every other failure
   * its own word.
   */
  ghost function EndWord(c: Config, t: Tables, i: Intent, stage: Stage, e: Input): Option<string>
    requires Resumes(e, stage) && stage.Preparing()
  {
    match e
    case Turn(disk) => if disk.Healthy? then None else Some(NO_VERDICT)
    case NonceRead(Failed(x), _) => Some(if Unanswered(x) then NO_VERDICT else OwnWord(x, "unexpected_settle_error"))
    case NonceRead(Got(pending), disk) =>
      var most := 9_007_199_254_740_991;
      if !disk.Healthy? || pending > most || c.chainId > most || MaxNonce(t.rows, c.signer, c.chainId) >= most
      then Some(NO_VERDICT) else None
    case Prepared(Failed(x), guarded, _, _) =>
      Some(if guarded && Unanswered(x) then NO_VERDICT else OwnWord(x, "unexpected_settle_error"))
    case Prepared(Got(tx), _, now, disk) =>
      if !AsAsked(c, tx, stage.nonce) then Some("unexpected_settle_error")
      else ClaimEnds(t, ClaimFor(c, i, tx, stage.nonce, now), c.limits, disk)
    case _ => None
  }

  /** What the end of an operation before its claim leaves: the tables as they were, and one failure for its callers. */
  ghost predicate EndsWith(m: Move, t: Tables, word: string) {
    && m.tables == t && m.acts == [] && m.next.Conclude? && m.next.body.Raised?
    && OfFailure(DescribeFailure(m.next.body.error, Settle)) == SettleBody(false, None, None, Some(word), false)
  }

  lemma NonceEnds(c: Config, t: Tables, i: Intent, op: Op, e: Input)
    requires Resumes(e, op.stage) && e.NonceRead? && (e.nonce.Failed? ==> Foreign(e.nonce.error.Kind()))
    ensures var word, m := EndWord(c, t, i, op.stage, e), Decide(c, t, i, op, e);
            if word.Some? then EndsWith(m, t, word.value) else m.next.Park? && m.tables == t
  {
    if e.nonce.Failed? {
      GuardedFailure(e.nonce.error, Settle);
    }
  }

  lemma ClaimEndsWith(t: Tables, c: Claim, limits: Limits, disk: Disk)
    ensures var word, txn := ClaimEnds(t, c, limits, disk), ClaimTxn(t, c, limits, disk);
            && (word.Some? ==> txn.tables == t && AfterClaim(txn.reply).Conclude?
                               && AfterClaim(txn.reply).body.Raised?
                               && OfFailure(DescribeFailure(AfterClaim(txn.reply).body.error, Settle))
                                  == SettleBody(false, None, None, Some(word.value), false))
            && (word.None? ==> txn.reply.Kept? || (disk.LostAfter? && Claimable(t, c, limits)))
  {
    ClaimLandsIff(t, c, limits, disk);
  }

  lemma PreparedEnds(c: Config, t: Tables, i: Intent, op: Op, e: Input)
    requires Resumes(e, op.stage) && e.Prepared?
    requires e.tx.Failed? ==> Foreign(e.tx.error.Kind()) || e.tx.error.Kind().RedemptionRejected?
    ensures var word, m := EndWord(c, t, i, op.stage, e), Decide(c, t, i, op, e);
            && (word.Some? ==> EndsWith(m, t, word.value))
            && (word.None? ==>
                  && AsAsked(c, e.tx.value, op.stage.nonce)
                  && (m.next.Conclude? && m.next.body.Raised? ==>
                        e.disk.LostAfter? && Claimable(t, ClaimFor(c, i, e.tx.value, op.stage.nonce, e.now), c.limits)))
  {
    match e.tx {
      case Failed(x) =>
        GuardedFailure(x, Settle);
        PlainFailure(x);
      case Got(tx) =>
        if Matches(c, tx, op.stage.nonce) {
          ClaimEndsWith(t, ClaimFor(c, i, tx, op.stage.nonce, e.now), c.limits, e.disk);
        }
    }
  }

  lemma EndsOnTheWire(p: Proc, i: Intent, m: Move, word: string)
    requires i in p.inflight && EndsWith(m, p.tables, word)
    ensures var step := Perform(p, i, m);
            && step.proc.tables == p.tables && i !in step.proc.inflight && step.acts != []
            && (forall a :: a in step.acts ==> a.Answered?)
            && (forall a :: a in step.acts ==> SettleRoute(a.body) == SettleBody(false, None, None, Some(word), false))
  {
    var op := p.inflight[i];
    assert Perform(p, i, m).acts == [] + AnswersTo(i, op, m.next.body) && |AnswersTo(i, op, m.next.body)| > 0;
    EveryCaller(i, op, m.next.body);
  }

  /**
   * Before its claim an operation is ended with a failure if and only if `EndWord` has a word for it: then nothing
   * was written or sent, and every caller is told that word. The one exception is a claim whose answer the disk
   * lost: that is committed, and its callers are told there is no verdict.
   */
  lemma EndsBeforeClaimIff(u: Setup, s: State, e: Input)
    requires Enabled(u, s, Deliver(e)) && !e.Call? && s.proc.inflight[Focus(s.proc, e).value].stage.Preparing()
    ensures var i := Focus(s.proc, e).value;
            var word := EndWord(u.config, s.proc.tables, i, s.proc.inflight[i].stage, e);
            var step := React(u.config, s.proc, e);
            && (word.Some? ==>
                  && step.proc.tables == s.proc.tables && i !in step.proc.inflight && step.acts != []
                  && (forall a :: a in step.acts ==> a.Answered?)
                  && (forall a :: a in step.acts ==> SettleRoute(a.body) == SettleBody(false, None, None, Some(word.value), false)))
            && (word.None? ==> (forall a :: a in step.acts && a.Answered? ==> a.body.Resolved?) || LosesClaim(u.config, s.proc, e))
  {
    var i := Focus(s.proc, e).value;
    var op, t := s.proc.inflight[i], s.proc.tables;
    var m := Decide(u.config, t, i, op, e);
    if e.NonceRead? {
      NonceEnds(u.config, t, i, op, e);
    } else if e.Prepared? {
      PreparedEnds(u.config, t, i, op, e);
    }
    var word := EndWord(u.config, t, i, op.stage, e);
    if word.Some? {
      EndsOnTheWire(s.proc, i, m, word.value);
    } else if m.next.Conclude? && m.next.body.Resolved? {
      ResolvedForAll(i, op, m.next.body);
    }
  }

  lemma ResolvedForAll(i: Intent, op: Op, b: Body)
    requires b.Resolved?
    ensures forall a :: a in AnswersTo(i, op, b) && a.Answered? ==> a.body.Resolved?
  {
    forall a | a in AnswersTo(i, op, b)
      ensures a.Answered? && a.body.Resolved?
    {
      var k: nat :| k < |AnswersTo(i, op, b)| && AnswersTo(i, op, b)[k] == a;
      AnswersShape(i, op, b, k);
    }
  }

  /** Every caller of an operation that failed is told the same. */
  lemma EveryCaller(i: Intent, op: Op, b: Body)
    requires b.Raised?
    ensures forall a :: a in AnswersTo(i, op, b) ==> a.Answered? && SettleRoute(a.body) == OfFailure(DescribeFailure(b.error, Settle))
  {
    forall a | a in AnswersTo(i, op, b)
      ensures a.Answered? && SettleRoute(a.body) == OfFailure(DescribeFailure(b.error, Settle))
    {
      var k: nat :| k < |AnswersTo(i, op, b)| && AnswersTo(i, op, b)[k] == a;
      AnswersShape(i, op, b, k);
    }
  }

  /** `/verify` of an unknown payment that cannot be simulated: no verdict if and only if the RPC did not answer. */
  lemma FailedSimulationOnTheWire(rows: seq<Row>, i: Intent, e: Thrown)
    requires Get(rows, i).None? && (Foreign(e.Kind()) || e.Kind().RedemptionRejected?)
    ensures VerifyRoute(rows, i, Healthy, Failed(e)) ==
              if Unanswered(e) then NoVerdict else Invalid(OwnWord(e, "unexpected_verify_error"))
  {
    GuardedFailure(e, Verify);
  }

  // ---- any facilitator's answers ---------------------------------------------------------------

  /** A word that is known is passed on; any other, or none, reads as a rejected delegation. */
  function PassedOn(word: Option<string>): string {
    if word.Some? && word.value in
            {"insufficient_funds", "invalid_scheme", "unsupported_scheme", "invalid_network", "invalid_payload",
             "invalid_payment_requirements", "invalid_x402_version", "invalid_transaction_state", "delegation_rejected",
             "payer_budget_exhausted", "budget_exhausted", "settlement_reverted", "vendor_not_credited"}
    then word.value else "delegation_rejected"
  }

  predicate Retried(word: Option<string>) { word in {Some("rate_limited"), Some("facilitator_not_ready")} }

  predicate LeftOpen(word: Option<string>) { word in {Some("settlement_pending"), Some("unexpected_settle_error")} }

  lemma OpenWordsAreOthers(word: Option<string>)
    requires Retried(word) || LeftOpen(word)
    ensures word !in {Some("vendor_not_credited"), Some("settlement_reverted")} && !(Retried(word) && LeftOpen(word))
  {
    assert "rate_limited"[0] == 'r' && "facilitator_not_ready"[0] == 'f' && "vendor_not_credited"[0] == 'v';
    assert "settlement_pending"[0] == 's' && "settlement_pending"[11] == 'p' && "settlement_reverted"[11] == 'r';
    assert "unexpected_settle_error"[0] == 'u' && "settlement_reverted"[0] == 's';
  }

  /**
   * What the seller answers to any `/settle` body of any facilitator. It serves only a success for the payer it
   * asked about; it offers again only a failure that names no transaction, or one known to have reverted; a named
   * transaction under any other word leaves the payment in doubt, and so does an answer that was lost.
   */
  lemma AnyReplyIsAnswered(reply: Option<SettleBody>, payer: Address)
    ensures var rung := AfterSettle(DecideSettlement(reply, payer));
            if reply.None? then rung == Doubtful(None)
            else
              var body, word := reply.value, reply.value.errorReason;
              var told := !Retried(word) && !LeftOpen(word);
              && (rung.RetryLater? <==> Retried(word)) && (rung.RetryLater? ==> Some(rung.word) == word)
              && (rung.Serve? <==> told && body.success && body.payer == Some(payer))
              && (rung.Misdirected? <==> told && !body.success && word == Some("vendor_not_credited"))
              && (rung.Reoffer? <==>
                    told && !body.success && word != Some("vendor_not_credited")
                    && (body.transaction.None? || word == Some("settlement_reverted")))
              && (rung.Reoffer? ==> rung.word == PassedOn(word))
              && (!rung.RetryLater? ==> rung.transaction == body.transaction)
  {
    if reply.Some? {
      var word := reply.value.errorReason;
      if Retried(word) || LeftOpen(word) {
        OpenWordsAreOthers(word);
      }
      assert "vendor_not_credited"[0] == 'v' && "delegation_rejected"[0] == 'd' && "settlement_reverted"[0] == 's';
      assert PassedOn(word) == FoldRefusalReason(word);
    }
  }

  /**
   * One presentation of a payment, for any two answers: it is served only if `/verify` accepted it for its payer
   * and `/settle` succeeded for it; without a verdict it is to be tried later; and one that was refused is offered
   * again with the reason, without asking `/settle`.
   */
  lemma PresentationIsAnswered(verify: VerifyBody, reply: Option<SettleBody>, payer: Address)
    ensures var rung := Present(DecideVerification(verify, payer), DecideSettlement(reply, payer));
            match verify
            case NoVerdict => rung == RetryLater("facilitator_not_ready")
            case Valid(p) =>
              if p == payer then rung == AfterSettle(DecideSettlement(reply, payer)) else rung == Reoffer("delegation_rejected", None)
            case Invalid(word) =>
              if word == "rate_limited" then rung == RetryLater("rate_limited")
              else if word in {"facilitator_not_ready", "unexpected_verify_error"} then rung == RetryLater("facilitator_not_ready")
              else rung == Reoffer(PassedOn(Some(word)), None)
  {
    if verify.Invalid? {
      assert PassedOn(Some(verify.reason)) == FoldRefusalReason(Some(verify.reason));
    }
  }

  /**
   * `/verify` of a payment the journal knows asks nothing of the chain: it refuses one that ended with an error,
   * and accepts one that is open or settled.
   */
  lemma KnownPaymentIsVerified(rows: seq<Row>, i: Intent, prepared: Answer<bool>)
    requires Get(rows, i).Some?
    ensures var terminal := Get(rows, i).value.terminal;
            VerifyRoute(rows, i, Healthy, prepared) ==
              if terminal.Some? && terminal.value.ending.errorCode !in {None, Some("")} then Invalid("invalid_transaction_state") else Valid(i.payer)
  {
  }

  // ---- honesty over runs --------------------------------------------------------------------

  ghost predicate AnsweredAt(u: Setup, es: seq<Occurrence>, k: nat) {
    Legal(u, Start(), es) && k < |Exec(u, Start(), es).history| && Exec(u, Start(), es).history[k].Answered?
  }

  /** No durable act on the intent, and no send for it, precedes position `k`. */
  ghost predicate NothingYet(h: seq<Act>, i: Intent, k: nat)
    requires k <= |h|
  {
    forall j :: 0 <= j < k && h[j].intent == i ==> !Durable(h[j])
  }

  lemma AnswerFacts(u: Setup, es: seq<Occurrence>, k: nat)
    requires AnsweredAt(u, es, k)
    ensures var s := Exec(u, Start(), es);
            var a := s.history[k];
            && BodyOk(s.proc.tables.rows, s.history, a.intent, a.owner, a.body)
            && (Refused(a) ==> NothingYet(s.history, a.intent, k))
  {
    Reached(u, es);
    var s := Exec(u, Start(), es);
    var a := s.history[k];
    assert ActOk(s.proc, s.history, s.nextCall, a);
    forall j | 0 <= j < k && s.history[j].intent == a.intent && Refused(a)
      ensures !Durable(s.history[j])
    {
      assert !Clash(s.history[j], s.history[k]);
    }
  }

  /** The words that carry meaning on the wire are pairwise different. */
  lemma WordsDiffer()
    ensures FACILITATOR_NOT_READY !in {RATE_LIMITED, DELEGATION_REJECTED, UNEXPECTED_SETTLE_ERROR, SETTLEMENT_PENDING,
                                       SETTLEMENT_REVERTED, VENDOR_NOT_CREDITED, "payer_budget_exhausted", "budget_exhausted"}
    ensures VENDOR_NOT_CREDITED !in {RATE_LIMITED, DELEGATION_REJECTED, UNEXPECTED_SETTLE_ERROR, SETTLEMENT_PENDING,
                                     SETTLEMENT_REVERTED, "payer_budget_exhausted", "budget_exhausted", ""}
    ensures SETTLEMENT_REVERTED !in {RATE_LIMITED, UNEXPECTED_SETTLE_ERROR, SETTLEMENT_PENDING, ""}
    ensures INVALID_TRANSACTION_STATE !in {RATE_LIMITED, FACILITATOR_NOT_READY, UNEXPECTED_VERIFY_ERROR}
  {
    assert FACILITATOR_NOT_READY[0] == 'f' && VENDOR_NOT_CREDITED[0] == 'v' && SETTLEMENT_REVERTED[0] == 's';
    assert RATE_LIMITED[0] == 'r' && DELEGATION_REJECTED[0] == 'd' && UNEXPECTED_SETTLE_ERROR[0] == 'u';
    assert SETTLEMENT_PENDING[0] == 's' && SETTLEMENT_PENDING[11] == 'p' && SETTLEMENT_REVERTED[11] == 'r';
    assert "payer_budget_exhausted"[0] == 'p' && "budget_exhausted"[0] == 'b';
    assert INVALID_TRANSACTION_STATE[0] == 'i' && UNEXPECTED_VERIFY_ERROR[0] == 'u';
  }

  /** Rejected, with no transaction named: the operation made no row, and nobody had sent anything. */
  lemma RejectedSentNothing(u: Setup, es: seq<Occurrence>, k: nat)
    requires AnsweredAt(u, es, k)
    requires var b := Exec(u, Start(), es).history[k].body;
             b.Raised? && DescribeFailure(b.error, Settle).Rejected?
    ensures var h := Exec(u, Start(), es).history;
            && SettleRoute(h[k].body).transaction.None? && !SettleRoute(h[k].body).success
            && NoClaim(h, h[k].owner) && NoSend(h, h[k].owner) && NothingYet(h, h[k].intent, k)
  {
    AnswerFacts(u, es, k);
  }

  /** Not-ready: the operation sent nothing, in this process or any later one. */
  lemma NotReadySentNothing(u: Setup, es: seq<Occurrence>, k: nat)
    requires AnsweredAt(u, es, k) && SettleRoute(Exec(u, Start(), es).history[k].body).errorReason == Some(FACILITATOR_NOT_READY)
    ensures var h := Exec(u, Start(), es).history;
            NoSend(h, h[k].owner) && h[k].body.Raised? && DescribeFailure(h[k].body.error, Settle).NotReady?
  {
    AnswerFacts(u, es, k);
    var s := Exec(u, Start(), es);
    WordsDiffer();
    if s.history[k].body.Resolved? {
      EndedIn(u, es, s.history[k].intent);
    }
  }

  /**
   * A failure of an operation that claimed goes out as not-ready if and only if the disk lost the answer
   * of its claim; every other one goes out as pending, under its row's hash.
   */
  lemma FailureAfterClaimIsInDoubt(u: Setup, es: seq<Occurrence>, k: nat)
    requires AnsweredAt(u, es, k)
    requires var h := Exec(u, Start(), es).history;
             h[k].body.Raised? && !NoClaim(h, h[k].owner)
    ensures var s := Exec(u, Start(), es);
            var a, row := s.history[k], Get(s.proc.tables.rows, s.history[k].intent);
            var lost := a.owner in LostClaims(u, Start(), es);
            && (SettleRoute(a.body) == OfFailure(NotReady) <==> lost)
            && (row.Some? && SettleRoute(a.body) == OfFailure(InDoubt(row.value.claim.hash)) <==> !lost)
  {
    ClaimerNotReadyIff(u, es, k);
    WordsDiffer();
  }

  /** A named transaction is the row's, whichever way the answer went. */
  lemma NamedTransactionIsTheRows(u: Setup, es: seq<Occurrence>, k: nat)
    requires AnsweredAt(u, es, k) && SettleRoute(Exec(u, Start(), es).history[k].body).transaction.Some?
    ensures var s := Exec(u, Start(), es);
            var a := s.history[k];
            Get(s.proc.tables.rows, a.intent).Some?
            && SettleRoute(a.body).transaction.value == Get(s.proc.tables.rows, a.intent).value.claim.hash
  {
    AnswerFacts(u, es, k);
  }

  /** The journal's ending of `i` is what its own mined transaction says. */
  ghost predicate EndedOnChain(s: State, i: Intent, success: bool, credited: bool) {
    exists k :: 0 <= k < |s.world.mined| && Ended(s.proc.tables.rows, i)
      && Keccak(s.world.mined[k].tx) == Get(s.proc.tables.rows, i).value.claim.hash
      && s.world.mined[k].success == success
      && (Credited(s.world.mined[k].success, s.world.mined[k].logs, i) <==> credited)
  }

  /** The failure word of a terminal row, against the receipt behind it. */
  lemma EndingsOnChain(u: Setup, s: State, i: Intent)
    requires Inv(u, s) && Ended(s.proc.tables.rows, i)
    ensures var code := Get(s.proc.tables.rows, i).value.terminal.value.ending.errorCode;
            || (code == None && EndedOnChain(s, i, true, true))
            || (code == Some(VENDOR_NOT_CREDITED) && EndedOnChain(s, i, true, false))
            || (code == Some(SETTLEMENT_REVERTED) && EndedOnChain(s, i, false, false))
  {
    var row := Get(s.proc.tables.rows, i).value;
    var code := row.terminal.value.ending.errorCode;
    assert MinedAs(s.world, row.claim.hash, i, code);
    var k :| 0 <= k < |s.world.mined| && Keccak(s.world.mined[k].tx) == row.claim.hash
             && ReceiptFailure(s.world.mined[k].success, s.world.mined[k].logs, i) == code;
    NoFailureIffCredited(s.world.mined[k].success, s.world.mined[k].logs, i);
    WordsDiffer();
  }

  lemma EndedIn(u: Setup, es: seq<Occurrence>, i: Intent)
    requires Legal(u, Start(), es) && Ended(Exec(u, Start(), es).proc.tables.rows, i)
    ensures var s := Exec(u, Start(), es);
            var code := Get(s.proc.tables.rows, i).value.terminal.value.ending.errorCode;
            || (code == None && EndedOnChain(s, i, true, true))
            || (code == Some(VENDOR_NOT_CREDITED) && EndedOnChain(s, i, true, false))
            || (code == Some(SETTLEMENT_REVERTED) && EndedOnChain(s, i, false, false))
  {
    Reached(u, es);
    EndingsOnChain(u, Exec(u, Start(), es), i);
  }

  /** Success on the wire: a finished row whose mined receipt credited the vendor. */
  lemma SuccessMeansCredited(u: Setup, es: seq<Occurrence>, k: nat)
    requires AnsweredAt(u, es, k) && SettleRoute(Exec(u, Start(), es).history[k].body).success
    ensures var s := Exec(u, Start(), es);
            EndedOnChain(s, s.history[k].intent, true, true)
            && SettleRoute(s.history[k].body).payer == Some(s.history[k].intent.payer)
  {
    AnswerFacts(u, es, k);
    EndedIn(u, es, Exec(u, Start(), es).history[k].intent);
  }

  /** The seller serves only when the vendor was credited. */
  lemma ServedIsPaid(u: Setup, es: seq<Occurrence>, k: nat)
    requires AnsweredAt(u, es, k)
    requires SellerRung(Exec(u, Start(), es).history[k].intent, Exec(u, Start(), es).history[k].body).Serve?
    ensures EndedOnChain(Exec(u, Start(), es), Exec(u, Start(), es).history[k].intent, true, true)
  {
    SuccessMeansCredited(u, es, k);
  }

  /** The seller says 502 only when the mined transaction credited someone else. */
  lemma MisdirectedIsTrue(u: Setup, es: seq<Occurrence>, k: nat)
    requires AnsweredAt(u, es, k)
    requires SellerRung(Exec(u, Start(), es).history[k].intent, Exec(u, Start(), es).history[k].body).Misdirected?
    ensures EndedOnChain(Exec(u, Start(), es), Exec(u, Start(), es).history[k].intent, true, false)
  {
    AnswerFacts(u, es, k);
    WordsDiffer();
    var s := Exec(u, Start(), es);
    if s.history[k].body.Resolved? {
      EndedIn(u, es, s.history[k].intent);
    }
  }

  /** A 402 after `/settle`: nothing had been claimed or sent, or the mined transaction reverted. */
  lemma ReofferedChargedNobody(u: Setup, es: seq<Occurrence>, k: nat)
    requires AnsweredAt(u, es, k)
    requires SellerRung(Exec(u, Start(), es).history[k].intent, Exec(u, Start(), es).history[k].body).Reoffer?
    ensures var s := Exec(u, Start(), es);
            var a := s.history[k];
            || (a.body.Raised? && NothingYet(s.history, a.intent, k) && NoSend(s.history, a.owner) && NoClaim(s.history, a.owner))
            || (a.body.Resolved? && EndedOnChain(s, a.intent, false, false))
  {
    AnswerFacts(u, es, k);
    var a := Exec(u, Start(), es).history[k];
    if a.body.Resolved? {
      EndedIn(u, es, a.intent);
    }
  }

  /** What the seller makes of a resolved row is decided by how the row ended. */
  lemma ResolvedRungs(row: Row, replayed: bool)
    requires row.terminal.Some?
    requires row.terminal.value.ending.errorCode in {None, Some(SETTLEMENT_REVERTED), Some(VENDOR_NOT_CREDITED)}
    ensures SellerRung(row.claim.intent, Resolved(row, replayed)) ==
            match row.terminal.value.ending.errorCode
            case None => Serve(Some(row.claim.hash))
            case Some(word) => if word == VENDOR_NOT_CREDITED then Misdirected(Some(row.claim.hash)) else Reoffer(word, Some(row.claim.hash))
  {
    WordsDiffer();
  }

  // ---- the two routes agree ------------------------------------------------------------------

  /** A known row is answered without simulating, and `/verify` refuses it exactly when `/settle` fails it. */
  lemma RoutesAgree(rows: seq<Row>, i: Intent, prepared: Answer<bool>, prepared': Answer<bool>, replayed: bool)
    requires Ended(rows, i)
    ensures VerifyRoute(rows, i, Healthy, prepared) == VerifyRoute(rows, i, Healthy, prepared')
    ensures VerifyRoute(rows, i, Healthy, prepared) == Invalid(INVALID_TRANSACTION_STATE)
            <==> !SettleRoute(Resolved(Get(rows, i).value, replayed)).success
    ensures VerifyRoute(rows, i, Healthy, prepared) in {Invalid(INVALID_TRANSACTION_STATE), Valid(i.payer)}
  {
  }

  /**
   * The two routes never give opposite verdicts on a finished payment: whoever is answered after its row
   * ended is told by `/settle` what `/verify` says from then on, or no verdict at all.
   */
  lemma RoutesAgreeForGood(u: Setup, es: seq<Occurrence>, later: seq<Occurrence>, i: Intent, k: nat, prepared: Answer<bool>)
    requires Legal(u, Start(), es) && Ended(Exec(u, Start(), es).proc.tables.rows, i)
    requires Legal(u, Exec(u, Start(), es), later)
    requires var s := Exec(u, Start(), es);
             var h := Exec(u, s, later).history;
             |s.history| <= k < |h| && h[k].intent == i && h[k].Answered?
    ensures var s := Exec(u, Start(), es);
            var s' := Exec(u, s, later);
            var verify, settle := VerifyRoute(s'.proc.tables.rows, i, Healthy, prepared), SettleRoute(s'.history[k].body);
            var hash := Get(s.proc.tables.rows, i).value.claim.hash;
            || settle == OfFailure(NotReady)
            || settle == OfFailure(InDoubt(hash))
            || (settle.transaction == Some(hash)
                && (settle.success <==> verify == Valid(i.payer))
                && (!settle.success <==> verify == Invalid(INVALID_TRANSACTION_STATE)))
  {
    var s := Exec(u, Start(), es);
    var s' := Exec(u, s, later);
    Reached(u, es);
    LaterAnswersNameTheRow(u, s, later, i, k);
    EndedStays(u, s, later, i);
    var b := s'.history[k].body;
    if b.Resolved? {
      RoutesAgree(s'.proc.tables.rows, i, prepared, prepared, b.replayed);
    }
  }

  /** The seller's answer when a payment whose row has ended is presented once more. */
  function PresentedAgain(rows: seq<Row>, i: Intent): Rung
    requires Ended(rows, i)
  {
    Present(DecideVerification(VerifyRoute(rows, i, Healthy, Got(true)), i.payer),
            DecideSettlement(Some(SettleRoute(Resolved(Get(rows, i).value, true))), i.payer))
  }

  /**
   * The seller withholds its offer from a buyer whose mined payment credited someone else. It keeps
   * to that when `/settle` says so, and not when the same payment comes back: `/verify` then refuses
   * first, and the offer goes out. A repeated answer invites a payer who was charged to pay again
   * exactly when the row ended without crediting the vendor.
   */
  lemma RepeatedOfferIff(u: Setup, es: seq<Occurrence>, i: Intent)
    requires Legal(u, Start(), es) && Ended(Exec(u, Start(), es).proc.tables.rows, i)
    ensures var s := Exec(u, Start(), es);
            var code := Get(s.proc.tables.rows, i).value.terminal.value.ending.errorCode;
            var again := PresentedAgain(s.proc.tables.rows, i);
            && (again == Reoffer(INVALID_TRANSACTION_STATE, None) <==> code != None)
            && (again == Serve(Some(Get(s.proc.tables.rows, i).value.claim.hash)) <==> code == None)
            && (again.Reoffer? && !EndedOnChain(s, i, false, false) ==> code == Some(VENDOR_NOT_CREDITED))
            && (code == Some(VENDOR_NOT_CREDITED) ==>
                  again.Reoffer? && EndedOnChain(s, i, true, false)
                  && SellerRung(i, Resolved(Get(s.proc.tables.rows, i).value, true)).Misdirected?)
  {
    var s := Exec(u, Start(), es);
    EndedIn(u, es, i);
    var row := Get(s.proc.tables.rows, i).value;
    assert row.claim.intent == i;
    ResolvedRungs(row, true);
    WordsDiffer();
    RoutesAgree(s.proc.tables.rows, i, Got(true), Got(true), true);
  }

  /** A run in which it happens: the payment mined and credited nobody, and its offer goes out again. */
  lemma RepeatedOfferIsReached()
    ensures var es := W.Waiting1([]) + [W.Arrives([])];
            && Legal(W.ONE, Start(), es)
            && var s := Exec(W.ONE, Start(), es);
               Ended(s.proc.tables.rows, W.PAYMENT) && EndedOnChain(s, W.PAYMENT, true, false)
               && PresentedAgain(s.proc.tables.rows, W.PAYMENT).Reoffer?
  {
    W.MisdirectedIsReached();
    RepeatedOfferIff(W.ONE, W.Waiting1([]) + [W.Arrives([])], W.PAYMENT);
  }
}
