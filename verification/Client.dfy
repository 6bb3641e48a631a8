/**
 * What the paying client makes of the seller's answer (packages/delegation/src/payment-client.ts), and
 * so what the arcade writes on the ticket (apps/arcade-service/payments.ts), against what was sent.
 */
module Client {
  import opened Wrappers
  import opened Journal
  import opened Guards
  import opened Receipts
  import opened Recovery
  import opened RecoveryRuns
  import opened RecoveryProperties
  import opened Wire
  import A = Arcade
  import AA = ArcadeAnswers
  import AP = ArcadeProperties
  import AR = ArcadeRuns
  import W = RecoveryWitness

  const PAYMENT_IDENTIFIER_CONFLICT := "payment_identifier_conflict"
  const PAYMENT_IDENTIFIER_SETTLED := "payment_identifier_settled"

  datatype Code = SettlementUnknown | SellerUnavailable | PaymentRejected
  {
    function Name(): string {
      match this
      case SettlementUnknown => "SETTLEMENT_UNKNOWN"
      case SellerUnavailable => "SELLER_UNAVAILABLE"
      case PaymentRejected => "PAYMENT_REJECTED"
    }
  }

  // ---- the answer on the wire --------------------------------------------------------------

  function Status(r: Rung): nat {
    match r
    case Serve(_) => 200
    case RetryLater(_) => 503
    case Doubtful(_) => 504
    case Misdirected(_) => 502
    case Reoffer(_, _) => 402
  }

  /** The two fields of a failure's `Payment-Response` that are read. */
  datatype Declared = Declared(reason: string, transaction: Option<Hash>)

  function FailureReceipt(r: Rung): Declared
    requires !r.Serve?
  {
    match r
    case RetryLater(word) => Declared(word, None)
    case Doubtful(tx) => Declared(SETTLEMENT_PENDING, tx)
    case Misdirected(tx) => Declared(VENDOR_NOT_CREDITED, tx)
    case Reoffer(word, tx) => Declared(word, tx)
  }

  // ---- the client's side -------------------------------------------------------------------

  function CodeOfStatus(status: nat): Code {
    if status in {408, 425, 504, 502, 520, 521, 522, 523, 524} then SettlementUnknown
    else if status == 429 || status == 503 then SellerUnavailable
    else PaymentRejected
  }

  const DOUBT_WORDS: set<string> := {SETTLEMENT_PENDING, UNEXPECTED_SETTLE_ERROR, PAYMENT_IDENTIFIER_SETTLED}
  const RETRY_WORDS: set<string> := {RATE_LIMITED, FACILITATOR_NOT_READY, UNEXPECTED_VERIFY_ERROR}
  const REFUSAL_WORDS: set<string> :=
    {DELEGATION_REJECTED, PAYMENT_IDENTIFIER_CONFLICT, "insufficient_funds", "invalid_scheme", "unsupported_scheme",
     "invalid_network", "invalid_payload", "invalid_payment_requirements", "invalid_x402_version", INVALID_TRANSACTION_STATE}

  function CodeOfWord(word: string): Option<Code> {
    if word in DOUBT_WORDS then Some(SettlementUnknown)
    else if word in RETRY_WORDS then Some(SellerUnavailable)
    else if word in REFUSAL_WORDS then Some(PaymentRejected)
    else None
  }

  /** A status in doubt or a named transaction stands over the word; else the word stands over the status. */
  function ReadRefusal(status: nat, declared: Declared): Code {
    var byStatus := CodeOfStatus(status);
    if byStatus.SettlementUnknown? || declared.transaction.Some? then SettlementUnknown
    else match CodeOfWord(declared.reason)
      case Some(code) => code
      case None => byStatus
  }

  /** How one `payForDelegatedResource` can end. */
  datatype Exchange = NotSent(code: string) | NoAnswer | Replied(rung: Rung) | Unreadable

  function ResultOf(e: Exchange): A.Result {
    match e
    case NotSent(code) => A.Refused(false, code)
    case NoAnswer => A.Refused(true, SettlementUnknown.Name())
    case Unreadable => A.Refused(true, "MALFORMED_RESOURCE")
    case Replied(rung) =>
      if rung.Serve? then A.Paid
      else
        var code := ReadRefusal(Status(rung), FailureReceipt(rung));
        A.Refused(code.SettlementUnknown?, code.Name())
  }

  /** The settle answer `b` for `i`, all the way to the arcade. */
  function Reading(i: Intent, b: Body): A.Result { ResultOf(Replied(SellerRung(i, b))) }

  // ---- what a reading is worth -------------------------------------------------------------

  /** No word that the seller re-offers under reads as a doubt. */
  lemma RefusalIsNoDoubt(word: string)
    requires word in KNOWN_REFUSAL_REASONS
    ensures word !in DOUBT_WORDS
  {
    assert SETTLEMENT_PENDING[0] == 's' && UNEXPECTED_SETTLE_ERROR[0] == 'u' && PAYMENT_IDENTIFIER_SETTLED[0] == 'p';
    assert SETTLEMENT_PENDING[11] == 'p' && UNEXPECTED_SETTLE_ERROR[2] == 'e' && PAYMENT_IDENTIFIER_SETTLED[3] == 'm';
    assert SETTLEMENT_REVERTED[0] == 's' && SETTLEMENT_REVERTED[11] == 'r';
    assert "unsupported_scheme"[0] == 'u' && "unsupported_scheme"[2] == 's';
    assert "payer_budget_exhausted"[0] == 'p' && "payer_budget_exhausted"[3] == 'e';
    assert DELEGATION_REJECTED[0] == 'd' && VENDOR_NOT_CREDITED[0] == 'v' && "budget_exhausted"[0] == 'b';
  }

  /** The answers behind which a transaction may stand. */
  predicate InQuestion(b: Body) {
    match b
    case Resolved(row, _) => row.terminal.Some? && row.terminal.value.ending.Failed()
    case Raised(e) => DescribeFailure(e, Settle).InDoubt? || DescribeFailure(e, Settle) == Rejected(UNEXPECTED_SETTLE_ERROR)
  }

  lemma RetryWordIsNoDoubt()
    ensures FACILITATOR_NOT_READY !in DOUBT_WORDS && RATE_LIMITED !in DOUBT_WORDS
  {
    assert FACILITATOR_NOT_READY[0] == 'f' && RATE_LIMITED[0] == 'r';
    assert SETTLEMENT_PENDING[0] == 's' && UNEXPECTED_SETTLE_ERROR[0] == 'u' && PAYMENT_IDENTIFIER_SETTLED[0] == 'p';
  }

  /**
   * What the client makes of any failure: in doubt if and only if its status or its word says so or it names a
   * transaction; to be tried later if and only if its word says that, or its status does and its word is no refusal;
   * and refused otherwise.
   */
  lemma AnyRefusalIsRead(status: nat, declared: Declared)
    ensures var code := ReadRefusal(status, declared);
            var doubt := status in {408, 425, 502, 504, 520, 521, 522, 523, 524} || declared.transaction.Some?
                         || declared.reason in {"settlement_pending", "unexpected_settle_error", "payment_identifier_settled"};
            var later := declared.reason in {"rate_limited", "facilitator_not_ready", "unexpected_verify_error"};
            var refused := declared.reason in
                {"delegation_rejected", "payment_identifier_conflict", "insufficient_funds", "invalid_scheme", "unsupported_scheme",
                 "invalid_network", "invalid_payload", "invalid_payment_requirements", "invalid_x402_version", "invalid_transaction_state"};
            && (code.SettlementUnknown? <==> doubt)
            && (code.SellerUnavailable? <==> !doubt && (later || (!refused && status in {429, 503})))
            && code.Name() == if doubt then "SETTLEMENT_UNKNOWN" else if code.SellerUnavailable? then "SELLER_UNAVAILABLE" else "PAYMENT_REJECTED"
  {
    if declared.reason in RETRY_WORDS {
      RetryIsNoRefusal(declared.reason);
    }
  }

  lemma RetryIsNoRefusal(word: string)
    requires word in RETRY_WORDS
    ensures word !in REFUSAL_WORDS && word !in DOUBT_WORDS
  {
    assert RATE_LIMITED[0] == 'r' && FACILITATOR_NOT_READY[0] == 'f' && UNEXPECTED_VERIFY_ERROR[0] == 'u';
    assert UNEXPECTED_VERIFY_ERROR[2] == 'e' && "unsupported_scheme"[0] == 'u' && "unsupported_scheme"[2] == 's';
    assert UNEXPECTED_VERIFY_ERROR[11] == 'v' && UNEXPECTED_SETTLE_ERROR[11] == 's';
    assert DELEGATION_REJECTED[0] == 'd' && PAYMENT_IDENTIFIER_CONFLICT[0] == 'p' && "insufficient_funds"[0] == 'i';
    assert SETTLEMENT_PENDING[0] == 's' && PAYMENT_IDENTIFIER_SETTLED[0] == 'p' && INVALID_TRANSACTION_STATE[0] == 'i';
  }

  /** The code of a failure: it is in question, or there was no verdict, or it was refused. */
  function CodeFor(b: Body): string {
    if InQuestion(b) then "SETTLEMENT_UNKNOWN"
    else if SettleRoute(b).errorReason == Some("facilitator_not_ready") then "SELLER_UNAVAILABLE"
    else "PAYMENT_REJECTED"
  }

  /** What an answer that a run can give is worth to the arcade. */
  lemma ReadingOf(i: Intent, b: Body)
    requires b.Resolved? ==> b.row.terminal.Some? && b.row.claim.intent == i
    requires b.Resolved? ==> b.row.terminal.value.ending.errorCode in {None, Some(SETTLEMENT_REVERTED), Some(VENDOR_NOT_CREDITED)}
    requires b.Raised? ==> Worded(DescribeFailure(b.error, Settle))
    ensures Reading(i, b) == A.Paid <==> SettleRoute(b).success
    ensures (Reading(i, b).Refused? && Reading(i, b).unknown) <==> InQuestion(b)
    ensures !SettleRoute(b).success ==> Reading(i, b) == A.Refused(InQuestion(b), CodeFor(b))
  {
    WordsDiffer();
    RetryWordIsNoDoubt();
    if b.Resolved? {
      ResolvedRungs(b.row, b.replayed);
    } else {
      RaisedReading(i, DescribeFailure(b.error, Settle), b.error);
    }
  }

  /** The words our own facilitator rejects a payment with. */
  predicate Worded(f: Failure) {
    f.Rejected? ==> f.code in {DELEGATION_REJECTED, UNEXPECTED_SETTLE_ERROR, "payer_budget_exhausted", "budget_exhausted"}
  }

  lemma RaisedReading(i: Intent, f: Failure, e: Thrown)
    requires f == DescribeFailure(e, Settle) && Worded(f)
    ensures var r := Reading(i, Raised(e));
            && r.Refused? && (r.unknown <==> f.InDoubt? || f == Rejected(UNEXPECTED_SETTLE_ERROR))
            && r.code == CodeFor(Raised(e))
  {
    WordsDiffer();
    RetryWordIsNoDoubt();
    match f {
      case NotReady =>
        assert SellerRung(i, Raised(e)) == RetryLater(FACILITATOR_NOT_READY);
      case InDoubt(hash) =>
        assert SellerRung(i, Raised(e)) == Doubtful(Some(hash));
      case Rejected(code) =>
        RejectionWords(code);
        if code == UNEXPECTED_SETTLE_ERROR {
          assert SellerRung(i, Raised(e)) == Doubtful(None);
        } else {
          RefusalIsNoDoubt(code);
          assert SellerRung(i, Raised(e)) == Reoffer(code, None);
        }
    }
  }

  lemma RejectionWords(code: string)
    requires code in {DELEGATION_REJECTED, UNEXPECTED_SETTLE_ERROR, "payer_budget_exhausted", "budget_exhausted"}
    ensures code !in {RATE_LIMITED, FACILITATOR_NOT_READY, SETTLEMENT_PENDING, VENDOR_NOT_CREDITED}
    ensures code != UNEXPECTED_SETTLE_ERROR ==> code in KNOWN_REFUSAL_REASONS
  {
    assert RATE_LIMITED[0] == 'r' && FACILITATOR_NOT_READY[0] == 'f' && SETTLEMENT_PENDING[0] == 's' && VENDOR_NOT_CREDITED[0] == 'v';
    assert DELEGATION_REJECTED[0] == 'd' && UNEXPECTED_SETTLE_ERROR[0] == 'u';
    assert "payer_budget_exhausted"[0] == 'p' && "budget_exhausted"[0] == 'b';
  }

  lemma AnswersAreWorded(u: Setup, es: seq<Occurrence>, k: nat)
    requires AnsweredAt(u, es, k)
    ensures var a := Exec(u, Start(), es).history[k];
            match a.body
            case Resolved(row, _) => row.terminal.Some? && row.claim.intent == a.intent
              && row.terminal.value.ending.errorCode in {None, Some(SETTLEMENT_REVERTED), Some(VENDOR_NOT_CREDITED)}
            case Raised(e) => Worded(DescribeFailure(e, Settle))
  {
    AnswerFacts(u, es, k);
    var a := Exec(u, Start(), es).history[k];
    if a.body.Resolved? {
      EndedIn(u, es, a.intent);
    }
  }

  /**
   * Over every run of the settlement protocol: the arcade reads an answer as paid if and only if it is a
   * success, and as unknown if and only if a transaction may stand behind it, or the facilitator could not say; any
   * failure comes with the code that says which.
   */
  lemma ReadUnknownIff(u: Setup, es: seq<Occurrence>, k: nat)
    requires AnsweredAt(u, es, k)
    ensures var a := Exec(u, Start(), es).history[k];
            var r := Reading(a.intent, a.body);
            && (r == A.Paid <==> SettleRoute(a.body).success)
            && (r.Refused? && r.unknown <==> InQuestion(a.body))
            && (!SettleRoute(a.body).success ==> r == A.Refused(InQuestion(a.body), CodeFor(a.body)))
  {
    AnswersAreWorded(u, es, k);
    ReadingOf(Exec(u, Start(), es).history[k].intent, Exec(u, Start(), es).history[k].body);
  }

  /** The presentation of a payment: `/settle` is asked only where `/verify` accepted. */
  function Presented(v: Verdict, i: Intent, b: Body): A.Result {
    ResultOf(Replied(Present(v, DecideSettlement(Some(SettleRoute(b)), i.payer))))
  }

  lemma AcceptedReading(i: Intent, b: Body)
    ensures Presented(VerifyAccepted, i, b) == Reading(i, b)
  {
  }

  /**
   * A ticket that the end of its `buy` records as rejected was not charged: either `/verify` refused its
   * payment and `/settle` was never asked, or the operation that answered handed nothing to the network.
   */
  lemma RejectedTicketSentNothing(u: Setup, es: seq<Occurrence>, k: nat, v: Verdict, c: A.Config, db: A.Db, id: A.Id)
    requires AnsweredAt(u, es, k) && A.ById(db.tickets, id) >= 0 && db.tickets[A.ById(db.tickets, id)].Unresolved()
    requires var a, n := Exec(u, Start(), es).history[k], A.ById(db.tickets, id);
             var m := A.AfterPayment(c, db, id, Presented(v, a.intent, a.body));
             n < |m.db.tickets| && m.db.tickets[n].status.Rejected?
    ensures var h := Exec(u, Start(), es).history;
            v.VerifyAccepted? ==> NoSend(h, h[k].owner) && !SettleRoute(h[k].body).success && SettleRoute(h[k].body).transaction.None?
  {
    var a := Exec(u, Start(), es).history[k];
    if v.VerifyAccepted? {
      AcceptedReading(a.intent, a.body);
      RejectedOnlyIfRefused(c, db, id, Reading(a.intent, a.body));
      ReadUnknownIff(u, es, k);
      AnswerFacts(u, es, k);
    }
  }

  lemma RejectedOnlyIfRefused(c: A.Config, db: A.Db, id: A.Id, result: A.Result)
    requires A.ById(db.tickets, id) >= 0 && db.tickets[A.ById(db.tickets, id)].Unresolved()
    requires var m, n := A.AfterPayment(c, db, id, result), A.ById(db.tickets, id);
             n < |m.db.tickets| && m.db.tickets[n].status.Rejected?
    ensures result.Refused? && !result.unknown
  {
  }

  /**
   * What the client cannot read is no verdict: where no payment is due, a request that was never sent leaves its ticket
   * rejected, and one whose answer was lost, unreadable, or a success without an order leaves it unknown.
   */
  lemma SilenceIsUnknown(c: A.Config, db: A.Db, k: nat, e: Exchange)
    requires AR.DbOk(c, db) && k < |db.tickets| && db.tickets[k].Unresolved() && !AA.Due(c, db, db.tickets[k])
    ensures var ticket := db.tickets[k];
            var m := A.AfterPayment(c, db, ticket.id, ResultOf(e));
            match e
            case NotSent(code) =>
              m == A.Move(db.(tickets := db.tickets[k := ticket.(status := A.Rejected, error := Some(code))]), A.Told(A.Problem(A.PaymentRejected)))
            case NoAnswer =>
              m == A.Move(db.(tickets := db.tickets[k := ticket.(status := A.Status.Unknown, error := Some("SETTLEMENT_UNKNOWN"))]),
                          A.Told(A.Problem(A.PaymentUnresolved)))
            case Unreadable =>
              m == A.Move(db.(tickets := db.tickets[k := ticket.(status := A.Status.Unknown, error := Some("MALFORMED_RESOURCE"))]),
                          A.Told(A.Problem(A.PaymentUnresolved)))
            case Replied(rung) =>
              rung.Serve? ==>
                m == A.Move(db.(tickets := db.tickets[k := ticket.(status := A.Status.Unknown, error := Some("ORDER_MISSING"))]),
                            A.Told(A.Problem(A.PaymentUnresolved)))
  {
    AA.PaymentEnds(c, db, k, ResultOf(e));
  }

  // ---- a payment that mined as a failure -----------------------------------------------------------------

  /**
   * A settlement run that ends the payment without crediting the vendor, and the arcade beside it: the
   * answer reads as unknown, and the first ticket closes the arcade for good.
   */
  lemma MinedFailureCloses(u: Setup, es: seq<Occurrence>, k: nat, c: A.Config, request: A.Id, game: A.Game)
    requires AnsweredAt(u, es, k) && c.limits == u.config.limits
    requires var s := Exec(u, Start(), es);
             var a := s.history[k];
             && a.body.Resolved? && a.body.row.terminal.Some? && a.body.row.terminal.value.ending.Failed()
             && AR.Derived(c, a.intent) && forall j :: 0 <= j < |s.proc.tables.rows| ==> s.proc.tables.rows[j].claim.intent == a.intent
    ensures var s := Exec(u, Start(), es);
            var a := s.history[k];
            AP.ClosesForGood(c, [AP.Reserving(request, game)] + ([AR.Bound(0, a.intent)]
                                + ([AR.Settles(s.proc.tables)] + [AR.Done(0, Reading(a.intent, a.body))])))
  {
    var s := Exec(u, Start(), es);
    var a := s.history[k];
    Reached(u, es);
    ReadUnknownIff(u, es, k);
    AnswerFacts(u, es, k);
    AP.FailedPaymentCloses(c, request, game, a.intent, s.proc.tables, Reading(a.intent, a.body).code);
  }

  /** Such a run: the only payment of all mined, and credited someone else. */
  lemma MisdirectedCloses(repairs: bool, request: A.Id, game: A.Game)
    ensures var i := W.PAYMENT;
            AP.ClosesForGood(A.Config(i.payTo, i.amount, repairs, W.ONE.config.limits),
                             [AP.Reserving(request, game)] + ([AR.Bound(0, i)]
                             + ([AR.Settles(W.Ended1([]))] + [AR.Done(0, Reading(i, Resolved(W.EndedRow([]), false)))])))
  {
    var i := W.PAYMENT;
    W.MisdirectedIsReached();
    W.OneRow([]);
    MinedFailureCloses(W.ONE, W.Waiting1([]) + [W.Arrives([])], 3, A.Config(i.payTo, i.amount, repairs, W.ONE.config.limits), request, game);
  }
}
