/**
 * Whole runs of the settlement protocol: any number of calls, any answers a node may give, any
 * disk faults, a crash between any two steps, and the read-only repair running beside it.
 */
module RecoveryRuns {
  import opened Wrappers
  import opened Journal
  import opened Guards
  import opened Receipts
  import opened Recovery

  datatype Mined = Mined(tx: Tx, success: bool, logs: seq<Log>)

  /** The signer's side of the chain: what a node accepted, and what was mined, in nonce order. */
  datatype World = World(accepted: set<Tx>, mined: seq<Mined>)

  /** `base` is the signer's first unused nonce when the journal was empty. */
  datatype Setup = Setup(config: Config, base: nat)
  datatype State = State(proc: Proc, world: World, history: seq<Act>, nextCall: CallId)

  datatype Occurrence =
    | Deliver(input: Input)
    | Accept(tx: Tx)
    | Mine(tx: Tx, success: bool, logs: seq<Log>)
    | Crash
    | Repair(intent: Intent, receipt: Receipt, now: nat, disk: Disk)

  function Start(): State {
    State(Proc(map[], [], Tables([], map[], [])), World({}, []), [], 0)
  }

  /** A node may answer about another transaction, but not forge the receipt of this one. */
  ghost predicate Honest(w: World, hash: Hash, r: Receipt) {
    r.hash == hash ==> exists k :: 0 <= k < |w.mined| && Keccak(w.mined[k].tx) == hash
                                   && w.mined[k].success == r.success && w.mined[k].logs == r.logs
  }

  ghost predicate Taken(w: World, nonce: nat) {
    exists tx :: tx in w.accepted && tx.nonce == nonce
  }

  /** Which answers can arrive: the signer has no other user, and no library raises our own errors. */
  ghost predicate Plausible(u: Setup, s: State, e: Input)
    requires Ready(s.proc, e)
  {
    match e
    case Call(call, _) => call == s.nextCall
    case Turn(_) => true
    case NonceRead(Got(n), _) => u.base <= n && forall m :: u.base <= m < n ==> Taken(s.world, m)
    case NonceRead(Failed(e), _) => Foreign(e.Kind())
    case Prepared(Got(tx), _, _, _) => tx.call == s.proc.preparing[0]
    case Prepared(Failed(e), _, _, _) => Foreign(e.Kind()) || e.Kind().RedemptionRejected?
    case ReceiptRead(i, Got(Found(r)), _, _) => Honest(s.world, s.proc.inflight[i].stage.row.claim.hash, r)
    case ReceiptRead(_, _, _, _) => true
    case Restored(_, _) => true
    case SendReturned(_) => true
    case Waited(i, Got(r), _, _) => Honest(s.world, s.proc.inflight[i].stage.row.claim.hash, r)
    case Waited(_, Failed(_), _, _) => true
  }

  ghost predicate Enabled(u: Setup, s: State, e: Occurrence) {
    match e
    case Deliver(e) => Ready(s.proc, e) && Plausible(u, s, e)
    case Accept(tx) => exists i, o :: Handed(i, o, tx) in s.history
    case Mine(tx, _, _) => tx in s.world.accepted && tx.nonce == u.base + |s.world.mined|
    case Crash => true
    case Repair(i, r, _, _) => Get(s.proc.tables.rows, i).Some? ==>
                                 Honest(s.world, Get(s.proc.tables.rows, i).value.claim.hash, r)
  }

  ghost function Apply(u: Setup, s: State, e: Occurrence): State
    requires Enabled(u, s, e)
  {
    match e
    case Deliver(e) =>
      var step := React(u.config, s.proc, e);
      s.(proc := step.proc, history := s.history + step.acts,
         nextCall := if e.Call? then s.nextCall + 1 else s.nextCall)
    case Accept(tx) => s.(world := s.world.(accepted := s.world.accepted + {tx}))
    case Mine(tx, success, logs) => s.(world := s.world.(mined := s.world.mined + [Mined(tx, success, logs)]))
    case Crash => s.(proc := Crashed(s.proc))
    case Repair(i, r, now, disk) =>
      var after := Reconcile(s.proc.tables, i, r, now, disk).tables;
      s.(proc := s.proc.(tables := after),
         history := s.history + if after == s.proc.tables then [] else [Finished(i, None)])
  }

  ghost predicate Legal(u: Setup, s: State, es: seq<Occurrence>)
    decreases |es|
  {
    es == [] || (Enabled(u, s, es[0]) && Legal(u, Apply(u, s, es[0]), es[1..]))
  }

  ghost function Exec(u: Setup, s: State, es: seq<Occurrence>): State
    requires Legal(u, s, es)
    decreases |es|
  {
    if es == [] then s else Exec(u, Apply(u, s, es[0]), es[1..])
  }

  // ---- the invariant ---------------------------------------------------------------------

  ghost predicate NoSend(h: seq<Act>, o: CallId) {
    forall a :: a in h && a.Handed? ==> a.caller != o
  }

  ghost predicate NoClaim(h: seq<Act>, o: CallId) {
    forall a :: a in h && a.Claimed? ==> a.caller != o
  }

  ghost predicate FinishedByCall(h: seq<Act>, i: Intent) {
    exists o :: Finished(i, Some(o)) in h
  }

  ghost predicate Ended(rows: seq<Row>, i: Intent) {
    Get(rows, i).Some? && Get(rows, i).value.terminal.Some?
  }

  /** An answer that is a verdict on the payment, or no verdict because nothing was reached. */
  predicate Refused(a: Act) {
    a.Answered? && a.body.Raised? && !a.body.error.Kind().Pending? && !a.body.error.Kind().StorageUnavailable?
  }

  predicate Unmarked(a: Act) { a.Answered? && a.body.Resolved? && !a.body.replayed }

  predicate Durable(a: Act) { !a.Answered? }

  ghost predicate OpOk(u: Setup, rows: seq<Row>, h: seq<Act>, n: CallId, i: Intent, op: Op) {
    && op.owner < n
    && (op.stage.Preparing() ==> !op.replayed && NoSend(h, op.owner) && NoClaim(h, op.owner))
    && (op.stage.AskedNonce? || op.stage.AskedPrepare? ==> Get(rows, i).None?)
    && (op.stage.AskedPrepare? ==> op.stage.nonce == u.base + |rows|)
    && (!op.stage.Preparing() ==>
          && Get(rows, i).Some? && Get(rows, i).value.claim == op.stage.row.claim
          && (!op.replayed ==> Claimed(i, op.owner) in h && !FinishedByCall(h, i)))
  }

  ghost predicate Ops(u: Setup, p: Proc, h: seq<Act>, n: CallId) {
    && (forall i :: i in p.inflight ==> OpOk(u, p.tables.rows, h, n, i, p.inflight[i]))
    && (forall i, j :: i in p.inflight && j in p.inflight && i != j ==> p.inflight[i].owner != p.inflight[j].owner)
  }

  ghost predicate Queue(p: Proc) {
    && (forall k :: 0 <= k < |p.preparing| ==> p.preparing[k] in p.inflight
                                               && p.inflight[p.preparing[k]].stage.Preparing())
    && (forall k :: 0 < k < |p.preparing| ==> p.inflight[p.preparing[k]].stage.Queued?)
    && (forall j, k :: 0 <= j < k < |p.preparing| ==> p.preparing[j] != p.preparing[k])
    && (forall i :: i in p.inflight && p.inflight[i].stage.Preparing() ==> i in p.preparing)
  }

  /** No live operation is owned by the call: its operation ended, or its process died. */
  ghost predicate Gone(inflight: map<Intent, Op>, n: CallId, o: CallId) {
    o < n && forall i :: i in inflight ==> inflight[i].owner != o
  }

  /** What a step before the claim throws, once the guards have read it. */
  predicate Prebroadcast(k: Kind) {
    || Foreign(k) || k.RpcUnreachableBeforeBroadcast? || k.RedemptionRejected?
    || k == BudgetExceeded("payer_budget_exhausted") || k == BudgetExceeded("budget_exhausted")
  }

  /** What the operation of call `o` answered, against what it did and what the journal holds. */
  ghost predicate BodyOk(rows: seq<Row>, h: seq<Act>, i: Intent, o: CallId, b: Body) {
    match b
    case Resolved(row, replayed) =>
      && row.terminal.Some? && Get(rows, i) == Some(row)
      && (!replayed ==> Claimed(i, o) in h && (Finished(i, Some(o)) in h || Finished(i, None) in h))
    case Raised(e) =>
      match e.Kind()
      case Pending(hash) => Get(rows, i).Some? && Get(rows, i).value.claim.hash == hash
      case StorageUnavailable => NoSend(h, o)
      case _ => NoSend(h, o) && NoClaim(h, o) && Prebroadcast(e.Kind())
  }

  /** What each act of the history still says about the journal. */
  ghost predicate ActOk(p: Proc, h: seq<Act>, n: CallId, a: Act) {
    match a
    case Claimed(i, o) => Get(p.tables.rows, i).Some? && o < n
    case Handed(i, o, tx) => Get(p.tables.rows, i).Some? && Get(p.tables.rows, i).value.claim.hash == Keccak(tx) && o < n
    case Finished(i, _) => Ended(p.tables.rows, i)
    case Answered(call, i, o, b) => Gone(p.inflight, n, o) && BodyOk(p.tables.rows, h, i, o, b) && (Unmarked(a) ==> call == o)
  }

  ghost predicate Acts(p: Proc, h: seq<Act>, n: CallId) {
    forall a :: a in h ==> ActOk(p, h, n, a)
  }

  /** Two acts on one intent that may not both happen, the first before the second. */
  predicate Clash(a: Act, b: Act) {
    a.intent == b.intent &&
    ((a.Claimed? && b.Claimed?) || (a.Finished? && b.Finished?) || (Unmarked(a) && Unmarked(b)) || (Durable(a) && Refused(b)))
  }

  ghost predicate Once(h: seq<Act>) {
    forall j, k :: 0 <= j < k < |h| ==> !Clash(h[j], h[k])
  }

  ghost predicate Accounted(rows: seq<Row>, h: seq<Act>) {
    forall i :: Ended(rows, i) ==> Finished(i, None) in h || FinishedByCall(h, i)
  }

  /** The claimed nonces are the gap-free run from `base`, and each row names its own transaction. */
  ghost predicate Numbered(u: Setup, rows: seq<Row>) {
    forall k :: 0 <= k < |rows| ==>
      var c := rows[k].claim;
      && c.nonce == u.base + k && c.signer == u.config.signer && c.chainId == u.config.chainId
      && c.hash.tx.nonce == c.nonce && c.hash.tx.call == c.intent
  }

  ghost predicate OnChain(u: Setup, rows: seq<Row>, w: World) {
    && (forall tx :: tx in w.accepted ==> Get(rows, tx.call).Some? && Get(rows, tx.call).value.claim.hash == Keccak(tx))
    && (forall k :: 0 <= k < |w.mined| ==> w.mined[k].tx in w.accepted && w.mined[k].tx.nonce == u.base + k)
  }

  /** A terminal row says what the mined receipt of its own transaction says. */
  ghost predicate Truthful(rows: seq<Row>, w: World) {
    forall i :: Ended(rows, i) ==>
      MinedAs(w, Get(rows, i).value.claim.hash, i, Get(rows, i).value.terminal.value.ending.errorCode)
  }

  ghost predicate MinedAs(w: World, hash: Hash, i: Intent, errorCode: Option<string>) {
    exists k :: 0 <= k < |w.mined| && Keccak(w.mined[k].tx) == hash
                && ReceiptFailure(w.mined[k].success, w.mined[k].logs, i) == errorCode
  }

  ghost predicate Inv(u: Setup, s: State) {
    && Sound(s.proc.tables, u.config.limits)
    && Numbered(u, s.proc.tables.rows)
    && Queue(s.proc)
    && Ops(u, s.proc, s.history, s.nextCall)
    && Acts(s.proc, s.history, s.nextCall)
    && Once(s.history)
    && Accounted(s.proc.tables.rows, s.history)
    && OnChain(u, s.proc.tables.rows, s.world)
    && Truthful(s.proc.tables.rows, s.world)
  }

  lemma StartIsFine(u: Setup)
    ensures Inv(u, Start())
  {
    EmptyIsSound(u.config.limits);
  }

  // ---- one step touches one intent --------------------------------------------------------

  /** Rows of other intents stay as they are; the intent's own row keeps its claim and its ending. */
  ghost predicate Touches(rows: seq<Row>, rows': seq<Row>, i: Intent) {
    && (forall j :: j != i ==> Get(rows', j) == Get(rows, j))
    && (Get(rows, i).Some? ==>
          && Get(rows', i).Some? && Get(rows', i).value.claim == Get(rows, i).value.claim
          && (Get(rows, i).value.terminal.Some? ==> Get(rows', i) == Get(rows, i)))
  }

  lemma GetAppend(rows: seq<Row>, r: Row, j: Intent)
    ensures Get(rows + [r], j) == if r.claim.intent == j then Some(r) else Get(rows, j)
  {
    assert (rows + [r])[..|rows|] == rows;
  }

  lemma GetUpdate(rows: seq<Row>, k: nat, r: Row, j: Intent)
    requires Distinct(rows) && k < |rows| && r.claim == rows[k].claim
    ensures Get(rows[k := r], j) == if r.claim.intent == j then Some(r) else Get(rows, j)
  {
    var rows' := rows[k := r];
    if r.claim.intent == j {
      assert rows'[k].claim.intent == j;
    } else {
      var a, b := IndexOf(rows, j), IndexOf(rows', j);
      if a >= 0 { assert rows'[a] == rows[a]; }
      if b >= 0 { assert rows[b] == rows'[b]; }
    }
  }

  lemma ClaimTouches(t: Tables, c: Claim, limits: Limits, disk: Disk)
    ensures var txn := ClaimTxn(t, c, limits, disk);
            && Touches(t.rows, txn.tables.rows, c.intent)
            && (txn.tables != t ==> Get(t.rows, c.intent).None? && txn.tables.rows == t.rows + [NewRow(c)]
                                    && Get(txn.tables.rows, c.intent) == Some(NewRow(c)))
            && (txn.reply.Kept? ==> Get(txn.tables.rows, c.intent) == Some(txn.reply.row)
                                    && (txn.tables == t || txn.reply.row == NewRow(c)))
            && (txn.reply.OverBudget? ==> txn.tables == t)
  {
    forall j
      ensures Get(t.rows + [NewRow(c)], j) == if c.intent == j then Some(NewRow(c)) else Get(t.rows, j)
    {
      GetAppend(t.rows, NewRow(c), j);
    }
  }

  lemma FinishTouches(t: Tables, i: Intent, e: Ending, disk: Disk)
    requires Distinct(t.rows)
    ensures var txn := FinishTxn(t, i, e, disk);
            && Touches(t.rows, txn.tables.rows, i) && |txn.tables.rows| == |t.rows|
            && (Get(t.rows, i).None? ==> Get(txn.tables.rows, i).None?)
            && (txn.tables != t ==> Get(t.rows, i).Some? && Get(t.rows, i).value.terminal.None?
                                    && Get(txn.tables.rows, i).value.terminal.Some?
                                    && Get(txn.tables.rows, i).value.terminal.value.ending == e)
            && (txn.reply.Kept? ==> Get(txn.tables.rows, i) == Some(txn.reply.row) && txn.reply.row.terminal.Some?)
  {
    var k := IndexOf(t.rows, i);
    if FinishTxn(t, i, e, disk).tables != t {
      var r := t.rows[k].(terminal := Some(Terminal(|t.events|, e)));
      forall j
        ensures Get(t.rows[k := r], j) == if i == j then Some(r) else Get(t.rows, j)
      {
        GetUpdate(t.rows, k, r, j);
      }
    }
  }

  lemma ClaimNumbered(u: Setup, t: Tables, c: Claim, limits: Limits, disk: Disk)
    requires Numbered(u, t.rows) && c.nonce == u.base + |t.rows|
    requires c.signer == u.config.signer && c.chainId == u.config.chainId
    requires c.hash.tx.nonce == c.nonce && c.hash.tx.call == c.intent
    ensures Numbered(u, ClaimTxn(t, c, limits, disk).tables.rows)
  {
    ClaimTouches(t, c, limits, disk);
  }

  lemma FinishNumbered(u: Setup, t: Tables, i: Intent, e: Ending, disk: Disk)
    requires Sound(t, u.config.limits) && Numbered(u, t.rows)
    ensures Numbered(u, FinishTxn(t, i, e, disk).tables.rows)
  {
    FinishKeeps(t, i, e, u.config.limits, disk);
  }

  // ---- what one resumption may do -----------------------------------------------------------

  /** The one durable act or send a move may make, against the journal before and after it. */
  ghost predicate ActFits(rows: seq<Row>, rows': seq<Row>, i: Intent, op: Op, a: Act) {
    match a
    case Claimed(j, o) => j == i && o == op.owner && Get(rows, i).None? && Get(rows', i).Some?
    case Handed(j, o, tx) => j == i && o == op.owner && rows' == rows && Get(rows, i).Some?
                             && Get(rows, i).value.claim.hash == Keccak(tx)
    case Finished(j, f) => j == i && f == Some(op.owner) && Get(rows, i).Some? && !Ended(rows, i) && Ended(rows', i)
    case Answered(_, _, _, _) => false
  }

  ghost predicate TablesFit(u: Setup, w: World, t: Tables, i: Intent, op: Op, m: Move) {
    && Sound(m.tables, u.config.limits) && Numbered(u, m.tables.rows)
    && Touches(t.rows, m.tables.rows, i)
    && (|m.tables.rows| == |t.rows| || op.stage.AskedPrepare?)
    && (Ended(m.tables.rows, i) ==>
          && MinedAs(w, Get(m.tables.rows, i).value.claim.hash, i, Get(m.tables.rows, i).value.terminal.value.ending.errorCode)
          && (Ended(t.rows, i) || m.acts == [Finished(i, Some(op.owner))]))
    && (m.acts == [] || (|m.acts| == 1 && ActFits(t.rows, m.tables.rows, i, op, m.acts[0])))
  }

  ghost predicate NextFits(u: Setup, rows: seq<Row>, h: seq<Act>, n: CallId, i: Intent, op: Op, next: Next) {
    match next
    case Park(stage, replayed) =>
      (stage.Preparing() ==> op.stage.Preparing()) && OpOk(u, rows, h, n, i, op.(stage := stage, replayed := replayed))
    case Conclude(body) =>
      BodyOk(rows, h, i, op.owner, body) && (Refused(Answered(op.owner, i, op.owner, body)) ==> Get(rows, i).None?)
  }

  ghost predicate MoveFits(u: Setup, s: State, i: Intent, op: Op, m: Move) {
    && TablesFit(u, s.world, s.proc.tables, i, op, m)
    && NextFits(u, m.tables.rows, s.history + m.acts, s.nextCall, i, op, m.next)
  }

  lemma Still(u: Setup, s: State, i: Intent, op: Op, m: Move)
    requires Inv(u, s) && m.tables == s.proc.tables && m.acts == []
    requires NextFits(u, m.tables.rows, s.history, s.nextCall, i, op, m.next)
    ensures MoveFits(u, s, i, op, m)
  {
    assert s.history + m.acts == s.history;
  }

  lemma TurnFits(u: Setup, s: State, i: Intent, disk: Disk)
    requires Inv(u, s) && i in s.proc.inflight && s.proc.inflight[i].stage.Queued?
    ensures MoveFits(u, s, i, s.proc.inflight[i], OnTurn(s.proc.tables, i, disk))
  {
    Still(u, s, i, s.proc.inflight[i], OnTurn(s.proc.tables, i, disk));
  }

  lemma TakenIsClaimed(u: Setup, s: State, nonce: nat)
    requires Inv(u, s) && Taken(s.world, nonce)
    ensures nonce < u.base + |s.proc.tables.rows|
  {
    var tx :| tx in s.world.accepted && tx.nonce == nonce;
    var k := IndexOf(s.proc.tables.rows, tx.call);
    assert s.proc.tables.rows[k].claim.nonce == u.base + k;
  }

  /** A node that reports only nonces its mempool has seen is never ahead of the journal. */
  lemma PendingIsClaimed(u: Setup, s: State, pending: nat)
    requires Inv(u, s) && u.base <= pending && forall m :: u.base <= m < pending ==> Taken(s.world, m)
    ensures pending <= u.base + |s.proc.tables.rows|
  {
    if pending > u.base {
      TakenIsClaimed(u, s, pending - 1);
    }
  }

  lemma MaxNonceIsLast(u: Setup, rows: seq<Row>)
    requires Numbered(u, rows)
    ensures MaxNonce(rows, u.config.signer, u.config.chainId) == if rows == [] then -1 else u.base + |rows| - 1
  {
    if rows != [] {
      assert rows[|rows| - 1].claim.nonce == u.base + |rows| - 1;
    }
  }

  lemma NextNonceIsNext(u: Setup, s: State, pending: nat)
    requires Inv(u, s) && u.base <= pending && forall m :: u.base <= m < pending ==> Taken(s.world, m)
    ensures var next := NextNonce(s.proc.tables.rows, u.config.signer, u.config.chainId, pending);
            next.Some? ==> next.value == u.base + |s.proc.tables.rows|
  {
    PendingIsClaimed(u, s, pending);
    MaxNonceIsLast(u, s.proc.tables.rows);
  }

  lemma NonceFits(u: Setup, s: State, i: Intent, answer: Answer<nat>, disk: Disk)
    requires Inv(u, s) && i in s.proc.inflight && s.proc.inflight[i].stage.AskedNonce?
    requires Plausible(u, s, NonceRead(answer, disk))
    ensures MoveFits(u, s, i, s.proc.inflight[i], OnNonce(u.config, s.proc.tables, answer, disk))
  {
    if answer.Got? {
      NextNonceIsNext(u, s, answer.value);
    }
    assert OpOk(u, s.proc.tables.rows, s.history, s.nextCall, i, s.proc.inflight[i]);
    Still(u, s, i, s.proc.inflight[i], OnNonce(u.config, s.proc.tables, answer, disk));
  }

  /** An intent without a row has no durable act behind it. */
  lemma Untouched(p: Proc, h: seq<Act>, n: CallId, i: Intent)
    requires Acts(p, h, n) && Get(p.tables.rows, i).None?
    ensures forall a :: a in h && a.intent == i ==> !Durable(a)
  {
  }

  lemma CommitTablesFit(u: Setup, t: Tables, w: World, i: Intent, op: Op, tx: Tx, now: nat, disk: Disk)
    requires Sound(t, u.config.limits) && Numbered(u, t.rows) && Truthful(t.rows, w)
    requires op.stage.AskedPrepare? && op.stage.nonce == u.base + |t.rows|
    requires tx.call == i && Matches(u.config, tx, op.stage.nonce)
    ensures TablesFit(u, w, t, i, op, OnPrepared(u.config, t, i, op, Got(tx), true, now, disk))
  {
    var c := ClaimFor(u.config, i, tx, op.stage.nonce, now);
    ClaimKeeps(t, c, u.config.limits, disk);
    ClaimTouches(t, c, u.config.limits, disk);
    ClaimNumbered(u, t, c, u.config.limits, disk);
  }

  lemma CommitNextFits(u: Setup, s: State, i: Intent, tx: Tx, now: nat, disk: Disk)
    requires Ops(u, s.proc, s.history, s.nextCall) && Acts(s.proc, s.history, s.nextCall)
    requires i in s.proc.inflight && s.proc.inflight[i].stage.AskedPrepare?
    requires tx.call == i && Matches(u.config, tx, s.proc.inflight[i].stage.nonce)
    ensures var op := s.proc.inflight[i];
            var m := OnPrepared(u.config, s.proc.tables, i, op, Got(tx), true, now, disk);
            NextFits(u, m.tables.rows, s.history + m.acts, s.nextCall, i, op, m.next)
  {
    var op, t, h := s.proc.inflight[i], s.proc.tables, s.history;
    var m := OnPrepared(u.config, t, i, op, Got(tx), true, now, disk);
    assert OpOk(u, t.rows, h, s.nextCall, i, op);
    ClaimTouches(t, ClaimFor(u.config, i, tx, op.stage.nonce, now), u.config.limits, disk);
    Untouched(s.proc, h, s.nextCall, i);
    if m.tables == t {
      assert h + m.acts == h;
    } else {
      assert m.acts == [Claimed(i, op.owner)] && m.acts[0] in h + m.acts;
      assert NoSend(h + m.acts, op.owner);
    }
  }

  lemma PreparedFits(u: Setup, s: State, i: Intent, answer: Answer<Tx>, guarded: bool, now: nat, disk: Disk)
    requires Inv(u, s) && i in s.proc.inflight && s.proc.inflight[i].stage.AskedPrepare?
    requires Focus(s.proc, Prepared(answer, guarded, now, disk)) == Some(i)
    requires Plausible(u, s, Prepared(answer, guarded, now, disk))
    ensures MoveFits(u, s, i, s.proc.inflight[i],
                     OnPrepared(u.config, s.proc.tables, i, s.proc.inflight[i], answer, guarded, now, disk))
  {
    var op := s.proc.inflight[i];
    if answer.Got? && Matches(u.config, answer.value, op.stage.nonce) {
      assert OpOk(u, s.proc.tables.rows, s.history, s.nextCall, i, op);
      CommitTablesFit(u, s.proc.tables, s.world, i, op, answer.value, now, disk);
      CommitNextFits(u, s, i, answer.value, now, disk);
    } else {
      Still(u, s, i, op, OnPrepared(u.config, s.proc.tables, i, op, answer, guarded, now, disk));
    }
  }

  /** The receipt of the row's own transaction is one the chain mined. */
  lemma FinishFits(u: Setup, s: State, i: Intent, e: Ending, disk: Disk)
    requires Sound(s.proc.tables, u.config.limits) && Numbered(u, s.proc.tables.rows)
    requires Truthful(s.proc.tables.rows, s.world) && i in s.proc.inflight && Get(s.proc.tables.rows, i).Some?
    requires MinedAs(s.world, Get(s.proc.tables.rows, i).value.claim.hash, i, e.errorCode)
    ensures var op, txn := s.proc.inflight[i], FinishTxn(s.proc.tables, i, e, disk);
            var acts := if txn.tables == s.proc.tables then [] else [Finished(i, Some(op.owner))];
            forall next :: TablesFit(u, s.world, s.proc.tables, i, op, Move(txn.tables, next, acts))
  {
    FinishKeeps(s.proc.tables, i, e, u.config.limits, disk);
    FinishTouches(s.proc.tables, i, e, disk);
    FinishNumbered(u, s.proc.tables, i, e, disk);
  }

  lemma ClosedNextFits(u: Setup, s: State, i: Intent, e: Ending, disk: Disk)
    requires Inv(u, s) && i in s.proc.inflight && !s.proc.inflight[i].stage.Preparing()
    ensures var op, txn := s.proc.inflight[i], FinishTxn(s.proc.tables, i, e, disk);
            var acts := if txn.tables == s.proc.tables then [] else [Finished(i, Some(op.owner))];
            var next := if txn.reply.Kept? then Conclude(Resolved(txn.reply.row, op.replayed)) else PendingOn(op.stage.row);
            NextFits(u, txn.tables.rows, s.history + acts, s.nextCall, i, op, next)
  {
    var op, txn := s.proc.inflight[i], FinishTxn(s.proc.tables, i, e, disk);
    var acts := if txn.tables == s.proc.tables then [] else [Finished(i, Some(op.owner))];
    assert OpOk(u, s.proc.tables.rows, s.history, s.nextCall, i, op);
    FinishTouches(s.proc.tables, i, e, disk);
    assert acts != [] ==> acts[0] in s.history + acts;
    assert forall a :: a in s.history ==> a in s.history + acts;
    assert Ended(s.proc.tables.rows, i) ==> Finished(i, None) in s.history || FinishedByCall(s.history, i);
  }

  lemma CloseFits(u: Setup, s: State, i: Intent, r: Receipt, now: nat, disk: Disk)
    requires Inv(u, s) && i in s.proc.inflight && !s.proc.inflight[i].stage.Preparing()
    requires Honest(s.world, s.proc.inflight[i].stage.row.claim.hash, r)
    ensures MoveFits(u, s, i, s.proc.inflight[i], Close(s.proc.tables, i, s.proc.inflight[i], r, now, disk))
  {
    var op := s.proc.inflight[i];
    var ending := EndingOf(r, op.stage.row.claim.hash, i, now);
    assert OpOk(u, s.proc.tables.rows, s.history, s.nextCall, i, op);
    if ending.None? {
      Still(u, s, i, op, Close(s.proc.tables, i, op, r, now, disk));
    } else {
      FinishFits(u, s, i, ending.value, disk);
      ClosedNextFits(u, s, i, ending.value, disk);
    }
  }

  lemma ReceiptFits(u: Setup, s: State, i: Intent, answer: Answer<Lookup>, now: nat, disk: Disk)
    requires Inv(u, s) && i in s.proc.inflight && s.proc.inflight[i].stage.AskedReceipt?
    requires Plausible(u, s, ReceiptRead(i, answer, now, disk))
    ensures MoveFits(u, s, i, s.proc.inflight[i], OnReceipt(s.proc.tables, i, s.proc.inflight[i], answer, now, disk))
  {
    var op := s.proc.inflight[i];
    if answer.Got? && answer.value.Found? {
      CloseFits(u, s, i, answer.value.receipt, now, disk);
    } else {
      Still(u, s, i, op, OnReceipt(s.proc.tables, i, op, answer, now, disk));
    }
  }

  lemma RestoredFits(u: Setup, s: State, i: Intent, answer: Answer<Tx>)
    requires Inv(u, s) && i in s.proc.inflight && s.proc.inflight[i].stage.AskedRestore?
    ensures MoveFits(u, s, i, s.proc.inflight[i], OnRestored(s.proc.tables, i, s.proc.inflight[i], answer))
  {
    var op := s.proc.inflight[i];
    var m := OnRestored(s.proc.tables, i, op, answer);
    if m.acts == [] {
      Still(u, s, i, op, m);
    } else {
      assert forall a :: a in s.history ==> a in s.history + m.acts;
      assert forall a :: a in s.history + m.acts && a.Finished? ==> a in s.history;
    }
  }

  lemma SentFits(u: Setup, s: State, i: Intent)
    requires Inv(u, s) && i in s.proc.inflight && s.proc.inflight[i].stage.Sending?
    ensures MoveFits(u, s, i, s.proc.inflight[i], OnSent(s.proc.tables, s.proc.inflight[i]))
  {
    Still(u, s, i, s.proc.inflight[i], OnSent(s.proc.tables, s.proc.inflight[i]));
  }

  lemma WaitedFits(u: Setup, s: State, i: Intent, answer: Answer<Receipt>, now: nat, disk: Disk)
    requires Inv(u, s) && i in s.proc.inflight && s.proc.inflight[i].stage.Waiting?
    requires Plausible(u, s, Waited(i, answer, now, disk))
    ensures MoveFits(u, s, i, s.proc.inflight[i], OnWaited(s.proc.tables, i, s.proc.inflight[i], answer, now, disk))
  {
    var op := s.proc.inflight[i];
    if answer.Got? {
      CloseFits(u, s, i, answer.value, now, disk);
    } else {
      Still(u, s, i, op, OnWaited(s.proc.tables, i, op, answer, now, disk));
    }
  }

  lemma DecideFits(u: Setup, s: State, e: Input)
    requires Inv(u, s) && !e.Call? && Ready(s.proc, e) && Plausible(u, s, e)
    ensures var i := Focus(s.proc, e).value;
            MoveFits(u, s, i, s.proc.inflight[i], Decide(u.config, s.proc.tables, i, s.proc.inflight[i], e))
  {
    var i := Focus(s.proc, e).value;
    match e {
      case Turn(disk) => TurnFits(u, s, i, disk);
      case NonceRead(nonce, disk) => NonceFits(u, s, i, nonce, disk);
      case Prepared(tx, guarded, now, disk) => PreparedFits(u, s, i, tx, guarded, now, disk);
      case ReceiptRead(_, lookup, now, disk) => ReceiptFits(u, s, i, lookup, now, disk);
      case Restored(_, tx) => RestoredFits(u, s, i, tx);
      case SendReturned(_) => SentFits(u, s, i);
      case Waited(_, receipt, now, disk) => WaitedFits(u, s, i, receipt, now, disk);
    }
  }

  // ---- carrying the move out ----------------------------------------------------------------

  lemma AnswersShape(i: Intent, op: Op, b: Body, k: nat)
    requires k < |AnswersTo(i, op, b)|
    ensures var a := AnswersTo(i, op, b)[k];
            && a.Answered? && a.intent == i && a.owner == op.owner
            && (a.body == b || (b.Resolved? && a.body == b.(replayed := true)))
            && (Unmarked(a) ==> k == 0 && a.call == op.owner && a.body == b)
            && (Refused(a) ==> Refused(Answered(op.owner, i, op.owner, b)))
  {
    assert AnswersTo(i, op, b)[k] == if k == 0 then Answered(op.owner, i, op.owner, b)
                                     else Answered(op.waiters[k - 1], i, op.owner, Coalesced(b));
  }

  /** The operation a move belongs to: the queue's head while it prepares. */
  ghost predicate AtTurn(p: Proc, i: Intent) {
    i in p.inflight && (p.inflight[i].stage.Preparing() ==> p.preparing != [] && p.preparing[0] == i)
  }

  ghost predicate StepShape(p: Proc, i: Intent, m: Move) {
    AtTurn(p, i) && (m.next.Park? && m.next.stage.Preparing() ==> p.inflight[i].stage.Preparing())
  }

  /** Dropping the head from a queue of distinct intents leaves exactly the others. */
  lemma TailQueue(p: Proc, rest: map<Intent, Op>)
    requires Queue(p) && p.preparing != []
    requires forall j :: j != p.preparing[0] ==> (j in rest <==> j in p.inflight) && (j in rest ==> rest[j] == p.inflight[j])
    requires p.preparing[0] in rest ==> !rest[p.preparing[0]].stage.Preparing()
    ensures Queue(Proc(rest, p.preparing[1..], p.tables))
  {
    var q := p.preparing[1..];
    assert forall k :: 0 <= k < |q| ==> q[k] == p.preparing[k + 1] && q[k] != p.preparing[0];
    forall j | j in rest && rest[j].stage.Preparing()
      ensures j in q
    {
      var k :| 0 <= k < |p.preparing| && p.preparing[k] == j;
      assert q[k - 1] == j;
    }
  }

  lemma QueueKept(p: Proc, i: Intent, m: Move)
    requires Queue(p) && StepShape(p, i, m)
    ensures Queue(Perform(p, i, m).proc)
  {
    var q := Perform(p, i, m).proc;
    if q.preparing != p.preparing {
      TailQueue(p, q.inflight);
    } else {
      assert forall k :: 0 <= k < |p.preparing| ==> p.preparing[k] == i ==> k == 0;
    }
  }

  /** The acts of one step are its operation's own. */
  ghost predicate Own(g: seq<Act>, i: Intent, o: CallId) {
    forall a :: a in g ==>
      && a.intent == i
      && (a.Claimed? || a.Handed? ==> a.caller == o)
      && (a.Finished? ==> a.finisher == Some(o))
      && (a.Answered? ==> a.owner == o)
  }

  lemma StepActsOwn(p: Proc, i: Intent, m: Move, rows': seq<Row>)
    requires i in p.inflight
    requires m.acts == [] || (|m.acts| == 1 && ActFits(p.tables.rows, rows', i, p.inflight[i], m.acts[0]))
    ensures Own(Perform(p, i, m).acts, i, p.inflight[i].owner)
  {
    if m.next.Conclude? {
      forall k: nat | k < |AnswersTo(i, p.inflight[i], m.next.body)|
        ensures AnswersTo(i, p.inflight[i], m.next.body)[k].Answered? && AnswersTo(i, p.inflight[i], m.next.body)[k].owner == p.inflight[i].owner
                && AnswersTo(i, p.inflight[i], m.next.body)[k].intent == i
      {
        AnswersShape(i, p.inflight[i], m.next.body, k);
      }
    }
  }

  /** A step of one operation leaves what is known of another as it was. */
  lemma OtherOpKept(u: Setup, rows: seq<Row>, rows': seq<Row>, h: seq<Act>, g: seq<Act>, n: CallId, i: Intent, o: CallId, j: Intent, op: Op)
    requires OpOk(u, rows, h, n, j, op) && Own(g, i, o) && j != i && op.owner != o
    requires Touches(rows, rows', i) && (op.stage.AskedPrepare? ==> |rows'| == |rows|)
    ensures OpOk(u, rows', h + g, n, j, op)
  {
  }

  lemma OpsKept(u: Setup, s: State, i: Intent, m: Move)
    requires Ops(u, s.proc, s.history, s.nextCall) && Queue(s.proc) && StepShape(s.proc, i, m)
    requires MoveFits(u, s, i, s.proc.inflight[i], m)
    ensures var step := Perform(s.proc, i, m);
            Ops(u, step.proc, s.history + step.acts, s.nextCall)
  {
    var step := Perform(s.proc, i, m);
    var op := s.proc.inflight[i];
    StepActsOwn(s.proc, i, m, m.tables.rows);
    forall j | j in step.proc.inflight
      ensures OpOk(u, m.tables.rows, s.history + step.acts, s.nextCall, j, step.proc.inflight[j])
    {
      if j != i {
        OtherOpKept(u, s.proc.tables.rows, m.tables.rows, s.history, step.acts, s.nextCall, i, op.owner, j, s.proc.inflight[j]);
      }
    }
  }

  lemma GoneKept(p: Proc, q: Proc, n: CallId, i: Intent, o: CallId)
    requires Gone(p.inflight, n, o) && i in p.inflight
    requires forall j :: j in q.inflight ==> j in p.inflight && q.inflight[j].owner == p.inflight[j].owner
    ensures Gone(q.inflight, n, o) && o != p.inflight[i].owner
  {
  }

  /** What an act said stays true when an operation of another call, or a new one, goes on. */
  lemma ActKept(p: Proc, q: Proc, h: seq<Act>, g: seq<Act>, n: CallId, i: Intent, o: CallId, a: Act)
    requires ActOk(p, h, n, a) && Touches(p.tables.rows, q.tables.rows, i) && Own(g, i, o)
    requires a.Answered? ==> Gone(q.inflight, n, a.owner) && a.owner != o
    ensures ActOk(q, h + g, n, a)
  {
  }

  lemma OldActsKept(u: Setup, s: State, i: Intent, m: Move)
    requires Acts(s.proc, s.history, s.nextCall) && i in s.proc.inflight
    requires TablesFit(u, s.world, s.proc.tables, i, s.proc.inflight[i], m)
    ensures var step := Perform(s.proc, i, m);
            forall a :: a in s.history ==> ActOk(step.proc, s.history + step.acts, s.nextCall, a)
  {
    var step := Perform(s.proc, i, m);
    StepActsOwn(s.proc, i, m, m.tables.rows);
    forall a | a in s.history
      ensures ActOk(step.proc, s.history + step.acts, s.nextCall, a)
    {
      if a.Answered? {
        GoneKept(s.proc, step.proc, s.nextCall, i, a.owner);
      }
      ActKept(s.proc, step.proc, s.history, step.acts, s.nextCall, i, s.proc.inflight[i].owner, a);
    }
  }

  lemma BodyKept(rows: seq<Row>, h: seq<Act>, g: seq<Act>, i: Intent, o: CallId, b: Body)
    requires BodyOk(rows, h, i, o, b) && forall a :: a in g ==> a.Answered?
    ensures BodyOk(rows, h + g, i, o, b) && (b.Resolved? ==> BodyOk(rows, h + g, i, o, b.(replayed := true)))
  {
  }

  lemma NewActsFit(u: Setup, s: State, i: Intent, m: Move)
    requires Ops(u, s.proc, s.history, s.nextCall) && i in s.proc.inflight
    requires MoveFits(u, s, i, s.proc.inflight[i], m)
    ensures var step := Perform(s.proc, i, m);
            forall a :: a in step.acts ==> ActOk(step.proc, s.history + step.acts, s.nextCall, a)
  {
    var step, op := Perform(s.proc, i, m), s.proc.inflight[i];
    assert OpOk(u, s.proc.tables.rows, s.history, s.nextCall, i, op);
    if m.next.Conclude? {
      var answers := AnswersTo(i, op, m.next.body);
      assert Gone(step.proc.inflight, s.nextCall, op.owner);
      assert s.history + step.acts == s.history + m.acts + answers;
      forall k: nat | k < |answers|
        ensures answers[k].Answered? && ActOk(step.proc, s.history + step.acts, s.nextCall, answers[k])
      {
        AnswersShape(i, op, m.next.body, k);
        assert forall a :: a in answers ==> a.Answered?;
        BodyKept(m.tables.rows, s.history + m.acts, answers, i, op.owner, m.next.body);
      }
    }
  }

  lemma ActsKept(u: Setup, s: State, i: Intent, m: Move)
    requires Inv(u, s) && i in s.proc.inflight && MoveFits(u, s, i, s.proc.inflight[i], m)
    ensures var step := Perform(s.proc, i, m);
            Acts(step.proc, s.history + step.acts, s.nextCall)
  {
    OldActsKept(u, s, i, m);
    NewActsFit(u, s, i, m);
  }

  lemma OnceGrows(h: seq<Act>, g: seq<Act>)
    requires Once(h)
    requires forall a, k :: a in h && 0 <= k < |g| ==> !Clash(a, g[k])
    requires forall j, k :: 0 <= j < k < |g| ==> !Clash(g[j], g[k])
    ensures Once(h + g)
  {
    forall j, k | 0 <= j < k < |h + g|
      ensures !Clash((h + g)[j], (h + g)[k])
    {
      if j < |h| <= k {
        assert h[j] in h && (h + g)[k] == g[k - |h|];
      }
    }
  }

  /** An intent is claimed by one call only. */
  lemma OneClaimer(h: seq<Act>, i: Intent, o: CallId, o': CallId)
    requires Once(h) && Claimed(i, o) in h && Claimed(i, o') in h
    ensures o == o'
  {
    var j :| 0 <= j < |h| && h[j] == Claimed(i, o);
    var k :| 0 <= k < |h| && h[k] == Claimed(i, o');
    if j < k {
      assert Clash(h[j], h[k]);
    } else if k < j {
      assert Clash(h[k], h[j]);
    }
  }

  lemma DurableActIsFirst(u: Setup, s: State, i: Intent, m: Move, a: Act)
    requires Inv(u, s) && i in s.proc.inflight && TablesFit(u, s.world, s.proc.tables, i, s.proc.inflight[i], m)
    requires m.acts != [] && a in s.history
    ensures !Clash(a, m.acts[0])
  {
    assert ActOk(s.proc, s.history, s.nextCall, a);
  }

  /** The answers of the operation that ends now are new to the history. */
  lemma AnswerIsFirst(u: Setup, s: State, i: Intent, m: Move, a: Act, b: Act)
    requires Inv(u, s) && i in s.proc.inflight && MoveFits(u, s, i, s.proc.inflight[i], m)
    requires m.next.Conclude? && a in s.history
    requires b.Answered? && b.intent == i && (Unmarked(b) ==> b.body == m.next.body)
    requires Refused(b) ==> m.next.body.Raised? && Refused(Answered(0, i, 0, m.next.body))
    ensures !Clash(a, b)
  {
    var op := s.proc.inflight[i];
    if Clash(a, b) {
      assert ActOk(s.proc, s.history, s.nextCall, a);
      if Refused(b) {
        assert Refused(Answered(op.owner, i, op.owner, m.next.body));
        Untouched(s.proc, s.history, s.nextCall, i);
        assert false;
      } else {
        assert Claimed(i, op.owner) in s.history + m.acts;
        assert Claimed(i, a.owner) in s.history;
        assert Claimed(i, op.owner) in s.history;
        OneClaimer(s.history, i, a.owner, op.owner);
        assert false;
      }
    }
  }

  lemma NewActIsFirst(u: Setup, s: State, i: Intent, m: Move, a: Act, k: nat)
    requires Inv(u, s) && i in s.proc.inflight && MoveFits(u, s, i, s.proc.inflight[i], m)
    requires a in s.history && k < |Perform(s.proc, i, m).acts|
    ensures !Clash(a, Perform(s.proc, i, m).acts[k])
  {
    if k < |m.acts| {
      DurableActIsFirst(u, s, i, m, a);
    } else {
      AnswersShape(i, s.proc.inflight[i], m.next.body, k - |m.acts|);
      AnswerIsFirst(u, s, i, m, a, Perform(s.proc, i, m).acts[k]);
    }
  }

  lemma StepActsAgree(u: Setup, h: seq<Act>, n: CallId, p: Proc, i: Intent, m: Move, j: nat, k: nat)
    requires i in p.inflight && j < k < |Perform(p, i, m).acts|
    requires m.acts == [] || (|m.acts| == 1 && ActFits(p.tables.rows, m.tables.rows, i, p.inflight[i], m.acts[0]))
    requires NextFits(u, m.tables.rows, h, n, i, p.inflight[i], m.next)
    ensures !Clash(Perform(p, i, m).acts[j], Perform(p, i, m).acts[k])
  {
    AnswersShape(i, p.inflight[i], m.next.body, k - |m.acts|);
    if j >= |m.acts| {
      AnswersShape(i, p.inflight[i], m.next.body, j - |m.acts|);
    }
  }

  lemma OnceKept(u: Setup, s: State, i: Intent, m: Move)
    requires Inv(u, s) && i in s.proc.inflight && MoveFits(u, s, i, s.proc.inflight[i], m)
    ensures Once(s.history + Perform(s.proc, i, m).acts)
  {
    var g := Perform(s.proc, i, m).acts;
    forall a, k: nat | a in s.history && k < |g|
      ensures !Clash(a, g[k])
    {
      NewActIsFirst(u, s, i, m, a, k);
    }
    forall j: nat, k: nat | j < k < |g|
      ensures !Clash(g[j], g[k])
    {
      StepActsAgree(u, s.history + m.acts, s.nextCall, s.proc, i, m, j, k);
    }
    OnceGrows(s.history, g);
  }

  lemma JournalKept(u: Setup, s: State, i: Intent, m: Move)
    requires Inv(u, s) && i in s.proc.inflight && MoveFits(u, s, i, s.proc.inflight[i], m)
    ensures var step := Perform(s.proc, i, m);
            && Accounted(m.tables.rows, s.history + step.acts)
            && OnChain(u, m.tables.rows, s.world) && Truthful(m.tables.rows, s.world)
  {
    var step, rows := Perform(s.proc, i, m), s.proc.tables.rows;
    forall j | Ended(m.tables.rows, j)
      ensures Finished(j, None) in s.history + step.acts || FinishedByCall(s.history + step.acts, j)
    {
      if Ended(rows, j) {
        assert Finished(j, None) in s.history || FinishedByCall(s.history, j);
      } else {
        assert step.acts[0] == Finished(i, Some(s.proc.inflight[i].owner));
        assert step.acts[0] in s.history + step.acts;
      }
    }
  }

  lemma StepKept(u: Setup, s: State, e: Input)
    requires Inv(u, s) && !e.Call? && Ready(s.proc, e) && Plausible(u, s, e)
    ensures Inv(u, Apply(u, s, Deliver(e)))
  {
    var i := Focus(s.proc, e).value;
    var m := Decide(u.config, s.proc.tables, i, s.proc.inflight[i], e);
    DecideFits(u, s, e);
    QueueKept(s.proc, i, m);
    OpsKept(u, s, i, m);
    ActsKept(u, s, i, m);
    OnceKept(u, s, i, m);
    JournalKept(u, s, i, m);
  }

  lemma CallQueueKept(p: Proc, call: CallId, i: Intent)
    requires Queue(p)
    ensures Queue(OnCall(p, call, i))
  {
    var q := OnCall(p, call, i);
    if i !in p.inflight {
      assert q.preparing[|q.preparing| - 1] == i;
      assert forall k :: 0 <= k < |p.preparing| ==> q.preparing[k] == p.preparing[k] && p.preparing[k] != i;
    }
  }

  lemma CallOpsKept(u: Setup, p: Proc, h: seq<Act>, call: CallId, i: Intent)
    requires Ops(u, p, h, call) && Acts(p, h, call)
    ensures Ops(u, OnCall(p, call, i), h, call + 1)
  {
    assert forall a :: a in h ==> ActOk(p, h, call, a);
    assert NoSend(h, call) && NoClaim(h, call);
  }

  lemma CallActsKept(p: Proc, h: seq<Act>, call: CallId, i: Intent)
    requires Acts(p, h, call)
    ensures Acts(OnCall(p, call, i), h, call + 1)
  {
    forall a | a in h
      ensures ActOk(OnCall(p, call, i), h, call + 1, a)
    {
      assert ActOk(p, h, call, a);
    }
  }

  lemma CallKept(u: Setup, s: State, call: CallId, i: Intent)
    requires Inv(u, s) && call == s.nextCall
    ensures Inv(u, Apply(u, s, Deliver(Call(call, i))))
  {
    CallQueueKept(s.proc, call, i);
    CallOpsKept(u, s.proc, s.history, call, i);
    CallActsKept(s.proc, s.history, call, i);
    assert s.history + [] == s.history;
  }

  /** The repair finishes a row beside the operations, and knows no call. */
  ghost predicate Repaired(rows: seq<Row>, rows': seq<Row>, i: Intent) {
    && Touches(rows, rows', i) && |rows'| == |rows|
    && Get(rows, i).Some? && !Ended(rows, i) && Ended(rows', i)
  }

  lemma RepairOpsKept(u: Setup, p: Proc, after: Tables, h: seq<Act>, n: CallId, i: Intent)
    requires Ops(u, p, h, n) && Repaired(p.tables.rows, after.rows, i)
    ensures Ops(u, p.(tables := after), h + [Finished(i, None)], n)
  {
    forall j | j in p.inflight
      ensures OpOk(u, after.rows, h + [Finished(i, None)], n, j, p.inflight[j])
    {
      assert OpOk(u, p.tables.rows, h, n, j, p.inflight[j]);
    }
  }

  lemma RepairActsKept(p: Proc, after: Tables, h: seq<Act>, n: CallId, i: Intent)
    requires Acts(p, h, n) && Once(h) && Repaired(p.tables.rows, after.rows, i)
    ensures Acts(p.(tables := after), h + [Finished(i, None)], n) && Once(h + [Finished(i, None)])
  {
    var g := [Finished(i, None)];
    forall a | a in h
      ensures ActOk(p.(tables := after), h + g, n, a) && !Clash(a, g[0])
    {
      assert ActOk(p, h, n, a);
    }
    OnceGrows(h, g);
  }

  lemma RepairAccounted(rows: seq<Row>, rows': seq<Row>, h: seq<Act>, i: Intent)
    requires Accounted(rows, h) && Repaired(rows, rows', i)
    ensures Accounted(rows', h + [Finished(i, None)])
  {
    var h' := h + [Finished(i, None)];
    assert h'[|h|] == Finished(i, None);
    forall j | Ended(rows', j)
      ensures Finished(j, None) in h' || FinishedByCall(h', j)
    {
      assert j == i || Ended(rows, j);
    }
  }

  lemma RepairTablesKept(u: Setup, t: Tables, w: World, i: Intent, r: Receipt, now: nat, disk: Disk)
    requires Sound(t, u.config.limits) && Numbered(u, t.rows) && OnChain(u, t.rows, w) && Truthful(t.rows, w)
    requires Get(t.rows, i).Some? ==> Honest(w, Get(t.rows, i).value.claim.hash, r)
    ensures var after := Reconcile(t, i, r, now, disk).tables;
            && Sound(after, u.config.limits) && Numbered(u, after.rows) && OnChain(u, after.rows, w) && Truthful(after.rows, w)
            && (after == t || Repaired(t.rows, after.rows, i))
  {
    if Reconcile(t, i, r, now, disk).tables != t {
      var e := EndingOf(r, Get(t.rows, i).value.claim.hash, i, now).value;
      FinishKeeps(t, i, e, u.config.limits, disk);
      FinishTouches(t, i, e, disk);
      FinishNumbered(u, t, i, e, disk);
    }
  }

  lemma RepairKept(u: Setup, s: State, i: Intent, r: Receipt, now: nat, disk: Disk)
    requires Inv(u, s) && Enabled(u, s, Repair(i, r, now, disk))
    ensures Inv(u, Apply(u, s, Repair(i, r, now, disk)))
  {
    var p, after := s.proc, Reconcile(s.proc.tables, i, r, now, disk).tables;
    RepairTablesKept(u, p.tables, s.world, i, r, now, disk);
    if after == p.tables {
      assert s.history + [] == s.history;
    } else {
      RepairOpsKept(u, p, after, s.history, s.nextCall, i);
      RepairActsKept(p, after, s.history, s.nextCall, i);
      RepairAccounted(p.tables.rows, after.rows, s.history, i);
    }
  }

  /** What the node and the chain do, and losing the process, change no journal row. */
  lemma AroundKept(u: Setup, s: State, e: Occurrence)
    requires Inv(u, s) && Enabled(u, s, e) && (e.Accept? || e.Mine? || e.Crash?)
    ensures Inv(u, Apply(u, s, e))
  {
    var s' := Apply(u, s, e);
    match e {
      case Accept(tx) =>
        var i, o :| Handed(i, o, tx) in s.history;
        assert ActOk(s.proc, s.history, s.nextCall, Handed(i, o, tx));
        var k := IndexOf(s.proc.tables.rows, i);
        assert s.proc.tables.rows[k].claim.hash.tx.call == i;
      case Mine(tx, success, logs) =>
        MiningKept(u, s.proc.tables.rows, s.world, Mined(tx, success, logs));
      case Crash =>
        forall a | a in s.history
          ensures ActOk(s'.proc, s.history, s.nextCall, a)
        {
          assert ActOk(s.proc, s.history, s.nextCall, a);
        }
    }
  }

  lemma MiningKept(u: Setup, rows: seq<Row>, w: World, m: Mined)
    requires Truthful(rows, w)
    ensures Truthful(rows, w.(mined := w.mined + [m]))
  {
    var w' := w.(mined := w.mined + [m]);
    forall i | Ended(rows, i)
      ensures MinedAs(w', Get(rows, i).value.claim.hash, i, Get(rows, i).value.terminal.value.ending.errorCode)
    {
      var hash, code := Get(rows, i).value.claim.hash, Get(rows, i).value.terminal.value.ending.errorCode;
      assert MinedAs(w, hash, i, code);
      var k :| 0 <= k < |w.mined| && Keccak(w.mined[k].tx) == hash
               && ReceiptFailure(w.mined[k].success, w.mined[k].logs, i) == code;
      assert w'.mined[k] == w.mined[k];
    }
  }

  lemma InvKept(u: Setup, s: State, e: Occurrence)
    requires Inv(u, s) && Enabled(u, s, e)
    ensures Inv(u, Apply(u, s, e))
  {
    match e {
      case Deliver(input) =>
        if input.Call? {
          CallKept(u, s, input.call, input.intent);
        } else {
          StepKept(u, s, input);
        }
      case Repair(i, r, now, disk) => RepairKept(u, s, i, r, now, disk);
      case _ => AroundKept(u, s, e);
    }
  }

  /** Every run from a good state stays good. */
  lemma {:induction false} RunsKeep(u: Setup, s: State, es: seq<Occurrence>)
    requires Inv(u, s) && Legal(u, s, es)
    ensures Inv(u, Exec(u, s, es))
    decreases |es|
  {
    if es != [] {
      InvKept(u, s, es[0]);
      RunsKeep(u, Apply(u, s, es[0]), es[1..]);
    }
  }
}
