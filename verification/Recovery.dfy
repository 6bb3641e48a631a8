/**
 * `SettlementRecovery` of apps/facilitator-erc7710/recovery.ts, one step per stretch of code
 * between two awaits. A step is a function of the process and of the answer being awaited; the
 * class at the end runs the same steps on its own fields and the journal.
 */
module Recovery {
  import opened Wrappers
  import opened Journal
  import opened Guards
  import opened Receipts

  type CallId = nat

  datatype Config = Config(signer: Address, chainId: nat, limits: Limits)

  /** Where an operation is suspended. The first three hold its place in the prepare queue. */
  datatype Stage =
    | Queued
    | AskedNonce
    | AskedPrepare(nonce: nat)
    | AskedReceipt(row: Row)
    | AskedRestore(row: Row)
    | Sending(row: Row)
    | Waiting(row: Row)
  {
    predicate Preparing() { Queued? || AskedNonce? || AskedPrepare? }
    /** An operation past its claim knows the row it is settling. */
    function Known(): Option<Row> { if Preparing() then None else Some(row) }
  }

  /** One operation: the call that owns it, the calls coalesced into it, and its two locals. */
  datatype Op = Op(owner: CallId, waiters: seq<CallId>, stage: Stage, replayed: bool)
  datatype Proc = Proc(inflight: map<Intent, Op>, preparing: seq<Intent>, tables: Tables)

  datatype Body = Resolved(row: Row, replayed: bool) | Raised(error: Thrown)

  /** What happened, in order: the durable writes, the sends and the answers. */
  datatype Act =
    | Claimed(intent: Intent, caller: CallId)
    | Handed(intent: Intent, caller: CallId, tx: Tx)
    | Finished(intent: Intent, finisher: Option<CallId>)
    | Answered(call: CallId, intent: Intent, owner: CallId, body: Body)
  datatype Step = Step(proc: Proc, acts: seq<Act>)

  /** What one resumption decides: the tables it leaves, its own acts, and how the operation goes on. */
  datatype Next = Park(stage: Stage, replayed: bool) | Conclude(body: Body)
  datatype Move = Move(tables: Tables, next: Next, acts: seq<Act>)

  datatype Answer<+T> = Failed(error: Thrown) | Got(value: T)
  datatype Lookup = Nothing | Found(receipt: Receipt)

  datatype Input =
    | Call(call: CallId, intent: Intent)
    | Turn(disk: Disk)
    | NonceRead(nonce: Answer<nat>, disk: Disk)
    | Prepared(tx: Answer<Tx>, guarded: bool, now: nat, disk: Disk)
    | ReceiptRead(of: Intent, lookup: Answer<Lookup>, now: nat, disk: Disk)
    | Restored(of: Intent, tx: Answer<Tx>)
    | SendReturned(of: Intent)
    | Waited(of: Intent, receipt: Answer<Receipt>, now: nat, disk: Disk)

  // ---- helpers -------------------------------------------------------------------------

  /** A coalesced call performed nothing, so the answer it is handed is always marked. */
  function Coalesced(b: Body): Body {
    if b.Resolved? then b.(replayed := true) else b
  }

  function AnswersTo(i: Intent, op: Op, b: Body): seq<Act> {
    seq(|op.waiters| + 1, k requires 0 <= k <= |op.waiters| =>
      if k == 0 then Answered(op.owner, i, op.owner, b)
      else Answered(op.waiters[k - 1], i, op.owner, Coalesced(b)))
  }

  /** An operation leaves the prepare queue when it stops preparing, one way or the other. */
  function QueueAfter(p: Proc, i: Intent, next: Next): seq<Intent>
    requires i in p.inflight
  {
    if p.inflight[i].stage.Preparing() && (next.Conclude? || !next.stage.Preparing()) && p.preparing != []
    then p.preparing[1..] else p.preparing
  }

  /** Carry out a move: suspend the operation again, or drop its entry and answer every caller. */
  function Perform(p: Proc, i: Intent, m: Move): Step
    requires i in p.inflight
  {
    var op := p.inflight[i];
    var queue := QueueAfter(p, i, m.next);
    match m.next
    case Park(stage, replayed) =>
      Step(Proc(p.inflight[i := op.(stage := stage, replayed := replayed)], queue, m.tables), m.acts)
    case Conclude(body) =>
      Step(Proc(p.inflight - {i}, queue, m.tables), m.acts + AnswersTo(i, op, body))
  }

  function PendingOn(row: Row): Next { Conclude(Raised(Raise(Pending(row.claim.hash)))) }

  function NotStored(): Next { Conclude(Raised(Raise(StorageUnavailable))) }

  /** With the journal's row in hand: answer it if it is terminal, else look for its receipt. */
  function Resume(row: Row, replayed: bool): Next {
    if row.terminal.Some? then Conclude(Resolved(row, replayed)) else Park(AskedReceipt(row), replayed)
  }

  // ---- the steps -----------------------------------------------------------------------

  function OnTurn(t: Tables, i: Intent, disk: Disk): Move {
    if !disk.Healthy? then Move(t, NotStored(), [])
    else match Get(t.rows, i)
      case None => Move(t, Park(AskedNonce, false), [])
      case Some(row) => Move(t, Resume(row, true), [])
  }

  function OnNonce(c: Config, t: Tables, answer: Answer<nat>, disk: Disk): Move {
    match answer
    case Failed(e) => Move(t, Conclude(Raised(BeforeBroadcast(e))), [])
    case Got(pending) =>
      var next := NextNonce(t.rows, c.signer, c.chainId, pending);
      Move(t, if !disk.Healthy? || next.None? then NotStored() else Park(AskedPrepare(next.value), false), [])
  }

  predicate Matches(c: Config, tx: Tx, nonce: nat) {
    tx.eip1559 && tx.chainId == c.chainId && tx.nonce == nonce && tx.gas.Some? && tx.maxFee.Some? && tx.priority.Some?
  }

  function ClaimFor(c: Config, i: Intent, tx: Tx, nonce: nat, now: nat): Claim
    requires Matches(c, tx, nonce)
  {
    Claim.Claim(i, Keccak(tx), c.signer, c.chainId, nonce, tx.gas.value, tx.maxFee.value, tx.priority.value, now)
  }

  function AfterClaim(reply: Reply): Next {
    match reply
    case Kept(row) => Resume(row, false)
    case OverBudget(code) => Conclude(Raised(Raise(BudgetExceeded(code))))
    case Threw => NotStored()
  }

  /** Only a claim that committed lets the operation go on to its transaction. */
  function OnPrepared(c: Config, t: Tables, i: Intent, op: Op, answer: Answer<Tx>, guarded: bool, now: nat, disk: Disk): Move
    requires op.stage.AskedPrepare?
  {
    match answer
    case Failed(e) => Move(t, Conclude(Raised(if guarded then BeforeBroadcast(e) else e)), [])
    case Got(tx) =>
      if !Matches(c, tx, op.stage.nonce) then Move(t, Conclude(Raised(Raise(Other))), [])
      else
        var txn := ClaimTxn(t, ClaimFor(c, i, tx, op.stage.nonce, now), c.limits, disk);
        Move(txn.tables, AfterClaim(txn.reply), if txn.tables == t then [] else [Claimed(i, op.owner)])
  }

  /** Check the receipt and commit its cost; any failure leaves the claim for a later call. */
  function Close(t: Tables, i: Intent, op: Op, r: Receipt, now: nat, disk: Disk): Move
    requires !op.stage.Preparing()
  {
    var row := op.stage.row;
    var ending := EndingOf(r, row.claim.hash, i, now);
    if ending.None? then Move(t, PendingOn(row), [])
    else
      var txn := FinishTxn(t, i, ending.value, disk);
      Move(txn.tables, if txn.reply.Kept? then Conclude(Resolved(txn.reply.row, op.replayed)) else PendingOn(row),
           if txn.tables == t then [] else [Finished(i, Some(op.owner))])
  }

  function OnReceipt(t: Tables, i: Intent, op: Op, answer: Answer<Lookup>, now: nat, disk: Disk): Move
    requires op.stage.AskedReceipt?
  {
    match answer
    case Failed(_) => Move(t, PendingOn(op.stage.row), [])
    case Got(Nothing) => Move(t, Park(AskedRestore(op.stage.row), op.replayed), [])
    case Got(Found(r)) => Close(t, i, op, r, now, disk)
  }

  /** Only bytes whose hash the journal already names are handed to the network. */
  function OnRestored(t: Tables, i: Intent, op: Op, answer: Answer<Tx>): Move
    requires op.stage.AskedRestore?
  {
    if answer.Failed? || Keccak(answer.value) != op.stage.row.claim.hash
    then Move(t, PendingOn(op.stage.row), [])
    else Move(t, Park(Sending(op.stage.row), op.replayed), [Handed(i, op.owner, answer.value)])
  }

  /** Whether the send answered or threw, only the receipt decides. */
  function OnSent(t: Tables, op: Op): Move
    requires op.stage.Sending?
  {
    Move(t, Park(Waiting(op.stage.row), op.replayed), [])
  }

  function OnWaited(t: Tables, i: Intent, op: Op, answer: Answer<Receipt>, now: nat, disk: Disk): Move
    requires op.stage.Waiting?
  {
    match answer
    case Failed(_) => Move(t, PendingOn(op.stage.row), [])
    case Got(r) => Close(t, i, op, r, now, disk)
  }

  function OnCall(p: Proc, call: CallId, i: Intent): Proc {
    if i in p.inflight
    then p.(inflight := p.inflight[i := p.inflight[i].(waiters := p.inflight[i].waiters + [call])])
    else p.(inflight := p.inflight[i := Op(call, [], Queued, false)], preparing := p.preparing + [i])
  }

  /** The operation an input resumes; the first three resume the head of the prepare queue. */
  function Focus(p: Proc, e: Input): Option<Intent> {
    match e
    case Call(_, i) => Some(i)
    case ReceiptRead(i, _, _, _) => Some(i)
    case Restored(i, _) => Some(i)
    case SendReturned(i) => Some(i)
    case Waited(i, _, _, _) => Some(i)
    case _ => if p.preparing == [] then None else Some(p.preparing[0])
  }

  predicate Resumes(e: Input, s: Stage) {
    match e
    case Call(_, _) => false
    case Turn(_) => s.Queued?
    case NonceRead(_, _) => s.AskedNonce?
    case Prepared(_, _, _, _) => s.AskedPrepare?
    case ReceiptRead(_, _, _, _) => s.AskedReceipt?
    case Restored(_, _) => s.AskedRestore?
    case SendReturned(_) => s.Sending?
    case Waited(_, _, _, _) => s.Waiting?
  }

  /** Whether the process is suspended where this input resumes it. */
  predicate Ready(p: Proc, e: Input) {
    e.Call? || (Focus(p, e).Some? && Focus(p, e).value in p.inflight && Resumes(e, p.inflight[Focus(p, e).value].stage))
  }

  function Decide(c: Config, t: Tables, i: Intent, op: Op, e: Input): Move
    requires Resumes(e, op.stage)
  {
    match e
    case Turn(disk) => OnTurn(t, i, disk)
    case NonceRead(nonce, disk) => OnNonce(c, t, nonce, disk)
    case Prepared(tx, guarded, now, disk) => OnPrepared(c, t, i, op, tx, guarded, now, disk)
    case ReceiptRead(_, lookup, now, disk) => OnReceipt(t, i, op, lookup, now, disk)
    case Restored(_, tx) => OnRestored(t, i, op, tx)
    case SendReturned(_) => OnSent(t, op)
    case Waited(_, receipt, now, disk) => OnWaited(t, i, op, receipt, now, disk)
  }

  function React(c: Config, p: Proc, e: Input): Step
    requires Ready(p, e)
  {
    if e.Call? then Step(OnCall(p, e.call, e.intent), [])
    else
      var i := Focus(p, e).value;
      Perform(p, i, Decide(c, p.tables, i, p.inflight[i], e))
  }

  /** A killed process keeps its tables and nothing else. */
  function Crashed(p: Proc): Proc { Proc(map[], [], p.tables) }

  /** The read-only repair of apps/arcade-service/fork.ts: finish an open row from its receipt. */
  function Reconcile(t: Tables, i: Intent, r: Receipt, now: nat, disk: Disk): Txn {
    match Get(t.rows, i)
    case None => Txn(t, Threw)
    case Some(row) =>
      var ending := EndingOf(r, row.claim.hash, i, now);
      if ending.None? then Txn(t, Threw) else FinishTxn(t, i, ending.value, disk)
  }

  // ---- the class -----------------------------------------------------------------------

  /** Owns one signer's queue. The journal is the authority for nonces and budgets. */
  class SettlementRecovery {
    const config: Config
    const journal: SettlementJournal
    var inflight: map<Intent, Op>
    var preparing: seq<Intent>
    ghost var acts: seq<Act>

    constructor (config: Config, journal: SettlementJournal)
      ensures this.config == config && this.journal == journal && State() == Proc(map[], [], journal.State())
      ensures acts == []
    {
      this.config, this.journal := config, journal;
      inflight, preparing, acts := map[], [], [];
    }

    function State(): Proc
      reads this, journal
    {
      Proc(inflight, preparing, journal.State())
    }

    /** The process and its acts went exactly as the step says. */
    ghost predicate Did(step: Step, before: seq<Act>)
      reads this, journal
    {
      State() == step.proc && acts == before + step.acts
    }

    /** Coalesce the call into a live operation for its intent, or start one. */
    method Call(call: CallId, i: Intent)
      modifies this
      ensures State() == OnCall(old(State()), call, i) && acts == old(acts)
    {
      if i in inflight {
        var op := inflight[i];
        inflight := inflight[i := op.(waiters := op.waiters + [call])];
      } else {
        inflight := inflight[i := Op(call, [], Queued, false)];
        preparing := preparing + [i];
      }
    }

    method Leave(i: Intent, next: Next)
      requires i in inflight
      modifies this`preparing
      ensures preparing == QueueAfter(old(State()), i, next)
    {
      if inflight[i].stage.Preparing() && (next.Conclude? || !next.stage.Preparing()) && preparing != [] {
        preparing := preparing[1..];
      }
    }

    /** Suspend the operation again, or drop its entry and answer every caller. */
    method GoOn(i: Intent, next: Next)
      requires i in inflight
      modifies this
      ensures Did(Perform(old(State()), i, Move(journal.State(), next, [])), old(acts))
    {
      Leave(i, next);
      var op := inflight[i];
      match next {
        case Park(stage, replayed) =>
          inflight := inflight[i := op.(stage := stage, replayed := replayed)];
        case Conclude(body) =>
          inflight := inflight - {i};
          acts := acts + AnswersTo(i, op, body);
      }
    }

    /** The queue reaches an operation: the journal may already hold its intent. */
    method Begin(disk: Disk)
      requires Ready(State(), Turn(disk))
      modifies this
      ensures Did(React(config, old(State()), Turn(disk)), old(acts))
    {
      var i := preparing[0];
      var existing := Get(journal.rows, i);
      if !disk.Healthy? {
        GoOn(i, NotStored());
      } else if existing.None? {
        GoOn(i, Park(AskedNonce, false));
      } else {
        GoOn(i, Resume(existing.value, true));
      }
    }

    method Allocate(answer: Answer<nat>, disk: Disk)
      requires Ready(State(), NonceRead(answer, disk))
      modifies this
      ensures Did(React(config, old(State()), NonceRead(answer, disk)), old(acts))
    {
      var i := preparing[0];
      if answer.Failed? {
        GoOn(i, Conclude(Raised(BeforeBroadcast(answer.error))));
        return;
      }
      var next := NextNonce(journal.rows, config.signer, config.chainId, answer.value);
      if !disk.Healthy? || next.None? {
        GoOn(i, NotStored());
      } else {
        GoOn(i, Park(AskedPrepare(next.value), false));
      }
    }

    /** Claim the prepared transaction durably; only a claimed row is ever sent. */
    method Commit(answer: Answer<Tx>, guarded: bool, now: nat, disk: Disk)
      requires Ready(State(), Prepared(answer, guarded, now, disk))
      modifies this, journal
      ensures Did(React(config, old(State()), Prepared(answer, guarded, now, disk)), old(acts))
    {
      var i := preparing[0];
      var op := inflight[i];
      if answer.Failed? {
        GoOn(i, Conclude(Raised(if guarded then BeforeBroadcast(answer.error) else answer.error)));
      } else if !Matches(config, answer.value, op.stage.nonce) {
        GoOn(i, Conclude(Raised(Raise(Other))));
      } else {
        ghost var before := journal.State();
        var reply := journal.Claim(ClaimFor(config, i, answer.value, op.stage.nonce, now), config.limits, disk);
        acts := acts + if journal.State() == before then [] else [Claimed(i, op.owner)];
        GoOn(i, AfterClaim(reply));
      }
    }

    /** Check the receipt and commit its cost, or leave the claim for a later call. */
    method CloseWith(i: Intent, r: Receipt, now: nat, disk: Disk)
      requires i in inflight && !inflight[i].stage.Preparing()
      modifies this, journal
      ensures var op := old(inflight[i]);
              Did(Perform(old(State()), i, Close(old(journal.State()), i, op, r, now, disk)), old(acts))
    {
      var op := inflight[i];
      var ending := EndingOf(r, op.stage.row.claim.hash, i, now);
      if ending.None? {
        GoOn(i, PendingOn(op.stage.row));
        return;
      }
      ghost var before := journal.State();
      var reply := journal.Finish(i, ending.value, disk);
      acts := acts + if journal.State() == before then [] else [Finished(i, Some(op.owner))];
      GoOn(i, if reply.Kept? then Conclude(Resolved(reply.row, op.replayed)) else PendingOn(op.stage.row));
    }

    method Look(i: Intent, answer: Answer<Lookup>, now: nat, disk: Disk)
      requires Ready(State(), ReceiptRead(i, answer, now, disk))
      modifies this, journal
      ensures Did(React(config, old(State()), ReceiptRead(i, answer, now, disk)), old(acts))
    {
      var op := inflight[i];
      match answer {
        case Failed(_) => GoOn(i, PendingOn(op.stage.row));
        case Got(Nothing) => GoOn(i, Park(AskedRestore(op.stage.row), op.replayed));
        case Got(Found(r)) => CloseWith(i, r, now, disk);
      }
    }

    /** Only bytes whose hash the journal already names are handed to the network. */
    method Resend(i: Intent, answer: Answer<Tx>)
      requires Ready(State(), Restored(i, answer))
      modifies this
      ensures Did(React(config, old(State()), Restored(i, answer)), old(acts))
    {
      var op := inflight[i];
      if answer.Failed? || Keccak(answer.value) != op.stage.row.claim.hash {
        GoOn(i, PendingOn(op.stage.row));
      } else {
        acts := acts + [Handed(i, op.owner, answer.value)];
        GoOn(i, Park(Sending(op.stage.row), op.replayed));
      }
    }

    method Sent(i: Intent)
      requires Ready(State(), SendReturned(i))
      modifies this
      ensures Did(React(config, old(State()), SendReturned(i)), old(acts))
    {
      GoOn(i, Park(Waiting(inflight[i].stage.row), inflight[i].replayed));
    }

    method Arrive(i: Intent, answer: Answer<Receipt>, now: nat, disk: Disk)
      requires Ready(State(), Waited(i, answer, now, disk))
      modifies this, journal
      ensures Did(React(config, old(State()), Waited(i, answer, now, disk)), old(acts))
    {
      var op := inflight[i];
      match answer {
        case Failed(_) => GoOn(i, PendingOn(op.stage.row));
        case Got(r) => CloseWith(i, r, now, disk);
      }
    }
  }
}
