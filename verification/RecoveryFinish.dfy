/**
 * A call that arrives while the process is busy: whatever else is queued or already under way for
 * its intent, it can still finish the row, without a restart and without the repair.
 */
module RecoveryFinish {
  import opened Wrappers
  import opened Journal
  import opened Guards
  import opened Receipts
  import opened Recovery
  import opened RecoveryRuns
  import opened RecoveryProperties

  /** The callers an operation of `i` will answer. */
  ghost predicate Heard(s: State, i: Intent, call: CallId) {
    i in s.proc.inflight && (call == s.proc.inflight[i].owner || call in s.proc.inflight[i].waiters)
  }

  ghost predicate Told(h: seq<Act>, i: Intent, call: CallId, row: Row) {
    exists a :: a in h && a.Answered? && a.call == call && a.intent == i && a.body.Resolved? && a.body.row == row
  }

  /** The row as the receipt `r` ends it. */
  function EndedBy(t: Tables, row: Row, i: Intent, r: Receipt, now: nat): Row
    requires EndingOf(r, row.claim.hash, i, now).Some?
  {
    row.(terminal := Some(Terminal(|t.events|, EndingOf(r, row.claim.hash, i, now).value)))
  }

  /** Nothing but answers to this process: no crash, and no repair. */
  ghost predicate Served(es: seq<Occurrence>) {
    forall e :: e in es ==> e.Deliver?
  }

  /** The run finishes the row of `i` from its receipt and tells all who wait for it. */
  ghost predicate Finishes(u: Setup, s: State, es: seq<Occurrence>, i: Intent, row: Row, r: Receipt, now: nat) {
    && Legal(u, s, es) && Served(es) && EndingOf(r, row.claim.hash, i, now).Some?
    && var s' := Exec(u, s, es);
       var ended := EndedBy(s.proc.tables, row, i, r, now);
       && Get(s'.proc.tables.rows, i) == Some(ended) && |s'.proc.tables.rows| == |s.proc.tables.rows|
       && (forall j :: j != i ==> Get(s'.proc.tables.rows, j) == Get(s.proc.tables.rows, j))
       && forall call :: Heard(s, i, call) ==> Told(s'.history, i, call, ended)
  }

  /** A state from which the receipt `r` would end the open row of `i`. */
  ghost predicate Open(u: Setup, s: State, i: Intent, row: Row, r: Receipt, now: nat) {
    Inv(u, s) && Get(s.proc.tables.rows, i) == Some(row) && row.terminal.None? && Closes(s.world, row, r, now)
  }

  /** A step that only moves operations on, and drops none of those who wait for `i`. */
  lemma After(u: Setup, s: State, e: Input, es: seq<Occurrence>, i: Intent, row: Row, r: Receipt, now: nat)
    requires Enabled(u, s, Deliver(e))
    requires var s1 := Apply(u, s, Deliver(e));
             && s1.proc.tables == s.proc.tables && (forall call :: Heard(s, i, call) ==> Heard(s1, i, call))
             && Finishes(u, s1, es, i, row, r, now)
    ensures Finishes(u, s, [Deliver(e)] + es, i, row, r, now)
  {
    RunsInto(u, s, Deliver(e), es);
  }

  lemma AllTold(i: Intent, op: Op, b: Body, h: seq<Act>, call: CallId)
    requires b.Resolved? && (call == op.owner || call in op.waiters)
    ensures Told(h + AnswersTo(i, op, b), i, call, b.row)
  {
    var answers := AnswersTo(i, op, b);
    var k: nat :| k < |answers| && answers[k].call == call by {
      if call == op.owner {
        assert answers[0].call == call;
      } else {
        var j :| 0 <= j < |op.waiters| && op.waiters[j] == call;
        assert answers[j + 1].call == call;
      }
    }
    AnswersShape(i, op, b, k);
    assert answers[k] in h + answers;
  }

  /** The answer that brings the receipt to an operation that looks or waits for it. */
  function Brings(stage: Stage, i: Intent, r: Receipt, now: nat): Input {
    if stage.AskedReceipt? then ReceiptRead(i, Got(Found(r)), now, Healthy) else Waited(i, Got(r), now, Healthy)
  }

  lemma ReceiptCloses(u: Setup, s: State, i: Intent, row: Row, r: Receipt, now: nat)
    requires Open(u, s, i, row, r, now) && i in s.proc.inflight
    requires s.proc.inflight[i].stage.AskedReceipt? || s.proc.inflight[i].stage.Waiting?
    ensures var e, op := Brings(s.proc.inflight[i].stage, i, r, now), s.proc.inflight[i];
            && Enabled(u, s, Deliver(e)) && op.stage.row.claim == row.claim
            && React(u.config, s.proc, e) == Perform(s.proc, i, Close(s.proc.tables, i, op, r, now, Healthy))
  {
    var op := s.proc.inflight[i];
    assert OpOk(u, s.proc.tables.rows, s.history, s.nextCall, i, op);
    var e := Brings(op.stage, i, r, now);
    assert Focus(s.proc, e) == Some(i);
    assert Decide(u.config, s.proc.tables, i, op, e) == Close(s.proc.tables, i, op, r, now, Healthy);
  }

  /** What the closing step leaves, and whom it tells. */
  lemma CloseTells(u: Setup, s: State, i: Intent, row: Row, r: Receipt, now: nat)
    requires Open(u, s, i, row, r, now) && i in s.proc.inflight
    requires !s.proc.inflight[i].stage.Preparing() && s.proc.inflight[i].stage.row.claim == row.claim
    ensures var step := Perform(s.proc, i, Close(s.proc.tables, i, s.proc.inflight[i], r, now, Healthy));
            var t, t', ended := s.proc.tables, step.proc.tables, EndedBy(s.proc.tables, row, i, r, now);
            && Get(t'.rows, i) == Some(ended) && |t'.rows| == |t.rows|
            && (forall j :: j != i ==> Get(t'.rows, j) == Get(t.rows, j))
            && forall call :: Heard(s, i, call) ==> Told(s.history + step.acts, i, call, ended)
  {
    var op, ended := s.proc.inflight[i], EndedBy(s.proc.tables, row, i, r, now);
    ClosingStep(u, s, i, op, row, r, now);
    var h, b := s.history + [Finished(i, Some(op.owner))], Resolved(ended, op.replayed);
    assert s.history + ([Finished(i, Some(op.owner))] + AnswersTo(i, op, b)) == h + AnswersTo(i, op, b);
    forall call | Heard(s, i, call)
      ensures Told(h + AnswersTo(i, op, b), i, call, ended)
    {
      AllTold(i, op, b, h, call);
    }
  }

  /** The receipt in hand, one step ends it. */
  lemma Closing(u: Setup, s: State, i: Intent, row: Row, r: Receipt, now: nat)
    requires Open(u, s, i, row, r, now) && i in s.proc.inflight
    requires s.proc.inflight[i].stage.AskedReceipt? || s.proc.inflight[i].stage.Waiting?
    ensures Finishes(u, s, [Deliver(Brings(s.proc.inflight[i].stage, i, r, now))], i, row, r, now)
  {
    var e := Brings(s.proc.inflight[i].stage, i, r, now);
    ReceiptCloses(u, s, i, row, r, now);
    CloseTells(u, s, i, row, r, now);
    RunsInto(u, s, Deliver(e), []);
    assert [Deliver(e)] + [] == [Deliver(e)];
  }

  lemma OpenStays(u: Setup, s: State, e: Input, i: Intent, row: Row, r: Receipt, now: nat)
    requires Open(u, s, i, row, r, now) && Enabled(u, s, Deliver(e))
    requires Apply(u, s, Deliver(e)).proc.tables == s.proc.tables
    ensures Open(u, Apply(u, s, Deliver(e)), i, row, r, now)
  {
    InvKept(u, s, Deliver(e));
  }

  /** An operation past its claim, wherever it is suspended, has at most three more answers to wait for. */
  lemma FromClaimed(u: Setup, s: State, i: Intent, row: Row, r: Receipt, now: nat) returns (es: seq<Occurrence>)
    requires Open(u, s, i, row, r, now) && i in s.proc.inflight && !s.proc.inflight[i].stage.Preparing()
    ensures Finishes(u, s, es, i, row, r, now)
    decreases match s.proc.inflight[i].stage case AskedRestore(_) => 2 case Sending(_) => 1 case _ => 0
  {
    var stage := s.proc.inflight[i].stage;
    assert OpOk(u, s.proc.tables.rows, s.history, s.nextCall, i, s.proc.inflight[i]);
    match stage {
      case AskedReceipt(_) =>
        es := [Deliver(Brings(stage, i, r, now))];
        Closing(u, s, i, row, r, now);
      case Waiting(_) =>
        es := [Deliver(Brings(stage, i, r, now))];
        Closing(u, s, i, row, r, now);
      case AskedRestore(_) =>
        var e := Restored(i, Got(row.claim.hash.tx));
        OpenStays(u, s, e, i, row, r, now);
        var rest := FromClaimed(u, Apply(u, s, Deliver(e)), i, row, r, now);
        After(u, s, e, rest, i, row, r, now);
        es := [Deliver(e)] + rest;
      case Sending(_) =>
        var e := SendReturned(i);
        OpenStays(u, s, e, i, row, r, now);
        var rest := FromClaimed(u, Apply(u, s, Deliver(e)), i, row, r, now);
        After(u, s, e, rest, i, row, r, now);
        es := [Deliver(e)] + rest;
    }
  }

  /** An answer after which the operation at the head of the queue gives up. */
  function GivesWay(stage: Stage): Input
    requires stage.Preparing()
  {
    match stage
    case Queued => Turn(LostBefore)
    case AskedNonce => NonceRead(Failed(Raise(Other)), Healthy)
    case _ => Prepared(Failed(Raise(Other)), true, 0, Healthy)
  }

  /** The head of the queue leaves it, and nothing else changes. */
  lemma HeadLeaves(u: Setup, s: State)
    requires Inv(u, s) && s.proc.preparing != []
    ensures s.proc.preparing[0] in s.proc.inflight && s.proc.inflight[s.proc.preparing[0]].stage.Preparing()
    ensures var j := s.proc.preparing[0];
            var e := GivesWay(s.proc.inflight[j].stage);
            && Enabled(u, s, Deliver(e))
            && var s1 := Apply(u, s, Deliver(e));
               s1.proc == Proc(s.proc.inflight - {j}, s.proc.preparing[1..], s.proc.tables) && s1.world == s.world
  {
    var j := s.proc.preparing[0];
    assert j in s.proc.inflight && s.proc.inflight[j].stage.Preparing();
  }

  /** An operation that still waits for its turn gets it once those before it are gone. */
  lemma {:induction false} FromQueued(u: Setup, s: State, i: Intent, row: Row, r: Receipt, now: nat) returns (es: seq<Occurrence>)
    requires Open(u, s, i, row, r, now) && i in s.proc.inflight && s.proc.inflight[i].stage.Queued?
    ensures Finishes(u, s, es, i, row, r, now)
    decreases |s.proc.preparing|
  {
    assert i in s.proc.preparing;
    HeadLeaves(u, s);
    var j := s.proc.preparing[0];
    var e := if j == i then Turn(Healthy) else GivesWay(s.proc.inflight[j].stage);
    OpenStays(u, s, e, i, row, r, now);
    var rest;
    if j == i {
      rest := FromClaimed(u, Apply(u, s, Deliver(e)), i, row, r, now);
    } else {
      rest := FromQueued(u, Apply(u, s, Deliver(e)), i, row, r, now);
    }
    After(u, s, e, rest, i, row, r, now);
    es := [Deliver(e)] + rest;
  }

  /**
   * From every state that meets the invariant, a call for an open row whose receipt can be seen has a
   * continuation in which this process finishes the row and tells that call, and all who waited before
   * it: alone, coalesced into a live operation at any stage, or behind any queue.
   */
  lemma CallConverges(u: Setup, s: State, i: Intent, row: Row, r: Receipt, now: nat) returns (es: seq<Occurrence>)
    requires Open(u, s, i, row, r, now)
    ensures var call := Deliver(Call(s.nextCall, i));
            && Enabled(u, s, call)
            && var s1 := Apply(u, s, call);
               && (forall c :: Heard(s, i, c) || c == s.nextCall ==> Heard(s1, i, c))
               && Finishes(u, s1, es, i, row, r, now)
  {
    var e := Call(s.nextCall, i);
    var s1 := Apply(u, s, Deliver(e));
    OpenStays(u, s, e, i, row, r, now);
    assert OpOk(u, s1.proc.tables.rows, s1.history, s1.nextCall, i, s1.proc.inflight[i]);
    if s1.proc.inflight[i].stage.Preparing() {
      es := FromQueued(u, s1, i, row, r, now);
    } else {
      es := FromClaimed(u, s1, i, row, r, now);
    }
  }
}
