/**
 * The durable settlement journal of packages/store/src/settlement.ts: one row per payment
 * intent, one running total per budget series, one ledger event per finished row.
 *
 * A table is a sequence in insertion order. A transaction either lands whole or not at all;
 * what a caller is told about it can still be lost, which `Disk` makes a parameter.
 */
module Journal {
  import opened Wrappers

  type Address = nat

  /** A payment intent id. The id is an injective digest of its fields, so it is those fields. */
  datatype Intent = Intent(asset: Address, payer: Address, payTo: Address, amount: nat, leaf: nat)

  /** A signed transaction, as far as anything reads it back; `call` is the payment it redeems. */
  datatype Tx = Tx(eip1559: bool, chainId: nat, nonce: nat, gas: Option<nat>,
                   maxFee: Option<nat>, priority: Option<nat>, call: Intent)

  /** keccak256 of a serialized transaction, taken to be injective. */
  datatype Hash = Keccak(tx: Tx)

  const MAX_SAFE: nat := 9_007_199_254_740_991
  const MAX_INSTANT: nat := 8_640_000_000_000_000
  const DAY_MS: nat := 86_400_000

  datatype Claim = Claim(intent: Intent, hash: Hash, signer: Address, chainId: nat, nonce: nat,
                         gas: nat, maxFee: nat, priority: nat, createdAt: nat)
  datatype Limits = Limits(total: nat, payer: nat)
  datatype Ending = Ending(at: nat, gasUsed: nat, actualCost: nat, errorCode: Option<string>)
  {
    /** An empty code reads as no code at all. */
    predicate Failed() { errorCode.Some? && errorCode.value != "" }
  }
  datatype Terminal = Terminal(id: nat, ending: Ending)
  datatype Row = Row(claim: Claim, day: nat, reserved: nat, terminal: Option<Terminal>)
  datatype Event = Event(hash: Hash, payer: Address, payTo: Address, amount: nat, ending: Ending)

  datatype Scope = Total | Payer(payer: Address)
  datatype Series = Series(scope: Scope, day: nat)
  datatype Tables = Tables(rows: seq<Row>, spent: map<Series, nat>, events: seq<Event>)

  /** Whether the disk answers, fails before the commit, or loses the answer after it. */
  datatype Disk = Healthy | LostBefore | LostAfter
  datatype Reply = Kept(row: Row) | OverBudget(code: string) | Threw
  datatype Txn = Txn(tables: Tables, reply: Reply)

  // ---- reading -----------------------------------------------------------------------

  function IndexOf(rows: seq<Row>, intent: Intent): (i: int)
    ensures -1 <= i < |rows|
    ensures i >= 0 ==> rows[i].claim.intent == intent
    ensures i < 0 <==> forall k :: 0 <= k < |rows| ==> rows[k].claim.intent != intent
  {
    if rows == [] then -1
    else if rows[|rows| - 1].claim.intent == intent then |rows| - 1
    else IndexOf(rows[..|rows| - 1], intent)
  }

  function Get(rows: seq<Row>, intent: Intent): Option<Row> {
    var i := IndexOf(rows, intent);
    if i < 0 then None else Some(rows[i])
  }

  function MaxNonce(rows: seq<Row>, signer: Address, chainId: nat): (m: int)
    ensures -1 <= m
    ensures forall k :: 0 <= k < |rows| && rows[k].claim.signer == signer && rows[k].claim.chainId == chainId
                        ==> rows[k].claim.nonce <= m
    ensures m == -1 || exists k :: 0 <= k < |rows| && rows[k].claim.signer == signer
                                   && rows[k].claim.chainId == chainId && rows[k].claim.nonce == m
  {
    if rows == [] then -1
    else
      var last := rows[|rows| - 1].claim;
      var before := MaxNonce(rows[..|rows| - 1], signer, chainId);
      if last.signer == signer && last.chainId == chainId && last.nonce > before then last.nonce else before
  }

  /** The node's pending nonce is the floor; a claimed nonce may not be on the node yet. */
  function NextNonce(rows: seq<Row>, signer: Address, chainId: nat, pending: nat): Option<nat> {
    var floor := MaxNonce(rows, signer, chainId) + 1;
    var next := if pending > floor then pending else floor;
    if pending > MAX_SAFE || chainId > MAX_SAFE || next > MAX_SAFE then None else Some(next)
  }

  function Load(spent: map<Series, nat>, s: Series): nat {
    if s in spent then spent[s] else 0
  }

  predicate Collides(rows: seq<Row>, c: Claim) {
    exists k :: 0 <= k < |rows| &&
      (rows[k].claim.hash == c.hash ||
       (rows[k].claim.chainId == c.chainId && rows[k].claim.signer == c.signer && rows[k].claim.nonce == c.nonce))
  }

  predicate ValidEnvelope(c: Claim, limits: Limits) {
    && c.createdAt <= MAX_INSTANT
    && c.gas != 0 && c.priority <= c.maxFee
    && limits.total != 0 && limits.payer != 0 && limits.payer <= limits.total
  }

  // ---- the two transactions ----------------------------------------------------------

  function NewRow(c: Claim): Row {
    Row(c, c.createdAt / DAY_MS, c.gas * c.maxFee, None)
  }

  /** Adding the row's reservation to the total and to the payer's share of its day. */
  function Reserve(t: Tables, row: Row): Tables {
    t.(rows := t.rows + [row],
       spent := t.spent[TotalSeries(row) := Load(t.spent, TotalSeries(row)) + row.reserved]
                       [ShareSeries(row) := Load(t.spent, ShareSeries(row)) + row.reserved])
  }

  function ClaimTxn(t: Tables, c: Claim, limits: Limits, disk: Disk): Txn {
    var existing := IndexOf(t.rows, c.intent);
    var row := NewRow(c);
    if disk.LostBefore? then Txn(t, Threw)
    else if existing >= 0 then Txn(t, if disk.LostAfter? then Threw else Kept(t.rows[existing]))
    else if !ValidEnvelope(c, limits) then Txn(t, Threw)
    else if Load(t.spent, ShareSeries(row)) + row.reserved > limits.payer then
      Txn(t, OverBudget("payer_budget_exhausted"))
    else if Load(t.spent, TotalSeries(row)) + row.reserved > limits.total then
      Txn(t, OverBudget("budget_exhausted"))
    else if Collides(t.rows, c) || c.chainId > MAX_SAFE || c.nonce > MAX_SAFE then Txn(t, Threw)
    else Txn(Reserve(t, row), if disk.LostAfter? then Threw else Kept(row))
  }

  function TotalSeries(r: Row): Series { Series(Total, r.day) }

  function ShareSeries(r: Row): Series { Series(Payer(r.claim.intent.payer), r.day) }

  /** Both running totals can give the reservation back: neither would be stored negative. */
  predicate Covered(t: Tables, row: Row, e: Ending) {
    && Load(t.spent, TotalSeries(row)) + e.actualCost >= row.reserved
    && Load(t.spent, ShareSeries(row)) + e.actualCost >= row.reserved
  }

  /** The reservation is replaced by the cost on the claim's own day, whatever day it is now. */
  function End(t: Tables, i: nat, e: Ending): Tables
    requires i < |t.rows| && Covered(t, t.rows[i], e)
  {
    var row := t.rows[i];
    var newTotal := Load(t.spent, TotalSeries(row)) - row.reserved + e.actualCost;
    var newShare := Load(t.spent, ShareSeries(row)) - row.reserved + e.actualCost;
    Tables(t.rows[i := row.(terminal := Some(Terminal(|t.events|, e)))],
           t.spent[TotalSeries(row) := newTotal][ShareSeries(row) := newShare],
           t.events + [Event(row.claim.hash, row.claim.intent.payer, row.claim.intent.payTo,
                             row.claim.intent.amount, e)])
  }

  function FinishTxn(t: Tables, intent: Intent, e: Ending, disk: Disk): Txn {
    var i := IndexOf(t.rows, intent);
    if disk.LostBefore? || i < 0 then Txn(t, Threw)
    else if t.rows[i].terminal.Some? then Txn(t, if disk.LostAfter? then Threw else Kept(t.rows[i]))
    else if e.at > MAX_SAFE || !Covered(t, t.rows[i], e) then Txn(t, Threw)
    else
      var ended := End(t, i, e);
      Txn(ended, if disk.LostAfter? then Threw else Kept(ended.rows[i]))
  }

  // ---- what the tables mean ----------------------------------------------------------

  function Charge(r: Row): nat {
    if r.terminal.Some? then r.terminal.value.ending.actualCost else r.reserved
  }

  predicate InSeries(r: Row, s: Series) {
    r.day == s.day && (s.scope.Total? || s.scope.payer == r.claim.intent.payer)
  }

  /** The charges of the rows claimed in the series: each row once, on the day that claimed it. */
  function Charged(rows: seq<Row>, s: Series): nat {
    if rows == [] then 0
    else
      var r := rows[|rows| - 1];
      Charged(rows[..|rows| - 1], s) + if InSeries(r, s) then Charge(r) else 0
  }

  /** By how much finished rows of the series cost more than they reserved. */
  function Excess(rows: seq<Row>, s: Series): nat {
    if rows == [] then 0
    else
      var r := rows[|rows| - 1];
      Excess(rows[..|rows| - 1], s) +
      if InSeries(r, s) && Charge(r) > r.reserved then Charge(r) - r.reserved else 0
  }

  function FinishedCount(rows: seq<Row>): (n: nat)
    ensures n <= |rows|
    ensures n == |rows| <==> forall k :: 0 <= k < |rows| ==> rows[k].terminal.Some?
  {
    if rows == [] then 0
    else FinishedCount(rows[..|rows| - 1]) + if rows[|rows| - 1].terminal.Some? then 1 else 0
  }

  function Ceiling(limits: Limits, s: Series): nat {
    if s.scope.Total? then limits.total else limits.payer
  }

  ghost predicate Distinct(rows: seq<Row>) {
    forall i, j :: 0 <= i < j < |rows| ==>
      && rows[i].claim.intent != rows[j].claim.intent
      && rows[i].claim.hash != rows[j].claim.hash
  }

  ghost predicate Conserved(t: Tables) {
    forall s: Series :: Load(t.spent, s) == Charged(t.rows, s)
  }

  ghost predicate Bounded(rows: seq<Row>, limits: Limits) {
    forall s: Series :: Charged(rows, s) <= Ceiling(limits, s) + Excess(rows, s)
  }

  /** Every finished row has its own ledger event, and no event belongs to anything else. */
  ghost predicate Ledgered(t: Tables) {
    && |t.events| == FinishedCount(t.rows)
    && forall k :: 0 <= k < |t.rows| && t.rows[k].terminal.Some? ==>
         var end := t.rows[k].terminal.value;
         end.id < |t.events| && t.events[end.id].hash == t.rows[k].claim.hash
         && t.events[end.id].ending == end.ending
  }

  ghost predicate Sound(t: Tables, limits: Limits) {
    Distinct(t.rows) && Conserved(t) && Bounded(t.rows, limits) && Ledgered(t)
  }

  lemma EmptyIsSound(limits: Limits)
    ensures Sound(Tables([], map[], []), limits)
  {
  }

  // ---- sums under append and update ----------------------------------------------------

  lemma AppendRow(rows: seq<Row>, r: Row, s: Series)
    ensures Charged(rows + [r], s) == Charged(rows, s) + if InSeries(r, s) then Charge(r) else 0
    ensures Excess(rows + [r], s) ==
            Excess(rows, s) + if InSeries(r, s) && Charge(r) > r.reserved then Charge(r) - r.reserved else 0
    ensures FinishedCount(rows + [r]) == FinishedCount(rows) + if r.terminal.Some? then 1 else 0
  {
    assert (rows + [r])[..|rows|] == rows;
  }

  /** Finishing row `i` moves its charge from the reservation to the actual cost, and nothing else. */
  lemma {:induction false} EndRow(rows: seq<Row>, i: nat, end: Terminal, s: Series)
    requires i < |rows| && rows[i].terminal.None?
    ensures var r' := rows[i].(terminal := Some(end));
            var done := rows[i := r'];
            var cost := end.ending.actualCost;
            && Charged(done, s) == Charged(rows, s) + (if InSeries(r', s) then cost - rows[i].reserved else 0)
            && Excess(done, s) == Excess(rows, s) +
                 (if InSeries(r', s) && cost > rows[i].reserved then cost - rows[i].reserved else 0)
            && FinishedCount(done) == FinishedCount(rows) + 1
  {
    var last := |rows| - 1;
    var r' := rows[i].(terminal := Some(end));
    var done := rows[i := r'];
    if i == last {
      assert done[..last] == rows[..last];
    } else {
      assert done[..last] == rows[..last][i := r'];
      EndRow(rows[..last], i, end, s);
    }
  }

  lemma {:induction false} ChargedCovers(rows: seq<Row>, i: nat, s: Series)
    requires i < |rows| && InSeries(rows[i], s)
    ensures Charge(rows[i]) <= Charged(rows, s)
  {
    if i < |rows| - 1 {
      ChargedCovers(rows[..|rows| - 1], i, s);
    }
  }

  // ---- what each transaction keeps ------------------------------------------------------

  /** A row is in exactly two series: its day's total, and its payer's share of that day. */
  lemma TwoSeries(r: Row, s: Series)
    ensures InSeries(r, s) <==> s == TotalSeries(r) || s == ShareSeries(r)
  {
    match s.scope {
      case Total => assert s == Series(Total, s.day);
      case Payer(p) => assert s == Series(Payer(p), s.day);
    }
  }

  lemma ReserveConserves(t: Tables, row: Row)
    requires Conserved(t) && row.terminal.None?
    ensures Conserved(Reserve(t, row))
  {
    forall s: Series
      ensures Load(Reserve(t, row).spent, s) == Charged(t.rows + [row], s)
    {
      AppendRow(t.rows, row, s);
      TwoSeries(row, s);
    }
  }

  lemma ReserveStaysBounded(rows: seq<Row>, row: Row, limits: Limits)
    requires Bounded(rows, limits) && row.terminal.None?
    requires Charged(rows, TotalSeries(row)) + row.reserved <= limits.total
    requires Charged(rows, ShareSeries(row)) + row.reserved <= limits.payer
    ensures Bounded(rows + [row], limits)
  {
    forall s: Series
      ensures Charged(rows + [row], s) <= Ceiling(limits, s) + Excess(rows + [row], s)
    {
      AppendRow(rows, row, s);
      TwoSeries(row, s);
    }
  }

  lemma ReserveKeeps(t: Tables, c: Claim, limits: Limits)
    requires Sound(t, limits) && Get(t.rows, c.intent).None? && !Collides(t.rows, c)
    requires Load(t.spent, TotalSeries(NewRow(c))) + NewRow(c).reserved <= limits.total
    requires Load(t.spent, ShareSeries(NewRow(c))) + NewRow(c).reserved <= limits.payer
    ensures Sound(Reserve(t, NewRow(c)), limits)
  {
    var row := NewRow(c);
    ReserveConserves(t, row);
    ReserveStaysBounded(t.rows, row, limits);
    AppendRow(t.rows, row, TotalSeries(row));
  }

  /** A claim that lands adds exactly one row, within both limits at that moment. */
  lemma ClaimKeeps(t: Tables, c: Claim, limits: Limits, disk: Disk)
    requires Sound(t, limits)
    ensures var after := ClaimTxn(t, c, limits, disk).tables;
            var row := NewRow(c);
            && Sound(after, limits)
            && (after == t ||
                (&& after.rows == t.rows + [row]
                 && Get(t.rows, c.intent).None?
                 && Charged(after.rows, TotalSeries(row)) <= limits.total
                 && Charged(after.rows, ShareSeries(row)) <= limits.payer))
  {
    var row := NewRow(c);
    if ClaimTxn(t, c, limits, disk).tables != t {
      ReserveKeeps(t, c, limits);
      AppendRow(t.rows, row, TotalSeries(row));
      AppendRow(t.rows, row, ShareSeries(row));
    }
  }

  lemma EndConserves(t: Tables, i: nat, e: Ending)
    requires Conserved(t) && i < |t.rows| && t.rows[i].terminal.None? && Covered(t, t.rows[i], e)
    ensures Conserved(End(t, i, e))
  {
    var after := End(t, i, e);
    forall s: Series
      ensures Load(after.spent, s) == Charged(after.rows, s)
    {
      EndRow(t.rows, i, Terminal(|t.events|, e), s);
      TwoSeries(t.rows[i], s);
    }
  }

  lemma EndStaysBounded(rows: seq<Row>, i: nat, end: Terminal, limits: Limits)
    requires Bounded(rows, limits) && i < |rows| && rows[i].terminal.None?
    ensures Bounded(rows[i := rows[i].(terminal := Some(end))], limits)
  {
    var done := rows[i := rows[i].(terminal := Some(end))];
    forall s: Series
      ensures Charged(done, s) <= Ceiling(limits, s) + Excess(done, s)
    {
      EndRow(rows, i, end, s);
    }
  }

  lemma EndKeeps(t: Tables, i: nat, e: Ending, limits: Limits)
    requires Sound(t, limits) && i < |t.rows| && t.rows[i].terminal.None? && Covered(t, t.rows[i], e)
    ensures Sound(End(t, i, e), limits)
  {
    EndConserves(t, i, e);
    EndStaysBounded(t.rows, i, Terminal(|t.events|, e), limits);
    EndRow(t.rows, i, Terminal(|t.events|, e), TotalSeries(t.rows[i]));
  }

  /** A finish that lands changes one unfinished row and nothing else; finished rows never change. */
  lemma FinishKeeps(t: Tables, intent: Intent, e: Ending, limits: Limits, disk: Disk)
    requires Sound(t, limits)
    ensures var after := FinishTxn(t, intent, e, disk).tables;
            var i := IndexOf(t.rows, intent);
            && Sound(after, limits)
            && (after == t ||
                (i >= 0 && t.rows[i].terminal.None?
                 && after.rows == t.rows[i := t.rows[i].(terminal := Some(Terminal(|t.events|, e)))]))
  {
    var i := IndexOf(t.rows, intent);
    if FinishTxn(t, intent, e, disk).tables != t {
      EndKeeps(t, i, e, limits);
    }
  }

  /** On sound tables a healthy finish of a known row always lands: no total can go negative. */
  lemma FinishLands(t: Tables, intent: Intent, e: Ending, limits: Limits)
    requires Sound(t, limits) && Get(t.rows, intent).Some? && e.at <= MAX_SAFE
    ensures var txn := FinishTxn(t, intent, e, Healthy);
            && txn.reply.Kept? && txn.reply.row.claim.intent == intent && txn.reply.row.terminal.Some?
            && Get(txn.tables.rows, intent) == Some(txn.reply.row)
            && |txn.tables.rows| == |t.rows|
  {
    var i := IndexOf(t.rows, intent);
    var row := t.rows[i];
    if row.terminal.None? {
      ChargedCovers(t.rows, i, TotalSeries(row));
      ChargedCovers(t.rows, i, ShareSeries(row));
      FinishKeeps(t, intent, e, limits, Healthy);
      var after := FinishTxn(t, intent, e, Healthy).tables;
      var j := IndexOf(after.rows, intent);
      assert after.rows[i].claim.intent == intent;
    }
  }

  // ---- the signed reading of the overshoot ------------------------------------------------

  function Reservations(rows: seq<Row>, s: Series): nat {
    if rows == [] then 0
    else Reservations(rows[..|rows| - 1], s) + if InSeries(rows[|rows| - 1], s) then rows[|rows| - 1].reserved else 0
  }

  /** Actual cost minus reservation, summed with its sign over the finished rows of the series. */
  function Drift(rows: seq<Row>, s: Series): int {
    if rows == [] then 0
    else
      var r := rows[|rows| - 1];
      Drift(rows[..|rows| - 1], s) + if InSeries(r, s) then Charge(r) - r.reserved else 0
  }

  lemma {:induction false} ChargedIsReservedPlusDrift(rows: seq<Row>, s: Series)
    ensures Charged(rows, s) == Reservations(rows, s) + Drift(rows, s)
  {
    if rows != [] {
      ChargedIsReservedPlusDrift(rows[..|rows| - 1], s);
    }
  }

  /**
   * With signed differences the overshoot bound holds exactly while everything ever reserved in
   * the series fits its limit: once a refund has been reserved again, cheap rows hide the spend.
   */
  lemma SignedOvershootIff(rows: seq<Row>, limits: Limits, s: Series)
    ensures Charged(rows, s) <= Ceiling(limits, s) + Drift(rows, s) <==> Reservations(rows, s) <= Ceiling(limits, s)
  {
    ChargedIsReservedPlusDrift(rows, s);
  }

  function SampleClaim(leaf: nat, gas: nat): Claim {
    var intent := Intent.Intent(9, 1, 2, 3, leaf);
    Claim.Claim(intent, Keccak(Tx(true, 1, leaf, Some(gas), Some(1), Some(1), intent)), 0, 1, leaf, gas, 1, 1, 0)
  }

  const SAMPLE_LIMITS := Limits(10, 10)

  function Morning(): Tables { ClaimTxn(Tables([], map[], []), SampleClaim(0, 10), SAMPLE_LIMITS, Healthy).tables }

  function Noon(): Tables { FinishTxn(Morning(), SampleClaim(0, 10).intent, Ending(0, 1, 1, None), Healthy).tables }

  /** On one day: reserve 10, finish it at a cost of 1, reserve 9 more. */
  function SampleDay(): Tables { ClaimTxn(Noon(), SampleClaim(1, 9), SAMPLE_LIMITS, Healthy).tables }

  lemma MorningRows(first: Row)
    requires first == NewRow(SampleClaim(0, 10))
    ensures Morning() == Reserve(Tables([], map[], []), first) && Morning().rows == [first]
    ensures Load(Morning().spent, TotalSeries(first)) == 10 && Load(Morning().spent, ShareSeries(first)) == 10
  {
  }

  lemma NoonRows(first: Row)
    requires first == NewRow(SampleClaim(0, 10))
    ensures Noon().rows == [first.(terminal := Some(Terminal(0, Ending(0, 1, 1, None))))]
    ensures Load(Noon().spent, TotalSeries(first)) == 1 && Load(Noon().spent, ShareSeries(first)) == 1
  {
    MorningRows(first);
    assert Noon() == End(Morning(), 0, Ending(0, 1, 1, None));
  }

  lemma SampleDayRows()
    ensures SampleDay().rows == [NewRow(SampleClaim(0, 10)).(terminal := Some(Terminal(0, Ending(0, 1, 1, None)))),
                                 NewRow(SampleClaim(1, 9))]
  {
    var first, second := NewRow(SampleClaim(0, 10)), NewRow(SampleClaim(1, 9));
    NoonRows(first);
    assert TotalSeries(second) == TotalSeries(first) && ShareSeries(second) == ShareSeries(first);
    assert SampleDay() == Reserve(Noon(), second);
  }

  lemma OnTwoRows(a: Row, b: Row, s: Series)
    requires InSeries(a, s) && InSeries(b, s)
    ensures Charged([a, b], s) == Charge(a) + Charge(b)
    ensures Drift([a, b], s) == Charge(a) - a.reserved + (Charge(b) - b.reserved)
  {
    assert [a, b][..1] == [a] && [a][..0] == [];
    assert Charged([a], s) == Charge(a) && Drift([a], s) == Charge(a) - a.reserved;
  }

  /** The signed bound is false of a day whose limit of 10 was never passed at any claim. */
  lemma SignedOvershootFails()
    ensures var day := Series(Total, 0);
            Charged(SampleDay().rows, day) == 10 && Drift(SampleDay().rows, day) == -9
            && Charged(SampleDay().rows, day) > 10 + Drift(SampleDay().rows, day)
  {
    SampleDayRows();
    var first := NewRow(SampleClaim(0, 10)).(terminal := Some(Terminal(0, Ending(0, 1, 1, None))));
    OnTwoRows(first, NewRow(SampleClaim(1, 9)), Series(Total, 0));
  }

  // ---- the journal as the store runs it ---------------------------------------------------

  /** The next nonce is one past the last claim exactly when the node is not ahead of the journal. */
  lemma NextNonceIsGapFree(rows: seq<Row>, signer: Address, chainId: nat, pending: nat)
    requires NextNonce(rows, signer, chainId, pending).Some?
    ensures NextNonce(rows, signer, chainId, pending).value == MaxNonce(rows, signer, chainId) + 1
            <==> pending <= MaxNonce(rows, signer, chainId) + 1
    ensures forall k :: 0 <= k < |rows| && rows[k].claim.signer == signer && rows[k].claim.chainId == chainId
              ==> rows[k].claim.nonce < NextNonce(rows, signer, chainId, pending).value
  {
  }

  class SettlementJournal {
    var rows: seq<Row>
    var spent: map<Series, nat>
    var events: seq<Event>

    constructor ()
      ensures State() == Tables([], map[], [])
    {
      rows, spent, events := [], map[], [];
    }

    function State(): Tables
      reads this
    {
      Tables(rows, spent, events)
    }

    method Charge(s: Series, amount: nat)
      modifies this`spent
      ensures spent == old(spent)[s := Load(old(spent), s) + amount]
    {
      spent := spent[s := Load(spent, s) + amount];
    }

    /** The intent and both reservations land together, or nothing does. */
    method Claim(c: Claim, limits: Limits, disk: Disk) returns (reply: Reply)
      modifies this
      ensures Txn(State(), reply) == ClaimTxn(old(State()), c, limits, disk)
    {
      if disk.LostBefore? {
        return Threw;
      }
      var existing := IndexOf(rows, c.intent);
      if existing >= 0 {
        return if disk.LostAfter? then Threw else Kept(rows[existing]);
      }
      if !ValidEnvelope(c, limits) {
        return Threw;
      }
      var row := NewRow(c);
      if Load(spent, ShareSeries(row)) + row.reserved > limits.payer {
        return OverBudget("payer_budget_exhausted");
      }
      if Load(spent, TotalSeries(row)) + row.reserved > limits.total {
        return OverBudget("budget_exhausted");
      }
      if Collides(rows, c) || c.chainId > MAX_SAFE || c.nonce > MAX_SAFE {
        return Threw;
      }
      rows := rows + [row];
      Charge(TotalSeries(row), row.reserved);
      Charge(ShareSeries(row), row.reserved);
      reply := if disk.LostAfter? then Threw else Kept(row);
    }

    /** The actual cost, both totals of the claim's day and the ledger event land together, once. */
    method Finish(intent: Intent, e: Ending, disk: Disk) returns (reply: Reply)
      modifies this
      ensures Txn(State(), reply) == FinishTxn(old(State()), intent, e, disk)
    {
      var i := IndexOf(rows, intent);
      if disk.LostBefore? || i < 0 {
        return Threw;
      }
      var row := rows[i];
      if row.terminal.Some? {
        return if disk.LostAfter? then Threw else Kept(row);
      }
      if e.at > MAX_SAFE || !Covered(State(), row, e) {
        return Threw;
      }
      spent := spent[TotalSeries(row) := Load(spent, TotalSeries(row)) - row.reserved + e.actualCost];
      spent := spent[ShareSeries(row) := Load(spent, ShareSeries(row)) - row.reserved + e.actualCost];
      var ended := row.(terminal := Some(Terminal(|events|, e)));
      events := events + [Event(row.claim.hash, row.claim.intent.payer, row.claim.intent.payTo,
                                row.claim.intent.amount, e)];
      rows := rows[i := ended];
      reply := if disk.LostAfter? then Threw else Kept(ended);
    }
  }
}
