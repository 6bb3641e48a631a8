/**
 * The chunked chain scan of scripts/arcade-guardians-report.ts: `chainActivity` reads a collection's
 * logs window by window up to the safe head, and confirms the seller's payments one by one.
 */
module ChainScan {
  import opened Wrappers

  const WINDOW: nat := 2000
  const MAX_RANGE: nat := 1_000_000
  const MAX_LOGS: nat := 20_000
  const MAX_PAYMENT_RECEIPTS: nat := 2_000
  const CHAIN_ID: nat := 91342

  datatype Kind = MintRequested(token: nat) | BirthRerequested | BirthRevealed | ResultClaimed(actor: nat) | Undecodable
  datatype Log = Log(removed: bool, block: Option<nat>, blockHash: Option<nat>, tx: Option<nat>, address: nat, kind: Kind)
  datatype Block = Block(hash: Option<nat>, timestamp: nat)

  /** `credited` is whether the receipt's logs reconcile with the payment. */
  datatype Receipt = Receipt(success: bool, block: nat, blockHash: nat, credited: bool)

  /** What the node answers; a key that is missing is a call that throws. */
  datatype Client = Client(chainId: Option<nat>, safe: Option<nat>, blocks: map<nat, Block>,
                           logs: map<(nat, nat), seq<Log>>, receipts: map<nat, Receipt>)

  datatype Request = Request(collection: Option<nat>, from: Option<int>, to: Option<int>, start: nat, now: nat)

  datatype Sets = Sets(minted: set<nat>, tokens: set<nat>, revealed: set<nat>, claims: set<nat>, actors: set<nat>,
                       paid: set<nat>, all: set<nat>)

  /** What a pass has gathered, and whether it got to its end without throwing. */
  datatype Pass = Pass(sets: Sets, ok: bool)

  // ---- one log -----------------------------------------------------------------------------------

  predicate WellFormed(l: Log, collection: nat) {
    !l.removed && l.block.Some? && l.blockHash.Some? && l.tx.Some? && l.address == collection
  }

  /** In its window, and on the canonical block of its number. */
  predicate Canonical(c: Client, l: Log, from: nat, to: nat)
    requires l.block.Some? && l.blockHash.Some?
  {
    l.block.value in c.blocks && from <= l.block.value <= to && c.blocks[l.block.value].hash == l.blockHash
  }

  predicate Timely(c: Client, r: Request, block: nat)
    requires block in c.blocks
  {
    r.start <= c.blocks[block].timestamp * 1000 <= r.now
  }

  function Add(s: Sets, tx: nat, kind: Kind): Sets {
    match kind
    case MintRequested(token) => s.(minted := s.minted + {tx}, tokens := s.tokens + {token}, all := s.all + {tx})
    case BirthRerequested => s.(all := s.all + {tx})
    case BirthRevealed => s.(revealed := s.revealed + {tx}, all := s.all + {tx})
    case ResultClaimed(actor) => s.(claims := s.claims + {tx}, actors := s.actors + {actor}, all := s.all + {tx})
    case Undecodable => s
  }

  /** None is a throw: a log out of place, off the canonical chain, or in range and undecodable. */
  function TakeLog(c: Client, r: Request, collection: nat, from: nat, to: nat, l: Log, s: Sets): Option<Sets> {
    if !WellFormed(l, collection) || !Canonical(c, l, from, to) then None
    else if !Timely(c, r, l.block.value) then Some(s)
    else if l.kind.Undecodable? then None
    else Some(Add(s, l.tx.value, l.kind))
  }

  function TakeLogs(c: Client, r: Request, collection: nat, from: nat, to: nat, logs: seq<Log>, s: Sets): Pass {
    if logs == [] then Pass(s, true)
    else match TakeLog(c, r, collection, from, to, logs[0], s)
      case None => Pass(s, false)
      case Some(next) => TakeLogs(c, r, collection, from, to, logs[1..], next)
  }

  function TakeWindow(c: Client, r: Request, collection: nat, from: nat, to: nat, s: Sets): Pass {
    if (from, to) !in c.logs || |c.logs[(from, to)]| > MAX_LOGS then Pass(s, false)
    else TakeLogs(c, r, collection, from, to, c.logs[(from, to)], s)
  }

  // ---- the windows ----------------------------------------------------------------------------------

  function WindowEnd(from: nat, end: nat): nat { if from + (WINDOW - 1) < end then from + (WINDOW - 1) else end }

  function NextWindow(from: nat): nat { from + WINDOW }

  /** The windows asked for, from the first block to the last one inclusive. */
  function Windows(from: nat, end: nat): seq<(nat, nat)>
    decreases end + 1 - from
  {
    if from > end then [] else [(from, WindowEnd(from, end))] + Windows(NextWindow(from), end)
  }

  predicate In(w: (nat, nat), b: nat) { w.0 <= b <= w.1 }

  /** The windows partition the range: each block is in one of them and only one. */
  lemma {:induction false} WindowsPartition(from: nat, end: nat, b: nat)
    ensures from <= b <= end <==> exists k :: 0 <= k < |Windows(from, end)| && In(Windows(from, end)[k], b)
    ensures forall j, k :: 0 <= j < k < |Windows(from, end)| ==> Windows(from, end)[j].1 < Windows(from, end)[k].0
    decreases end + 1 - from
  {
    if from <= end {
      var ws, rest := Windows(from, end), Windows(NextWindow(from), end);
      assert ws[0] == (from, WindowEnd(from, end)) && ws[1..] == rest;
      assert forall k :: 0 < k < |ws| ==> ws[k] == rest[k - 1];
      WindowsPartition(NextWindow(from), end, b);
      WindowsStart(NextWindow(from), end);
      if k :| 0 <= k < |rest| && In(rest[k], b) {
        assert In(ws[k + 1], b);
      }
      if from <= b <= WindowEnd(from, end) {
        assert In(ws[0], b);
      }
    }
  }

  lemma {:induction false} WindowsStart(from: nat, end: nat)
    ensures forall k :: 0 <= k < |Windows(from, end)| ==> from <= Windows(from, end)[k].0
    decreases end + 1 - from
  {
    if from <= end {
      WindowsStart(NextWindow(from), end);
    }
  }

  /** No window is wider than 2000 blocks, and a bounded range takes at most 500 of them. */
  lemma {:induction false} WindowsAreBounded(from: nat, end: nat)
    ensures forall k :: 0 <= k < |Windows(from, end)| ==>
              Windows(from, end)[k].0 <= Windows(from, end)[k].1 <= end && Windows(from, end)[k].1 - Windows(from, end)[k].0 < 2_000
    ensures from <= end ==> |Windows(from, end)| == (end - from) / 2_000 + 1
    ensures from <= end && end - from < 1_000_000 ==> |Windows(from, end)| <= 500
    decreases end + 1 - from
  {
    if from <= end {
      WindowsAreBounded(NextWindow(from), end);
      if NextWindow(from) <= end {
        assert (end - from) / WINDOW == (end - NextWindow(from)) / WINDOW + 1;
      }
    }
  }

  // ---- the whole scan ---------------------------------------------------------------------------------

  datatype Scan = Scan(sets: Sets, through: Option<nat>, ok: bool)

  function ScanFrom(c: Client, r: Request, collection: nat, from: nat, end: nat, s: Sets, through: Option<nat>): Scan
    decreases end + 1 - from
  {
    if from > end then Scan(s, through, true)
    else
      var pass := TakeWindow(c, r, collection, from, WindowEnd(from, end), s);
      if !pass.ok then Scan(pass.sets, through, false)
      else ScanFrom(c, r, collection, NextWindow(from), end, pass.sets, Some(WindowEnd(from, end)))
  }

  predicate ValidRange(r: Request) {
    r.collection.Some? && r.from.Some? && r.to.Some? && 0 <= r.from.value <= r.to.value && r.to.value - r.from.value < MAX_RANGE
  }

  /** A payment is confirmed by a canonical, successful and reconciled receipt at or below the safe head. */
  predicate Confirmed(c: Client, safe: nat, hash: nat) {
    && hash in c.receipts
    && var receipt := c.receipts[hash];
       receipt.success && receipt.block <= safe && receipt.credited
       && receipt.block in c.blocks && c.blocks[receipt.block].hash == Some(receipt.blockHash)
  }

  function TakePayments(c: Client, r: Request, safe: nat, payments: seq<nat>, s: Sets): Pass {
    if payments == [] then Pass(s, true)
    else
      var hash := payments[0];
      var good := Confirmed(c, safe, hash);
      var next := if good && Timely(c, r, c.receipts[hash].block) then s.(paid := s.paid + {hash}, all := s.all + {hash}) else s;
      var rest := TakePayments(c, r, safe, payments[1..], next);
      Pass(rest.sets, good && rest.ok)
  }

  datatype Counts = Counts(mints: nat, tokens: nat, births: nat, claims: nat, actors: nat,
                           payments: Option<nat>, distinct: Option<nat>)
  datatype Report = Report(safeHead: Option<nat>, scannedThrough: Option<nat>, rangeComplete: bool, paymentComplete: bool,
                           observed: Counts, complete: Option<Counts>)

  const NOTHING: Sets := Sets({}, {}, {}, {}, {}, {}, {})

  function CountsOf(s: Sets, sourced: bool): Counts {
    Counts(|s.minted|, |s.tokens|, |s.revealed|, |s.claims|, |s.actors|,
           if sourced then Some(|s.paid|) else None, if sourced then Some(|s.all|) else None)
  }

  function ReportOf(s: Sets, sourced: bool, safe: Option<nat>, through: Option<nat>, range: bool, pay: bool): Report {
    Report(safe, through, range, pay, CountsOf(s, sourced), if range && pay then Some(CountsOf(s, sourced)) else None)
  }

  /** `chainActivity`: every throw leaves what was gathered until then, and nothing complete. */
  function Activity(c: Client, r: Request, payments: seq<nat>, sourced: bool): Report {
    if !ValidRange(r) || c.chainId != Some(CHAIN_ID) || c.safe.None? then ReportOf(NOTHING, sourced, None, None, false, sourced)
    else
      var safe := c.safe.value;
      var end := if r.to.value < safe then r.to.value else safe;
      var scan := ScanFrom(c, r, r.collection.value, r.from.value, end, NOTHING, None);
      if !scan.ok then ReportOf(scan.sets, sourced, Some(safe), scan.through, false, sourced)
      else
        var range := scan.through == Some(r.to.value as nat);
        if |payments| > MAX_PAYMENT_RECEIPTS then ReportOf(scan.sets, sourced, Some(safe), scan.through, range, false)
        else
          var pass := TakePayments(c, r, safe, payments, scan.sets);
          ReportOf(pass.sets, sourced, Some(safe), scan.through, range, sourced && pass.ok)
  }

  // ---- the scan as it runs ---------------------------------------------------------------------------

  class ChainActivity {
    const client: Client
    const request: Request
    var sets: Sets

    constructor (client: Client, request: Request)
      ensures this.client == client && this.request == request && sets == NOTHING
    {
      this.client, this.request, sets := client, request, NOTHING;
    }

    method Window(collection: nat, from: nat, to: nat) returns (ok: bool)
      modifies this
      ensures Pass(sets, ok) == TakeWindow(client, request, collection, from, to, old(sets))
    {
      if (from, to) !in client.logs || |client.logs[(from, to)]| > MAX_LOGS {
        return false;
      }
      var logs := client.logs[(from, to)];
      ghost var rest := logs;
      for i := 0 to |logs|
        invariant rest == logs[i..]
        invariant TakeLogs(client, request, collection, from, to, logs, old(sets)) ==
                  TakeLogs(client, request, collection, from, to, rest, sets)
      {
        var log := logs[i];
        if log.removed || log.block.None? || log.blockHash.None? || log.tx.None? || log.address != collection {
          return false;
        }
        var number := log.block.value;
        if number !in client.blocks || number < from || number > to || client.blocks[number].hash != log.blockHash {
          return false;
        }
        var at := client.blocks[number].timestamp * 1000;
        if request.start <= at <= request.now {
          if log.kind.Undecodable? {
            return false;
          }
          sets := Add(sets, log.tx.value, log.kind);
        }
        rest := rest[1..];
      }
      ok := true;
    }

    method Logs(collection: nat, first: nat, end: nat) returns (through: Option<nat>, ok: bool)
      modifies this
      ensures Scan(sets, through, ok) == ScanFrom(client, request, collection, first, end, old(sets), None)
    {
      var from := first;
      through := None;
      while from <= end
        invariant ScanFrom(client, request, collection, first, end, old(sets), None) ==
                  ScanFrom(client, request, collection, from, end, sets, through)
        decreases end + 1 - from
      {
        var to := WindowEnd(from, end);
        ok := Window(collection, from, to);
        if !ok {
          return;
        }
        through, from := Some(to), NextWindow(from);
      }
      ok := true;
    }

    method Payments(safe: nat, payments: seq<nat>) returns (ok: bool)
      modifies this
      ensures Pass(sets, ok) == TakePayments(client, request, safe, payments, old(sets))
    {
      ok := true;
      ghost var rest := payments;
      for i := 0 to |payments|
        invariant rest == payments[i..]
        invariant var whole := TakePayments(client, request, safe, payments, old(sets));
                  var left := TakePayments(client, request, safe, rest, sets);
                  whole == Pass(left.sets, ok && left.ok)
      {
        var hash := payments[i];
        if Confirmed(client, safe, hash) {
          var at := client.blocks[client.receipts[hash].block].timestamp * 1000;
          if request.start <= at <= request.now {
            sets := sets.(paid := sets.paid + {hash}, all := sets.all + {hash});
          }
        } else {
          ok := false;
        }
        rest := rest[1..];
      }
    }

    method Run(payments: seq<nat>, sourced: bool) returns (report: Report)
      requires sets == NOTHING
      modifies this
      ensures report == Activity(client, request, payments, sourced)
    {
      if !ValidRange(request) || client.chainId != Some(CHAIN_ID) || client.safe.None? {
        return ReportOf(sets, sourced, None, None, false, sourced);
      }
      var safe := client.safe.value;
      var end := if request.to.value < safe then request.to.value else safe;
      var through, scanned := Logs(request.collection.value, request.from.value, end);
      if !scanned {
        return ReportOf(sets, sourced, Some(safe), through, false, sourced);
      }
      var range := through == Some(request.to.value as nat);
      if |payments| > MAX_PAYMENT_RECEIPTS {
        return ReportOf(sets, sourced, Some(safe), through, range, false);
      }
      var confirmed := Payments(safe, payments);
      report := ReportOf(sets, sourced, Some(safe), through, range, sourced && confirmed);
    }
  }

  // ---- when a report is complete -----------------------------------------------------------------------

  /**
   * A log that stands: mined and of the collection, in its window, on the block the chain has at its height,
   * and decodable if that block is of the reporting time. Whether a scan throws does not depend on what it gathered.
   */
  predicate Acceptable(c: Client, r: Request, collection: nat, from: nat, to: nat, l: Log) {
    && !l.removed && l.address == collection && l.tx.Some? && l.block.Some? && l.blockHash.Some?
    && from <= l.block.value <= to && l.block.value in c.blocks && c.blocks[l.block.value].hash == l.blockHash
    && (r.start <= c.blocks[l.block.value].timestamp * 1000 <= r.now ==> !l.kind.Undecodable?)
  }

  predicate Readable(c: Client, r: Request, collection: nat, w: (nat, nat)) {
    w in c.logs && |c.logs[w]| <= 20_000 && forall k :: 0 <= k < |c.logs[w]| ==> Acceptable(c, r, collection, w.0, w.1, c.logs[w][k])
  }

  /** A payment that stands: its receipt is a success that credits the seller, on the chain, no higher than the safe head. */
  predicate Stands(c: Client, safe: nat, hash: nat) {
    && hash in c.receipts && c.receipts[hash].success && c.receipts[hash].credited && c.receipts[hash].block <= safe
    && c.receipts[hash].block in c.blocks && c.blocks[c.receipts[hash].block].hash == Some(c.receipts[hash].blockHash)
  }

  lemma {:induction false} LogsTaken(c: Client, r: Request, collection: nat, from: nat, to: nat, logs: seq<Log>, s: Sets)
    ensures TakeLogs(c, r, collection, from, to, logs, s).ok
            <==> forall k :: 0 <= k < |logs| ==> Acceptable(c, r, collection, from, to, logs[k])
  {
    if logs != [] {
      var next := TakeLog(c, r, collection, from, to, logs[0], s);
      assert next.Some? <==> Acceptable(c, r, collection, from, to, logs[0]);
      if next.Some? {
        LogsTaken(c, r, collection, from, to, logs[1..], next.value);
      }
      assert forall k :: 0 < k < |logs| ==> logs[k] == logs[1..][k - 1];
      assert forall k :: 0 <= k < |logs| - 1 ==> logs[1..][k] == logs[k + 1];
    }
  }

  ghost predicate AllReadable(c: Client, r: Request, collection: nat, ws: seq<(nat, nat)>) {
    forall k :: 0 <= k < |ws| ==> Readable(c, r, collection, ws[k])
  }

  lemma OneMoreReadable(c: Client, r: Request, collection: nat, w: (nat, nat), rest: seq<(nat, nat)>)
    ensures AllReadable(c, r, collection, [w] + rest) <==> Readable(c, r, collection, w) && AllReadable(c, r, collection, rest)
  {
    var ws := [w] + rest;
    assert forall k :: 0 <= k < |rest| ==> rest[k] == ws[k + 1];
    assert ws[0] == w;
  }

  lemma WindowTaken(c: Client, r: Request, collection: nat, w: (nat, nat), s: Sets)
    ensures TakeWindow(c, r, collection, w.0, w.1, s).ok <==> Readable(c, r, collection, w)
  {
    if w in c.logs {
      LogsTaken(c, r, collection, w.0, w.1, c.logs[w], s);
    }
  }

  lemma {:induction false} ScanCompletes(c: Client, r: Request, collection: nat, from: nat, end: nat, s: Sets, through: Option<nat>)
    ensures var scan := ScanFrom(c, r, collection, from, end, s, through);
            && (scan.ok <==> AllReadable(c, r, collection, Windows(from, end)))
            && (scan.ok ==> scan.through == if from <= end then Some(end) else through)
    decreases end + 1 - from
  {
    if from <= end {
      var w := (from, WindowEnd(from, end));
      var pass := TakeWindow(c, r, collection, w.0, w.1, s);
      WindowTaken(c, r, collection, w, s);
      OneMoreReadable(c, r, collection, w, Windows(NextWindow(from), end));
      ScanCompletes(c, r, collection, NextWindow(from), end, pass.sets, Some(w.1));
    }
  }

  lemma {:induction false} PaymentsConfirmed(c: Client, r: Request, safe: nat, payments: seq<nat>, s: Sets)
    ensures TakePayments(c, r, safe, payments, s).ok <==> forall k :: 0 <= k < |payments| ==> Stands(c, safe, payments[k])
  {
    if payments != [] {
      var hash := payments[0];
      assert Confirmed(c, safe, hash) <==> Stands(c, safe, hash);
      var next := if Confirmed(c, safe, hash) && Timely(c, r, c.receipts[hash].block)
                  then s.(paid := s.paid + {hash}, all := s.all + {hash}) else s;
      PaymentsConfirmed(c, r, safe, payments[1..], next);
      assert forall k :: 0 < k < |payments| ==> payments[k] == payments[1..][k - 1];
      assert forall k :: 0 <= k < |payments| - 1 ==> payments[1..][k] == payments[k + 1];
    }
  }

  /**
   * Complete counts are given exactly when the whole requested range lies at or below the safe head
   * and every window of it was read, and the seller's payments were all there and all confirmed.
   */
  lemma CompleteIff(c: Client, r: Request, payments: seq<nat>, sourced: bool)
    ensures Activity(c, r, payments, sourced).complete.Some? <==>
            && r.collection.Some? && r.from.Some? && r.to.Some? && 0 <= r.from.value <= r.to.value
            && r.to.value - r.from.value < 1_000_000
            && c.chainId == Some(91342) && c.safe.Some? && r.to.value <= c.safe.value
            && AllReadable(c, r, r.collection.value, Windows(r.from.value, r.to.value))
            && sourced && |payments| <= 2_000
            && (forall k :: 0 <= k < |payments| ==> Stands(c, c.safe.value, payments[k]))
    ensures Activity(c, r, payments, sourced).complete.Some? ==>
              Activity(c, r, payments, sourced).complete == Some(Activity(c, r, payments, sourced).observed)
  {
    if ValidRange(r) && c.chainId == Some(CHAIN_ID) && c.safe.Some? {
      var safe := c.safe.value;
      var end := if r.to.value < safe then r.to.value else safe;
      ScanCompletes(c, r, r.collection.value, r.from.value, end, NOTHING, None);
      var scan := ScanFrom(c, r, r.collection.value, r.from.value, end, NOTHING, None);
      if scan.ok {
        PaymentsConfirmed(c, r, safe, payments, scan.sets);
      }
    }
  }

  // ---- the counts are those of one unchunked scan ---------------------------------------------------------

  ghost function Elements(logs: seq<Log>): set<Log> { set l | l in logs }

  /** A log that counts: of the reporting time, given in milliseconds and of blocks in seconds, and decodable. */
  predicate Counted(c: Client, r: Request, l: Log) {
    && l.block.Some? && l.tx.Some? && l.block.value in c.blocks
    && r.start <= c.blocks[l.block.value].timestamp * 1000 <= r.now && !l.kind.Undecodable?
  }

  /** What a set of logs comes to, by definition. */
  ghost function Gathered(c: Client, r: Request, ls: set<Log>): Sets {
    Sets(set l | l in ls && Counted(c, r, l) && l.kind.MintRequested? :: l.tx.value,
         set l | l in ls && Counted(c, r, l) && l.kind.MintRequested? :: l.kind.token,
         set l | l in ls && Counted(c, r, l) && l.kind.BirthRevealed? :: l.tx.value,
         set l | l in ls && Counted(c, r, l) && l.kind.ResultClaimed? :: l.tx.value,
         set l | l in ls && Counted(c, r, l) && l.kind.ResultClaimed? :: l.kind.actor,
         {},
         set l | l in ls && Counted(c, r, l) :: l.tx.value)
  }

  function Plus(a: Sets, b: Sets): Sets {
    Sets(a.minted + b.minted, a.tokens + b.tokens, a.revealed + b.revealed, a.claims + b.claims, a.actors + b.actors,
         a.paid + b.paid, a.all + b.all)
  }

  lemma GatherUnion(c: Client, r: Request, a: set<Log>, b: set<Log>)
    ensures Gathered(c, r, a + b) == Plus(Gathered(c, r, a), Gathered(c, r, b))
  {
  }

  lemma GatherOne(c: Client, r: Request, collection: nat, from: nat, to: nat, l: Log, s: Sets)
    requires TakeLog(c, r, collection, from, to, l, s).Some?
    ensures TakeLog(c, r, collection, from, to, l, s).value == Plus(s, Gathered(c, r, {l}))
  {
    var g := Gathered(c, r, {l});
    if Counted(c, r, l) {
      var tx := l.tx.value;
      assert g.all == {tx};
      match l.kind {
        case MintRequested(token) => assert g == Sets({tx}, {token}, {}, {}, {}, {}, {tx});
        case BirthRerequested => assert g == Sets({}, {}, {}, {}, {}, {}, {tx});
        case BirthRevealed => assert g == Sets({}, {}, {tx}, {}, {}, {}, {tx});
        case ResultClaimed(actor) => assert g == Sets({}, {}, {}, {tx}, {actor}, {}, {tx});
      }
    } else {
      assert g == NOTHING;
    }
  }

  lemma PlusTwice(a: Sets, b: Sets, d: Sets)
    ensures Plus(Plus(a, b), d) == Plus(a, Plus(b, d)) && Plus(a, NOTHING) == a
  {
  }

  lemma GatherNothing(c: Client, r: Request)
    ensures Gathered(c, r, {}) == NOTHING
  {
  }

  lemma {:induction false} LogsGather(c: Client, r: Request, collection: nat, from: nat, to: nat, logs: seq<Log>, s: Sets)
    requires TakeLogs(c, r, collection, from, to, logs, s).ok
    ensures TakeLogs(c, r, collection, from, to, logs, s).sets == Plus(s, Gathered(c, r, Elements(logs)))
  {
    GatherNothing(c, r);
    if logs == [] {
      PlusTwice(s, s, s);
      assert Elements(logs) == {};
    } else {
      var one, rest := {logs[0]}, Elements(logs[1..]);
      var next := TakeLog(c, r, collection, from, to, logs[0], s).value;
      GatherOne(c, r, collection, from, to, logs[0], s);
      LogsGather(c, r, collection, from, to, logs[1..], next);
      assert logs == [logs[0]] + logs[1..];
      assert Elements(logs) == one + rest;
      GatherUnion(c, r, one, rest);
      PlusTwice(s, Gathered(c, r, one), Gathered(c, r, rest));
    }
  }

  ghost function Slice(ls: set<Log>, from: nat, to: nat): set<Log> {
    set l | l in ls && l.block.Some? && from <= l.block.value <= to
  }

  /** The node answers each window with the logs of its blocks, in any order and as often as it likes. */
  ghost predicate Serves(c: Client, ls: set<Log>) {
    forall w :: w in c.logs ==> Elements(c.logs[w]) == Slice(ls, w.0, w.1)
  }

  lemma {:induction false} ScanGathers(c: Client, r: Request, collection: nat, from: nat, end: nat, s: Sets, through: Option<nat>, ls: set<Log>)
    requires Serves(c, ls) && ScanFrom(c, r, collection, from, end, s, through).ok
    ensures ScanFrom(c, r, collection, from, end, s, through).sets == Plus(s, Gathered(c, r, Slice(ls, from, end)))
    decreases end + 1 - from
  {
    GatherNothing(c, r);
    if from > end {
      PlusTwice(s, s, s);
      assert Slice(ls, from, end) == {};
    } else {
      var to := WindowEnd(from, end);
      var first, rest := Slice(ls, from, to), Slice(ls, NextWindow(from), end);
      var next := TakeWindow(c, r, collection, from, to, s).sets;
      LogsGather(c, r, collection, from, to, c.logs[(from, to)], s);
      ScanGathers(c, r, collection, NextWindow(from), end, next, Some(to), ls);
      assert Slice(ls, from, end) == first + rest;
      GatherUnion(c, r, first, rest);
      PlusTwice(s, Gathered(c, r, first), Gathered(c, r, rest));
    }
  }

  /** The transactions of the confirmed payments that fall in the reporting time. */
  ghost function PaidSet(c: Client, r: Request, safe: nat, payments: seq<nat>): set<nat> {
    set hash | hash in payments && Stands(c, safe, hash)
               && r.start <= c.blocks[c.receipts[hash].block].timestamp * 1000 <= r.now
  }

  lemma {:induction false} PaymentsGather(c: Client, r: Request, safe: nat, payments: seq<nat>, s: Sets)
    ensures TakePayments(c, r, safe, payments, s).sets
            == s.(paid := s.paid + PaidSet(c, r, safe, payments), all := s.all + PaidSet(c, r, safe, payments))
  {
    if payments == [] {
      assert PaidSet(c, r, safe, payments) == {};
      assert s.paid + {} == s.paid && s.all + {} == s.all;
    } else {
      var hash := payments[0];
      var counts := Confirmed(c, safe, hash) && Timely(c, r, c.receipts[hash].block);
      assert Confirmed(c, safe, hash) <==> Stands(c, safe, hash);
      var next := if counts then s.(paid := s.paid + {hash}, all := s.all + {hash}) else s;
      PaymentsGather(c, r, safe, payments[1..], next);
      var one := if counts then {hash} else {};
      assert payments == [hash] + payments[1..];
      assert PaidSet(c, r, safe, payments) == one + PaidSet(c, r, safe, payments[1..]);
      assert next.paid + PaidSet(c, r, safe, payments[1..]) == s.paid + PaidSet(c, r, safe, payments);
      assert next.all + PaidSet(c, r, safe, payments[1..]) == s.all + PaidSet(c, r, safe, payments);
    }
  }

  /** A log of the range was met in its window, so it is acceptable over the whole range too. */
  lemma MetInItsWindow(c: Client, r: Request, collection: nat, from: nat, to: nat, ls: set<Log>, l: Log)
    requires Serves(c, ls) && AllReadable(c, r, collection, Windows(from, to)) && l in Slice(ls, from, to)
    ensures Acceptable(c, r, collection, from, to, l)
  {
    var b := l.block.value;
    WindowsPartition(from, to, b);
    var k :| 0 <= k < |Windows(from, to)| && In(Windows(from, to)[k], b);
    var w := Windows(from, to)[k];
    assert Readable(c, r, collection, w) && l in Slice(ls, w.0, w.1) && l in Elements(c.logs[w]);
    var j :| 0 <= j < |c.logs[w]| && c.logs[w][j] == l;
    assert Acceptable(c, r, collection, w.0, w.1, c.logs[w][j]);
  }

  /** Whatever list of the range's logs one unchunked query answers, scanning it throws nothing and gathers the same. */
  lemma UnchunkedGathers(c: Client, r: Request, from: nat, to: nat, whole: seq<Log>, ls: set<Log>)
    requires r.collection.Some? && Serves(c, ls) && AllReadable(c, r, r.collection.value, Windows(from, to))
    requires Elements(whole) == Slice(ls, from, to)
    ensures TakeLogs(c, r, r.collection.value, from, to, whole, NOTHING) == Pass(Gathered(c, r, Slice(ls, from, to)), true)
  {
    forall k | 0 <= k < |whole|
      ensures Acceptable(c, r, r.collection.value, from, to, whole[k])
    {
      assert whole[k] in Elements(whole);
      MetInItsWindow(c, r, r.collection.value, from, to, ls, whole[k]);
    }
    LogsTaken(c, r, r.collection.value, from, to, whole, NOTHING);
    LogsGather(c, r, r.collection.value, from, to, whole, NOTHING);
    assert Plus(NOTHING, Gathered(c, r, Slice(ls, from, to))) == Gathered(c, r, Slice(ls, from, to));
  }

  /** A complete report counts the sets the scan and the payments left. */
  lemma CompleteCountsTheSets(c: Client, r: Request, payments: seq<nat>, sourced: bool)
    requires Activity(c, r, payments, sourced).complete.Some?
    ensures ValidRange(r) && c.safe.Some? && sourced
    ensures var scan := ScanFrom(c, r, r.collection.value, r.from.value, r.to.value, NOTHING, None);
            && scan.ok && Activity(c, r, payments, sourced).complete
                          == Some(CountsOf(TakePayments(c, r, c.safe.value, payments, scan.sets).sets, true))
  {
    CompleteIff(c, r, payments, sourced);
  }

  lemma FinalSets(c: Client, r: Request, payments: seq<nat>, ls: set<Log>)
    requires ValidRange(r) && c.safe.Some? && Serves(c, ls)
    requires ScanFrom(c, r, r.collection.value, r.from.value, r.to.value, NOTHING, None).ok
    ensures var g := Gathered(c, r, Slice(ls, r.from.value, r.to.value));
            var paid := PaidSet(c, r, c.safe.value, payments);
            var scan := ScanFrom(c, r, r.collection.value, r.from.value, r.to.value, NOTHING, None);
            TakePayments(c, r, c.safe.value, payments, scan.sets).sets == g.(paid := paid, all := g.all + paid)
  {
    var g := Gathered(c, r, Slice(ls, r.from.value, r.to.value));
    ScanGathers(c, r, r.collection.value, r.from.value, r.to.value, NOTHING, None, ls);
    assert Plus(NOTHING, g) == g;
    PaymentsGather(c, r, c.safe.value, payments, g);
    assert g.paid + PaidSet(c, r, c.safe.value, payments) == PaidSet(c, r, c.safe.value, payments);
  }

  /**
   * Complete counts are the sizes of what the requested range's logs and the confirmed payments come
   * to: those of one unchunked scan, however the logs were cut, repeated or ordered.
   */
  lemma CompleteCountsAreExact(c: Client, r: Request, payments: seq<nat>, sourced: bool, ls: set<Log>)
    requires Serves(c, ls) && Activity(c, r, payments, sourced).complete.Some?
    ensures ValidRange(r) && c.safe.Some?
    ensures var g := Gathered(c, r, Slice(ls, r.from.value, r.to.value));
            var paid := PaidSet(c, r, c.safe.value, payments);
            Activity(c, r, payments, sourced).complete.value
            == Counts(|g.minted|, |g.tokens|, |g.revealed|, |g.claims|, |g.actors|, Some(|paid|), Some(|g.all + paid|))
  {
    CompleteCountsTheSets(c, r, payments, sourced);
    FinalSets(c, r, payments, ls);
  }

  // ---- what an incomplete report says ----------------------------------------------------------------------

  predicate Within(a: Sets, b: Sets) {
    && a.minted <= b.minted && a.tokens <= b.tokens && a.revealed <= b.revealed && a.claims <= b.claims
    && a.actors <= b.actors && a.paid <= b.paid && a.all <= b.all
  }

  /** Every log the node answered for these windows. */
  ghost function Met(c: Client, ws: seq<(nat, nat)>): set<Log> {
    set w, l | w in ws && w in c.logs && l in c.logs[w] :: l
  }

  lemma {:induction false} LogsWithin(c: Client, r: Request, collection: nat, from: nat, to: nat, logs: seq<Log>, s: Sets)
    ensures var pass := TakeLogs(c, r, collection, from, to, logs, s);
            Within(s, pass.sets) && Within(pass.sets, Plus(s, Gathered(c, r, Elements(logs))))
  {
    if logs != [] {
      var next := TakeLog(c, r, collection, from, to, logs[0], s);
      if next.Some? {
        var one, rest := {logs[0]}, Elements(logs[1..]);
        GatherOne(c, r, collection, from, to, logs[0], s);
        LogsWithin(c, r, collection, from, to, logs[1..], next.value);
        assert logs == [logs[0]] + logs[1..];
        assert Elements(logs) == one + rest;
        GatherUnion(c, r, one, rest);
        PlusTwice(s, Gathered(c, r, one), Gathered(c, r, rest));
      }
    }
  }

  lemma OneMoreMet(c: Client, w: (nat, nat), rest: seq<(nat, nat)>)
    ensures Met(c, [w] + rest) == (if w in c.logs then Elements(c.logs[w]) else {}) + Met(c, rest)
  {
    var ws := [w] + rest;
    assert forall v :: v in ws <==> v == w || v in rest;
    if w in c.logs {
      assert Met(c, ws) == Elements(c.logs[w]) + Met(c, rest);
    } else {
      assert Met(c, ws) == Met(c, rest);
    }
  }

  /** The windows read, and the one that threw if one did. */
  function Touched(ws: seq<(nat, nat)>, n: nat): seq<(nat, nat)> {
    if n < |ws| then ws[..n + 1] else ws
  }

  /** A scan reads a leading part of the windows and stops at the first that throws. */
  ghost predicate StopsAt(c: Client, r: Request, collection: nat, ws: seq<(nat, nat)>, n: nat) {
    n <= |ws| && AllReadable(c, r, collection, ws[..n]) && (n < |ws| ==> !Readable(c, r, collection, ws[n]))
  }

  /** What was gathered is at least that of the windows read, and no more than that with the one that threw. */
  ghost predicate Between(c: Client, r: Request, ws: seq<(nat, nat)>, n: nat, s: Sets, sets: Sets)
    requires n <= |ws|
  {
    && Within(Plus(s, Gathered(c, r, Met(c, ws[..n]))), sets)
    && Within(sets, Plus(s, Gathered(c, r, Met(c, Touched(ws, n)))))
  }

  /** How a scan of these windows ends, `n` of them read. */
  ghost predicate Ends(c: Client, r: Request, collection: nat, ws: seq<(nat, nat)>, n: nat, s: Sets, through: Option<nat>, scan: Scan) {
    && StopsAt(c, r, collection, ws, n) && (scan.ok <==> n == |ws|)
    && scan.through == (if n == 0 then through else Some(ws[n - 1].1))
    && Between(c, r, ws, n, s, scan.sets)
  }

  lemma {:induction false} ScanStops(c: Client, r: Request, collection: nat, from: nat, end: nat, s: Sets, through: Option<nat>)
    returns (n: nat)
    ensures Ends(c, r, collection, Windows(from, end), n, s, through, ScanFrom(c, r, collection, from, end, s, through))
    decreases end + 1 - from
  {
    n := 0;
    var scan := ScanFrom(c, r, collection, from, end, s, through);
    if from > end {
      EndsAtOnce(c, r, collection, s, through, scan);
    } else {
      var w, rest := (from, WindowEnd(from, end)), Windows(NextWindow(from), end);
      var pass := TakeWindow(c, r, collection, w.0, w.1, s);
      assert Windows(from, end) == [w] + rest;
      if pass.ok {
        assert scan == ScanFrom(c, r, collection, NextWindow(from), end, pass.sets, Some(w.1));
        var m := ScanStops(c, r, collection, NextWindow(from), end, pass.sets, Some(w.1));
        n := m + 1;
        StopsLater(c, r, collection, w, rest, m, s, through, scan);
      } else {
        StopsHere(c, r, collection, w, rest, s, through, scan);
      }
    }
  }

  lemma EndsAtOnce(c: Client, r: Request, collection: nat, s: Sets, through: Option<nat>, scan: Scan)
    requires scan == Scan(s, through, true)
    ensures Ends(c, r, collection, [], 0, s, through, scan)
  {
    GatherNothing(c, r);
    assert Met(c, []) == {};
  }

  lemma StopsLater(c: Client, r: Request, collection: nat, w: (nat, nat), rest: seq<(nat, nat)>, m: nat, s: Sets,
                   through: Option<nat>, scan: Scan)
    requires TakeWindow(c, r, collection, w.0, w.1, s).ok
    requires Ends(c, r, collection, rest, m, TakeWindow(c, r, collection, w.0, w.1, s).sets, Some(w.1), scan)
    ensures Ends(c, r, collection, [w] + rest, m + 1, s, through, scan)
  {
    var next := TakeWindow(c, r, collection, w.0, w.1, s).sets;
    WindowTaken(c, r, collection, w, s);
    LogsGather(c, r, collection, w.0, w.1, c.logs[w], s);
    LongerStop(c, r, collection, w, rest, m);
    LongerBetween(c, r, w, rest, m, s, next, scan.sets);
  }

  lemma LongerBetween(c: Client, r: Request, w: (nat, nat), rest: seq<(nat, nat)>, m: nat, s: Sets, next: Sets, sets: Sets)
    requires w in c.logs && next == Plus(s, Gathered(c, r, Elements(c.logs[w])))
    requires m <= |rest| && Between(c, r, rest, m, next, sets)
    ensures Between(c, r, [w] + rest, m + 1, s, sets)
  {
    assert ([w] + rest)[..m + 1] == [w] + rest[..m] && Touched([w] + rest, m + 1) == [w] + Touched(rest, m);
    Widens(c, r, w, rest[..m], s, next);
    Widens(c, r, w, Touched(rest, m), s, next);
  }

  lemma LongerStop(c: Client, r: Request, collection: nat, w: (nat, nat), rest: seq<(nat, nat)>, m: nat)
    requires Readable(c, r, collection, w) && StopsAt(c, r, collection, rest, m)
    ensures StopsAt(c, r, collection, [w] + rest, m + 1)
  {
    assert ([w] + rest)[..m + 1] == [w] + rest[..m];
    OneMoreReadable(c, r, collection, w, rest[..m]);
  }

  lemma Widens(c: Client, r: Request, w: (nat, nat), ws: seq<(nat, nat)>, s: Sets, next: Sets)
    requires w in c.logs && next == Plus(s, Gathered(c, r, Elements(c.logs[w])))
    ensures Plus(next, Gathered(c, r, Met(c, ws))) == Plus(s, Gathered(c, r, Met(c, [w] + ws)))
  {
    OneMoreMet(c, w, ws);
    GatherUnion(c, r, Elements(c.logs[w]), Met(c, ws));
    PlusTwice(s, Gathered(c, r, Elements(c.logs[w])), Gathered(c, r, Met(c, ws)));
  }

  /** A window that throws may have gathered some of its logs first. */
  lemma StopsHere(c: Client, r: Request, collection: nat, w: (nat, nat), rest: seq<(nat, nat)>, s: Sets, through: Option<nat>, scan: Scan)
    requires !TakeWindow(c, r, collection, w.0, w.1, s).ok
    requires scan == Scan(TakeWindow(c, r, collection, w.0, w.1, s).sets, through, false)
    ensures Ends(c, r, collection, [w] + rest, 0, s, through, scan)
  {
    WindowTaken(c, r, collection, w, s);
    GatherNothing(c, r);
    PlusTwice(s, s, s);
    assert Met(c, []) == {} && Touched([w] + rest, 0) == [w] + [];
    OneMoreMet(c, w, []);
    if w in c.logs {
      assert Elements(c.logs[w]) + {} == Elements(c.logs[w]);
      LogsWithin(c, r, collection, w.0, w.1, c.logs[w], s);
    }
  }

  /** No count of `a` is above that of `b`. */
  predicate AtMost(a: Sets, b: Sets) {
    && |a.minted| <= |b.minted| && |a.tokens| <= |b.tokens| && |a.revealed| <= |b.revealed|
    && |a.claims| <= |b.claims| && |a.actors| <= |b.actors| && |a.all| <= |b.all|
  }

  lemma SubsetCount(a: set<nat>, b: set<nat>)
    requires a <= b
    ensures |a| <= |b|
  {
    assert b == a + (b - a);
  }

  lemma WithinCounts(a: Sets, b: Sets)
    requires Within(a, b)
    ensures AtMost(a, b)
  {
    SubsetCount(a.minted, b.minted);
    SubsetCount(a.tokens, b.tokens);
    SubsetCount(a.revealed, b.revealed);
    SubsetCount(a.claims, b.claims);
    SubsetCount(a.actors, b.actors);
    SubsetCount(a.all, b.all);
  }

  /** What is observed lies between what two sets of logs come to, each with the payments that stand. */
  ghost predicate Tells(observed: Counts, low: Sets, high: Sets, sourced: bool, paid: set<nat>) {
    && |low.minted| <= observed.mints <= |high.minted|
    && |low.tokens| <= observed.tokens <= |high.tokens|
    && |low.revealed| <= observed.births <= |high.revealed|
    && |low.claims| <= observed.claims <= |high.claims|
    && |low.actors| <= observed.actors <= |high.actors|
    && observed.payments == (if sourced then Some(|paid|) else None)
    && (observed.distinct.Some? <==> sourced)
    && (sourced ==> |low.all + paid| <= observed.distinct.value <= |high.all + paid|)
  }

  lemma CountsTell(low: Sets, sets: Sets, high: Sets, sourced: bool, paid: set<nat>)
    requires Within(low, sets) && Within(sets, high) && high.paid == {}
    ensures Tells(CountsOf(sets.(paid := sets.paid + paid, all := sets.all + paid), sourced), low, high, sourced, paid)
  {
    WithinCounts(low, sets);
    WithinCounts(sets, high);
    SubsetCount(low.all + paid, sets.all + paid);
    SubsetCount(sets.all + paid, high.all + paid);
    assert sets.paid + paid == paid;
  }

  lemma ObservedTells(c: Client, r: Request, safe: nat, payments: seq<nat>, sourced: bool, low: Sets, sets: Sets, high: Sets)
    requires Within(low, sets) && Within(sets, high) && high.paid == {}
    ensures Tells(CountsOf(sets, sourced), low, high, sourced, {})
    ensures Tells(CountsOf(TakePayments(c, r, safe, payments, sets).sets, sourced), low, high, sourced, PaidSet(c, r, safe, payments))
  {
    CountsTell(low, sets, high, sourced, {});
    assert sets.(paid := sets.paid + {}, all := sets.all + {}) == sets;
    PaymentsGather(c, r, safe, payments, sets);
    CountsTell(low, sets, high, sourced, PaidSet(c, r, safe, payments));
  }

  lemma BetweenIsWithin(c: Client, r: Request, ws: seq<(nat, nat)>, n: nat, sets: Sets, low: Sets, high: Sets)
    requires n <= |ws| && Between(c, r, ws, n, NOTHING, sets)
    requires low == Gathered(c, r, Met(c, ws[..n])) && high == Gathered(c, r, Met(c, Touched(ws, n)))
    ensures Within(low, sets) && Within(sets, high) && high.paid == {}
  {
    FromNothing(low);
    FromNothing(high);
  }

  lemma ReportOfScan(c: Client, r: Request, payments: seq<nat>, sourced: bool, end: nat, last: Option<nat>, scan: Scan, low: Sets, high: Sets)
    requires ValidRange(r) && c.chainId == Some(CHAIN_ID) && c.safe.Some?
    requires end == (if r.to.value < c.safe.value then r.to.value else c.safe.value)
    requires scan == ScanFrom(c, r, r.collection.value, r.from.value, end, NOTHING, None) && scan.through == last
    requires scan.ok ==> last == if r.from.value <= end then Some(end) else None
    requires Within(low, scan.sets) && Within(scan.sets, high) && high.paid == {}
    ensures var safe, report := c.safe.value, Activity(c, r, payments, sourced);
            && report.safeHead == c.safe && report.scannedThrough == last
            && (report.rangeComplete <==> scan.ok && r.to.value <= safe)
            && (report.paymentComplete <==>
                  sourced && (scan.ok ==> |payments| <= 2_000 && forall k :: 0 <= k < |payments| ==> Stands(c, safe, payments[k])))
            && Tells(report.observed, low, high, sourced, if scan.ok && |payments| <= 2_000 then PaidSet(c, r, safe, payments) else {})
  {
    ObservedTells(c, r, c.safe.value, payments, sourced, low, scan.sets, high);
    PaymentsConfirmed(c, r, c.safe.value, payments, scan.sets);
  }

  /**
   * The report of a scan that started, whether or not it got to its end: how far it says it came is as far as it
   * read; what it observed is what the windows it read come to, and no more than that with the one that threw; its
   * range is complete exactly when every window was read up to the block asked for. Its payments are complete
   * exactly when they were all there and all stand, or when the scan threw before it came to them.
   */
  lemma ReportTells(c: Client, r: Request, payments: seq<nat>, sourced: bool) returns (n: nat)
    requires r.collection.Some? && r.from.Some? && r.to.Some? && 0 <= r.from.value <= r.to.value
    requires r.to.value - r.from.value < 1_000_000 && c.chainId == Some(91342) && c.safe.Some?
    ensures var safe, report := c.safe.value, Activity(c, r, payments, sourced);
            var ws := Windows(r.from.value, if r.to.value < safe then r.to.value else safe);
            && StopsAt(c, r, r.collection.value, ws, n)
            && report.safeHead == c.safe
            && report.scannedThrough == (if n == 0 then None else Some(ws[n - 1].1))
            && (report.rangeComplete <==> n == |ws| && r.to.value <= safe)
            && (report.paymentComplete <==>
                  sourced && (n == |ws| ==> |payments| <= 2_000 && forall k :: 0 <= k < |payments| ==> Stands(c, safe, payments[k])))
            && Tells(report.observed, Gathered(c, r, Met(c, ws[..n])), Gathered(c, r, Met(c, Touched(ws, n))), sourced,
                     if n == |ws| && |payments| <= 2_000 then PaidSet(c, r, safe, payments) else {})
  {
    var collection, safe := r.collection.value, c.safe.value;
    var end := if r.to.value < safe then r.to.value else safe;
    n := ScanStops(c, r, collection, r.from.value, end, NOTHING, None);
    var scan := ScanFrom(c, r, collection, r.from.value, end, NOTHING, None);
    LastWindowEnds(r.from.value, end);
    var ws := Windows(r.from.value, end);
    var low, high := Gathered(c, r, Met(c, ws[..n])), Gathered(c, r, Met(c, Touched(ws, n)));
    BetweenIsWithin(c, r, ws, n, scan.sets, low, high);
    ReportOfScan(c, r, payments, sourced, end, if n == 0 then None else Some(ws[n - 1].1), scan, low, high);
  }

  lemma {:induction false} LastWindowEnds(from: nat, end: nat)
    ensures from <= end <==> Windows(from, end) != []
    ensures from <= end ==> Windows(from, end)[|Windows(from, end)| - 1].1 == end
    decreases end + 1 - from
  {
    if from <= end {
      LastWindowEnds(NextWindow(from), end);
    }
  }

  lemma FromNothing(s: Sets)
    ensures Plus(NOTHING, s) == s
  {
  }

  /** A scan that may not start, or finds another chain or no safe head, observes nothing and completes nothing. */
  lemma NothingIsReported(c: Client, r: Request, payments: seq<nat>, sourced: bool)
    requires !(&& r.collection.Some? && r.from.Some? && r.to.Some? && 0 <= r.from.value <= r.to.value
               && r.to.value - r.from.value < 1_000_000 && c.chainId == Some(91342) && c.safe.Some?)
    ensures var zero: Option<nat> := if sourced then Some(0) else None;
            Activity(c, r, payments, sourced) == Report(None, None, false, sourced, Counts(0, 0, 0, 0, 0, zero, zero), None)
  {
    assert CountsOf(NOTHING, sourced).mints == |NOTHING.minted|;
  }
}
