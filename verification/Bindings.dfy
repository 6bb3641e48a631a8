/**
 * The payment-identifier table: `createPaymentIdentifiers` of packages/store/src/index.ts and the
 * pruning `bind` of apps/delegated-seller/app.ts, with the bound on its unsettled rows.
 */
module Bindings {
  import opened Wrappers

  type Id = nat
  type Fingerprint = nat
  type Intent = nat

  const UNSETTLED_BINDING_TTL_MS: nat := 3_600_000
  const UNSETTLED_BINDINGS_KEPT: nat := 5_000
  const BINDING_PRUNE_EVERY: nat := 256

  datatype Recorded = Recorded(payer: nat, tx: Option<nat>)
  datatype Binding = Binding(fingerprint: Fingerprint, intent: Intent, boundAt: nat, settled: Option<Recorded>)
  type Table = map<Id, Binding>

  datatype Reason = OtherRequest | OtherPayment
  datatype Result = New | Settled(recorded: Recorded) | Conflict(reason: Reason, settled: Option<Recorded>)
  datatype Bound = Bound(table: Table, result: Result)

  // ---- binding and recording --------------------------------------------------------------------

  function BindIn(t: Table, id: Id, fingerprint: Fingerprint, i: Intent, at: nat): Bound {
    if id !in t then Bound(t[id := Binding(fingerprint, i, at, None)], New)
    else
      var row := t[id];
      Bound(t, if row.fingerprint != fingerprint then Conflict(OtherRequest, row.settled)
               else if row.intent != i then Conflict(OtherPayment, row.settled)
               else if row.settled.None? then New else Settled(row.settled.value))
  }

  /** None when there is nothing to write to: not bound, or settled already. */
  function RecordIn(t: Table, id: Id, recorded: Recorded): Option<Table> {
    if id !in t || t[id].settled.Some? then None
    else Some(t[id := t[id].(settled := Some(recorded))])
  }

  // ---- pruning ------------------------------------------------------------------------------------

  function Unsettled(t: Table): set<Id> {
    set id | id in t && t[id].settled.None?
  }

  function Count(t: Table): nat { |Unsettled(t)| }

  /** The order of the survivors: newest binding first, the id breaking a tie. */
  predicate Newer(t: Table, a: Id, b: Id)
    requires a in t && b in t
  {
    t[a].boundAt > t[b].boundAt || (t[a].boundAt == t[b].boundAt && a > b)
  }

  function Above(t: Table, u: set<Id>, id: Id): set<Id>
    requires u <= t.Keys && id in t
  {
    set x | x in u && Newer(t, x, id)
  }

  function Rank(t: Table, u: set<Id>, id: Id): nat
    requires u <= t.Keys && id in t
  {
    |Above(t, u, id)|
  }

  /** The first `keep` of `u` in that order. */
  function Newest(t: Table, u: set<Id>, keep: nat): set<Id>
    requires u <= t.Keys
  {
    set id | id in u && Rank(t, u, id) < keep
  }

  function DropBefore(t: Table, before: nat): Table {
    map id | id in t && (t[id].settled.Some? || t[id].boundAt >= before) :: t[id]
  }

  function DropBeyond(t: Table, keep: nat): Table {
    map id | id in t && (t[id].settled.Some? || id in Newest(t, Unsettled(t), keep)) :: t[id]
  }

  /** Both deletes, in one transaction. */
  function Prune(t: Table, before: nat, keep: nat): Table {
    DropBeyond(DropBefore(t, before), keep)
  }

  lemma {:induction false} NewestExists(t: Table, u: set<Id>) returns (top: Id)
    requires u <= t.Keys && u != {}
    ensures top in u && forall x :: x in u && x != top ==> Newer(t, top, x)
    decreases |u|
  {
    var some :| some in u;
    top := some;
    var rest := u - {some};
    assert forall x :: x in u && x != some ==> x in rest;
    if rest != {} {
      var next := NewestExists(t, rest);
      if Newer(t, next, some) {
        top := next;
      }
    }
  }

  lemma RankBelowTop(t: Table, u: set<Id>, top: Id, id: Id)
    requires u <= t.Keys && top in u && id in u && id != top && forall x :: x in u && x != top ==> Newer(t, top, x)
    ensures Rank(t, u, id) == Rank(t, u - {top}, id) + 1
  {
    assert Above(t, u, id) == Above(t, u - {top}, id) + {top};
  }

  lemma NewestStep(t: Table, u: set<Id>, keep: nat, top: Id)
    requires u <= t.Keys && top in u && keep > 0 && forall x :: x in u && x != top ==> Newer(t, top, x)
    ensures Newest(t, u, keep) == Newest(t, u - {top}, keep - 1) + {top}
  {
    var rest := u - {top};
    assert Above(t, u, top) == {};
    forall id | id in rest
      ensures id in Newest(t, u, keep) <==> id in Newest(t, rest, keep - 1)
    {
      RankBelowTop(t, u, top, id);
    }
  }

  lemma NoneSurvive(t: Table, u: set<Id>)
    requires u <= t.Keys
    ensures Newest(t, u, 0) == {}
  {
  }

  lemma OneMore(t: Table, u: set<Id>, keep: nat) returns (rest: set<Id>)
    requires u <= t.Keys && u != {} && keep > 0
    ensures rest <= u && |rest| == |u| - 1 && |Newest(t, u, keep)| == |Newest(t, rest, keep - 1)| + 1
  {
    var top := NewestExists(t, u);
    NewestStep(t, u, keep, top);
    rest := u - {top};
    assert top !in Newest(t, rest, keep - 1);
  }

  /** Exactly `keep` rows survive, or all of them when there are no more. */
  lemma {:induction false} NewestCount(t: Table, u: set<Id>, keep: nat, n: nat)
    requires u <= t.Keys && |u| == n
    ensures |Newest(t, u, keep)| == if n < keep then n else keep
    decreases n
  {
    if keep == 0 {
      NoneSurvive(t, u);
    } else if n > 0 {
      var rest := OneMore(t, u, keep);
      NewestCount(t, rest, keep - 1, n - 1);
    } else {
      assert u == {};
      assert Newest(t, u, keep) == {};
    }
  }

  /** The survivors are newer than every row that went. */
  lemma SurvivorsAreNewer(t: Table, u: set<Id>, keep: nat, a: Id, b: Id)
    requires u <= t.Keys && a in Newest(t, u, keep) && b in u && b !in Newest(t, u, keep)
    ensures Newer(t, a, b)
  {
    var aboveA, aboveB := Above(t, u, a), Above(t, u, b);
    assert |aboveB| == |aboveB * aboveA| + |aboveB - aboveA| by {
      assert aboveB == aboveB * aboveA + (aboveB - aboveA);
    }
    assert |aboveA| == |aboveB * aboveA| + |aboveA - aboveB| by {
      assert aboveA == aboveB * aboveA + (aboveA - aboveB);
    }
    assert aboveB - aboveA != {};
    var x :| x in aboveB - aboveA;
  }

  /** Pruning leaves settled rows alone, keeps the bound, and drops nothing within both limits. */
  lemma PruneKeeps(t: Table, before: nat, keep: nat)
    ensures var after := Prune(t, before, keep);
            && after.Keys <= t.Keys && (forall id :: id in after ==> after[id] == t[id])
            && (forall id :: id in t && t[id].settled.Some? ==> id in after)
            && Count(after) <= keep
            && (forall id :: id in Unsettled(after) ==> t[id].boundAt >= before)
            && ((forall id :: id in Unsettled(t) ==> t[id].boundAt >= before) ==>
                  Count(after) == if Count(t) < keep then Count(t) else keep)
  {
    var fresher := DropBefore(t, before);
    var after := Prune(t, before, keep);
    var u := Unsettled(fresher);
    NewestCount(fresher, u, keep, |u|);
    assert Unsettled(after) == Newest(fresher, u, keep);
    if forall id :: id in Unsettled(t) ==> t[id].boundAt >= before {
      assert Unsettled(fresher) == Unsettled(t);
    }
  }

  // ---- the shop's side -------------------------------------------------------------------------------

  /** The table, and how many times this process has bound. */
  datatype Shelf = Shelf(table: Table, bindings: nat)

  /** A prune is due on the first binding of a process and every 256th after it. */
  predicate Due(s: Shelf) { s.bindings % BINDING_PRUNE_EVERY == 0 }

  /** One that fails is logged and forgotten; a cut-off before the epoch makes it fail too. */
  function Swept(s: Shelf, now: nat, diskOk: bool): Table {
    if Due(s) && diskOk && now >= UNSETTLED_BINDING_TTL_MS
    then Prune(s.table, now - UNSETTLED_BINDING_TTL_MS, UNSETTLED_BINDINGS_KEPT) else s.table
  }

  function BindStep(s: Shelf, id: Id, fingerprint: Fingerprint, i: Intent, now: nat, diskOk: bool): (Shelf, Result) {
    var bound := BindIn(Swept(s, now, diskOk), id, fingerprint, i, now);
    (Shelf(bound.table, s.bindings + 1), bound.result)
  }

  class PaymentIdentifiers {
    var table: Table

    constructor (table: Table)
      ensures this.table == table
    {
      this.table := table;
    }

    method Bind(id: Id, fingerprint: Fingerprint, i: Intent, at: nat) returns (result: Result)
      modifies this
      ensures Bound(table, result) == BindIn(old(table), id, fingerprint, i, at)
    {
      if id !in table {
        table := table[id := Binding(fingerprint, i, at, None)];
        return New;
      }
      var existing := table[id];
      if existing.fingerprint != fingerprint {
        return Conflict(OtherRequest, existing.settled);
      }
      if existing.intent != i {
        return Conflict(OtherPayment, existing.settled);
      }
      result := if existing.settled.None? then New else Settled(existing.settled.value);
    }

    method Record(id: Id, recorded: Recorded) returns (ok: bool)
      modifies this
      ensures ok == RecordIn(old(table), id, recorded).Some?
      ensures table == if ok then RecordIn(old(table), id, recorded).value else old(table)
    {
      if id !in table || table[id].settled.Some? {
        return false;
      }
      table := table[id := table[id].(settled := Some(recorded))];
      ok := true;
    }

    method Sweep(before: nat, keep: nat)
      modifies this
      ensures table == Prune(old(table), before, keep)
    {
      table := DropBefore(table, before);
      table := DropBeyond(table, keep);
    }
  }

  class ShopBindings {
    const store: PaymentIdentifiers
    var bindings: nat

    constructor (store: PaymentIdentifiers)
      ensures this.store == store && bindings == 0
    {
      this.store, bindings := store, 0;
    }

    function State(): Shelf
      reads this, store
    {
      Shelf(store.table, bindings)
    }

    /** Prune first when it is due, so that what is bound now is never a candidate. */
    method Bind(id: Id, fingerprint: Fingerprint, i: Intent, now: nat, diskOk: bool) returns (result: Result)
      modifies this, store
      ensures (State(), result) == BindStep(old(State()), id, fingerprint, i, now, diskOk)
    {
      var due := bindings % BINDING_PRUNE_EVERY == 0;
      bindings := bindings + 1;
      if due && diskOk && now >= UNSETTLED_BINDING_TTL_MS {
        store.Sweep(now - UNSETTLED_BINDING_TTL_MS, UNSETTLED_BINDINGS_KEPT);
      }
      result := store.Bind(id, fingerprint, i, now);
    }
  }

  // ---- the bound over whole runs -------------------------------------------------------------------------

  datatype Event =
    | Bind(id: Id, fingerprint: Fingerprint, intent: Intent, now: nat, diskOk: bool)
    | Record(id: Id, recorded: Recorded)
    | Restart

  function After(s: Shelf, e: Event): Shelf {
    match e
    case Bind(id, fingerprint, i, now, diskOk) => BindStep(s, id, fingerprint, i, now, diskOk).0
    case Record(id, recorded) => var t := RecordIn(s.table, id, recorded); if t.None? then s else s.(table := t.value)
    case Restart => s.(bindings := 0)
  }

  function Run(s: Shelf, es: seq<Event>): Shelf {
    if es == [] then s else After(Run(s, es[..|es| - 1]), es[|es| - 1])
  }

  predicate Sweeps(s: Shelf, e: Event) { e.Bind? && Due(s) && e.diskOk && e.now >= UNSETTLED_BINDING_TTL_MS }

  predicate Misses(s: Shelf, e: Event) { e.Bind? && Due(s) && !Sweeps(s, e) }

  /** None until a prune succeeds; then how many have failed since the last one that did. */
  function Missed(s: Shelf, es: seq<Event>): Option<nat> {
    if es == [] then None
    else
      var e, before := es[|es| - 1], es[..|es| - 1];
      if Sweeps(Run(s, before), e) then Some(0)
      else match Missed(s, before)
        case None => None
        case Some(n) => Some(if Misses(Run(s, before), e) then n + 1 else n)
  }

  /** Bindings since the counter last stood at a multiple of 256; a restart leaves a full window behind. */
  function InWindow(s: Shelf): nat {
    if s.bindings == 0 then BINDING_PRUNE_EVERY else (s.bindings - 1) % BINDING_PRUNE_EVERY + 1
  }

  lemma BindCount(t: Table, id: Id, fingerprint: Fingerprint, i: Intent, at: nat)
    ensures Count(BindIn(t, id, fingerprint, i, at).table) == Count(t) + if id in t then 0 else 1
  {
    if id !in t {
      assert Unsettled(BindIn(t, id, fingerprint, i, at).table) == Unsettled(t) + {id};
    }
  }

  lemma RecordCount(t: Table, id: Id, recorded: Recorded)
    requires RecordIn(t, id, recorded).Some?
    ensures Count(RecordIn(t, id, recorded).value) == Count(t) - 1
  {
    assert Unsettled(RecordIn(t, id, recorded).value) == Unsettled(t) - {id};
  }

  lemma StepCount(s: Shelf, e: Event)
    ensures Count(After(s, e).table) <= (if Sweeps(s, e) then UNSETTLED_BINDINGS_KEPT else Count(s.table)) + if e.Bind? then 1 else 0
  {
    match e {
      case Bind(id, fingerprint, i, now, diskOk) =>
        BindCount(Swept(s, now, diskOk), id, fingerprint, i, now);
        if Sweeps(s, e) {
          PruneKeeps(s.table, now - UNSETTLED_BINDING_TTL_MS, UNSETTLED_BINDINGS_KEPT);
        }
      case Record(id, recorded) =>
        if RecordIn(s.table, id, recorded).Some? {
          RecordCount(s.table, id, recorded);
        }
      case Restart =>
    }
  }

  /** A due prune opens a new window; any other binding uses up one place of it. */
  lemma WindowMoves(s: Shelf, e: Event)
    ensures var before, after := InWindow(s), InWindow(After(s, e));
            && after <= BINDING_PRUNE_EVERY
            && (e.Restart? ==> after == BINDING_PRUNE_EVERY)
            && (e.Record? ==> after == before)
            && (e.Bind? ==> after == if Due(s) then 1 else before + 1)
            && (e.Bind? && Due(s) ==> before == BINDING_PRUNE_EVERY)
  {
  }

  lemma BoundMoves(s: Shelf, e: Event, missed: nat, counted: bool)
    requires counted && !Sweeps(s, e) ==> Count(s.table) <= UNSETTLED_BINDINGS_KEPT + BINDING_PRUNE_EVERY * missed + InWindow(s)
    requires counted || Sweeps(s, e)
    ensures var now := if Sweeps(s, e) then 0 else if Misses(s, e) then missed + 1 else missed;
            Count(After(s, e).table) <= UNSETTLED_BINDINGS_KEPT + BINDING_PRUNE_EVERY * now + InWindow(After(s, e))
  {
    StepCount(s, e);
    WindowMoves(s, e);
  }

  /** From any table: once a prune has succeeded, each failed one since lets in one window more. */
  lemma {:induction false} BoundedByMissedPrunes(s: Shelf, es: seq<Event>)
    requires Missed(s, es).Some?
    ensures Count(Run(s, es).table) <= UNSETTLED_BINDINGS_KEPT + BINDING_PRUNE_EVERY * Missed(s, es).value + InWindow(Run(s, es))
  {
    var before, e := es[..|es| - 1], es[|es| - 1];
    var missed := Missed(s, before);
    if missed.Some? {
      BoundedByMissedPrunes(s, before);
    }
    BoundMoves(Run(s, before), e, if missed.Some? then missed.value else 0, missed.Some?);
  }

  /** Whatever the table held at first: after any binding of a run whose prunes succeed, at most 5000 + 256. */
  lemma {:induction false} BoundedAfterEveryBind(s: Shelf, es: seq<Event>)
    requires s.bindings == 0 && es != [] && es[|es| - 1].Bind?
    requires forall k :: 0 <= k < |es| ==> !Misses(Run(s, es[..k]), es[k])
    ensures Count(Run(s, es).table) <= UNSETTLED_BINDINGS_KEPT + BINDING_PRUNE_EVERY
  {
    NeverMissed(s, es);
    BoundedByMissedPrunes(s, es);
  }

  lemma {:induction false} NeverMissed(s: Shelf, es: seq<Event>)
    requires s.bindings == 0
    requires forall k :: 0 <= k < |es| ==> !Misses(Run(s, es[..k]), es[k])
    ensures Missed(s, es) in {None, Some(0)}
    ensures Missed(s, es).None? ==> Run(s, es).bindings == 0
  {
    if es != [] {
      var before := es[..|es| - 1];
      assert forall k :: 0 <= k <= |before| ==> es[..k] == before[..k];
      NeverMissed(s, before);
      assert !Misses(Run(s, before), es[|es| - 1]);
    }
  }

  // ---- the bound is met ---------------------------------------------------------------------------------------

  /** The binding of one more payment in the same millisecond. */
  function OneMoreOf(n: nat): Event { Bind(n, 0, 0, UNSETTLED_BINDING_TTL_MS, true) }

  function Burst(n: nat): seq<Event> {
    if n == 0 then [] else Burst(n - 1) + [OneMoreOf(n - 1)]
  }

  /** After `n` of them: all kept up to 5120, where the prune that is due leaves 5000. */
  ghost predicate Filled(s: Shelf, n: nat) {
    && s.bindings == n && (forall id :: id in s.table ==> id < n && s.table[id].boundAt == UNSETTLED_BINDING_TTL_MS)
    && Count(s.table) == if n <= 5120 then n else n - 120
  }

  lemma BurstStep(s: Shelf, n: nat)
    requires Filled(s, n) && n < 5376
    ensures Filled(After(s, OneMoreOf(n)), n + 1)
  {
    var swept := Swept(s, UNSETTLED_BINDING_TTL_MS, true);
    PruneKeeps(s.table, 0, UNSETTLED_BINDINGS_KEPT);
    BindCount(swept, n, 0, 0, UNSETTLED_BINDING_TTL_MS);
    assert n !in swept;
  }

  lemma {:induction false} BurstFills(n: nat)
    requires n <= 5376
    ensures Filled(Run(Shelf(map[], 0), Burst(n)), n)
  {
    if n > 0 {
      BurstFills(n - 1);
      var burst := Burst(n);
      assert burst[..|burst| - 1] == Burst(n - 1) && burst[|burst| - 1] == OneMoreOf(n - 1);
      BurstStep(Run(Shelf(map[], 0), Burst(n - 1)), n - 1);
    }
  }

  /** 5376 bindings in one millisecond leave 5256 rows: the bound is met, not only kept. */
  lemma BoundIsMet()
    ensures Count(Run(Shelf(map[], 0), Burst(5376)).table) == UNSETTLED_BINDINGS_KEPT + BINDING_PRUNE_EVERY
  {
    BurstFills(5376);
  }

  // ---- what a binding promises -----------------------------------------------------------------------------------

  /** A settled row never changes and never goes, whatever a run does. */
  lemma {:induction false} SettledRowsStay(s: Shelf, es: seq<Event>, id: Id)
    requires id in s.table && s.table[id].settled.Some?
    ensures id in Run(s, es).table && Run(s, es).table[id] == s.table[id]
  {
    if es != [] {
      SettledRowsStay(s, es[..|es| - 1], id);
      var mid, e := Run(s, es[..|es| - 1]), es[|es| - 1];
      if Sweeps(mid, e) {
        PruneKeeps(mid.table, e.now - UNSETTLED_BINDING_TTL_MS, UNSETTLED_BINDINGS_KEPT);
      }
    }
  }

  /** The unsettled rows bound within the last hour that the order of a prune puts before `id`. */
  function Ahead(t: Table, id: Id, now: nat): set<Id>
    requires id in t
  {
    set x | x in t && t[x].settled.None? && t[x].boundAt + 3_600_000 >= now
            && (t[x].boundAt > t[id].boundAt || (t[x].boundAt == t[id].boundAt && x > id))
  }

  /**
   * What a binding does to the rows of others. Only the first of a process and every 256th after it prunes, if the
   * disk takes it and the clock reads an hour or more: then a row stays if and only if it is settled, or it was bound
   * within the last hour and fewer than 5000 such rows are newer. Otherwise all stay, and those that stay are unchanged.
   */
  lemma RowStaysIff(s: Shelf, id: Id, fingerprint: Fingerprint, i: Intent, now: nat, diskOk: bool, other: Id)
    requires other in s.table && other != id
    ensures var after := BindStep(s, id, fingerprint, i, now, diskOk).0.table;
            && (other in after ==> after[other] == s.table[other])
            && (other in after <==>
                  (s.bindings % 256 == 0 && diskOk && now >= 3_600_000 ==>
                     s.table[other].settled.Some? || (s.table[other].boundAt + 3_600_000 >= now && |Ahead(s.table, other, now)| < 5_000)))
  {
    if s.bindings % 256 == 0 && diskOk && now >= 3_600_000 {
      var fresher := DropBefore(s.table, now - 3_600_000);
      if other in fresher {
        assert Above(fresher, Unsettled(fresher), other) == Ahead(s.table, other, now);
      }
    }
  }

  lemma SettledIsAnswered(mid: Shelf, id: Id, fingerprint: Fingerprint, i: Intent, now: nat, diskOk: bool)
    requires id in mid.table && mid.table[id].settled.Some?
    ensures var row := mid.table[id];
            BindStep(mid, id, fingerprint, i, now, diskOk).1 ==
              if fingerprint != row.fingerprint then Conflict(OtherRequest, row.settled)
              else if i != row.intent then Conflict(OtherPayment, row.settled)
              else Settled(row.settled.value)
  {
    if Due(mid) && now >= UNSETTLED_BINDING_TTL_MS {
      PruneKeeps(mid.table, now - UNSETTLED_BINDING_TTL_MS, UNSETTLED_BINDINGS_KEPT);
    }
  }

  /**
   * Once a payment was recorded under an identifier, whatever happens next the identifier answers that
   * record to the request and payment it was bound to, and to any other a conflict that carries the record.
   */
  lemma RecordIsAnswered(s: Shelf, es: seq<Event>, id: Id, recorded: Recorded,
                         fingerprint: Fingerprint, i: Intent, now: nat, diskOk: bool)
    requires id in s.table && s.table[id].settled.None?
    ensures var row := s.table[id];
            BindStep(Run(After(s, Record(id, recorded)), es), id, fingerprint, i, now, diskOk).1 ==
              if fingerprint != row.fingerprint then Conflict(OtherRequest, Some(recorded))
              else if i != row.intent then Conflict(OtherPayment, Some(recorded))
              else Settled(recorded)
  {
    var s1 := After(s, Record(id, recorded));
    SettledRowsStay(s1, es, id);
    SettledIsAnswered(Run(s1, es), id, fingerprint, i, now, diskOk);
  }

  /** An identifier that is not bound is bound to the request and payment that come first, and until it is settled answers them again. */
  lemma BindingIsAnswered(mid: Shelf, id: Id, fingerprint: Fingerprint, i: Intent, now: nat,
                          fingerprint': Fingerprint, i': Intent, later: nat)
    requires id !in mid.table && !Due(After(mid, Bind(id, fingerprint, i, now, true)))
    ensures var first := BindStep(mid, id, fingerprint, i, now, true);
            && first.1 == New && id in first.0.table && first.0.table[id] == Binding(fingerprint, i, now, None)
            && BindStep(first.0, id, fingerprint', i', later, true).1 ==
                 if fingerprint' != fingerprint then Conflict(OtherRequest, None)
                 else if i' != i then Conflict(OtherPayment, None)
                 else New
  {
    if Due(mid) && now >= UNSETTLED_BINDING_TTL_MS {
      PruneKeeps(mid.table, now - UNSETTLED_BINDING_TTL_MS, UNSETTLED_BINDINGS_KEPT);
    }
  }

  /** A second record is refused, and so is one for an identifier that is not bound. */
  lemma RecordsOnce(t: Table, id: Id, recorded: Recorded)
    ensures RecordIn(t, id, recorded).Some? <==> id in t && t[id].settled.None?
    ensures RecordIn(t, id, recorded).Some? ==>
              RecordIn(t, id, recorded).value == t[id := Binding(t[id].fingerprint, t[id].intent, t[id].boundAt, Some(recorded))]
  {
  }
}
