/**
 * Sponsored deployment: `bootstrap` of apps/account-bootstrap/index.ts over the `SpendBudget` of
 * packages/delegation/src/account-bootstrap.ts. Requests for different accounts run side by side.
 */
module Sponsor {
  import opened Wrappers
  import Journal

  type Day = nat

  function DayOf(now: nat): Day { now / Journal.DAY_MS }

  datatype Hold = Hold(day: Day, amount: nat)

  /** The budget in memory, and the charged totals that outlive it. */
  datatype Budget = Budget(spent: nat, reserved: nat, day: Day, store: map<Day, nat>)

  function Load(store: map<Day, nat>, day: Day): nat { if day in store then store[day] else 0 }

  function Boot(store: map<Day, nat>, now: nat): Budget {
    Budget(Load(store, DayOf(now)), 0, DayOf(now), store)
  }

  function Roll(b: Budget, now: nat): Budget {
    if DayOf(now) == b.day then b else b.(day := DayOf(now), spent := Load(b.store, DayOf(now)))
  }

  function ReserveIn(b: Budget, limit: nat, amount: nat, now: nat): (Budget, Option<Hold>) {
    var r := Roll(b, now);
    if r.spent + r.reserved + amount > limit then (r, None)
    else (r.(reserved := r.reserved + amount), Some(Hold(r.day, amount)))
  }

  /** Clamped at zero. */
  function Release(b: Budget, amount: nat): Budget {
    b.(reserved := if b.reserved < amount then 0 else b.reserved - amount)
  }

  /** The charge follows the hold's day, in memory when that is still the current one. */
  function ChargeTo(b: Budget, day: Day, amount: nat, now: nat): Budget {
    var r := Roll(b, now);
    if day == r.day then r.(spent := r.spent + amount, store := r.store[day := r.spent + amount])
    else r.(store := r.store[day := Load(r.store, day) + amount])
  }

  function SettleHold(b: Budget, hold: Hold, actual: nat, now: nat): Budget {
    ChargeTo(Release(b, hold.amount), hold.day, actual, now)
  }

  class SpendBudget {
    const limit: nat
    var spent: nat
    var reserved: nat
    var day: Day
    var store: map<Day, nat>

    constructor (limit: nat, now: nat, store: map<Day, nat>)
      ensures this.limit == limit && State() == Boot(store, now)
    {
      this.limit, this.store, this.day, this.reserved := limit, store, DayOf(now), 0;
      this.spent := Load(store, DayOf(now));
    }

    function State(): Budget
      reads this
    {
      Budget(spent, reserved, day, store)
    }

    method RollTo(now: nat)
      modifies this`day, this`spent
      ensures State() == Roll(old(State()), now)
    {
      if DayOf(now) != day {
        day := DayOf(now);
        spent := Load(store, day);
      }
    }

    method Reserve(amount: nat, now: nat) returns (hold: Option<Hold>)
      modifies this
      ensures (State(), hold) == ReserveIn(old(State()), limit, amount, now)
    {
      RollTo(now);
      if spent + reserved + amount > limit {
        return None;
      }
      reserved := reserved + amount;
      return Some(Hold(day, amount));
    }

    /** Release the reservation and charge what was spent to the day that admitted it. */
    method Settle(hold: Hold, actual: nat, now: nat)
      modifies this
      ensures State() == SettleHold(old(State()), hold, actual, now)
    {
      reserved := if reserved < hold.amount then 0 else reserved - hold.amount;
      RollTo(now);
      if hold.day == day {
        spent := spent + actual;
        store := store[day := spent];
      } else {
        store := store[hold.day := Load(store, hold.day) + actual];
      }
    }

    method Remaining(now: nat) returns (left: nat)
      modifies this
      ensures State() == Roll(old(State()), now)
      ensures left == if spent + reserved > limit then 0 else limit - spent - reserved
    {
      RollTo(now);
      left := if spent + reserved > limit then 0 else limit - spent - reserved;
    }
  }

  // ---- one request ------------------------------------------------------------------------------

  datatype Config = Config(limit: nat, minBalance: nat, maxFee: nat, maxGas: nat)

  /** What the reads before the reservation answered; None is a read that failed or was missing. */
  datatype Reads = Reads(deployed: bool, balance: nat, baseFee: Option<nat>, gas: Option<nat>)
  datatype Decision = AlreadyDeployed | Turned(reason: string) | Quoted(reservation: nat)

  /** Every check that can refuse without spending, in order. */
  function Judge(c: Config, r: Reads): Decision {
    if r.deployed then AlreadyDeployed
    else if r.balance < c.minBalance then Turned("sponsor_unfunded")
    else if r.baseFee.None? then Turned("bootstrap_unavailable")
    else if r.baseFee.value > c.maxFee then Turned("fee_too_high")
    else if r.gas.None? || r.gas.value > c.maxGas then Turned("gas_estimate_rejected")
    else if r.balance < c.minBalance + r.gas.value * c.maxFee then Turned("sponsor_unfunded")
    else Quoted(r.gas.value * c.maxFee)
  }

  datatype FeeField = Absent | Readable(wei: nat) | Unreadable
  datatype Receipt = Receipt(gasUsed: nat, price: nat, l1Fee: FeeField)

  function CostOf(r: Receipt, fallback: nat): nat {
    match r.l1Fee
    case Absent => r.gasUsed * r.price
    case Readable(wei) => r.gasUsed * r.price + wei
    case Unreadable => fallback
  }

  // ---- the local of one request ---------------------------------------------------------------------

  datatype Stage = Sending | Waiting | Over

  /** A request between two awaits: its hold and what it would be charged if it ended now. */
  datatype Run = Run(hold: Hold, charged: nat, stage: Stage)

  /** Before the broadcast nothing is owed. */
  function Opened(hold: Hold): Run { Run(hold, 0, Sending) }

  /** Once the send has answered, the whole reservation is owed until a receipt says otherwise. */
  function Broadcast(r: Run): Run { Run(r.hold, r.hold.amount, Waiting) }

  /** The receipt's cost replaces it; a deployment that reverted cost gas too. */
  function Measured(r: Run, receipt: Receipt): Run { r.(charged := CostOf(receipt, r.hold.amount)) }

  /** `bootstrap` from its first check to the end of its `finally`, one method for each stretch between awaits. */
  class Deployment {
    const budget: SpendBudget
    const hold: Hold
    var charged: nat
    var stage: Stage

    constructor (budget: SpendBudget, hold: Hold)
      ensures this.budget == budget && State() == Opened(hold)
    {
      this.budget, this.hold, this.charged, this.stage := budget, hold, 0, Sending;
    }

    function State(): Run
      reads this
    {
      Run(hold, charged, stage)
    }

    /** Whichever way the request leaves, its hold is settled with what the local holds then. */
    method Finally(now: nat)
      modifies this`stage, budget
      ensures stage == Over && budget.State() == SettleHold(old(budget.State()), hold, charged, now)
    {
      budget.Settle(hold, charged, now);
      stage := Over;
    }

    method Sent(threw: bool, now: nat)
      requires stage == Sending
      modifies this, budget
      ensures !threw ==> State() == Broadcast(old(State())) && budget.State() == old(budget.State())
      ensures threw ==> charged == old(charged) && stage == Over
                        && budget.State() == SettleHold(old(budget.State()), hold, old(charged), now)
    {
      if threw {
        Finally(now);
        return;
      }
      charged, stage := hold.amount, Waiting;
    }

    method Waited(answer: Option<Receipt>, now: nat)
      requires stage == Waiting
      modifies this, budget
      ensures stage == Over
      ensures charged == if answer.None? then old(charged) else Measured(old(State()), answer.value).charged
      ensures budget.State() == SettleHold(old(budget.State()), hold, charged, now)
    {
      if answer.Some? {
        charged := CostOf(answer.value, hold.amount);
      }
      Finally(now);
    }
  }

  /** The checks in order, and the reservation behind them. */
  method Begin(budget: SpendBudget, c: Config, seen: Reads, now: nat) returns (decision: Decision, hold: Option<Hold>)
    requires budget.limit == c.limit
    modifies budget
    ensures decision == Judge(c, seen)
    ensures (budget.State(), hold) ==
            if decision.Quoted? then ReserveIn(old(budget.State()), c.limit, decision.reservation, now)
            else (old(budget.State()), None)
  {
    hold := None;
    if seen.deployed {
      return AlreadyDeployed, hold;
    }
    if seen.balance < c.minBalance {
      return Turned("sponsor_unfunded"), hold;
    }
    if seen.baseFee.None? {
      return Turned("bootstrap_unavailable"), hold;
    }
    if seen.baseFee.value > c.maxFee {
      return Turned("fee_too_high"), hold;
    }
    if seen.gas.None? || seen.gas.value > c.maxGas {
      return Turned("gas_estimate_rejected"), hold;
    }
    var reservation := seen.gas.value * c.maxFee;
    if seen.balance < c.minBalance + reservation {
      return Turned("sponsor_unfunded"), hold;
    }
    decision := Quoted(reservation);
    hold := budget.Reserve(reservation, now);
  }

  // ---- many requests -------------------------------------------------------------------------------

  /** A request holding part of the budget; `accepted` is whether a node has taken its broadcast. */
  datatype Live = Live(id: nat, run: Run, accepted: bool)
  {
    function Hold(): Hold { run.hold }
  }

  /** A hold that was settled: whether the node took the broadcast, how the two awaits went, and the charge. */
  datatype Entry = Entry(id: nat, hold: Hold, accepted: bool, returned: bool, receipt: Option<Receipt>, charged: nat)

  datatype World = World(budget: Budget, live: seq<Live>, entries: seq<Entry>, dropped: seq<Live>, next: nat)

  /** A node can take a broadcast at any time while it is being sent, whatever the send then answers. */
  datatype Event =
    | Arrive(seen: Reads, now: nat)
    | NodeTakes(k: nat)
    | SendThrew(k: nat, now: nat)
    | SendReturned(k: nat)
    | WaitThrew(k: nat, now: nat)
    | ReceiptSeen(k: nat, receipt: Receipt, now: nat)
    | Crash(now: nat)

  predicate At(w: World, k: nat, stage: Stage) { k < |w.live| && w.live[k].run.stage == stage }

  predicate Can(w: World, e: Event) {
    match e
    case Arrive(_, _) => true
    case NodeTakes(k) => At(w, k, Sending)
    case SendThrew(k, _) => At(w, k, Sending)
    case SendReturned(k) => At(w, k, Sending) && w.live[k].accepted
    case WaitThrew(k, _) => At(w, k, Waiting)
    case ReceiptSeen(k, _, _) => At(w, k, Waiting)
    case Crash(_) => true
  }

  /** The `finally` of a request: its hold is settled with what its local holds by then. */
  function Finish(w: World, k: nat, receipt: Option<Receipt>, now: nat): World
    requires k < |w.live|
  {
    var l := w.live[k];
    var run := if receipt.Some? then Measured(l.run, receipt.value) else l.run;
    World(SettleHold(w.budget, run.hold, run.charged, now), w.live[..k] + w.live[k + 1..],
          w.entries + [Entry(l.id, run.hold, l.accepted, run.stage == Waiting, receipt, run.charged)], w.dropped, w.next)
  }

  /** The world once a hold has been granted. */
  function Granted(w: World, budget: Budget, hold: Hold): World {
    w.(budget := budget, live := w.live + [Live(w.next, Opened(hold), false)], next := w.next + 1)
  }

  function Do(c: Config, w: World, e: Event): World
    requires Can(w, e)
  {
    match e
    case Arrive(seen, now) =>
      (match Judge(c, seen)
       case Quoted(reservation) =>
         var (budget, hold) := ReserveIn(w.budget, c.limit, reservation, now);
         if hold.None? then w.(budget := budget)
         else Granted(w, budget, hold.value)
       case _ => w)
    case NodeTakes(k) => w.(live := w.live[k := w.live[k].(accepted := true)])
    case SendThrew(k, now) => Finish(w, k, None, now)
    case SendReturned(k) => w.(live := w.live[k := w.live[k].(run := Broadcast(w.live[k].run))])
    case WaitThrew(k, now) => Finish(w, k, None, now)
    case ReceiptSeen(k, receipt, now) => Finish(w, k, Some(receipt), now)
    case Crash(now) => w.(budget := Boot(w.budget.store, now), live := [], dropped := w.dropped + w.live)
  }

  predicate Legal(c: Config, w: World, es: seq<Event>)
    decreases |es|
  {
    es == [] || (Can(w, es[0]) && Legal(c, Do(c, w, es[0]), es[1..]))
  }

  function Exec(c: Config, w: World, es: seq<Event>): World
    requires Legal(c, w, es)
    decreases |es|
  {
    if es == [] then w else Exec(c, Do(c, w, es[0]), es[1..])
  }

  function Start(store: map<Day, nat>, now: nat): World { World(Boot(store, now), [], [], [], 0) }

  // ---- sums -----------------------------------------------------------------------------------------

  function Held(live: seq<Live>): nat {
    if live == [] then 0 else live[0].Hold().amount + Held(live[1..])
  }

  function HeldOn(live: seq<Live>, d: Day): nat {
    if live == [] then 0 else (if live[0].Hold().day == d then live[0].Hold().amount else 0) + HeldOn(live[1..], d)
  }

  function ChargedOn(entries: seq<Entry>, d: Day): nat {
    if entries == [] then 0
    else
      var e := entries[|entries| - 1];
      ChargedOn(entries[..|entries| - 1], d) + if e.hold.day == d then e.charged else 0
  }

  /** By how much the day's charges passed their reservations: the fee a reservation cannot foresee. */
  function ExcessOn(entries: seq<Entry>, d: Day): nat {
    if entries == [] then 0
    else
      var e := entries[|entries| - 1];
      ExcessOn(entries[..|entries| - 1], d) +
      if e.hold.day == d && e.charged > e.hold.amount then e.charged - e.hold.amount else 0
  }

  lemma {:induction false} HeldAppend(live: seq<Live>, l: Live, d: Day)
    ensures Held(live + [l]) == Held(live) + l.Hold().amount
    ensures HeldOn(live + [l], d) == HeldOn(live, d) + if l.Hold().day == d then l.Hold().amount else 0
  {
    if live != [] {
      assert (live + [l])[1..] == live[1..] + [l];
      HeldAppend(live[1..], l, d);
    }
  }

  lemma {:induction false} HeldRemove(live: seq<Live>, k: nat, d: Day)
    requires k < |live|
    ensures Held(live) == Held(live[..k] + live[k + 1..]) + live[k].Hold().amount
    ensures HeldOn(live, d) == HeldOn(live[..k] + live[k + 1..], d) + if live[k].Hold().day == d then live[k].Hold().amount else 0
  {
    if k == 0 {
      assert live[..0] + live[1..] == live[1..];
    } else {
      HeldRemove(live[1..], k - 1, d);
      assert (live[..k] + live[k + 1..])[1..] == live[1..][..k - 1] + live[1..][k..];
    }
  }

  /** A request that moves on keeps its hold. */
  lemma {:induction false} HeldMoves(live: seq<Live>, k: nat, l: Live, d: Day)
    requires k < |live| && l.Hold() == live[k].Hold()
    ensures Held(live[k := l]) == Held(live) && HeldOn(live[k := l], d) == HeldOn(live, d)
  {
    if k > 0 {
      HeldMoves(live[1..], k - 1, l, d);
      assert live[k := l][1..] == live[1..][k - 1 := l];
    }
  }

  lemma {:induction false} HeldOnIsPart(live: seq<Live>, d: Day)
    ensures HeldOn(live, d) <= Held(live)
  {
    if live != [] {
      HeldOnIsPart(live[1..], d);
    }
  }

  lemma EntryAppend(entries: seq<Entry>, e: Entry, d: Day)
    ensures ChargedOn(entries + [e], d) == ChargedOn(entries, d) + if e.hold.day == d then e.charged else 0
    ensures ExcessOn(entries + [e], d) ==
            ExcessOn(entries, d) + if e.hold.day == d && e.charged > e.hold.amount then e.charged - e.hold.amount else 0
  {
    assert (entries + [e])[..|entries|] == entries;
  }

  // ---- the invariant -----------------------------------------------------------------------------------

  /** Every total is its charges; what is reserved is what is held; no day passes its limit but by excess. */
  ghost predicate Balanced(c: Config, base: map<Day, nat>, w: World) {
    && w.budget.spent == Load(w.budget.store, w.budget.day)
    && w.budget.reserved == Held(w.live)
    && (forall d :: Load(w.budget.store, d) == Load(base, d) + ChargedOn(w.entries, d))
    && (forall d :: Load(w.budget.store, d) + HeldOn(w.live, d) <= c.limit + ExcessOn(w.entries, d))
  }

  ghost predicate HasLive(live: seq<Live>, id: nat) { exists k :: 0 <= k < |live| && live[k].id == id }

  ghost predicate HasEntry(entries: seq<Entry>, id: nat) { exists k :: 0 <= k < |entries| && entries[k].id == id }

  ghost predicate Placed(w: World, id: nat) {
    HasLive(w.live, id) || HasEntry(w.entries, id) || HasLive(w.dropped, id)
  }

  /** Every hold that was ever granted is live, settled or lost to a crash, and in one place only. */
  ghost predicate Ids(w: World) {
    && (forall j, k :: 0 <= j < k < |w.live| ==> w.live[j].id != w.live[k].id)
    && (forall j, k :: 0 <= j < k < |w.entries| ==> w.entries[j].id != w.entries[k].id)
    && (forall j, k :: 0 <= j < k < |w.dropped| ==> w.dropped[j].id != w.dropped[k].id)
    && (forall j, k :: 0 <= j < |w.live| && 0 <= k < |w.entries| ==> w.live[j].id != w.entries[k].id)
    && (forall j, k :: 0 <= j < |w.dropped| && 0 <= k < |w.live| ==> w.dropped[j].id != w.live[k].id)
    && (forall j, k :: 0 <= j < |w.dropped| && 0 <= k < |w.entries| ==> w.dropped[j].id != w.entries[k].id)
    && (forall id: nat :: Placed(w, id) <==> id < w.next)
  }

  /** The local between the awaits: nothing is owed before the send answers, the whole reservation after. */
  predicate LiveOk(l: Live) {
    match l.run.stage
    case Sending => l.run.charged == 0
    case Waiting => l.accepted && l.run.charged == l.Hold().amount
    case Over => false
  }

  /** What a settled request was charged: nothing if its send threw, else its receipt's cost or the reservation. */
  predicate EntryOk(e: Entry) {
    if !e.returned then e.charged == 0 && e.receipt.None?
    else e.accepted && e.charged == if e.receipt.None? then e.hold.amount else CostOf(e.receipt.value, e.hold.amount)
  }

  ghost predicate Inv(c: Config, base: map<Day, nat>, w: World) {
    && Balanced(c, base, w) && Ids(w)
    && (forall k :: 0 <= k < |w.live| ==> LiveOk(w.live[k]))
    && (forall k :: 0 <= k < |w.entries| ==> EntryOk(w.entries[k]))
  }

  /** The clamp never fires: what is released was reserved. */
  lemma ReleaseIsExact(c: Config, base: map<Day, nat>, w: World, k: nat)
    requires Balanced(c, base, w) && k < |w.live|
    ensures w.live[k].Hold().amount <= w.budget.reserved
    ensures Release(w.budget, w.live[k].Hold().amount).reserved + w.live[k].Hold().amount == w.budget.reserved
  {
    HeldRemove(w.live, k, 0);
  }

  lemma FinishBalances(c: Config, base: map<Day, nat>, w: World, k: nat, receipt: Option<Receipt>, now: nat)
    requires Balanced(c, base, w) && k < |w.live|
    ensures Balanced(c, base, Finish(w, k, receipt, now))
  {
    var w' := Finish(w, k, receipt, now);
    var entry := w'.entries[|w.entries|];
    HeldRemove(w.live, k, 0);
    forall d
      ensures Load(w'.budget.store, d) == Load(base, d) + ChargedOn(w'.entries, d)
      ensures Load(w'.budget.store, d) + HeldOn(w'.live, d) <= c.limit + ExcessOn(w'.entries, d)
    {
      HeldRemove(w.live, k, d);
      EntryAppend(w.entries, entry, d);
    }
  }

  /** Where the live hold at `j` stood before the one at `k` was removed. */
  function Before(k: nat, j: nat): nat { if j < k then j else j + 1 }

  lemma RemoveIds(live: seq<Live>, k: nat)
    requires k < |live| && forall i, j :: 0 <= i < j < |live| ==> live[i].id != live[j].id
    ensures var rest := live[..k] + live[k + 1..];
            && (forall j :: 0 <= j < |rest| ==> rest[j] == live[Before(k, j)] && rest[j].id != live[k].id)
            && (forall i, j :: 0 <= i < j < |rest| ==> rest[i].id != rest[j].id)
  {
    var rest := live[..k] + live[k + 1..];
    forall j | 0 <= j < |rest|
      ensures rest[j] == live[Before(k, j)] && rest[j].id != live[k].id
    {
    }
    forall i, j | 0 <= i < j < |rest|
      ensures rest[i].id != rest[j].id
    {
      assert Before(k, i) < Before(k, j);
    }
  }

  lemma RemoveHas(live: seq<Live>, k: nat, id: nat)
    requires k < |live|
    ensures HasLive(live, id) <==> id == live[k].id || HasLive(live[..k] + live[k + 1..], id)
  {
    var rest := live[..k] + live[k + 1..];
    assert forall j :: 0 <= j < k ==> rest[j] == live[j];
    assert forall j :: k < j < |live| ==> rest[j - 1] == live[j];
    if j :| 0 <= j < |live| && j != k && live[j].id == id {
      assert rest[if j < k then j else j - 1].id == id;
    }
    if j :| 0 <= j < |rest| && rest[j].id == id {
      assert live[Before(k, j)].id == id;
    }
  }

  lemma AppendLive(live: seq<Live>, more: seq<Live>, id: nat)
    ensures HasLive(live + more, id) <==> HasLive(live, id) || HasLive(more, id)
  {
    var all := live + more;
    if k :| 0 <= k < |live| && live[k].id == id {
      assert all[k].id == id;
    }
    if k :| 0 <= k < |more| && more[k].id == id {
      assert all[|live| + k].id == id;
    }
  }

  lemma AppendEntry(entries: seq<Entry>, e: Entry, id: nat)
    ensures HasEntry(entries + [e], id) <==> HasEntry(entries, id) || id == e.id
  {
    var all := entries + [e];
    assert all[|entries|] == e;
    if k :| 0 <= k < |entries| && entries[k].id == id {
      assert all[k].id == id;
    }
  }

  lemma FinishPlaces(w: World, k: nat, receipt: Option<Receipt>, now: nat, id: nat)
    requires k < |w.live|
    ensures Placed(Finish(w, k, receipt, now), id) <==> Placed(w, id)
  {
    var w' := Finish(w, k, receipt, now);
    RemoveHas(w.live, k, id);
    AppendEntry(w.entries, w'.entries[|w.entries|], id);
  }

  lemma FinishIds(w: World, k: nat, receipt: Option<Receipt>, now: nat)
    requires Ids(w) && k < |w.live|
    ensures Ids(Finish(w, k, receipt, now))
  {
    RemoveIds(w.live, k);
    forall id: nat
      ensures Placed(Finish(w, k, receipt, now), id) <==> id < w.next
    {
      FinishPlaces(w, k, receipt, now, id);
    }
  }

  lemma ReserveBalances(c: Config, base: map<Day, nat>, w: World, amount: nat, now: nat)
    requires Balanced(c, base, w)
    ensures var (budget, hold) := ReserveIn(w.budget, c.limit, amount, now);
            && (hold.None? ==> Balanced(c, base, w.(budget := budget)))
            && (hold.Some? ==>
                  && budget.spent + budget.reserved <= c.limit
                  && Balanced(c, base, Granted(w, budget, hold.value)))
  {
    var (budget, hold) := ReserveIn(w.budget, c.limit, amount, now);
    if hold.Some? {
      var l := Live(w.next, Opened(hold.value), false);
      HeldAppend(w.live, l, 0);
      forall d
        ensures Load(budget.store, d) + HeldOn(w.live + [l], d) <= c.limit + ExcessOn(w.entries, d)
      {
        HeldAppend(w.live, l, d);
        HeldOnIsPart(w.live, d);
      }
    }
  }

  /** A request that moves on between two awaits. */
  function Moved(w: World, k: nat, l: Live): World
    requires k < |w.live|
  {
    w.(live := w.live[k := l])
  }

  lemma MovedHas(live: seq<Live>, k: nat, l: Live, id: nat)
    requires k < |live| && l.id == live[k].id
    ensures HasLive(live[k := l], id) <==> HasLive(live, id)
  {
    var moved := live[k := l];
    if j :| 0 <= j < |live| && live[j].id == id {
      assert moved[j].id == id;
    }
    if j :| 0 <= j < |moved| && moved[j].id == id {
      assert live[j].id == id;
    }
  }

  lemma OnlyOne(l: Live, id: nat)
    ensures HasLive([l], id) <==> id == l.id
  {
    assert [l][0].id == l.id;
  }

  lemma MovedKeeps(c: Config, base: map<Day, nat>, w: World, k: nat, l: Live)
    requires Inv(c, base, w) && k < |w.live| && l.Hold() == w.live[k].Hold() && l.id == w.live[k].id && LiveOk(l)
    ensures Inv(c, base, Moved(w, k, l))
  {
    var w' := Moved(w, k, l);
    forall d
      ensures HeldOn(w'.live, d) == HeldOn(w.live, d) && Held(w'.live) == Held(w.live)
    {
      HeldMoves(w.live, k, l, d);
    }
    assert forall j :: 0 <= j < |w.live| ==> w'.live[j].id == w.live[j].id;
    forall id: nat
      ensures Placed(w', id) <==> Placed(w, id)
    {
      MovedHas(w.live, k, l, id);
    }
  }

  lemma FinishKeeps(c: Config, base: map<Day, nat>, w: World, k: nat, receipt: Option<Receipt>, now: nat)
    requires Inv(c, base, w) && k < |w.live| && (receipt.Some? ==> w.live[k].run.stage == Waiting)
    ensures Inv(c, base, Finish(w, k, receipt, now))
  {
    FinishBalances(c, base, w, k, receipt, now);
    FinishIds(w, k, receipt, now);
    assert LiveOk(w.live[k]);
  }

  lemma ArriveIds(w: World, budget: Budget, hold: Hold)
    requires Ids(w)
    ensures Ids(Granted(w, budget, hold))
  {
    var l := Live(w.next, Opened(hold), false);
    var w' := Granted(w, budget, hold);
    forall id: nat
      ensures Placed(w', id) <==> id < w.next + 1
    {
      AppendLive(w.live, [l], id);
      OnlyOne(l, id);
      assert Placed(w, id) <==> id < w.next;
    }
    forall k | 0 <= k < |w.live|
      ensures w.live[k].id < w.next
    {
      assert Placed(w, w.live[k].id);
    }
    forall k | 0 <= k < |w.entries|
      ensures w.entries[k].id < w.next
    {
      assert Placed(w, w.entries[k].id);
    }
    forall k | 0 <= k < |w.dropped|
      ensures w.dropped[k].id < w.next
    {
      assert Placed(w, w.dropped[k].id);
    }
  }

  lemma GrantKeeps(c: Config, base: map<Day, nat>, w: World, budget: Budget, hold: Hold)
    requires Inv(c, base, w) && Balanced(c, base, Granted(w, budget, hold))
    ensures Inv(c, base, Granted(w, budget, hold))
  {
    ArriveIds(w, budget, hold);
    assert LiveOk(Live(w.next, Opened(hold), false));
  }

  lemma RefusalKeeps(c: Config, base: map<Day, nat>, w: World, budget: Budget)
    requires Inv(c, base, w) && Balanced(c, base, w.(budget := budget))
    ensures Inv(c, base, w.(budget := budget))
  {
    assert forall id: nat :: Placed(w.(budget := budget), id) <==> Placed(w, id);
  }

  lemma ArriveKeeps(c: Config, base: map<Day, nat>, w: World, e: Event)
    requires Inv(c, base, w) && e.Arrive?
    ensures Inv(c, base, Do(c, w, e))
  {
    if Judge(c, e.seen).Quoted? {
      var (budget, hold) := ReserveIn(w.budget, c.limit, Judge(c, e.seen).reservation, e.now);
      ReserveBalances(c, base, w, Judge(c, e.seen).reservation, e.now);
      if hold.Some? {
        GrantKeeps(c, base, w, budget, hold.value);
      } else {
        RefusalKeeps(c, base, w, budget);
      }
    }
  }

  lemma CrashPlaces(w: World, w': World, id: nat)
    requires w'.live == [] && w'.entries == w.entries && w'.dropped == w.dropped + w.live
    ensures Placed(w', id) <==> Placed(w, id)
  {
    AppendLive(w.dropped, w.live, id);
  }

  lemma CrashKeeps(c: Config, base: map<Day, nat>, w: World, now: nat)
    requires Inv(c, base, w)
    ensures Inv(c, base, Do(c, w, Crash(now)))
  {
    var w' := Do(c, w, Crash(now));
    forall id: nat
      ensures Placed(w', id) <==> id < w.next
    {
      CrashPlaces(w, w', id);
    }
    forall d
      ensures Load(w'.budget.store, d) + HeldOn(w'.live, d) <= c.limit + ExcessOn(w'.entries, d)
    {
      assert HeldOn([], d) == 0;
    }
  }

  lemma StepKeeps(c: Config, base: map<Day, nat>, w: World, e: Event)
    requires Inv(c, base, w) && Can(w, e)
    ensures Inv(c, base, Do(c, w, e))
  {
    match e {
      case Arrive(_, _) => ArriveKeeps(c, base, w, e);
      case NodeTakes(k) => MovedKeeps(c, base, w, k, w.live[k].(accepted := true));
      case SendThrew(k, now) => FinishKeeps(c, base, w, k, None, now);
      case SendReturned(k) => MovedKeeps(c, base, w, k, w.live[k].(run := Broadcast(w.live[k].run)));
      case WaitThrew(k, now) => FinishKeeps(c, base, w, k, None, now);
      case ReceiptSeen(k, receipt, now) => FinishKeeps(c, base, w, k, Some(receipt), now);
      case Crash(now) => CrashKeeps(c, base, w, now);
    }
  }

  lemma {:induction false} RunsKeep(c: Config, base: map<Day, nat>, w: World, es: seq<Event>)
    requires Inv(c, base, w) && Legal(c, w, es)
    ensures Inv(c, base, Exec(c, w, es))
    decreases |es|
  {
    if es != [] {
      StepKeeps(c, base, w, es[0]);
      RunsKeep(c, base, Do(c, w, es[0]), es[1..]);
    }
  }

  ghost predicate WithinLimit(base: map<Day, nat>, limit: nat) {
    forall d :: Load(base, d) <= limit
  }

  lemma Reached(c: Config, base: map<Day, nat>, now: nat, es: seq<Event>)
    requires WithinLimit(base, c.limit) && Legal(c, Start(base, now), es)
    ensures Inv(c, base, Exec(c, Start(base, now), es))
  {
    RunsKeep(c, base, Start(base, now), es);
  }

  // ---- what every run keeps ----------------------------------------------------------------------------------

  /** Each day's total is what it held at first plus its settled charges, within the limit but for their excess. */
  lemma TotalsAreCharges(c: Config, base: map<Day, nat>, now: nat, es: seq<Event>, d: Day)
    requires WithinLimit(base, c.limit) && Legal(c, Start(base, now), es)
    ensures var w := Exec(c, Start(base, now), es);
            && Load(w.budget.store, d) == Load(base, d) + ChargedOn(w.entries, d)
            && Load(w.budget.store, d) + HeldOn(w.live, d) <= c.limit + ExcessOn(w.entries, d)
  {
    Reached(c, base, now, es);
  }

  /** At every reservation the day's spend and everything held fit the limit. */
  lemma ReservationsFit(c: Config, base: map<Day, nat>, now: nat, es: seq<Event>, e: Event)
    requires WithinLimit(base, c.limit) && Legal(c, Start(base, now), es) && e.Arrive?
    ensures var w := Exec(c, Start(base, now), es);
            var w' := Do(c, w, e);
            |w'.live| > |w.live| ==> Load(w'.budget.store, DayOf(e.now)) + Held(w'.live) <= c.limit
  {
    Reached(c, base, now, es);
    var w := Exec(c, Start(base, now), es);
    if Judge(c, e.seen).Quoted? {
      var amount := Judge(c, e.seen).reservation;
      ReserveBalances(c, base, w, amount, e.now);
    }
  }

  /** What an arriving request has to find for a hold: the funds a broadcast may cost at most, and a bounded price and gas. */
  predicate Affordable(c: Config, seen: Reads) {
    && !seen.deployed && seen.baseFee.Some? && seen.baseFee.value <= c.maxFee
    && seen.gas.Some? && seen.gas.value <= c.maxGas
    && seen.balance >= c.minBalance + seen.gas.value * c.maxFee
  }

  /**
   * Over every run: a request is given a hold if and only if it can be afforded and the day's total, everything
   * held and the most it may cost still fit the limit, to the last unit. The hold is of that most, on the day that
   * the clock reads; nothing else changes, and without a hold nothing is held or charged.
   */
  lemma HoldIsGrantedIff(c: Config, base: map<Day, nat>, start: nat, es: seq<Event>, seen: Reads, now: nat)
    requires WithinLimit(base, c.limit) && Legal(c, Start(base, start), es)
    ensures var w := Exec(c, Start(base, start), es);
            var w' := Do(c, w, Arrive(seen, now));
            var day := now / 86_400_000;
            && w'.entries == w.entries && w'.dropped == w.dropped && w'.budget.store == w.budget.store
            && if Affordable(c, seen) && Load(w.budget.store, day) + Held(w.live) + seen.gas.value * c.maxFee <= c.limit
               then w'.live == w.live + [Live(w.next, Run(Hold(day, seen.gas.value * c.maxFee), 0, Sending), false)]
               else w'.live == w.live
  {
    Reached(c, base, start, es);
    var w := Exec(c, Start(base, start), es);
    AffordableIsQuoted(c, seen);
    RollReads(c, base, w, now);
  }

  lemma RollReads(c: Config, base: map<Day, nat>, w: World, now: nat)
    requires Balanced(c, base, w)
    ensures var r := Roll(w.budget, now);
            && r.day == now / 86_400_000 && r.spent == Load(w.budget.store, now / 86_400_000)
            && r.reserved == Held(w.live) && r.store == w.budget.store
  {
  }

  lemma AffordableIsQuoted(c: Config, seen: Reads)
    ensures Judge(c, seen).Quoted? <==> Affordable(c, seen)
    ensures Affordable(c, seen) ==> Judge(c, seen) == Quoted(seen.gas.value * c.maxFee)
  {
    if seen.gas.Some? {
      assert seen.gas.value * c.maxFee >= 0;
    }
  }

  /** Why a request is turned away: each answer is given exactly when its check is the first to fail. */
  lemma TurnedAwayIff(c: Config, seen: Reads)
    ensures var funded := seen.balance >= c.minBalance;
            var priced := seen.baseFee.Some? && seen.baseFee.value <= c.maxFee;
            var bounded := seen.gas.Some? && seen.gas.value <= c.maxGas;
            && (Judge(c, seen) == AlreadyDeployed <==> seen.deployed)
            && (Judge(c, seen) == Turned("bootstrap_unavailable") <==> !seen.deployed && funded && seen.baseFee.None?)
            && (Judge(c, seen) == Turned("fee_too_high") <==>
                  !seen.deployed && funded && seen.baseFee.Some? && seen.baseFee.value > c.maxFee)
            && (Judge(c, seen) == Turned("gas_estimate_rejected") <==> !seen.deployed && funded && priced && !bounded)
            && (Judge(c, seen) == Turned("sponsor_unfunded") <==>
                  !seen.deployed && (!funded || (priced && bounded && seen.balance < c.minBalance + seen.gas.value * c.maxFee)))
  {
    var words := ["bootstrap_unavailable", "fee_too_high", "gas_estimate_rejected", "sponsor_unfunded"];
    assert words[0][0] == 'b' && words[1][0] == 'f' && words[2][0] == 'g' && words[3][0] == 's';
  }

  /** Where a hold is. */
  datatype Place = InLive(k: nat) | InEntries(k: nat) | InDropped(k: nat)

  predicate Holds(w: World, p: Place, id: nat) {
    match p
    case InLive(k) => k < |w.live| && w.live[k].id == id
    case InEntries(k) => k < |w.entries| && w.entries[k].id == id
    case InDropped(k) => k < |w.dropped| && w.dropped[k].id == id
  }

  lemma PlacedSomewhere(w: World, id: nat)
    ensures Placed(w, id) <==> exists p :: Holds(w, p, id)
  {
    if k :| 0 <= k < |w.live| && w.live[k].id == id {
      assert Holds(w, InLive(k), id);
    }
    if k :| 0 <= k < |w.entries| && w.entries[k].id == id {
      assert Holds(w, InEntries(k), id);
    }
    if k :| 0 <= k < |w.dropped| && w.dropped[k].id == id {
      assert Holds(w, InDropped(k), id);
    }
  }

  lemma OnePlace(w: World, p: Place, q: Place, id: nat)
    requires Ids(w) && Holds(w, p, id) && Holds(w, q, id)
    ensures p == q
  {
  }

  /** Every hold ever granted is in exactly one place: still live, settled, or dropped by a crash. */
  lemma EachHoldSettledOnce(c: Config, base: map<Day, nat>, now: nat, es: seq<Event>, id: nat)
    requires WithinLimit(base, c.limit) && Legal(c, Start(base, now), es)
    ensures var w := Exec(c, Start(base, now), es);
            && (id < w.next <==> exists p :: Holds(w, p, id))
            && (forall p, q :: Holds(w, p, id) && Holds(w, q, id) ==> p == q)
            && w.budget.reserved == Held(w.live)
  {
    Reached(c, base, now, es);
    var w := Exec(c, Start(base, now), es);
    PlacedSomewhere(w, id);
    forall p, q | Holds(w, p, id) && Holds(w, q, id)
      ensures p == q
    {
      OnePlace(w, p, q, id);
    }
  }

  /** A settled hold was granted to a request that has left, so it is never settled again. */
  lemma {:induction false} EntriesStay(c: Config, w: World, es: seq<Event>)
    requires Legal(c, w, es)
    ensures |Exec(c, w, es).entries| >= |w.entries| && Exec(c, w, es).entries[..|w.entries|] == w.entries
    decreases |es|
  {
    if es != [] {
      var w1 := Do(c, w, es[0]);
      EntriesStay(c, w1, es[1..]);
      assert w1.entries[..|w.entries|] == w.entries;
      assert Exec(c, w, es).entries[..|w.entries|] == Exec(c, w, es).entries[..|w1.entries|][..|w.entries|];
    }
  }

  /** A receipt that cost something. */
  predicate Costly(e: Entry) {
    e.hold.amount > 0 && (e.receipt.Some? ==> e.receipt.value.gasUsed > 0 && e.receipt.value.price > 0)
  }

  /**
   * A request whose send answered is charged its receipt's cost or its whole reservation. So an accepted
   * broadcast goes free if and only if its send threw all the same.
   */
  lemma AcceptedIsFreeIff(c: Config, base: map<Day, nat>, now: nat, es: seq<Event>, k: nat)
    requires WithinLimit(base, c.limit) && Legal(c, Start(base, now), es) && k < |Exec(c, Start(base, now), es).entries|
    ensures var e := Exec(c, Start(base, now), es).entries[k];
            && (e.returned ==>
                  && e.accepted
                  && e.charged == if e.receipt.None? then e.hold.amount else CostOf(e.receipt.value, e.hold.amount))
            && (Costly(e) ==> (e.charged == 0 <==> !e.returned))
  {
    Reached(c, base, now, es);
    var e := Exec(c, Start(base, now), es).entries[k];
    assert EntryOk(e);
    if Costly(e) && e.receipt.Some? {
      assert e.receipt.value.gasUsed * e.receipt.value.price > 0;
    }
  }

  /**
   * What each settled deployment was charged, in the terms of its receipt: gas times price and the fee of the
   * layer below where it can be read, the whole reservation where it cannot or where no receipt came, and
   * nothing where the send threw.
   */
  lemma ChargesAreTheReceipts(c: Config, base: map<Day, nat>, now: nat, es: seq<Event>, k: nat)
    requires WithinLimit(base, c.limit) && Legal(c, Start(base, now), es) && k < |Exec(c, Start(base, now), es).entries|
    ensures var e := Exec(c, Start(base, now), es).entries[k];
            && (!e.returned ==> e.charged == 0)
            && (e.returned && e.receipt.None? ==> e.charged == e.hold.amount)
            && (e.returned && e.receipt.Some? ==>
                  match e.receipt.value.l1Fee
                  case Absent => e.charged == e.receipt.value.gasUsed * e.receipt.value.price
                  case Readable(wei) => e.charged == e.receipt.value.gasUsed * e.receipt.value.price + wei
                  case Unreadable => e.charged == e.hold.amount)
  {
    Reached(c, base, now, es);
    assert EntryOk(Exec(c, Start(base, now), es).entries[k]);
  }

  /** Where a send that throws was not accepted, no accepted broadcast goes free. */
  lemma AcceptedIsNeverFree(c: Config, base: map<Day, nat>, now: nat, es: seq<Event>, k: nat)
    requires WithinLimit(base, c.limit) && Legal(c, Start(base, now), es) && k < |Exec(c, Start(base, now), es).entries|
    requires var e := Exec(c, Start(base, now), es).entries[k]; e.accepted ==> e.returned
    ensures var e := Exec(c, Start(base, now), es).entries[k];
            Costly(e) ==> (e.charged > 0 <==> e.accepted)
  {
    AcceptedIsFreeIff(c, base, now, es, k);
  }

  /** A node may take a broadcast whose send throws: that deployment is paid for and never charged. */
  lemma AcceptedMayGoFree()
    ensures exists c: Config, es: seq<Event> ::
              && Legal(c, Start(map[], 0), es)
              && var entries := Exec(c, Start(map[], 0), es).entries;
                 |entries| == 1 && entries[0].accepted && entries[0].hold.amount > 0 && entries[0].charged == 0
  {
    var c, start := Config(10, 0, 1, 5), Start(map[], 0);
    var e1, e2, e3 := Arrive(Reads(false, 100, Some(1), Some(3)), 0), NodeTakes(0), SendThrew(0, 0);
    var sent := Live(0, Opened(Hold(0, 3)), false);
    var w1 := World(Budget(0, 3, 0, map[]), [sent], [], [], 1);
    var w2 := w1.(live := [sent.(accepted := true)]);
    FirstHold(c, start, w1);
    TakenThenThrown(c, w1, w2, sent);
    RunsInto(c, w2, e3, []);
    RunsInto(c, w1, e2, [e3] + []);
    RunsInto(c, start, e1, [e2] + ([e3] + []));
    OneFree(c, start, [e1] + ([e2] + ([e3] + [])), Do(c, w2, e3));
  }

  lemma FirstHold(c: Config, start: World, w1: World)
    requires c == Config(10, 0, 1, 5) && start == Start(map[], 0)
    requires w1 == World(Budget(0, 3, 0, map[]), [Live(0, Opened(Hold(0, 3)), false)], [], [], 1)
    ensures Do(c, start, Arrive(Reads(false, 100, Some(1), Some(3)), 0)) == w1
  {
    assert start == World(Budget(0, 0, 0, map[]), [], [], [], 0);
  }

  lemma TakenThenThrown(c: Config, w1: World, w2: World, sent: Live)
    requires sent == Live(0, Opened(Hold(0, 3)), false) && w1.live == [sent] && w1.entries == []
    requires w2 == w1.(live := [sent.(accepted := true)])
    ensures Can(w1, NodeTakes(0)) && Do(c, w1, NodeTakes(0)) == w2
    ensures Can(w2, SendThrew(0, 0)) && Do(c, w2, SendThrew(0, 0)).entries == [Entry(0, Hold(0, 3), true, false, None, 0)]
  {
  }

  lemma OneFree(c: Config, start: World, es: seq<Event>, last: World)
    requires start == Start(map[], 0) && Legal(c, start, es) && Exec(c, start, es) == last
    requires last.entries == [Entry(0, Hold(0, 3), true, false, None, 0)]
    ensures exists c: Config, es: seq<Event> ::
              && Legal(c, Start(map[], 0), es)
              && var entries := Exec(c, Start(map[], 0), es).entries;
                 |entries| == 1 && entries[0].accepted && entries[0].hold.amount > 0 && entries[0].charged == 0
  {
    var entries := Exec(c, Start(map[], 0), es).entries;
    assert |entries| == 1 && entries[0].accepted && entries[0].hold.amount > 0 && entries[0].charged == 0;
  }

  // ---- what a crash loses ---------------------------------------------------------------------------------------

  /** The reservations of the broadcasts a node has accepted and nobody has charged yet. */
  function InFlight(live: seq<Live>): nat {
    if live == [] then 0 else (if live[0].accepted then live[0].Hold().amount else 0) + InFlight(live[1..])
  }

  predicate Counts(l: Live) { l.accepted && l.Hold().amount > 0 }

  lemma {:induction false} InFlightCovers(live: seq<Live>, k: nat)
    requires k < |live| && live[k].accepted
    ensures live[k].Hold().amount <= InFlight(live)
    ensures InFlight(live) > live[k].Hold().amount <==> exists j :: 0 <= j < |live| && j != k && Counts(live[j])
  {
    if k == 0 {
      NoneInFlight(live[1..]);
      assert forall j :: 0 < j < |live| ==> live[j] == live[1..][j - 1];
      assert forall j :: 0 <= j < |live| - 1 ==> live[1..][j] == live[j + 1];
    } else {
      InFlightCovers(live[1..], k - 1);
      assert forall j :: 0 < j < |live| ==> live[j] == live[1..][j - 1];
      assert forall j :: 0 <= j < |live| - 1 ==> live[1..][j] == live[j + 1];
    }
  }

  lemma {:induction false} NoneInFlight(live: seq<Live>)
    ensures InFlight(live) == 0 <==> forall j :: 0 <= j < |live| ==> !Counts(live[j])
  {
    if live != [] {
      NoneInFlight(live[1..]);
      assert forall j :: 0 < j < |live| ==> live[j] == live[1..][j - 1];
      assert forall j :: 0 <= j < |live| - 1 ==> live[1..][j] == live[j + 1];
    }
  }

  /**
   * The budget's comment says a crash under-counts by at most one reservation. Requests for
   * different accounts broadcast side by side, and a crash forgets all of them: it loses no more
   * than one reservation exactly when no second accepted broadcast is in flight.
   */
  lemma CrashLosesOneIff(c: Config, w: World, now: nat, k: nat)
    requires k < |w.live| && w.live[k].accepted
    ensures var w' := Do(c, w, Crash(now));
            && w'.budget.store == w.budget.store && w'.entries == w.entries && w'.live == [] && w'.budget.reserved == 0
            && (InFlight(w.live) <= w.live[k].Hold().amount <==>
                forall j :: 0 <= j < |w.live| && j != k ==> !Counts(w.live[j]))
  {
    InFlightCovers(w.live, k);
  }

  /** Two deployments accepted before either is charged: a crash now loses both reservations. */
  lemma CrashMayLoseTwo()
    ensures exists c: Config, es: seq<Event> ::
              && Legal(c, Start(map[], 0), es)
              && var live := Exec(c, Start(map[], 0), es).live;
                 && |live| == 2 && Counts(live[0]) && Counts(live[1])
                 && InFlight(live) == live[0].Hold().amount + live[1].Hold().amount
  {
    var c := Config(10, 0, 1, 5);
    var e1, e2, e3 := Arrive(Reads(false, 100, Some(1), Some(3)), 0), NodeTakes(0), NodeTakes(1);
    var first, second := Live(0, Opened(Hold(0, 3)), false), Live(1, Opened(Hold(0, 3)), false);
    var w2 := World(Budget(0, 6, 0, map[]), [first, second], [], [], 2);
    TwoArrive(c, e1, first, second, w2);
    var w3 := w2.(live := [first.(accepted := true), second]);
    var w4 := w2.(live := [first.(accepted := true), second.(accepted := true)]);
    assert Do(c, w2, e2) == w3 && Do(c, w3, e3) == w4;
    RunsInto(c, w3, e3, []);
    RunsInto(c, w2, e2, [e3] + []);
    BothArrive(c, e1, w2, [e2] + ([e3] + []));
    BothInFlight(w4.live);
    var es := [e1] + ([e1] + ([e2] + ([e3] + [])));
    assert Legal(c, Start(map[], 0), es) && Exec(c, Start(map[], 0), es) == w4;
  }

  lemma BothInFlight(live: seq<Live>)
    requires |live| == 2 && live[0].accepted && live[1].accepted
    ensures InFlight(live) == live[0].Hold().amount + live[1].Hold().amount
  {
    assert live[1..] == [live[1]] && [live[1]][1..] == [] && InFlight([live[1]]) == live[1].Hold().amount;
  }

  lemma TwoArrive(c: Config, e: Event, first: Live, second: Live, w: World)
    requires c == Config(10, 0, 1, 5) && e == Arrive(Reads(false, 100, Some(1), Some(3)), 0)
    requires first == Live(0, Opened(Hold(0, 3)), false) && second == Live(1, Opened(Hold(0, 3)), false)
    requires w == World(Budget(0, 6, 0, map[]), [first, second], [], [], 2)
    ensures Do(c, Do(c, Start(map[], 0), e), e) == w
  {
    var w1 := World(Budget(0, 3, 0, map[]), [first], [], [], 1);
    assert Start(map[], 0) == World(Budget(0, 0, 0, map[]), [], [], [], 0);
    assert Do(c, Start(map[], 0), e) == w1;
    assert [first] + [second] == [first, second];
  }

  lemma BothArrive(c: Config, e: Event, w: World, rest: seq<Event>)
    requires e.Arrive? && Do(c, Do(c, Start(map[], 0), e), e) == w && Legal(c, w, rest)
    ensures Legal(c, Start(map[], 0), [e] + ([e] + rest)) && Exec(c, Start(map[], 0), [e] + ([e] + rest)) == Exec(c, w, rest)
  {
    RunsInto(c, Do(c, Start(map[], 0), e), e, rest);
    RunsInto(c, Start(map[], 0), e, [e] + rest);
  }

  lemma RunsInto(c: Config, w: World, e: Event, rest: seq<Event>)
    requires Can(w, e) && Legal(c, Do(c, w, e), rest)
    ensures Legal(c, w, [e] + rest) && Exec(c, w, [e] + rest) == Exec(c, Do(c, w, e), rest)
  {
    assert ([e] + rest)[1..] == rest;
  }
}
