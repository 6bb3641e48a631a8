/**
 * Shop delivery: the item route of apps/delegated-seller/app.ts over the orders table of
 * packages/store/src/index.ts. A payment intent does not name an item, so which ticket a header
 * buys is decided by the first row written for it.
 */
module Shop {
  import opened Wrappers
  import opened Journal
  import RR = RecoveryRuns
  import Wire

  type Slug = string
  type Code = nat

  const TUSDC: Address := 9

  /** The signed part of a payment header, as far as the intent is keyed on it. */
  datatype Delegation = Delegation(payer: Address, leaf: nat)
  datatype Seller = Seller(hosted: bool, payTo: Address)
  datatype Item = Item(price: nat)
  datatype Order = Order(slug: Slug, key: Slug, intent: Intent, ticket: Code, payer: Address, amount: nat, tx: Option<Hash>)

  function DeriveIntent(seller: Seller, item: Item, d: Delegation): Intent {
    Intent.Intent(TUSDC, d.payer, seller.payTo, item.price, d.leaf)
  }

  // ---- the orders table ------------------------------------------------------------------------

  function ByIntent(orders: seq<Order>, i: Intent): Option<Order> {
    if orders == [] then None
    else if orders[|orders| - 1].intent == i then Some(orders[|orders| - 1])
    else ByIntent(orders[..|orders| - 1], i)
  }

  predicate TicketTaken(orders: seq<Order>, ticket: Code) {
    exists k :: 0 <= k < |orders| && orders[k].ticket == ticket
  }

  /** None when the insert throws: a code already on file, or an item that does not exist. */
  datatype Created = Created(orders: seq<Order>, kept: Option<Order>)

  function CreateIn(orders: seq<Order>, order: Order, itemExists: bool): Created {
    match ByIntent(orders, order.intent)
    case Some(existing) => Created(orders, Some(existing))
    case None =>
      if !itemExists || TicketTaken(orders, order.ticket) then Created(orders, None)
      else Created(orders + [order], Some(order))
  }

  // ---- requests ----------------------------------------------------------------------------------

  /** A request in the paywall keeps the shop and the item it looked up before it went to pay. */
  datatype Run = Run(slug: Slug, key: Slug, seller: Seller, item: Item, intent: Intent)

  datatype Response =
    | UnknownShop | UnknownItem | NoPayment
    | TicketFor(intent: Intent, code: Code, slug: Slug, key: Slug)
    | OrderNotRecorded | OrderItemMissing

  datatype Catalogue = Catalogue(sellers: map<Slug, Seller>, items: map<(Slug, Slug), Item>)

  /** The ticket is that of the row: what the payment first bought, wherever it is shown again. */
  function Ticket(c: Catalogue, i: Intent, order: Order, slug: Slug, key: Slug): Response {
    var sameItem := order.slug == slug && order.key == key;
    if sameItem || (order.slug in c.sellers && (order.slug, order.key) in c.items)
    then TicketFor(i, order.ticket, order.slug, order.key) else OrderItemMissing
  }

  datatype Outcome = Told(response: Response) | Paying(run: Run)

  function Present(c: Catalogue, orders: seq<Order>, slug: Slug, key: Slug, header: Option<Delegation>): Outcome {
    if slug !in c.sellers || !c.sellers[slug].hosted then Told(UnknownShop)
    else if (slug, key) !in c.items then Told(UnknownItem)
    else if header.None? then Told(NoPayment)
    else
      var seller, item := c.sellers[slug], c.items[(slug, key)];
      var i := DeriveIntent(seller, item, header.value);
      match ByIntent(orders, i)
      case Some(order) => Told(Ticket(c, i, order, slug, key))
      case None => Paying(Run(slug, key, seller, item, i))
  }

  datatype Delivered = Delivered(orders: seq<Order>, response: Response)

  /** The paywall confirmed the payment: the callback writes the row, and the handler answers from it. */
  function Deliver(c: Catalogue, orders: seq<Order>, run: Run, tx: Option<Hash>, minted: Code, diskOk: bool): Delivered {
    var order := Order(run.slug, run.key, run.intent, minted, run.intent.payer, run.item.price, tx);
    var created := CreateIn(orders, order, (run.slug, run.key) in c.items);
    if !diskOk || created.kept.None? then Delivered(if diskOk then created.orders else orders, OrderNotRecorded)
    else Delivered(created.orders, Ticket(c, run.intent, created.kept.value, run.slug, run.key))
  }

  class Orders {
    var rows: seq<Order>

    constructor ()
      ensures rows == []
    {
      rows := [];
    }

    method GetByIntent(i: Intent) returns (found: Option<Order>)
      ensures found == ByIntent(rows, i)
    {
      var n := |rows|;
      assert rows[..n] == rows;
      while n > 0
        invariant 0 <= n <= |rows|
        invariant ByIntent(rows, i) == ByIntent(rows[..n], i)
      {
        n := n - 1;
        assert rows[..n + 1][..n] == rows[..n];
        if rows[n].intent == i {
          return Some(rows[n]);
        }
      }
      return None;
    }

    /** The insert that does nothing for an intent on file, and the read that follows it. */
    method CreateOnce(order: Order, itemExists: bool) returns (kept: Option<Order>)
      modifies this
      ensures Created(rows, kept) == CreateIn(old(rows), order, itemExists)
    {
      var existing := GetByIntent(order.intent);
      if existing.Some? {
        return existing;
      }
      if !itemExists || exists k :: 0 <= k < |rows| && rows[k].ticket == order.ticket {
        return None;
      }
      rows := rows + [order];
      return Some(order);
    }
  }

  // ---- whole runs -----------------------------------------------------------------------------------

  /** `paid` are the intents the facilitator has settled; `told` is every answer given so far. */
  datatype World = World(catalogue: Catalogue, orders: seq<Order>, runs: map<nat, Run>, paid: set<Intent>, told: seq<Response>)

  datatype Step =
    | Ask(id: nat, slug: Slug, key: Slug, header: Option<Delegation>)
    | Confirm(id: nat, tx: Option<Hash>, minted: Code, diskOk: bool)
    | Refuse(id: nat)
    | Settle(intent: Intent)
    | SeedSeller(slug: Slug, seller: Seller)
    | SeedItem(slug: Slug, key: Slug, item: Item)
    | Crash

  predicate Can(w: World, e: Step) {
    match e
    case Ask(id, _, _, _) => id !in w.runs
    case Confirm(id, _, _, _) => id in w.runs && w.runs[id].intent in w.paid
    case Refuse(id) => id in w.runs
    case SeedItem(slug, _, _) => slug in w.catalogue.sellers
    case _ => true
  }

  function Do(w: World, e: Step): World
    requires Can(w, e)
  {
    match e
    case Ask(id, slug, key, header) =>
      (match Present(w.catalogue, w.orders, slug, key, header)
       case Told(response) => w.(told := w.told + [response])
       case Paying(run) => w.(runs := w.runs[id := run]))
    case Confirm(id, tx, minted, diskOk) =>
      var d := Deliver(w.catalogue, w.orders, w.runs[id], tx, minted, diskOk);
      w.(orders := d.orders, runs := w.runs - {id}, told := w.told + [d.response])
    case Refuse(id) => w.(runs := w.runs - {id}, told := w.told + [NoPayment])
    case Settle(i) => w.(paid := w.paid + {i})
    case SeedSeller(slug, seller) => w.(catalogue := w.catalogue.(sellers := w.catalogue.sellers[slug := seller]))
    case SeedItem(slug, key, item) => w.(catalogue := w.catalogue.(items := w.catalogue.items[(slug, key) := item]))
    case Crash => w.(runs := map[])
  }

  predicate Legal(w: World, es: seq<Step>)
    decreases |es|
  {
    es == [] || (Can(w, es[0]) && Legal(Do(w, es[0]), es[1..]))
  }

  function Exec(w: World, es: seq<Step>): World
    requires Legal(w, es)
    decreases |es|
  {
    if es == [] then w else Exec(Do(w, es[0]), es[1..])
  }

  lemma RunsInto(w: World, e: Step, rest: seq<Step>)
    requires Can(w, e) && Legal(Do(w, e), rest)
    ensures Legal(w, [e] + rest) && Exec(w, [e] + rest) == Exec(Do(w, e), rest)
  {
    assert ([e] + rest)[1..] == rest;
  }

  function Open(c: Catalogue): World { World(c, [], map[], {}, []) }

  ghost predicate Stocked(c: Catalogue) {
    forall p :: p in c.items ==> p.0 in c.sellers
  }

  ghost predicate Apart(orders: seq<Order>) {
    forall j, k :: 0 <= j < k < |orders| ==> orders[j].intent != orders[k].intent && orders[j].ticket != orders[k].ticket
  }

  ghost predicate RowsOk(c: Catalogue, orders: seq<Order>, paid: set<Intent>) {
    && Apart(orders)
    && (forall k :: 0 <= k < |orders| ==> (orders[k].slug, orders[k].key) in c.items && orders[k].intent in paid)
  }

  /** An answer shows the row of its intent. */
  ghost predicate Shows(orders: seq<Order>, r: Response) {
    r.TicketFor? ==> exists k :: 0 <= k < |orders| && orders[k].intent == r.intent && orders[k].ticket == r.code
                                 && orders[k].slug == r.slug && orders[k].key == r.key
  }

  ghost predicate Inv(w: World) {
    && Stocked(w.catalogue) && RowsOk(w.catalogue, w.orders, w.paid)
    && (forall id :: id in w.runs ==> (w.runs[id].slug, w.runs[id].key) in w.catalogue.items)
    && (forall k :: 0 <= k < |w.told| ==> Shows(w.orders, w.told[k]) && !w.told[k].OrderItemMissing?)
  }

  lemma {:induction false} ByIntentFinds(orders: seq<Order>, i: Intent)
    ensures match ByIntent(orders, i)
            case Some(order) => exists k :: 0 <= k < |orders| && orders[k] == order && order.intent == i
            case None => forall k :: 0 <= k < |orders| ==> orders[k].intent != i
  {
    if orders != [] && orders[|orders| - 1].intent != i {
      var rest := orders[..|orders| - 1];
      ByIntentFinds(rest, i);
      if ByIntent(rest, i).Some? {
        var k :| 0 <= k < |rest| && rest[k] == ByIntent(rest, i).value && rest[k].intent == i;
        assert orders[k] == rest[k];
      }
    } else if orders != [] {
      assert orders[|orders| - 1].intent == i;
    }
  }

  lemma {:induction false} RowIs(orders: seq<Order>, k: nat)
    requires k < |orders| && Apart(orders)
    ensures ByIntent(orders, orders[k].intent) == Some(orders[k])
  {
    if k < |orders| - 1 {
      assert orders[k].intent != orders[|orders| - 1].intent;
      RowIs(orders[..|orders| - 1], k);
    }
  }

  lemma TicketShows(c: Catalogue, orders: seq<Order>, paid: set<Intent>, order: Order, k: nat, slug: Slug, key: Slug)
    requires Stocked(c) && RowsOk(c, orders, paid) && k < |orders| && orders[k] == order
    ensures var r := Ticket(c, order.intent, order, slug, key);
            Shows(orders, r) && !r.OrderItemMissing?
  {
  }

  lemma AskKeeps(w: World, e: Step)
    requires Inv(w) && e.Ask? && Can(w, e)
    ensures Inv(Do(w, e))
  {
    var outcome := Present(w.catalogue, w.orders, e.slug, e.key, e.header);
    if outcome.Told? && (outcome.response.TicketFor? || outcome.response.OrderItemMissing?) {
      var i := DeriveIntent(w.catalogue.sellers[e.slug], w.catalogue.items[(e.slug, e.key)], e.header.value);
      ByIntentFinds(w.orders, i);
      var order := ByIntent(w.orders, i).value;
      var k :| 0 <= k < |w.orders| && w.orders[k] == order && order.intent == i;
      TicketShows(w.catalogue, w.orders, w.paid, order, k, e.slug, e.key);
    }
  }

  /** The rows only grow, so an answer once true stays true. */
  lemma ShowsKept(orders: seq<Order>, more: seq<Order>, r: Response)
    requires Shows(orders, r)
    ensures Shows(orders + more, r)
  {
    if r.TicketFor? {
      var k :| 0 <= k < |orders| && orders[k].intent == r.intent && orders[k].ticket == r.code
               && orders[k].slug == r.slug && orders[k].key == r.key;
      assert (orders + more)[k] == orders[k];
    }
  }

  lemma ConfirmKeeps(w: World, e: Step)
    requires Inv(w) && e.Confirm? && Can(w, e)
    ensures Inv(Do(w, e))
  {
    var run := w.runs[e.id];
    var order := Order(run.slug, run.key, run.intent, e.minted, run.intent.payer, run.item.price, e.tx);
    var created := CreateIn(w.orders, order, true);
    ByIntentFinds(w.orders, run.intent);
    var orders := Do(w, e).orders;
    if orders != w.orders {
      assert orders == w.orders + [order];
      assert forall k :: 0 <= k < |w.orders| ==> orders[k] == w.orders[k];
      assert RowsOk(w.catalogue, orders, w.paid);
      forall k | 0 <= k < |w.told|
        ensures Shows(orders, w.told[k])
      {
        ShowsKept(w.orders, [order], w.told[k]);
      }
      TicketShows(w.catalogue, orders, w.paid, order, |w.orders|, run.slug, run.key);
    } else if created.kept.Some? && e.diskOk {
      var k :| 0 <= k < |orders| && orders[k] == created.kept.value && orders[k].intent == run.intent;
      TicketShows(w.catalogue, orders, w.paid, created.kept.value, k, run.slug, run.key);
    }
  }

  lemma StepKeeps(w: World, e: Step)
    requires Inv(w) && Can(w, e)
    ensures Inv(Do(w, e))
  {
    match e {
      case Ask(_, _, _, _) => AskKeeps(w, e);
      case Confirm(_, _, _, _) => ConfirmKeeps(w, e);
      case _ =>
    }
  }

  lemma {:induction false} RunsKeep(w: World, es: seq<Step>)
    requires Inv(w) && Legal(w, es)
    ensures Inv(Exec(w, es))
    decreases |es|
  {
    if es != [] {
      StepKeeps(w, es[0]);
      RunsKeep(Do(w, es[0]), es[1..]);
    }
  }

  // ---- one payment, one ticket ---------------------------------------------------------------------

  /** Two answers are for one intent exactly when they carry one code, and then they agree throughout. */
  lemma OnePaymentOneTicket(c: Catalogue, es: seq<Step>, j: nat, k: nat)
    requires Stocked(c) && Legal(Open(c), es)
    requires var told := Exec(Open(c), es).told;
             j < |told| && k < |told| && told[j].TicketFor? && told[k].TicketFor?
    ensures var told := Exec(Open(c), es).told;
            && (told[j].intent == told[k].intent <==> told[j].code == told[k].code)
            && (told[j].intent == told[k].intent ==> told[j] == told[k])
  {
    RunsKeep(Open(c), es);
    var w := Exec(Open(c), es);
    assert Shows(w.orders, w.told[j]) && Shows(w.orders, w.told[k]);
    var x :| 0 <= x < |w.orders| && w.orders[x].intent == w.told[j].intent && w.orders[x].ticket == w.told[j].code
             && w.orders[x].slug == w.told[j].slug && w.orders[x].key == w.told[j].key;
    var y :| 0 <= y < |w.orders| && w.orders[y].intent == w.told[k].intent && w.orders[y].ticket == w.told[k].code
             && w.orders[y].slug == w.told[k].slug && w.orders[y].key == w.told[k].key;
    assert x < y ==> w.orders[x].intent != w.orders[y].intent && w.orders[x].ticket != w.orders[y].ticket;
    assert y < x ==> w.orders[y].intent != w.orders[x].intent && w.orders[y].ticket != w.orders[x].ticket;
  }

  /** The ticket is the first row's: the one the payment bought, and the payment settled. */
  lemma AnswersShowTheFirstRow(c: Catalogue, es: seq<Step>, k: nat)
    requires Stocked(c) && Legal(Open(c), es)
    requires k < |Exec(Open(c), es).told| && Exec(Open(c), es).told[k].TicketFor?
    ensures var w := Exec(Open(c), es);
            var order := ByIntent(w.orders, w.told[k].intent);
            && order.Some? && order.value.ticket == w.told[k].code
            && order.value.slug == w.told[k].slug && order.value.key == w.told[k].key && w.told[k].intent in w.paid
  {
    RunsKeep(Open(c), es);
    var w := Exec(Open(c), es);
    assert Shows(w.orders, w.told[k]);
    var x :| 0 <= x < |w.orders| && w.orders[x].intent == w.told[k].intent && w.orders[x].ticket == w.told[k].code
             && w.orders[x].slug == w.told[k].slug && w.orders[x].key == w.told[k].key;
    RowIs(w.orders, x);
  }

  ghost function Codes(orders: seq<Order>): set<Code> { set o | o in orders :: o.ticket }

  ghost function Intents(orders: seq<Order>): set<Intent> { set o | o in orders :: o.intent }

  lemma {:induction false} ApartCounts(orders: seq<Order>)
    requires Apart(orders)
    ensures |Codes(orders)| == |orders| == |Intents(orders)|
  {
    if orders != [] {
      var rest, last := orders[..|orders| - 1], orders[|orders| - 1];
      ApartCounts(rest);
      assert orders == rest + [last];
      assert Codes(orders) == Codes(rest) + {last.ticket} && Intents(orders) == Intents(rest) + {last.intent};
      assert last.ticket !in Codes(rest) && last.intent !in Intents(rest);
    }
  }

  /** As many codes were issued as intents were recorded, and no more than payments that settled. */
  lemma CodesAreIntents(c: Catalogue, es: seq<Step>)
    requires Stocked(c) && Legal(Open(c), es)
    ensures var w := Exec(Open(c), es);
            |Codes(w.orders)| == |Intents(w.orders)| == |w.orders| <= |w.paid| && Intents(w.orders) <= w.paid
  {
    RunsKeep(Open(c), es);
    var w := Exec(Open(c), es);
    ApartCounts(w.orders);
    assert w.paid == Intents(w.orders) + (w.paid - Intents(w.orders));
  }

  /** The branch for a row whose item is gone is never taken. */
  lemma BoughtItemsStay(c: Catalogue, es: seq<Step>, k: nat)
    requires Stocked(c) && Legal(Open(c), es) && k < |Exec(Open(c), es).told|
    ensures !Exec(Open(c), es).told[k].OrderItemMissing?
  {
    RunsKeep(Open(c), es);
  }

  /** A recorded payment is answered from its row at once, at any item that derives its intent. */
  lemma RecordedIsAnsweredAtOnce(w: World, k: nat, id: nat, slug: Slug, key: Slug, d: Delegation)
    requires Inv(w) && k < |w.orders| && id !in w.runs
    requires slug in w.catalogue.sellers && w.catalogue.sellers[slug].hosted && (slug, key) in w.catalogue.items
    requires DeriveIntent(w.catalogue.sellers[slug], w.catalogue.items[(slug, key)], d) == w.orders[k].intent
    ensures var o := w.orders[k];
            Do(w, Ask(id, slug, key, Some(d))) == w.(told := w.told + [TicketFor(o.intent, o.ticket, o.slug, o.key)])
  {
    RowIs(w.orders, k);
    TicketShows(w.catalogue, w.orders, w.paid, w.orders[k], k, slug, key);
  }

  // ---- what each request is answered -----------------------------------------------------------------

  /** The row names its payment: the token, and who paid how much in it. */
  predicate RowNames(o: Order) { o.intent.asset == 9 && o.payer == o.intent.payer && o.amount == o.intent.amount }

  /** A request that pays is for the item's price, to the shop's vendor. */
  predicate RunNames(r: Run) { r.intent.asset == 9 && r.item.price == r.intent.amount && r.seller.payTo == r.intent.payTo }

  ghost predicate AllNamed(w: World) {
    (forall k :: 0 <= k < |w.orders| ==> RowNames(w.orders[k])) && (forall id :: id in w.runs ==> RunNames(w.runs[id]))
  }

  lemma {:induction false} NamesKept(w: World, es: seq<Step>)
    requires AllNamed(w) && Legal(w, es)
    ensures AllNamed(Exec(w, es))
    decreases |es|
  {
    if es != [] {
      NamesKept(Do(w, es[0]), es[1..]);
    }
  }

  /** Over every run, each row names the payment it was written for. */
  lemma RowsNameTheirPayments(c: Catalogue, es: seq<Step>, k: nat)
    requires Stocked(c) && Legal(Open(c), es) && k < |Exec(Open(c), es).orders|
    ensures var o := Exec(Open(c), es).orders[k];
            o.intent.asset == 9 && o.payer == o.intent.payer && o.amount == o.intent.amount
  {
    NamesKept(Open(c), es);
  }

  /**
   * A request for an item: refused for a shop that is not hosted, then for an item it does not have, then for want
   * of a payment. The payment it carries is of the item's price, to that shop's vendor: if it has a row, the row
   * answers; if not, and only then, the request goes on to pay for that item.
   */
  lemma AskIsAnswered(w: World, id: nat, slug: Slug, key: Slug, header: Option<Delegation>)
    requires Inv(w) && id !in w.runs
    ensures var w' := Do(w, Ask(id, slug, key, header));
            if slug !in w.catalogue.sellers || !w.catalogue.sellers[slug].hosted then w' == w.(told := w.told + [UnknownShop])
            else if (slug, key) !in w.catalogue.items then w' == w.(told := w.told + [UnknownItem])
            else if header.None? then w' == w.(told := w.told + [NoPayment])
            else
              var seller, item, d := w.catalogue.sellers[slug], w.catalogue.items[(slug, key)], header.value;
              var i := Intent.Intent(9, d.payer, seller.payTo, item.price, d.leaf);
              && (forall k :: 0 <= k < |w.orders| && w.orders[k].intent == i ==>
                    var o := w.orders[k]; w' == w.(told := w.told + [TicketFor(i, o.ticket, o.slug, o.key)]))
              && ((forall k :: 0 <= k < |w.orders| ==> w.orders[k].intent != i) ==>
                    w' == w.(runs := w.runs[id := Run(slug, key, seller, item, i)]))
  {
    if slug in w.catalogue.sellers && w.catalogue.sellers[slug].hosted && (slug, key) in w.catalogue.items && header.Some? {
      var seller, item, d := w.catalogue.sellers[slug], w.catalogue.items[(slug, key)], header.value;
      var i := Intent.Intent(9, d.payer, seller.payTo, item.price, d.leaf);
      ByIntentFinds(w.orders, i);
      forall k | 0 <= k < |w.orders| && w.orders[k].intent == i
        ensures var o := w.orders[k];
                Do(w, Ask(id, slug, key, header)) == w.(told := w.told + [TicketFor(i, o.ticket, o.slug, o.key)])
      {
        RecordedIsAnsweredAtOnce(w, k, id, slug, key, d);
      }
    }
  }

  /**
   * The payment of a request is confirmed: with no row on file, one is written if the disk takes it and its code is
   * new, for the item the request was for, with the payment and the transaction that settled it; and the answer is
   * that row's. A row on file answers instead, whatever it was for. Otherwise nothing is written and the answer says so.
   */
  lemma ConfirmIsAnswered(w: World, id: nat, tx: Option<Hash>, minted: Code, diskOk: bool)
    requires Inv(w) && AllNamed(w) && id in w.runs && w.runs[id].intent in w.paid
    ensures var run, w' := w.runs[id], Do(w, Confirm(id, tx, minted, diskOk));
            && w'.runs == w.runs - {id}
            && (!diskOk ==> w'.orders == w.orders && w'.told == w.told + [OrderNotRecorded])
            && (forall k :: diskOk && 0 <= k < |w.orders| && w.orders[k].intent == run.intent ==>
                  var o := w.orders[k]; w'.orders == w.orders && w'.told == w.told + [TicketFor(o.intent, o.ticket, o.slug, o.key)])
            && (diskOk && (forall k :: 0 <= k < |w.orders| ==> w.orders[k].intent != run.intent) ==>
                  if exists k :: 0 <= k < |w.orders| && w.orders[k].ticket == minted
                  then w'.orders == w.orders && w'.told == w.told + [OrderNotRecorded]
                  else
                    && w'.orders == w.orders + [Order(run.slug, run.key, run.intent, minted, run.intent.payer, run.intent.amount, tx)]
                    && w'.told == w.told + [TicketFor(run.intent, minted, run.slug, run.key)])
  {
    var run := w.runs[id];
    ByIntentFinds(w.orders, run.intent);
    forall k | diskOk && 0 <= k < |w.orders| && w.orders[k].intent == run.intent
      ensures ByIntent(w.orders, run.intent) == Some(w.orders[k])
      ensures Ticket(w.catalogue, run.intent, w.orders[k], run.slug, run.key)
              == TicketFor(run.intent, w.orders[k].ticket, w.orders[k].slug, w.orders[k].key)
    {
      RowIs(w.orders, k);
      TicketShows(w.catalogue, w.orders, w.paid, w.orders[k], k, run.slug, run.key);
    }
  }

  /**
   * A payment that settled while its row could not be written is not lost, although the route's
   * comment says a retry cannot recover it: the same header goes back to the paywall, and the
   * facilitator's recorded settlement writes the row then.
   */
  lemma LostOrderIsRecovered(w: World, id: nat, d: Delegation, tx: Option<Hash>, lost: Code, minted: Code)
    requires Inv(w) && id in w.runs && w.runs[id].intent in w.paid
    requires var run := w.runs[id];
             && run.slug in w.catalogue.sellers && w.catalogue.sellers[run.slug] == run.seller && run.seller.hosted
             && w.catalogue.items[(run.slug, run.key)] == run.item && run.intent == DeriveIntent(run.seller, run.item, d)
             && ByIntent(w.orders, run.intent).None? && !TicketTaken(w.orders, minted)
    ensures var run := w.runs[id];
            var es := [Confirm(id, tx, lost, false), Ask(id, run.slug, run.key, Some(d)), Confirm(id, tx, minted, true)];
            && Legal(w, es)
            && Exec(w, es).told == w.told + [OrderNotRecorded, TicketFor(run.intent, minted, run.slug, run.key)]
            && Exec(w, es).runs == w.runs - {id}
  {
    var run := w.runs[id];
    var e1, e2, e3 := Confirm(id, tx, lost, false), Ask(id, run.slug, run.key, Some(d)), Confirm(id, tx, minted, true);
    var w1 := Do(w, e1);
    assert w1 == w.(runs := w.runs - {id}, told := w.told + [OrderNotRecorded]);
    var w2 := Do(w1, e2);
    assert w2 == w1.(runs := w1.runs[id := run]);
    var w3 := Do(w2, e3);
    assert w3.told == w.told + [OrderNotRecorded, TicketFor(run.intent, minted, run.slug, run.key)];
    RunsInto(w2, e3, []);
    RunsInto(w1, e2, [e3] + []);
    RunsInto(w, e1, [e2] + ([e3] + []));
    assert [e1, e2, e3] == [e1] + ([e2] + ([e3] + []));
  }

  // ---- with the settlement underneath ------------------------------------------------------------------------

  /** The payments the facilitator's journal shows as settled. */
  ghost predicate PaidIn(rows: seq<Row>, paid: set<Intent>) {
    forall i :: i in paid <==> RR.Ended(rows, i) && !Get(rows, i).value.terminal.value.ending.Failed()
  }

  /**
   * The second confirmation is the facilitator's own: after any settlement run, `/verify` accepts the
   * payment again and `/settle` answers its one row, so the seller serves it under the same transaction.
   */
  lemma LostOrderIsServedAgain(u: RR.Setup, es: seq<RR.Occurrence>, w: World, id: nat, d: Delegation, lost: Code, minted: Code)
    requires RR.Legal(u, RR.Start(), es) && Inv(w) && PaidIn(RR.Exec(u, RR.Start(), es).proc.tables.rows, w.paid)
    requires id in w.runs && w.runs[id].intent in w.paid
    requires var run := w.runs[id];
             && run.slug in w.catalogue.sellers && w.catalogue.sellers[run.slug] == run.seller && run.seller.hosted
             && w.catalogue.items[(run.slug, run.key)] == run.item && run.intent == DeriveIntent(run.seller, run.item, d)
             && ByIntent(w.orders, run.intent).None? && !TicketTaken(w.orders, minted)
    ensures var run, rows := w.runs[id], RR.Exec(u, RR.Start(), es).proc.tables.rows;
            && RR.Ended(rows, run.intent)
            && var tx := Some(Get(rows, run.intent).value.claim.hash);
            && Wire.PresentedAgain(rows, run.intent) == Wire.Serve(tx)
            && var steps := [Confirm(id, tx, lost, false), Ask(id, run.slug, run.key, Some(d)), Confirm(id, tx, minted, true)];
               Legal(w, steps) && Exec(w, steps).told == w.told + [OrderNotRecorded, TicketFor(run.intent, minted, run.slug, run.key)]
  {
    var i, rows := w.runs[id].intent, RR.Exec(u, RR.Start(), es).proc.tables.rows;
    Wire.RepeatedOfferIff(u, es, i);
    Wire.EndedIn(u, es, i);
    Wire.WordsDiffer();
    LostOrderIsRecovered(w, id, d, Some(Get(rows, i).value.claim.hash), lost, minted);
  }
}
