// What the invariant says to a reader of the database, after any run from the
// empty one.
module Statements {
  import opened Basics
  import opened Tables
  import opened Movements
  import opened Selling
  import opened Automation
  import opened Confirmation
  import opened Checkout
  import opened PaymentService
  import opened Books
  import opened Preservation
  import opened Runs
  import opened History

  /** A database that some allowed run of commands leads to. */
  ghost predicate Reachable(w: World) {
    exists offers :: Leads(EmptyWorld(offers), w)
  }

  lemma ReachableInv(w: World)
    requires Reachable(w)
    ensures Inv(w.db)
  {
    var offers :| Leads(EmptyWorld(offers), w);
    EmptyInv(offers);
    RunKeepsInv(EmptyWorld(offers), w);
  }

  /** A run may go on by any allowed command. */
  lemma ReachableStep(w: World, cmd: Cmd, after: World)
    requires Reachable(w) && Moves(w, cmd, after)
    ensures Reachable(after)
  {
    var offers :| Leads(EmptyWorld(offers), w);
    assert Leads(EmptyWorld(offers), after);
  }

  // Exactly once. An order's rows are those of every event that names it, linked or not.

  /** Some stored event with the id names the order. */
  predicate Names(events: seq<Event>, id: EventId, o: OrderId) {
    exists i :: 0 <= i < |events| && events[i].id == id && events[i].reference == o
  }

  function SaleNaming(events: seq<Event>, o: OrderId): Sale -> bool { (s: Sale) => Names(events, s.event, o) }

  function EntryNaming(events: seq<Event>, o: OrderId): Entry -> bool { (x: Entry) => Names(events, x.event, o) }

  predicate SaleNames(db: Db, id: SaleId, o: OrderId) {
    exists i :: 0 <= i < |db.sales| && db.sales[i].id == id && Names(db.events, db.sales[i].event, o)
  }

  function LineNaming(db: Db, o: OrderId): SaleLine -> bool { (l: SaleLine) => SaleNames(db, l.sale, o) }

  function SalesOf(db: Db, o: OrderId): seq<Sale> { Where(db.sales, SaleNaming(db.events, o)) }

  function EntriesOf(db: Db, o: OrderId): seq<Entry> { Where(db.entries, EntryNaming(db.events, o)) }

  function LinesOf(db: Db, o: OrderId): seq<SaleLine> { Where(db.lines, LineNaming(db, o)) }

  function ReceiptsOf(db: Db, o: OrderId): seq<Receipt> { Where(db.receipts, ReceiptOf(o)) }

  function MovesOf(db: Db, o: OrderId): seq<Movement> { Where(db.movements, SoldFor(o)) }

  /** A sale's event names exactly the order whose payment is linked to it. */
  lemma SoldNamesLinked(db: Db, e: EventId, o: OrderId)
    requires Linkage(db.payments, db.orders, db.events) && Owned(db) && EventSold(db.sales, e)
    ensures Names(db.events, e, o)
            <==> o in db.payments && Settled(db.payments[o]) && db.payments[o].event == Some(e)
  {
    var i :| 0 <= i < |db.sales| && db.sales[i].event == e;
    assert db.sales[i] in db.sales && SaleOwned(db.payments, db.sales[i]);
    var o' :| o' in db.payments && Settled(db.payments[o']) && db.payments[o'].event == Some(e);
    LinkNamesOnly(db, o', o);
    if o in db.payments && Settled(db.payments[o]) && db.payments[o].event == Some(e) {
      LinkNamesOnly(db, o, o);
    }
  }

  /** The event of a link names the linked order and no other. */
  lemma LinkNamesOnly(db: Db, o: OrderId, other: OrderId)
    requires Linkage(db.payments, db.orders, db.events)
    requires o in db.payments && db.payments[o].event.Some?
    ensures Names(db.events, db.payments[o].event.value, other) <==> other == o
  {
    assert LinkedToRow(db.events, o, db.payments[o]);
    var e :| e in db.events && EventFits(e, o, db.payments[o]);
    var i :| 0 <= i < |db.events| && db.events[i] == e;
    forall e' | e' in db.events && e'.id == e.id ensures e' == e {
      SameEventRow(db.events, e, e');
    }
  }

  lemma SalesOfLinked(db: Db, o: OrderId)
    requires Linkage(db.payments, db.orders, db.events) && Owned(db)
    requires o in db.payments && Settled(db.payments[o])
    ensures SalesOf(db, o) == Where(db.sales, OfEvent(db.payments[o].event.value))
    ensures EntriesOf(db, o) == Where(db.entries, EntryOf(db.payments[o].event.value))
  {
    var e := db.payments[o].event.value;
    forall id | EventSold(db.sales, id) ensures Names(db.events, id, o) <==> id == e {
      SoldNamesLinked(db, id, o);
    }
    SalesAreSold(db.sales);
    WhereSame(db.sales, SaleNaming(db.events, o), OfEvent(e));
    WhereSame(db.entries, EntryNaming(db.events, o), EntryOf(e));
  }

  lemma SalesAreSold(sales: seq<Sale>)
    ensures forall s :: s in sales ==> EventSold(sales, s.event)
  {
    forall s | s in sales ensures EventSold(sales, s.event) {
      var i :| 0 <= i < |sales| && sales[i] == s;
    }
  }

  lemma LinesOfLinked(db: Db, o: OrderId, s: Sale)
    requires UniqueSales(db.sales) && SalesOf(db, o) == [s]
    ensures LinesOf(db, o) == Where(db.lines, LineOf(s.id))
  {
    WhereMember(db.sales, SaleNaming(db.events, o));
    assert s in SalesOf(db, o);
    var k :| 0 <= k < |db.sales| && db.sales[k] == s;
    forall i | 0 <= i < |db.sales| && Names(db.events, db.sales[i].event, o) ensures db.sales[i] == s {
      assert db.sales[i] in SalesOf(db, o);
    }
    WhereSame(db.lines, LineNaming(db, o), LineOf(s.id));
  }

  /** What a settled order has, with its rows looked up by the order alone. */
  ghost predicate OrderChain(db: Db, o: OrderId, p: Payment, s: Sale) {
    && p.event == Some(s.event) && s.business == p.business && s.currency == p.currency
    && SalesOf(db, o) == [s]
    && LinesExact(s.id, p.lines, LinesOf(db, o))
    && EntriesOf(db, o) == [RevenueEntry(s), CogsEntry(s, CartCost(p.lines))]
    && ReceiptsOf(db, o) == [ReceiptFor(s, o, LinesOf(db, o))]
    && MovesFor(p.business, p.lines, MovesOf(db, o))
  }

  lemma ReachableChain(w: World, o: OrderId) returns (s: Sale)
    requires Reachable(w) && o in w.db.payments && Settled(w.db.payments[o])
    ensures s in w.db.sales && OrderChain(w.db, o, w.db.payments[o], s)
  {
    ReachableInv(w);
    assert Chained(w.db, o);
    s :| s in w.db.sales && ChainOf(w.db, o, w.db.payments[o], s);
    SalesOfLinked(w.db, o);
    LinesOfLinked(w.db, o, s);
  }

  /** A confirmed checkout order has exactly one of everything and one sale line per frozen line,
      counting the rows of every event that names the order. */
  lemma SettledExactlyOnce(w: World, o: OrderId)
    requires Reachable(w) && o in w.db.payments && Settled(w.db.payments[o])
    ensures var p := w.db.payments[o];
            && |SalesOf(w.db, o)| == 1
            && var s := SalesOf(w.db, o)[0];
               && p.event == Some(s.event)
               && EntriesOf(w.db, o) == [RevenueEntry(s), CogsEntry(s, CartCost(p.lines))]
               && LinesExact(s.id, p.lines, LinesOf(w.db, o))
               && ReceiptsOf(w.db, o) == [ReceiptFor(s, o, LinesOf(w.db, o))]
               && |MovesOf(w.db, o)| == |p.lines|
  {
    var s := ReachableChain(w, o);
  }

  /** An order that is not confirmed, or buys a subscription, or was never made, has no sale, no
      ledger entry, no sale line, no movement and no receipt. */
  lemma UnsettledHasNothing(w: World, o: OrderId)
    requires Reachable(w) && !(o in w.db.payments && Settled(w.db.payments[o]))
    ensures SalesOf(w.db, o) == [] && EntriesOf(w.db, o) == [] && LinesOf(w.db, o) == []
    ensures MovesOf(w.db, o) == [] && ReceiptsOf(w.db, o) == []
  {
    ReachableInv(w);
    UnsettledUnsold(w.db, o);
    if o in w.db.payments {
      assert Chained(w.db, o);
    } else {
      NoChainYet(w.db, o);
    }
  }

  lemma UnsettledUnsold(db: Db, o: OrderId)
    requires Linkage(db.payments, db.orders, db.events) && Owned(db)
    requires !(o in db.payments && Settled(db.payments[o]))
    ensures SalesOf(db, o) == [] && EntriesOf(db, o) == [] && LinesOf(db, o) == []
  {
    forall id | EventSold(db.sales, id) ensures !Names(db.events, id, o) {
      SoldNamesLinked(db, id, o);
    }
    SalesAreSold(db.sales);
    WhereNone(db.sales, SaleNaming(db.events, o));
    WhereNone(db.entries, EntryNaming(db.events, o));
    WhereNone(db.lines, LineNaming(db, o));
  }

  lemma SameEventRow(events: seq<Event>, e: Event, e': Event)
    requires UniqueEvents(events) && e in events && e' in events && e.id == e'.id
    ensures e == e'
  {
    var i :| 0 <= i < |events| && events[i] == e;
    var j :| 0 <= j < |events| && events[j] == e';
    assert !(i < j) && !(j < i);
  }

  /** No confirmation and no allowed outside event ever meets the error "already confirmed elsewhere". */
  lemma NeverConfirmedElsewhere(w: World, c: ConfirmArgs, e: Event, id: SaleId)
    requires Reachable(w)
    ensures ConfirmWorld(w, c) != Err(ConfirmedElsewhere)
    ensures !StraySale(w.db, e, id) ==> EventWorld(w, e, id).1 != Err(ConfirmedElsewhere)
  {
    ReachableInv(w);
    if c.order in w.db.payments && w.db.payments[c.order].event.None? {
      var p := w.db.payments[c.order];
      ConfirmIsDirect(w.db, c);
      if Sell(w.db.products, p.business, c.order, c.saleId, p.lines).Err? {
        SellErrors(w.db.products, p.business, c.order, c.saleId, p.lines);
      }
    }
    if !StraySale(w.db, e, id) {
      NewEventKeepsInv(w, e, id);
    }
  }

  /** When the confirmation of an unlinked checkout order succeeds, in the reader's terms. */
  lemma ConfirmSucceedsIff(w: World, c: ConfirmArgs)
    requires Reachable(w) && c.order in w.db.payments
    requires w.db.payments[c.order].event.None? && w.db.payments[c.order].purpose == Purpose.Checkout
    ensures var p := w.db.payments[c.order];
            ConfirmWorld(w, c).Ok? <==>
              && !EventIdTaken(w.db.events, c.eventId) && !SaleIdTaken(w.db.sales, c.saleId) && c.order != ""
              && Sellable(w.db.products, p.business, p.lines) && Covered(w.db.products, p.lines)
  {
    ReachableInv(w);
    var p := w.db.payments[c.order];
    ConfirmIsDirect(w.db, c);
    LinesArePositive(w.db, c.order);
    GreedyIsAggregate(w.db.products, p.business, c.order, c.saleId, p.lines);
  }

  /** Only four of the six statuses occur, and a PAID payment is linked to a confirmed event row
      that names its order. */
  lemma StatusesReached(w: World, o: OrderId)
    requires Reachable(w) && o in w.db.payments
    ensures w.db.payments[o].status in {Pending, Paid, Failed, Expired}
    ensures w.db.payments[o].status == Paid ==>
              exists e :: e in w.db.events && EventFits(e, o, w.db.payments[o])
  {
    ReachableInv(w);
    assert LinkedToRow(w.db.events, o, w.db.payments[o]) && StatusFits(w.db.payments[o]);
  }

  // Reconciliation.

  /** The sum of a measure over a bag. */
  ghost function BagSum<T>(bag: multiset<T>, f: T -> int): int {
    if bag == multiset{} then 0
    else
      var x :| x in bag;
      BagSum(bag - multiset{x}, f) + f(x)
  }

  lemma {:induction false} BagSumTake<T>(bag: multiset<T>, f: T -> int, y: T)
    requires y in bag
    ensures BagSum(bag, f) == BagSum(bag - multiset{y}, f) + f(y)
    decreases |bag|
  {
    var x :| x in bag && BagSum(bag, f) == BagSum(bag - multiset{x}, f) + f(x);
    if x != y {
      BagSumTake(bag - multiset{x}, f, y);
      BagSumTake(bag - multiset{y}, f, x);
      assert bag - multiset{x} - multiset{y} == bag - multiset{y} - multiset{x};
    }
  }

  function QuantityOf(id: ProductId): ReceiptLine -> int {
    (l: ReceiptLine) => if l.product == id then l.quantity else 0
  }

  function SoldQuantity(id: ProductId): SaleLine -> int {
    (l: SaleLine) => if l.product == id then l.quantity else 0
  }

  lemma {:induction false} ReceiptQuantities(lines: seq<SaleLine>, id: ProductId)
    ensures BagSum(ReceiptLinesOf(lines), QuantityOf(id)) == SumOf(lines, SoldQuantity(id))
  {
    if lines != [] {
      var n := |lines| - 1;
      var l := ReceiptLine(lines[n].product, lines[n].quantity, lines[n].unitPrice);
      ReceiptQuantities(lines[..n], id);
      BagSumTake(ReceiptLinesOf(lines), QuantityOf(id), l);
      assert ReceiptLinesOf(lines) - multiset{l} == ReceiptLinesOf(lines[..n]);
    }
  }

  lemma {:induction false} LineQuantities(sale: SaleId, snaps: seq<Snapshot>, lines: seq<SaleLine>, id: ProductId)
    requires LinesExact(sale, snaps, lines)
    ensures SumOf(lines, SoldQuantity(id)) == Demand(snaps, id)
  {
    if snaps != [] {
      LineQuantities(sale, snaps[..|snaps| - 1], lines[..|snaps| - 1], id);
    }
  }

  lemma {:induction false} MoveQuantities(b: BusinessId, snaps: seq<Snapshot>, moves: seq<Movement>, id: ProductId)
    requires MovesFor(b, snaps, moves)
    ensures SumOf(moves, Delta(id)) == -Demand(snaps, id)
  {
    if snaps != [] {
      MoveQuantities(b, snaps[..|snaps| - 1], moves[..|snaps| - 1], id);
    }
  }

  /** For every confirmed order and product the frozen cart, the sale lines, the stock movements and
      the receipt agree on the quantity. */
  lemma QuantitiesReconcile(w: World, o: OrderId, id: ProductId)
    requires Reachable(w) && o in w.db.payments && Settled(w.db.payments[o])
    ensures var wanted := Demand(w.db.payments[o].lines, id);
            && |ReceiptsOf(w.db, o)| == 1
            && SumOf(LinesOf(w.db, o), SoldQuantity(id)) == wanted
            && SumOf(MovesOf(w.db, o), Delta(id)) == -wanted
            && BagSum(ReceiptsOf(w.db, o)[0].lines, QuantityOf(id)) == wanted
  {
    var s := ReachableChain(w, o);
    ChainQuantities(w.db, o, w.db.payments[o], s, id);
  }

  lemma ChainQuantities(db: Db, o: OrderId, p: Payment, s: Sale, id: ProductId)
    requires OrderChain(db, o, p, s)
    ensures SumOf(LinesOf(db, o), SoldQuantity(id)) == Demand(p.lines, id)
    ensures SumOf(MovesOf(db, o), Delta(id)) == -Demand(p.lines, id)
    ensures BagSum(ReceiptLinesOf(LinesOf(db, o)), QuantityOf(id)) == Demand(p.lines, id)
  {
    LineQuantities(s.id, p.lines, LinesOf(db, o), id);
    ReceiptQuantities(LinesOf(db, o), id);
    MoveQuantities(p.business, p.lines, MovesOf(db, o), id);
  }

  /** All rows of a confirmed order, its event and its products belong to the payment's business. */
  lemma OneBusiness(w: World, o: OrderId)
    requires Reachable(w) && o in w.db.payments && Settled(w.db.payments[o])
    ensures var b := w.db.payments[o].business;
            && EventOfBusiness(w.db, o, b)
            && (forall s :: s in SalesOf(w.db, o) ==> s.business == b)
            && (forall x :: x in EntriesOf(w.db, o) ==> x.business == b)
            && (forall m :: m in MovesOf(w.db, o) ==> m.business == b)
            && MovedProductsOf(w.db.products, MovesOf(w.db, o), b)
  {
    var s := ReachableChain(w, o);
    ChainBusiness(w.db, o, w.db.payments[o], s);
    ReachableEvent(w, o);
    ReachableMoves(w, o);
  }

  /** The linked event is of the business and names the order. */
  ghost predicate EventOfBusiness(db: Db, o: OrderId, b: BusinessId)
    requires o in db.payments
  {
    exists e :: e in db.events && db.payments[o].event == Some(e.id) && e.business == b && e.reference == o
  }

  /** The moved products are of the business. */
  ghost predicate MovedProductsOf(products: map<ProductId, Product>, moves: seq<Movement>, b: BusinessId) {
    forall m :: m in moves && m.business == b ==> m.product in products && products[m.product].business == b
  }

  lemma ChainBusiness(db: Db, o: OrderId, p: Payment, s: Sale)
    requires OrderChain(db, o, p, s)
    ensures forall x :: x in SalesOf(db, o) ==> x.business == p.business
    ensures forall x :: x in EntriesOf(db, o) ==> x.business == p.business
    ensures forall m :: m in MovesOf(db, o) ==> m.business == p.business
  {
  }

  lemma ReachableEvent(w: World, o: OrderId)
    requires Reachable(w) && o in w.db.payments && Settled(w.db.payments[o])
    ensures EventOfBusiness(w.db, o, w.db.payments[o].business)
  {
    ReachableInv(w);
    assert LinkedToRow(w.db.events, o, w.db.payments[o]);
  }

  lemma ReachableMoves(w: World, o: OrderId)
    requires Reachable(w) && o in w.db.payments
    ensures MovedProductsOf(w.db.products, MovesOf(w.db, o), w.db.payments[o].business)
  {
    ReachableInv(w);
    MovesBelong(w.db.products, w.db.movements);
    WhereMember(w.db.movements, SoldFor(o));
  }

  lemma MovesBelong(products: map<ProductId, Product>, log: seq<Movement>)
    requires StockIsLogged(products, log)
    ensures forall m :: m in log ==> m.product in products && products[m.product].business == m.business
  {
    forall m | m in log ensures m.product in products && products[m.product].business == m.business {
      var i :| 0 <= i < |log| && log[i] == m;
    }
  }

  // Stock and money.

  /** Every product's stock is what its movement log adds up to, and is never negative. */
  lemma StockIsItsLog(w: World, id: ProductId)
    requires Reachable(w) && id in w.db.products
    ensures w.db.products[id].stock == LoggedStock(w.db.movements, id) >= 0
    ensures Balanced(w.db.movements)
  {
    ReachableInv(w);
  }

  /** For every sale of a confirmed order, its credit less its debit is the gross profit recomputed
      from its sale lines. */
  lemma SaleProfit(w: World, o: OrderId)
    requires Reachable(w) && o in w.db.payments && Settled(w.db.payments[o])
    ensures var entries := EntriesOf(w.db, o);
            && |entries| == 2 && |SalesOf(w.db, o)| == 1
            && entries[0].kind == Credit && entries[1].kind == Debit
            && entries[0].amount - entries[1].amount
               == SalesOf(w.db, o)[0].total - SumOf(LinesOf(w.db, o), LineQuantityTimesCost())
  {
    var s := ReachableChain(w, o);
    LinesCost(s.id, w.db.payments[o].lines, LinesOf(w.db, o));
  }

  /** Over any choice of events, the net cash flow and the gross profit that the dashboard computes
      from the ledger are both the sum of the gross profits of the sales of those events. */
  lemma DashboardAgrees(w: World, b: BusinessId, span: Span)
    requires Reachable(w)
    ensures NetCashflow(w.db.entries, b, span) == SumOf(w.db.sales, ProfitIn(w.db.lines, b, span))
    ensures DashboardProfit(w.db.entries, b, span) == SumOf(w.db.sales, ProfitIn(w.db.lines, b, span))
  {
    ReachableInv(w);
    assert Reconciled(w.db.entries, w.db.sales, w.db.lines, b, span);
  }

  // Subscriptions.

  /** A subscription order has exactly one active subscription once confirmed and none before, with
      the term of its offer; a business has at most one trial. */
  lemma SubscriptionOnce(w: World, o: OrderId, b: BusinessId)
    requires Reachable(w) && o in w.db.payments && w.db.payments[o].purpose == Subscribing
    ensures var p := w.db.payments[o];
            var subs := Where(w.db.subscriptions, SubscriptionOf(o));
            if p.event.Some? then |subs| == 1 && ActivatedFor(w.db.offers, o, p, subs[0]) else subs == []
    ensures |Where(w.db.subscriptions, TrialOf(b))| <= 1
  {
    ReachableInv(w);
    assert SubscribedOnce(w.db, o);
  }

  /** Confirming a subscription order books no sale, entry, movement, line or receipt, moves no
      stock and runs no automation. */
  lemma SubscriptionBooksNothing(w: World, c: ConfirmArgs)
    requires Reachable(w) && c.order in w.db.payments && w.db.payments[c.order].purpose == Subscribing
    ensures var after := AfterConfirm(w, c);
            && SameTables(w.db, after.db) && after.db.products == w.db.products
            && after.rules == w.rules && after.executions == w.executions
  {
    ReachableInv(w);
    if FirstConfirm(w.db, c) {
      FirstConfirmShape(w, c);
      ConfirmIsDirect(w.db, c);
    }
  }

  // Automation.

  function OnCart(id: ProductId): Snapshot -> bool {
    (s: Snapshot) => s.CartLine? && s.product == id
  }

  /** The number of cart lines of a product. */
  function CartLines(snaps: seq<Snapshot>, id: ProductId): nat {
    |Where(snaps, OnCart(id))|
  }

  /** A product of the frozen cart that has a threshold and less stock than that once the whole
      cart is taken out. */
  predicate EndsLow(products: map<ProductId, Product>, snaps: seq<Snapshot>, id: ProductId) {
    && id in products && CartLines(snaps, id) > 0
    && 0 < products[id].threshold && products[id].stock - Demand(snaps, id) < products[id].threshold
  }

  /** The report lists exactly the products that the cart leaves low, once for each of their lines,
      with the stock that is left. */
  ghost predicate Reports(products: map<ProductId, Product>, snaps: seq<Snapshot>, low: multiset<LowStockItem>) {
    forall x :: low[x] == if EndsLow(products, snaps, x.product)
                             && x.name == products[x.product].name
                             && x.threshold == products[x.product].threshold
                             && x.stock == products[x.product].stock - Demand(snaps, x.product)
                          then CartLines(snaps, x.product) else 0
  }

  /** The rule table with the default rule of the business, added if it has no rule at all for
      confirmed payments. */
  function RulesWithDefault(rules: seq<Rule>, b: BusinessId): seq<Rule> {
    if exists i :: 0 <= i < |rules| && rules[i].business == b && rules[i].trigger == "payment_confirmed" then rules
    else rules + [Rule(b, "payment_confirmed", Typed(Some("stock_below_threshold")), "notify_merchant", true)]
  }

  lemma DefaultRuleWritten(rules: seq<Rule>, b: BusinessId)
    ensures EnsureDefaultRule(rules, b) == RulesWithDefault(rules, b)
  {
  }

  /** The active rules of the business that compare the stock after a confirmed payment. */
  function StockRuleOf(b: BusinessId): Rule -> bool {
    (r: Rule) => r.business == b && r.active && r.trigger == "payment_confirmed"
                 && r.condition == Typed(Some("stock_below_threshold"))
  }

  /** An active rule of the business for confirmed payments whose condition is no JSON object. */
  predicate BreaksOff(r: Rule, b: BusinessId) {
    r.business == b && r.active && r.trigger == "payment_confirmed" && r.condition == Malformed
  }

  /** The rules from position k on are those newer than the newest one that breaks off. */
  predicate BreaksBefore(rules: seq<Rule>, b: BusinessId, k: nat) {
    && k <= |rules| && (forall i :: k <= i < |rules| ==> !BreaksOff(rules[i], b))
    && (k > 0 ==> BreaksOff(rules[k - 1], b))
  }

  lemma HeededWritten(rules: seq<Rule>, b: BusinessId)
    ensures BreaksBefore(rules, b, Heeded(rules, b))
    ensures Where(rules[Heeded(rules, b)..], AppliesTo(b)) == Where(rules[Heeded(rules, b)..], StockRuleOf(b))
  {
    WhereSame(rules[Heeded(rules, b)..], AppliesTo(b), StockRuleOf(b));
  }

  lemma {:induction false} SameLineCount(sale: SaleId, snaps: seq<Snapshot>, lines: seq<SaleLine>, id: ProductId)
    requires LinesExact(sale, snaps, lines)
    ensures |Where(lines, OfProduct(id))| == CartLines(snaps, id)
  {
    if snaps != [] {
      SameLineCount(sale, snaps[..|snaps| - 1], lines[..|snaps| - 1], id);
    }
  }

  lemma LowAfterSale(products: map<ProductId, Product>, sale: SaleId, snaps: seq<Snapshot>, lines: seq<SaleLine>)
    requires LinesExact(sale, snaps, lines)
    ensures Reports(products, snaps, LowItems(Depleted(products, snaps), lines))
  {
    var after := Depleted(products, snaps);
    LowItemsListed(after, lines);
    forall x: LowStockItem ensures |Where(lines, OfProduct(x.product))| == CartLines(snaps, x.product) {
      SameLineCount(sale, snaps, lines, x.product);
    }
  }

  /** The automation side of a first checkout confirmation. */
  lemma ConfirmAutomates(w: World, c: ConfirmArgs)
    requires Inv(w.db) && FirstConfirm(w.db, c) && w.db.payments[c.order].purpose == Purpose.Checkout
    ensures var p := w.db.payments[c.order];
            var after := AfterConfirm(w, c);
            var sold := Sell(w.db.products, p.business, c.order, c.saleId, p.lines);
            var rules := EnsureDefaultRule(w.rules, p.business);
            && sold.Ok? && LinesExact(c.saleId, p.lines, sold.value.lines)
            && after.db.products == Depleted(w.db.products, p.lines)
            && after.rules == rules
            && after.executions == w.executions + Fired(rules, c.eventId, p.business, c.saleId,
                                                        LowItems(after.db.products, sold.value.lines))
  {
    var p := w.db.payments[c.order];
    ConfirmIsDirect(w.db, c);
    SellExact(w.db.products, p.business, c.order, c.saleId, p.lines);
    var sold := Sell(w.db.products, p.business, c.order, c.saleId, p.lines).value;
    LinesCarrySale(c.saleId, p.lines, sold.lines);
    NewLinesAlone(w.db, sold.lines, c.saleId);
  }

  /** An execution of the given event that lists exactly the products that the cart leaves low. */
  ghost predicate ReportsLow(products: map<ProductId, Product>, snaps: seq<Snapshot>, e: EventId, sale: SaleId,
                             x: Execution)
  {
    x.event == e && x.sale == sale && Reports(products, snaps, x.products)
  }

  lemma FiredMatches(products: map<ProductId, Product>, snaps: seq<Snapshot>, lines: seq<SaleLine>,
                     rules: seq<Rule>, e: EventId, b: BusinessId, sale: SaleId, k: nat)
    requires LinesExact(sale, snaps, lines) && BreaksBefore(rules, b, k)
    ensures var fired := Fired(rules, e, b, sale, LowItems(Depleted(products, snaps), lines));
            && RulesOf(fired) == (if exists id :: EndsLow(products, snaps, id)
                                  then Reversed(Where(rules[k..], StockRuleOf(b))) else [])
            && (forall x :: x in fired ==> ReportsLow(products, snaps, e, sale, x))
  {
    var low := LowItems(Depleted(products, snaps), lines);
    LowAfterSale(products, sale, snaps, lines);
    LowIsEmptyIff(products, snaps, low);
    FiredReports(rules, e, b, sale, low);
    HeededWritten(rules, b);
    assert k == Heeded(rules, b);
    if low != multiset{} {
      FiredRules(rules, e, b, sale, low);
    }
  }

  /** A newly booked sale fires each rule of its business that applies exactly once, the newest
      first, up to a rule that fails, and only if some product of the cart ends below its threshold;
      the report lists exactly those products, once per line, with the stock that is left after all
      lines. */
  lemma AutomationMatchesStock(w: World, c: ConfirmArgs) returns (k: nat)
    requires Inv(w.db) && FirstConfirm(w.db, c) && w.db.payments[c.order].purpose == Purpose.Checkout
    ensures var p := w.db.payments[c.order];
            var after := AfterConfirm(w, c);
            && w.executions <= after.executions && after.rules == RulesWithDefault(w.rules, p.business)
            && BreaksBefore(after.rules, p.business, k)
            && var fired := after.executions[|w.executions|..];
               && RulesOf(fired) == (if exists id :: EndsLow(w.db.products, p.lines, id)
                                     then Reversed(Where(after.rules[k..], StockRuleOf(p.business))) else [])
               && (forall x :: x in fired ==> ReportsLow(w.db.products, p.lines, c.eventId, c.saleId, x))
  {
    ConfirmAutomates(w, c);
    var p := w.db.payments[c.order];
    var lines := Sell(w.db.products, p.business, c.order, c.saleId, p.lines).value.lines;
    var rules := EnsureDefaultRule(w.rules, p.business);
    DefaultRuleWritten(w.rules, p.business);
    HeededWritten(rules, p.business);
    k := Heeded(rules, p.business);
    FiredMatches(w.db.products, p.lines, lines, rules, c.eventId, p.business, c.saleId, k);
    assert AfterConfirm(w, c).executions[|w.executions|..]
        == Fired(rules, c.eventId, p.business, c.saleId, LowItems(Depleted(w.db.products, p.lines), lines));
  }

  lemma LowIsEmptyIff(products: map<ProductId, Product>, snaps: seq<Snapshot>, low: multiset<LowStockItem>)
    requires Reports(products, snaps, low)
    ensures low == multiset{} <==> !exists id :: EndsLow(products, snaps, id)
  {
    if id :| EndsLow(products, snaps, id) {
      var p := products[id];
      assert low[LowStockItem(id, p.name, p.stock - Demand(snaps, id), p.threshold)] > 0;
    }
    if low != multiset{} {
      var x :| x in low;
      assert EndsLow(products, snaps, x.product);
    }
  }

  // Checkout and confirmation together.

  /** No product occurs on two lines. */
  ghost predicate DistinctProducts(snaps: seq<Snapshot>) {
    forall i, j :: 0 <= i < j < |snaps| && snaps[i].CartLine? && snaps[j].CartLine? ==>
      snaps[i].product != snaps[j].product
  }

  lemma {:induction false} DistinctDemand(snaps: seq<Snapshot>, id: ProductId)
    requires DistinctProducts(snaps)
    ensures Demand(snaps, id) == 0
            || exists i :: 0 <= i < |snaps| && snaps[i].CartLine? && snaps[i].product == id
                           && Demand(snaps, id) == snaps[i].quantity
  {
    if snaps != [] {
      var n := |snaps| - 1;
      var init := snaps[..n];
      DistinctDemand(init, id);
      if Wanted(id)(snaps[n]) != 0 {
        forall s | s in init ensures Wanted(id)(s) == 0 {
          var i :| 0 <= i < n && snaps[i] == s;
        }
        SumZero(init, Wanted(id));
      } else if Demand(init, id) != 0 {
        var i :| 0 <= i < |init| && init[i].CartLine? && init[i].product == id && Demand(init, id) == init[i].quantity;
        assert snaps[i] == init[i];
      }
    }
  }

  /** The checkout's line-by-line stock check is enough for a cart without repeated products, as
      long as the stock does not change before confirmation. */
  lemma DistinctCartIsCovered(products: map<ProductId, Product>, b: BusinessId, snaps: seq<Snapshot>)
    requires FrozenFrom(products, b, snaps) && DistinctProducts(snaps)
    ensures Sellable(products, b, snaps) && Covered(products, snaps)
  {
    forall id | id in products ensures Demand(snaps, id) <= products[id].stock || Demand(snaps, id) == 0 {
      DistinctDemand(snaps, id);
      if i :| 0 <= i < |snaps| && snaps[i].CartLine? && snaps[i].product == id
              && Demand(snaps, id) == snaps[i].quantity {
        assert snaps[i] in snaps;
      }
    }
  }

  lemma FreezePush(products: map<ProductId, Product>, b: BusinessId, raws: seq<RawLine>, raw: RawLine,
                   snaps: seq<Snapshot>, s: Snapshot)
    requires FreezeLines(products, b, raws) == Ok(snaps) && FreezeLine(products, b, raw) == Ok(s)
    ensures FreezeLines(products, b, raws + [raw]) == Ok(snaps + [s])
  {
    assert (raws + [raw])[..|raws|] == raws;
  }

  /** It is not enough with repeated products: each line fits, the cart does not. */
  lemma RepeatedProductOverdraws()
    ensures var products := map[0 := Product(1, "soda", 250, 100, 5, 0)];
            var raws := [RawLine(Some(3), None, Some(0))] + [RawLine(Some(3), None, Some(0))];
            var r := FreezeLines(products, 1, raws);
            r.Ok? && !Covered(products, r.value)
  {
    var products := map[0 := Product(1, "soda", 250, 100, 5, 0)];
    var raw := RawLine(Some(3), None, Some(0));
    var s := CartLine(0, 3, 250, 100);
    assert FreezeLines(products, 1, [raw]) == Ok([s]) by {
      FreezePush(products, 1, [], raw, [], s);
      assert [] + [raw] == [raw] && [] + [s] == [s];
    }
    FreezePush(products, 1, [raw], raw, [s], s);
    assert Demand([s], 0) == 3 by {
      DemandPush([], s, 0);
      assert [] + [s] == [s];
    }
    DemandPush([s], s, 0);
  }

  /** The payment row that a checkout creates. */
  lemma CheckoutRow(w: World, a: CheckoutArgs)
    requires Inv(w.db) && CreateCheckout(w.db, a).Ok?
    ensures var next := Exec(w, CheckOut(a)).db;
            && Inv(next) && a.order in next.payments && next.payments[a.order].event.None?
            && next.payments[a.order] == CreateCheckout(w.db, a).value.payments[a.order]
            && next.payments[a.order].purpose == Purpose.Checkout
  {
    CheckoutKeepsInv(w.db, a);
  }

  /** The row of a cart in the tables after its checkout. */
  lemma FrozenRow(w: World, a: CheckoutArgs)
    requires Inv(w.db) && CreateCheckout(w.db, a).Ok? && a.amount.None?
    ensures var next := Exec(w, CheckOut(a)).db;
            && next.products == w.db.products && next.events == w.db.events && next.sales == w.db.sales
            && a.order in next.payments && next.payments[a.order].event.None?
            && next.payments[a.order].purpose == Purpose.Checkout
            && FrozenFrom(next.products, next.payments[a.order].business, next.payments[a.order].lines)
  {
    FreezeLinesFrozen(w.db.products, a.business.value, a.lines);
  }

  /** A cart without repeated products that is confirmed before its stock moves is always booked. */
  lemma CheckoutThenConfirm(w: World, a: CheckoutArgs, c: ConfirmArgs)
    requires Reachable(w) && CreateCheckout(w.db, a).Ok? && a.amount.None?
    requires DistinctProducts(CreateCheckout(w.db, a).value.payments[a.order].lines)
    requires c.order == a.order && a.order != ""
    requires !EventIdTaken(w.db.events, c.eventId) && !SaleIdTaken(w.db.sales, c.saleId)
    ensures var after := AfterConfirm(Exec(w, CheckOut(a)), c);
            && Reachable(after) && a.order in after.db.payments && Settled(after.db.payments[a.order])
  {
    var next := Exec(w, CheckOut(a));
    ReachableInv(w);
    ReachableStep(w, CheckOut(a), next);
    FrozenRow(w, a);
    CheckoutRow(w, a);
    var p := next.db.payments[a.order];
    DistinctCartIsCovered(next.db.products, p.business, p.lines);
    FirstConfirmSettles(next, c);
  }

  lemma FirstConfirmSettles(w: World, c: ConfirmArgs)
    requires Reachable(w) && c.order in w.db.payments && c.order != ""
    requires w.db.payments[c.order].event.None? && w.db.payments[c.order].purpose == Purpose.Checkout
    requires !EventIdTaken(w.db.events, c.eventId) && !SaleIdTaken(w.db.sales, c.saleId)
    requires Sellable(w.db.products, w.db.payments[c.order].business, w.db.payments[c.order].lines)
    requires Covered(w.db.products, w.db.payments[c.order].lines)
    ensures var after := AfterConfirm(w, c);
            Reachable(after) && c.order in after.db.payments && Settled(after.db.payments[c.order])
  {
    ConfirmSucceedsIff(w, c);
    ConfirmLinks(w, c);
    ReachableStep(w, ConfirmOrder(c), AfterConfirm(w, c));
  }

  lemma ConfirmLinks(w: World, c: ConfirmArgs)
    requires Reachable(w) && FirstConfirm(w.db, c)
    ensures var after := AfterConfirm(w, c);
            && c.order in after.db.payments && after.db.payments[c.order].event.Some?
            && after.db.payments[c.order].purpose == w.db.payments[c.order].purpose
  {
    ReachableInv(w);
    FirstConfirmShape(w, c);
  }

  /** The revenue booked for a BIF cart, at whatever time and with whatever arguments it is
      confirmed, is the total of its frozen lines less a fraction of one unit. */
  lemma BookedRevenue(w: World, a: CheckoutArgs, after: World, s: Sale)
    requires Reachable(w) && CreateCheckout(w.db, a).Ok? && a.currency == Some(BIF) && a.amount.None?
    requires forall id :: id in w.db.products ==> w.db.products[id].unitPrice >= 0
    requires Leads(w.(db := CreateCheckout(w.db, a).value), after)
    requires a.order in after.db.payments && s in after.db.sales
    requires after.db.payments[a.order].event == Some(s.event)
    ensures var p := after.db.payments[a.order];
            && FrozenFrom(w.db.products, a.business.value, p.lines) && AsRequested(a.lines, p.lines)
            && 0 <= SumOf(p.lines, QuantityTimesPrice()) - s.total < 100
  {
    ReachableInv(w);
    RevenueBound(w.db, a);
    CheckoutKeepsInv(w.db, a);
    BookedAsFrozen(w.(db := CreateCheckout(w.db, a).value), after, a.order, s);
  }

  /** A sale is booked at the amount its payment had while it was unlinked, with the same cart. */
  lemma BookedAsFrozen(w: World, after: World, o: OrderId, s: Sale)
    requires Inv(w.db) && Leads(w, after)
    requires o in w.db.payments && w.db.payments[o].event.None? && w.db.payments[o].purpose == Purpose.Checkout
    requires o in after.db.payments && s in after.db.sales && after.db.payments[o].event == Some(s.event)
    ensures after.db.payments[o].lines == w.db.payments[o].lines
    ensures s.total == w.db.payments[o].TotalAmount()
  {
    CartStaysFrozen(w, after, o);
  }

  lemma MoveExtendsLog(w: World, mid: World, cmd: Cmd, after: World)
    requires Inv(w.db) && Leads(w, mid) && w.db.movements <= mid.db.movements && Moves(mid, cmd, after)
    ensures w.db.movements <= after.db.movements
  {
    RunKeepsInv(w, mid);
    LogOnlyGrows(mid, cmd);
  }

  /** The log at any time is a prefix of the log at any later time. */
  least lemma LaterLogExtends(w: World, after: World)
    requires Leads(w, after) && Inv(w.db)
    ensures w.db.movements <= after.db.movements
  {
    if w != after {
      var mid, cmd :| Leads(w, mid) && Moves(mid, cmd, after);
      LaterLogExtends(w, mid);
      MoveExtendsLog(w, mid, cmd, after);
    }
  }

  // What a stray event does.

  lemma StrayCartSells(db: Db, e: Event, id: SaleId)
    requires Linkage(db.payments, db.orders, db.events) && StraySale(db, e, id)
    ensures var p := db.payments[e.reference];
            var sold := Sell(db.products, p.business, e.reference, id, p.lines);
            sold.Ok? && sold.value.products == Depleted(db.products, p.lines)
  {
    var p := db.payments[e.reference];
    LinesArePositive(db, e.reference);
    GreedyIsAggregate(db.products, p.business, e.reference, id, p.lines);
    SellExact(db.products, p.business, e.reference, id, p.lines);
  }

  /** A stray event's sale, on its own. */
  lemma StrayEventBooks(w: World, e: Event, id: SaleId)
    requires Linkage(w.db.payments, w.db.orders, w.db.events) && Owned(w.db) && StraySale(w.db, e, id)
    ensures var p := w.db.payments[e.reference];
            var sold := Sell(w.db.products, p.business, e.reference, id, p.lines);
            && sold.Ok?
            && Exec(w, NewEvent(e, id)).db
               == Posted(WithEvent(w.db, e), SaleFor(e, p, id), e.reference, sold.value)
  {
    StrayCartSells(w.db, e, id);
    FreshEventBacking(w.db, e);
    FindSaleFinds(w.db.sales, e.id);
    TakenIds(w.db);
  }

  /** Confirming an unlinked order in a state whose look-ups find nothing in the way. */
  lemma SecondSale(mid: Db, c: ConfirmArgs)
    requires Linkage(mid.payments, mid.orders, mid.events)
    requires c.order in mid.payments && c.order != "" && mid.payments[c.order].event.None?
    requires mid.payments[c.order].purpose == Purpose.Checkout
    requires FindSale(mid.sales, c.eventId).None? && !SaleIdTaken(mid.sales, c.saleId)
    requires !EventIdTaken(mid.events, c.eventId)
    requires Sellable(mid.products, mid.payments[c.order].business, mid.payments[c.order].lines)
    requires Covered(mid.products, mid.payments[c.order].lines)
    ensures Confirm(mid, c).Ok?
    ensures |Confirm(mid, c).value.db.sales| == |mid.sales| + 1
    ensures Confirm(mid, c).value.db.products == Depleted(mid.products, mid.payments[c.order].lines)
  {
    var p := mid.payments[c.order];
    FreshEventBacking(mid, EventFor(c, p));
    LinesArePositive(mid, c.order);
    GreedyIsAggregate(mid.products, p.business, c.order, c.saleId, p.lines);
    SellExact(mid.products, p.business, c.order, c.saleId, p.lines);
  }

  /** After a stray event the order is still unlinked, so its confirmation sells the cart again. */
  lemma StrayEventSellsTwice(w: World, e: Event, id: SaleId, c: ConfirmArgs)
    requires Inv(w.db) && StraySale(w.db, e, id) && c.order == e.reference
    requires c.eventId != e.id && !EventIdTaken(w.db.events, c.eventId)
    requires c.saleId != id && !SaleIdTaken(w.db.sales, c.saleId)
    requires Covered(Depleted(w.db.products, w.db.payments[c.order].lines), w.db.payments[c.order].lines)
    ensures var p := w.db.payments[c.order];
            var after := AfterConfirm(Exec(w, NewEvent(e, id)), c).db;
            && |after.sales| == |w.db.sales| + 2
            && after.products == Depleted(Depleted(w.db.products, p.lines), p.lines)
  {
    StrayCartSells(w.db, e, id);
    StrayEventBooks(w, e, id);
    SoldAgain(w.db, e, id, c, Exec(w, NewEvent(e, id)).db);
  }

  /** The confirmation after the stray sale. */
  lemma SoldAgain(db: Db, e: Event, id: SaleId, c: ConfirmArgs, mid: Db)
    requires Inv(db) && StraySale(db, e, id) && c.order == e.reference
    requires c.eventId != e.id && !EventIdTaken(db.events, c.eventId)
    requires c.saleId != id && !SaleIdTaken(db.sales, c.saleId)
    requires mid.payments == db.payments && mid.orders == db.orders && mid.events == db.events + [e]
    requires mid.sales == db.sales + [SaleFor(e, db.payments[c.order], id)]
    requires mid.products == Depleted(db.products, db.payments[c.order].lines)
    requires Covered(mid.products, db.payments[c.order].lines)
    ensures Confirm(mid, c).Ok? && |Confirm(mid, c).value.db.sales| == |db.sales| + 2
    ensures Confirm(mid, c).value.db.products == Depleted(mid.products, db.payments[c.order].lines)
  {
    EventRowKeepsLinkage(db, e);
    MidUnsold(db, mid, e, id, c);
    SecondSale(mid, c);
  }

  lemma EventRowKeepsLinkage(db: Db, e: Event)
    requires Inv(db) && !EventIdTaken(db.events, e.id)
    ensures Linkage(db.payments, db.orders, db.events + [e])
  {
    EventRowKeepsInv(db, e);
  }

  lemma MidUnsold(db: Db, mid: Db, e: Event, id: SaleId, c: ConfirmArgs)
    requires Linkage(db.payments, db.orders, db.events) && Owned(db)
    requires e.reference in db.payments
    requires mid.sales == db.sales + [SaleFor(e, db.payments[e.reference], id)]
    requires mid.events == db.events + [e]
    requires c.eventId != e.id && !EventIdTaken(db.events, c.eventId)
    requires c.saleId != id && !SaleIdTaken(db.sales, c.saleId)
    ensures FindSale(mid.sales, c.eventId).None? && !SaleIdTaken(mid.sales, c.saleId)
    ensures !EventIdTaken(mid.events, c.eventId)
  {
    TakenIds(db);
    FindSaleFinds(mid.sales, c.eventId);
  }

  /** After every checkout of a cart without repeated products, a confirmed event from outside that
      names the order is a stray one. */
  lemma CheckoutInvitesStray(w: World, a: CheckoutArgs, e: Event, id: SaleId)
    requires Reachable(w) && CreateCheckout(w.db, a).Ok? && a.amount.None?
    requires DistinctProducts(CreateCheckout(w.db, a).value.payments[a.order].lines)
    requires Confirms(e) && e.reference == a.order && a.order != "" && Some(e.business) == a.business
    requires !EventIdTaken(w.db.events, e.id) && !SaleIdTaken(w.db.sales, id)
    ensures StraySale(Exec(w, CheckOut(a)).db, e, id)
  {
    ReachableInv(w);
    FrozenRow(w, a);
    var p := Exec(w, CheckOut(a)).db.payments[a.order];
    DistinctCartIsCovered(w.db.products, p.business, p.lines);
  }

  // One shop, one product, one cart.

  const Soda := Product(1, "soda", 250, 100, 10, 0)
  const ThreeSodas := RawLine(Some(3), None, Some(0))
  const SodaCheckout := CheckoutArgs(Some(1), [ThreeSodas], None, Some(BIF), BlinkDirect,
                                     Some(Invoice(None, None)), "order")
  const SodaEvent := Event(1, 1, PaymentConfirmed, EventConfirmed, 0, BIF, 0, BlinkDirect, "", "order")
  const SodaConfirm := ConfirmArgs("order", None, None, "", None, 0, 2, 2)

  lemma SodaShop() returns (w: World)
    ensures Reachable(w) && w.db.products == map[0 := Soda]
    ensures w.db.payments == map[] && w.db.events == [] && w.db.sales == []
  {
    var start := EmptyWorld(map[]);
    w := Exec(start, AddProduct(0, Soda));
    assert Leads(start, start);
    ReachableStep(start, AddProduct(0, Soda), w);
  }

  const SodaLine := CartLine(0, 3, 250, 100)

  lemma SodaDemand()
    ensures forall id :: Demand([SodaLine], id) == if id == 0 then 3 else 0
  {
    forall id ensures Demand([SodaLine], id) == if id == 0 then 3 else 0 {
      DemandPush([], SodaLine, id);
      assert [] + [SodaLine] == [SodaLine];
    }
  }

  lemma SodaFrozen()
    ensures FreezeLines(map[0 := Soda], 1, [ThreeSodas]) == Ok([SodaLine])
  {
    FreezePush(map[0 := Soda], 1, [], ThreeSodas, [], SodaLine);
    assert [] + [ThreeSodas] == [ThreeSodas] && [] + [SodaLine] == [SodaLine];
  }

  /** The cart of three sodas after its checkout. */
  lemma SodaOrdered() returns (w: World)
    ensures Reachable(w) && StraySale(w.db, SodaEvent, 1)
    ensures w.db.payments["order"].lines == [SodaLine] && w.db.products == map[0 := Soda]
    ensures w.db.events == [] && w.db.sales == []
  {
    var shop := SodaShop();
    w := Exec(shop, CheckOut(SodaCheckout));
    SodaFrozen();
    ReachableStep(shop, CheckOut(SodaCheckout), w);
    CheckoutInvitesStray(shop, SodaCheckout, SodaEvent, 1);
  }

  /** A reachable database and a confirmed event for which the cart is sold twice. */
  lemma StrayInstance() returns (w: World)
    ensures Reachable(w) && StraySale(w.db, SodaEvent, 1)
    ensures w.db.payments["order"].lines == [SodaLine]
    ensures var after := AfterConfirm(Exec(w, NewEvent(SodaEvent, 1)), SodaConfirm).db;
            |after.sales| == 2 && 0 in after.products && after.products[0].stock == 4
  {
    w := SodaOrdered();
    ReachableInv(w);
    SodaDemand();
    StrayEventSellsTwice(w, SodaEvent, 1, SodaConfirm);
  }
}
