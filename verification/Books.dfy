// The invariant of the confirmation chain, table by table: which payment is
// linked to which event, and what has been posted for it.
module Books {
  import opened Basics
  import opened Tables
  import opened Movements
  import opened Selling
  import opened Confirmation

  // Payments and events.

  /** A confirmed cart: the payments whose chain has been posted. */
  predicate Settled(p: Payment) { p.purpose == Checkout && p.event.Some? }

  predicate EventFits(e: Event, o: OrderId, p: Payment) {
    p.event == Some(e.id) && e.business == p.business && e.reference == o
  }

  ghost predicate UniqueEvents(events: seq<Event>) {
    forall i, j :: 0 <= i < j < |events| ==> events[i].id != events[j].id
  }

  ghost predicate LinkedToRow(events: seq<Event>, o: OrderId, p: Payment) {
    p.event.Some? ==> o != "" && exists e :: e in events && EventFits(e, o, p)
  }

  /** Only the four statuses that the services write, and PAID only with a link. */
  predicate StatusFits(p: Payment) {
    && p.status in {Pending, Paid, Failed, Expired}
    && (p.status == Paid ==> p.event.Some?)
  }

  ghost predicate LinesFit(p: Payment) {
    p.purpose == Checkout ==>
      forall s :: s in p.lines ==> s.CartLine? && s.quantity > 0
  }

  ghost predicate Linkage(payments: map<OrderId, Payment>, orders: seq<OrderId>, events: seq<Event>) {
    && UniqueEvents(events)
    && (forall o :: o in payments <==> o in orders)
    && (forall o :: o in payments ==>
          LinkedToRow(events, o, payments[o]) && StatusFits(payments[o]) && LinesFit(payments[o]))
  }

  // Sales and what belongs to them.

  predicate EventSold(sales: seq<Sale>, e: EventId) {
    exists i :: 0 <= i < |sales| && sales[i].event == e
  }

  ghost predicate UniqueSales(sales: seq<Sale>) {
    forall i, j :: 0 <= i < j < |sales| ==> sales[i].id != sales[j].id && sales[i].event != sales[j].event
  }

  ghost predicate SaleOwned(payments: map<OrderId, Payment>, s: Sale) {
    exists o :: o in payments && Settled(payments[o]) && payments[o].event == Some(s.event)
  }

  /** Rows hang on rows that exist. */
  ghost predicate Owned(db: Db) {
    && UniqueSales(db.sales)
    && (forall s :: s in db.sales ==> SaleOwned(db.payments, s))
    && (forall l :: l in db.lines ==> SaleIdTaken(db.sales, l.sale))
    && (forall x :: x in db.entries ==> EventSold(db.sales, x.event))
    && (forall r :: r in db.receipts ==> r.order in db.payments)
    && (forall m :: m in db.movements && m.kind == SaleOut && m.reference.Some? ==>
          m.reference.value in db.payments)
  }

  /** The movements of a cart: one per line, in line order, with the negated quantities. */
  ghost predicate MovesFor(b: BusinessId, snaps: seq<Snapshot>, moves: seq<Movement>) {
    && |moves| == |snaps|
    && forall i :: 0 <= i < |snaps| ==>
         && snaps[i].CartLine? && moves[i].business == b
         && moves[i].product == snaps[i].product && moves[i].delta == -snaps[i].quantity
  }

  /** Everything that a settled order has, and has once: its sale, one line per frozen line, one
      REVENUE credit, one COGS debit, one receipt, one movement per line. */
  ghost predicate ChainOf(db: Db, o: OrderId, p: Payment, s: Sale) {
    var lines := Where(db.lines, LineOf(s.id));
    && p.event == Some(s.event) && s.business == p.business && s.currency == p.currency
    && Where(db.sales, OfEvent(s.event)) == [s]
    && LinesExact(s.id, p.lines, lines)
    && Where(db.entries, EntryOf(s.event)) == [RevenueEntry(s), CogsEntry(s, CartCost(p.lines))]
    && Where(db.receipts, ReceiptOf(o)) == [ReceiptFor(s, o, lines)]
    && MovesFor(p.business, p.lines, Where(db.movements, SoldFor(o)))
  }

  ghost predicate FullChain(db: Db, o: OrderId, p: Payment) {
    exists s :: s in db.sales && ChainOf(db, o, p, s)
  }

  ghost predicate NoChain(db: Db, o: OrderId) {
    Where(db.movements, SoldFor(o)) == [] && Where(db.receipts, ReceiptOf(o)) == []
  }

  ghost predicate Chained(db: Db, o: OrderId)
    requires o in db.payments
  {
    if Settled(db.payments[o]) then FullChain(db, o, db.payments[o]) else NoChain(db, o)
  }

  ghost predicate Booked(db: Db) {
    Owned(db) && forall o :: o in db.payments ==> Chained(db, o)
  }

  // How the book tables grow.

  /** after has the rows of before in front in each of the five book tables. */
  ghost predicate Grows(before: Db, after: Db, sales: seq<Sale>, lines: seq<SaleLine>, entries: seq<Entry>,
                        receipts: seq<Receipt>, movements: seq<Movement>)
  {
    && after.sales == before.sales + sales
    && after.lines == before.lines + lines
    && after.entries == before.entries + entries
    && after.receipts == before.receipts + receipts
    && after.movements == before.movements + movements
  }

  /** Rows about other sales, events and orders leave a chain as it was. */
  lemma ChainFrame(before: Db, after: Db, o: OrderId, p: Payment, s: Sale, sales: seq<Sale>,
                   lines: seq<SaleLine>, entries: seq<Entry>, receipts: seq<Receipt>, movements: seq<Movement>)
    requires Grows(before, after, sales, lines, entries, receipts, movements)
    requires ChainOf(before, o, p, s)
    requires forall x :: x in sales ==> x.event != s.event
    requires forall x :: x in lines ==> x.sale != s.id
    requires forall x :: x in entries ==> x.event != s.event
    requires forall x :: x in receipts ==> x.order != o
    requires forall x :: x in movements ==> !(x.kind == SaleOut && x.reference == Some(o))
    ensures ChainOf(after, o, p, s)
  {
    WhereFrame(before.sales, sales, OfEvent(s.event));
    WhereFrame(before.lines, lines, LineOf(s.id));
    WhereFrame(before.entries, entries, EntryOf(s.event));
    WhereFrame(before.receipts, receipts, ReceiptOf(o));
    WhereFrame(before.movements, movements, SoldFor(o));
  }

  lemma NoChainFrame(before: Db, after: Db, o: OrderId, receipts: seq<Receipt>, movements: seq<Movement>)
    requires after.receipts == before.receipts + receipts
    requires after.movements == before.movements + movements
    requires NoChain(before, o)
    requires forall x :: x in receipts ==> x.order != o
    requires forall x :: x in movements ==> !(x.kind == SaleOut && x.reference == Some(o))
    ensures NoChain(after, o)
  {
    WhereFrame(before.receipts, receipts, ReceiptOf(o));
    WhereFrame(before.movements, movements, SoldFor(o));
  }

  /** An order nobody knows yet has no movement and no receipt. */
  lemma NoChainYet(db: Db, o: OrderId)
    requires Owned(db) && o !in db.payments
    ensures NoChain(db, o)
  {
    WhereNone(db.movements, SoldFor(o));
    WhereNone(db.receipts, ReceiptOf(o));
  }

  // Money, over any choice of events: those of one day, say, or all of them.

  type Span = iset<EventId>

  function EntryIn(b: BusinessId, kind: EntryKind, span: Span): Entry -> int {
    (x: Entry) => if x.business == b && x.kind == kind && x.event in span then x.amount else 0
  }

  function AccountIn(b: BusinessId, kind: EntryKind, account: string, span: Span): Entry -> int {
    (x: Entry) =>
      if x.business == b && x.kind == kind && x.account == account && x.event in span then x.amount else 0
  }

  function LineQuantityTimesCost(): SaleLine -> int {
    (l: SaleLine) => l.quantity * l.unitCost
  }

  /** Cost of the goods of one sale, recomputed from its sale lines. */
  function SaleCogs(lines: seq<SaleLine>, s: SaleId): Cents {
    SumOf(Where(lines, LineOf(s)), LineQuantityTimesCost())
  }

  /** Revenue less cost of goods, recomputed from the sale and its lines. */
  function GrossProfit(lines: seq<SaleLine>, s: Sale): Cents {
    s.total - SaleCogs(lines, s.id)
  }

  function ProfitIn(lines: seq<SaleLine>, b: BusinessId, span: Span): Sale -> int {
    (s: Sale) => if s.business == b && s.event in span then GrossProfit(lines, s) else 0
  }

  /** The dashboard's net cash flow: all credits less all debits of a business. */
  function NetCashflow(entries: seq<Entry>, b: BusinessId, span: Span): Cents {
    SumOf(entries, EntryIn(b, Credit, span)) - SumOf(entries, EntryIn(b, Debit, span))
  }

  /** The dashboard's gross profit: its REVENUE credits less its COGS debits. */
  function DashboardProfit(entries: seq<Entry>, b: BusinessId, span: Span): Cents {
    SumOf(entries, AccountIn(b, Credit, "REVENUE", span)) - SumOf(entries, AccountIn(b, Debit, "COGS", span))
  }

  ghost predicate Reconciled(entries: seq<Entry>, sales: seq<Sale>, lines: seq<SaleLine>, b: BusinessId,
                             span: Span) {
    && NetCashflow(entries, b, span) == SumOf(sales, ProfitIn(lines, b, span))
    && DashboardProfit(entries, b, span) == SumOf(sales, ProfitIn(lines, b, span))
  }

  ghost predicate Money(db: Db) {
    forall b, span :: Reconciled(db.entries, db.sales, db.lines, b, span)
  }

  /** The cost of exact sale lines is the cost of the frozen cart. */
  lemma {:induction false} LinesCost(sale: SaleId, snaps: seq<Snapshot>, lines: seq<SaleLine>)
    requires LinesExact(sale, snaps, lines)
    ensures SumOf(lines, LineQuantityTimesCost()) == CartCost(snaps)
  {
    if snaps != [] {
      var n := |snaps| - 1;
      LinesCost(sale, snaps[..n], lines[..n]);
    }
  }

  lemma {:induction false} OldProfitsStay(sales: seq<Sale>, lines: seq<SaleLine>, more: seq<SaleLine>, b: BusinessId,
                                         span: Span)
    requires forall s, l :: s in sales && l in more ==> l.sale != s.id
    ensures SumOf(sales, ProfitIn(lines + more, b, span)) == SumOf(sales, ProfitIn(lines, b, span))
  {
    forall s | s in sales ensures ProfitIn(lines + more, b, span)(s) == ProfitIn(lines, b, span)(s) {
      WhereFrame(lines, more, LineOf(s.id));
    }
    SumSame(sales, ProfitIn(lines + more, b, span), ProfitIn(lines, b, span));
  }

  lemma PairSums(entries: seq<Entry>, x: Entry, y: Entry, f: Entry -> int)
    ensures SumOf(entries + [x, y], f) == SumOf(entries, f) + f(x) + f(y)
  {
    assert entries + [x, y] == (entries + [x]) + [y];
    SumPush(entries, x, f);
    SumPush(entries + [x], y, f);
  }

  /** A posted sale adds its own profit to the sales side and to the ledger side. */
  lemma PostingReconciles(entries: seq<Entry>, sales: seq<Sale>, lines: seq<SaleLine>, b: BusinessId, span: Span,
                          s: Sale, more: seq<SaleLine>, cogs: Cents)
    requires Reconciled(entries, sales, lines, b, span)
    requires forall l :: l in more ==> l.sale == s.id
    requires forall x :: x in sales ==> x.id != s.id
    requires forall l :: l in lines ==> l.sale != s.id
    requires SumOf(more, LineQuantityTimesCost()) == cogs
    ensures Reconciled(entries + [RevenueEntry(s), CogsEntry(s, cogs)], sales + [s], lines + more, b, span)
  {
    var r, c := RevenueEntry(s), CogsEntry(s, cogs);
    PairSums(entries, r, c, EntryIn(b, Credit, span));
    PairSums(entries, r, c, EntryIn(b, Debit, span));
    PairSums(entries, r, c, AccountIn(b, Credit, "REVENUE", span));
    PairSums(entries, r, c, AccountIn(b, Debit, "COGS", span));
    OldProfitsStay(sales, lines, more, b, span);
    WhereFresh(lines, more, LineOf(s.id));
    assert (sales + [s])[..|sales|] == sales;
  }

  // Subscriptions.

  function Max1(n: nat): nat { if n == 0 then 1 else n }

  /** The months an activation grants: those of the offer, at least one. */
  function GrantedMonths(offers: map<OfferId, Offer>, offer: Option<OfferId>): nat {
    Max1(if offer.Some? && offer.value in offers then offers[offer.value].months else 1)
  }

  ghost predicate ActivatedFor(offers: map<OfferId, Offer>, o: OrderId, p: Payment, s: Subscription) {
    && s.business == p.business && s.payment == Some(o) && s.status == Active
    && s.offer == KnownOffer(offers, p.lines)
    && s.expiresAt == s.startedAt + 30 * DAY * GrantedMonths(offers, s.offer)
  }

  ghost predicate SubscribedOnce(db: Db, o: OrderId)
    requires o in db.payments
  {
    var p := db.payments[o];
    var subs := Where(db.subscriptions, SubscriptionOf(o));
    if p.purpose == Subscribing && p.event.Some?
    then |subs| == 1 && ActivatedFor(db.offers, o, p, subs[0])
    else subs == []
  }

  ghost predicate Subscriptions(db: Db) {
    && (forall s :: s in db.subscriptions && s.payment.Some? ==> s.payment.value in db.payments)
    && (forall o :: o in db.payments ==> SubscribedOnce(db, o))
    && (forall b :: |Where(db.subscriptions, TrialOf(b))| <= 1)
  }

  /** The invariant of every reachable database. */
  ghost predicate Inv(db: Db) {
    && Linkage(db.payments, db.orders, db.events)
    && Booked(db)
    && StockLedger(db.products, db.movements)
    && Money(db)
    && Subscriptions(db)
  }
}
