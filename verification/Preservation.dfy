// Confirmation keeps the invariant: first its handler look-ups are resolved,
// then each group of tables is carried over on its own.
module Preservation {
  import opened Basics
  import opened Tables
  import opened Selling
  import opened Confirmation
  import opened Books

  // Confirmation without the look-ups of the handler.

  function WithEvent(db: Db, e: Event): Db {
    db.(events := db.events + [e])
  }

  function WithPayment(db: Db, o: OrderId, p: Payment): Db {
    db.(payments := db.payments[o := p])
  }

  /** The state after booking a checkout confirmation. */
  function CheckoutConfirmed(db: Db, c: ConfirmArgs, sold: Sold): Db
    requires c.order in db.payments
  {
    var p := db.payments[c.order];
    var e := EventFor(c, p);
    WithPayment(Posted(WithEvent(db, e), SaleFor(e, p, c.saleId), c.order, sold), c.order, Linked(p, c))
  }

  function SubscriptionConfirmed(db: Db, c: ConfirmArgs): Db
    requires c.order in db.payments
  {
    var p := db.payments[c.order];
    Activate(WithPayment(WithEvent(db, EventFor(c, p)), c.order, Linked(p, c)), c.order, c.now)
  }

  /** What confirming an unlinked order comes to, guard by guard. */
  function DirectConfirm(db: Db, c: ConfirmArgs): Result<Confirmed, Error>
    requires c.order in db.payments && db.payments[c.order].event.None?
  {
    var p := db.payments[c.order];
    if EventIdTaken(db.events, c.eventId) then Err(IntegrityError)
    else if c.order == "" then Err(NoBackingPayment)
    else if p.purpose == Subscribing then Ok(Confirmed(SubscriptionConfirmed(db, c), c.eventId, None))
    else if SaleIdTaken(db.sales, c.saleId) then Err(IntegrityError)
    else
      match Sell(db.products, p.business, c.order, c.saleId, p.lines)
      case Err(x) => Err(x)
      case Ok(sold) => Ok(Confirmed(CheckoutConfirmed(db, c, sold), c.eventId,
                                    Some(SaleFor(EventFor(c, p), p, c.saleId))))
  }

  lemma {:induction false} FindSaleFinds(sales: seq<Sale>, e: EventId)
    ensures FindSale(sales, e).None? <==> !EventSold(sales, e)
    ensures FindSale(sales, e).Some? ==> FindSale(sales, e).value in sales && FindSale(sales, e).value.event == e
  {
    if sales != [] {
      var n := |sales| - 1;
      FindSaleFinds(sales[..n], e);
      if EventSold(sales[..n], e) {
        var i :| 0 <= i < n && sales[..n][i].event == e;
        assert sales[i].event == e;
      }
      if EventSold(sales, e) && sales[n].event != e {
        var i :| 0 <= i < |sales| && sales[i].event == e;
        assert sales[..n][i].event == e;
      }
    }
  }

  /** Sales only exist for stored events. */
  lemma SoldIsStored(db: Db, e: EventId)
    requires Linkage(db.payments, db.orders, db.events) && Owned(db)
    requires EventSold(db.sales, e)
    ensures EventIdTaken(db.events, e)
  {
    var i :| 0 <= i < |db.sales| && db.sales[i].event == e;
    assert db.sales[i] in db.sales;
    assert SaleOwned(db.payments, db.sales[i]);
    var o :| o in db.payments && Settled(db.payments[o]) && db.payments[o].event == Some(e);
    assert LinkedToRow(db.events, o, db.payments[o]);
  }

  /** A payment links only to stored events. */
  lemma LinkIsStored(db: Db, o: OrderId)
    requires Linkage(db.payments, db.orders, db.events)
    requires o in db.payments && db.payments[o].event.Some?
    ensures EventIdTaken(db.events, db.payments[o].event.value)
  {
    assert LinkedToRow(db.events, o, db.payments[o]);
  }

  /** An event id that no row has is neither sold nor linked. */
  lemma TakenIds(db: Db)
    requires Linkage(db.payments, db.orders, db.events) && Owned(db)
    ensures forall e :: EventSold(db.sales, e) ==> EventIdTaken(db.events, e)
    ensures forall o :: o in db.payments && db.payments[o].event.Some? ==>
              EventIdTaken(db.events, db.payments[o].event.value)
  {
    forall e | EventSold(db.sales, e) ensures EventIdTaken(db.events, e) {
      SoldIsStored(db, e);
    }
    LinkedIds(db);
  }

  lemma LinkedIds(db: Db)
    requires Linkage(db.payments, db.orders, db.events)
    ensures forall o :: o in db.payments && db.payments[o].event.Some? ==>
              EventIdTaken(db.events, db.payments[o].event.value)
  {
    forall o | o in db.payments && db.payments[o].event.Some?
      ensures EventIdTaken(db.events, db.payments[o].event.value)
    {
      LinkIsStored(db, o);
    }
  }

  /** The payment behind a newly stored event is the one its reference names. */
  lemma FreshEventBacking(db: Db, e: Event)
    requires Linkage(db.payments, db.orders, db.events)
    requires !EventIdTaken(db.events, e.id)
    ensures BackingPayment(db.orders, db.payments, e)
            == if e.reference != "" && e.reference in db.payments
                  && db.payments[e.reference].business == e.business
               then Some(e.reference) else None
  {
    LinkedIds(db);
  }

  /** For an unlinked order the handler always arrives at the order's own payment. */
  lemma ConfirmIsDirect(db: Db, c: ConfirmArgs)
    requires Linkage(db.payments, db.orders, db.events) && Owned(db)
    requires c.order in db.payments && db.payments[c.order].event.None?
    ensures Confirm(db, c) == DirectConfirm(db, c)
  {
    if !EventIdTaken(db.events, c.eventId) {
      TakenIds(db);
      FindSaleFinds(db.sales, c.eventId);
      FreshEventBacking(db, EventFor(c, db.payments[c.order]));
    }
  }

  // Linkage.

  lemma UniqueEventsPush(events: seq<Event>, e: Event)
    requires UniqueEvents(events) && !EventIdTaken(events, e.id)
    ensures UniqueEvents(events + [e])
  {
  }

  lemma LinkingKeepsLinkage(db: Db, o: OrderId, e: Event, p: Payment)
    requires Linkage(db.payments, db.orders, db.events)
    requires o in db.payments && o != "" && !EventIdTaken(db.events, e.id)
    requires EventFits(e, o, p) && StatusFits(p) && LinesFit(p)
    ensures Linkage(db.payments[o := p], db.orders, db.events + [e])
  {
    UniqueEventsPush(db.events, e);
    var events := db.events + [e];
    assert e in events;
    forall o' | o' in db.payments && o' != o ensures LinkedToRow(events, o', db.payments[o']) {
      assert LinkedToRow(db.events, o', db.payments[o']);
      if db.payments[o'].event.Some? {
        var e' :| e' in db.events && EventFits(e', o', db.payments[o']);
        assert e' in events;
      }
    }
  }

  // Books.

  lemma LinesCarrySale(sale: SaleId, snaps: seq<Snapshot>, lines: seq<SaleLine>)
    requires LinesExact(sale, snaps, lines)
    ensures forall l :: l in lines ==> l.sale == sale
  {
  }

  lemma MovesCarryOrder(products: map<ProductId, Product>, b: BusinessId, o: OrderId, snaps: seq<Snapshot>,
                        moves: seq<Movement>)
    requires MovesExact(products, b, o, snaps, moves) && o != ""
    ensures forall m :: m in moves ==> m.kind == SaleOut && m.reference == Some(o)
    ensures MovesFor(b, snaps, moves)
  {
  }

  lemma NewSaleAlone(sales: seq<Sale>, s: Sale)
    requires !EventSold(sales, s.event)
    ensures Where(sales + [s], OfEvent(s.event)) == [s]
  {
    WhereFresh(sales, [s], OfEvent(s.event));
  }

  lemma NewLinesAlone(db: Db, lines: seq<SaleLine>, sale: SaleId)
    requires Owned(db) && !SaleIdTaken(db.sales, sale)
    requires forall l :: l in lines ==> l.sale == sale
    ensures Where(db.lines + lines, LineOf(sale)) == lines
  {
    WhereFresh(db.lines, lines, LineOf(sale));
  }

  lemma NewEntriesAlone(db: Db, s: Sale, cogs: Cents)
    requires Owned(db) && !EventSold(db.sales, s.event)
    ensures Where(db.entries + [RevenueEntry(s), CogsEntry(s, cogs)], EntryOf(s.event))
            == [RevenueEntry(s), CogsEntry(s, cogs)]
  {
    WhereFresh(db.entries, [RevenueEntry(s), CogsEntry(s, cogs)], EntryOf(s.event));
  }

  lemma NewReceiptAlone(db: Db, o: OrderId, r: Receipt)
    requires NoChain(db, o) && r.order == o
    ensures Where(db.receipts + [r], ReceiptOf(o)) == [r]
  {
    WhereAppend(db.receipts, [r], ReceiptOf(o));
    WhereAll([r], ReceiptOf(o));
  }

  lemma NewMovesAlone(db: Db, o: OrderId, moves: seq<Movement>)
    requires NoChain(db, o) && forall m :: m in moves ==> m.kind == SaleOut && m.reference == Some(o)
    ensures Where(db.movements + moves, SoldFor(o)) == moves
  {
    WhereAppend(db.movements, moves, SoldFor(o));
    WhereAll(moves, SoldFor(o));
  }

  /** The rows that booking a sale adds to the book tables. */
  ghost predicate SaleRows(db: Db, after: Db, o: OrderId, s: Sale, sold: Sold) {
    Grows(db, after, [s], sold.lines, [RevenueEntry(s), CogsEntry(s, sold.cogs)],
          [ReceiptFor(s, o, Where(after.lines, LineOf(s.id)))], sold.movements)
  }

  /** The chain of the order that is being booked. */
  lemma NewChain(db: Db, after: Db, o: OrderId, p: Payment, s: Sale, sold: Sold)
    requires Owned(db) && NoChain(db, o)
    requires o != "" && !EventSold(db.sales, s.event) && !SaleIdTaken(db.sales, s.id)
    requires p.event == Some(s.event) && s.business == p.business && s.currency == p.currency
    requires SoldExactly(db.products, p.business, o, s.id, p.lines, sold)
    requires SaleRows(db, after, o, s, sold)
    ensures ChainOf(after, o, p, s)
  {
    LinesCarrySale(s.id, p.lines, sold.lines);
    MovesCarryOrder(db.products, p.business, o, p.lines, sold.movements);
    NewSaleAlone(db.sales, s);
    NewLinesAlone(db, sold.lines, s.id);
    NewEntriesAlone(db, s, sold.cogs);
    NewReceiptAlone(db, o, ReceiptFor(s, o, Where(after.lines, LineOf(s.id))));
    NewMovesAlone(db, o, sold.movements);
  }

  /** Chains of other settled orders stay. */
  lemma OldChainStays(db: Db, after: Db, o: OrderId, s: Sale, sold: Sold, o': OrderId, p': Payment)
    requires Linkage(db.payments, db.orders, db.events) && Owned(db)
    requires SaleRows(db, after, o, s, sold)
    requires !EventSold(db.sales, s.event) && !SaleIdTaken(db.sales, s.id)
    requires forall l :: l in sold.lines ==> l.sale == s.id
    requires forall m :: m in sold.movements ==> m.kind == SaleOut && m.reference == Some(o)
    requires o' != o && FullChain(db, o', p')
    ensures FullChain(after, o', p')
  {
    var s' :| s' in db.sales && ChainOf(db, o', p', s');
    ChainFrame(db, after, o', p', s', [s], sold.lines, [RevenueEntry(s), CogsEntry(s, sold.cogs)],
               [ReceiptFor(s, o, Where(after.lines, LineOf(s.id)))], sold.movements);
    assert s' in after.sales;
  }

  lemma UnsettledStays(db: Db, after: Db, o: OrderId, s: Sale, sold: Sold, o': OrderId)
    requires SaleRows(db, after, o, s, sold)
    requires forall m :: m in sold.movements ==> m.kind == SaleOut && m.reference == Some(o)
    requires o' != o && NoChain(db, o')
    ensures NoChain(after, o')
  {
    NoChainFrame(db, after, o', [ReceiptFor(s, o, Where(after.lines, LineOf(s.id)))], sold.movements);
  }

  lemma UniqueSalesPush(sales: seq<Sale>, s: Sale)
    requires UniqueSales(sales) && !EventSold(sales, s.event) && !SaleIdTaken(sales, s.id)
    ensures UniqueSales(sales + [s])
  {
  }

  /** The new rows hang on the new sale. */
  lemma SaleRowsOwned(db: Db, after: Db, o: OrderId, s: Sale, sold: Sold, p: Payment)
    requires Owned(db) && o in db.payments && !Settled(db.payments[o])
    requires SaleRows(db, after, o, s, sold) && after.payments == db.payments[o := p]
    requires !EventSold(db.sales, s.event) && !SaleIdTaken(db.sales, s.id)
    requires forall l :: l in sold.lines ==> l.sale == s.id
    requires forall m :: m in sold.movements ==> m.kind == SaleOut && m.reference == Some(o)
    requires Settled(p) && p.event == Some(s.event)
    ensures Owned(after)
  {
    UniqueSalesPush(db.sales, s);
    assert after.sales[|db.sales|] == s;
    SalesStayOwned(db, after, o, s, p);
    assert forall i :: 0 <= i < |db.sales| ==> after.sales[i] == db.sales[i];
    forall l | l in after.lines ensures SaleIdTaken(after.sales, l.sale) {
      if l in db.lines {
        var i :| 0 <= i < |db.sales| && db.sales[i].id == l.sale;
        assert after.sales[i].id == l.sale;
      }
    }
    forall x | x in after.entries ensures EventSold(after.sales, x.event) {
      if x in db.entries {
        var i :| 0 <= i < |db.sales| && db.sales[i].event == x.event;
        assert after.sales[i].event == x.event;
      }
    }
  }

  lemma SalesStayOwned(db: Db, after: Db, o: OrderId, s: Sale, p: Payment)
    requires o in db.payments && !Settled(db.payments[o])
    requires forall x :: x in db.sales ==> SaleOwned(db.payments, x)
    requires after.payments == db.payments[o := p] && after.sales == db.sales + [s]
    requires Settled(p) && p.event == Some(s.event)
    ensures forall x :: x in after.sales ==> SaleOwned(after.payments, x)
  {
    forall x | x in after.sales ensures SaleOwned(after.payments, x) {
      if x in db.sales {
        assert SaleOwned(db.payments, x);
        var o' :| o' in db.payments && Settled(db.payments[o']) && db.payments[o'].event == Some(x.event);
        assert after.payments[o'] == db.payments[o'];
      } else {
        assert o in after.payments && after.payments[o].event == Some(x.event);
      }
    }
  }

  lemma OtherOrderStays(db: Db, after: Db, o: OrderId, s: Sale, sold: Sold, o': OrderId)
    requires Linkage(db.payments, db.orders, db.events) && Owned(db)
    requires SaleRows(db, after, o, s, sold)
    requires !EventSold(db.sales, s.event) && !SaleIdTaken(db.sales, s.id)
    requires forall l :: l in sold.lines ==> l.sale == s.id
    requires forall m :: m in sold.movements ==> m.kind == SaleOut && m.reference == Some(o)
    requires o' != o && o' in db.payments && o' in after.payments && after.payments[o'] == db.payments[o']
    requires Chained(db, o')
    ensures Chained(after, o')
  {
    if Settled(db.payments[o']) {
      OldChainStays(db, after, o, s, sold, o', db.payments[o']);
    } else {
      UnsettledStays(db, after, o, s, sold, o');
    }
  }

  /** One booking step: sale s is recorded for the unsettled order o, whose payment becomes p. */
  ghost predicate Booking(db: Db, after: Db, o: OrderId, p: Payment, s: Sale, sold: Sold) {
    && o in db.payments && o != "" && !Settled(db.payments[o])
    && !EventSold(db.sales, s.event) && !SaleIdTaken(db.sales, s.id)
    && Settled(p) && p.event == Some(s.event) && s.business == p.business && s.currency == p.currency
    && SoldExactly(db.products, p.business, o, s.id, p.lines, sold)
    && SaleRows(db, after, o, s, sold) && after.payments == db.payments[o := p]
  }

  lemma BookingRows(db: Db, after: Db, o: OrderId, p: Payment, s: Sale, sold: Sold)
    requires Booking(db, after, o, p, s, sold)
    ensures forall l :: l in sold.lines ==> l.sale == s.id
    ensures forall m :: m in sold.movements ==> m.kind == SaleOut && m.reference == Some(o)
  {
    LinesCarrySale(s.id, p.lines, sold.lines);
    MovesCarryOrder(db.products, p.business, o, p.lines, sold.movements);
  }

  lemma BookedOrderChained(db: Db, after: Db, o: OrderId, p: Payment, s: Sale, sold: Sold)
    requires Owned(db) && Booking(db, after, o, p, s, sold) && Chained(db, o)
    ensures Chained(after, o)
  {
    NewChain(db, after, o, p, s, sold);
    assert after.sales[|db.sales|] == s;
  }

  lemma OtherOrderChained(db: Db, after: Db, o: OrderId, p: Payment, s: Sale, sold: Sold, o': OrderId)
    requires Linkage(db.payments, db.orders, db.events) && Owned(db)
    requires Booking(db, after, o, p, s, sold)
    requires o' != o && o' in db.payments && Chained(db, o')
    ensures Chained(after, o')
  {
    BookingRows(db, after, o, p, s, sold);
    OtherOrderStays(db, after, o, s, sold, o');
  }

  lemma BookingKeepsOwned(db: Db, after: Db, o: OrderId, p: Payment, s: Sale, sold: Sold)
    requires Owned(db) && Booking(db, after, o, p, s, sold)
    ensures Owned(after)
  {
    BookingRows(db, after, o, p, s, sold);
    SaleRowsOwned(db, after, o, s, sold, p);
  }

  /** Booking a sale for an unsettled order keeps the books of every order. */
  lemma BookingKeepsBooked(db: Db, after: Db, o: OrderId, p: Payment, s: Sale, sold: Sold)
    requires Linkage(db.payments, db.orders, db.events) && Booked(db)
    requires Booking(db, after, o, p, s, sold)
    ensures Booked(after)
  {
    BookingKeepsOwned(db, after, o, p, s, sold);
    forall o' | o' in after.payments ensures Chained(after, o') {
      assert Chained(db, o');
      if o' == o {
        BookedOrderChained(db, after, o, p, s, sold);
      } else {
        OtherOrderChained(db, after, o, p, s, sold, o');
      }
    }
  }

  // Money.

  lemma BookingKeepsMoney(db: Db, after: Db, o: OrderId, s: Sale, sold: Sold, snaps: seq<Snapshot>)
    requires Owned(db) && Money(db)
    requires !SaleIdTaken(db.sales, s.id)
    requires LinesExact(s.id, snaps, sold.lines) && sold.cogs == CartCost(snaps)
    requires SaleRows(db, after, o, s, sold)
    ensures Money(after)
  {
    LinesCost(s.id, snaps, sold.lines);
    LinesCarrySale(s.id, snaps, sold.lines);
    forall x | x in db.sales ensures x.id != s.id {
      var i :| 0 <= i < |db.sales| && db.sales[i] == x;
    }
    forall b, span ensures Reconciled(after.entries, after.sales, after.lines, b, span) {
      PostingReconciles(db.entries, db.sales, db.lines, b, span, s, sold.lines, sold.cogs);
    }
  }

  // Subscriptions.

  /** A payment that buys no subscription may change freely on the checkout side. */
  lemma CheckoutKeepsSubscriptions(db: Db, after: Db, o: OrderId, p: Payment)
    requires Subscriptions(db) && o in db.payments
    requires db.payments[o].purpose == Checkout && p.purpose == Checkout
    requires after.payments == db.payments[o := p]
    requires after.subscriptions == db.subscriptions && after.offers == db.offers
    ensures Subscriptions(after)
  {
    forall o' | o' in after.payments ensures SubscribedOnce(after, o') {
      assert SubscribedOnce(db, o');
    }
  }

  lemma NewSubscriptionFits(offers: map<OfferId, Offer>, o: OrderId, p: Payment, now: int)
    ensures ActivatedFor(offers, o, p, NewSubscription(offers, o, p, now))
  {
  }

  /** Linking a subscription payment adds exactly its own subscription. */
  lemma ActivationKeepsSubscriptions(db: Db, after: Db, o: OrderId, p: Payment, now: int)
    requires Subscriptions(db) && o in db.payments
    requires db.payments[o].purpose == Subscribing && db.payments[o].event.None?
    requires p.purpose == Subscribing && p.event.Some?
    requires after.payments == db.payments[o := p] && after.offers == db.offers
    requires after.subscriptions == db.subscriptions + [NewSubscription(db.offers, o, p, now)]
    ensures Subscriptions(after)
  {
    var row := NewSubscription(db.offers, o, p, now);
    NewSubscriptionFits(db.offers, o, p, now);
    assert SubscribedOnce(db, o);
    forall o' | o' in after.payments ensures SubscribedOnce(after, o') {
      assert SubscribedOnce(db, o');
      if o' == o {
        WhereAppend(db.subscriptions, [row], SubscriptionOf(o));
        WhereAll([row], SubscriptionOf(o));
      } else {
        WhereFrame(db.subscriptions, [row], SubscriptionOf(o'));
      }
    }
    forall b ensures |Where(after.subscriptions, TrialOf(b))| <= 1 {
      WhereFrame(db.subscriptions, [row], TrialOf(b));
    }
  }

  lemma {:induction false} NoSubscriptionFound(subs: seq<Subscription>, b: BusinessId, o: OrderId)
    requires Where(subs, SubscriptionOf(o)) == []
    ensures FindSubscription(subs, b, o).None?
  {
    if subs != [] {
      var n := |subs| - 1;
      NoSubscriptionFound(subs[..n], b, o);
    }
  }

  // Payment changes that book nothing.

  /** The two payment rows mean the same to the books. */
  predicate SameBooking(p: Payment, q: Payment) {
    && (Settled(p) <==> Settled(q))
    && (Settled(p) ==> p.event == q.event && p.business == q.business && p.currency == q.currency
                       && p.lines == q.lines)
  }

  ghost predicate SameTables(db: Db, after: Db) {
    && after.sales == db.sales && after.lines == db.lines && after.entries == db.entries
    && after.receipts == db.receipts && after.movements == db.movements
  }

  lemma SameChain(db: Db, after: Db, o: OrderId, p: Payment, q: Payment)
    requires SameTables(db, after) && SameBooking(p, q) && Settled(p)
    requires FullChain(db, o, p)
    ensures FullChain(after, o, q)
  {
    var s :| s in db.sales && ChainOf(db, o, p, s);
    assert ChainOf(after, o, q, s);
  }

  lemma UpdateKeepsOwned(db: Db, after: Db, o: OrderId, p: Payment)
    requires Owned(db) && o in db.payments && SameBooking(db.payments[o], p)
    requires SameTables(db, after) && after.payments == db.payments[o := p]
    ensures Owned(after)
  {
    forall s | s in after.sales ensures SaleOwned(after.payments, s) {
      assert SaleOwned(db.payments, s);
      var o' :| o' in db.payments && Settled(db.payments[o']) && db.payments[o'].event == Some(s.event);
      assert Settled(after.payments[o']) && after.payments[o'].event == Some(s.event);
    }
  }

  lemma UpdateKeepsBooked(db: Db, after: Db, o: OrderId, p: Payment)
    requires Booked(db) && o in db.payments && SameBooking(db.payments[o], p)
    requires SameTables(db, after) && after.payments == db.payments[o := p]
    ensures Booked(after)
  {
    UpdateKeepsOwned(db, after, o, p);
    forall o' | o' in after.payments ensures Chained(after, o') {
      assert Chained(db, o');
      if Settled(db.payments[o']) {
        SameChain(db, after, o', db.payments[o'], after.payments[o']);
      }
    }
  }

  // Confirmation as a whole.

  lemma SubscriptionConfirmedShape(db: Db, c: ConfirmArgs)
    requires Subscriptions(db) && c.order in db.payments
    requires db.payments[c.order].event.None? && db.payments[c.order].purpose == Subscribing
    ensures var p := db.payments[c.order];
            var q := Linked(p, c);
            SubscriptionConfirmed(db, c)
            == db.(events := db.events + [EventFor(c, p)], payments := db.payments[c.order := q],
                   subscriptions := db.subscriptions + [NewSubscription(db.offers, c.order, q, c.now)])
  {
    assert SubscribedOnce(db, c.order);
    NoSubscriptionFound(db.subscriptions, db.payments[c.order].business, c.order);
  }

  lemma SubscriptionConfirmKeepsInv(db: Db, c: ConfirmArgs)
    requires Inv(db) && c.order in db.payments && c.order != ""
    requires db.payments[c.order].event.None? && db.payments[c.order].purpose == Subscribing
    requires !EventIdTaken(db.events, c.eventId)
    ensures Inv(SubscriptionConfirmed(db, c))
  {
    var p := db.payments[c.order];
    var q := Linked(p, c);
    var after := SubscriptionConfirmed(db, c);
    SubscriptionConfirmedShape(db, c);
    LinkingKeepsLinkage(db, c.order, EventFor(c, p), q);
    UpdateKeepsBooked(db, after, c.order, q);
    ActivationKeepsSubscriptions(db, after, c.order, q, c.now);
  }

  lemma CheckoutConfirmedBooks(db: Db, c: ConfirmArgs, sold: Sold)
    requires Linkage(db.payments, db.orders, db.events) && Owned(db)
    requires c.order in db.payments && c.order != ""
    requires db.payments[c.order].event.None? && db.payments[c.order].purpose == Checkout
    requires !EventIdTaken(db.events, c.eventId) && !SaleIdTaken(db.sales, c.saleId)
    requires Sell(db.products, db.payments[c.order].business, c.order, c.saleId, db.payments[c.order].lines) == Ok(sold)
    ensures var p := db.payments[c.order];
            Booking(db, CheckoutConfirmed(db, c, sold), c.order, Linked(p, c),
                    SaleFor(EventFor(c, p), p, c.saleId), sold)
  {
    var p := db.payments[c.order];
    SellExact(db.products, p.business, c.order, c.saleId, p.lines);
    TakenIds(db);
  }

  lemma CheckoutConfirmKeepsInv(db: Db, c: ConfirmArgs, sold: Sold)
    requires Inv(db) && c.order in db.payments && c.order != ""
    requires db.payments[c.order].event.None? && db.payments[c.order].purpose == Checkout
    requires !EventIdTaken(db.events, c.eventId) && !SaleIdTaken(db.sales, c.saleId)
    requires Sell(db.products, db.payments[c.order].business, c.order, c.saleId, db.payments[c.order].lines) == Ok(sold)
    ensures Inv(CheckoutConfirmed(db, c, sold))
  {
    var p := db.payments[c.order];
    var q := Linked(p, c);
    var s := SaleFor(EventFor(c, p), p, c.saleId);
    var after := CheckoutConfirmed(db, c, sold);
    CheckoutConfirmedBooks(db, c, sold);
    LinkingKeepsLinkage(db, c.order, EventFor(c, p), q);
    BookingKeepsBooked(db, after, c.order, q, s, sold);
    SellKeepsLedger(db.products, db.movements, p.business, c.order, c.saleId, p.lines);
    BookingKeepsMoney(db, after, c.order, s, sold, p.lines);
    CheckoutKeepsSubscriptions(db, after, c.order, q);
  }

  /** Whatever a confirmation does, the invariant survives it. */
  lemma ConfirmKeepsInv(db: Db, c: ConfirmArgs)
    requires Inv(db) && Confirm(db, c).Ok?
    ensures Inv(Confirm(db, c).value.db)
  {
    var p := db.payments[c.order];
    if p.event.None? {
      ConfirmIsDirect(db, c);
      if p.purpose == Subscribing {
        SubscriptionConfirmKeepsInv(db, c);
      } else {
        CheckoutConfirmKeepsInv(db, c, Sell(db.products, p.business, c.order, c.saleId, p.lines).value);
      }
    }
  }
}
