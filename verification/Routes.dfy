// What a first confirmation writes, row by row, and which answer of which
// request leads to one. The statements name none of the functions that decide.
module Routes {
  import opened Basics
  import opened Tables
  import opened Selling
  import opened Confirmation
  import opened Requests
  import opened PaymentService
  import opened Books
  import opened Preservation
  import opened Runs
  import opened History
  import opened Statements

  // The rows of a confirmation.

  /** The amount a payment stands for: whole francs, else whole satoshis, else nothing. */
  function StoredAmount(p: Payment): Cents {
    if p.currency == BIF && p.amountBif.Some? then 100 * p.amountBif.value
    else if p.amountSats.Some? then 100 * p.amountSats.value
    else 0
  }

  function Moment(c: ConfirmArgs): int {
    if c.confirmedAt.Some? then c.confirmedAt.value else c.now
  }

  function WrittenEvent(p: Payment, c: ConfirmArgs): Event {
    Event(c.eventId, p.business, PaymentConfirmed, EventConfirmed,
          if c.amountBif.Some? then 100 * c.amountBif.value else 0, p.currency, Moment(c), p.rail, c.actor, c.order)
  }

  function WrittenPayment(p: Payment, c: ConfirmArgs): Payment {
    Payment(p.business, Some(c.eventId), p.rail, p.lines, p.currency,
            if c.amountBif.Some? then c.amountBif else p.amountBif,
            if c.amountSats.Some? then c.amountSats else p.amountSats,
            p.purpose, Paid, Some(Moment(c)))
  }

  /** One sale line per cart line, in order. */
  ghost predicate LinesWritten(sale: SaleId, snaps: seq<Snapshot>, lines: seq<SaleLine>) {
    && |lines| == |snaps|
    && forall i :: 0 <= i < |snaps| ==>
         && snaps[i].CartLine?
         && lines[i] == SaleLine(sale, snaps[i].product, snaps[i].quantity, snaps[i].unitPrice, snaps[i].unitCost)
  }

  /** One movement per cart line, in order, with the stock that is left after the lines so far. */
  ghost predicate MovesWritten(products: map<ProductId, Product>, b: BusinessId, o: OrderId, snaps: seq<Snapshot>,
                               moves: seq<Movement>)
  {
    && |moves| == |snaps|
    && forall i :: 0 <= i < |snaps| ==>
         && snaps[i].CartLine? && snaps[i].product in products
         && moves[i] == Movement(b, snaps[i].product, SaleOut, -snaps[i].quantity,
                                 products[snaps[i].product].stock - Demand(snaps[..i + 1], snaps[i].product),
                                 Some(o), Some("vente"))
  }

  function SoldAs(x: ReceiptLine): Snapshot -> bool {
    (s: Snapshot) => s.CartLine? && s.product == x.product && s.quantity == x.quantity && s.unitPrice == x.unitPrice
  }

  /** A receipt lists each cart line with its product, quantity and unit price. */
  ghost predicate ReceiptLists(snaps: seq<Snapshot>, bag: multiset<ReceiptLine>) {
    forall x :: bag[x] == |Where(snaps, SoldAs(x))|
  }

  lemma {:induction false} ReceiptCount(sale: SaleId, snaps: seq<Snapshot>, lines: seq<SaleLine>, x: ReceiptLine)
    requires LinesExact(sale, snaps, lines)
    ensures ReceiptLinesOf(lines)[x] == |Where(snaps, SoldAs(x))|
  {
    if snaps != [] {
      ReceiptCount(sale, snaps[..|snaps| - 1], lines[..|snaps| - 1], x);
    }
  }

  lemma SoldRows(products: map<ProductId, Product>, b: BusinessId, o: OrderId, sale: SaleId, snaps: seq<Snapshot>,
                 sold: Sold)
    requires SoldExactly(products, b, o, sale, snaps, sold) && o != ""
    ensures LinesWritten(sale, snaps, sold.lines) && MovesWritten(products, b, o, snaps, sold.movements)
    ensures ReceiptLists(snaps, ReceiptLinesOf(sold.lines))
  {
    forall x ensures ReceiptLinesOf(sold.lines)[x] == |Where(snaps, SoldAs(x))| {
      ReceiptCount(sale, snaps, sold.lines, x);
    }
  }

  /** The tables after a first confirmation of a cart, all of them. */
  function SettledTables(db: Db, c: ConfirmArgs, lines: seq<SaleLine>, moves: seq<Movement>,
                         bag: multiset<ReceiptLine>): Db
    requires c.order in db.payments
  {
    var p := db.payments[c.order];
    var total, cost := StoredAmount(p), SumOf(p.lines, QuantityTimesCost());
    Db(Depleted(db.products, p.lines),
       db.payments[c.order := WrittenPayment(p, c)],
       db.orders,
       db.events + [WrittenEvent(p, c)],
       db.sales + [Sale(c.saleId, p.business, c.eventId, total, p.currency)],
       db.lines + lines,
       db.movements + moves,
       db.entries + [Entry(p.business, c.eventId, Credit, "REVENUE", total, p.currency),
                     Entry(p.business, c.eventId, Debit, "COGS", cost, p.currency)],
       db.receipts + [Receipt(c.saleId, c.order, total, p.currency, bag)],
       db.subscriptions,
       db.offers)
  }

  /** A first confirmation of a cart writes exactly these rows. */
  lemma CartConfirmationWrites(db: Db, c: ConfirmArgs)
    returns (lines: seq<SaleLine>, moves: seq<Movement>, bag: multiset<ReceiptLine>)
    requires Inv(db) && FirstConfirm(db, c) && db.payments[c.order].purpose == Purpose.Checkout
    ensures var p := db.payments[c.order];
            && LinesWritten(c.saleId, p.lines, lines)
            && MovesWritten(db.products, p.business, c.order, p.lines, moves)
            && ReceiptLists(p.lines, bag)
    ensures Confirm(db, c).value.db == SettledTables(db, c, lines, moves, bag)
  {
    var p := db.payments[c.order];
    ConfirmIsDirect(db, c);
    var sold := Sell(db.products, p.business, c.order, c.saleId, p.lines).value;
    SellExact(db.products, p.business, c.order, c.saleId, p.lines);
    SoldRows(db.products, p.business, c.order, c.saleId, p.lines, sold);
    lines, moves, bag := sold.lines, sold.movements, ReceiptLinesOf(sold.lines);
    LinesCarrySale(c.saleId, p.lines, lines);
    NewLinesAlone(db, lines, c.saleId);
  }

  /** A first confirmation of a subscription purchase writes the event, the payment, and one
      subscription. */
  lemma PurchaseConfirmationWrites(db: Db, c: ConfirmArgs) returns (s: Subscription)
    requires Inv(db) && FirstConfirm(db, c) && db.payments[c.order].purpose == Subscribing
    ensures var p := db.payments[c.order];
            Confirm(db, c).value.db
            == db.(events := db.events + [WrittenEvent(p, c)],
                   payments := db.payments[c.order := WrittenPayment(p, c)],
                   subscriptions := db.subscriptions + [s])
    ensures s.business == db.payments[c.order].business && s.payment == Some(c.order)
            && s.status == Active && s.startedAt == c.now
  {
    ConfirmIsDirect(db, c);
    SubscriptionConfirmedShape(db, c);
    s := NewSubscription(db.offers, c.order, Linked(db.payments[c.order], c), c.now);
  }

  // Which requests confirm.

  /** Own, and not of another business. */
  predicate OwnOrder(db: Db, o: OrderId, b: BusinessId) {
    o in db.payments && db.payments[o].business == b
  }

  /** An accepted code confirms an own order that is not paid yet, with its stored amount and at the
      moment of the request; every other on-ramp request changes nothing. */
  lemma OnrampDecides(w: World, a: OnrampArgs)
    ensures Exec(w, OnrampOtp(a))
            == if OwnOrder(w.db, a.order, a.business) && w.db.payments[a.order].status != Paid && a.otp == Some(true)
               then AfterConfirm(w, ConfirmArgs(a.order, w.db.payments[a.order].amountBif, None, a.actor, None,
                                                a.keys.now, a.keys.eventId, a.keys.saleId))
               else w
  {
  }

  function WithStatus(w: World, o: OrderId, s: PaymentStatus): World
    requires o in w.db.payments
  {
    w.(db := w.db.(payments := w.db.payments[o := w.db.payments[o].(status := s)]))
  }

  /** A poll asks the rail only about an own pending order, and each answer has its own effect. */
  lemma PollDecides(w: World, a: PollArgs)
    ensures Exec(w, PollStatus(a))
            == if !OwnOrder(w.db, a.order, a.business) || w.db.payments[a.order].status != Pending then w
               else
                 match a.answer
                 case RailConfirmed(at) =>
                   AfterConfirm(w, ConfirmArgs(a.order, w.db.payments[a.order].amountBif, None, a.actor, at,
                                               a.keys.now, a.keys.eventId, a.keys.saleId))
                 case RailExpired => WithStatus(w, a.order, Expired)
                 case RailFailed => WithStatus(w, a.order, Failed)
                 case NoAdapter => w
                 case RailOpen => w
  {
  }

  /** The letters of a lower-case word, in either case. */
  predicate Spells(s: string, word: string) {
    && |s| == |word|
    && forall i :: 0 <= i < |s| ==> s[i] == word[i] || ('A' <= s[i] <= 'Z' && s[i] as int + 32 == word[i] as int)
  }

  predicate PaidWord(s: string) {
    Spells(s, "paid") || Spells(s, "confirmed") || Spells(s, "settled")
  }

  lemma LowerSpells(s: string, word: string)
    requires forall i :: 0 <= i < |word| ==> 'a' <= word[i] <= 'z'
    ensures Lower(s) == word <==> Spells(s, word)
  {
    if Lower(s) == word {
      forall i | 0 <= i < |s| ensures s[i] == word[i] || ('A' <= s[i] <= 'Z' && s[i] as int + 32 == word[i] as int) {
        assert Lower(s)[i] == word[i];
      }
    }
  }

  /** A webhook confirms a named order exactly for one of the three paid words, in any case; every
      other call changes nothing. */
  lemma WebhookDecides(w: World, a: WebhookArgs)
    ensures Exec(w, WebhookCall(a))
            == if a.order != "" && PaidWord(a.status)
               then AfterConfirm(w, ConfirmArgs(a.order, None, None, "blink_webhook", a.confirmedAt,
                                                a.keys.now, a.keys.eventId, a.keys.saleId))
               else w
  {
    LowerSpells(a.status, "paid");
    LowerSpells(a.status, "confirmed");
    LowerSpells(a.status, "settled");
  }

  // What that means for an unlinked cart.

  ghost predicate UnlinkedCart(db: Db, o: OrderId) {
    o in db.payments && db.payments[o].event.None? && db.payments[o].purpose == Purpose.Checkout
  }

  /** New keys, own products, and stock enough for the whole cart. */
  ghost predicate CanSettle(db: Db, o: OrderId, keys: Keys)
    requires o in db.payments
  {
    && o != "" && !EventIdTaken(db.events, keys.eventId) && !SaleIdTaken(db.sales, keys.saleId)
    && Sellable(db.products, db.payments[o].business, db.payments[o].lines)
    && Covered(db.products, db.payments[o].lines)
  }

  /** The order is paid, linked to the event, and has its one sale. */
  ghost predicate IsSettled(w: World, o: OrderId, e: EventId) {
    && o in w.db.payments && w.db.payments[o].status == Paid && w.db.payments[o].event == Some(e)
    && |SalesOf(w.db, o)| == 1
  }

  /** Settled if it can be, and otherwise nothing at all has changed. */
  ghost predicate SettlesIfItCan(w: World, o: OrderId, keys: Keys, after: World)
    requires o in w.db.payments
  {
    if CanSettle(w.db, o, keys) then IsSettled(after, o, keys.eventId) else after == w
  }

  lemma ConfirmSettles(w: World, c: ConfirmArgs)
    requires Reachable(w) && UnlinkedCart(w.db, c.order)
    ensures SettlesIfItCan(w, c.order, Keys(c.now, c.eventId, c.saleId), AfterConfirm(w, c))
  {
    ConfirmSucceedsIff(w, c);
    if CanSettle(w.db, c.order, Keys(c.now, c.eventId, c.saleId)) {
      FirstConfirmIsSettled(w, c);
    }
  }

  lemma FirstConfirmIsSettled(w: World, c: ConfirmArgs)
    requires Reachable(w) && UnlinkedCart(w.db, c.order) && FirstConfirm(w.db, c)
    ensures IsSettled(AfterConfirm(w, c), c.order, c.eventId)
  {
    var after := AfterConfirm(w, c);
    ReachableStep(w, ConfirmOrder(c), after);
    ConfirmMarksPaid(w, c);
    SettledExactlyOnce(after, c.order);
  }

  lemma ConfirmMarksPaid(w: World, c: ConfirmArgs)
    requires Reachable(w) && UnlinkedCart(w.db, c.order) && FirstConfirm(w.db, c)
    ensures var after := AfterConfirm(w, c);
            && c.order in after.db.payments && Settled(after.db.payments[c.order])
            && after.db.payments[c.order].status == Paid && after.db.payments[c.order].event == Some(c.eventId)
  {
    ReachableInv(w);
    FirstConfirmShape(w, c);
  }

  /** An unlinked payment is not PAID. */
  lemma UnlinkedUnpaid(w: World, o: OrderId)
    requires Reachable(w) && o in w.db.payments && w.db.payments[o].event.None?
    ensures w.db.payments[o].status != Paid
  {
    StatusesReached(w, o);
  }

  /** An accepted code settles an own unlinked cart exactly if it can be settled. */
  lemma OnrampSettles(w: World, a: OnrampArgs)
    requires Reachable(w) && OwnOrder(w.db, a.order, a.business) && UnlinkedCart(w.db, a.order) && a.otp == Some(true)
    ensures SettlesIfItCan(w, a.order, a.keys, Exec(w, OnrampOtp(a)))
  {
    UnlinkedUnpaid(w, a.order);
    OnrampDecides(w, a);
    ConfirmSettles(w, ConfirmArgs(a.order, w.db.payments[a.order].amountBif, None, a.actor, None,
                                  a.keys.now, a.keys.eventId, a.keys.saleId));
  }

  /** A confirmed answer settles an own pending unlinked cart exactly if it can be settled. */
  lemma PollSettles(w: World, a: PollArgs)
    requires Reachable(w) && OwnOrder(w.db, a.order, a.business) && UnlinkedCart(w.db, a.order)
    requires w.db.payments[a.order].status == Pending && a.answer.RailConfirmed?
    ensures SettlesIfItCan(w, a.order, a.keys, Exec(w, PollStatus(a)))
  {
    PollDecides(w, a);
    ConfirmSettles(w, ConfirmArgs(a.order, w.db.payments[a.order].amountBif, None, a.actor, a.answer.at,
                                  a.keys.now, a.keys.eventId, a.keys.saleId));
  }

  /** A paid word settles the named unlinked cart exactly if it can be settled. */
  lemma WebhookSettles(w: World, a: WebhookArgs)
    requires Reachable(w) && UnlinkedCart(w.db, a.order) && PaidWord(a.status)
    ensures SettlesIfItCan(w, a.order, a.keys, Exec(w, WebhookCall(a)))
  {
    WebhookDecides(w, a);
    if a.order != "" {
      ConfirmSettles(w, ConfirmArgs(a.order, None, None, "blink_webhook", a.confirmedAt,
                                    a.keys.now, a.keys.eventId, a.keys.saleId));
    }
  }

  // Events from outside.

  /** A confirmed payment event with a new key that names a settled order of its business. */
  ghost predicate Duplicate(db: Db, e: Event) {
    && e.kind == PaymentConfirmed && e.status == EventConfirmed
    && (forall x :: x in db.events ==> x.id != e.id)
    && OwnOrder(db, e.reference, e.business) && Settled(db.payments[e.reference])
  }

  /** A duplicate event is stored, returns the order's one sale, and changes nothing else. */
  lemma DuplicateReturnsSale(w: World, e: Event, id: SaleId)
    requires Reachable(w) && Duplicate(w.db, e)
    ensures |SalesOf(w.db, e.reference)| == 1
    ensures EventWorld(w, e, id)
            == (w.(db := w.db.(events := w.db.events + [e])), Ok(Some(SalesOf(w.db, e.reference)[0])))
  {
    var s := ReachableChain(w, e.reference);
    DuplicateHandled(w, e, id, s);
  }

  lemma DuplicateHandled(w: World, e: Event, id: SaleId, s: Sale)
    requires Reachable(w) && Duplicate(w.db, e) && s in w.db.sales && w.db.payments[e.reference].event == Some(s.event)
    ensures EventWorld(w, e, id) == (w.(db := w.db.(events := w.db.events + [e])), Ok(Some(s)))
  {
    ReachableInv(w);
    assert LinkedToRow(w.db.events, e.reference, w.db.payments[e.reference]);
    HandleNew(w.db, e, id);
    FoundIsOnly(w.db.sales, s);
  }

  lemma FoundIsOnly(sales: seq<Sale>, s: Sale)
    requires UniqueSales(sales) && s in sales
    ensures FindSale(sales, s.event) == Some(s)
  {
    var i :| 0 <= i < |sales| && sales[i] == s;
    FindSaleFinds(sales, s.event);
    var t := FindSale(sales, s.event).value;
    var j :| 0 <= j < |sales| && sales[j] == t;
    assert !(i < j) && !(j < i);
  }

  /** An event that is no confirmed payment is stored, if its key is new, and does nothing. */
  lemma OtherEventStored(w: World, e: Event, id: SaleId)
    requires e.kind != PaymentConfirmed || e.status != EventConfirmed
    requires forall x :: x in w.db.events ==> x.id != e.id
    ensures EventWorld(w, e, id) == (w.(db := w.db.(events := w.db.events + [e])), Ok(None))
  {
  }

  /** A confirmed event that no payment of its business backs is stored and refused. */
  lemma UnbackedEventRefused(w: World, e: Event, id: SaleId)
    requires Reachable(w) && e.kind == PaymentConfirmed && e.status == EventConfirmed
    requires forall x :: x in w.db.events ==> x.id != e.id
    requires e.reference == "" || !OwnOrder(w.db, e.reference, e.business)
    ensures EventWorld(w, e, id) == (w.(db := w.db.(events := w.db.events + [e])), Err(NoBackingPayment))
  {
    ReachableInv(w);
    HandleNew(w.db, e, id);
  }

  /** Any other admitted event leaves its row, if its key is new, and nothing else. */
  lemma EventLeavesRow(w: World, e: Event, id: SaleId)
    requires Reachable(w) && !StraySale(w.db, e, id)
    ensures EventWorld(w, e, id).0
            == if exists x :: x in w.db.events && x.id == e.id then w
               else w.(db := w.db.(events := w.db.events + [e]))
  {
    ReachableInv(w);
    if x :| x in w.db.events && x.id == e.id {
      var i :| 0 <= i < |w.db.events| && w.db.events[i] == x;
      assert EventIdTaken(w.db.events, e.id);
    } else if Confirms(e) {
      EventBooksNothing(w.db, e, id);
    }
  }
}
