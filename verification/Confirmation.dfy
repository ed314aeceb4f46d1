// The confirmation chain as a function of the database value: the event
// handler, the confirmation service, and the two signals between them.
module Confirmation {
  import opened Basics
  import opened Tables
  import opened Selling
  import opened Automation

  // Look-ups; every table is searched from its newest row.

  function FindSale(sales: seq<Sale>, e: EventId): Option<Sale> {
    if sales == [] then None
    else
      var n := |sales| - 1;
      if sales[n].event == e then Some(sales[n]) else FindSale(sales[..n], e)
  }

  predicate EventIdTaken(events: seq<Event>, e: EventId) {
    exists i :: 0 <= i < |events| && events[i].id == e
  }

  predicate SaleIdTaken(sales: seq<Sale>, s: SaleId) {
    exists i :: 0 <= i < |sales| && sales[i].id == s
  }

  /** The payment is linked to the event or carries the order it refers to. */
  predicate Backs(o: OrderId, p: Payment, e: Event) {
    && p.business == e.business
    && (p.event == Some(e.id) || (e.reference != "" && o == e.reference))
  }

  function BackingPayment(orders: seq<OrderId>, payments: map<OrderId, Payment>, e: Event): (r: Option<OrderId>)
    ensures r.Some? ==> r.value in orders && r.value in payments && Backs(r.value, payments[r.value], e)
    ensures r.None? ==> forall o :: o in orders && o in payments ==> !Backs(o, payments[o], e)
  {
    if orders == [] then None
    else
      var n := |orders| - 1;
      if orders[n] in payments && Backs(orders[n], payments[orders[n]], e) then Some(orders[n])
      else BackingPayment(orders[..n], payments, e)
  }

  // The handler.

  function ReceiptLinesOf(lines: seq<SaleLine>): multiset<ReceiptLine> {
    if lines == [] then multiset{}
    else
      var n := |lines| - 1;
      ReceiptLinesOf(lines[..n])
      + multiset{ReceiptLine(lines[n].product, lines[n].quantity, lines[n].unitPrice)}
  }

  function SaleFor(e: Event, p: Payment, id: SaleId): Sale {
    Sale(id, e.business, e.id, p.TotalAmount(), p.currency)
  }

  function RevenueEntry(s: Sale): Entry {
    Entry(s.business, s.event, Credit, "REVENUE", s.total, s.currency)
  }

  function CogsEntry(s: Sale, cogs: Cents): Entry {
    Entry(s.business, s.event, Debit, "COGS", cogs, s.currency)
  }

  function ReceiptFor(s: Sale, o: OrderId, lines: seq<SaleLine>): Receipt {
    Receipt(s.id, o, s.total, s.currency, ReceiptLinesOf(lines))
  }

  /** The tables with one sale and everything that belongs to it. */
  function Posted(db: Db, s: Sale, o: OrderId, sold: Sold): Db {
    var lines := db.lines + sold.lines;
    db.(products := sold.products,
        sales := db.sales + [s],
        lines := lines,
        movements := db.movements + sold.movements,
        entries := db.entries + [RevenueEntry(s), CogsEntry(s, sold.cogs)],
        receipts := db.receipts + [ReceiptFor(s, o, Where(lines, LineOf(s.id)))])
  }

  /** Book the given sale of order o with the frozen lines of its payment. */
  function RecordSale(db: Db, s: Sale, o: OrderId, snaps: seq<Snapshot>): Result<Db, Error> {
    if SaleIdTaken(db.sales, s.id) then Err(IntegrityError)
    else
      match Sell(db.products, s.business, o, s.id, snaps)
      case Err(x) => Err(x)
      case Ok(sold) => Ok(Posted(db, s, o, sold))
  }

  /** sale is what the handler returns; created says whether this call recorded it. */
  datatype Handled = Handled(db: Db, sale: Option<Sale>, created: bool)

  function Handle(db: Db, e: Event, id: SaleId): Result<Handled, Error> {
    match FindSale(db.sales, e.id)
    case Some(s) => Ok(Handled(db, Some(s), false))
    case None =>
      match BackingPayment(db.orders, db.payments, e)
      case None => Err(NoBackingPayment)
      case Some(o) =>
        var p := db.payments[o];
        if p.purpose == Subscribing then Ok(Handled(db, None, false))
        else if p.event.Some? && p.event != Some(e.id) then
          match FindSale(db.sales, p.event.value)
          case Some(s) => Ok(Handled(db, Some(s), false))
          case None => Err(ConfirmedElsewhere)
        else
          match RecordSale(db, SaleFor(e, p, id), o, p.lines)
          case Err(x) => Err(x)
          case Ok(db') => Ok(Handled(db', Some(SaleFor(e, p, id)), true))
  }

  // Inserting an event row fires the handler for a confirmed payment.

  predicate Confirms(e: Event) {
    e.kind == PaymentConfirmed && e.status == EventConfirmed
  }

  function CreateEvent(db: Db, e: Event, id: SaleId): Result<Handled, Error> {
    if EventIdTaken(db.events, e.id) then Err(IntegrityError)
    else
      var stored := db.(events := db.events + [e]);
      if Confirms(e) then Handle(stored, e, id) else Ok(Handled(stored, None, false))
  }

  // Saving a payment as paid activates the subscription it buys.

  function FindSubscription(subs: seq<Subscription>, b: BusinessId, o: OrderId): Option<Subscription> {
    if subs == [] then None
    else
      var n := |subs| - 1;
      if subs[n].business == b && subs[n].payment == Some(o) then Some(subs[n])
      else FindSubscription(subs[..n], b, o)
  }

  /** The offer named by the first line that names one. */
  function FirstOffer(lines: seq<Snapshot>): (r: Option<OfferId>)
    ensures r.None? ==> forall i :: 0 <= i < |lines| ==> !lines[i].OfferLine?
    ensures r.Some? ==> exists i :: 0 <= i < |lines| && lines[i] == OfferLine(r.value)
                                    && forall j :: 0 <= j < i ==> !lines[j].OfferLine?
  {
    if lines == [] then None
    else if lines[0].OfferLine? then Some(lines[0].offer)
    else FirstOffer(lines[1..])
  }

  const DAY := 86_400

  function MonthsOf(offers: map<OfferId, Offer>, offer: Option<OfferId>): nat {
    if offer.Some? && offer.value in offers && offers[offer.value].months != 0
    then offers[offer.value].months else 1
  }

  function KnownOffer(offers: map<OfferId, Offer>, lines: seq<Snapshot>): Option<OfferId> {
    var offer := FirstOffer(lines);
    if offer.Some? && offer.value in offers then offer else None
  }

  function NewSubscription(offers: map<OfferId, Offer>, o: OrderId, p: Payment, now: int): Subscription {
    var offer := KnownOffer(offers, p.lines);
    Subscription(p.business, offer, Some(o), Active, now, now + 30 * DAY * MonthsOf(offers, offer))
  }

  function Activate(db: Db, o: OrderId, now: int): Db
    requires o in db.payments
  {
    var p := db.payments[o];
    if FindSubscription(db.subscriptions, p.business, o).Some? then db
    else db.(subscriptions := db.subscriptions + [NewSubscription(db.offers, o, p, now)])
  }

  function OnPaymentSaved(db: Db, o: OrderId, now: int): Db
    requires o in db.payments
  {
    var p := db.payments[o];
    if p.purpose == Subscribing && p.status == Paid then Activate(db, o, now) else db
  }

  // The confirmation service.

  datatype ConfirmArgs = ConfirmArgs(order: OrderId, amountBif: Option<int>, amountSats: Option<int>,
                                     actor: string, confirmedAt: Option<int>, now: int,
                                     eventId: EventId, saleId: SaleId)

  function EventFor(c: ConfirmArgs, p: Payment): Event {
    Event(c.eventId, p.business, PaymentConfirmed, EventConfirmed,
          100 * OrElse(c.amountBif, 0), p.currency, OrElse(c.confirmedAt, c.now),
          p.rail, c.actor, c.order)
  }

  /** The payment row as confirmation saves it. */
  function Linked(p: Payment, c: ConfirmArgs): Payment {
    p.(event := Some(c.eventId),
       status := Paid,
       confirmedAt := Some(OrElse(c.confirmedAt, c.now)),
       amountBif := if c.amountBif.Some? then c.amountBif else p.amountBif,
       amountSats := if c.amountSats.Some? then c.amountSats else p.amountSats)
  }

  datatype Confirmed = Confirmed(db: Db, event: EventId, sale: Option<Sale>)

  function Confirm(db: Db, c: ConfirmArgs): Result<Confirmed, Error> {
    if c.order !in db.payments then Err(UnknownOrder)
    else
      var p := db.payments[c.order];
      if p.event.Some? then Ok(Confirmed(db, p.event.value, None))
      else
        match CreateEvent(db, EventFor(c, p), c.saleId)
        case Err(x) => Err(x)
        case Ok(h) =>
          var saved := h.db.(payments := h.db.payments[c.order := Linked(p, c)]);
          Ok(Confirmed(OnPaymentSaved(saved, c.order, c.now), c.eventId, if h.created then h.sale else None))
  }

  /** The event handler on the whole database: a recorded sale is followed by automation. */
  function HandleWorld(w: World, e: Event, id: SaleId): Result<(World, Option<Sale>), Error> {
    match Handle(w.db, e, id)
    case Err(x) => Err(x)
    case Ok(h) =>
      var w' := w.(db := h.db);
      Ok((if h.created && h.sale.Some? then Automate(w', e.id, e.business, h.sale.value.id) else w', h.sale))
  }

  /** Confirmation on the whole database. */
  function ConfirmWorld(w: World, c: ConfirmArgs): Result<(World, EventId), Error> {
    match Confirm(w.db, c)
    case Err(x) => Err(x)
    case Ok(r) =>
      var w' := w.(db := r.db);
      Ok((if r.sale.Some? then Automate(w', c.eventId, r.sale.value.business, r.sale.value.id) else w', r.event))
  }
}
