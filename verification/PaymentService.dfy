// The payment services and the two save signals on the mutable database.
module PaymentService {
  import opened Basics
  import opened Tables
  import opened Confirmation
  import opened Checkout
  import opened Storage
  import opened SaleService

  // Events.

  /** The database after inserting an event row; the row stays when its handler fails. */
  function EventWorld(w: World, e: Event, saleId: SaleId): (World, Result<Option<Sale>, Error>) {
    if EventIdTaken(w.db.events, e.id) then (w, Err(IntegrityError))
    else
      var stored := w.(db := w.db.(events := w.db.events + [e]));
      if !Confirms(e) then (stored, Ok(None))
      else
        match HandleWorld(stored, e, saleId)
        case Err(x) => (stored, Err(x))
        case Ok((w', sale)) => (w', Ok(sale))
  }

  /** Insert an event row; its save signal runs the handler for a confirmed payment. */
  method CreateFinancialEvent(store: Store, e: Event, saleId: SaleId) returns (r: Result<Option<Sale>, Error>)
    requires store.Valid()
    modifies store
    ensures store.Valid() && store.SameSavepoints()
    ensures (store.View(), r) == EventWorld(old(store.View()), e, saleId)
  {
    if EventIdTaken(store.events, e.id) {
      return Err(IntegrityError);
    }
    store.Begin();
    store.InsertEvent(e);
    store.Release();
    if Confirms(e) {
      r := HandleFinancialEvent(store, e, saleId);
    } else {
      r := Ok(None);
    }
  }

  // Subscriptions.

  /** The first offer named in the frozen lines; the search stops at the first hit. */
  method FindOffer(lines: seq<Snapshot>) returns (offer: Option<OfferId>)
    ensures offer == FirstOffer(lines)
  {
    offer := None;
    var k := 0;
    while k < |lines|
      invariant 0 <= k <= |lines|
      invariant offer == None && FirstOffer(lines) == FirstOffer(lines[k..])
    {
      if lines[k].OfferLine? {
        offer := Some(lines[k].offer);
        break;
      }
      assert lines[k..][1..] == lines[k + 1..];
      k := k + 1;
    }
  }

  /** Activate the subscription that a payment buys, once per payment. */
  method ActivateFromPayment(store: Store, o: OrderId, now: int) returns (r: Result<Subscription, Error>)
    requires store.Valid() && o in store.payments
    modifies store
    ensures store.Valid() && store.SameSavepoints()
    ensures old(store.payments)[o].purpose != Subscribing ==>
              r == Err(NotSubscription) && store.View() == old(store.View())
    ensures old(store.payments)[o].purpose == Subscribing ==>
              && store.View() == old(store.View()).(db := Activate(old(store.View()).db, o, now))
              && r.Ok? && r.value in store.subscriptions && r.value.payment == Some(o)
  {
    var payment := store.payments[o];
    if payment.purpose != Subscribing {
      return Err(NotSubscription);
    }
    store.Begin();
    var existing := FindSubscription(store.subscriptions, payment.business, o);
    if existing.Some? {
      FindSubscriptionFinds(store.subscriptions, payment.business, o);
      store.Release();
      return Ok(existing.value);
    }
    var row := InsertActivation(store, o, payment, now);
    store.Release();
    return Ok(row);
  }

  method InsertActivation(store: Store, o: OrderId, payment: Payment, now: int) returns (row: Subscription)
    requires store.Valid() && store.marks != []
    modifies store
    ensures store.Valid() && store.SameSavepoints()
    ensures row == NewSubscription(old(store.offers), o, payment, now)
    ensures store.View() == old(store.View()).(db := old(store.View()).db.(
              subscriptions := old(store.subscriptions) + [row]))
  {
    var first := FindOffer(payment.lines);
    var offer := if first.Some? && first.value in store.offers then first else None;
    var months := MonthsOf(store.offers, offer);
    row := Subscription(payment.business, offer, Some(o), Active, now, now + 30 * DAY * months);
    store.InsertSubscription(row);
  }

  lemma {:induction false} FindSubscriptionFinds(subs: seq<Subscription>, b: BusinessId, o: OrderId)
    ensures var r := FindSubscription(subs, b, o);
            && (r.Some? ==> r.value in subs && r.value.business == b && r.value.payment == Some(o))
            && (r.None? ==> forall s :: s in subs ==> !(s.business == b && s.payment == Some(o)))
  {
    if subs != [] {
      var n := |subs| - 1;
      FindSubscriptionFinds(subs[..n], b, o);
      assert subs == subs[..n] + [subs[n]];
    }
  }

  /** Save a payment row and run the save signal. */
  method SavePaymentRow(store: Store, o: OrderId, row: Payment, now: int)
    requires store.Valid() && o in store.payments
    modifies store
    ensures store.Valid() && store.SameSavepoints()
    ensures var db := old(store.View()).db;
            store.View() == old(store.View()).(db :=
              OnPaymentSaved(db.(payments := db.payments[o := row]), o, now))
  {
    store.Begin();
    store.SavePayment(o, row);
    store.Release();
    if row.purpose == Subscribing && row.status == Paid {
      var _ := ActivateFromPayment(store, o, now);
    }
  }

  // Confirmation.

  /** The part of confirmation that writes. An error leaves partial work. */
  method LinkPayment(store: Store, c: ConfirmArgs) returns (r: Result<EventId, Error>)
    requires store.Valid() && store.marks != []
    requires c.order in store.payments && store.payments[c.order].event.None?
    modifies store
    ensures store.Valid() && store.SameSavepoints()
    ensures match ConfirmWorld(old(store.View()), c)
            case Err(x) => r == Err(x)
            case Ok((w, e)) => r == Ok(e) && store.View() == w
  {
    var payment := store.payments[c.order];
    var made := CreateFinancialEvent(store, EventFor(c, payment), c.saleId);
    if made.Err? {
      return Err(made.error);
    }
    SavePaymentRow(store, c.order, Linked(payment, c), c.now);
    return Ok(c.eventId);
  }

  /** The body of the atomic block. An error leaves partial work. */
  method ConfirmLocked(store: Store, c: ConfirmArgs) returns (r: Result<EventId, Error>)
    requires store.Valid() && store.marks != []
    modifies store
    ensures store.Valid() && store.SameSavepoints()
    ensures match ConfirmWorld(old(store.View()), c)
            case Err(x) => r == Err(x)
            case Ok((w, e)) => r == Ok(e) && store.View() == w
  {
    if c.order !in store.payments {
      return Err(UnknownOrder);
    }
    var payment := store.payments[c.order];
    if payment.event.Some? {
      return Ok(payment.event.value);
    }
    r := LinkPayment(store, c);
  }

  /** Confirm an order: the whole chain, or the first event again, or nothing at all. */
  method ConfirmPayment(store: Store, c: ConfirmArgs) returns (r: Result<EventId, Error>)
    requires store.Valid()
    modifies store
    ensures store.Valid() && store.SameSavepoints()
    ensures match ConfirmWorld(old(store.View()), c)
            case Err(x) => r == Err(x) && store.View() == old(store.View())
            case Ok((w, e)) => r == Ok(e) && store.View() == w
  {
    store.Begin();
    r := ConfirmLocked(store, c);
    if r.Err? {
      store.Rollback();
    } else {
      store.Release();
    }
  }

  // Checkout.

  /** Freeze the cart line by line, adding up its price. */
  method ResolveCartLines(store: Store, b: BusinessId, raws: seq<RawLine>)
    returns (r: Result<(seq<Snapshot>, Cents), Error>)
    ensures match FreezeLines(store.products, b, raws)
            case Err(x) => r == Err(x)
            case Ok(snaps) => r == Ok((snaps, CartTotal(snaps)))
  {
    var snapshots: seq<Snapshot> := [];
    var total := 0;
    for k := 0 to |raws|
      invariant FreezeLines(store.products, b, raws[..k]) == Ok(snapshots)
      invariant total == CartTotal(snapshots)
    {
      assert raws[..k + 1][..k] == raws[..k];
      var line := FreezeLine(store.products, b, raws[k]);
      if line.Err? {
        FreezeStopsAtError(store.products, b, raws, k + 1);
        return Err(line.error);
      }
      assert (snapshots + [line.value])[..|snapshots|] == snapshots;
      snapshots := snapshots + [line.value];
      total := total + line.value.unitPrice * line.value.quantity;
    }
    assert raws[..|raws|] == raws;
    return Ok((snapshots, total));
  }

  method CreateCheckoutPayment(store: Store, a: CheckoutArgs) returns (r: Result<Payment, Error>)
    requires store.Valid()
    modifies store
    ensures store.Valid() && store.SameSavepoints()
    ensures match CreateCheckout(old(store.View()).db, a)
            case Err(x) => r == Err(x) && store.View() == old(store.View())
            case Ok(db) => store.View() == old(store.View()).(db := db) && r == Ok(db.payments[a.order])
  {
    if a.business.None? {
      return Err(NoBusiness);
    }
    if a.currency.None? {
      return Err(CheckoutInvalid);
    }
    var cart: Result<(seq<Snapshot>, Cents), Error>;
    if a.lines != [] && a.amount.Some? {
      return Err(CheckoutInvalid);
    } else if a.lines == [] && a.amount.None? {
      return Err(CheckoutInvalid);
    } else if a.amount.Some? {
      if a.amount.value <= 0 {
        return Err(CheckoutInvalid);
      }
      cart := Ok(([], a.amount.value));
    } else {
      cart := ResolveCartLines(store, a.business.value, a.lines);
      if cart.Err? {
        return Err(cart.error);
      }
    }
    if a.invoice.None? {
      return Err(AdapterMissing);
    }
    var row := CheckoutPayment(a.business.value, a.rail, a.currency.value, cart.value.0, cart.value.1,
                               a.invoice.value);
    r := InsertNewPayment(store, a.order, row);
  }

  method CreateSubscriptionPayment(store: Store, a: SubscribeArgs) returns (r: Result<Payment, Error>)
    requires store.Valid()
    modifies store
    ensures store.Valid() && store.SameSavepoints()
    ensures match CreateSubscribing(old(store.View()).db, a)
            case Err(x) => r == Err(x) && store.View() == old(store.View())
            case Ok(db) => store.View() == old(store.View()).(db := db) && r == Ok(db.payments[a.order])
  {
    if a.business.None? {
      return Err(NoBusiness);
    }
    if a.offer !in store.offers {
      return Err(UnknownOffer);
    }
    var amount := OrElse(a.amount, store.offers[a.offer].finalPrice);
    if amount <= 0 {
      return Err(CheckoutInvalid);
    }
    if !a.adapter {
      return Err(AdapterMissing);
    }
    r := InsertNewPayment(store, a.order, SubscriptionPayment(a.business.value, a.rail, a.offer, amount));
  }

  method InsertNewPayment(store: Store, o: OrderId, row: Payment) returns (r: Result<Payment, Error>)
    requires store.Valid()
    modifies store
    ensures store.Valid() && store.SameSavepoints()
    ensures match NewPayment(old(store.View()).db, o, row)
            case Err(x) => r == Err(x) && store.View() == old(store.View())
            case Ok(db) => store.View() == old(store.View()).(db := db) && r == Ok(row)
  {
    if o in store.payments {
      return Err(IntegrityError);
    }
    store.Begin();
    store.InsertPayment(o, row);
    store.Release();
    return Ok(row);
  }
}
