// Why a request is refused: which error each of them meets, in the order in
// which the guards are passed.
module Refusals {
  import opened Basics
  import opened Tables
  import opened Movements
  import opened Selling
  import opened Confirmation
  import opened Checkout
  import opened Requests
  import opened Books
  import opened Preservation
  import opened Runs
  import opened Statements
  import opened Outcomes
  import opened Routes

  // Checkout.

  /** What is wrong with a line: its quantity or product reference, the product, or the stock. */
  function LineError(products: map<ProductId, Product>, b: BusinessId, raw: RawLine): Error {
    var quantity := if raw.qty.Some? then raw.qty else raw.quantity;
    if quantity.None? || quantity.value <= 0 || raw.product.None? then CheckoutInvalid
    else if raw.product.value !in products || products[raw.product.value].business != b then UnknownProduct
    else InsufficientStock
  }

  /** The first line that is not accepted decides the error of the cart. */
  lemma FirstBadLine(products: map<ProductId, Product>, b: BusinessId, raws: seq<RawLine>, k: nat)
    requires k < |raws| && LinesAccepted(products, b, raws[..k]) && !LineAccepted(products, b, raws[k])
    ensures FreezeLines(products, b, raws) == Err(LineError(products, b, raws[k]))
  {
    FreezesIff(products, b, raws[..k]);
    assert raws[..k + 1][..k] == raws[..k];
    FreezeStopsAtError(products, b, raws, k + 1);
  }

  /** The guards around the cart. */
  lemma CheckoutRefused(db: Db, a: CheckoutArgs)
    ensures a.business.None? ==> CreateCheckout(db, a) == Err(NoBusiness)
    ensures a.business.Some? && a.currency.None? ==> CreateCheckout(db, a) == Err(CheckoutInvalid)
    ensures a.business.Some? && a.currency.Some? ==>
              && ((a.lines != []) == a.amount.Some? ==> CreateCheckout(db, a) == Err(CheckoutInvalid))
              && (a.amount.Some? && a.amount.value <= 0 ==> CreateCheckout(db, a) == Err(CheckoutInvalid))
    ensures a.business.Some? && a.currency.Some? && CartAccepted(db, a.business.value, a) ==>
              && (a.invoice.None? ==> CreateCheckout(db, a) == Err(AdapterMissing))
              && (a.invoice.Some? && a.order in db.payments ==> CreateCheckout(db, a) == Err(IntegrityError))
  {
    if a.business.Some? {
      FreezesIff(db.products, a.business.value, a.lines);
    }
  }

  /** The guards of a purchase. */
  lemma PurchaseRefused(db: Db, a: SubscribeArgs)
    ensures a.business.None? ==> CreateSubscribing(db, a) == Err(NoBusiness)
    ensures a.business.Some? && a.offer !in db.offers ==> CreateSubscribing(db, a) == Err(UnknownOffer)
    ensures a.business.Some? && a.offer in db.offers ==>
              && (PurchaseAmount(db, a) <= 0 ==> CreateSubscribing(db, a) == Err(CheckoutInvalid))
              && (PurchaseAmount(db, a) > 0 && !a.adapter ==> CreateSubscribing(db, a) == Err(AdapterMissing))
              && (PurchaseAmount(db, a) > 0 && a.adapter && a.order in db.payments ==>
                    CreateSubscribing(db, a) == Err(IntegrityError))
  {
  }

  // Confirmation.

  /** With all products still the business's own, a cart can only fail for its stock. */
  lemma {:induction false} OnlyStockFails(products: map<ProductId, Product>, b: BusinessId, o: OrderId, sale: SaleId,
                                          snaps: seq<Snapshot>)
    requires Sellable(products, b, snaps) && Sell(products, b, o, sale, snaps).Err?
    ensures Sell(products, b, o, sale, snaps) == Err(InsufficientStock)
  {
    var n := |snaps| - 1;
    assert snaps == snaps[..n] + [snaps[n]] && snaps[n] in snaps;
    if Sell(products, b, o, sale, snaps[..n]).Err? {
      OnlyStockFails(products, b, o, sale, snaps[..n]);
    } else {
      SellExact(products, b, o, sale, snaps[..n]);
    }
  }

  function ErrorOf<T>(r: Result<T, Error>): Option<Error> {
    if r.Ok? then None else Some(r.error)
  }

  /** The error that stops the confirmation of an unlinked cart: a taken key, no order to name, or,
      for a cart of own products, the stock. */
  ghost predicate StopsWith(db: Db, c: ConfirmArgs, error: Option<Error>)
    requires c.order in db.payments
  {
    var p := db.payments[c.order];
    if EventIdTaken(db.events, c.eventId) then error == Some(IntegrityError)
    else if c.order == "" then error == Some(NoBackingPayment)
    else if SaleIdTaken(db.sales, c.saleId) then error == Some(IntegrityError)
    else if !Sellable(db.products, p.business, p.lines) then error.Some?
    else if !Covered(db.products, p.lines) then error == Some(InsufficientStock)
    else error.None?
  }

  /** Which error a confirmation meets. */
  lemma ConfirmRefused(w: World, c: ConfirmArgs)
    requires Reachable(w)
    ensures c.order !in w.db.payments ==> ConfirmWorld(w, c) == Err(UnknownOrder)
    ensures UnlinkedCart(w.db, c.order) ==> StopsWith(w.db, c, ErrorOf(ConfirmWorld(w, c)))
  {
    ReachableInv(w);
    if UnlinkedCart(w.db, c.order) {
      CartRefused(w.db, c);
    }
  }

  lemma CartRefused(db: Db, c: ConfirmArgs)
    requires Linkage(db.payments, db.orders, db.events) && Owned(db) && UnlinkedCart(db, c.order)
    ensures StopsWith(db, c, ErrorOf(Confirm(db, c)))
  {
    var p := db.payments[c.order];
    ConfirmIsDirect(db, c);
    LinesArePositive(db, c.order);
    GreedyIsAggregate(db.products, p.business, c.order, c.saleId, p.lines);
    if Sellable(db.products, p.business, p.lines) && !Covered(db.products, p.lines) {
      OnlyStockFails(db.products, p.business, c.order, c.saleId, p.lines);
    }
  }

  // Requests.

  /** The guards of the endpoints before they confirm. */
  lemma RoutesRefuse(w: World, a: OnrampArgs, poll: PollArgs, hook: WebhookArgs)
    ensures !OwnOrder(w.db, a.order, a.business) ==> Onramp(w, a) == Err(UnknownOrder)
    ensures OwnOrder(w.db, a.order, a.business) && w.db.payments[a.order].status != Paid ==>
              && (a.otp == None ==> Onramp(w, a) == Err(AdapterMissing))
              && (a.otp == Some(false) ==> Onramp(w, a) == Err(InvalidOtp))
    ensures !OwnOrder(w.db, poll.order, poll.business) ==> Poll(w, poll) == Err(UnknownOrder)
    ensures OwnOrder(w.db, poll.order, poll.business) && poll.answer.NoAdapter? ==>
              w.db.payments[poll.order].status == Pending ==> Poll(w, poll) == Err(AdapterMissing)
    ensures hook.order == "" ==> Webhook(w, hook) == Err(InvalidRequest)
  {
  }

  /** A product with a negative price is invalid; a taken key or a negative stock breaks the table. */
  lemma ProductRefused(db: Db, id: ProductId, p: Product)
    ensures p.unitPrice < 0 || p.unitCost < 0 ==> CreateProduct(db, id, p) == Err(InvalidRequest)
    ensures p.unitPrice >= 0 && p.unitCost >= 0 && (id in db.products || p.stock < 0) ==>
              CreateProduct(db, id, p) == Err(IntegrityError)
  {
  }
}
