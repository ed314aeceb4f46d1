// Checkout as a function of the database value: a cart is frozen into snapshots
// and a pending payment is created for it.
module Checkout {
  import opened Basics
  import opened Tables

  /** A cart line of the request: what int() and UUID() make of its keys, None where they fail. */
  datatype RawLine = RawLine(qty: Option<int>, quantity: Option<int>, product: Option<ProductId>)

  function FreezeLine(products: map<ProductId, Product>, b: BusinessId, raw: RawLine): Result<Snapshot, Error> {
    var quantity := if raw.qty.Some? then raw.qty else raw.quantity;
    if quantity.None? || quantity.value <= 0 then Err(CheckoutInvalid)
    else if raw.product.None? then Err(CheckoutInvalid)
    else if raw.product.value !in products || products[raw.product.value].business != b then Err(UnknownProduct)
    else
      var p := products[raw.product.value];
      if p.stock < quantity.value then Err(InsufficientStock)
      else Ok(CartLine(raw.product.value, quantity.value, p.unitPrice, p.unitCost))
  }

  /** What the loop adds to the total for one line. */
  function PriceOf(): Snapshot -> int {
    (s: Snapshot) => if s.CartLine? then s.unitPrice * s.quantity else 0
  }

  /** The price of a frozen cart. */
  function CartTotal(snaps: seq<Snapshot>): Cents {
    SumOf(snaps, PriceOf())
  }

  function FreezeLines(products: map<ProductId, Product>, b: BusinessId, raws: seq<RawLine>)
    : Result<seq<Snapshot>, Error>
  {
    if raws == [] then Ok([])
    else
      var n := |raws| - 1;
      match FreezeLines(products, b, raws[..n])
      case Err(x) => Err(x)
      case Ok(snaps) =>
        match FreezeLine(products, b, raws[n])
        case Err(x) => Err(x)
        case Ok(s) => Ok(snaps + [s])
  }

  /** A request names lines or a free amount, never both and never neither. */
  function ResolveCart(products: map<ProductId, Product>, b: BusinessId, lines: seq<RawLine>,
                       amount: Option<Cents>): Result<(seq<Snapshot>, Cents), Error>
  {
    if lines != [] && amount.Some? then Err(CheckoutInvalid)
    else if lines == [] && amount.None? then Err(CheckoutInvalid)
    else if amount.Some? then
      if amount.value <= 0 then Err(CheckoutInvalid) else Ok(([], amount.value))
    else
      match FreezeLines(products, b, lines)
      case Err(x) => Err(x)
      case Ok(snaps) => Ok((snaps, CartTotal(snaps)))
  }

  /** What the payment rail answers to a request for an invoice. */
  datatype Invoice = Invoice(amountBif: Option<Cents>, amountSats: Option<int>)

  datatype CheckoutArgs = CheckoutArgs(business: Option<BusinessId>, lines: seq<RawLine>, amount: Option<Cents>,
                                       currency: Option<Currency>, rail: Rail, invoice: Option<Invoice>,
                                       order: OrderId)

  function CheckoutPayment(b: BusinessId, rail: Rail, currency: Currency, snaps: seq<Snapshot>, total: Cents,
                           invoice: Invoice): Payment
  {
    Payment(b, None, rail, snaps, currency,
            if currency == BIF then Some(WholeUnits(total))
            else if invoice.amountBif.Some? then Some(WholeUnits(invoice.amountBif.value)) else None,
            invoice.amountSats, Purpose.Checkout, Pending, None)
  }

  function NewPayment(db: Db, o: OrderId, p: Payment): Result<Db, Error> {
    if o in db.payments then Err(IntegrityError)
    else Ok(db.(payments := db.payments[o := p], orders := db.orders + [o]))
  }

  /** currency is None for a code outside the supported set; invoice is None without an adapter. */
  function CreateCheckout(db: Db, a: CheckoutArgs): Result<Db, Error> {
    if a.business.None? then Err(NoBusiness)
    else if a.currency.None? then Err(CheckoutInvalid)
    else
      match ResolveCart(db.products, a.business.value, a.lines, a.amount)
      case Err(x) => Err(x)
      case Ok((snaps, total)) =>
        if a.invoice.None? then Err(AdapterMissing)
        else NewPayment(db, a.order, CheckoutPayment(a.business.value, a.rail, a.currency.value,
                                                     snaps, total, a.invoice.value))
  }

  datatype SubscribeArgs = SubscribeArgs(business: Option<BusinessId>, offer: OfferId, amount: Option<Cents>,
                                         rail: Rail, adapter: bool, order: OrderId)

  function SubscriptionPayment(b: BusinessId, rail: Rail, offer: OfferId, amount: Cents): Payment {
    Payment(b, None, rail, [OfferLine(offer)], BIF, Some(WholeUnits(amount)), None, Subscribing, Pending, None)
  }

  function CreateSubscribing(db: Db, a: SubscribeArgs): Result<Db, Error> {
    if a.business.None? then Err(NoBusiness)
    else if a.offer !in db.offers then Err(UnknownOffer)
    else
      var amount := OrElse(a.amount, db.offers[a.offer].finalPrice);
      if amount <= 0 then Err(CheckoutInvalid)
      else if !a.adapter then Err(AdapterMissing)
      else NewPayment(db, a.order, SubscriptionPayment(a.business.value, a.rail, a.offer, amount))
  }

  // What freezing guarantees.

  /** Every frozen line repeats the price and cost its product had, for a positive quantity that
      the stock covered line by line. */
  ghost predicate FrozenFrom(products: map<ProductId, Product>, b: BusinessId, snaps: seq<Snapshot>) {
    forall s :: s in snaps ==>
      && s.CartLine? && s.product in products && products[s.product].business == b
      && s.unitPrice == products[s.product].unitPrice && s.unitCost == products[s.product].unitCost
      && 0 < s.quantity <= products[s.product].stock
  }

  /** The quantity that a request line asks for: its first readable key counts. */
  predicate Asks(raw: RawLine, quantity: int) {
    raw.qty == Some(quantity) || (raw.qty.None? && raw.quantity == Some(quantity))
  }

  /** Snapshot i is for the product and the quantity that request line i names. */
  ghost predicate AsRequested(raws: seq<RawLine>, snaps: seq<Snapshot>) {
    && |snaps| == |raws|
    && forall i :: 0 <= i < |snaps| ==>
         snaps[i].CartLine? && raws[i].product == Some(snaps[i].product) && Asks(raws[i], snaps[i].quantity)
  }

  lemma {:induction false} FreezeLinesFrozen(products: map<ProductId, Product>, b: BusinessId, raws: seq<RawLine>)
    requires FreezeLines(products, b, raws).Ok?
    ensures FrozenFrom(products, b, FreezeLines(products, b, raws).value)
    ensures AsRequested(raws, FreezeLines(products, b, raws).value)
  {
    if raws != [] {
      FreezeLinesFrozen(products, b, raws[..|raws| - 1]);
    }
  }

  lemma {:induction false} FreezeStopsAtError(products: map<ProductId, Product>, b: BusinessId,
                                              raws: seq<RawLine>, k: nat)
    requires k <= |raws|
    requires FreezeLines(products, b, raws[..k]).Err?
    ensures FreezeLines(products, b, raws) == FreezeLines(products, b, raws[..k])
  {
    if k < |raws| {
      assert raws[..|raws| - 1][..k] == raws[..k];
      FreezeStopsAtError(products, b, raws[..|raws| - 1], k);
    } else {
      assert raws[..k] == raws;
    }
  }

  function QuantityTimesPrice(): Snapshot -> int {
    (s: Snapshot) => if s.CartLine? then s.quantity * s.unitPrice else 0
  }

  /** The total that the loop arrives at is quantity times unit price, summed over the cart. */
  lemma TotalIsSum(snaps: seq<Snapshot>)
    ensures CartTotal(snaps) == SumOf(snaps, QuantityTimesPrice())
  {
    SumSame(snaps, PriceOf(), QuantityTimesPrice());
  }

  lemma {:induction false} TotalNonNegative(products: map<ProductId, Product>, b: BusinessId, snaps: seq<Snapshot>)
    requires FrozenFrom(products, b, snaps)
    requires forall id :: id in products ==> products[id].unitPrice >= 0
    ensures CartTotal(snaps) >= 0
  {
    if snaps != [] {
      var s := snaps[|snaps| - 1];
      assert s in snaps;
      TotalNonNegative(products, b, snaps[..|snaps| - 1]);
      assert s.unitPrice * s.quantity >= 0;
    }
  }

  /** The revenue that a BIF checkout books is the cart total without its fraction of a unit. */
  lemma RevenueBound(db: Db, a: CheckoutArgs)
    requires CreateCheckout(db, a).Ok? && a.currency == Some(BIF) && a.amount.None?
    requires forall id :: id in db.products ==> db.products[id].unitPrice >= 0
    ensures var p := CreateCheckout(db, a).value.payments[a.order];
            && FrozenFrom(db.products, a.business.value, p.lines) && AsRequested(a.lines, p.lines)
            && p.amountBif.Some?
            && 0 <= SumOf(p.lines, QuantityTimesPrice()) - 100 * p.amountBif.value < 100
            && p.TotalAmount() == 100 * p.amountBif.value
  {
    TotalIsSum(FreezeLines(db.products, a.business.value, a.lines).value);
    FreezeLinesFrozen(db.products, a.business.value, a.lines);
    TotalNonNegative(db.products, a.business.value,
                     FreezeLines(db.products, a.business.value, a.lines).value);
  }
}
