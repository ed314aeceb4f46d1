// The database rows of the checkout-to-ledger backend and the database value.
// Money is an integer number of hundredths; keys are numbers or strings handed
// in from outside; a uniqueness or check constraint of a column is an error of
// the operation that would break it.
module Tables {
  import opened Basics

  type BusinessId = nat
  type ProductId = nat
  type OrderId = string
  type EventId = nat
  type SaleId = nat
  type OfferId = nat
  type Cents = int

  datatype Currency = BIF | USD | SAT

  datatype Rail = BitliberaOfframp | BitliberaOnramp | BlinkDirect

  datatype Product = Product(business: BusinessId, name: string, unitPrice: Cents, unitCost: Cents,
                             stock: int, threshold: nat)
  {
    predicate LowStock() {
      threshold > 0 && stock < threshold
    }
  }

  /** One element of Payment.lines: a frozen cart line or a frozen subscription offer. */
  datatype Snapshot =
    | CartLine(product: ProductId, quantity: int, unitPrice: Cents, unitCost: Cents)
    | OfferLine(offer: OfferId)

  datatype PaymentStatus = Created | Pending | Paid | Failed | Expired | Cancelled

  datatype Purpose = Checkout | Subscribing

  datatype Payment = Payment(business: BusinessId, event: Option<EventId>, rail: Rail,
                             lines: seq<Snapshot>, currency: Currency,
                             amountBif: Option<int>, amountSats: Option<int>,
                             purpose: Purpose, status: PaymentStatus, confirmedAt: Option<int>)
  {
    /** The amount a sale of this payment is booked at. */
    function TotalAmount(): Cents {
      if currency == BIF && amountBif.Some? then 100 * amountBif.value
      else if amountSats.Some? then 100 * amountSats.value
      else 0
    }
  }

  datatype EventKind = PaymentConfirmed | PaymentPending

  datatype EventStatus = EventPending | EventConfirmed | EventFailed

  datatype Event = Event(id: EventId, business: BusinessId, kind: EventKind, status: EventStatus,
                         amount: Cents, currency: Currency, timestamp: int, source: Rail,
                         actor: string, reference: string)

  datatype Sale = Sale(id: SaleId, business: BusinessId, event: EventId, total: Cents, currency: Currency)

  datatype SaleLine = SaleLine(sale: SaleId, product: ProductId, quantity: int,
                               unitPrice: Cents, unitCost: Cents)

  datatype MovementKind = SaleOut | Restock | Adjustment | Return

  datatype Movement = Movement(business: BusinessId, product: ProductId, kind: MovementKind,
                               delta: int, after: int, reference: Option<string>, reason: Option<string>)

  datatype EntryKind = Credit | Debit

  datatype Entry = Entry(business: BusinessId, event: EventId, kind: EntryKind, account: string,
                         amount: Cents, currency: Currency)

  datatype ReceiptLine = ReceiptLine(product: ProductId, quantity: int, unitPrice: Cents)

  /** The lines of a receipt are listed by random line key, so only their multiset is fixed. */
  datatype Receipt = Receipt(sale: SaleId, order: OrderId, total: Cents, currency: Currency,
                             lines: multiset<ReceiptLine>)

  datatype SubscriptionStatus = Trial | Active | SubscriptionExpired | SubscriptionCancelled

  datatype Subscription = Subscription(business: BusinessId, offer: Option<OfferId>,
                                       payment: Option<OrderId>, status: SubscriptionStatus,
                                       startedAt: int, expiresAt: int)

  datatype Offer = Offer(plan: nat, months: nat, finalPrice: Cents)

  /** The JSON condition of a rule: an object with its "type" text, if it has one, or some other
      non-empty JSON value, on which the evaluation fails. */
  datatype Condition = Typed(kind: Option<string>) | Malformed

  datatype Rule = Rule(business: BusinessId, trigger: string, condition: Condition,
                       action: string, active: bool)

  datatype LowStockItem = LowStockItem(product: ProductId, name: string, stock: int, threshold: nat)

  datatype Execution = Execution(rule: Rule, event: EventId, sale: SaleId, products: multiset<LowStockItem>)

  /** The stock, payment and money tables. orders lists the payment keys, oldest first. */
  datatype Db = Db(
    products: map<ProductId, Product>,
    payments: map<OrderId, Payment>,
    orders: seq<OrderId>,
    events: seq<Event>,
    sales: seq<Sale>,
    lines: seq<SaleLine>,
    movements: seq<Movement>,
    entries: seq<Entry>,
    receipts: seq<Receipt>,
    subscriptions: seq<Subscription>,
    offers: map<OfferId, Offer>)

  /** The whole database: the tables above plus the automation tables. */
  datatype World = World(db: Db, rules: seq<Rule>, executions: seq<Execution>)

  datatype Error =
    | UnknownOrder
    | UnknownProduct
    | UnknownOffer
    | NoBusiness
    | CheckoutInvalid
    | AdapterMissing
    | InvalidOtp
    | InvalidRequest
    | InsufficientStock
    | NegativeStock
    | ReasonRequired
    | BadProductReference
    | NoBackingPayment
    | ConfirmedElsewhere
    | NotSubscription
    | IntegrityError

  // Row predicates, one named function value each, so that two filters with
  // the same key are the same filter.

  function OfEvent(e: EventId): Sale -> bool { (s: Sale) => s.event == e }

  function LineOf(s: SaleId): SaleLine -> bool { (l: SaleLine) => l.sale == s }

  function OfProduct(id: ProductId): SaleLine -> bool { (l: SaleLine) => l.product == id }

  function EntryOf(e: EventId): Entry -> bool { (x: Entry) => x.event == e }

  function ReceiptOf(o: OrderId): Receipt -> bool { (r: Receipt) => r.order == o }

  function SoldFor(o: OrderId): Movement -> bool {
    (m: Movement) => m.kind == SaleOut && m.reference == Some(o)
  }

  function SubscriptionOf(o: OrderId): Subscription -> bool {
    (s: Subscription) => s.payment == Some(o)
  }

  function TrialOf(b: BusinessId): Subscription -> bool {
    (s: Subscription) => s.business == b && s.status == Trial
  }
}
