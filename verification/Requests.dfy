// The remaining writers: product creation, stock corrections, trials, and the
// three request handlers that reach the confirmation service. First as
// functions of the database value, then as methods on the mutable database.
module Requests {
  import opened Basics
  import opened Tables
  import opened Movements
  import opened Confirmation

  // Products and stock.

  /** Insert a product; its save signal logs the stock it starts with. */
  function CreateProduct(db: Db, id: ProductId, p: Product): Result<Db, Error> {
    if p.unitPrice < 0 || p.unitCost < 0 then Err(InvalidRequest)
    else if id in db.products || p.stock < 0 then Err(IntegrityError)
    else
      var db' := db.(products := db.products[id := p]);
      if p.stock <= 0 then Ok(db')
      else Ok(db'.(movements := db.movements
                     + [MovementRow(id, p, Restock, p.stock, p.stock, Some("stock initial"), None)]))
  }

  function StripLeft(s: string): string {
    if s != "" && IsSpace(s[0]) then StripLeft(s[1..]) else s
  }

  function Strip(s: string): string {
    StripRight(StripLeft(s))
  }

  function StripRight(s: string): string {
    if s != "" && IsSpace(s[|s| - 1]) then StripRight(s[..|s| - 1]) else s
  }

  /** r is what is left of s without the white space at its two ends. */
  predicate Trimmed(s: string, r: string) {
    exists i, j :: 0 <= i <= j <= |s| && TrimmedAt(s, r, i, j)
  }

  predicate TrimmedAt(s: string, r: string, i: nat, j: nat)
    requires i <= j <= |s|
  {
    && r == s[i..j]
    && (forall k :: 0 <= k < i ==> IsSpace(s[k])) && (forall k :: j <= k < |s| ==> IsSpace(s[k]))
    && (i == j || (!IsSpace(s[i]) && !IsSpace(s[j - 1])))
  }

  lemma {:induction false} StripLeftAt(s: string) returns (i: nat)
    ensures i <= |s| && StripLeft(s) == s[i..] && (i < |s| ==> !IsSpace(s[i]))
    ensures forall k :: 0 <= k < i ==> IsSpace(s[k])
  {
    i := 0;
    if s != "" && IsSpace(s[0]) {
      var j := StripLeftAt(s[1..]);
      i := j + 1;
      forall k | 0 <= k < i ensures IsSpace(s[k]) {
        assert k > 0 ==> s[k] == s[1..][k - 1];
      }
    }
  }

  lemma {:induction false} StripRightAt(s: string) returns (j: nat)
    ensures j <= |s| && StripRight(s) == s[..j] && (j > 0 ==> !IsSpace(s[j - 1]))
    ensures forall k :: j <= k < |s| ==> IsSpace(s[k])
  {
    j := |s|;
    if s != "" && IsSpace(s[|s| - 1]) {
      j := StripRightAt(s[..|s| - 1]);
    }
  }

  /** Stripping takes away exactly the white space at both ends. */
  lemma StripTrims(s: string)
    ensures Trimmed(s, Strip(s))
  {
    var i := StripLeftAt(s);
    var left := s[i..];
    var n := StripRightAt(left);
    assert left[..n] == s[i..i + n];
    forall k | i + n <= k < |s| ensures IsSpace(s[k]) {
      assert s[k] == left[k - i];
    }
    assert n > 0 ==> left[n - 1] == s[i + n - 1];
    assert TrimmedAt(s, Strip(s), i, i + n);
  }

  /** An owner's request: a restock (positive quantity) or an adjustment (signed quantity). */
  datatype StockArgs = StockArgs(business: BusinessId, product: ProductId, restock: bool,
                                 quantity: int, reason: string)
  {
    function Kind(): MovementKind {
      if restock then Restock else Adjustment
    }
  }

  function ChangeStock(db: Db, a: StockArgs): Result<Db, Error> {
    var reason := Strip(a.reason);
    if reason == "" || |reason| > 255 || (a.restock && a.quantity < 1) then Err(InvalidRequest)
    else if a.product !in db.products || db.products[a.product].business != a.business then Err(InvalidRequest)
    else
      match ApplyMovement(a.product, db.products[a.product], a.Kind(), a.quantity, Some(reason), None)
      case Err(x) => Err(x)
      case Ok((row, m)) => Ok(db.(products := db.products[a.product := row], movements := db.movements + [m]))
  }

  // Trials.

  const TRIAL_DAYS := 3

  predicate Current(s: Subscription) {
    s.status != SubscriptionExpired && s.status != SubscriptionCancelled
  }

  predicate HasCurrent(subs: seq<Subscription>, b: BusinessId) {
    exists i :: 0 <= i < |subs| && subs[i].business == b && Current(subs[i])
  }

  /** The subscription of the business that is current and was started last, if it has one. */
  function LatestCurrent(subs: seq<Subscription>, b: BusinessId): (r: Option<Subscription>)
    ensures r.Some? <==> HasCurrent(subs, b)
    ensures r.Some? ==> r.value in subs && r.value.business == b && Current(r.value)
    ensures r.Some? ==> forall s :: s in subs && s.business == b && Current(s) ==> s.startedAt <= r.value.startedAt
  {
    if subs == [] then None
    else
      var last, rest := subs[|subs| - 1], LatestCurrent(subs[..|subs| - 1], b);
      assert subs == subs[..|subs| - 1] + [last];
      if last.business != b || !Current(last) then rest
      else if rest.Some? && rest.value.startedAt >= last.startedAt then rest
      else Some(last)
  }

  function CreateTrial(db: Db, b: BusinessId, now: int): Db {
    if HasCurrent(db.subscriptions, b) then db
    else db.(subscriptions := db.subscriptions
               + [Subscription(b, None, None, Trial, now, now + TRIAL_DAYS * DAY)])
  }

  // Requests about payments.

  datatype RailAnswer =
    | NoAdapter
    | RailConfirmed(at: Option<int>)
    | RailExpired
    | RailFailed
    | RailOpen

  /** The keys and the clock reading that a request hands to a confirmation. */
  datatype Keys = Keys(now: int, eventId: EventId, saleId: SaleId)

  datatype PollArgs = PollArgs(business: BusinessId, order: OrderId, answer: RailAnswer, actor: string,
                               keys: Keys)

  function PollConfirm(p: Payment, a: PollArgs, at: Option<int>): ConfirmArgs {
    ConfirmArgs(a.order, p.amountBif, None, a.actor, at, a.keys.now, a.keys.eventId, a.keys.saleId)
  }

  /** The late half of a poll: the rail's answer applied for a payment row read earlier. */
  function FinishPoll(w: World, p: Payment, a: PollArgs): Result<World, Error>
    requires a.order in w.db.payments
  {
    match a.answer
    case NoAdapter => Err(AdapterMissing)
    case RailConfirmed(at) =>
      (match ConfirmWorld(w, PollConfirm(p, a, at))
       case Err(x) => Err(x)
       case Ok((w', _)) => Ok(w'))
    case RailOpen => Ok(w)
    case RailExpired => Ok(w.(db := SetStatus(w.db, a.order, Expired)))
    case RailFailed => Ok(w.(db := SetStatus(w.db, a.order, Failed)))
  }

  function SetStatus(db: Db, o: OrderId, s: PaymentStatus): Db
    requires o in db.payments
  {
    db.(payments := db.payments[o := db.payments[o].(status := s)])
  }

  function Poll(w: World, a: PollArgs): Result<World, Error> {
    if a.order !in w.db.payments || w.db.payments[a.order].business != a.business then Err(UnknownOrder)
    else if w.db.payments[a.order].status != Pending then Ok(w)
    else FinishPoll(w, w.db.payments[a.order], a)
  }

  /** otp is None without an adapter and otherwise says whether the code was accepted. */
  datatype OnrampArgs = OnrampArgs(business: BusinessId, order: OrderId, otp: Option<bool>, actor: string,
                                   keys: Keys)

  function OnrampConfirm(p: Payment, a: OnrampArgs): ConfirmArgs {
    ConfirmArgs(a.order, p.amountBif, None, a.actor, None, a.keys.now, a.keys.eventId, a.keys.saleId)
  }

  function Onramp(w: World, a: OnrampArgs): Result<World, Error> {
    if a.order !in w.db.payments || w.db.payments[a.order].business != a.business then Err(UnknownOrder)
    else if w.db.payments[a.order].status == Paid then Ok(w)
    else if a.otp.None? then Err(AdapterMissing)
    else if !a.otp.value then Err(InvalidOtp)
    else
      match ConfirmWorld(w, OnrampConfirm(w.db.payments[a.order], a))
      case Err(x) => Err(x)
      case Ok((w', _)) => Ok(w')
  }

  function Lower(s: string): string {
    seq(|s|, i requires 0 <= i < |s| =>
      if 'A' <= s[i] <= 'Z' then s[i] - 'A' + 'a' else s[i])
  }

  datatype WebhookArgs = WebhookArgs(order: OrderId, status: string, confirmedAt: Option<int>, keys: Keys)

  predicate PaidState(status: string) {
    Lower(status) in ["paid", "confirmed", "settled"]
  }

  function WebhookConfirm(a: WebhookArgs): ConfirmArgs {
    ConfirmArgs(a.order, None, None, "blink_webhook", a.confirmedAt, a.keys.now, a.keys.eventId, a.keys.saleId)
  }

  function Webhook(w: World, a: WebhookArgs): Result<World, Error> {
    if a.order == "" then Err(InvalidRequest)
    else if !PaidState(a.status) then Ok(w)
    else
      match ConfirmWorld(w, WebhookConfirm(a))
      case Err(x) => Err(x)
      case Ok((w', _)) => Ok(w')
  }
}

module Endpoints {
  import opened Basics
  import opened Tables
  import opened Movements
  import opened Confirmation
  import opened Requests
  import opened Storage
  import opened StockService
  import opened PaymentService

  method CreateProductRow(store: Store, id: ProductId, p: Product) returns (r: Result<(), Error>)
    requires store.Valid()
    modifies store
    ensures store.Valid() && store.SameSavepoints()
    ensures match CreateProduct(old(store.View()).db, id, p)
            case Err(x) => r == Err(x) && store.View() == old(store.View())
            case Ok(db) => r == Ok(()) && store.View() == old(store.View()).(db := db)
  {
    if p.unitPrice < 0 || p.unitCost < 0 {
      return Err(InvalidRequest);
    }
    if id in store.products || p.stock < 0 {
      return Err(IntegrityError);
    }
    store.Begin();
    store.SaveProduct(id, p);
    store.Release();
    RecordInitialStock(store, id, p);
    return Ok(());
  }

  /** The save signal of a new product. */
  method RecordInitialStock(store: Store, id: ProductId, p: Product)
    requires store.Valid()
    modifies store
    ensures store.Valid() && store.SameSavepoints()
    ensures store.View() == old(store.View()).(db := old(store.View()).db.(movements := old(store.movements)
              + if p.stock > 0
                then [MovementRow(id, p, Restock, p.stock, p.stock, Some("stock initial"), None)] else []))
  {
    if p.stock > 0 {
      store.Begin();
      var _ := RecordStockMovement(store, id, p, Restock, p.stock, p.stock, Some("stock initial"), None);
      store.Release();
    }
  }

  method PostStockChange(store: Store, a: StockArgs) returns (r: Result<Movement, Error>)
    requires store.Valid()
    modifies store
    ensures store.Valid() && store.SameSavepoints()
    ensures match ChangeStock(old(store.View()).db, a)
            case Err(x) => r == Err(x) && store.View() == old(store.View())
            case Ok(db) =>
              && store.View() == old(store.View()).(db := db)
              && r.Ok? && store.movements == old(store.movements) + [r.value]
  {
    var reason := Strip(a.reason);
    if reason == "" || |reason| > 255 || (a.restock && a.quantity < 1) {
      return Err(InvalidRequest);
    }
    if a.product !in store.products || store.products[a.product].business != a.business {
      return Err(InvalidRequest);
    }
    store.Begin();
    r := ApplyStockMovement(store, a.product, store.products[a.product], a.Kind(), a.quantity, Some(reason), None);
    if r.Err? {
      store.Rollback();
    } else {
      store.Release();
    }
  }

  /** Grant the trial of a new business, or return the subscription that it has. */
  method GrantTrial(store: Store, b: BusinessId, now: int) returns (s: Subscription)
    requires store.Valid()
    modifies store
    ensures store.Valid() && store.SameSavepoints()
    ensures store.View() == old(store.View()).(db := CreateTrial(old(store.View()).db, b, now))
    ensures s in store.subscriptions && s.business == b && Current(s)
    ensures if HasCurrent(old(store.subscriptions), b)
            then Some(s) == LatestCurrent(old(store.subscriptions), b)
            else s.status == Trial && s.startedAt == now && s.expiresAt == now + TRIAL_DAYS * DAY
  {
    store.Begin();
    var existing := LatestCurrent(store.subscriptions, b);
    if existing.Some? {
      s := existing.value;
    } else {
      s := Subscription(b, None, None, Trial, now, now + TRIAL_DAYS * DAY);
      store.InsertSubscription(s);
    }
    store.Release();
  }

  /** POST /automations: an owner's rule, whatever it says. */
  method PostRule(store: Store, rule: Rule)
    requires store.Valid()
    modifies store
    ensures store.Valid() && store.SameSavepoints()
    ensures store.View() == old(store.View()).(rules := old(store.rules) + [rule])
  {
    store.Begin();
    store.InsertRule(rule);
    store.Release();
  }

  /** GET /payments/<id>/status, with no other request in between. */
  method PollPaymentStatus(store: Store, a: PollArgs) returns (r: Result<Payment, Error>)
    requires store.Valid()
    modifies store
    ensures store.Valid() && store.SameSavepoints()
    ensures match Poll(old(store.View()), a)
            case Err(x) => r == Err(x) && store.View() == old(store.View())
            case Ok(w) => store.View() == w && a.order in store.payments && r == Ok(store.payments[a.order])
  {
    if a.order !in store.payments || store.payments[a.order].business != a.business {
      return Err(UnknownOrder);
    }
    var payment := store.payments[a.order];
    if payment.status == Pending {
      match a.answer
      case NoAdapter => return Err(AdapterMissing);
      case RailConfirmed(at) =>
        ConfirmKeepsOrders(store.View(), PollConfirm(payment, a, at));
        var e := ConfirmPayment(store, PollConfirm(payment, a, at));
        if e.Err? {
          return Err(e.error);
        }
      case RailOpen =>
      case RailExpired => SavePaymentRow(store, a.order, payment.(status := Expired), a.keys.now);
      case RailFailed => SavePaymentRow(store, a.order, payment.(status := Failed), a.keys.now);
    }
    return Ok(store.payments[a.order]);
  }

  lemma ConfirmKeepsOrders(w: World, c: ConfirmArgs)
    requires c.order in w.db.payments
    ensures ConfirmWorld(w, c).Ok? ==> c.order in ConfirmWorld(w, c).value.0.db.payments
  {
  }

  /** POST /payments/onramp/confirm. */
  method PostOnrampConfirm(store: Store, a: OnrampArgs) returns (r: Result<Payment, Error>)
    requires store.Valid()
    modifies store
    ensures store.Valid() && store.SameSavepoints()
    ensures match Onramp(old(store.View()), a)
            case Err(x) => r == Err(x) && store.View() == old(store.View())
            case Ok(w) => store.View() == w && a.order in store.payments && r == Ok(store.payments[a.order])
  {
    if a.order !in store.payments || store.payments[a.order].business != a.business {
      return Err(UnknownOrder);
    }
    var payment := store.payments[a.order];
    if payment.status == Paid {
      return Ok(payment);
    }
    if a.otp.None? {
      return Err(AdapterMissing);
    }
    if !a.otp.value {
      return Err(InvalidOtp);
    }
    ConfirmKeepsOrders(store.View(), OnrampConfirm(payment, a));
    var e := ConfirmPayment(store, OnrampConfirm(payment, a));
    if e.Err? {
      return Err(e.error);
    }
    return Ok(store.payments[a.order]);
  }

  /** POST /payments/webhooks/blink. */
  method PostWebhook(store: Store, a: WebhookArgs) returns (r: Result<Option<EventId>, Error>)
    requires store.Valid()
    modifies store
    ensures store.Valid() && store.SameSavepoints()
    ensures match Webhook(old(store.View()), a)
            case Err(x) => r == Err(x) && store.View() == old(store.View())
            case Ok(w) => r.Ok? && store.View() == w && (r.value.Some? <==> PaidState(a.status))
    ensures r.Ok? && r.value.Some? ==>
              ConfirmWorld(old(store.View()), WebhookConfirm(a)) == Ok((store.View(), r.value.value))
  {
    if a.order == "" {
      return Err(InvalidRequest);
    }
    if !PaidState(a.status) {
      return Ok(None);
    }
    var e := ConfirmPayment(store, WebhookConfirm(a));
    return if e.Err? then Err(e.error) else Ok(Some(e.value));
  }
}
