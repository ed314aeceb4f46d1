// Runs of the whole backend: every command keeps the invariant, and what that
// means for the reader of the database.
module Runs {
  import opened Basics
  import opened Tables
  import opened Movements
  import opened Selling
  import opened Automation
  import opened Confirmation
  import opened Checkout
  import opened Requests
  import opened PaymentService
  import opened Books
  import opened Preservation

  /** One request or job. LatePoll is the second half of a status poll whose payment row was read
      at some earlier time; NewEvent is an event row inserted from outside; SeedRule is what signup
      and the rule listing do to make sure that the default rule is there. */
  datatype Cmd =
    | AddProduct(id: ProductId, product: Product)
    | EditProduct(id: ProductId, name: string, unitPrice: Cents, unitCost: Cents, threshold: nat)
    | MoveStock(stock: StockArgs)
    | CheckOut(checkout: CheckoutArgs)
    | Subscribe(subscribe: SubscribeArgs)
    | ConfirmOrder(confirm: ConfirmArgs)
    | PollStatus(poll: PollArgs)
    | LatePoll(read: Payment, poll: PollArgs)
    | OnrampOtp(onramp: OnrampArgs)
    | WebhookCall(webhook: WebhookArgs)
    | NewEvent(event: Event, saleId: SaleId)
    | StartTrial(business: BusinessId, now: int)
    | AddRule(rule: Rule)
    | SeedRule(business: BusinessId)

  function OrSame(w: World, r: Result<World, Error>): World {
    if r.Ok? then r.value else w
  }

  function OrSameDb(w: World, r: Result<Db, Error>): World {
    if r.Ok? then w.(db := r.value) else w
  }

  function AfterConfirm(w: World, c: ConfirmArgs): World {
    var r := ConfirmWorld(w, c);
    if r.Ok? then r.value.0 else w
  }

  /** The database after a command; a refused command leaves it as it was. */
  function Exec(w: World, cmd: Cmd): World {
    match cmd
    case AddProduct(id, p) => OrSameDb(w, CreateProduct(w.db, id, p))
    case EditProduct(id, name, price, cost, threshold) =>
      if id !in w.db.products then w
      else w.(db := w.db.(products := w.db.products[id :=
        w.db.products[id].(name := name, unitPrice := price, unitCost := cost, threshold := threshold)]))
    case MoveStock(a) => OrSameDb(w, ChangeStock(w.db, a))
    case CheckOut(a) => OrSameDb(w, CreateCheckout(w.db, a))
    case Subscribe(a) => OrSameDb(w, CreateSubscribing(w.db, a))
    case ConfirmOrder(c) => AfterConfirm(w, c)
    case PollStatus(a) => OrSame(w, Poll(w, a))
    case LatePoll(p, a) => if a.order !in w.db.payments then w else OrSame(w, FinishPoll(w, p, a))
    case OnrampOtp(a) => OrSame(w, Onramp(w, a))
    case WebhookCall(a) => OrSame(w, Webhook(w, a))
    case NewEvent(e, id) => EventWorld(w, e, id).0
    case StartTrial(b, now) => w.(db := CreateTrial(w.db, b, now))
    case AddRule(rule) => w.(rules := w.rules + [rule])
    case SeedRule(b) => w.(rules := EnsureDefaultRule(w.rules, b))
  }

  /** A confirmed event from outside whose handler would book a sale for a payment that nothing
      links to the event: the order is unlinked and its whole cart is covered by the stock. */
  ghost predicate StraySale(db: Db, e: Event, id: SaleId) {
    && Confirms(e) && !EventIdTaken(db.events, e.id) && !SaleIdTaken(db.sales, id)
    && e.reference != "" && e.reference in db.payments
    && var p := db.payments[e.reference];
       && p.business == e.business && p.purpose == Purpose.Checkout && p.event.None?
       && Sellable(db.products, p.business, p.lines) && Covered(db.products, p.lines)
  }

  /** Events from outside arrive as duplicates of confirmed orders, or cannot book. */
  ghost predicate Allowed(w: World, cmd: Cmd) {
    cmd.NewEvent? ==> !StraySale(w.db, cmd.event, cmd.saleId)
  }

  ghost predicate Moves(w: World, cmd: Cmd, after: World) {
    Allowed(w, cmd) && after == Exec(w, cmd)
  }

  /** Some run of allowed commands goes from the first database to the second. */
  least predicate Leads(w: World, after: World) {
    w == after || exists mid, cmd :: Leads(w, mid) && Moves(mid, cmd, after)
  }

  function EmptyWorld(offers: map<OfferId, Offer>): World {
    World(Db(map[], map[], [], [], [], [], [], [], [], [], offers), [], [])
  }

  // Every command keeps the invariant.

  lemma EmptyInv(offers: map<OfferId, Offer>)
    ensures Inv(EmptyWorld(offers).db)
  {
  }

  lemma MovementKeepsChained(db: Db, after: Db, m: Movement, o: OrderId)
    requires m.reference.None?
    requires Grows(db, after, [], [], [], [], [m]) && after.payments == db.payments
    requires o in db.payments && Chained(db, o)
    ensures Chained(after, o)
  {
    if Settled(db.payments[o]) {
      var s :| s in db.sales && ChainOf(db, o, db.payments[o], s);
      ChainFrame(db, after, o, db.payments[o], s, [], [], [], [], [m]);
      assert s in after.sales;
    } else {
      NoChainFrame(db, after, o, [], [m]);
    }
  }

  lemma MovementKeepsBooked(db: Db, after: Db, m: Movement)
    requires Booked(db) && m.reference.None?
    requires after.movements == db.movements + [m] && after.payments == db.payments
    requires after.sales == db.sales && after.lines == db.lines && after.entries == db.entries
    requires after.receipts == db.receipts
    ensures Booked(after)
  {
    assert Owned(after);
    forall o | o in after.payments ensures Chained(after, o) {
      assert Chained(db, o);
      MovementKeepsChained(db, after, m, o);
    }
  }

  lemma SubscriptionsFrame(db: Db, after: Db)
    requires Subscriptions(db) && after.payments == db.payments
    requires after.subscriptions == db.subscriptions && after.offers == db.offers
    ensures Subscriptions(after)
  {
    forall o | o in after.payments ensures SubscribedOnce(after, o) {
      assert SubscribedOnce(db, o);
    }
  }

  lemma BookedFrame(db: Db, after: Db)
    requires Booked(db) && SameTables(db, after) && after.payments == db.payments
    ensures Booked(after)
  {
    forall o | o in after.payments ensures Chained(after, o) {
      assert Chained(db, o);
      if Settled(db.payments[o]) {
        SameChain(db, after, o, db.payments[o], db.payments[o]);
      }
    }
  }

  lemma UnloggedStock(products: map<ProductId, Product>, log: seq<Movement>, id: ProductId)
    requires StockIsLogged(products, log) && id !in products
    ensures LoggedStock(log, id) == 0
  {
    forall m | m in log ensures Delta(id)(m) == 0 {
      var i :| 0 <= i < |log| && log[i] == m;
    }
    SumZero(log, Delta(id));
  }

  lemma CreateProductKeepsLedger(db: Db, id: ProductId, p: Product)
    requires StockLedger(db.products, db.movements) && CreateProduct(db, id, p).Ok?
    ensures var after := CreateProduct(db, id, p).value;
            StockLedger(after.products, after.movements)
  {
    UnloggedStock(db.products, db.movements, id);
    var empty := p.(stock := 0);
    assert StockLedger(db.products[id := empty], db.movements);
    if p.stock > 0 {
      var m := MovementRow(id, p, Restock, p.stock, p.stock, Some("stock initial"), None);
      MovementKeepsLedger(db.products[id := empty], db.movements, id, p, m);
      assert db.products[id := empty][id := p] == db.products[id := p];
    } else {
      assert empty == p;
    }
  }

  lemma CreateProductKeepsBooked(db: Db, id: ProductId, p: Product)
    requires Booked(db) && CreateProduct(db, id, p).Ok?
    ensures Booked(CreateProduct(db, id, p).value)
  {
    var after := CreateProduct(db, id, p).value;
    if p.stock > 0 {
      MovementKeepsBooked(db, after, MovementRow(id, p, Restock, p.stock, p.stock, Some("stock initial"), None));
    } else {
      BookedFrame(db, after);
    }
  }

  /** A change of products and movements alone leaves the other groups of the invariant as they are. */
  lemma StockSideFrame(db: Db, after: Db)
    requires Inv(db) && Booked(after) && StockLedger(after.products, after.movements)
    requires after == db.(products := after.products, movements := after.movements)
    ensures Inv(after)
  {
    SubscriptionsFrame(db, after);
  }

  lemma CreateProductKeepsInv(db: Db, id: ProductId, p: Product)
    requires Inv(db) && CreateProduct(db, id, p).Ok?
    ensures Inv(CreateProduct(db, id, p).value)
  {
    CreateProductKeepsLedger(db, id, p);
    CreateProductKeepsBooked(db, id, p);
    StockSideFrame(db, CreateProduct(db, id, p).value);
  }

  lemma EditProductKeepsInv(w: World, cmd: Cmd)
    requires Inv(w.db) && cmd.EditProduct?
    ensures Inv(Exec(w, cmd).db)
  {
    var after := Exec(w, cmd).db;
    BookedFrame(w.db, after);
    SubscriptionsFrame(w.db, after);
  }

  lemma ChangeStockKeepsInv(db: Db, a: StockArgs)
    requires Inv(db) && ChangeStock(db, a).Ok?
    ensures Inv(ChangeStock(db, a).value)
  {
    var after := ChangeStock(db, a).value;
    var m := after.movements[|db.movements|];
    MovementKeepsLedger(db.products, db.movements, a.product, after.products[a.product], m);
    MovementKeepsBooked(db, after, m);
    StockSideFrame(db, after);
  }

  lemma NewPaymentKeepsOwned(db: Db, after: Db, o: OrderId, p: Payment)
    requires Owned(db) && o !in db.payments
    requires SameTables(db, after) && after.payments == db.payments[o := p]
    ensures Owned(after)
  {
    forall s | s in after.sales ensures SaleOwned(after.payments, s) {
      assert SaleOwned(db.payments, s);
      var o' :| o' in db.payments && Settled(db.payments[o']) && db.payments[o'].event == Some(s.event);
      assert after.payments[o'] == db.payments[o'];
    }
  }

  lemma NewPaymentKeepsBooked(db: Db, after: Db, o: OrderId, p: Payment)
    requires Booked(db) && o !in db.payments && p.event.None?
    requires SameTables(db, after) && after.payments == db.payments[o := p]
    ensures Booked(after)
  {
    NoChainYet(db, o);
    NewPaymentKeepsOwned(db, after, o, p);
    forall o' | o' in after.payments ensures Chained(after, o') {
      if o' != o {
        assert Chained(db, o');
        if Settled(db.payments[o']) {
          SameChain(db, after, o', db.payments[o'], db.payments[o']);
        }
      }
    }
  }

  lemma NewPaymentKeepsSubscriptions(db: Db, after: Db, o: OrderId, p: Payment)
    requires Subscriptions(db) && o !in db.payments && p.event.None?
    requires after.payments == db.payments[o := p]
    requires after.subscriptions == db.subscriptions && after.offers == db.offers
    ensures Subscriptions(after)
  {
    WhereNone(db.subscriptions, SubscriptionOf(o));
    forall o' | o' in after.payments ensures SubscribedOnce(after, o') {
      if o' != o {
        assert SubscribedOnce(db, o');
      }
    }
  }

  lemma NewPaymentKeepsLinkage(db: Db, o: OrderId, p: Payment)
    requires Linkage(db.payments, db.orders, db.events) && o !in db.payments
    requires p.event.None? && p.status == Pending && LinesFit(p)
    ensures Linkage(db.payments[o := p], db.orders + [o], db.events)
  {
    forall o' | o' in db.payments ensures LinkedToRow(db.events, o', db.payments[o']) {
    }
  }

  lemma NewPaymentKeepsInv(db: Db, o: OrderId, p: Payment)
    requires Inv(db) && NewPayment(db, o, p).Ok?
    requires p.event.None? && p.status == Pending && LinesFit(p)
    ensures Inv(NewPayment(db, o, p).value)
  {
    var after := NewPayment(db, o, p).value;
    NewPaymentKeepsLinkage(db, o, p);
    NewPaymentKeepsBooked(db, after, o, p);
    NewPaymentKeepsSubscriptions(db, after, o, p);
  }

  lemma CheckoutKeepsInv(db: Db, a: CheckoutArgs)
    requires Inv(db) && CreateCheckout(db, a).Ok?
    ensures Inv(CreateCheckout(db, a).value)
  {
    var (snaps, total) := ResolveCart(db.products, a.business.value, a.lines, a.amount).value;
    if a.amount.None? {
      FreezeLinesFrozen(db.products, a.business.value, a.lines);
    }
    NewPaymentKeepsInv(db, a.order, CheckoutPayment(a.business.value, a.rail, a.currency.value, snaps, total,
                                                    a.invoice.value));
  }

  lemma SubscribingKeepsInv(db: Db, a: SubscribeArgs)
    requires Inv(db) && CreateSubscribing(db, a).Ok?
    ensures Inv(CreateSubscribing(db, a).value)
  {
    NewPaymentKeepsInv(db, a.order, SubscriptionPayment(a.business.value, a.rail, a.offer,
                                                        OrElse(a.amount, db.offers[a.offer].finalPrice)));
  }

  lemma SetStatusKeepsLinkage(db: Db, o: OrderId, s: PaymentStatus)
    requires Linkage(db.payments, db.orders, db.events) && o in db.payments && s in {Expired, Failed}
    ensures Linkage(db.payments[o := db.payments[o].(status := s)], db.orders, db.events)
  {
    var payments := db.payments[o := db.payments[o].(status := s)];
    forall o' | o' in payments ensures LinkedToRow(db.events, o', payments[o']) {
      assert LinkedToRow(db.events, o', db.payments[o']);
      if payments[o'].event.Some? {
        var e :| e in db.events && EventFits(e, o', db.payments[o']);
        assert EventFits(e, o', payments[o']);
      }
    }
  }

  lemma SetStatusKeepsSubscriptions(db: Db, o: OrderId, s: PaymentStatus)
    requires Subscriptions(db) && o in db.payments
    ensures Subscriptions(SetStatus(db, o, s))
  {
    var after := SetStatus(db, o, s);
    forall o' | o' in after.payments ensures SubscribedOnce(after, o') {
      assert SubscribedOnce(db, o');
    }
  }

  lemma SetStatusKeepsInv(db: Db, o: OrderId, s: PaymentStatus)
    requires Inv(db) && o in db.payments && s in {Expired, Failed}
    ensures Inv(SetStatus(db, o, s))
  {
    SetStatusKeepsLinkage(db, o, s);
    UpdateKeepsBooked(db, SetStatus(db, o, s), o, db.payments[o].(status := s));
    SetStatusKeepsSubscriptions(db, o, s);
  }

  lemma TrialKeepsInv(db: Db, b: BusinessId, now: int)
    requires Inv(db)
    ensures Inv(CreateTrial(db, b, now))
  {
    var after := CreateTrial(db, b, now);
    if !HasCurrent(db.subscriptions, b) {
      var row := Subscription(b, None, None, Trial, now, now + TRIAL_DAYS * DAY);
      forall o | o in after.payments ensures SubscribedOnce(after, o) {
        assert SubscribedOnce(db, o);
        WhereFrame(db.subscriptions, [row], SubscriptionOf(o));
      }
      WhereNone(db.subscriptions, TrialOf(b));
      forall b' ensures |Where(after.subscriptions, TrialOf(b'))| <= 1 {
        WhereAppend(db.subscriptions, [row], TrialOf(b'));
        if b' != b {
          WhereFrame(db.subscriptions, [row], TrialOf(b'));
        }
      }
      BookedFrame(db, after);
    }
  }

  // Events from outside.

  lemma LinesArePositive(db: Db, o: OrderId)
    requires Linkage(db.payments, db.orders, db.events)
    requires o in db.payments && db.payments[o].purpose == Purpose.Checkout
    ensures PositiveLines(db.payments[o].lines)
  {
  }

  /** The payment that a new event names, if it is of the event's business. */
  predicate Backed(db: Db, e: Event) {
    e.reference != "" && e.reference in db.payments && db.payments[e.reference].business == e.business
  }

  /** What the handler comes to for a new event: its guards without the look-ups. */
  lemma HandleNew(db: Db, e: Event, id: SaleId)
    requires Linkage(db.payments, db.orders, db.events) && Owned(db) && !EventIdTaken(db.events, e.id)
    ensures var stored := WithEvent(db, e);
            var r := Handle(stored, e, id);
            && (!Backed(db, e) ==> r == Err(NoBackingPayment))
            && (Backed(db, e) ==>
                  var p := db.payments[e.reference];
                  && (p.purpose == Subscribing ==> r == Ok(Handled(stored, None, false)))
                  && (p.purpose == Purpose.Checkout && p.event.Some? && FindSale(db.sales, p.event.value).Some? ==>
                        r == Ok(Handled(stored, FindSale(db.sales, p.event.value), false)))
                  && (p.purpose == Purpose.Checkout && p.event.None?
                      && RecordSale(stored, SaleFor(e, p, id), e.reference, p.lines).Err? ==>
                        r == Err(RecordSale(stored, SaleFor(e, p, id), e.reference, p.lines).error)))
  {
    FreshEventBacking(db, e);
    FindSaleFinds(db.sales, e.id);
    TakenIds(db);
  }

  /** A duplicate event for a settled order finds the order's own sale; no allowed event books. */
  lemma EventBooksNothing(db: Db, e: Event, id: SaleId)
    requires Inv(db) && Confirms(e) && !EventIdTaken(db.events, e.id) && !StraySale(db, e, id)
    ensures var r := Handle(WithEvent(db, e), e, id);
            && r != Err(ConfirmedElsewhere)
            && (r.Ok? ==> r.value.db == WithEvent(db, e) && !r.value.created)
            && (r.Ok? && r.value.sale.Some? ==>
                  && e.reference in db.payments && r.value.sale.value in db.sales
                  && db.payments[e.reference].event == Some(r.value.sale.value.event))
  {
    HandleNew(db, e, id);
    if Backed(db, e) && db.payments[e.reference].purpose == Purpose.Checkout {
      BackedEventBooksNothing(db, e, id);
    }
  }

  /** The handler's branches for an event that names a checkout order. */
  lemma BackedEventBooksNothing(db: Db, e: Event, id: SaleId)
    requires Linkage(db.payments, db.orders, db.events) && Booked(db)
    requires Confirms(e) && !EventIdTaken(db.events, e.id) && !StraySale(db, e, id)
    requires e.reference in db.payments && db.payments[e.reference].purpose == Purpose.Checkout
    ensures var p := db.payments[e.reference];
            && (p.event.Some? ==>
                  && FindSale(db.sales, p.event.value).Some?
                  && FindSale(db.sales, p.event.value).value in db.sales
                  && p.event == Some(FindSale(db.sales, p.event.value).value.event))
            && (p.event.None? && p.business == e.business && e.reference != "" ==>
                  var r := RecordSale(WithEvent(db, e), SaleFor(e, p, id), e.reference, p.lines);
                  r.Err? && r != Err(ConfirmedElsewhere))
  {
    var p := db.payments[e.reference];
    if p.event.Some? {
      assert Chained(db, e.reference);
      FindSaleFinds(db.sales, p.event.value);
    } else {
      LinesArePositive(db, e.reference);
      GreedyIsAggregate(db.products, p.business, e.reference, id, p.lines);
      if Sell(db.products, p.business, e.reference, id, p.lines).Err? {
        SellErrors(db.products, p.business, e.reference, id, p.lines);
      }
    }
  }

  lemma EventRowKeepsInv(db: Db, e: Event)
    requires Inv(db) && !EventIdTaken(db.events, e.id)
    ensures Inv(WithEvent(db, e))
  {
    var after := WithEvent(db, e);
    UniqueEventsPush(db.events, e);
    forall o | o in after.payments ensures LinkedToRow(after.events, o, after.payments[o]) {
      assert LinkedToRow(db.events, o, db.payments[o]);
    }
    BookedFrame(db, after);
    SubscriptionsFrame(db, after);
  }

  lemma NewEventKeepsInv(w: World, e: Event, id: SaleId)
    requires Inv(w.db) && !StraySale(w.db, e, id)
    ensures Inv(EventWorld(w, e, id).0.db)
    ensures EventWorld(w, e, id).1 != Err(ConfirmedElsewhere)
  {
    if !EventIdTaken(w.db.events, e.id) {
      EventRowKeepsInv(w.db, e);
      if Confirms(e) {
        EventBooksNothing(w.db, e, id);
      }
    }
  }

  /** A stray event books a sale that no payment is linked to: the invariant breaks. */
  lemma StrayEventBreaksInv(w: World, e: Event, id: SaleId)
    requires Inv(w.db) && StraySale(w.db, e, id)
    ensures !Inv(EventWorld(w, e, id).0.db)
  {
    var db := w.db;
    var p := db.payments[e.reference];
    FreshEventBacking(db, e);
    FindSaleFinds(db.sales, e.id);
    TakenIds(db);
    LinesArePositive(db, e.reference);
    GreedyIsAggregate(db.products, p.business, e.reference, id, p.lines);
    var after := EventWorld(w, e, id).0.db;
    var s := SaleFor(e, p, id);
    assert after.sales[|db.sales|] == s;
    assert s in after.sales && !SaleOwned(after.payments, s);
  }

  // All commands.

  lemma AfterConfirmKeepsInv(w: World, c: ConfirmArgs)
    requires Inv(w.db)
    ensures Inv(AfterConfirm(w, c).db)
  {
    if Confirm(w.db, c).Ok? {
      ConfirmKeepsInv(w.db, c);
    }
  }

  lemma FinishPollKeepsInv(w: World, p: Payment, a: PollArgs)
    requires Inv(w.db) && a.order in w.db.payments && FinishPoll(w, p, a).Ok?
    ensures Inv(FinishPoll(w, p, a).value.db)
  {
    match a.answer
    case RailConfirmed(at) => AfterConfirmKeepsInv(w, PollConfirm(p, a, at));
    case RailExpired => SetStatusKeepsInv(w.db, a.order, Expired);
    case RailFailed => SetStatusKeepsInv(w.db, a.order, Failed);
    case RailOpen =>
  }

  lemma PollKeepsInv(w: World, a: PollArgs)
    requires Inv(w.db)
    ensures Inv(Exec(w, PollStatus(a)).db)
  {
    if a.order in w.db.payments && FinishPoll(w, w.db.payments[a.order], a).Ok? {
      FinishPollKeepsInv(w, w.db.payments[a.order], a);
    }
  }

  lemma LatePollKeepsInv(w: World, p: Payment, a: PollArgs)
    requires Inv(w.db)
    ensures Inv(Exec(w, LatePoll(p, a)).db)
  {
    if a.order in w.db.payments && FinishPoll(w, p, a).Ok? {
      FinishPollKeepsInv(w, p, a);
    }
  }

  /** An on-ramp request either changes nothing or is one confirmation. */
  lemma OnrampIsConfirm(w: World, a: OnrampArgs)
    ensures Exec(w, OnrampOtp(a)) == w
            || (a.order in w.db.payments
                && Exec(w, OnrampOtp(a)) == AfterConfirm(w, OnrampConfirm(w.db.payments[a.order], a)))
  {
  }

  lemma OnrampKeepsInv(w: World, a: OnrampArgs)
    requires Inv(w.db)
    ensures Inv(Exec(w, OnrampOtp(a)).db)
  {
    OnrampIsConfirm(w, a);
    if Exec(w, OnrampOtp(a)) != w {
      AfterConfirmKeepsInv(w, OnrampConfirm(w.db.payments[a.order], a));
    }
  }

  lemma StockCmdKeepsInv(w: World, cmd: Cmd)
    requires Inv(w.db) && (cmd.AddProduct? || cmd.EditProduct? || cmd.MoveStock? || cmd.StartTrial?
                           || cmd.AddRule? || cmd.SeedRule?)
    ensures Inv(Exec(w, cmd).db)
  {
    match cmd
    case AddProduct(id, p) => if CreateProduct(w.db, id, p).Ok? { CreateProductKeepsInv(w.db, id, p); }
    case EditProduct(_, _, _, _, _) => EditProductKeepsInv(w, cmd);
    case MoveStock(a) => if ChangeStock(w.db, a).Ok? { ChangeStockKeepsInv(w.db, a); }
    case StartTrial(b, now) => TrialKeepsInv(w.db, b, now);
    case AddRule(_) =>
    case SeedRule(_) =>
  }

  lemma OrSameDbKeepsInv(w: World, r: Result<Db, Error>)
    requires Inv(w.db) && (r.Ok? ==> Inv(r.value))
    ensures Inv(OrSameDb(w, r).db)
  {
  }

  lemma CheckOutCmdKeepsInv(w: World, a: CheckoutArgs)
    requires Inv(w.db)
    ensures Inv(Exec(w, CheckOut(a)).db)
  {
    if CreateCheckout(w.db, a).Ok? {
      CheckoutKeepsInv(w.db, a);
    }
    OrSameDbKeepsInv(w, CreateCheckout(w.db, a));
  }

  lemma SubscribeCmdKeepsInv(w: World, a: SubscribeArgs)
    requires Inv(w.db)
    ensures Inv(Exec(w, Subscribe(a)).db)
  {
    if CreateSubscribing(w.db, a).Ok? {
      SubscribingKeepsInv(w.db, a);
    }
    OrSameDbKeepsInv(w, CreateSubscribing(w.db, a));
  }

  lemma WebhookKeepsInv(w: World, a: WebhookArgs)
    requires Inv(w.db)
    ensures Inv(Exec(w, WebhookCall(a)).db)
  {
    AfterConfirmKeepsInv(w, WebhookConfirm(a));
  }

  lemma ExecKeepsInv(w: World, cmd: Cmd)
    requires Inv(w.db) && Allowed(w, cmd)
    ensures Inv(Exec(w, cmd).db)
  {
    if cmd.CheckOut? {
      CheckOutCmdKeepsInv(w, cmd.checkout);
    } else if cmd.Subscribe? {
      SubscribeCmdKeepsInv(w, cmd.subscribe);
    } else if cmd.NewEvent? {
      NewEventKeepsInv(w, cmd.event, cmd.saleId);
    } else if cmd.ConfirmOrder? {
      AfterConfirmKeepsInv(w, cmd.confirm);
    } else if cmd.PollStatus? {
      PollKeepsInv(w, cmd.poll);
    } else if cmd.LatePoll? {
      LatePollKeepsInv(w, cmd.read, cmd.poll);
    } else if cmd.OnrampOtp? {
      OnrampKeepsInv(w, cmd.onramp);
    } else if cmd.WebhookCall? {
      WebhookKeepsInv(w, cmd.webhook);
    } else {
      StockCmdKeepsInv(w, cmd);
    }
  }

  /** The invariant holds wherever a run leads. */
  least lemma RunKeepsInv(w: World, after: World)
    requires Leads(w, after) && Inv(w.db)
    ensures Inv(after.db)
  {
    if w != after {
      var mid, cmd :| Leads(w, mid) && Moves(mid, cmd, after);
      RunKeepsInv(w, mid);
      ExecKeepsInv(mid, cmd);
    }
  }

  /** Exactly which outside events the invariant survives. */
  lemma EventSafeIff(w: World, e: Event, id: SaleId)
    requires Inv(w.db)
    ensures Inv(Exec(w, NewEvent(e, id)).db) <==> !StraySale(w.db, e, id)
  {
    if StraySale(w.db, e, id) {
      StrayEventBreaksInv(w, e, id);
    } else {
      NewEventKeepsInv(w, e, id);
    }
  }
}
