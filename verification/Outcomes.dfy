// What each request leaves behind, field by field. The statements name none of
// the functions that compute it.
module Outcomes {
  import opened Basics
  import opened Tables
  import opened Movements
  import opened Selling
  import opened Automation
  import opened Confirmation
  import opened Checkout
  import opened Requests
  import opened PaymentService
  import opened Books
  import opened Preservation
  import opened Runs
  import opened History
  import opened Statements

  // Stock corrections.

  /** A request that may be carried out, were there stock enough; reason is already stripped. */
  predicate OwnCorrection(db: Db, a: StockArgs, reason: string) {
    && 1 <= |reason| <= 255 && (a.restock ==> a.quantity >= 1)
    && a.product in db.products && db.products[a.product].business == a.business
  }

  /** A correction succeeds exactly if it is well-formed and leaves no negative stock. It then adds
      the quantity to that one stock and one row to the log, and nothing else changes. */
  lemma CorrectionOutcome(w: World, a: StockArgs)
    ensures var reason := Strip(a.reason);
            var after := Exec(w, MoveStock(a));
            if OwnCorrection(w.db, a, reason) && w.db.products[a.product].stock + a.quantity >= 0 then
              var p := w.db.products[a.product];
              var row := Movement(a.business, a.product, if a.restock then Restock else Adjustment, a.quantity,
                                  p.stock + a.quantity, None, Some(reason));
              after == w.(db := w.db.(products := w.db.products[a.product := p.(stock := p.stock + a.quantity)],
                                      movements := w.db.movements + [row]))
            else after == w
  {
    StripTrims(a.reason);
    if OwnCorrection(w.db, a, Strip(a.reason)) {
      StripIsNotBlank(a.reason);
    }
  }

  lemma StripIsNotBlank(s: string)
    requires Strip(s) != ""
    ensures !Blank(Some(Strip(s)))
  {
    StripTrims(s);
    var i, j :| 0 <= i <= j <= |s| && TrimmedAt(s, Strip(s), i, j);
    assert !IsSpace(Strip(s)[0]);
  }

  /** A refused correction says why: a conflict with the stock, or an invalid request. */
  lemma CorrectionRefused(db: Db, a: StockArgs)
    requires ChangeStock(db, a).Err?
    ensures ChangeStock(db, a).error == if OwnCorrection(db, a, Strip(a.reason)) then NegativeStock else InvalidRequest
  {
    if OwnCorrection(db, a, Strip(a.reason)) {
      StripIsNotBlank(a.reason);
    }
  }

  // Products, trials and rules.

  /** A product enters with the stock it brings and the opening row of its log. */
  lemma ProductOutcome(w: World, id: ProductId, p: Product)
    ensures var after := Exec(w, AddProduct(id, p));
            if p.unitPrice >= 0 && p.unitCost >= 0 && p.stock >= 0 && id !in w.db.products then
              after == w.(db := w.db.(
                products := w.db.products[id := p],
                movements := w.db.movements
                  + if p.stock == 0 then []
                    else [Movement(p.business, id, Restock, p.stock, p.stock, None, Some("stock initial"))]))
            else after == w
  {
  }

  /** Three days, once, for a business without a trial or active subscription. */
  lemma TrialOutcome(w: World, b: BusinessId, now: int)
    ensures var after := Exec(w, StartTrial(b, now));
            if exists s :: s in w.db.subscriptions && s.business == b && s.status in {Trial, Active} then after == w
            else after == w.(db := w.db.(subscriptions := w.db.subscriptions
                   + [Subscription(b, None, None, Trial, now, now + 3 * 86_400)]))
  {
    if s :| s in w.db.subscriptions && s.business == b && s.status in {Trial, Active} {
      var i :| 0 <= i < |w.db.subscriptions| && w.db.subscriptions[i] == s;
      assert HasCurrent(w.db.subscriptions, b);
    }
  }

  /** The default rule is inserted exactly if the business has no rule for confirmed payments. */
  lemma RuleOutcome(w: World, b: BusinessId)
    ensures Exec(w, SeedRule(b)).rules == RulesWithDefault(w.rules, b)
    ensures Exec(w, SeedRule(b)) == w.(rules := Exec(w, SeedRule(b)).rules)
  {
    DefaultRuleWritten(w.rules, b);
  }

  /** An owner's rule is kept as it is, and an edited product keeps its business and its stock. */
  lemma EditOutcome(w: World, rule: Rule, id: ProductId, name: string, price: Cents, cost: Cents, threshold: nat)
    ensures Exec(w, AddRule(rule)) == w.(rules := w.rules + [rule])
    ensures var after := Exec(w, EditProduct(id, name, price, cost, threshold));
            if id !in w.db.products then after == w
            else
              var p := w.db.products[id];
              after == w.(db := w.db.(products := w.db.products[id :=
                         Product(p.business, name, price, cost, p.stock, threshold)]))
  {
  }

  // Checkout.

  /** A request line with a positive quantity of an own product that has the stock for it. */
  predicate LineAccepted(products: map<ProductId, Product>, b: BusinessId, raw: RawLine) {
    var quantity := if raw.qty.Some? then raw.qty else raw.quantity;
    && quantity.Some? && quantity.value > 0
    && raw.product.Some? && raw.product.value in products
    && products[raw.product.value].business == b && products[raw.product.value].stock >= quantity.value
  }

  predicate LinesAccepted(products: map<ProductId, Product>, b: BusinessId, raws: seq<RawLine>) {
    forall i :: 0 <= i < |raws| ==> LineAccepted(products, b, raws[i])
  }

  lemma {:induction false} FreezesIff(products: map<ProductId, Product>, b: BusinessId, raws: seq<RawLine>)
    ensures FreezeLines(products, b, raws).Ok? <==> LinesAccepted(products, b, raws)
  {
    if raws != [] {
      var n := |raws| - 1;
      FreezesIff(products, b, raws[..n]);
      assert forall i :: 0 <= i < n ==> raws[..n][i] == raws[i];
    }
  }

  /** Either lines or a positive amount, never both and never neither. */
  predicate CartAccepted(db: Db, b: BusinessId, a: CheckoutArgs) {
    if a.amount.Some? then a.lines == [] && a.amount.value > 0
    else a.lines != [] && LinesAccepted(db.products, b, a.lines)
  }

  predicate CheckoutAccepted(db: Db, a: CheckoutArgs) {
    && a.business.Some? && a.currency.Some? && a.invoice.Some? && a.order !in db.payments
    && CartAccepted(db, a.business.value, a)
  }

  /** units is the amount without its hundredths, toward zero. */
  predicate Truncates(cents: Cents, units: int) {
    if cents >= 0 then 0 <= cents - 100 * units < 100 else 0 <= 100 * units - cents < 100
  }

  /** The amount in whole francs that a checkout freezes: of its own total for a BIF cart, and of
      what the rail answers, if it answers any, for other currencies. */
  predicate AmountFits(a: CheckoutArgs, snaps: seq<Snapshot>, amountBif: Option<int>)
    requires a.invoice.Some?
  {
    if a.currency == Some(BIF) then
      var total := if a.amount.Some? then a.amount.value else SumOf(snaps, QuantityTimesPrice());
      amountBif.Some? && Truncates(total, amountBif.value)
    else if a.invoice.value.amountBif.Some? then
      amountBif.Some? && Truncates(a.invoice.value.amountBif.value, amountBif.value)
    else amountBif.None?
  }

  /** The cart that a checkout freezes: none for a free amount, else line by line as requested. */
  ghost predicate CartFits(db: Db, b: BusinessId, a: CheckoutArgs, snaps: seq<Snapshot>) {
    if a.amount.Some? then snaps == []
    else FrozenFrom(db.products, b, snaps) && AsRequested(a.lines, snaps)
  }

  lemma WholeUnitsTruncate(cents: Cents)
    ensures Truncates(cents, WholeUnits(cents))
  {
  }

  lemma CheckoutIff(db: Db, a: CheckoutArgs)
    ensures CreateCheckout(db, a).Ok? <==> CheckoutAccepted(db, a)
  {
    if a.business.Some? {
      FreezesIff(db.products, a.business.value, a.lines);
    }
  }

  /** The new payment of a checkout. */
  lemma CheckoutWrites(db: Db, a: CheckoutArgs) returns (snaps: seq<Snapshot>, amountBif: Option<int>)
    requires CreateCheckout(db, a).Ok?
    ensures CheckoutAccepted(db, a)
    ensures CartFits(db, a.business.value, a, snaps) && AmountFits(a, snaps, amountBif)
    ensures CreateCheckout(db, a) == Ok(db.(
              payments := db.payments[a.order :=
                Payment(a.business.value, None, a.rail, snaps, a.currency.value, amountBif,
                        a.invoice.value.amountSats, Purpose.Checkout, Pending, None)],
              orders := db.orders + [a.order]))
  {
    CheckoutIff(db, a);
    var p := CreateCheckout(db, a).value.payments[a.order];
    snaps, amountBif := p.lines, p.amountBif;
    if a.amount.None? {
      FreezeLinesFrozen(db.products, a.business.value, a.lines);
    }
    CheckoutAmount(db, a);
  }

  lemma CheckoutAmount(db: Db, a: CheckoutArgs)
    requires CreateCheckout(db, a).Ok?
    ensures var p := CreateCheckout(db, a).value.payments[a.order];
            a.invoice.Some? && AmountFits(a, p.lines, p.amountBif)
  {
    var (snaps, total) := ResolveCart(db.products, a.business.value, a.lines, a.amount).value;
    TotalIsSum(snaps);
    WholeUnitsTruncate(total);
    if a.invoice.value.amountBif.Some? {
      WholeUnitsTruncate(a.invoice.value.amountBif.value);
    }
  }

  /** A checkout is accepted exactly under its written conditions, and then adds one pending,
      unlinked payment with the cart and the amount of the request. */
  lemma CheckoutOutcome(w: World, a: CheckoutArgs)
    ensures var after := Exec(w, CheckOut(a));
            if CheckoutAccepted(w.db, a) then
              exists snaps, amountBif ::
                && CartFits(w.db, a.business.value, a, snaps) && AmountFits(a, snaps, amountBif)
                && after == w.(db := w.db.(
                     payments := w.db.payments[a.order :=
                       Payment(a.business.value, None, a.rail, snaps, a.currency.value, amountBif,
                               a.invoice.value.amountSats, Purpose.Checkout, Pending, None)],
                     orders := w.db.orders + [a.order]))
            else after == w
  {
    CheckoutIff(w.db, a);
    if CheckoutAccepted(w.db, a) {
      var snaps, amountBif := CheckoutWrites(w.db, a);
    }
  }

  // Subscription purchases.

  /** The given amount, or else the final price of the offer. */
  function PurchaseAmount(db: Db, a: SubscribeArgs): Cents
    requires a.offer in db.offers
  {
    if a.amount.Some? then a.amount.value else db.offers[a.offer].finalPrice
  }

  predicate SubscribeAccepted(db: Db, a: SubscribeArgs) {
    && a.business.Some? && a.offer in db.offers && a.adapter && a.order !in db.payments
    && PurchaseAmount(db, a) > 0
  }

  /** A purchase freezes the offer it is for and the whole francs of its amount. */
  lemma SubscribeOutcome(w: World, a: SubscribeArgs)
    ensures var after := Exec(w, Subscribe(a));
            if SubscribeAccepted(w.db, a) then
              exists units ::
                && Truncates(PurchaseAmount(w.db, a), units)
                && after == w.(db := w.db.(
                     payments := w.db.payments[a.order :=
                       Payment(a.business.value, None, a.rail, [OfferLine(a.offer)], BIF, Some(units), None,
                               Subscribing, Pending, None)],
                     orders := w.db.orders + [a.order]))
            else after == w
  {
    if SubscribeAccepted(w.db, a) {
      WholeUnitsTruncate(PurchaseAmount(w.db, a));
      var units := WholeUnits(PurchaseAmount(w.db, a));
      assert Truncates(PurchaseAmount(w.db, a), units);
    }
  }

  /** Subscription rows are only ever added, and the offers stay. */
  ghost predicate SubscriptionsGrow(db: Db, after: Db) {
    db.subscriptions <= after.subscriptions && after.offers == db.offers
  }

  lemma FirstConfirmGrowsSubscriptions(db: Db, c: ConfirmArgs)
    requires Linkage(db.payments, db.orders, db.events) && Owned(db) && FirstConfirm(db, c)
    ensures SubscriptionsGrow(db, Confirm(db, c).value.db)
  {
    ConfirmIsDirect(db, c);
  }

  lemma AfterConfirmTables(w: World, c: ConfirmArgs)
    ensures AfterConfirm(w, c).db == if Confirm(w.db, c).Ok? then Confirm(w.db, c).value.db else w.db
  {
  }

  lemma QuietGrows(w: World, cmd: Cmd)
    requires cmd.AddProduct? || cmd.EditProduct? || cmd.MoveStock? || cmd.AddRule? || cmd.SeedRule? || cmd.CheckOut?
             || cmd.Subscribe? || cmd.StartTrial?
    ensures SubscriptionsGrow(w.db, Exec(w, cmd).db)
  {
  }

  lemma ConfirmGrows(w: World, c: ConfirmArgs)
    requires Inv(w.db)
    ensures SubscriptionsGrow(w.db, AfterConfirm(w, c).db)
  {
    if FirstConfirm(w.db, c) {
      AfterConfirmTables(w, c);
      FirstConfirmGrowsSubscriptions(w.db, c);
    } else {
      RepeatIsIdentity(w, c);
    }
  }

  lemma PollGrows(w: World, a: PollArgs)
    requires Inv(w.db)
    ensures SubscriptionsGrow(w.db, Exec(w, PollStatus(a)).db)
  {
    PollOutcome(w, a);
    if c :| Exec(w, PollStatus(a)) == AfterConfirm(w, c) {
      ConfirmGrows(w, c);
    }
  }

  lemma FinishPollGrows(w: World, p: Payment, a: PollArgs)
    requires Inv(w.db) && a.order in w.db.payments && FinishPoll(w, p, a).Ok?
    ensures SubscriptionsGrow(w.db, FinishPoll(w, p, a).value.db)
  {
    if a.answer.RailConfirmed? {
      ConfirmGrows(w, PollConfirm(p, a, a.answer.at));
      assert FinishPoll(w, p, a).value == AfterConfirm(w, PollConfirm(p, a, a.answer.at));
    }
  }

  lemma LatePollGrows(w: World, p: Payment, a: PollArgs)
    requires Inv(w.db)
    ensures SubscriptionsGrow(w.db, Exec(w, LatePoll(p, a)).db)
  {
    if a.order in w.db.payments && FinishPoll(w, p, a).Ok? {
      FinishPollGrows(w, p, a);
    }
  }

  lemma OnrampGrows(w: World, a: OnrampArgs)
    requires Inv(w.db)
    ensures SubscriptionsGrow(w.db, Exec(w, OnrampOtp(a)).db)
  {
    OnrampIsConfirm(w, a);
    if Exec(w, OnrampOtp(a)) != w {
      ConfirmGrows(w, OnrampConfirm(w.db.payments[a.order], a));
    }
  }

  lemma WebhookGrows(w: World, a: WebhookArgs)
    requires Inv(w.db)
    ensures SubscriptionsGrow(w.db, Exec(w, WebhookCall(a)).db)
  {
    ConfirmGrows(w, WebhookConfirm(a));
  }

  lemma RouteGrows(w: World, cmd: Cmd)
    requires Inv(w.db)
    requires cmd.ConfirmOrder? || cmd.PollStatus? || cmd.LatePoll? || cmd.OnrampOtp? || cmd.WebhookCall?
    ensures SubscriptionsGrow(w.db, Exec(w, cmd).db)
  {
    match cmd
    case ConfirmOrder(c) => ConfirmGrows(w, c);
    case PollStatus(a) => PollGrows(w, a);
    case LatePoll(p, a) => LatePollGrows(w, p, a);
    case OnrampOtp(a) => OnrampGrows(w, a);
    case WebhookCall(a) => WebhookGrows(w, a);
  }

  lemma MoveGrows(w: World, mid: World, cmd: Cmd, after: World)
    requires Inv(w.db) && Leads(w, mid) && SubscriptionsGrow(w.db, mid.db) && Moves(mid, cmd, after)
    ensures SubscriptionsGrow(w.db, after.db)
  {
    RunKeepsInv(w, mid);
    if cmd.NewEvent? {
      EventOutcome(mid, cmd.event, cmd.saleId);
    } else if cmd.ConfirmOrder? || cmd.PollStatus? || cmd.LatePoll? || cmd.OnrampOtp? || cmd.WebhookCall? {
      RouteGrows(mid, cmd);
    } else {
      QuietGrows(mid, cmd);
    }
  }

  /** No run takes a subscription row away, changes one, or changes the catalogue. */
  least lemma RunGrowsSubscriptions(w: World, after: World)
    requires Leads(w, after) && Inv(w.db)
    ensures SubscriptionsGrow(w.db, after.db)
  {
    if w != after {
      var mid, cmd :| Leads(w, mid) && Moves(mid, cmd, after);
      RunGrowsSubscriptions(w, mid);
      MoveGrows(w, mid, cmd, after);
    }
  }

  /** The subscription of an offer: thirty days a month, one month at least. */
  function Bought(b: BusinessId, offer: OfferId, months: nat, o: OrderId, start: int): Subscription {
    Subscription(b, Some(offer), Some(o), Active, start, start + 30 * 86_400 * (if months == 0 then 1 else months))
  }

  lemma ConfirmActivates(w: World, c: ConfirmArgs, offer: OfferId)
    requires Inv(w.db) && c.order in w.db.payments && c.order != "" && !EventIdTaken(w.db.events, c.eventId)
    requires var p := w.db.payments[c.order];
             p.event.None? && p.purpose == Subscribing && p.lines == [OfferLine(offer)]
    requires offer in w.db.offers
    ensures var p := w.db.payments[c.order];
            var after := AfterConfirm(w, c).db;
            && FirstConfirm(w.db, c) && after.offers == w.db.offers
            && after.subscriptions == w.db.subscriptions
                 + [Bought(p.business, offer, w.db.offers[offer].months, c.order, c.now)]
  {
    ActivatesIn(w.db, c, offer);
    AfterConfirmTables(w, c);
  }

  lemma ActivatesIn(db: Db, c: ConfirmArgs, offer: OfferId)
    requires Linkage(db.payments, db.orders, db.events) && Owned(db) && Subscriptions(db)
    requires c.order in db.payments && c.order != "" && !EventIdTaken(db.events, c.eventId)
    requires var p := db.payments[c.order];
             p.event.None? && p.purpose == Subscribing && p.lines == [OfferLine(offer)]
    requires offer in db.offers
    ensures Confirm(db, c).Ok? && Confirm(db, c).value.db.offers == db.offers
    ensures Confirm(db, c).value.db.subscriptions
            == db.subscriptions
               + [Bought(db.payments[c.order].business, offer, db.offers[offer].months, c.order, c.now)]
  {
    DirectPurchase(db, c);
    SubscriptionConfirmedShape(db, c);
    NewIsBought(db.offers, c.order, Linked(db.payments[c.order], c), c.now, offer);
  }

  lemma DirectPurchase(db: Db, c: ConfirmArgs)
    requires Linkage(db.payments, db.orders, db.events) && Owned(db)
    requires c.order in db.payments && c.order != "" && !EventIdTaken(db.events, c.eventId)
    requires db.payments[c.order].event.None? && db.payments[c.order].purpose == Subscribing
    ensures Confirm(db, c) == Ok(Confirmed(SubscriptionConfirmed(db, c), c.eventId, None))
  {
    ConfirmIsDirect(db, c);
  }

  lemma NewIsBought(offers: map<OfferId, Offer>, o: OrderId, p: Payment, now: int, offer: OfferId)
    requires p.lines == [OfferLine(offer)] && offer in offers
    ensures NewSubscription(offers, o, p, now) == Bought(p.business, offer, offers[offer].months, o, now)
  {
    assert FirstOffer(p.lines) == Some(offer);
  }

  lemma OnlyOneOf(subs: seq<Subscription>, o: OrderId, s: Subscription)
    requires |Where(subs, SubscriptionOf(o))| == 1 && s in subs && s.payment == Some(o)
    ensures Where(subs, SubscriptionOf(o)) == [s]
  {
    WhereMember(subs, SubscriptionOf(o));
  }

  /** Whatever comes before and after its confirmation, a purchase activates exactly one
      subscription: of the offer bought, from the moment of confirmation, for its months. */
  lemma PurchaseActivates(w: World, a: SubscribeArgs, mid: World, c: ConfirmArgs, later: World)
    requires Reachable(w) && SubscribeAccepted(w.db, a) && Leads(Exec(w, Subscribe(a)), mid)
    requires c.order == a.order && a.order != ""
    requires a.order in mid.db.payments && mid.db.payments[a.order].event.None?
    requires !EventIdTaken(mid.db.events, c.eventId) && Leads(AfterConfirm(mid, c), later)
    ensures Where(later.db.subscriptions, SubscriptionOf(a.order))
            == [Bought(a.business.value, a.offer, w.db.offers[a.offer].months, a.order, c.now)]
  {
    PurchaseStays(w, a, mid);
    ConfirmActivates(mid, c, a.offer);
    ActivationStays(mid, c, later, Bought(a.business.value, a.offer, w.db.offers[a.offer].months, a.order, c.now));
  }

  /** Until its confirmation a purchase keeps its business and its offer. */
  lemma PurchaseStays(w: World, a: SubscribeArgs, mid: World)
    requires Reachable(w) && SubscribeAccepted(w.db, a) && Leads(Exec(w, Subscribe(a)), mid)
    ensures Inv(mid.db) && mid.db.offers == w.db.offers && a.order in mid.db.payments
    ensures var p := mid.db.payments[a.order];
            p.business == a.business.value && p.purpose == Subscribing && p.lines == [OfferLine(a.offer)]
  {
    ReachableInv(w);
    var next := Exec(w, Subscribe(a));
    SubscribingKeepsInv(w.db, a);
    RunKeepsInv(next, mid);
    RunGrowsSubscriptions(next, mid);
    CartStaysFrozen(next, mid, a.order);
  }

  lemma ActivationStays(w: World, c: ConfirmArgs, later: World, s: Subscription)
    requires Inv(w.db) && FirstConfirm(w.db, c) && w.db.payments[c.order].purpose == Subscribing
    requires Leads(AfterConfirm(w, c), later)
    requires AfterConfirm(w, c).db.subscriptions == w.db.subscriptions + [s] && s.payment == Some(c.order)
    ensures Where(later.db.subscriptions, SubscriptionOf(c.order)) == [s]
  {
    var after := AfterConfirm(w, c);
    AfterConfirmKeepsInv(w, c);
    RunKeepsInv(after, later);
    RunGrowsSubscriptions(after, later);
    assert later.db.subscriptions[|w.db.subscriptions|] == s;
    PaidSubscriptionStays(w, c, later);
    assert SubscribedOnce(later.db, c.order);
    OnlyOneOf(later.db.subscriptions, c.order, s);
  }

  lemma PaidSubscriptionStays(w: World, c: ConfirmArgs, later: World)
    requires Inv(w.db) && FirstConfirm(w.db, c) && w.db.payments[c.order].purpose == Subscribing
    requires Leads(AfterConfirm(w, c), later)
    ensures c.order in later.db.payments && later.db.payments[c.order].event.Some?
    ensures later.db.payments[c.order].purpose == Subscribing
  {
    FirstConfirmShape(w, c);
    AfterConfirmKeepsInv(w, c);
    LinkIsForever(AfterConfirm(w, c), later);
  }
}
