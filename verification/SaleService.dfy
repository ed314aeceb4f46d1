// The services that write the confirmation chain, step by step, on the mutable
// database. Each is proved to end either in the state its specification
// function gives or, on an error, in exactly the state it started from.
module StockService {
  import opened Basics
  import opened Tables
  import opened Movements
  import opened Storage

  /** Append one movement row without touching the stock. */
  method RecordStockMovement(store: Store, id: ProductId, product: Product, kind: MovementKind, delta: int,
                             after: int, reason: Option<string>, reference: Option<string>)
    returns (row: Movement)
    requires store.Valid() && store.marks != []
    modifies store
    ensures store.Valid() && store.SameSavepoints()
    ensures row.business == product.business && row.product == id && row.kind == kind
    ensures row.delta == delta && row.after == after
    ensures row.reference == NonEmpty(reference) && row.reason == NonEmpty(reason)
    ensures store.View() == old(store.View()).(db := old(store.View()).db.(movements := old(store.movements) + [row]))
  {
    row := MovementRow(id, product, kind, delta, after, reason, reference);
    store.InsertMovement(row);
  }

  /** Move the stock of a fetched product and log the movement, both or neither. */
  method ApplyStockMovement(store: Store, id: ProductId, product: Product, kind: MovementKind, delta: int,
                            reason: Option<string>, reference: Option<string>)
    returns (r: Result<Movement, Error>)
    requires store.Valid() && id in store.products && store.products[id] == product
    modifies store
    ensures store.Valid() && store.SameSavepoints()
    ensures match ApplyMovement(id, product, kind, delta, reason, reference)
            case Err(x) => r == Err(x) && store.View() == old(store.View())
            case Ok((row, m)) =>
              && r == Ok(m)
              && store.View() == old(store.View()).(db := old(store.View()).db.(
                   products := old(store.products)[id := row], movements := old(store.movements) + [m]))
  {
    if kind == Adjustment && Blank(reason) {
      return Err(ReasonRequired);
    }
    var after := product.stock + delta;
    if after < 0 {
      return Err(NegativeStock);
    }
    store.Begin();
    var saved := product.(stock := after);
    store.SaveProduct(id, saved);
    var row := RecordStockMovement(store, id, saved, kind, delta, after, reason, reference);
    store.Release();
    return Ok(row);
  }
}

module SaleService {
  import opened Basics
  import opened Tables
  import opened Selling
  import opened Automation
  import opened Confirmation
  import opened Storage
  import opened StockService

  /** One pass of the sale loop: lock and re-read the product, check, move, write the line. */
  method SellOneLine(store: Store, business: BusinessId, order: OrderId, sale: SaleId, snap: Snapshot)
    returns (r: Result<Cents, Error>)
    requires store.Valid() && store.marks != []
    modifies store
    ensures store.Valid() && store.SameSavepoints()
    ensures match SellLine(Sold(old(store.products), [], [], 0), business, order, sale, snap)
            case Err(x) => r == Err(x)
            case Ok(a) =>
              && r == Ok(a.cogs)
              && store.View() == old(store.View()).(db := old(store.View()).db.(
                   products := a.products, movements := old(store.movements) + a.movements,
                   lines := old(store.lines) + a.lines))
  {
    if !snap.CartLine? {
      return Err(BadProductReference);
    }
    if snap.product !in store.products || store.products[snap.product].business != business {
      return Err(UnknownProduct);
    }
    var product := store.products[snap.product];
    if product.stock < snap.quantity {
      return Err(InsufficientStock);
    }
    var moved := ApplyStockMovement(store, snap.product, product, SaleOut, -snap.quantity,
                                    Some("vente"), Some(order));
    assert moved.Ok?;  // the movement's own check repeats the one above
    store.InsertLine(SaleLine(sale, snap.product, snap.quantity, snap.unitPrice, snap.unitCost));
    return Ok(Cogs(snap.quantity, snap.unitCost));
  }

  /** The loop over the frozen cart. An error leaves partial work for the caller to roll back. */
  method SellLines(store: Store, business: BusinessId, order: OrderId, sale: SaleId, snaps: seq<Snapshot>)
    returns (r: Result<Cents, Error>)
    requires store.Valid() && store.marks != []
    modifies store
    ensures store.Valid() && store.SameSavepoints()
    ensures match Sell(old(store.products), business, order, sale, snaps)
            case Err(x) => r == Err(x)
            case Ok(sold) =>
              && r == Ok(sold.cogs)
              && store.View() == old(store.View()).(db := old(store.View()).db.(
                   products := sold.products, movements := old(store.movements) + sold.movements,
                   lines := old(store.lines) + sold.lines))
  {
    var total := 0;
    var k := 0;
    ghost var products := store.products;
    while k < |snaps|
      invariant 0 <= k <= |snaps|
      invariant store.Valid() && store.SameSavepoints()
      invariant match Sell(products, business, order, sale, snaps[..k])
                case Err(x) => false
                case Ok(sold) =>
                  && total == sold.cogs
                  && store.View() == old(store.View()).(db := old(store.View()).db.(
                       products := sold.products, movements := old(store.movements) + sold.movements,
                       lines := old(store.lines) + sold.lines))
    {
      ghost var sold := Sell(products, business, order, sale, snaps[..k]).value;
      SellLineLocal(sold, business, order, sale, snaps[k]);
      assert snaps[..k + 1][..k] == snaps[..k];
      var line := SellOneLine(store, business, order, sale, snaps[k]);
      if line.Err? {
        SellStopsAtError(products, business, order, sale, snaps, k + 1);
        return Err(line.error);
      }
      total := total + line.value;
      k := k + 1;
    }
    assert snaps[..k] == snaps;
    return Ok(total);
  }

  /** The new sale with its lines, ledger entries and receipt. An error leaves partial work. */
  method RecordSaleRows(store: Store, sale: Sale, order: OrderId, snaps: seq<Snapshot>)
    returns (r: Result<(), Error>)
    requires store.Valid() && store.marks != []
    modifies store
    ensures store.Valid() && store.SameSavepoints()
    ensures match RecordSale(old(store.View()).db, sale, order, snaps)
            case Err(x) => r == Err(x)
            case Ok(db) => r == Ok(()) && store.View() == old(store.View()).(db := db)
  {
    if SaleIdTaken(store.sales, sale.id) {
      return Err(IntegrityError);
    }
    store.InsertSale(sale);
    var total := SellLines(store, sale.business, order, sale.id, snaps);
    if total.Err? {
      return Err(total.error);
    }
    store.InsertEntry(RevenueEntry(sale));
    store.InsertEntry(CogsEntry(sale, total.value));
    store.InsertReceipt(ReceiptFor(sale, order, Where(store.lines, LineOf(sale.id))));
    ghost var sold := Sell(old(store.products), sale.business, order, sale.id, snaps).value;
    assert store.entries == old(store.entries) + [RevenueEntry(sale), CogsEntry(sale, sold.cogs)];
    return Ok(());
  }

  /** The entries that a rule reports: the sold products that ended low. */
  method CollectLowStock(store: Store, lines: seq<SaleLine>) returns (low: multiset<LowStockItem>)
    ensures low == LowItems(store.products, lines)
  {
    low := multiset{};
    for k := 0 to |lines|
      invariant low == LowItems(store.products, lines[..k])
    {
      assert lines[..k + 1][..k] == lines[..k];
      var id := lines[k].product;
      if id in store.products && store.products[id].LowStock() {
        low := low + multiset{LowItem(id, store.products[id])};
      }
    }
    assert lines[..|lines|] == lines;
  }

  method EnsureRule(store: Store, b: BusinessId)
    requires store.Valid()
    modifies store
    ensures store.Valid() && store.SameSavepoints()
    ensures store.View() == old(store.View()).(rules := EnsureDefaultRule(old(store.rules), b))
  {
    if !HasTriggerRule(store.rules, b) {
      store.Begin();
      store.InsertRule(DefaultRule(b));
      store.Release();
    }
  }

  /** One rule against the lines of a sale. */
  method EvaluateRule(store: Store, rule: Rule, e: EventId, b: BusinessId, sale: SaleId)
    requires store.Valid()
    modifies store
    ensures store.Valid() && store.SameSavepoints()
    ensures var low := LowItems(old(store.products), Where(old(store.lines), LineOf(sale)));
            store.View() == old(store.View()).(executions := old(store.executions)
              + OneFired(rule, e, b, sale, low))
  {
    if Applies(rule, b) {
      var items := CollectLowStock(store, Where(store.lines, LineOf(sale)));
      if items != multiset{} {
        store.Begin();
        store.InsertExecution(Execution(rule, e, sale, items));
        store.Release();
      }
    }
  }

  lemma FiredStep(done: seq<Execution>, rules: seq<Rule>, k: nat, e: EventId, b: BusinessId, sale: SaleId,
                  low: multiset<LowStockItem>)
    requires k < |rules| && !Fails(rules[k], b)
    ensures done + Fired(rules[..k + 1], e, b, sale, low)
            == (done + OneFired(rules[k], e, b, sale, low)) + Fired(rules[..k], e, b, sale, low)
  {
    assert rules[..k + 1][..k] == rules[..k];
  }

  /** All rules, the newest first; a failing one ends the evaluation and keeps what it has done. */
  method EvaluateRules(store: Store, e: EventId, b: BusinessId, sale: SaleId)
    requires store.Valid()
    modifies store
    ensures store.Valid() && store.SameSavepoints()
    ensures store.View() == old(store.View()).(executions := old(store.executions)
              + Fired(old(store.rules), e, b, sale,
                      LowItems(old(store.products), Where(old(store.lines), LineOf(sale)))))
  {
    var rules := store.rules;
    ghost var low := LowItems(store.products, Where(store.lines, LineOf(sale)));
    ghost var done: seq<Execution> := [];
    var k := |rules|;
    assert rules[..k] == rules;
    while k > 0 && !Fails(rules[k - 1], b)
      invariant 0 <= k <= |rules|
      invariant store.Valid() && store.SameSavepoints()
      invariant store.View() == old(store.View()).(executions := old(store.executions) + done)
      invariant done + Fired(rules[..k], e, b, sale, low) == Fired(rules, e, b, sale, low)
    {
      k := k - 1;
      FiredStep(done, rules, k, e, b, sale, low);
      done := done + OneFired(rules[k], e, b, sale, low);
      EvaluateRule(store, rules[k], e, b, sale);
    }
    assert Fired(rules[..k], e, b, sale, low) == [];
  }

  /** Evaluate the rules of the business for the sale of an event, if it has one. */
  method RunAutomationForEvent(store: Store, e: Event)
    requires store.Valid()
    modifies store
    ensures store.Valid() && store.SameSavepoints()
    ensures store.View() == match FindSale(old(store.sales), e.id)
                            case Some(s) => Automate(old(store.View()), e.id, e.business, s.id)
                            case None => old(store.View()).(rules := EnsureDefaultRule(old(store.rules), e.business))
  {
    EnsureRule(store, e.business);
    var found := FindSale(store.sales, e.id);
    if found.Some? {
      EvaluateRules(store, e.id, e.business, found.value.id);
    }
  }

  /** The body of the handler's atomic block. An error leaves partial work. */
  method SettleEvent(store: Store, e: Event, saleId: SaleId)
    returns (r: Result<(Option<Sale>, bool), Error>)
    requires store.Valid() && store.marks != []
    modifies store
    ensures store.Valid() && store.SameSavepoints()
    ensures match Handle(old(store.View()).db, e, saleId)
            case Err(x) => r == Err(x)
            case Ok(h) => r == Ok((h.sale, h.created)) && store.View() == old(store.View()).(db := h.db)
  {
    var sale := FindSale(store.sales, e.id);
    if sale.Some? {
      return Ok((sale, false));
    }
    var backing := BackingPayment(store.orders, store.payments, e);
    if backing.None? {
      return Err(NoBackingPayment);
    }
    var payment := store.payments[backing.value];
    if payment.purpose == Subscribing {
      return Ok((None, false));
    }
    if payment.event.Some? && payment.event != Some(e.id) {
      var earlier := FindSale(store.sales, payment.event.value);
      return if earlier.Some? then Ok((earlier, false)) else Err(ConfirmedElsewhere);
    }
    var row := SaleFor(e, payment, saleId);
    var written := RecordSaleRows(store, row, backing.value, payment.lines);
    if written.Err? {
      return Err(written.error);
    }
    return Ok((Some(row), true));
  }

  /** The handler's atomic block: everything or nothing. */
  method SettleAtomically(store: Store, e: Event, saleId: SaleId)
    returns (r: Result<(Option<Sale>, bool), Error>)
    requires store.Valid()
    modifies store
    ensures store.Valid() && store.SameSavepoints()
    ensures match Handle(old(store.View()).db, e, saleId)
            case Err(x) => r == Err(x) && store.View() == old(store.View())
            case Ok(h) => r == Ok((h.sale, h.created)) && store.View() == old(store.View()).(db := h.db)
  {
    store.Begin();
    r := SettleEvent(store, e, saleId);
    if r.Err? {
      store.Rollback();
    } else {
      store.Release();
    }
  }

  /** Record the business state of a confirmed payment, once. */
  method HandleFinancialEvent(store: Store, e: Event, saleId: SaleId) returns (r: Result<Option<Sale>, Error>)
    requires store.Valid()
    modifies store
    ensures store.Valid() && store.SameSavepoints()
    ensures match HandleWorld(old(store.View()), e, saleId)
            case Err(x) => r == Err(x) && store.View() == old(store.View())
            case Ok((w, sale)) => r == Ok(sale) && store.View() == w
  {
    var existing := FindSale(store.sales, e.id);
    if existing.Some? {
      return Ok(existing);
    }
    var settled := SettleAtomically(store, e, saleId);
    if settled.Err? {
      return Err(settled.error);
    }
    if settled.value.1 {
      RunAutomationForEvent(store, e);
    }
    return Ok(settled.value.0);
  }
}
