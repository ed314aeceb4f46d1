// The sale loop of the confirmation handler: each cart line locks its product,
// checks the stock that is left, moves it, and writes a sale line. The greedy
// line-by-line check is related to the aggregate demand of the whole cart.
module Selling {
  import opened Basics
  import opened Tables
  import opened Movements

  /** What the loop has produced so far. */
  datatype Sold = Sold(products: map<ProductId, Product>, movements: seq<Movement>,
                       lines: seq<SaleLine>, cogs: Cents)

  /** The cost of one sale line. */
  function Cogs(quantity: int, unitCost: Cents): Cents {
    quantity * unitCost
  }

  function SellLine(sold: Sold, business: BusinessId, order: OrderId, sale: SaleId, snap: Snapshot)
    : Result<Sold, Error>
  {
    if !snap.CartLine? then Err(BadProductReference)
    else if snap.product !in sold.products || sold.products[snap.product].business != business then
      Err(UnknownProduct)
    else
      var product := sold.products[snap.product];
      if product.stock < snap.quantity then Err(InsufficientStock)
      else
        match ApplyMovement(snap.product, product, SaleOut, -snap.quantity, Some("vente"), Some(order))
        case Err(e) => Err(e)
        case Ok((row, movement)) =>
          Ok(Sold(sold.products[snap.product := row],
                  sold.movements + [movement],
                  sold.lines + [SaleLine(sale, snap.product, snap.quantity, snap.unitPrice, snap.unitCost)],
                  sold.cogs + Cogs(snap.quantity, snap.unitCost)))
  }

  /** The loop over the frozen lines, in their order. */
  function Sell(products: map<ProductId, Product>, business: BusinessId, order: OrderId, sale: SaleId,
                snaps: seq<Snapshot>): Result<Sold, Error>
  {
    if snaps == [] then Ok(Sold(products, [], [], 0))
    else
      var n := |snaps| - 1;
      match Sell(products, business, order, sale, snaps[..n])
      case Err(e) => Err(e)
      case Ok(sold) => SellLine(sold, business, order, sale, snaps[n])
  }

  // The independent reference: what a cart asks for in total.

  function Wanted(id: ProductId): Snapshot -> int {
    (s: Snapshot) => if s.CartLine? && s.product == id then s.quantity else 0
  }

  /** The quantity of a product over all lines of a cart, repeats included. */
  function Demand(snaps: seq<Snapshot>, id: ProductId): int {
    SumOf(snaps, Wanted(id))
  }

  function QuantityTimesCost(): Snapshot -> int {
    (s: Snapshot) => if s.CartLine? then s.quantity * s.unitCost else 0
  }

  /** The cost of a whole cart: quantity times unit cost, summed over its lines. */
  function CartCost(snaps: seq<Snapshot>): Cents {
    SumOf(snaps, QuantityTimesCost())
  }

  /** Every line is a cart line of an existing product of the business. */
  ghost predicate Sellable(products: map<ProductId, Product>, business: BusinessId, snaps: seq<Snapshot>) {
    forall s :: s in snaps ==>
      s.CartLine? && s.product in products && products[s.product].business == business
  }

  ghost predicate PositiveLines(snaps: seq<Snapshot>) {
    forall s :: s in snaps && s.CartLine? ==> s.quantity > 0
  }

  /** The whole cart is covered by the stock, product by product. */
  ghost predicate Covered(products: map<ProductId, Product>, snaps: seq<Snapshot>) {
    forall id :: id in products ==> Demand(snaps, id) <= products[id].stock || Demand(snaps, id) == 0
  }

  /** The sale line that a cart line becomes. */
  function LineFor(sale: SaleId, s: Snapshot): SaleLine
    requires s.CartLine?
  {
    SaleLine(sale, s.product, s.quantity, s.unitPrice, s.unitCost)
  }

  /** The product table with the demand of the cart taken out. */
  function Depleted(products: map<ProductId, Product>, snaps: seq<Snapshot>): map<ProductId, Product> {
    map id | id in products :: products[id].(stock := products[id].stock - Demand(snaps, id))
  }

  /** The movement of line i of a cart: the stock it leaves counts the cart's lines up to i. */
  function SaleMove(products: map<ProductId, Product>, business: BusinessId, order: OrderId,
                    snaps: seq<Snapshot>, i: nat): Movement
    requires i < |snaps| && snaps[i].CartLine? && snaps[i].product in products
  {
    var s := snaps[i];
    Movement(business, s.product, SaleOut, -s.quantity,
             products[s.product].stock - Demand(snaps[..i + 1], s.product),
             NonEmpty(Some(order)), Some("vente"))
  }

  ghost predicate LinesExact(sale: SaleId, snaps: seq<Snapshot>, lines: seq<SaleLine>) {
    && |lines| == |snaps|
    && forall i :: 0 <= i < |snaps| ==> snaps[i].CartLine? && lines[i] == LineFor(sale, snaps[i])
  }

  ghost predicate MovesExact(products: map<ProductId, Product>, business: BusinessId, order: OrderId,
                             snaps: seq<Snapshot>, moves: seq<Movement>)
  {
    && |moves| == |snaps|
    && forall i :: 0 <= i < |snaps| ==>
         && snaps[i].CartLine? && snaps[i].product in products
         && moves[i] == SaleMove(products, business, order, snaps, i)
         && moves[i].after >= 0
  }

  /** What a successful loop leaves behind, stated without the loop. */
  ghost predicate SoldExactly(products: map<ProductId, Product>, business: BusinessId, order: OrderId,
                              sale: SaleId, snaps: seq<Snapshot>, sold: Sold)
  {
    && Sellable(products, business, snaps)
    && sold.products == Depleted(products, snaps)
    && LinesExact(sale, snaps, sold.lines)
    && MovesExact(products, business, order, snaps, sold.movements)
    && sold.cogs == CartCost(snaps)
  }

  lemma DemandPush(snaps: seq<Snapshot>, s: Snapshot, id: ProductId)
    ensures Demand(snaps + [s], id) == Demand(snaps, id) + Wanted(id)(s)
  {
    SumPush(snaps, s, Wanted(id));
  }

  /** The loop accepts one more line exactly when the total demand still fits. */
  lemma SellLineAccepts(products: map<ProductId, Product>, business: BusinessId, order: OrderId, sale: SaleId,
                        snaps: seq<Snapshot>, sold: Sold, s: Snapshot)
    requires sold.products == Depleted(products, snaps)
    ensures SellLine(sold, business, order, sale, s).Ok? <==>
            && s.CartLine? && s.product in products && products[s.product].business == business
            && Demand(snaps + [s], s.product) <= products[s.product].stock
  {
    if s.CartLine? {
      DemandPush(snaps, s, s.product);
    }
  }

  lemma DepletedPush(products: map<ProductId, Product>, snaps: seq<Snapshot>, s: Snapshot)
    requires s.CartLine? && s.product in products
    ensures var before := Depleted(products, snaps);
            Depleted(products, snaps + [s])
            == before[s.product := before[s.product].(stock := before[s.product].stock - s.quantity)]
  {
    forall id ensures Demand(snaps + [s], id) == Demand(snaps, id) + Wanted(id)(s) {
      DemandPush(snaps, s, id);
    }
  }

  lemma MovesPush(products: map<ProductId, Product>, business: BusinessId, order: OrderId,
                  snaps: seq<Snapshot>, moves: seq<Movement>, s: Snapshot, m: Movement)
    requires MovesExact(products, business, order, snaps, moves)
    requires s.CartLine? && s.product in products
    requires m == SaleMove(products, business, order, snaps + [s], |snaps|) && m.after >= 0
    ensures MovesExact(products, business, order, snaps + [s], moves + [m])
  {
    var longer := snaps + [s];
    forall i | 0 <= i < |snaps|
      ensures SaleMove(products, business, order, longer, i) == moves[i]
    {
      assert longer[..i + 1] == snaps[..i + 1];
    }
  }

  /** What one accepted line adds to the loop's state. */
  lemma SellLineAdds(products: map<ProductId, Product>, business: BusinessId, order: OrderId, sale: SaleId,
                     snaps: seq<Snapshot>, sold: Sold, s: Snapshot)
    requires sold.products == Depleted(products, snaps)
    requires SellLine(sold, business, order, sale, s).Ok?
    ensures var after := SellLine(sold, business, order, sale, s).value;
            && s.CartLine? && s.product in products && products[s.product].business == business
            && after.products == Depleted(products, snaps + [s])
            && after.lines == sold.lines + [LineFor(sale, s)]
            && after.movements == sold.movements + [SaleMove(products, business, order, snaps + [s], |snaps|)]
            && SaleMove(products, business, order, snaps + [s], |snaps|).after >= 0
            && after.cogs == sold.cogs + s.quantity * s.unitCost
  {
    DepletedPush(products, snaps, s);
    DemandPush(snaps, s, s.product);
    assert (snaps + [s])[..|snaps| + 1] == snaps + [s];
  }

  lemma SellLineExact(products: map<ProductId, Product>, business: BusinessId, order: OrderId, sale: SaleId,
                      snaps: seq<Snapshot>, sold: Sold, s: Snapshot, longer: seq<Snapshot>)
    requires SoldExactly(products, business, order, sale, snaps, sold) && longer == snaps + [s]
    requires SellLine(sold, business, order, sale, s).Ok?
    ensures SoldExactly(products, business, order, sale, longer,
                        SellLine(sold, business, order, sale, s).value)
  {
    SellLineAdds(products, business, order, sale, snaps, sold, s);
    MovesPush(products, business, order, snaps, sold.movements, s,
              SaleMove(products, business, order, snaps + [s], |snaps|));
    SumPush(snaps, s, QuantityTimesCost());
  }

  lemma LastApart<T>(rows: seq<T>)
    requires rows != []
    ensures rows == rows[..|rows| - 1] + [rows[|rows| - 1]]
  {
  }

  lemma SellNothing(products: map<ProductId, Product>, business: BusinessId, order: OrderId, sale: SaleId)
    ensures SoldExactly(products, business, order, sale, [], Sold(products, [], [], 0))
  {
    assert Depleted(products, []) == products;
  }

  lemma SellLastExact(products: map<ProductId, Product>, business: BusinessId, order: OrderId, sale: SaleId,
                      snaps: seq<Snapshot>, before: Sold)
    requires snaps != [] && Sell(products, business, order, sale, snaps).Ok?
    requires Sell(products, business, order, sale, snaps[..|snaps| - 1]) == Ok(before)
    requires SoldExactly(products, business, order, sale, snaps[..|snaps| - 1], before)
    ensures SoldExactly(products, business, order, sale, snaps,
                        Sell(products, business, order, sale, snaps).value)
  {
    var n := |snaps| - 1;
    LastApart(snaps);
    SellLineExact(products, business, order, sale, snaps[..n], before, snaps[n], snaps);
  }

  /** Whatever the loop accepts, it books exactly: stock, movements, lines and cost. */
  lemma {:induction false} SellExact(products: map<ProductId, Product>, business: BusinessId, order: OrderId,
                                     sale: SaleId, snaps: seq<Snapshot>)
    requires Sell(products, business, order, sale, snaps).Ok?
    ensures SoldExactly(products, business, order, sale, snaps,
                        Sell(products, business, order, sale, snaps).value)
  {
    if snaps == [] {
      SellNothing(products, business, order, sale);
    } else {
      var init := snaps[..|snaps| - 1];
      SellExact(products, business, order, sale, init);
      SellLastExact(products, business, order, sale, snaps, Sell(products, business, order, sale, init).value);
    }
  }

  lemma {:induction false} DemandMonotone(snaps: seq<Snapshot>, n: nat, id: ProductId)
    requires PositiveLines(snaps) && n <= |snaps|
    ensures 0 <= Demand(snaps[..n], id) <= Demand(snaps, id)
    decreases |snaps|
  {
    if snaps != [] {
      var k := |snaps| - 1;
      assert snaps[k] in snaps;
      assert forall s :: s in snaps[..k] ==> s in snaps;
      if n <= k {
        assert snaps[..k][..n] == snaps[..n];
        DemandMonotone(snaps[..k], n, id);
      } else {
        assert snaps[..n] == snaps;
        assert snaps[..k][..0] == [];
        DemandMonotone(snaps[..k], 0, id);
      }
    }
  }

  /** Sellable and Covered in terms of the last line and the lines before it. */
  lemma CoveredPush(products: map<ProductId, Product>, business: BusinessId, init: seq<Snapshot>, last: Snapshot)
    requires PositiveLines(init + [last])
    ensures Sellable(products, business, init + [last]) && Covered(products, init + [last])
            <==> && Sellable(products, business, init) && Covered(products, init)
                 && last.CartLine? && last.product in products && products[last.product].business == business
                 && Demand(init + [last], last.product) <= products[last.product].stock
  {
    var snaps := init + [last];
    assert last in snaps;
    assert forall s :: s in snaps <==> s in init || s == last;
    assert snaps[..|init|] == init;
    forall id
      ensures Demand(snaps, id) == Demand(init, id) + Wanted(id)(last)
      ensures 0 <= Demand(init, id)
    {
      DemandPush(init, last, id);
      DemandMonotone(snaps, |init|, id);
    }
  }

  /** The greedy per-line check accepts a cart of positive lines exactly when, for every
      product, the total over all its lines fits its starting stock. */
  lemma {:induction false} GreedyIsAggregate(products: map<ProductId, Product>, business: BusinessId,
                                             order: OrderId, sale: SaleId, snaps: seq<Snapshot>)
    requires PositiveLines(snaps)
    ensures Sell(products, business, order, sale, snaps).Ok?
            <==> Sellable(products, business, snaps) && Covered(products, snaps)
  {
    if snaps != [] {
      var n := |snaps| - 1;
      var init, last := snaps[..n], snaps[n];
      assert snaps == init + [last];
      assert forall s :: s in init ==> s in snaps;
      GreedyIsAggregate(products, business, order, sale, init);
      CoveredPush(products, business, init, last);
      if Sell(products, business, order, sale, init).Ok? {
        SellExact(products, business, order, sale, init);
        SellLineAccepts(products, business, order, sale, init,
                        Sell(products, business, order, sale, init).value, last);
      }
    }
  }

  /** A member of one listing of a bag can be taken out of any other listing of it. */
  lemma TakeOut<T>(a: seq<T>, b: seq<T>) returns (k: nat)
    requires multiset(a) == multiset(b) && a != []
    ensures k < |b| && b[k] == a[|a| - 1]
    ensures multiset(a[..|a| - 1]) == multiset(b[..k] + b[k + 1..])
  {
    var n := |a| - 1;
    assert a[n] in multiset(b);
    k :| 0 <= k < |b| && b[k] == a[n];
    assert a == a[..n] + [a[n]];
    assert b == b[..k] + [b[k]] + b[k + 1..];
    assert multiset(a) == multiset(a[..n]) + multiset{a[n]};
    assert multiset(b) == multiset(b[..k]) + multiset{b[k]} + multiset(b[k + 1..]);
    assert multiset(b[..k] + b[k + 1..]) == multiset(b) - multiset{b[k]};
    assert multiset(a[..n]) == multiset(a) - multiset{a[n]};
  }

  lemma {:induction false} SumPermutation<T>(a: seq<T>, b: seq<T>, f: T -> int)
    requires multiset(a) == multiset(b)
    ensures SumOf(a, f) == SumOf(b, f)
  {
    if a == [] {
      assert |multiset(b)| == 0;
      assert b == [];
    } else {
      var n := |a| - 1;
      var k := TakeOut(a, b);
      SumPermutation(a[..n], b[..k] + b[k + 1..], f);
      SumWithout(b, k, f);
    }
  }

  lemma SplitAt<T>(b: seq<T>, k: nat)
    requires k < |b|
    ensures b == (b[..k] + [b[k]]) + b[k + 1..]
  {
  }

  lemma SumWithout<T>(b: seq<T>, k: nat, f: T -> int)
    requires k < |b|
    ensures SumOf(b, f) == SumOf(b[..k] + b[k + 1..], f) + f(b[k])
  {
    var left, right := b[..k], b[k + 1..];
    SplitAt(b, k);
    SumAppend(left, right, f);
    SumAppend(left + [b[k]], right, f);
    SumPush(left, b[k], f);
  }

  lemma CoveredPermutation(products: map<ProductId, Product>, business: BusinessId,
                           a: seq<Snapshot>, b: seq<Snapshot>)
    requires multiset(a) == multiset(b)
    ensures Sellable(products, business, a) <==> Sellable(products, business, b)
    ensures PositiveLines(a) <==> PositiveLines(b)
    ensures Covered(products, a) <==> Covered(products, b)
    ensures Depleted(products, a) == Depleted(products, b)
    ensures CartCost(a) == CartCost(b)
  {
    assert forall s :: (s in a <==> s in multiset(a)) && (s in b <==> s in multiset(b));
    forall id ensures Demand(a, id) == Demand(b, id) {
      SumPermutation(a, b, Wanted(id));
    }
    SumPermutation(a, b, QuantityTimesCost());
  }

  /** Neither success nor the final stock nor the cost depends on the order of the cart lines. */
  lemma SellIgnoresLineOrder(products: map<ProductId, Product>, business: BusinessId, order: OrderId,
                             sale: SaleId, a: seq<Snapshot>, b: seq<Snapshot>)
    requires multiset(a) == multiset(b)
    requires PositiveLines(a)
    ensures var ra := Sell(products, business, order, sale, a);
            var rb := Sell(products, business, order, sale, b);
            && (ra.Ok? <==> rb.Ok?)
            && (ra.Ok? ==> && ra.value.products == rb.value.products
                           && ra.value.cogs == rb.value.cogs)
  {
    CoveredPermutation(products, business, a, b);
    GreedyIsAggregate(products, business, order, sale, a);
    GreedyIsAggregate(products, business, order, sale, b);
    if Sell(products, business, order, sale, a).Ok? {
      SellExact(products, business, order, sale, a);
      SellExact(products, business, order, sale, b);
    }
  }

  /** The sale loop keeps the stock table and the movement log in step, whatever the quantities. */
  lemma {:induction false} SellKeepsLedger(products: map<ProductId, Product>, log: seq<Movement>,
                                           business: BusinessId, order: OrderId, sale: SaleId,
                                           snaps: seq<Snapshot>)
    requires StockLedger(products, log)
    requires Sell(products, business, order, sale, snaps).Ok?
    ensures var sold := Sell(products, business, order, sale, snaps).value;
            StockLedger(sold.products, log + sold.movements)
  {
    var sold := Sell(products, business, order, sale, snaps).value;
    if snaps == [] {
      assert log + sold.movements == log;
    } else {
      var n := |snaps| - 1;
      SellKeepsLedger(products, log, business, order, sale, snaps[..n]);
      var before := Sell(products, business, order, sale, snaps[..n]).value;
      var id := snaps[n].product;
      MovementKeepsLedger(before.products, log + before.movements, id, sold.products[id], sold.movements[|before.movements|]);
      assert log + sold.movements == log + before.movements + [sold.movements[|before.movements|]];
    }
  }

  /** One line works on the product table alone; what was booked before only stays in front. */
  lemma SellLineLocal(sold: Sold, business: BusinessId, order: OrderId, sale: SaleId, snap: Snapshot)
    ensures var alone := SellLine(Sold(sold.products, [], [], 0), business, order, sale, snap);
            SellLine(sold, business, order, sale, snap)
            == match alone
               case Err(x) => Err(x)
               case Ok(a) => Ok(Sold(a.products, sold.movements + a.movements, sold.lines + a.lines,
                                     sold.cogs + a.cogs))
  {
    var alone := SellLine(Sold(sold.products, [], [], 0), business, order, sale, snap);
    if alone.Ok? {
      var a := alone.value;
      assert a.movements == [a.movements[0]] && a.lines == [a.lines[0]];
      assert SellLine(sold, business, order, sale, snap).value
          == Sold(a.products, sold.movements + [a.movements[0]], sold.lines + [a.lines[0]], sold.cogs + a.cogs);
    }
  }

  /** The first line that fails decides the error of the whole loop. */
  lemma {:induction false} SellStopsAtError(products: map<ProductId, Product>, business: BusinessId,
                                            order: OrderId, sale: SaleId, snaps: seq<Snapshot>, k: nat)
    requires k <= |snaps|
    requires Sell(products, business, order, sale, snaps[..k]).Err?
    ensures Sell(products, business, order, sale, snaps) == Sell(products, business, order, sale, snaps[..k])
  {
    if k < |snaps| {
      assert snaps[..|snaps| - 1][..k] == snaps[..k];
      SellStopsAtError(products, business, order, sale, snaps[..|snaps| - 1], k);
    } else {
      assert snaps[..k] == snaps;
    }
  }

  lemma {:induction false} SellErrors(products: map<ProductId, Product>, business: BusinessId, order: OrderId,
                                      sale: SaleId, snaps: seq<Snapshot>)
    requires Sell(products, business, order, sale, snaps).Err?
    ensures Sell(products, business, order, sale, snaps).error
            in {BadProductReference, UnknownProduct, InsufficientStock}
  {
    var n := |snaps| - 1;
    if Sell(products, business, order, sale, snaps[..n]).Err? {
      SellErrors(products, business, order, sale, snaps[..n]);
    }
  }
}
