// The stock movement rules: what one movement does to a product row and to the
// append-only movement log.
module Movements {
  import opened Basics
  import opened Tables

  /** The characters that Python's str.strip() removes. */
  predicate IsSpace(c: char) {
    || '\t' <= c <= '\r'
    || '\U{1c}' <= c <= ' '
    || c == '\U{85}' || c == '\U{a0}' || c == '\U{1680}'
    || '\U{2000}' <= c <= '\U{200a}'
    || c == '\U{2028}' || c == '\U{2029}' || c == '\U{202f}' || c == '\U{205f}' || c == '\U{3000}'
  }

  /** A reason that is absent, empty or only white space. */
  predicate Blank(reason: Option<string>) {
    reason.None? || forall i :: 0 <= i < |reason.value| ==> IsSpace(reason.value[i])
  }

  function NonEmpty(text: Option<string>): Option<string> {
    if text == Some("") then None else text
  }

  function MovementRow(id: ProductId, product: Product, kind: MovementKind, delta: int, after: int,
                       reason: Option<string>, reference: Option<string>): Movement
  {
    Movement(product.business, id, kind, delta, after, NonEmpty(reference), NonEmpty(reason))
  }

  /** The product row and the log row after one movement, or the reason why it is refused. */
  function ApplyMovement(id: ProductId, product: Product, kind: MovementKind, delta: int,
                         reason: Option<string>, reference: Option<string>)
    : Result<(Product, Movement), Error>
  {
    if kind == Adjustment && Blank(reason) then Err(ReasonRequired)
    else if product.stock + delta < 0 then Err(NegativeStock)
    else
      var after := product.stock + delta;
      Ok((product.(stock := after), MovementRow(id, product, kind, delta, after, reason, reference)))
  }

  // The log as an account of the stock.

  function Delta(id: ProductId): Movement -> int {
    (m: Movement) => if m.product == id then m.delta else 0
  }

  /** The stock that a movement log accounts for. */
  function LoggedStock(log: seq<Movement>, id: ProductId): int {
    SumOf(log, Delta(id))
  }

  /** Every row's qty_after is the running sum of its product, never negative, and every
      adjustment states a reason. */
  ghost predicate Balanced(log: seq<Movement>) {
    forall i :: 0 <= i < |log| ==>
      && log[i].after == LoggedStock(log[..i + 1], log[i].product)
      && log[i].after >= 0
      && (log[i].kind == Adjustment ==> !Blank(log[i].reason))
  }

  /** The product table is exactly what the log accounts for. */
  ghost predicate StockIsLogged(products: map<ProductId, Product>, log: seq<Movement>) {
    && (forall id :: id in products ==>
          products[id].stock >= 0 && products[id].stock == LoggedStock(log, id))
    && (forall i :: 0 <= i < |log| ==>
          log[i].product in products && log[i].business == products[log[i].product].business)
  }

  ghost predicate StockLedger(products: map<ProductId, Product>, log: seq<Movement>) {
    Balanced(log) && StockIsLogged(products, log)
  }

  lemma LoggedStockPush(log: seq<Movement>, m: Movement, id: ProductId)
    ensures LoggedStock(log + [m], id) == LoggedStock(log, id) + Delta(id)(m)
  {
    SumPush(log, m, Delta(id));
  }

  lemma BalancedPush(log: seq<Movement>, m: Movement)
    requires Balanced(log)
    requires m.after == LoggedStock(log, m.product) + m.delta && m.after >= 0
    requires m.kind == Adjustment ==> !Blank(m.reason)
    ensures Balanced(log + [m])
  {
    var longer := log + [m];
    forall i | 0 <= i < |longer|
      ensures longer[i].after == LoggedStock(longer[..i + 1], longer[i].product)
    {
      if i < |log| {
        assert longer[..i + 1] == log[..i + 1];
      } else {
        assert longer[..i + 1] == longer;
        LoggedStockPush(log, m, m.product);
      }
    }
  }

  /** A movement keeps the stock table and the log in step. */
  lemma MovementKeepsLedger(products: map<ProductId, Product>, log: seq<Movement>, id: ProductId,
                            row: Product, m: Movement)
    requires StockLedger(products, log)
    requires id in products && row == products[id].(stock := m.after)
    requires m.product == id && m.business == row.business
    requires m.after == products[id].stock + m.delta && m.after >= 0
    requires m.kind == Adjustment ==> !Blank(m.reason)
    ensures StockLedger(products[id := row], log + [m])
  {
    BalancedPush(log, m);
    forall p | p in products[id := row]
      ensures products[id := row][p].stock == LoggedStock(log + [m], p)
    {
      LoggedStockPush(log, m, p);
    }
  }

  /** In a balanced log the last row of a product shows its stock, whatever happened to others. */
  lemma LastRowShowsStock(log: seq<Movement>, i: nat)
    requires Balanced(log) && i < |log|
    requires forall j :: i < j < |log| ==> log[j].product != log[i].product
    ensures log[i].after == LoggedStock(log, log[i].product)
  {
    assert log == log[..i + 1] + log[i + 1..];
    SumAppend(log[..i + 1], log[i + 1..], Delta(log[i].product));
    SumZero(log[i + 1..], Delta(log[i].product));
  }
}
