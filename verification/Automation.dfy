// The automation step that follows a recorded sale: every active stock rule of
// the business reports the sold products that ended below their threshold.
module Automation {
  import opened Basics
  import opened Tables

  const DEFAULT_TRIGGER := "payment_confirmed"
  const STOCK_CONDITION := "stock_below_threshold"
  const DEFAULT_ACTION := "notify_merchant"

  function DefaultRule(b: BusinessId): Rule {
    Rule(b, DEFAULT_TRIGGER, Typed(Some(STOCK_CONDITION)), DEFAULT_ACTION, true)
  }

  predicate HasTriggerRule(rules: seq<Rule>, b: BusinessId) {
    exists i :: 0 <= i < |rules| && rules[i].business == b && rules[i].trigger == DEFAULT_TRIGGER
  }

  function EnsureDefaultRule(rules: seq<Rule>, b: BusinessId): seq<Rule> {
    if HasTriggerRule(rules, b) then rules else rules + [DefaultRule(b)]
  }

  /** The rules that a confirmed sale of the business looks at. */
  predicate Selected(rule: Rule, b: BusinessId) {
    rule.business == b && rule.active && rule.trigger == DEFAULT_TRIGGER
  }

  /** A rule on which the evaluation fails; the caller logs the failure and goes on. */
  predicate Fails(rule: Rule, b: BusinessId) {
    Selected(rule, b) && rule.condition.Malformed?
  }

  /** The rules that compare the stock with its thresholds. */
  predicate Applies(rule: Rule, b: BusinessId) {
    Selected(rule, b) && rule.condition == Typed(Some(STOCK_CONDITION))
  }

  function LowItem(id: ProductId, p: Product): LowStockItem {
    LowStockItem(id, p.name, p.stock, p.threshold)
  }

  /** The report entries of the given sale lines, one per line of a low product. */
  function LowItems(products: map<ProductId, Product>, lines: seq<SaleLine>): multiset<LowStockItem> {
    if lines == [] then multiset{}
    else
      var n := |lines| - 1;
      var id := lines[n].product;
      LowItems(products, lines[..n])
      + if id in products && products[id].LowStock() then multiset{LowItem(id, products[id])} else multiset{}
  }

  /** The execution of one rule, if it has one. */
  function OneFired(rule: Rule, event: EventId, business: BusinessId, sale: SaleId,
                    low: multiset<LowStockItem>): seq<Execution>
  {
    if Applies(rule, business) && low != multiset{} then [Execution(rule, event, sale, low)] else []
  }

  /** The executions of the given rules, the newest rule first, up to one that fails. */
  function Fired(rules: seq<Rule>, event: EventId, business: BusinessId, sale: SaleId,
                 low: multiset<LowStockItem>): seq<Execution>
  {
    if rules == [] || Fails(rules[|rules| - 1], business) then []
    else
      var n := |rules| - 1;
      OneFired(rules[n], event, business, sale, low) + Fired(rules[..n], event, business, sale, low)
  }

  /** The automation tables after the step for a newly recorded sale. */
  function Automate(w: World, event: EventId, business: BusinessId, sale: SaleId): World {
    var rules := EnsureDefaultRule(w.rules, business);
    var low := LowItems(w.db.products, Where(w.db.lines, LineOf(sale)));
    w.(rules := rules, executions := w.executions + Fired(rules, event, business, sale, low))
  }

  /** A report has one entry for each line of a product that is low, and no other entry. */
  lemma LowItemsListed(products: map<ProductId, Product>, lines: seq<SaleLine>)
    ensures forall x :: LowItems(products, lines)[x]
              == if x.product in products && products[x.product].LowStock()
                    && x == LowItem(x.product, products[x.product])
                 then |Where(lines, OfProduct(x.product))| else 0
  {
    forall x ensures LowItems(products, lines)[x] == LowEntries(products, lines, x) {
      LowItemCount(products, lines, x);
    }
  }

  function LowEntries(products: map<ProductId, Product>, lines: seq<SaleLine>, x: LowStockItem): nat {
    if x.product in products && products[x.product].LowStock() && x == LowItem(x.product, products[x.product])
    then |Where(lines, OfProduct(x.product))| else 0
  }

  lemma {:induction false} LowItemCount(products: map<ProductId, Product>, lines: seq<SaleLine>, x: LowStockItem)
    ensures LowItems(products, lines)[x] == LowEntries(products, lines, x)
  {
    if lines != [] {
      LowItemCount(products, lines[..|lines| - 1], x);
    }
  }

  /** Only the products of the lines matter for a report. */
  lemma {:induction false} LowItemsLocal(a: map<ProductId, Product>, b: map<ProductId, Product>,
                                         lines: seq<SaleLine>)
    requires forall l :: l in lines ==> l.product in a && l.product in b && a[l.product] == b[l.product]
    ensures LowItems(a, lines) == LowItems(b, lines)
  {
    if lines != [] {
      assert lines[|lines| - 1] in lines;
      LowItemsLocal(a, b, lines[..|lines| - 1]);
    }
  }

  // Which rules a sale fires.

  function RulesOf(executions: seq<Execution>): seq<Rule> {
    if executions == [] then [] else [executions[0].rule] + RulesOf(executions[1..])
  }

  function Reversed<T>(rows: seq<T>): seq<T> {
    if rows == [] then [] else [rows[|rows| - 1]] + Reversed(rows[..|rows| - 1])
  }

  function AppliesTo(b: BusinessId): Rule -> bool { (r: Rule) => Applies(r, b) }

  /** Where the rules begin that are newer than the newest failing one. */
  function Heeded(rules: seq<Rule>, b: BusinessId): (k: nat)
    ensures k <= |rules|
    ensures forall i :: k <= i < |rules| ==> !Fails(rules[i], b)
    ensures k > 0 ==> Fails(rules[k - 1], b)
  {
    if rules == [] || Fails(rules[|rules| - 1], b) then |rules| else Heeded(rules[..|rules| - 1], b)
  }

  lemma ReversedPush<T>(rows: seq<T>, x: T)
    ensures Reversed(rows + [x]) == [x] + Reversed(rows)
  {
    assert (rows + [x])[..|rows|] == rows;
  }

  lemma RulesOfCons(x: Execution, executions: seq<Execution>)
    ensures RulesOf([x] + executions) == [x.rule] + RulesOf(executions)
  {
    assert ([x] + executions)[1..] == executions;
  }

  ghost predicate FiresHeeded(rules: seq<Rule>, e: EventId, b: BusinessId, sale: SaleId,
                              low: multiset<LowStockItem>)
  {
    RulesOf(Fired(rules, e, b, sale, low)) == Reversed(Where(rules[Heeded(rules, b)..], AppliesTo(b)))
  }

  lemma SuffixPush<T>(rows: seq<T>, k: nat)
    requires k < |rows|
    ensures rows[k..] == rows[..|rows| - 1][k..] + [rows[|rows| - 1]]
  {
  }

  lemma FiredLast(rules: seq<Rule>, e: EventId, b: BusinessId, sale: SaleId, low: multiset<LowStockItem>)
    requires low != multiset{} && rules != [] && !Fails(rules[|rules| - 1], b)
    requires FiresHeeded(rules[..|rules| - 1], e, b, sale, low)
    ensures FiresHeeded(rules, e, b, sale, low)
  {
    var n, k := |rules| - 1, Heeded(rules, b);
    SuffixPush(rules, k);
    FiredPush(rules[..n][k..], rules[n], Fired(rules[..n], e, b, sale, low), e, b, sale, low);
  }

  lemma FiredNone(rules: seq<Rule>, e: EventId, b: BusinessId, sale: SaleId, low: multiset<LowStockItem>)
    requires rules == [] || Fails(rules[|rules| - 1], b)
    ensures FiresHeeded(rules, e, b, sale, low)
  {
    assert rules[|rules|..] == [];
  }

  /** With something to report, the heeded rules that apply fire once each, the newest first. */
  lemma {:induction false} FiredRules(rules: seq<Rule>, e: EventId, b: BusinessId, sale: SaleId,
                                      low: multiset<LowStockItem>)
    requires low != multiset{}
    ensures FiresHeeded(rules, e, b, sale, low)
  {
    if rules == [] || Fails(rules[|rules| - 1], b) {
      FiredNone(rules, e, b, sale, low);
    } else {
      FiredRules(rules[..|rules| - 1], e, b, sale, low);
      FiredLast(rules, e, b, sale, low);
    }
  }

  lemma FiredPush(heeded: seq<Rule>, rule: Rule, fired: seq<Execution>, e: EventId, b: BusinessId, sale: SaleId,
                  low: multiset<LowStockItem>)
    requires low != multiset{} && RulesOf(fired) == Reversed(Where(heeded, AppliesTo(b)))
    ensures RulesOf(OneFired(rule, e, b, sale, low) + fired) == Reversed(Where(heeded + [rule], AppliesTo(b)))
  {
    WherePush(heeded, rule, AppliesTo(b));
    if Applies(rule, b) {
      ReversedPush(Where(heeded, AppliesTo(b)), rule);
      RulesOfCons(Execution(rule, e, sale, low), fired);
    } else {
      assert [] + fired == fired;
      assert Where(heeded, AppliesTo(b)) + [] == Where(heeded, AppliesTo(b));
    }
  }

  lemma {:induction false} FiredReports(rules: seq<Rule>, e: EventId, b: BusinessId, sale: SaleId,
                                        low: multiset<LowStockItem>)
    ensures forall x :: x in Fired(rules, e, b, sale, low) ==> x.event == e && x.sale == sale && x.products == low
    ensures low == multiset{} ==> Fired(rules, e, b, sale, low) == []
  {
    if rules != [] {
      FiredReports(rules[..|rules| - 1], e, b, sale, low);
    }
  }

  lemma {:induction false} ReversedLength<T>(rows: seq<T>)
    ensures |Reversed(rows)| == |rows|
  {
    if rows != [] {
      ReversedLength(rows[..|rows| - 1]);
    }
  }

  lemma ReversedSuffix<T>(a: seq<T>, b: seq<T>)
    ensures Reversed(b) == Reversed(a + b) <==> a == []
  {
    ReversedLength(b);
    ReversedLength(a + b);
    if a == [] {
      assert a + b == b;
    }
  }

  lemma OldRulesSilent(rules: seq<Rule>, b: BusinessId, k: nat)
    requires k == Heeded(rules, b)
    ensures Where(rules[..k], AppliesTo(b)) == []
            <==> forall i, j :: 0 <= i < j < |rules| && Applies(rules[i], b) ==> !Fails(rules[j], b)
  {
    WhereMember(rules[..k], AppliesTo(b));
    if Where(rules[..k], AppliesTo(b)) == [] {
      forall i | 0 <= i < k ensures !Applies(rules[i], b) {
        assert rules[..k][i] in rules[..k];
      }
    } else {
      var r := Where(rules[..k], AppliesTo(b))[0];
      assert r in Where(rules[..k], AppliesTo(b));
      var i :| 0 <= i < k && rules[..k][i] == r;
      assert Applies(rules[i], b) && i != k - 1;
    }
  }

  /** Every rule that applies fires exactly if none of them is older than a failing rule. */
  lemma AllFireIff(rules: seq<Rule>, e: EventId, b: BusinessId, sale: SaleId, low: multiset<LowStockItem>)
    requires low != multiset{}
    ensures RulesOf(Fired(rules, e, b, sale, low)) == Reversed(Where(rules, AppliesTo(b)))
            <==> forall i, j :: 0 <= i < j < |rules| && Applies(rules[i], b) ==> !Fails(rules[j], b)
  {
    var k := Heeded(rules, b);
    FiredRules(rules, e, b, sale, low);
    assert rules == rules[..k] + rules[k..];
    WhereAppend(rules[..k], rules[k..], AppliesTo(b));
    ReversedSuffix(Where(rules[..k], AppliesTo(b)), Where(rules[k..], AppliesTo(b)));
    OldRulesSilent(rules, b, k);
  }
}
