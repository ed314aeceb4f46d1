// Concurrent transactions under row locks. A transaction locks rows one at a
// time as the code does (its payment first, then each product in line order),
// keeps its writes to itself, holds every lock to its end, and may abort at any
// point. The committed tables always equal running the committed transactions
// one at a time, in the order of their commits.
module Interleaving {
  import opened Basics
  import opened Tables
  import opened Movements
  import opened Selling
  import opened Automation
  import opened Confirmation
  import opened Requests
  import opened Books
  import opened Preservation
  import opened Runs

  type TxnId = nat

  datatype Lock = PaymentRow(order: OrderId) | ProductRow(product: ProductId)

  /** What a transaction is asked to do. WriteStatus is the late write of a poll that read the
      payment, without a lock, at some earlier time. */
  datatype Program =
    | Confirming(c: ConfirmArgs)
    | Correcting(a: StockArgs)
    | WriteStatus(o: OrderId, s: PaymentStatus)

  /** The automation step of a sale: first the default rule is ensured, then the rules that are
      committed by then, and the own one, are evaluated. The rule table is read without locks. */
  datatype Auto =
    | NotYet
    | Ensured(rules: seq<Rule>)
    | Evaluated(rules: seq<Rule>, fired: seq<Execution>)

  /** How far a transaction has come and what it has read and written under its locks. Selling
      keeps the payment, the number of lines sold, and the rows and log entries written so far. */
  datatype Txn =
    | Waiting(program: Program)
    | Repeating(c: ConfirmArgs)
    | Activating(c: ConfirmArgs, payment: Payment)
    | Selling(c: ConfirmArgs, payment: Payment, done: nat, own: Sold, auto: Auto)
    | Moving(a: StockArgs, product: Product)
    | Writing(o: OrderId, s: PaymentStatus, payment: Payment)
  {
    function Prog(): Program {
      match this
      case Waiting(p) => p
      case Repeating(c) => Confirming(c)
      case Activating(c, _) => Confirming(c)
      case Selling(c, _, _, _, _) => Confirming(c)
      case Moving(a, _) => Correcting(a)
      case Writing(o, s, _) => WriteStatus(o, s)
    }
  }

  /** The committed tables, the locks, the open transactions and the programs committed so far. */
  datatype State = State(db: Db, rules: seq<Rule>, executions: seq<Execution>,
                         locks: map<Lock, TxnId>, txns: map<TxnId, Txn>, log: seq<Program>)
  {
    function Committed(): World {
      World(db, rules, executions)
    }
  }

  datatype Action =
    | Begin(t: TxnId, program: Program)
    | Advance(t: TxnId)
    | Commit(t: TxnId)
    | Abort(t: TxnId)

  predicate Free(locks: map<Lock, TxnId>, l: Lock, t: TxnId) {
    l in locks ==> locks[l] == t
  }

  function Released(locks: map<Lock, TxnId>, t: TxnId): map<Lock, TxnId> {
    map l | l in locks && locks[l] != t :: locks[l]
  }

  // One statement of a transaction. None: it waits for a lock, or it raises and can only abort.

  /** Lock the payment row and decide by what it shows. */
  function LockPayment(db: Db, c: ConfirmArgs): Option<Txn> {
    if c.order !in db.payments then None
    else
      var p := db.payments[c.order];
      if p.event.Some? then Some(Repeating(c))
      else if c.order == "" then None
      else if p.purpose == Subscribing then Some(Activating(c, p))
      else Some(Selling(c, p, 0, Sold(map[], [], [], 0), NotYet))
  }

  /** The products as this transaction sees them: its own versions before the committed ones. */
  function Seen(db: Db, own: map<ProductId, Product>): map<ProductId, Product> {
    db.products + own
  }

  /** Sell one more line on the locked product row. */
  function SellNext(db: Db, x: Txn): Option<Txn>
    requires x.Selling? && x.done < |x.payment.lines|
  {
    var snap := x.payment.lines[x.done];
    var r := SellLine(Sold(Seen(db, x.own.products), [], [], 0), x.payment.business, x.c.order, x.c.saleId, snap);
    if r.Err? then None
    else
      var line := r.value;
      Some(x.(done := x.done + 1,
              own := Sold(x.own.products[snap.product := line.products[snap.product]],
                          x.own.movements + line.movements, x.own.lines + line.lines,
                          x.own.cogs + line.cogs)))
  }

  /** The next part of the automation step, once all lines are sold. */
  function AutomateNext(db: Db, rules: seq<Rule>, x: Txn): Option<Txn>
    requires x.Selling?
  {
    var b := x.payment.business;
    match x.auto
    case NotYet => Some(x.(auto := Ensured(if HasTriggerRule(rules, b) then [] else [DefaultRule(b)])))
    case Ensured(own) =>
      var low := LowItems(Seen(db, x.own.products), x.own.lines);
      Some(x.(auto := Evaluated(own, Fired(rules + own, x.c.eventId, b, x.c.saleId, low))))
    case Evaluated(_, _) => None
  }

  function LockProduct(db: Db, a: StockArgs): Option<Txn> {
    if ChangeStock(db, a).Err? then None else Some(Moving(a, db.products[a.product]))
  }

  function LockStatus(db: Db, o: OrderId, s: PaymentStatus): Option<Txn> {
    if o !in db.payments || s !in {Expired, Failed} then None else Some(Writing(o, s, db.payments[o]))
  }

  /** The lock that the next statement of a transaction takes, if it takes one. */
  function NextLock(x: Txn): Option<Lock> {
    match x
    case Waiting(Confirming(c)) => Some(PaymentRow(c.order))
    case Waiting(Correcting(a)) => Some(ProductRow(a.product))
    case Waiting(WriteStatus(o, _)) => Some(PaymentRow(o))
    case Selling(_, p, k, _, _) =>
      if k < |p.lines| && p.lines[k].CartLine? then Some(ProductRow(p.lines[k].product)) else None
    case _ => None
  }

  function NextTxn(db: Db, rules: seq<Rule>, x: Txn): Option<Txn> {
    match x
    case Waiting(Confirming(c)) => LockPayment(db, c)
    case Waiting(Correcting(a)) => LockProduct(db, a)
    case Waiting(WriteStatus(o, s)) => LockStatus(db, o, s)
    case Selling(_, p, k, _, _) => if k < |p.lines| then SellNext(db, x) else AutomateNext(db, rules, x)
    case _ => None
  }

  /** The committed database with the transaction's own rows merged in; None while it has
      statements left, or when a key it inserted is taken. */
  function Merge(db: Db, x: Txn): Option<Db> {
    match x
    case Waiting(_) => None
    case Repeating(_) => Some(db)
    case Activating(c, p) =>
      if EventIdTaken(db.events, c.eventId) then None
      else Some(db.(events := db.events + [EventFor(c, p)],
                    payments := db.payments[c.order := Linked(p, c)],
                    subscriptions := db.subscriptions + [NewSubscription(db.offers, c.order, Linked(p, c), c.now)]))
    case Selling(c, p, k, own, auto) =>
      if k < |p.lines| || !auto.Evaluated? || EventIdTaken(db.events, c.eventId) || SaleIdTaken(db.sales, c.saleId) then None
      else
        var s := SaleFor(EventFor(c, p), p, c.saleId);
        Some(db.(products := Seen(db, own.products),
                 payments := db.payments[c.order := Linked(p, c)],
                 events := db.events + [EventFor(c, p)],
                 sales := db.sales + [s],
                 lines := db.lines + own.lines,
                 movements := db.movements + own.movements,
                 entries := db.entries + [RevenueEntry(s), CogsEntry(s, own.cogs)],
                 receipts := db.receipts + [ReceiptFor(s, c.order, own.lines)]))
    case Moving(a, product) =>
      (match ApplyMovement(a.product, product, a.Kind(), a.quantity, Some(Strip(a.reason)), None)
       case Err(_) => None
       case Ok((row, m)) => Some(db.(products := db.products[a.product := row], movements := db.movements + [m])))
    case Writing(o, s, p) => Some(db.(payments := db.payments[o := p.(status := s)]))
  }

  /** The rules and executions that a finished transaction has inserted. */
  function OwnRules(x: Txn): seq<Rule> {
    if x.Selling? && x.auto.Evaluated? then x.auto.rules else []
  }

  function OwnExecutions(x: Txn): seq<Execution> {
    if x.Selling? && x.auto.Evaluated? then x.auto.fired else []
  }

  /** One step of the system; an action that is not enabled changes nothing. */
  function Step(s: State, action: Action): State {
    match action
    case Begin(t, program) => if t in s.txns then s else s.(txns := s.txns[t := Waiting(program)])
    case Advance(t) =>
      if t !in s.txns then s
      else
        var lock := NextLock(s.txns[t]);
        var next := NextTxn(s.db, s.rules, s.txns[t]);
        if next.None? || (lock.Some? && !Free(s.locks, lock.value, t)) then s
        else s.(txns := s.txns[t := next.value],
                locks := if lock.Some? then s.locks[lock.value := t] else s.locks)
    case Commit(t) =>
      if t !in s.txns || Merge(s.db, s.txns[t]).None? then s
      else State(Merge(s.db, s.txns[t]).value, s.rules + OwnRules(s.txns[t]),
                 s.executions + OwnExecutions(s.txns[t]),
                 Released(s.locks, t), s.txns - {t}, s.log + [s.txns[t].Prog()])
    case Abort(t) => s.(locks := Released(s.locks, t), txns := s.txns - {t})
  }

  function Steps(s: State, actions: seq<Action>): State {
    if actions == [] then s else Step(Steps(s, actions[..|actions| - 1]), actions[|actions| - 1])
  }

  // The serial reference: the same programs run alone.

  function AloneTables(db: Db, program: Program): Result<Db, Error> {
    match program
    case Confirming(c) =>
      (match Confirm(db, c)
       case Err(x) => Err(x)
       case Ok(r) => Ok(r.db))
    case Correcting(a) => ChangeStock(db, a)
    case WriteStatus(o, s) =>
      if o in db.payments && s in {Expired, Failed} then Ok(SetStatus(db, o, s)) else Err(UnknownOrder)
  }

  function SerialTables(db: Db, log: seq<Program>): Result<Db, Error> {
    if log == [] then Ok(db)
    else
      match SerialTables(db, log[..|log| - 1])
      case Err(x) => Err(x)
      case Ok(d) => AloneTables(d, log[|log| - 1])
  }

  // What a transaction knows while it holds its locks.

  ghost predicate Holds(locks: map<Lock, TxnId>, l: Lock, t: TxnId) {
    l in locks && locks[l] == t
  }

  ghost predicate HoldsPayment(db: Db, locks: map<Lock, TxnId>, t: TxnId, o: OrderId, p: Payment) {
    Holds(locks, PaymentRow(o), t) && o in db.payments && db.payments[o] == p
  }

  /** The lines sold so far are exactly what selling them alone on the committed rows gives. */
  ghost predicate SoldSoFar(products: map<ProductId, Product>, x: Txn)
    requires x.Selling? && x.done <= |x.payment.lines|
  {
    Sell(products, x.payment.business, x.c.order, x.c.saleId, x.payment.lines[..x.done])
    == Ok(Sold(products + x.own.products, x.own.movements, x.own.lines, x.own.cogs))
  }

  /** The rows that a selling transaction has written are those of its sold lines, all locked. */
  ghost predicate OwnRows(locks: map<Lock, TxnId>, t: TxnId, x: Txn)
    requires x.Selling? && x.done <= |x.payment.lines|
  {
    && (forall id :: id in x.own.products ==> Holds(locks, ProductRow(id), t))
    && (forall i :: 0 <= i < x.done ==> x.payment.lines[i].CartLine? && x.payment.lines[i].product in x.own.products)
  }

  ghost predicate SellingInv(db: Db, locks: map<Lock, TxnId>, t: TxnId, x: Txn)
    requires x.Selling?
  {
    && HoldsPayment(db, locks, t, x.c.order, x.payment)
    && x.payment.event.None? && x.payment.purpose == Purpose.Checkout && x.c.order != ""
    && x.done <= |x.payment.lines| && (x.auto.NotYet? || x.done == |x.payment.lines|)
    && OwnRows(locks, t, x)
    && SoldSoFar(db.products, x)
  }

  ghost predicate TxnInv(db: Db, locks: map<Lock, TxnId>, t: TxnId, x: Txn) {
    match x
    case Waiting(_) => true
    case Repeating(c) =>
      Holds(locks, PaymentRow(c.order), t) && c.order in db.payments && db.payments[c.order].event.Some?
    case Activating(c, p) =>
      HoldsPayment(db, locks, t, c.order, p) && p.event.None? && p.purpose == Subscribing && c.order != ""
    case Selling(_, _, _, _, _) => SellingInv(db, locks, t, x)
    case Moving(a, p) =>
      && Holds(locks, ProductRow(a.product), t)
      && ChangeStock(db, a).Ok? && a.product in db.products && db.products[a.product] == p
    case Writing(o, s, p) => HoldsPayment(db, locks, t, o, p) && s in {Expired, Failed}
  }

  /** The committed tables are sound and are those of the committed programs run in turn. */
  ghost predicate SerialInv(initial: Db, db: Db, log: seq<Program>) {
    Inv(db) && SerialTables(initial, log) == Ok(db)
  }

  ghost predicate TxnsInv(db: Db, locks: map<Lock, TxnId>, txns: map<TxnId, Txn>) {
    forall t :: t in txns ==> TxnInv(db, locks, t, txns[t])
  }

  ghost predicate StateInv(initial: Db, s: State) {
    SerialInv(initial, s.db, s.log) && TxnsInv(s.db, s.locks, s.txns)
  }

  // Locality of the sale loop.

  /** The loop depends only on the rows it sells. */
  lemma {:induction false} SellLocal(a: map<ProductId, Product>, b: map<ProductId, Product>, business: BusinessId,
                                     order: OrderId, sale: SaleId, snaps: seq<Snapshot>)
    requires forall s :: s in snaps ==> s.CartLine? && s.product in a && s.product in b && a[s.product] == b[s.product]
    requires Sell(a, business, order, sale, snaps).Ok?
    ensures var ra := Sell(a, business, order, sale, snaps);
            var rb := Sell(b, business, order, sale, snaps);
            && rb.Ok?
            && rb.value.movements == ra.value.movements && rb.value.lines == ra.value.lines
            && rb.value.cogs == ra.value.cogs
            && ra.value.products.Keys == a.Keys && rb.value.products.Keys == b.Keys
            && (forall id :: id in a && id in b && a[id] == b[id] ==> ra.value.products[id] == rb.value.products[id])
            && (forall id :: id in b && (forall s :: s in snaps ==> s.product != id) ==> rb.value.products[id] == b[id])
  {
    if snaps != [] {
      var n := |snaps| - 1;
      assert snaps[n] in snaps;
      assert forall s :: s in snaps[..n] ==> s in snaps;
      SellLocal(a, b, business, order, sale, snaps[..n]);
    }
  }

  // A commit by one transaction leaves what the others know untouched.

  /** Only rows that t has locked change, and no row disappears. */
  ghost predicate TouchesOnly(db: Db, after: Db, locks: map<Lock, TxnId>, t: TxnId) {
    && after.products.Keys == db.products.Keys && after.payments.Keys == db.payments.Keys
    && after.offers == db.offers
    && (forall id :: id in db.products && !Holds(locks, ProductRow(id), t) ==> after.products[id] == db.products[id])
    && (forall o :: o in db.payments && !Holds(locks, PaymentRow(o), t) ==> after.payments[o] == db.payments[o])
  }

  lemma SellingKeys(db: Db, x: Txn)
    requires x.Selling? && x.done <= |x.payment.lines| && SoldSoFar(db.products, x)
    requires forall i :: 0 <= i < x.done ==>
               x.payment.lines[i].CartLine? && x.payment.lines[i].product in x.own.products
    ensures x.own.products.Keys <= db.products.Keys
    ensures forall i :: 0 <= i < x.done ==> x.payment.lines[i].product in db.products
  {
    var snaps := x.payment.lines[..x.done];
    SellExact(db.products, x.payment.business, x.c.order, x.c.saleId, snaps);
    assert (db.products + x.own.products).Keys == db.products.Keys;
    forall i | 0 <= i < x.done ensures x.payment.lines[i].product in db.products {
      assert snaps[i] in snaps;
    }
  }

  lemma MergeTouchesOnly(db: Db, locks: map<Lock, TxnId>, t: TxnId, x: Txn)
    requires TxnInv(db, locks, t, x) && Merge(db, x).Some?
    ensures TouchesOnly(db, Merge(db, x).value, locks, t)
  {
    if x.Selling? {
      SellingKeys(db, x);
    }
  }

  /** What has been sold so far does not depend on rows outside the sold lines. */
  lemma SoldSoFarStays(db: Db, after: Db, x: Txn)
    requires x.Selling? && x.done <= |x.payment.lines| && SoldSoFar(db.products, x)
    requires forall i :: 0 <= i < x.done ==>
               x.payment.lines[i].CartLine? && x.payment.lines[i].product in x.own.products
    requires after.products.Keys == db.products.Keys
    requires forall id :: id in x.own.products && id in db.products ==> after.products[id] == db.products[id]
    ensures SoldSoFar(after.products, x)
  {
    SellingKeys(db, x);
    var snaps := x.payment.lines[..x.done];
    forall s | s in snaps
      ensures s.CartLine? && s.product in db.products && s.product in x.own.products
    {
      var i :| 0 <= i < x.done && snaps[i] == s;
      assert x.payment.lines[i] == s;
    }
    SellLocal(db.products, after.products, x.payment.business, x.c.order, x.c.saleId, snaps);
    var ra := Sell(db.products, x.payment.business, x.c.order, x.c.saleId, snaps).value;
    var rb := Sell(after.products, x.payment.business, x.c.order, x.c.saleId, snaps).value;
    forall id | id in after.products
      ensures rb.products[id] == (after.products + x.own.products)[id]
    {
      if id in x.own.products {
        assert ra.products[id] == rb.products[id];
      }
    }
    assert rb.products == after.products + x.own.products;
  }

  lemma OtherKeepsInv(db: Db, after: Db, locks: map<Lock, TxnId>, t: TxnId, u: TxnId, x: Txn)
    requires t != u && TouchesOnly(db, after, locks, t)
    requires TxnInv(db, locks, u, x)
    ensures TxnInv(after, Released(locks, t), u, x)
  {
    if x.Selling? {
      SoldSoFarStays(db, after, x);
    }
  }

  // A statement keeps what its own transaction knows.

  lemma LockKeepsOthers(db: Db, locks: map<Lock, TxnId>, l: Lock, t: TxnId, u: TxnId, x: Txn)
    requires t != u && Free(locks, l, t) && TxnInv(db, locks, u, x)
    ensures TxnInv(db, locks[l := t], u, x)
  {
  }

  lemma SellNextKeepsSold(db: Db, x: Txn)
    requires x.Selling? && x.done < |x.payment.lines| && SoldSoFar(db.products, x)
    requires SellNext(db, x).Some?
    ensures SoldSoFar(db.products, SellNext(db, x).value)
  {
    var snaps := x.payment.lines;
    var y := SellNext(db, x).value;
    var sold := Sold(db.products + x.own.products, x.own.movements, x.own.lines, x.own.cogs);
    SellLineLocal(sold, x.payment.business, x.c.order, x.c.saleId, snaps[x.done]);
    assert snaps[..x.done + 1][..x.done] == snaps[..x.done];
    var line := SellLine(Sold(Seen(db, x.own.products), [], [], 0), x.payment.business, x.c.order, x.c.saleId,
                         snaps[x.done]).value;
    assert line.products == db.products + y.own.products;
  }

  lemma SellNextKeepsInv(db: Db, locks: map<Lock, TxnId>, t: TxnId, x: Txn)
    requires x.Selling? && SellingInv(db, locks, t, x) && x.done < |x.payment.lines|
    requires SellNext(db, x).Some? && Free(locks, ProductRow(x.payment.lines[x.done].product), t)
    ensures SellingInv(db, locks[ProductRow(x.payment.lines[x.done].product) := t], t, SellNext(db, x).value)
  {
    SellNextKeepsSold(db, x);
  }

  lemma AdvanceKeepsInv(db: Db, rules: seq<Rule>, locks: map<Lock, TxnId>, t: TxnId, x: Txn)
    requires TxnInv(db, locks, t, x) && NextTxn(db, rules, x).Some?
    requires NextLock(x).Some? ==> Free(locks, NextLock(x).value, t)
    ensures TxnInv(db, if NextLock(x).Some? then locks[NextLock(x).value := t] else locks, t,
                   NextTxn(db, rules, x).value)
  {
    if x.Selling? {
      if x.done < |x.payment.lines| {
        SellNextKeepsInv(db, locks, t, x);
      }
    } else {
      var p := x.program;
      if p.Confirming? && p.c.order in db.payments {
        assert db.payments[p.c.order].lines[..0] == [];
        assert db.products + map[] == db.products;
      }
    }
  }

  // A commit is one serial execution.

  lemma SellingMerge(db: Db, locks: map<Lock, TxnId>, t: TxnId, x: Txn)
    requires Inv(db) && x.Selling? && SellingInv(db, locks, t, x) && Merge(db, x).Some?
    ensures AloneTables(db, x.Prog()) == Ok(Merge(db, x).value)
  {
    var p, c := x.payment, x.c;
    assert p.lines[..x.done] == p.lines;
    ConfirmIsDirect(db, c);
    SellExact(db.products, p.business, c.order, c.saleId, p.lines);
    LinesCarrySale(c.saleId, p.lines, x.own.lines);
    NewLinesAlone(db, x.own.lines, c.saleId);
  }

  lemma ActivatingMerge(db: Db, locks: map<Lock, TxnId>, t: TxnId, x: Txn)
    requires Inv(db) && x.Activating? && TxnInv(db, locks, t, x) && Merge(db, x).Some?
    ensures AloneTables(db, x.Prog()) == Ok(Merge(db, x).value)
  {
    ConfirmIsDirect(db, x.c);
    SubscriptionConfirmedShape(db, x.c);
  }

  /** Merging a finished transaction gives exactly what its program does when run alone now. */
  lemma MergeIsAlone(db: Db, locks: map<Lock, TxnId>, t: TxnId, x: Txn)
    requires Inv(db) && TxnInv(db, locks, t, x) && Merge(db, x).Some?
    ensures AloneTables(db, x.Prog()) == Ok(Merge(db, x).value)
  {
    if x.Selling? {
      SellingMerge(db, locks, t, x);
    } else if x.Activating? {
      ActivatingMerge(db, locks, t, x);
    }
  }

  lemma AloneKeepsInv(db: Db, program: Program)
    requires Inv(db) && AloneTables(db, program).Ok?
    ensures Inv(AloneTables(db, program).value)
  {
    match program
    case Confirming(c) => ConfirmKeepsInv(db, c);
    case Correcting(a) => ChangeStockKeepsInv(db, a);
    case WriteStatus(o, s) => SetStatusKeepsInv(db, o, s);
  }

  lemma CommitKeepsOthers(db: Db, after: Db, locks: map<Lock, TxnId>, txns: map<TxnId, Txn>, t: TxnId)
    requires TxnsInv(db, locks, txns) && t in txns && Merge(db, txns[t]) == Some(after)
    ensures TxnsInv(after, Released(locks, t), txns - {t})
  {
    assert TxnInv(db, locks, t, txns[t]);
    MergeTouchesOnly(db, locks, t, txns[t]);
    forall u | u in txns - {t} ensures TxnInv(after, Released(locks, t), u, txns[u]) {
      assert TxnInv(db, locks, u, txns[u]);
      OtherKeepsInv(db, after, locks, t, u, txns[u]);
    }
  }

  lemma CommitKeepsTxns(s: State, t: TxnId)
    requires TxnsInv(s.db, s.locks, s.txns) && t in s.txns && Merge(s.db, s.txns[t]).Some?
    ensures var after := Step(s, Commit(t)); TxnsInv(after.db, after.locks, after.txns)
  {
    CommitKeepsOthers(s.db, Merge(s.db, s.txns[t]).value, s.locks, s.txns, t);
  }

  lemma CommitKeepsSerial(initial: Db, s: State, t: TxnId)
    requires SerialInv(initial, s.db, s.log) && t in s.txns && Merge(s.db, s.txns[t]).Some?
    requires TxnInv(s.db, s.locks, t, s.txns[t])
    ensures var after := Step(s, Commit(t)); SerialInv(initial, after.db, after.log)
  {
    CommitIsSerial(initial, s.db, s.log, s.locks, t, s.txns[t], Merge(s.db, s.txns[t]).value);
  }

  /** A commit appends one successful serial execution, and the invariant goes on. */
  lemma CommitIsSerial(initial: Db, db: Db, log: seq<Program>, locks: map<Lock, TxnId>, t: TxnId, x: Txn,
                       after: Db)
    requires SerialInv(initial, db, log) && TxnInv(db, locks, t, x) && Merge(db, x) == Some(after)
    ensures SerialInv(initial, after, log + [x.Prog()])
  {
    MergeIsAlone(db, locks, t, x);
    AloneKeepsInv(db, x.Prog());
    SerialPush(initial, log, x.Prog(), db);
  }

  lemma SerialPush(initial: Db, log: seq<Program>, program: Program, db: Db)
    requires SerialTables(initial, log) == Ok(db)
    ensures SerialTables(initial, log + [program]) == AloneTables(db, program)
  {
    assert (log + [program])[..|log|] == log;
  }

  lemma ReleaseKeepsOthers(db: Db, locks: map<Lock, TxnId>, t: TxnId, u: TxnId, x: Txn)
    requires t != u && TxnInv(db, locks, u, x)
    ensures TxnInv(db, Released(locks, t), u, x)
  {
    OtherKeepsInv(db, db, locks, t, u, x);
  }

  lemma AbortKeepsInv(initial: Db, s: State, t: TxnId)
    requires StateInv(initial, s)
    ensures StateInv(initial, Step(s, Abort(t)))
  {
    var after := Step(s, Abort(t));
    forall u | u in after.txns ensures TxnInv(after.db, after.locks, u, after.txns[u]) {
      assert TxnInv(s.db, s.locks, u, s.txns[u]);
      ReleaseKeepsOthers(s.db, s.locks, t, u, s.txns[u]);
    }
  }

  lemma AdvanceStepKeepsInv(initial: Db, s: State, t: TxnId)
    requires StateInv(initial, s)
    ensures StateInv(initial, Step(s, Advance(t)))
  {
    var after := Step(s, Advance(t));
    if after != s {
      var x := s.txns[t];
      assert TxnInv(s.db, s.locks, t, x);
      AdvanceKeepsInv(s.db, s.rules, s.locks, t, x);
      forall u | u in after.txns ensures TxnInv(after.db, after.locks, u, after.txns[u]) {
        assert TxnInv(s.db, s.locks, u, s.txns[u]);
        if u != t && NextLock(x).Some? {
          LockKeepsOthers(s.db, s.locks, NextLock(x).value, t, u, s.txns[u]);
        }
      }
    }
  }

  lemma StepKeepsInv(initial: Db, s: State, action: Action)
    requires StateInv(initial, s)
    ensures StateInv(initial, Step(s, action))
  {
    match action
    case Begin(t, program) =>
      var after := Step(s, action);
      forall u | u in after.txns ensures TxnInv(after.db, after.locks, u, after.txns[u]) {
        if u in s.txns {
          assert TxnInv(s.db, s.locks, u, s.txns[u]);
        }
      }
    case Advance(t) => AdvanceStepKeepsInv(initial, s, t);
    case Commit(t) =>
      if t in s.txns && Merge(s.db, s.txns[t]).Some? {
        CommitKeepsTxns(s, t);
        CommitKeepsSerial(initial, s, t);
      }
    case Abort(t) => AbortKeepsInv(initial, s, t);
  }

  function Idle(w: World): State {
    State(w.db, w.rules, w.executions, map[], map[], [])
  }

  lemma {:induction false} StepsKeepInv(w: World, actions: seq<Action>)
    requires Inv(w.db)
    ensures StateInv(w.db, Steps(Idle(w), actions))
  {
    if actions != [] {
      var n := |actions| - 1;
      StepsKeepInv(w, actions[..n]);
      StepKeepsInv(w.db, Steps(Idle(w), actions[..n]), actions[n]);
    }
  }

  /** In every interleaving, with aborts anywhere, the committed tables are what the committed
      transactions give when run one at a time in commit order, and all of them succeed there. */
  lemma TablesSerialisable(w: World, actions: seq<Action>)
    requires Inv(w.db)
    ensures var s := Steps(Idle(w), actions);
            SerialTables(w.db, s.log) == Ok(s.db)
  {
    StepsKeepInv(w, actions);
  }

  /** No stock update is lost and no interleaving breaks the books: the committed stock is what the
      committed log adds up to, PAID still implies a link, and every settled order has one chain. */
  lemma InterleavingKeepsBooks(w: World, actions: seq<Action>)
    requires Inv(w.db)
    ensures var d := Steps(Idle(w), actions).db;
            && (forall id :: id in d.products ==> d.products[id].stock == LoggedStock(d.movements, id) >= 0)
            && (forall o :: o in d.payments && d.payments[o].status == Paid ==> d.payments[o].event.Some?)
            && (forall o :: o in d.payments ==> Chained(d, o))
  {
    StepsKeepInv(w, actions);
    var d := Steps(Idle(w), actions).db;
    assert StockIsLogged(d.products, d.movements);
    forall o | o in d.payments ensures StatusFits(d.payments[o]) {
    }
  }

  lemma StepsAppend(s: State, actions: seq<Action>, a: Action)
    ensures Steps(s, actions + [a]) == Step(Steps(s, actions), a)
  {
    assert (actions + [a])[..|actions|] == actions;
  }
}
