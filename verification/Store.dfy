// The mutable database: one field per table, an undo journal, and a stack of
// savepoints. Every write appends its inverse to the journal; rolling back to a
// savepoint pops and applies inverses until the journal is as long as it was.
module Journal {
  import opened Basics
  import opened Tables

  /** The inverse of one row write. */
  datatype Undo =
    | RestoreProduct(product: ProductId, oldProduct: Option<Product>)
    | RestorePayment(order: OrderId, oldPayment: Payment)
    | ForgetPayment(order: OrderId)
    | DropEvent | DropSale | DropLine | DropMovement | DropEntry | DropReceipt
    | DropSubscription | DropRule | DropExecution

  function DropLast<T>(rows: seq<T>): seq<T> {
    if rows == [] then [] else rows[..|rows| - 1]
  }

  function Revert(w: World, u: Undo): World {
    var db := w.db;
    match u
    case RestoreProduct(p, Some(row)) => w.(db := db.(products := db.products[p := row]))
    case RestoreProduct(p, None) => w.(db := db.(products := db.products - {p}))
    case RestorePayment(o, row) => w.(db := db.(payments := db.payments[o := row]))
    case ForgetPayment(o) => w.(db := db.(payments := db.payments - {o}, orders := DropLast(db.orders)))
    case DropEvent => w.(db := db.(events := DropLast(db.events)))
    case DropSale => w.(db := db.(sales := DropLast(db.sales)))
    case DropLine => w.(db := db.(lines := DropLast(db.lines)))
    case DropMovement => w.(db := db.(movements := DropLast(db.movements)))
    case DropEntry => w.(db := db.(entries := DropLast(db.entries)))
    case DropReceipt => w.(db := db.(receipts := DropLast(db.receipts)))
    case DropSubscription => w.(db := db.(subscriptions := DropLast(db.subscriptions)))
    case DropRule => w.(rules := DropLast(w.rules))
    case DropExecution => w.(executions := DropLast(w.executions))
  }

  /** The database after undoing the given journal entries, the latest first. */
  function Unwind(w: World, journal: seq<Undo>): World
    decreases |journal|
  {
    if journal == [] then w
    else
      var n := |journal| - 1;
      Unwind(Revert(w, journal[n]), journal[..n])
  }

  /** Each savepoint is a journal length from which unwinding leads back to the state saved there. */
  ghost predicate Restorable(w: World, journal: seq<Undo>, marks: seq<nat>, saved: seq<World>) {
    && |marks| == |saved|
    && (forall i :: 0 <= i < |marks| ==> marks[i] <= |journal|)
    && (forall i :: 0 <= i < |marks| ==> Unwind(w, journal[marks[i]..]) == saved[i])
  }

  /** A write whose inverse is journalled keeps every savepoint restorable. */
  lemma WriteKeepsSavepoints(before: World, after: World, journal: seq<Undo>, u: Undo,
                             marks: seq<nat>, saved: seq<World>)
    requires Restorable(before, journal, marks, saved)
    requires Revert(after, u) == before
    ensures Restorable(after, journal + [u], marks, saved)
  {
    var longer := journal + [u];
    forall i | 0 <= i < |marks| ensures Unwind(after, longer[marks[i]..]) == saved[i] {
      var tail := longer[marks[i]..];
      assert tail[|tail| - 1] == u;
      assert tail[..|tail| - 1] == journal[marks[i]..];
    }
  }

  /** One step of a rollback keeps the savepoints at or below the remaining journal. */
  lemma UndoKeepsSavepoints(w: World, journal: seq<Undo>, marks: seq<nat>, saved: seq<World>)
    requires Restorable(w, journal, marks, saved)
    requires journal != [] && forall i :: 0 <= i < |marks| ==> marks[i] < |journal|
    ensures Restorable(Revert(w, journal[|journal| - 1]), journal[..|journal| - 1], marks, saved)
  {
    var n := |journal| - 1;
    var shorter := journal[..n];
    forall i | 0 <= i < |marks|
      ensures Unwind(Revert(w, journal[n]), shorter[marks[i]..]) == saved[i]
    {
      var tail := journal[marks[i]..];
      assert tail[|tail| - 1] == journal[n];
      assert tail[..|tail| - 1] == shorter[marks[i]..];
    }
  }
}

module Storage {
  import opened Basics
  import opened Tables
  import opened Journal

  class Store {
    var products: map<ProductId, Product>
    var payments: map<OrderId, Payment>
    var orders: seq<OrderId>
    var events: seq<Event>
    var sales: seq<Sale>
    var lines: seq<SaleLine>
    var movements: seq<Movement>
    var entries: seq<Entry>
    var receipts: seq<Receipt>
    var subscriptions: seq<Subscription>
    var offers: map<OfferId, Offer>
    var rules: seq<Rule>
    var executions: seq<Execution>

    var journal: seq<Undo>
    var marks: seq<nat>
    ghost var saved: seq<World>

    /** The database value that the fields represent. */
    ghost function View(): World
      reads this
    {
      World(Db(products, payments, orders, events, sales, lines, movements, entries, receipts,
               subscriptions, offers), rules, executions)
    }

    ghost predicate Valid()
      reads this
    {
      && Restorable(View(), journal, marks, saved)
      && (forall i, j :: 0 <= i < j < |marks| ==> marks[i] <= marks[j])
      && (if marks == [] then journal == [] else marks[0] == 0)
    }

    /** Same open savepoints as in an earlier state. */
    twostate predicate SameSavepoints()
      reads this
    {
      marks == old(marks) && saved == old(saved)
    }

    /** A fresh database; the offers are the catalogue that the staff maintain. */
    constructor (offers: map<OfferId, Offer>)
      ensures Valid() && marks == [] && saved == []
      ensures View() == World(Db(map[], map[], [], [], [], [], [], [], [], [], offers), [], [])
    {
      products, payments, orders, events, sales := map[], map[], [], [], [];
      lines, movements, entries, receipts, subscriptions := [], [], [], [], [];
      this.offers, rules, executions := offers, [], [];
      journal, marks, saved := [], [], [];
    }

    /** Enter an atomic block: the outermost one opens the transaction, an inner one a savepoint. */
    method Begin()
      requires Valid()
      modifies this`marks, this`saved
      ensures Valid()
      ensures marks == old(marks) + [|journal|] && saved == old(saved) + [View()]
    {
      marks := marks + [|journal|];
      saved := saved + [View()];
    }

    /** Leave an atomic block normally: the outermost exit commits. */
    method Release()
      requires Valid() && marks != []
      modifies this`marks, this`saved, this`journal
      ensures Valid() && View() == old(View())
      ensures marks == old(marks)[..|old(marks)| - 1] && saved == old(saved)[..|old(saved)| - 1]
    {
      marks := marks[..|marks| - 1];
      saved := saved[..|saved| - 1];
      if marks == [] {
        journal := [];
      }
    }

    /** Leave an atomic block by an exception: undo back to its beginning. */
    method Rollback()
      requires Valid() && marks != []
      modifies this
      ensures Valid() && View() == old(saved)[|old(saved)| - 1]
      ensures marks == old(marks)[..|old(marks)| - 1] && saved == old(saved)[..|old(saved)| - 1]
    {
      UndoTo(marks[|marks| - 1]);
      marks := marks[..|marks| - 1];
      saved := saved[..|saved| - 1];
    }

    /** Undo entry by entry until the journal is as long as it was at the last savepoint. */
    method UndoTo(mark: nat)
      requires Valid() && marks != [] && mark == marks[|marks| - 1]
      modifies this
      ensures Valid() && marks == old(marks) && saved == old(saved)
      ensures |journal| == mark && View() == saved[|marks| - 1]
    {
      while |journal| > mark
        invariant Valid() && marks == old(marks) && saved == old(saved)
        invariant mark <= |journal|
        decreases |journal|
      {
        UndoKeepsSavepoints(View(), journal, marks, saved);
        UndoLast();
      }
      assert journal[mark..] == [];
    }

    /** Apply and remove the last journal entry. */
    method UndoLast()
      requires journal != []
      modifies this
      ensures View() == Revert(old(View()), old(journal)[|old(journal)| - 1])
      ensures journal == old(journal)[..|old(journal)| - 1]
      ensures marks == old(marks) && saved == old(saved)
    {
      var u := journal[|journal| - 1];
      journal := journal[..|journal| - 1];
      if u.RestoreProduct? || u.RestorePayment? || u.ForgetPayment? {
        UndoKeyed(u);
      } else {
        UndoInsert(u);
      }
    }

    method UndoKeyed(u: Undo)
      requires u.RestoreProduct? || u.RestorePayment? || u.ForgetPayment?
      modifies this`products, this`payments, this`orders
      ensures View() == Revert(old(View()), u)
    {
      match u
      case RestoreProduct(p, old') =>
        products := if old'.Some? then products[p := old'.value] else products - {p};
      case RestorePayment(o, row) => payments := payments[o := row];
      case ForgetPayment(o) => payments, orders := payments - {o}, DropLast(orders);
    }

    method UndoInsert(u: Undo)
      requires !(u.RestoreProduct? || u.RestorePayment? || u.ForgetPayment?)
      modifies this`events, this`sales, this`lines, this`movements, this`entries, this`receipts
      modifies this`subscriptions, this`rules, this`executions
      ensures View() == Revert(old(View()), u)
    {
      if u.DropEvent? { events := DropLast(events); }
      else if u.DropSale? { sales := DropLast(sales); }
      else if u.DropLine? { lines := DropLast(lines); }
      else if u.DropMovement? { movements := DropLast(movements); }
      else { UndoLateInsert(u); }
    }

    method UndoLateInsert(u: Undo)
      requires u.DropEntry? || u.DropReceipt? || u.DropSubscription? || u.DropRule? || u.DropExecution?
      modifies this`entries, this`receipts, this`subscriptions, this`rules, this`executions
      ensures View() == Revert(old(View()), u)
    {
      match u
      case DropEntry => entries := DropLast(entries);
      case DropReceipt => receipts := DropLast(receipts);
      case DropSubscription => subscriptions := DropLast(subscriptions);
      case DropRule => rules := DropLast(rules);
      case DropExecution => executions := DropLast(executions);
    }

    // Row writes. Each belongs to an open atomic block.

    method SaveProduct(id: ProductId, row: Product)
      requires Valid() && marks != []
      modifies this`products, this`journal
      ensures Valid()
      ensures View() == old(View()).(db := old(View()).db.(products := old(products)[id := row]))
    {
      var u := RestoreProduct(id, if id in products then Some(products[id]) else None);
      ghost var before := View();
      products := products[id := row];
      assert Revert(View(), u).db.products == before.db.products;
      WriteKeepsSavepoints(before, View(), journal, u, marks, saved);
      journal := journal + [u];
    }

    method SavePayment(o: OrderId, row: Payment)
      requires Valid() && marks != [] && o in payments
      modifies this`payments, this`journal
      ensures Valid()
      ensures View() == old(View()).(db := old(View()).db.(payments := old(payments)[o := row]))
    {
      var u := RestorePayment(o, payments[o]);
      ghost var before := View();
      payments := payments[o := row];
      assert Revert(View(), u).db.payments == before.db.payments;
      WriteKeepsSavepoints(before, View(), journal, u, marks, saved);
      journal := journal + [u];
    }

    method InsertPayment(o: OrderId, row: Payment)
      requires Valid() && marks != [] && o !in payments
      modifies this`payments, this`orders, this`journal
      ensures Valid()
      ensures View() == old(View()).(db := old(View()).db.(payments := old(payments)[o := row],
                                                          orders := old(orders) + [o]))
    {
      var u := ForgetPayment(o);
      ghost var before := View();
      payments, orders := payments[o := row], orders + [o];
      assert Revert(View(), u).db.payments == before.db.payments;
      assert Revert(View(), u).db.orders == before.db.orders;
      WriteKeepsSavepoints(before, View(), journal, u, marks, saved);
      journal := journal + [u];
    }

    method InsertEvent(row: Event)
      requires Valid() && marks != []
      modifies this`events, this`journal
      ensures Valid()
      ensures View() == old(View()).(db := old(View()).db.(events := old(events) + [row]))
    {
      ghost var before := View();
      events := events + [row];
      assert Revert(View(), DropEvent) == before;
      WriteKeepsSavepoints(before, View(), journal, DropEvent, marks, saved);
      journal := journal + [DropEvent];
    }

    method InsertSale(row: Sale)
      requires Valid() && marks != []
      modifies this`sales, this`journal
      ensures Valid()
      ensures View() == old(View()).(db := old(View()).db.(sales := old(sales) + [row]))
    {
      ghost var before := View();
      sales := sales + [row];
      assert Revert(View(), DropSale) == before;
      WriteKeepsSavepoints(before, View(), journal, DropSale, marks, saved);
      journal := journal + [DropSale];
    }

    method InsertLine(row: SaleLine)
      requires Valid() && marks != []
      modifies this`lines, this`journal
      ensures Valid()
      ensures View() == old(View()).(db := old(View()).db.(lines := old(lines) + [row]))
    {
      ghost var before := View();
      lines := lines + [row];
      assert Revert(View(), DropLine) == before;
      WriteKeepsSavepoints(before, View(), journal, DropLine, marks, saved);
      journal := journal + [DropLine];
    }

    method InsertMovement(row: Movement)
      requires Valid() && marks != []
      modifies this`movements, this`journal
      ensures Valid()
      ensures View() == old(View()).(db := old(View()).db.(movements := old(movements) + [row]))
    {
      ghost var before := View();
      movements := movements + [row];
      assert Revert(View(), DropMovement) == before;
      WriteKeepsSavepoints(before, View(), journal, DropMovement, marks, saved);
      journal := journal + [DropMovement];
    }

    method InsertEntry(row: Entry)
      requires Valid() && marks != []
      modifies this`entries, this`journal
      ensures Valid()
      ensures View() == old(View()).(db := old(View()).db.(entries := old(entries) + [row]))
    {
      ghost var before := View();
      entries := entries + [row];
      assert Revert(View(), DropEntry) == before;
      WriteKeepsSavepoints(before, View(), journal, DropEntry, marks, saved);
      journal := journal + [DropEntry];
    }

    method InsertReceipt(row: Receipt)
      requires Valid() && marks != []
      modifies this`receipts, this`journal
      ensures Valid()
      ensures View() == old(View()).(db := old(View()).db.(receipts := old(receipts) + [row]))
    {
      ghost var before := View();
      receipts := receipts + [row];
      assert Revert(View(), DropReceipt) == before;
      WriteKeepsSavepoints(before, View(), journal, DropReceipt, marks, saved);
      journal := journal + [DropReceipt];
    }

    method InsertSubscription(row: Subscription)
      requires Valid() && marks != []
      modifies this`subscriptions, this`journal
      ensures Valid()
      ensures View() == old(View()).(db := old(View()).db.(subscriptions := old(subscriptions) + [row]))
    {
      ghost var before := View();
      subscriptions := subscriptions + [row];
      assert Revert(View(), DropSubscription) == before;
      WriteKeepsSavepoints(before, View(), journal, DropSubscription, marks, saved);
      journal := journal + [DropSubscription];
    }

    method InsertRule(row: Rule)
      requires Valid() && marks != []
      modifies this`rules, this`journal
      ensures Valid()
      ensures View() == old(View()).(rules := old(rules) + [row])
    {
      ghost var before := View();
      rules := rules + [row];
      assert Revert(View(), DropRule) == before;
      WriteKeepsSavepoints(before, View(), journal, DropRule, marks, saved);
      journal := journal + [DropRule];
    }

    method InsertExecution(row: Execution)
      requires Valid() && marks != []
      modifies this`executions, this`journal
      ensures Valid()
      ensures View() == old(View()).(executions := old(executions) + [row])
    {
      ghost var before := View();
      executions := executions + [row];
      assert Revert(View(), DropExecution) == before;
      WriteKeepsSavepoints(before, View(), journal, DropExecution, marks, saved);
      journal := journal + [DropExecution];
    }
  }
}
