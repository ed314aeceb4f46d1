// The whole database under concurrent transactions: the tables of the
// confirmation chain together with the automation rules and executions.
module Concurrency {
  import opened Basics
  import opened Tables
  import opened Selling
  import opened Automation
  import opened Confirmation
  import opened Checkout
  import opened Requests
  import opened Books
  import opened Preservation
  import opened Runs
  import opened History
  import opened Statements
  import opened Interleaving

  // The serial reference on the whole database.

  function Alone(w: World, program: Program): Result<World, Error> {
    match program
    case Confirming(c) =>
      (match ConfirmWorld(w, c)
       case Err(x) => Err(x)
       case Ok((after, _)) => Ok(after))
    case Correcting(a) =>
      (match ChangeStock(w.db, a)
       case Err(x) => Err(x)
       case Ok(db) => Ok(w.(db := db)))
    case WriteStatus(o, s) =>
      if o in w.db.payments && s in {Expired, Failed} then Ok(w.(db := SetStatus(w.db, o, s)))
      else Err(UnknownOrder)
  }

  function Serial(w: World, log: seq<Program>): Result<World, Error> {
    if log == [] then Ok(w)
    else
      match Serial(w, log[..|log| - 1])
      case Err(x) => Err(x)
      case Ok(v) => Alone(v, log[|log| - 1])
  }

  /** Automation never reaches the tables of the confirmation chain. */
  lemma AloneAgrees(w: World, program: Program)
    ensures Alone(w, program).Ok? <==> AloneTables(w.db, program).Ok?
    ensures Alone(w, program).Ok? ==> Alone(w, program).value.db == AloneTables(w.db, program).value
  {
  }

  lemma {:induction false} SerialAgrees(w: World, log: seq<Program>)
    ensures Serial(w, log).Ok? <==> SerialTables(w.db, log).Ok?
    ensures Serial(w, log).Ok? ==> Serial(w, log).value.db == SerialTables(w.db, log).value
  {
    if log != [] {
      var n := |log| - 1;
      SerialAgrees(w, log[..n]);
      if Serial(w, log[..n]).Ok? {
        AloneAgrees(Serial(w, log[..n]).value, log[n]);
      }
    }
  }

  lemma SerialPushed(w: World, log: seq<Program>, program: Program, mid: World)
    requires Serial(w, log) == Ok(mid)
    ensures Serial(w, log + [program]) == Alone(mid, program)
  {
    assert (log + [program])[..|log|] == log;
  }

  // What a transaction has read of the rules.

  /** What the automation step has read and written is what it would read and write now. */
  ghost predicate AutoInv(rules: seq<Rule>, x: Txn) {
    x.Selling? && !x.auto.NotYet? ==>
      var b := x.payment.business;
      && rules + x.auto.rules == EnsureDefaultRule(rules, b)
      && (x.auto.Evaluated? ==>
            x.auto.fired == Fired(rules + x.auto.rules, x.c.eventId, b, x.c.saleId,
                                  LowItems(x.own.products, x.own.lines)))
  }

  ghost predicate AutosInv(rules: seq<Rule>, txns: map<TxnId, Txn>) {
    forall t :: t in txns ==> AutoInv(rules, txns[t])
  }

  /** The lines sold so far are of rows that the transaction has locked and written. */
  lemma OwnLines(db: Db, locks: map<Lock, TxnId>, t: TxnId, x: Txn)
    requires x.Selling? && SellingInv(db, locks, t, x)
    ensures forall l :: l in x.own.lines ==> l.product in x.own.products
    ensures LinesExact(x.c.saleId, x.payment.lines[..x.done], x.own.lines)
  {
    var snaps := x.payment.lines[..x.done];
    SellExact(db.products, x.payment.business, x.c.order, x.c.saleId, snaps);
    forall l | l in x.own.lines ensures l.product in x.own.products {
      var i :| 0 <= i < |x.own.lines| && x.own.lines[i] == l;
      assert l == LineFor(x.c.saleId, snaps[i]);
    }
  }

  /** The report of a transaction depends on its own rows only. */
  lemma OwnReport(db: Db, locks: map<Lock, TxnId>, t: TxnId, x: Txn)
    requires x.Selling? && SellingInv(db, locks, t, x)
    ensures LowItems(Seen(db, x.own.products), x.own.lines) == LowItems(x.own.products, x.own.lines)
  {
    OwnLines(db, locks, t, x);
    LowItemsLocal(Seen(db, x.own.products), x.own.products, x.own.lines);
  }

  lemma AdvanceKeepsAuto(db: Db, rules: seq<Rule>, locks: map<Lock, TxnId>, t: TxnId, x: Txn)
    requires TxnInv(db, locks, t, x) && NextTxn(db, rules, x).Some? && AutoInv(rules, x)
    ensures AutoInv(rules, NextTxn(db, rules, x).value)
  {
    if x.Selling? {
      OwnReport(db, locks, t, x);
      assert rules + [] == rules;
    }
  }

  // A commit whose reads still hold is one serial execution.

  function AfterCommit(w: World, x: Txn, after: Db): World {
    World(after, w.rules + OwnRules(x), w.executions + OwnExecutions(x))
  }

  lemma SellingIsAlone(w: World, locks: map<Lock, TxnId>, t: TxnId, x: Txn, after: Db)
    requires Inv(w.db) && x.Selling? && SellingInv(w.db, locks, t, x) && AutoInv(w.rules, x)
    requires Merge(w.db, x) == Some(after)
    ensures Alone(w, x.Prog()) == Ok(AfterCommit(w, x, after))
  {
    SellingMerge(w.db, locks, t, x);
    ConfirmIsDirect(w.db, x.c);
    assert x.payment.lines[..x.done] == x.payment.lines;
    OwnLines(w.db, locks, t, x);
    OwnReport(w.db, locks, t, x);
    LinesCarrySale(x.c.saleId, x.payment.lines, x.own.lines);
    NewLinesAlone(w.db, x.own.lines, x.c.saleId);
  }

  lemma OtherIsAlone(w: World, locks: map<Lock, TxnId>, t: TxnId, x: Txn, after: Db)
    requires Inv(w.db) && !x.Selling? && TxnInv(w.db, locks, t, x) && Merge(w.db, x) == Some(after)
    ensures Alone(w, x.Prog()) == Ok(AfterCommit(w, x, after))
  {
    MergeIsAlone(w.db, locks, t, x);
    if x.Repeating? || x.Activating? {
      BooksNoSale(w.db, locks, t, x);
    }
    AloneWithoutSale(w, x.Prog(), after);
    assert w.rules + [] == w.rules && w.executions + [] == w.executions;
  }

  lemma BooksNoSale(db: Db, locks: map<Lock, TxnId>, t: TxnId, x: Txn)
    requires Inv(db) && (x.Repeating? || x.Activating?) && TxnInv(db, locks, t, x) && Confirm(db, x.c).Ok?
    ensures Confirm(db, x.c).value.sale == None
  {
    if x.Activating? {
      ConfirmIsDirect(db, x.c);
    }
  }

  lemma AloneWithoutSale(w: World, program: Program, after: Db)
    requires AloneTables(w.db, program) == Ok(after)
    requires program.Confirming? && Confirm(w.db, program.c).Ok? ==> Confirm(w.db, program.c).value.sale == None
    ensures Alone(w, program) == Ok(w.(db := after))
  {
  }

  lemma CommitIsAlone(w: World, locks: map<Lock, TxnId>, t: TxnId, x: Txn, after: Db)
    requires Inv(w.db) && TxnInv(w.db, locks, t, x) && AutoInv(w.rules, x) && Merge(w.db, x) == Some(after)
    ensures Alone(w, x.Prog()) == Ok(AfterCommit(w, x, after))
  {
    if x.Selling? {
      SellingIsAlone(w, locks, t, x, after);
    } else {
      OtherIsAlone(w, locks, t, x, after);
    }
  }

  // Businesses that have a trigger rule.

  /** The business of every cart that may still be confirmed has a rule for confirmed payments. */
  ghost predicate RulesSeeded(db: Db, rules: seq<Rule>) {
    forall o :: o in db.payments && db.payments[o].purpose == Purpose.Checkout && db.payments[o].event.None? ==>
      HasTriggerRule(rules, db.payments[o].business)
  }

  lemma MergeKeepsSeeded(db: Db, locks: map<Lock, TxnId>, t: TxnId, x: Txn, rules: seq<Rule>, after: Db)
    requires TxnInv(db, locks, t, x) && Merge(db, x) == Some(after) && RulesSeeded(db, rules)
    ensures RulesSeeded(after, rules)
  {
  }

  lemma SeededAddsNothing(db: Db, locks: map<Lock, TxnId>, t: TxnId, x: Txn, rules: seq<Rule>)
    requires TxnInv(db, locks, t, x) && RulesSeeded(db, rules) && AutoInv(rules, x)
    ensures OwnRules(x) == []
  {
    if x.Selling? && x.auto.Evaluated? {
      assert |rules + x.auto.rules| == |rules|;
    }
  }

  ghost predicate WholeInv(initial: World, s: State) {
    && Serial(initial, s.log) == Ok(s.Committed())
    && RulesSeeded(s.db, s.rules) && AutosInv(s.rules, s.txns)
  }

  lemma CommitKeepsRules(s: State, t: TxnId, after: Db)
    requires TxnsInv(s.db, s.locks, s.txns) && RulesSeeded(s.db, s.rules) && AutosInv(s.rules, s.txns)
    requires t in s.txns && Merge(s.db, s.txns[t]) == Some(after)
    ensures var next := Step(s, Commit(t));
            next.rules == s.rules && RulesSeeded(next.db, next.rules) && AutosInv(next.rules, next.txns)
  {
    var x := s.txns[t];
    assert TxnInv(s.db, s.locks, t, x) && AutoInv(s.rules, x);
    MergeKeepsSeeded(s.db, s.locks, t, x, s.rules, after);
    SeededAddsNothing(s.db, s.locks, t, x, s.rules);
    assert s.rules + [] == s.rules;
  }

  lemma CommitKeepsWhole(initial: World, s: State, t: TxnId, after: Db)
    requires StateInv(initial.db, s) && WholeInv(initial, s)
    requires t in s.txns && Merge(s.db, s.txns[t]) == Some(after)
    ensures WholeInv(initial, Step(s, Commit(t)))
  {
    var x := s.txns[t];
    assert TxnInv(s.db, s.locks, t, x) && AutoInv(s.rules, x);
    CommitIsAlone(s.Committed(), s.locks, t, x, after);
    SerialPushed(initial, s.log, x.Prog(), s.Committed());
    CommitKeepsRules(s, t, after);
  }

  lemma AdvanceKeepsAutos(initial: Db, s: State, t: TxnId)
    requires StateInv(initial, s) && AutosInv(s.rules, s.txns)
    ensures AutosInv(s.rules, Step(s, Advance(t)).txns)
  {
    if Step(s, Advance(t)) != s {
      assert TxnInv(s.db, s.locks, t, s.txns[t]) && AutoInv(s.rules, s.txns[t]);
      AdvanceKeepsAuto(s.db, s.rules, s.locks, t, s.txns[t]);
    }
  }

  lemma StepKeepsWhole(initial: World, s: State, action: Action)
    requires StateInv(initial.db, s) && WholeInv(initial, s)
    ensures WholeInv(initial, Step(s, action))
  {
    match action
    case Begin(_, _) =>
    case Advance(t) => AdvanceKeepsAutos(initial.db, s, t);
    case Commit(t) =>
      if t in s.txns && Merge(s.db, s.txns[t]).Some? {
        CommitKeepsWhole(initial, s, t, Merge(s.db, s.txns[t]).value);
      }
    case Abort(_) =>
  }

  lemma {:induction false} StepsKeepWhole(w: World, actions: seq<Action>)
    requires Inv(w.db) && RulesSeeded(w.db, w.rules)
    ensures WholeInv(w, Steps(Idle(w), actions))
  {
    if actions != [] {
      var n := |actions| - 1;
      StepsKeepWhole(w, actions[..n]);
      StepsKeepInv(w, actions[..n]);
      StepKeepsWhole(w, Steps(Idle(w), actions[..n]), actions[n]);
    }
  }

  /** The whole committed database is that of the committed transactions run one at a time. */
  ghost predicate CommitsSerially(w: World, actions: seq<Action>) {
    var s := Steps(Idle(w), actions);
    Serial(w, s.log) == Ok(s.Committed())
  }

  /** In every interleaving, with aborts anywhere, all committed transactions succeed when run one
      at a time in commit order, and give the committed tables; with a trigger rule for each
      business they give the whole committed database, automation included. */
  lemma Serialisable(w: World, actions: seq<Action>)
    requires Inv(w.db)
    ensures var s := Steps(Idle(w), actions);
            Serial(w, s.log).Ok? && Serial(w, s.log).value.db == s.db
    ensures RulesSeeded(w.db, w.rules) ==> CommitsSerially(w, actions)
  {
    TablesSerialisable(w, actions);
    SerialAgrees(w, Steps(Idle(w), actions).log);
    if RulesSeeded(w.db, w.rules) {
      StepsKeepWhole(w, actions);
    }
  }

  // Interleavings as runs.

  /** The request whose effect on the database is that of a program run alone. */
  function CmdOf(program: Program): Cmd {
    match program
    case Confirming(c) => ConfirmOrder(c)
    case Correcting(a) => MoveStock(a)
    case WriteStatus(o, s) =>
      LatePoll(Payment(0, None, BlinkDirect, [], BIF, None, None, Purpose.Checkout, Pending, None),
               PollArgs(0, o, if s == Expired then RailExpired else RailFailed, "", Keys(0, 0, 0)))
  }

  lemma AloneMoves(w: World, program: Program, after: World)
    requires Alone(w, program) == Ok(after)
    ensures Moves(w, CmdOf(program), after)
  {
  }

  lemma {:induction false} SerialIsReachable(w: World, log: seq<Program>, after: World)
    requires Reachable(w) && Serial(w, log) == Ok(after)
    ensures Reachable(after) && KeepsLinks(w.db, after.db)
  {
    if log != [] {
      var n := |log| - 1;
      var mid := Serial(w, log[..n]).value;
      SerialIsReachable(w, log[..n], mid);
      AloneMoves(mid, log[n], after);
      ReachableStep(mid, CmdOf(log[n]), after);
      ReachableKeepsLinks(mid, CmdOf(log[n]), after);
    }
  }

  lemma ReachableKeepsLinks(w: World, cmd: Cmd, after: World)
    requires Reachable(w) && Moves(w, cmd, after)
    ensures KeepsLinks(w.db, after.db)
  {
    ReachableInv(w);
    ExecKeepsLinks(w, cmd, after);
  }

  /** Whatever the interleaving, the committed tables are those of some run of single requests, so
      every statement about reachable databases holds after it, and no link is lost or changed. */
  lemma InterleavingIsReachable(w: World, actions: seq<Action>) returns (after: World)
    requires Reachable(w)
    ensures Reachable(after) && after.db == Steps(Idle(w), actions).db && KeepsLinks(w.db, after.db)
    ensures RulesSeeded(w.db, w.rules) ==> after == Steps(Idle(w), actions).Committed()
  {
    ReachableInv(w);
    Serialisable(w, actions);
    after := Serial(w, Steps(Idle(w), actions).log).value;
    SerialIsReachable(w, Steps(Idle(w), actions).log, after);
  }

  // The first commit of an interleaving.

  ghost predicate Uncommitted(w: World, s: State) {
    s.log == [] ==> s.Committed() == w && AutosInv(w.rules, s.txns)
  }

  lemma StepKeepsUncommitted(w: World, s: State, action: Action)
    requires StateInv(w.db, s) && Uncommitted(w, s)
    ensures Uncommitted(w, Step(s, action))
  {
    match action
    case Begin(_, _) =>
    case Advance(t) => if s.log == [] { AdvanceKeepsAutos(w.db, s, t); }
    case Commit(t) =>
    case Abort(_) =>
  }

  lemma {:induction false} StepsKeepUncommitted(w: World, actions: seq<Action>)
    requires Inv(w.db)
    ensures Uncommitted(w, Steps(Idle(w), actions))
  {
    if actions != [] {
      var n := |actions| - 1;
      StepsKeepUncommitted(w, actions[..n]);
      StepsKeepInv(w, actions[..n]);
      StepKeepsUncommitted(w, Steps(Idle(w), actions[..n]), actions[n]);
    }
  }

  /** Whatever rules there are, the first transaction to commit leaves the whole database exactly
      as if it had run alone. */
  lemma FirstCommitIsAlone(w: World, actions: seq<Action>, t: TxnId)
    requires Inv(w.db)
    requires var s := Steps(Idle(w), actions); s.log == [] && t in s.txns && Merge(s.db, s.txns[t]).Some?
    ensures var s := Steps(Idle(w), actions);
            Alone(w, s.txns[t].Prog()) == Ok(Step(s, Commit(t)).Committed())
  {
    StepsKeepUncommitted(w, actions);
    StepsKeepInv(w, actions);
    var s := Steps(Idle(w), actions);
    assert TxnInv(s.db, s.locks, t, s.txns[t]) && AutoInv(s.rules, s.txns[t]);
    CommitIsAlone(w, s.locks, t, s.txns[t], Merge(s.db, s.txns[t]).value);
  }

  // The interleaved system can do whatever the serial one can.

  /** Nobody but transaction 0 is open or holds a lock. */
  ghost predicate OnlyZero(s: State) {
    s.txns.Keys == {0} && forall l :: l in s.locks ==> s.locks[l] == 0
  }

  /** Transaction 0 is alone and has sold the first k lines of the cart of c. */
  ghost predicate SoloAt(db: Db, c: ConfirmArgs, k: nat, s: State) {
    && (forall l :: l in s.locks ==> s.locks[l] == 0) && s.txns.Keys == {0}
    && s.db == db && s.log == [] && c.order in db.payments
    && 0 in s.txns && s.txns[0].Selling? && s.txns[0].auto.NotYet?
    && s.txns[0].c == c && s.txns[0].payment == db.payments[c.order] && s.txns[0].done == k
  }

  /** As long as the whole cart sells alone, the next line does. */
  lemma NextLineSells(db: Db, x: Txn)
    requires x.Selling? && x.done < |x.payment.lines| && SoldSoFar(db.products, x)
    requires Sell(db.products, x.payment.business, x.c.order, x.c.saleId, x.payment.lines).Ok?
    ensures SellNext(db, x).Some?
  {
    var snaps := x.payment.lines;
    if Sell(db.products, x.payment.business, x.c.order, x.c.saleId, snaps[..x.done + 1]).Err? {
      SellStopsAtError(db.products, x.payment.business, x.c.order, x.c.saleId, snaps, x.done + 1);
    }
    assert snaps[..x.done + 1][..x.done] == snaps[..x.done];
    SellLineLocal(Sold(db.products + x.own.products, x.own.movements, x.own.lines, x.own.cogs),
                  x.payment.business, x.c.order, x.c.saleId, snaps[x.done]);
  }

  lemma SoloSellsNext(db: Db, c: ConfirmArgs, k: nat, s: State)
    requires SoloAt(db, c, k, s) && k < |s.txns[0].payment.lines| && SoldSoFar(db.products, s.txns[0])
    requires Sell(db.products, s.txns[0].payment.business, c.order, c.saleId, s.txns[0].payment.lines).Ok?
    ensures SoloAt(db, c, k + 1, Step(s, Advance(0)))
  {
    NextLineSells(db, s.txns[0]);
  }

  lemma SellingKnows(w: World, actions: seq<Action>)
    requires Inv(w.db)
    ensures var s := Steps(Idle(w), actions);
            0 in s.txns && s.txns[0].Selling? ==>
              s.txns[0].done <= |s.txns[0].payment.lines| && SoldSoFar(s.db.products, s.txns[0])
  {
    StepsKeepInv(w, actions);
    var s := Steps(Idle(w), actions);
    if 0 in s.txns {
      assert TxnInv(s.db, s.locks, 0, s.txns[0]);
    }
  }

  /** Begin, lock the payment, and k more statements. */
  function SoloActions(c: ConfirmArgs, k: nat): seq<Action> {
    if k == 0 then [Begin(0, Confirming(c))] + [Advance(0)] else SoloActions(c, k - 1) + [Advance(0)]
  }

  /** An unlinked cart that sells alone. */
  predicate SellsAlone(db: Db, c: ConfirmArgs) {
    && c.order in db.payments && c.order != ""
    && var p := db.payments[c.order];
       && p.event.None? && p.purpose == Purpose.Checkout
       && Sell(db.products, p.business, c.order, c.saleId, p.lines).Ok?
  }

  lemma SoloFirst(w: World, c: ConfirmArgs)
    requires SellsAlone(w.db, c)
    ensures SoloAt(w.db, c, 0, Steps(Idle(w), SoloActions(c, 0)))
  {
    assert [] + [Begin(0, Confirming(c))] == [Begin(0, Confirming(c))];
    StepsAppend(Idle(w), [], Begin(0, Confirming(c)));
    StepsAppend(Idle(w), [Begin(0, Confirming(c))], Advance(0));
  }

  ghost predicate SoloReaches(w: World, c: ConfirmArgs, k: nat) {
    SoloAt(w.db, c, k, Steps(Idle(w), SoloActions(c, k)))
  }

  ghost predicate SoloGoesOn(w: World, c: ConfirmArgs, k: nat) {
    SoloReaches(w, c, k) ==> SoloReaches(w, c, k + 1)
  }

  lemma SoloNext(w: World, c: ConfirmArgs, k: nat)
    requires Inv(w.db) && SellsAlone(w.db, c) && k < |w.db.payments[c.order].lines|
    ensures SoloGoesOn(w, c, k)
  {
    if SoloReaches(w, c, k) {
      SellingKnows(w, SoloActions(c, k));
      StepsAppend(Idle(w), SoloActions(c, k), Advance(0));
      SoloSellsNext(w.db, c, k, Steps(Idle(w), SoloActions(c, k)));
    }
  }

  lemma {:induction false} SoloChain(w: World, c: ConfirmArgs, n: nat)
    requires SoloReaches(w, c, 0) && forall k :: 0 <= k < n ==> SoloGoesOn(w, c, k)
    ensures SoloReaches(w, c, n)
  {
    if n > 0 {
      SoloChain(w, c, n - 1);
      assert SoloGoesOn(w, c, n - 1);
    }
  }

  /** Left alone, a confirmation of an unlinked cart reaches its last line. */
  lemma SoloSells(w: World, c: ConfirmArgs, n: nat)
    requires Inv(w.db) && SellsAlone(w.db, c) && n <= |w.db.payments[c.order].lines|
    ensures SoloReaches(w, c, n)
  {
    SoloFirst(w, c);
    forall k | 0 <= k < n ensures SoloGoesOn(w, c, k) {
      SoloNext(w, c, k);
    }
    SoloChain(w, c, n);
  }

  lemma SoloAutomates(db: Db, c: ConfirmArgs, s: State)
    requires c.order in db.payments && SoloAt(db, c, |db.payments[c.order].lines|, s)
    requires !EventIdTaken(db.events, c.eventId) && !SaleIdTaken(db.sales, c.saleId)
    ensures var ready := Step(Step(s, Advance(0)), Advance(0));
            && ready.db == db && ready.log == [] && 0 in ready.txns && ready.txns[0].Prog() == Confirming(c)
            && Merge(ready.db, ready.txns[0]).Some? && OnlyZero(ready)
  {
  }

  /** All statements of a confirmation of n lines: the lines and the automation step. */
  function WholeConfirmation(c: ConfirmArgs, n: nat): seq<Action> {
    SoloActions(c, n) + [Advance(0)] + [Advance(0)]
  }

  /** A first confirmation that succeeds alone also commits as a transaction of single statements,
      and leaves the same database. */
  lemma ConfirmationCommits(w: World, c: ConfirmArgs)
    requires Inv(w.db) && FirstConfirm(w.db, c) && w.db.payments[c.order].purpose == Purpose.Checkout
    ensures var s := Steps(Idle(w), WholeConfirmation(c, |w.db.payments[c.order].lines|) + [Commit(0)]);
            s.log == [Confirming(c)] && Alone(w, Confirming(c)) == Ok(s.Committed())
  {
    var actions := WholeConfirmation(c, |w.db.payments[c.order].lines|);
    FirstSellsAlone(w.db, c);
    SoloReady(w, c, |w.db.payments[c.order].lines|);
    StepsAppend(Idle(w), actions, Commit(0));
    FirstCommitIsAlone(w, actions, 0);
    CommitLogs(Steps(Idle(w), actions));
  }

  lemma FirstSellsAlone(db: Db, c: ConfirmArgs)
    requires Linkage(db.payments, db.orders, db.events) && Owned(db)
    requires FirstConfirm(db, c) && db.payments[c.order].purpose == Purpose.Checkout
    ensures SellsAlone(db, c) && !EventIdTaken(db.events, c.eventId) && !SaleIdTaken(db.sales, c.saleId)
  {
    ConfirmIsDirect(db, c);
  }

  lemma CommitLogs(s: State)
    requires s.log == [] && 0 in s.txns && Merge(s.db, s.txns[0]).Some?
    ensures Step(s, Commit(0)).log == [s.txns[0].Prog()]
  {
    assert [] + [s.txns[0].Prog()] == [s.txns[0].Prog()];
  }

  lemma SoloReady(w: World, c: ConfirmArgs, n: nat)
    requires Inv(w.db) && SellsAlone(w.db, c) && n == |w.db.payments[c.order].lines|
    requires !EventIdTaken(w.db.events, c.eventId) && !SaleIdTaken(w.db.sales, c.saleId)
    ensures var s := Steps(Idle(w), WholeConfirmation(c, n));
            && s.log == [] && 0 in s.txns && s.txns[0].Prog() == Confirming(c) && Merge(s.db, s.txns[0]).Some?
            && OnlyZero(s)
  {
    SoloSells(w, c, n);
    StepsAppend(Idle(w), SoloActions(c, n), Advance(0));
    StepsAppend(Idle(w), SoloActions(c, n) + [Advance(0)], Advance(0));
    SoloAutomates(w.db, c, Steps(Idle(w), SoloActions(c, n)));
  }

  // Every serial run is an interleaving.

  /** The state between transactions. */
  function Between(w: World, log: seq<Program>): State {
    State(w.db, w.rules, w.executions, map[], map[], log)
  }

  /** A transaction 0 that can commit, alone. */
  ghost predicate Ready(s: State, program: Program) {
    && s.log == [] && OnlyZero(s) && s.txns[0].Prog() == program && Merge(s.db, s.txns[0]).Some?
  }

  lemma ReadyCommits(w: World, actions: seq<Action>, program: Program, after: World)
    requires Inv(w.db) && Ready(Steps(Idle(w), actions), program) && Alone(w, program) == Ok(after)
    ensures Steps(Idle(w), actions + [Commit(0)]) == Between(after, [program])
  {
    var s := Steps(Idle(w), actions);
    StepsAppend(Idle(w), actions, Commit(0));
    FirstCommitIsAlone(w, actions, 0);
    CommitEmpties(s);
    CommitLogs(s);
  }

  lemma CommitEmpties(s: State)
    requires OnlyZero(s) && Merge(s.db, s.txns[0]).Some?
    ensures Step(s, Commit(0)).locks == map[] && Step(s, Commit(0)).txns == map[]
  {
  }

  /** The two statements of a program that takes one lock: to begin, and to lock and decide. */
  function TwoActions(program: Program): seq<Action> {
    [Begin(0, program)] + [Advance(0)]
  }

  lemma TwoSteps(w: World, program: Program)
    ensures Steps(Idle(w), TwoActions(program)) == Step(Step(Idle(w), Begin(0, program)), Advance(0))
  {
    assert [] + [Begin(0, program)] == [Begin(0, program)];
    StepsAppend(Idle(w), [], Begin(0, program));
    StepsAppend(Idle(w), [Begin(0, program)], Advance(0));
  }

  lemma OtherReady(w: World, program: Program)
    requires !program.Confirming? && Alone(w, program).Ok?
    ensures Ready(Step(Step(Idle(w), Begin(0, program)), Advance(0)), program)
  {
  }

  lemma RepeatReady(w: World, c: ConfirmArgs)
    requires c.order in w.db.payments && w.db.payments[c.order].event.Some?
    ensures Ready(Step(Step(Idle(w), Begin(0, Confirming(c))), Advance(0)), Confirming(c))
  {
  }

  lemma PurchaseReady(w: World, c: ConfirmArgs)
    requires c.order in w.db.payments && w.db.payments[c.order].event.None? && c.order != ""
    requires w.db.payments[c.order].purpose == Subscribing && !EventIdTaken(w.db.events, c.eventId)
    ensures Ready(Step(Step(Idle(w), Begin(0, Confirming(c))), Advance(0)), Confirming(c))
  {
  }

  lemma FirstPurchase(db: Db, c: ConfirmArgs)
    requires Linkage(db.payments, db.orders, db.events) && Owned(db)
    requires FirstConfirm(db, c) && db.payments[c.order].purpose == Subscribing
    ensures c.order != "" && !EventIdTaken(db.events, c.eventId)
  {
    ConfirmIsDirect(db, c);
  }

  /** Every program that succeeds alone also gets ready to commit, statement by statement. */
  lemma GetsReady(w: World, program: Program) returns (actions: seq<Action>)
    requires Inv(w.db) && Alone(w, program).Ok?
    ensures Ready(Steps(Idle(w), actions), program)
  {
    actions := TwoActions(program);
    TwoSteps(w, program);
    if !program.Confirming? {
      OtherReady(w, program);
    } else if w.db.payments[program.c.order].event.Some? {
      RepeatReady(w, program.c);
    } else {
      AloneConfirms(w, program.c);
      actions := FirstGetsReady(w, program.c);
    }
  }

  lemma AloneConfirms(w: World, c: ConfirmArgs)
    requires Alone(w, Confirming(c)).Ok?
    ensures c.order in w.db.payments && Confirm(w.db, c).Ok?
  {
  }

  lemma FirstGetsReady(w: World, c: ConfirmArgs) returns (actions: seq<Action>)
    requires Inv(w.db) && FirstConfirm(w.db, c)
    ensures Ready(Steps(Idle(w), actions), Confirming(c))
  {
    if w.db.payments[c.order].purpose == Subscribing {
      actions := TwoActions(Confirming(c));
      FirstPurchase(w.db, c);
      TwoSteps(w, Confirming(c));
      PurchaseReady(w, c);
    } else {
      actions := WholeConfirmation(c, |w.db.payments[c.order].lines|);
      FirstSellsAlone(w.db, c);
      SoloReady(w, c, |w.db.payments[c.order].lines|);
    }
  }

  // Steps do not depend on what was committed before.

  function After(log: seq<Program>, s: State): State {
    s.(log := log + s.log)
  }

  lemma StepAfter(log: seq<Program>, s: State, action: Action)
    ensures Step(After(log, s), action) == After(log, Step(s, action))
  {
    if action.Commit? && action.t in s.txns {
      assert (log + s.log) + [s.txns[action.t].Prog()] == log + (s.log + [s.txns[action.t].Prog()]);
    }
  }

  lemma {:induction false} StepsAfter(log: seq<Program>, s: State, actions: seq<Action>)
    ensures Steps(After(log, s), actions) == After(log, Steps(s, actions))
  {
    if actions != [] {
      var n := |actions| - 1;
      StepsAfter(log, s, actions[..n]);
      StepAfter(log, Steps(s, actions[..n]), actions[n]);
    }
  }

  lemma {:induction false} StepsJoin(s: State, a: seq<Action>, b: seq<Action>)
    ensures Steps(s, a + b) == Steps(Steps(s, a), b)
  {
    if b == [] {
      assert a + b == a;
    } else {
      var n := |b| - 1;
      assert a + b == (a + b[..n]) + [b[n]];
      StepsJoin(s, a, b[..n]);
      StepsAppend(s, a + b[..n], b[n]);
    }
  }

  /** One more program of a serial run, as a transaction of its own. */
  lemma ProgramCommits(w: World, log: seq<Program>, program: Program, after: World, longer: seq<Program>)
    returns (actions: seq<Action>)
    requires Inv(w.db) && Alone(w, program) == Ok(after) && longer == log + [program]
    ensures Steps(Between(w, log), actions) == Between(after, longer)
  {
    var ready := GetsReady(w, program);
    ReadyCommits(w, ready, program, after);
    actions := ready + [Commit(0)];
    StepsAfter(log, Idle(w), actions);
    assert log + [] == log;
  }

  ghost predicate Interleaves(w: World, actions: seq<Action>, log: seq<Program>, after: World) {
    Steps(Idle(w), actions) == Between(after, log)
  }

  lemma InterleavingsJoin(w: World, front: seq<Action>, log: seq<Program>, mid: World, last: seq<Action>,
                          longer: seq<Program>, after: World)
    requires Interleaves(w, front, log, mid) && Steps(Between(mid, log), last) == Between(after, longer)
    ensures Interleaves(w, front + last, longer, after)
  {
    StepsJoin(Idle(w), front, last);
  }

  lemma OneMore(w: World, front: seq<Action>, log: seq<Program>, mid: World, program: Program,
                longer: seq<Program>, after: World) returns (actions: seq<Action>)
    requires Interleaves(w, front, log, mid) && longer == log + [program]
    requires Inv(mid.db) && Alone(mid, program) == Ok(after)
    ensures Interleaves(w, actions, longer, after)
  {
    var last := ProgramCommits(mid, log, program, after, longer);
    InterleavingsJoin(w, front, log, mid, last, longer, after);
    actions := front + last;
  }

  lemma SerialLast(w: World, log: seq<Program>, after: World) returns (mid: World)
    requires Inv(w.db) && log != [] && Serial(w, log) == Ok(after)
    ensures Serial(w, log[..|log| - 1]) == Ok(mid) && Inv(mid.db)
    ensures Alone(mid, log[|log| - 1]) == Ok(after) && log == log[..|log| - 1] + [log[|log| - 1]]
  {
    mid := Serial(w, log[..|log| - 1]).value;
    SerialKeepsInv(w, log[..|log| - 1], mid);
  }

  /** Every serial run in which all programs succeed is the outcome of some interleaving, so nothing
      that the requests can do alone is lost by locking. */
  lemma {:induction false} EverySerialRunInterleaves(w: World, log: seq<Program>, after: World)
    returns (actions: seq<Action>)
    requires Inv(w.db) && Serial(w, log) == Ok(after)
    ensures Interleaves(w, actions, log, after)
  {
    if log == [] {
      actions := [];
    } else {
      var init := log[..|log| - 1];
      var mid := SerialLast(w, log, after);
      var front := EverySerialRunInterleaves(w, init, mid);
      actions := OneMore(w, front, init, mid, log[|log| - 1], log, after);
    }
  }

  lemma {:induction false} SerialKeepsInv(w: World, log: seq<Program>, after: World)
    requires Inv(w.db) && Serial(w, log) == Ok(after)
    ensures Inv(after.db)
  {
    if log != [] {
      var n := |log| - 1;
      var mid := Serial(w, log[..n]).value;
      SerialKeepsInv(w, log[..n], mid);
      AloneAgrees(mid, log[n]);
      AloneKeepsInv(mid.db, log[n]);
    }
  }

  // Two first sales of a business without a trigger rule.

  /** An unlinked payment of a free amount, whose cart has no lines. */
  predicate FreeAmount(db: Db, c: ConfirmArgs, b: BusinessId) {
    && c.order in db.payments && c.order != ""
    && !EventIdTaken(db.events, c.eventId) && !SaleIdTaken(db.sales, c.saleId)
    && var p := db.payments[c.order];
       p.business == b && p.event.None? && p.purpose == Purpose.Checkout && p.lines == []
  }

  ghost predicate Rivals(db: Db, c: ConfirmArgs, d: ConfirmArgs, b: BusinessId) {
    && FreeAmount(db, c, b) && FreeAmount(db, d, b)
    && c.order != d.order && c.eventId != d.eventId && c.saleId != d.saleId
  }

  /** Both transactions in step, with their payments locked. */
  function RaceAt(w: World, c: ConfirmArgs, d: ConfirmArgs, auto: Auto): State
    requires c.order in w.db.payments && d.order in w.db.payments
  {
    var none := Sold(map[], [], [], 0);
    State(w.db, w.rules, w.executions,
          map[PaymentRow(c.order) := 0, PaymentRow(d.order) := 1],
          map[0 := Selling(c, w.db.payments[c.order], 0, none, auto),
              1 := Selling(d, w.db.payments[d.order], 0, none, auto)], [])
  }

  function Both(s: State): State {
    Step(Step(s, Advance(0)), Advance(1))
  }

  const BothAdvance := [Advance(0), Advance(1)]

  function Race(c: ConfirmArgs, d: ConfirmArgs): seq<Action> {
    [Begin(0, Confirming(c)), Begin(1, Confirming(d))] + BothAdvance + BothAdvance + BothAdvance
    + [Commit(0), Commit(1)]
  }

  lemma StepsTwo(s: State, actions: seq<Action>, a: Action, b: Action)
    ensures Steps(s, actions + [a, b]) == Step(Step(Steps(s, actions), a), b)
  {
    assert actions + [a, b] == (actions + [a]) + [b];
    StepsAppend(s, actions, a);
    StepsAppend(s, actions + [a], b);
  }

  lemma RaceStarts(w: World, c: ConfirmArgs, d: ConfirmArgs, b: BusinessId)
    requires Rivals(w.db, c, d, b)
    ensures Both(Step(Step(Idle(w), Begin(0, Confirming(c))), Begin(1, Confirming(d)))) == RaceAt(w, c, d, NotYet)
  {
  }

  lemma RaceEnsures(w: World, c: ConfirmArgs, d: ConfirmArgs, b: BusinessId)
    requires Rivals(w.db, c, d, b) && !HasTriggerRule(w.rules, b)
    ensures Both(RaceAt(w, c, d, NotYet)) == RaceAt(w, c, d, Ensured([DefaultRule(b)]))
  {
  }

  lemma RaceEvaluates(w: World, c: ConfirmArgs, d: ConfirmArgs, b: BusinessId)
    requires Rivals(w.db, c, d, b)
    ensures Both(RaceAt(w, c, d, Ensured([DefaultRule(b)]))) == RaceAt(w, c, d, Evaluated([DefaultRule(b)], []))
  {
    FiredReports(w.rules + [DefaultRule(b)], c.eventId, b, c.saleId, multiset{});
    FiredReports(w.rules + [DefaultRule(b)], d.eventId, b, d.saleId, multiset{});
  }

  lemma RaceCommits(w: World, c: ConfirmArgs, d: ConfirmArgs, b: BusinessId)
    requires Rivals(w.db, c, d, b)
    ensures var s := Step(Step(RaceAt(w, c, d, Evaluated([DefaultRule(b)], [])), Commit(0)), Commit(1));
            && s.rules == w.rules + [DefaultRule(b)] + [DefaultRule(b)]
            && s.log == [Confirming(c)] + [Confirming(d)]
  {
    assert [] + [Confirming(c)] == [Confirming(c)];
  }

  lemma RaceRuns(w: World, c: ConfirmArgs, d: ConfirmArgs, b: BusinessId)
    requires Rivals(w.db, c, d, b) && !HasTriggerRule(w.rules, b)
    ensures var s := Steps(Idle(w), Race(c, d));
            && s.rules == w.rules + [DefaultRule(b)] + [DefaultRule(b)]
            && s.log == [Confirming(c)] + [Confirming(d)]
  {
    var begins := [Begin(0, Confirming(c)), Begin(1, Confirming(d))];
    assert begins == [] + begins;
    StepsTwo(Idle(w), [], Begin(0, Confirming(c)), Begin(1, Confirming(d)));
    StepsTwo(Idle(w), begins, Advance(0), Advance(1));
    RaceStarts(w, c, d, b);
    StepsTwo(Idle(w), begins + BothAdvance, Advance(0), Advance(1));
    RaceEnsures(w, c, d, b);
    StepsTwo(Idle(w), begins + BothAdvance + BothAdvance, Advance(0), Advance(1));
    RaceEvaluates(w, c, d, b);
    StepsTwo(Idle(w), begins + BothAdvance + BothAdvance + BothAdvance, Commit(0), Commit(1));
    RaceCommits(w, c, d, b);
  }

  /** Confirming a payment of a free amount alone only makes sure of the default rule. */
  lemma AloneEnsuresRule(w: World, c: ConfirmArgs, b: BusinessId)
    requires Inv(w.db) && FreeAmount(w.db, c, b)
    ensures Alone(w, Confirming(c)).Ok?
    ensures Alone(w, Confirming(c)).value.rules == EnsureDefaultRule(w.rules, b)
  {
    ConfirmIsDirect(w.db, c);
  }

  lemma FirstLeavesRival(w: World, c: ConfirmArgs, d: ConfirmArgs, b: BusinessId)
    requires Inv(w.db) && Rivals(w.db, c, d, b)
    ensures Alone(w, Confirming(c)).Ok?
    ensures Inv(Alone(w, Confirming(c)).value.db) && FreeAmount(Alone(w, Confirming(c)).value.db, d, b)
  {
    AloneAgrees(w, Confirming(c));
    ConfirmLeavesRival(w.db, c, d, b);
    AloneKeepsInv(w.db, Confirming(c));
  }

  lemma ConfirmLeavesRival(db: Db, c: ConfirmArgs, d: ConfirmArgs, b: BusinessId)
    requires Linkage(db.payments, db.orders, db.events) && Owned(db) && Rivals(db, c, d, b)
    ensures Confirm(db, c).Ok? && FreeAmount(Confirm(db, c).value.db, d, b)
  {
    ConfirmIsDirect(db, c);
  }

  lemma SerialOfTwo(w: World, p: Program, q: Program, mid: World)
    requires Alone(w, p) == Ok(mid)
    ensures Serial(w, [p] + [q]) == Alone(mid, q)
  {
    assert [] + [p] == [p];
    SerialPushed(w, [], p, w);
    SerialPushed(w, [p], q, mid);
  }

  lemma SeededOnce(rules: seq<Rule>, b: BusinessId)
    requires !HasTriggerRule(rules, b)
    ensures EnsureDefaultRule(EnsureDefaultRule(rules, b), b) == rules + [DefaultRule(b)]
  {
    assert (rules + [DefaultRule(b)])[|rules|] == DefaultRule(b);
  }

  /** Run one after the other, the two leave one default rule. */
  lemma SerialSeedsOnce(w: World, c: ConfirmArgs, d: ConfirmArgs, b: BusinessId, mid: World)
    requires Inv(w.db) && Rivals(w.db, c, d, b) && !HasTriggerRule(w.rules, b)
    requires Alone(w, Confirming(c)) == Ok(mid) && Inv(mid.db) && FreeAmount(mid.db, d, b)
    ensures Serial(w, [Confirming(c)] + [Confirming(d)]).Ok?
    ensures Serial(w, [Confirming(c)] + [Confirming(d)]).value.rules == w.rules + [DefaultRule(b)]
  {
    AloneEnsuresRule(w, c, b);
    AloneEnsuresRule(mid, d, b);
    SerialOfTwo(w, Confirming(c), Confirming(d), mid);
    SeededOnce(w.rules, b);
  }

  /** Two first confirmations of a business without a trigger rule can both insert its default
      rule, which no serial run of them does. */
  lemma TwoFirstSales(w: World, c: ConfirmArgs, d: ConfirmArgs, b: BusinessId)
    requires Inv(w.db) && Rivals(w.db, c, d, b) && !HasTriggerRule(w.rules, b)
    ensures Steps(Idle(w), Race(c, d)).rules == w.rules + [DefaultRule(b)] + [DefaultRule(b)]
    ensures !CommitsSerially(w, Race(c, d))
  {
    RaceRuns(w, c, d, b);
    FirstLeavesRival(w, c, d, b);
    SerialSeedsOnce(w, c, d, b, Alone(w, Confirming(c)).value);
  }

  // Exactly when automation is serialisable.

  ghost predicate AllOrdersOf(db: Db, b: BusinessId) {
    forall o :: o in db.payments ==> db.payments[o].business == b
  }

  ghost predicate AutomationSerialisable(rules: seq<Rule>, b: BusinessId) {
    forall w: World, actions :: w.rules == rules && Inv(w.db) && AllOrdersOf(w.db, b) ==> CommitsSerially(w, actions)
  }

  function AmountCheckout(b: BusinessId, o: OrderId): CheckoutArgs {
    CheckoutArgs(Some(b), [], Some(100), Some(BIF), BlinkDirect, Some(Invoice(None, None)), o)
  }

  /** A business with two payments of free amounts and nothing else. */
  lemma RivalOrders(b: BusinessId) returns (db: Db)
    ensures Inv(db) && AllOrdersOf(db, b)
    ensures FreeAmount(db, ConfirmArgs("a", None, None, "", None, 0, 0, 0), b)
    ensures FreeAmount(db, ConfirmArgs("b", None, None, "", None, 0, 1, 1), b)
  {
    var empty := EmptyWorld(map[]).db;
    EmptyInv(map[]);
    CheckoutKeepsInv(empty, AmountCheckout(b, "a"));
    var one := CreateCheckout(empty, AmountCheckout(b, "a")).value;
    CheckoutKeepsInv(one, AmountCheckout(b, "b"));
    db := CreateCheckout(one, AmountCheckout(b, "b")).value;
  }

  /** For the orders of a business, every interleaving commits the whole database of a serial run,
      automation included, exactly if the rule table has a trigger rule of the business. */
  lemma SerialisableIffSeeded(rules: seq<Rule>, b: BusinessId)
    ensures AutomationSerialisable(rules, b) <==> HasTriggerRule(rules, b)
  {
    if HasTriggerRule(rules, b) {
      forall w: World, actions | w.rules == rules && Inv(w.db) && AllOrdersOf(w.db, b) ensures CommitsSerially(w, actions) {
        Serialisable(w, actions);
      }
    } else {
      var db := RivalOrders(b);
      var c := ConfirmArgs("a", None, None, "", None, 0, 0, 0);
      var d := ConfirmArgs("b", None, None, "", None, 0, 1, 1);
      TwoFirstSales(World(db, rules, []), c, d, b);
    }
  }
}
