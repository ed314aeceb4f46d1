// What runs never undo: links, frozen carts, booked amounts, log rows; and why
// repeated confirmations leave no trace.
module History {
  import opened Basics
  import opened Tables
  import opened Confirmation
  import opened Requests
  import opened PaymentService
  import opened Books
  import opened Preservation
  import opened Runs

  /** A step that books nothing: payments keep everything but their status, new ones are unlinked. */
  ghost predicate Quiet(db: Db, after: Db) {
    && after.sales == db.sales && after.lines == db.lines && after.entries == db.entries
    && after.receipts == db.receipts && after.offers == db.offers
    && db.movements <= after.movements
    && (forall o :: o in db.payments ==>
          o in after.payments && after.payments[o] == db.payments[o].(status := after.payments[o].status))
    && (forall o :: o in after.payments && o !in db.payments ==>
          after.payments[o].event.None? && after.payments[o].status == Pending)
  }

  ghost predicate SameStatuses(db: Db, after: Db) {
    forall o :: o in db.payments && o in after.payments ==> after.payments[o].status == db.payments[o].status
  }

  /** The first successful confirmation of an order. */
  predicate FirstConfirm(db: Db, c: ConfirmArgs) {
    c.order in db.payments && db.payments[c.order].event.None? && Confirm(db, c).Ok?
  }

  /** A confirmation that is not the first success of its order changes nothing at all. */
  lemma RepeatIsIdentity(w: World, c: ConfirmArgs)
    requires !FirstConfirm(w.db, c)
    ensures AfterConfirm(w, c) == w
  {
  }

  ghost predicate StepKind(w: World, cmd: Cmd) {
    || (Quiet(w.db, Exec(w, cmd).db) && (!cmd.PollStatus? && !cmd.LatePoll? ==> SameStatuses(w.db, Exec(w, cmd).db)))
    || (exists c :: FirstConfirm(w.db, c) && Exec(w, cmd) == AfterConfirm(w, c))
  }

  lemma ConfirmStep(w: World, c: ConfirmArgs, cmd: Cmd)
    requires Exec(w, cmd) == AfterConfirm(w, c)
    ensures StepKind(w, cmd)
  {
    if !FirstConfirm(w.db, c) {
      RepeatIsIdentity(w, c);
    }
  }

  lemma FinishPollKind(w: World, p: Payment, a: PollArgs, cmd: Cmd)
    requires a.order in w.db.payments && (cmd.PollStatus? || cmd.LatePoll?)
    requires Exec(w, cmd) == OrSame(w, FinishPoll(w, p, a))
    ensures StepKind(w, cmd)
  {
    if a.answer.RailConfirmed? {
      ConfirmStep(w, PollConfirm(p, a, a.answer.at), cmd);
    }
  }

  lemma EventStep(w: World, e: Event, id: SaleId)
    requires Inv(w.db) && !StraySale(w.db, e, id)
    ensures StepKind(w, NewEvent(e, id))
  {
    EventOutcome(w, e, id);
  }

  /** An allowed event from outside leaves at most its own row. */
  lemma EventOutcome(w: World, e: Event, id: SaleId)
    requires Inv(w.db) && !StraySale(w.db, e, id)
    ensures var after := EventWorld(w, e, id).0;
            after == w || after == w.(db := WithEvent(w.db, e))
  {
    if !EventIdTaken(w.db.events, e.id) && Confirms(e) {
      EventBooksNothing(w.db, e, id);
    }
  }

  lemma PollStep(w: World, a: PollArgs)
    ensures StepKind(w, PollStatus(a))
  {
    if a.order in w.db.payments && Exec(w, PollStatus(a)) != w {
      FinishPollKind(w, w.db.payments[a.order], a, PollStatus(a));
    }
  }

  lemma LatePollStep(w: World, p: Payment, a: PollArgs)
    ensures StepKind(w, LatePoll(p, a))
  {
    if a.order in w.db.payments {
      FinishPollKind(w, p, a, LatePoll(p, a));
    }
  }

  lemma OnrampStep(w: World, a: OnrampArgs)
    ensures StepKind(w, OnrampOtp(a))
  {
    OnrampIsConfirm(w, a);
    if Exec(w, OnrampOtp(a)) != w {
      ConfirmStep(w, OnrampConfirm(w.db.payments[a.order], a), OnrampOtp(a));
    }
  }

  lemma WebhookStep(w: World, a: WebhookArgs)
    ensures StepKind(w, WebhookCall(a))
  {
    if Exec(w, WebhookCall(a)) != w {
      ConfirmStep(w, WebhookConfirm(a), WebhookCall(a));
    }
  }

  lemma StockStep(w: World, cmd: Cmd)
    requires cmd.AddProduct? || cmd.EditProduct? || cmd.MoveStock?
    ensures StepKind(w, cmd)
  {
  }

  lemma NewRowStep(w: World, cmd: Cmd)
    requires cmd.CheckOut? || cmd.Subscribe? || cmd.StartTrial? || cmd.AddRule? || cmd.SeedRule?
    ensures StepKind(w, cmd)
  {
  }

  /** Every command either books nothing or is the first successful confirmation of one order. */
  lemma ExecKinds(w: World, cmd: Cmd)
    requires Inv(w.db) && Allowed(w, cmd)
    ensures StepKind(w, cmd)
  {
    if cmd.NewEvent? {
      EventStep(w, cmd.event, cmd.saleId);
    } else if cmd.PollStatus? {
      PollStep(w, cmd.poll);
    } else if cmd.LatePoll? {
      LatePollStep(w, cmd.read, cmd.poll);
    } else if cmd.ConfirmOrder? {
      ConfirmStep(w, cmd.confirm, cmd);
    } else if cmd.OnrampOtp? {
      OnrampStep(w, cmd.onramp);
    } else if cmd.WebhookCall? {
      WebhookStep(w, cmd.webhook);
    } else if cmd.AddProduct? || cmd.EditProduct? || cmd.MoveStock? {
      StockStep(w, cmd);
    } else {
      NewRowStep(w, cmd);
    }
  }

  /** What a first confirmation does to the payment table and the logs. */
  lemma FirstConfirmShape(w: World, c: ConfirmArgs)
    requires Inv(w.db) && FirstConfirm(w.db, c)
    ensures var after := AfterConfirm(w, c).db;
            var p := w.db.payments[c.order];
            && after.payments == w.db.payments[c.order := Linked(p, c)]
            && after.offers == w.db.offers
            && w.db.movements <= after.movements
            && (p.purpose == Subscribing ==> SameTables(w.db, after) && after.products == w.db.products)
            && (p.purpose == Checkout ==> after.sales == w.db.sales + [SaleFor(EventFor(c, p), p, c.saleId)])
  {
    ConfirmIsDirect(w.db, c);
    if w.db.payments[c.order].purpose == Subscribing {
      SubscriptionConfirmedShape(w.db, c);
    }
  }

  /** Movement rows are never removed or changed. */
  lemma LogOnlyGrows(w: World, cmd: Cmd)
    requires Inv(w.db) && Allowed(w, cmd)
    ensures w.db.movements <= Exec(w, cmd).db.movements
  {
    ExecKinds(w, cmd);
    if !Quiet(w.db, Exec(w, cmd).db) {
      var c :| FirstConfirm(w.db, c) && Exec(w, cmd) == AfterConfirm(w, c);
      FirstConfirmShape(w, c);
    }
  }

  // The life of one payment.

  /** q is what a payment created as p may have become: its cart is frozen, an unlinked one still
      has its amounts, and a sale booked for it has the amount of p. */
  ghost predicate Descends(p: Payment, q: Payment, sales: seq<Sale>) {
    && q.business == p.business && q.lines == p.lines && q.currency == p.currency && q.purpose == p.purpose
    && (q.event.None? ==> q.amountBif == p.amountBif && q.amountSats == p.amountSats)
    && (Settled(q) ==> forall s :: s in sales && q.event == Some(s.event) ==> s.total == p.TotalAmount())
  }

  /** The event of a first confirmation is new to the sales and to the payments. */
  lemma FirstConfirmIsFresh(db: Db, c: ConfirmArgs)
    requires Linkage(db.payments, db.orders, db.events) && Owned(db) && FirstConfirm(db, c)
    ensures forall s :: s in db.sales ==> s.event != c.eventId
    ensures forall o :: o in db.payments ==> db.payments[o].event != Some(c.eventId)
  {
    TakenIds(db);
    forall s | s in db.sales ensures s.event != c.eventId {
      var i :| 0 <= i < |db.sales| && db.sales[i] == s;
      assert EventSold(db.sales, s.event);
    }
  }

  lemma FirstConfirmDescends(w: World, c: ConfirmArgs, o: OrderId, p: Payment)
    requires Inv(w.db) && FirstConfirm(w.db, c) && o in w.db.payments
    requires Descends(p, w.db.payments[o], w.db.sales)
    ensures var after := AfterConfirm(w, c).db;
            o in after.payments && Descends(p, after.payments[o], after.sales)
  {
    FirstConfirmShape(w, c);
    FirstConfirmIsFresh(w.db, c);
    DescendsThrough(p, w.db.payments, w.db.sales, c, o, AfterConfirm(w, c).db.sales);
  }

  lemma DescendsThrough(p: Payment, payments: map<OrderId, Payment>, sales: seq<Sale>, c: ConfirmArgs,
                        o: OrderId, after: seq<Sale>)
    requires o in payments && c.order in payments && payments[c.order].event.None?
    requires Descends(p, payments[o], sales)
    requires forall s :: s in sales ==> s.event != c.eventId
    requires payments[o].event != Some(c.eventId)
    requires var q := payments[c.order];
             after == sales + if q.purpose == Checkout then [SaleFor(EventFor(c, q), q, c.saleId)] else []
    ensures Descends(p, payments[c.order := Linked(payments[c.order], c)][o], after)
  {
  }

  lemma ExecDescends(w: World, cmd: Cmd, o: OrderId, p: Payment)
    requires Inv(w.db) && Allowed(w, cmd) && o in w.db.payments
    requires Descends(p, w.db.payments[o], w.db.sales)
    ensures var after := Exec(w, cmd).db;
            o in after.payments && Descends(p, after.payments[o], after.sales)
  {
    ExecKinds(w, cmd);
    if !Quiet(w.db, Exec(w, cmd).db) {
      var c :| FirstConfirm(w.db, c) && Exec(w, cmd) == AfterConfirm(w, c);
      FirstConfirmDescends(w, c, o, p);
    }
  }

  lemma UnlinkedDescends(db: Db, o: OrderId)
    requires o in db.payments && db.payments[o].event.None?
    ensures Descends(db.payments[o], db.payments[o], db.sales)
  {
  }

  lemma MoveDescends(w: World, mid: World, cmd: Cmd, after: World, o: OrderId, p: Payment)
    requires Inv(w.db) && Leads(w, mid) && Moves(mid, cmd, after)
    requires o in mid.db.payments && Descends(p, mid.db.payments[o], mid.db.sales)
    ensures o in after.db.payments && Descends(p, after.db.payments[o], after.db.sales)
  {
    RunKeepsInv(w, mid);
    ExecDescends(mid, cmd, o, p);
  }

  /** However prices, costs, stock and other orders change afterwards, and whatever amounts are
      passed to its confirmation, a cart is booked as it was frozen: its lines, its cost and the
      amount it had before confirmation. */
  least lemma CartStaysFrozen(w: World, after: World, o: OrderId)
    requires Leads(w, after) && Inv(w.db)
    requires o in w.db.payments && w.db.payments[o].event.None?
    ensures o in after.db.payments
            && Descends(w.db.payments[o], after.db.payments[o], after.db.sales)
  {
    if w == after {
      UnlinkedDescends(w.db, o);
    } else {
      var mid, cmd :| Leads(w, mid) && Moves(mid, cmd, after);
      CartStaysFrozen(w, mid, o);
      MoveDescends(w, mid, cmd, after, o, w.db.payments[o]);
    }
  }

  /** The linked payments of a database are all in a later one, with everything but their status. */
  ghost predicate KeepsLinks(before: Db, after: Db) {
    forall o :: o in before.payments && before.payments[o].event.Some? ==>
      o in after.payments && after.payments[o] == before.payments[o].(status := after.payments[o].status)
  }

  lemma FirstConfirmKeepsLinks(w: World, c: ConfirmArgs)
    requires Inv(w.db) && FirstConfirm(w.db, c)
    ensures KeepsLinks(w.db, AfterConfirm(w, c).db)
  {
    FirstConfirmShape(w, c);
  }

  lemma ExecKeepsLinks(w: World, cmd: Cmd, after: World)
    requires Inv(w.db) && Moves(w, cmd, after)
    ensures KeepsLinks(w.db, after.db)
  {
    ExecKinds(w, cmd);
    if !Quiet(w.db, after.db) {
      var c :| FirstConfirm(w.db, c) && after == AfterConfirm(w, c);
      FirstConfirmKeepsLinks(w, c);
    }
  }

  lemma MoveKeepsLinks(w: World, mid: World, cmd: Cmd, after: World)
    requires Inv(w.db) && Leads(w, mid) && KeepsLinks(w.db, mid.db) && Moves(mid, cmd, after)
    ensures KeepsLinks(w.db, after.db)
  {
    RunKeepsInv(w, mid);
    ExecKeepsLinks(mid, cmd, after);
  }

  /** A link is never cleared or changed, whatever the order of requests and late poll writes. */
  least lemma LinkIsForever(w: World, after: World)
    requires Leads(w, after) && Inv(w.db)
    ensures KeepsLinks(w.db, after.db)
  {
    if w != after {
      var mid, cmd :| Leads(w, mid) && Moves(mid, cmd, after);
      LinkIsForever(w, mid);
      MoveKeepsLinks(w, mid, cmd, after);
    }
  }

  lemma RepeatOfLinked(w: World, c: ConfirmArgs)
    requires c.order in w.db.payments && w.db.payments[c.order].event.Some?
    ensures ConfirmWorld(w, c) == Ok((w, w.db.payments[c.order].event.value))
  {
  }

  /** After an order's first confirmation every further call returns that first event and changes
      nothing, whatever its arguments and whatever happened in between. */
  lemma RepeatReturnsFirst(w: World, c: ConfirmArgs, later: World, again: ConfirmArgs)
    requires Inv(w.db) && FirstConfirm(w.db, c) && again.order == c.order
    requires Leads(AfterConfirm(w, c), later)
    ensures ConfirmWorld(later, again) == Ok((later, c.eventId))
  {
    FirstConfirmShape(w, c);
    AfterConfirmKeepsInv(w, c);
    LinkIsForever(AfterConfirm(w, c), later);
    RepeatOfLinked(later, again);
  }

  // Replay.

  function ConfirmAll(w: World, cs: seq<ConfirmArgs>): World {
    if cs == [] then w else AfterConfirm(ConfirmAll(w, cs[..|cs| - 1]), cs[|cs| - 1])
  }

  predicate Succeeds(w: World, cs: seq<ConfirmArgs>, i: nat)
    requires i < |cs|
  {
    ConfirmWorld(ConfirmAll(w, cs[..i]), cs[i]).Ok?
  }

  /** Call i is the first success of an order that was not yet linked. */
  predicate Counts(w: World, cs: seq<ConfirmArgs>, i: nat)
    requires i < |cs|
  {
    && Succeeds(w, cs, i)
    && (cs[i].order in w.db.payments ==> w.db.payments[cs[i].order].event.None?)
    && forall j :: 0 <= j < i && cs[j].order == cs[i].order ==> !Succeeds(w, cs, j)
  }

  /** The calls without the failed ones and without all calls after an order's first success. */
  function Essential(w: World, cs: seq<ConfirmArgs>): seq<ConfirmArgs> {
    if cs == [] then []
    else
      var n := |cs| - 1;
      Essential(w, cs[..n]) + if Counts(w, cs, n) then [cs[n]] else []
  }

  lemma {:induction false} ConfirmAllKeepsInv(w: World, cs: seq<ConfirmArgs>)
    requires Inv(w.db)
    ensures Inv(ConfirmAll(w, cs).db)
    ensures forall o :: o in w.db.payments <==> o in ConfirmAll(w, cs).db.payments
  {
    if cs != [] {
      var n := |cs| - 1;
      ConfirmAllKeepsInv(w, cs[..n]);
      AfterConfirmKeepsInv(ConfirmAll(w, cs[..n]), cs[n]);
      ConfirmTouchesOrder(ConfirmAll(w, cs[..n]), cs[n]);
    }
  }

  /** A confirmation links its own order exactly when it succeeds, and no other. */
  lemma ConfirmTouchesOrder(w: World, c: ConfirmArgs)
    requires Inv(w.db)
    ensures var after := AfterConfirm(w, c).db;
            && (forall o :: o in w.db.payments <==> o in after.payments)
            && (forall o :: o in w.db.payments && o != c.order ==> after.payments[o] == w.db.payments[o])
            && (c.order in w.db.payments ==>
                  (after.payments[c.order].event.Some?
                   <==> w.db.payments[c.order].event.Some? || ConfirmWorld(w, c).Ok?))
  {
    if FirstConfirm(w.db, c) {
      FirstConfirmShape(w, c);
    }
  }

  predicate SomeSuccess(w: World, cs: seq<ConfirmArgs>, o: OrderId) {
    exists j :: 0 <= j < |cs| && cs[j].order == o && Succeeds(w, cs, j)
  }

  /** Whether a call succeeds depends only on the calls up to it. */
  lemma SucceedsPrefix(w: World, cs: seq<ConfirmArgs>, n: nat)
    requires n <= |cs|
    ensures forall j :: 0 <= j < n ==> (Succeeds(w, cs[..n], j) <==> Succeeds(w, cs, j))
  {
    forall j | 0 <= j < n ensures Succeeds(w, cs[..n], j) <==> Succeeds(w, cs, j) {
      assert cs[..n][..j] == cs[..j];
    }
  }

  /** One of the first n calls succeeds for the order. */
  predicate EarlierSuccess(w: World, cs: seq<ConfirmArgs>, n: nat, o: OrderId)
    requires n <= |cs|
  {
    exists j :: 0 <= j < n && cs[j].order == o && Succeeds(w, cs, j)
  }

  lemma EarlierSuccessOfPrefix(w: World, cs: seq<ConfirmArgs>, n: nat, o: OrderId)
    requires n <= |cs|
    ensures SomeSuccess(w, cs[..n], o) <==> EarlierSuccess(w, cs, n, o)
  {
    SucceedsPrefix(w, cs, n);
    if EarlierSuccess(w, cs, n, o) {
      var j :| 0 <= j < n && cs[j].order == o && Succeeds(w, cs, j);
      assert cs[..n][j].order == o && Succeeds(w, cs[..n], j);
    }
    if SomeSuccess(w, cs[..n], o) {
      var j :| 0 <= j < n && cs[..n][j].order == o && Succeeds(w, cs[..n], j);
      assert cs[j].order == o && Succeeds(w, cs, j);
    }
  }

  lemma SomeSuccessPush(w: World, cs: seq<ConfirmArgs>, o: OrderId)
    requires cs != []
    ensures var n := |cs| - 1;
            SomeSuccess(w, cs, o) <==> SomeSuccess(w, cs[..n], o) || (cs[n].order == o && Succeeds(w, cs, n))
  {
    EarlierSuccessOfPrefix(w, cs, |cs| - 1, o);
  }

  /** An order is linked after a series of calls iff it was before or one of its calls succeeded. */
  lemma {:induction false} LinkedIffSucceeded(w: World, cs: seq<ConfirmArgs>, o: OrderId)
    requires Inv(w.db) && o in w.db.payments
    ensures o in ConfirmAll(w, cs).db.payments
    ensures ConfirmAll(w, cs).db.payments[o].event.Some?
            <==> w.db.payments[o].event.Some? || SomeSuccess(w, cs, o)
  {
    if cs != [] {
      var n := |cs| - 1;
      LinkedIffSucceeded(w, cs[..n], o);
      SomeSuccessPush(w, cs, o);
      ConfirmAllKeepsInv(w, cs[..n]);
      ConfirmTouchesOrder(ConfirmAll(w, cs[..n]), cs[n]);
    }
  }

  /** The counted calls are exactly those that change the database. */
  lemma CountsIffFirst(w: World, cs: seq<ConfirmArgs>)
    requires Inv(w.db) && cs != []
    ensures var n := |cs| - 1;
            Counts(w, cs, n) <==> FirstConfirm(ConfirmAll(w, cs[..n]).db, cs[n])
  {
    var n := |cs| - 1;
    ConfirmAllKeepsInv(w, cs[..n]);
    EarlierSuccessOfPrefix(w, cs, n, cs[n].order);
    if cs[n].order in w.db.payments {
      LinkedIffSucceeded(w, cs[..n], cs[n].order);
    }
  }

  /** Any series of confirmation calls ends in the same database as its essential calls alone. */
  lemma {:induction false} ReplayInsensitive(w: World, cs: seq<ConfirmArgs>)
    requires Inv(w.db)
    ensures ConfirmAll(w, cs) == ConfirmAll(w, Essential(w, cs))
  {
    if cs != [] {
      var n := |cs| - 1;
      ReplayInsensitive(w, cs[..n]);
      CountsIffFirst(w, cs);
      if Counts(w, cs, n) {
        var kept := Essential(w, cs[..n]);
        assert (kept + [cs[n]])[..|kept|] == kept;
      } else {
        assert Essential(w, cs) == Essential(w, cs[..n]);
        RepeatIsIdentity(ConfirmAll(w, cs[..n]), cs[n]);
      }
    }
  }

  // Payment status.

  /** With one request at a time, paid and linked are the same thing. */
  ghost predicate PaidIffLinked(db: Db) {
    forall o :: o in db.payments ==> (db.payments[o].status == Paid <==> db.payments[o].event.Some?)
  }

  lemma ConfirmKeepsPaidIffLinked(w: World, c: ConfirmArgs)
    requires Inv(w.db) && PaidIffLinked(w.db)
    ensures PaidIffLinked(AfterConfirm(w, c).db)
  {
    if FirstConfirm(w.db, c) {
      FirstConfirmShape(w, c);
    } else {
      RepeatIsIdentity(w, c);
    }
  }

  lemma StatusKeepsPaidIffLinked(db: Db, o: OrderId, s: PaymentStatus)
    requires PaidIffLinked(db) && o in db.payments && db.payments[o].status == Pending && s != Paid
    ensures PaidIffLinked(SetStatus(db, o, s))
  {
  }

  /** What a poll comes to: nothing, a status write on a pending payment, or a confirmation. */
  lemma PollOutcome(w: World, a: PollArgs)
    ensures var after := Exec(w, PollStatus(a));
            || after == w
            || (exists c :: after == AfterConfirm(w, c))
            || (&& a.order in w.db.payments && w.db.payments[a.order].status == Pending
                && exists s :: s != Paid && after.db == SetStatus(w.db, a.order, s))
  {
    if a.order in w.db.payments && Exec(w, PollStatus(a)) != w {
      var p := w.db.payments[a.order];
      match a.answer
      case RailConfirmed(at) => assert Exec(w, PollStatus(a)) == AfterConfirm(w, PollConfirm(p, a, at));
      case RailExpired => assert Exec(w, PollStatus(a)).db == SetStatus(w.db, a.order, Expired);
      case RailFailed => assert Exec(w, PollStatus(a)).db == SetStatus(w.db, a.order, Failed);
      case _ =>
    }
  }

  lemma PollKeepsPaidIffLinked(w: World, a: PollArgs)
    requires Inv(w.db) && PaidIffLinked(w.db)
    ensures PaidIffLinked(Exec(w, PollStatus(a)).db)
  {
    PollOutcome(w, a);
    var after := Exec(w, PollStatus(a));
    if c :| after == AfterConfirm(w, c) {
      ConfirmKeepsPaidIffLinked(w, c);
    } else if after != w {
      var s :| s != Paid && after.db == SetStatus(w.db, a.order, s);
      StatusKeepsPaidIffLinked(w.db, a.order, s);
    }
  }

  lemma ExecKeepsPaidIffLinked(w: World, cmd: Cmd)
    requires Inv(w.db) && Allowed(w, cmd) && !cmd.LatePoll? && PaidIffLinked(w.db)
    ensures PaidIffLinked(Exec(w, cmd).db)
  {
    if cmd.PollStatus? {
      PollKeepsPaidIffLinked(w, cmd.poll);
    } else {
      ExecKinds(w, cmd);
      if !Quiet(w.db, Exec(w, cmd).db) || !SameStatuses(w.db, Exec(w, cmd).db) {
        var c :| FirstConfirm(w.db, c) && Exec(w, cmd) == AfterConfirm(w, c);
        FirstConfirmShape(w, c);
      }
    }
  }

  /** Some run without late halves of polls goes from the first database to the second. */
  least predicate LeadsSerially(w: World, after: World) {
    w == after || exists mid, cmd: Cmd :: LeadsSerially(w, mid) && !cmd.LatePoll? && Moves(mid, cmd, after)
  }

  ghost predicate SerialInv(w: World, after: World) {
    Inv(after.db) && PaidIffLinked(after.db) && KeepsLinks(w.db, after.db)
  }

  lemma MoveKeepsSerialInv(w: World, mid: World, cmd: Cmd, after: World)
    requires SerialInv(w, mid) && !cmd.LatePoll? && Moves(mid, cmd, after)
    ensures SerialInv(w, after)
  {
    ExecKeepsInv(mid, cmd);
    ExecKeepsLinks(mid, cmd, after);
    ExecKeepsPaidIffLinked(mid, cmd);
  }

  least lemma SerialRunKeepsInv(w: World, after: World)
    requires LeadsSerially(w, after) && Inv(w.db) && PaidIffLinked(w.db)
    ensures SerialInv(w, after)
  {
    if w != after {
      var mid, cmd: Cmd :| LeadsSerially(w, mid) && !cmd.LatePoll? && Moves(mid, cmd, after);
      SerialRunKeepsInv(w, mid);
      MoveKeepsSerialInv(w, mid, cmd, after);
    }
  }

  /** In serial runs a payment is PAID exactly when it is linked, and PAID is never left again. */
  lemma SerialPaidIffLinked(w: World, after: World)
    requires LeadsSerially(w, after) && Inv(w.db) && PaidIffLinked(w.db)
    ensures PaidIffLinked(after.db)
    ensures forall o :: o in w.db.payments && w.db.payments[o].status == Paid ==>
              o in after.db.payments && after.db.payments[o].status == Paid
  {
    SerialRunKeepsInv(w, after);
  }

  /** A late status write keeps "paid iff linked" exactly when the order is still unlinked, and a
      late poll never books a second chain because a linked order ignores it. */
  lemma LateWriteIff(w: World, p: Payment, a: PollArgs)
    requires Inv(w.db) && PaidIffLinked(w.db)
    requires a.order in w.db.payments && (a.answer.RailExpired? || a.answer.RailFailed?)
    ensures PaidIffLinked(Exec(w, LatePoll(p, a)).db) <==> w.db.payments[a.order].event.None?
  {
    var after := Exec(w, LatePoll(p, a)).db;
    assert after.payments[a.order].status != Paid;
  }
}
