/**
 What every interleaving keeps: an order is EXECUTING exactly while one execution holds it, and an
 order's debit and trade happen once or not at all.  There are no transactions, and two of the
 status writes are unconditional; all of it rests on the invariant below.
 */
module Ownership {
  import opened Wrappers
  import opened AnalyticsEvents
  import opened Domain
  import opened Protocol

  // An execution is attached to its order from a successful claim until its last write about it.
  predicate Attached(pc: ExecPc) {
    !pc.Queued? && !pc.Skipped? && !pc.Ended?
  }

  // While it also holds the claim, the order is EXECUTING.
  predicate HoldsClaim(pc: ExecPc) {
    Attached(pc) && !pc.FailMarked? && !pc.CompleteMarked?
  }

  predicate AttachedTo(p: Proc, o: Id) {
    p.Execution? && p.orderId == o && Attached(p.exec)
  }

  predicate ClaimedBy(p: Proc, o: Id) {
    p.Execution? && p.orderId == o && HoldsClaim(p.exec)
  }

  predicate Untraded(db: Db, o: Id) {
    TradesOf(db.trades, o) == []
  }

  predicate Uncharged(db: Db, o: Id) {
    DebitsOf(db.ledger, o) == []
  }

  // One debit row, for this owner and this amount.
  predicate ChargedOnce(db: Db, o: Id, order: Order, price: real) {
    var rows := DebitsOf(db.ledger, o);
    |rows| == 1 && rows[0].userId == order.userId && rows[0].amount == Cost(order, price)
  }

  predicate TradedOnce(db: Db, o: Id, order: Order, price: real, at: int) {
    TradesOf(db.trades, o) == [TradeFor(o, order, price, at)]
  }

  predicate Acceptable(order: Order, price: real) {
    0.0 <= price <= order.targetPrice
  }

  predicate HasStatus(db: Db, o: Id, status: OrderStatus) {
    o in db.orders && db.orders[o].status == status
  }

  // What an attached execution may rely on at each of its steps.
  predicate HolderOk(db: Db, o: Id, pc: ExecPc)
    requires Attached(pc)
  {
    match pc
    case Claimed(order) => Started(db, o, order)
    case FoundTrade(order) => false
    case Unexecuted(order) => Started(db, o, order)
    case Reverting(order) => Started(db, o, order)
    case Priced(order, price) => Started(db, o, order) && Acceptable(order, price)
    case Rejected(order, price) => Started(db, o, order) && Acceptable(order, price)
    case FailMarked(order, price) =>
      && Holding(db, o, order, OrderStatus.Failed) && Untraded(db, o) && Uncharged(db, o) && Acceptable(order, price)
    case Debited(order, price, balanceAfter) => Started(db, o, order) && Acceptable(order, price) && balanceAfter >= 0.0
    case Ledgered(order, price, _, row) => Paid(db, o, order, price) && row in DebitsOf(db.ledger, o)
    case Charged(order, price) => Paid(db, o, order, price)
    case Traded(order, price, at) => Filled(db, o, order, price, at)
    case PositionRead(order, price, at, _) => Filled(db, o, order, price, at)
    case Positioned(order, price, at) => Filled(db, o, order, price, at)
    case CompleteMarked(order, price, at) =>
      && Holding(db, o, order, Completed) && ChargedOnce(db, o, order, price) && TradedOnce(db, o, order, price, at)
      && Acceptable(order, price) && db.orders[o].executedPrice == Some(price)
    case ThrewNoStock(_) => false
    case ThrewDuplicateTrade(_, _) => false
    case ThrewAtPosition(order, price, at) => Filled(db, o, order, price, at)
  }

  predicate Holding(db: Db, o: Id, order: Order, status: OrderStatus) {
    HasStatus(db, o, status) && SameTerms(db.orders[o], order)
  }

  predicate Started(db: Db, o: Id, order: Order) {
    Holding(db, o, order, Executing) && Untraded(db, o) && Uncharged(db, o)
  }

  predicate Paid(db: Db, o: Id, order: Order, price: real) {
    Holding(db, o, order, Executing) && Untraded(db, o) && ChargedOnce(db, o, order, price) && Acceptable(order, price)
  }

  predicate Filled(db: Db, o: Id, order: Order, price: real, at: int) {
    Holding(db, o, order, Executing) && TradedOnce(db, o, order, price, at)
    && ChargedOnce(db, o, order, price) && Acceptable(order, price)
  }

  // What an order's document says about its money and its trade when no execution holds it.
  predicate OrderOk(db: Db, o: Id)
    requires o in db.orders
  {
    var order := db.orders[o];
    && order.quantity >= 1.0 && order.targetPrice >= 0.01
    && order.symbol in db.stocks && order.userId in db.users
    && match order.status
       case Executing => true
       case Completed =>
         && order.executedPrice.Some? && Acceptable(order, order.executedPrice.value)
         && ChargedOnce(db, o, order, order.executedPrice.value)
         && |TradesOf(db.trades, o)| == 1
         && TradedOnce(db, o, order, order.executedPrice.value, TradesOf(db.trades, o)[0].executedAt)
       case _ => Untraded(db, o) && Uncharged(db, o)
  }

  ghost predicate DbOk(db: Db) {
    && "" !in db.users
    && (forall o | o in db.orders :: OrderOk(db, o))
    && (forall o | o !in db.orders :: Untraded(db, o) && Uncharged(db, o))
    && (forall u | u in db.users :: db.users[u].walletBalance >= 0.0)
    && (forall y | y in db.stocks :: db.stocks[y].currentPrice >= 0.0)
  }

  // The bounds a request was validated against, and what it has established so far.
  predicate ProcOk(db: Db, p: Proc) {
    match p
    case Execution(o, pc) => Attached(pc) ==> HolderOk(db, o, pc)
    case PriceUpdate(_, price, _) => price >= 0.0
    case Creation(userId, symbol, target, quantity, _, pc) =>
      && target >= 0.01 && quantity >= 1.0
      && (pc.StockRead? || pc.UserRead? ==> symbol in db.stocks)
      && (pc.UserRead? ==> userId in db.users)
    case Depositing(_, amount, _) => amount >= 0.01
    case _ => true
  }

  ghost predicate SoleHolders(procs: seq<Proc>) {
    forall i, j | 0 <= i < j < |procs| && procs[i].Execution? && procs[j].Execution?
                  && Attached(procs[i].exec) && Attached(procs[j].exec) :: procs[i].orderId != procs[j].orderId
  }

  ghost predicate Held(procs: seq<Proc>, o: Id) {
    exists i :: 0 <= i < |procs| && ClaimedBy(procs[i], o)
  }

  ghost predicate Inv(s: Sys) {
    && DbOk(s.db)
    && (forall i | 0 <= i < |s.procs| :: ProcOk(s.db, s.procs[i]))
    && SoleHolders(s.procs)
    && (forall o | HasStatus(s.db, o, Executing) :: Held(s.procs, o))
  }

  // --- Preservation ---

  // Two databases that agree on everything an execution of order x looks at.
  predicate SameFor(db: Db, db': Db, x: Id) {
    && (x in db.orders <==> x in db'.orders)
    && (x in db.orders ==> db.orders[x] == db'.orders[x])
    && TradesOf(db.trades, x) == TradesOf(db'.trades, x)
    && DebitsOf(db.ledger, x) == DebitsOf(db'.ledger, x)
  }

  ghost predicate Grows(db: Db, db': Db) {
    db.users.Keys == db'.users.Keys && db.stocks.Keys <= db'.stocks.Keys
  }

  lemma {:induction false} HolderFrame(db: Db, db': Db, o: Id, pc: ExecPc)
    requires Attached(pc) && SameFor(db, db', o) && HolderOk(db, o, pc)
    ensures HolderOk(db', o, pc)
  {
  }

  // A step that is right for order o and leaves every other order alone keeps the database right.
  lemma {:induction false} DbFrame(db: Db, db': Db, o: Id)
    requires DbOk(db) && Grows(db, db')
    requires forall x | x != o :: SameFor(db, db', x)
    requires if o in db'.orders then OrderOk(db', o) else Untraded(db', o) && Uncharged(db', o)
    requires forall u | u in db'.users :: db'.users[u].walletBalance >= 0.0
    requires forall y | y in db'.stocks :: db'.stocks[y].currentPrice >= 0.0
    ensures DbOk(db')
  {
    forall x | x in db'.orders && x != o ensures OrderOk(db', x) {
      assert SameFor(db, db', x) && OrderOk(db, x);
    }
    forall x | x !in db'.orders && x != o ensures Untraded(db', x) && Uncharged(db', x) {
      assert SameFor(db, db', x);
    }
  }

  // An execution step writes only about its own order.
  // Of the wallets at most the one of the claimed order's owner is written, and of the positions at most
  // the one of its owner and symbol; no stock and no price event.
  ghost predicate WritesOnlyOwn(db: Db, db': Db, pc: ExecPc) {
    && db'.stocks == db.stocks && db'.priceEvents == db.priceEvents && db'.users.Keys == db.users.Keys
    && (forall u | u in db.users && db'.users[u] != db.users[u] :: pc.Priced? && u == pc.order.userId)
    && (forall k | Lookup(db'.positions, k) != Lookup(db.positions, k) ::
          pc.PositionRead? && k == (pc.order.userId, pc.order.symbol))
  }

  lemma {:induction false} ExecStepSameOrder(db: Db, o: Id, pc: ExecPc, env: Env, x: Id)
    requires x != o
    ensures var orders := ExecStep(db, o, pc, env).0.orders;
      (x in db.orders <==> x in orders) && (x in db.orders ==> db.orders[x] == orders[x])
  {
  }

  lemma {:induction false} ExecStepSameFor(db: Db, o: Id, pc: ExecPc, env: Env, x: Id)
    requires x != o
    ensures SameFor(db, ExecStep(db, o, pc, env).0, x)
  {
    ExecStepSameOrder(db, o, pc, env, x);
    if pc.Charged? {
      TradesOfAppend(db.trades, TradeFor(o, pc.order, pc.price, env.now), x);
    } else if pc.Debited? {
      DebitsOfAppend(db.ledger, DebitRowFor(o, pc.order, pc.price, pc.balanceAfter, env.freshId), x);
    }
  }

  lemma {:induction false} ExecStepFrame(db: Db, o: Id, pc: ExecPc, env: Env)
    ensures forall x | x != o :: SameFor(db, ExecStep(db, o, pc, env).0, x)
    ensures WritesOnlyOwn(db, ExecStep(db, o, pc, env).0, pc)
  {
    forall x | x != o ensures SameFor(db, ExecStep(db, o, pc, env).0, x) {
      ExecStepSameFor(db, o, pc, env, x);
    }
  }

  lemma {:induction false} ExecStepTotals(db: Db, o: Id, pc: ExecPc, env: Env)
    requires forall u | u in db.users :: db.users[u].walletBalance >= 0.0
    ensures var db' := ExecStep(db, o, pc, env).0;
      && Grows(db, db') && db'.stocks == db.stocks
      && (o in db.orders <==> o in db'.orders)
      && (forall u | u in db'.users :: db'.users[u].walletBalance >= 0.0)
  {
  }

  predicate LocallyOk(db: Db, o: Id, pc: ExecPc) {
    && (o in db.orders ==> OrderOk(db, o))
    && (Attached(pc) ==> HolderOk(db, o, pc))
  }

  // Each step hands the next one what it relies on, and the order's document stays right.
  ghost predicate HandsOn(db: Db, o: Id, pc: ExecPc, env: Env) {
    var (db', pc') := ExecStep(db, o, pc, env);
    && LocallyOk(db', o, pc')
    && (HasStatus(db', o, Executing) ==> HoldsClaim(pc') || (db'.orders[o] == db.orders[o] && !Attached(pc)))
    && (Attached(pc') && !Attached(pc) ==> HasStatus(db, o, OrderStatus.Triggered))
  }

  lemma {:induction false} ClaimStepsHandOn(db: Db, o: Id, pc: ExecPc, env: Env)
    requires pc.Queued? || pc.Claimed? || pc.FoundTrade? || pc.Unexecuted? || pc.Reverting? || pc.Skipped? || pc.Ended?
    requires LocallyOk(db, o, pc)
    requires forall y | y in db.stocks :: db.stocks[y].currentPrice >= 0.0
    ensures HandsOn(db, o, pc, env)
  {
  }

  lemma {:induction false} DebitHandsOn(db: Db, o: Id, pc: ExecPc, env: Env)
    requires pc.Priced? && LocallyOk(db, o, pc)
    ensures HandsOn(db, o, pc, env)
  {
  }

  lemma {:induction false} RejectStepsHandOn(db: Db, o: Id, pc: ExecPc, env: Env)
    requires (pc.Rejected? || pc.FailMarked?) && LocallyOk(db, o, pc)
    ensures HandsOn(db, o, pc, env)
  {
  }

  lemma {:induction false} DebitPublishHandsOn(db: Db, o: Id, pc: ExecPc, env: Env)
    requires pc.Ledgered? && LocallyOk(db, o, pc)
    ensures HandsOn(db, o, pc, env)
  {
  }

  lemma {:induction false} DebitRowHandsOn(db: Db, o: Id, pc: ExecPc, env: Env)
    requires pc.Debited? && LocallyOk(db, o, pc)
    ensures HandsOn(db, o, pc, env)
  {
    var row := DebitRowFor(o, pc.order, pc.price, pc.balanceAfter, env.freshId);
    var ledger := db.ledger + [row];
    assert DebitsOf(ledger, o) == [row] by {
      DebitsOfAppend(db.ledger, row, o);
    }
    assert ExecStep(db, o, pc, env) == (db.(ledger := ledger), Ledgered(pc.order, pc.price, pc.balanceAfter, row));
    assert ChargedOnce(db.(ledger := ledger), o, pc.order, pc.price);
  }

  lemma {:induction false} TradeHandsOn(db: Db, o: Id, pc: ExecPc, env: Env)
    requires pc.Charged? && LocallyOk(db, o, pc)
    ensures HandsOn(db, o, pc, env)
  {
    var t := TradeFor(o, pc.order, pc.price, env.now);
    var trades := db.trades + [t];
    assert TradesOf(trades, o) == [t] by {
      TradesOfAppend(db.trades, t, o);
    }
    assert ExecStep(db, o, pc, env) == (db.(trades := trades), Traded(pc.order, pc.price, env.now));
    assert TradedOnce(db.(trades := trades), o, pc.order, pc.price, env.now);
  }

  lemma {:induction false} PositionStepsHandOn(db: Db, o: Id, pc: ExecPc, env: Env)
    requires pc.Traded? || pc.PositionRead?
    requires LocallyOk(db, o, pc)
    ensures HandsOn(db, o, pc, env)
  {
    var (db', pc') := ExecStep(db, o, pc, env);
    assert pc'.order == pc.order && pc'.price == pc.price && pc'.at == pc.at;
    assert pc'.PositionRead? || pc'.Positioned? || pc'.ThrewAtPosition?;
    assert db' == db.(positions := db'.positions);
    assert Filled(db', o, pc.order, pc.price, pc.at);
  }

  lemma {:induction false} FillStepsHandOn(db: Db, o: Id, pc: ExecPc, env: Env)
    requires pc.Positioned? || pc.CompleteMarked? || pc.ThrewAtPosition?
    requires LocallyOk(db, o, pc)
    ensures HandsOn(db, o, pc, env)
  {
  }

  lemma {:induction false} ExecStepHandsOn(db: Db, o: Id, pc: ExecPc, env: Env)
    requires LocallyOk(db, o, pc)
    requires forall y | y in db.stocks :: db.stocks[y].currentPrice >= 0.0
    ensures HandsOn(db, o, pc, env)
  {
    if pc.Debited? {
      DebitRowHandsOn(db, o, pc, env);
    } else if pc.Charged? {
      TradeHandsOn(db, o, pc, env);
    } else if pc.Traded? || pc.PositionRead? {
      PositionStepsHandOn(db, o, pc, env);
    } else if pc.Priced? {
      DebitHandsOn(db, o, pc, env);
    } else if pc.Rejected? || pc.FailMarked? {
      RejectStepsHandOn(db, o, pc, env);
    } else if pc.Ledgered? {
      DebitPublishHandsOn(db, o, pc, env);
    } else if pc.Positioned? || pc.CompleteMarked? || pc.ThrewAtPosition? {
      FillStepsHandOn(db, o, pc, env);
    } else if !pc.ThrewNoStock? && !pc.ThrewDuplicateTrade? {
      ClaimStepsHandOn(db, o, pc, env);
    }
  }

  lemma {:induction false} ExecStepKeepsDb(db: Db, o: Id, pc: ExecPc, env: Env)
    requires DbOk(db) && (Attached(pc) ==> HolderOk(db, o, pc))
    ensures DbOk(ExecStep(db, o, pc, env).0)
  {
    var db' := ExecStep(db, o, pc, env).0;
    forall x | x != o ensures SameFor(db, db', x) {
      ExecStepSameFor(db, o, pc, env, x);
    }
    ExecStepTotals(db, o, pc, env);
    ExecStepHandsOn(db, o, pc, env);
    DbFrame(db, db', o);
  }

  // What every other call guarantees: it never touches an order past TRIGGERED, never starts an
  // execution, and never writes a trade or a debit row.
  ghost predicate StaysOutside(db: Db, db': Db) {
    && DbOk(db') && Grows(db, db')
    && (forall x | x in db.orders && db.orders[x].status !in {Pending, OrderStatus.Triggered} :: SameFor(db, db', x))
    && (forall x | HasStatus(db', x, Executing) :: HasStatus(db, x, Executing))
  }

  lemma {:induction false} OneOrderWritten(db: Db, o: Id, order: Order)
    requires DbOk(db)
    requires OrderOk(SetOrder(db, o, order), o) && order.status != Executing
    requires o in db.orders ==> db.orders[o].status in {Pending, OrderStatus.Triggered}
    ensures StaysOutside(db, SetOrder(db, o, order))
  {
    DbFrame(db, SetOrder(db, o, order), o);
  }

  // No order, no trade and no debit row written.
  predicate SameTrading(db: Db, db': Db) {
    db'.orders == db.orders && db'.trades == db.trades
    && (db'.ledger == db.ledger || (|db'.ledger| == |db.ledger| + 1 && db'.ledger[..|db.ledger|] == db.ledger
                                    && db'.ledger[|db.ledger|].kind == DepositRow))
  }

  lemma {:induction false} SameTradingOutside(db: Db, db': Db)
    requires DbOk(db) && Grows(db, db') && SameTrading(db, db')
    requires forall u | u in db'.users :: db'.users[u].walletBalance >= 0.0
    requires forall y | y in db'.stocks :: db'.stocks[y].currentPrice >= 0.0
    ensures StaysOutside(db, db')
  {
    forall x ensures SameFor(db, db', x) {
      if db'.ledger != db.ledger {
        var row := db'.ledger[|db.ledger|];
        assert db'.ledger == db.ledger + [row];
        DebitsOfAppend(db.ledger, row, x);
      }
    }
    assert SameFor(db, db', "");
    assert "" in db.orders ==> OrderOk(db, "");
    DbFrame(db, db', "");
  }

  ghost predicate OtherStepOk(db: Db, p: Proc, env: Env) {
    var (db', p', more) := ProcStep(db, p, env);
    && StaysOutside(db, db') && ProcOk(db', p') && !p'.Execution?
    && (forall q | q in more :: CanStart(q))
  }

  lemma {:induction false} EvalStepFacts(db: Db, symbol: string, pc: EvalPc, env: Env)
    ensures var (db', pc', more) := EvalStep(db, symbol, pc, env);
      && (forall q | q in more :: q.Execution? && q.exec == Queued)
      && if pc.Scanning? && pc.todo != [] && HasStatus(db, pc.todo[0], Pending) then
           db' == SetOrder(db, pc.todo[0], db.orders[pc.todo[0]].(status := OrderStatus.Triggered))
         else db' == db.(events := db'.events)
  {
  }

  lemma {:induction false} EvalStepOk(db: Db, p: Proc, env: Env)
    requires p.Evaluation? && DbOk(db)
    ensures OtherStepOk(db, p, env)
  {
    EvalStepFacts(db, p.symbol, p.eval, env);
    if p.eval.Scanning? && p.eval.todo != [] && HasStatus(db, p.eval.todo[0], Pending) {
      var o := p.eval.todo[0];
      assert OrderOk(db, o);
      OneOrderWritten(db, o, db.orders[o].(status := OrderStatus.Triggered));
    } else {
      SameTradingOutside(db, EvalStep(db, p.symbol, p.eval, env).0);
    }
  }

  lemma {:induction false} PriceStepFacts(db: Db, symbol: string, price: real, pc: PricePc, env: Env)
    requires price >= 0.0
    requires forall y | y in db.stocks :: db.stocks[y].currentPrice >= 0.0
    ensures var (db', pc', more) := PriceStep(db, symbol, price, pc, env);
      && Grows(db, db') && SameTrading(db, db') && db'.users == db.users
      && (forall y | y in db'.stocks :: db'.stocks[y].currentPrice >= 0.0)
      && (forall q | q in more :: q == Evaluation(symbol, EvalQueued))
  {
  }

  lemma {:induction false} PriceStepOk(db: Db, p: Proc, env: Env)
    requires p.PriceUpdate? && DbOk(db) && ProcOk(db, p)
    ensures OtherStepOk(db, p, env)
  {
    PriceStepFacts(db, p.symbol, p.price, p.upd, env);
    SameTradingOutside(db, PriceStep(db, p.symbol, p.price, p.upd, env).0);
  }

  lemma {:induction false} CreateStepFacts(db: Db, p: Proc, env: Env)
    requires p.Creation?
    ensures var (db', pc', more) := CreateStep(db, p, env);
      && (forall q | q in more :: q == Evaluation(p.symbol, EvalQueued))
      && (pc'.StockRead? ==> p.symbol in db.stocks)
      && (pc'.UserRead? ==> p.create.StockRead? && p.userId in db.users)
      && (if p.create.UserRead? && pc'.Inserted? then
            db' == SetOrder(db, env.freshId, NewOrder(p))
          else db' == db.(events := db'.events))
  {
  }

  lemma {:induction false} CreateStepOk(db: Db, p: Proc, env: Env)
    requires p.Creation? && DbOk(db) && ProcOk(db, p) && IdUnused(db, env.freshId)
    ensures OtherStepOk(db, p, env)
  {
    var (db', pc', more) := CreateStep(db, p, env);
    CreateStepFacts(db, p, env);
    if p.create.UserRead? && pc'.Inserted? {
      OneOrderWritten(db, env.freshId, db'.orders[env.freshId]);
    } else {
      SameTradingOutside(db, db');
    }
  }

  lemma {:induction false} CancelStepOk(db: Db, p: Proc, env: Env)
    requires p.Cancellation? && DbOk(db)
    ensures OtherStepOk(db, p, env)
  {
    var (db', p', more) := ProcStep(db, p, env);
    if p'.cancel.CancelMarked? {
      assert OrderOk(db, p.orderId);
      OneOrderWritten(db, p.orderId, p'.cancel.order);
    } else {
      SameTradingOutside(db, db');
    }
  }

  lemma {:induction false} DepositStepFacts(db: Db, userId: Id, amount: real, pc: DepositPc, env: Env)
    requires amount >= 0.01
    requires forall u | u in db.users :: db.users[u].walletBalance >= 0.0
    ensures var (db', pc') := DepositStep(db, userId, amount, pc, env);
      && Grows(db, db') && SameTrading(db, db') && db'.stocks == db.stocks
      && (forall u | u in db'.users :: db'.users[u].walletBalance >= 0.0)
  {
  }

  lemma {:induction false} DepositStepOk(db: Db, p: Proc, env: Env)
    requires p.Depositing? && DbOk(db) && ProcOk(db, p)
    ensures OtherStepOk(db, p, env)
  {
    DepositStepFacts(db, p.userId, p.amount, p.dep, env);
    SameTradingOutside(db, DepositStep(db, p.userId, p.amount, p.dep, env).0);
  }

  lemma {:induction false} OtherProcStepOk(db: Db, p: Proc, env: Env)
    requires !p.Execution? && DbOk(db) && ProcOk(db, p) && IdUnused(db, env.freshId)
    ensures OtherStepOk(db, p, env)
  {
    match p {
      case Evaluation(_, _) => EvalStepOk(db, p, env);
      case PriceUpdate(_, _, _) => PriceStepOk(db, p, env);
      case Creation(_, _, _, _, _, _) => CreateStepOk(db, p, env);
      case Cancellation(_, _, _) => CancelStepOk(db, p, env);
      case Depositing(_, _, _) => DepositStepOk(db, p, env);
    }
  }

  // Everything but an execution of x carries over to a database that agrees on x.
  lemma {:induction false} ProcFrame(db: Db, db': Db, q: Proc)
    requires ProcOk(db, q) && Grows(db, db')
    requires q.Execution? && Attached(q.exec) ==> SameFor(db, db', q.orderId)
    ensures ProcOk(db', q)
  {
    if q.Execution? && Attached(q.exec) {
      HolderFrame(db, db', q.orderId, q.exec);
    }
  }

  lemma {:induction false} SpawnedOk(db: Db, q: Proc)
    requires CanStart(q)
    ensures ProcOk(db, q) && !(q.Execution? && Attached(q.exec))
  {
  }

  // The invariant after process i has made any step that is right for itself and leaves the orders
  // of the other attached executions alone.
  lemma {:induction false} InvAfter(s: Sys, i: nat, db': Db, p': Proc, more: seq<Proc>)
    requires Inv(s) && i < |s.procs| && DbOk(db') && Grows(s.db, db')
    requires ProcOk(db', p') && forall q | q in more :: CanStart(q)
    requires forall j | 0 <= j < |s.procs| && j != i && s.procs[j].Execution? && Attached(s.procs[j].exec)
               :: SameFor(s.db, db', s.procs[j].orderId)
                  && !AttachedTo(p', s.procs[j].orderId)
    requires forall x | HasStatus(db', x, Executing)
               :: ClaimedBy(p', x) || (HasStatus(s.db, x, Executing) && !ClaimedBy(s.procs[i], x))
    ensures Inv(Sys(db', s.procs[i := p'] + more))
  {
    var procs' := s.procs[i := p'] + more;
    forall j | 0 <= j < |procs'|
      ensures ProcOk(db', procs'[j])
      ensures j >= |s.procs| ==> !(procs'[j].Execution? && Attached(procs'[j].exec))
    {
      if j >= |s.procs| {
        SpawnedOk(db', more[j - |s.procs|]);
      } else if j != i {
        ProcFrame(s.db, db', s.procs[j]);
      }
    }
    forall x | HasStatus(db', x, Executing) ensures Held(procs', x) {
      if ClaimedBy(p', x) {
        assert ClaimedBy(procs'[i], x);
      } else {
        var j :| 0 <= j < |s.procs| && ClaimedBy(s.procs[j], x);
        assert ClaimedBy(procs'[j], x);
      }
    }
  }

  lemma {:induction false} AttachedStatus(db: Db, p: Proc)
    requires ProcOk(db, p) && p.Execution? && Attached(p.exec)
    ensures p.orderId in db.orders && db.orders[p.orderId].status in {Executing, Completed, OrderStatus.Failed}
  {
  }

  // Two attached executions never share an order, and a claim is only taken from TRIGGERED.
  lemma {:induction false} OthersApart(s: Sys, i: nat, j: nat)
    requires Inv(s) && i < |s.procs| && j < |s.procs| && i != j
    requires s.procs[i].Execution? && s.procs[j].Execution? && Attached(s.procs[j].exec)
    ensures Attached(s.procs[i].exec) ==> s.procs[i].orderId != s.procs[j].orderId
    ensures !HasStatus(s.db, s.procs[j].orderId, OrderStatus.Triggered)
  {
    AttachedStatus(s.db, s.procs[j]);
    if Attached(s.procs[i].exec) {
      var lo, hi := if i < j then i else j, if i < j then j else i;
      assert s.procs[lo].orderId != s.procs[hi].orderId;
    }
  }

  // A second delivery of a job finds the order out of TRIGGERED and writes nothing.
  lemma {:induction false} UnattachedStep(db: Db, o: Id, pc: ExecPc, env: Env)
    requires !Attached(pc) && !HasStatus(db, o, OrderStatus.Triggered)
    ensures var (db', pc') := ExecStep(db, o, pc, env); db' == db && !Attached(pc')
  {
  }

  lemma {:induction false} ExecAdvanceKeepsInv(s: Sys, i: nat, env: Env)
    requires Inv(s) && i < |s.procs| && s.procs[i].Execution? && EnvOk(s.db, s.procs[i], env)
    ensures Inv(Step(s, Advance(i, env)))
  {
    var o, pc := s.procs[i].orderId, s.procs[i].exec;
    var (db', pc') := ExecStep(s.db, o, pc, env);
    assert ProcOk(s.db, s.procs[i]);
    assert LocallyOk(s.db, o, pc);
    ExecStepKeepsDb(s.db, o, pc, env);
    ExecStepTotals(s.db, o, pc, env);
    assert HandsOn(s.db, o, pc, env) by {
      ExecStepHandsOn(s.db, o, pc, env);
    }
    forall j | 0 <= j < |s.procs| && j != i && s.procs[j].Execution? && Attached(s.procs[j].exec)
      ensures SameFor(s.db, db', s.procs[j].orderId) && !AttachedTo(Execution(o, pc'), s.procs[j].orderId)
    {
      OthersApart(s, i, j);
      if s.procs[j].orderId == o {
        UnattachedStep(s.db, o, pc, env);
      } else {
        ExecStepSameFor(s.db, o, pc, env, s.procs[j].orderId);
      }
    }
    forall x | HasStatus(db', x, Executing)
      ensures ClaimedBy(Execution(o, pc'), x) || (HasStatus(s.db, x, Executing) && !ClaimedBy(s.procs[i], x))
    {
      if x != o {
        ExecStepSameFor(s.db, o, pc, env, x);
      }
    }
    InvAfter(s, i, db', Execution(o, pc'), []);
  }

  lemma {:induction false} InvAfterOutsider(s: Sys, i: nat, db': Db, p': Proc, more: seq<Proc>)
    requires Inv(s) && i < |s.procs| && !s.procs[i].Execution? && StaysOutside(s.db, db')
    requires ProcOk(db', p') && !p'.Execution? && forall q | q in more :: CanStart(q)
    ensures Inv(Sys(db', s.procs[i := p'] + more))
  {
    forall j | 0 <= j < |s.procs| && j != i && s.procs[j].Execution? && Attached(s.procs[j].exec)
      ensures SameFor(s.db, db', s.procs[j].orderId)
    {
      AttachedStatus(s.db, s.procs[j]);
    }
    InvAfter(s, i, db', p', more);
  }

  lemma {:induction false} OtherAdvanceKeepsInv(s: Sys, i: nat, env: Env)
    requires Inv(s) && i < |s.procs| && !s.procs[i].Execution? && EnvOk(s.db, s.procs[i], env)
    ensures Inv(Step(s, Advance(i, env)))
  {
    assert ProcOk(s.db, s.procs[i]);
    OtherProcStepOk(s.db, s.procs[i], env);
    var (db', p', more) := ProcStep(s.db, s.procs[i], env);
    InvAfterOutsider(s, i, db', p', more);
  }

  lemma {:induction false} StepKeepsInv(s: Sys, a: Action)
    requires Inv(s)
    ensures Inv(Step(s, a))
  {
    match a {
      case Spawn(p) =>
        if CanStart(p) {
          SpawnedOk(s.db, p);
          var procs' := s.procs + [p];
          forall x | HasStatus(s.db, x, Executing) ensures Held(procs', x) {
            var j :| 0 <= j < |s.procs| && ClaimedBy(s.procs[j], x);
            assert ClaimedBy(procs'[j], x);
          }
        }
      case Advance(i, env) =>
        if i < |s.procs| && EnvOk(s.db, s.procs[i], env) {
          if s.procs[i].Execution? {
            ExecAdvanceKeepsInv(s, i, env);
          } else {
            OtherAdvanceKeepsInv(s, i, env);
          }
        }
    }
  }

  lemma {:induction false} RunKeepsInv(s: Sys, acts: seq<Action>)
    requires Init(s)
    ensures Inv(Run(s, acts))
  {
    if acts != [] {
      RunKeepsInv(s, acts[..|acts| - 1]);
      StepKeepsInv(Run(s, acts[..|acts| - 1]), acts[|acts| - 1]);
    }
  }
}
