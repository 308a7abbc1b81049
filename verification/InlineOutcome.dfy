/**
 What each call does when it runs inline, in closed form, and that completing its process does exactly
 that.  These are the functions the imperative services are proved against.
 */
module InlineOutcome {
  import opened Wrappers
  import opened AnalyticsEvents
  import opened Domain
  import opened Protocol
  import opened Livelock
  import opened Inline

  // --- executeTriggeredOrder ---

  function ExecOutcome(db: Db, o: Id, tape: Tape, n: nat): (Db, nat) {
    if !(o in db.orders && db.orders[o].status == OrderStatus.Triggered) then (db, n + 1)
    else
      var order := db.orders[o].(status := Executing);
      ClaimedOutcome(SetOrder(db, o, order), o, order, tape, n)
  }

  // What follows a successful claim.
  function ClaimedOutcome(db: Db, o: Id, order: Order, tape: Tape, n: nat): (Db, nat) {
    if TradesOf(db.trades, o) != [] then (SetOrder(db, o, order.(status := Completed)), n + 3)
    else if order.symbol !in db.stocks then (db, n + 3)
    else
      var price := db.stocks[order.symbol].currentPrice;
      if price > order.targetPrice then
        (SetOrder(db, o, order.(status := Pending, reason := PriceMovedAboveTarget)), n + 4)
      else if CanPay(db, order.userId, Cost(order, price)) then
        (PaidOutcome(db, o, order, price, tape, n), n + 11)
      else
        var failed := SetOrder(db, o, order.(status := OrderStatus.Failed, reason := InsufficientFunds));
        var e := OrderEvent(OrderEventKind.Failed, o, order, price, Some(Cost(order, price)), tape(n + 5).now);
        (Publish(failed, e, tape(n + 5)), n + 6)
  }

  function DebitedDb(db: Db, o: Id, order: Order, price: real, tape: Tape, n: nat): Db
    requires order.userId in db.users
  {
    var users := Credited(db.users, order.userId, -Cost(order, price));
    var row := DebitRowFor(o, order, price, users[order.userId].walletBalance, tape(n + 1).freshId);
    Publish(db.(users := users, ledger := db.ledger + [row]), DebitEvent(row, tape(n + 2).now), tape(n + 2))
  }

  function PositionAfter(positions: map<(Id, string), Position>, order: Order, price: real): Position {
    var key := (order.userId, order.symbol);
    if key in positions
    then SavePosition(positions[key], positions[key], order.quantity, Cost(order, price))
    else NewPosition(order.quantity, Cost(order, price))
  }

  function BoughtDb(db: Db, o: Id, order: Order, price: real, at: int): Db {
    db.(trades := db.trades + [TradeFor(o, order, price, at)],
        positions := db.positions[(order.userId, order.symbol) := PositionAfter(db.positions, order, price)])
  }

  function FinishedDb(db: Db, o: Id, order: Order, price: real, at: int, tape: Tape, n: nat): Db {
    var done := order.(status := Completed, executedPrice := Some(price), executedAt := Some(tape(n).now),
        reason := ExecutedSuccessfully);
    Publish(SetOrder(db, o, done), OrderEvent(Executed, o, order, price, Some(Cost(order, price)), at), tape(n + 1))
  }

  function PaidOutcome(db: Db, o: Id, order: Order, price: real, tape: Tape, n: nat): Db
    requires order.userId in db.users
  {
    var at := tape(n + 6).now;
    FinishedDb(BoughtDb(DebitedDb(db, o, order, price, tape, n + 3), o, order, price, at), o, order, price, at, tape,
        n + 9)
  }

  lemma {:induction false} ExecUnroll(db: Db, o: Id, pc: ExecPc, tape: Tape, n: nat)
    requires ExecWork(pc) > 0
    ensures var (db', pc') := ExecStep(db, o, pc, tape(n));
      Complete(db, Execution(o, pc), tape, n) == Complete(db', Execution(o, pc'), tape, n + 1)
  {
  }

  // The debit's row, then its event.
  lemma {:induction false} RowCompletes(db: Db, o: Id, order: Order, price: real, after: real, tape: Tape, n: nat)
    ensures var row := DebitRowFor(o, order, price, after, tape(n).freshId);
      Complete(db, Execution(o, Debited(order, price, after)), tape, n)
      == Complete(Publish(db.(ledger := db.ledger + [row]), DebitEvent(row, tape(n + 1).now), tape(n + 1)),
                  Execution(o, Charged(order, price)), tape, n + 2)
  {
    var row := DebitRowFor(o, order, price, after, tape(n).freshId);
    ExecUnroll(db, o, Debited(order, price, after), tape, n);
    ExecUnroll(db.(ledger := db.ledger + [row]), o, Ledgered(order, price, after, row), tape, n + 1);
  }

  lemma {:induction false} DebitCompletes(db: Db, o: Id, order: Order, price: real, tape: Tape, n: nat)
    requires CanPay(db, order.userId, Cost(order, price))
    ensures Complete(db, Execution(o, Priced(order, price)), tape, n)
         == Complete(DebitedDb(db, o, order, price, tape, n), Execution(o, Charged(order, price)), tape, n + 3)
  {
    var users := Credited(db.users, order.userId, -Cost(order, price));
    var after := users[order.userId].walletBalance;
    var row := DebitRowFor(o, order, price, after, tape(n + 1).freshId);
    var db1 := db.(users := users);
    assert ExecStep(db, o, Priced(order, price), tape(n)) == (db1, Debited(order, price, after));
    ExecUnroll(db, o, Priced(order, price), tape, n);
    assert db1.(ledger := db1.ledger + [row]) == db.(users := users, ledger := db.ledger + [row]);
    RowCompletes(db1, o, order, price, after, tape, n + 1);
  }

  lemma {:induction false} BuyCompletes(db: Db, o: Id, order: Order, price: real, tape: Tape, n: nat)
    requires TradesOf(db.trades, o) == []
    ensures var at := tape(n + 6).now;
      Complete(db, Execution(o, Charged(order, price)), tape, n + 6)
      == Complete(BoughtDb(db, o, order, price, at), Execution(o, Positioned(order, price, at)), tape, n + 9)
  {
    var at := tape(n + 6).now;
    var found := Lookup(db.positions, (order.userId, order.symbol));
    ExecUnroll(db, o, Charged(order, price), tape, n + 6);
    var db1 := db.(trades := db.trades + [TradeFor(o, order, price, at)]);
    ExecUnroll(db1, o, Traded(order, price, at), tape, n + 7);
    ExecUnroll(db1, o, PositionRead(order, price, at, found), tape, n + 8);
    assert ExecStep(db1, o, PositionRead(order, price, at, found), tape(n + 8))
        == (BoughtDb(db, o, order, price, at), Positioned(order, price, at));
  }

  lemma {:induction false} FinishCompletes(db: Db, o: Id, order: Order, price: real, at: int, tape: Tape, n: nat)
    requires o in db.orders && db.orders[o] == order && order.status == Executing
    ensures Complete(db, Execution(o, Positioned(order, price, at)), tape, n)
         == (FinishedDb(db, o, order, price, at, tape, n), Execution(o, Ended), n + 2)
  {
    ExecUnroll(db, o, Positioned(order, price, at), tape, n);
    var done := order.(status := Completed, executedPrice := Some(price), executedAt := Some(tape(n).now),
        reason := ExecutedSuccessfully);
    ExecUnroll(SetOrder(db, o, done), o, CompleteMarked(order, price, at), tape, n + 1);
  }

  lemma {:induction false} PaidCompletes(db: Db, o: Id, order: Order, price: real, tape: Tape, n: nat)
    requires o in db.orders && db.orders[o] == order && order.status == Executing && TradesOf(db.trades, o) == []
    requires CanPay(db, order.userId, Cost(order, price))
    ensures Complete(db, Execution(o, Priced(order, price)), tape, n + 3)
         == (PaidOutcome(db, o, order, price, tape, n), Execution(o, Ended), n + 11)
  {
    var at := tape(n + 6).now;
    var debited := DebitedDb(db, o, order, price, tape, n + 3);
    DebitCompletes(db, o, order, price, tape, n + 3);
    BuyCompletes(debited, o, order, price, tape, n);
    FinishCompletes(BoughtDb(debited, o, order, price, at), o, order, price, at, tape, n + 9);
  }

  lemma {:induction false} PricedCompletes(db: Db, o: Id, order: Order, tape: Tape, n: nat)
    requires o in db.orders && db.orders[o] == order && order.status == Executing && TradesOf(db.trades, o) == []
    requires order.symbol in db.stocks && db.stocks[order.symbol].currentPrice <= order.targetPrice
    ensures var price := db.stocks[order.symbol].currentPrice;
      var (db', p', n') := Complete(db, Execution(o, Priced(order, price)), tape, n + 3);
      && Finished(p')
      && (if CanPay(db, order.userId, Cost(order, price))
          then db' == PaidOutcome(db, o, order, price, tape, n) && n' == n + 11
          else
            var failed := SetOrder(db, o, order.(status := OrderStatus.Failed, reason := InsufficientFunds));
            var e := OrderEvent(OrderEventKind.Failed, o, order, price, Some(Cost(order, price)), tape(n + 5).now);
            db' == Publish(failed, e, tape(n + 5)) && n' == n + 6)
  {
    var price := db.stocks[order.symbol].currentPrice;
    if CanPay(db, order.userId, Cost(order, price)) {
      PaidCompletes(db, o, order, price, tape, n);
    } else {
      RejectCompletes(db, o, order, price, tape, n);
    }
  }

  lemma {:induction false} ExecCompletes(db: Db, o: Id, tape: Tape, n: nat)
    ensures var (db', p', n') := Complete(db, Execution(o, Queued), tape, n);
      (db', n') == ExecOutcome(db, o, tape, n) && Finished(p')
  {
    ExecUnroll(db, o, Queued, tape, n);
    if o in db.orders && db.orders[o].status == OrderStatus.Triggered {
      var order := db.orders[o].(status := Executing);
      var db1 := SetOrder(db, o, order);
      ExecUnroll(db1, o, Claimed(order), tape, n + 1);
      if TradesOf(db.trades, o) != [] {
        ExecUnroll(db1, o, FoundTrade(order), tape, n + 2);
      } else {
        ExecUnroll(db1, o, Unexecuted(order), tape, n + 2);
        if order.symbol in db.stocks {
          if db.stocks[order.symbol].currentPrice > order.targetPrice {
            ExecUnroll(db1, o, Reverting(order), tape, n + 3);
          } else {
            PricedCompletes(db1, o, order, tape, n);
          }
        }
      }
    }
  }

  lemma {:induction false} RejectCompletes(db: Db, o: Id, order: Order, price: real, tape: Tape, n: nat)
    requires o in db.orders && db.orders[o] == order && order.status == Executing
    requires !CanPay(db, order.userId, Cost(order, price))
    ensures
      var failed := SetOrder(db, o, order.(status := OrderStatus.Failed, reason := InsufficientFunds));
      var e := OrderEvent(OrderEventKind.Failed, o, order, price, Some(Cost(order, price)), tape(n + 5).now);
      Complete(db, Execution(o, Priced(order, price)), tape, n + 3)
      == (Publish(failed, e, tape(n + 5)), Execution(o, Ended), n + 6)
  {
    ExecUnroll(db, o, Priced(order, price), tape, n + 3);
    ExecUnroll(db, o, Rejected(order, price), tape, n + 4);
    var failed := SetOrder(db, o, order.(status := OrderStatus.Failed, reason := InsufficientFunds));
    ExecUnroll(failed, o, FailMarked(order, price), tape, n + 5);
  }

  lemma {:induction false} PaidSpelled(db: Db, o: Id, order: Order, price: real, cost: real, tape: Tape,
      n: nat)
    requires CanPay(db, order.userId, Cost(order, price)) && cost == Cost(order, price)
    ensures var db', user := PaidOutcome(db, o, order, price, tape, n), db.users[order.userId];
      && db'.orders == db.orders[o := order.(status := Completed, executedPrice := Some(price),
                                             executedAt := Some(tape(n + 9).now), reason := ExecutedSuccessfully)]
      && db'.users == db.users[order.userId := user.(walletBalance := user.walletBalance - cost)]
      && db'.trades == db.trades + [Trade(o, order.userId, order.symbol, price, order.quantity, cost, tape(n + 6).now)]
  {
    var user := db.users[order.userId];
    assert user.walletBalance + -Cost(order, price) == user.walletBalance - cost;
  }

  lemma {:induction false} UnpaidSpelled(db: Db, o: Id, order: Order, tape: Tape, n: nat)
    requires order.symbol in db.stocks && TradesOf(db.trades, o) == []
    requires db.stocks[order.symbol].currentPrice > order.targetPrice
             || !CanPay(db, order.userId, Cost(order, db.stocks[order.symbol].currentPrice))
    ensures var db' := ClaimedOutcome(db, o, order, tape, n).0;
      if db.stocks[order.symbol].currentPrice > order.targetPrice then
        db' == db.(orders := db.orders[o := order.(status := Pending, reason := PriceMovedAboveTarget)])
      else
        && db'.orders == db.orders[o := order.(status := OrderStatus.Failed, reason := InsufficientFunds)]
        && db'.users == db.users && db'.trades == db.trades && db'.ledger == db.ledger
        && db'.positions == db.positions
  {
  }

  // The three ways an untraded TRIGGERED order goes, spelled out on the stores.
  lemma {:induction false} ExecSpelled(db: Db, o: Id, tape: Tape, n: nat)
    requires o in db.orders && db.orders[o].status == OrderStatus.Triggered
    requires db.orders[o].symbol in db.stocks && TradesOf(db.trades, o) == []
    ensures var was, db' := db.orders[o], ExecOutcome(db, o, tape, n).0;
      var price := db.stocks[was.symbol].currentPrice;
      var cost := was.quantity * price;
      var payable := was.userId in db.users && db.users[was.userId].active
        && db.users[was.userId].walletBalance >= cost;
      if price > was.targetPrice then
        db' == db.(orders := db.orders[o := was.(status := Pending, reason := PriceMovedAboveTarget)])
      else if payable then
        var user := db.users[was.userId];
        && db'.orders == db.orders[o := was.(status := Completed, executedPrice := Some(price),
                                             executedAt := Some(tape(n + 9).now), reason := ExecutedSuccessfully)]
        && db'.users == db.users[was.userId := user.(walletBalance := user.walletBalance - cost)]
        && db'.trades == db.trades + [Trade(o, was.userId, was.symbol, price, was.quantity, cost, tape(n + 6).now)]
      else
        && db'.orders == db.orders[o := was.(status := OrderStatus.Failed, reason := InsufficientFunds)]
        && db'.users == db.users && db'.trades == db.trades && db'.ledger == db.ledger
        && db'.positions == db.positions
  {
    var was := db.orders[o];
    var order := was.(status := Executing);
    var claimed := SetOrder(db, o, order);
    var price := db.stocks[was.symbol].currentPrice;
    var cost := was.quantity * price;
    assert Cost(order, price) == cost;
    if price <= was.targetPrice && CanPay(claimed, order.userId, cost) {
      PaidSpelled(claimed, o, order, price, cost, tape, n);
      var user := db.users[was.userId];
      var paid := PaidOutcome(claimed, o, order, price, tape, n);
      assert ExecOutcome(db, o, tape, n).0 == paid;
      assert db.orders[o].quantity * db.stocks[db.orders[o].symbol].currentPrice == cost;
    } else {
      UnpaidSpelled(claimed, o, order, tape, n);
    }
  }

  // Every other order: one that is not TRIGGERED is left alone, one that has a trade is only completed, and
  // one whose stock is missing stays claimed.
  lemma {:induction false} OtherExecSpelled(db: Db, o: Id, tape: Tape, n: nat)
    ensures var db' := ExecOutcome(db, o, tape, n).0;
      && (o !in db.orders || db.orders[o].status != OrderStatus.Triggered ==> db' == db)
      && (o in db.orders && db.orders[o].status == OrderStatus.Triggered ==>
            && (TradesOf(db.trades, o) != [] ==>
                  db' == db.(orders := db.orders[o := db.orders[o].(status := Completed)]))
            && (TradesOf(db.trades, o) == [] && db.orders[o].symbol !in db.stocks ==>
                  db' == db.(orders := db.orders[o := db.orders[o].(status := Executing)])))
  {
    if o in db.orders && db.orders[o].status == OrderStatus.Triggered {
      var order := db.orders[o].(status := Executing);
      assert SetOrder(SetOrder(db, o, order), o, order.(status := Completed)).orders
          == db.orders[o := db.orders[o].(status := Completed)];
    }
  }

  // --- processOrderEvaluation ---

  function TriggerOutcome(db: Db, o: Id, tape: Tape, n: nat): Db
    requires o in db.orders
  {
    var order := db.orders[o].(status := OrderStatus.Triggered);
    Publish(SetOrder(db, o, order),
        OrderEvent(OrderEventKind.Triggered, o, order, order.targetPrice, None, tape(n + 1).now), tape(n + 1))
  }

  // The loop over the listed orders: trigger, then execute, one after the other.
  function ScanOutcome(db: Db, todo: seq<Id>, tape: Tape, n: nat): (Db, nat)
    decreases |todo|
  {
    if todo == [] then (db, n + 1)
    else if todo[0] in db.orders && db.orders[todo[0]].status == Pending then
      var (db', n') := ExecOutcome(TriggerOutcome(db, todo[0], tape, n), todo[0], tape, n + 3);
      ScanOutcome(db', todo[1..], tape, n')
    else ScanOutcome(db, todo[1..], tape, n + 1)
  }

  function EvalOutcome(db: Db, symbol: string, tape: Tape, n: nat): (Db, nat) {
    if symbol !in db.stocks then (db, n + 1)
    else
      var listing := tape(n + 1).arrange(EligibleIds(db.orders, symbol, db.stocks[symbol].currentPrice));
      ScanOutcome(db, listing, tape, n + 2)
  }

  // One turn of the loop that triggers: the trigger, its event, and the nested execution.
  lemma {:induction false} TurnCompletes(db: Db, symbol: string, todo: seq<Id>, tape: Tape, n: nat)
    requires todo != [] && todo[0] in db.orders && db.orders[todo[0]].status == Pending
    ensures var (db', n') := ExecOutcome(TriggerOutcome(db, todo[0], tape, n), todo[0], tape, n + 3);
      Complete(db, Evaluation(symbol, Scanning(todo)), tape, n)
          == Complete(db', Evaluation(symbol, Scanning(todo[1..])), tape, n')
  {
    var order := db.orders[todo[0]].(status := OrderStatus.Triggered);
    var db1 := SetOrder(db, todo[0], order);
    assert Complete(db, Evaluation(symbol, Scanning(todo)), tape, n)
        == Complete(db1, Evaluation(symbol, Announcing(order, todo)), tape, n + 1);
    var db2 := TriggerOutcome(db, todo[0], tape, n);
    assert Complete(db1, Evaluation(symbol, Announcing(order, todo)), tape, n + 1)
        == Complete(db2, Evaluation(symbol, Enqueuing(todo)), tape, n + 2);
    EnqueueCompletes(db2, symbol, todo, tape, n + 2);
  }

  lemma {:induction false} EnqueueCompletes(db: Db, symbol: string, todo: seq<Id>, tape: Tape, n: nat)
    requires todo != []
    ensures var (db', n') := ExecOutcome(db, todo[0], tape, n + 1);
      Complete(db, Evaluation(symbol, Enqueuing(todo)), tape, n)
          == Complete(db', Evaluation(symbol, Scanning(todo[1..])), tape, n')
  {
    ExecCompletes(db, todo[0], tape, n + 1);
    var (db3, _, n3) := Complete(db, Execution(todo[0], Queued), tape, n + 1);
    assert Complete(db, Evaluation(symbol, Enqueuing(todo)), tape, n)
        == Complete(db3, Evaluation(symbol, Scanning(todo[1..])), tape, n3);
  }

  lemma {:induction false} ScanCompletes(db: Db, symbol: string, todo: seq<Id>, tape: Tape, n: nat)
    ensures var (db', p', n') := Complete(db, Evaluation(symbol, Scanning(todo)), tape, n);
      (db', n') == ScanOutcome(db, todo, tape, n) && Finished(p')
    decreases |todo|
  {
    if todo != [] {
      if todo[0] in db.orders && db.orders[todo[0]].status == Pending {
        TurnCompletes(db, symbol, todo, tape, n);
        var (db', n') := ExecOutcome(TriggerOutcome(db, todo[0], tape, n), todo[0], tape, n + 3);
        ScanCompletes(db', symbol, todo[1..], tape, n');
      } else {
        assert Complete(db, Evaluation(symbol, Scanning(todo)), tape, n)
            == Complete(db, Evaluation(symbol, Scanning(todo[1..])), tape, n + 1);
        ScanCompletes(db, symbol, todo[1..], tape, n + 1);
      }
    }
  }

  lemma {:induction false} EvalCompletes(db: Db, symbol: string, tape: Tape, n: nat)
    ensures var (db', p', n') := Complete(db, Evaluation(symbol, EvalQueued), tape, n);
      (db', n') == EvalOutcome(db, symbol, tape, n) && Finished(p')
  {
    if symbol in db.stocks {
      var price := db.stocks[symbol].currentPrice;
      var listing := tape(n + 1).arrange(EligibleIds(db.orders, symbol, price));
      assert Complete(db, Evaluation(symbol, EvalQueued), tape, n)
          == Complete(db, Evaluation(symbol, EvalPriced(price)), tape, n + 1);
      assert Complete(db, Evaluation(symbol, EvalPriced(price)), tape, n + 1)
          == Complete(db, Evaluation(symbol, Scanning(listing)), tape, n + 2);
      ScanCompletes(db, symbol, listing, tape, n + 2);
    }
  }

  // An evaluation writes no price, and takes back no event.
  predicate KeepsPrices(db: Db, db': Db) {
    db'.stocks == db.stocks && db'.priceEvents == db.priceEvents && db.events <= db'.events
  }

  lemma {:induction false} ExecKeepsPrices(db: Db, o: Id, tape: Tape, n: nat)
    ensures KeepsPrices(db, ExecOutcome(db, o, tape, n).0)
  {
  }

  lemma {:induction false} EvalKeepsPrices(db: Db, todo: seq<Id>, tape: Tape, n: nat)
    ensures KeepsPrices(db, ScanOutcome(db, todo, tape, n).0)
    decreases |todo|
  {
    if todo != [] {
      if todo[0] in db.orders && db.orders[todo[0]].status == Pending {
        var triggered := TriggerOutcome(db, todo[0], tape, n);
        ExecKeepsPrices(triggered, todo[0], tape, n + 3);
        var (db', n') := ExecOutcome(triggered, todo[0], tape, n + 3);
        EvalKeepsPrices(db', todo[1..], tape, n');
      } else {
        EvalKeepsPrices(db, todo[1..], tape, n + 1);
      }
    }
  }

  // --- processPriceUpdate ---

  // Everything before the evaluation: the price event, the upsert, and the two announcements.
  function RepricedDb(db: Db, symbol: string, price: real, tape: Tape, n: nat): Db {
    var was := Lookup(db.stocks, symbol);
    var stock := UpsertedStock(was, price, tape(n + 2).freshId, tape(n + 2).missingIsNull);
    var pe := PriceEvent(tape(n + 1).freshId, symbol, OldPrice(was), price);
    var db1 := db.(priceEvents := db.priceEvents + [pe], stocks := db.stocks[symbol := stock]);
    var updated := Event(CreateAnalyticsEventId(PriceUpdatedType, pe.id), tape(n + 1).now, None,
                         StockPriceUpdated(Some(stock.id), symbol, OldPrice(was), price));
    var db2 := Publish(db1, updated, tape(n + 3));
    if was.Some? && price < was.value.currentPrice then
      var decreased := Event(CreateAnalyticsEventId(PriceDecreasedType, pe.id), tape(n + 4).now, None,
                             StockPriceDecreased(Some(was.value.id), symbol, OldPrice(was), price));
      Publish(db2, decreased, tape(n + 4))
    else db2
  }

  function PriceOutcome(db: Db, symbol: string, price: real, tape: Tape, n: nat): (Db, nat) {
    EvalOutcome(RepricedDb(db, symbol, price, tape, n), symbol, tape, n + 6)
  }

  lemma {:induction false} PriceUnroll(db: Db, symbol: string, price: real, pc: PricePc, tape: Tape, n: nat)
    requires !pc.PriceEnded? && !pc.DecreaseAnnounced?
    ensures var (db', pc', more) := PriceStep(db, symbol, price, pc, tape(n));
      Complete(db, PriceUpdate(symbol, price, pc), tape, n)
          == Complete(db', PriceUpdate(symbol, price, pc'), tape, n + 1)
  {
  }

  lemma {:induction false} PriceCompletes(db: Db, symbol: string, price: real, tape: Tape, n: nat)
    ensures var (db', p', n') := Complete(db, PriceUpdate(symbol, price, PriceQueued), tape, n);
      (db', n') == PriceOutcome(db, symbol, price, tape, n) && Finished(p')
  {
    PriceUnroll(db, symbol, price, PriceQueued, tape, n);
    var (db1, pc1, _) := PriceStep(db, symbol, price, PriceQueued, tape(n));
    PriceUnroll(db1, symbol, price, pc1, tape, n + 1);
    var (db2, pc2, _) := PriceStep(db1, symbol, price, pc1, tape(n + 1));
    PriceUnroll(db2, symbol, price, pc2, tape, n + 2);
    var (db3, pc3, _) := PriceStep(db2, symbol, price, pc2, tape(n + 2));
    PriceUnroll(db3, symbol, price, pc3, tape, n + 3);
    var (db4, pc4, _) := PriceStep(db3, symbol, price, pc3, tape(n + 3));
    PriceUnroll(db4, symbol, price, pc4, tape, n + 4);
    var (db5, pc5, _) := PriceStep(db4, symbol, price, pc4, tape(n + 4));
    assert db5 == RepricedDb(db, symbol, price, tape, n) && pc5 == DecreaseAnnounced;
    EvalCompletes(db5, symbol, tape, n + 6);
    assert PriceStep(db5, symbol, price, pc5, tape(n + 5)) == (db5, PriceEnded, [Evaluation(symbol, EvalQueued)]);
  }

  // --- createBuyOrder, cancelOrder, deposit ---

  predicate Affordable(db: Db, p: Proc)
    requires p.Creation?
  {
    && p.symbol in db.stocks && db.stocks[p.symbol].active
    && p.userId in db.users && db.users[p.userId].walletBalance >= p.quantity * p.targetPrice
  }

  ghost function CreateOutcome(db: Db, p: Proc, tape: Tape, n: nat): (Db, nat)
    requires p.Creation?
  {
    if KeyTaken(db.orders, p.key) then (db, n + 1)
    else if !(p.symbol in db.stocks && db.stocks[p.symbol].active) then (db, n + 2)
    else if !Affordable(db, p) then (db, n + 3)
    else
      PlacedOutcome(db, NewOrder(p), db.stocks[p.symbol].currentPrice, tape, n + 3)
  }

  // The accepted branch: insert, evaluate at once if the price is already there, announce.
  function PlacedOutcome(db: Db, order: Order, currentPrice: real, tape: Tape, n: nat): (Db, nat) {
    var o := tape(n).freshId;
    var inserted := SetOrder(db, o, order);
    var (evaluated, m) := if currentPrice <= order.targetPrice then EvalOutcome(inserted, order.symbol, tape, n + 2)
        else (inserted, n + 2);
    (Publish(evaluated, OrderEvent(OrderEventKind.Created, o, order, order.targetPrice, None, tape(m).now), tape(m)),
        m + 1)
  }

  lemma {:induction false} CreateUnroll(db: Db, p: Proc, tape: Tape, n: nat)
    requires p.Creation? && !p.create.Created? && !p.create.CreateRefused?
    requires p.create.Inserted? ==> p.create.currentPrice > p.targetPrice
    ensures var (db', pc', more) := CreateStep(db, p, tape(n));
      Complete(db, p, tape, n) == Complete(db', p.(create := pc'), tape, n + 1)
  {
  }

  lemma {:induction false} UserReadCompletes(db: Db, p: Proc, tape: Tape, n: nat, price: real)
    requires p.Creation? && !KeyTaken(db.orders, p.key)
    ensures var (db', p', n') := Complete(db, p.(create := UserRead(price)), tape, n);
      (db', n') == PlacedOutcome(db, NewOrder(p), price, tape, n) && Finished(p')
  {
    var o := tape(n).freshId;
    CreateUnroll(db, p.(create := UserRead(price)), tape, n);
    assert CreateStep(db, p.(create := UserRead(price)), tape(n))
        == (SetOrder(db, o, NewOrder(p)), Inserted(o, price), []);
    InsertedCompletes(SetOrder(db, o, NewOrder(p)), p, o, price, tape, n + 1);
  }

  lemma {:induction false} StockReadCompletes(db: Db, p: Proc, tape: Tape, n: nat)
    requires p.Creation? && p.symbol in db.stocks && db.stocks[p.symbol].active && !KeyTaken(db.orders, p.key)
    ensures var q := p.(create := StockRead(db.stocks[p.symbol].currentPrice));
      var (db', p', n') := Complete(db, q, tape, n + 2);
      (db', n') == CreateOutcome(db, p, tape, n) && Finished(p')
  {
    var price := db.stocks[p.symbol].currentPrice;
    CreateUnroll(db, p.(create := StockRead(price)), tape, n + 2);
    if Affordable(db, p) {
      UserReadCompletes(db, p, tape, n + 3, price);
    }
  }

  lemma {:induction false} CreateCompletes(db: Db, p: Proc, tape: Tape, n: nat)
    requires p.Creation? && p.create == CreateStarted
    ensures var (db', p', n') := Complete(db, p, tape, n);
      (db', n') == CreateOutcome(db, p, tape, n) && Finished(p')
  {
    CreateUnroll(db, p, tape, n);
    if !KeyTaken(db.orders, p.key) {
      CreateUnroll(db, p.(create := KeyChecked), tape, n + 1);
      if p.symbol in db.stocks && db.stocks[p.symbol].active {
        StockReadCompletes(db, p, tape, n);
      }
    }
  }

  lemma {:induction false} InsertedCompletes(db: Db, p: Proc, o: Id, price: real, tape: Tape, n: nat)
    requires p.Creation?
    ensures
      var (evaluated, m) := if price <= p.targetPrice then EvalOutcome(db, p.symbol, tape, n + 1) else (db, n + 1);
      var (db', p', n') := Complete(db, p.(create := Inserted(o, price)), tape, n);
      && db' == Publish(evaluated, OrderEvent(OrderEventKind.Created, o, NewOrder(p), p.targetPrice, None,
          tape(m).now), tape(m))
      && n' == m + 1 && Finished(p')
  {
    var q := p.(create := Inserted(o, price));
    if price <= p.targetPrice {
      EvalCompletes(db, p.symbol, tape, n + 1);
      var (db1, _, n1) := Complete(db, Evaluation(p.symbol, EvalQueued), tape, n + 1);
      assert Complete(db, q, tape, n) == Complete(db1, p.(create := CreateAnnouncing(o)), tape, n1);
      CreateUnroll(db1, p.(create := CreateAnnouncing(o)), tape, n1);
    } else {
      CreateUnroll(db, q, tape, n);
      CreateUnroll(db, p.(create := CreateAnnouncing(o)), tape, n + 1);
    }
  }

  function CancelOutcome(db: Db, userId: Id, o: Id, tape: Tape, n: nat): (Db, nat) {
    if o in db.orders && db.orders[o].userId == userId && db.orders[o].status in {Pending, OrderStatus.Triggered} then
      var order := db.orders[o].(status := OrderStatus.Cancelled, reason := CancelledByUser);
      (Publish(SetOrder(db, o, order),
          OrderEvent(OrderEventKind.Cancelled, o, order, order.targetPrice, None, tape(n + 1).now), tape(n + 1)), n + 2)
    else (db, n + 1)
  }

  lemma {:induction false} CancelCompletes(db: Db, userId: Id, o: Id, tape: Tape, n: nat)
    ensures var (db', p', n') := Complete(db, Cancellation(userId, o, CancelStarted), tape, n);
      (db', n') == CancelOutcome(db, userId, o, tape, n) && Finished(p')
  {
    var (db1, pc1) := CancelStep(db, userId, o, CancelStarted, tape(n));
    assert Complete(db, Cancellation(userId, o, CancelStarted), tape, n)
        == Complete(db1, Cancellation(userId, o, pc1), tape, n + 1);
  }

  function DepositOutcome(db: Db, userId: Id, amount: real, tape: Tape, n: nat): (Db, nat) {
    if userId !in db.users then (db, n + 1)
    else
      var before := db.users[userId].walletBalance;
      var row := LedgerRow(tape(n + 2).freshId, userId, DepositRow, amount, before, before + amount, userId);
      var db1 := db.(users := Credited(db.users, userId, amount), ledger := db.ledger + [row]);
      (Publish(db1, DepositEvent(row, tape(n + 3).now), tape(n + 3)), n + 4)
  }

  lemma {:induction false} DepositCompletes(db: Db, userId: Id, amount: real, tape: Tape, n: nat)
    ensures var (db', p', n') := Complete(db, Depositing(userId, amount, DepositStarted), tape, n);
      (db', n') == DepositOutcome(db, userId, amount, tape, n) && Finished(p')
  {
    var p0 := Depositing(userId, amount, DepositStarted);
    if userId in db.users {
      var (db1, pc1) := DepositStep(db, userId, amount, DepositStarted, tape(n));
      assert Complete(db, p0, tape, n) == Complete(db1, Depositing(userId, amount, pc1), tape, n + 1);
      var (db2, pc2) := DepositStep(db1, userId, amount, pc1, tape(n + 1));
      assert Complete(db1, Depositing(userId, amount, pc1), tape, n + 1)
          == Complete(db2, Depositing(userId, amount, pc2), tape, n + 2);
      var (db3, pc3) := DepositStep(db2, userId, amount, pc2, tape(n + 2));
      assert Complete(db2, Depositing(userId, amount, pc2), tape, n + 2)
          == Complete(db3, Depositing(userId, amount, pc3), tape, n + 3);
      var (db4, pc4) := DepositStep(db3, userId, amount, pc3, tape(n + 3));
      assert Complete(db3, Depositing(userId, amount, pc3), tape, n + 3)
          == Complete(db4, Depositing(userId, amount, pc4), tape, n + 4);
    }
  }

  // The whole request, in closed form.
  ghost function Outcome(db: Db, p: Proc, tape: Tape, n: nat): (Db, nat)
    requires IsRequest(p)
  {
    match p
    case PriceUpdate(symbol, price, _) => PriceOutcome(db, symbol, price, tape, n)
    case Creation(_, _, _, _, _, _) => CreateOutcome(db, p, tape, n)
    case Cancellation(userId, o, _) => CancelOutcome(db, userId, o, tape, n)
    case Depositing(userId, amount, _) => DepositOutcome(db, userId, amount, tape, n)
  }

  lemma {:induction false} RequestCompletes(db: Db, p: Proc, tape: Tape, n: nat)
    requires IsRequest(p)
    ensures var (db', p', n') := Complete(db, p, tape, n); (db', n') == Outcome(db, p, tape, n) && Finished(p')
  {
    match p {
      case PriceUpdate(symbol, price, _) => PriceCompletes(db, symbol, price, tape, n);
      case Creation(_, _, _, _, _, _) => CreateCompletes(db, p, tape, n);
      case Cancellation(userId, o, _) => CancelCompletes(db, userId, o, tape, n);
      case Depositing(userId, amount, _) => DepositCompletes(db, userId, amount, tape, n);
    }
  }
}
