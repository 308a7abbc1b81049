/**
 The services over their database, as one object that runs with the inline queue driver.  Each await
 takes the next answer of the outside world from the tape.  Every method is proved equal, on the whole
 database, to the closed form of its call; the closed forms are what the inline scheduler computes.
 */
module InlineExchangeServices {
  import opened Wrappers
  import opened AnalyticsEvents
  import opened Domain
  import opened Protocol
  import opened Inline
  import opened InlineOutcome

  datatype CreateReply =
    | Existing(o: Id) | StockNotFound | StockInactive | UserNotFound | InsufficientBalance | Accepted(o: Id)

  // What an execution returns: the trade recorded for the order, if there is one.
  function FirstTrade(trades: seq<Trade>, o: Id): Option<Trade> {
    if TradesOf(trades, o) == [] then None else Some(TradesOf(trades, o)[0])
  }

  class InlineExchange {
    const tape: Tape
    var tick: nat
    var users: map<Id, User>
    var stocks: map<string, Stock>
    var orders: map<Id, Order>
    var trades: seq<Trade>
    var ledger: seq<LedgerRow>
    var positions: map<(Id, string), Position>
    var priceEvents: seq<PriceEvent>
    var events: seq<Event>

    function Contents(): Db
      reads this
    {
      Db(users, stocks, orders, trades, ledger, positions, priceEvents, events)
    }

    constructor (db: Db, tape: Tape)
      ensures Contents() == db && tick == 0 && this.tape == tape
    {
      this.tape, tick := tape, 0;
      users, stocks, orders, trades := db.users, db.stocks, db.orders, db.trades;
      ledger, positions, priceEvents, events := db.ledger, db.positions, db.priceEvents, db.events;
    }

    method Await() returns (env: Env)
      modifies this`tick
      ensures env == tape(old(tick)) && tick == old(tick) + 1
    {
      env := tape(tick);
      tick := tick + 1;
    }

    method PublishEvent(e: Event, env: Env)
      modifies this`events
      ensures Contents() == Publish(old(Contents()), e, env)
    {
      if env.delivered {
        events := events + [e];
      }
    }

    // --- UsersService ---

    method FindById(userId: Id) returns (user: Option<User>)
      modifies this`tick
      ensures user == Lookup(users, userId) && tick == old(tick) + 1
    {
      var _ := Await();
      user := if userId in users then Some(users[userId]) else None;
    }

    method IncrementWallet(userId: Id, amount: real) returns (user: Option<User>)
      modifies this`tick, this`users
      ensures tick == old(tick) + 1 && user == Lookup(users, userId)
      ensures userId !in old(users) ==> users == old(users)
      ensures userId in old(users) ==>
        var found := old(users)[userId];
        users == old(users)[userId := found.(walletBalance := found.walletBalance + amount)]
    {
      var _ := Await();
      if userId !in users {
        return None;
      }
      var found := users[userId];
      users := users[userId := found.(walletBalance := found.walletBalance + amount)];
      user := Some(users[userId]);
    }

    // The conditional debit: nothing is written unless an active user can pay.
    method ReserveFunds(userId: Id, amount: real) returns (user: Option<User>)
      modifies this`tick, this`users
      ensures tick == old(tick) + 1
      ensures user.Some? <==>
        userId in old(users) && old(users)[userId].walletBalance >= amount && old(users)[userId].active
      ensures user.None? ==> users == old(users)
      ensures user.Some? ==>
        var found := old(users)[userId];
        users == old(users)[userId := found.(walletBalance := found.walletBalance - amount)]
      ensures user.Some? ==> user == Lookup(users, userId)
    {
      var _ := Await();
      if userId !in users || users[userId].walletBalance < amount || !users[userId].active {
        return None;
      }
      var found := users[userId];
      users := users[userId := found.(walletBalance := found.walletBalance - amount)];
      user := Some(users[userId]);
    }

    // --- WalletService ---

    method Deposit(userId: Id, amount: real) returns (ok: bool)
      modifies this
      ensures (Contents(), tick) == DepositOutcome(old(Contents()), userId, amount, tape, old(tick))
      ensures ok <==> userId in old(users)
      ensures !ok ==> Contents() == old(Contents())
      ensures ok ==>
        var before := old(users)[userId].walletBalance;
        && users == old(users)[userId := old(users)[userId].(walletBalance := before + amount)]
        && ledger == old(ledger) + [LedgerRow(tape(old(tick) + 2).freshId, userId, DepositRow, amount,
                                              before, before + amount, userId)]
        && orders == old(orders) && stocks == old(stocks) && trades == old(trades) && positions == old(positions)
    {
      var previous := FindById(userId);
      if previous.None? {
        return false;
      }
      var updated := IncrementWallet(userId, amount);
      var env := Await();
      var row := LedgerRow(env.freshId, userId, DepositRow, amount,
                           previous.value.walletBalance, updated.value.walletBalance, userId);
      ledger := ledger + [row];
      env := Await();
      PublishEvent(DepositEvent(row, env.now), env);
      ok := true;
    }

    method DebitForOrder(o: Id, order: Order, price: real) returns (ok: bool)
      modifies this
      ensures ok <==> CanPay(old(Contents()), order.userId, Cost(order, price))
      ensures ok ==> tick == old(tick) + 3 && Contents() == DebitedDb(old(Contents()), o, order, price, tape, old(tick))
      ensures !ok ==> tick == old(tick) + 1 && Contents() == old(Contents())
      ensures ok ==>
        var cost := order.quantity * price;
        var after := old(users)[order.userId].walletBalance - cost;
        && users == old(users)[order.userId := old(users)[order.userId].(walletBalance := after)]
        && ledger == old(ledger) + [LedgerRow(tape(old(tick) + 1).freshId, order.userId, DebitRow, cost,
                                              after + cost, after, o)]
    {
      var updated := ReserveFunds(order.userId, Cost(order, price));
      if updated.None? {
        return false;
      }
      assert users[order.userId].walletBalance == old(users)[order.userId].walletBalance - order.quantity * price;
      var env := Await();
      var row := DebitRowFor(o, order, price, updated.value.walletBalance, env.freshId);
      ledger := ledger + [row];
      env := Await();
      PublishEvent(DebitEvent(row, env.now), env);
      ok := true;
    }

    // --- PortfolioService ---

    method ApplyExecution(order: Order, price: real)
      modifies this`tick, this`positions
      ensures tick == old(tick) + 2
      ensures positions == old(positions)[(order.userId, order.symbol) := PositionAfter(old(positions), order, price)]
      ensures var key := (order.userId, order.symbol);
        var q, c := order.quantity, order.quantity * price;
        && key in positions && (forall k | k != key :: k in positions <==> k in old(positions))
        && (forall k | k in old(positions) && k != key :: positions[k] == old(positions)[k])
        && positions[key].quantityOwned
            == (if key in old(positions) then old(positions)[key].quantityOwned else 0.0) + q
        && positions[key].totalInvested
            == (if key in old(positions) then old(positions)[key].totalInvested else 0.0) + c
        && positions[key].avgBuyPrice == if positions[key].quantityOwned == 0.0 then 0.0
                                         else positions[key].totalInvested / positions[key].quantityOwned
    {
      var key := (order.userId, order.symbol);
      var _ := Await();
      var found := Lookup(positions, key);
      var _ := Await();
      if found.None? {
        positions := positions[key := NewPosition(order.quantity, Cost(order, price))];
        return;
      }
      positions := positions[key := SavePosition(positions[key], found.value, order.quantity, Cost(order, price))];
    }

    // --- StocksService and PriceEventsService ---

    method GetStockBySymbol(symbol: string) returns (stock: Option<Stock>)
      modifies this`tick
      ensures tick == old(tick) + 1 && stock == Lookup(stocks, symbol)
    {
      var _ := Await();
      stock := if symbol in stocks then Some(stocks[symbol]) else None;
    }

    method UpsertPrice(symbol: string, price: real) returns (stock: Stock)
      modifies this`tick, this`stocks
      ensures tick == old(tick) + 1
      ensures stock == UpsertedStock(Lookup(old(stocks), symbol), price, tape(old(tick)).freshId,
          tape(old(tick)).missingIsNull)
      ensures stocks == old(stocks)[symbol := stock]
      ensures stock.currentPrice == price && stock.active
      ensures stock.id == if symbol in old(stocks) then old(stocks)[symbol].id else tape(old(tick)).freshId
      ensures symbol in old(stocks) && old(stocks)[symbol].leastPrice.Some? ==>
        && stock.leastPrice.Some? && stock.leastPrice.value in {price, old(stocks)[symbol].leastPrice.value}
        && stock.leastPrice.value <= price && stock.leastPrice.value <= old(stocks)[symbol].leastPrice.value
      ensures !(symbol in old(stocks) && old(stocks)[symbol].leastPrice.Some?) ==>
        stock.leastPrice == if tape(old(tick)).missingIsNull then Some(price) else None
    {
      var env := Await();
      stock := UpsertedStock(Lookup(stocks, symbol), price, env.freshId, env.missingIsNull);
      stocks := stocks[symbol := stock];
    }

    // --- OrdersService ---

    method MarkTriggered(o: Id) returns (triggered: bool)
      modifies this
      ensures triggered <==> o in old(orders) && old(orders)[o].status == Pending
      ensures triggered ==> tick == old(tick) + 2 && Contents() == TriggerOutcome(old(Contents()), o, tape, old(tick))
      ensures !triggered ==> tick == old(tick) + 1 && Contents() == old(Contents())
      ensures triggered ==> orders == old(orders)[o := old(orders)[o].(status := OrderStatus.Triggered)]
    {
      var _ := Await();
      if o !in orders || orders[o].status != Pending {
        return false;
      }
      var order := orders[o].(status := OrderStatus.Triggered);
      orders := orders[o := order];
      var env := Await();
      PublishEvent(OrderEvent(OrderEventKind.Triggered, o, order, order.targetPrice, None, env.now), env);
      triggered := true;
    }

    // The conditional claim: only a TRIGGERED order becomes EXECUTING.
    method ClaimOrder(o: Id) returns (claimed: Option<Order>)
      modifies this`tick, this`orders
      ensures tick == old(tick) + 1
      ensures claimed.Some? <==> o in old(orders) && old(orders)[o].status == OrderStatus.Triggered
      ensures claimed.Some? ==>
          claimed.value == old(orders)[o].(status := Executing) && orders == old(orders)[o := claimed.value]
      ensures claimed.None? ==> orders == old(orders)
    {
      var _ := Await();
      if o !in orders || orders[o].status != OrderStatus.Triggered {
        return None;
      }
      orders := orders[o := orders[o].(status := Executing)];
      claimed := Some(orders[o]);
    }

    method ExecuteTriggeredOrder(o: Id) returns (execution: Option<Trade>)
      modifies this
      ensures (Contents(), tick) == ExecOutcome(old(Contents()), o, tape, old(tick))
      ensures execution == if o in old(orders) && old(orders)[o].status == OrderStatus.Triggered
          then FirstTrade(trades, o) else None
    {
      var claimed := ClaimOrder(o);
      if claimed.None? {
        return None;
      }
      execution := ExecuteClaimed(o, claimed.value);
    }

    method ExecuteClaimed(o: Id, order: Order) returns (execution: Option<Trade>)
      requires o in orders && orders[o] == order && order.status == Executing && tick >= 1
      modifies this
      ensures (Contents(), tick) == ClaimedOutcome(old(Contents()), o, order, tape, old(tick) - 1)
      ensures execution == FirstTrade(trades, o)
    {
      var _ := Await();
      var existing := TradesOf(trades, o);
      if existing != [] {
        var _ := Await();
        orders := orders[o := orders[o].(status := Completed)];
        return Some(existing[0]);
      }

      var stock := GetStockBySymbol(order.symbol);
      if stock.None? {
        return None; // thrown
      }
      var price := stock.value.currentPrice;
      if price > order.targetPrice {
        var _ := Await();
        orders := orders[o := orders[o].(status := Pending, reason := PriceMovedAboveTarget)];
        return None;
      }

      execution := SettleOrder(o, order, price);
    }

    // The debit and what follows it.
    method SettleOrder(o: Id, order: Order, price: real) returns (execution: Option<Trade>)
      requires o in orders && orders[o] == order && order.status == Executing && tick >= 3 && TradesOf(trades, o) == []
      modifies this
      ensures execution.Some? <==> CanPay(old(Contents()), order.userId, Cost(order, price))
      ensures execution == FirstTrade(trades, o)
      ensures tick == old(tick) + if execution.Some? then 8 else 3
      ensures if execution.Some? then Contents() == PaidOutcome(old(Contents()), o, order, price, tape, old(tick) - 3)
        else
          var failed := SetOrder(old(Contents()), o, order.(status := OrderStatus.Failed, reason := InsufficientFunds));
          var env := tape(old(tick) + 2);
          Contents() == Publish(failed,
              OrderEvent(OrderEventKind.Failed, o, order, price, Some(Cost(order, price)), env.now), env)
    {
      var paid := DebitForOrder(o, order, price);
      if !paid {
        FailOrder(o, order, price);
        return None;
      }
      execution := FillOrder(o, order, price);
    }

    method RecordPurchase(o: Id, order: Order, price: real) returns (trade: Trade)
      modifies this`tick, this`trades, this`positions
      ensures tick == old(tick) + 3
      ensures var at := tape(old(tick)).now;
        trade == TradeFor(o, order, price, at) && Contents() == BoughtDb(old(Contents()), o, order, price, at)
      ensures trade == Trade(o, order.userId, order.symbol, price, order.quantity, order.quantity * price,
          tape(old(tick)).now)
      ensures trades == old(trades) + [trade]
    {
      var env := Await();
      trade := TradeFor(o, order, price, env.now);
      trades := trades + [trade];
      ApplyExecution(order, price);
    }

    method CompleteOrder(o: Id, order: Order, price: real, at: int)
      requires o in orders && orders[o] == order && order.status == Executing
      modifies this`tick, this`orders, this`events
      ensures tick == old(tick) + 2
      ensures Contents() == FinishedDb(old(Contents()), o, order, price, at, tape, old(tick))
      ensures orders == old(orders)[o := order.(status := Completed, executedPrice := Some(price),
                                                executedAt := Some(tape(old(tick)).now),
                                                reason := ExecutedSuccessfully)]
    {
      var env := Await();
      if orders[o].status == Executing {
        orders := orders[o := orders[o].(status := Completed, executedPrice := Some(price),
                                         executedAt := Some(env.now), reason := ExecutedSuccessfully)];
      }
      env := Await();
      PublishEvent(OrderEvent(Executed, o, order, price, Some(Cost(order, price)), at), env);
    }

    // The paid branch: trade, position, completion, event.
    method FillOrder(o: Id, order: Order, price: real) returns (execution: Option<Trade>)
      requires o in orders && orders[o] == order && order.status == Executing && TradesOf(trades, o) == []
      modifies this
      ensures tick == old(tick) + 5
      ensures var n := old(tick); var at := tape(n).now;
        Contents() == FinishedDb(BoughtDb(old(Contents()), o, order, price, at), o, order, price, at, tape, n + 3)
      ensures execution.Some? && execution == FirstTrade(trades, o)
    {
      var trade := RecordPurchase(o, order, price);
      TradesOfAppend(old(trades), trade, o);
      assert trades == old(trades) + [trade];
      CompleteOrder(o, order, price, trade.executedAt);
      execution := Some(trade);
    }

    // The catch branch: nothing was debited.
    method FailOrder(o: Id, order: Order, price: real)
      requires o in orders && orders[o] == order && order.status == Executing
      modifies this
      ensures tick == old(tick) + 2
      ensures var failed := SetOrder(old(Contents()), o,
          order.(status := OrderStatus.Failed, reason := InsufficientFunds));
        var env := tape(old(tick) + 1);
        Contents() == Publish(failed,
            OrderEvent(OrderEventKind.Failed, o, order, price, Some(Cost(order, price)), env.now), env)
    {
      var _ := Await();
      if orders[o].status == Executing {
        orders := orders[o := orders[o].(status := OrderStatus.Failed, reason := InsufficientFunds)];
      }
      var env := Await();
      PublishEvent(OrderEvent(OrderEventKind.Failed, o, order, price, Some(Cost(order, price)), env.now), env);
    }

    method FindEligibleOrders(symbol: string, currentPrice: real) returns (eligible: seq<Id>)
      modifies this`tick
      ensures tick == old(tick) + 1
      ensures eligible == tape(old(tick)).arrange(EligibleIds(orders, symbol, currentPrice))
      ensures var ids := EligibleIds(orders, symbol, currentPrice);
        Lists(tape(old(tick)).arrange(ids), ids) ==>
          && (forall o :: o in eligible <==> (o in orders && orders[o].symbol == symbol
                                              && orders[o].status == Pending && orders[o].targetPrice >= currentPrice))
          && (forall i, j | 0 <= i < j < |eligible| :: eligible[i] != eligible[j])
    {
      var env := Await();
      eligible := env.arrange(EligibleIds(orders, symbol, currentPrice));
    }

    method CancelOrder(userId: Id, o: Id) returns (ok: bool)
      modifies this
      ensures (Contents(), tick) == CancelOutcome(old(Contents()), userId, o, tape, old(tick))
      ensures ok <==> o in old(orders) && old(orders)[o].userId == userId
                      && old(orders)[o].status in {Pending, OrderStatus.Triggered}
      ensures !ok ==> Contents() == old(Contents())
      ensures ok ==>
        && orders == old(orders)[o := old(orders)[o].(status := OrderStatus.Cancelled, reason := CancelledByUser)]
        && users == old(users) && stocks == old(stocks) && trades == old(trades) && ledger == old(ledger)
        && positions == old(positions) && priceEvents == old(priceEvents)
    {
      var _ := Await();
      if o !in orders || orders[o].userId != userId || orders[o].status !in {Pending, OrderStatus.Triggered} {
        return false;
      }
      var order := orders[o].(status := OrderStatus.Cancelled, reason := CancelledByUser);
      orders := orders[o := order];
      var env := Await();
      PublishEvent(OrderEvent(OrderEventKind.Cancelled, o, order, order.targetPrice, None, env.now), env);
      ok := true;
    }

    method FindByKey(key: Option<string>) returns (found: Option<Id>)
      ensures found.Some? <==> key.Some? && exists o :: o in orders && orders[o].idempotencyKey == key
      ensures found.Some? ==> found.value in orders && orders[found.value].idempotencyKey == key
    {
      var left := orders.Keys;
      while left != {}
        invariant left <= orders.Keys
        invariant forall x | x in orders.Keys - left :: orders[x].idempotencyKey != key
        decreases left
      {
        var x :| x in left;
        if key.Some? && orders[x].idempotencyKey == key {
          return Some(x);
        }
        if key.None? {
          return None;
        }
        left := left - {x};
      }
      found := None;
    }

    // The checks before the insert: the stock, then the owner's wallet.
    method CheckRequest(userId: Id, symbol: string, targetPrice: real, quantity: real)
      returns (refusal: Option<CreateReply>, currentPrice: real)
      modifies this`tick
      ensures refusal.None? <==> symbol in stocks && stocks[symbol].active
                                 && userId in users && users[userId].walletBalance >= quantity * targetPrice
      ensures refusal == Some(StockNotFound) <==> symbol !in stocks
      ensures refusal == Some(StockInactive) <==> symbol in stocks && !stocks[symbol].active
      ensures refusal == Some(UserNotFound) <==> symbol in stocks && stocks[symbol].active && userId !in users
      ensures refusal == Some(InsufficientBalance) <==>
        symbol in stocks && stocks[symbol].active && userId in users
        && users[userId].walletBalance < quantity * targetPrice
      ensures tick == old(tick) + if symbol in stocks && stocks[symbol].active then 2 else 1
      ensures refusal.None? ==> currentPrice == stocks[symbol].currentPrice
    {
      currentPrice := 0.0;
      var stock := GetStockBySymbol(symbol);
      if stock.None? {
        return Some(StockNotFound), 0.0;
      }
      if !stock.value.active {
        return Some(StockInactive), 0.0;
      }
      var user := FindById(userId);
      if user.None? {
        return Some(UserNotFound), 0.0;
      }
      var estimatedCost := quantity * targetPrice;
      if user.value.walletBalance < estimatedCost {
        return Some(InsufficientBalance), 0.0;
      }
      return None, stock.value.currentPrice;
    }

    method CreateBuyOrder(userId: Id, symbol: string, targetPrice: real, quantity: real, key: Option<string>)
      returns (reply: CreateReply)
      modifies this
      ensures (Contents(), tick)
           == CreateOutcome(old(Contents()), Creation(userId, symbol, targetPrice, quantity, key, CreateStarted), tape,
               old(tick))
      ensures reply.Existing? <==> key.Some? && exists o :: o in old(orders) && old(orders)[o].idempotencyKey == key
      ensures reply.Existing? ==> reply.o in old(orders) && old(orders)[reply.o].idempotencyKey == key
      ensures !reply.Existing? ==>
        && (reply.StockNotFound? <==> symbol !in old(stocks))
        && (reply.StockInactive? <==> symbol in old(stocks) && !old(stocks)[symbol].active)
        && (reply.UserNotFound? <==> symbol in old(stocks) && old(stocks)[symbol].active && userId !in old(users))
        && (reply.InsufficientBalance? <==>
              symbol in old(stocks) && old(stocks)[symbol].active && userId in old(users)
              && old(users)[userId].walletBalance < quantity * targetPrice)
        && (reply.Accepted? <==>
              symbol in old(stocks) && old(stocks)[symbol].active && userId in old(users)
              && old(users)[userId].walletBalance >= quantity * targetPrice)
      ensures reply.Accepted? ==> reply.o == tape(old(tick) + 3).freshId
      ensures reply.Accepted? && old(stocks)[symbol].currentPrice > targetPrice ==>
        && orders == old(orders)[reply.o := Order(userId, symbol, targetPrice, quantity, Pending, NoReason,
                                                  None, None, key)]
        && users == old(users) && trades == old(trades) && ledger == old(ledger) && positions == old(positions)
      ensures !reply.Accepted? ==> Contents() == old(Contents())
    {
      ghost var p := Creation(userId, symbol, targetPrice, quantity, key, CreateStarted);
      var _ := Await();
      var existing := FindByKey(key);
      if existing.Some? {
        return Existing(existing.value);
      }
      var refusal, currentPrice := CheckRequest(userId, symbol, targetPrice, quantity);
      assert Affordable(Contents(), p) <==> refusal.None?;
      if refusal.Some? {
        return refusal.value;
      }
      var order := Order(userId, symbol, targetPrice, quantity, Pending, NoReason, None, None, key);
      var o := PlaceOrder(order, currentPrice);
      reply := Accepted(o);
    }

    method PlaceOrder(order: Order, currentPrice: real) returns (o: Id)
      modifies this
      ensures o == tape(old(tick)).freshId
      ensures (Contents(), tick) == PlacedOutcome(old(Contents()), order, currentPrice, tape, old(tick))
      ensures currentPrice > order.targetPrice ==>
        && orders == old(orders)[o := order] && users == old(users) && stocks == old(stocks)
        && trades == old(trades) && ledger == old(ledger) && positions == old(positions)
    {
      o := InsertOrder(order);
      assert Contents() == SetOrder(old(Contents()), o, order);
      if currentPrice <= order.targetPrice {
        ProcessOrderEvaluation(order.symbol);
      }
      var env := Await();
      PublishEvent(OrderEvent(OrderEventKind.Created, o, order, order.targetPrice, None, env.now), env);
    }

    // The insert and the enqueue call after it, whose inline work is done by the caller.
    method InsertOrder(order: Order) returns (o: Id)
      modifies this`tick, this`orders
      ensures tick == old(tick) + 2 && o == tape(old(tick)).freshId && orders == old(orders)[o := order]
    {
      var env := Await();
      o := env.freshId;
      orders := orders[o := order];
      var _ := Await();
    }

    // --- QueueService, inline driver ---

    // One turn of the loop: the inline driver runs the execution job it enqueues at once.
    method TriggerOrder(o: Id)
      modifies this
      ensures var db, n := old(Contents()), old(tick);
        (Contents(), tick) == if o in db.orders && db.orders[o].status == Pending
                              then ExecOutcome(TriggerOutcome(db, o, tape, n), o, tape, n + 3) else (db, n + 1)
    {
      var triggered := MarkTriggered(o);
      if triggered {
        var _ := Await();
        var _ := ExecuteTriggeredOrder(o);
      }
    }

    method ProcessOrderEvaluation(symbol: string)
      modifies this
      ensures (Contents(), tick) == EvalOutcome(old(Contents()), symbol, tape, old(tick))
      ensures stocks == old(stocks) && priceEvents == old(priceEvents) && old(events) <= events
    {
      var stock := GetStockBySymbol(symbol);
      if stock.None? {
        return; // thrown
      }
      var eligible := FindEligibleOrders(symbol, stock.value.currentPrice);
      ghost var target := ScanOutcome(Contents(), eligible, tape, tick);
      EvalKeepsPrices(Contents(), eligible, tape, tick);
      var i := 0;
      while i < |eligible|
        invariant 0 <= i <= |eligible|
        invariant ScanOutcome(Contents(), eligible[i..], tape, tick) == target
      {
        assert eligible[i..][0] == eligible[i] && eligible[i..][1..] == eligible[i + 1..];
        TriggerOrder(eligible[i]);
        i := i + 1;
      }
      var _ := Await();
    }

    // The price event and the new price, then their announcement.
    method RecordPrice(symbol: string, price: real)
      returns (e: PriceEvent, was: Option<Stock>, updated: Stock, receivedAt: int)
      modifies this
      ensures tick == old(tick) + 3
      ensures var n := old(tick);
        && was == (if symbol in old(stocks) then Some(old(stocks)[symbol]) else None)
        && e.id == tape(n + 1).freshId && e.symbol == symbol && e.newPrice == price
        && e.oldPrice == (if symbol in old(stocks) then Some(old(stocks)[symbol].currentPrice) else None)
        && receivedAt == tape(n + 1).now
        && updated == UpsertedStock(was, price, tape(n + 2).freshId, tape(n + 2).missingIsNull)
        && Contents() == old(Contents()).(priceEvents := old(priceEvents) + [e],
            stocks := old(stocks)[symbol := updated])
    {
      was := GetStockBySymbol(symbol);
      var env := Await();
      e := PriceEvent(env.freshId, symbol, OldPrice(was), price);
      receivedAt := env.now;
      priceEvents := priceEvents + [e];
      updated := UpsertPrice(symbol, price);
    }

    method AnnouncePrice(symbol: string, price: real)
      modifies this
      ensures tick == old(tick) + 5 && Contents() == RepricedDb(old(Contents()), symbol, price, tape, old(tick))
      ensures symbol in stocks && stocks[symbol].currentPrice == price
      ensures var n := old(tick); var id := tape(n + 1).freshId;
        var was := if symbol in old(stocks) then Some(old(stocks)[symbol].currentPrice) else None;
        var updated := Event("stock.price.updated:" + id, tape(n + 1).now, None,
                             StockPriceUpdated(Some(stocks[symbol].id), symbol, was, price));
        && priceEvents == old(priceEvents) + [PriceEvent(id, symbol, was, price)]
        && events == old(events) + (if tape(n + 3).delivered then [updated] else [])
                     + if tape(n + 4).delivered && was.Some? && price < was.value
                       then [Event("stock.price.decreased:" + id, tape(n + 4).now, None,
                                   StockPriceDecreased(Some(old(stocks)[symbol].id), symbol, was, price))] else []
    {
      var e, was, updated, receivedAt := RecordPrice(symbol, price);
      EventIdSpelled(e.id);
      var env := Await();
      PublishEvent(Event(CreateAnalyticsEventId(PriceUpdatedType, e.id), receivedAt, None,
                         StockPriceUpdated(Some(updated.id), symbol, OldPrice(was), price)), env);
      env := Await();
      if was.Some? && price < was.value.currentPrice {
        PublishEvent(Event(CreateAnalyticsEventId(PriceDecreasedType, e.id), env.now, None,
                           StockPriceDecreased(Some(was.value.id), symbol, OldPrice(was), price)), env);
      }
    }

    method ProcessPriceUpdate(symbol: string, price: real)
      modifies this
      ensures (Contents(), tick) == PriceOutcome(old(Contents()), symbol, price, tape, old(tick))
      ensures symbol in stocks && stocks[symbol].currentPrice == price
      ensures var n := old(tick); var id := tape(n + 1).freshId;
        var was := if symbol in old(stocks) then Some(old(stocks)[symbol].currentPrice) else None;
        var updated := Event("stock.price.updated:" + id, tape(n + 1).now, None,
                             StockPriceUpdated(Some(stocks[symbol].id), symbol, was, price));
        && priceEvents == old(priceEvents) + [PriceEvent(id, symbol, was, price)]
        && old(events) + (if tape(n + 3).delivered then [updated] else [])
           + (if tape(n + 4).delivered && was.Some? && price < was.value
              then [Event("stock.price.decreased:" + id, tape(n + 4).now, None,
                          StockPriceDecreased(Some(old(stocks)[symbol].id), symbol, was, price))] else [])
           <= events
    {
      AnnouncePrice(symbol, price);
      var _ := Await();
      ProcessOrderEvaluation(symbol);
    }

    // One request of the run, whichever it is.
    method ServeRequest(p: Proc)
      requires IsRequest(p)
      modifies this
      ensures var (db, _, n) := Complete(old(Contents()), p, tape, old(tick)); Contents() == db && tick == n
    {
      RequestCompletes(Contents(), p, tape, tick);
      match p {
        case PriceUpdate(symbol, price, _) => ProcessPriceUpdate(symbol, price);
        case Creation(userId, symbol, target, quantity, key, _) =>
          var _ := CreateBuyOrder(userId, symbol, target, quantity, key);
        case Cancellation(userId, o, _) => var _ := CancelOrder(userId, o);
        case Depositing(userId, amount, _) => var _ := Deposit(userId, amount);
      }
    }

    // A whole inline run: the object ends exactly where the scheduler over the small-step system does.
    method ServeAll(requests: seq<Proc>)
      requires tick == 0 && forall p | p in requests :: IsRequest(p)
      modifies this
      ensures (Contents(), tick) == Serve(old(Contents()), requests, tape)
    {
      var i := 0;
      while i < |requests|
        invariant 0 <= i <= |requests|
        invariant (Contents(), tick) == Serve(old(Contents()), requests[..i], tape)
      {
        assert requests[..i + 1][..i] == requests[..i];
        ServeRequest(requests[i]);
        i := i + 1;
      }
      assert requests[..i] == requests;
    }
  }
}
