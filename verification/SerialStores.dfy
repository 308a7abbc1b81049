/**
 What the other stores hold after an inline run.  With no interleaving the figures that concurrent
 executions may spoil are exact: positions are the sums of all trades, the ledger replays to the
 wallet balance, and the price events replay to the current price.
 */
module SerialStores {
  import opened Wrappers
  import opened AnalyticsEvents
  import opened Domain
  import opened Protocol
  import opened Inline
  import opened InlineOutcome
  import opened Serial
  import opened PositionSums
  import opened Sums
  import OrderSafety
  import Ownership

  // --- Positions ---

  predicate PositionExact(db: Db, u: Id, y: string) {
    if (u, y) in db.positions then
      var p := db.positions[(u, y)];
      && p.quantityOwned == SumBy(db.trades, QuantityIn(u, y))
      && p.totalInvested == SumBy(db.trades, CostIn(u, y))
      && p.quantityOwned >= 1.0
      && p.avgBuyPrice == p.totalInvested / p.quantityOwned
    else forall t | t in db.trades :: !TradeIs(t, u, y)
  }

  ghost predicate PositionsExact(db: Db) {
    forall u, y :: PositionExact(db, u, y)
  }

  lemma {:induction false} SavedExactly(p: Position, quantity: real, cost: real)
    requires p.quantityOwned >= 1.0 && quantity >= 1.0 && p.avgBuyPrice == p.totalInvested / p.quantityOwned
    ensures var s := SavePosition(p, p, quantity, cost);
      && s.quantityOwned == p.quantityOwned + quantity && s.totalInvested == p.totalInvested + cost
      && s.avgBuyPrice == s.totalInvested / s.quantityOwned
  {
  }

  lemma {:induction false} TradeKeepsPositionExact(db: Db, db': Db, o: Id, order: Order, price: real, at: int, u: Id,
      y: string)
    requires PositionExact(db, u, y) && order.quantity >= 1.0
    requires db'.trades == db.trades + [TradeFor(o, order, price, at)]
    requires db'.positions == db.positions[(order.userId, order.symbol) := PositionAfter(db.positions, order, price)]
    ensures PositionExact(db', u, y)
  {
    var t := TradeFor(o, order, price, at);
    SumAppend(db.trades, t, QuantityIn(u, y));
    SumAppend(db.trades, t, CostIn(u, y));
    if (order.userId, order.symbol) == (u, y) {
      if (u, y) in db.positions {
        SavedExactly(db.positions[(u, y)], order.quantity, Cost(order, price));
      } else {
        SumZero(db.trades, QuantityIn(u, y));
        SumZero(db.trades, CostIn(u, y));
      }
    } else {
      assert !TradeIs(t, u, y);
    }
  }

  // --- Ledger ---

  // Replays a user's rows from a starting balance; None if a row does not pick up where the
  // previous one left off, or does not differ by its signed amount.
  function Replay(ledger: seq<LedgerRow>, u: Id, start: real): Option<real> {
    if ledger == [] then Some(start)
    else
      var row := ledger[|ledger| - 1];
      match Replay(ledger[..|ledger| - 1], u, start)
      case None => None
      case Some(balance) =>
        if row.userId != u then Some(balance)
        else if row.balanceBefore == balance
                && row.balanceAfter == (if row.kind == DepositRow then balance + row.amount else balance - row.amount)
        then Some(row.balanceAfter) else None
  }

  ghost predicate LedgerReplays(start: Db, db: Db) {
    start.users.Keys == db.users.Keys
    && forall u | u in db.users :: Replay(db.ledger, u, start.users[u].walletBalance) == Some(db.users[u].walletBalance)
  }

  lemma {:induction false} RowKeepsReplay(start: Db, db: Db, db': Db, row: LedgerRow)
    requires LedgerReplays(start, db) && db'.ledger == db.ledger + [row] && row.userId in db.users
    requires row.balanceBefore == db.users[row.userId].walletBalance
    requires row.balanceAfter == if row.kind == DepositRow then row.balanceBefore + row.amount
        else row.balanceBefore - row.amount
    requires db'.users == db.users[row.userId := db.users[row.userId].(walletBalance := row.balanceAfter)]
    ensures LedgerReplays(start, db')
  {
    assert (db.ledger + [row])[..|db.ledger|] == db.ledger;
  }

  // --- Price events ---

  // Replays the price events of a symbol from the price it started with.
  function PriceReplay(events: seq<PriceEvent>, y: string, start: Option<real>): Option<Option<real>> {
    if events == [] then Some(start)
    else
      var e := events[|events| - 1];
      match PriceReplay(events[..|events| - 1], y, start)
      case None => None
      case Some(price) => if e.symbol != y then Some(price) else if e.oldPrice == price then Some(Some(e.newPrice))
          else None
  }

  ghost predicate PricesReplay(start: Db, db: Db) {
    forall y :: PriceReplay(db.priceEvents, y, OldPrice(Lookup(start.stocks, y)))
        == Some(OldPrice(Lookup(db.stocks, y)))
  }

  // --- All three, kept by every request ---

  ghost predicate StoresExact(start: Db, db: Db) {
    PositionsExact(db) && LedgerReplays(start, db) && PricesReplay(start, db)
  }

  lemma {:induction false} DecidedKeepsStores(start: Db, db: Db, db': Db, o: Id, price: real, at: int, doneAt: int,
      rowId: Id)
    requires StoresExact(start, db) && o in db.orders && db.orders[o].quantity >= 1.0
    requires Decided(db, db', o, price, at, doneAt, rowId)
    ensures StoresExact(start, db')
  {
    var order := db.orders[o];
    if CanPay(db, order.userId, Cost(order, price)) {
      forall u, y ensures PositionExact(db', u, y) {
        TradeKeepsPositionExact(db, db', o, order, price, at, u, y);
      }
      RowKeepsReplay(start, db, db', db'.ledger[|db.ledger|]);
    } else {
      forall u, y ensures PositionExact(db', u, y) {
        assert PositionExact(db, u, y);
      }
    }
  }

  lemma {:induction false} ScanKeepsStores(start: Db, db: Db, symbol: string, todo: seq<Id>, tape: Tape, n: nat)
    requires Ready(db) && symbol in db.stocks && Listed(db, symbol, todo) && StoresExact(start, db)
    ensures StoresExact(start, ScanOutcome(db, todo, tape, n).0)
    decreases |todo|
  {
    if todo != [] {
      var o := todo[0];
      var price := db.stocks[symbol].currentPrice;
      assert Eligible(db.orders[o], symbol, price) && OrderReady(db, db.orders[o]);
      TriggeredExecution(db, o, tape, n);
      var (db1, n1) := ExecOutcome(TriggerOutcome(db, o, tape, n), o, tape, n + 3);
      assert Ready(db1) && FirstServed(db, db1, o, price) && StoresExact(start, db1) by {
        DecidedKeepsReady(db, db1, o, price, tape(n + 9).now, tape(n + 12).now, tape(n + 7).freshId);
        DecidedServes(db, db1, o, price, tape(n + 9).now, tape(n + 12).now, tape(n + 7).freshId);
        DecidedKeepsStores(start, db, db1, o, price, tape(n + 9).now, tape(n + 12).now, tape(n + 7).freshId);
      }
      ListedRest(db, db1, symbol, todo);
      ScanKeepsStores(start, db1, symbol, todo[1..], tape, n1);
    }
  }

  lemma {:induction false} EvaluationKeepsStores(start: Db, db: Db, symbol: string, tape: Tape, n: nat)
    requires Ready(db) && symbol in db.stocks && StoresExact(start, db)
    requires forall ids, m | m >= n :: Lists(tape(m).arrange(ids), ids)
    ensures StoresExact(start, EvalOutcome(db, symbol, tape, n).0)
  {
    var price := db.stocks[symbol].currentPrice;
    var ids := EligibleIds(db.orders, symbol, price);
    var listing := tape(n + 1).arrange(ids);
    assert Lists(listing, ids);
    ScanKeepsStores(start, db, symbol, listing, tape, n + 2);
  }

  // Writes that leave positions, trades, ledger, wallets and prices alone.
  lemma {:induction false} StoresUntouched(start: Db, db: Db, db': Db)
    requires StoresExact(start, db)
    requires db'.positions == db.positions && db'.trades == db.trades && db'.ledger == db.ledger
        && db'.users == db.users
    requires db'.stocks == db.stocks && db'.priceEvents == db.priceEvents
    ensures StoresExact(start, db')
  {
    forall u, y ensures PositionExact(db', u, y) {
      assert PositionExact(db, u, y);
    }
  }

  lemma {:induction false} RepricingKeepsStores(start: Db, db: Db, symbol: string, price: real, tape: Tape, n: nat)
    requires StoresExact(start, db)
    ensures StoresExact(start, RepricedDb(db, symbol, price, tape, n))
  {
    RepricedFacts(db, symbol, price, tape, n);
    var db1 := RepricedDb(db, symbol, price, tape, n);
    forall u, y ensures PositionExact(db1, u, y) {
      assert PositionExact(db, u, y);
    }
    assert db1.priceEvents[..|db.priceEvents|] == db.priceEvents;
    assert PricesReplay(start, db1);
  }

  lemma {:induction false} DepositKeepsStores(start: Db, db: Db, userId: Id, amount: real, tape: Tape, n: nat)
    requires StoresExact(start, db)
    ensures StoresExact(start, DepositOutcome(db, userId, amount, tape, n).0)
  {
    var db' := DepositOutcome(db, userId, amount, tape, n).0;
    if userId in db.users {
      RowKeepsReplay(start, db, db', db'.ledger[|db.ledger|]);
    }
    forall u, y ensures PositionExact(db', u, y) {
      assert PositionExact(db, u, y);
    }
  }

  lemma {:induction false} RepricedReady(db: Db, symbol: string, price: real, tape: Tape, n: nat)
    requires Settled(db) && price >= 0.0
    ensures Ready(RepricedDb(db, symbol, price, tape, n))
  {
    RepricedFacts(db, symbol, price, tape, n);
    var db1 := RepricedDb(db, symbol, price, tape, n);
    forall o | o in db1.orders ensures OrderReady(db1, db1.orders[o]) {
      assert OrderReady(db, db.orders[o]);
    }
  }

  lemma {:induction false} PriceKeepsStores(start: Db, db: Db, symbol: string, price: real, tape: Tape, n: nat)
    requires Settled(db) && price >= 0.0 && TapeOk(db, tape, n) && StoresExact(start, db)
    ensures StoresExact(start, PriceOutcome(db, symbol, price, tape, n).0)
  {
    RepricingKeepsStores(start, db, symbol, price, tape, n);
    RepricedReady(db, symbol, price, tape, n);
    EvaluationKeepsStores(start, RepricedDb(db, symbol, price, tape, n), symbol, tape, n + 6);
  }

  lemma {:induction false} PublishKeepsStores(start: Db, db: Db, e: Event, env: Env)
    requires StoresExact(start, db)
    ensures StoresExact(start, Publish(db, e, env))
  {
    StoresUntouched(start, db, Publish(db, e, env));
  }

  lemma {:induction false} UnevaluatedKeepsStores(start: Db, db: Db, order: Order, price: real, tape: Tape, n: nat)
    requires StoresExact(start, db) && price > order.targetPrice
    ensures StoresExact(start, PlacedOutcome(db, order, price, tape, n).0)
  {
    StoresUntouched(start, db, PlacedOutcome(db, order, price, tape, n).0);
  }

  lemma {:induction false} EvaluatedKeepsStores(start: Db, db: Db, order: Order, price: real, tape: Tape, n: nat)
    requires var db1 := SetOrder(db, tape(n).freshId, order);
      Ready(db1) && order.symbol in db1.stocks && StoresExact(start, db1)
    requires price <= order.targetPrice && forall ids, m | m >= n :: Lists(tape(m).arrange(ids), ids)
    ensures StoresExact(start, PlacedOutcome(db, order, price, tape, n).0)
  {
    var o := tape(n).freshId;
    var db1 := SetOrder(db, o, order);
    EvaluationKeepsStores(start, db1, order.symbol, tape, n + 2);
    var (db2, m) := EvalOutcome(db1, order.symbol, tape, n + 2);
    PublishKeepsStores(start, db2,
      OrderEvent(OrderEventKind.Created, o, order, order.targetPrice, None, tape(m).now), tape(m));
  }

  lemma {:induction false} CreateKeepsStores(start: Db, db: Db, p: Proc, tape: Tape, n: nat)
    requires Settled(db) && p.Creation? && IsRequest(p) && TapeOk(db, tape, n) && StoresExact(start, db)
    ensures StoresExact(start, CreateOutcome(db, p, tape, n).0)
  {
    if !KeyTaken(db.orders, p.key) && Affordable(db, p) {
      var o, price := tape(n + 3).freshId, db.stocks[p.symbol].currentPrice;
      if price > p.targetPrice {
        UnevaluatedKeepsStores(start, db, NewOrder(p), price, tape, n + 3);
      } else {
        assert IdUnused(db, o);
        InsertKeepsReady(db, p, o);
        StoresUntouched(start, db, SetOrder(db, o, NewOrder(p)));
        EvaluatedKeepsStores(start, db, NewOrder(p), price, tape, n + 3);
      }
    }
  }

  lemma {:induction false} CancelKeepsStores(start: Db, db: Db, userId: Id, o: Id, tape: Tape, n: nat)
    requires StoresExact(start, db)
    ensures StoresExact(start, CancelOutcome(db, userId, o, tape, n).0)
  {
    StoresUntouched(start, db, CancelOutcome(db, userId, o, tape, n).0);
  }

  lemma {:induction false} RequestKeepsStores(start: Db, db: Db, p: Proc, tape: Tape, n: nat)
    requires Settled(db) && IsRequest(p) && TapeOk(db, tape, n) && StoresExact(start, db)
    ensures StoresExact(start, Outcome(db, p, tape, n).0)
  {
    match p {
      case PriceUpdate(symbol, price, _) => PriceKeepsStores(start, db, symbol, price, tape, n);
      case Creation(_, _, _, _, _, _) => CreateKeepsStores(start, db, p, tape, n);
      case Cancellation(userId, o, _) => CancelKeepsStores(start, db, userId, o, tape, n);
      case Depositing(userId, amount, _) => DepositKeepsStores(start, db, userId, amount, tape, n);
    }
  }

  lemma {:induction false} InlineRunsKeepStores(s0: Sys, requests: seq<Proc>, tape: Tape)
    requires Init(s0) && TapeOk(s0.db, tape, 0) && forall p | p in requests :: IsRequest(p)
    ensures StoresExact(s0.db, Serve(s0.db, requests, tape).0)
  {
    if requests == [] {
      forall u, y ensures PositionExact(s0.db, u, y) {
      }
    } else {
      var init, p := requests[..|requests| - 1], requests[|requests| - 1];
      assert p in requests;
      InlineRunsKeepStores(s0, init, tape);
      InlineRunsStaySettled(s0, init, tape);
      InlineKeepsDb(s0, init, tape);
      var (db1, n1) := Serve(s0.db, init, tape);
      RequestCompletes(db1, p, tape, n1);
      RequestKeepsStores(s0.db, db1, p, tape, n1);
    }
  }

  // --- The average buy price ---

  predicate Between(lo: real, hi: real, quantity: real, cost: real) {
    lo * quantity <= cost <= hi * quantity
  }

  lemma {:induction false} BetweenAdds(lo: real, hi: real, q: real, c: real, q': real, c': real)
    requires Between(lo, hi, q, c) && Between(lo, hi, q', c')
    ensures Between(lo, hi, q + q', c + c')
  {
    assert lo * (q + q') == lo * q + lo * q';
    assert hi * (q + q') == hi * q + hi * q';
  }

  lemma {:induction false} BetweenProducts(q: real, p: real, lo: real, hi: real)
    requires q >= 1.0 && lo <= p <= hi
    ensures Between(lo, hi, q, q * p)
  {
    assert q * p - lo * q == q * (p - lo);
    assert hi * q - q * p == q * (hi - p);
  }

  lemma {:induction false} CostBetween(trades: seq<Trade>, u: Id, y: string, lo: real, hi: real)
    requires forall t | t in trades && TradeIs(t, u, y) ::
      lo <= t.executedPrice <= hi && t.quantity >= 1.0 && t.totalCost == t.quantity * t.executedPrice
    ensures Between(lo, hi, SumBy(trades, QuantityIn(u, y)), SumBy(trades, CostIn(u, y)))
  {
    if trades != [] {
      var t := trades[|trades| - 1];
      var rest := trades[..|trades| - 1];
      CostBetween(rest, u, y, lo, hi);
      if TradeIs(t, u, y) {
        BetweenProducts(t.quantity, t.executedPrice, lo, hi);
        BetweenAdds(lo, hi, SumBy(rest, QuantityIn(u, y)), SumBy(rest, CostIn(u, y)), t.quantity, t.totalCost);
      }
    }
  }

  lemma {:induction false} FactorSign(x: real, q: real)
    requires q >= 1.0 && x * q <= 0.0
    ensures x <= 0.0
  {
  }

  lemma {:induction false} AverageBetween(c: real, q: real, lo: real, hi: real)
    requires q >= 1.0 && Between(lo, hi, q, c)
    ensures lo <= c / q <= hi && c / q * q == c
  {
    var a := c / q;
    assert a * q == c;
    assert (lo - a) * q == lo * q - c;
    assert (a - hi) * q == c - hi * q;
    FactorSign(lo - a, q);
    FactorSign(a - hi, q);
  }

  // After an inline run a position's average times its quantity is its cost, and the average lies
  // between the lowest and the highest price paid.
  lemma {:induction false} AverageIsBetweenPricesPaid(s0: Sys, requests: seq<Proc>, tape: Tape, u: Id, y: string,
      lo: real, hi: real)
    requires Init(s0) && TapeOk(s0.db, tape, 0) && forall p | p in requests :: IsRequest(p)
    requires (u, y) in Serve(s0.db, requests, tape).0.positions
    requires forall t | t in Serve(s0.db, requests, tape).0.trades && TradeIs(t, u, y) :: lo <= t.executedPrice <= hi
    ensures var p := Serve(s0.db, requests, tape).0.positions[(u, y)];
      p.avgBuyPrice * p.quantityOwned == p.totalInvested && lo <= p.avgBuyPrice <= hi
  {
    var db := Serve(s0.db, requests, tape).0;
    InlineRunsKeepStores(s0, requests, tape);
    assert PositionExact(db, u, y);
    forall t | t in db.trades && TradeIs(t, u, y)
      ensures t.quantity >= 1.0 && t.totalCost == t.quantity * t.executedPrice
    {
      InlineTradesPriced(s0, requests, tape, t);
    }
    CostBetween(db.trades, u, y, lo, hi);
    var p := db.positions[(u, y)];
    AverageBetween(p.totalInvested, p.quantityOwned, lo, hi);
  }

  // Carried over from the interleaved system, of which the inline run is one schedule.
  lemma {:induction false} InlineTradesPriced(s0: Sys, requests: seq<Proc>, tape: Tape, t: Trade)
    requires Init(s0) && TapeOk(s0.db, tape, 0) && forall p | p in requests :: IsRequest(p)
    requires t in Serve(s0.db, requests, tape).0.trades
    ensures t.quantity >= 1.0 && t.totalCost == t.quantity * t.executedPrice
  {
    var s := InlineRunsAreRuns(s0, requests, tape);
    var acts: seq<Action> :| Run(s0, acts) == s;
    OrderSafety.TradesRespectTargets(s0, acts, t);
    Ownership.RunKeepsInv(s0, acts);
    assert Ownership.OrderOk(s.db, t.buyOrderId);
  }
}
