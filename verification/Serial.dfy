/**
 Inline runs, request by request: the state every request leaves behind, and what one evaluation
 decides.  Evaluation is a left-to-right fold over the listed orders in which each order either is
 paid from what its owner has left or fails.
 */
module Serial {
  import opened Wrappers
  import opened AnalyticsEvents
  import opened Domain
  import opened Protocol
  import opened Inline
  import opened InlineOutcome

  // What holds at every point of an inline run at which no execution is under way.
  predicate OrderReady(db: Db, order: Order) {
    && order.symbol in db.stocks && order.userId in db.users
    && order.quantity >= 1.0 && order.targetPrice >= 0.01
    && order.status !in {OrderStatus.Triggered, Executing} && order.reason != PriceMovedAboveTarget
  }

  ghost predicate Ready(db: Db) {
    && (forall o | o in db.orders :: OrderReady(db, db.orders[o]))
    && (forall o | o !in db.orders || db.orders[o].status == Pending :: TradesOf(db.trades, o) == [])
    && (forall y | y in db.stocks :: db.stocks[y].currentPrice >= 0.0)
  }

  predicate Waiting(db: Db, order: Order)
    requires order.symbol in db.stocks
  {
    order.status == Pending ==> order.targetPrice < db.stocks[order.symbol].currentPrice
  }

  // Between requests nothing is TRIGGERED or EXECUTING, every PENDING order waits for a price it has
  // not seen, and no order was ever returned because the price had moved.
  ghost predicate Settled(db: Db) {
    Ready(db) && forall o | o in db.orders :: Waiting(db, db.orders[o])
  }

  // --- One listed order ---

  function DoneOrder(order: Order, price: real, at: int): Order {
    order.(status := Completed, executedPrice := Some(price), executedAt := Some(at), reason := ExecutedSuccessfully)
  }

  function FailedOrder(order: Order): Order {
    order.(status := OrderStatus.Failed, reason := InsufficientFunds)
  }

  // Triggering and executing a PENDING order whose target covers the price: paid and completed, or
  // failed without a trace in any other store.
  predicate Decided(db: Db, db': Db, o: Id, price: real, at: int, doneAt: int, rowId: Id)
    requires o in db.orders
  {
    var order := db.orders[o];
    && db'.stocks == db.stocks && db'.priceEvents == db.priceEvents
    && if CanPay(db, order.userId, Cost(order, price)) then
         && db'.users == Credited(db.users, order.userId, -Cost(order, price))
         && db'.orders == db.orders[o := DoneOrder(order, price, doneAt)]
         && db'.trades == db.trades + [TradeFor(o, order, price, at)]
         && db'.ledger == db.ledger + [DebitRowFor(o, order, price, db'.users[order.userId].walletBalance, rowId)]
         && db'.positions == db.positions[(order.userId, order.symbol) := PositionAfter(db.positions, order, price)]
       else
         && db'.orders == db.orders[o := FailedOrder(order)]
         && db'.users == db.users && db'.trades == db.trades && db'.ledger == db.ledger && db'.positions == db.positions
  }

  // The stores a paid execution leaves, in the terms of the claimed order.
  lemma {:induction false} PaidStores(db: Db, o: Id, order: Order, price: real, tape: Tape, n: nat)
    requires CanPay(db, order.userId, Cost(order, price))
    ensures var after := PaidOutcome(db, o, order, price, tape, n);
      && after.stocks == db.stocks && after.priceEvents == db.priceEvents
      && after.users == Credited(db.users, order.userId, -Cost(order, price))
      && after.trades == db.trades + [TradeFor(o, order, price, tape(n + 6).now)]
      && after.ledger == db.ledger
           + [DebitRowFor(o, order, price, after.users[order.userId].walletBalance, tape(n + 4).freshId)]
      && after.positions == db.positions[(order.userId, order.symbol) := PositionAfter(db.positions, order, price)]
      && after.orders == db.orders[o := DoneOrder(order, price, tape(n + 9).now)]
  {
  }

  lemma {:induction false} PaidDecides(db: Db, claimed: Db, o: Id, order: Order, price: real, tape: Tape, n: nat)
    requires o in db.orders && order == db.orders[o].(status := Executing)
    requires CanPay(db, order.userId, Cost(order, price))
    requires claimed == db.(orders := db.orders[o := order], events := claimed.events)
    ensures Decided(db, PaidOutcome(claimed, o, order, price, tape, n), o, price,
                    tape(n + 6).now, tape(n + 9).now, tape(n + 4).freshId)
  {
    var was := db.orders[o];
    var after := PaidOutcome(claimed, o, order, price, tape, n);
    assert TradeFor(o, order, price, tape(n + 6).now) == TradeFor(o, was, price, tape(n + 6).now);
    assert PositionAfter(db.positions, order, price) == PositionAfter(db.positions, was, price);
    assert after.orders == db.orders[o := DoneOrder(was, price, tape(n + 9).now)];
    PaidStores(claimed, o, order, price, tape, n);
  }

  lemma {:induction false} TriggeredExecution(db: Db, o: Id, tape: Tape, n: nat)
    requires o in db.orders && db.orders[o].status == Pending && TradesOf(db.trades, o) == []
    requires db.orders[o].symbol in db.stocks && db.stocks[db.orders[o].symbol].currentPrice <= db.orders[o].targetPrice
    ensures var (db', n') := ExecOutcome(TriggerOutcome(db, o, tape, n), o, tape, n + 3);
      Decided(db, db', o, db.stocks[db.orders[o].symbol].currentPrice, tape(n + 9).now, tape(n + 12).now,
          tape(n + 7).freshId)
      && n' > n
  {
    var was := db.orders[o];
    var price := db.stocks[was.symbol].currentPrice;
    var triggered := TriggerOutcome(db, o, tape, n);
    var order := was.(status := Executing);
    assert triggered.orders[o].(status := Executing) == order;
    var claimed := SetOrder(triggered, o, order);
    assert claimed.orders == db.orders[o := order];
    assert claimed == db.(orders := db.orders[o := order], events := claimed.events);
    assert Cost(order, price) == Cost(was, price);
    if CanPay(db, was.userId, Cost(was, price)) {
      PaidDecides(db, claimed, o, order, price, tape, n + 3);
    } else {
      var failed := claimed.orders[o := order.(status := OrderStatus.Failed, reason := InsufficientFunds)];
      assert failed == db.orders[o := FailedOrder(was)];
    }
  }

  // --- Evaluation is a greedy fold ---

  // The wallets after an order has been paid or turned away.
  function AfterTurn(users: map<Id, User>, order: Order, price: real): map<Id, User> {
    if CanAfford(users, order.userId, Cost(order, price)) then Credited(users, order.userId, -Cost(order, price))
        else users
  }

  // The wallets left, and the verdict on each listed order, when orders are served left to right.
  function Greedy(users: map<Id, User>, orders: map<Id, Order>, todo: seq<Id>, price: real): (map<Id, User>,
      map<Id, OrderStatus>)
    requires forall o | o in todo :: o in orders
  {
    if todo == [] then (users, map[])
    else
      var order := orders[todo[0]];
      var (left, verdicts) := Greedy(AfterTurn(users, order, price), orders, todo[1..], price);
      (left, verdicts[todo[0] := if CanAfford(users, order.userId, Cost(order, price)) then Completed
          else OrderStatus.Failed])
  }

  lemma {:induction false} GreedyIgnoresOthers(users: map<Id, User>, a: map<Id, Order>, b: map<Id, Order>,
      todo: seq<Id>, price: real)
    requires forall o | o in todo :: o in a && o in b && a[o] == b[o]
    ensures Greedy(users, a, todo, price) == Greedy(users, b, todo, price)
    decreases |todo|
  {
    if todo != [] {
      var order := a[todo[0]];
      var rest := AfterTurn(users, order, price);
      GreedyIgnoresOthers(rest, a, b, todo[1..], price);
    }
  }

  lemma {:induction false} GreedyVerdicts(users: map<Id, User>, orders: map<Id, Order>, todo: seq<Id>, price: real)
    requires forall o | o in todo :: o in orders
    ensures var (left, verdicts) := Greedy(users, orders, todo, price);
      && left.Keys == users.Keys
      && (forall o :: o in verdicts <==> o in todo)
      && (forall o | o in verdicts :: verdicts[o] in {Completed, OrderStatus.Failed})
      && (forall u | u in users :: left[u].active == users[u].active)
    decreases |todo|
  {
    if todo != [] {
      var order := orders[todo[0]];
      var rest := AfterTurn(users, order, price);
      GreedyVerdicts(rest, orders, todo[1..], price);
    }
  }

  lemma {:induction false} CostNonNegative(order: Order, price: real)
    requires order.quantity >= 1.0 && price >= 0.0
    ensures Cost(order, price) >= 0.0
  {
  }

  lemma {:induction false} GreedyOnlySpends(users: map<Id, User>, orders: map<Id, Order>, todo: seq<Id>, price: real)
    requires price >= 0.0 && forall o | o in todo :: o in orders && orders[o].quantity >= 1.0
    ensures var (left, _) := Greedy(users, orders, todo, price);
      left.Keys == users.Keys && forall u | u in users :: left[u].walletBalance <= users[u].walletBalance
    decreases |todo|
  {
    if todo != [] {
      var order := orders[todo[0]];
      CostNonNegative(order, price);
      var rest := AfterTurn(users, order, price);
      GreedyOnlySpends(rest, orders, todo[1..], price);
    }
  }

  // An order of an active owner is turned away only if the owner cannot pay it even with all that is
  // left when the evaluation is over.
  lemma {:induction false} RejectedOrdersCostMore(users: map<Id, User>, orders: map<Id, Order>, todo: seq<Id>,
      price: real, o: Id)
    requires price >= 0.0 && forall x | x in todo :: x in orders && orders[x].quantity >= 1.0
    requires forall i, j | 0 <= i < j < |todo| :: todo[i] != todo[j]
    requires o in todo && orders[o].userId in users && users[orders[o].userId].active
    ensures var (left, verdicts) := Greedy(users, orders, todo, price);
      && o in verdicts && orders[o].userId in left
      && (verdicts[o] == OrderStatus.Failed ==> left[orders[o].userId].walletBalance < Cost(orders[o], price))
    decreases |todo|
  {
    var order := orders[todo[0]];
    var rest := AfterTurn(users, order, price);
    GreedyOnlySpends(rest, orders, todo[1..], price);
    GreedyVerdicts(rest, orders, todo[1..], price);
    if todo[0] != o {
      assert o in todo[1..];
      RejectedOrdersCostMore(rest, orders, todo[1..], price, o);
    } else {
      CostNonNegative(order, price);
    }
  }

  // --- The evaluation loop refines the fold ---

  predicate Listed(db: Db, symbol: string, todo: seq<Id>)
    requires symbol in db.stocks
  {
    && (forall o | o in todo :: o in db.orders && Eligible(db.orders[o], symbol, db.stocks[symbol].currentPrice))
    && (forall i, j | 0 <= i < j < |todo| :: todo[i] != todo[j])
  }

  // Exactly the listed orders change, each to the fold's verdict; wallets end as the fold leaves them.
  predicate ServedGreedily(db: Db, db': Db, todo: seq<Id>, price: real)
    requires forall o | o in todo :: o in db.orders
  {
    var (left, verdicts) := Greedy(db.users, db.orders, todo, price);
    && db'.users == left && db'.stocks == db.stocks && db'.orders.Keys == db.orders.Keys
    && (forall o | o in db.orders && o !in todo :: db'.orders[o] == db.orders[o])
    && (forall o | o in todo :: o in verdicts && o in db'.orders && db'.orders[o].status == verdicts[o]
                                && db'.orders[o].reason in {ExecutedSuccessfully, InsufficientFunds}
                                && SameTerms(db'.orders[o], db.orders[o]))
  }

  lemma {:induction false} DecidedKeepsReady(db: Db, db': Db, o: Id, price: real, at: int, doneAt: int, rowId: Id)
    requires Ready(db) && o in db.orders && db.orders[o].status == Pending
    requires Decided(db, db', o, price, at, doneAt, rowId)
    ensures Ready(db')
  {
    forall x | x !in db'.orders || db'.orders[x].status == Pending ensures TradesOf(db'.trades, x) == [] {
      TradesOfAppend(db.trades, TradeFor(o, db.orders[o], price, at), x);
      assert x != o;
    }
    forall x | x in db'.orders ensures OrderReady(db', db'.orders[x]) {
      assert OrderReady(db, db.orders[x]);
    }
  }

  // The first order served, as the fold serves it.
  predicate FirstServed(db: Db, db1: Db, o: Id, price: real)
    requires o in db.orders
  {
    var order := db.orders[o];
    var paid := CanAfford(db.users, order.userId, Cost(order, price));
    && db1.stocks == db.stocks && db1.orders.Keys == db.orders.Keys
    && db1.users == AfterTurn(db.users, order, price)
    && db1.orders[o].status == (if paid then Completed else OrderStatus.Failed)
    && db1.orders[o].reason in {ExecutedSuccessfully, InsufficientFunds}
    && SameTerms(db1.orders[o], order)
    && (forall x | x in db.orders && x != o :: db1.orders[x] == db.orders[x])
  }

  lemma {:induction false} DecidedServes(db: Db, db': Db, o: Id, price: real, at: int, doneAt: int, rowId: Id)
    requires o in db.orders && Decided(db, db', o, price, at, doneAt, rowId)
    ensures FirstServed(db, db', o, price)
  {
  }

  lemma {:induction false} ServedCons(db: Db, db1: Db, db2: Db, todo: seq<Id>, price: real)
    requires todo != [] && forall o | o in todo :: o in db.orders && o in db1.orders
    requires todo[0] !in todo[1..] && FirstServed(db, db1, todo[0], price)
    requires ServedGreedily(db1, db2, todo[1..], price)
    ensures ServedGreedily(db, db2, todo, price)
  {
    var rest := todo[1..];
    GreedyIgnoresOthers(db1.users, db1.orders, db.orders, rest, price);
    GreedyVerdicts(db1.users, db1.orders, rest, price);
    assert db2.orders[todo[0]] == db1.orders[todo[0]];
    forall o | o in todo ensures o == todo[0] || o in rest {
    }
  }

  lemma {:induction false} ListedRest(db: Db, db1: Db, symbol: string, todo: seq<Id>)
    requires symbol in db.stocks && Listed(db, symbol, todo) && todo != []
    requires FirstServed(db, db1, todo[0], db.stocks[symbol].currentPrice)
    ensures todo[0] !in todo[1..] && Listed(db1, symbol, todo[1..])
  {
    forall o | o in todo[1..] ensures o != todo[0] && o in db1.orders && db1.orders[o] == db.orders[o] {
      var i :| 0 <= i < |todo[1..]| && todo[1..][i] == o;
      assert todo[0] != todo[i + 1];
    }
  }

  lemma {:induction false} ScanIsGreedy(db: Db, symbol: string, todo: seq<Id>, tape: Tape, n: nat)
    requires Ready(db) && symbol in db.stocks && Listed(db, symbol, todo)
    ensures var (db', n') := ScanOutcome(db, todo, tape, n);
      ServedGreedily(db, db', todo, db.stocks[symbol].currentPrice) && Ready(db') && n' > n
    decreases |todo|
  {
    if todo != [] {
      var o, rest := todo[0], todo[1..];
      var price := db.stocks[symbol].currentPrice;
      assert Eligible(db.orders[o], symbol, price);
      TriggeredExecution(db, o, tape, n);
      var (db1, n1) := ExecOutcome(TriggerOutcome(db, o, tape, n), o, tape, n + 3);
      assert Ready(db1) && FirstServed(db, db1, o, price) by {
        DecidedKeepsReady(db, db1, o, price, tape(n + 9).now, tape(n + 12).now, tape(n + 7).freshId);
        DecidedServes(db, db1, o, price, tape(n + 9).now, tape(n + 12).now, tape(n + 7).freshId);
      }
      ListedRest(db, db1, symbol, todo);
      ScanIsGreedy(db1, symbol, rest, tape, n1);
      ServedCons(db, db1, ScanOutcome(db1, rest, tape, n1).0, todo, price);
    }
  }

  // One inline evaluation: the fold over the orders the query lists, in the order it lists them.
  lemma {:induction false} EvaluationIsGreedy(db: Db, symbol: string, tape: Tape, n: nat)
    requires Ready(db) && symbol in db.stocks
    requires forall ids, m | m >= n :: Lists(tape(m).arrange(ids), ids)
    ensures var price := db.stocks[symbol].currentPrice;
      var ids := EligibleIds(db.orders, symbol, price);
      var listing := tape(n + 1).arrange(ids);
      var (db', n') := EvalOutcome(db, symbol, tape, n);
      && Lists(listing, ids) && ServedGreedily(db, db', listing, price) && Ready(db') && n' > n
  {
    var price := db.stocks[symbol].currentPrice;
    var ids := EligibleIds(db.orders, symbol, price);
    var listing := tape(n + 1).arrange(ids);
    assert Lists(listing, ids);
    assert Listed(db, symbol, listing);
    ScanIsGreedy(db, symbol, listing, tape, n + 2);
  }

  // What an evaluation means for each order: left alone if not eligible; otherwise bought or failed,
  // and failed, for an active owner, only when dearer than everything the owner has left at the end.
  lemma {:induction false} EvaluationVerdict(db: Db, symbol: string, tape: Tape, n: nat, o: Id)
    requires Ready(db) && symbol in db.stocks && o in db.orders
    requires forall ids, m | m >= n :: Lists(tape(m).arrange(ids), ids)
    ensures var price := db.stocks[symbol].currentPrice;
      var db' := EvalOutcome(db, symbol, tape, n).0;
      var owner := db.orders[o].userId;
      && o in db'.orders && owner in db.users && owner in db'.users
      && (!Eligible(db.orders[o], symbol, price) ==> db'.orders[o] == db.orders[o])
      && (Eligible(db.orders[o], symbol, price) ==> db'.orders[o].status in {Completed, OrderStatus.Failed})
      && (Eligible(db.orders[o], symbol, price) && db'.orders[o].status == OrderStatus.Failed && db.users[owner].active
          ==> db'.users[owner].walletBalance < Cost(db.orders[o], price))
  {
    var price := db.stocks[symbol].currentPrice;
    var ids := EligibleIds(db.orders, symbol, price);
    var listing := tape(n + 1).arrange(ids);
    EvaluationIsGreedy(db, symbol, tape, n);
    GreedyVerdicts(db.users, db.orders, listing, price);
    assert OrderReady(db, db.orders[o]);
    assert forall x | x in listing :: x in ids && OrderReady(db, db.orders[x]);
    assert o in listing <==> o in ids;
    if o in ids && db.users[db.orders[o].userId].active {
      RejectedOrdersCostMore(db.users, db.orders, listing, price, o);
    }
  }

  // --- Every request leaves the system settled ---

  // After evaluating a symbol, its PENDING orders wait; those of other symbols are as they were.
  lemma {:induction false} EvaluationSettles(db: Db, symbol: string, tape: Tape, n: nat)
    requires Ready(db) && symbol in db.stocks
    requires forall ids, m | m >= n :: Lists(tape(m).arrange(ids), ids)
    requires forall o | o in db.orders && db.orders[o].symbol != symbol :: Waiting(db, db.orders[o])
    ensures Settled(EvalOutcome(db, symbol, tape, n).0) && EvalOutcome(db, symbol, tape, n).1 > n
  {
    EvaluationIsGreedy(db, symbol, tape, n);
    var price := db.stocks[symbol].currentPrice;
    var ids := EligibleIds(db.orders, symbol, price);
    var listing := tape(n + 1).arrange(ids);
    var db' := EvalOutcome(db, symbol, tape, n).0;
    GreedyVerdicts(db.users, db.orders, listing, price);
    forall o | o in db'.orders ensures OrderReady(db', db'.orders[o]) && Waiting(db', db'.orders[o]) {
      if o !in listing {
        assert o !in ids;
        assert db'.orders[o] == db.orders[o];
      }
    }
  }

  lemma {:induction false} PublishKeepsSettled(db: Db, e: Event, env: Env)
    requires Settled(db)
    ensures Settled(Publish(db, e, env))
  {
    var db' := Publish(db, e, env);
    forall o | o in db'.orders ensures OrderReady(db', db'.orders[o]) && Waiting(db', db'.orders[o]) {
      assert OrderReady(db, db.orders[o]) && Waiting(db, db.orders[o]);
    }
  }

  lemma {:induction false} RepricedFacts(db: Db, symbol: string, price: real, tape: Tape, n: nat)
    ensures var db1 := RepricedDb(db, symbol, price, tape, n);
      && db1.orders == db.orders && db1.users == db.users && db1.trades == db.trades
      && db1.ledger == db.ledger && db1.positions == db.positions
      && db1.stocks.Keys == db.stocks.Keys + {symbol} && db1.stocks[symbol].currentPrice == price
      && (forall y | y in db.stocks && y != symbol :: db1.stocks[y] == db.stocks[y])
      && (exists id ::
            db1.priceEvents == db.priceEvents + [PriceEvent(id, symbol, OldPrice(Lookup(db.stocks, symbol)), price)])
  {
    assert RepricedDb(db, symbol, price, tape, n).priceEvents
        == db.priceEvents + [PriceEvent(tape(n + 1).freshId, symbol, OldPrice(Lookup(db.stocks, symbol)), price)];
  }

  lemma {:induction false} PriceRequestSettles(db: Db, symbol: string, price: real, tape: Tape, n: nat)
    requires Settled(db) && price >= 0.0
    requires forall ids, m | m >= n :: Lists(tape(m).arrange(ids), ids)
    ensures Settled(PriceOutcome(db, symbol, price, tape, n).0)
  {
    RepricedFacts(db, symbol, price, tape, n);
    var db1 := RepricedDb(db, symbol, price, tape, n);
    forall o | o in db1.orders
      ensures OrderReady(db1, db1.orders[o])
      ensures db1.orders[o].symbol != symbol ==> Waiting(db1, db1.orders[o])
    {
      assert OrderReady(db, db.orders[o]) && Waiting(db, db.orders[o]);
    }
    EvaluationSettles(db1, symbol, tape, n + 6);
  }

  lemma {:induction false} InsertKeepsReady(db: Db, p: Proc, o: Id)
    requires Settled(db) && p.Creation? && IsRequest(p) && Affordable(db, p) && o !in db.orders
    ensures var db1 := SetOrder(db, o, NewOrder(p));
      Ready(db1) && forall x | x in db1.orders && x != o :: Waiting(db1, db1.orders[x])
  {
    var db1 := SetOrder(db, o, NewOrder(p));
    forall x | x in db1.orders ensures OrderReady(db1, db1.orders[x]) && (x != o ==> Waiting(db1, db1.orders[x])) {
      assert x in db.orders ==> OrderReady(db, db.orders[x]) && Waiting(db, db.orders[x]);
    }
  }

  lemma {:induction false} CreateRequestSettles(db: Db, p: Proc, tape: Tape, n: nat)
    requires Settled(db) && p.Creation? && IsRequest(p) && TapeOk(db, tape, n)
    ensures Settled(CreateOutcome(db, p, tape, n).0)
  {
    if !KeyTaken(db.orders, p.key) && Affordable(db, p) {
      var o := tape(n + 3).freshId;
      assert IdUnused(db, o);
      var db1 := SetOrder(db, o, NewOrder(p));
      InsertKeepsReady(db, p, o);
      var (db2, m) := if db.stocks[p.symbol].currentPrice <= p.targetPrice
                      then EvalOutcome(db1, p.symbol, tape, n + 5) else (db1, n + 5);
      assert Settled(db2) by {
        if db.stocks[p.symbol].currentPrice <= p.targetPrice {
          EvaluationSettles(db1, p.symbol, tape, n + 5);
        }
      }
      PublishKeepsSettled(db2, OrderEvent(OrderEventKind.Created, o, NewOrder(p), p.targetPrice, None, tape(m).now),
          tape(m));
    }
  }

  lemma {:induction false} CancelRequestSettles(db: Db, userId: Id, o: Id, tape: Tape, n: nat)
    requires Settled(db)
    ensures Settled(CancelOutcome(db, userId, o, tape, n).0)
  {
    var db' := CancelOutcome(db, userId, o, tape, n).0;
    forall x | x in db'.orders ensures OrderReady(db', db'.orders[x]) && Waiting(db', db'.orders[x]) {
      assert OrderReady(db, db.orders[x]) && Waiting(db, db.orders[x]);
    }
  }

  lemma {:induction false} DepositRequestSettles(db: Db, userId: Id, amount: real, tape: Tape, n: nat)
    requires Settled(db)
    ensures Settled(DepositOutcome(db, userId, amount, tape, n).0)
  {
    var db' := DepositOutcome(db, userId, amount, tape, n).0;
    forall x | x in db'.orders ensures OrderReady(db', db'.orders[x]) && Waiting(db', db'.orders[x]) {
      assert OrderReady(db, db.orders[x]) && Waiting(db, db.orders[x]);
    }
  }

  lemma {:induction false} RequestSettles(db: Db, p: Proc, tape: Tape, n: nat)
    requires Settled(db) && IsRequest(p) && TapeOk(db, tape, n)
    ensures Settled(Outcome(db, p, tape, n).0)
  {
    match p {
      case PriceUpdate(symbol, price, _) => PriceRequestSettles(db, symbol, price, tape, n);
      case Creation(_, _, _, _, _, _) => CreateRequestSettles(db, p, tape, n);
      case Cancellation(userId, o, _) => CancelRequestSettles(db, userId, o, tape, n);
      case Depositing(userId, amount, _) => DepositRequestSettles(db, userId, amount, tape, n);
    }
  }

  lemma {:induction false} InlineRunsStaySettled(s0: Sys, requests: seq<Proc>, tape: Tape)
    requires Init(s0) && TapeOk(s0.db, tape, 0) && forall p | p in requests :: IsRequest(p)
    ensures Settled(Serve(s0.db, requests, tape).0)
  {
    if requests != [] {
      var init, p := requests[..|requests| - 1], requests[|requests| - 1];
      assert p in requests;
      InlineRunsStaySettled(s0, init, tape);
      InlineKeepsDb(s0, init, tape);
      var (db1, n1) := Serve(s0.db, init, tape);
      RequestCompletes(db1, p, tape, n1);
      RequestSettles(db1, p, tape, n1);
    }
  }
}
