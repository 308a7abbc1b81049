/**
 Schedules that start from the first request and lead where the services do less than one might expect:
 a repeat refused or answered with somebody else's order, an order stranded after its trade, a lost position
 update, missed triggers, and a trigger published twice.  A tape supplies the answers of the outside world, as
 in the inline runs.
 */
module Schedules {
  import opened Wrappers
  import opened AnalyticsEvents
  import opened Domain
  import opened Protocol
  import opened Livelock
  import opened Inline
  import opened PositionSums
  import opened Sums
  import opened Races
  import opened Books
  import OrderSafety

  // --- Single steps ---

  // One step of process i, on the next answer of the tape.
  lemma {:induction false} Moves(s: Sys, i: nat, tape: Tape, n: nat) returns (s': Sys)
    requires i < |s.procs| && TapeOk(s.db, tape, n)
    ensures var (db', p', more) := ProcStep(s.db, s.procs[i], tape(n)); s' == Sys(db', s.procs[i := p'] + more)
    ensures Follows(tape, s, s') && TapeOk(s'.db, tape, n + 1)
  {
    FirstStep(s, i, tape, n);
    StepKeepsTape(s.db, s.procs[i], tape, n);
    var (db', p', more) := ProcStep(s.db, s.procs[i], tape(n));
    s' := Sys(db', s.procs[i := p'] + more);
  }

  // One step of the process that arrived last.
  lemma {:induction false} LastMoves(db: Db, procs: seq<Proc>, p: Proc, tape: Tape, n: nat)
    requires TapeOk(db, tape, n)
    ensures var (db', p', more) := ProcStep(db, p, tape(n));
      Follows(tape, Sys(db, procs + [p]), Sys(db', procs + [p'] + more)) && TapeOk(db', tape, n + 1)
  {
    var (db', p', more) := ProcStep(db, p, tape(n));
    var s' := Moves(Sys(db, procs + [p]), |procs|, tape, n);
    assert (procs + [p])[|procs| := p'] == procs + [p'];
  }

  // The same, of a step that queues nothing.
  lemma {:induction false} LastGoes(db: Db, procs: seq<Proc>, p: Proc, tape: Tape, n: nat) returns (db': Db, p': Proc)
    requires TapeOk(db, tape, n) && ProcStep(db, p, tape(n)).2 == []
    ensures (db', p', []) == ProcStep(db, p, tape(n)) && TapeOk(db', tape, n + 1)
    ensures Follows(tape, Sys(db, procs + [p]), Sys(db', procs + [p']))
  {
    LastMoves(db, procs, p, tape, n);
    db', p' := ProcStep(db, p, tape(n)).0, ProcStep(db, p, tape(n)).1;
    assert procs + [p'] + [] == procs + [p'];
  }

  // --- A request that is accepted ---

  ghost predicate Accepts(db: Db, p: Proc) {
    && p.Creation? && p.create == CreateStarted && !KeyTaken(db.orders, p.key) && CanStart(p)
    && p.symbol in db.stocks && db.stocks[p.symbol].active
    && p.userId in db.users && db.users[p.userId].walletBalance >= p.quantity * p.targetPrice
  }

  lemma {:induction false} LooksUpKey(db: Db, procs: seq<Proc>, p: Proc, tape: Tape, n: nat)
    requires Accepts(db, p) && TapeOk(db, tape, n)
    ensures Follows(tape, Sys(db, procs), Sys(db, procs + [p.(create := KeyChecked)])) && TapeOk(db, tape, n + 1)
  {
    FollowsStep(tape, Sys(db, procs), Spawn(p));
    var _, _ := LastGoes(db, procs, p, tape, n);
    FollowsTransitive(tape, Sys(db, procs), Sys(db, procs + [p]), Sys(db, procs + [p.(create := KeyChecked)]));
  }

  lemma {:induction false} ReadsStockAndUser(db: Db, procs: seq<Proc>, p: Proc, tape: Tape, n: nat)
    requires p.Creation? && p.create == KeyChecked && TapeOk(db, tape, n)
    requires p.symbol in db.stocks && db.stocks[p.symbol].active
    requires p.userId in db.users && db.users[p.userId].walletBalance >= p.quantity * p.targetPrice
    ensures var q := p.(create := UserRead(db.stocks[p.symbol].currentPrice));
      Follows(tape, Sys(db, procs + [p]), Sys(db, procs + [q])) && TapeOk(db, tape, n + 2)
  {
    var price := db.stocks[p.symbol].currentPrice;
    var p1, p2 := p.(create := StockRead(price)), p.(create := UserRead(price));
    var _, _ := LastGoes(db, procs, p, tape, n);
    var _, _ := LastGoes(db, procs, p1, tape, n + 1);
    FollowsTransitive(tape, Sys(db, procs + [p]), Sys(db, procs + [p1]), Sys(db, procs + [p2]));
  }

  lemma {:induction false} ReadsUser(db: Db, procs: seq<Proc>, p: Proc, tape: Tape, n: nat)
    requires Accepts(db, p) && TapeOk(db, tape, n)
    ensures Follows(tape, Sys(db, procs), Sys(db, procs + [p.(create := UserRead(db.stocks[p.symbol].currentPrice))]))
    ensures TapeOk(db, tape, n + 3)
  {
    var price := db.stocks[p.symbol].currentPrice;
    var p1, p3 := p.(create := KeyChecked), p.(create := UserRead(price));
    LooksUpKey(db, procs, p, tape, n);
    ReadsStockAndUser(db, procs, p1, tape, n + 1);
    assert p1.(create := UserRead(price)) == p3;
    FollowsTransitive(tape, Sys(db, procs), Sys(db, procs + [p1]), Sys(db, procs + [p3]));
  }

  lemma {:induction false} Inserting(db: Db, procs: seq<Proc>, p: Proc, price: real, tape: Tape, n: nat)
    requires p.Creation? && p.create == UserRead(price) && !KeyTaken(db.orders, p.key) && TapeOk(db, tape, n)
    ensures var o := tape(n).freshId; var db' := SetOrder(db, o, NewOrder(p));
      && o !in db.orders && TapeOk(db', tape, n + 1)
      && Follows(tape, Sys(db, procs + [p]), Sys(db', procs + [p.(create := Inserted(o, price))]))
  {
    var o := tape(n).freshId;
    assert IdUnused(db, o);
    var _, _ := LastGoes(db, procs, p, tape, n);
  }

  // The request has inserted its order and goes on to queue an evaluation.
  lemma {:induction false} Requests(db: Db, procs: seq<Proc>, p: Proc, tape: Tape, n: nat)
    requires Accepts(db, p) && TapeOk(db, tape, n)
    ensures var o, price := tape(n + 3).freshId, db.stocks[p.symbol].currentPrice;
      var db' := SetOrder(db, o, NewOrder(p));
      && o !in db.orders && TapeOk(db', tape, n + 4)
      && Follows(tape, Sys(db, procs), Sys(db', procs + [p.(create := Inserted(o, price))]))
  {
    var price := db.stocks[p.symbol].currentPrice;
    var q := p.(create := UserRead(price));
    ReadsUser(db, procs, p, tape, n);
    Inserting(db, procs, q, price, tape, n + 3);
    var o := tape(n + 3).freshId;
    assert NewOrder(q) == NewOrder(p) && q.(create := Inserted(o, price)) == p.(create := Inserted(o, price));
    FollowsTransitive(tape, Sys(db, procs), Sys(db, procs + [q]),
                      Sys(SetOrder(db, o, NewOrder(p)), procs + [p.(create := Inserted(o, price))]));
  }

  // --- Requests repeated with one key ---

  // Two requests with one key that have both looked it up and found nothing: the first inserts its order,
  // and the second is refused at its insert.
  lemma {:induction false} SecondRefused(db: Db, p: Proc, q: Proc, price: real, low: real, tape: Tape, n: nat)
    returns (s: Sys)
    requires p.Creation? && q.Creation? && p.create == UserRead(price) && q.create == UserRead(low)
    requires p.key.Some? && p.key == q.key && !KeyTaken(db.orders, p.key) && TapeOk(db, tape, n)
    ensures Follows(tape, Sys(db, [p, q]), s)
    ensures s == Sys(SetOrder(db, tape(n).freshId, NewOrder(p)),
                     [p.(create := Inserted(tape(n).freshId, price)), q.(create := CreateRefused)])
  {
    var o := tape(n).freshId;
    assert IdUnused(db, o);
    var s1 := Moves(Sys(db, [p, q]), 0, tape, n);
    assert s1 == Sys(SetOrder(db, o, NewOrder(p)), [p.(create := Inserted(o, price)), q]);
    assert s1.db.orders[o].idempotencyKey == q.key;
    s := Moves(s1, 1, tape, n + 1);
    FollowsTransitive(tape, Sys(db, [p, q]), s1, s);
  }

  // From every starting state: of two requests with one key that are both acceptable, whoever makes them,
  // the second can be refused, with the order of the first in the store.
  lemma {:induction false} LateRepeatReachable(s0: Sys, p: Proc, q: Proc, tape: Tape) returns (s: Sys, o: Id)
    requires Init(s0) && Accepts(s0.db, p) && Accepts(s0.db, q) && p.key.Some? && p.key == q.key
        && TapeOk(s0.db, tape, 0)
    ensures Follows(tape, s0, s)
    ensures s.db == SetOrder(s0.db, o, NewOrder(p))
    ensures |s.procs| == 2 && s.procs[1] == q.(create := CreateRefused)
  {
    var p1 := p.(create := UserRead(s0.db.stocks[p.symbol].currentPrice));
    var q1 := q.(create := UserRead(s0.db.stocks[q.symbol].currentPrice));
    assert s0 == Sys(s0.db, []);
    ReadsUser(s0.db, [], p, tape, 0);
    assert [] + [p1] == [p1];
    ReadsUser(s0.db, [p1], q, tape, 3);
    assert [p1] + [q1] == [p1, q1];
    o := tape(6).freshId;
    s := SecondRefused(s0.db, p1, q1, p1.create.currentPrice, q1.create.currentPrice, tape, 6);
    FollowsTransitive(tape, s0, Sys(s0.db, [p1]), Sys(s0.db, [p1, q1]));
    FollowsTransitive(tape, s0, Sys(s0.db, [p1, q1]), s);
    assert NewOrder(p1) == NewOrder(p);
  }

  // From every starting state: a request repeated with the key of an accepted one, by whatever user and
  // with whatever terms, can be answered with the order of the first.
  lemma {:induction false} ForeignReplyReachable(s0: Sys, p: Proc, q: Proc, tape: Tape) returns (s: Sys, o: Id)
    requires Init(s0) && Accepts(s0.db, p) && p.key.Some? && TapeOk(s0.db, tape, 0)
    requires q.Creation? && CanStart(q) && q.key == p.key
    ensures Follows(tape, s0, s)
    ensures s.db == SetOrder(s0.db, o, NewOrder(p))
    ensures |s.procs| == 2 && s.procs[1] == q.(create := CreatePc.Created(o))
  {
    o := tape(3).freshId;
    assert s0 == Sys(s0.db, []);
    Requests(s0.db, [], p, tape, 0);
    var p1 := p.(create := Inserted(o, s0.db.stocks[p.symbol].currentPrice));
    var s1 := Sys(SetOrder(s0.db, o, NewOrder(p)), [] + [p1]);
    FollowsStep(tape, s1, Spawn(q));
    var s2 := Sys(s1.db, [p1, q]);
    assert s1.db.orders[o].idempotencyKey == q.key;
    s := Moves(s2, 1, tape, 4);
    FollowsTransitive(tape, s0, s1, s2);
    FollowsTransitive(tape, s0, s2, s);
  }

  // --- The evaluation loop ---

  function Jobs(todo: seq<Id>): seq<Proc> { seq(|todo|, k requires 0 <= k < |todo| => Execution(todo[k], Queued)) }

  // Nothing but the status of the listed orders and the log has changed.
  ghost predicate OnlyTriggered(db: Db, db': Db, todo: seq<Id>) {
    && db'.users == db.users && db'.stocks == db.stocks && db'.trades == db.trades && db'.positions == db.positions
    && db'.orders.Keys == db.orders.Keys
    && (forall o | o in db.orders ::
          db'.orders[o] == if o in todo then db.orders[o].(status := OrderStatus.Triggered) else db.orders[o])
    && db.events <= db'.events
  }

  ghost predicate AllPending(db: Db, todo: seq<Id>) {
    && (forall o | o in todo :: o in db.orders && db.orders[o].status == Pending)
    && (forall i, j | 0 <= i < j < |todo| :: todo[i] != todo[j])
  }

  function TriggerEvent(o: Id, order: Order, at: int): Event {
    OrderEvent(OrderEventKind.Triggered, o, order, order.targetPrice, None, at)
  }

  // One turn: trigger, announce, enqueue.
  lemma {:induction false} TriggersOne(s: Sys, i: nat, y: string, todo: seq<Id>, tape: Tape, n: nat) returns (s': Sys)
    requires i < |s.procs| && s.procs[i] == Evaluation(y, Scanning(todo)) && TapeOk(s.db, tape, n)
    requires todo != [] && todo[0] in s.db.orders && s.db.orders[todo[0]].status == Pending
    ensures Follows(tape, s, s') && TapeOk(s'.db, tape, n + 3)
    ensures s'.procs == s.procs[i := Evaluation(y, Scanning(todo[1..]))] + [Execution(todo[0], Queued)]
    ensures OnlyTriggered(s.db, s'.db, [todo[0]])
    ensures tape(n + 1).delivered ==> TriggerEvent(todo[0], s.db.orders[todo[0]], tape(n + 1).now) in s'.db.events
  {
    var order := s.db.orders[todo[0]].(status := OrderStatus.Triggered);
    var s1 := Moves(s, i, tape, n);
    assert s1 == Sys(SetOrder(s.db, todo[0], order), s.procs[i := Evaluation(y, Announcing(order, todo))]);
    var s2 := Moves(s1, i, tape, n + 1);
    assert s2.procs == s.procs[i := Evaluation(y, Enqueuing(todo))];
    s' := Moves(s2, i, tape, n + 2);
    FollowsTransitive(tape, s, s1, s2);
    FollowsTransitive(tape, s, s2, s');
  }

  lemma {:induction false} TriggeredCons(db: Db, db1: Db, db2: Db, todo: seq<Id>)
    requires todo != [] && AllPending(db, todo) && OnlyTriggered(db, db1, [todo[0]])
    ensures AllPending(db1, todo[1..])
    ensures OnlyTriggered(db1, db2, todo[1..]) ==> OnlyTriggered(db, db2, todo)
  {
    assert forall k | 0 <= k < |todo[1..]| :: todo[1..][k] == todo[k + 1];
    assert todo[0] !in todo[1..];
    assert forall o :: o in todo <==> o == todo[0] || o in todo[1..];
  }

  lemma {:induction false} JobsCons(procs: seq<Proc>, i: nat, y: string, todo: seq<Id>)
    requires i < |procs| && todo != []
    ensures var p, q := Evaluation(y, Scanning(todo[1..])), Evaluation(y, Scanning([]));
      (procs[i := p] + [Execution(todo[0], Queued)])[i := q] + Jobs(todo[1..]) == procs[i := q] + Jobs(todo)
  {
    assert [Execution(todo[0], Queued)] + Jobs(todo[1..]) == Jobs(todo);
  }

  lemma {:induction false} TriggersAll(s: Sys, i: nat, y: string, todo: seq<Id>, tape: Tape, n: nat)
    returns (s': Sys, n': nat)
    requires i < |s.procs| && s.procs[i] == Evaluation(y, Scanning(todo)) && TapeOk(s.db, tape, n)
        && AllPending(s.db, todo)
    ensures Follows(tape, s, s') && TapeOk(s'.db, tape, n')
    ensures s'.procs == s.procs[i := Evaluation(y, Scanning([]))] + Jobs(todo)
    ensures OnlyTriggered(s.db, s'.db, todo)
    decreases |todo|
  {
    if todo == [] {
      FollowsRefl(tape, s);
      assert s.procs[i := Evaluation(y, Scanning([]))] + Jobs(todo) == s.procs;
      return s, n;
    }
    var s1 := TriggersOne(s, i, y, todo, tape, n);
    TriggeredCons(s.db, s1.db, s1.db, todo);
    s', n' := TriggersAll(s1, i, y, todo[1..], tape, n + 3);
    TriggeredCons(s.db, s1.db, s'.db, todo);
    JobsCons(s.procs, i, y, todo);
    FollowsTransitive(tape, s, s1, s');
  }

  // --- An execution up to its trade ---

  lemma {:induction false} ClaimsAndPrices(s: Sys, i: nat, o: Id, tape: Tape, n: nat) returns (s': Sys)
    requires i < |s.procs| && s.procs[i] == Execution(o, Queued) && TapeOk(s.db, tape, n)
    requires o in s.db.orders && s.db.orders[o].status == OrderStatus.Triggered && TradesOf(s.db.trades, o) == []
    requires s.db.orders[o].symbol in s.db.stocks
    ensures var order, price := s.db.orders[o].(status := Executing), s.db.stocks[s.db.orders[o].symbol].currentPrice;
      s' == Sys(SetOrder(s.db, o, order),
                s.procs[i := Execution(o, if price > order.targetPrice then Reverting(order)
                    else Priced(order, price))])
    ensures Follows(tape, s, s') && TapeOk(s'.db, tape, n + 3)
  {
    var order := s.db.orders[o].(status := Executing);
    var s1 := Moves(s, i, tape, n);
    assert s1 == Sys(SetOrder(s.db, o, order), s.procs[i := Execution(o, Claimed(order))]);
    var s2 := Moves(s1, i, tape, n + 1);
    assert s2 == Sys(s1.db, s.procs[i := Execution(o, Unexecuted(order))]);
    s' := Moves(s2, i, tape, n + 2);
    FollowsTransitive(tape, s, s1, s2);
    FollowsTransitive(tape, s, s2, s');
  }

  // The wallet is debited and the trade written; nothing else that matters here has changed.
  predicate Bought(db: Db, db': Db, o: Id, order: Order, price: real, at: int) {
    && order.userId in db.users && db'.users == Credited(db.users, order.userId, -Cost(order, price))
    && db'.orders == db.orders && db'.stocks == db.stocks && db'.positions == db.positions
    && db'.trades == db.trades + [TradeFor(o, order, price, at)]
  }

  lemma {:induction false} Debits(s: Sys, i: nat, o: Id, order: Order, price: real, tape: Tape, n: nat)
    returns (s': Sys)
    requires i < |s.procs| && s.procs[i] == Execution(o, Priced(order, price)) && TapeOk(s.db, tape, n)
    requires CanPay(s.db, order.userId, Cost(order, price))
    ensures var users := Credited(s.db.users, order.userId, -Cost(order, price));
      s' == Sys(s.db.(users := users),
          s.procs[i := Execution(o, Debited(order, price, users[order.userId].walletBalance))])
    ensures Follows(tape, s, s') && TapeOk(s'.db, tape, n + 1)
  {
    s' := Moves(s, i, tape, n);
  }

  lemma {:induction false} Records(s: Sys, i: nat, o: Id, order: Order, price: real, after: real, tape: Tape, n: nat)
    returns (s': Sys)
    requires i < |s.procs| && s.procs[i] == Execution(o, Debited(order, price, after)) && TapeOk(s.db, tape, n)
    ensures s'.procs == s.procs[i := Execution(o, Charged(order, price))]
    ensures s'.db == s.db.(ledger := s'.db.ledger, events := s'.db.events)
    ensures Follows(tape, s, s') && TapeOk(s'.db, tape, n + 2)
  {
    var row := DebitRowFor(o, order, price, after, tape(n).freshId);
    var s1 := Moves(s, i, tape, n);
    assert s1 == Sys(s.db.(ledger := s.db.ledger + [row]),
        s.procs[i := Execution(o, Ledgered(order, price, after, row))]);
    s' := Moves(s1, i, tape, n + 1);
    FollowsTransitive(tape, s, s1, s');
  }

  lemma {:induction false} Pays(s: Sys, i: nat, o: Id, order: Order, price: real, tape: Tape, n: nat) returns (s': Sys)
    requires i < |s.procs| && s.procs[i] == Execution(o, Priced(order, price)) && TapeOk(s.db, tape, n)
    requires CanPay(s.db, order.userId, Cost(order, price))
    ensures s'.procs == s.procs[i := Execution(o, Charged(order, price))]
    ensures s'.db == s.db.(users := Credited(s.db.users, order.userId, -Cost(order, price)), ledger := s'.db.ledger,
        events := s'.db.events)
    ensures Follows(tape, s, s') && TapeOk(s'.db, tape, n + 3)
  {
    var s1 := Debits(s, i, o, order, price, tape, n);
    s' := Records(s1, i, o, order, price, s1.procs[i].exec.balanceAfter, tape, n + 1);
    FollowsTransitive(tape, s, s1, s');
  }

  lemma {:induction false} Buys(s: Sys, i: nat, o: Id, order: Order, price: real, tape: Tape, n: nat) returns (s': Sys)
    requires i < |s.procs| && s.procs[i] == Execution(o, Priced(order, price)) && TapeOk(s.db, tape, n)
    requires CanPay(s.db, order.userId, Cost(order, price)) && TradesOf(s.db.trades, o) == []
    ensures s'.procs == s.procs[i := Execution(o, Traded(order, price, tape(n + 3).now))]
    ensures Bought(s.db, s'.db, o, order, price, tape(n + 3).now)
    ensures Follows(tape, s, s') && TapeOk(s'.db, tape, n + 4)
  {
    var s1 := Pays(s, i, o, order, price, tape, n);
    s' := Moves(s1, i, tape, n + 3);
    FollowsTransitive(tape, s, s1, s');
  }

  // The order of a process that has just written its trade.
  predicate HasTraded(p: Proc, u: Id, y: string) {
    p.Execution? && p.exec.Traded? && p.exec.order.userId == u && p.exec.order.symbol == y
        && p.exec.order.quantity >= 1.0
  }

  function TradeOf(p: Proc): Trade
    requires p.Execution? && p.exec.Traded?
  {
    TradeFor(p.orderId, p.exec.order, p.exec.price, p.exec.at)
  }

  // An order of u in y that can be bought for at most `most`.
  predicate Buyable(db: Db, o: Id, u: Id, y: string, most: real) {
    && o in db.orders && db.orders[o].status == OrderStatus.Triggered
    && db.orders[o].userId == u && db.orders[o].symbol == y && db.orders[o].quantity >= 1.0
    && y in db.stocks && 0.0 <= db.stocks[y].currentPrice <= db.orders[o].targetPrice
    && db.orders[o].quantity * db.orders[o].targetPrice <= most
  }

  lemma {:induction false} BuysNext(s: Sys, i: nat, o: Id, u: Id, y: string, most: real, tape: Tape, n: nat)
    returns (s': Sys)
    requires i < |s.procs| && s.procs[i] == Execution(o, Queued) && TapeOk(s.db, tape, n)
    requires Buyable(s.db, o, u, y, most) && TradesOf(s.db.trades, o) == [] && CanAfford(s.db.users, u, most)
    ensures Follows(tape, s, s') && TapeOk(s'.db, tape, n + 7)
    ensures i < |s'.procs| && s'.procs == s.procs[i := s'.procs[i]] && HasTraded(s'.procs[i], u, y)
        && s'.procs[i].orderId == o
    ensures s'.db.trades == s.db.trades + [TradeOf(s'.procs[i])]
    ensures s'.db.positions == s.db.positions && s'.db.stocks == s.db.stocks
    ensures u in s'.db.users && s'.db.users[u].active
        && s'.db.users[u].walletBalance >= s.db.users[u].walletBalance - most
    ensures s'.db.orders == s.db.orders[o := s.db.orders[o].(status := Executing)]
  {
    var order, price := s.db.orders[o].(status := Executing), s.db.stocks[y].currentPrice;
    var s1 := ClaimsAndPrices(s, i, o, tape, n);
    OrderSafety.CostBounds(order.quantity, price, order.targetPrice);
    s' := Buys(s1, i, o, order, price, tape, n + 3);
    FollowsTransitive(tape, s, s1, s');
  }

  // --- Any number of buyers of one stock, all with their trade written and no position saved ---

  // Requests of one user for one stock, all at or above its price and none dearer than `most`.
  predicate OneBuyer(db: Db, ps: seq<Proc>, u: Id, y: string, most: real) {
    && y in db.stocks && db.stocks[y].active && db.stocks[y].currentPrice >= 0.0
    && u in db.users && db.users[u].active && db.users[u].walletBalance >= |ps| as real * most && most >= 0.0
    && forall p | p in ps ::
         && p.Creation? && p.create == CreateStarted && p.key == None && CanStart(p) && p.userId == u && p.symbol == y
         && db.stocks[y].currentPrice <= p.targetPrice && p.quantity * p.targetPrice <= most
  }

  // Every order is PENDING and one of the requests'.
  ghost predicate Requested(db: Db, u: Id, y: string, most: real, count: nat) {
    && |db.orders| == count && y in db.stocks
    && forall o | o in db.orders :: OrderOf(db.orders[o], u, y, db.stocks[y].currentPrice, most)
  }

  lemma {:induction false} MapGrows<V>(m: map<Id, V>, k: Id, v: V)
    requires k !in m
    ensures |m[k := v]| == |m| + 1
  {
    assert m[k := v].Keys == m.Keys + {k};
    assert |m[k := v].Keys| == |m[k := v]| && |m.Keys| == |m|;
  }

  lemma {:induction false} AtLeastOne(k: nat, most: real)
    requires k >= 1 && most >= 0.0
    ensures k as real * most == (k - 1) as real * most + most && k as real * most >= most
  {
    assert (k - 1) as real * most >= 0.0;
  }

  predicate WillEvaluate(p: Proc, y: string, price: real) {
    p.Creation? && p.symbol == y && p.create.Inserted? && p.create.currentPrice == price <= p.targetPrice
  }

  // A request that can be made now.
  ghost predicate Makes(db: Db, p: Proc, u: Id, y: string, most: real) {
    Accepts(db, p) && p.userId == u && p.symbol == y
    && db.stocks[y].currentPrice <= p.targetPrice && p.quantity * p.targetPrice <= most
  }

  predicate OrderOf(order: Order, u: Id, y: string, price: real, most: real) {
    && order.status == Pending && order.userId == u && order.symbol == y && order.quantity >= 1.0
    && price <= order.targetPrice && order.quantity * order.targetPrice <= most
  }

  lemma {:induction false} RequestedGrows(db: Db, o: Id, order: Order, u: Id, y: string, most: real, count: nat)
    requires Requested(db, u, y, most, count) && o !in db.orders
        && OrderOf(order, u, y, db.stocks[y].currentPrice, most)
    ensures Requested(SetOrder(db, o, order), u, y, most, count + 1)
  {
    MapGrows(db.orders, o, order);
  }

  lemma {:induction false} MakesOrder(db: Db, p: Proc, u: Id, y: string, most: real)
    requires Makes(db, p, u, y, most)
    ensures OrderOf(NewOrder(p), u, y, db.stocks[y].currentPrice, most)
  {
  }

  lemma {:induction false} OneMoreRequest(s: Sys, p: Proc, u: Id, y: string, most: real, count: nat, tape: Tape, n: nat)
    returns (s': Sys)
    requires Requested(s.db, u, y, most, count) && Makes(s.db, p, u, y, most) && TapeOk(s.db, tape, n)
    ensures Follows(tape, s, s') && TapeOk(s'.db, tape, n + 4)
    ensures s'.db == s.db.(orders := s'.db.orders) && Requested(s'.db, u, y, most, count + 1)
    ensures |s'.procs| == |s.procs| + 1 && WillEvaluate(s'.procs[|s.procs|], y, s.db.stocks[y].currentPrice)
  {
    var o, price := tape(n + 3).freshId, s.db.stocks[y].currentPrice;
    Requests(s.db, s.procs, p, tape, n);
    MakesOrder(s.db, p, u, y, most);
    RequestedGrows(s.db, o, NewOrder(p), u, y, most, count);
    s' := Sys(SetOrder(s.db, o, NewOrder(p)), s.procs + [p.(create := Inserted(o, price))]);
    assert s == Sys(s.db, s.procs);
  }

  lemma {:induction false} BudgetShrinks(balance: real, k: nat, most: real)
    requires k >= 1 && most >= 0.0 && balance >= k as real * most
    ensures balance >= (k - 1) as real * most && balance >= most
  {
    AtLeastOne(k, most);
  }

  lemma {:induction false} FewerRequests(db: Db, ps: seq<Proc>, u: Id, y: string, most: real)
    requires OneBuyer(db, ps, u, y, most) && ps != []
    ensures OneBuyer(db, ps[..|ps| - 1], u, y, most)
  {
    BudgetShrinks(db.users[u].walletBalance, |ps|, most);
    assert forall q | q in ps[..|ps| - 1] :: q in ps;
  }

  lemma {:induction false} MakesLast(db: Db, orders: map<Id, Order>, ps: seq<Proc>, u: Id, y: string, most: real)
    requires OneBuyer(db, ps, u, y, most) && ps != []
    ensures Makes(db.(orders := orders), ps[|ps| - 1], u, y, most)
  {
    var p := ps[|ps| - 1];
    BudgetShrinks(db.users[u].walletBalance, |ps|, most);
    assert p in ps;
    var cost := p.quantity * p.targetPrice;
    assert cost <= most;
    assert db.users[u].walletBalance >= cost;
  }

  lemma {:induction false} AllRequest(db: Db, ps: seq<Proc>, u: Id, y: string, most: real, tape: Tape, n: nat)
    returns (s': Sys, n': nat)
    requires OneBuyer(db, ps, u, y, most) && db.orders == map[] && TapeOk(db, tape, n)
    ensures Follows(tape, Sys(db, []), s') && TapeOk(s'.db, tape, n')
    ensures s'.db == db.(orders := s'.db.orders) && Requested(s'.db, u, y, most, |ps|)
    ensures |s'.procs| == |ps| && (ps != [] ==> WillEvaluate(s'.procs[|ps| - 1], y, db.stocks[y].currentPrice))
    decreases ps, 1
  {
    if ps == [] {
      FollowsRefl(tape, Sys(db, []));
      return Sys(db, []), n;
    }
    var s1, n1 := AllRequestBut(db, ps, u, y, most, tape, n);
    MakesLast(db, s1.db.orders, ps, u, y, most);
    s' := OneMoreRequest(s1, ps[|ps| - 1], u, y, most, |ps| - 1, tape, n1);
    n' := n1 + 4;
    FollowsTransitive(tape, Sys(db, []), s1, s');
  }

  lemma {:induction false} AllRequestBut(db: Db, ps: seq<Proc>, u: Id, y: string, most: real, tape: Tape, n: nat)
    returns (s': Sys, n': nat)
    requires OneBuyer(db, ps, u, y, most) && db.orders == map[] && TapeOk(db, tape, n) && ps != []
    ensures Follows(tape, Sys(db, []), s') && TapeOk(s'.db, tape, n')
    ensures s'.db == db.(orders := s'.db.orders) && Requested(s'.db, u, y, most, |ps| - 1)
    ensures |s'.procs| == |ps| - 1
    decreases ps, 0
  {
    FewerRequests(db, ps, u, y, most);
    s', n' := AllRequest(db, ps[..|ps| - 1], u, y, most, tape, n);
  }

  predicate AllTraded(ps: seq<Proc>, u: Id, y: string) { forall k | 0 <= k < |ps| :: HasTraded(ps[k], u, y) }

  function TradesOfAll(ps: seq<Proc>, u: Id, y: string): seq<Trade>
    requires AllTraded(ps, u, y)
  {
    seq(|ps|, k requires 0 <= k < |ps| => TradeOf(ps[k]))
  }

  ghost predicate AllBuyable(db: Db, todo: seq<Id>, u: Id, y: string, most: real) {
    && (forall o | o in todo :: Buyable(db, o, u, y, most) && TradesOf(db.trades, o) == [])
    && (forall i, j | 0 <= i < j < |todo| :: todo[i] != todo[j])
    && u in db.users && db.users[u].active && db.users[u].walletBalance >= |todo| as real * most && most >= 0.0
  }

  lemma {:induction false} StillBuyable(db: Db, db': Db, todo: seq<Id>, t: Trade, u: Id, y: string, most: real)
    requires todo != [] && AllBuyable(db, todo, u, y, most)
    requires db'.trades == db.trades + [t] && t.buyOrderId == todo[0] && db'.stocks == db.stocks
    requires u in db'.users && db'.users[u].active && db'.users[u].walletBalance >= db.users[u].walletBalance - most
    requires todo[0] in db.orders && db'.orders == db.orders[todo[0] := db.orders[todo[0]].(status := Executing)]
    ensures AllBuyable(db', todo[1..], u, y, most)
  {
    AtLeastOne(|todo|, most);
    forall o | o in todo[1..] ensures Buyable(db', o, u, y, most) && TradesOf(db'.trades, o) == [] {
      var k :| 0 <= k < |todo[1..]| && todo[1..][k] == o;
      assert todo[k + 1] == o && todo[0] != todo[k + 1];
      TradesOfAppend(db.trades, t, o);
    }
  }

  lemma {:induction false} FirstBuyable(db: Db, todo: seq<Id>, u: Id, y: string, most: real)
    requires AllBuyable(db, todo, u, y, most) && todo != []
    ensures Buyable(db, todo[0], u, y, most) && CanAfford(db.users, u, most)
  {
    BudgetShrinks(db.users[u].walletBalance, |todo|, most);
  }

  lemma {:induction false} FirstOfTrades(p: Proc, rest: seq<Proc>, u: Id, y: string)
    requires HasTraded(p, u, y) && AllTraded(rest, u, y)
    ensures AllTraded([p] + rest, u, y)
    ensures TradesOfAll([p] + rest, u, y) == [TradeOf(p)] + TradesOfAll(rest, u, y)
  {
  }

  lemma {:induction false} AllBuy(db: Db, pre: seq<Proc>, todo: seq<Id>, u: Id, y: string, most: real, tape: Tape,
      n: nat)
    returns (s': Sys, ps: seq<Proc>, n': nat)
    requires AllBuyable(db, todo, u, y, most) && TapeOk(db, tape, n)
    ensures Follows(tape, Sys(db, pre + Jobs(todo)), s') && TapeOk(s'.db, tape, n')
    ensures s'.procs == pre + ps && |ps| == |todo| && AllTraded(ps, u, y)
    ensures s'.db.trades == db.trades + TradesOfAll(ps, u, y) && s'.db.positions == db.positions
    decreases |todo|
  {
    var s := Sys(db, pre + Jobs(todo));
    if todo == [] {
      FollowsRefl(tape, s);
      assert pre + Jobs(todo) == pre + [] && db.trades + TradesOfAll([], u, y) == db.trades;
      return s, [], n;
    }
    AtLeastOne(|todo|, most);
    assert s.procs[|pre|] == Execution(todo[0], Queued);
    FirstBuyable(db, todo, u, y, most);
    var s1 := BuysNext(s, |pre|, todo[0], u, y, most, tape, n);
    var p := s1.procs[|pre|];
    StillBuyable(db, s1.db, todo, TradeOf(p), u, y, most);
    assert s1.procs == (pre + [p]) + Jobs(todo[1..]);
    var rest: seq<Proc>;
    s', rest, n' := AllBuy(s1.db, pre + [p], todo[1..], u, y, most, tape, n + 7);
    ps := [p] + rest;
    assert s1 == Sys(s1.db, (pre + [p]) + Jobs(todo[1..]));
    FollowsTransitive(tape, s, s1, s');
    assert (pre + [p]) + rest == pre + ps;
    FirstOfTrades(p, rest, u, y);
  }

  // The last request queues an evaluation, which triggers and enqueues every order.
  lemma {:induction false} AllTrigger(s: Sys, u: Id, y: string, most: real, count: nat, tape: Tape, n: nat)
    returns (s': Sys, pre: seq<Proc>, todo: seq<Id>, n': nat)
    requires Requested(s.db, u, y, most, count) && count >= 1 && |s.procs| == count && TapeOk(s.db, tape, n)
    requires WillEvaluate(s.procs[count - 1], y, s.db.stocks[y].currentPrice)
    ensures Follows(tape, s, s') && TapeOk(s'.db, tape, n')
    ensures s'.procs == pre + Jobs(todo) && |todo| == count && AllPending(s.db, todo)
        && OnlyTriggered(s.db, s'.db, todo)
  {
    var price := s.db.stocks[y].currentPrice;
    var p := s.procs[count - 1];
    var s1 := Moves(s, count - 1, tape, n);
    assert s1 == Sys(s.db, s.procs[count - 1 := p.(create := CreateAnnouncing(p.create.o))]
        + [Evaluation(y, EvalQueued)]);
    var s2 := Moves(s1, count, tape, n + 1);
    assert s2.db == s.db && s2.procs == s1.procs[count := Evaluation(y, EvalPriced(price))];
    var s3 := Moves(s2, count, tape, n + 2);
    todo := ListsAll(s.db, u, y, most, count, tape, n + 2);
    assert s3.db == s.db && s3.procs[count] == Evaluation(y, Scanning(todo));
    s', n' := TriggersAll(s3, count, y, todo, tape, n + 3);
    pre := s3.procs[count := Evaluation(y, Scanning([]))];
    FollowsTransitive(tape, s, s1, s2);
    FollowsTransitive(tape, s, s2, s3);
    FollowsTransitive(tape, s, s3, s');
  }

  lemma {:induction false} ListsAll(db: Db, u: Id, y: string, most: real, count: nat, tape: Tape, n: nat)
    returns (todo: seq<Id>)
    requires Requested(db, u, y, most, count) && TapeOk(db, tape, n)
    ensures todo == tape(n).arrange(EligibleIds(db.orders, y, db.stocks[y].currentPrice))
    ensures |todo| == count && AllPending(db, todo)
  {
    var ids := EligibleIds(db.orders, y, db.stocks[y].currentPrice);
    todo := tape(n).arrange(ids);
    assert Lists(todo, ids);
    ListingSize(todo, ids);
    forall o | o in db.orders ensures o in ids {
      assert OrderOf(db.orders[o], u, y, db.stocks[y].currentPrice, most);
    }
    assert ids == db.orders.Keys && |db.orders.Keys| == |db.orders|;
  }

  lemma {:induction false} TriggeredBuyable(db: Db, db': Db, todo: seq<Id>, u: Id, y: string, most: real, count: nat)
    requires Requested(db, u, y, most, count) && AllPending(db, todo) && OnlyTriggered(db, db', todo) && db.trades == []
    requires 0.0 <= db.stocks[y].currentPrice && most >= 0.0 && |todo| == count
    requires u in db.users && db.users[u].active && db.users[u].walletBalance >= count as real * most
    ensures AllBuyable(db', todo, u, y, most)
  {
    forall o | o in todo ensures Buyable(db', o, u, y, most) {
      assert OrderOf(db.orders[o], u, y, db.stocks[y].currentPrice, most);
    }
  }

  lemma {:induction false} AllBuyableReachable(s0: Sys, ps: seq<Proc>, u: Id, y: string, most: real, tape: Tape)
    returns (s: Sys, pre: seq<Proc>, todo: seq<Id>, n: nat)
    requires Init(s0) && OneBuyer(s0.db, ps, u, y, most) && ps != [] && TapeOk(s0.db, tape, 0)
    ensures Follows(tape, s0, s) && TapeOk(s.db, tape, n) && s == Sys(s.db, pre + Jobs(todo)) && |todo| == |ps|
    ensures AllBuyable(s.db, todo, u, y, most) && s.db.trades == [] && s.db.positions == map[]
  {
    assert s0 == Sys(s0.db, []);
    var s1, n1 := AllRequest(s0.db, ps, u, y, most, tape, 0);
    s, pre, todo, n := AllTrigger(s1, u, y, most, |ps|, tape, n1);
    TriggeredBuyable(s1.db, s.db, todo, u, y, most, |ps|);
    FollowsTransitive(tape, s0, s1, s);
  }

  // Any number of requests of one user for one stock, made one after the other, can come to the point
  // where every order has its trade and no position is saved.
  lemma {:induction false} AllTradedReachable(s0: Sys, ps: seq<Proc>, u: Id, y: string, most: real, tape: Tape)
    returns (s: Sys, pre: seq<Proc>, qs: seq<Proc>, n: nat)
    requires Init(s0) && OneBuyer(s0.db, ps, u, y, most) && ps != [] && TapeOk(s0.db, tape, 0)
    ensures Follows(tape, s0, s) && TapeOk(s.db, tape, n)
    ensures s.procs == pre + qs && |qs| == |ps| && AllTraded(qs, u, y)
    ensures s.db.trades == TradesOfAll(qs, u, y) && s.db.positions == map[]
  {
    var s1, pre1, todo, n1 := AllBuyableReachable(s0, ps, u, y, most, tape);
    pre := pre1;
    s, qs, n := AllBuy(s1.db, pre1, todo, u, y, most, tape, n1);
    assert [] + TradesOfAll(qs, u, y) == TradesOfAll(qs, u, y);
    FollowsTransitive(tape, s0, s1, s);
  }

  // --- Two executions that save one position ---

  // Two executions at their trade: both look for the position, then both go on to save it.
  lemma {:induction false} BothSave(s: Sys, i: nat, j: nat, u: Id, y: string, tape: Tape, n: nat) returns (s': Sys)
    requires i < |s.procs| && j < |s.procs| && i != j && TapeOk(s.db, tape, n)
    requires HasTraded(s.procs[i], u, y) && HasTraded(s.procs[j], u, y)
    ensures Follows(tape, s, s') && TapeOk(s'.db, tape, n + 4)
    ensures s' == After(After(After(After(s, i, tape(n)), j, tape(n + 1)), i, tape(n + 2)), j, tape(n + 3))
    ensures CanAdvance(s, i, tape(n)) && CanAdvance(After(s, i, tape(n)), j, tape(n + 1))
    ensures CanAdvance(After(After(s, i, tape(n)), j, tape(n + 1)), i, tape(n + 2))
    ensures CanAdvance(After(After(After(s, i, tape(n)), j, tape(n + 1)), i, tape(n + 2)), j, tape(n + 3))
  {
    var s1 := AdvancesTo(s, i, tape, n);
    var s2 := AdvancesTo(s1, j, tape, n + 1);
    var s3 := AdvancesTo(s2, i, tape, n + 2);
    s' := AdvancesTo(s3, j, tape, n + 3);
    FollowsTransitive(tape, s, s1, s2);
    FollowsTransitive(tape, s, s2, s3);
    FollowsTransitive(tape, s, s3, s');
  }

  lemma {:induction false} AdvancesTo(s: Sys, i: nat, tape: Tape, n: nat) returns (s': Sys)
    requires i < |s.procs| && TapeOk(s.db, tape, n)
    ensures CanAdvance(s, i, tape(n)) && s' == After(s, i, tape(n)) && |s'.procs| >= |s.procs|
    ensures Follows(tape, s, s') && TapeOk(s'.db, tape, n + 1)
  {
    s' := Moves(s, i, tape, n);
  }

  // From every starting state: two requests of one user for one stock can leave an order charged,
  // traded and EXECUTING, with an execution that will not move again.
  lemma {:induction false} StrandedReachable(s0: Sys, ps: seq<Proc>, u: Id, y: string, most: real, tape: Tape)
    returns (s: Sys, j: nat, n: nat)
    requires Init(s0) && OneBuyer(s0.db, ps, u, y, most) && |ps| >= 2 && TapeOk(s0.db, tape, 0)
    ensures Follows(tape, s0, s) && j < |s.procs| && IsStranded(s.procs[j]) && TapeOk(s.db, tape, n)
  {
    var s1, pre, qs, n1 := AllTradedReachable(s0, ps, u, y, most, tape);
    var i := |pre|;
    j := i + 1;
    assert s1.procs[i] == qs[0] && s1.procs[j] == qs[1];
    s := BothSave(s1, i, j, u, y, tape, n1);
    n := n1 + 4;
    ConcurrentFirstTradesStrandAnOrder(s1, i, j, tape(n1), tape(n1 + 1), tape(n1 + 2), tape(n1 + 3));
    FollowsTransitive(tape, s0, s1, s);
  }

  // One execution at its trade saves the first position.
  lemma {:induction false} SavesFirst(s: Sys, i: nat, u: Id, y: string, tape: Tape, n: nat) returns (s': Sys)
    requires i < |s.procs| && HasTraded(s.procs[i], u, y) && TapeOk(s.db, tape, n) && (u, y) !in s.db.positions
    ensures Follows(tape, s, s') && TapeOk(s'.db, tape, n + 2)
    ensures |s'.procs| == |s.procs| && forall k | 0 <= k < |s.procs| && k != i :: s'.procs[k] == s.procs[k]
    ensures s'.db.trades == s.db.trades && (u, y) in s'.db.positions
    ensures s'.db.positions[(u, y)].quantityOwned == s.procs[i].exec.order.quantity
  {
    var s1 := Moves(s, i, tape, n);
    s' := Moves(s1, i, tape, n + 1);
    FollowsTransitive(tape, s, s1, s');
  }

  lemma {:induction false} QuantityOfThree(qs: seq<Proc>, u: Id, y: string)
    requires AllTraded(qs, u, y) && |qs| == 3
    ensures SumBy(TradesOfAll(qs, u, y), QuantityIn(u, y))
         == qs[0].exec.order.quantity + qs[1].exec.order.quantity + qs[2].exec.order.quantity
  {
    var a, b, c := TradeOf(qs[0]), TradeOf(qs[1]), TradeOf(qs[2]);
    assert TradesOfAll(qs, u, y) == ([a] + [b]) + [c];
    SumAppend([a] + [b], c, QuantityIn(u, y));
    SumAppend([a], b, QuantityIn(u, y));
    SumAppend([], a, QuantityIn(u, y));
    assert [] + [a] == [a];
  }

  lemma {:induction false} SecondIsLost(s: Sys, pre: seq<Proc>, qs: seq<Proc>, u: Id, y: string, tape: Tape, n: nat)
    returns (s': Sys)
    requires s.procs == pre + qs && |qs| == 3 && AllTraded(qs, u, y) && TapeOk(s.db, tape, n)
        && (u, y) !in s.db.positions
    ensures Follows(tape, s, s') && |pre| + 2 < |s'.procs| && s'.db.trades == s.db.trades
    ensures Saved(s'.procs[|pre| + 1]) && Saved(s'.procs[|pre| + 2])
    ensures (u, y) in s'.db.positions
    ensures s'.db.positions[(u, y)].quantityOwned == qs[0].exec.order.quantity + qs[2].exec.order.quantity
  {
    var i := |pre| + 1;
    assert s.procs[|pre|] == qs[0] && s.procs[i] == qs[1] && s.procs[i + 1] == qs[2];
    var s2 := SavesFirst(s, |pre|, u, y, tape, n);
    s' := BothSave(s2, i, i + 1, u, y, tape, n + 2);
    ConcurrentExecutionsLoseAnUpdate(s2, i, i + 1, tape(n + 2), tape(n + 3), tape(n + 4), tape(n + 5));
    FollowsTransitive(tape, s, s2, s');
  }

  predicate Saved(p: Proc) { p.Execution? && p.exec.Positioned? }

  // From every starting state: three requests of one user for one stock can all be bought and saved,
  // and the position holds less than the trades add up to.
  lemma {:induction false} LostUpdateReachable(s0: Sys, ps: seq<Proc>, u: Id, y: string, most: real, tape: Tape)
    returns (s: Sys, i: nat)
    requires Init(s0) && OneBuyer(s0.db, ps, u, y, most) && |ps| == 3 && TapeOk(s0.db, tape, 0)
    ensures Follows(tape, s0, s) && i + 1 < |s.procs| && Saved(s.procs[i]) && Saved(s.procs[i + 1])
    ensures (u, y) in s.db.positions && s.db.positions[(u, y)].quantityOwned < SumBy(s.db.trades, QuantityIn(u, y))
  {
    var s1, pre, qs, n := AllTradedReachable(s0, ps, u, y, most, tape);
    i := |pre| + 1;
    s := SecondIsLost(s1, pre, qs, u, y, tape, n);
    QuantityOfThree(qs, u, y);
    FollowsTransitive(tape, s0, s1, s);
  }

  // --- Price updates ---

  ghost predicate OnlyPriced(db: Db, db': Db, y: string, price: real) {
    && db'.users == db.users && db'.orders == db.orders && db'.trades == db.trades && db'.positions == db.positions
    && y in db'.stocks && db'.stocks[y].currentPrice == price && db'.stocks[y].active && db.events <= db'.events
  }

  lemma {:induction false} RecordsPrice(db: Db, procs: seq<Proc>, y: string, price: real, tape: Tape, n: nat)
    returns (db': Db, p: Proc)
    requires price >= 0.0 && TapeOk(db, tape, n)
    ensures Follows(tape, Sys(db, procs), Sys(db', procs + [p])) && TapeOk(db', tape, n + 3)
    ensures OnlyPriced(db, db', y, price) && p.PriceUpdate? && p.symbol == y && p.price == price && p.upd.Upserted?
  {
    var q := PriceUpdate(y, price, PriceQueued);
    FollowsStep(tape, Sys(db, procs), Spawn(q));
    var db1, q1 := LastGoes(db, procs, q, tape, n);
    var db2, q2 := LastGoes(db1, procs, q1, tape, n + 1);
    db', p := LastGoes(db2, procs, q2, tape, n + 2);
    FollowsTransitive(tape, Sys(db, procs), Sys(db, procs + [q]), Sys(db1, procs + [q1]));
    FollowsTransitive(tape, Sys(db, procs), Sys(db1, procs + [q1]), Sys(db2, procs + [q2]));
    FollowsTransitive(tape, Sys(db, procs), Sys(db2, procs + [q2]), Sys(db', procs + [p]));
  }

  // A step of a price update that at most publishes.
  lemma {:induction false} PublishesNext(db: Db, procs: seq<Proc>, p: Proc, tape: Tape, n: nat)
    returns (db': Db, p': Proc)
    requires p.PriceUpdate? && (p.upd.Upserted? || p.upd.PriceAnnounced?) && TapeOk(db, tape, n)
    ensures Follows(tape, Sys(db, procs + [p]), Sys(db', procs + [p'])) && TapeOk(db', tape, n + 1)
    ensures db' == db.(events := db'.events) && db.events <= db'.events
    ensures p'.PriceUpdate? && p' == p.(upd := p'.upd)
        && (if p.upd.Upserted? then p'.upd.PriceAnnounced? else p'.upd.DecreaseAnnounced?)
  {
    db', p' := LastGoes(db, procs, p, tape, n);
  }

  lemma {:induction false} AnnouncesPrice(db: Db, procs: seq<Proc>, p: Proc, tape: Tape, n: nat) returns (db': Db)
    requires p.PriceUpdate? && p.upd.Upserted? && TapeOk(db, tape, n)
    ensures Follows(tape, Sys(db, procs + [p]),
        Sys(db', procs + [p.(upd := PriceEnded), Evaluation(p.symbol, EvalQueued)]))
    ensures TapeOk(db', tape, n + 3) && db' == db.(events := db'.events) && db.events <= db'.events
  {
    var db1, p1 := PublishesNext(db, procs, p, tape, n);
    var p2: Proc;
    db', p2 := PublishesNext(db1, procs, p1, tape, n + 1);
    LastMoves(db', procs, p2, tape, n + 2);
    var last := procs + [p.(upd := PriceEnded), Evaluation(p.symbol, EvalQueued)];
    assert procs + [p.(upd := PriceEnded)] + [Evaluation(p.symbol, EvalQueued)] == last;
    FollowsTransitive(tape, Sys(db, procs + [p]), Sys(db1, procs + [p1]), Sys(db', procs + [p2]));
    FollowsTransitive(tape, Sys(db, procs + [p]), Sys(db', procs + [p2]), Sys(db', last));
  }

  lemma {:induction false} Reprices(db: Db, procs: seq<Proc>, y: string, price: real, tape: Tape, n: nat)
    returns (db': Db)
    requires price >= 0.0 && TapeOk(db, tape, n)
    ensures Follows(tape, Sys(db, procs),
        Sys(db', procs + [PriceUpdate(y, price, PriceEnded), Evaluation(y, EvalQueued)]))
    ensures OnlyPriced(db, db', y, price) && TapeOk(db', tape, n + 6)
  {
    var db1, p := RecordsPrice(db, procs, y, price, tape, n);
    db' := AnnouncesPrice(db1, procs, p, tape, n + 3);
    FollowsTransitive(tape, Sys(db, procs), Sys(db1, procs + [p]),
                      Sys(db', procs + [PriceUpdate(y, price, PriceEnded), Evaluation(y, EvalQueued)]));
  }

  // An evaluation reads the price and lists the orders.
  lemma {:induction false} ListsOrders(s: Sys, i: nat, y: string, tape: Tape, n: nat) returns (todo: seq<Id>)
    requires i < |s.procs| && s.procs[i] == Evaluation(y, EvalQueued) && y in s.db.stocks && TapeOk(s.db, tape, n)
    ensures Lists(todo, EligibleIds(s.db.orders, y, s.db.stocks[y].currentPrice))
    ensures Follows(tape, s, Sys(s.db, s.procs[i := Evaluation(y, Scanning(todo))])) && TapeOk(s.db, tape, n + 2)
  {
    todo := tape(n + 1).arrange(EligibleIds(s.db.orders, y, s.db.stocks[y].currentPrice));
    var s1 := Moves(s, i, tape, n);
    assert s1 == Sys(s.db, s.procs[i := Evaluation(y, EvalPriced(s.db.stocks[y].currentPrice))]);
    var s2 := Moves(s1, i, tape, n + 1);
    assert s2 == Sys(s.db, s.procs[i := Evaluation(y, Scanning(todo))]);
    FollowsTransitive(tape, s, s1, s2);
  }

  // --- The missed trigger ---

  // The request has inserted its order without queueing an evaluation, and announces it.
  lemma {:induction false} InsertsUnseen(s: Sys, i: nat, price: real, tape: Tape, n: nat) returns (s': Sys)
    requires i < |s.procs| && s.procs[i].Creation? && s.procs[i].create == UserRead(price)
    requires !KeyTaken(s.db.orders, s.procs[i].key) && price > s.procs[i].targetPrice && TapeOk(s.db, tape, n)
    ensures Follows(tape, s, s') && tape(n).freshId !in s.db.orders
    ensures s'.procs == s.procs[i := s.procs[i].(create := CreatePc.Created(tape(n).freshId))]
    ensures s'.db.orders == s.db.orders[tape(n).freshId := NewOrder(s.procs[i])] && s'.db.stocks == s.db.stocks
  {
    var p, o := s.procs[i], tape(n).freshId;
    assert IdUnused(s.db, o);
    var s1 := Moves(s, i, tape, n);
    assert s1 == Sys(SetOrder(s.db, o, NewOrder(p)), s.procs[i := p.(create := Inserted(o, price))]);
    var s2 := Moves(s1, i, tape, n + 1);
    assert s2 == Sys(s1.db, s.procs[i := p.(create := CreateAnnouncing(o))]);
    s' := Moves(s2, i, tape, n + 2);
    FollowsTransitive(tape, s, s1, s2);
    FollowsTransitive(tape, s, s2, s');
  }

  lemma {:induction false} NoneEligible(s: Sys, i: nat, y: string, tape: Tape, n: nat)
    requires i < |s.procs| && s.procs[i] == Evaluation(y, EvalQueued) && y in s.db.stocks && TapeOk(s.db, tape, n)
    requires forall o | o in s.db.orders :: s.db.orders[o].status != Pending
    ensures Follows(tape, s, Sys(s.db, s.procs[i := Evaluation(y, EvalEnded)])) && TapeOk(s.db, tape, n + 3)
  {
    var todo := ListsOrders(s, i, y, tape, n);
    var ids := EligibleIds(s.db.orders, y, s.db.stocks[y].currentPrice);
    assert ids == {};
    ListingSize(todo, ids);
    var s1 := Sys(s.db, s.procs[i := Evaluation(y, Scanning(todo))]);
    var s2 := Moves(s1, i, tape, n + 2);
    assert s2 == Sys(s.db, s.procs[i := Evaluation(y, EvalEnded)]);
    FollowsTransitive(tape, s, s1, s2);
  }

  // A price update and its evaluation while no order is PENDING.
  lemma {:induction false} RepricesUnseen(db: Db, procs: seq<Proc>, y: string, price: real, tape: Tape, n: nat)
    returns (db': Db)
    requires price >= 0.0 && TapeOk(db, tape, n) && forall o | o in db.orders :: db.orders[o].status != Pending
    ensures Follows(tape, Sys(db, procs), Sys(db', procs + Repriced(y, price)))
    ensures OnlyPriced(db, db', y, price) && TapeOk(db', tape, n + 9)
  {
    db' := Reprices(db, procs, y, price, tape, n);
    var s := Sys(db', procs + [PriceUpdate(y, price, PriceEnded), Evaluation(y, EvalQueued)]);
    var i := |procs| + 1;
    NoneEligible(s, i, y, tape, n + 6);
    assert s.procs[i := Evaluation(y, EvalEnded)] == procs + Repriced(y, price);
    FollowsTransitive(tape, Sys(db, procs), s, Sys(db', procs + Repriced(y, price)));
  }

  // A price update and its evaluation, at their end.
  function Repriced(y: string, price: real): seq<Proc> {
    [PriceUpdate(y, price, PriceEnded), Evaluation(y, EvalEnded)]
  }

  // From every starting state: a request made while the price is above its target, and a price update
  // in the middle of it, can leave an order PENDING at a price that meets its target, with every call
  // at its end and no evaluation to come.
  lemma {:induction false} MissedTriggerReachable(s0: Sys, p: Proc, price: real, tape: Tape) returns (s: Sys, o: Id)
    requires Init(s0) && Accepts(s0.db, p) && TapeOk(s0.db, tape, 0)
    requires 0.0 <= price <= p.targetPrice < s0.db.stocks[p.symbol].currentPrice
    ensures Follows(tape, s0, s) && Quiescent(s)
    ensures o in s.db.orders && p.symbol in s.db.stocks
        && Eligible(s.db.orders[o], p.symbol, s.db.stocks[p.symbol].currentPrice)
  {
    var y := p.symbol;
    var q := p.(create := UserRead(s0.db.stocks[y].currentPrice));
    assert s0 == Sys(s0.db, []) && [] + [q] == [q];
    ReadsUser(s0.db, [], p, tape, 0);
    var db1 := RepricesUnseen(s0.db, [q], y, price, tape, 3);
    var s1 := Sys(db1, [q] + Repriced(y, price));
    o := tape(12).freshId;
    s := InsertsUnseen(s1, 0, s0.db.stocks[y].currentPrice, tape, 12);
    LeftBehind(s, p.(create := CreatePc.Created(o)), y, price);
    FollowsTransitive(tape, s0, Sys(s0.db, [q]), s1);
    FollowsTransitive(tape, s0, s1, s);
  }

  lemma {:induction false} LeftBehind(s: Sys, p: Proc, y: string, price: real)
    requires p.Creation? && p.create.Created?
        && s.procs == [p, PriceUpdate(y, price, PriceEnded), Evaluation(y, EvalEnded)]
    ensures Quiescent(s)
  {
  }

  // --- A trigger published twice ---

  // The one PENDING order of a stock is listed, triggered and announced.
  lemma {:induction false} TriggersSole(s: Sys, i: nat, y: string, o: Id, tape: Tape, n: nat) returns (s': Sys)
    requires i < |s.procs| && s.procs[i] == Evaluation(y, EvalQueued) && y in s.db.stocks && TapeOk(s.db, tape, n)
    requires s.db.orders.Keys == {o} && Eligible(s.db.orders[o], y, s.db.stocks[y].currentPrice)
    ensures Follows(tape, s, s') && TapeOk(s'.db, tape, n + 5)
    ensures s'.procs == s.procs[i := Evaluation(y, Scanning([]))] + [Execution(o, Queued)]
    ensures OnlyTriggered(s.db, s'.db, [o])
    ensures tape(n + 3).delivered ==> TriggerEvent(o, s.db.orders[o], tape(n + 3).now) in s'.db.events
  {
    var todo := ListsOrders(s, i, y, tape, n);
    SoleListing(s.db.orders, y, s.db.stocks[y].currentPrice, o, todo);
    var s1 := Sys(s.db, s.procs[i := Evaluation(y, Scanning(todo))]);
    s' := TriggersOne(s1, i, y, todo, tape, n + 2);
    FollowsTransitive(tape, s, s1, s');
  }

  lemma {:induction false} SoleListing(orders: map<Id, Order>, y: string, price: real, o: Id, todo: seq<Id>)
    requires orders.Keys == {o} && Eligible(orders[o], y, price) && Lists(todo, EligibleIds(orders, y, price))
    ensures todo == [o] && todo[1..] == []
  {
    var ids := EligibleIds(orders, y, price);
    assert ids == {o};
    ListingSize(todo, ids);
    assert todo[0] in ids;
  }

  // A claimed order whose price has gone above its target goes back to PENDING.
  lemma {:induction false} GoesBack(s: Sys, i: nat, o: Id, tape: Tape, n: nat) returns (s': Sys)
    requires i < |s.procs| && s.procs[i] == Execution(o, Queued) && TapeOk(s.db, tape, n)
    requires o in s.db.orders && s.db.orders[o].status == OrderStatus.Triggered && TradesOf(s.db.trades, o) == []
    requires var order := s.db.orders[o];
      order.symbol in s.db.stocks && s.db.stocks[order.symbol].currentPrice > order.targetPrice
    ensures Follows(tape, s, s') && TapeOk(s'.db, tape, n + 4)
    ensures s' == Sys(SetOrder(s.db, o, s.db.orders[o].(status := Pending, reason := PriceMovedAboveTarget)),
                      s.procs[i := Execution(o, Ended)])
  {
    var s1 := ClaimsAndPrices(s, i, o, tape, n);
    s' := Moves(s1, i, tape, n + 3);
    FollowsTransitive(tape, s, s1, s');
    var order := s.db.orders[o].(status := Executing);
    assert s'.db.orders == s.db.orders[o := s.db.orders[o].(status := Pending, reason := PriceMovedAboveTarget)];
  }

  // The order is TRIGGERED, its trigger announced, and its execution queued last.
  ghost predicate TriggeredOnce(s: Sys, o: Id, p: Proc, at: int) {
    && p.Creation? && |s.procs| >= 1 && s.procs[|s.procs| - 1] == Execution(o, Queued)
    && s.db.orders == map[o := NewOrder(p).(status := OrderStatus.Triggered)] && s.db.trades == []
    && p.symbol in s.db.stocks && TriggerEvent(o, NewOrder(p), at) in s.db.events
  }

  // A request at its price has inserted its order and queued an evaluation.
  lemma {:induction false} QueuedReachable(s0: Sys, p: Proc, tape: Tape) returns (s: Sys, o: Id)
    requires Init(s0) && Accepts(s0.db, p) && s0.db.stocks[p.symbol].currentPrice <= p.targetPrice
    requires TapeOk(s0.db, tape, 0)
    ensures Follows(tape, s0, s) && TapeOk(s.db, tape, 5) && s.db == SetOrder(s0.db, o, NewOrder(p))
    ensures s.procs == [p.(create := CreateAnnouncing(o)), Evaluation(p.symbol, EvalQueued)]
  {
    var price := s0.db.stocks[p.symbol].currentPrice;
    o := tape(3).freshId;
    assert s0 == Sys(s0.db, []);
    Requests(s0.db, [], p, tape, 0);
    var q := p.(create := Inserted(o, price));
    var s1 := Sys(SetOrder(s0.db, o, NewOrder(p)), [] + [q]);
    s := Moves(s1, 0, tape, 4);
    FollowsTransitive(tape, s0, s1, s);
  }

  lemma {:induction false} TriggeredReachable(s0: Sys, p: Proc, tape: Tape) returns (s: Sys, o: Id)
    requires Init(s0) && Accepts(s0.db, p) && s0.db.stocks[p.symbol].currentPrice <= p.targetPrice
    requires TapeOk(s0.db, tape, 0) && forall m :: tape(m).delivered
    ensures Follows(tape, s0, s) && TapeOk(s.db, tape, 10) && TriggeredOnce(s, o, p, tape(8).now)
    ensures s.procs == [p.(create := CreateAnnouncing(o)), Evaluation(p.symbol, Scanning([])), Execution(o, Queued)]
  {
    var s1: Sys;
    s1, o := QueuedReachable(s0, p, tape);
    s := TriggersSole(s1, 1, p.symbol, o, tape, 5);
    FollowsTransitive(tape, s0, s1, s);
  }

  // The price rises, the execution sends the order back, the price falls, and an evaluation is queued.
  lemma {:induction false} GoesBackAndFalls(s: Sys, o: Id, p: Proc, high: real, low: real, at: int, tape: Tape, n: nat)
    returns (s': Sys)
    requires TriggeredOnce(s, o, p, at) && p.targetPrice < high && 0.0 <= low && TapeOk(s.db, tape, n) && high >= 0.0
    ensures Follows(tape, s, s') && TapeOk(s'.db, tape, n + 16) && |s'.procs| >= 1
    ensures s'.procs[|s'.procs| - 1] == Evaluation(p.symbol, EvalQueued)
    ensures s'.db.orders == map[o := NewOrder(p).(status := Pending, reason := PriceMovedAboveTarget)]
    ensures p.symbol in s'.db.stocks && s'.db.stocks[p.symbol].currentPrice == low
    ensures TriggerEvent(o, NewOrder(p), at) in s'.db.events
  {
    var y, k := p.symbol, |s.procs| - 1;
    var db1 := Reprices(s.db, s.procs, y, high, tape, n);
    var s1 := Sys(db1, s.procs + [PriceUpdate(y, high, PriceEnded), Evaluation(y, EvalQueued)]);
    assert s == Sys(s.db, s.procs) && s1.procs[k] == Execution(o, Queued);
    var s2 := GoesBack(s1, k, o, tape, n + 6);
    var db3 := Reprices(s2.db, s2.procs, y, low, tape, n + 10);
    s' := Sys(db3, s2.procs + [PriceUpdate(y, low, PriceEnded), Evaluation(y, EvalQueued)]);
    assert s2 == Sys(s2.db, s2.procs);
    FollowsTransitive(tape, s, s1, s2);
    FollowsTransitive(tape, s, s2, s');
  }

  // From every starting state: a request at its price and two price updates can publish the trigger of
  // one order twice, with two times, whatever the clock says at the two moments.
  lemma {:induction false} RetriggerReachable(s0: Sys, p: Proc, high: real, low: real, tape: Tape)
    returns (s: Sys, o: Id)
    requires Init(s0) && Accepts(s0.db, p) && s0.db.stocks[p.symbol].currentPrice <= p.targetPrice
    requires TapeOk(s0.db, tape, 0) && (forall m :: tape(m).delivered) && 0.0 <= low <= p.targetPrice < high
    ensures Follows(tape, s0, s)
    ensures TriggerEvent(o, NewOrder(p), tape(8).now) in s.db.events
        && TriggerEvent(o, NewOrder(p), tape(29).now) in s.db.events
  {
    var s1: Sys;
    s1, o := TriggeredReachable(s0, p, tape);
    var s2 := GoesBackAndFalls(s1, o, p, high, low, tape(8).now, tape, 10);
    var k := |s2.procs| - 1;
    s := TriggersSole(s2, k, p.symbol, o, tape, 26);
    SameTriggerEvent(o, s2.db.orders[o], NewOrder(p), tape(29).now);
    FollowsTransitive(tape, s0, s1, s2);
    FollowsTransitive(tape, s0, s2, s);
  }

  lemma {:induction false} SameTriggerEvent(o: Id, a: Order, b: Order, at: int)
    requires SameTerms(a, b)
    ensures TriggerEvent(o, a, at) == TriggerEvent(o, b, at)
  {
  }

  // --- A trigger missed by an order that was sent back ---

  // The request and its evaluation come to their end.
  lemma {:induction false} RequestEnds(s: Sys, o: Id, p: Proc, tape: Tape, n: nat) returns (s': Sys)
    requires p.Creation? && TapeOk(s.db, tape, n)
    requires s.procs == [p.(create := CreateAnnouncing(o)), Evaluation(p.symbol, Scanning([])), Execution(o, Queued)]
    ensures Follows(tape, s, s') && TapeOk(s'.db, tape, n + 2) && s'.db == s.db.(events := s'.db.events)
    ensures s'.procs == [p.(create := CreatePc.Created(o)), Evaluation(p.symbol, EvalEnded), Execution(o, Queued)]
  {
    var s1 := Moves(s, 0, tape, n);
    assert s1.procs == s.procs[0 := p.(create := CreatePc.Created(o))];
    s' := Moves(s1, 1, tape, n + 1);
    FollowsTransitive(tape, s, s1, s');
  }

  // The claimed order's price read is above its target, and the execution is about to send it back.
  lemma {:induction false} AboutToRevert(s: Sys, o: Id, p: Proc, high: real, tape: Tape, n: nat)
    returns (s': Sys, order: Order)
    requires p.Creation? && TapeOk(s.db, tape, n) && p.targetPrice < high && 0.0 <= high
    requires s.db.orders == map[o := NewOrder(p).(status := OrderStatus.Triggered)] && s.db.trades == []
    requires |s.procs| == 3 && s.procs[2] == Execution(o, Queued)
    ensures Follows(tape, s, s') && TapeOk(s'.db, tape, n + 12)
    ensures order == NewOrder(p).(status := Executing) && s'.db.orders == map[o := order] && s'.db.trades == []
    ensures s'.procs == s.procs[2 := Execution(o, Reverting(order))] + Repriced(p.symbol, high)
  {
    order := NewOrder(p).(status := Executing);
    var y := p.symbol;
    assert s == Sys(s.db, s.procs);
    var db1 := RepricesUnseen(s.db, s.procs, y, high, tape, n);
    var s1 := Sys(db1, s.procs + Repriced(y, high));
    s' := ClaimsAndPrices(s1, 2, o, tape, n + 9);
    assert s'.db.orders == map[o := order];
    FollowsTransitive(tape, s, s1, s');
  }

  // The price falls and its evaluation finds nothing PENDING; then the order goes back.
  lemma {:induction false} RevertsLate(s: Sys, o: Id, order: Order, low: real, tape: Tape, n: nat) returns (s': Sys)
    requires TapeOk(s.db, tape, n) && 0.0 <= low && order.status == Executing && s.db.orders == map[o := order]
    requires |s.procs| >= 3 && s.procs[2] == Execution(o, Reverting(order))
    ensures Follows(tape, s, s')
    ensures s'.procs == s.procs[2 := Execution(o, Ended)] + Repriced(order.symbol, low)
    ensures s'.db.orders == map[o := order.(status := Pending, reason := PriceMovedAboveTarget)]
    ensures order.symbol in s'.db.stocks && s'.db.stocks[order.symbol].currentPrice == low
  {
    assert s == Sys(s.db, s.procs);
    var db1 := RepricesUnseen(s.db, s.procs, order.symbol, low, tape, n);
    var s1 := Sys(db1, s.procs + Repriced(order.symbol, low));
    s' := Moves(s1, 2, tape, n + 9);
    assert s'.db.orders == map[o := order.(status := Pending, reason := PriceMovedAboveTarget)];
    FollowsTransitive(tape, s, s1, s');
  }

  lemma {:induction false} SentBackAtTheEnd(s: Sys, o: Id, p: Proc, high: real, low: real)
    requires p.Creation?
    requires s.procs == [p.(create := CreatePc.Created(o)), Evaluation(p.symbol, EvalEnded), Execution(o, Ended)]
                        + Repriced(p.symbol, high) + Repriced(p.symbol, low)
    ensures Quiescent(s)
  {
  }

  // From every starting state: a request at its price and two price updates can leave the order PENDING at
  // a price that meets its target, sent back by an execution that read the higher price, with every call
  // at its end and no evaluation to come.
  lemma {:induction false} SentBackMissedReachable(s0: Sys, p: Proc, high: real, low: real, tape: Tape)
    returns (s: Sys, o: Id)
    requires Init(s0) && Accepts(s0.db, p) && s0.db.stocks[p.symbol].currentPrice <= p.targetPrice
    requires TapeOk(s0.db, tape, 0) && (forall m :: tape(m).delivered) && 0.0 <= low <= p.targetPrice < high
    ensures Follows(tape, s0, s) && Quiescent(s)
    ensures o in s.db.orders && s.db.orders[o].reason == PriceMovedAboveTarget && p.symbol in s.db.stocks
        && Eligible(s.db.orders[o], p.symbol, s.db.stocks[p.symbol].currentPrice)
  {
    var s1: Sys;
    s1, o := TriggeredReachable(s0, p, tape);
    var s2 := RequestEnds(s1, o, p, tape, 10);
    var s3, order := AboutToRevert(s2, o, p, high, tape, 12);
    s := RevertsLate(s3, o, order, low, tape, 24);
    assert s.procs == [p.(create := CreatePc.Created(o)), Evaluation(p.symbol, EvalEnded), Execution(o, Ended)]
                      + Repriced(p.symbol, high) + Repriced(p.symbol, low);
    SentBackAtTheEnd(s, o, p, high, low);
    FollowsTransitive(tape, s0, s1, s2);
    FollowsTransitive(tape, s0, s2, s3);
    FollowsTransitive(tape, s0, s3, s);
  }
}
