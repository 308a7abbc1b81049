/**
 The trading services as a small-step system.

 Every awaited database or publish call is one step.  A running call is a `Proc`: its arguments plus a
 program counter that carries the locals still needed.  Putting a job on a queue appends a process
 that has not started; a job that is delayed or dropped is one that is scheduled late or never, a
 repeated delivery is a second process, a stopped worker is a process never scheduled again, and a
 thrown exception leaves its process at one of the `Threw` counters.  A schedule is any sequence of `Action`s.
 */
module Protocol {
  import opened Wrappers
  import opened AnalyticsEvents
  import opened Domain

  // What the outside world decides at a step: the clock, the id of a new document, whether a
  // publish reaches the topic, the order in which a query lists its result, and how a missing
  // least price compares with null.
  datatype Env = Env(now: int, freshId: Id, delivered: bool, arrange: set<Id> -> seq<Id>, missingIsNull: bool)

  // OrdersService.executeTriggeredOrder, with the debit and portfolio calls it awaits
  datatype ExecPc =
    | Queued
    | Skipped
    | Claimed(order: Order)
    | FoundTrade(order: Order)
    | Unexecuted(order: Order)
    | Reverting(order: Order)
    | Priced(order: Order, price: real)
    | Rejected(order: Order, price: real)
    | FailMarked(order: Order, price: real)
    | Debited(order: Order, price: real, balanceAfter: real)
    | Ledgered(order: Order, price: real, balanceAfter: real, row: LedgerRow)
    | Charged(order: Order, price: real)
    | Traded(order: Order, price: real, at: int)
    | PositionRead(order: Order, price: real, at: int, found: Option<Position>)
    | Positioned(order: Order, price: real, at: int)
    | CompleteMarked(order: Order, price: real, at: int)
    | Ended
    | ThrewNoStock(order: Order)
    | ThrewDuplicateTrade(order: Order, price: real)
    | ThrewAtPosition(order: Order, price: real, at: int)

  // QueueService.processOrderEvaluation
  datatype EvalPc =
    | EvalQueued
    | EvalPriced(price: real)
    | Scanning(todo: seq<Id>)
    | Announcing(order: Order, todo: seq<Id>)
    | Enqueuing(todo: seq<Id>)
    | EvalEnded

  // QueueService.processPriceUpdate
  datatype PricePc =
    | PriceQueued
    | PriceRead(was: Option<Stock>)
    | PriceRecorded(was: Option<Stock>, eventId: Id, at: int)
    | Upserted(was: Option<Stock>, eventId: Id, at: int, stock: Stock)
    | PriceAnnounced(was: Option<Stock>, eventId: Id)
    | DecreaseAnnounced
    | PriceEnded

  // OrdersService.createBuyOrder
  datatype CreatePc =
    | CreateStarted
    | KeyChecked
    | StockRead(currentPrice: real)
    | UserRead(currentPrice: real)
    | Inserted(o: Id, currentPrice: real)
    | CreateAnnouncing(o: Id)
    | Created(o: Id)
    | CreateRefused

  // OrdersService.cancelOrder
  datatype CancelPc = CancelStarted | CancelMarked(order: Order) | CancelEnded | CancelRefused

  // WalletService.deposit
  datatype DepositPc =
    | DepositStarted
    | BalanceRead(before: real)
    | WalletCredited(before: real, after: real)
    | DepositLedgered(row: LedgerRow)
    | DepositEnded
    | DepositRefused

  datatype Proc =
    | Execution(orderId: Id, exec: ExecPc)
    | Evaluation(symbol: string, eval: EvalPc)
    | PriceUpdate(symbol: string, price: real, upd: PricePc)
    | Creation(userId: Id, symbol: string, targetPrice: real, quantity: real, key: Option<string>, create: CreatePc)
    | Cancellation(userId: Id, orderId: Id, cancel: CancelPc)
    | Depositing(userId: Id, amount: real, dep: DepositPc)

  datatype Sys = Sys(db: Db, procs: seq<Proc>)

  datatype Action = Spawn(p: Proc) | Advance(i: nat, env: Env)

  // --- Documents and events a step writes ---

  function DebitRowFor(o: Id, order: Order, price: real, balanceAfter: real, id: Id): LedgerRow {
    LedgerRow(id, order.userId, DebitRow, Cost(order, price), balanceAfter + Cost(order, price), balanceAfter, o)
  }

  function TradeFor(o: Id, order: Order, price: real, at: int): Trade {
    Trade(o, order.userId, order.symbol, price, order.quantity, Cost(order, price), at)
  }

  function OrderEvent(kind: OrderEventKind, o: Id, order: Order, price: real, totalCost: Option<real>, at: int): Event {
    Event(CreateAnalyticsEventId(OrderType(kind), o), at, Some(order.userId),
          OrderPayload(kind, o, order.symbol, Some(order.quantity), Some(price), totalCost,
              Some(OrderStatusName(kind))))
  }

  function DebitEvent(row: LedgerRow, at: int): Event {
    Event(CreateAnalyticsEventId(DebitedType, row.id), at, Some(row.userId),
          WalletDebited(row.amount, row.balanceBefore, row.balanceAfter))
  }

  function DepositEvent(row: LedgerRow, at: int): Event {
    Event(CreateAnalyticsEventId(DepositedType, row.id), at, Some(row.userId),
          WalletDeposited(row.amount, row.balanceBefore, row.balanceAfter))
  }

  function OldPrice(was: Option<Stock>): Option<real> {
    if was.Some? then Some(was.value.currentPrice) else None
  }

  // A publish that does not reach the topic is logged and forgotten.
  function Publish(db: Db, e: Event, env: Env): Db {
    if env.delivered then db.(events := db.events + [e]) else db
  }

  // --- One step of each call ---

  function ExecStep(db: Db, o: Id, pc: ExecPc, env: Env): (Db, ExecPc) {
    match pc
    case Queued =>
      if o in db.orders && db.orders[o].status == OrderStatus.Triggered then
        var order := db.orders[o].(status := Executing);
        (SetOrder(db, o, order), Claimed(order))
      else (db, Skipped)
    case Claimed(order) =>
      if TradesOf(db.trades, o) != [] then (db, FoundTrade(order)) else (db, Unexecuted(order))
    case FoundTrade(order) => // not conditional on the status
      (if o in db.orders then SetOrder(db, o, db.orders[o].(status := Completed)) else db, Ended)
    case Unexecuted(order) =>
      if order.symbol !in db.stocks then (db, ThrewNoStock(order))
      else
        var price := db.stocks[order.symbol].currentPrice;
        (db, if price > order.targetPrice then Reverting(order) else Priced(order, price))
    case Reverting(order) => // not conditional on the status
      (if o in db.orders
       then SetOrder(db, o, db.orders[o].(status := Pending, reason := PriceMovedAboveTarget)) else db, Ended)
    case Priced(order, price) =>
      var cost := Cost(order, price);
      if CanPay(db, order.userId, cost) then
        var users := Credited(db.users, order.userId, -cost);
        (db.(users := users), Debited(order, price, users[order.userId].walletBalance))
      else (db, Rejected(order, price))
    case Rejected(order, price) =>
      (if o in db.orders && db.orders[o].status == Executing
       then SetOrder(db, o, db.orders[o].(status := OrderStatus.Failed, reason := InsufficientFunds)) else db,
       FailMarked(order, price))
    case FailMarked(order, price) =>
      (Publish(db, OrderEvent(OrderEventKind.Failed, o, order, price, Some(Cost(order, price)), env.now), env), Ended)
    case Debited(order, price, balanceAfter) =>
      var row := DebitRowFor(o, order, price, balanceAfter, env.freshId);
      (db.(ledger := db.ledger + [row]), Ledgered(order, price, balanceAfter, row))
    case Ledgered(order, price, balanceAfter, row) =>
      (Publish(db, DebitEvent(row, env.now), env), Charged(order, price))
    case Charged(order, price) => // unique index on the order of a trade
      if TradesOf(db.trades, o) != [] then (db, ThrewDuplicateTrade(order, price))
      else (db.(trades := db.trades + [TradeFor(o, order, price, env.now)]), Traded(order, price, env.now))
    case Traded(order, price, at) =>
      (db, PositionRead(order, price, at, Lookup(db.positions, (order.userId, order.symbol))))
    case PositionRead(order, price, at, found) =>
      var key := (order.userId, order.symbol);
      if found.None? && key in db.positions
          then (db, ThrewAtPosition(order, price, at)) // unique index on user and symbol
      else if found.None? then
        (db.(positions := db.positions[key := NewPosition(order.quantity, Cost(order, price))]),
            Positioned(order, price, at))
      else if key in db.positions then
        var saved := SavePosition(db.positions[key], found.value, order.quantity, Cost(order, price));
        (db.(positions := db.positions[key := saved]), Positioned(order, price, at))
      else (db, ThrewAtPosition(order, price, at)) // the loaded document is gone
    case Positioned(order, price, at) =>
      (if o in db.orders && db.orders[o].status == Executing
       then SetOrder(db, o, db.orders[o].(status := Completed, executedPrice := Some(price),
                                          executedAt := Some(env.now), reason := ExecutedSuccessfully)) else db,
       CompleteMarked(order, price, at))
    case CompleteMarked(order, price, at) =>
      (Publish(db, OrderEvent(Executed, o, order, price, Some(Cost(order, price)), at), env), Ended)
    case _ => (db, pc)
  }

  function EvalStep(db: Db, symbol: string, pc: EvalPc, env: Env): (Db, EvalPc, seq<Proc>) {
    match pc
    case EvalQueued =>
      if symbol in db.stocks then (db, EvalPriced(db.stocks[symbol].currentPrice), []) else (db, EvalEnded, [])
    case EvalPriced(price) => (db, Scanning(env.arrange(EligibleIds(db.orders, symbol, price))), [])
    case Scanning(todo) =>
      if todo == [] then (db, EvalEnded, [])
      else if todo[0] in db.orders && db.orders[todo[0]].status == Pending then
        var order := db.orders[todo[0]].(status := OrderStatus.Triggered);
        (SetOrder(db, todo[0], order), Announcing(order, todo), [])
      else (db, Scanning(todo[1..]), [])
    case Announcing(order, todo) =>
      if todo == [] then (db, EvalEnded, [])
      else (Publish(db, OrderEvent(OrderEventKind.Triggered, todo[0], order, order.targetPrice, None, env.now), env),
          Enqueuing(todo), [])
    case Enqueuing(todo) =>
      if todo == [] then (db, EvalEnded, []) else (db, Scanning(todo[1..]), [Execution(todo[0], Queued)])
    case EvalEnded => (db, pc, [])
  }

  function PriceStep(db: Db, symbol: string, price: real, pc: PricePc, env: Env): (Db, PricePc, seq<Proc>) {
    match pc
    case PriceQueued => (db, PriceRead(Lookup(db.stocks, symbol)), [])
    case PriceRead(was) =>
      (db.(priceEvents := db.priceEvents + [PriceEvent(env.freshId, symbol, OldPrice(was), price)]),
       PriceRecorded(was, env.freshId, env.now), [])
    case PriceRecorded(was, eventId, at) =>
      var stock := UpsertedStock(Lookup(db.stocks, symbol), price, env.freshId, env.missingIsNull);
      (db.(stocks := db.stocks[symbol := stock]), Upserted(was, eventId, at, stock), [])
    case Upserted(was, eventId, at, stock) =>
      var e := Event(CreateAnalyticsEventId(PriceUpdatedType, eventId), at, None,
                     StockPriceUpdated(Some(stock.id), symbol, OldPrice(was), price));
      (Publish(db, e, env), PriceAnnounced(was, eventId), [])
    case PriceAnnounced(was, eventId) =>
      if was.Some? && price < was.value.currentPrice then
        var e := Event(CreateAnalyticsEventId(PriceDecreasedType, eventId), env.now, None,
                       StockPriceDecreased(Some(was.value.id), symbol, OldPrice(was), price));
        (Publish(db, e, env), DecreaseAnnounced, [])
      else (db, DecreaseAnnounced, [])
    case DecreaseAnnounced => (db, PriceEnded, [Evaluation(symbol, EvalQueued)])
    case PriceEnded => (db, pc, [])
  }

  // The order a creation call was asked for.
  function NewOrder(p: Proc): Order
    requires p.Creation?
  {
    Order(p.userId, p.symbol, p.targetPrice, p.quantity, Pending, NoReason, None, None, p.key)
  }

  ghost predicate KeyTaken(orders: map<Id, Order>, key: Option<string>) {
    key.Some? && exists o :: o in orders && orders[o].idempotencyKey == key
  }

  ghost function CreateStep(db: Db, p: Proc, env: Env): (Db, CreatePc, seq<Proc>)
    requires p.Creation?
  {
    match p.create
    case CreateStarted => // a repeated request is answered with the order it made before
      if KeyTaken(db.orders, p.key) then
        var o :| o in db.orders && db.orders[o].idempotencyKey == p.key;
        (db, CreatePc.Created(o), [])
      else (db, KeyChecked, [])
    case KeyChecked =>
      (db, if p.symbol in db.stocks && db.stocks[p.symbol].active
           then StockRead(db.stocks[p.symbol].currentPrice) else CreateRefused, [])
    case StockRead(currentPrice) =>
      (db, if p.userId in db.users && db.users[p.userId].walletBalance >= p.quantity * p.targetPrice
           then UserRead(currentPrice) else CreateRefused, [])
    case UserRead(currentPrice) => // unique index on the idempotency key
      if KeyTaken(db.orders, p.key) then (db, CreateRefused, [])
      else
        (SetOrder(db, env.freshId, NewOrder(p)), Inserted(env.freshId, currentPrice), [])
    case Inserted(o, currentPrice) =>
      (db, CreateAnnouncing(o), if currentPrice <= p.targetPrice then [Evaluation(p.symbol, EvalQueued)] else [])
    case CreateAnnouncing(o) =>
      (Publish(db, OrderEvent(OrderEventKind.Created, o, NewOrder(p), p.targetPrice, None, env.now), env),
          CreatePc.Created(o), [])
    case Created(_) => (db, p.create, [])
    case CreateRefused => (db, p.create, [])
  }

  function CancelStep(db: Db, userId: Id, o: Id, pc: CancelPc, env: Env): (Db, CancelPc) {
    match pc
    case CancelStarted =>
      if o in db.orders && db.orders[o].userId == userId && db.orders[o].status in {Pending, OrderStatus.Triggered} then
        var order := db.orders[o].(status := OrderStatus.Cancelled, reason := CancelledByUser);
        (SetOrder(db, o, order), CancelMarked(order))
      else (db, CancelRefused)
    case CancelMarked(order) =>
      (Publish(db, OrderEvent(OrderEventKind.Cancelled, o, order, order.targetPrice, None, env.now), env), CancelEnded)
    case CancelEnded => (db, pc)
    case CancelRefused => (db, pc)
  }

  function DepositStep(db: Db, userId: Id, amount: real, pc: DepositPc, env: Env): (Db, DepositPc) {
    match pc
    case DepositStarted =>
      (db, if userId in db.users then BalanceRead(db.users[userId].walletBalance) else DepositRefused)
    case BalanceRead(before) =>
      if userId in db.users then
        var users := Credited(db.users, userId, amount);
        (db.(users := users), WalletCredited(before, users[userId].walletBalance))
      else (db, DepositRefused)
    case WalletCredited(before, after) =>
      var row := LedgerRow(env.freshId, userId, DepositRow, amount, before, after, userId);
      (db.(ledger := db.ledger + [row]), DepositLedgered(row))
    case DepositLedgered(row) => (Publish(db, DepositEvent(row, env.now), env), DepositEnded)
    case DepositEnded => (db, pc)
    case DepositRefused => (db, pc)
  }

  ghost function ProcStep(db: Db, p: Proc, env: Env): (Db, Proc, seq<Proc>) {
    match p
    case Execution(o, pc) => var (db', pc') := ExecStep(db, o, pc, env); (db', Execution(o, pc'), [])
    case Evaluation(symbol, pc) =>
      var (db', pc', more) := EvalStep(db, symbol, pc, env); (db', Evaluation(symbol, pc'), more)
    case PriceUpdate(symbol, price, pc) =>
      var (db', pc', more) := PriceStep(db, symbol, price, pc, env); (db', PriceUpdate(symbol, price, pc'), more)
    case Creation(_, _, _, _, _, _) =>
      var (db', pc', more) := CreateStep(db, p, env); (db', p.(create := pc'), more)
    case Cancellation(userId, o, pc) =>
      var (db', pc') := CancelStep(db, userId, o, pc, env); (db', Cancellation(userId, o, pc'), [])
    case Depositing(userId, amount, pc) =>
      var (db', pc') := DepositStep(db, userId, amount, pc, env); (db', Depositing(userId, amount, pc'), [])
  }

  // --- Schedules ---

  // A request or a (possibly repeated) job; the bounds are those of the request validation.
  predicate CanStart(p: Proc) {
    match p
    case Execution(_, pc) => pc == Queued
    case Evaluation(_, pc) => pc == EvalQueued
    case PriceUpdate(_, price, pc) => pc == PriceQueued && price >= 0.0
    case Creation(_, _, target, quantity, _, pc) => pc == CreateStarted && target >= 0.01 && quantity >= 1.0
    case Cancellation(_, _, pc) => pc == CancelStarted
    case Depositing(_, amount, pc) => pc == DepositStarted && amount >= 0.01
  }

  // Ids are given out once, over all collections.
  ghost predicate IdUnused(db: Db, id: Id) {
    && id !in db.orders
    && (forall r | r in db.ledger :: r.id != id)
    && (forall e | e in db.priceEvents :: e.id != id)
    && (forall s | s in db.stocks :: db.stocks[s].id != id)
  }

  ghost predicate EnvOk(db: Db, p: Proc, env: Env) {
    && IdUnused(db, env.freshId)
    && (p.Evaluation? && p.eval.EvalPriced? ==>
          var ids := EligibleIds(db.orders, p.symbol, p.eval.price); Lists(env.arrange(ids), ids))
  }

  ghost function Step(s: Sys, a: Action): Sys {
    match a
    case Spawn(p) => if CanStart(p) then s.(procs := s.procs + [p]) else s
    case Advance(i, env) =>
      if i < |s.procs| && EnvOk(s.db, s.procs[i], env) then
        var (db, p, more) := ProcStep(s.db, s.procs[i], env);
        Sys(db, s.procs[i := p] + more)
      else s
  }

  ghost function Run(s: Sys, acts: seq<Action>): Sys {
    if acts == [] then s else Step(Run(s, acts[..|acts| - 1]), acts[|acts| - 1])
  }

  // The system before the first request: users and stocks exist, nothing has been traded.
  ghost predicate Init(s: Sys) {
    && s.procs == [] && s.db.orders == map[] && s.db.trades == [] && s.db.ledger == []
    && s.db.positions == map[] && s.db.priceEvents == [] && s.db.events == []
    && "" !in s.db.users
    && (forall u | u in s.db.users :: s.db.users[u].walletBalance >= 0.0)
    && (forall y | y in s.db.stocks :: s.db.stocks[y].currentPrice >= 0.0)
  }
}
