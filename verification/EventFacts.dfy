/**
 The published events field by field, and every time in them: over every schedule, an event carries the
 clock of the step that published it, except that an execution carries the time its trade was recorded and
 a price update the time its record was written.
 */
module EventFacts {
  import opened Wrappers
  import opened AnalyticsEvents
  import opened Domain
  import opened Protocol
  import opened Ownership
  import opened OrderSafety
  import opened EventLog
  import opened PriceNews

  // Step m publishes the event.
  ghost predicate PublishedAt(s0: Sys, acts: seq<Action>, m: nat, e: Event) {
    m < |acts| && At(s0, acts, m + 1).db.events == At(s0, acts, m).db.events + [e]
  }

  // Every published event was published by a step.
  lemma {:induction false} WasPublished(s0: Sys, acts: seq<Action>, n: nat, e: Event) returns (m: nat)
    requires Init(s0) && n <= |acts| && e in At(s0, acts, n).db.events
    ensures m < n && PublishedAt(s0, acts, m, e)
    decreases n
  {
    assert acts[..0] == [];
    m := n - 1;
    NextState(s0, acts, m);
    if e in At(s0, acts, m).db.events {
      m := WasPublished(s0, acts, m, e);
    } else {
      var s := At(s0, acts, m);
      StepPublishes(s.db, s.procs[acts[m].i], acts[m].env);
    }
  }

  // The publishing process, which changes nothing but the events.
  lemma {:induction false} Publisher(s0: Sys, acts: seq<Action>, m: nat, e: Event)
    requires Init(s0) && PublishedAt(s0, acts, m, e)
    ensures var s, a := At(s0, acts, m), acts[m];
      && a.Advance? && a.i < |s.procs| && EnvOk(s.db, s.procs[a.i], a.env) && a.env.delivered
      && Publishes(s.procs[a.i], a.env) == Some(e)
      && ProcOk(s.db, s.procs[a.i]) && AnnouncerOk(s.db, s.procs[a.i])
  {
    var s, a := At(s0, acts, m), acts[m];
    NextState(s0, acts, m);
    RunKeepsInv(s0, acts[..m]);
    RunKeepsLog(s0, acts[..m]);
    assert |At(s0, acts, m + 1).db.events| != |s.db.events|;
    assert a.Advance?;
    StepPublishes(s.db, s.procs[a.i], a.env);
    assert At(s0, acts, m + 1).db.events[|s.db.events|] == e;
  }

  lemma {:induction false} Teller(s0: Sys, acts: seq<Action>, m: nat, e: Event) returns (a: Action, p: Proc)
    requires Init(s0) && PublishedAt(s0, acts, m, e)
    ensures a == acts[m] && a.Advance? && Publishes(p, a.env) == Some(e) && ProcOk(At(s0, acts, m).db, p)
  {
    Publisher(s0, acts, m, e);
    a := acts[m];
    p := At(s0, acts, m).procs[a.i];
  }

  // A creation, a trigger and a cancellation quote the order's target and no cost, and carry the time they
  // were published at.
  lemma {:induction false} WaitingOrderEvents(s0: Sys, acts: seq<Action>, m: nat, e: Event)
    requires Init(s0) && PublishedAt(s0, acts, m, e)
    requires e.payload.OrderPayload? && e.payload.kind in {OrderEventKind.Created, OrderEventKind.Triggered,
                                                           OrderEventKind.Cancelled}
    ensures acts[m].Advance? && e.occurredAt == acts[m].env.now
    ensures var o, orders := e.payload.orderId, At(s0, acts, m).db.orders;
      && o in orders && e.userId == Some(orders[o].userId)
      && e.payload.symbol == orders[o].symbol && e.payload.quantity == Some(orders[o].quantity)
      && e.payload.price == Some(orders[o].targetPrice) && e.payload.totalCost == None
      && (e.payload.kind == OrderEventKind.Created ==>
            e.eventId == "order.created:" + o && e.payload.status == Some("pending"))
      && (e.payload.kind == OrderEventKind.Triggered ==>
            e.eventId == "order.triggered:" + o && e.payload.status == Some("triggered"))
      && (e.payload.kind == OrderEventKind.Cancelled ==>
            e.eventId == "order.cancelled:" + o && e.payload.status == Some("cancelled")
            && orders[o].status == OrderStatus.Cancelled)
  {
    Publisher(s0, acts, m, e);
    EventIdSpelled(e.payload.orderId);
  }

  lemma {:induction false} MarkedTrade(db: Db, o: Id, order: Order, price: real, at: int)
    requires HolderOk(db, o, CompleteMarked(order, price, at))
    ensures Trade(o, db.orders[o].userId, db.orders[o].symbol, price, db.orders[o].quantity, Cost(order, price), at)
            in db.trades
    ensures Cost(order, price) == db.orders[o].quantity * price
  {
    var t := TradeFor(o, order, price, at);
    assert TradesOf(db.trades, o) == [t];
    TradesOfMember(db.trades, t, o);
  }

  lemma {:induction false} ExecutionTells(db: Db, p: Proc, env: Env, e: Event)
    requires ProcOk(db, p) && Publishes(p, env) == Some(e)
    requires e.payload.OrderPayload? && e.payload.kind == OrderEventKind.Executed
    ensures var o := e.payload.orderId;
      && o in db.orders && db.orders[o].status == Completed && db.orders[o].executedPrice.Some?
      && e.eventId == "order.executed:" + o && e.payload.status == Some("completed")
      && e.userId == Some(db.orders[o].userId) && e.payload.symbol == db.orders[o].symbol
      && e.payload.quantity == Some(db.orders[o].quantity) && e.payload.price == db.orders[o].executedPrice
      && e.payload.totalCost.Some?
      && e.payload.totalCost.value == db.orders[o].quantity * db.orders[o].executedPrice.value
      && Trade(o, db.orders[o].userId, db.orders[o].symbol, db.orders[o].executedPrice.value, db.orders[o].quantity,
               e.payload.totalCost.value, e.occurredAt) in db.trades
  {
    EventIdSpelled(p.orderId);
    MarkedTrade(db, p.orderId, p.exec.order, p.exec.price, p.exec.at);
  }

  // An execution is that of a trade of the order, with its price, cost and time, and the order is COMPLETED at
  // that price.
  lemma {:induction false} ExecutionEvents(s0: Sys, acts: seq<Action>, m: nat, e: Event) returns (db: Db)
    requires Init(s0) && PublishedAt(s0, acts, m, e)
    requires e.payload.OrderPayload? && e.payload.kind == OrderEventKind.Executed
    ensures db == At(s0, acts, m).db
    ensures var o := e.payload.orderId;
      && o in db.orders && db.orders[o].status == Completed && db.orders[o].executedPrice.Some?
      && e.eventId == "order.executed:" + o && e.payload.status == Some("completed")
      && e.userId == Some(db.orders[o].userId) && e.payload.symbol == db.orders[o].symbol
      && e.payload.quantity == Some(db.orders[o].quantity) && e.payload.price == db.orders[o].executedPrice
      && e.payload.totalCost.Some?
      && e.payload.totalCost.value == db.orders[o].quantity * db.orders[o].executedPrice.value
      && Trade(o, db.orders[o].userId, db.orders[o].symbol, db.orders[o].executedPrice.value, db.orders[o].quantity,
               e.payload.totalCost.value, e.occurredAt) in db.trades
  {
    var a, p := Teller(s0, acts, m, e);
    db := At(s0, acts, m).db;
    ExecutionTells(db, p, a.env, e);
  }

  lemma {:induction false} FailureTells(db: Db, p: Proc, env: Env, e: Event)
    requires ProcOk(db, p) && Publishes(p, env) == Some(e)
    requires e.payload.OrderPayload? && e.payload.kind == OrderEventKind.Failed
    ensures e.occurredAt == env.now
    ensures var o, orders := e.payload.orderId, db.orders;
      && o in orders && orders[o].status == OrderStatus.Failed
      && e.eventId == "order.failed:" + o && e.payload.status == Some("failed")
      && e.userId == Some(orders[o].userId) && e.payload.symbol == orders[o].symbol
      && e.payload.quantity == Some(orders[o].quantity)
      && e.payload.price.Some? && 0.0 <= e.payload.price.value <= orders[o].targetPrice
      && e.payload.totalCost.Some? && e.payload.totalCost.value == orders[o].quantity * e.payload.price.value
  {
    EventIdSpelled(p.orderId);
    assert Cost(p.exec.order, p.exec.price) == db.orders[p.orderId].quantity * p.exec.price;
  }

  // A failure quotes the price at which the order was not filled, never above its target, and what it would
  // have cost; the order is FAILED.
  lemma {:induction false} FailureEvents(s0: Sys, acts: seq<Action>, m: nat, e: Event) returns (db: Db)
    requires Init(s0) && PublishedAt(s0, acts, m, e)
    requires e.payload.OrderPayload? && e.payload.kind == OrderEventKind.Failed
    ensures db == At(s0, acts, m).db && acts[m].Advance? && e.occurredAt == acts[m].env.now
    ensures var o, orders := e.payload.orderId, db.orders;
      && o in orders && orders[o].status == OrderStatus.Failed
      && e.eventId == "order.failed:" + o && e.payload.status == Some("failed")
      && e.userId == Some(orders[o].userId) && e.payload.symbol == orders[o].symbol
      && e.payload.quantity == Some(orders[o].quantity)
      && e.payload.price.Some? && 0.0 <= e.payload.price.value <= orders[o].targetPrice
      && e.payload.totalCost.Some? && e.payload.totalCost.value == orders[o].quantity * e.payload.price.value
  {
    var a, p := Teller(s0, acts, m, e);
    db := At(s0, acts, m).db;
    FailureTells(db, p, a.env, e);
  }

  // A wallet event is that of a ledger row of its kind, with the row's user, amount and balances.
  lemma {:induction false} WalletEvents(s0: Sys, acts: seq<Action>, m: nat, e: Event) returns (row: LedgerRow)
    requires Init(s0) && PublishedAt(s0, acts, m, e)
    requires e.payload.WalletDeposited? || e.payload.WalletDebited?
    ensures acts[m].Advance? && e.occurredAt == acts[m].env.now
    ensures row in At(s0, acts, m).db.ledger && e.userId == Some(row.userId)
    ensures e.payload.amount == row.amount
    ensures e.payload.balanceBefore == row.balanceBefore && e.payload.balanceAfter == row.balanceAfter
    ensures e.payload.WalletDeposited? ==> row.kind == DepositRow && e.eventId == "wallet.deposited:" + row.id
    ensures e.payload.WalletDebited? ==> row.kind == DebitRow && e.eventId == "wallet.debited:" + row.id
  {
    Publisher(s0, acts, m, e);
    var s, a := At(s0, acts, m), acts[m];
    var p := s.procs[a.i];
    row := if p.Execution? then p.exec.row else p.dep.row;
    EventIdSpelled(row.id);
    if p.Execution? {
      DebitsOfMember(s.db.ledger, row, p.orderId);
    }
  }

  // --- Times ---

  // An update that has written its record did so at an earlier step, at the time it remembers.
  lemma {:induction false} RecordedWhen(s0: Sys, acts: seq<Action>, n: nat, i: nat) returns (r: nat)
    requires Init(s0) && n <= |acts| && i < |At(s0, acts, n).procs| && UpdateRecorded(At(s0, acts, n).procs[i])
    requires !At(s0, acts, n).procs[i].upd.PriceAnnounced?
    ensures r < n && acts[r].Advance? && acts[r].env.now == At(s0, acts, n).procs[i].upd.at
    ensures At(s0, acts, r + 1).db.priceEvents
         == At(s0, acts, r).db.priceEvents + [RecordOf(At(s0, acts, n).procs[i])]
    decreases n
  {
    assert acts[..0] == [];
    NextState(s0, acts, n - 1);
    var s := At(s0, acts, n - 1);
    RecorderBefore(s, acts[n - 1], i);
    if UpdateRecorded(s.procs[i]) {
      r := RecordedWhen(s0, acts, n - 1, i);
    } else {
      r := n - 1;
    }
  }

  lemma {:induction false} RecorderBefore(s: Sys, a: Action, i: nat)
    requires i < |Step(s, a).procs| && UpdateRecorded(Step(s, a).procs[i])
    requires !Step(s, a).procs[i].upd.PriceAnnounced?
    ensures i < |s.procs| && var p, p' := s.procs[i], Step(s, a).procs[i];
      if UpdateRecorded(p) then !p.upd.PriceAnnounced? && RecordOf(p) == RecordOf(p') && p.upd.at == p'.upd.at
      else a.Advance? && a.env.now == p'.upd.at
           && Step(s, a).db.priceEvents == s.db.priceEvents + [RecordOf(p')]
  {
    if a.Advance? && a.i < |s.procs| && EnvOk(s.db, s.procs[a.i], a.env) {
      StepRecords(s.db, s.procs[a.i], a.env);
      var more := ProcStep(s.db, s.procs[a.i], a.env).2;
      assert forall j | |s.procs| <= j < |Step(s, a).procs| :: Step(s, a).procs[j] in more;
    }
  }

  // A price update carries the time of the step that wrote its record, a decrease that of its publishing.
  lemma {:induction false} PriceEventTimes(s0: Sys, acts: seq<Action>, m: nat, e: Event)
    returns (r: nat, pe: PriceEvent)
    requires Init(s0) && PublishedAt(s0, acts, m, e)
    requires e.payload.StockPriceUpdated? || e.payload.StockPriceDecreased?
    ensures acts[m].Advance?
    ensures e.payload.StockPriceDecreased? ==>
      e.occurredAt == acts[m].env.now && e.eventId == "stock.price.decreased:" + pe.id
    ensures e.payload.StockPriceUpdated? ==>
      && r < m && acts[r].Advance? && e.occurredAt == acts[r].env.now
      && e.eventId == "stock.price.updated:" + pe.id
      && At(s0, acts, r + 1).db.priceEvents == At(s0, acts, r).db.priceEvents + [pe]
  {
    Publisher(s0, acts, m, e);
    var p := At(s0, acts, m).procs[acts[m].i];
    pe := RecordOf(p);
    EventIdSpelled(pe.id);
    r := 0;
    if e.payload.StockPriceUpdated? {
      r := RecordedWhen(s0, acts, m, acts[m].i);
    }
  }

  // A trade carries the time of the step that recorded it.
  lemma {:induction false} TradeTimes(s0: Sys, acts: seq<Action>, m: nat)
    requires m < |acts| && At(s0, acts, m + 1).db.trades != At(s0, acts, m).db.trades
    ensures acts[m].Advance?
    ensures exists t :: At(s0, acts, m + 1).db.trades == At(s0, acts, m).db.trades + [t]
                        && t.executedAt == acts[m].env.now
  {
    NextState(s0, acts, m);
    var s, a := At(s0, acts, m), acts[m];
    assert a.Advance?;
    var p := s.procs[a.i];
    OtherTrades(s.db, p, a.env);
    var t := TradeFor(p.orderId, p.exec.order, p.exec.price, a.env.now);
    assert At(s0, acts, m + 1).db.trades == s.db.trades + [t];
  }

  lemma {:induction false} OtherTrades(db: Db, p: Proc, env: Env)
    ensures ProcStep(db, p, env).0.trades == db.trades || (p.Execution? && p.exec.Charged?)
  {
  }
}
