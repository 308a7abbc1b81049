/**
 The order guarantees, over every schedule: who may write an order, how its status moves, that its
 debit and its trade happen once or not at all, and at what price.
 */
module OrderSafety {
  import opened Wrappers
  import opened AnalyticsEvents
  import opened Domain
  import opened Protocol
  import opened Ownership

  // --- Ownership ---

  // EXECUTING means claimed, and a claim has one holder, running or stopped.
  lemma {:induction false} ExecutingIffClaimedOnce(s0: Sys, acts: seq<Action>, o: Id)
    requires Init(s0)
    ensures var s := Run(s0, acts);
      && (HasStatus(s.db, o, Executing) <==> Held(s.procs, o))
      && (forall i, j | 0 <= i < |s.procs| && 0 <= j < |s.procs| && ClaimedBy(s.procs[i], o)
          && ClaimedBy(s.procs[j], o) :: i == j)
  {
    RunKeepsInv(s0, acts);
    var s := Run(s0, acts);
    if Held(s.procs, o) {
      var i :| 0 <= i < |s.procs| && ClaimedBy(s.procs[i], o);
      assert ProcOk(s.db, s.procs[i]);
    }
  }

  // The two unconditional writes: one is never reached, and the other one finds the order
  // EXECUTING under the very execution that makes it, so its missing condition would hold.
  lemma {:induction false} UnguardedWritesHitOwnClaim(s0: Sys, acts: seq<Action>, i: nat)
    requires Init(s0) && i < |Run(s0, acts).procs| && Run(s0, acts).procs[i].Execution?
    ensures var s := Run(s0, acts); var p := s.procs[i];
      && !p.exec.FoundTrade? && !p.exec.ThrewNoStock? && !p.exec.ThrewDuplicateTrade?
      && (p.exec.Reverting? ==> HasStatus(s.db, p.orderId, Executing) && ClaimedBy(p, p.orderId))
  {
    RunKeepsInv(s0, acts);
    assert ProcOk(Run(s0, acts).db, Run(s0, acts).procs[i]);
  }

  // --- Status moves ---

  predicate StatusMoves(from: OrderStatus, to: OrderStatus) {
    match from
    case Pending => to in {Pending, OrderStatus.Triggered, OrderStatus.Cancelled}
    case Triggered => to in {OrderStatus.Triggered, Executing, OrderStatus.Cancelled}
    case Executing => to in {Executing, Pending, Completed, OrderStatus.Failed}
    case _ => to == from
  }

  // An order keeps its terms, moves along the lifecycle, and once finished is never written again.
  predicate OrderMoves(db: Db, db': Db, o: Id)
    requires o in db.orders
  {
    && o in db'.orders
    && SameTerms(db.orders[o], db'.orders[o])
    && StatusMoves(db.orders[o].status, db'.orders[o].status)
    && (db.orders[o].status in {Completed, OrderStatus.Cancelled, OrderStatus.Failed} ==> db'.orders[o] == db.orders[o])
  }

  lemma {:induction false} ExecStepMoves(db: Db, o: Id, pc: ExecPc, env: Env)
    requires o in db.orders && LocallyOk(db, o, pc)
    ensures OrderMoves(db, ExecStep(db, o, pc, env).0, o)
  {
  }

  lemma {:induction false} CreateStepMoves(db: Db, p: Proc, env: Env, o: Id)
    requires o in db.orders && p.Creation? && env.freshId !in db.orders
    ensures OrderMoves(db, CreateStep(db, p, env).0, o)
  {
  }

  lemma {:induction false} EvalStepMoves(db: Db, symbol: string, pc: EvalPc, env: Env, o: Id)
    requires o in db.orders
    ensures OrderMoves(db, EvalStep(db, symbol, pc, env).0, o)
  {
  }

  lemma {:induction false} CancelStepMoves(db: Db, userId: Id, x: Id, pc: CancelPc, env: Env, o: Id)
    requires o in db.orders
    ensures OrderMoves(db, CancelStep(db, userId, x, pc, env).0, o)
  {
  }

  lemma {:induction false} OtherStepMoves(db: Db, p: Proc, env: Env, o: Id)
    requires o in db.orders && !p.Execution? && IdUnused(db, env.freshId)
    ensures OrderMoves(db, ProcStep(db, p, env).0, o)
  {
    match p {
      case Creation(_, _, _, _, _, _) => CreateStepMoves(db, p, env, o);
      case Evaluation(symbol, pc) => EvalStepMoves(db, symbol, pc, env, o);
      case Cancellation(userId, x, pc) => CancelStepMoves(db, userId, x, pc, env, o);
      case PriceUpdate(_, _, _) => assert ProcStep(db, p, env).0.orders == db.orders;
      case Depositing(_, _, _) => assert ProcStep(db, p, env).0.orders == db.orders;
    }
  }

  lemma {:induction false} ExecStepOrders(db: Db, x: Id, pc: ExecPc, env: Env)
    ensures ExecStep(db, x, pc, env).0.orders.Keys == db.orders.Keys
  {
  }

  lemma {:induction false} CancelStepOrders(db: Db, userId: Id, x: Id, pc: CancelPc, env: Env)
    ensures CancelStep(db, userId, x, pc, env).0.orders.Keys == db.orders.Keys
  {
  }

  // An order that is new after a step was inserted by a creation call.
  lemma {:induction false} InsertedByCreation(db: Db, p: Proc, env: Env, o: Id)
    requires o !in db.orders && o in ProcStep(db, p, env).0.orders
    ensures p.Creation? && p.create.UserRead? && o == env.freshId
        && ProcStep(db, p, env).0 == SetOrder(db, o, NewOrder(p))
  {
    match p {
      case Creation(_, _, _, _, _, _) => CreateStepFacts(db, p, env);
      case Execution(x, pc) =>
        ExecStepOrders(db, x, pc, env);
        assert false;
      case Evaluation(symbol, pc) =>
        EvalStepFacts(db, symbol, pc, env);
        assert false;
      case Cancellation(userId, x, pc) =>
        CancelStepOrders(db, userId, x, pc, env);
        assert false;
      case PriceUpdate(_, _, _) => assert false;
      case Depositing(_, _, _) => assert false;
    }
  }

  lemma {:induction false} StepMoves(s: Sys, a: Action, o: Id)
    requires Inv(s) && o in s.db.orders
    ensures OrderMoves(s.db, Step(s, a).db, o)
  {
    if a.Advance? && a.i < |s.procs| && EnvOk(s.db, s.procs[a.i], a.env) {
      var p := s.procs[a.i];
      assert ProcOk(s.db, p);
      if !p.Execution? {
        OtherStepMoves(s.db, p, a.env, o);
      } else if p.orderId == o {
        assert OrderOk(s.db, o);
        ExecStepMoves(s.db, o, p.exec, a.env);
      } else {
        ExecStepSameFor(s.db, p.orderId, p.exec, a.env, o);
      }
    }
  }

  lemma {:induction false} RunSplit(s: Sys, acts: seq<Action>, a: Action)
    ensures Run(s, acts + [a]) == Step(Run(s, acts), a)
  {
    assert (acts + [a])[..|acts|] == acts;
  }

  // The state after the first m actions.
  ghost function At(s0: Sys, acts: seq<Action>, m: nat): Sys
    requires m <= |acts|
  {
    Run(s0, acts[..m])
  }

  lemma {:induction false} NextState(s0: Sys, acts: seq<Action>, m: nat)
    requires m < |acts|
    ensures At(s0, acts, m + 1) == Step(At(s0, acts, m), acts[m])
  {
    assert acts[..m + 1] == acts[..m] + [acts[m]];
    RunSplit(s0, acts[..m], acts[m]);
  }

  lemma {:induction false} AtAppend(s0: Sys, acts: seq<Action>, a: Action)
    ensures forall m: nat | m <= |acts| :: At(s0, acts + [a], m) == At(s0, acts, m)
    ensures At(s0, acts, |acts|) == Run(s0, acts) && At(s0, acts + [a], |acts| + 1) == Run(s0, acts + [a])
  {
    forall m: nat | m <= |acts| ensures At(s0, acts + [a], m) == At(s0, acts, m) {
      assert (acts + [a])[..m] == acts[..m];
    }
    assert acts[..|acts|] == acts && (acts + [a])[..|acts| + 1] == acts + [a];
  }

  // COMPLETED, CANCELLED and FAILED are final: whatever is scheduled later, the document is the same.
  lemma {:induction false} FinishedOrdersNeverChange(s0: Sys, acts: seq<Action>, more: seq<Action>, o: Id)
    requires Init(s0) && o in Run(s0, acts).db.orders
    ensures o in Run(s0, acts + more).db.orders
    ensures SameTerms(Run(s0, acts).db.orders[o], Run(s0, acts + more).db.orders[o])
    ensures Run(s0, acts).db.orders[o].status in {Completed, OrderStatus.Cancelled, OrderStatus.Failed}
            ==> Run(s0, acts + more).db.orders[o] == Run(s0, acts).db.orders[o]
  {
    if more == [] {
      assert acts + more == acts;
    } else {
      var init, last := more[..|more| - 1], more[|more| - 1];
      FinishedOrdersNeverChange(s0, acts, init, o);
      assert acts + more == (acts + init) + [last];
      RunSplit(s0, acts + init, last);
      RunKeepsInv(s0, acts + init);
      StepMoves(Run(s0, acts + init), last, o);
    }
  }

  // An order that exists is kept, with its terms.
  lemma {:induction false} OrderKept(s0: Sys, acts: seq<Action>, k: nat, o: Id)
    requires Init(s0) && k <= |acts| && o in At(s0, acts, k).db.orders
    ensures o in Run(s0, acts).db.orders
    ensures SameTerms(At(s0, acts, k).db.orders[o], Run(s0, acts).db.orders[o])
  {
    assert acts == acts[..k] + acts[k..];
    FinishedOrdersNeverChange(s0, acts[..k], acts[k..], o);
  }

  // --- Exactly one effect ---

  predicate TradeRecorded(db: Db, o: Id) {
    TradesOf(db.trades, o) != []
  }

  // A trade, its debit row, and the price both agree on.
  predicate FilledAt(db: Db, o: Id, price: real)
    requires o in db.orders
  {
    var order := db.orders[o];
    && |TradesOf(db.trades, o)| == 1 && |DebitsOf(db.ledger, o)| == 1
    && var t, r := TradesOf(db.trades, o)[0], DebitsOf(db.ledger, o)[0];
       && t == TradeFor(o, order, price, t.executedAt)
       && r.userId == order.userId && r.amount == t.totalCost
       && 0.0 <= price <= order.targetPrice
  }

  predicate OneEffect(db: Db, o: Id) {
    && |TradesOf(db.trades, o)| <= 1 && |DebitsOf(db.ledger, o)| <= 1
    && (TradeRecorded(db, o) ==>
          o in db.orders && db.orders[o].status in {Executing, Completed}
          && FilledAt(db, o, TradesOf(db.trades, o)[0].executedPrice))
    && (HasStatus(db, o, Completed) ==>
        TradeRecorded(db, o) && db.orders[o].executedPrice == Some(TradesOf(db.trades, o)[0].executedPrice))
    && (!HasStatus(db, o, Completed) && !HasStatus(db, o, Executing) ==> Untraded(db, o) && Uncharged(db, o))
  }

  lemma {:induction false} RestingOneEffect(db: Db, o: Id)
    requires o in db.orders && OrderOk(db, o) && db.orders[o].status != Executing
    ensures OneEffect(db, o)
  {
    if db.orders[o].status == Completed {
      assert FilledAt(db, o, TradesOf(db.trades, o)[0].executedPrice);
    }
  }

  lemma {:induction false} HolderOneEffect(db: Db, o: Id, pc: ExecPc)
    requires HoldsClaim(pc) && HolderOk(db, o, pc)
    ensures OneEffect(db, o)
  {
    if Untraded(db, o) {
      assert Uncharged(db, o) || ChargedOnce(db, o, pc.order, pc.price);
    } else {
      assert Filled(db, o, pc.order, pc.price, pc.at);
      assert TradesOf(db.trades, o) == [TradeFor(o, pc.order, pc.price, pc.at)];
      assert FilledAt(db, o, pc.price);
    }
  }

  // At most one debit and one trade; a trade means EXECUTING or COMPLETED, with the matching debit;
  // COMPLETED means both, at the recorded price; every other status means neither.
  lemma {:induction false} EffectsHappenOnce(s0: Sys, acts: seq<Action>, o: Id)
    requires Init(s0)
    ensures OneEffect(Run(s0, acts).db, o)
  {
    RunKeepsInv(s0, acts);
    var s := Run(s0, acts);
    if HasStatus(s.db, o, Executing) {
      assert Held(s.procs, o);
      var i :| 0 <= i < |s.procs| && ClaimedBy(s.procs[i], o);
      assert ProcOk(s.db, s.procs[i]);
      HolderOneEffect(s.db, o, s.procs[i].exec);
    } else if o in s.db.orders {
      RestingOneEffect(s.db, o);
    } else {
      assert Untraded(s.db, o) && Uncharged(s.db, o);
    }
  }

  lemma {:induction false} CostBounds(q: real, p: real, g: real)
    requires q >= 1.0 && 0.0 <= p <= g
    ensures 0.0 <= q * p <= q * g
  {
    assert q * g - q * p == q * (g - p);
  }

  lemma {:induction false} TradeMatchesOrder(db: Db, t: Trade)
    requires t in db.trades && OneEffect(db, t.buyOrderId)
    ensures t.buyOrderId in db.orders
    ensures t == TradeFor(t.buyOrderId, db.orders[t.buyOrderId], t.executedPrice, t.executedAt)
    ensures 0.0 <= t.executedPrice <= db.orders[t.buyOrderId].targetPrice
  {
    var o := t.buyOrderId;
    TradesOfMember(db.trades, t, o);
    assert TradesOf(db.trades, o) == [t];
    assert FilledAt(db, o, t.executedPrice);
  }

  predicate RespectsTarget(t: Trade, order: Order) {
    && t.executedPrice <= order.targetPrice && t.quantity == order.quantity
    && t.totalCost == t.quantity * t.executedPrice
    && 0.0 <= t.totalCost <= t.quantity * order.targetPrice
  }

  lemma {:induction false} PricedTradeRespectsTarget(order: Order, o: Id, price: real, at: int)
    requires order.quantity >= 1.0 && 0.0 <= price <= order.targetPrice
    ensures RespectsTarget(TradeFor(o, order, price, at), order)
  {
    CostBounds(order.quantity, price, order.targetPrice);
  }

  // No order is ever bought above its target, and the cost is quantity times the price paid.
  lemma {:induction false} TradesRespectTargets(s0: Sys, acts: seq<Action>, t: Trade)
    requires Init(s0) && t in Run(s0, acts).db.trades
    ensures t.buyOrderId in Run(s0, acts).db.orders
    ensures RespectsTarget(t, Run(s0, acts).db.orders[t.buyOrderId])
  {
    var db := Run(s0, acts).db;
    EffectsHappenOnce(s0, acts, t.buyOrderId);
    TradeMatchesOrder(db, t);
    var order := db.orders[t.buyOrderId];
    assert order.quantity >= 1.0 by {
      RunKeepsInv(s0, acts);
      assert OrderOk(db, t.buyOrderId);
    }
    PricedTradeRespectsTarget(order, t.buyOrderId, t.executedPrice, t.executedAt);
  }

  // --- The price paid was quoted while the order was claimed ---

  ghost predicate QuotedWhileClaimed(s0: Sys, acts: seq<Action>, o: Id, price: real) {
    exists k | 0 <= k <= |acts| :: QuotedAt(Run(s0, acts[..k]), o, price)
  }

  ghost predicate QuotedAt(s: Sys, o: Id, price: real) {
    && HasStatus(s.db, o, Executing) && Held(s.procs, o)
    && s.db.orders[o].symbol in s.db.stocks && s.db.stocks[s.db.orders[o].symbol].currentPrice == price
  }

  predicate CarriesPrice(pc: ExecPc) {
    pc.Priced? || pc.Debited? || pc.Ledgered? || pc.Charged?
  }

  lemma {:induction false} QuoteKept(s0: Sys, acts: seq<Action>, a: Action, o: Id, price: real)
    requires QuotedWhileClaimed(s0, acts, o, price)
    ensures QuotedWhileClaimed(s0, acts + [a], o, price)
  {
    var k :| 0 <= k <= |acts| && QuotedAt(Run(s0, acts[..k]), o, price);
    assert (acts + [a])[..k] == acts[..k];
  }

  lemma {:induction false} QuoteRead(s0: Sys, acts: seq<Action>, a: Action, i: nat)
    requires Init(s0) && i < |Run(s0, acts).procs|
    requires var s := Run(s0, acts); var p := s.procs[i];
      p.Execution? && p.exec.Unexecuted? && p.exec.order.symbol in s.db.stocks
    ensures var s := Run(s0, acts); var p := s.procs[i];
      QuotedWhileClaimed(s0, acts + [a], p.orderId, s.db.stocks[p.exec.order.symbol].currentPrice)
  {
    RunKeepsInv(s0, acts);
    var s := Run(s0, acts);
    assert ProcOk(s.db, s.procs[i]);
    assert ClaimedBy(s.procs[i], s.procs[i].orderId);
    assert (acts + [a])[..|acts|] == acts;
    assert QuotedAt(Run(s0, (acts + [a])[..|acts|]), s.procs[i].orderId,
        s.db.stocks[s.procs[i].exec.order.symbol].currentPrice);
  }

  lemma {:induction false} ExecStepPrices(db: Db, o: Id, pc: ExecPc, env: Env)
    ensures var (db', pc') := ExecStep(db, o, pc, env);
      && (CarriesPrice(pc') && !(CarriesPrice(pc) && pc'.price == pc.price)
          ==> pc.Unexecuted? && pc.order.symbol in db.stocks && pc'.price == db.stocks[pc.order.symbol].currentPrice)
      && (db'.trades == db.trades
          || (pc.Charged? && db'.trades == db.trades + [TradeFor(o, pc.order, pc.price, env.now)]))
  {
  }

  ghost predicate PricesQuoted(s0: Sys, acts: seq<Action>) {
    var s := Run(s0, acts);
    && (forall t | t in s.db.trades :: QuotedWhileClaimed(s0, acts, t.buyOrderId, t.executedPrice))
    && (forall i | 0 <= i < |s.procs| && s.procs[i].Execution? && CarriesPrice(s.procs[i].exec)
          :: QuotedWhileClaimed(s0, acts, s.procs[i].orderId, s.procs[i].exec.price))
  }

  // The price may have moved since, before the debit or before the trade; but it was the stock's
  // current price at a moment when the order was already EXECUTING under its holder.
  lemma {:induction false} TradePricesWereQuoted(s0: Sys, acts: seq<Action>)
    requires Init(s0)
    ensures PricesQuoted(s0, acts)
  {
    if acts != [] {
      var init, a := acts[..|acts| - 1], acts[|acts| - 1];
      assert acts == init + [a];
      TradePricesWereQuoted(s0, init);
      var s := Run(s0, init);
      var s' := Run(s0, acts);
      assert s' == Step(s, a);
      PriceStepQuoted(s0, init, a);
    }
  }

  lemma {:induction false} PriceStepQuoted(s0: Sys, init: seq<Action>, a: Action)
    requires Init(s0) && PricesQuoted(s0, init)
    ensures PricesQuoted(s0, init + [a])
  {
    var s := Run(s0, init);
    var s' := Run(s0, init + [a]);
    RunSplit(s0, init, a);
    var moved := a.Advance? && a.i < |s.procs| && EnvOk(s.db, s.procs[a.i], a.env);
    if moved && s.procs[a.i].Execution? {
      ExecStepPrices(s.db, s.procs[a.i].orderId, s.procs[a.i].exec, a.env);
    } else if moved {
      OtherStepKeepsTrades(s.db, s.procs[a.i], a.env);
    }
    forall t | t in s'.db.trades ensures QuotedWhileClaimed(s0, init + [a], t.buyOrderId, t.executedPrice) {
      if t in s.db.trades {
        QuoteKept(s0, init, a, t.buyOrderId, t.executedPrice);
      } else {
        QuoteKept(s0, init, a, s.procs[a.i].orderId, s.procs[a.i].exec.price);
      }
    }
    forall i | 0 <= i < |s'.procs| && s'.procs[i].Execution? && CarriesPrice(s'.procs[i].exec)
      ensures QuotedWhileClaimed(s0, init + [a], s'.procs[i].orderId, s'.procs[i].exec.price)
    {
      if i < |s.procs| && s.procs[i].Execution? && CarriesPrice(s.procs[i].exec) {
        QuoteKept(s0, init, a, s.procs[i].orderId, s.procs[i].exec.price);
      } else {
        QuoteRead(s0, init, a, i);
      }
    }
  }

  lemma {:induction false} OtherStepKeepsTrades(db: Db, p: Proc, env: Env)
    requires !p.Execution?
    ensures var (db', p', more) := ProcStep(db, p, env);
      && db'.trades == db.trades && !p'.Execution?
      && (forall q | q in more :: q.Execution? ==> q.exec == Queued)
  {
  }
}
