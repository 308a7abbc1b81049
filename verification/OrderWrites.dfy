/**
 Every write to an order, over every schedule, and what was checked before it: a creation inserts only after
 it read an active stock and then a wallet that covers the order, and writes nothing otherwise; an order
 becomes CANCELLED only by a cancellation of its owner, and such a cancellation of an order still waiting
 cancels it at once; it becomes FAILED only after its owner could not pay.
 */
module OrderWrites {
  import opened Wrappers
  import opened AnalyticsEvents
  import opened Domain
  import opened Protocol
  import opened Ownership
  import opened OrderSafety
  import opened EventLog
  import opened Idempotency

  // --- Creations ---

  // Step k is a step of request i, taken in this state.
  ghost predicate StepsAt(s0: Sys, acts: seq<Action>, k: nat, i: nat) {
    && k < |acts| && acts[k].Advance? && acts[k].i == i
    && i < |At(s0, acts, k).procs| && At(s0, acts, k).procs[i].Creation?
    && EnvOk(At(s0, acts, k).db, At(s0, acts, k).procs[i], acts[k].env)
  }

  // Step k is the one at which request i reads the stock, and the stock is active.
  ghost predicate ReadsActive(s0: Sys, acts: seq<Action>, k: nat, i: nat, symbol: string) {
    && StepsAt(s0, acts, k, i) && At(s0, acts, k).procs[i].create.KeyChecked?
    && symbol in At(s0, acts, k).db.stocks && At(s0, acts, k).db.stocks[symbol].active
  }

  // Step k is the one at which request i reads the wallet, and the balance covers the amount.
  ghost predicate ReadsCovered(s0: Sys, acts: seq<Action>, k: nat, i: nat, userId: Id, amount: real) {
    && StepsAt(s0, acts, k, i) && At(s0, acts, k).procs[i].create.StockRead?
    && userId in At(s0, acts, k).db.users && At(s0, acts, k).db.users[userId].walletBalance >= amount
  }

  // Each of the two reads lets the request go on exactly if it finds what it must, and writes nothing.
  lemma {:induction false} ReadsDecide(db: Db, p: Proc, env: Env)
    requires p.Creation?
    ensures p.create.KeyChecked? ==>
      && CreateStep(db, p, env).0 == db
      && (CreateStep(db, p, env).1.StockRead? <==> p.symbol in db.stocks && db.stocks[p.symbol].active)
      && (CreateStep(db, p, env).1.StockRead? || CreateStep(db, p, env).1.CreateRefused?)
    ensures p.create.StockRead? ==>
      && CreateStep(db, p, env).0 == db
      && (CreateStep(db, p, env).1.UserRead? <==>
            p.userId in db.users && db.users[p.userId].walletBalance >= p.quantity * p.targetPrice)
      && (CreateStep(db, p, env).1.UserRead? || CreateStep(db, p, env).1.CreateRefused?)
    ensures CreateStep(db, p, env).1.StockRead? ==> p.create.KeyChecked?
    ensures CreateStep(db, p, env).1.UserRead? ==> p.create.StockRead?
  {
  }

  // How request i came to its counter after n actions.
  lemma {:induction false} CameFrom(s0: Sys, acts: seq<Action>, n: nat, i: nat)
    requires 0 < n <= |acts| && i < |At(s0, acts, n).procs| && At(s0, acts, n).procs[i].Creation?
    requires !At(s0, acts, n).procs[i].create.CreateStarted?
    ensures var s, p := At(s0, acts, n - 1), At(s0, acts, n).procs[i];
      && i < |s.procs| && s.procs[i].Creation? && s.procs[i] == p.(create := s.procs[i].create)
      && (s.procs[i] == p
          || (StepsAt(s0, acts, n - 1, i) && p.create == CreateStep(s.db, s.procs[i], acts[n - 1].env).1))
  {
    NextState(s0, acts, n - 1);
    RequestBefore(At(s0, acts, n - 1), acts[n - 1], i);
    RequestStep(At(s0, acts, n - 1), acts[n - 1], i);
  }

  lemma {:induction false} StockWasActive(s0: Sys, acts: seq<Action>, n: nat, i: nat) returns (k: nat)
    requires Init(s0) && n <= |acts| && i < |At(s0, acts, n).procs| && At(s0, acts, n).procs[i].Creation?
    requires At(s0, acts, n).procs[i].create.StockRead?
    ensures k < n && ReadsActive(s0, acts, k, i, At(s0, acts, n).procs[i].symbol)
    decreases n
  {
    assert acts[..0] == [];
    CameFrom(s0, acts, n, i);
    var s := At(s0, acts, n - 1);
    if s.procs[i].create.StockRead? {
      k := StockWasActive(s0, acts, n - 1, i);
    } else {
      ReadsDecide(s.db, s.procs[i], acts[n - 1].env);
      k := n - 1;
    }
  }

  // A request about to insert has read an active stock, and later a wallet that covers its cost.
  lemma {:induction false} WalletCovered(s0: Sys, acts: seq<Action>, n: nat, i: nat) returns (k: nat, w: nat)
    requires Init(s0) && n <= |acts| && i < |At(s0, acts, n).procs| && At(s0, acts, n).procs[i].Creation?
    requires At(s0, acts, n).procs[i].create.UserRead?
    ensures var p := At(s0, acts, n).procs[i];
      k < w < n && ReadsActive(s0, acts, k, i, p.symbol)
      && ReadsCovered(s0, acts, w, i, p.userId, p.quantity * p.targetPrice)
    decreases n
  {
    assert acts[..0] == [];
    CameFrom(s0, acts, n, i);
    var s := At(s0, acts, n - 1);
    if s.procs[i].create.UserRead? {
      k, w := WalletCovered(s0, acts, n - 1, i);
    } else {
      ReadsDecide(s.db, s.procs[i], acts[n - 1].env);
      k := StockWasActive(s0, acts, n - 1, i);
      w := n - 1;
    }
  }

  // Every order inserted in a run is the one its request asked for, PENDING; its request had read an active
  // stock of the symbol, and after that a wallet of the owner that held at least quantity times target.
  lemma {:induction false} InsertsWereCovered(s0: Sys, acts: seq<Action>, m: nat, i: nat, o: Id)
    returns (k: nat, w: nat)
    requires Init(s0) && InsertedBy(s0, acts, m, i, o)
    ensures i < |At(s0, acts, m).procs| && At(s0, acts, m).procs[i].Creation?
    ensures var p, order := At(s0, acts, m).procs[i], At(s0, acts, m + 1).db.orders[o];
      && order.userId == p.userId && order.symbol == p.symbol && order.targetPrice == p.targetPrice
      && order.quantity == p.quantity && order.idempotencyKey == p.key && order.status == Pending
      && order.executedPrice == None && order.executedAt == None && order.reason == NoReason
    ensures k < w < m && acts[k].Advance? && acts[w].Advance? && acts[k].i == i == acts[w].i
    ensures var order, db := At(s0, acts, m + 1).db.orders[o], At(s0, acts, k).db;
      order.symbol in db.stocks && db.stocks[order.symbol].active
    ensures var order, db := At(s0, acts, m + 1).db.orders[o], At(s0, acts, w).db;
      order.userId in db.users && db.users[order.userId].walletBalance >= order.quantity * order.targetPrice
  {
    var s := At(s0, acts, m);
    NextState(s0, acts, m);
    InsertedByCreation(s.db, s.procs[i], acts[m].env, o);
    k, w := WalletCovered(s0, acts, m, i);
  }

  // A request that finds no active stock, or a wallet short of quantity times target, is refused at that
  // step, which changes no collection; it stays refused, and inserts nothing in any continuation.
  lemma {:induction false} RefusedForGood(s0: Sys, acts: seq<Action>, k: nat, i: nat, m: nat, o: Id)
    requires StepsAt(s0, acts, k, i)
    requires var s := At(s0, acts, k); var p := s.procs[i];
      || (p.create.KeyChecked? && (p.symbol !in s.db.stocks || !s.db.stocks[p.symbol].active))
      || (p.create.StockRead?
          && (p.userId !in s.db.users || s.db.users[p.userId].walletBalance < p.quantity * p.targetPrice))
    ensures At(s0, acts, k + 1).db == At(s0, acts, k).db
    ensures forall n | k < n <= |acts| :: i < |At(s0, acts, n).procs|
              && At(s0, acts, n).procs[i] == At(s0, acts, k).procs[i].(create := CreateRefused)
    ensures k <= m ==> !InsertedBy(s0, acts, m, i, o)
  {
    var s := At(s0, acts, k);
    NextState(s0, acts, k);
    ReadsDecide(s.db, s.procs[i], acts[k].env);
    forall n | k < n <= |acts|
      ensures i < |At(s0, acts, n).procs|
              && At(s0, acts, n).procs[i] == s.procs[i].(create := CreateRefused)
    {
      StaysRefused(s0, acts, k + 1, n, i);
    }
    if k <= m && InsertedBy(s0, acts, m, i, o) {
      NextState(s0, acts, m);
      InsertedByCreation(At(s0, acts, m).db, At(s0, acts, m).procs[i], acts[m].env, o);
      assert false;
    }
  }

  lemma {:induction false} StaysRefused(s0: Sys, acts: seq<Action>, k: nat, n: nat, i: nat)
    requires k <= n <= |acts| && i < |At(s0, acts, k).procs|
    requires At(s0, acts, k).procs[i].Creation? && At(s0, acts, k).procs[i].create.CreateRefused?
    ensures i < |At(s0, acts, n).procs| && At(s0, acts, n).procs[i] == At(s0, acts, k).procs[i]
    decreases n
  {
    if k < n {
      StaysRefused(s0, acts, k, n - 1, i);
      NextState(s0, acts, n - 1);
    }
  }

  // --- Cancellations ---

  // The first step of a cancellation: an order of the asking user that still waits becomes CANCELLED, with
  // that reason and nothing else changed; on every other order, known or not, it changes nothing.
  lemma {:induction false} CancelsIff(s: Sys, i: nat, env: Env)
    requires i < |s.procs| && EnvOk(s.db, s.procs[i], env)
    requires s.procs[i].Cancellation? && s.procs[i].cancel.CancelStarted?
    ensures var p, s' := s.procs[i], Step(s, Advance(i, env)); var o := p.orderId;
      && |s'.procs| == |s.procs| && s'.procs[i].Cancellation?
      && if o in s.db.orders && s.db.orders[o].userId == p.userId
            && (s.db.orders[o].status == Pending || s.db.orders[o].status == OrderStatus.Triggered)
         then
           s'.procs[i].cancel.CancelMarked?
           && s'.db == s.db.(orders := s.db.orders[o := s.db.orders[o].(status := OrderStatus.Cancelled,
                                                                        reason := CancelledByUser)])
         else s'.procs[i].cancel.CancelRefused? && s'.db == s.db
  {
    var p := s.procs[i];
    assert Step(s, Advance(i, env)).procs[i] == ProcStep(s.db, p, env).1;
  }

  lemma {:induction false} ExecNeverCancels(db: Db, x: Id, pc: ExecPc, env: Env, o: Id)
    requires HasStatus(ExecStep(db, x, pc, env).0, o, OrderStatus.Cancelled)
    ensures HasStatus(db, o, OrderStatus.Cancelled)
  {
  }

  lemma {:induction false} OnlyCancellationsCancel(db: Db, p: Proc, env: Env, o: Id)
    requires !HasStatus(db, o, OrderStatus.Cancelled) && HasStatus(ProcStep(db, p, env).0, o, OrderStatus.Cancelled)
    ensures p.Cancellation? && p.orderId == o && p.cancel.CancelStarted?
  {
    if p.Execution? {
      ExecNeverCancels(db, p.orderId, p.exec, env, o);
    }
  }

  // A step of a run after which an order is CANCELLED and before which it was not is the first step of a
  // cancellation that its owner asked for, and the order was still PENDING or TRIGGERED.
  lemma {:induction false} CancelledByOwner(s0: Sys, acts: seq<Action>, m: nat, o: Id)
    requires m < |acts|
    requires o in At(s0, acts, m + 1).db.orders && At(s0, acts, m + 1).db.orders[o].status == OrderStatus.Cancelled
    requires o in At(s0, acts, m).db.orders ==> At(s0, acts, m).db.orders[o].status != OrderStatus.Cancelled
    ensures acts[m].Advance? && acts[m].i < |At(s0, acts, m).procs| && o in At(s0, acts, m).db.orders
    ensures var p, order := At(s0, acts, m).procs[acts[m].i], At(s0, acts, m).db.orders[o];
      && p.Cancellation? && p.cancel.CancelStarted? && p.orderId == o && p.userId == order.userId
      && (order.status == Pending || order.status == OrderStatus.Triggered)
      && At(s0, acts, m + 1).db.orders[o] == order.(status := OrderStatus.Cancelled, reason := CancelledByUser)
  {
    NextState(s0, acts, m);
    var s := At(s0, acts, m);
    assert acts[m].Advance?;
    OnlyCancellationsCancel(s.db, s.procs[acts[m].i], acts[m].env, o);
    CancelsIff(s, acts[m].i, acts[m].env);
  }

  // --- The writes to an order that exists ---

  lemma {:induction false} ExecStepWrites(db: Db, o: Id, pc: ExecPc, env: Env)
    requires o in db.orders && !pc.FoundTrade?
    ensures var order, order' := db.orders[o], ExecStep(db, o, pc, env).0.orders[o];
      order' == order || match pc
        case Queued => order.status == OrderStatus.Triggered && order' == order.(status := Executing)
        case Reverting(_) => order' == order.(status := Pending, reason := PriceMovedAboveTarget)
        case Rejected(_, _) =>
          order.status == Executing && order' == order.(status := OrderStatus.Failed, reason := InsufficientFunds)
        case Positioned(_, price, _) =>
          order.status == Executing && order' == order.(status := Completed, reason := ExecutedSuccessfully,
                                                        executedPrice := Some(price), executedAt := Some(env.now))
        case _ => false
  {
  }

  lemma {:induction false} OtherStepWrites(db: Db, p: Proc, env: Env, o: Id)
    requires o in db.orders && !p.Execution? && IdUnused(db, env.freshId)
    ensures o in ProcStep(db, p, env).0.orders
    ensures var order, order' := db.orders[o], ProcStep(db, p, env).0.orders[o];
      || order' == order
      || (p.Evaluation? && order.status == Pending && order' == order.(status := OrderStatus.Triggered))
      || (p.Cancellation? && order.status in {Pending, OrderStatus.Triggered}
          && order' == order.(status := OrderStatus.Cancelled, reason := CancelledByUser))
  {
  }

  lemma {:induction false} OwnWrites(s: Sys, i: nat, env: Env, o: Id)
    requires Inv(s) && i < |s.procs| && s.procs[i].Execution? && o in s.db.orders
    requires o in ProcStep(s.db, s.procs[i], env).0.orders
    requires ProcStep(s.db, s.procs[i], env).0.orders[o] != s.db.orders[o]
    ensures var order, order' := s.db.orders[o], ProcStep(s.db, s.procs[i], env).0.orders[o];
      match order'.status
      case Executing => order.status == OrderStatus.Triggered && order' == order.(status := Executing)
      case Pending => order.status == Executing && order' == order.(status := Pending, reason := PriceMovedAboveTarget)
      case Failed =>
        order.status == Executing && order' == order.(status := OrderStatus.Failed, reason := InsufficientFunds)
      case Completed =>
        && order.status == Executing && |TradesOf(s.db.trades, o)| == 1
        && order' == order.(status := Completed, reason := ExecutedSuccessfully, executedAt := Some(env.now),
                            executedPrice := Some(TradesOf(s.db.trades, o)[0].executedPrice))
      case _ => false
  {
    var p := s.procs[i];
    assert ProcOk(s.db, p);
    if p.orderId == o {
      ExecStepWrites(s.db, o, p.exec, env);
    } else {
      ExecStepSameFor(s.db, p.orderId, p.exec, env, o);
    }
  }

  // Every write to an order that exists is one of six, each from the statuses and to the document the code
  // states for it; a completion carries the clock of its step and the price of the order's one trade.
  lemma {:induction false} DocumentWrites(s0: Sys, acts: seq<Action>, m: nat, o: Id)
    requires Init(s0) && m < |acts| && o in At(s0, acts, m).db.orders
    ensures o in At(s0, acts, m + 1).db.orders
    ensures var order, order' := At(s0, acts, m).db.orders[o], At(s0, acts, m + 1).db.orders[o];
      order' != order ==>
        && acts[m].Advance?
        && match order'.status
           case Triggered => order.status == Pending && order' == order.(status := OrderStatus.Triggered)
           case Executing => order.status == OrderStatus.Triggered && order' == order.(status := Executing)
           case Pending =>
             order.status == Executing && order' == order.(status := Pending, reason := PriceMovedAboveTarget)
           case Cancelled =>
             && (order.status == Pending || order.status == OrderStatus.Triggered)
             && order' == order.(status := OrderStatus.Cancelled, reason := CancelledByUser)
           case Failed =>
             order.status == Executing && order' == order.(status := OrderStatus.Failed, reason := InsufficientFunds)
           case Completed =>
             && order.status == Executing && |TradesOf(At(s0, acts, m).db.trades, o)| == 1
             && order' == order.(status := Completed, reason := ExecutedSuccessfully,
                                 executedAt := Some(acts[m].env.now),
                                 executedPrice := Some(TradesOf(At(s0, acts, m).db.trades, o)[0].executedPrice))
  {
    NextState(s0, acts, m);
    RunKeepsInv(s0, acts[..m]);
    var s, a := At(s0, acts, m), acts[m];
    StepMoves(s, a, o);
    if At(s0, acts, m + 1).db.orders[o] != s.db.orders[o] {
      assert a.Advance?;
      if s.procs[a.i].Execution? {
        OwnWrites(s, a.i, a.env, o);
      } else {
        OtherStepWrites(s.db, s.procs[a.i], a.env, o);
      }
    }
  }

  // The user is unknown or inactive, or holds less.
  predicate ShortOf(users: map<Id, User>, userId: Id, amount: real) {
    !(userId in users && users[userId].active && users[userId].walletBalance >= amount)
  }

  lemma {:induction false} RejectedBefore(s: Sys, a: Action, i: nat)
    requires i < |Step(s, a).procs| && Step(s, a).procs[i].Execution? && Step(s, a).procs[i].exec.Rejected?
    ensures i < |s.procs| && var p, p' := s.procs[i], Step(s, a).procs[i]; var order := p'.exec.order;
      || p == p'
      || (a.Advance? && p == Execution(p'.orderId, Priced(order, p'.exec.price))
          && ShortOf(s.db.users, order.userId, Cost(order, p'.exec.price)))
  {
    if a.Advance? && a.i < |s.procs| && EnvOk(s.db, s.procs[a.i], a.env) {
      QueuedOnly(s.db, s.procs[a.i], a.env);
      var more := ProcStep(s.db, s.procs[a.i], a.env).2;
      assert forall j | |s.procs| <= j < |Step(s, a).procs| :: Step(s, a).procs[j] in more;
    }
  }

  lemma {:induction false} QueuedOnly(db: Db, p: Proc, env: Env)
    ensures forall q | q in ProcStep(db, p, env).2 :: q.Execution? ==> q.exec.Queued?
  {
  }

  lemma {:induction false} RejectedWhen(s0: Sys, acts: seq<Action>, n: nat, i: nat) returns (w: nat)
    requires Init(s0) && n <= |acts| && i < |At(s0, acts, n).procs|
    requires At(s0, acts, n).procs[i].Execution? && At(s0, acts, n).procs[i].exec.Rejected?
    ensures w < n && acts[w].Advance?
    ensures var exec := At(s0, acts, n).procs[i].exec;
      ShortOf(At(s0, acts, w).db.users, exec.order.userId, Cost(exec.order, exec.price))
    decreases n
  {
    assert acts[..0] == [];
    NextState(s0, acts, n - 1);
    RejectedBefore(At(s0, acts, n - 1), acts[n - 1], i);
    if At(s0, acts, n - 1).procs[i] == At(s0, acts, n).procs[i] {
      w := RejectedWhen(s0, acts, n - 1, i);
    } else {
      w := n - 1;
    }
  }

  // An order becomes FAILED only after a step at which its owner was inactive or held less than the order's
  // quantity times a price that met its target.
  lemma {:induction false} FailuresCouldNotPay(s0: Sys, acts: seq<Action>, m: nat, o: Id) returns (w: nat, price: real)
    requires Init(s0) && m < |acts| && o in At(s0, acts, m).db.orders
    requires At(s0, acts, m).db.orders[o].status != OrderStatus.Failed
    requires o in At(s0, acts, m + 1).db.orders && At(s0, acts, m + 1).db.orders[o].status == OrderStatus.Failed
    ensures w < m && acts[w].Advance?
    ensures var users, order := At(s0, acts, w).db.users, At(s0, acts, m).db.orders[o];
      && 0.0 <= price <= order.targetPrice
      && !(order.userId in users && users[order.userId].active
           && users[order.userId].walletBalance >= order.quantity * price)
  {
    FailsAt(s0, acts, m, o);
    price := At(s0, acts, m).procs[acts[m].i].exec.price;
    w := RejectedWhen(s0, acts, m, acts[m].i);
  }

  lemma {:induction false} FailsAt(s0: Sys, acts: seq<Action>, m: nat, o: Id)
    requires Init(s0) && m < |acts| && o in At(s0, acts, m).db.orders
    requires At(s0, acts, m).db.orders[o].status != OrderStatus.Failed
    requires HasStatus(At(s0, acts, m + 1).db, o, OrderStatus.Failed)
    ensures acts[m].Advance? && acts[m].i < |At(s0, acts, m).procs|
    ensures FailsOrder(At(s0, acts, m).procs[acts[m].i], o, At(s0, acts, m).db.orders[o])
  {
    NextState(s0, acts, m);
    RunKeepsInv(s0, acts[..m]);
    assert acts[m].Advance?;
    FailsWhen(At(s0, acts, m), acts[m].i, acts[m].env, o);
  }

  // An execution about to fail the order, with its owner, an acceptable price and what it would cost.
  predicate FailsOrder(p: Proc, o: Id, order: Order) {
    && p.Execution? && p.orderId == o && p.exec.Rejected? && p.exec.order.userId == order.userId
    && 0.0 <= p.exec.price <= order.targetPrice && Cost(p.exec.order, p.exec.price) == order.quantity * p.exec.price
  }

  lemma {:induction false} FailsWhen(s: Sys, i: nat, env: Env, o: Id)
    requires Inv(s) && i < |s.procs| && EnvOk(s.db, s.procs[i], env) && o in s.db.orders
    requires s.db.orders[o].status != OrderStatus.Failed && HasStatus(ProcStep(s.db, s.procs[i], env).0, o,
                                                                     OrderStatus.Failed)
    ensures FailsOrder(s.procs[i], o, s.db.orders[o])
  {
    var p := s.procs[i];
    assert ProcOk(s.db, p);
    if !p.Execution? {
      OtherStepWrites(s.db, p, env, o);
      assert false;
    } else if p.orderId != o {
      ExecStepSameFor(s.db, p.orderId, p.exec, env, o);
      assert false;
    } else {
      ExecStepWrites(s.db, o, p.exec, env);
      assert Cost(p.exec.order, p.exec.price) == s.db.orders[o].quantity * p.exec.price;
    }
  }
}
