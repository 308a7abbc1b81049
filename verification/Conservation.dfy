/**
 Money: nothing is created or lost by any interleaving, and a wallet never goes negative.
 An amount is always in exactly one place: in the wallet, in a recorded trade, or with an execution
 that has debited it and not yet written its trade.
 */
module Conservation {
  import opened Wrappers
  import opened AnalyticsEvents
  import opened Domain
  import opened Protocol
  import opened Ownership
  import opened Sums

  function TradeCostOf(u: Id): Trade -> real {
    (t: Trade) => if t.userId == u then t.totalCost else 0.0
  }

  // Debited, and the trade not yet written.
  predicate InFlight(p: Proc, u: Id) {
    p.Execution? && (p.exec.Debited? || p.exec.Ledgered? || p.exec.Charged? || p.exec.ThrewDuplicateTrade?)
    && p.exec.order.userId == u
  }

  function Carried(p: Proc, u: Id): real {
    if InFlight(p, u) then Cost(p.exec.order, p.exec.price) else 0.0
  }

  function InFlightOf(u: Id): Proc -> real {
    (p: Proc) => Carried(p, u)
  }

  // A deposit that has reached the wallet.
  predicate Banked(p: Proc, u: Id) {
    p.Depositing? && p.userId == u && (p.dep.WalletCredited? || p.dep.DepositLedgered? || p.dep.DepositEnded?)
  }

  function Brought(p: Proc, u: Id): real {
    if Banked(p, u) then p.amount else 0.0
  }

  function DepositsOf(u: Id): Proc -> real {
    (p: Proc) => Brought(p, u)
  }

  // What a process accounts for: money it carries, less money it brought in.
  function NetOf(u: Id): Proc -> real {
    (p: Proc) => Carried(p, u) - Brought(p, u)
  }

  lemma {:induction false} NetSplits(procs: seq<Proc>, u: Id)
    ensures SumBy(procs, NetOf(u)) == SumBy(procs, InFlightOf(u)) - SumBy(procs, DepositsOf(u))
  {
    if procs != [] {
      NetSplits(procs[..|procs| - 1], u);
    }
  }

  function Worth(s: Sys, u: Id): real
    requires u in s.db.users
  {
    s.db.users[u].walletBalance + SumBy(s.db.trades, TradeCostOf(u)) + SumBy(s.procs, NetOf(u))
  }

  function DbWorth(db: Db, u: Id): real
    requires u in db.users
  {
    db.users[u].walletBalance + SumBy(db.trades, TradeCostOf(u))
  }

  // The two steps that move money, and that no other step does.
  lemma {:induction false} ExecStepMoney(db: Db, o: Id, pc: ExecPc, env: Env)
    ensures var (db', pc') := ExecStep(db, o, pc, env);
      if pc.Priced? && CanPay(db, pc.order.userId, Cost(pc.order, pc.price)) then
        && db'.trades == db.trades && db'.users == Credited(db.users, pc.order.userId, -Cost(pc.order, pc.price))
        && pc'.Debited? && pc'.order == pc.order && pc'.price == pc.price
      else if pc.Charged? && TradesOf(db.trades, o) == [] then
        && db'.trades == db.trades + [TradeFor(o, pc.order, pc.price, env.now)] && db'.users == db.users && pc'.Traded?
      else
        && db'.trades == db.trades && db'.users == db.users
        && forall u :: InFlight(Execution(o, pc'), u) == InFlight(Execution(o, pc), u)
                       && Carried(Execution(o, pc'), u) == Carried(Execution(o, pc), u)
  {
  }

  lemma {:induction false} ExecStepWorth(db: Db, o: Id, pc: ExecPc, env: Env, u: Id)
    requires u in db.users
    ensures var (db', pc') := ExecStep(db, o, pc, env);
      && u in db'.users
      && DbWorth(db', u) + NetOf(u)(Execution(o, pc')) == DbWorth(db, u) + NetOf(u)(Execution(o, pc))
  {
    var (db', pc') := ExecStep(db, o, pc, env);
    ExecStepMoney(db, o, pc, env);
    if pc.Charged? && TradesOf(db.trades, o) == [] {
      SumAppend(db.trades, TradeFor(o, pc.order, pc.price, env.now), TradeCostOf(u));
    }
  }

  lemma {:induction false} DepositStepMoney(db: Db, userId: Id, amount: real, pc: DepositPc, env: Env)
    ensures var (db', pc') := DepositStep(db, userId, amount, pc, env);
      && db'.trades == db.trades
      && if pc.BalanceRead? && userId in db.users then
           db'.users == Credited(db.users, userId, amount) && pc'.WalletCredited?
         else
           && db'.users == db.users
           && forall u :: Brought(Depositing(userId, amount, pc'), u) == Brought(Depositing(userId, amount, pc), u)
  {
  }

  lemma {:induction false} StepKeepsWallets(db: Db, p: Proc, env: Env)
    requires !p.Execution? && !p.Depositing?
    ensures var (db', p', more) := ProcStep(db, p, env);
      && db'.trades == db.trades && db'.users == db.users && !p'.Execution? && !p'.Depositing?
      && forall q | q in more :: CanStart(q) && !q.Depositing?
  {
  }

  lemma {:induction false} OtherStepMoney(db: Db, p: Proc, env: Env)
    requires !p.Execution?
    ensures var (db', p', more) := ProcStep(db, p, env);
      && db'.trades == db.trades && !p'.Execution? && (forall q | q in more :: CanStart(q) && !q.Depositing?)
      && if p.Depositing? && p.dep.BalanceRead? && p.userId in db.users then
           db'.users == Credited(db.users, p.userId, p.amount)
           && p'.Depositing? && p'.userId == p.userId && p'.amount == p.amount && p'.dep.WalletCredited?
         else
           db'.users == db.users && forall u :: Brought(p', u) == Brought(p, u)
  {
    if p.Depositing? {
      DepositStepMoney(db, p.userId, p.amount, p.dep, env);
    } else {
      StepKeepsWallets(db, p, env);
    }
  }

  lemma {:induction false} OtherStepWorth(db: Db, p: Proc, env: Env, u: Id)
    requires u in db.users && !p.Execution?
    ensures var (db', p', more) := ProcStep(db, p, env);
      && u in db'.users && DbWorth(db', u) + NetOf(u)(p') == DbWorth(db, u) + NetOf(u)(p)
      && forall q | q in more :: NetOf(u)(q) == 0.0
  {
    OtherStepMoney(db, p, env);
  }

  lemma {:induction false} StepWorth(s: Sys, a: Action, u: Id)
    requires u in s.db.users
    ensures u in Step(s, a).db.users && Worth(Step(s, a), u) == Worth(s, u)
  {
    match a {
      case Spawn(p) =>
        SumAppend(s.procs, p, NetOf(u));
        assert CanStart(p) ==> Carried(p, u) == 0.0 && Brought(p, u) == 0.0;
      case Advance(i, env) =>
        if i < |s.procs| && EnvOk(s.db, s.procs[i], env) {
          var (db', p', more) := ProcStep(s.db, s.procs[i], env);
          if s.procs[i].Execution? {
            ExecStepWorth(s.db, s.procs[i].orderId, s.procs[i].exec, env, u);
          } else {
            OtherStepWorth(s.db, s.procs[i], env, u);
          }
          SumUpdate(s.procs, i, p', NetOf(u));
          SumConcat(s.procs[i := p'], more, NetOf(u));
          SumZero(more, NetOf(u));
        }
    }
  }

  lemma {:induction false} RunWorth(s: Sys, acts: seq<Action>, u: Id)
    requires u in s.db.users
    ensures u in Run(s, acts).db.users && Worth(Run(s, acts), u) == Worth(s, u)
  {
    if acts != [] {
      RunWorth(s, acts[..|acts| - 1], u);
      StepWorth(Run(s, acts[..|acts| - 1]), acts[|acts| - 1], u);
    }
  }

  // Starting balance plus deposits is what is in the wallet, in recorded trades, and in flight.
  lemma {:induction false} MoneyIsConserved(s0: Sys, acts: seq<Action>, u: Id)
    requires Init(s0) && u in s0.db.users
    ensures var s := Run(s0, acts);
      && u in s.db.users && s.db.users[u].walletBalance >= 0.0
      && s0.db.users[u].walletBalance + SumBy(s.procs, DepositsOf(u))
         == s.db.users[u].walletBalance + SumBy(s.db.trades, TradeCostOf(u)) + SumBy(s.procs, InFlightOf(u))
  {
    RunWorth(s0, acts, u);
    NetSplits(Run(s0, acts).procs, u);
    RunKeepsInv(s0, acts);
  }

  // --- At most one successful debit per order, counted along the run ---

  predicate AwaitsRow(p: Proc, o: Id) {
    p.Execution? && p.orderId == o && p.exec.Debited?
  }

  function AwaitingRow(o: Id): Proc -> real {
    (p: Proc) => if AwaitsRow(p, o) then 1.0 else 0.0
  }

  // The step at which the conditional wallet debit for order o succeeds.
  ghost predicate TakesDebit(s: Sys, a: Action, o: Id) {
    && a.Advance? && a.i < |s.procs| && EnvOk(s.db, s.procs[a.i], a.env)
    && s.procs[a.i].Execution? && s.procs[a.i].orderId == o && s.procs[a.i].exec.Priced?
    && AwaitsRow(ProcStep(s.db, s.procs[a.i], a.env).1, o)
  }

  ghost function DebitsTaken(s0: Sys, acts: seq<Action>, o: Id): nat {
    if acts == [] then 0
    else
      var init := acts[..|acts| - 1];
      DebitsTaken(s0, init, o) + if TakesDebit(Run(s0, init), acts[|acts| - 1], o) then 1 else 0
  }

  function Rows(s: Sys, o: Id): real {
    |DebitsOf(s.db.ledger, o)| as real + SumBy(s.procs, AwaitingRow(o))
  }

  lemma {:induction false} ExecStepRows(db: Db, x: Id, pc: ExecPc, env: Env, o: Id)
    ensures var (db', pc') := ExecStep(db, x, pc, env);
      |DebitsOf(db'.ledger, o)| as real + AwaitingRow(o)(Execution(x, pc'))
      == |DebitsOf(db.ledger, o)| as real + AwaitingRow(o)(Execution(x, pc))
         + if x == o && pc.Priced? && pc'.Debited? then 1.0 else 0.0
  {
    if pc.Debited? {
      DebitsOfAppend(db.ledger, DebitRowFor(x, pc.order, pc.price, pc.balanceAfter, env.freshId), o);
    }
  }

  lemma {:induction false} OtherStepLedger(db: Db, p: Proc, env: Env)
    requires !p.Execution?
    ensures var (db', p', more) := ProcStep(db, p, env);
      && !p'.Execution? && (forall q | q in more :: q.Execution? ==> q.exec == Queued)
      && if p.Depositing? && p.dep.WalletCredited?
         then db'.ledger == db.ledger + [LedgerRow(env.freshId, p.userId, DepositRow, p.amount, p.dep.before,
             p.dep.after, p.userId)]
         else db'.ledger == db.ledger
  {
  }

  lemma {:induction false} OtherStepRows(db: Db, p: Proc, env: Env, o: Id)
    requires !p.Execution?
    ensures var (db', p', more) := ProcStep(db, p, env);
      && DebitsOf(db'.ledger, o) == DebitsOf(db.ledger, o) && AwaitingRow(o)(p') == 0.0
      && forall q | q in more :: AwaitingRow(o)(q) == 0.0
  {
    OtherStepLedger(db, p, env);
    if p.Depositing? && p.dep.WalletCredited? {
      DebitsOfAppend(db.ledger, LedgerRow(env.freshId, p.userId, DepositRow, p.amount, p.dep.before, p.dep.after,
          p.userId), o);
    }
  }

  lemma {:induction false} ProcStepRows(db: Db, p: Proc, env: Env, o: Id)
    ensures var (db', p', more) := ProcStep(db, p, env);
      && |DebitsOf(db'.ledger, o)| as real + AwaitingRow(o)(p')
         == |DebitsOf(db.ledger, o)| as real + AwaitingRow(o)(p)
            + (if p.Execution? && p.orderId == o && p.exec.Priced? && AwaitsRow(p', o) then 1.0 else 0.0)
      && forall q | q in more :: AwaitingRow(o)(q) == 0.0
  {
    if p.Execution? {
      ExecStepRows(db, p.orderId, p.exec, env, o);
    } else {
      OtherStepRows(db, p, env, o);
    }
  }

  lemma {:induction false} StepRows(s: Sys, a: Action, o: Id)
    ensures Rows(Step(s, a), o) == Rows(s, o) + if TakesDebit(s, a, o) then 1.0 else 0.0
  {
    match a {
      case Spawn(p) =>
        SumAppend(s.procs, p, AwaitingRow(o));
      case Advance(i, env) =>
        if i < |s.procs| && EnvOk(s.db, s.procs[i], env) {
          var (db', p', more) := ProcStep(s.db, s.procs[i], env);
          ProcStepRows(s.db, s.procs[i], env, o);
          SumUpdate(s.procs, i, p', AwaitingRow(o));
          SumConcat(s.procs[i := p'], more, AwaitingRow(o));
          SumZero(more, AwaitingRow(o));
        }
    }
  }

  lemma {:induction false} DebitsTakenAreRows(s0: Sys, acts: seq<Action>, o: Id)
    requires Init(s0)
    ensures DebitsTaken(s0, acts, o) as real == Rows(Run(s0, acts), o)
  {
    if acts != [] {
      DebitsTakenAreRows(s0, acts[..|acts| - 1], o);
      StepRows(Run(s0, acts[..|acts| - 1]), acts[|acts| - 1], o);
    }
  }

  lemma {:induction false} OneAwaiting(s: Sys, o: Id)
    requires Inv(s)
    ensures SumBy(s.procs, AwaitingRow(o)) == 0.0
         || (SumBy(s.procs, AwaitingRow(o)) == 1.0 && Uncharged(s.db, o) && HasStatus(s.db, o, Executing))
  {
    if exists i :: 0 <= i < |s.procs| && AwaitsRow(s.procs[i], o) {
      var i :| 0 <= i < |s.procs| && AwaitsRow(s.procs[i], o);
      assert ProcOk(s.db, s.procs[i]);
      forall j | 0 <= j < |s.procs| && j != i ensures AwaitingRow(o)(s.procs[j]) == 0.0 {
        if s.procs[j].Execution? && Attached(s.procs[j].exec) {
          OthersApart(s, i, j);
        }
      }
      SumSole(s.procs, i, AwaitingRow(o));
    } else {
      SumZero(s.procs, AwaitingRow(o));
    }
  }

  // Over any run the wallet debit for an order succeeds at most once, and never for an order that
  // ends up neither EXECUTING nor COMPLETED.
  lemma {:induction false} OneDebitPerOrder(s0: Sys, acts: seq<Action>, o: Id)
    requires Init(s0)
    ensures DebitsTaken(s0, acts, o) <= 1
    ensures DebitsTaken(s0, acts, o) == 1 ==>
      HasStatus(Run(s0, acts).db, o, Executing) || HasStatus(Run(s0, acts).db, o, Completed)
    ensures HasStatus(Run(s0, acts).db, o, Completed) ==> DebitsTaken(s0, acts, o) == 1
  {
    var s := Run(s0, acts);
    RunKeepsInv(s0, acts);
    var n := |DebitsOf(s.db.ledger, o)|;
    var awaiting := SumBy(s.procs, AwaitingRow(o));
    assert DebitsTaken(s0, acts, o) as real == n as real + awaiting by {
      DebitsTakenAreRows(s0, acts, o);
    }
    OneAwaiting(s, o);
    AtMostOneRow(s, o);
    assert DebitsTaken(s0, acts, o) == if awaiting == 0.0 then n else n + 1;
  }

  lemma {:induction false} AtMostOneRow(s: Sys, o: Id)
    requires Inv(s)
    ensures |DebitsOf(s.db.ledger, o)| <= 1
    ensures !HasStatus(s.db, o, Executing) && !HasStatus(s.db, o, Completed) ==> Uncharged(s.db, o)
    ensures HasStatus(s.db, o, Completed) ==> |DebitsOf(s.db.ledger, o)| == 1
  {
    if HasStatus(s.db, o, Executing) {
      assert Held(s.procs, o);
      var i :| 0 <= i < |s.procs| && ClaimedBy(s.procs[i], o);
      assert ProcOk(s.db, s.procs[i]);
      assert Uncharged(s.db, o) || ChargedOnce(s.db, o, s.procs[i].exec.order, s.procs[i].exec.price);
    } else if o in s.db.orders {
      assert OrderOk(s.db, o);
    } else {
      assert Uncharged(s.db, o);
    }
  }
}
