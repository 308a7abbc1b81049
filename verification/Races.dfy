/**
 Where interleaving spoils a figure that is exact in inline runs, and exactly when it does not.
 */
module Races {
  import opened Wrappers
  import opened AnalyticsEvents
  import opened Domain
  import opened Protocol
  import opened Inline

  ghost function After(s: Sys, i: nat, env: Env): Sys {
    Step(s, Advance(i, env))
  }

  ghost predicate CanAdvance(s: Sys, i: nat, env: Env) {
    i < |s.procs| && EnvOk(s.db, s.procs[i], env)
  }

  // --- The ledger chain ---

  // The row a deposit will write is in balance exactly when the wallet still holds, at the credit,
  // what the deposit read before it.
  lemma {:induction false} DepositRowBalancesIff(s: Sys, i: nat, credit: Env, insert: Env)
    requires CanAdvance(s, i, credit) && s.procs[i].Depositing? && s.procs[i].dep.BalanceRead?
    requires s.procs[i].userId in s.db.users && CanAdvance(After(s, i, credit), i, insert)
    ensures var s' := After(After(s, i, credit), i, insert);
      && |s'.db.ledger| == |s.db.ledger| + 1
      && var row := s'.db.ledger[|s.db.ledger|];
         && row.kind == DepositRow && row.amount == s.procs[i].amount
         && (row.balanceAfter == row.balanceBefore + row.amount
             <==> s.db.users[s.procs[i].userId].walletBalance == s.procs[i].dep.before)
  {
  }

  // Two deposits that have both read the balance: whichever is credited second writes a row that
  // hides the other one's amount.
  lemma {:induction false} ConcurrentDepositsBreakTheChain(s: Sys, i: nat, j: nat, first: Env, second: Env, insert: Env)
    requires i < |s.procs| && j < |s.procs| && i != j && s.procs[i].Depositing? && s.procs[j].Depositing?
    requires var u, before := s.procs[i].userId, s.procs[i].dep;
      && u == s.procs[j].userId && u in s.db.users && before.BalanceRead? && s.procs[j].dep == before
      && s.db.users[u].walletBalance == before.before
    requires s.procs[j].amount >= 0.01
    requires CanAdvance(s, j, first) && CanAdvance(After(s, j, first), i, second)
    requires CanAdvance(After(After(s, j, first), i, second), i, insert)
    ensures var s' := After(After(After(s, j, first), i, second), i, insert);
      && |s'.db.ledger| == |s.db.ledger| + 1
      && var row := s'.db.ledger[|s.db.ledger|];
         row.balanceAfter == row.balanceBefore + row.amount + s.procs[j].amount
             && row.balanceAfter != row.balanceBefore + row.amount
  {
    var s1 := After(s, j, first);
    assert s1.procs[i] == s.procs[i];
    DepositRowBalancesIff(s1, i, second, insert);
  }

  // Two deposits of one user under way.
  function Pair(db: Db, u: Id, a: real, pc: DepositPc, b: real, qc: DepositPc): Sys {
    Sys(db, [Depositing(u, a, pc), Depositing(u, b, qc)])
  }

  lemma {:induction false} BothSpawn(s0: Sys, u: Id, a: real, b: real)
    requires s0.procs == [] && a >= 0.01 && b >= 0.01
    ensures Reaches(s0, Pair(s0.db, u, a, DepositStarted, b, DepositStarted))
  {
    var s1 := Sys(s0.db, [Depositing(u, a, DepositStarted)]);
    ReachesStep(s0, Spawn(Depositing(u, a, DepositStarted)));
    ReachesStep(s1, Spawn(Depositing(u, b, DepositStarted)));
    ReachesTransitive(s0, s1, Pair(s0.db, u, a, DepositStarted, b, DepositStarted));
  }

  lemma {:induction false} FirstMoves(db: Db, u: Id, a: real, pc: DepositPc, b: real, qc: DepositPc, e: Env)
    requires IdUnused(db, e.freshId)
    ensures var (db1, pc1) := DepositStep(db, u, a, pc, e);
      Reaches(Pair(db, u, a, pc, b, qc), Pair(db1, u, a, pc1, b, qc))
  {
    ReachesStep(Pair(db, u, a, pc, b, qc), Advance(0, e));
  }

  lemma {:induction false} SecondMoves(db: Db, u: Id, a: real, pc: DepositPc, b: real, qc: DepositPc, e: Env)
    requires IdUnused(db, e.freshId)
    ensures var (db1, qc1) := DepositStep(db, u, b, qc, e);
      Reaches(Pair(db, u, a, pc, b, qc), Pair(db1, u, a, pc, b, qc1))
  {
    ReachesStep(Pair(db, u, a, pc, b, qc), Advance(1, e));
  }

  lemma {:induction false} BothRead(db: Db, u: Id, a: real, b: real, e: Env)
    requires u in db.users && IdUnused(db, e.freshId)
    ensures var w := db.users[u].walletBalance;
      Reaches(Pair(db, u, a, DepositStarted, b, DepositStarted), Pair(db, u, a, BalanceRead(w), b, BalanceRead(w)))
  {
    var w := db.users[u].walletBalance;
    FirstMoves(db, u, a, DepositStarted, b, DepositStarted, e);
    SecondMoves(db, u, a, BalanceRead(w), b, DepositStarted, e);
    ReachesTransitive(Pair(db, u, a, DepositStarted, b, DepositStarted),
        Pair(db, u, a, BalanceRead(w), b, DepositStarted),
                      Pair(db, u, a, BalanceRead(w), b, BalanceRead(w)));
  }

  lemma {:induction false} BothCredit(db: Db, u: Id, a: real, b: real, e: Env)
    requires u in db.users && IdUnused(db, e.freshId)
    ensures var w := db.users[u].walletBalance;
      Reaches(Pair(db, u, a, BalanceRead(w), b, BalanceRead(w)),
              Pair(db.(users := Credited(Credited(db.users, u, a), u, b)), u, a, WalletCredited(w, w + a), b,
                  WalletCredited(w, w + a + b)))
  {
    var w := db.users[u].walletBalance;
    var db1 := db.(users := Credited(db.users, u, a));
    var db2 := db.(users := Credited(Credited(db.users, u, a), u, b));
    FirstMoves(db, u, a, BalanceRead(w), b, BalanceRead(w), e);
    SecondMoves(db1, u, a, WalletCredited(w, w + a), b, BalanceRead(w), e);
    ReachesTransitive(Pair(db, u, a, BalanceRead(w), b, BalanceRead(w)),
        Pair(db1, u, a, WalletCredited(w, w + a), b, BalanceRead(w)),
                      Pair(db2, u, a, WalletCredited(w, w + a), b, WalletCredited(w, w + a + b)));
  }

  function DepositRowFor(id: Id, u: Id, amount: real, before: real, after: real): LedgerRow {
    LedgerRow(id, u, DepositRow, amount, before, after, u)
  }

  lemma {:induction false} BothInsert(db: Db, u: Id, a: real, b: real, w: real, v: real, e: Env, f: Env)
    returns (s: Sys)
    requires db.ledger == [] && IdUnused(db, e.freshId) && IdUnused(db, f.freshId) && e.freshId != f.freshId
    ensures Reaches(Pair(db, u, a, WalletCredited(w, w + a), b, WalletCredited(w, v)), s)
    ensures s.db.ledger == [DepositRowFor(e.freshId, u, a, w, w + a), DepositRowFor(f.freshId, u, b, w, v)]
  {
    var row, last := DepositRowFor(e.freshId, u, a, w, w + a), DepositRowFor(f.freshId, u, b, w, v);
    FirstMoves(db, u, a, WalletCredited(w, w + a), b, WalletCredited(w, v), e);
    SecondMoves(db.(ledger := [row]), u, a, DepositLedgered(row), b, WalletCredited(w, v), f);
    s := Pair(db.(ledger := [row, last]), u, a, DepositLedgered(row), b, DepositLedgered(last));
    assert [row] + [last] == [row, last];
    ReachesTransitive(Pair(db, u, a, WalletCredited(w, w + a), b, WalletCredited(w, v)),
                      Pair(db.(ledger := [row]), u, a, DepositLedgered(row), b, WalletCredited(w, v)), s);
  }

  // Both read, both credit, both insert: from every starting state with a user there is a schedule of
  // two deposits whose rows neither chain nor balance.
  lemma {:induction false} DepositChainBreaks(s0: Sys, u: Id, a: real, b: real, first: Env, second: Env)
    returns (s: Sys)
    requires Init(s0) && u in s0.db.users && a >= 0.01 && b >= 0.01
    requires IdUnused(s0.db, first.freshId) && IdUnused(s0.db, second.freshId) && first.freshId != second.freshId
    ensures Reaches(s0, s)
    ensures var ledger := s.db.ledger;
      && |ledger| == 2 && ledger[1].balanceBefore != ledger[0].balanceAfter
      && ledger[1].balanceAfter != ledger[1].balanceBefore + ledger[1].amount
  {
    var w := s0.db.users[u].walletBalance;
    var db := s0.db.(users := Credited(Credited(s0.db.users, u, a), u, b));
    var started, read := Pair(s0.db, u, a, DepositStarted, b, DepositStarted),
        Pair(s0.db, u, a, BalanceRead(w), b, BalanceRead(w));
    var credited := Pair(db, u, a, WalletCredited(w, w + a), b, WalletCredited(w, w + a + b));
    BothSpawn(s0, u, a, b);
    BothRead(s0.db, u, a, b, first);
    BothCredit(s0.db, u, a, b, first);
    s := BothInsert(db, u, a, b, w, w + a + b, first, second);
    ReachesTransitive(s0, started, read);
    ReachesTransitive(s0, read, credited);
    ReachesTransitive(s0, credited, s);
  }

  // --- Lost position updates ---

  // A save adds its quantity to what is stored exactly when nothing was saved since the load.
  lemma {:induction false} SaveAddsIff(stored: Position, loaded: Position, quantity: real, totalCost: real)
    requires quantity >= 1.0
    ensures SavePosition(stored, loaded, quantity, totalCost).quantityOwned == stored.quantityOwned + quantity
            <==> stored.quantityOwned == loaded.quantityOwned
  {
  }

  // It adds its cost exactly when the stored amount is still the loaded one, or the cost is nothing.
  lemma {:induction false} SaveInvestsIff(stored: Position, loaded: Position, quantity: real, totalCost: real)
    ensures SavePosition(stored, loaded, quantity, totalCost).totalInvested == stored.totalInvested + totalCost
            <==> stored.totalInvested == loaded.totalInvested || totalCost == 0.0
  {
  }

  // The average it leaves is that of the loaded document with this trade exactly when that differs from the
  // loaded average, or nothing replaced the loaded average meanwhile; otherwise the stored one stays.
  lemma {:induction false} SavedAverageIff(stored: Position, loaded: Position, quantity: real, totalCost: real)
    requires loaded.quantityOwned >= 0.0 && quantity >= 1.0
    ensures var average := (loaded.totalInvested + totalCost) / (loaded.quantityOwned + quantity);
      var saved := SavePosition(stored, loaded, quantity, totalCost).avgBuyPrice;
      && (saved == average <==> average != loaded.avgBuyPrice || stored.avgBuyPrice == loaded.avgBuyPrice)
      && (saved != average ==> saved == stored.avgBuyPrice)
  {
  }

  // Two executions that have both recorded a trade for one existing position: if both load it before
  // either saves, the first save is lost.
  lemma {:induction false} ConcurrentExecutionsLoseAnUpdate(s: Sys, i: nat, j: nat, a: Env, b: Env, c: Env, d: Env)
    requires i < |s.procs| && j < |s.procs| && i != j
    requires s.procs[i].Execution? && s.procs[i].exec.Traded? && s.procs[j].Execution? && s.procs[j].exec.Traded?
    requires var x, y := s.procs[i].exec.order, s.procs[j].exec.order;
      && x.userId == y.userId && x.symbol == y.symbol && (x.userId, x.symbol) in s.db.positions
      && x.quantity >= 1.0 && y.quantity >= 1.0
    requires CanAdvance(s, i, a) && CanAdvance(After(s, i, a), j, b)
    requires CanAdvance(After(After(s, i, a), j, b), i, c) && CanAdvance(After(After(After(s, i, a), j, b), i, c), j, d)
    ensures var s' := After(After(After(After(s, i, a), j, b), i, c), j, d);
      var x, y := s.procs[i].exec.order, s.procs[j].exec.order; var key := (x.userId, x.symbol);
      && s'.db.trades == s.db.trades && key in s'.db.positions
      && s'.procs[i].exec.Positioned? && s'.procs[j].exec.Positioned?
      && s'.db.positions[key].quantityOwned == s.db.positions[key].quantityOwned + y.quantity
  {
    var key := (s.procs[i].exec.order.userId, s.procs[i].exec.order.symbol);
    var s1 := After(s, i, a);
    assert s1.db == s.db && s1.procs[j] == s.procs[j];
    var s2 := After(s1, j, b);
    assert s2.db == s.db && s2.procs[i] == s1.procs[i];
    assert s2.procs[i].exec.PositionRead? && s2.procs[i].exec.found == Some(s.db.positions[key]);
    var s3 := After(s2, i, c);
    assert s3.procs[j] == s2.procs[j] && key in s3.db.positions;
    assert s3.procs[j].exec.PositionRead? && s3.procs[j].exec.found == Some(s.db.positions[key]);
  }

  lemma {:induction false} ThrownStaysPut(s: Sys, j: nat, env: Env)
    requires CanAdvance(s, j, env) && s.procs[j].Execution? && s.procs[j].exec.ThrewAtPosition?
    ensures After(s, j, env) == s
  {
    assert s.procs[j := s.procs[j]] + [] == s.procs;
  }

  // With no position yet, the second insert hits the unique index: its order stays EXECUTING although
  // it has been charged and traded.
  lemma {:induction false} ConcurrentFirstTradesStrandAnOrder(s: Sys, i: nat, j: nat, a: Env, b: Env, c: Env, d: Env)
    requires i < |s.procs| && j < |s.procs| && i != j
    requires s.procs[i].Execution? && s.procs[i].exec.Traded? && s.procs[j].Execution? && s.procs[j].exec.Traded?
    requires var x, y := s.procs[i].exec.order, s.procs[j].exec.order;
      x.userId == y.userId && x.symbol == y.symbol && (x.userId, x.symbol) !in s.db.positions
    requires CanAdvance(s, i, a) && CanAdvance(After(s, i, a), j, b)
    requires CanAdvance(After(After(s, i, a), j, b), i, c) && CanAdvance(After(After(After(s, i, a), j, b), i, c), j, d)
    ensures var s' := After(After(After(After(s, i, a), j, b), i, c), j, d);
      && s'.procs[j].exec.ThrewAtPosition? && s'.procs[j].orderId == s.procs[j].orderId
      && s'.db.orders == s.db.orders && s'.db.trades == s.db.trades
      && forall env :: CanAdvance(s', j, env) ==> After(s', j, env) == s'
  {
    var s1 := After(s, i, a);
    assert s1.db == s.db && s1.procs[j] == s.procs[j];
    var s2 := After(s1, j, b);
    assert s2.db == s.db && s2.procs[i] == s1.procs[i];
    assert s2.procs[i].exec.PositionRead? && s2.procs[i].exec.found.None?;
    var s3 := After(s2, i, c);
    assert s3.procs[j] == s2.procs[j];
    assert s3.procs[j].exec.PositionRead? && s3.procs[j].exec.found.None?;
    var s4 := After(s3, j, d);
    forall env | CanAdvance(s4, j, env) ensures After(s4, j, env) == s4 {
      ThrownStaysPut(s4, j, env);
    }
  }

  // --- The missed trigger ---

  // A create request whose price read is out of date by the time it inserts: the order is PENDING
  // although the current price already meets its target, and the request queues no evaluation.  It
  // queues one exactly when the price it had read meets the target.
  lemma {:induction false} StalePriceMissesTheTrigger(s: Sys, i: nat, insert: Env, next: Env)
    requires CanAdvance(s, i, insert) && s.procs[i].Creation? && s.procs[i].create.UserRead?
    requires !KeyTaken(s.db.orders, s.procs[i].key) && CanAdvance(After(s, i, insert), i, next)
    requires s.procs[i].symbol in s.db.stocks
    ensures var p := s.procs[i]; var s' := After(After(s, i, insert), i, next);
      var o := insert.freshId;
      && o in s'.db.orders
      && (Eligible(s'.db.orders[o], p.symbol, s'.db.stocks[p.symbol].currentPrice)
          <==> s.db.stocks[p.symbol].currentPrice <= p.targetPrice)
      && (|s'.procs| > |s.procs| <==> p.create.currentPrice <= p.targetPrice)
  {
    var s1 := After(s, i, insert);
    assert s1.db.stocks == s.db.stocks && |s1.procs| == |s.procs|;
    assert s1.procs[i] == s.procs[i].(create := Inserted(insert.freshId, s.procs[i].create.currentPrice));
  }
}
