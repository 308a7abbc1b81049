/**
 The wallet ledger, run by run: a user's rows chain exactly as long as every row inserted balances and
 starts at the wallet less what the calls under way have moved and not yet recorded, and they do in every
 run whose wallet operations of one user do not overlap.
 */
module LedgerRuns {
  import opened Wrappers
  import opened AnalyticsEvents
  import opened Domain
  import opened Protocol
  import opened Inline
  import opened Ownership
  import opened OrderSafety
  import opened Conservation
  import opened SerialStores
  import opened Sums
  import Books
  import opened Races

  // --- One insert ---

  // The row balances, and starts at the balance the chain has come to.
  predicate Fits(balance: real, row: LedgerRow) {
    && row.balanceBefore == balance
    && row.balanceAfter == (if row.kind == DepositRow then row.balanceBefore + row.amount
        else row.balanceBefore - row.amount)
  }

  // The process inserts a ledger row of the user at its next step.
  predicate Inserts(p: Proc, u: Id) {
    || (p.Execution? && p.exec.Debited? && p.exec.order.userId == u)
    || (p.Depositing? && p.dep.WalletCredited? && p.userId == u)
  }

  function RowOf(p: Proc, env: Env): LedgerRow
    requires exists u :: Inserts(p, u)
  {
    if p.Execution? then DebitRowFor(p.orderId, p.exec.order, p.exec.price, p.exec.balanceAfter, env.freshId)
    else LedgerRow(env.freshId, p.userId, DepositRow, p.amount, p.dep.before, p.dep.after, p.userId)
  }

  lemma {:induction false} ReplayAppend(ledger: seq<LedgerRow>, row: LedgerRow, u: Id, start: real)
    ensures Replay(ledger + [row], u, start)
         == match Replay(ledger, u, start)
            case None => None
            case Some(balance) =>
              if row.userId != u then Some(balance) else if Fits(balance, row) then Some(row.balanceAfter) else None
  {
    assert (ledger + [row])[..|ledger|] == ledger;
  }

  lemma {:induction false} StepLedger(db: Db, p: Proc, env: Env, u: Id)
    ensures var ledger := ProcStep(db, p, env).0.ledger;
      && (Inserts(p, u) ==> ledger == db.ledger + [RowOf(p, env)] && RowOf(p, env).userId == u)
      && (!Inserts(p, u) ==> ledger == db.ledger || exists row :: ledger == db.ledger + [row] && row.userId != u)
  {
    if p.Execution? {
      Books.ExecStepLedger(db, p.orderId, p.exec, env);
      if p.exec.Debited? && !Inserts(p, u) {
        assert ProcStep(db, p, env).0.ledger
            == db.ledger + [DebitRowFor(p.orderId, p.exec.order, p.exec.price, p.exec.balanceAfter, env.freshId)];
      }
    } else {
      OtherStepLedger(db, p, env);
    }
  }

  lemma {:induction false} StepReplay(db: Db, p: Proc, env: Env, u: Id, start: real)
    ensures var ledger := ProcStep(db, p, env).0.ledger;
      Replay(ledger, u, start)
      == if !Inserts(p, u) then Replay(db.ledger, u, start)
         else match Replay(db.ledger, u, start)
              case None => None
              case Some(balance) => if Fits(balance, RowOf(p, env)) then Some(RowOf(p, env).balanceAfter) else None
  {
    var ledger := ProcStep(db, p, env).0.ledger;
    StepLedger(db, p, env, u);
    if ledger != db.ledger {
      var row :| ledger == db.ledger + [row] && (Inserts(p, u) ==> row == RowOf(p, env))
          && (row.userId == u <==> Inserts(p, u));
      ReplayAppend(db.ledger, row, u, start);
    }
  }

  // --- A step, seen from one wallet ---

  // Between the first read or the debit, and the insert of the row.
  predicate InWallet(p: Proc, u: Id) {
    || (p.Execution? && p.exec.Debited? && p.exec.order.userId == u)
    || (p.Depositing? && (p.dep.BalanceRead? || p.dep.WalletCredited?) && p.userId == u)
  }

  // What the operation has moved and not yet recorded.
  function Unrecorded(p: Proc, u: Id): real {
    if !InWallet(p, u) then 0.0
    else if p.Execution? then -Cost(p.exec.order, p.exec.price)
    else if p.dep.WalletCredited? then p.amount else 0.0
  }

  function UnrecordedOf(u: Id): Proc -> real {
    (p: Proc) => Unrecorded(p, u)
  }

  // What the operation has read is what the wallet holds.
  predicate WalletCurrent(balance: real, p: Proc, u: Id) {
    InWallet(p, u) ==>
      if p.Execution? then p.exec.balanceAfter == balance
      else if p.dep.BalanceRead? then p.dep.before == balance
      else p.dep.after == balance && p.dep.before == balance - p.amount
  }

  // A step of a process, seen from one wallet: it leaves the balance and what it owes the ledger
  // together, and what it has read is current afterwards.
  ghost predicate WalletStep(db: Db, p: Proc, db': Db, p': Proc, u: Id)
    requires u in db.users
  {
    && u in db'.users
    && (WalletCurrent(db.users[u].walletBalance, p, u) ==> WalletCurrent(db'.users[u].walletBalance, p', u))
    && (if Inserts(p, u) then db'.users[u].walletBalance == db.users[u].walletBalance && !InWallet(p', u)
        else db'.users[u].walletBalance - Unrecorded(p', u) == db.users[u].walletBalance - Unrecorded(p, u))
    && (db'.users[u].walletBalance != db.users[u].walletBalance ==> InWallet(p', u))
  }

  lemma {:induction false} ExecWalletStep(db: Db, o: Id, pc: ExecPc, env: Env, u: Id)
    requires u in db.users
    ensures var (db', pc') := ExecStep(db, o, pc, env); WalletStep(db, Execution(o, pc), db', Execution(o, pc'), u)
  {
  }

  lemma {:induction false} DepositWalletStep(db: Db, v: Id, amount: real, pc: DepositPc, env: Env, u: Id)
    requires u in db.users
    ensures var (db', pc') := DepositStep(db, v, amount, pc, env);
      WalletStep(db, Depositing(v, amount, pc), db', Depositing(v, amount, pc'), u)
  {
  }

  lemma {:induction false} OtherWalletStep(db: Db, p: Proc, env: Env, u: Id)
    requires u in db.users && !p.Execution? && !p.Depositing?
    ensures var (db', p', more) := ProcStep(db, p, env);
      WalletStep(db, p, db', p', u) && forall q | q in more :: !InWallet(q, u)
  {
  }

  lemma {:induction false} AnyWalletStep(db: Db, p: Proc, env: Env, u: Id)
    requires u in db.users
    ensures var (db', p', more) := ProcStep(db, p, env);
      WalletStep(db, p, db', p', u) && forall q | q in more :: !InWallet(q, u)
  {
    match p {
      case Execution(o, pc) => ExecWalletStep(db, o, pc, env, u);
      case Depositing(v, amount, pc) => DepositWalletStep(db, v, amount, pc, env, u);
      case _ => OtherWalletStep(db, p, env, u);
    }
  }

  // --- The chain over any run ---

  // As long as the rows chain, they come to the wallet less what is moved and not yet recorded.
  ghost predicate ReplayCurrent(s: Sys, u: Id, start: real) {
    && u in s.db.users
    && (Replay(s.db.ledger, u, start).Some? ==>
          Replay(s.db.ledger, u, start).value == s.db.users[u].walletBalance - SumBy(s.procs, UnrecordedOf(u)))
  }

  lemma {:induction false} UnrecordedMoves(s: Sys, i: nat, env: Env, u: Id)
    requires u in s.db.users && i < |s.procs| && EnvOk(s.db, s.procs[i], env)
    ensures var s' := Step(s, Advance(i, env)); var p := s.procs[i];
      && u in s'.db.users
      && s'.db.users[u].walletBalance - SumBy(s'.procs, UnrecordedOf(u))
         == s.db.users[u].walletBalance - SumBy(s.procs, UnrecordedOf(u))
            + if Inserts(p, u) then Unrecorded(p, u) else 0.0
  {
    var (db', p', more) := ProcStep(s.db, s.procs[i], env);
    AnyWalletStep(s.db, s.procs[i], env, u);
    SumUpdate(s.procs, i, p', UnrecordedOf(u));
    SumConcat(s.procs[i := p'], more, UnrecordedOf(u));
    SumZero(more, UnrecordedOf(u));
  }

  // The step inserts a row of the user that does not balance, or that starts anywhere but at the
  // wallet less what is moved and not yet recorded.
  ghost predicate Breaks(s: Sys, a: Action, u: Id) {
    && a.Advance? && a.i < |s.procs| && EnvOk(s.db, s.procs[a.i], a.env) && Inserts(s.procs[a.i], u)
    && u in s.db.users
    && !Fits(s.db.users[u].walletBalance - SumBy(s.procs, UnrecordedOf(u)), RowOf(s.procs[a.i], a.env))
  }

  lemma {:induction false} StepKeepsReplay(s: Sys, a: Action, u: Id, start: real)
    requires ReplayCurrent(s, u, start)
    ensures ReplayCurrent(Step(s, a), u, start)
    ensures Replay(Step(s, a).db.ledger, u, start).Some? <==>
        Replay(s.db.ledger, u, start).Some? && !Breaks(s, a, u)
  {
    if a.Advance? && a.i < |s.procs| && EnvOk(s.db, s.procs[a.i], a.env) {
      UnrecordedMoves(s, a.i, a.env, u);
      StepReplay(s.db, s.procs[a.i], a.env, u, start);
    } else if a.Spawn? && CanStart(a.p) {
      SumAppend(s.procs, a.p, UnrecordedOf(u));
    }
  }

  ghost predicate NeverBreaks(s0: Sys, acts: seq<Action>, u: Id) {
    forall k: nat | k < |acts| :: !Breaks(At(s0, acts, k), acts[k], u)
  }

  lemma {:induction false} NeverBreaksAppend(s0: Sys, acts: seq<Action>, a: Action, u: Id)
    ensures NeverBreaks(s0, acts + [a], u) <==> NeverBreaks(s0, acts, u) && !Breaks(Run(s0, acts), a, u)
  {
    AtAppend(s0, acts, a);
    assert forall k: nat | k < |acts| :: (acts + [a])[k] == acts[k];
    assert (acts + [a])[|acts|] == a;
  }

  // Over every schedule, overlapping or not: the rows chain from the starting balance exactly when every
  // row inserted balances and starts at the wallet less everything moved and not yet recorded, and then
  // they come to just that.
  lemma {:induction false} ChainHoldsIff(s0: Sys, acts: seq<Action>, u: Id)
    requires Init(s0) && u in s0.db.users
    ensures ReplayCurrent(Run(s0, acts), u, s0.db.users[u].walletBalance)
    ensures Replay(Run(s0, acts).db.ledger, u, s0.db.users[u].walletBalance).Some? <==> NeverBreaks(s0, acts, u)
  {
    if acts != [] {
      var init, a := acts[..|acts| - 1], acts[|acts| - 1];
      assert acts == init + [a];
      ChainHoldsIff(s0, init, u);
      NeverBreaksAppend(s0, init, a, u);
      StepKeepsReplay(Run(s0, init), a, u, s0.db.users[u].walletBalance);
    }
  }

  // --- Runs without overlap ---

  ghost predicate WalletApart(s: Sys, u: Id) {
    forall i, j | 0 <= i < |s.procs| && 0 <= j < |s.procs| && InWallet(s.procs[i], u) && InWallet(s.procs[j], u) ::
        i == j
  }

  ghost predicate WalletsNeverOverlap(s0: Sys, acts: seq<Action>, u: Id) {
    forall k: nat | k <= |acts| :: WalletApart(At(s0, acts, k), u)
  }

  lemma {:induction false} NeverOverlappedBefore(s0: Sys, acts: seq<Action>, a: Action, u: Id)
    requires WalletsNeverOverlap(s0, acts + [a], u)
    ensures WalletsNeverOverlap(s0, acts, u)
    ensures WalletApart(Run(s0, acts), u) && WalletApart(Run(s0, acts + [a]), u)
  {
    AtAppend(s0, acts, a);
  }

  ghost predicate LedgerWhole(s: Sys, u: Id, start: real) {
    && u in s.db.users
    && Replay(s.db.ledger, u, start) == Some(s.db.users[u].walletBalance - SumBy(s.procs, UnrecordedOf(u)))
    && forall i | 0 <= i < |s.procs| :: WalletCurrent(s.db.users[u].walletBalance, s.procs[i], u)
  }

  // The one operation in progress is the whole of what is unrecorded.
  lemma {:induction false} SoleOperation(s: Sys, i: nat, u: Id)
    requires WalletApart(s, u) && i < |s.procs| && InWallet(s.procs[i], u)
    ensures SumBy(s.procs, UnrecordedOf(u)) == Unrecorded(s.procs[i], u)
  {
    SumSole(s.procs, i, UnrecordedOf(u));
  }

  // The row of the one current operation fits.
  lemma {:induction false} CurrentRowFits(s: Sys, i: nat, env: Env, u: Id, start: real)
    requires LedgerWhole(s, u, start) && WalletApart(s, u) && i < |s.procs| && Inserts(s.procs[i], u)
    ensures Fits(Replay(s.db.ledger, u, start).value, RowOf(s.procs[i], env))
    ensures RowOf(s.procs[i], env).balanceAfter == s.db.users[u].walletBalance
  {
    SoleOperation(s, i, u);
    assert WalletCurrent(s.db.users[u].walletBalance, s.procs[i], u);
  }

  lemma {:induction false} AdvanceReplays(s: Sys, i: nat, env: Env, u: Id, start: real)
    requires LedgerWhole(s, u, start) && WalletApart(s, u) && i < |s.procs| && EnvOk(s.db, s.procs[i], env)
    ensures var s' := Step(s, Advance(i, env));
      u in s'.db.users
      && Replay(s'.db.ledger, u, start) == Some(s'.db.users[u].walletBalance - SumBy(s'.procs, UnrecordedOf(u)))
  {
    var p := s.procs[i];
    UnrecordedMoves(s, i, env, u);
    StepReplay(s.db, p, env, u, start);
    if Inserts(p, u) {
      CurrentRowFits(s, i, env, u, start);
      SoleOperation(s, i, u);
    }
  }

  lemma {:induction false} AdvanceKeepsCurrent(s: Sys, i: nat, env: Env, u: Id, start: real)
    requires LedgerWhole(s, u, start) && i < |s.procs| && EnvOk(s.db, s.procs[i], env)
    requires WalletApart(Step(s, Advance(i, env)), u)
    ensures var s' := Step(s, Advance(i, env));
      u in s'.db.users && forall k | 0 <= k < |s'.procs| :: WalletCurrent(s'.db.users[u].walletBalance, s'.procs[k], u)
  {
    var s' := Step(s, Advance(i, env));
    var (db', p', more) := ProcStep(s.db, s.procs[i], env);
    AnyWalletStep(s.db, s.procs[i], env, u);
    assert s'.procs[i] == p';
    forall k | 0 <= k < |s'.procs| ensures WalletCurrent(s'.db.users[u].walletBalance, s'.procs[k], u) {
      if k >= |s.procs| {
        assert s'.procs[k] in more;
      } else {
        assert WalletCurrent(s.db.users[u].walletBalance, s.procs[k], u);
      }
    }
  }

  lemma {:induction false} SpawnKeepsLedger(s: Sys, p: Proc, u: Id, start: real)
    requires LedgerWhole(s, u, start) && CanStart(p)
    ensures LedgerWhole(s.(procs := s.procs + [p]), u, start)
  {
    SumAppend(s.procs, p, UnrecordedOf(u));
  }

  lemma {:induction false} RunKeepsLedger(s0: Sys, acts: seq<Action>, u: Id)
    requires Init(s0) && u in s0.db.users && WalletsNeverOverlap(s0, acts, u)
    ensures LedgerWhole(Run(s0, acts), u, s0.db.users[u].walletBalance)
  {
    var start := s0.db.users[u].walletBalance;
    if acts != [] {
      var init, a := acts[..|acts| - 1], acts[|acts| - 1];
      assert acts == init + [a];
      NeverOverlappedBefore(s0, init, a, u);
      RunKeepsLedger(s0, init, u);
      var s := Run(s0, init);
      if a.Advance? && a.i < |s.procs| && EnvOk(s.db, s.procs[a.i], a.env) {
        AdvanceReplays(s, a.i, a.env, u, start);
        AdvanceKeepsCurrent(s, a.i, a.env, u, start);
      } else if a.Spawn? && CanStart(a.p) {
        SpawnKeepsLedger(s, a.p, u, start);
      }
    }
  }

  // If no two wallet operations of a user overlap, the rows chain from the starting balance and end at
  // the current one, but for what the one operation in progress has not recorded yet.
  lemma {:induction false} LedgerReplaysWithoutOverlap(s0: Sys, acts: seq<Action>, u: Id)
    requires Init(s0) && u in s0.db.users && WalletsNeverOverlap(s0, acts, u)
    ensures var s := Run(s0, acts); var start := s0.db.users[u].walletBalance;
      && u in s.db.users
      && Replay(s.db.ledger, u, start) == Some(s.db.users[u].walletBalance - SumBy(s.procs, UnrecordedOf(u)))
      && ((forall i | 0 <= i < |s.procs| :: !InWallet(s.procs[i], u)) ==>
            Replay(s.db.ledger, u, start) == Some(s.db.users[u].walletBalance))
  {
    var s := Run(s0, acts);
    RunKeepsLedger(s0, acts, u);
    if forall i | 0 <= i < |s.procs| :: !InWallet(s.procs[i], u) {
      SumZero(s.procs, UnrecordedOf(u));
    }
  }

  // --- Rows that balance and do not chain ---

  lemma {:induction false} FirstCredits(db: Db, u: Id, a: real, b: real, e: Env)
    requires u in db.users && IdUnused(db, e.freshId)
    ensures var w := db.users[u].walletBalance;
      Reaches(Pair(db, u, a, DepositStarted, b, DepositStarted),
              Pair(db.(users := Credited(db.users, u, a)), u, a, WalletCredited(w, w + a), b, DepositStarted))
  {
    var w := db.users[u].walletBalance;
    FirstMoves(db, u, a, DepositStarted, b, DepositStarted, e);
    FirstMoves(db, u, a, BalanceRead(w), b, DepositStarted, e);
    ReachesTransitive(Pair(db, u, a, DepositStarted, b, DepositStarted),
        Pair(db, u, a, BalanceRead(w), b, DepositStarted),
                      Pair(db.(users := Credited(db.users, u, a)), u, a, WalletCredited(w, w + a), b, DepositStarted));
  }

  lemma {:induction false} SecondCredits(db: Db, u: Id, a: real, pc: DepositPc, b: real, e: Env)
    requires u in db.users && IdUnused(db, e.freshId)
    ensures var w := db.users[u].walletBalance;
      Reaches(Pair(db, u, a, pc, b, DepositStarted),
          Pair(db.(users := Credited(db.users, u, b)), u, a, pc, b, WalletCredited(w, w + b)))
  {
    var w := db.users[u].walletBalance;
    SecondMoves(db, u, a, pc, b, DepositStarted, e);
    SecondMoves(db, u, a, pc, b, BalanceRead(w), e);
    ReachesTransitive(Pair(db, u, a, pc, b, DepositStarted), Pair(db, u, a, pc, b, BalanceRead(w)),
                      Pair(db.(users := Credited(db.users, u, b)), u, a, pc, b, WalletCredited(w, w + b)));
  }

  lemma {:induction false} SecondInsertsFirst(db: Db, u: Id, a: real, w: real, b: real, v: real, e: Env, f: Env)
    returns (s: Sys)
    requires db.ledger == [] && IdUnused(db, e.freshId) && IdUnused(db, f.freshId) && e.freshId != f.freshId
    ensures Reaches(Pair(db, u, a, WalletCredited(w, w + a), b, WalletCredited(v, v + b)), s)
    ensures s.db.ledger == [DepositRowFor(f.freshId, u, b, v, v + b), DepositRowFor(e.freshId, u, a, w, w + a)]
  {
    var row, last := DepositRowFor(f.freshId, u, b, v, v + b), DepositRowFor(e.freshId, u, a, w, w + a);
    SecondMoves(db, u, a, WalletCredited(w, w + a), b, WalletCredited(v, v + b), f);
    FirstMoves(db.(ledger := [row]), u, a, WalletCredited(w, w + a), b, DepositLedgered(row), e);
    s := Pair(db.(ledger := [row, last]), u, a, DepositLedgered(last), b, DepositLedgered(row));
    assert [row] + [last] == [row, last];
    ReachesTransitive(Pair(db, u, a, WalletCredited(w, w + a), b, WalletCredited(v, v + b)),
                      Pair(db.(ledger := [row]), u, a, WalletCredited(w, w + a), b, DepositLedgered(row)), s);
  }

  lemma {:induction false} SwappedRows(u: Id, a: real, w: real, b: real, x: Id, z: Id)
    requires a >= 0.01
    ensures Replay([DepositRowFor(x, u, b, w + a, w + a + b), DepositRowFor(z, u, a, w, w + a)], u, w) == None
  {
    var first, last := DepositRowFor(x, u, b, w + a, w + a + b), DepositRowFor(z, u, a, w, w + a);
    ReplayAppend([], first, u, w);
    ReplayAppend([first], last, u, w);
    assert [] + [first] == [first] && [first] + [last] == [first, last];
  }

  // The first deposit reads and credits, then the second; the second inserts its row first.  From every
  // starting state with a user: two rows that each balance, in an order that does not chain.
  lemma {:induction false} BalancedRowsNeedNotChain(s0: Sys, u: Id, a: real, b: real, first: Env, second: Env)
    returns (s: Sys)
    requires Init(s0) && u in s0.db.users && a >= 0.01 && b >= 0.01
    requires IdUnused(s0.db, first.freshId) && IdUnused(s0.db, second.freshId) && first.freshId != second.freshId
    ensures Reaches(s0, s)
    ensures |s.db.ledger| == 2 && forall r | r in s.db.ledger :: r.balanceAfter == r.balanceBefore + r.amount
    ensures Replay(s.db.ledger, u, s0.db.users[u].walletBalance) == None
  {
    var w := s0.db.users[u].walletBalance;
    var db1 := s0.db.(users := Credited(s0.db.users, u, a));
    var db2 := db1.(users := Credited(db1.users, u, b));
    var started := Pair(s0.db, u, a, DepositStarted, b, DepositStarted);
    var moved := Pair(db1, u, a, WalletCredited(w, w + a), b, DepositStarted);
    var credited := Pair(db2, u, a, WalletCredited(w, w + a), b, WalletCredited(w + a, w + a + b));
    BothSpawn(s0, u, a, b);
    FirstCredits(s0.db, u, a, b, first);
    SecondCredits(db1, u, a, WalletCredited(w, w + a), b, first);
    s := SecondInsertsFirst(db2, u, a, w, b, w + a, first, second);
    ReachesTransitive(s0, started, moved);
    ReachesTransitive(s0, moved, credited);
    ReachesTransitive(s0, credited, s);
    SwappedRows(u, a, w, b, second.freshId, first.freshId);
  }
}
