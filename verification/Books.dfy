/**
 When no publish was lost and every call has come to its end, the analytics close the books but for one
 thing: an execution that hit the unique index of the positions has charged and traded and never says
 so.  Reported executions and the trades of the stranded executions together are the store.
 */
module Books {
  import opened Wrappers
  import opened AnalyticsEvents
  import opened Domain
  import opened Protocol
  import opened Ownership
  import opened OrderSafety
  import PositionSums
  import opened Conservation
  import opened Livelock
  import opened EventLog
  import opened Buckets
  import opened Metrics
  import opened Sums
  import opened Snapshots
  import opened Consumer
  import opened Agreement

  // No publish failed.
  ghost predicate AllDelivered(acts: seq<Action>) { forall a | a in acts && a.Advance? :: a.env.delivered }

  // --- Every trade and every row is announced, or about to be ---

  function ExecOwes(o: Id, pc: ExecPc): Option<string> {
    match pc
    case Ledgered(_, _, _, row) => Some(CreateAnalyticsEventId(DebitedType, row.id))
    case Traded(_, _, _) => Some(CreateAnalyticsEventId(OrderType(Executed), o))
    case PositionRead(_, _, _, _) => Some(CreateAnalyticsEventId(OrderType(Executed), o))
    case Positioned(_, _, _) => Some(CreateAnalyticsEventId(OrderType(Executed), o))
    case CompleteMarked(_, _, _) => Some(CreateAnalyticsEventId(OrderType(Executed), o))
    case ThrewAtPosition(_, _, _) => Some(CreateAnalyticsEventId(OrderType(Executed), o))
    case _ => None
  }

  // The event a process still has to publish for a trade or row it has written.
  function Owes(p: Proc): Option<string> {
    match p
    case Execution(o, pc) => ExecOwes(o, pc)
    case Depositing(_, _, pc) =>
      if pc.DepositLedgered? then Some(CreateAnalyticsEventId(DepositedType, pc.row.id)) else None
    case _ => None
  }

  ghost predicate Announced(s: Sys, id: string) {
    id in Ids(s.db.events) || exists i :: 0 <= i < |s.procs| && Owes(s.procs[i]) == Some(id)
  }

  ghost predicate AllAnnounced(s: Sys) {
    && (forall t | t in s.db.trades :: Announced(s, ExecutedId()(t)))
    && (forall r | r in s.db.ledger :: Announced(s, RowEventId()(r)))
  }

  lemma {:induction false} InIds(events: seq<Event>, e: Event)
    requires e in events
    ensures e.eventId in Ids(events)
  {
    assert IdOf()(e) in KeysOf(events, IdOf());
  }

  lemma {:induction false} ExecStepOwesTrade(db: Db, o: Id, pc: ExecPc, env: Env)
    ensures var (db', pc') := ExecStep(db, o, pc, env);
      db'.trades == db.trades || exists t :: db'.trades == db.trades + [t] && ExecOwes(o, pc') == Some(ExecutedId()(t))
  {
    if pc.Charged? && TradesOf(db.trades, o) == [] {
      var t := TradeFor(o, pc.order, pc.price, env.now);
      assert ExecStep(db, o, pc, env).0.trades == db.trades + [t];
      assert ExecutedId()(t) == CreateAnalyticsEventId(OrderType(Executed), o);
    }
  }

  lemma {:induction false} ExecStepOwesRow(db: Db, o: Id, pc: ExecPc, env: Env)
    ensures var (db', pc') := ExecStep(db, o, pc, env);
      db'.ledger == db.ledger || exists r :: db'.ledger == db.ledger + [r] && ExecOwes(o, pc') == Some(RowEventId()(r))
  {
    if pc.Debited? {
      var r := DebitRowFor(o, pc.order, pc.price, pc.balanceAfter, env.freshId);
      assert ExecStep(db, o, pc, env).0.ledger == db.ledger + [r];
      assert RowEventId()(r) == CreateAnalyticsEventId(DebitedType, r.id);
    }
  }

  // What an execution owes it publishes or goes on owing.
  lemma {:induction false} ExecStepPays(db: Db, o: Id, pc: ExecPc, env: Env)
    requires pc.Ledgered? ==> pc.row.kind == DebitRow
    ensures var (_, pc') := ExecStep(db, o, pc, env);
      || ExecOwes(o, pc) == ExecOwes(o, pc') || ExecOwes(o, pc).None?
      || (ExecPublishes(o, pc, env).Some? && ExecPublishes(o, pc, env).value.eventId == ExecOwes(o, pc).value)
  {
  }

  lemma {:induction false} OtherStepOwes(db: Db, p: Proc, env: Env)
    requires !p.Execution?
    ensures var (db', p', more) := ProcStep(db, p, env);
      && db'.trades == db.trades
      && (db'.ledger == db.ledger || exists r :: db'.ledger == db.ledger + [r] && Owes(p') == Some(RowEventId()(r)))
      && (Owes(p).None? || (Publishes(p, env).Some? && Publishes(p, env).value.eventId == Owes(p).value))
  {
    OtherStepLedger(db, p, env);
    if p.Depositing? && p.dep.WalletCredited? {
      var r := LedgerRow(env.freshId, p.userId, DepositRow, p.amount, p.dep.before, p.dep.after, p.userId);
      assert ProcStep(db, p, env).0.ledger == db.ledger + [r];
      assert RowEventId()(r) == CreateAnalyticsEventId(DepositedType, r.id);
    }
  }

  lemma {:induction false} StepOwes(db: Db, p: Proc, env: Env)
    requires p.Execution? && p.exec.Ledgered? ==> p.exec.row.kind == DebitRow
    ensures var (db', p', more) := ProcStep(db, p, env);
      && (db'.trades == db.trades || exists t :: db'.trades == db.trades + [t] && Owes(p') == Some(ExecutedId()(t)))
      && (db'.ledger == db.ledger || exists r :: db'.ledger == db.ledger + [r] && Owes(p') == Some(RowEventId()(r)))
      && (Owes(p) == Owes(p') || Owes(p).None?
          || (Publishes(p, env).Some? && Publishes(p, env).value.eventId == Owes(p).value))
  {
    if p.Execution? {
      ExecStepOwesTrade(db, p.orderId, p.exec, env);
      ExecStepOwesRow(db, p.orderId, p.exec, env);
      ExecStepPays(db, p.orderId, p.exec, env);
    } else {
      OtherStepOwes(db, p, env);
    }
  }

  // An announcement is never taken back, and one that was owed is made or still owed.
  lemma {:induction false} AnnouncedKept(s: Sys, i: nat, env: Env, id: string)
    requires Inv(s) && i < |s.procs| && EnvOk(s.db, s.procs[i], env) && env.delivered && Announced(s, id)
    ensures Announced(Step(s, Advance(i, env)), id)
  {
    var p := s.procs[i];
    var (db', p', more) := ProcStep(s.db, p, env);
    var s' := Step(s, Advance(i, env));
    StepPublishes(s.db, p, env);
    LedgeredRow(s, i);
    StepOwes(s.db, p, env);
    if id in Ids(s.db.events) {
      assert forall e | e in s.db.events :: e in db'.events;
    } else {
      var j :| 0 <= j < |s.procs| && Owes(s.procs[j]) == Some(id);
      if j != i || Owes(p') == Some(id) {
        assert Owes(s'.procs[j]) == Some(id);
      } else {
        InIds(db'.events, Publishes(p, env).value);
      }
    }
  }

  lemma {:induction false} LedgeredRow(s: Sys, i: nat)
    requires Inv(s) && i < |s.procs|
    ensures s.procs[i].Execution? && s.procs[i].exec.Ledgered? ==> s.procs[i].exec.row.kind == DebitRow
  {
    var p := s.procs[i];
    if p.Execution? && p.exec.Ledgered? {
      assert ProcOk(s.db, p);
      DebitsOfMember(s.db.ledger, p.exec.row, p.orderId);
    }
  }

  lemma {:induction false} AdvanceKeepsAnnounced(s: Sys, i: nat, env: Env)
    requires Inv(s) && AllAnnounced(s) && i < |s.procs| && EnvOk(s.db, s.procs[i], env) && env.delivered
    ensures AllAnnounced(Step(s, Advance(i, env)))
  {
    var s' := Step(s, Advance(i, env));
    var p' := ProcStep(s.db, s.procs[i], env).1;
    LedgeredRow(s, i);
    StepOwes(s.db, s.procs[i], env);
    assert s'.procs[i] == p';
    forall t | t in s'.db.trades ensures Announced(s', ExecutedId()(t)) {
      if t in s.db.trades {
        AnnouncedKept(s, i, env, ExecutedId()(t));
      } else {
        assert Owes(s'.procs[i]) == Some(ExecutedId()(t));
      }
    }
    forall r | r in s'.db.ledger ensures Announced(s', RowEventId()(r)) {
      if r in s.db.ledger {
        AnnouncedKept(s, i, env, RowEventId()(r));
      } else {
        assert Owes(s'.procs[i]) == Some(RowEventId()(r));
      }
    }
  }

  lemma {:induction false} SpawnKeepsAnnounced(s: Sys, p: Proc)
    requires AllAnnounced(s)
    ensures AllAnnounced(s.(procs := s.procs + [p]))
  {
    var s' := s.(procs := s.procs + [p]);
    forall id | Announced(s, id) ensures Announced(s', id) {
      if id !in Ids(s.db.events) {
        var j :| 0 <= j < |s.procs| && Owes(s.procs[j]) == Some(id);
        assert Owes(s'.procs[j]) == Some(id);
      }
    }
  }

  lemma {:induction false} RunKeepsAnnounced(s0: Sys, acts: seq<Action>)
    requires Init(s0) && AllDelivered(acts)
    ensures AllAnnounced(Run(s0, acts))
  {
    if acts != [] {
      var init, a := acts[..|acts| - 1], acts[|acts| - 1];
      RunKeepsAnnounced(s0, init);
      RunKeepsInv(s0, init);
      var s := Run(s0, init);
      if a.Spawn? {
        SpawnKeepsAnnounced(s, a.p);
      } else if a.i < |s.procs| && EnvOk(s.db, s.procs[a.i], a.env) {
        assert a in acts;
        AdvanceKeepsAnnounced(s, a.i, a.env);
      }
    }
  }

  // Every call has come to its end, be it an exception.
  ghost predicate Quiescent(s: Sys) { forall i | 0 <= i < |s.procs| :: Finished(s.procs[i]) }

  // --- Stranded executions ---

  predicate IsStranded(p: Proc) { p.Execution? && p.exec.ThrewAtPosition? }

  // The orders whose execution charged and traded and then failed to insert the position.
  ghost function StrandedOrders(procs: seq<Proc>): set<Id> {
    set i | 0 <= i < |procs| && IsStranded(procs[i]) :: procs[i].orderId
  }

  lemma {:induction false} OwedAtTheEnd(p: Proc)
    requires Finished(p) && Owes(p).Some?
    ensures IsStranded(p) && Owes(p) == Some(CreateAnalyticsEventId(OrderType(Executed), p.orderId))
  {
  }

  lemma {:induction false} StrandedExecuting(s: Sys, o: Id)
    requires Inv(s) && o in StrandedOrders(s.procs)
    ensures HasStatus(s.db, o, Executing)
  {
    var i :| 0 <= i < |s.procs| && IsStranded(s.procs[i]) && s.procs[i].orderId == o;
    assert ProcOk(s.db, s.procs[i]);
  }

  lemma {:induction false} AnnouncedCompleted(db: Db, o: Id)
    requires forall e | e in db.events :: Stated(db, e)
    requires CreateAnalyticsEventId(OrderType(Executed), o) in Ids(db.events)
    ensures HasStatus(db, o, Completed)
  {
    IdPresent(db.events, CreateAnalyticsEventId(OrderType(Executed), o));
    var e :| e in db.events && e.eventId == CreateAnalyticsEventId(OrderType(Executed), o);
    OrderAbout(db, e, Executed, o);
  }

  // A stranded execution never announces its trade.
  lemma {:induction false} StrandedUnannounced(s0: Sys, acts: seq<Action>, o: Id)
    requires Init(s0) && o in StrandedOrders(Run(s0, acts).procs)
    ensures CreateAnalyticsEventId(OrderType(Executed), o) !in Ids(Run(s0, acts).db.events)
  {
    RunKeepsInv(s0, acts);
    RunKeepsLog(s0, acts);
    StrandedExecuting(Run(s0, acts), o);
    if CreateAnalyticsEventId(OrderType(Executed), o) in Ids(Run(s0, acts).db.events) {
      AnnouncedCompleted(Run(s0, acts).db, o);
    }
  }

  // At the end of a run without lost publishes, a trade is announced or stranded, and never both.
  lemma {:induction false} AnnouncedUnlessStranded(s0: Sys, acts: seq<Action>, t: Trade)
    requires Init(s0) && AllDelivered(acts) && Quiescent(Run(s0, acts)) && t in Run(s0, acts).db.trades
    ensures ExecutedId()(t) in Ids(Run(s0, acts).db.events) <==> t.buyOrderId !in StrandedOrders(Run(s0, acts).procs)
  {
    var s := Run(s0, acts);
    RunKeepsAnnounced(s0, acts);
    if t.buyOrderId in StrandedOrders(s.procs) {
      StrandedUnannounced(s0, acts, t.buyOrderId);
    } else if ExecutedId()(t) !in Ids(s.db.events) {
      var i :| 0 <= i < |s.procs| && Owes(s.procs[i]) == Some(ExecutedId()(t));
      OwedAtTheEnd(s.procs[i]);
      EventIdInjective(OrderType(Executed), s.procs[i].orderId, OrderType(Executed), t.buyOrderId);
      assert false;
    }
  }

  ghost function StrandedFigure(s: Sys, who: Option<Id>, b: Bucket, c: Counter): real {
    SumIn(s.db.trades, PositionSums.TradeKey, TradeFigure(who, b, c), StrandedOrders(s.procs))
  }

  ghost predicate CompletelyDelivered(ds: seq<Event>, log: seq<Event>) { DeliveredFrom(ds, log) && Ids(ds) == Ids(log) }

  // In every bucket, what is reported and what is stranded make up the store.
  lemma {:induction false} ReportedAndStranded(s0: Sys, acts: seq<Action>, ds: seq<Event>, who: Option<Id>, b: Bucket,
      c: Counter)
    requires Init(s0) && AllDelivered(acts) && who != Some("") && OfTrades(c)
    requires var s := Run(s0, acts); Quiescent(s) && CompletelyDelivered(ds, s.db.events)
    ensures var s := Run(s0, acts);
      Reported(ds, who, b, c) + StrandedFigure(s, who, b, c) == SumBy(s.db.trades, TradeFigure(who, b, c))
  {
    var s := Run(s0, acts);
    var f := TradeFigure(who, b, c);
    ExecutionsNeverOverstated(s0, acts, ds, who, b, c);
    var told, stranded := Picked(ExecutedId(), f, Ids(ds)), Picked(PositionSums.TradeKey, f, StrandedOrders(s.procs));
    forall t | t in s.db.trades ensures told(t) + stranded(t) == f(t) {
      AnnouncedUnlessStranded(s0, acts, t);
    }
    SumSplit(s.db.trades, told, stranded, f);
  }

  lemma {:induction false} StrandedNothingIff(s0: Sys, acts: seq<Action>, who: Option<Id>, b: Bucket, c: Counter)
    requires Init(s0) && OfTrades(c)
    ensures var s := Run(s0, acts);
      && StrandedFigure(s, who, b, c) >= 0.0
      && (StrandedFigure(s, who, b, c) == 0.0
          <==> forall t | t in s.db.trades && t.buyOrderId in StrandedOrders(s.procs) && Counted(t, who, b) ::
                 c == Invested && t.totalCost == 0.0)
  {
    var s := Run(s0, acts);
    var part := Picked(PositionSums.TradeKey, TradeFigure(who, b, c), StrandedOrders(s.procs));
    forall t | t in s.db.trades
      ensures part(t) >= 0.0
      ensures part(t) == 0.0 <==> (t.buyOrderId in StrandedOrders(s.procs) && Counted(t, who, b) ==>
          c == Invested && t.totalCost == 0.0)
    {
      TradeFigurePositive(s0, acts, t, who, b, c);
    }
    SumZeroIff(s.db.trades, part);
  }

  // The reported executions are the store's exactly when no stranded execution counts here; one whose
  // shares were free counts in numbers but not in money.
  lemma {:induction false} ExecutionsMatchTheStoreIff(s0: Sys, acts: seq<Action>, ds: seq<Event>, who: Option<Id>,
      b: Bucket, c: Counter)
    requires Init(s0) && AllDelivered(acts) && who != Some("") && OfTrades(c)
    requires var s := Run(s0, acts); Quiescent(s) && CompletelyDelivered(ds, s.db.events)
    ensures var s := Run(s0, acts);
      Reported(ds, who, b, c) == SumBy(s.db.trades, TradeFigure(who, b, c))
      <==> forall t | t in s.db.trades && t.buyOrderId in StrandedOrders(s.procs) && Counted(t, who, b) ::
             c == Invested && t.totalCost == 0.0
  {
    ReportedAndStranded(s0, acts, ds, who, b, c);
    StrandedNothingIff(s0, acts, who, b, c);
  }

  // --- The ledger rows themselves ---

  // No amount is negative, and a debit row balances.  (A deposit row's balance before comes from an
  // earlier read and need not fit.)
  predicate RowOk(r: LedgerRow) {
    r.amount >= 0.0 && (r.kind == DebitRow ==> r.balanceAfter >= 0.0 && r.balanceBefore == r.balanceAfter + r.amount)
  }

  lemma {:induction false} DebitRowIsOk(s: Sys, i: nat, env: Env)
    requires Inv(s) && i < |s.procs| && s.procs[i].Execution? && s.procs[i].exec.Debited?
    ensures var p := s.procs[i]; RowOk(DebitRowFor(p.orderId, p.exec.order, p.exec.price, p.exec.balanceAfter,
        env.freshId))
  {
    var p := s.procs[i];
    assert ProcOk(s.db, p);
    assert OrderOk(s.db, p.orderId);
    CostBounds(p.exec.order.quantity, p.exec.price, p.exec.order.targetPrice);
  }

  lemma {:induction false} ExecStepLedger(db: Db, o: Id, pc: ExecPc, env: Env)
    ensures ExecStep(db, o, pc, env).0.ledger
         == if pc.Debited? then db.ledger + [DebitRowFor(o, pc.order, pc.price, pc.balanceAfter, env.freshId)]
             else db.ledger
  {
  }

  lemma {:induction false} AdvanceKeepsRowsOk(s: Sys, i: nat, env: Env)
    requires Inv(s) && i < |s.procs| && EnvOk(s.db, s.procs[i], env) && forall r | r in s.db.ledger :: RowOk(r)
    ensures forall r | r in Step(s, Advance(i, env)).db.ledger :: RowOk(r)
  {
    var p := s.procs[i];
    assert ProcOk(s.db, p);
    if p.Execution? {
      ExecStepLedger(s.db, p.orderId, p.exec, env);
      if p.exec.Debited? {
        DebitRowIsOk(s, i, env);
      }
    } else {
      OtherStepLedger(s.db, p, env);
    }
  }

  lemma {:induction false} LedgerRowsOk(s0: Sys, acts: seq<Action>)
    requires Init(s0)
    ensures forall r | r in Run(s0, acts).db.ledger :: RowOk(r)
  {
    if acts != [] {
      var init, a := acts[..|acts| - 1], acts[|acts| - 1];
      LedgerRowsOk(s0, init);
      RunKeepsInv(s0, init);
      var s := Run(s0, init);
      if a.Advance? && a.i < |s.procs| && EnvOk(s.db, s.procs[a.i], a.env) {
        AdvanceKeepsRowsOk(s, a.i, a.env);
      }
    }
  }

  // Whatever was lost on the way, the lifetime deposits and spend reported are those of the rows whose
  // event arrived.
  lemma {:induction false} ReportedWallet(s0: Sys, acts: seq<Action>, ds: seq<Event>, who: Option<Id>, kind: LedgerKind)
    requires Init(s0) && who != Some("") && DeliveredFrom(ds, Run(s0, acts).db.events)
    ensures var ledger := Run(s0, acts).db.ledger;
      && Reported(ds, who, LIFETIME, RowCounter(kind)) == SumIn(ledger, RowEventId(), RowFigure(who, kind), Ids(ds))
      && Reported(ds, who, LIFETIME, RowCounter(kind)) <= SumBy(ledger, RowFigure(who, kind))
  {
    var db := Run(s0, acts).db;
    RunKeepsLog(s0, acts);
    ReportedRows(db, ds, who, kind);
    LedgerRowsOk(s0, acts);
    forall r | r in db.ledger ensures RowFigure(who, kind)(r) >= 0.0 {
      assert RowOk(r);
    }
    SumInBounded(db.ledger, RowEventId(), RowFigure(who, kind), Ids(ds));
  }

  lemma {:induction false} BucketWithinLifetime(db: Db, e: Event, who: Option<Id>, b: Bucket, kind: LedgerKind)
    requires Stated(db, e) && forall r | r in db.ledger :: RowOk(r)
    ensures Share(who, b, RowCounter(kind))(e) <= Share(who, LIFETIME, RowCounter(kind))(e)
  {
    if e.payload.WalletDeposited? || e.payload.WalletDebited? {
      WalletEventPositive(db, e);
    }
  }

  lemma {:induction false} WalletEventPositive(db: Db, e: Event)
    requires RowStated(db, e) && forall r | r in db.ledger :: RowOk(r)
    requires e.payload.WalletDeposited? || e.payload.WalletDebited?
    ensures e.payload.amount >= 0.0
  {
    var r :| r in db.ledger && e == if r.kind == DepositRow then DepositEvent(r, e.occurredAt)
        else DebitEvent(r, e.occurredAt);
    assert RowOk(r);
  }

  // So in no bucket do they exceed the ledger's.
  lemma {:induction false} WalletNeverOverstated(
      s0: Sys, acts: seq<Action>, ds: seq<Event>, who: Option<Id>, b: Bucket, kind: LedgerKind)
    requires Init(s0) && who != Some("") && DeliveredFrom(ds, Run(s0, acts).db.events)
    ensures Reported(ds, who, b, RowCounter(kind)) <= SumBy(Run(s0, acts).db.ledger, RowFigure(who, kind))
  {
    var db := Run(s0, acts).db;
    var xs, c := FirstDeliveries(ds), RowCounter(kind);
    ReportedWallet(s0, acts, ds, who, kind);
    RunKeepsLog(s0, acts);
    LedgerRowsOk(s0, acts);
    FirstDeliveriesOnce(ds);
    forall e | e in xs ensures Share(who, b, c)(e) <= Share(who, LIFETIME, c)(e) {
      BucketWithinLifetime(db, e, who, b, kind);
    }
    FigureIsSum(xs, who, b, c);
    FigureIsSum(xs, who, LIFETIME, c);
    SumMonotone(xs, Share(who, b, c), Share(who, LIFETIME, c));
  }

  // --- The ledger agrees with the trades and the deposits ---

  // What the rows of a process's call come to, beyond the trades already written.
  function Booked(u: Id, kind: LedgerKind): Proc -> real {
    (p: Proc) =>
      if kind == DebitRow then
        if p.Execution? && (p.exec.Ledgered? || p.exec.Charged? || p.exec.ThrewDuplicateTrade?) then Carried(p, u)
            else 0.0
      else if p.Depositing? && (p.dep.DepositLedgered? || p.dep.DepositEnded?) then Brought(p, u) else 0.0
  }

  function TradedValue(trades: seq<Trade>, u: Id, kind: LedgerKind): real {
    if kind == DebitRow then SumBy(trades, TradeCostOf(u)) else 0.0
  }

  function RowsOf(ledger: seq<LedgerRow>, u: Id, kind: LedgerKind): real {
    SumBy(ledger, RowFigure(Some(u), kind))
  }

  lemma {:induction false} RowWriteBooks(db: Db, o: Id, pc: ExecPc, env: Env, u: Id, kind: LedgerKind)
    requires pc.Debited?
    ensures var (db', pc') := ExecStep(db, o, pc, env);
      && db'.trades == db.trades
      && RowsOf(db'.ledger, u, kind) - Booked(u, kind)(Execution(o, pc'))
         == RowsOf(db.ledger, u, kind) - Booked(u, kind)(Execution(o, pc))
  {
    SumAppend(db.ledger, DebitRowFor(o, pc.order, pc.price, pc.balanceAfter, env.freshId), RowFigure(Some(u), kind));
  }

  lemma {:induction false} TradeWriteBooks(db: Db, o: Id, pc: ExecPc, env: Env, u: Id, kind: LedgerKind)
    requires pc.Charged?
    ensures var (db', pc') := ExecStep(db, o, pc, env);
      && db'.ledger == db.ledger
      && TradedValue(db'.trades, u, kind) + Booked(u, kind)(Execution(o, pc'))
         == TradedValue(db.trades, u, kind) + Booked(u, kind)(Execution(o, pc))
  {
    SumAppend(db.trades, TradeFor(o, pc.order, pc.price, env.now), TradeCostOf(u));
  }

  lemma {:induction false} QuietStepBooks(db: Db, o: Id, pc: ExecPc, env: Env, u: Id, kind: LedgerKind)
    requires !pc.Debited? && !pc.Charged?
    ensures var (db', pc') := ExecStep(db, o, pc, env);
      && db'.ledger == db.ledger && db'.trades == db.trades
      && Booked(u, kind)(Execution(o, pc')) == Booked(u, kind)(Execution(o, pc))
  {
  }

  lemma {:induction false} ExecStepBooks(db: Db, o: Id, pc: ExecPc, env: Env, u: Id, kind: LedgerKind)
    ensures var (db', pc') := ExecStep(db, o, pc, env);
      RowsOf(db'.ledger, u, kind) - TradedValue(db'.trades, u, kind) - Booked(u, kind)(Execution(o, pc'))
      == RowsOf(db.ledger, u, kind) - TradedValue(db.trades, u, kind) - Booked(u, kind)(Execution(o, pc))
  {
    if pc.Debited? {
      RowWriteBooks(db, o, pc, env, u, kind);
    } else if pc.Charged? {
      TradeWriteBooks(db, o, pc, env, u, kind);
    } else {
      QuietStepBooks(db, o, pc, env, u, kind);
    }
  }

  lemma {:induction false} OtherStepBooks(db: Db, p: Proc, env: Env, u: Id, kind: LedgerKind)
    requires !p.Execution?
    ensures var (db', p', more) := ProcStep(db, p, env);
      && db'.trades == db.trades
      && RowsOf(db'.ledger, u, kind) - Booked(u, kind)(p') == RowsOf(db.ledger, u, kind) - Booked(u, kind)(p)
      && forall q | q in more :: Booked(u, kind)(q) == 0.0
  {
    OtherStepLedger(db, p, env);
    OtherStepMoney(db, p, env);
    if p.Depositing? && p.dep.WalletCredited? {
      SumAppend(db.ledger, LedgerRow(env.freshId, p.userId, DepositRow, p.amount, p.dep.before, p.dep.after, p.userId),
                RowFigure(Some(u), kind));
    }
  }

  function BooksGap(s: Sys, u: Id, kind: LedgerKind): real {
    RowsOf(s.db.ledger, u, kind) - TradedValue(s.db.trades, u, kind) - SumBy(s.procs, Booked(u, kind))
  }

  lemma {:induction false} StepBooks(s: Sys, a: Action, u: Id, kind: LedgerKind)
    ensures BooksGap(Step(s, a), u, kind) == BooksGap(s, u, kind)
  {
    match a {
      case Spawn(p) =>
        SumAppend(s.procs, p, Booked(u, kind));
      case Advance(i, env) =>
        if i < |s.procs| && EnvOk(s.db, s.procs[i], env) {
          var (db', p', more) := ProcStep(s.db, s.procs[i], env);
          if s.procs[i].Execution? {
            ExecStepBooks(s.db, s.procs[i].orderId, s.procs[i].exec, env, u, kind);
          } else {
            OtherStepBooks(s.db, s.procs[i], env, u, kind);
          }
          SumUpdate(s.procs, i, p', Booked(u, kind));
          SumConcat(s.procs[i := p'], more, Booked(u, kind));
          SumZero(more, Booked(u, kind));
        }
    }
  }

  // Over every run: the debit rows of a user are its recorded trades and the executions charged but
  // not yet recorded; its deposit rows are the deposits recorded.
  lemma {:induction false} LedgerMatchesEffects(s0: Sys, acts: seq<Action>, u: Id, kind: LedgerKind)
    requires Init(s0)
    ensures var s := Run(s0, acts);
      RowsOf(s.db.ledger, u, kind) == TradedValue(s.db.trades, u, kind) + SumBy(s.procs, Booked(u, kind))
  {
    if acts != [] {
      LedgerMatchesEffects(s0, acts[..|acts| - 1], u, kind);
      StepBooks(Run(s0, acts[..|acts| - 1]), acts[|acts| - 1], u, kind);
    }
  }

  lemma {:induction false} FinalSums(s: Sys, u: Id)
    requires Inv(s) && Quiescent(s)
    ensures SumBy(s.procs, Booked(u, DebitRow)) == 0.0 && SumBy(s.procs, InFlightOf(u)) == 0.0
    ensures SumBy(s.procs, Booked(u, DepositRow)) == SumBy(s.procs, DepositsOf(u))
  {
    forall i | 0 <= i < |s.procs|
      ensures Booked(u, DebitRow)(s.procs[i]) == 0.0 == InFlightOf(u)(s.procs[i])
      ensures Booked(u, DepositRow)(s.procs[i]) == DepositsOf(u)(s.procs[i])
    {
      assert Finished(s.procs[i]) && ProcOk(s.db, s.procs[i]);
      FinalParts(s.db, s.procs[i], u);
    }
    SumZero(s.procs, Booked(u, DebitRow));
    SumZero(s.procs, InFlightOf(u));
    SumCong(s.procs, Booked(u, DepositRow), DepositsOf(u));
  }

  lemma {:induction false} FinalParts(db: Db, p: Proc, u: Id)
    requires Finished(p) && ProcOk(db, p)
    ensures Booked(u, DebitRow)(p) == 0.0 == InFlightOf(u)(p) && Booked(u, DepositRow)(p) == DepositsOf(u)(p)
  {
  }

  lemma {:induction false} ReportedRowsAll(s0: Sys, acts: seq<Action>, ds: seq<Event>, u: Id, kind: LedgerKind)
    requires Init(s0) && AllDelivered(acts) && u != ""
    requires var s := Run(s0, acts); Quiescent(s) && CompletelyDelivered(ds, s.db.events)
    ensures Reported(ds, Some(u), LIFETIME, RowCounter(kind)) == RowsOf(Run(s0, acts).db.ledger, u, kind)
  {
    var s := Run(s0, acts);
    RunKeepsLog(s0, acts);
    ReportedRows(s.db, ds, Some(u), kind);
    RunKeepsAnnounced(s0, acts);
    forall r | r in s.db.ledger ensures RowEventId()(r) in Ids(ds) {
      RowAnnounced(s, r);
    }
    SumInAll(s.db.ledger, RowEventId(), RowFigure(Some(u), kind), Ids(ds));
  }

  lemma {:induction false} RowAnnounced(s: Sys, r: LedgerRow)
    requires Quiescent(s) && Announced(s, RowEventId()(r))
    ensures RowEventId()(r) in Ids(s.db.events)
  {
    if RowEventId()(r) !in Ids(s.db.events) {
      var i :| 0 <= i < |s.procs| && Owes(s.procs[i]) == Some(RowEventId()(r));
      OwedAtTheEnd(s.procs[i]);
      EventIdInjective(OrderType(Executed), s.procs[i].orderId, RowType(r.kind), r.id);
      assert false;
    }
  }

  lemma {:induction false} InvestedIsCost(trades: seq<Trade>, u: Id)
    ensures SumBy(trades, TradeFigure(Some(u), LIFETIME, Invested)) == SumBy(trades, TradeCostOf(u))
  {
    SumCong(trades, TradeFigure(Some(u), LIFETIME, Invested), TradeCostOf(u));
  }

  // Reported spend is the cost of all trades, reported investment that of the trades not stranded; the
  // reported deposits are the deposits made, and deposits less spend explain the wallet to the cent.
  lemma {:induction false} BooksClose(s0: Sys, acts: seq<Action>, ds: seq<Event>, u: Id)
    requires Init(s0) && AllDelivered(acts) && u in s0.db.users
    requires var s := Run(s0, acts); Quiescent(s) && CompletelyDelivered(ds, s.db.events)
    ensures var s := Run(s0, acts);
      var spend, invested := Reported(ds, Some(u), LIFETIME, Spend), Reported(ds, Some(u), LIFETIME, Invested);
      var deposits := Reported(ds, Some(u), LIFETIME, Deposits);
      && spend == SumBy(s.db.trades, TradeCostOf(u))
      && spend == invested + StrandedFigure(s, Some(u), LIFETIME, Invested)
      && deposits == SumBy(s.procs, DepositsOf(u))
      && u in s.db.users && s0.db.users[u].walletBalance + deposits - spend == s.db.users[u].walletBalance
  {
    var s := Run(s0, acts);
    RunKeepsInv(s0, acts);
    ReportedRowsAll(s0, acts, ds, u, DebitRow);
    ReportedRowsAll(s0, acts, ds, u, DepositRow);
    LedgerMatchesEffects(s0, acts, u, DebitRow);
    LedgerMatchesEffects(s0, acts, u, DepositRow);
    FinalSums(s, u);
    ReportedAndStranded(s0, acts, ds, Some(u), LIFETIME, Invested);
    InvestedIsCost(s.db.trades, u);
    MoneyIsConserved(s0, acts, u);
  }

  // So spend and investment agree exactly when every stranded trade of the user was free.
  lemma {:induction false} SpendIsInvestmentIff(s0: Sys, acts: seq<Action>, ds: seq<Event>, u: Id)
    requires Init(s0) && AllDelivered(acts) && u in s0.db.users
    requires var s := Run(s0, acts); Quiescent(s) && CompletelyDelivered(ds, s.db.events)
    ensures var s := Run(s0, acts);
      Reported(ds, Some(u), LIFETIME, Spend) == Reported(ds, Some(u), LIFETIME, Invested)
      <==> forall t | t in s.db.trades && t.buyOrderId in StrandedOrders(s.procs) && t.userId == u :: t.totalCost == 0.0
  {
    BooksClose(s0, acts, ds, u);
    StrandedNothingIff(s0, acts, Some(u), LIFETIME, Invested);
    assert forall t: Trade :: Counted(t, Some(u), LIFETIME) <==> t.userId == u;
  }
}
