/**
 Portfolio positions, run by run: exactly when an execution strands at the unique index, that it then
 stays stranded, and that positions are exact in every run whose loads and saves do not overlap.
 */
module PositionRuns {
  import opened Wrappers
  import opened AnalyticsEvents
  import opened Domain
  import opened Protocol
  import opened Ownership
  import opened OrderSafety
  import opened Livelock
  import opened PositionSums
  import opened Sums
  import opened Books
  import SerialStores

  // --- Stranding ---

  function KeyOf(order: Order): (Id, string) { (order.userId, order.symbol) }

  // A loaded position is still there: positions are never deleted.
  predicate LoadOk(db: Db, p: Proc) {
    p.Execution? && p.exec.PositionRead? && p.exec.found.Some? ==> KeyOf(p.exec.order) in db.positions
  }

  ghost predicate LoadsOk(s: Sys) { forall i | 0 <= i < |s.procs| :: LoadOk(s.db, s.procs[i]) }

  lemma {:induction false} ExecStepLoads(db: Db, o: Id, pc: ExecPc, env: Env)
    ensures var (db', pc') := ExecStep(db, o, pc, env);
      db.positions.Keys <= db'.positions.Keys && (LoadOk(db, Execution(o, pc)) ==> LoadOk(db', Execution(o, pc')))
  {
  }

  lemma {:induction false} AdvanceKeepsLoads(s: Sys, i: nat, env: Env)
    requires i < |s.procs| && EnvOk(s.db, s.procs[i], env) && LoadsOk(s)
    ensures LoadsOk(Step(s, Advance(i, env)))
  {
    var (db', p', more) := ProcStep(s.db, s.procs[i], env);
    var procs' := s.procs[i := p'] + more;
    if s.procs[i].Execution? {
      ExecStepLoads(s.db, s.procs[i].orderId, s.procs[i].exec, env);
    } else {
      OtherStepPositions(s.db, s.procs[i], env);
    }
    forall k | 0 <= k < |procs'| ensures LoadOk(db', procs'[k]) {
      if k < |s.procs| && k != i {
        assert LoadOk(s.db, s.procs[k]);
      }
    }
  }

  lemma {:induction false} RunKeepsLoads(s0: Sys, acts: seq<Action>)
    requires Init(s0)
    ensures LoadsOk(Run(s0, acts))
  {
    if acts != [] {
      var init, a := acts[..|acts| - 1], acts[|acts| - 1];
      RunKeepsLoads(s0, init);
      var s := Run(s0, init);
      if a.Advance? && a.i < |s.procs| && EnvOk(s.db, s.procs[a.i], a.env) {
        AdvanceKeepsLoads(s, a.i, a.env);
      } else {
        assert forall k | 0 <= k < |s.procs| :: LoadOk(s.db, s.procs[k]) && Step(s, a).procs[k] == s.procs[k];
      }
    }
  }

  // An execution that has looked for the position strands at its next step exactly when it found none
  // and there is one by now.
  lemma {:induction false} StrandsIff(s0: Sys, acts: seq<Action>, i: nat, env: Env)
    requires Init(s0) && i < |Run(s0, acts).procs|
    requires var s := Run(s0, acts);
      s.procs[i].Execution? && s.procs[i].exec.PositionRead? && EnvOk(s.db, s.procs[i], env)
    ensures var s := Run(s0, acts);
      IsStranded(Step(s, Advance(i, env)).procs[i])
      <==> s.procs[i].exec.found.None? && KeyOf(s.procs[i].exec.order) in s.db.positions
  {
    RunKeepsLoads(s0, acts);
    var s := Run(s0, acts);
    assert LoadOk(s.db, s.procs[i]);
    assert Step(s, Advance(i, env)).procs[i] == ProcStep(s.db, s.procs[i], env).1;
  }

  lemma {:induction false} StrandedStep(s: Sys, a: Action, i: nat)
    requires i < |s.procs| && IsStranded(s.procs[i])
    ensures i < |Step(s, a).procs| && Step(s, a).procs[i] == s.procs[i]
  {
  }

  lemma {:induction false} StrandedStays(s0: Sys, acts: seq<Action>, more: seq<Action>, i: nat)
    requires i < |Run(s0, acts).procs| && IsStranded(Run(s0, acts).procs[i])
    ensures i < |Run(s0, acts + more).procs| && Run(s0, acts + more).procs[i] == Run(s0, acts).procs[i]
  {
    if more == [] {
      assert acts + more == acts;
    } else {
      var init, last := more[..|more| - 1], more[|more| - 1];
      StrandedStays(s0, acts, init, i);
      assert acts + more == (acts + init) + [last];
      RunSplit(s0, acts + init, last);
      StrandedStep(Run(s0, acts + init), last, i);
    }
  }

  lemma {:induction false} StrandedHolds(s: Sys, i: nat)
    requires Inv(s) && i < |s.procs| && IsStranded(s.procs[i])
    ensures var p := s.procs[i];
      && HasStatus(s.db, p.orderId, Executing)
      && TradesOf(s.db.trades, p.orderId) == [TradeFor(p.orderId, p.exec.order, p.exec.price, p.exec.at)]
  {
    assert ProcOk(s.db, s.procs[i]);
  }

  // From then on nothing moves: whatever is scheduled later, the execution stays where it threw, its
  // order stays EXECUTING, and its trade stays recorded.
  lemma {:induction false} StrandedForEver(s0: Sys, acts: seq<Action>, more: seq<Action>, i: nat)
    requires Init(s0) && i < |Run(s0, acts).procs| && IsStranded(Run(s0, acts).procs[i])
    ensures var p := Run(s0, acts).procs[i]; var s := Run(s0, acts + more);
      && i < |s.procs| && s.procs[i] == p
      && HasStatus(s.db, p.orderId, Executing)
      && TradesOf(s.db.trades, p.orderId) == [TradeFor(p.orderId, p.exec.order, p.exec.price, p.exec.at)]
  {
    StrandedStays(s0, acts, more, i);
    RunKeepsInv(s0, acts + more);
    StrandedHolds(Run(s0, acts + more), i);
  }

  // --- Exact positions without overlap ---

  datatype Measure = Shares | Money

  function PositionFigure(positions: map<(Id, string), Position>, u: Id, y: string, m: Measure): real {
    if (u, y) !in positions then 0.0
    else if m == Shares then positions[(u, y)].quantityOwned else positions[(u, y)].totalInvested
  }

  function TradesIn(u: Id, y: string, m: Measure): Trade -> real {
    if m == Shares then QuantityIn(u, y) else CostIn(u, y)
  }

  // What an execution has recorded as a trade and not yet saved.
  function Unsaved(p: Proc, u: Id, y: string, m: Measure): real {
    if p.Execution? && (p.exec.Traded? || p.exec.PositionRead? || p.exec.ThrewAtPosition?)
        && KeyOf(p.exec.order) == (u, y)
    then if m == Shares then p.exec.order.quantity else Cost(p.exec.order, p.exec.price)
    else 0.0
  }

  function UnsavedIn(u: Id, y: string, m: Measure): Proc -> real {
    (p: Proc) => Unsaved(p, u, y, m)
  }

  // Between its load and its save.
  predicate Loading(p: Proc, u: Id, y: string) { p.Execution? && p.exec.PositionRead? && KeyOf(p.exec.order) == (u, y) }

  ghost predicate LoadsApart(s: Sys, u: Id, y: string) {
    forall i, j | 0 <= i < |s.procs| && 0 <= j < |s.procs| && Loading(s.procs[i], u, y) && Loading(s.procs[j], u, y) ::
        i == j
  }

  ghost predicate LoadsNeverOverlap(s0: Sys, acts: seq<Action>, u: Id, y: string) {
    forall k | 0 <= k <= |acts| :: LoadsApart(Run(s0, acts[..k]), u, y)
  }

  function Accounted(s: Sys, u: Id, y: string, m: Measure): real {
    PositionFigure(s.db.positions, u, y, m) + SumBy(s.procs, UnsavedIn(u, y, m)) - SumBy(s.db.trades, TradesIn(u, y, m))
  }

  predicate AverageOk(db: Db, u: Id, y: string) {
    (u, y) in db.positions ==>
      var p := db.positions[(u, y)]; p.quantityOwned >= 1.0 && p.avgBuyPrice == p.totalInvested / p.quantityOwned
  }

  // What an execution of this user and symbol relies on.
  predicate LoadCurrent(db: Db, p: Proc, u: Id, y: string) {
    && (Loading(p, u, y) ==> p.exec.found == Lookup(db.positions, (u, y)))
    && (IsStranded(p) ==> KeyOf(p.exec.order) != (u, y))
  }

  ghost predicate PositionWhole(s: Sys, u: Id, y: string) {
    && (forall m :: Accounted(s, u, y, m) == 0.0)
    && AverageOk(s.db, u, y)
    && (forall i | 0 <= i < |s.procs| :: LoadCurrent(s.db, s.procs[i], u, y))
  }

  lemma {:induction false} SaveFigure(db: Db, o: Id, pc: ExecPc, env: Env, u: Id, y: string)
    requires pc.PositionRead? && pc.order.quantity >= 1.0 && AverageOk(db, u, y)
        && LoadCurrent(db, Execution(o, pc), u, y)
    ensures var (db', pc') := ExecStep(db, o, pc, env);
      && AverageOk(db', u, y) && LoadCurrent(db', Execution(o, pc'), u, y)
      && forall m :: PositionFigure(db'.positions, u, y, m) + Unsaved(Execution(o, pc'), u, y, m)
                     == PositionFigure(db.positions, u, y, m) + Unsaved(Execution(o, pc), u, y, m)
  {
    SavedPosition(db, o, pc, env);
    if KeyOf(pc.order) == (u, y) && pc.found.Some? {
      SerialStores.SavedExactly(db.positions[(u, y)], pc.order.quantity, Cost(pc.order, pc.price));
    }
  }

  // Any other step of an execution: at most a trade is written, and is unsaved from then on.
  lemma {:induction false} OtherExecFigure(db: Db, o: Id, pc: ExecPc, env: Env, u: Id, y: string)
    requires !pc.PositionRead? && LoadCurrent(db, Execution(o, pc), u, y)
    ensures var (db', pc') := ExecStep(db, o, pc, env);
      && db'.positions == db.positions && LoadCurrent(db', Execution(o, pc'), u, y)
      && forall m :: Unsaved(Execution(o, pc'), u, y, m) - SumBy(db'.trades, TradesIn(u, y, m))
                     == Unsaved(Execution(o, pc), u, y, m) - SumBy(db.trades, TradesIn(u, y, m))
  {
    ExecStepPositions(db, o, pc, env);
    if pc.Charged? && TradesOf(db.trades, o) == [] {
      var t := TradeFor(o, pc.order, pc.price, env.now);
      SumAppend(db.trades, t, QuantityIn(u, y));
      SumAppend(db.trades, t, CostIn(u, y));
    }
  }

  lemma {:induction false} ExecFigure(db: Db, o: Id, pc: ExecPc, env: Env, u: Id, y: string)
    requires (pc.PositionRead? ==> pc.order.quantity >= 1.0) && AverageOk(db, u, y)
        && LoadCurrent(db, Execution(o, pc), u, y)
    ensures var (db', pc') := ExecStep(db, o, pc, env);
      && AverageOk(db', u, y) && LoadCurrent(db', Execution(o, pc'), u, y)
      && (forall m ::
            PositionFigure(db'.positions, u, y, m) + Unsaved(Execution(o, pc'), u, y, m)
              - SumBy(db'.trades, TradesIn(u, y, m))
            == PositionFigure(db.positions, u, y, m) + Unsaved(Execution(o, pc), u, y, m)
               - SumBy(db.trades, TradesIn(u, y, m)))
      && (!Loading(Execution(o, pc), u, y) ==> Lookup(db'.positions, (u, y)) == Lookup(db.positions, (u, y)))
  {
    if pc.PositionRead? {
      SavedPosition(db, o, pc, env);
      SaveFigure(db, o, pc, env, u, y);
    } else {
      OtherExecFigure(db, o, pc, env, u, y);
    }
  }

  lemma {:induction false} ExecAdvanceKeepsWhole(s: Sys, i: nat, env: Env, u: Id, y: string)
    requires Inv(s) && PositionWhole(s, u, y) && LoadsApart(s, u, y)
    requires i < |s.procs| && s.procs[i].Execution? && EnvOk(s.db, s.procs[i], env)
    ensures PositionWhole(Step(s, Advance(i, env)), u, y)
  {
    var p := s.procs[i];
    var (db', pc') := ExecStep(s.db, p.orderId, p.exec, env);
    var s' := Step(s, Advance(i, env));
    assert s' == Sys(db', s.procs[i := Execution(p.orderId, pc')]);
    assert p.exec.PositionRead? ==> p.exec.order.quantity >= 1.0 by {
      assert ProcOk(s.db, p);
      assert p.exec.PositionRead? ==> OrderOk(s.db, p.orderId);
    }
    ExecFigure(s.db, p.orderId, p.exec, env, u, y);
    forall m ensures Accounted(s', u, y, m) == 0.0 {
      SumUpdate(s.procs, i, Execution(p.orderId, pc'), UnsavedIn(u, y, m));
      assert Accounted(s, u, y, m) == 0.0;
    }
    forall k | 0 <= k < |s'.procs| ensures LoadCurrent(s'.db, s'.procs[k], u, y) {
      if k != i {
        assert LoadCurrent(s.db, s.procs[k], u, y);
      }
    }
  }

  lemma {:induction false} SpawnKeepsWhole(s: Sys, p: Proc, u: Id, y: string)
    requires PositionWhole(s, u, y) && CanStart(p)
    ensures PositionWhole(s.(procs := s.procs + [p]), u, y)
  {
    var s' := s.(procs := s.procs + [p]);
    forall m ensures Accounted(s', u, y, m) == 0.0 {
      SumAppend(s.procs, p, UnsavedIn(u, y, m));
      assert Accounted(s, u, y, m) == 0.0;
    }
  }

  lemma {:induction false} OtherAccounted(s: Sys, db': Db, i: nat, p': Proc, more: seq<Proc>, u: Id, y: string,
      m: Measure)
    requires i < |s.procs| && !s.procs[i].Execution? && !p'.Execution? && forall q | q in more :: CanStart(q)
    requires db'.trades == s.db.trades && db'.positions == s.db.positions
    ensures Accounted(Sys(db', s.procs[i := p'] + more), u, y, m) == Accounted(s, u, y, m)
  {
    SumUpdate(s.procs, i, p', UnsavedIn(u, y, m));
    SumConcat(s.procs[i := p'], more, UnsavedIn(u, y, m));
    SumZero(more, UnsavedIn(u, y, m));
  }

  lemma {:induction false} OtherKeepsWhole(s: Sys, db': Db, i: nat, p': Proc, more: seq<Proc>, u: Id, y: string)
    requires PositionWhole(s, u, y)
    requires i < |s.procs| && !s.procs[i].Execution? && !p'.Execution? && forall q | q in more :: CanStart(q)
    requires db'.trades == s.db.trades && db'.positions == s.db.positions
    ensures PositionWhole(Sys(db', s.procs[i := p'] + more), u, y)
  {
    var procs' := s.procs[i := p'] + more;
    forall m ensures Accounted(Sys(db', procs'), u, y, m) == 0.0 {
      OtherAccounted(s, db', i, p', more, u, y, m);
      assert Accounted(s, u, y, m) == 0.0;
    }
    forall k | 0 <= k < |procs'| ensures LoadCurrent(db', procs'[k], u, y) {
      if k >= |s.procs| {
        assert procs'[k] in more;
      } else if k != i {
        assert LoadCurrent(s.db, s.procs[k], u, y);
      }
    }
  }

  lemma {:induction false} OtherStepKeepsWhole(s: Sys, a: Action, u: Id, y: string)
    requires PositionWhole(s, u, y)
    requires a.Advance? && a.i < |s.procs| && EnvOk(s.db, s.procs[a.i], a.env) ==> !s.procs[a.i].Execution?
    ensures PositionWhole(Step(s, a), u, y)
  {
    match a {
      case Spawn(p) =>
        if CanStart(p) {
          SpawnKeepsWhole(s, p, u, y);
        }
      case Advance(i, env) =>
        if i < |s.procs| && EnvOk(s.db, s.procs[i], env) {
          var (db', p', more) := ProcStep(s.db, s.procs[i], env);
          OtherStepPositions(s.db, s.procs[i], env);
          OtherKeepsWhole(s, db', i, p', more, u, y);
        }
    }
  }

  lemma {:induction false} RunKeepsWhole(s0: Sys, acts: seq<Action>, u: Id, y: string)
    requires Init(s0) && LoadsNeverOverlap(s0, acts, u, y)
    ensures PositionWhole(Run(s0, acts), u, y)
  {
    if acts != [] {
      var init, a := acts[..|acts| - 1], acts[|acts| - 1];
      forall k | 0 <= k <= |init| ensures LoadsApart(Run(s0, init[..k]), u, y) {
        assert init[..k] == acts[..k];
      }
      assert init[..|init|] == init;
      RunKeepsWhole(s0, init, u, y);
      RunKeepsInv(s0, init);
      var s := Run(s0, init);
      if a.Advance? && a.i < |s.procs| && EnvOk(s.db, s.procs[a.i], a.env) && s.procs[a.i].Execution? {
        ExecAdvanceKeepsWhole(s, a.i, a.env, u, y);
      } else {
        OtherStepKeepsWhole(s, a, u, y);
      }
    }
  }

  // If no two executions of a user and symbol overlap between load and save, none of them strands, and
  // position and trades differ only by what is not yet saved; at the end they agree.
  lemma {:induction false} PositionsExactWithoutOverlap(s0: Sys, acts: seq<Action>, u: Id, y: string)
    requires Init(s0) && LoadsNeverOverlap(s0, acts, u, y)
    ensures var s := Run(s0, acts);
      && (forall i | 0 <= i < |s.procs| && IsStranded(s.procs[i]) :: KeyOf(s.procs[i].exec.order) != (u, y))
      && (forall m :: PositionFigure(s.db.positions, u, y, m)
                      == SumBy(s.db.trades, TradesIn(u, y, m)) - SumBy(s.procs, UnsavedIn(u, y, m)))
      && AverageOk(s.db, u, y)
      && (Quiescent(s) ==> forall m :: PositionFigure(s.db.positions, u, y, m) == SumBy(s.db.trades, TradesIn(u, y, m)))
  {
    var s := Run(s0, acts);
    RunKeepsWhole(s0, acts, u, y);
    forall m
      ensures PositionFigure(s.db.positions, u, y, m)
          == SumBy(s.db.trades, TradesIn(u, y, m)) - SumBy(s.procs, UnsavedIn(u, y, m))
      ensures Quiescent(s) ==> SumBy(s.procs, UnsavedIn(u, y, m)) == 0.0
    {
      assert Accounted(s, u, y, m) == 0.0;
      if Quiescent(s) {
        NothingUnsaved(s, u, y, m);
      }
    }
  }

  lemma {:induction false} NothingUnsaved(s: Sys, u: Id, y: string, m: Measure)
    requires Quiescent(s) && forall i | 0 <= i < |s.procs| :: LoadCurrent(s.db, s.procs[i], u, y)
    ensures SumBy(s.procs, UnsavedIn(u, y, m)) == 0.0
  {
    forall i | 0 <= i < |s.procs| ensures UnsavedIn(u, y, m)(s.procs[i]) == 0.0 {
      assert Finished(s.procs[i]) && LoadCurrent(s.db, s.procs[i], u, y);
    }
    SumZero(s.procs, UnsavedIn(u, y, m));
  }
}
