/**
 Portfolio positions under interleaving.  A position is updated by reading it, adding, and saving
 absolute values, so concurrent executions may lose an update; but what a position holds is always
 the sum over some set of distinct trades of its user and symbol.
 */
module PositionSums {
  import opened Wrappers
  import opened AnalyticsEvents
  import opened Domain
  import opened Protocol
  import opened Ownership
  import opened OrderSafety
  import opened Sums

  function TradeKey(t: Trade): Id { t.buyOrderId }

  predicate TradeIs(t: Trade, u: Id, y: string) { t.userId == u && t.symbol == y }

  function QuantityIn(u: Id, y: string): Trade -> real {
    (t: Trade) => if TradeIs(t, u, y) then t.quantity else 0.0
  }

  function CostIn(u: Id, y: string): Trade -> real {
    (t: Trade) => if TradeIs(t, u, y) then t.totalCost else 0.0
  }

  // The execution has written its trade and not yet saved the position.
  predicate Applying(p: Proc, o: Id) {
    p.Execution? && p.orderId == o && (p.exec.Traded? || p.exec.PositionRead? || p.exec.ThrewAtPosition?)
  }

  predicate HasTrade(trades: seq<Trade>, o: Id, u: Id, y: string) {
    var ts := TradesOf(trades, o);
    |ts| == 1 && TradeIs(ts[0], u, y)
  }

  // Orders whose trade of u in y a position may already include.
  ghost predicate Applied(s: Sys, u: Id, y: string, orders: set<Id>) {
    forall o | o in orders :: HasTrade(s.db.trades, o, u, y) && forall i | 0 <= i < |s.procs| ::
        !Applying(s.procs[i], o)
  }

  ghost predicate SumsTrades(s: Sys, u: Id, y: string, val: Trade -> real, x: real) {
    exists orders :: Applied(s, u, y, orders) && x == SumIn(s.db.trades, TradeKey, val, orders)
  }

  ghost predicate PositionSumsTrades(s: Sys, u: Id, y: string, p: Position) {
    SumsTrades(s, u, y, QuantityIn(u, y), p.quantityOwned) && SumsTrades(s, u, y, CostIn(u, y), p.totalInvested)
  }

  ghost predicate PositionsInv(s: Sys) {
    && (forall k | k in s.db.positions :: PositionSumsTrades(s, k.0, k.1, s.db.positions[k]))
    && (forall i | 0 <= i < |s.procs| && s.procs[i].Execution? && s.procs[i].exec.PositionRead?
        && s.procs[i].exec.found.Some?
          :: PositionSumsTrades(s, s.procs[i].exec.order.userId, s.procs[i].exec.order.symbol,
              s.procs[i].exec.found.value))
  }

  lemma {:induction false} TradesDistinct(s0: Sys, acts: seq<Action>)
    requires Init(s0)
    ensures DistinctKeys(Run(s0, acts).db.trades, TradeKey)
  {
    var trades := Run(s0, acts).db.trades;
    forall i, j | 0 <= i < j < |trades| ensures TradeKey(trades[i]) != TradeKey(trades[j]) {
      if TradeKey(trades[i]) == TradeKey(trades[j]) {
        TradesOfTwice(trades, i, j);
        EffectsHappenOnce(s0, acts, trades[j].buyOrderId);
      }
    }
  }

  // --- What a step does to the set of applied trades ---

  // Nothing already applied is forgotten, and no execution starts applying a trade again.
  ghost predicate AppliedGrows(s: Sys, s': Sys) {
    && (s'.db.trades == s.db.trades
        || (|s'.db.trades| == |s.db.trades| + 1 && s'.db.trades[..|s.db.trades|] == s.db.trades
            && TradesOf(s.db.trades, s'.db.trades[|s.db.trades|].buyOrderId) == []))
    && (forall i, o | 0 <= i < |s'.procs| && Applying(s'.procs[i], o)
          :: TradesOf(s.db.trades, o) == [] || exists j :: 0 <= j < |s.procs| && Applying(s.procs[j], o))
  }

  lemma {:induction false} AppliedKept(s: Sys, s': Sys, u: Id, y: string, val: Trade -> real, orders: set<Id>)
    requires AppliedGrows(s, s') && Applied(s, u, y, orders)
    ensures Applied(s', u, y, orders)
    ensures SumIn(s'.db.trades, TradeKey, val, orders) == SumIn(s.db.trades, TradeKey, val, orders)
  {
    if s'.db.trades != s.db.trades {
      var t := s'.db.trades[|s.db.trades|];
      assert s'.db.trades == s.db.trades + [t];
      assert t.buyOrderId !in orders;
      SumInAppend(s.db.trades, t, TradeKey, val, orders);
      forall o | o in orders ensures TradesOf(s'.db.trades, o) == TradesOf(s.db.trades, o) {
        TradesOfAppend(s.db.trades, t, o);
      }
    }
  }

  lemma {:induction false} SumKept(s: Sys, s': Sys, u: Id, y: string, val: Trade -> real, x: real)
    requires AppliedGrows(s, s') && SumsTrades(s, u, y, val, x)
    ensures SumsTrades(s', u, y, val, x)
  {
    var orders :| Applied(s, u, y, orders) && x == SumIn(s.db.trades, TradeKey, val, orders);
    AppliedKept(s, s', u, y, val, orders);
  }

  lemma {:induction false} PositionKept(s: Sys, s': Sys, u: Id, y: string, p: Position)
    requires AppliedGrows(s, s') && PositionSumsTrades(s, u, y, p)
    ensures PositionSumsTrades(s', u, y, p)
  {
    SumKept(s, s', u, y, QuantityIn(u, y), p.quantityOwned);
    SumKept(s, s', u, y, CostIn(u, y), p.totalInvested);
  }

  // After the step that applies a trade, no execution is about to apply it.
  lemma {:induction false} NoneApplying(s: Sys, s': Sys, i: nat)
    requires Inv(s) && i < |s.procs| && s.procs[i].Execution? && s.procs[i].exec.PositionRead?
    requires |s'.procs| == |s.procs| && forall j | 0 <= j < |s.procs| && j != i :: s'.procs[j] == s.procs[j]
    requires s'.procs[i].Execution? && s'.procs[i].exec.Positioned?
    ensures forall j | 0 <= j < |s'.procs| :: !Applying(s'.procs[j], s.procs[i].orderId)
  {
    forall j | 0 <= j < |s'.procs| ensures !Applying(s'.procs[j], s.procs[i].orderId) {
      if j != i && Applying(s'.procs[j], s.procs[i].orderId) {
        OthersApart(s, i, j);
      }
    }
  }

  // Step from s to s' is the save of execution i.
  ghost predicate Saves(s: Sys, s': Sys, i: nat) {
    && i < |s.procs| && s.procs[i].Execution? && s.procs[i].exec.PositionRead?
    && s'.db.trades == s.db.trades && |s'.procs| == |s.procs|
    && (forall j | 0 <= j < |s.procs| && j != i :: s'.procs[j] == s.procs[j])
    && s'.procs[i].Execution? && s'.procs[i].exec.Positioned?
  }

  // Adding a trade that was not yet applied, at the step that applies it.
  lemma {:induction false} AppliedAdds(s: Sys, s': Sys, i: nat, val: Trade -> real, orders: set<Id>)
    requires Inv(s) && DistinctKeys(s.db.trades, TradeKey) && Saves(s, s', i)
    requires var order := s.procs[i].exec.order; Applied(s, order.userId, order.symbol, orders)
    ensures var p := s.procs[i]; var order := p.exec.order;
      && Applied(s', order.userId, order.symbol, orders + {p.orderId})
      && SumIn(s'.db.trades, TradeKey, val, orders + {p.orderId})
         == SumIn(s.db.trades, TradeKey, val, orders) + val(TradeFor(p.orderId, order, p.exec.price, p.exec.at))
  {
    var p := s.procs[i];
    var o, order := p.orderId, p.exec.order;
    var u, y := order.userId, order.symbol;
    var t := TradeFor(o, order, p.exec.price, p.exec.at);
    assert ProcOk(s.db, p);
    assert TradesOf(s.db.trades, o) == [t];
    TradesOfMember(s.db.trades, t, o);
    var k :| 0 <= k < |s.db.trades| && s.db.trades[k] == t;
    assert Applying(s.procs[i], o);
    assert o !in orders;
    SumInAddKey(s.db.trades, TradeKey, val, orders, k);
    NoneApplying(s, s', i);
  }

  lemma {:induction false} SumAdds(s: Sys, s': Sys, i: nat, val: Trade -> real, x: real)
    requires Inv(s) && DistinctKeys(s.db.trades, TradeKey) && Saves(s, s', i)
    requires var order := s.procs[i].exec.order; SumsTrades(s, order.userId, order.symbol, val, x)
    ensures var p := s.procs[i]; var order := p.exec.order;
      SumsTrades(s', order.userId, order.symbol, val, x + val(TradeFor(p.orderId, order, p.exec.price, p.exec.at)))
  {
    var order := s.procs[i].exec.order;
    var orders :| Applied(s, order.userId, order.symbol, orders) && x == SumIn(s.db.trades, TradeKey, val, orders);
    AppliedAdds(s, s', i, val, orders);
  }

  lemma {:induction false} EmptySum(s: Sys, u: Id, y: string, val: Trade -> real)
    ensures SumsTrades(s, u, y, val, 0.0)
  {
    assert Applied(s, u, y, {});
    SumZero(s.db.trades, Picked(TradeKey, val, {}));
  }

  // --- Preservation ---

  lemma {:induction false} ExecStepPositions(db: Db, o: Id, pc: ExecPc, env: Env)
    ensures var (db', pc') := ExecStep(db, o, pc, env);
      && (pc'.PositionRead? ==> pc.Traded? && pc'.order == pc.order
                                && pc'.found == Lookup(db.positions, (pc.order.userId, pc.order.symbol)))
      && (Applying(Execution(o, pc'), o) && !Applying(Execution(o, pc), o) ==>
          pc.Charged? && TradesOf(db.trades, o) == [])
      && (if pc.Charged? && TradesOf(db.trades, o) == []
          then db'.trades == db.trades + [TradeFor(o, pc.order, pc.price, env.now)]
          else db'.trades == db.trades)
      && (!pc.PositionRead? ==> db'.positions == db.positions)
  {
  }

  lemma {:induction false} SavedPosition(db: Db, o: Id, pc: ExecPc, env: Env)
    requires pc.PositionRead?
    ensures var (db', pc') := ExecStep(db, o, pc, env); var key := (pc.order.userId, pc.order.symbol);
      || (db' == db && pc'.ThrewAtPosition?)
      || (pc'.Positioned? && db' == db.(positions := db'.positions) && key in db'.positions
          && db'.positions == db.positions[key := db'.positions[key]]
          && if pc.found.None? then db'.positions[key] == NewPosition(pc.order.quantity, Cost(pc.order, pc.price))
             else key in db.positions && db'.positions[key]
                  == SavePosition(db.positions[key], pc.found.value, pc.order.quantity, Cost(pc.order, pc.price)))
  {
  }

  lemma {:induction false} OtherStepPositions(db: Db, p: Proc, env: Env)
    requires !p.Execution?
    ensures var (db', p', more) := ProcStep(db, p, env);
      && db'.trades == db.trades && db'.positions == db.positions && !p'.Execution?
      && (forall q | q in more :: CanStart(q))
  {
  }

  lemma {:induction false} SaveKeepsSums(s: Sys, i: nat, env: Env)
    requires Inv(s) && PositionsInv(s) && DistinctKeys(s.db.trades, TradeKey) && i < |s.procs|
    requires s.procs[i].Execution? && s.procs[i].exec.PositionRead?
    requires ExecStep(s.db, s.procs[i].orderId, s.procs[i].exec, env).1.Positioned?
    requires AppliedGrows(s, Sys(ExecStep(s.db, s.procs[i].orderId, s.procs[i].exec, env).0,
                                 s.procs[i := Execution(s.procs[i].orderId,
                                     ExecStep(s.db, s.procs[i].orderId, s.procs[i].exec, env).1)]))
    ensures var p := s.procs[i]; var (db', pc') := ExecStep(s.db, p.orderId, p.exec, env);
      var key := (p.exec.order.userId, p.exec.order.symbol);
      key in db'.positions && PositionSumsTrades(Sys(db', s.procs[i := Execution(p.orderId, pc')]), key.0, key.1,
          db'.positions[key])
  {
    var p := s.procs[i];
    var pc, order := p.exec, p.exec.order;
    var (db', pc') := ExecStep(s.db, p.orderId, pc, env);
    var s' := Sys(db', s.procs[i := Execution(p.orderId, pc')]);
    var u, y := order.userId, order.symbol;
    SavedPosition(s.db, p.orderId, pc, env);
    assert order.quantity >= 1.0 by {
      assert ProcOk(s.db, p);
      assert OrderOk(s.db, p.orderId);
    }
    var q0 := if pc.found.None? then 0.0 else pc.found.value.quantityOwned;
    var c0 := if pc.found.None? then 0.0 else pc.found.value.totalInvested;
    if pc.found.None? {
      EmptySum(s, u, y, QuantityIn(u, y));
      EmptySum(s, u, y, CostIn(u, y));
    }
    SumAdds(s, s', i, QuantityIn(u, y), q0);
    SumAdds(s, s', i, CostIn(u, y), c0);
    if pc.found.Some? {
      SumKept(s, s', u, y, CostIn(u, y), s.db.positions[(u, y)].totalInvested);
    }
  }

  lemma {:induction false} AppliedGrowsOutside(s: Sys, s': Sys)
    requires s'.db.trades == s.db.trades
    requires forall i | 0 <= i < |s'.procs| && s'.procs[i].Execution? && s'.procs[i].exec != Queued
               :: i < |s.procs| && s'.procs[i] == s.procs[i]
    ensures AppliedGrows(s, s')
  {
    forall i, o | 0 <= i < |s'.procs| && Applying(s'.procs[i], o)
      ensures exists j :: 0 <= j < |s.procs| && Applying(s.procs[j], o)
    {
      assert Applying(s.procs[i], o);
    }
  }

  lemma {:induction false} StepGrowsApplied(s: Sys, a: Action)
    ensures AppliedGrows(s, Step(s, a))
    ensures var s' := Step(s, a);
      s'.db.positions == s.db.positions
      || (a.Advance? && a.i < |s.procs| && EnvOk(s.db, s.procs[a.i], a.env)
          && s.procs[a.i].Execution? && s.procs[a.i].exec.PositionRead?)
  {
    var s' := Step(s, a);
    if a.Advance? && a.i < |s.procs| && EnvOk(s.db, s.procs[a.i], a.env) {
      var p := s.procs[a.i];
      if p.Execution? {
        ExecStepPositions(s.db, p.orderId, p.exec, a.env);
        assert s'.procs == s.procs[a.i := s'.procs[a.i]];
        forall i, o | 0 <= i < |s'.procs| && Applying(s'.procs[i], o)
          ensures TradesOf(s.db.trades, o) == [] || exists j :: 0 <= j < |s.procs| && Applying(s.procs[j], o)
        {
          assert i != a.i ==> Applying(s.procs[i], o);
          assert i == a.i && Applying(p, o) ==> Applying(s.procs[i], o);
        }
      } else {
        OtherStepPositions(s.db, p, a.env);
        AppliedGrowsOutside(s, s');
      }
    } else {
      AppliedGrowsOutside(s, s');
    }
  }

  // A position an execution has just loaded, or loaded earlier and still carries.
  lemma {:induction false} LoadedFrom(s: Sys, a: Action, i: nat)
    requires i < |Step(s, a).procs|
    requires var p := Step(s, a).procs[i]; p.Execution? && p.exec.PositionRead? && p.exec.found.Some?
    ensures var p := Step(s, a).procs[i]; var key := (p.exec.order.userId, p.exec.order.symbol);
      || (i < |s.procs| && s.procs[i] == p)
      || (key in s.db.positions && s.db.positions[key] == p.exec.found.value)
  {
    if a.Advance? && a.i < |s.procs| && EnvOk(s.db, s.procs[a.i], a.env) {
      var p := s.procs[a.i];
      if p.Execution? {
        ExecStepPositions(s.db, p.orderId, p.exec, a.env);
      } else {
        OtherStepPositions(s.db, p, a.env);
      }
    }
  }

  lemma {:induction false} StepKeepsPositions(s: Sys, a: Action)
    requires Inv(s) && PositionsInv(s) && DistinctKeys(s.db.trades, TradeKey)
    ensures PositionsInv(Step(s, a))
  {
    var s' := Step(s, a);
    StepGrowsApplied(s, a);
    forall k | k in s'.db.positions ensures PositionSumsTrades(s', k.0, k.1, s'.db.positions[k]) {
      if k in s.db.positions && s'.db.positions[k] == s.db.positions[k] {
        PositionKept(s, s', k.0, k.1, s.db.positions[k]);
      } else {
        assert s'.procs == s.procs[a.i := s'.procs[a.i]];
        SavedPosition(s.db, s.procs[a.i].orderId, s.procs[a.i].exec, a.env);
        SaveKeepsSums(s, a.i, a.env);
      }
    }
    forall i | 0 <= i < |s'.procs| && s'.procs[i].Execution? && s'.procs[i].exec.PositionRead?
        && s'.procs[i].exec.found.Some?
      ensures PositionSumsTrades(s', s'.procs[i].exec.order.userId, s'.procs[i].exec.order.symbol,
          s'.procs[i].exec.found.value)
    {
      var order := s'.procs[i].exec.order;
      LoadedFrom(s, a, i);
      PositionKept(s, s', order.userId, order.symbol, s'.procs[i].exec.found.value);
    }
  }

  lemma {:induction false} RunKeepsPositions(s0: Sys, acts: seq<Action>)
    requires Init(s0)
    ensures PositionsInv(Run(s0, acts))
  {
    if acts != [] {
      var init := acts[..|acts| - 1];
      RunKeepsPositions(s0, init);
      RunKeepsInv(s0, init);
      TradesDistinct(s0, init);
      StepKeepsPositions(Run(s0, init), acts[|acts| - 1]);
    }
  }

  // The set of orders a figure adds up, each with exactly one recorded trade of that user and symbol.
  ghost predicate TradedOrders(db: Db, u: Id, y: string, orders: set<Id>) {
    forall o | o in orders :: HasTrade(db.trades, o, u, y)
  }

  // Quantity and cost of a position are each the sum over a set of real, distinct trades, so neither
  // ever exceeds what was bought.
  lemma {:induction false} PositionsAddUpRealTrades(s0: Sys, acts: seq<Action>, u: Id, y: string)
    requires Init(s0) && (u, y) in Run(s0, acts).db.positions
    ensures var db := Run(s0, acts).db; var p := db.positions[(u, y)];
      && (exists q :: TradedOrders(db, u, y, q) && p.quantityOwned == SumIn(db.trades, TradeKey, QuantityIn(u, y), q))
      && (exists c :: TradedOrders(db, u, y, c) && p.totalInvested == SumIn(db.trades, TradeKey, CostIn(u, y), c))
      && p.quantityOwned <= SumBy(db.trades, QuantityIn(u, y))
      && p.totalInvested <= SumBy(db.trades, CostIn(u, y))
  {
    var s := Run(s0, acts);
    RunKeepsPositions(s0, acts);
    var p := s.db.positions[(u, y)];
    assert PositionSumsTrades(s, u, y, p);
    var q :| Applied(s, u, y, q) && p.quantityOwned == SumIn(s.db.trades, TradeKey, QuantityIn(u, y), q);
    var c :| Applied(s, u, y, c) && p.totalInvested == SumIn(s.db.trades, TradeKey, CostIn(u, y), c);
    assert TradedOrders(s.db, u, y, q) && TradedOrders(s.db, u, y, c);
    forall t | t in s.db.trades ensures QuantityIn(u, y)(t) >= 0.0 && CostIn(u, y)(t) >= 0.0 {
      TradesRespectTargets(s0, acts, t);
      RunKeepsInv(s0, acts);
      assert OrderOk(s.db, t.buyOrderId);
    }
    SumInBounded(s.db.trades, TradeKey, QuantityIn(u, y), q);
    SumInBounded(s.db.trades, TradeKey, CostIn(u, y), c);
  }
}
