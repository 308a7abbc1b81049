/**
 Lost position updates, exactly: once two executions of one user and symbol have overlapped between load
 and save, the position stays short of its trades whatever is scheduled later, since no figure that is
 ever loaded or saved from then on adds up both of their trades.
 */
module LostUpdates {
  import opened Wrappers
  import opened AnalyticsEvents
  import opened Domain
  import opened Protocol
  import opened Ownership
  import opened OrderSafety
  import opened PositionSums
  import opened PositionRuns
  import opened Sums
  import opened Books

  // The quantity is that of a set of trades which leaves out at least one of the two orders.
  ghost predicate LeavesOne(s: Sys, u: Id, y: string, q: real, a: Id, b: Id) {
    exists orders :: Applied(s, u, y, orders) && q == SumIn(s.db.trades, TradeKey, QuantityIn(u, y), orders)
                     && !(a in orders && b in orders)
  }

  // It leaves out both.
  ghost predicate LeavesBoth(s: Sys, u: Id, y: string, q: real, a: Id, b: Id) {
    exists orders :: Applied(s, u, y, orders) && q == SumIn(s.db.trades, TradeKey, QuantityIn(u, y), orders)
                     && a !in orders && b !in orders
  }

  function Found(found: Option<Position>): real { if found.Some? then found.value.quantityOwned else 0.0 }

  // Somebody has recorded the trade of the order and gone on to load the position.
  ghost predicate Loaded(s: Sys, o: Id, u: Id, y: string) {
    && HasTrade(s.db.trades, o, u, y)
    && forall i | 0 <= i < |s.procs| :: !(s.procs[i].Execution? && s.procs[i].orderId == o && s.procs[i].exec.Traded?)
  }

  // What execution p has loaded leaves out one of the two orders, and both if it is one of them itself.
  ghost predicate LoadShort(s: Sys, p: Proc, u: Id, y: string, a: Id, b: Id) {
    Loading(p, u, y) ==>
      if p.orderId in {a, b} then LeavesBoth(s, u, y, Found(p.exec.found), a, b)
      else LeavesOne(s, u, y, Found(p.exec.found), a, b)
  }

  ghost predicate Short(s: Sys, u: Id, y: string, a: Id, b: Id) {
    && a != b && Loaded(s, a, u, y) && Loaded(s, b, u, y)
    && LeavesOne(s, u, y, PositionFigure(s.db.positions, u, y, Shares), a, b)
    && forall i | 0 <= i < |s.procs| :: LoadShort(s, s.procs[i], u, y, a, b)
  }

  // --- Where it begins ---

  lemma {:induction false} NothingLeavesBoth(s: Sys, u: Id, y: string, a: Id, b: Id)
    ensures LeavesBoth(s, u, y, 0.0, a, b)
  {
    assert Applied(s, u, y, {});
    SumZero(s.db.trades, Picked(TradeKey, QuantityIn(u, y), {}));
  }

  // A figure that adds up trades adds up none that is still being applied.
  lemma {:induction false} SumLeavesBoth(s: Sys, u: Id, y: string, q: real, i: nat, j: nat)
    requires i < |s.procs| && j < |s.procs| && Loading(s.procs[i], u, y) && Loading(s.procs[j], u, y)
    requires SumsTrades(s, u, y, QuantityIn(u, y), q)
    ensures LeavesBoth(s, u, y, q, s.procs[i].orderId, s.procs[j].orderId)
  {
    var orders :| Applied(s, u, y, orders) && q == SumIn(s.db.trades, TradeKey, QuantityIn(u, y), orders);
    assert Applying(s.procs[i], s.procs[i].orderId) && Applying(s.procs[j], s.procs[j].orderId);
  }

  lemma {:induction false} LoadingLoaded(s: Sys, i: nat, u: Id, y: string)
    requires Inv(s) && i < |s.procs| && Loading(s.procs[i], u, y)
    ensures Loaded(s, s.procs[i].orderId, u, y)
  {
    assert ProcOk(s.db, s.procs[i]);
    forall k | 0 <= k < |s.procs| && s.procs[k].Execution? && s.procs[k].exec.Traded?
      ensures s.procs[k].orderId != s.procs[i].orderId
    {
      OthersApart(s, k, i);
    }
  }

  lemma {:induction false} OverlapIsShort(s: Sys, i: nat, j: nat, u: Id, y: string)
    requires Inv(s) && PositionsInv(s) && i < |s.procs| && j < |s.procs| && i != j
    requires Loading(s.procs[i], u, y) && Loading(s.procs[j], u, y)
    ensures Short(s, u, y, s.procs[i].orderId, s.procs[j].orderId)
  {
    var a, b := s.procs[i].orderId, s.procs[j].orderId;
    OthersApart(s, i, j);
    LoadingLoaded(s, i, u, y);
    LoadingLoaded(s, j, u, y);
    NothingLeavesBoth(s, u, y, a, b);
    if (u, y) in s.db.positions {
      assert PositionSumsTrades(s, (u, y).0, (u, y).1, s.db.positions[(u, y)]);
      SumLeavesBoth(s, u, y, s.db.positions[(u, y)].quantityOwned, i, j);
    }
    forall k | 0 <= k < |s.procs| ensures LoadShort(s, s.procs[k], u, y, a, b) {
      if Loading(s.procs[k], u, y) && s.procs[k].exec.found.Some? {
        SumLeavesBoth(s, u, y, s.procs[k].exec.found.value.quantityOwned, i, j);
      }
    }
  }

  // --- Why it never ends ---

  lemma {:induction false} LeavesKept(s: Sys, s': Sys, u: Id, y: string, q: real, a: Id, b: Id)
    requires AppliedGrows(s, s')
    ensures LeavesOne(s, u, y, q, a, b) ==> LeavesOne(s', u, y, q, a, b)
    ensures LeavesBoth(s, u, y, q, a, b) ==> LeavesBoth(s', u, y, q, a, b)
  {
    forall orders | Applied(s, u, y, orders)
      ensures Applied(s', u, y, orders)
      ensures SumIn(s'.db.trades, TradeKey, QuantityIn(u, y), orders)
           == SumIn(s.db.trades, TradeKey, QuantityIn(u, y), orders)
    {
      AppliedKept(s, s', u, y, QuantityIn(u, y), orders);
    }
  }

  // A trade is kept, and no execution of its order comes to write it again.
  lemma {:induction false} LoadedKept(s: Sys, act: Action, o: Id, u: Id, y: string)
    requires Loaded(s, o, u, y)
    ensures Loaded(Step(s, act), o, u, y)
  {
    var s' := Step(s, act);
    if act.Advance? && act.i < |s.procs| && EnvOk(s.db, s.procs[act.i], act.env) {
      var p := s.procs[act.i];
      if p.Execution? {
        ExecStepPositions(s.db, p.orderId, p.exec, act.env);
        if p.exec.Charged? {
          TradesOfAppend(s.db.trades, TradeFor(p.orderId, p.exec.order, p.exec.price, act.env.now), o);
        }
        assert s'.procs == s.procs[act.i := s'.procs[act.i]];
      } else {
        OtherStepPositions(s.db, p, act.env);
      }
    }
  }

  // Whoever loads the position now had its trade written before.
  lemma {:induction false} NewlyLoading(s: Sys, act: Action, k: nat, u: Id, y: string)
    requires k < |Step(s, act).procs| && Loading(Step(s, act).procs[k], u, y)
    requires k < |s.procs| ==> s.procs[k] != Step(s, act).procs[k]
    ensures var p := Step(s, act).procs[k];
      && k < |s.procs| && s.procs[k].Execution? && s.procs[k].exec.Traded? && s.procs[k].orderId == p.orderId
      && Found(p.exec.found) == PositionFigure(s.db.positions, u, y, Shares)
  {
    if act.Advance? && act.i < |s.procs| && EnvOk(s.db, s.procs[act.i], act.env) {
      var p := s.procs[act.i];
      if p.Execution? {
        ExecStepPositions(s.db, p.orderId, p.exec, act.env);
      } else {
        OtherStepPositions(s.db, p, act.env);
      }
    }
  }

  lemma {:induction false} SavedShort(s: Sys, s': Sys, i: nat, u: Id, y: string, a: Id, b: Id)
    requires Inv(s) && DistinctKeys(s.db.trades, TradeKey) && Saves(s, s', i) && Loading(s.procs[i], u, y)
    requires a != b && LoadShort(s, s.procs[i], u, y, a, b)
    ensures LeavesOne(s', u, y, Found(s.procs[i].exec.found) + s.procs[i].exec.order.quantity, a, b)
  {
    var p := s.procs[i];
    var q := Found(p.exec.found);
    var orders :| Applied(s, u, y, orders) && q == SumIn(s.db.trades, TradeKey, QuantityIn(u, y), orders)
      && !(a in orders && b in orders) && (p.orderId in {a, b} ==> a !in orders && b !in orders);
    AppliedAdds(s, s', i, QuantityIn(u, y), orders);
    var t := TradeFor(p.orderId, p.exec.order, p.exec.price, p.exec.at);
    assert QuantityIn(u, y)(t) == p.exec.order.quantity;
    var more := orders + {p.orderId};
    assert Applied(s', u, y, more) && !(a in more && b in more);
  }

  lemma {:induction false} SaveSaves(s: Sys, i: nat, env: Env, u: Id, y: string)
    requires Inv(s) && i < |s.procs| && EnvOk(s.db, s.procs[i], env)
    requires s.procs[i].Execution? && s.procs[i].exec.PositionRead?
    ensures var s' := Step(s, Advance(i, env)); var p := s.procs[i];
      || (s'.db == s.db && !Loading(s'.procs[i], u, y))
      || (Saves(s, s', i)
          && PositionFigure(s'.db.positions, u, y, Shares)
             == if Loading(p, u, y) then Found(p.exec.found) + p.exec.order.quantity
                else PositionFigure(s.db.positions, u, y, Shares))
  {
    var p := s.procs[i];
    assert ProcOk(s.db, p) && OrderOk(s.db, p.orderId);
    SavedPosition(s.db, p.orderId, p.exec, env);
    assert Step(s, Advance(i, env)).procs == s.procs[i := Step(s, Advance(i, env)).procs[i]];
  }

  // What the position holds after a step.
  lemma {:induction false} PositionStaysShort(s: Sys, act: Action, u: Id, y: string, a: Id, b: Id)
    requires Inv(s) && DistinctKeys(s.db.trades, TradeKey) && Short(s, u, y, a, b)
    ensures LeavesOne(Step(s, act), u, y, PositionFigure(Step(s, act).db.positions, u, y, Shares), a, b)
  {
    StepGrowsApplied(s, act);
    LeavesKept(s, Step(s, act), u, y, PositionFigure(s.db.positions, u, y, Shares), a, b);
    if Step(s, act).db.positions != s.db.positions {
      SaveSaves(s, act.i, act.env, u, y);
      if Loading(s.procs[act.i], u, y) {
        assert LoadShort(s, s.procs[act.i], u, y, a, b);
        SavedShort(s, Step(s, act), act.i, u, y, a, b);
      }
    }
  }

  // What a process has loaded after a step.
  lemma {:induction false} LoadStaysShort(s: Sys, act: Action, k: nat, u: Id, y: string, a: Id, b: Id)
    requires Short(s, u, y, a, b) && k < |Step(s, act).procs|
    ensures LoadShort(Step(s, act), Step(s, act).procs[k], u, y, a, b)
  {
    var s' := Step(s, act);
    var p := s'.procs[k];
    StepGrowsApplied(s, act);
    if Loading(p, u, y) {
      LeavesKept(s, s', u, y, Found(p.exec.found), a, b);
      if k < |s.procs| && s.procs[k] == p {
        assert LoadShort(s, s.procs[k], u, y, a, b);
      } else {
        NewlyLoading(s, act, k, u, y);
      }
    }
  }

  lemma {:induction false} StaysShort(s0: Sys, acts: seq<Action>, more: seq<Action>, u: Id, y: string, a: Id, b: Id)
    requires Init(s0) && Short(Run(s0, acts), u, y, a, b)
    ensures Short(Run(s0, acts + more), u, y, a, b)
  {
    if more == [] {
      assert acts + more == acts;
    } else {
      var init, act := more[..|more| - 1], more[|more| - 1];
      StaysShort(s0, acts, init, u, y, a, b);
      assert acts + more == (acts + init) + [act];
      RunSplit(s0, acts + init, act);
      RunKeepsInv(s0, acts + init);
      TradesDistinct(s0, acts + init);
      var s := Run(s0, acts + init);
      LoadedKept(s, act, a, u, y);
      LoadedKept(s, act, b, u, y);
      PositionStaysShort(s, act, u, y, a, b);
      forall k | 0 <= k < |Step(s, act).procs| ensures LoadShort(Step(s, act), Step(s, act).procs[k], u, y, a, b) {
        LoadStaysShort(s, act, k, u, y, a, b);
      }
    }
  }

  // --- What it costs ---

  lemma {:induction false} QuantitiesPositive(s0: Sys, acts: seq<Action>, t: Trade, u: Id, y: string)
    requires Init(s0) && t in Run(s0, acts).db.trades
    ensures t.quantity >= 1.0 && QuantityIn(u, y)(t) >= 0.0
  {
    TradesRespectTargets(s0, acts, t);
    RunKeepsInv(s0, acts);
    assert OrderOk(Run(s0, acts).db, t.buyOrderId);
  }

  // A sum that leaves out a trade is short by it.
  lemma {:induction false} LeftOutCosts(s0: Sys, acts: seq<Action>, u: Id, y: string, orders: set<Id>, o: Id)
    requires Init(s0) && HasTrade(Run(s0, acts).db.trades, o, u, y) && o !in orders
    ensures var trades := Run(s0, acts).db.trades;
      SumIn(trades, TradeKey, QuantityIn(u, y), orders) < SumBy(trades, QuantityIn(u, y))
  {
    var trades := Run(s0, acts).db.trades;
    TradesDistinct(s0, acts);
    var t := TradesOf(trades, o)[0];
    TradesOfMember(trades, t, o);
    var k :| 0 <= k < |trades| && trades[k] == t;
    forall x | x in trades ensures x.quantity >= 1.0 && QuantityIn(u, y)(x) >= 0.0 {
      QuantitiesPositive(s0, acts, x, u, y);
    }
    SumInAddKey(trades, TradeKey, QuantityIn(u, y), orders, k);
    SumInBounded(trades, TradeKey, QuantityIn(u, y), orders + {o});
  }

  // Once two executions of one user and symbol are between load and save at the same time, the position is
  // short of its trades for ever.
  lemma {:induction false} OverlapLosesForEver(s0: Sys, acts: seq<Action>, more: seq<Action>, i: nat, j: nat, u: Id,
      y: string)
    requires Init(s0) && i < |Run(s0, acts).procs| && j < |Run(s0, acts).procs| && i != j
    requires Loading(Run(s0, acts).procs[i], u, y) && Loading(Run(s0, acts).procs[j], u, y)
    ensures var db := Run(s0, acts + more).db;
      PositionFigure(db.positions, u, y, Shares) < SumBy(db.trades, TradesIn(u, y, Shares))
  {
    RunKeepsInv(s0, acts);
    RunKeepsPositions(s0, acts);
    OverlapIsShort(Run(s0, acts), i, j, u, y);
    var a, b := Run(s0, acts).procs[i].orderId, Run(s0, acts).procs[j].orderId;
    StaysShort(s0, acts, more, u, y, a, b);
    var s := Run(s0, acts + more);
    var q := PositionFigure(s.db.positions, u, y, Shares);
    var orders :| Applied(s, u, y, orders) && q == SumIn(s.db.trades, TradeKey, QuantityIn(u, y), orders)
      && !(a in orders && b in orders);
    LeftOutCosts(s0, acts + more, u, y, orders, if a in orders then b else a);
  }

  // When every call has come to its end, a position holds what its trades add up to exactly when no two
  // executions of that user and symbol were ever between load and save at the same time.
  lemma {:induction false} PositionExactIff(s0: Sys, acts: seq<Action>, u: Id, y: string)
    requires Init(s0) && Quiescent(Run(s0, acts))
    ensures var db := Run(s0, acts).db;
      PositionFigure(db.positions, u, y, Shares) == SumBy(db.trades, TradesIn(u, y, Shares))
      <==> LoadsNeverOverlap(s0, acts, u, y)
  {
    if LoadsNeverOverlap(s0, acts, u, y) {
      PositionsExactWithoutOverlap(s0, acts, u, y);
    } else {
      var k :| 0 <= k <= |acts| && !LoadsApart(Run(s0, acts[..k]), u, y);
      var s := Run(s0, acts[..k]);
      var i, j :| 0 <= i < |s.procs| && 0 <= j < |s.procs| && Loading(s.procs[i], u, y) && Loading(s.procs[j], u, y)
        && i != j;
      assert acts == acts[..k] + acts[k..];
      OverlapLosesForEver(s0, acts[..k], acts[k..], i, j, u, y);
    }
  }
}
