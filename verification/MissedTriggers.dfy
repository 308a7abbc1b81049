/**
 Missed triggers, over every schedule: when every call has come to its end, a PENDING order meets the
 current price exactly when the price met its target already at the moment it was last made PENDING and
 was not written since.  Whatever made it PENDING then, a creation or an execution sending it back, had
 read a price above its target.
 */
module MissedTriggers {
  import opened Wrappers
  import opened AnalyticsEvents
  import opened Domain
  import opened Protocol
  import StockPrices
  import opened Ownership
  import opened OrderSafety
  import opened Livelock
  import opened Books

  // The process goes on to evaluate the symbol after it has listed, or will list, this order.
  predicate WillSee(p: Proc, o: Id, order: Order) {
    match p
    case PriceUpdate(y, _, pc) => y == order.symbol && (pc.Upserted? || pc.PriceAnnounced? || pc.DecreaseAnnounced?)
    case Evaluation(y, pc) => y == order.symbol && EvalSees(pc, o, order)
    case Creation(_, y, target, _, _, pc) => y == order.symbol && pc.Inserted? && pc.o == o && pc.currentPrice <= target
    case _ => false
  }

  predicate EvalSees(pc: EvalPc, o: Id, order: Order) {
    match pc
    case EvalQueued => true
    case EvalPriced(price) => price <= order.targetPrice
    case Scanning(todo) => o in todo
    case Announcing(_, todo) => todo != [] && o in todo[1..]
    case Enqueuing(todo) => todo != [] && o in todo[1..]
    case EvalEnded => false
  }

  predicate AtTarget(db: Db, o: Id) {
    && HasStatus(db, o, Pending) && db.orders[o].symbol in db.stocks
    && db.stocks[db.orders[o].symbol].currentPrice <= db.orders[o].targetPrice
  }

  ghost predicate Coming(s: Sys, o: Id, order: Order) {
    exists i :: 0 <= i < |s.procs| && WillSee(s.procs[i], o, order)
  }

  // --- How an order was left behind ---

  // Step k made the order PENDING, and it has been since.
  ghost predicate PendingSince(s0: Sys, acts: seq<Action>, k: nat, o: Id) {
    && k < |acts| && !HasStatus(At(s0, acts, k).db, o, Pending)
    && forall m: nat | k < m <= |acts| :: HasStatus(At(s0, acts, m).db, o, Pending)
  }

  // The step writes the price of the symbol, the same one or another.
  ghost predicate WritesPrice(s: Sys, a: Action, y: string) {
    && a.Advance? && a.i < |s.procs| && EnvOk(s.db, s.procs[a.i], a.env)
    && s.procs[a.i].PriceUpdate? && s.procs[a.i].symbol == y && s.procs[a.i].upd.PriceRecorded?
  }

  ghost predicate UnpricedSince(s0: Sys, acts: seq<Action>, k: nat, y: string) {
    forall m: nat | k <= m < |acts| :: !WritesPrice(At(s0, acts, m), acts[m], y)
  }

  // The price met the target already when step k made the order PENDING, and was not written since.
  ghost predicate LeftBy(s0: Sys, acts: seq<Action>, k: nat, o: Id) {
    && PendingSince(s0, acts, k, o) && AtTarget(At(s0, acts, k + 1).db, o)
    && UnpricedSince(s0, acts, k + 1, At(s0, acts, k + 1).db.orders[o].symbol)
  }

  // A request that has read a price above its target, or an execution that has and sends its order back.
  predicate ReadTooHigh(p: Proc, o: Id) {
    || (p.Creation? && p.create.UserRead? && p.create.currentPrice > p.targetPrice)
    || (p.Execution? && p.exec.Reverting? && p.orderId == o)
  }

  ghost predicate StaleStep(s: Sys, a: Action, o: Id) {
    a.Advance? && a.i < |s.procs| && ReadTooHigh(s.procs[a.i], o)
  }

  // It was left so by a call that had read too high a price.
  ghost predicate LeftStaleBy(s0: Sys, acts: seq<Action>, k: nat, o: Id) {
    LeftBy(s0, acts, k, o) && StaleStep(At(s0, acts, k), acts[k], o)
  }

  ghost predicate LeftStale(s0: Sys, acts: seq<Action>, o: Id) {
    exists k: nat :: LeftStaleBy(s0, acts, k, o)
  }

  ghost predicate NothingMissed(s0: Sys, acts: seq<Action>) {
    var s := Run(s0, acts);
    forall o | AtTarget(s.db, o) :: Coming(s, o, s.db.orders[o]) || LeftStale(s0, acts, o)
  }

  // --- One step of the process that will see the order ---

  lemma {:induction false} EvalStepSees(db: Db, y: string, pc: EvalPc, env: Env, o: Id)
    requires AtTarget(db, o) && db.orders[o].symbol == y && EvalSees(pc, o, db.orders[o])
    requires EnvOk(db, Evaluation(y, pc), env)
    ensures var (db', pc', more) := EvalStep(db, y, pc, env);
      EvalSees(pc', o, db.orders[o]) || !HasStatus(db', o, Pending)
  {
    if pc.EvalPriced? {
      assert o in EligibleIds(db.orders, y, pc.price);
    }
  }

  lemma {:induction false} StepSees(db: Db, p: Proc, env: Env, o: Id)
    requires AtTarget(db, o) && WillSee(p, o, db.orders[o]) && EnvOk(db, p, env)
    ensures var (db', p', more) := ProcStep(db, p, env);
      || WillSee(p', o, db.orders[o]) || !HasStatus(db', o, Pending)
      || (|more| == 1 && WillSee(more[0], o, db.orders[o]))
  {
    if p.Evaluation? {
      EvalStepSees(db, p.symbol, p.eval, env, o);
    }
  }

  // --- Steps that bring an order to its target ---

  lemma {:induction false} ExecStepPending(db: Db, x: Id, pc: ExecPc, env: Env, o: Id)
    requires o in db.orders && HasStatus(ExecStep(db, x, pc, env).0, o, Pending)
    ensures ExecStep(db, x, pc, env).0.orders[o] == db.orders[o] || (x == o && pc.Reverting?)
  {
  }

  lemma {:induction false} OtherStepPending(db: Db, p: Proc, env: Env, o: Id)
    requires o in db.orders && !p.Execution? && !p.Creation? && HasStatus(ProcStep(db, p, env).0, o, Pending)
    ensures ProcStep(db, p, env).0.orders[o] == db.orders[o]
  {
  }

  // Of the orders that exist, only one that an execution sends back becomes PENDING.
  lemma {:induction false} StepPending(s: Sys, i: nat, env: Env, o: Id)
    requires Inv(s) && i < |s.procs| && EnvOk(s.db, s.procs[i], env)
    requires o in s.db.orders && HasStatus(Step(s, Advance(i, env)).db, o, Pending)
    ensures if HasStatus(s.db, o, Pending) then Step(s, Advance(i, env)).db.orders[o] == s.db.orders[o]
            else ReadTooHigh(s.procs[i], o)
  {
    var p := s.procs[i];
    if p.Execution? {
      ExecStepPending(s.db, p.orderId, p.exec, env, o);
      assert ProcOk(s.db, p);
    } else if p.Creation? {
      CreateStepFacts(s.db, p, env);
    } else {
      OtherStepPending(s.db, p, env, o);
    }
  }

  // A price changes only by an update that goes on to evaluate the symbol.
  lemma {:induction false} StepPrices(db: Db, p: Proc, env: Env, y: string)
    requires y in db.stocks
    ensures var (db', p', more) := ProcStep(db, p, env);
      && y in db'.stocks
      && (db'.stocks[y].currentPrice == db.stocks[y].currentPrice
          || (p.PriceUpdate? && p.symbol == y && p.upd.PriceRecorded?))
  {
    if !p.PriceUpdate? {
      StockPrices.OtherStepStocks(db, p, env);
    }
  }

  // An order at its target before: whoever was to see it still is, or somebody it has started.
  lemma {:induction false} ComingKept(s: Sys, i: nat, env: Env, o: Id)
    requires i < |s.procs| && EnvOk(s.db, s.procs[i], env) && AtTarget(s.db, o) && Coming(s, o, s.db.orders[o])
    requires HasStatus(Step(s, Advance(i, env)).db, o, Pending)
    ensures Coming(Step(s, Advance(i, env)), o, s.db.orders[o])
  {
    var s' := Step(s, Advance(i, env));
    var (db', p', more) := ProcStep(s.db, s.procs[i], env);
    var j :| 0 <= j < |s.procs| && WillSee(s.procs[j], o, s.db.orders[o]);
    if j != i {
      assert WillSee(s'.procs[j], o, s.db.orders[o]);
    } else {
      StepSees(s.db, s.procs[i], env, o);
      if WillSee(p', o, s.db.orders[o]) {
        assert WillSee(s'.procs[i], o, s.db.orders[o]);
      } else {
        assert s'.procs[|s.procs|] == more[0];
      }
    }
  }

  // A price update that has written the price goes on to evaluate the symbol.
  lemma {:induction false} WriterComes(s: Sys, a: Action, o: Id, order: Order)
    requires WritesPrice(s, a, order.symbol)
    ensures Coming(Step(s, a), o, order)
  {
    assert WillSee(Step(s, a).procs[a.i], o, order);
  }

  lemma {:induction false} OldOrderNotMissed(s: Sys, i: nat, env: Env, o: Id)
    requires Inv(s) && i < |s.procs| && EnvOk(s.db, s.procs[i], env)
    requires HasStatus(s.db, o, Pending) && AtTarget(Step(s, Advance(i, env)).db, o)
    ensures var s' := Step(s, Advance(i, env)); s'.db.orders[o] == s.db.orders[o]
    ensures var s' := Step(s, Advance(i, env)); var y := s.db.orders[o].symbol;
      || Coming(s', o, s'.db.orders[o])
      || (AtTarget(s.db, o) && !Coming(s, o, s.db.orders[o]) && !WritesPrice(s, Advance(i, env), y))
  {
    var y := s.db.orders[o].symbol;
    StepPending(s, i, env, o);
    assert OrderOk(s.db, o);
    if WritesPrice(s, Advance(i, env), y) {
      WriterComes(s, Advance(i, env), o, s.db.orders[o]);
    } else {
      StepPrices(s.db, s.procs[i], env, y);
      if Coming(s, o, s.db.orders[o]) {
        ComingKept(s, i, env, o);
      }
    }
  }

  // An order made PENDING by this step: by a call that read too high a price, or by a creation that goes
  // on to queue an evaluation.
  lemma {:induction false} NewlyPending(s: Sys, i: nat, env: Env, o: Id)
    requires Inv(s) && i < |s.procs| && EnvOk(s.db, s.procs[i], env)
    requires !HasStatus(s.db, o, Pending) && HasStatus(Step(s, Advance(i, env)).db, o, Pending)
    ensures var s' := Step(s, Advance(i, env));
      StaleStep(s, Advance(i, env), o) || Coming(s', o, s'.db.orders[o])
  {
    var s' := Step(s, Advance(i, env));
    if o in s.db.orders {
      StepPending(s, i, env, o);
    } else {
      InsertedByCreation(s.db, s.procs[i], env, o);
      if !ReadTooHigh(s.procs[i], o) {
        assert WillSee(s'.procs[i], o, s'.db.orders[o]);
      }
    }
  }

  // --- Runs ---

  lemma {:induction false} PendingSinceAppend(s0: Sys, acts: seq<Action>, a: Action, k: nat, o: Id)
    requires k < |acts|
    ensures PendingSince(s0, acts + [a], k, o)
       <==> (PendingSince(s0, acts, k, o) && HasStatus(Run(s0, acts + [a]).db, o, Pending))
  {
    AtAppend(s0, acts, a);
  }

  lemma {:induction false} UnpricedSinceAppend(s0: Sys, acts: seq<Action>, a: Action, k: nat, y: string)
    requires k <= |acts|
    ensures UnpricedSince(s0, acts + [a], k, y)
       <==> (UnpricedSince(s0, acts, k, y) && !WritesPrice(Run(s0, acts), a, y))
  {
    AtAppend(s0, acts, a);
    assert forall m: nat | m < |acts| :: (acts + [a])[m] == acts[m];
  }

  lemma {:induction false} LeftByAppend(s0: Sys, acts: seq<Action>, a: Action, k: nat, o: Id)
    requires k < |acts|
    ensures LeftBy(s0, acts + [a], k, o)
       <==> (LeftBy(s0, acts, k, o) && HasStatus(Run(s0, acts + [a]).db, o, Pending)
             && !WritesPrice(Run(s0, acts), a, At(s0, acts, k + 1).db.orders[o].symbol))
  {
    assert (acts + [a])[..k + 1] == acts[..k + 1];
    PendingSinceAppend(s0, acts, a, k, o);
    if AtTarget(At(s0, acts, k + 1).db, o) {
      UnpricedSinceAppend(s0, acts, a, k + 1, At(s0, acts, k + 1).db.orders[o].symbol);
    }
  }

  lemma {:induction false} LeftByNow(s0: Sys, acts: seq<Action>, a: Action, o: Id)
    requires !HasStatus(Run(s0, acts).db, o, Pending) && AtTarget(Run(s0, acts + [a]).db, o)
    requires StaleStep(Run(s0, acts), a, o)
    ensures LeftStale(s0, acts + [a], o)
  {
    var k, more := |acts|, acts + [a];
    assert more[..k] == acts && more[..k + 1] == more;
    assert PendingSince(s0, more, k, o) by {
      forall m: nat | k < m <= |more| ensures HasStatus(At(s0, more, m).db, o, Pending) {
        assert m == k + 1;
      }
    }
    assert LeftStaleBy(s0, more, k, o);
  }

  lemma {:induction false} LeftByKept(s0: Sys, acts: seq<Action>, a: Action, k: nat, o: Id)
    requires LeftStaleBy(s0, acts, k, o) && HasStatus(Run(s0, acts + [a]).db, o, Pending)
    requires !WritesPrice(Run(s0, acts), a, At(s0, acts, k + 1).db.orders[o].symbol)
    ensures LeftStale(s0, acts + [a], o)
  {
    LeftByAppend(s0, acts, a, k, o);
    assert (acts + [a])[..k] == acts[..k] && (acts + [a])[k] == acts[k];
    assert LeftStaleBy(s0, acts + [a], k, o);
  }

  lemma {:induction false} AdvanceMissesNothing(s0: Sys, acts: seq<Action>, i: nat, env: Env)
    requires Init(s0) && NothingMissed(s0, acts)
    requires i < |Run(s0, acts).procs| && EnvOk(Run(s0, acts).db, Run(s0, acts).procs[i], env)
    ensures NothingMissed(s0, acts + [Advance(i, env)])
  {
    var a := Advance(i, env);
    var s := Run(s0, acts);
    RunSplit(s0, acts, a);
    RunKeepsInv(s0, acts);
    forall o | AtTarget(Step(s, a).db, o) && !Coming(Step(s, a), o, Step(s, a).db.orders[o])
      ensures LeftStale(s0, acts + [a], o)
    {
      if HasStatus(s.db, o, Pending) {
        OldOrderNotMissed(s, i, env, o);
        var k: nat :| LeftStaleBy(s0, acts, k, o);
        OrderKept(s0, acts, k + 1, o);
        LeftByKept(s0, acts, a, k, o);
      } else {
        NewlyPending(s, i, env, o);
        LeftByNow(s0, acts, a, o);
      }
    }
  }

  // An action that moves no process misses nothing.
  lemma {:induction false} SpawnMissesNothing(s0: Sys, acts: seq<Action>, a: Action)
    requires Init(s0) && NothingMissed(s0, acts) && Run(s0, acts + [a]).db == Run(s0, acts).db
    requires Run(s0, acts).procs <= Run(s0, acts + [a]).procs
    requires a.Advance? && a.i < |Run(s0, acts).procs| ==> !EnvOk(Run(s0, acts).db, Run(s0, acts).procs[a.i], a.env)
    ensures NothingMissed(s0, acts + [a])
  {
    var s, s' := Run(s0, acts), Run(s0, acts + [a]);
    forall o | AtTarget(s'.db, o) ensures Coming(s', o, s'.db.orders[o]) || LeftStale(s0, acts + [a], o) {
      if j :| 0 <= j < |s.procs| && WillSee(s.procs[j], o, s.db.orders[o]) {
        assert WillSee(s'.procs[j], o, s'.db.orders[o]);
      } else {
        var k: nat :| LeftStaleBy(s0, acts, k, o);
        OrderKept(s0, acts, k + 1, o);
        LeftByKept(s0, acts, a, k, o);
      }
    }
  }

  lemma {:induction false} RunMissesNothing(s0: Sys, acts: seq<Action>)
    requires Init(s0)
    ensures NothingMissed(s0, acts)
  {
    if acts != [] {
      var init, a := acts[..|acts| - 1], acts[|acts| - 1];
      assert acts == init + [a];
      RunMissesNothing(s0, init);
      var s := Run(s0, init);
      if a.Advance? && a.i < |s.procs| && EnvOk(s.db, s.procs[a.i], a.env) {
        AdvanceMissesNothing(s0, init, a.i, a.env);
      } else {
        RunSplit(s0, init, a);
        SpawnMissesNothing(s0, init, a);
      }
    }
  }

  lemma {:induction false} NothingComes(s: Sys, o: Id, order: Order)
    requires Quiescent(s)
    ensures !Coming(s, o, order)
  {
    forall i | 0 <= i < |s.procs| ensures !WillSee(s.procs[i], o, order) {
      assert Finished(s.procs[i]);
    }
  }

  // When every call has come to its end, an order the price would trigger was made PENDING, when the
  // price had already met its target, by a call that had read a price above it; no price update of its
  // symbol came after.
  lemma {:induction false} MissedTriggersWereStale(s0: Sys, acts: seq<Action>, o: Id)
    requires Init(s0) && Quiescent(Run(s0, acts)) && AtTarget(Run(s0, acts).db, o)
    ensures LeftStale(s0, acts, o)
  {
    var s := Run(s0, acts);
    RunMissesNothing(s0, acts);
    NothingComes(s, o, s.db.orders[o]);
  }

  lemma {:induction false} StepStaysAtTarget(s: Sys, a: Action, o: Id)
    requires Inv(s) && AtTarget(s.db, o) && HasStatus(Step(s, a).db, o, Pending)
    requires !WritesPrice(s, a, s.db.orders[o].symbol)
    ensures AtTarget(Step(s, a).db, o) && Step(s, a).db.orders[o] == s.db.orders[o]
  {
    if a.Advance? && a.i < |s.procs| && EnvOk(s.db, s.procs[a.i], a.env) {
      StepPending(s, a.i, a.env, o);
      StepPrices(s.db, s.procs[a.i], a.env, s.db.orders[o].symbol);
    }
  }

  lemma {:induction false} NextStaysAtTarget(s0: Sys, acts: seq<Action>, m: nat, o: Id)
    requires Init(s0) && m < |acts| && AtTarget(At(s0, acts, m).db, o)
    requires HasStatus(At(s0, acts, m + 1).db, o, Pending)
    requires !WritesPrice(At(s0, acts, m), acts[m], At(s0, acts, m).db.orders[o].symbol)
    ensures AtTarget(At(s0, acts, m + 1).db, o)
    ensures At(s0, acts, m + 1).db.orders[o] == At(s0, acts, m).db.orders[o]
  {
    NextState(s0, acts, m);
    RunKeepsInv(s0, acts[..m]);
    StepStaysAtTarget(At(s0, acts, m), acts[m], o);
  }

  lemma {:induction false} LeftStaysAtTarget(s0: Sys, acts: seq<Action>, k: nat, o: Id, m: nat)
    requires Init(s0) && LeftBy(s0, acts, k, o) && k < m <= |acts|
    ensures AtTarget(At(s0, acts, m).db, o)
    ensures At(s0, acts, m).db.orders[o].symbol == At(s0, acts, k + 1).db.orders[o].symbol
    decreases m
  {
    if k + 1 < m {
      LeftStaysAtTarget(s0, acts, k, o, m - 1);
      NextStaysAtTarget(s0, acts, m - 1, o);
    }
  }

  // When every call has come to its end, an order is PENDING at a price that meets its target exactly
  // when the price met it already as the order was last made PENDING, and was not written since.
  lemma {:induction false} MissedIff(s0: Sys, acts: seq<Action>, o: Id)
    requires Init(s0) && Quiescent(Run(s0, acts))
    ensures AtTarget(Run(s0, acts).db, o) <==> exists k: nat :: LeftBy(s0, acts, k, o)
  {
    assert acts[..|acts|] == acts;
    forall k: nat | LeftBy(s0, acts, k, o) ensures AtTarget(Run(s0, acts).db, o) {
      LeftStaysAtTarget(s0, acts, k, o, |acts|);
    }
    if AtTarget(Run(s0, acts).db, o) {
      MissedTriggersWereStale(s0, acts, o);
      var k: nat :| LeftStaleBy(s0, acts, k, o);
    }
  }

  // Sending an order back queues nothing, and leaves it at a price that meets its target exactly when
  // the price has come back down since the execution read it.
  lemma {:induction false} RevertMissesIff(s0: Sys, acts: seq<Action>, i: nat, env: Env)
    requires Init(s0) && i < |Run(s0, acts).procs|
    requires var s := Run(s0, acts);
      s.procs[i].Execution? && s.procs[i].exec.Reverting? && EnvOk(s.db, s.procs[i], env)
    ensures var s := Run(s0, acts); var s' := Step(s, Advance(i, env)); var o := s.procs[i].orderId;
      && HasStatus(s'.db, o, Pending) && |s'.procs| == |s.procs| && Finished(s'.procs[i])
      && s'.db.orders[o].symbol in s.db.stocks
      && (AtTarget(s'.db, o)
          <==> s.db.stocks[s'.db.orders[o].symbol].currentPrice <= s'.db.orders[o].targetPrice)
  {
    RunKeepsInv(s0, acts);
    var s := Run(s0, acts);
    assert ProcOk(s.db, s.procs[i]) && OrderOk(s.db, s.procs[i].orderId);
  }
}
