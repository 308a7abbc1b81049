/**
 Orders can return from EXECUTING to PENDING and be triggered again, yet nothing runs for ever:
 returning an order puts no job on any queue.  m requests and deliveries cause at most m(11 + 17m)
 steps in every interleaving, and an order is triggered at most once per evaluation of its symbol.
 */
module Livelock {
  import opened Wrappers
  import opened AnalyticsEvents
  import opened Domain
  import opened Protocol
  import opened Ownership
  import opened OrderSafety
  import opened Sums

  // --- A bound on the work a process can still cause, when at most n orders will ever exist ---

  function ExecWork(pc: ExecPc): nat {
    match pc
    case Queued => 13
    case Claimed(_) => 12
    case FoundTrade(_) => 1
    case Unexecuted(_) => 11
    case Reverting(_) => 1
    case Priced(_, _) => 10
    case Rejected(_, _) => 2
    case FailMarked(_, _) => 1
    case Debited(_, _, _) => 9
    case Ledgered(_, _, _, _) => 8
    case Charged(_, _) => 7
    case Traded(_, _, _) => 6
    case PositionRead(_, _, _, _) => 5
    case Positioned(_, _, _) => 4
    case CompleteMarked(_, _, _) => 3
    case _ => 0
  }

  function EvalWork(pc: EvalPc, n: nat): nat {
    match pc
    case EvalQueued => 5 + 17 * n
    case EvalPriced(_) => 4 + 17 * n
    case Scanning(todo) => 3 + 17 * |todo|
    case Announcing(_, todo) => 2 + 17 * |todo|
    case Enqueuing(todo) => 1 + 17 * |todo|
    case EvalEnded => 0
  }

  function PriceWork(pc: PricePc, n: nat): nat {
    match pc
    case PriceQueued => 11 + 17 * n
    case PriceRead(_) => 10 + 17 * n
    case PriceRecorded(_, _, _) => 9 + 17 * n
    case Upserted(_, _, _, _) => 8 + 17 * n
    case PriceAnnounced(_, _) => 7 + 17 * n
    case DecreaseAnnounced => 6 + 17 * n
    case PriceEnded => 0
  }

  function CreateWork(pc: CreatePc, n: nat): nat {
    match pc
    case CreateStarted => 11 + 17 * n
    case KeyChecked => 10 + 17 * n
    case StockRead(_) => 9 + 17 * n
    case UserRead(_) => 8 + 17 * n
    case Inserted(_, _) => 7 + 17 * n
    case CreateAnnouncing(_) => 1
    case _ => 0
  }

  function Work(p: Proc, n: nat): nat {
    match p
    case Execution(_, pc) => ExecWork(pc)
    case Evaluation(_, pc) => EvalWork(pc, n)
    case PriceUpdate(_, _, pc) => PriceWork(pc, n)
    case Creation(_, _, _, _, _, pc) => CreateWork(pc, n)
    case Cancellation(_, _, pc) => (match pc case CancelStarted => 2 case CancelMarked(_) => 1 case _ => 0)
    case Depositing(_, _, pc) =>
      (match pc case DepositStarted => 4 case BalanceRead(_) => 3 case WalletCredited(_, _) => 2
       case DepositLedgered(_) => 1 case _ => 0)
  }

  predicate Finished(p: Proc) { Work(p, 0) == 0 }

  function TotalWork(procs: seq<Proc>, n: nat): nat {
    if procs == [] then 0 else TotalWork(procs[..|procs| - 1], n) + Work(procs[|procs| - 1], n)
  }

  lemma {:induction false} TotalWorkConcat(ps: seq<Proc>, qs: seq<Proc>, n: nat)
    ensures TotalWork(ps + qs, n) == TotalWork(ps, n) + TotalWork(qs, n)
  {
    if qs == [] {
      assert ps + qs == ps;
    } else {
      assert (ps + qs)[..|ps + qs| - 1] == ps + qs[..|qs| - 1];
      TotalWorkConcat(ps, qs[..|qs| - 1], n);
    }
  }

  lemma {:induction false} TotalWorkUpdate(ps: seq<Proc>, i: nat, p: Proc, n: nat)
    requires i < |ps|
    ensures TotalWork(ps[i := p], n) + Work(ps[i], n) == TotalWork(ps, n) + Work(p, n)
  {
    var last := |ps| - 1;
    if i == last {
      assert ps[i := p][..last] == ps[..last];
    } else {
      assert ps[i := p][..last] == ps[..last][i := p];
      TotalWorkUpdate(ps[..last], i, p, n);
    }
  }

  // --- How many orders there can be ---

  // A create request that has not inserted its order yet.
  predicate MayInsert(p: Proc) {
    p.Creation? && (p.create.CreateStarted? || p.create.KeyChecked? || p.create.StockRead? || p.create.UserRead?)
  }

  function Insert(p: Proc): real { if MayInsert(p) then 1.0 else 0.0 }

  function OrderBound(s: Sys): real {
    |s.db.orders| as real + SumBy(s.procs, Insert)
  }

  lemma {:induction false} ListingSize(listing: seq<Id>, ids: set<Id>)
    requires Lists(listing, ids)
    ensures |listing| == |ids|
    decreases |listing|
  {
    if listing == [] {
      assert forall o :: o !in ids;
    } else {
      var last := listing[|listing| - 1];
      var rest := listing[..|listing| - 1];
      forall o ensures o in rest <==> o in ids - {last} {
        assert o in listing <==> o in rest || o == last;
      }
      ListingSize(rest, ids - {last});
    }
  }

  lemma {:induction false} EligibleSize(orders: map<Id, Order>, symbol: string, price: real)
    ensures |EligibleIds(orders, symbol, price)| <= |orders|
  {
    var ids := EligibleIds(orders, symbol, price);
    assert ids <= orders.Keys;
    SubsetSize(ids, orders.Keys);
    assert |orders.Keys| == |orders|;
  }

  lemma {:induction false} SubsetSize(a: set<Id>, b: set<Id>)
    requires a <= b
    ensures |a| <= |b|
  {
    if a != {} {
      var x :| x in a;
      SubsetSize(a - {x}, b - {x});
    }
  }

  lemma {:induction false} CreateStepBound(db: Db, p: Proc, env: Env)
    requires p.Creation? && IdUnused(db, env.freshId)
    ensures var (db', pc', more) := CreateStep(db, p, env); var p' := p.(create := pc');
      && (forall q | q in more :: Insert(q) == 0.0)
      && (if pc'.Inserted? && MayInsert(p)
          then db'.orders.Keys == db.orders.Keys + {env.freshId} && env.freshId !in db.orders
          else db'.orders.Keys == db.orders.Keys)
      && Insert(p') <= Insert(p) && (db'.orders.Keys != db.orders.Keys ==> Insert(p) == 1.0 && Insert(p') == 0.0)
  {
  }

  lemma {:induction false} RestStepBound(db: Db, p: Proc, env: Env)
    requires !p.Execution? && !p.Creation?
    ensures var (db', p', more) := ProcStep(db, p, env);
      && (forall q | q in more :: Insert(q) == 0.0) && !p'.Creation? && db'.orders.Keys == db.orders.Keys
  {
  }

  lemma {:induction false} OtherStepBound(db: Db, p: Proc, env: Env)
    requires !p.Execution? && IdUnused(db, env.freshId)
    ensures var (db', p', more) := ProcStep(db, p, env);
      && (forall q | q in more :: Insert(q) == 0.0)
      && (if p'.Creation? && p'.create.Inserted? && MayInsert(p)
          then db'.orders.Keys == db.orders.Keys + {env.freshId} && env.freshId !in db.orders
          else db'.orders.Keys == db.orders.Keys)
      && Insert(p') <= Insert(p) && (db'.orders.Keys != db.orders.Keys ==> Insert(p) == 1.0 && Insert(p') == 0.0)
  {
    if p.Creation? {
      CreateStepBound(db, p, env);
    } else {
      RestStepBound(db, p, env);
    }
  }

  lemma {:induction false} KeysSize<K, V, W>(m: map<K, V>, m': map<K, W>)
    ensures m.Keys == m'.Keys ==> |m| == |m'|
    ensures forall k | k !in m && m'.Keys == m.Keys + {k} :: |m'| == |m| + 1
  {
    assert |m| == |m.Keys| && |m'| == |m'.Keys|;
  }

  lemma {:induction false} AdvanceBound(s: Sys, i: nat, env: Env)
    requires i < |s.procs| && EnvOk(s.db, s.procs[i], env)
    ensures OrderBound(Step(s, Advance(i, env))) <= OrderBound(s)
  {
    var p := s.procs[i];
    var (db', p', more) := ProcStep(s.db, p, env);
    if p.Execution? {
      ExecStepOrders(s.db, p.orderId, p.exec, env);
    } else {
      OtherStepBound(s.db, p, env);
    }
    KeysSize(s.db.orders, db'.orders);
    SumUpdate(s.procs, i, p', Insert);
    SumConcat(s.procs[i := p'], more, Insert);
    SumZero(more, Insert);
  }

  // --- Every effective step uses up work ---

  ghost predicate Effective(s: Sys, a: Action) {
    a.Advance? && a.i < |s.procs| && EnvOk(s.db, s.procs[a.i], a.env) && !Finished(s.procs[a.i])
  }

  lemma {:induction false} ExecStepUsesWork(db: Db, o: Id, pc: ExecPc, env: Env)
    ensures var (db', pc') := ExecStep(db, o, pc, env);
      if ExecWork(pc) == 0 then pc' == pc && db' == db else ExecWork(pc') < ExecWork(pc)
  {
  }

  lemma {:induction false} EvalStepUsesWork(db: Db, symbol: string, pc: EvalPc, env: Env, n: nat)
    requires EnvOk(db, Evaluation(symbol, pc), env) && |db.orders| <= n
    ensures var (db', pc', more) := EvalStep(db, symbol, pc, env);
      && (pc.EvalEnded? ==> pc' == pc && more == [] && db' == db)
      && (!pc.EvalEnded? ==> EvalWork(pc', n) + (if more == [] then 0 else 13) < EvalWork(pc, n))
      && (more == [] || (|more| == 1 && Work(more[0], n) == 13))
  {
    if pc.EvalPriced? {
      var ids := EligibleIds(db.orders, symbol, pc.price);
      ListingSize(env.arrange(ids), ids);
      EligibleSize(db.orders, symbol, pc.price);
    }
  }

  lemma {:induction false} ProcStepUsesWork(db: Db, p: Proc, env: Env, n: nat)
    requires EnvOk(db, p, env) && |db.orders| <= n
    ensures var (db', p', more) := ProcStep(db, p, env);
      && (Finished(p) ==> p' == p && more == [] && db' == db)
      && (!Finished(p) ==> Work(p', n) + (if more == [] then 0 else Work(more[0], n)) < Work(p, n))
      && |more| <= 1
  {
    if p.Execution? {
      ExecStepUsesWork(db, p.orderId, p.exec, env);
    } else if p.Evaluation? {
      EvalStepUsesWork(db, p.symbol, p.eval, env, n);
    }
  }

  lemma {:induction false} StepUsesWork(s: Sys, i: nat, env: Env, n: nat)
    requires i < |s.procs| && EnvOk(s.db, s.procs[i], env) && |s.db.orders| <= n
    ensures var s' := Step(s, Advance(i, env));
      if Finished(s.procs[i]) then s' == s else TotalWork(s'.procs, n) < TotalWork(s.procs, n)
  {
    var (db', p', more) := ProcStep(s.db, s.procs[i], env);
    ProcStepUsesWork(s.db, s.procs[i], env, n);
    if Finished(s.procs[i]) {
      assert s.procs[i := p'] + more == s.procs;
    } else {
      TotalWorkUpdate(s.procs, i, p', n);
      TotalWorkConcat(s.procs[i := p'], more, n);
      assert more != [] ==> more[..0] == [] && TotalWork(more, n) == Work(more[0], n);
    }
  }

  ghost function EffectiveSteps(s: Sys, acts: seq<Action>): nat {
    if acts == [] then 0
    else
      var init := acts[..|acts| - 1];
      EffectiveSteps(s, init) + if Effective(Run(s, init), acts[|acts| - 1]) then 1 else 0
  }

  function Arrivals(acts: seq<Action>): nat {
    if acts == [] then 0 else Arrivals(acts[..|acts| - 1]) + if acts[|acts| - 1].Spawn? then 1 else 0
  }

  lemma {:induction false} OrdersBounded(s0: Sys, acts: seq<Action>)
    requires Init(s0)
    ensures OrderBound(Run(s0, acts)) <= Arrivals(acts) as real
  {
    if acts != [] {
      var init, a := acts[..|acts| - 1], acts[|acts| - 1];
      OrdersBounded(s0, init);
      var s := Run(s0, init);
      match a {
        case Spawn(p) => SumAppend(s.procs, p, Insert);
        case Advance(i, env) =>
          if i < |s.procs| && EnvOk(s.db, s.procs[i], env) {
            AdvanceBound(s, i, env);
          }
      }
    }
  }

  lemma {:induction false} SpawnAddsWork(procs: seq<Proc>, p: Proc, n: nat)
    ensures TotalWork(procs + [p], n) == TotalWork(procs, n) + Work(p, n)
    ensures CanStart(p) && n >= 1 ==> Work(p, n) <= 11 + 17 * n
  {
    TotalWorkConcat(procs, [p], n);
    assert [p][..0] == [] && TotalWork([p], n) == Work(p, n);
  }

  lemma {:induction false} InsertsCount(procs: seq<Proc>)
    ensures SumBy(procs, Insert) >= 0.0
  {
    SumZero(procs, _ => 0.0);
    SumMonotone(procs, _ => 0.0, Insert);
  }

  lemma {:induction false} StepsBounded(s0: Sys, acts: seq<Action>, n: nat)
    requires Init(s0) && Arrivals(acts) <= n
    ensures EffectiveSteps(s0, acts) + TotalWork(Run(s0, acts).procs, n) <= Arrivals(acts) * (11 + 17 * n)
  {
    if acts != [] {
      var init, a := acts[..|acts| - 1], acts[|acts| - 1];
      StepsBounded(s0, init, n);
      var s := Run(s0, init);
      match a {
        case Spawn(p) =>
          SpawnAddsWork(s.procs, p, n);
          assert (Arrivals(init) + 1) * (11 + 17 * n) == Arrivals(init) * (11 + 17 * n) + (11 + 17 * n);
        case Advance(i, env) =>
          if i < |s.procs| && EnvOk(s.db, s.procs[i], env) {
            OrdersBounded(s0, init);
            InsertsCount(s.procs);
            StepUsesWork(s, i, env, n);
          }
      }
    }
  }

  // Finitely many requests and deliveries make every interleaving finite.
  lemma {:induction false} NoLivelock(s0: Sys, acts: seq<Action>)
    requires Init(s0)
    ensures EffectiveSteps(s0, acts) <= Arrivals(acts) * (11 + 17 * Arrivals(acts))
  {
    StepsBounded(s0, acts, Arrivals(acts));
  }

  // --- At most one trigger of an order per evaluation of its symbol ---

  // The step at which order o moves from PENDING to TRIGGERED.
  ghost predicate Triggers(s: Sys, a: Action, o: Id) {
    HasStatus(s.db, o, Pending) && HasStatus(Step(s, a).db, o, OrderStatus.Triggered)
  }

  ghost function TriggerCount(s0: Sys, acts: seq<Action>, o: Id): nat {
    if acts == [] then 0
    else
      var init := acts[..|acts| - 1];
      TriggerCount(s0, init, o) + if Triggers(Run(s0, init), acts[|acts| - 1], o) then 1 else 0
  }

  // An evaluation of symbol y that has listed its eligible orders.
  predicate HasListed(p: Proc, y: string) {
    p.Evaluation? && p.symbol == y && !p.eval.EvalQueued? && !p.eval.EvalPriced?
  }

  function ListedFlag(y: string): Proc -> real {
    (p: Proc) => if HasListed(p, y) then 1.0 else 0.0
  }

  // It may still trigger o.
  predicate MayTrigger(p: Proc, y: string, o: Id) {
    p.Evaluation? && p.symbol == y
    && match p.eval
       case Scanning(todo) => o in todo
       case Announcing(_, todo) => todo != [] && o in todo[1..]
       case Enqueuing(todo) => todo != [] && o in todo[1..]
       case _ => false
  }

  function TriggerFlag(y: string, o: Id): Proc -> real {
    (p: Proc) => if MayTrigger(p, y, o) then 1.0 else 0.0
  }

  function Todo(pc: EvalPc): seq<Id> {
    match pc
    case Scanning(todo) => todo
    case Announcing(_, todo) => todo
    case Enqueuing(todo) => todo
    case _ => []
  }

  // A worklist names each order once, and only orders of the evaluated symbol.
  ghost predicate WorklistOk(db: Db, p: Proc) {
    p.Evaluation? ==>
      && (forall i, j | 0 <= i < j < |Todo(p.eval)| :: Todo(p.eval)[i] != Todo(p.eval)[j])
      && (forall x | x in Todo(p.eval) :: x in db.orders && db.orders[x].symbol == p.symbol)
  }

  ghost predicate WorklistsOk(s: Sys) {
    forall i | 0 <= i < |s.procs| :: WorklistOk(s.db, s.procs[i])
  }

  lemma {:induction false} EvalStepWorklist(db: Db, p: Proc, env: Env)
    requires p.Evaluation? && EnvOk(db, p, env) && WorklistOk(db, p)
    ensures var (db', p', more) := ProcStep(db, p, env); WorklistOk(db', p')
  {
    var (db', p', more) := ProcStep(db, p, env);
    assert Todo(p'.eval) == [] || Todo(p'.eval) == Todo(p.eval) || (p.eval.EvalPriced?)
           || (Todo(p.eval) != [] && Todo(p'.eval) == Todo(p.eval)[1..]);
  }

  lemma {:induction false} WorklistKept(s: Sys, a: Action, p: Proc)
    requires Inv(s) && WorklistOk(s.db, p)
    ensures WorklistOk(Step(s, a).db, p)
  {
    if p.Evaluation? {
      forall x | x in Todo(p.eval) ensures x in Step(s, a).db.orders && Step(s, a).db.orders[x].symbol == p.symbol {
        StepMoves(s, a, x);
      }
    }
  }

  lemma {:induction false} StepKeepsWorklists(s: Sys, a: Action)
    requires Inv(s) && WorklistsOk(s)
    ensures WorklistsOk(Step(s, a))
  {
    var s' := Step(s, a);
    forall i | 0 <= i < |s'.procs| ensures WorklistOk(s'.db, s'.procs[i]) {
      if i < |s.procs| && s'.procs[i] == s.procs[i] {
        WorklistKept(s, a, s.procs[i]);
      } else if i < |s.procs| && s.procs[i].Evaluation? {
        EvalStepWorklist(s.db, s.procs[i], a.env);
      } else {
        OnlyNewEvaluations(s, a, i);
      }
    }
  }

  lemma {:induction false} OnlyNewEvaluations(s: Sys, a: Action, i: nat)
    requires i < |Step(s, a).procs|
        && (i >= |s.procs| || (Step(s, a).procs[i] != s.procs[i] && !s.procs[i].Evaluation?))
    ensures Step(s, a).procs[i].Evaluation? ==> Step(s, a).procs[i].eval == EvalQueued
  {
  }

  // What one step does to the two tallies of a process.
  lemma {:induction false} EvalStepTally(db: Db, p: Proc, env: Env, y: string, o: Id)
    requires EnvOk(db, p, env) && WorklistOk(db, p) && p.Evaluation?
    requires o in db.orders ==> db.orders[o].symbol == y
    ensures var (db', p', more) := ProcStep(db, p, env);
      && (HasStatus(db, o, Pending) && HasStatus(db', o, OrderStatus.Triggered)
          ==> MayTrigger(p, y, o) && !MayTrigger(p', y, o) && HasListed(p', y))
      && (MayTrigger(p', y, o) ==> MayTrigger(p, y, o) || (!HasListed(p, y) && HasListed(p', y)))
      && (HasListed(p, y) ==> HasListed(p', y))
      && (forall q | q in more :: !MayTrigger(q, y, o) && !HasListed(q, y))
  {
    var (db', p', more) := ProcStep(db, p, env);
    if p.eval.Scanning? && p.eval.todo != [] && HasStatus(db, p.eval.todo[0], Pending) && p.eval.todo[0] == o {
      assert p'.eval.todo == p.eval.todo;
      assert o !in p.eval.todo[1..];
    }
  }

  lemma {:induction false} OtherStepTally(db: Db, p: Proc, env: Env, y: string, o: Id)
    requires !p.Evaluation? && EnvOk(db, p, env)
    ensures var (db', p', more) := ProcStep(db, p, env);
      && !(HasStatus(db, o, Pending) && HasStatus(db', o, OrderStatus.Triggered))
      && !MayTrigger(p', y, o) && !HasListed(p', y)
      && (forall q | q in more :: !MayTrigger(q, y, o) && !HasListed(q, y))
  {
  }

  function Tally(s: Sys, y: string, o: Id): real {
    SumBy(s.procs, ListedFlag(y)) - SumBy(s.procs, TriggerFlag(y, o))
  }

  lemma {:induction false} StepTally(s: Sys, a: Action, y: string, o: Id)
    requires WorklistsOk(s) && (o in s.db.orders ==> s.db.orders[o].symbol == y)
    ensures Tally(Step(s, a), y, o) >= Tally(s, y, o) + if Triggers(s, a, o) then 1.0 else 0.0
  {
    match a {
      case Spawn(p) =>
        SumAppend(s.procs, p, ListedFlag(y));
        SumAppend(s.procs, p, TriggerFlag(y, o));
      case Advance(i, env) =>
        if i < |s.procs| && EnvOk(s.db, s.procs[i], env) {
          assert WorklistOk(s.db, s.procs[i]);
          var (db', p', more) := ProcStep(s.db, s.procs[i], env);
          if s.procs[i].Evaluation? {
            EvalStepTally(s.db, s.procs[i], env, y, o);
          } else {
            OtherStepTally(s.db, s.procs[i], env, y, o);
          }
          SumUpdate(s.procs, i, p', ListedFlag(y));
          SumConcat(s.procs[i := p'], more, ListedFlag(y));
          SumZero(more, ListedFlag(y));
          SumUpdate(s.procs, i, p', TriggerFlag(y, o));
          SumConcat(s.procs[i := p'], more, TriggerFlag(y, o));
          SumZero(more, TriggerFlag(y, o));
        }
    }
  }

  lemma {:induction false} TriggersTallied(s0: Sys, acts: seq<Action>, y: string, o: Id)
    requires Init(s0) && (o in Run(s0, acts).db.orders ==> Run(s0, acts).db.orders[o].symbol == y)
    ensures WorklistsOk(Run(s0, acts))
    ensures TriggerCount(s0, acts, o) as real <= Tally(Run(s0, acts), y, o)
  {
    if acts != [] {
      var init, a := acts[..|acts| - 1], acts[|acts| - 1];
      var s := Run(s0, init);
      RunKeepsInv(s0, init);
      if o in s.db.orders {
        StepMoves(s, a, o);
      }
      TriggersTallied(s0, init, y, o);
      StepKeepsWorklists(s, a);
      StepTally(s, a, y, o);
    }
  }

  // Successful triggers of an order never exceed the evaluations of its symbol that got to list orders.
  lemma {:induction false} TriggersBoundedByEvaluations(s0: Sys, acts: seq<Action>, o: Id)
    requires Init(s0) && o in Run(s0, acts).db.orders
    ensures TriggerCount(s0, acts, o) as real
        <= SumBy(Run(s0, acts).procs, ListedFlag(Run(s0, acts).db.orders[o].symbol))
  {
    var s := Run(s0, acts);
    var y := s.db.orders[o].symbol;
    TriggersTallied(s0, acts, y, o);
    SumZero(s.procs, _ => 0.0);
    SumMonotone(s.procs, _ => 0.0, TriggerFlag(y, o));
  }
}
