/**
 The order counts of the analytics against the orders of the store: a lifetime count is the number of
 distinct orders its delivered events are about, never more than the orders that got there, and exactly
 those when nothing was lost and every call has come to its end.
 */
module OrderCounts {
  import opened Wrappers
  import opened AnalyticsEvents
  import opened Domain
  import opened Protocol
  import opened Ownership
  import opened OrderSafety
  import opened Livelock
  import opened EventLog
  import opened Metrics
  import opened Sums
  import opened Snapshots
  import opened Consumer
  import opened Agreement
  import opened Books

  // --- A count is a number of orders ---

  // The orders some delivered event of this kind is about, for one user or for all.
  ghost function OrdersWith(ds: seq<Event>, kind: OrderEventKind, who: Option<Id>): set<Id> {
    set e | e in ds && e.payload.OrderPayload? && e.payload.kind == kind && Concerns(e, who) :: e.payload.orderId
  }

  predicate Counts(e: Event, kind: OrderEventKind, who: Option<Id>) {
    e.payload.OrderPayload? && e.payload.kind == kind && Concerns(e, who)
  }

  lemma {:induction false} StatusNamesKind(db: Db, e: Event, kind: OrderEventKind, who: Option<Id>)
    requires Stated(db, e)
    ensures Share(who, LIFETIME, OrderCount(OrderStatusName(kind)))(e) == if Counts(e, kind, who) then 1.0 else 0.0
  {
  }

  lemma {:induction false} OrdersWithAppend(ds: seq<Event>, e: Event, kind: OrderEventKind, who: Option<Id>)
    ensures OrdersWith(ds + [e], kind, who) == OrdersWith(ds, kind, who) + if Counts(e, kind, who)
        then {e.payload.orderId} else {}
  {
    assert forall x :: x in ds + [e] <==> x in ds || x == e;
  }

  lemma {:induction false} OrderIdInEventId(db: Db, e: Event)
    requires Stated(db, e) && e.payload.OrderPayload?
    ensures e.eventId == CreateAnalyticsEventId(OrderType(e.payload.kind), e.payload.orderId)
  {
  }

  lemma {:induction false} UncountedOrder(db: Db, ds: seq<Event>, e: Event, kind: OrderEventKind, who: Option<Id>)
    requires (forall f | f in ds :: Stated(db, f) && f.eventId != e.eventId) && Stated(db, e) && Counts(e, kind, who)
    ensures e.payload.orderId !in OrdersWith(ds, kind, who)
  {
    OrderIdInEventId(db, e);
    forall f | f in ds && Counts(f, kind, who) ensures f.payload.orderId != e.payload.orderId {
      OrderIdInEventId(db, f);
    }
  }

  lemma {:induction false} OneMoreOrder(db: Db, ds: seq<Event>, e: Event, kind: OrderEventKind, who: Option<Id>)
    requires (forall f | f in ds :: Stated(db, f) && f.eventId != e.eventId) && Stated(db, e)
    ensures |OrdersWith(ds + [e], kind, who)| == |OrdersWith(ds, kind, who)| + if Counts(e, kind, who) then 1 else 0
  {
    OrdersWithAppend(ds, e, kind, who);
    if Counts(e, kind, who) {
      UncountedOrder(db, ds, e, kind, who);
    }
  }

  lemma {:induction false} DistinctOrders(db: Db, xs: seq<Event>, kind: OrderEventKind, who: Option<Id>)
    requires DistinctKeys(xs, IdOf()) && forall e | e in xs :: Stated(db, e)
    ensures SumBy(xs, Share(who, LIFETIME, OrderCount(OrderStatusName(kind)))) == |OrdersWith(xs, kind, who)| as real
  {
    if xs == [] {
      assert OrdersWith(xs, kind, who) == {};
    } else {
      var init, e := xs[..|xs| - 1], xs[|xs| - 1];
      DistinctOrders(db, init, kind, who);
      forall f | f in init ensures f.eventId != e.eventId {
        assert IdOf()(f) != IdOf()(e);
      }
      OneMoreOrder(db, init, e, kind, who);
      StatusNamesKind(db, e, kind, who);
      assert xs == init + [e];
    }
  }

  lemma {:induction false} SameOrders(s0: Sys, acts: seq<Action>, ds: seq<Event>, kind: OrderEventKind, who: Option<Id>)
    requires Init(s0) && DeliveredFrom(ds, Run(s0, acts).db.events)
    ensures OrdersWith(FirstDeliveries(ds), kind, who) == OrdersWith(ds, kind, who)
  {
    var xs := FirstDeliveries(ds);
    FirstDeliveriesOnce(ds);
    forall e | e in ds && Counts(e, kind, who) ensures e.payload.orderId in OrdersWith(xs, kind, who) {
      InIds(ds, e);
      IdPresent(xs, e.eventId);
      var f :| f in xs && f.eventId == e.eventId;
      OneIdOneEvent(s0, acts, e, f);
      assert Counts(f, kind, who);
    }
  }

  // --- Orders that got there ---

  ghost predicate Reached(s0: Sys, acts: seq<Action>, kind: OrderEventKind, o: Id) {
    var db := Run(s0, acts).db;
    o in db.orders
    && match kind
       case Created => true
       case Triggered => TriggerCount(s0, acts, o) > 0
       case Cancelled => db.orders[o].status == OrderStatus.Cancelled
       case Executed => db.orders[o].status == Completed
       case Failed => db.orders[o].status == OrderStatus.Failed
  }

  ghost function OrdersReached(s0: Sys, acts: seq<Action>, kind: OrderEventKind, who: Option<Id>): set<Id> {
    var db := Run(s0, acts).db;
    set o | o in db.orders && Reached(s0, acts, kind, o) && (who.None? || who == Some(db.orders[o].userId))
  }

  // The process still has to announce that the order got there.
  predicate OwesOrder(p: Proc, kind: OrderEventKind, o: Id) {
    match kind
    case Created => p.Creation? && (p.create.Inserted? || p.create.CreateAnnouncing?) && p.create.o == o
    case Triggered => p.Evaluation? && p.eval.Announcing? && p.eval.todo != [] && p.eval.todo[0] == o
    case Cancelled => p.Cancellation? && p.cancel.CancelMarked? && p.orderId == o
    case Executed => p.Execution? && p.exec.CompleteMarked? && p.orderId == o
    case Failed => p.Execution? && p.exec.FailMarked? && p.orderId == o
  }

  function StatusOfKind(kind: OrderEventKind): OrderStatus {
    match kind
    case Created => Pending
    case Triggered => OrderStatus.Triggered
    case Cancelled => OrderStatus.Cancelled
    case Executed => Completed
    case Failed => OrderStatus.Failed
  }

  // The step enters the status the kind of event stands for.
  predicate Enters(db: Db, db': Db, kind: OrderEventKind, o: Id) {
    if kind == OrderEventKind.Created then o !in db.orders && o in db'.orders
    else o in db.orders && !HasStatus(db, o, StatusOfKind(kind)) && HasStatus(db', o, StatusOfKind(kind))
  }

  lemma {:induction false} ExecStepEnters(db: Db, x: Id, pc: ExecPc, env: Env, kind: OrderEventKind, o: Id)
    requires !pc.FoundTrade? && Enters(db, ExecStep(db, x, pc, env).0, kind, o)
    ensures OwesOrder(Execution(x, ExecStep(db, x, pc, env).1), kind, o)
  {
  }

  lemma {:induction false} CreateStepEnters(db: Db, p: Proc, env: Env, kind: OrderEventKind, o: Id)
    requires p.Creation? && env.freshId !in db.orders && Enters(db, CreateStep(db, p, env).0, kind, o)
    ensures OwesOrder(p.(create := CreateStep(db, p, env).1), kind, o)
  {
  }

  lemma {:induction false} EvalStepEnters(db: Db, symbol: string, pc: EvalPc, env: Env, kind: OrderEventKind, o: Id)
    requires Enters(db, EvalStep(db, symbol, pc, env).0, kind, o)
    ensures OwesOrder(Evaluation(symbol, EvalStep(db, symbol, pc, env).1), kind, o)
  {
  }

  lemma {:induction false} CancelStepEnters(db: Db, userId: Id, x: Id, pc: CancelPc, env: Env, kind: OrderEventKind,
      o: Id)
    requires Enters(db, CancelStep(db, userId, x, pc, env).0, kind, o)
    ensures OwesOrder(Cancellation(userId, x, CancelStep(db, userId, x, pc, env).1), kind, o)
  {
  }

  lemma {:induction false} StepEnters(db: Db, p: Proc, env: Env, kind: OrderEventKind, o: Id)
    requires ProcOk(db, p) && IdUnused(db, env.freshId) && Enters(db, ProcStep(db, p, env).0, kind, o)
    ensures OwesOrder(ProcStep(db, p, env).1, kind, o)
  {
    match p {
      case Execution(x, pc) => ExecStepEnters(db, x, pc, env, kind, o);
      case Creation(_, _, _, _, _, _) => CreateStepEnters(db, p, env, kind, o);
      case Evaluation(symbol, pc) => EvalStepEnters(db, symbol, pc, env, kind, o);
      case Cancellation(userId, x, pc) => CancelStepEnters(db, userId, x, pc, env, kind, o);
      case PriceUpdate(_, _, _) => assert false;
      case Depositing(_, _, _) => assert false;
    }
  }

  // What was owed is published or still owed.
  lemma {:induction false} StepPaysOrder(db: Db, p: Proc, env: Env, kind: OrderEventKind, o: Id)
    requires OwesOrder(p, kind, o)
    ensures var (db', p', more) := ProcStep(db, p, env);
      OwesOrder(p', kind, o)
      || (Publishes(p, env).Some? && Publishes(p, env).value.eventId == CreateAnalyticsEventId(OrderType(kind), o))
  {
  }

  // --- No count exceeds the orders that got there ---

  // Every trigger event, and every trigger about to be announced, was a trigger of the run.
  ghost predicate TriggersHappened(s0: Sys, acts: seq<Action>) {
    var s := Run(s0, acts);
    && (forall e | e in s.db.events && IsTrigger(e) :: TriggerCount(s0, acts, e.payload.orderId) > 0)
    && (forall i, o | 0 <= i < |s.procs| && OwesOrder(s.procs[i], OrderEventKind.Triggered, o) ::
        TriggerCount(s0, acts, o) > 0)
  }

  lemma {:induction false} TriggerCountAppend(s0: Sys, acts: seq<Action>, a: Action, o: Id)
    ensures TriggerCount(s0, acts + [a], o) == TriggerCount(s0, acts, o) + if Triggers(Run(s0, acts), a, o) then 1
        else 0
  {
    assert (acts + [a])[..|acts|] == acts;
  }

  // Who owes a trigger announcement after a step owed it before, or has just triggered the order.
  lemma {:induction false} StepTriggers(db: Db, p: Proc, env: Env, o: Id)
    ensures var (db', p', more) := ProcStep(db, p, env);
      && (OwesOrder(p', OrderEventKind.Triggered, o) ==>
          HasStatus(db, o, Pending) && HasStatus(db', o, OrderStatus.Triggered))
      && (forall q | q in more :: !OwesOrder(q, OrderEventKind.Triggered, o))
  {
  }

  lemma {:induction false} PublishesOwedTrigger(p: Proc, env: Env)
    requires Publishes(p, env).Some? && IsTrigger(Publishes(p, env).value)
    ensures OwesOrder(p, OrderEventKind.Triggered, Publishes(p, env).value.payload.orderId)
  {
  }

  lemma {:induction false} AdvanceKeepsTriggers(s0: Sys, acts: seq<Action>, i: nat, env: Env)
    requires TriggersHappened(s0, acts) && i < |Run(s0, acts).procs|
        && EnvOk(Run(s0, acts).db, Run(s0, acts).procs[i], env)
    ensures TriggersHappened(s0, acts + [Advance(i, env)])
  {
    var a := Advance(i, env);
    var s := Run(s0, acts);
    var s' := Step(s, a);
    RunSplit(s0, acts, a);
    StepPublishes(s.db, s.procs[i], env);
    forall e | e in s'.db.events && IsTrigger(e) ensures TriggerCount(s0, acts + [a], e.payload.orderId) > 0 {
      TriggerCountAppend(s0, acts, a, e.payload.orderId);
      if e !in s.db.events {
        PublishesOwedTrigger(s.procs[i], env);
      }
    }
    forall k, o | 0 <= k < |s'.procs| && OwesOrder(s'.procs[k], OrderEventKind.Triggered, o)
      ensures TriggerCount(s0, acts + [a], o) > 0
    {
      TriggerCountAppend(s0, acts, a, o);
      StepTriggers(s.db, s.procs[i], env, o);
      if k < |s.procs| && k != i {
        assert OwesOrder(s.procs[k], OrderEventKind.Triggered, o);
      } else {
        assert k == i;
      }
    }
  }

  lemma {:induction false} RunKeepsTriggers(s0: Sys, acts: seq<Action>)
    requires Init(s0)
    ensures TriggersHappened(s0, acts)
  {
    if acts != [] {
      var init, a := acts[..|acts| - 1], acts[|acts| - 1];
      assert acts == init + [a];
      RunKeepsTriggers(s0, init);
      var s := Run(s0, init);
      if a.Advance? && a.i < |s.procs| && EnvOk(s.db, s.procs[a.i], a.env) {
        AdvanceKeepsTriggers(s0, init, a.i, a.env);
      } else {
        RunSplit(s0, init, a);
        IdleKeepsTriggers(s0, init, a);
      }
    }
  }

  lemma {:induction false} IdleKeepsTriggers(s0: Sys, acts: seq<Action>, a: Action)
    requires TriggersHappened(s0, acts) && Run(s0, acts + [a]).db == Run(s0, acts).db
    requires Run(s0, acts + [a]).procs == Run(s0, acts).procs
        || (a.Spawn? && CanStart(a.p) && Run(s0, acts + [a]).procs == Run(s0, acts).procs + [a.p])
    ensures TriggersHappened(s0, acts + [a])
  {
    forall o ensures TriggerCount(s0, acts + [a], o) >= TriggerCount(s0, acts, o) {
      TriggerCountAppend(s0, acts, a, o);
    }
  }

  lemma {:induction false} OwnerOfEvent(s0: Sys, acts: seq<Action>, e: Event)
    requires Init(s0) && e in Run(s0, acts).db.events && e.payload.OrderPayload?
    ensures var db := Run(s0, acts).db; var o := e.payload.orderId;
      o in db.orders && e.userId == Some(db.orders[o].userId) && db.orders[o].userId != ""
  {
    var db := Run(s0, acts).db;
    var o := e.payload.orderId;
    RunKeepsLog(s0, acts);
    RunKeepsInv(s0, acts);
    assert Stated(db, e);
    if e.payload.kind == Executed {
      var t :| t in db.trades && e == TradeEvent(t);
      EffectsHappenOnce(s0, acts, o);
      TradeMatchesOrder(db, t);
    }
    assert OrderOk(db, o);
  }

  lemma {:induction false} EventReached(s0: Sys, acts: seq<Action>, e: Event)
    requires Init(s0) && e in Run(s0, acts).db.events && e.payload.OrderPayload?
    ensures Reached(s0, acts, e.payload.kind, e.payload.orderId)
  {
    OwnerOfEvent(s0, acts, e);
    RunKeepsLog(s0, acts);
    RunKeepsTriggers(s0, acts);
    assert Stated(Run(s0, acts).db, e);
    assert e.payload.kind == OrderEventKind.Triggered ==> IsTrigger(e);
  }

  lemma {:induction false} DeliveredReached(s0: Sys, acts: seq<Action>, ds: seq<Event>, kind: OrderEventKind,
      who: Option<Id>)
    requires Init(s0) && DeliveredFrom(ds, Run(s0, acts).db.events)
    ensures OrdersWith(ds, kind, who) <= OrdersReached(s0, acts, kind, who)
  {
    forall e | e in ds && Counts(e, kind, who) ensures e.payload.orderId in OrdersReached(s0, acts, kind, who) {
      OwnerOfEvent(s0, acts, e);
      EventReached(s0, acts, e);
    }
  }

  // --- Every order that got there is announced, or about to be ---

  ghost predicate OrderAnnounced(s: Sys, kind: OrderEventKind, o: Id) {
    CreateAnalyticsEventId(OrderType(kind), o) in Ids(s.db.events) || exists i ::
        0 <= i < |s.procs| && OwesOrder(s.procs[i], kind, o)
  }

  ghost predicate OrdersAnnounced(s0: Sys, acts: seq<Action>) {
    forall kind, o | Reached(s0, acts, kind, o) :: OrderAnnounced(Run(s0, acts), kind, o)
  }

  lemma {:induction false} OrderAnnouncedKept(s: Sys, i: nat, env: Env, kind: OrderEventKind, o: Id)
    requires i < |s.procs| && EnvOk(s.db, s.procs[i], env) && env.delivered && OrderAnnounced(s, kind, o)
    ensures OrderAnnounced(Step(s, Advance(i, env)), kind, o)
  {
    var id := CreateAnalyticsEventId(OrderType(kind), o);
    var s' := Step(s, Advance(i, env));
    StepPublishes(s.db, s.procs[i], env);
    if id in Ids(s.db.events) {
      assert forall e | e in s.db.events :: e in s'.db.events;
    } else {
      var j :| 0 <= j < |s.procs| && OwesOrder(s.procs[j], kind, o);
      if j == i {
        StepPaysOrder(s.db, s.procs[i], env, kind, o);
        if OwesOrder(ProcStep(s.db, s.procs[i], env).1, kind, o) {
          assert OwesOrder(s'.procs[i], kind, o);
        } else {
          InIds(s'.db.events, Publishes(s.procs[i], env).value);
        }
      } else {
        assert OwesOrder(s'.procs[j], kind, o);
      }
    }
  }

  // What an order has just reached it entered at this step.
  lemma {:induction false} ReachedOrEntered(s0: Sys, acts: seq<Action>, a: Action, kind: OrderEventKind, o: Id)
    requires Init(s0) && Reached(s0, acts + [a], kind, o)
    ensures Reached(s0, acts, kind, o) || Enters(Run(s0, acts).db, Step(Run(s0, acts), a).db, kind, o)
  {
    RunSplit(s0, acts, a);
    TriggerCountAppend(s0, acts, a, o);
    if kind == OrderEventKind.Triggered && TriggerCount(s0, acts, o) > 0 {
      TriggeredExists(s0, acts, o);
    }
    if o !in Run(s0, acts).db.orders && kind != OrderEventKind.Created {
      NewOrdersPending(s0, acts, a, o);
    }
  }

  lemma {:induction false} TriggeredExists(s0: Sys, acts: seq<Action>, o: Id)
    requires Init(s0) && TriggerCount(s0, acts, o) > 0
    ensures o in Run(s0, acts).db.orders
  {
    var init, a := acts[..|acts| - 1], acts[|acts| - 1];
    assert acts == init + [a];
    RunSplit(s0, init, a);
    if TriggerCount(s0, init, o) > 0 {
      TriggeredExists(s0, init, o);
      RunKeepsInv(s0, init);
      StepMoves(Run(s0, init), a, o);
    }
  }

  lemma {:induction false} NewOrdersPending(s0: Sys, acts: seq<Action>, a: Action, o: Id)
    requires Init(s0) && o !in Run(s0, acts).db.orders && o in Step(Run(s0, acts), a).db.orders
    ensures HasStatus(Step(Run(s0, acts), a).db, o, Pending)
  {
    var s := Run(s0, acts);
    InsertedByCreation(s.db, s.procs[a.i], a.env, o);
  }

  lemma {:induction false} RunKeepsOrdersAnnounced(s0: Sys, acts: seq<Action>)
    requires Init(s0) && AllDelivered(acts)
    ensures OrdersAnnounced(s0, acts)
  {
    if acts != [] {
      var init, a := acts[..|acts| - 1], acts[|acts| - 1];
      assert acts == init + [a] && a in acts;
      RunKeepsOrdersAnnounced(s0, init);
      RunKeepsInv(s0, init);
      RunSplit(s0, init, a);
      forall kind, o | Reached(s0, acts, kind, o) ensures OrderAnnounced(Run(s0, acts), kind, o) {
        ReachedOrEntered(s0, init, a, kind, o);
        StepAnnouncesOrder(Run(s0, init), a, kind, o);
      }
    }
  }

  lemma {:induction false} StepAnnouncesOrder(s: Sys, a: Action, kind: OrderEventKind, o: Id)
    requires Inv(s) && (a.Advance? ==> a.env.delivered)
    requires OrderAnnounced(s, kind, o) || Enters(s.db, Step(s, a).db, kind, o)
    ensures OrderAnnounced(Step(s, a), kind, o)
  {
    if a.Advance? && a.i < |s.procs| && EnvOk(s.db, s.procs[a.i], a.env) {
      if Enters(s.db, Step(s, a).db, kind, o) {
        assert ProcOk(s.db, s.procs[a.i]);
        StepEnters(s.db, s.procs[a.i], a.env, kind, o);
        assert OwesOrder(Step(s, a).procs[a.i], kind, o);
      } else {
        OrderAnnouncedKept(s, a.i, a.env, kind, o);
      }
    } else if CreateAnalyticsEventId(OrderType(kind), o) !in Ids(s.db.events) {
      var i :| 0 <= i < |s.procs| && OwesOrder(s.procs[i], kind, o);
      assert OwesOrder(Step(s, a).procs[i], kind, o);
    }
  }

  lemma {:induction false} ReachedDelivered(s0: Sys, acts: seq<Action>, ds: seq<Event>, kind: OrderEventKind,
      who: Option<Id>)
    requires Init(s0) && AllDelivered(acts) && Quiescent(Run(s0, acts))
        && CompletelyDelivered(ds, Run(s0, acts).db.events)
    ensures OrdersReached(s0, acts, kind, who) <= OrdersWith(ds, kind, who)
  {
    var s := Run(s0, acts);
    RunKeepsOrdersAnnounced(s0, acts);
    RunKeepsLog(s0, acts);
    forall o | o in OrdersReached(s0, acts, kind, who) ensures o in OrdersWith(ds, kind, who) {
      var id := CreateAnalyticsEventId(OrderType(kind), o);
      assert OrderAnnounced(s, kind, o);
      assert id in Ids(ds);
      IdPresent(ds, id);
      var e :| e in ds && e.eventId == id;
      OrderAbout(s.db, e, kind, o);
      OwnerOfEvent(s0, acts, e);
      assert Counts(e, kind, who);
    }
  }

  // Each lifetime order count is a number of distinct orders, so a re-triggered order counts once:
  // never more than the orders that were created, triggered at some time, cancelled, completed or
  // failed, and exactly those when nothing was lost and every call has come to its end.
  lemma {:induction false} OrderCountsMatchTheStore(s0: Sys, acts: seq<Action>, ds: seq<Event>, kind: OrderEventKind,
      who: Option<Id>)
    requires Init(s0) && who != Some("") && DeliveredFrom(ds, Run(s0, acts).db.events)
    ensures Reported(ds, who, LIFETIME, OrderCount(OrderStatusName(kind))) == |OrdersWith(ds, kind, who)| as real
    ensures |OrdersWith(ds, kind, who)| <= |OrdersReached(s0, acts, kind, who)|
    ensures AllDelivered(acts) && Quiescent(Run(s0, acts)) && CompletelyDelivered(ds, Run(s0, acts).db.events) ==>
      Reported(ds, who, LIFETIME, OrderCount(OrderStatusName(kind))) == |OrdersReached(s0, acts, kind, who)| as real
  {
    RunKeepsLog(s0, acts);
    FirstDeliveriesOnce(ds);
    FigureIsSum(FirstDeliveries(ds), who, LIFETIME, OrderCount(OrderStatusName(kind)));
    DistinctOrders(Run(s0, acts).db, FirstDeliveries(ds), kind, who);
    SameOrders(s0, acts, ds, kind, who);
    DeliveredReached(s0, acts, ds, kind, who);
    SubsetSize(OrdersWith(ds, kind, who), OrdersReached(s0, acts, kind, who));
    if AllDelivered(acts) && Quiescent(Run(s0, acts)) && CompletelyDelivered(ds, Run(s0, acts).db.events) {
      ReachedDelivered(s0, acts, ds, kind, who);
      assert OrdersWith(ds, kind, who) == OrdersReached(s0, acts, kind, who);
    }
  }
}
