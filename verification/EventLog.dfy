/**
 What the published events say, over every interleaving: each one states a fact of the database, and
 an event id stands for one user and one payload however often it is published.
 */
module EventLog {
  import opened Wrappers
  import opened AnalyticsEvents
  import opened Domain
  import opened Protocol
  import opened Ownership
  import OrderSafety
  import PositionSums
  import opened Sums

  // --- What a step publishes ---

  // An event about an order before it is executed quotes its target.
  function TermsEvent(kind: OrderEventKind, o: Id, order: Order, at: int): Event {
    OrderEvent(kind, o, order, order.targetPrice, None, at)
  }

  function TradeEvent(t: Trade): Event {
    Event(CreateAnalyticsEventId(OrderType(Executed), t.buyOrderId), t.executedAt, Some(t.userId),
          OrderPayload(Executed, t.buyOrderId, t.symbol, Some(t.quantity), Some(t.executedPrice), Some(t.totalCost),
                       Some(OrderStatusName(Executed))))
  }

  function ExecPublishes(o: Id, pc: ExecPc, env: Env): Option<Event> {
    match pc
    case FailMarked(order, price) =>
      Some(OrderEvent(OrderEventKind.Failed, o, order, price, Some(Cost(order, price)), env.now))
    case Ledgered(_, _, _, row) => Some(DebitEvent(row, env.now))
    case CompleteMarked(order, price, at) => Some(TradeEvent(TradeFor(o, order, price, at)))
    case _ => None
  }

  function PricePublishes(symbol: string, price: real, pc: PricePc, env: Env): Option<Event> {
    match pc
    case Upserted(was, eventId, at, stock) =>
      Some(Event(CreateAnalyticsEventId(PriceUpdatedType, eventId), at, None,
                 StockPriceUpdated(Some(stock.id), symbol, OldPrice(was), price)))
    case PriceAnnounced(was, eventId) =>
      if was.Some? && price < was.value.currentPrice then
        Some(Event(CreateAnalyticsEventId(PriceDecreasedType, eventId), env.now, None,
                   StockPriceDecreased(Some(was.value.id), symbol, OldPrice(was), price)))
      else None
    case _ => None
  }

  function Publishes(p: Proc, env: Env): Option<Event> {
    match p
    case Execution(o, pc) => ExecPublishes(o, pc, env)
    case Evaluation(_, pc) =>
      if pc.Announcing? && pc.todo != [] then Some(TermsEvent(OrderEventKind.Triggered, pc.todo[0], pc.order, env.now))
          else None
    case PriceUpdate(symbol, price, pc) => PricePublishes(symbol, price, pc, env)
    case Creation(_, _, _, _, _, pc) =>
      if pc.CreateAnnouncing? then Some(TermsEvent(OrderEventKind.Created, pc.o, NewOrder(p), env.now)) else None
    case Cancellation(_, o, pc) =>
      if pc.CancelMarked? then Some(TermsEvent(OrderEventKind.Cancelled, o, pc.order, env.now)) else None
    case Depositing(_, _, pc) =>
      if pc.DepositLedgered? then Some(DepositEvent(pc.row, env.now)) else None
  }

  function Appended(events: seq<Event>, published: Option<Event>, delivered: bool): seq<Event> {
    if delivered && published.Some? then events + [published.value] else events
  }

  lemma {:induction false} ExecPublishesIt(db: Db, o: Id, pc: ExecPc, env: Env)
    ensures ExecStep(db, o, pc, env).0.events == Appended(db.events, ExecPublishes(o, pc, env), env.delivered)
  {
  }

  lemma {:induction false} PricePublishesIt(db: Db, symbol: string, price: real, pc: PricePc, env: Env)
    ensures PriceStep(db, symbol, price, pc, env).0.events
        == Appended(db.events, PricePublishes(symbol, price, pc, env), env.delivered)
  {
  }

  lemma {:induction false} StepPublishes(db: Db, p: Proc, env: Env)
    ensures ProcStep(db, p, env).0.events == Appended(db.events, Publishes(p, env), env.delivered)
  {
    match p {
      case Execution(o, pc) => ExecPublishesIt(db, o, pc, env);
      case PriceUpdate(symbol, price, pc) => PricePublishesIt(db, symbol, price, pc, env);
      case _ =>
    }
  }

  // --- What never goes away ---

  // Documents are only added, and an order keeps its terms.
  ghost predicate Keeps(db: Db, db': Db) {
    && (forall o | o in db.orders :: o in db'.orders && SameTerms(db.orders[o], db'.orders[o]))
    && db.trades <= db'.trades && db.ledger <= db'.ledger && db.priceEvents <= db'.priceEvents
  }

  lemma {:induction false} ExecStepTerms(db: Db, o: Id, pc: ExecPc, env: Env)
    ensures var db' := ExecStep(db, o, pc, env).0;
      forall x | x in db.orders :: x in db'.orders && SameTerms(db.orders[x], db'.orders[x])
  {
  }

  lemma {:induction false} ExecStepKeeps(db: Db, o: Id, pc: ExecPc, env: Env)
    ensures Keeps(db, ExecStep(db, o, pc, env).0)
    ensures ExecStep(db, o, pc, env).0.priceEvents == db.priceEvents
  {
    ExecStepTerms(db, o, pc, env);
  }

  lemma {:induction false} CreateStepKeeps(db: Db, p: Proc, env: Env)
    requires p.Creation? && env.freshId !in db.orders
    ensures Keeps(db, CreateStep(db, p, env).0)
  {
  }

  lemma {:induction false} EvalStepKeeps(db: Db, symbol: string, pc: EvalPc, env: Env)
    ensures Keeps(db, EvalStep(db, symbol, pc, env).0)
  {
  }

  lemma {:induction false} PriceStepKeeps(db: Db, symbol: string, price: real, pc: PricePc, env: Env)
    ensures Keeps(db, PriceStep(db, symbol, price, pc, env).0)
  {
  }

  lemma {:induction false} CancelStepKeeps(db: Db, userId: Id, o: Id, pc: CancelPc, env: Env)
    ensures Keeps(db, CancelStep(db, userId, o, pc, env).0)
  {
  }

  lemma {:induction false} DepositStepKeeps(db: Db, userId: Id, amount: real, pc: DepositPc, env: Env)
    ensures Keeps(db, DepositStep(db, userId, amount, pc, env).0)
  {
  }

  lemma {:induction false} StepKeeps(db: Db, p: Proc, env: Env)
    requires IdUnused(db, env.freshId)
    ensures Keeps(db, ProcStep(db, p, env).0)
  {
    match p {
      case Execution(o, pc) => ExecStepKeeps(db, o, pc, env);
      case Creation(_, _, _, _, _, _) => CreateStepKeeps(db, p, env);
      case Evaluation(symbol, pc) => EvalStepKeeps(db, symbol, pc, env);
      case PriceUpdate(symbol, price, pc) => PriceStepKeeps(db, symbol, price, pc, env);
      case Cancellation(userId, o, pc) => CancelStepKeeps(db, userId, o, pc, env);
      case Depositing(userId, amount, pc) => DepositStepKeeps(db, userId, amount, pc, env);
    }
  }

  // Nor does a finished order change its status.
  ghost predicate Advances(db: Db, db': Db) {
    && Keeps(db, db')
    && (forall o | HasStatus(db, o, OrderStatus.Failed) :: HasStatus(db', o, OrderStatus.Failed))
    && (forall o | HasStatus(db, o, OrderStatus.Cancelled) :: HasStatus(db', o, OrderStatus.Cancelled))
    && (forall o | HasStatus(db, o, Completed) :: HasStatus(db', o, Completed))
  }

  lemma {:induction false} StepAdvances(s: Sys, i: nat, env: Env)
    requires Inv(s) && i < |s.procs| && EnvOk(s.db, s.procs[i], env)
    ensures Advances(s.db, ProcStep(s.db, s.procs[i], env).0)
  {
    StepKeeps(s.db, s.procs[i], env);
    forall o | o in s.db.orders ensures OrderSafety.OrderMoves(s.db, ProcStep(s.db, s.procs[i], env).0, o) {
      OrderSafety.StepMoves(s, Advance(i, env), o);
    }
  }

  lemma {:induction false} PrefixMember<T>(xs: seq<T>, ys: seq<T>, x: T)
    requires xs <= ys && x in xs
    ensures x in ys
  {
    var i :| 0 <= i < |xs| && xs[i] == x;
    assert ys[i] == x;
  }

  // --- Documents a process is about to announce ---

  predicate UpdateRecorded(p: Proc) {
    p.PriceUpdate? && (p.upd.PriceRecorded? || p.upd.Upserted? || p.upd.PriceAnnounced?)
  }

  ghost predicate PriceIdKnown(db: Db, id: Id) {
    exists pe :: pe in db.priceEvents && pe.id == id
  }

  ghost predicate AnnouncerOk(db: Db, p: Proc) {
    match p
    case Execution(_, _) => true
    case Evaluation(_, pc) =>
      pc.Announcing? ==> pc.todo != [] && pc.todo[0] in db.orders && SameTerms(db.orders[pc.todo[0]], pc.order)
    case PriceUpdate(_, _, pc) => UpdateRecorded(p) ==> PriceIdKnown(db, pc.eventId)
    case Creation(_, _, _, _, _, pc) =>
      pc.Inserted? || pc.CreateAnnouncing? ==> pc.o in db.orders && SameTerms(db.orders[pc.o], NewOrder(p))
    case Cancellation(_, o, pc) =>
      pc.CancelMarked? ==> HasStatus(db, o, OrderStatus.Cancelled) && SameTerms(db.orders[o], pc.order)
    case Depositing(_, _, pc) =>
      pc.DepositLedgered? ==> pc.row in db.ledger && pc.row.kind == DepositRow
  }

  lemma {:induction false} AnnouncerKept(db: Db, db': Db, p: Proc)
    requires AnnouncerOk(db, p) && Advances(db, db')
    ensures AnnouncerOk(db', p)
  {
    if p.Depositing? && p.dep.DepositLedgered? {
      PrefixMember(db.ledger, db'.ledger, p.dep.row);
    } else if UpdateRecorded(p) {
      var pe :| pe in db.priceEvents && pe.id == p.upd.eventId;
      PrefixMember(db.priceEvents, db'.priceEvents, pe);
    }
  }

  lemma {:induction false} EvalAnnounces(db: Db, p: Proc, env: Env)
    requires p.Evaluation?
    ensures var (db', p', more) := ProcStep(db, p, env); AnnouncerOk(db', p')
  {
  }

  lemma {:induction false} PriceAnnounces(db: Db, p: Proc, env: Env)
    requires p.PriceUpdate? && AnnouncerOk(db, p)
    ensures var (db', p', more) := ProcStep(db, p, env); AnnouncerOk(db', p')
  {
    var db' := PriceStep(db, p.symbol, p.price, p.upd, env).0;
    PriceStepKeeps(db, p.symbol, p.price, p.upd, env);
    if p.upd.PriceRead? {
      var pe := PriceEvent(env.freshId, p.symbol, OldPrice(p.upd.was), p.price);
      assert db'.priceEvents == db.priceEvents + [pe];
      assert pe in db'.priceEvents;
    } else if UpdateRecorded(p) {
      var pe :| pe in db.priceEvents && pe.id == p.upd.eventId;
      PrefixMember(db.priceEvents, db'.priceEvents, pe);
    }
  }

  lemma {:induction false} CreateAnnounces(db: Db, p: Proc, env: Env)
    requires p.Creation? && AnnouncerOk(db, p)
    ensures var (db', p', more) := ProcStep(db, p, env); AnnouncerOk(db', p')
  {
  }

  lemma {:induction false} CancelAnnounces(db: Db, p: Proc, env: Env)
    requires p.Cancellation?
    ensures var (db', p', more) := ProcStep(db, p, env); AnnouncerOk(db', p')
  {
  }

  lemma {:induction false} DepositAnnounces(db: Db, p: Proc, env: Env)
    requires p.Depositing?
    ensures var (db', p', more) := ProcStep(db, p, env); AnnouncerOk(db', p')
  {
  }

  lemma {:induction false} StepAnnounces(db: Db, p: Proc, env: Env)
    requires AnnouncerOk(db, p)
    ensures var (db', p', more) := ProcStep(db, p, env);
      AnnouncerOk(db', p') && forall q | q in more :: AnnouncerOk(db', q)
  {
    match p {
      case Execution(_, _) =>
      case Evaluation(_, _) => EvalAnnounces(db, p, env);
      case PriceUpdate(_, _, _) => PriceAnnounces(db, p, env);
      case Creation(_, _, _, _, _, _) => CreateAnnounces(db, p, env);
      case Cancellation(_, _, _) => CancelAnnounces(db, p, env);
      case Depositing(_, _, _) => DepositAnnounces(db, p, env);
    }
  }

  // --- Every published event states a fact ---

  predicate TermsStated(db: Db, e: Event)
    requires e.payload.OrderPayload?
  {
    var o := e.payload.orderId;
    o in db.orders && e == TermsEvent(e.payload.kind, o, db.orders[o], e.occurredAt)
  }

  predicate FailureStated(db: Db, e: Event)
    requires e.payload.OrderPayload?
  {
    var o := e.payload.orderId;
    && HasStatus(db, o, OrderStatus.Failed) && e.userId == Some(db.orders[o].userId)
    && e.eventId == CreateAnalyticsEventId(OrderType(OrderEventKind.Failed), o)
    && e.payload.status == Some(OrderStatusName(OrderEventKind.Failed))
  }

  ghost predicate RowStated(db: Db, e: Event) {
    exists row :: row in db.ledger && e == if row.kind == DepositRow then DepositEvent(row, e.occurredAt)
        else DebitEvent(row, e.occurredAt)
  }

  ghost predicate PriceStated(db: Db, e: Event) {
    exists pe :: pe in db.priceEvents && e.eventId == CreateAnalyticsEventId(TypeOf(e.payload), pe.id)
  }

  ghost predicate Stated(db: Db, e: Event) {
    match e.payload
    case OrderPayload(kind, o, _, _, _, _, _) =>
      if kind == Executed then HasStatus(db, o, Completed) && exists t :: t in db.trades && e == TradeEvent(t)
      else if kind == OrderEventKind.Failed then FailureStated(db, e)
      else TermsStated(db, e) && (kind == OrderEventKind.Cancelled ==> HasStatus(db, o, OrderStatus.Cancelled))
    case WalletDeposited(_, _, _) => RowStated(db, e)
    case WalletDebited(_, _, _) => RowStated(db, e)
    case StockSubscriptionChanged(_) => false
    case _ => e.userId == None && PriceStated(db, e)
  }

  lemma {:induction false} StatedKept(db: Db, db': Db, e: Event)
    requires Stated(db, e) && Advances(db, db')
    ensures Stated(db', e)
  {
    if e.payload.OrderPayload? {
      if e.payload.kind == Executed {
        var t :| t in db.trades && e == TradeEvent(t);
        PrefixMember(db.trades, db'.trades, t);
      }
    } else if e.payload.WalletDeposited? || e.payload.WalletDebited? {
      var row :| row in db.ledger && e == if row.kind == DepositRow then DepositEvent(row, e.occurredAt)
          else DebitEvent(row, e.occurredAt);
      PrefixMember(db.ledger, db'.ledger, row);
    } else {
      var pe :| pe in db.priceEvents && e.eventId == CreateAnalyticsEventId(TypeOf(e.payload), pe.id);
      PrefixMember(db.priceEvents, db'.priceEvents, pe);
    }
  }

  lemma {:induction false} ExecStates(db: Db, o: Id, pc: ExecPc, env: Env)
    requires ProcOk(db, Execution(o, pc)) && ExecPublishes(o, pc, env).Some?
    ensures Stated(db, ExecPublishes(o, pc, env).value)
  {
    match pc {
      case FailMarked(order, price) =>
      case Ledgered(order, price, _, row) =>
        DebitsOfMember(db.ledger, row, o);
        assert RowStated(db, DebitEvent(row, env.now));
      case CompleteMarked(order, price, at) =>
        var t := TradeFor(o, order, price, at);
        assert TradesOf(db.trades, o) == [t];
        TradesOfMember(db.trades, t, o);
    }
  }

  lemma {:induction false} OtherStates(db: Db, p: Proc, env: Env)
    requires !p.Execution? && AnnouncerOk(db, p) && Publishes(p, env).Some?
    ensures Stated(db, Publishes(p, env).value)
  {
    var e := Publishes(p, env).value;
    if p.PriceUpdate? {
      assert UpdateRecorded(p);
      var pe :| pe in db.priceEvents && pe.id == p.upd.eventId;
      assert PriceStated(db, e);
    } else if p.Depositing? {
      assert e == DepositEvent(p.dep.row, e.occurredAt);
      assert RowStated(db, e);
    }
  }

  // --- Who may still publish what ---

  // An order is triggered, and its trigger published, as often as it is sent back; an execution event
  // is determined by the trade.  Every other event is published by one process, once.
  predicate OnceOnly(t: EventType) {
    t != OrderType(OrderEventKind.Triggered) && t != OrderType(Executed) && t != SubscriptionType
  }

  // The process is the one that may still publish the event of this type about this document.
  predicate Announces(p: Proc, t: EventType, id: Id) {
    match t
    case OrderType(kind) =>
      match kind {
        case Created => p.Creation? && (p.create.Inserted? || p.create.CreateAnnouncing?) && p.create.o == id
        case Cancelled => p.Cancellation? && p.cancel.CancelMarked? && p.orderId == id
        case Failed => AttachedTo(p, id)
        case _ => false
      }
    case DebitedType => p.Execution? && p.exec.Ledgered? && p.exec.row.id == id
    case DepositedType => p.Depositing? && p.dep.DepositLedgered? && p.dep.row.id == id
    case PriceUpdatedType => UpdateRecorded(p) && !p.upd.PriceAnnounced? && p.upd.eventId == id
    case PriceDecreasedType => UpdateRecorded(p) && p.upd.eventId == id
    case SubscriptionType => false
  }

  // A document nobody can have published about.
  predicate Fresh(db: Db, env: Env, t: EventType, id: Id) {
    if t == OrderType(OrderEventKind.Failed) then HasStatus(db, id, OrderStatus.Triggered)
    else if t == OrderType(OrderEventKind.Cancelled)
        then HasStatus(db, id, Pending) || HasStatus(db, id, OrderStatus.Triggered)
    else id == env.freshId
  }

  // The subject of an event, which its id names.
  predicate IsAbout(e: Event, t: EventType, id: Id) { e.eventId == CreateAnalyticsEventId(t, id) }

  lemma {:induction false} StatedAbout(db: Db, e: Event)
    requires Stated(db, e)
    ensures exists id :: IsAbout(e, TypeOf(e.payload), id)
  {
    if e.payload.OrderPayload? {
      assert IsAbout(e, TypeOf(e.payload), e.payload.orderId);
    } else if e.payload.WalletDeposited? || e.payload.WalletDebited? {
      var row :| row in db.ledger && e == if row.kind == DepositRow then DepositEvent(row, e.occurredAt)
          else DebitEvent(row, e.occurredAt);
      assert IsAbout(e, TypeOf(e.payload), row.id);
    } else if e.payload.StockPriceUpdated? || e.payload.StockPriceDecreased? {
      var pe :| pe in db.priceEvents && e.eventId == CreateAnalyticsEventId(TypeOf(e.payload), pe.id);
      assert IsAbout(e, TypeOf(e.payload), pe.id);
    }
  }

  // An event about something is of the type its id says.
  lemma {:induction false} AboutType(db: Db, e: Event, t: EventType, id: Id)
    requires Stated(db, e) && IsAbout(e, t, id)
    ensures TypeOf(e.payload) == t
    ensures forall x | IsAbout(e, t, x) :: x == id
  {
    StatedAbout(db, e);
    var x :| IsAbout(e, TypeOf(e.payload), x);
    EventIdInjective(t, id, TypeOf(e.payload), x);
    forall y | IsAbout(e, t, y) ensures y == id {
      EventIdInjective(t, id, t, y);
    }
  }

  lemma {:induction false} OrderAbout(db: Db, e: Event, kind: OrderEventKind, o: Id)
    requires Stated(db, e) && IsAbout(e, OrderType(kind), o)
    ensures e.payload.OrderPayload? && e.payload.kind == kind && e.payload.orderId == o
  {
    AboutType(db, e, OrderType(kind), o);
    if kind == Executed {
      var t :| t in db.trades && e == TradeEvent(t);
    }
    assert IsAbout(e, OrderType(kind), e.payload.orderId);
  }

  lemma {:induction false} RowAbout(db: Db, e: Event, t: EventType, id: Id)
    requires Stated(db, e) && IsAbout(e, t, id) && (t == DebitedType || t == DepositedType)
    ensures exists row :: row in db.ledger && row.id == id
  {
    AboutType(db, e, t, id);
    var row :| row in db.ledger && e == if row.kind == DepositRow then DepositEvent(row, e.occurredAt)
        else DebitEvent(row, e.occurredAt);
    assert IsAbout(e, t, row.id);
  }

  lemma {:induction false} PriceAbout(db: Db, e: Event, t: EventType, id: Id)
    requires Stated(db, e) && IsAbout(e, t, id) && (t == PriceUpdatedType || t == PriceDecreasedType)
    ensures PriceIdKnown(db, id)
  {
    AboutType(db, e, t, id);
    var pe :| pe in db.priceEvents && e.eventId == CreateAnalyticsEventId(TypeOf(e.payload), pe.id);
    assert IsAbout(e, t, pe.id);
  }

  lemma {:induction false} StaleSubject(db: Db, env: Env, e: Event, t: EventType, id: Id)
    requires Stated(db, e) && IdUnused(db, env.freshId) && OnceOnly(t) && Fresh(db, env, t, id)
    ensures !IsAbout(e, t, id)
  {
    if IsAbout(e, t, id) {
      match t {
        case OrderType(kind) => OrderAbout(db, e, kind, id);
        case DebitedType => RowAbout(db, e, t, id);
        case DepositedType => RowAbout(db, e, t, id);
        case PriceUpdatedType => PriceAbout(db, e, t, id);
        case PriceDecreasedType => PriceAbout(db, e, t, id);
      }
    }
  }

  // Nor is there a process that still has something to publish about it.
  lemma {:induction false} StaleAnnouncer(db: Db, env: Env, p: Proc, t: EventType, id: Id)
    requires ProcOk(db, p) && AnnouncerOk(db, p) && IdUnused(db, env.freshId) && Announces(p, t, id)
    ensures OnceOnly(t) && !Fresh(db, env, t, id)
  {
    if t == DebitedType {
      DebitsOfMember(db.ledger, p.exec.row, p.orderId);
    } else if t == OrderType(OrderEventKind.Failed) {
      AttachedStatus(db, p);
    }
  }

  // --- What a step does to announcers ---

  lemma {:induction false} ExecAnnouncer(db: Db, o: Id, pc: ExecPc, env: Env, t: EventType, id: Id)
    ensures var p' := Execution(o, ExecStep(db, o, pc, env).1);
      Announces(p', t, id) ==> Announces(Execution(o, pc), t, id) || Fresh(db, env, t, id)
  {
  }

  lemma {:induction false} PriceAnnouncer(db: Db, symbol: string, price: real, pc: PricePc, env: Env, t: EventType,
      id: Id)
    ensures var (db', pc', more) := PriceStep(db, symbol, price, pc, env);
      && (Announces(PriceUpdate(symbol, price, pc'), t, id) ==>
          Announces(PriceUpdate(symbol, price, pc), t, id) || Fresh(db, env, t, id))
      && (forall q | q in more :: !Announces(q, t, id))
  {
  }

  lemma {:induction false} OtherAnnouncer(db: Db, p: Proc, env: Env, t: EventType, id: Id)
    requires !p.Execution? && !p.PriceUpdate?
    ensures var (db', p', more) := ProcStep(db, p, env);
      && (Announces(p', t, id) ==> Announces(p, t, id) || Fresh(db, env, t, id))
      && (forall q | q in more :: !Announces(q, t, id))
  {
  }

  lemma {:induction false} StepAnnouncer(db: Db, p: Proc, env: Env, t: EventType, id: Id)
    ensures var (db', p', more) := ProcStep(db, p, env);
      && (Announces(p', t, id) ==> Announces(p, t, id) || Fresh(db, env, t, id))
      && (forall q | q in more :: !Announces(q, t, id))
  {
    match p {
      case Execution(o, pc) => ExecAnnouncer(db, o, pc, env, t, id);
      case PriceUpdate(symbol, price, pc) => PriceAnnouncer(db, symbol, price, pc, env, t, id);
      case _ => OtherAnnouncer(db, p, env, t, id);
    }
  }

  // The document a process publishes about.
  function SubjectOf(p: Proc): Id {
    match p
    case Execution(o, pc) => if pc.Ledgered? then pc.row.id else o
    case PriceUpdate(_, _, pc) => if UpdateRecorded(p) then pc.eventId else ""
    case Creation(_, _, _, _, _, pc) => if pc.CreateAnnouncing? then pc.o else ""
    case Cancellation(_, o, _) => o
    case Depositing(_, _, pc) => if pc.DepositLedgered? then pc.row.id else ""
    case _ => ""
  }

  ghost predicate AnnouncedNow(db: Db, p: Proc, env: Env)
    requires Publishes(p, env).Some?
  {
    var e := Publishes(p, env).value;
    var t := TypeOf(e.payload);
    IsAbout(e, t, SubjectOf(p)) && Announces(p, t, SubjectOf(p)) && !Announces(ProcStep(db, p, env).1, t, SubjectOf(p))
  }

  lemma {:induction false} ExecAnnouncesOnce(db: Db, p: Proc, env: Env)
    requires p.Execution? && Publishes(p, env).Some? && OnceOnly(TypeOf(Publishes(p, env).value.payload))
    ensures AnnouncedNow(db, p, env)
  {
  }

  lemma {:induction false} AnnouncedOnce(db: Db, p: Proc, env: Env)
    requires Publishes(p, env).Some? && OnceOnly(TypeOf(Publishes(p, env).value.payload))
    ensures AnnouncedNow(db, p, env)
  {
    if p.Execution? {
      ExecAnnouncesOnce(db, p, env);
    }
  }

  // --- The invariant ---

  function RowId(): LedgerRow -> string { (r: LedgerRow) => r.id }

  ghost predicate SoleAnnouncers(s: Sys) {
    forall i, j, t, id | 0 <= i < |s.procs| && 0 <= j < |s.procs| && Announces(s.procs[i], t, id)
        && Announces(s.procs[j], t, id) :: i == j
  }

  ghost predicate Unannounced(s: Sys) {
    forall e, i, t, id | e in s.db.events && 0 <= i < |s.procs| && Announces(s.procs[i], t, id) :: !IsAbout(e, t, id)
  }

  ghost predicate OnceLogged(events: seq<Event>) {
    forall i, j | 0 <= i < j < |events| && OnceOnly(TypeOf(events[i].payload)) :: events[i].eventId != events[j].eventId
  }

  ghost predicate LogInv(s: Sys) {
    && (forall i | 0 <= i < |s.procs| :: AnnouncerOk(s.db, s.procs[i]))
    && (forall e | e in s.db.events :: Stated(s.db, e))
    && DistinctKeys(s.db.ledger, RowId())
    && SoleAnnouncers(s)
    && Unannounced(s)
    && OnceLogged(s.db.events)
  }

  ghost predicate Advancing(s: Sys, i: nat, env: Env) {
    Inv(s) && LogInv(s) && i < |s.procs| && EnvOk(s.db, s.procs[i], env)
  }

  // After a step, an announcer of something is one of before, or the process that moved.
  lemma {:induction false} AnnouncersAfter(s: Sys, i: nat, env: Env, k: nat, t: EventType, id: Id)
    requires Advancing(s, i, env)
    requires var s' := Step(s, Advance(i, env)); k < |s'.procs| && Announces(s'.procs[k], t, id)
    ensures k < |s.procs| && OnceOnly(t) && (Announces(s.procs[k], t, id) || (k == i && Fresh(s.db, env, t, id)))
  {
    StepAnnouncer(s.db, s.procs[i], env, t, id);
    if k < |s.procs| && Announces(s.procs[k], t, id) {
      assert ProcOk(s.db, s.procs[k]) && AnnouncerOk(s.db, s.procs[k]);
      StaleAnnouncer(s.db, env, s.procs[k], t, id);
    } else {
      assert k == i;
      NewAnnouncerOnce(s.db, s.procs[i], env, t, id);
    }
  }

  lemma {:induction false} NewAnnouncerOnce(db: Db, p: Proc, env: Env, t: EventType, id: Id)
    requires Announces(ProcStep(db, p, env).1, t, id)
    ensures OnceOnly(t)
  {
  }

  lemma {:induction false} OneAnnouncerAfter(s: Sys, i: nat, env: Env, k: nat, j: nat, t: EventType, id: Id)
    requires Advancing(s, i, env)
    requires var s' := Step(s, Advance(i, env));
      k < |s'.procs| && j < |s'.procs| && Announces(s'.procs[k], t, id) && Announces(s'.procs[j], t, id)
    ensures k == j
  {
    AnnouncersAfter(s, i, env, k, t, id);
    AnnouncersAfter(s, i, env, j, t, id);
    if Announces(s.procs[k], t, id) {
      assert ProcOk(s.db, s.procs[k]) && AnnouncerOk(s.db, s.procs[k]);
      StaleAnnouncer(s.db, env, s.procs[k], t, id);
    } else if Announces(s.procs[j], t, id) {
      assert ProcOk(s.db, s.procs[j]) && AnnouncerOk(s.db, s.procs[j]);
      StaleAnnouncer(s.db, env, s.procs[j], t, id);
    }
  }

  lemma {:induction false} AdvanceKeepsSole(s: Sys, i: nat, env: Env)
    requires Advancing(s, i, env)
    ensures SoleAnnouncers(Step(s, Advance(i, env)))
  {
    var s' := Step(s, Advance(i, env));
    forall k, j, t, id | 0 <= k < |s'.procs| && 0 <= j < |s'.procs| && Announces(s'.procs[k], t, id)
        && Announces(s'.procs[j], t, id)
      ensures k == j
    {
      OneAnnouncerAfter(s, i, env, k, j, t, id);
    }
  }

  lemma {:induction false} OldEventUnannounced(s: Sys, i: nat, env: Env, e: Event, k: nat, t: EventType, id: Id)
    requires Advancing(s, i, env) && e in s.db.events
    requires var s' := Step(s, Advance(i, env)); k < |s'.procs| && Announces(s'.procs[k], t, id)
    ensures !IsAbout(e, t, id)
  {
    AnnouncersAfter(s, i, env, k, t, id);
    if !Announces(s.procs[k], t, id) {
      StaleSubject(s.db, env, e, t, id);
    }
  }

  lemma {:induction false} NewEventUnannounced(s: Sys, i: nat, env: Env, k: nat, t: EventType, id: Id)
    requires Advancing(s, i, env) && Publishes(s.procs[i], env).Some?
    requires Stated(s.db, Publishes(s.procs[i], env).value)
    requires var s' := Step(s, Advance(i, env)); k < |s'.procs| && Announces(s'.procs[k], t, id)
    ensures !IsAbout(Publishes(s.procs[i], env).value, t, id)
  {
    var e := Publishes(s.procs[i], env).value;
    AnnouncersAfter(s, i, env, k, t, id);
    if IsAbout(e, t, id) {
      AboutType(s.db, e, t, id);
      AnnouncedOnce(s.db, s.procs[i], env);
      assert false;
    }
  }

  lemma {:induction false} NewEventIdUnused(s: Sys, i: nat, env: Env, f: Event)
    requires Advancing(s, i, env) && Publishes(s.procs[i], env).Some? && f in s.db.events
    requires Stated(s.db, Publishes(s.procs[i], env).value) && OnceOnly(TypeOf(f.payload))
    ensures f.eventId != Publishes(s.procs[i], env).value.eventId
  {
    var e := Publishes(s.procs[i], env).value;
    if f.eventId == e.eventId {
      StatedAbout(s.db, f);
      var x :| IsAbout(f, TypeOf(f.payload), x);
      AboutType(s.db, e, TypeOf(f.payload), x);
      AnnouncedOnce(s.db, s.procs[i], env);
      assert false;
    }
  }

  lemma {:induction false} ExecStepRow(db: Db, o: Id, pc: ExecPc, env: Env)
    ensures var db' := ExecStep(db, o, pc, env).0;
      db'.ledger == db.ledger || (|db'.ledger| == |db.ledger| + 1 && db'.ledger[|db.ledger|].id == env.freshId)
  {
  }

  lemma {:induction false} OtherStepRow(db: Db, p: Proc, env: Env)
    requires !p.Execution?
    ensures var db' := ProcStep(db, p, env).0;
      db'.ledger == db.ledger || (|db'.ledger| == |db.ledger| + 1 && db'.ledger[|db.ledger|].id == env.freshId)
  {
  }

  lemma {:induction false} DistinctWithNew(ledger: seq<LedgerRow>, ledger': seq<LedgerRow>, id: Id)
    requires DistinctKeys(ledger, RowId()) && (forall r | r in ledger :: r.id != id) && ledger <= ledger'
    requires ledger' == ledger || (|ledger'| == |ledger| + 1 && ledger'[|ledger|].id == id)
    ensures DistinctKeys(ledger', RowId())
  {
    assert forall j | 0 <= j < |ledger| :: ledger'[j] == ledger[j] && ledger[j] in ledger;
  }

  lemma {:induction false} AdvanceKeepsRowIds(db: Db, p: Proc, env: Env)
    requires DistinctKeys(db.ledger, RowId()) && IdUnused(db, env.freshId)
    ensures DistinctKeys(ProcStep(db, p, env).0.ledger, RowId())
  {
    StepKeeps(db, p, env);
    if p.Execution? {
      ExecStepRow(db, p.orderId, p.exec, env);
    } else {
      OtherStepRow(db, p, env);
    }
    DistinctWithNew(db.ledger, ProcStep(db, p, env).0.ledger, env.freshId);
  }

  lemma {:induction false} PublishedStated(s: Sys, i: nat, env: Env)
    requires Advancing(s, i, env) && Publishes(s.procs[i], env).Some?
    ensures Stated(s.db, Publishes(s.procs[i], env).value)
  {
    var p := s.procs[i];
    assert ProcOk(s.db, p) && AnnouncerOk(s.db, p);
    if p.Execution? {
      ExecStates(s.db, p.orderId, p.exec, env);
    } else {
      OtherStates(s.db, p, env);
    }
  }

  lemma {:induction false} AdvanceKeepsStated(s: Sys, i: nat, env: Env)
    requires Advancing(s, i, env)
    ensures var s' := Step(s, Advance(i, env)); forall e | e in s'.db.events :: Stated(s'.db, e)
  {
    var db' := ProcStep(s.db, s.procs[i], env).0;
    StepPublishes(s.db, s.procs[i], env);
    StepAdvances(s, i, env);
    if Publishes(s.procs[i], env).Some? {
      PublishedStated(s, i, env);
    }
    forall e | e in db'.events ensures Stated(db', e) {
      StatedKept(s.db, db', e);
    }
  }

  lemma {:induction false} AdvanceKeepsAnnouncers(s: Sys, i: nat, env: Env)
    requires Advancing(s, i, env)
    ensures var s' := Step(s, Advance(i, env)); forall k | 0 <= k < |s'.procs| :: AnnouncerOk(s'.db, s'.procs[k])
  {
    var (db', p', more) := ProcStep(s.db, s.procs[i], env);
    var procs' := s.procs[i := p'] + more;
    StepAnnounces(s.db, s.procs[i], env);
    StepAdvances(s, i, env);
    forall k | 0 <= k < |procs'| ensures AnnouncerOk(db', procs'[k]) {
      if k < |s.procs| && k != i {
        AnnouncerKept(s.db, db', s.procs[k]);
      }
    }
  }

  lemma {:induction false} AdvanceKeepsUnannounced(s: Sys, i: nat, env: Env)
    requires Advancing(s, i, env)
    ensures Unannounced(Step(s, Advance(i, env)))
  {
    var s' := Step(s, Advance(i, env));
    StepPublishes(s.db, s.procs[i], env);
    forall e, k, t, id | e in s'.db.events && 0 <= k < |s'.procs| && Announces(s'.procs[k], t, id)
      ensures !IsAbout(e, t, id)
    {
      if e in s.db.events {
        OldEventUnannounced(s, i, env, e, k, t, id);
      } else {
        PublishedStated(s, i, env);
        NewEventUnannounced(s, i, env, k, t, id);
      }
    }
  }

  lemma {:induction false} AdvanceKeepsOnceLogged(s: Sys, i: nat, env: Env)
    requires Advancing(s, i, env)
    ensures OnceLogged(Step(s, Advance(i, env)).db.events)
  {
    var events, events' := s.db.events, Step(s, Advance(i, env)).db.events;
    StepPublishes(s.db, s.procs[i], env);
    forall k, j | 0 <= k < j < |events'| && OnceOnly(TypeOf(events'[k].payload))
      ensures events'[k].eventId != events'[j].eventId
    {
      if j == |events| {
        PublishedStated(s, i, env);
        NewEventIdUnused(s, i, env, events[k]);
      }
    }
  }

  lemma {:induction false} StepKeepsLog(s: Sys, a: Action)
    requires Inv(s) && LogInv(s)
    ensures LogInv(Step(s, a))
  {
    match a {
      case Spawn(p) =>
        if CanStart(p) {
          SpawnKeepsLog(s, p);
        }
      case Advance(i, env) =>
        if i < |s.procs| && EnvOk(s.db, s.procs[i], env) {
          AdvanceKeepsAnnouncers(s, i, env);
          AdvanceKeepsStated(s, i, env);
          AdvanceKeepsRowIds(s.db, s.procs[i], env);
          AdvanceKeepsSole(s, i, env);
          AdvanceKeepsUnannounced(s, i, env);
          AdvanceKeepsOnceLogged(s, i, env);
        }
    }
  }

  lemma {:induction false} SpawnKeepsLog(s: Sys, p: Proc)
    requires LogInv(s) && CanStart(p)
    ensures LogInv(s.(procs := s.procs + [p]))
  {
    assert forall t, id :: !Announces(p, t, id);
  }

  lemma {:induction false} RunKeepsLog(s0: Sys, acts: seq<Action>)
    requires Init(s0)
    ensures LogInv(Run(s0, acts))
  {
    if acts != [] {
      RunKeepsLog(s0, acts[..|acts| - 1]);
      RunKeepsInv(s0, acts[..|acts| - 1]);
      StepKeepsLog(Run(s0, acts[..|acts| - 1]), acts[|acts| - 1]);
    }
  }

  // --- An event id stands for one user and one payload ---

  lemma {:induction false} SameTrade(db: Db, e: Event, f: Event)
    requires DistinctKeys(db.trades, PositionSums.TradeKey) && Stated(db, e) && Stated(db, f) && e.eventId == f.eventId
    requires TypeOf(e.payload) == OrderType(Executed) == TypeOf(f.payload)
    ensures e == f
  {
    var t :| t in db.trades && e == TradeEvent(t);
    var u :| u in db.trades && f == TradeEvent(u);
    EventIdInjective(OrderType(Executed), t.buyOrderId, OrderType(Executed), u.buyOrderId);
    var j :| 0 <= j < |db.trades| && db.trades[j] == t;
    var k :| 0 <= k < |db.trades| && db.trades[k] == u;
    assert PositionSums.TradeKey(db.trades[j]) == PositionSums.TradeKey(db.trades[k]);
    assert j == k;
  }

  lemma {:induction false} SameTermsStated(db: Db, e: Event, f: Event)
    requires e.payload.OrderPayload? && f.payload.OrderPayload? && TermsStated(db, e) && TermsStated(db, f)
        && e.eventId == f.eventId
    ensures e.userId == f.userId && e.payload == f.payload
  {
    EventIdInjective(TypeOf(e.payload), e.payload.orderId, TypeOf(f.payload), f.payload.orderId);
  }

  predicate IsTrigger(e: Event) { TypeOf(e.payload) == OrderType(OrderEventKind.Triggered) }

  // However the calls interleave, two published events with one id are the same event, except that
  // an order sent back and triggered again repeats its trigger with another time.
  lemma {:induction false} OneIdOneEvent(s0: Sys, acts: seq<Action>, e: Event, f: Event)
    requires Init(s0)
    requires var log := Run(s0, acts).db.events; e in log && f in log && e.eventId == f.eventId
    ensures e.userId == f.userId && e.payload == f.payload
    ensures e == f || IsTrigger(e)
  {
    var db := Run(s0, acts).db;
    RunKeepsLog(s0, acts);
    StatedAbout(db, e);
    var x :| IsAbout(e, TypeOf(e.payload), x);
    AboutType(db, f, TypeOf(e.payload), x);
    var j :| 0 <= j < |db.events| && db.events[j] == e;
    var k :| 0 <= k < |db.events| && db.events[k] == f;
    if OnceOnly(TypeOf(e.payload)) {
      assert j == k;
    } else if TypeOf(e.payload) == OrderType(Executed) {
      PositionSums.TradesDistinct(s0, acts);
      SameTrade(db, e, f);
    } else {
      SameTermsStated(db, e, f);
    }
  }
}
