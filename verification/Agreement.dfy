/**
 The analytics against the primary store, over every interleaving of the trading services and every
 delivery of what they published: with duplicates, in any order, and possibly incomplete.
 */
module Agreement {
  import opened Wrappers
  import opened AnalyticsEvents
  import opened Domain
  import opened Protocol
  import opened Ownership
  import OrderSafety
  import PositionSums
  import opened Conservation
  import opened EventLog
  import opened Buckets
  import opened Metrics
  import opened Sums
  import opened Snapshots
  import opened Consumer

  const LIFETIME: Bucket := Bucket(Period.Lifetime, 0, LIFETIME_END)

  // Only what was published is delivered.
  predicate DeliveredFrom(ds: seq<Event>, log: seq<Event>) { forall e | e in ds :: e in log }

  // What the consumer's snapshot says after the deliveries.
  ghost function Reported(ds: seq<Event>, who: Option<Id>, b: Bucket, c: Counter): real {
    Figure(FirstDeliveries(ds), who, b, c)
  }

  // The figures are the fields of the metric record.
  lemma {:induction false} ReportedFields(ds: seq<Event>, who: Option<Id>, b: Bucket)
    ensures var m := SnapshotAfter(FirstDeliveries(ds), who, b);
      && Reported(ds, who, b, TradeCount) == m.executedTradeCount as real
      && Reported(ds, who, b, Quantity) == m.totalQuantityBought && Reported(ds, who, b, Invested) == m.totalInvested
      && Reported(ds, who, b, Deposits) == m.walletDeposits && Reported(ds, who, b, Spend) == m.walletSpend
      && Reported(ds, who, b, PriceUpdates) == m.priceUpdateCount as real
      && Reported(ds, who, b, PriceDecreases) == m.priceDecreaseCount as real
      && forall status :: Reported(ds, who, b, OrderCount(status))
                          == if status in m.orderCounts then m.orderCounts[status] as real else 0.0
  {
  }

  // --- Any two complete deliveries report the same ---

  lemma {:induction false} LifetimeEffects(s0: Sys, acts: seq<Action>, ds: seq<Event>, ds': seq<Event>)
    requires Init(s0)
    requires var log := Run(s0, acts).db.events; DeliveredFrom(ds, log) && DeliveredFrom(ds', log)
    ensures SameEffect(ds, ds', LIFETIME)
  {
    forall e, f | e in ds && f in ds' && e.eventId == f.eventId
      ensures SameEvent(e, f) && (InBucket(e.occurredAt, LIFETIME) <==> InBucket(f.occurredAt, LIFETIME))
    {
      OneIdOneEvent(s0, acts, e, f);
    }
  }

  lemma {:induction false} DeliveriesReportTheSame(s0: Sys, acts: seq<Action>, ds: seq<Event>, ds': seq<Event>,
      who: Option<Id>)
    requires Init(s0) && who != Some("") && Ids(ds) == Ids(ds')
    requires var log := Run(s0, acts).db.events; DeliveredFrom(ds, log) && DeliveredFrom(ds', log)
    ensures CountersAgree(SnapshotAfter(FirstDeliveries(ds), who, LIFETIME),
        SnapshotAfter(FirstDeliveries(ds'), who, LIFETIME))
  {
    LifetimeEffects(s0, acts, ds, ds');
    OrderOfDeliveryDoesNotMatter(ds, ds', who, LIFETIME);
  }

  lemma {:induction false} SharesOfOneId(s0: Sys, acts: seq<Action>, e: Event, f: Event, who: Option<Id>, b: Bucket,
      c: Counter)
    requires Init(s0) && c != OrderCount(OrderStatusName(OrderEventKind.Triggered))
    requires var log := Run(s0, acts).db.events; e in log && f in log && e.eventId == f.eventId
    ensures Share(who, b, c)(e) == Share(who, b, c)(f)
  {
    OneIdOneEvent(s0, acts, e, f);
    RunKeepsLog(s0, acts);
    if e != f {
      TriggerContributes(Run(s0, acts).db, e, c);
    }
  }

  lemma {:induction false} TriggerContributes(db: Db, e: Event, c: Counter)
    requires Stated(db, e) && IsTrigger(e) && c != OrderCount(OrderStatusName(OrderEventKind.Triggered))
    ensures Contribution(e.payload, c) == 0.0
  {
  }

  // In every bucket, and for every figure but the count of triggers.
  lemma {:induction false} BucketsReportTheSame(
      s0: Sys, acts: seq<Action>, ds: seq<Event>, ds': seq<Event>, who: Option<Id>, b: Bucket, c: Counter)
    requires Init(s0) && who != Some("") && Ids(ds) == Ids(ds')
        && c != OrderCount(OrderStatusName(OrderEventKind.Triggered))
    requires var log := Run(s0, acts).db.events; DeliveredFrom(ds, log) && DeliveredFrom(ds', log)
    ensures Reported(ds, who, b, c) == Reported(ds', who, b, c)
  {
    var xs, ys := FirstDeliveries(ds), FirstDeliveries(ds');
    FirstDeliveriesOnce(ds);
    FirstDeliveriesOnce(ds');
    FigureIsSum(xs, who, b, c);
    FigureIsSum(ys, who, b, c);
    forall x, y | x in xs && y in ys && IdOf()(x) == IdOf()(y) ensures Share(who, b, c)(x) == Share(who, b, c)(y) {
      SharesOfOneId(s0, acts, x, y, who, b, c);
    }
    SumByKeys(xs, ys, IdOf(), Share(who, b, c));
  }

  lemma {:induction false} BucketAveragesAgree(
      s0: Sys, acts: seq<Action>, ds: seq<Event>, ds': seq<Event>, who: Option<Id>, b: Bucket)
    requires Init(s0) && who != Some("") && Ids(ds) == Ids(ds')
    requires var log := Run(s0, acts).db.events; DeliveredFrom(ds, log) && DeliveredFrom(ds', log)
    ensures SnapshotAfter(FirstDeliveries(ds), who, b).averageExecutionPrice
         == SnapshotAfter(FirstDeliveries(ds'), who, b).averageExecutionPrice
  {
    BucketsReportTheSame(s0, acts, ds, ds', who, b, Quantity);
    BucketsReportTheSame(s0, acts, ds, ds', who, b, Invested);
    AveragesAgree(FirstDeliveries(ds), FirstDeliveries(ds'), who, b);
  }

  lemma {:induction false} PricesIncluded(
      s0: Sys, acts: seq<Action>, xs: seq<Event>, ys: seq<Event>, who: Option<Id>, b: Bucket, p: Payload)
    requires Init(s0) && Ids(xs) <= Ids(ys) && IsPrice(p) && p in PayloadsFor(xs, who, b)
    requires var log := Run(s0, acts).db.events; DeliveredFrom(xs, log) && DeliveredFrom(ys, log)
    ensures p in PayloadsFor(ys, who, b)
  {
    PayloadMember(xs, who, b, p);
    PayloadMember(ys, who, b, p);
    var e :| e in xs && Selected(e, who, b) && e.payload == p;
    assert IdOf()(e) in KeysOf(xs, IdOf());
    IdPresent(ys, e.eventId);
    var f :| f in ys && f.eventId == e.eventId;
    OneIdOneEvent(s0, acts, e, f);
  }

  // The prices two complete deliveries bring into a bucket are the same.
  lemma {:induction false} BucketPricesAgree(
      s0: Sys, acts: seq<Action>, ds: seq<Event>, ds': seq<Event>, who: Option<Id>, b: Bucket)
    requires Init(s0) && Ids(ds) == Ids(ds')
    requires var log := Run(s0, acts).db.events; DeliveredFrom(ds, log) && DeliveredFrom(ds', log)
    ensures SamePrices(PayloadsFor(FirstDeliveries(ds), who, b), PayloadsFor(FirstDeliveries(ds'), who, b))
  {
    var xs, ys := FirstDeliveries(ds), FirstDeliveries(ds');
    FirstDeliveriesOnce(ds);
    FirstDeliveriesOnce(ds');
    forall p | IsPrice(p) ensures p in PayloadsFor(xs, who, b) <==> p in PayloadsFor(ys, who, b) {
      if p in PayloadsFor(xs, who, b) {
        PricesIncluded(s0, acts, xs, ys, who, b, p);
      }
      if p in PayloadsFor(ys, who, b) {
        PricesIncluded(s0, acts, ys, xs, who, b, p);
      }
    }
  }

  // --- Executions: a snapshot counts the trades whose event was delivered ---

  predicate OfTrades(c: Counter) { c == TradeCount || c == Quantity || c == Invested }

  function ExecutedId(): Trade -> string {
    (t: Trade) => CreateAnalyticsEventId(OrderType(Executed), t.buyOrderId)
  }

  // The trade counts towards this user's, or everybody's, figures of the bucket.
  predicate Counted(t: Trade, who: Option<Id>, b: Bucket) {
    (who.None? || who == Some(t.userId)) && InBucket(t.executedAt, b)
  }

  function TradeFigure(who: Option<Id>, b: Bucket, c: Counter): Trade -> real {
    (t: Trade) =>
      if Counted(t, who, b) then
        if c == TradeCount then 1.0 else if c == Quantity then t.quantity else t.totalCost
      else 0.0
  }

  lemma {:induction false} TradeEventShare(t: Trade, who: Option<Id>, b: Bucket, c: Counter)
    requires who != Some("") && OfTrades(c)
    ensures Share(who, b, c)(TradeEvent(t)) == TradeFigure(who, b, c)(t)
  {
  }

  lemma {:induction false} ExecutedIdsDistinct(trades: seq<Trade>)
    requires DistinctKeys(trades, PositionSums.TradeKey)
    ensures DistinctKeys(trades, ExecutedId())
  {
    forall i, j | 0 <= i < j < |trades| ensures ExecutedId()(trades[i]) != ExecutedId()(trades[j]) {
      assert PositionSums.TradeKey(trades[i]) != PositionSums.TradeKey(trades[j]);
      if ExecutedId()(trades[i]) == ExecutedId()(trades[j]) {
        EventIdInjective(OrderType(Executed), trades[i].buyOrderId, OrderType(Executed), trades[j].buyOrderId);
      }
    }
  }

  lemma {:induction false} TradeOfEvent(db: Db, e: Event, t: Trade)
    requires DistinctKeys(db.trades, PositionSums.TradeKey) && Stated(db, e) && t in db.trades
        && e.eventId == ExecutedId()(t)
    ensures e == TradeEvent(t)
  {
    AboutType(db, e, OrderType(Executed), t.buyOrderId);
    var u :| u in db.trades && e == TradeEvent(u);
    assert IsAbout(e, OrderType(Executed), u.buyOrderId);
    var j :| 0 <= j < |db.trades| && db.trades[j] == t;
    var k :| 0 <= k < |db.trades| && db.trades[k] == u;
    assert PositionSums.TradeKey(db.trades[j]) == PositionSums.TradeKey(db.trades[k]);
    assert j == k;
  }

  lemma {:induction false} CountedEventHasTrade(db: Db, e: Event, who: Option<Id>, b: Bucket, c: Counter)
    requires Stated(db, e) && OfTrades(c) && Share(who, b, c)(e) != 0.0
    ensures exists t :: t in db.trades && ExecutedId()(t) == e.eventId
  {
    assert e.payload.OrderPayload? && e.payload.kind == Executed;
    var t :| t in db.trades && e == TradeEvent(t);
    assert ExecutedId()(t) == e.eventId;
  }

  lemma {:induction false} ReportedTrades(db: Db, ds: seq<Event>, who: Option<Id>, b: Bucket, c: Counter)
    requires who != Some("") && OfTrades(c) && DistinctKeys(db.trades, PositionSums.TradeKey)
    requires forall e | e in ds :: Stated(db, e)
    ensures Reported(ds, who, b, c) == SumIn(db.trades, ExecutedId(), TradeFigure(who, b, c), Ids(ds))
  {
    var xs := FirstDeliveries(ds);
    FirstDeliveriesOnce(ds);
    FigureIsSum(xs, who, b, c);
    ExecutedIdsDistinct(db.trades);
    forall x, t | x in xs && t in db.trades && IdOf()(x) == ExecutedId()(t)
      ensures Share(who, b, c)(x) == TradeFigure(who, b, c)(t)
    {
      TradeOfEvent(db, x, t);
      TradeEventShare(t, who, b, c);
    }
    forall x | x in xs && Share(who, b, c)(x) != 0.0 ensures exists t :: t in db.trades && ExecutedId()(t) == IdOf()(x)
    {
      CountedEventHasTrade(db, x, who, b, c);
    }
    SumMatched(xs, IdOf(), Share(who, b, c), db.trades, ExecutedId(), TradeFigure(who, b, c));
  }

  lemma {:induction false} TradeFigurePositive(s0: Sys, acts: seq<Action>, t: Trade, who: Option<Id>, b: Bucket,
      c: Counter)
    requires Init(s0) && t in Run(s0, acts).db.trades && OfTrades(c)
    ensures TradeFigure(who, b, c)(t) >= 0.0
    ensures TradeFigure(who, b, c)(t) == 0.0 <==> !Counted(t, who, b) || (c == Invested && t.totalCost == 0.0)
  {
    var db := Run(s0, acts).db;
    OrderSafety.TradesRespectTargets(s0, acts, t);
    RunKeepsInv(s0, acts);
    assert OrderOk(db, t.buyOrderId);
  }

  // Whatever was lost on the way, no figure about executions exceeds the store, in any bucket.
  lemma {:induction false} ExecutionsNeverOverstated(s0: Sys, acts: seq<Action>, ds: seq<Event>, who: Option<Id>,
      b: Bucket, c: Counter)
    requires Init(s0) && who != Some("") && OfTrades(c) && DeliveredFrom(ds, Run(s0, acts).db.events)
    ensures var trades := Run(s0, acts).db.trades;
      && Reported(ds, who, b, c) == SumIn(trades, ExecutedId(), TradeFigure(who, b, c), Ids(ds))
      && Reported(ds, who, b, c) <= SumBy(trades, TradeFigure(who, b, c))
  {
    var db := Run(s0, acts).db;
    RunKeepsLog(s0, acts);
    PositionSums.TradesDistinct(s0, acts);
    ReportedTrades(db, ds, who, b, c);
    forall t | t in db.trades ensures TradeFigure(who, b, c)(t) >= 0.0 {
      TradeFigurePositive(s0, acts, t, who, b, c);
    }
    SumInBounded(db.trades, ExecutedId(), TradeFigure(who, b, c), Ids(ds));
  }

  // --- The wallet: a snapshot counts the ledger rows whose event was delivered ---

  function RowType(kind: LedgerKind): EventType {
    if kind == DepositRow then DepositedType else DebitedType
  }

  function RowEventId(): LedgerRow -> string {
    (r: LedgerRow) => CreateAnalyticsEventId(RowType(r.kind), r.id)
  }

  function RowCounter(kind: LedgerKind): Counter {
    if kind == DepositRow then Deposits else Spend
  }

  function RowFigure(who: Option<Id>, kind: LedgerKind): LedgerRow -> real {
    (r: LedgerRow) => if r.kind == kind && (who.None? || who == Some(r.userId)) then r.amount else 0.0
  }

  function RowEvent(r: LedgerRow, at: int): Event {
    if r.kind == DepositRow then DepositEvent(r, at) else DebitEvent(r, at)
  }

  lemma {:induction false} RowEventShare(r: LedgerRow, at: int, who: Option<Id>, kind: LedgerKind)
    requires who != Some("")
    ensures Share(who, LIFETIME, RowCounter(kind))(RowEvent(r, at)) == RowFigure(who, kind)(r)
  {
  }

  lemma {:induction false} RowEventIdsDistinct(ledger: seq<LedgerRow>)
    requires DistinctKeys(ledger, RowId())
    ensures DistinctKeys(ledger, RowEventId())
  {
    forall i, j | 0 <= i < j < |ledger| ensures RowEventId()(ledger[i]) != RowEventId()(ledger[j]) {
      assert RowId()(ledger[i]) != RowId()(ledger[j]);
      if RowEventId()(ledger[i]) == RowEventId()(ledger[j]) {
        EventIdInjective(RowType(ledger[i].kind), ledger[i].id, RowType(ledger[j].kind), ledger[j].id);
      }
    }
  }

  lemma {:induction false} RowOfEvent(db: Db, e: Event, r: LedgerRow)
    requires DistinctKeys(db.ledger, RowId()) && Stated(db, e) && r in db.ledger && e.eventId == RowEventId()(r)
    ensures e == RowEvent(r, e.occurredAt)
  {
    AboutType(db, e, RowType(r.kind), r.id);
    var q :| q in db.ledger && e == if q.kind == DepositRow then DepositEvent(q, e.occurredAt)
        else DebitEvent(q, e.occurredAt);
    assert IsAbout(e, RowType(r.kind), q.id);
    var j :| 0 <= j < |db.ledger| && db.ledger[j] == r;
    var k :| 0 <= k < |db.ledger| && db.ledger[k] == q;
    assert RowId()(db.ledger[j]) == RowId()(db.ledger[k]);
    assert j == k;
  }

  lemma {:induction false} CountedEventHasRow(db: Db, e: Event, who: Option<Id>, kind: LedgerKind)
    requires Stated(db, e) && Share(who, LIFETIME, RowCounter(kind))(e) != 0.0
    ensures exists r :: r in db.ledger && RowEventId()(r) == e.eventId
  {
    assert e.payload.WalletDeposited? || e.payload.WalletDebited?;
    var r :| r in db.ledger && e == if r.kind == DepositRow then DepositEvent(r, e.occurredAt)
        else DebitEvent(r, e.occurredAt);
    assert RowEventId()(r) == e.eventId;
  }

  lemma {:induction false} ReportedRows(db: Db, ds: seq<Event>, who: Option<Id>, kind: LedgerKind)
    requires who != Some("") && DistinctKeys(db.ledger, RowId())
    requires forall e | e in ds :: Stated(db, e)
    ensures Reported(ds, who, LIFETIME, RowCounter(kind))
        == SumIn(db.ledger, RowEventId(), RowFigure(who, kind), Ids(ds))
  {
    var xs, c := FirstDeliveries(ds), RowCounter(kind);
    FirstDeliveriesOnce(ds);
    FigureIsSum(xs, who, LIFETIME, c);
    RowEventIdsDistinct(db.ledger);
    forall x, r | x in xs && r in db.ledger && IdOf()(x) == RowEventId()(r)
      ensures Share(who, LIFETIME, c)(x) == RowFigure(who, kind)(r)
    {
      RowOfEvent(db, x, r);
      RowEventShare(r, x.occurredAt, who, kind);
    }
    forall x | x in xs && Share(who, LIFETIME, c)(x) != 0.0
      ensures exists r :: r in db.ledger && RowEventId()(r) == IdOf()(x)
    {
      CountedEventHasRow(db, x, who, kind);
    }
    SumMatched(xs, IdOf(), Share(who, LIFETIME, c), db.ledger, RowEventId(), RowFigure(who, kind));
  }
}
