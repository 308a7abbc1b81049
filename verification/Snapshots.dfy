/**
 The analytics snapshots: one metric record per user and bucket, one per bucket for the admin, each
 event folded into the five buckets it falls in.  A snapshot is the fold of the events selected for
 it, and the additive figures roll up along the calendar exactly.
 */
module Snapshots {
  import opened Wrappers
  import opened AnalyticsEvents
  import opened EcmaTime
  import opened Buckets
  import opened Metrics
  import opened Sums

  const PERIODS: seq<Period> := [Daily, Weekly, Monthly, Yearly, Lifetime]

  datatype Stores = Stores(users: map<(Id, Bucket), Metrics>, admin: map<Bucket, Metrics>)

  // The snapshot, or the default one if none was written.
  function SnapOr<K>(store: map<K, Metrics>, k: K): Metrics {
    if k in store then store[k] else DEFAULT
  }

  predicate HasUser(e: Event) { e.userId.Some? && e.userId.value != "" }

  function UpdateAll<K>(store: map<K, Metrics>, keys: seq<K>, p: Payload, scope: Scope): map<K, Metrics> {
    if keys == [] then store
    else
      var before := UpdateAll(store, keys[..|keys| - 1], p, scope);
      var k := keys[|keys| - 1];
      before[k := MetricsAfter(SnapOr(before, k), p, scope)]
  }

  function UserKey(u: Id, t: int, p: Period): (Id, Bucket) { (u, BucketFor(t, p)) }

  function UserKeys(u: Id, t: int): seq<(Id, Bucket)> {
    seq(|PERIODS|, i requires 0 <= i < |PERIODS| => UserKey(u, t, PERIODS[i]))
  }

  function AdminKeys(t: int): seq<Bucket> { seq(|PERIODS|, i requires 0 <= i < |PERIODS| => BucketFor(t, PERIODS[i])) }

  function AfterEvent(st: Stores, e: Event): Stores {
    Stores(if HasUser(e) then UpdateAll(st.users, UserKeys(e.userId.value, e.occurredAt), e.payload, UserScope)
        else st.users,
           UpdateAll(st.admin, AdminKeys(e.occurredAt), e.payload, AdminScope))
  }

  function StoresOf(events: seq<Event>): Stores {
    if events == [] then Stores(map[], map[])
    else AfterEvent(StoresOf(events[..|events| - 1]), events[|events| - 1])
  }

  // --- The service ---

  class AnalyticsService {
    var users: map<(Id, Bucket), Metrics>
    var admin: map<Bucket, Metrics>

    function Contents(): Stores reads this { Stores(users, admin) }

    constructor ()
      ensures Contents() == Stores(map[], map[])
    {
      users, admin := map[], map[];
    }

    // Copies the record, updates the copy step by step, and returns it.
    method ApplyEventToMetrics(current: Metrics, p: Payload, scope: Scope) returns (metrics: Metrics)
      ensures metrics == MetricsAfter(current, p, scope)
      ensures metrics.orderCounts ==
        if !p.OrderPayload? then current.orderCounts
        else
          var status := if p.status.Some? then p.status.value else TypeName(OrderType(p.kind))[6..];
          current.orderCounts[status := 1 + if status in current.orderCounts then current.orderCounts[status] else 0]
      ensures var executed := p.OrderPayload? && p.kind == Executed;
        && metrics.executedTradeCount == current.executedTradeCount + (if executed then 1 else 0)
        && metrics.totalQuantityBought
           == current.totalQuantityBought + (if executed && p.quantity.Some? then p.quantity.value else 0.0)
        && metrics.totalInvested
           == current.totalInvested + (if executed && p.totalCost.Some? then p.totalCost.value else 0.0)
        && metrics.averageExecutionPrice
           == if !executed then current.averageExecutionPrice
              else if metrics.totalQuantityBought == 0.0 then 0.0
              else metrics.totalInvested / metrics.totalQuantityBought
      ensures metrics.walletDeposits == current.walletDeposits + if p.WalletDeposited? then p.amount else 0.0
      ensures metrics.walletSpend == current.walletSpend + if p.WalletDebited? then p.amount else 0.0
      ensures metrics.priceUpdateCount == current.priceUpdateCount + if p.StockPriceUpdated? then 1 else 0
      ensures metrics.priceDecreaseCount == current.priceDecreaseCount + if p.StockPriceDecreased? then 1 else 0
      ensures !p.StockPriceUpdated? && !p.StockPriceDecreased? ==> metrics.stockPrices == current.stockPrices
      ensures !p.StockSubscriptionChanged? ==>
        metrics.subscribedStockIds == current.subscribedStockIds
            && metrics.subscriptionCount == current.subscriptionCount
      ensures p.StockSubscriptionChanged? ==>
        && metrics.subscriptionCount == |metrics.subscribedStockIds|
        && (scope == UserScope ==> metrics.subscribedStockIds == p.stockIds)
        && (scope == AdminScope ==>
              forall x :: x in metrics.subscribedStockIds <==> x in current.subscribedStockIds || x in p.stockIds)
    {
      if p.OrderPayload? {
        SuffixOfTypeName(p.kind);
      } else if p.StockSubscriptionChanged? && scope == AdminScope {
        AddAllIsUnion([], current.subscribedStockIds);
        AddAllIsUnion(AddAll([], current.subscribedStockIds), p.stockIds);
      }
      metrics := current;
      if p.OrderPayload? {
        var status := p.status.GetOr(TypeSuffix(p.kind));
        metrics := metrics.(orderCounts := metrics.orderCounts[status := CountOf(metrics.orderCounts, status) + 1]);
      }
      if p.OrderPayload? && p.kind == Executed {
        metrics := metrics.(executedTradeCount := metrics.executedTradeCount + 1);
        metrics := metrics.(totalQuantityBought := metrics.totalQuantityBought + p.quantity.GetOr(0.0));
        metrics := metrics.(totalInvested := metrics.totalInvested + p.totalCost.GetOr(0.0));
        metrics := metrics.(averageExecutionPrice := if metrics.totalQuantityBought != 0.0
                              then metrics.totalInvested / metrics.totalQuantityBought else 0.0);
      }
      if p.WalletDeposited? {
        metrics := metrics.(walletDeposits := metrics.walletDeposits + p.amount);
      }
      if p.WalletDebited? {
        metrics := metrics.(walletSpend := metrics.walletSpend + p.amount);
      }
      if p.StockPriceUpdated? {
        metrics := metrics.(priceUpdateCount := metrics.priceUpdateCount + 1);
        var prices := ApplyStockPriceMetric(metrics.stockPrices, p.stockId, p.symbol, p.newPrice);
        metrics := metrics.(stockPrices := prices);
      }
      if p.StockPriceDecreased? {
        metrics := metrics.(priceDecreaseCount := metrics.priceDecreaseCount + 1);
        var prices := ApplyStockPriceMetric(metrics.stockPrices, p.stockId, p.symbol, p.newPrice);
        metrics := metrics.(stockPrices := prices);
      }
      if p.StockSubscriptionChanged? {
        if scope == UserScope {
          metrics := metrics.(subscribedStockIds := p.stockIds);
        } else {
          metrics := metrics.(subscribedStockIds := AddAll(AddAll([], metrics.subscribedStockIds), p.stockIds));
        }
        metrics := metrics.(subscriptionCount := |metrics.subscribedStockIds|);
      }
    }

    method ApplyStockPriceMetric(entries: seq<StockPrice>, stockId: Option<Id>, symbol: string, newPrice: real)
      returns (after: seq<StockPrice>)
      ensures after == Observe(entries, stockId, symbol, newPrice)
      ensures (forall x | x in entries :: !Matches(x, stockId, symbol)) ==>
        after == entries + [StockPrice(stockId, symbol, newPrice, newPrice)]
      ensures forall i | 0 <= i < |entries| && IsFirstMatch(entries, i, stockId, symbol) ::
        && |after| == |entries| && (forall j | 0 <= j < |entries| && j != i :: after[j] == entries[j])
        && after[i].stockId == entries[i].stockId && after[i].symbol == entries[i].symbol && after[i].latest == newPrice
        && after[i].lowest in {entries[i].lowest, newPrice} && after[i].lowest <= entries[i].lowest
            && after[i].lowest <= newPrice
    {
      var i := FindEntry(entries, stockId, symbol);
      if i == |entries| {
        return entries + [StockPrice(stockId, symbol, newPrice, newPrice)];
      }
      var existing := entries[i];
      existing := existing.(lowest := if newPrice < existing.lowest then newPrice else existing.lowest);
      existing := existing.(latest := newPrice);
      after := entries[i := existing];
    }

    method UpdateUserSnapshot(userId: Id, bucket: Bucket, e: Event)
      modifies this`users
      ensures users == old(users)[(userId, bucket) := MetricsAfter(SnapOr(old(users), (userId, bucket)), e.payload,
          UserScope)]
    {
      if (userId, bucket) !in users {
        users := users[(userId, bucket) := DEFAULT];
      }
      var metrics := ApplyEventToMetrics(users[(userId, bucket)], e.payload, UserScope);
      users := users[(userId, bucket) := metrics];
    }

    method UpdateAdminSnapshot(bucket: Bucket, e: Event)
      modifies this`admin
      ensures admin == old(admin)[bucket := MetricsAfter(SnapOr(old(admin), bucket), e.payload, AdminScope)]
    {
      if bucket !in admin {
        admin := admin[bucket := DEFAULT];
      }
      var metrics := ApplyEventToMetrics(admin[bucket], e.payload, AdminScope);
      admin := admin[bucket := metrics];
    }

    method BucketsFor(t: int) returns (buckets: seq<Bucket>)
      ensures buckets == AdminKeys(t)
    {
      ghost var keys := AdminKeys(t);
      buckets := [];
      for i := 0 to |PERIODS|
        invariant buckets == keys[..i]
      {
        KeyAt(t, i);
        var bucket := GetBucketForDate(t, PERIODS[i]);
        buckets := buckets + [bucket];
      }
      assert keys[..|keys|] == keys;
    }

    // The two loops of ApplyEvent.
    method UpdateUserSnapshots(u: Id, buckets: seq<Bucket>, e: Event)
      requires buckets == AdminKeys(e.occurredAt)
      modifies this`users
      ensures users == UpdateAll(old(users), UserKeys(u, e.occurredAt), e.payload, UserScope)
    {
      ghost var keys := UserKeys(u, e.occurredAt);
      assert |keys| == |buckets| && forall i | 0 <= i < |buckets| :: keys[i] == (u, buckets[i]);
      for i := 0 to |buckets|
        invariant users == UpdateAll(old(users), keys[..i], e.payload, UserScope)
      {
        assert keys[..i + 1][..i] == keys[..i];
        UpdateUserSnapshot(u, buckets[i], e);
      }
      assert keys[..|keys|] == keys;
    }

    method UpdateAdminSnapshots(buckets: seq<Bucket>, e: Event)
      modifies this`admin
      ensures admin == UpdateAll(old(admin), buckets, e.payload, AdminScope)
    {
      for i := 0 to |buckets|
        invariant admin == UpdateAll(old(admin), buckets[..i], e.payload, AdminScope)
      {
        assert buckets[..i + 1][..i] == buckets[..i];
        UpdateAdminSnapshot(buckets[i], e);
      }
      assert buckets[..|buckets|] == buckets;
    }

    method ApplyEvent(e: Event)
      modifies this
      ensures Contents() == AfterEvent(old(Contents()), e)
    {
      var buckets := BucketsFor(e.occurredAt);
      if e.userId.Some? && e.userId.value != "" {
        UpdateUserSnapshots(e.userId.value, buckets, e);
      }
      UpdateAdminSnapshots(buckets, e);
    }
  }

  // --- A snapshot is the fold of the events selected for it ---

  // None stands for the admin.
  function Snapshot(st: Stores, who: Option<Id>, b: Bucket): Metrics {
    if who.Some? then SnapOr(st.users, (who.value, b)) else SnapOr(st.admin, b)
  }

  function ScopeOf(who: Option<Id>): Scope { if who.Some? then UserScope else AdminScope }

  predicate InBucket(t: int, b: Bucket) { BucketFor(t, b.period) == b }

  predicate Concerns(e: Event, who: Option<Id>) { who.None? || (HasUser(e) && e.userId == who) }

  predicate Selected(e: Event, who: Option<Id>, b: Bucket) { Concerns(e, who) && InBucket(e.occurredAt, b) }

  function PayloadsFor(events: seq<Event>, who: Option<Id>, b: Bucket): seq<Payload> {
    if events == [] then []
    else
      var e := events[|events| - 1];
      PayloadsFor(events[..|events| - 1], who, b) + if Selected(e, who, b) then [e.payload] else []
  }

  lemma {:induction false} UpdateAllAt<K>(store: map<K, Metrics>, keys: seq<K>, p: Payload, scope: Scope, k: K)
    requires forall i, j | 0 <= i < j < |keys| :: keys[i] != keys[j]
    ensures SnapOr(UpdateAll(store, keys, p, scope), k)
         == if k in keys then MetricsAfter(SnapOr(store, k), p, scope) else SnapOr(store, k)
    decreases |keys|
  {
    if keys != [] {
      var init := keys[..|keys| - 1];
      UpdateAllAt(store, init, p, scope, k);
      assert k in keys <==> k in init || k == keys[|keys| - 1];
    }
  }

  lemma {:induction false} BucketPeriod(t: int, p: Period)
    ensures BucketFor(t, p).period == p
  {
  }

  function PeriodIndex(p: Period): (i: nat)
    ensures i < |PERIODS| && PERIODS[i] == p
  {
    match p case Daily => 0 case Weekly => 1 case Monthly => 2 case Yearly => 3 case Lifetime => 4
  }

  lemma {:induction false} KeyAt(t: int, i: nat)
    requires i < |PERIODS|
    ensures AdminKeys(t)[i] == BucketFor(t, PERIODS[i])
  {
  }

  lemma {:induction false} KeyPeriod(t: int, i: nat)
    requires i < |PERIODS|
    ensures AdminKeys(t)[i].period == PERIODS[i]
  {
    BucketPeriod(t, PERIODS[i]);
  }

  lemma {:induction false} KeysAreBuckets(t: int, b: Bucket)
    ensures b in AdminKeys(t) <==> InBucket(t, b)
  {
    if b in AdminKeys(t) {
      var i :| 0 <= i < |PERIODS| && AdminKeys(t)[i] == b;
      KeyAt(t, i);
      KeyPeriod(t, i);
    }
    KeyAt(t, PeriodIndex(b.period));
  }

  lemma {:induction false} KeysDiffer(t: int, i: nat, j: nat)
    requires i < j < |PERIODS|
    ensures AdminKeys(t)[i] != AdminKeys(t)[j]
  {
    KeyPeriod(t, i);
    KeyPeriod(t, j);
    assert PERIODS[i] != PERIODS[j];
  }

  lemma {:induction false} UserKeysAreBuckets(u: Id, t: int, w: Id, b: Bucket)
    ensures (w, b) in UserKeys(u, t) <==> w == u && InBucket(t, b)
    ensures forall i, j | 0 <= i < j < |PERIODS| :: UserKeys(u, t)[i] != UserKeys(u, t)[j]
  {
    KeysAreBuckets(t, b);
    var keys, buckets := UserKeys(u, t), AdminKeys(t);
    assert forall i | 0 <= i < |PERIODS| :: keys[i] == (u, buckets[i]);
    forall i, j | 0 <= i < j < |PERIODS| ensures keys[i] != keys[j] {
      KeysDiffer(t, i, j);
    }
    if w == u && b in buckets {
      var i :| 0 <= i < |PERIODS| && buckets[i] == b;
      assert keys[i] == (w, b);
    }
  }

  lemma {:induction false} AppliedAt(st: Stores, e: Event, who: Option<Id>, b: Bucket)
    requires who != Some("")
    ensures Snapshot(AfterEvent(st, e), who, b)
         == if Selected(e, who, b) then MetricsAfter(Snapshot(st, who, b), e.payload, ScopeOf(who))
             else Snapshot(st, who, b)
  {
    if who.Some? {
      if HasUser(e) {
        UserKeysAreBuckets(e.userId.value, e.occurredAt, who.value, b);
        UpdateAllAt(st.users, UserKeys(e.userId.value, e.occurredAt), e.payload, UserScope, (who.value, b));
      }
    } else {
      KeysAreBuckets(e.occurredAt, b);
      forall i, j | 0 <= i < j < |PERIODS| ensures AdminKeys(e.occurredAt)[i] != AdminKeys(e.occurredAt)[j] {
        KeysDiffer(e.occurredAt, i, j);
      }
      UpdateAllAt(st.admin, AdminKeys(e.occurredAt), e.payload, AdminScope, b);
    }
  }

  lemma {:induction false} SnapshotIsFold(events: seq<Event>, who: Option<Id>, b: Bucket)
    requires who != Some("")
    ensures Snapshot(StoresOf(events), who, b) == MetricsOf(PayloadsFor(events, who, b), ScopeOf(who))
  {
    if events != [] {
      var init, e := events[..|events| - 1], events[|events| - 1];
      SnapshotIsFold(init, who, b);
      AppliedAt(StoresOf(init), e, who, b);
      var ps := PayloadsFor(init, who, b);
      if Selected(e, who, b) {
        assert (ps + [e.payload])[..|ps|] == ps;
      } else {
        assert PayloadsFor(events, who, b) == ps;
      }
    }
  }

  lemma {:induction false} UserListAfter(st: Stores, e: Event, u: Id, b: Bucket)
    requires u != ""
    ensures var m, after := Snapshot(st, Some(u), b), Snapshot(AfterEvent(st, e), Some(u), b);
      if SubscribesIn(e, u, b)
      then after.subscribedStockIds == e.payload.stockIds && after.subscriptionCount == |e.payload.stockIds|
      else after.subscribedStockIds == m.subscribedStockIds && after.subscriptionCount == m.subscriptionCount
  {
    AppliedAt(st, e, Some(u), b);
    UserListStep(Snapshot(st, Some(u), b), e.payload);
  }

  // Without a subscription event of the user in the bucket, the user's snapshot lists nothing.
  lemma {:induction false} UserListEmpty(events: seq<Event>, u: Id, b: Bucket)
    requires u != "" && forall e | e in events :: !SubscribesIn(e, u, b)
    ensures Snapshot(StoresOf(events), Some(u), b).subscribedStockIds == []
    ensures Snapshot(StoresOf(events), Some(u), b).subscriptionCount == 0
  {
    if events != [] {
      UserListEmpty(events[..|events| - 1], u, b);
      UserListAfter(StoresOf(events[..|events| - 1]), events[|events| - 1], u, b);
    }
  }

  lemma {:induction false} UserListKept(events: seq<Event>, u: Id, b: Bucket, k: nat, m: nat)
    requires u != "" && k <= m <= |events| && forall j | k <= j < |events| :: !SubscribesIn(events[j], u, b)
    ensures var was, now := Snapshot(StoresOf(events[..k]), Some(u), b), Snapshot(StoresOf(events[..m]), Some(u), b);
      now.subscribedStockIds == was.subscribedStockIds && now.subscriptionCount == was.subscriptionCount
    decreases m
  {
    if k < m {
      UserListKept(events, u, b, k, m - 1);
      assert events[..m][..m - 1] == events[..m - 1];
      UserListAfter(StoresOf(events[..m - 1]), events[m - 1], u, b);
    }
  }

  // Otherwise it lists the stocks named by the last of them, number k.
  lemma {:induction false} UserListIsLast(events: seq<Event>, u: Id, b: Bucket, k: nat)
    requires u != "" && k < |events|
    requires events[k].userId == Some(u) && events[k].payload.StockSubscriptionChanged?
    requires InBucket(events[k].occurredAt, b)
    requires forall j | k < j < |events| :: !SubscribesIn(events[j], u, b)
    ensures Snapshot(StoresOf(events), Some(u), b).subscribedStockIds == events[k].payload.stockIds
    ensures Snapshot(StoresOf(events), Some(u), b).subscriptionCount == |events[k].payload.stockIds|
  {
    assert events[..|events|] == events && events[..k + 1][..k] == events[..k];
    UserListAfter(StoresOf(events[..k]), events[k], u, b);
    UserListKept(events, u, b, k + 1, |events|);
  }

  predicate SubscribesIn(e: Event, u: Id, b: Bucket) {
    e.userId == Some(u) && e.payload.StockSubscriptionChanged? && InBucket(e.occurredAt, b)
  }

  // --- Additive figures of a snapshot, as a sum over all events ---

  function Share(who: Option<Id>, b: Bucket, c: Counter): Event -> real {
    (e: Event) => if Selected(e, who, b) then Contribution(e.payload, c) else 0.0
  }

  lemma {:induction false} SelectedSum(events: seq<Event>, who: Option<Id>, b: Bucket, c: Counter)
    ensures SumBy(PayloadsFor(events, who, b), ContributionTo(c)) == SumBy(events, Share(who, b, c))
  {
    if events != [] {
      var init, e := events[..|events| - 1], events[|events| - 1];
      SelectedSum(init, who, b, c);
      if Selected(e, who, b) {
        SumAppend(PayloadsFor(init, who, b), e.payload, ContributionTo(c));
      } else {
        assert PayloadsFor(events, who, b) == PayloadsFor(init, who, b);
      }
    }
  }

  function Figure(events: seq<Event>, who: Option<Id>, b: Bucket, c: Counter): real {
    Read(Snapshot(StoresOf(events), who, b), c)
  }

  lemma {:induction false} FigureIsSum(events: seq<Event>, who: Option<Id>, b: Bucket, c: Counter)
    requires who != Some("")
    ensures Figure(events, who, b, c) == SumBy(events, Share(who, b, c))
  {
    SnapshotIsFold(events, who, b);
    CounterIsSum(PayloadsFor(events, who, b), ScopeOf(who), c);
    SelectedSum(events, who, b, c);
  }

  // --- Roll-up ---

  // The share of the events whose day lies in [first, next).
  function DayShare(who: Option<Id>, first: int, next: int, c: Counter): Event -> real {
    (e: Event) => if Concerns(e, who) && first <= Day(e.occurredAt) < next then Contribution(e.payload, c) else 0.0
  }

  predicate Modern(events: seq<Event>) {
    forall e | e in events :: 0 <= e.occurredAt <= LIFETIME_END
  }

  function BucketOfDay(d: int, p: Period): Bucket { BucketFor(d * MS_PER_DAY, p) }

  lemma {:induction false} InBucketOfDay(t: int, d: int, p: Period)
    requires p != Lifetime && Regular(d * MS_PER_DAY) && 0 <= t <= LIFETIME_END
    ensures InBucket(t, BucketOfDay(d, p)) <==> FirstDay(d, p) <= Day(t) < NextDay(d, p)
  {
    DayOfDate(d, 0);
    RegularDay(d * MS_PER_DAY);
    ModernTimes(t);
    SameBucketIff(d * MS_PER_DAY, t, p);
    DayWithin(t, FirstDay(d, p), NextDay(d, p));
  }

  lemma {:induction false} FigureOverDays(events: seq<Event>, who: Option<Id>, b: Bucket, first: int, next: int,
      c: Counter)
    requires who != Some("") && forall e | e in events ::
        InBucket(e.occurredAt, b) <==> first <= Day(e.occurredAt) < next
    ensures Figure(events, who, b, c) == SumBy(events, DayShare(who, first, next, c))
  {
    FigureIsSum(events, who, b, c);
    SumCong(events, Share(who, b, c), DayShare(who, first, next, c));
  }

  // A bucket's figure is the share of its days.
  lemma {:induction false} FigureIsDayShare(events: seq<Event>, who: Option<Id>, d: int, p: Period, c: Counter)
    requires who != Some("") && Modern(events) && p != Lifetime && Regular(d * MS_PER_DAY)
    ensures Figure(events, who, BucketOfDay(d, p), c) == SumBy(events, DayShare(who, FirstDay(d, p), NextDay(d, p), c))
  {
    forall e | e in events ensures InBucket(e.occurredAt, BucketOfDay(d, p)) <==>
        FirstDay(d, p) <= Day(e.occurredAt) < NextDay(d, p)
    {
      InBucketOfDay(e.occurredAt, d, p);
    }
    FigureOverDays(events, who, BucketOfDay(d, p), FirstDay(d, p), NextDay(d, p), c);
  }

  lemma {:induction false} FigureOfDays(events: seq<Event>, who: Option<Id>, d: int, first: int, next: int, p: Period,
      c: Counter)
    requires who != Some("") && Modern(events) && p != Lifetime && Regular(d * MS_PER_DAY)
    requires FirstDay(d, p) == first && NextDay(d, p) == next
    ensures Figure(events, who, BucketOfDay(d, p), c) == SumBy(events, DayShare(who, first, next, c))
  {
    FigureIsDayShare(events, who, d, p, c);
  }

  lemma {:induction false} DaySharesAdd(events: seq<Event>, who: Option<Id>, a: int, b: int, z: int, c: Counter)
    requires a <= b <= z
    ensures SumBy(events, DayShare(who, a, z, c))
        == SumBy(events, DayShare(who, a, b, c)) + SumBy(events, DayShare(who, b, z, c))
  {
    if events != [] {
      DaySharesAdd(events[..|events| - 1], who, a, b, z, c);
    }
  }

  lemma {:induction false} EmptyDayShare(events: seq<Event>, who: Option<Id>, a: int, c: Counter)
    ensures SumBy(events, DayShare(who, a, a, c)) == 0.0
  {
    SumZero(events, DayShare(who, a, a, c));
  }

  function SumRange(figure: int -> real, first: int, next: int): real
    decreases next - first
  {
    if next <= first then 0.0 else SumRange(figure, first, next - 1) + figure(next - 1)
  }

  // Consecutive periods: number k covers the days from starts(k) until starts(k + 1).
  lemma {:induction false} PeriodsAdd(events: seq<Event>, who: Option<Id>, c: Counter, figure: int -> real,
      starts: int -> int, first: int, next: int)
    requires first <= next
    requires forall k | first <= k < next :: starts(first) <= starts(k) <= starts(k + 1)
    requires forall k | first <= k < next :: figure(k) == SumBy(events, DayShare(who, starts(k), starts(k + 1), c))
    ensures SumRange(figure, first, next) == SumBy(events, DayShare(who, starts(first), starts(next), c))
    decreases next - first
  {
    if first == next {
      EmptyDayShare(events, who, starts(first), c);
    } else {
      PeriodsAdd(events, who, c, figure, starts, first, next - 1);
      DaySharesAdd(events, who, starts(first), starts(next - 1), starts(next), c);
    }
  }

  function DayFigure(events: seq<Event>, who: Option<Id>, c: Counter): int -> real {
    (d: int) => Figure(events, who, BucketOfDay(d, Daily), c)
  }

  function MonthFigure(events: seq<Event>, who: Option<Id>, y: int, c: Counter): int -> real {
    (m: int) => if 0 <= m <= 11 then Figure(events, who, BucketOfDay(MonthFirst(y, m), Monthly), c) else 0.0
  }

  function YearFigure(events: seq<Event>, who: Option<Id>, c: Counter): int -> real {
    (y: int) => Figure(events, who, BucketOfDay(DayFromYear(y), Yearly), c)
  }

  lemma {:induction false} DayFigureIs(events: seq<Event>, who: Option<Id>, c: Counter, d: int)
    requires who != Some("") && Modern(events) && d >= -366
    ensures DayFigure(events, who, c)(d) == SumBy(events, DayShare(who, d, d + 1, c))
  {
    LateDaysRegular(d);
    FigureOfDays(events, who, d, d, d + 1, Daily, c);
  }

  lemma {:induction false} LateDaysRegular(d: int)
    requires d >= -366
    ensures Regular(d * MS_PER_DAY)
  {
    DayOfDate(d, 0);
    YearFound(d);
    if YearOf(d) <= 99 {
      YearsIncrease(YearOf(d) + 1, 100);
    }
  }

  lemma {:induction false} DayAdds(events: seq<Event>, who: Option<Id>, c: Counter, figure: int -> real, first: int,
      next: int)
    requires first < next && figure(next - 1) == SumBy(events, DayShare(who, next - 1, next - 1 + 1, c))
    requires SumRange(figure, first, next - 1) == SumBy(events, DayShare(who, first, next - 1, c))
    ensures SumRange(figure, first, next) == SumBy(events, DayShare(who, first, next, c))
  {
    DaySharesAdd(events, who, first, next - 1, next, c);
  }

  lemma {:induction false} DaysAdd(events: seq<Event>, who: Option<Id>, c: Counter, first: int, next: int)
    requires who != Some("") && Modern(events) && -366 <= first <= next
    ensures SumRange(DayFigure(events, who, c), first, next) == SumBy(events, DayShare(who, first, next, c))
    decreases next - first
  {
    if first == next {
      EmptyDayShare(events, who, first, c);
    } else {
      DaysAdd(events, who, c, first, next - 1);
      DayFigureIs(events, who, c, next - 1);
      DayAdds(events, who, c, DayFigure(events, who, c), first, next);
    }
  }

  // The bucket of a time is the bucket of its day.
  lemma {:induction false} BucketOfTime(t: int, p: Period)
    requires 0 <= t <= LIFETIME_END && p != Lifetime
    ensures BucketFor(t, p) == BucketOfDay(Day(t), p) && Regular(Day(t) * MS_PER_DAY) && Day(t) >= 0
  {
    var d := Day(t);
    ModernTimes(t);
    RegularDay(t);
    DayOfDate(d, 0);
    RegularDay(d * MS_PER_DAY);
  }

  // The figure of a day, week, month or year is the sum of its days' figures.
  lemma {:induction false} PeriodIsSumOfDays(events: seq<Event>, who: Option<Id>, t: int, p: Period, c: Counter)
    requires who != Some("") && Modern(events) && p != Lifetime && 0 <= t <= LIFETIME_END
    ensures Figure(events, who, BucketFor(t, p), c)
        == SumRange(DayFigure(events, who, c), FirstDay(Day(t), p), NextDay(Day(t), p))
  {
    BucketOfTime(t, p);
    PeriodContains(Day(t), p);
    DaysAdd(events, who, c, FirstDay(Day(t), p), NextDay(Day(t), p));
    FigureIsDayShare(events, who, Day(t), p, c);
  }

  lemma {:induction false} MonthDay(d: int, y: int, m: int)
    requires 1970 <= y && 0 <= m <= 11 && YearOf(d) == y && MonthOf(d) == m
    ensures FirstDay(d, Monthly) == MonthFirst(y, m) && NextDay(d, Monthly) == MonthFirst(y, m + 1)
    ensures Regular(d * MS_PER_DAY)
  {
    DayOfDate(d, 0);
  }

  lemma {:induction false} MonthIsPeriod(y: int, m: int)
    requires 1970 <= y && 0 <= m <= 11
    ensures FirstDay(MonthFirst(y, m), Monthly) == MonthFirst(y, m)
    ensures NextDay(MonthFirst(y, m), Monthly) == MonthFirst(y, m + 1)
    ensures Regular(MonthFirst(y, m) * MS_PER_DAY)
  {
    MonthStart(y, m);
    MonthDay(MonthFirst(y, m), y, m);
  }

  function MonthStarts(y: int): int -> int {
    (m: int) => if 0 <= m <= 12 then MonthFirst(y, m) else 0
  }

  lemma {:induction false} MonthCovered(events: seq<Event>, who: Option<Id>, c: Counter, y: int, m: int)
    requires who != Some("") && Modern(events) && 1970 <= y && 0 <= m <= 11
    ensures Figure(events, who, BucketOfDay(MonthFirst(y, m), Monthly), c)
         == SumBy(events, DayShare(who, MonthFirst(y, m), MonthFirst(y, m + 1), c))
  {
    MonthIsPeriod(y, m);
    FigureOfDays(events, who, MonthFirst(y, m), MonthFirst(y, m), MonthFirst(y, m + 1), Monthly, c);
  }

  lemma {:induction false} MonthFigureIs(events: seq<Event>, who: Option<Id>, c: Counter, y: int, m: int)
    requires who != Some("") && Modern(events) && 1970 <= y && 0 <= m <= 11
    ensures MonthFigure(events, who, y, c)(m)
        == SumBy(events, DayShare(who, MonthStarts(y)(m), MonthStarts(y)(m + 1), c))
  {
    MonthCovered(events, who, c, y, m);
  }

  lemma {:induction false} MonthsOrdered(y: int, m: int)
    requires 0 <= m <= 11
    ensures MonthStarts(y)(0) <= MonthStarts(y)(m) <= MonthStarts(y)(m + 1)
  {
    MonthStartsIncrease(m, m + 1, Leap(y));
    if m > 0 {
      MonthStartsIncrease(0, m, Leap(y));
    }
  }

  lemma {:induction false} YearDayAt(d: int, y: int)
    requires 1970 <= y && YearOf(d) == y
    ensures FirstDay(d, Yearly) == DayFromYear(y) && NextDay(d, Yearly) == DayFromYear(y + 1)
    ensures Regular(d * MS_PER_DAY)
  {
    DayOfDate(d, 0);
  }

  lemma {:induction false} YearDay(y: int)
    requires 1970 <= y
    ensures FirstDay(DayFromYear(y), Yearly) == DayFromYear(y) && NextDay(DayFromYear(y), Yearly) == DayFromYear(y + 1)
    ensures Regular(DayFromYear(y) * MS_PER_DAY)
  {
    YearStart(y);
    YearDayAt(DayFromYear(y), y);
  }

  lemma {:induction false} YearFigureIs(events: seq<Event>, who: Option<Id>, c: Counter, y: int)
    requires who != Some("") && Modern(events) && 1970 <= y
    ensures YearFigure(events, who, c)(y) == SumBy(events, DayShare(who, DayFromYear(y), DayFromYear(y + 1), c))
  {
    YearDay(y);
    FigureOfDays(events, who, DayFromYear(y), DayFromYear(y), DayFromYear(y + 1), Yearly, c);
  }

  lemma {:induction false} MonthsFillYear(y: int)
    ensures MonthStarts(y)(0) == DayFromYear(y) && MonthStarts(y)(12) == DayFromYear(y + 1)
  {
    DecemberEnds(y);
  }

  lemma {:induction false} MonthsAdd(events: seq<Event>, who: Option<Id>, c: Counter, y: int, months: int)
    requires who != Some("") && Modern(events) && 1970 <= y && 0 <= months <= 12
    ensures SumRange(MonthFigure(events, who, y, c), 0, months)
         == SumBy(events, DayShare(who, MonthStarts(y)(0), MonthStarts(y)(months), c))
  {
    forall m | 0 <= m < months
      ensures MonthFigure(events, who, y, c)(m)
          == SumBy(events, DayShare(who, MonthStarts(y)(m), MonthStarts(y)(m + 1), c))
    {
      MonthFigureIs(events, who, c, y, m);
    }
    forall m | 0 <= m < months ensures MonthStarts(y)(0) <= MonthStarts(y)(m) <= MonthStarts(y)(m + 1) {
      MonthsOrdered(y, m);
    }
    PeriodsAdd(events, who, c, MonthFigure(events, who, y, c), MonthStarts(y), 0, months);
  }

  // A year's figure is the sum of its twelve months' figures.
  lemma {:induction false} YearIsSumOfMonths(events: seq<Event>, who: Option<Id>, y: int, c: Counter)
    requires who != Some("") && Modern(events) && 1970 <= y
    ensures YearFigure(events, who, c)(y) == SumRange(MonthFigure(events, who, y, c), 0, 12)
  {
    YearFigureIs(events, who, c, y);
    MonthsAdd(events, who, c, y, 12);
    MonthsFillYear(y);
  }

  lemma {:induction false} YearsOrdered(first: int, y: int)
    requires first <= y
    ensures DayFromYear(first) <= DayFromYear(y) <= DayFromYear(y + 1)
  {
    YearsIncrease(first, y);
    YearsIncrease(y, y + 1);
  }

  lemma {:induction false} YearsAdd(events: seq<Event>, who: Option<Id>, c: Counter, first: int, next: int)
    requires who != Some("") && Modern(events) && 1970 <= first <= next
    ensures SumRange(YearFigure(events, who, c), first, next)
         == SumBy(events, DayShare(who, DayFromYear(first), DayFromYear(next), c))
  {
    forall y | first <= y < next
      ensures YearFigure(events, who, c)(y) == SumBy(events, DayShare(who, DayFromYear(y), DayFromYear(y + 1), c))
      ensures DayFromYear(first) <= DayFromYear(y) <= DayFromYear(y + 1)
    {
      YearFigureIs(events, who, c, y);
      YearsOrdered(first, y);
    }
    PeriodsAdd(events, who, c, YearFigure(events, who, c), DayFromYear, first, next);
  }

  lemma {:induction false} LifetimeDays(t: int)
    requires 0 <= t <= LIFETIME_END
    ensures DayFromYear(1970) <= Day(t) < DayFromYear(10000)
  {
    ModernTimes(t);
    YearFound(Day(t));
    YearsIncrease(1970, YearOf(Day(t)));
    YearsIncrease(YearOf(Day(t)) + 1, 10000);
  }

  lemma {:induction false} LifetimeFigure(events: seq<Event>, who: Option<Id>, c: Counter)
    requires who != Some("") && Modern(events)
    ensures Figure(events, who, BucketFor(0, Lifetime), c)
        == SumBy(events, DayShare(who, DayFromYear(1970), DayFromYear(10000), c))
  {
    forall e | e in events ensures InBucket(e.occurredAt, BucketFor(0, Lifetime)) <==>
        DayFromYear(1970) <= Day(e.occurredAt) < DayFromYear(10000)
    {
      LifetimeDays(e.occurredAt);
    }
    FigureOverDays(events, who, BucketFor(0, Lifetime), DayFromYear(1970), DayFromYear(10000), c);
  }

  // The lifetime figure is the sum over the years 1970 to 9999.
  lemma {:induction false} LifetimeIsSumOfYears(events: seq<Event>, who: Option<Id>, c: Counter)
    requires who != Some("") && Modern(events)
    ensures Figure(events, who, BucketFor(0, Lifetime), c) == SumRange(YearFigure(events, who, c), 1970, 10000)
  {
    LifetimeFigure(events, who, c);
    YearsAdd(events, who, c, 1970, 10000);
  }

  // --- The admin figure is the sum of the users' figures, plus the events that name no user ---

  function UsersTotal(events: seq<Event>, us: seq<Id>, b: Bucket, c: Counter): real {
    if us == [] then 0.0
    else UsersTotal(events, us[..|us| - 1], b, c) + Figure(events, Some(us[|us| - 1]), b, c)
  }

  function ListedShare(us: seq<Id>, b: Bucket, c: Counter): Event -> real {
    (e: Event) => if HasUser(e) && e.userId.value in us && InBucket(e.occurredAt, b) then Contribution(e.payload, c)
        else 0.0
  }

  function AnonymousShare(b: Bucket, c: Counter): Event -> real {
    (e: Event) => if !HasUser(e) && InBucket(e.occurredAt, b) then Contribution(e.payload, c) else 0.0
  }

  lemma {:induction false} ListedSharesAdd(events: seq<Event>, us: seq<Id>, u: Id, b: Bucket, c: Counter)
    requires u !in us && u != ""
    ensures SumBy(events, ListedShare(us + [u], b, c))
        == SumBy(events, ListedShare(us, b, c)) + SumBy(events, Share(Some(u), b, c))
  {
    if events != [] {
      ListedSharesAdd(events[..|events| - 1], us, u, b, c);
    }
  }

  lemma {:induction false} UsersTotalIsShare(events: seq<Event>, us: seq<Id>, b: Bucket, c: Counter)
    requires Distinct(us) && "" !in us
    ensures UsersTotal(events, us, b, c) == SumBy(events, ListedShare(us, b, c))
  {
    if us == [] {
      SumZero(events, ListedShare(us, b, c));
    } else {
      var init, u := us[..|us| - 1], us[|us| - 1];
      UsersTotalIsShare(events, init, b, c);
      FigureIsSum(events, Some(u), b, c);
      ListedSharesAdd(events, init, u, b, c);
      assert us == init + [u];
    }
  }

  lemma {:induction false} SharesSplit(events: seq<Event>, us: seq<Id>, b: Bucket, c: Counter)
    requires forall e | e in events && HasUser(e) :: e.userId.value in us
    ensures SumBy(events, Share(None, b, c))
        == SumBy(events, ListedShare(us, b, c)) + SumBy(events, AnonymousShare(b, c))
  {
    if events != [] {
      SharesSplit(events[..|events| - 1], us, b, c);
    }
  }

  lemma {:induction false} AdminIsSumOfUsers(events: seq<Event>, us: seq<Id>, b: Bucket, c: Counter)
    requires Distinct(us) && "" !in us && forall e | e in events && HasUser(e) :: e.userId.value in us
    ensures Figure(events, None, b, c) == UsersTotal(events, us, b, c) + SumBy(events, AnonymousShare(b, c))
  {
    FigureIsSum(events, None, b, c);
    UsersTotalIsShare(events, us, b, c);
    SharesSplit(events, us, b, c);
  }
}
