/**
 The metric record and its fold over events.  All additive figures are treated at once, through a
 `Counter` that names one of them.
 */
module Metrics {
  import opened Wrappers
  import opened AnalyticsEvents
  import opened Sums

  datatype StockPrice = StockPrice(stockId: Option<Id>, symbol: string, lowest: real, latest: real)

  datatype Metrics = Metrics(
    orderCounts: map<string, nat>, executedTradeCount: nat, totalQuantityBought: real, totalInvested: real,
    averageExecutionPrice: real, walletDeposits: real, walletSpend: real, priceUpdateCount: nat,
    priceDecreaseCount: nat, stockPrices: seq<StockPrice>, subscriptionCount: nat, subscribedStockIds: seq<Id>)

  datatype Scope = UserScope | AdminScope

  const DEFAULT: Metrics := Metrics(map[], 0, 0.0, 0.0, 0.0, 0.0, 0.0, 0, 0, [], 0, [])

  // --- One event ---

  // The part of the type name after the dot, for an order event that carries no status.
  function TypeSuffix(kind: OrderEventKind): string {
    match kind
    case Created => "created"
    case Triggered => "triggered"
    case Cancelled => "cancelled"
    case Executed => "executed"
    case Failed => "failed"
  }

  function StatusOf(p: Payload): string
    requires p.OrderPayload?
  {
    p.status.GetOr(TypeSuffix(p.kind))
  }

  function CountOf(counts: map<string, nat>, status: string): nat {
    if status in counts then counts[status] else 0
  }

  predicate Matches(x: StockPrice, stockId: Option<Id>, symbol: string) { x.stockId == stockId || x.symbol == symbol }

  predicate IsFirstMatch(entries: seq<StockPrice>, i: nat, stockId: Option<Id>, symbol: string)
    requires i < |entries|
  {
    Matches(entries[i], stockId, symbol) && forall j | 0 <= j < i :: !Matches(entries[j], stockId, symbol)
  }

  // Index of the first entry of the stock, by id or by symbol; the length if there is none.
  function FindEntry(entries: seq<StockPrice>, stockId: Option<Id>, symbol: string): (i: nat)
    ensures i <= |entries|
    ensures i < |entries| ==> Matches(entries[i], stockId, symbol)
    ensures forall j | 0 <= j < i :: !Matches(entries[j], stockId, symbol)
  {
    if entries == [] || Matches(entries[0], stockId, symbol) then 0
    else 1 + FindEntry(entries[1..], stockId, symbol)
  }

  function Observe(entries: seq<StockPrice>, stockId: Option<Id>, symbol: string, price: real): seq<StockPrice> {
    var i := FindEntry(entries, stockId, symbol);
    if i == |entries| then entries + [StockPrice(stockId, symbol, price, price)]
    else entries[i := entries[i].(lowest := if price < entries[i].lowest then price
        else entries[i].lowest, latest := price)]
  }

  // The union of two lists in the order of a JavaScript Set: old entries first, then the new ones.
  function AddAll(ids: seq<Id>, more: seq<Id>): seq<Id>
    decreases |more|
  {
    if more == [] then ids
    else AddAll(if more[0] in ids then ids else ids + [more[0]], more[1..])
  }

  function MetricsAfter(m: Metrics, p: Payload, scope: Scope): Metrics {
    match p
    case OrderPayload(kind, _, _, quantity, _, totalCost, _) =>
      var counted := m.(orderCounts := m.orderCounts[StatusOf(p) := CountOf(m.orderCounts, StatusOf(p)) + 1]);
      if kind != Executed then counted
      else
        var q := m.totalQuantityBought + quantity.GetOr(0.0);
        var c := m.totalInvested + totalCost.GetOr(0.0);
        counted.(executedTradeCount := m.executedTradeCount + 1, totalQuantityBought := q, totalInvested := c,
                 averageExecutionPrice := if q == 0.0 then 0.0 else c / q)
    case WalletDeposited(amount, _, _) => m.(walletDeposits := m.walletDeposits + amount)
    case WalletDebited(amount, _, _) => m.(walletSpend := m.walletSpend + amount)
    case StockPriceUpdated(stockId, symbol, _, newPrice) =>
      m.(priceUpdateCount := m.priceUpdateCount + 1, stockPrices := Observe(m.stockPrices, stockId, symbol, newPrice))
    case StockPriceDecreased(stockId, symbol, _, newPrice) =>
      m.(priceDecreaseCount := m.priceDecreaseCount + 1,
          stockPrices := Observe(m.stockPrices, stockId, symbol, newPrice))
    case StockSubscriptionChanged(stockIds) =>
      var ids := if scope == UserScope then stockIds else AddAll(AddAll([], m.subscribedStockIds), stockIds);
      m.(subscribedStockIds := ids, subscriptionCount := |ids|)
  }

  function MetricsOf(payloads: seq<Payload>, scope: Scope): Metrics {
    if payloads == [] then DEFAULT
    else MetricsAfter(MetricsOf(payloads[..|payloads| - 1], scope), payloads[|payloads| - 1], scope)
  }

  // --- Additive figures ---

  datatype Counter = OrderCount(status: string) | TradeCount | Quantity | Invested
                   | Deposits | Spend | PriceUpdates | PriceDecreases

  function Read(m: Metrics, c: Counter): real {
    match c
    case OrderCount(status) => CountOf(m.orderCounts, status) as real
    case TradeCount => m.executedTradeCount as real
    case Quantity => m.totalQuantityBought
    case Invested => m.totalInvested
    case Deposits => m.walletDeposits
    case Spend => m.walletSpend
    case PriceUpdates => m.priceUpdateCount as real
    case PriceDecreases => m.priceDecreaseCount as real
  }

  function Contribution(p: Payload, c: Counter): real {
    match c
    case OrderCount(status) => if p.OrderPayload? && StatusOf(p) == status then 1.0 else 0.0
    case TradeCount => if p.OrderPayload? && p.kind == Executed then 1.0 else 0.0
    case Quantity => if p.OrderPayload? && p.kind == Executed then p.quantity.GetOr(0.0) else 0.0
    case Invested => if p.OrderPayload? && p.kind == Executed then p.totalCost.GetOr(0.0) else 0.0
    case Deposits => if p.WalletDeposited? then p.amount else 0.0
    case Spend => if p.WalletDebited? then p.amount else 0.0
    case PriceUpdates => if p.StockPriceUpdated? then 1.0 else 0.0
    case PriceDecreases => if p.StockPriceDecreased? then 1.0 else 0.0
  }

  // Every counter adds up: an event moves each by its own contribution and by nothing else.
  lemma {:induction false} CounterAdds(m: Metrics, p: Payload, scope: Scope, c: Counter)
    ensures Read(MetricsAfter(m, p, scope), c) == Read(m, c) + Contribution(p, c)
  {
  }

  function ContributionTo(c: Counter): Payload -> real {
    (p: Payload) => Contribution(p, c)
  }

  lemma {:induction false} CounterIsSum(payloads: seq<Payload>, scope: Scope, c: Counter)
    ensures Read(MetricsOf(payloads, scope), c) == SumBy(payloads, ContributionTo(c))
  {
    if payloads != [] {
      var init, last := payloads[..|payloads| - 1], payloads[|payloads| - 1];
      CounterIsSum(init, scope, c);
      CounterAdds(MetricsOf(init, scope), last, scope, c);
    }
  }

  predicate AverageMatches(m: Metrics) {
    m.averageExecutionPrice == if m.totalQuantityBought == 0.0 then 0.0 else m.totalInvested / m.totalQuantityBought
  }

  lemma {:induction false} AverageKept(m: Metrics, p: Payload, scope: Scope)
    requires AverageMatches(m)
    ensures AverageMatches(MetricsAfter(m, p, scope))
  {
  }

  lemma {:induction false} AverageIsRatio(payloads: seq<Payload>, scope: Scope)
    ensures var m := MetricsOf(payloads, scope);
      m.averageExecutionPrice == if m.totalQuantityBought == 0.0 then 0.0 else m.totalInvested / m.totalQuantityBought
  {
    if payloads != [] {
      var init := payloads[..|payloads| - 1];
      AverageIsRatio(init, scope);
      AverageKept(MetricsOf(init, scope), payloads[|payloads| - 1], scope);
    }
  }

  // --- Subscriptions ---

  lemma {:induction false} AddAllIsUnion(ids: seq<Id>, more: seq<Id>)
    ensures forall x :: x in AddAll(ids, more) <==> x in ids || x in more
    ensures Distinct(ids) ==> Distinct(AddAll(ids, more))
    decreases |more|
  {
    if more != [] {
      var next := if more[0] in ids then ids else ids + [more[0]];
      AddAllIsUnion(next, more[1..]);
      assert forall x :: x in more <==> x == more[0] || x in more[1..];
    }
  }

  predicate Distinct(ids: seq<Id>) {
    forall i, j | 0 <= i < j < |ids| :: ids[i] != ids[j]
  }

  lemma {:induction false} DistinctSize(ids: seq<Id>)
    requires Distinct(ids)
    ensures |ids| == |set x | x in ids|
  {
    if ids == [] {
      assert (set x | x in ids) == {};
    } else {
      var init, last := ids[..|ids| - 1], ids[|ids| - 1];
      DistinctSize(init);
      assert (set x | x in ids) == (set x | x in init) + {last};
    }
  }

  ghost predicate Subscribes(payloads: seq<Payload>, x: Id) {
    exists p :: p in payloads && p.StockSubscriptionChanged? && x in p.stockIds
  }

  // The admin snapshot lists, once each, the stocks some subscription event named.
  lemma {:induction false} AdminSubscriptions(payloads: seq<Payload>)
    ensures var m := MetricsOf(payloads, AdminScope);
      && (forall x :: x in m.subscribedStockIds <==> Subscribes(payloads, x))
      && Distinct(m.subscribedStockIds)
      && m.subscriptionCount == |m.subscribedStockIds|
  {
    if payloads != [] {
      var init, last := payloads[..|payloads| - 1], payloads[|payloads| - 1];
      AdminSubscriptions(init);
      var before := MetricsOf(init, AdminScope).subscribedStockIds;
      AddAllIsUnion([], before);
      if last.StockSubscriptionChanged? {
        AddAllIsUnion(AddAll([], before), last.stockIds);
      }
      assert forall p :: p in payloads <==> p in init || p == last;
    }
  }

  lemma {:induction false} UserListStep(m: Metrics, p: Payload)
    ensures var after := MetricsAfter(m, p, UserScope);
      if p.StockSubscriptionChanged?
      then after.subscribedStockIds == p.stockIds && after.subscriptionCount == |p.stockIds|
      else after.subscribedStockIds == m.subscribedStockIds && after.subscriptionCount == m.subscriptionCount
  {
  }

  // Without a subscription event a user's record lists nothing.
  lemma {:induction false} NoSubscriptions(payloads: seq<Payload>)
    requires forall p | p in payloads :: !p.StockSubscriptionChanged?
    ensures MetricsOf(payloads, UserScope).subscribedStockIds == []
    ensures MetricsOf(payloads, UserScope).subscriptionCount == 0
  {
    if payloads != [] {
      NoSubscriptions(payloads[..|payloads| - 1]);
      UserListStep(MetricsOf(payloads[..|payloads| - 1], UserScope), payloads[|payloads| - 1]);
    }
  }

  // Otherwise it lists what the last of them, number k, named.
  lemma {:induction false} UserSubscriptions(payloads: seq<Payload>, k: nat)
    requires k < |payloads| && payloads[k].StockSubscriptionChanged?
    requires forall j | k < j < |payloads| :: !payloads[j].StockSubscriptionChanged?
    ensures MetricsOf(payloads, UserScope).subscribedStockIds == payloads[k].stockIds
    ensures MetricsOf(payloads, UserScope).subscriptionCount == |payloads[k].stockIds|
  {
    var n := |payloads| - 1;
    UserListStep(MetricsOf(payloads[..n], UserScope), payloads[n]);
    if k < n {
      UserSubscriptions(payloads[..n], k);
    }
  }

  // An order event without a status is counted under the second part of its type's name.
  lemma {:induction false} SuffixOfTypeName(kind: OrderEventKind)
    ensures TypeName(OrderType(kind)) == "order." + TypeSuffix(kind)
  {
    assert "order." + "created" == "order.created" && "order." + "triggered" == "order.triggered";
    assert "order." + "cancelled" == "order.cancelled" && "order." + "executed" == "order.executed";
    assert "order." + "failed" == "order.failed";
  }

  // --- Observed prices ---

  predicate IsPrice(p: Payload) { p.StockPriceUpdated? || p.StockPriceDecreased? }

  predicate Observes(p: Payload, symbol: string) { IsPrice(p) && p.symbol == symbol }

  // A stock id names one symbol.  An absent id counts as an id.
  ghost predicate IdsNameSymbols(payloads: seq<Payload>) {
    forall p, q | p in payloads && q in payloads && IsPrice(p) && IsPrice(q) && p.stockId == q.stockId ::
        p.symbol == q.symbol
  }

  ghost predicate IsLowest(payloads: seq<Payload>, symbol: string, x: real) {
    && (exists p :: p in payloads && Observes(p, symbol) && p.newPrice == x)
    && (forall p | p in payloads && Observes(p, symbol) :: x <= p.newPrice)
  }

  function LastPrice(payloads: seq<Payload>, symbol: string): Option<real> {
    if payloads == [] then None
    else
      var p := payloads[|payloads| - 1];
      if Observes(p, symbol) then Some(p.newPrice) else LastPrice(payloads[..|payloads| - 1], symbol)
  }

  ghost predicate EntryOk(payloads: seq<Payload>, entry: StockPrice) {
    && (exists p :: p in payloads && Observes(p, entry.symbol) && p.stockId == entry.stockId)
    && IsLowest(payloads, entry.symbol, entry.lowest)
    && LastPrice(payloads, entry.symbol) == Some(entry.latest)
    && entry.lowest <= entry.latest
  }

  ghost predicate EntriesOk(payloads: seq<Payload>, entries: seq<StockPrice>) {
    forall i | 0 <= i < |entries| :: EntryOk(payloads, entries[i])
  }

  predicate OnePerSymbol(entries: seq<StockPrice>) {
    forall i, j | 0 <= i < j < |entries| :: entries[i].symbol != entries[j].symbol
  }

  predicate HasSymbol(entries: seq<StockPrice>, symbol: string) {
    exists i :: 0 <= i < |entries| && entries[i].symbol == symbol
  }

  predicate Covers(entries: seq<StockPrice>, payloads: seq<Payload>) {
    forall p | p in payloads && IsPrice(p) :: HasSymbol(entries, p.symbol)
  }

  // One entry per stock seen: its lowest price ever, and its latest.
  ghost predicate TableOk(payloads: seq<Payload>, entries: seq<StockPrice>) {
    EntriesOk(payloads, entries) && OnePerSymbol(entries) && Covers(entries, payloads)
  }

  lemma {:induction false} EntryKept(init: seq<Payload>, last: Payload, entry: StockPrice)
    requires EntryOk(init, entry) && !Observes(last, entry.symbol)
    ensures EntryOk(init + [last], entry)
  {
    var payloads := init + [last];
    assert payloads[..|init|] == init;
    var p :| p in init && Observes(p, entry.symbol) && p.stockId == entry.stockId;
    assert p in payloads;
    var q :| q in init && Observes(q, entry.symbol) && q.newPrice == entry.lowest;
    assert q in payloads;
  }

  lemma {:induction false} EntryObserved(init: seq<Payload>, last: Payload, entry: StockPrice)
    requires EntryOk(init, entry) && Observes(last, entry.symbol)
    ensures EntryOk(init + [last],
        entry.(lowest := if last.newPrice < entry.lowest then last.newPrice else entry.lowest, latest := last.newPrice))
  {
    var payloads := init + [last];
    assert last in payloads;
    var p :| p in init && Observes(p, entry.symbol) && p.stockId == entry.stockId;
    assert p in payloads;
    var q :| q in init && Observes(q, entry.symbol) && q.newPrice == entry.lowest;
    assert q in payloads;
  }

  lemma {:induction false} FreshEntry(init: seq<Payload>, last: Payload)
    requires IsPrice(last) && forall p | p in init :: !Observes(p, last.symbol)
    ensures EntryOk(init + [last], StockPrice(last.stockId, last.symbol, last.newPrice, last.newPrice))
  {
    assert last in init + [last];
  }

  // An entry found by its id is an entry of the symbol.
  lemma {:induction false} EntryIdentity(init: seq<Payload>, last: Payload, entry: StockPrice)
    requires IsPrice(last) && IdsNameSymbols(init + [last]) && EntryOk(init, entry)
    ensures entry.stockId == last.stockId ==> entry.symbol == last.symbol
  {
    var p :| p in init && Observes(p, entry.symbol) && p.stockId == entry.stockId;
    assert p in init + [last] && last in init + [last];
  }

  lemma {:induction false} FoundEntry(init: seq<Payload>, last: Payload, entries: seq<StockPrice>)
    requires IsPrice(last) && IdsNameSymbols(init + [last]) && EntriesOk(init, entries) && OnePerSymbol(entries)
    ensures var k := FindEntry(entries, last.stockId, last.symbol);
      && (k < |entries| ==> entries[k].symbol == last.symbol)
      && (forall i | 0 <= i < |entries| && i != k :: entries[i].symbol != last.symbol)
  {
    forall i | 0 <= i < |entries| ensures entries[i].stockId == last.stockId ==> entries[i].symbol == last.symbol {
      EntryIdentity(init, last, entries[i]);
    }
  }

  lemma {:induction false} ObserveKeepsEntries(init: seq<Payload>, last: Payload, entries: seq<StockPrice>, k: nat)
    requires IsPrice(last) && EntriesOk(init, entries) && k == FindEntry(entries, last.stockId, last.symbol)
    requires k < |entries| ==> entries[k].symbol == last.symbol
    requires forall i | 0 <= i < |entries| && i != k :: entries[i].symbol != last.symbol
    requires k == |entries| ==> forall p | p in init :: !Observes(p, last.symbol)
    ensures EntriesOk(init + [last], Observe(entries, last.stockId, last.symbol, last.newPrice))
  {
    var after := Observe(entries, last.stockId, last.symbol, last.newPrice);
    forall i | 0 <= i < |after| ensures EntryOk(init + [last], after[i]) {
      if i == |entries| {
        FreshEntry(init, last);
      } else if i == k {
        EntryObserved(init, last, entries[i]);
      } else {
        EntryKept(init, last, entries[i]);
      }
    }
  }

  lemma {:induction false} ObserveCovers(init: seq<Payload>, last: Payload, entries: seq<StockPrice>, k: nat)
    requires IsPrice(last) && Covers(entries, init) && k == FindEntry(entries, last.stockId, last.symbol)
    requires k < |entries| ==> entries[k].symbol == last.symbol
    ensures Covers(Observe(entries, last.stockId, last.symbol, last.newPrice), init + [last])
  {
    var after := Observe(entries, last.stockId, last.symbol, last.newPrice);
    forall p | p in init + [last] && IsPrice(p) ensures HasSymbol(after, p.symbol) {
      if p in init {
        var i :| 0 <= i < |entries| && entries[i].symbol == p.symbol;
        assert after[i].symbol == p.symbol;
      } else {
        assert after[k].symbol == p.symbol;
      }
    }
  }

  lemma {:induction false} ObserveKeepsTable(init: seq<Payload>, last: Payload, entries: seq<StockPrice>)
    requires IsPrice(last) && IdsNameSymbols(init + [last]) && TableOk(init, entries)
    ensures TableOk(init + [last], Observe(entries, last.stockId, last.symbol, last.newPrice))
  {
    var k := FindEntry(entries, last.stockId, last.symbol);
    FoundEntry(init, last, entries);
    ObserveKeepsEntries(init, last, entries, k);
    ObserveCovers(init, last, entries, k);
  }

  lemma {:induction false} OtherEventKeepsTable(init: seq<Payload>, last: Payload, entries: seq<StockPrice>)
    requires !IsPrice(last) && TableOk(init, entries)
    ensures TableOk(init + [last], entries)
  {
    forall i | 0 <= i < |entries| ensures EntryOk(init + [last], entries[i]) {
      EntryKept(init, last, entries[i]);
    }
  }

  lemma {:induction false} PricesAfter(m: Metrics, p: Payload, scope: Scope)
    ensures MetricsAfter(m, p, scope).stockPrices
         == if IsPrice(p) then Observe(m.stockPrices, p.stockId, p.symbol, p.newPrice) else m.stockPrices
  {
  }

  lemma {:induction false} EventKeepsTable(init: seq<Payload>, last: Payload, entries: seq<StockPrice>)
    requires IdsNameSymbols(init + [last]) && TableOk(init, entries)
    ensures TableOk(init + [last], if IsPrice(last) then Observe(entries, last.stockId, last.symbol, last.newPrice)
        else entries)
  {
    if IsPrice(last) {
      ObserveKeepsTable(init, last, entries);
    } else {
      OtherEventKeepsTable(init, last, entries);
    }
  }

  lemma {:induction false} ObservedPriceTable(payloads: seq<Payload>, scope: Scope)
    requires IdsNameSymbols(payloads)
    ensures TableOk(payloads, MetricsOf(payloads, scope).stockPrices)
  {
    if payloads != [] {
      var init, last := payloads[..|payloads| - 1], payloads[|payloads| - 1];
      assert payloads == init + [last];
      assert IdsNameSymbols(init) by {
        assert forall p | p in init :: p in payloads;
      }
      ObservedPriceTable(init, scope);
      PricesAfter(MetricsOf(init, scope), last, scope);
      EventKeepsTable(init, last, MetricsOf(init, scope).stockPrices);
    }
  }

  // An observation is filed under another symbol exactly when an entry of another symbol that carries
  // its id comes before every entry of its own symbol.
  lemma {:induction false} MisfiledIff(entries: seq<StockPrice>, stockId: Option<Id>, symbol: string)
    ensures var k := FindEntry(entries, stockId, symbol);
      (k < |entries| && entries[k].symbol != symbol)
      <==> exists i :: 0 <= i < |entries| && entries[i].stockId == stockId && entries[i].symbol != symbol
                       && forall j | 0 <= j < i :: entries[j].symbol != symbol
  {
    var k := FindEntry(entries, stockId, symbol);
    if i :| 0 <= i < |entries| && entries[i].stockId == stockId && entries[i].symbol != symbol
            && forall j | 0 <= j < i :: entries[j].symbol != symbol {
      assert k <= i;
    }
  }

  // The prices of two symbols get separate entries exactly when their stock ids differ; otherwise the
  // second price is filed under the first symbol.
  lemma {:induction false} SymbolsShareEntryIff(s: Option<Id>, a: string, x: real, t: Option<Id>, b: string, y: real,
      scope: Scope)
    requires a != b
    ensures var feed := [StockPriceUpdated(s, a, None, x), StockPriceUpdated(t, b, None, y)];
      var entries := MetricsOf(feed, scope).stockPrices;
      && entries != [] && entries[0].symbol == a
      && (s != t <==> |entries| == 2 && entries[0].latest == x && entries[1].symbol == b && entries[1].latest == y)
      && (s == t <==> |entries| == 1 && entries[0].latest == y)
  {
    var first, second := StockPriceUpdated(s, a, None, x), StockPriceUpdated(t, b, None, y);
    assert [first, second][..1] == [first] && [first][..0] == [];
    assert MetricsOf([first], scope).stockPrices == [StockPrice(s, a, x, x)];
  }
}
