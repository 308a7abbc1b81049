/**
 The documents of the trading database and its collections.  Every collection is a field of `Db`;
 the unique indexes are lookups made before an insert.
 */
module Domain {
  import opened Wrappers
  import opened AnalyticsEvents

  datatype OrderStatus = Pending | Triggered | Executing | Completed | Cancelled | Failed

  datatype StatusReason = NoReason | CancelledByUser | PriceMovedAboveTarget | InsufficientFunds | ExecutedSuccessfully

  datatype Order = Order(
    userId: Id, symbol: string, targetPrice: real, quantity: real,
    status: OrderStatus, reason: StatusReason,
    executedPrice: Option<real>, executedAt: Option<int>, idempotencyKey: Option<string>)

  datatype User = User(walletBalance: real, active: bool)

  // leastPrice is absent on a stock that a price update created before the start-up repair ran.
  datatype Stock = Stock(id: Id, currentPrice: real, leastPrice: Option<real>, active: bool)

  datatype Trade = Trade(buyOrderId: Id, userId: Id, symbol: string,
                         executedPrice: real, quantity: real, totalCost: real, executedAt: int)

  datatype LedgerKind = DepositRow | DebitRow

  datatype LedgerRow = LedgerRow(id: Id, userId: Id, kind: LedgerKind, amount: real,
                                 balanceBefore: real, balanceAfter: real, referenceId: Id)

  datatype Position = Position(quantityOwned: real, totalInvested: real, avgBuyPrice: real)

  datatype PriceEvent = PriceEvent(id: Id, symbol: string, oldPrice: Option<real>, newPrice: real)

  datatype Db = Db(
    users: map<Id, User>, stocks: map<string, Stock>, orders: map<Id, Order>,
    trades: seq<Trade>, ledger: seq<LedgerRow>, positions: map<(Id, string), Position>,
    priceEvents: seq<PriceEvent>, events: seq<Event>)

  // The trades recorded for an order, in insertion order.
  function TradesOf(trades: seq<Trade>, o: Id): seq<Trade> {
    if trades == [] then []
    else
      var t := trades[|trades| - 1];
      TradesOf(trades[..|trades| - 1], o) + if t.buyOrderId == o then [t] else []
  }

  // The debit rows recorded for an order, in insertion order.
  function DebitsOf(ledger: seq<LedgerRow>, o: Id): seq<LedgerRow> {
    if ledger == [] then []
    else
      var r := ledger[|ledger| - 1];
      DebitsOf(ledger[..|ledger| - 1], o) + if r.kind == DebitRow && r.referenceId == o then [r] else []
  }

  lemma {:induction false} TradesOfAppend(trades: seq<Trade>, t: Trade, o: Id)
    ensures TradesOf(trades + [t], o) == TradesOf(trades, o) + if t.buyOrderId == o then [t] else []
  {
    assert (trades + [t])[..|trades|] == trades;
  }

  lemma {:induction false} DebitsOfAppend(ledger: seq<LedgerRow>, r: LedgerRow, o: Id)
    ensures DebitsOf(ledger + [r], o)
         == DebitsOf(ledger, o) + if r.kind == DebitRow && r.referenceId == o then [r] else []
  {
    assert (ledger + [r])[..|ledger|] == ledger;
  }

  lemma {:induction false} TradesOfMember(trades: seq<Trade>, t: Trade, o: Id)
    ensures t in TradesOf(trades, o) <==> t in trades && t.buyOrderId == o
  {
    if trades != [] {
      TradesOfMember(trades[..|trades| - 1], t, o);
      assert trades == trades[..|trades| - 1] + [trades[|trades| - 1]];
    }
  }

  lemma {:induction false} DebitsOfMember(ledger: seq<LedgerRow>, r: LedgerRow, o: Id)
    ensures r in DebitsOf(ledger, o) <==> r in ledger && r.kind == DebitRow && r.referenceId == o
  {
    if ledger != [] {
      DebitsOfMember(ledger[..|ledger| - 1], r, o);
      assert ledger == ledger[..|ledger| - 1] + [ledger[|ledger| - 1]];
    }
  }

  // Two places holding a trade of one order show up as two trades of that order.
  lemma {:induction false} TradesOfTwice(trades: seq<Trade>, i: nat, j: nat)
    requires i < j < |trades| && trades[i].buyOrderId == trades[j].buyOrderId
    ensures |TradesOf(trades, trades[j].buyOrderId)| >= 2
  {
    var n := |trades| - 1;
    var o := trades[j].buyOrderId;
    if j == n {
      TradesOfMember(trades[..n], trades[i], o);
      assert trades[..n][i] == trades[i];
    } else {
      assert trades[..n][i] == trades[i] && trades[..n][j] == trades[j];
      TradesOfTwice(trades[..n], i, j);
    }
  }

  // --- Single-document writes ---

  // The conditional debit: it matches only an active user who can pay.
  predicate CanAfford(users: map<Id, User>, userId: Id, amount: real) {
    userId in users && users[userId].walletBalance >= amount && users[userId].active
  }

  predicate CanPay(db: Db, userId: Id, amount: real) { CanAfford(db.users, userId, amount) }

  function Credited(users: map<Id, User>, userId: Id, amount: real): map<Id, User>
    requires userId in users
  {
    users[userId := users[userId].(walletBalance := users[userId].walletBalance + amount)]
  }

  function SetOrder(db: Db, o: Id, order: Order): Db {
    db.(orders := db.orders[o := order])
  }

  predicate SameTerms(a: Order, b: Order) {
    a.userId == b.userId && a.symbol == b.symbol && a.targetPrice == b.targetPrice && a.quantity == b.quantity
    && a.idempotencyKey == b.idempotencyKey
  }

  function Cost(order: Order, price: real): real {
    order.quantity * price
  }

  // The least-price rule of the price upsert.  What a missing field compares to is left to the
  // database: `missingIsNull` says whether it counts as null.
  function UpsertedStock(was: Option<Stock>, price: real, newId: Id, missingIsNull: bool): Stock {
    var missing := if missingIsNull then Some(price) else None;
    match was
    case None => Stock(newId, price, missing, true)
    case Some(st) =>
      var least := match st.leastPrice
                   case None => missing
                   case Some(least) => Some(if price < least then price else least);
      st.(currentPrice := price, leastPrice := least, active := true)
  }

  function Lookup<K, V>(m: map<K, V>, k: K): Option<V> {
    if k in m then Some(m[k]) else None
  }

  // Saving a loaded position sends only the fields whose value changed since it was loaded;
  // the other fields keep what the stored document holds by then.
  function SavePosition(stored: Position, loaded: Position, quantity: real, totalCost: real): Position {
    var q := loaded.quantityOwned + quantity;
    var c := loaded.totalInvested + totalCost;
    var a := if q == 0.0 then 0.0 else c / q;
    Position(
      if q == loaded.quantityOwned then stored.quantityOwned else q,
      if c == loaded.totalInvested then stored.totalInvested else c,
      if a == loaded.avgBuyPrice then stored.avgBuyPrice else a)
  }

  function NewPosition(quantity: real, totalCost: real): Position {
    Position(quantity, totalCost, if quantity == 0.0 then 0.0 else totalCost / quantity)
  }

  // The documents the pending-order query selects.
  predicate Eligible(order: Order, symbol: string, price: real) {
    order.symbol == symbol && order.status == Pending && order.targetPrice >= price
  }

  function EligibleIds(orders: map<Id, Order>, symbol: string, price: real): set<Id> {
    set o | o in orders && Eligible(orders[o], symbol, price)
  }

  // A query returns every selected document once, in no promised order.
  ghost predicate Lists(listing: seq<Id>, ids: set<Id>) {
    && (forall o :: o in listing <==> o in ids)
    && (forall i, j | 0 <= i < j < |listing| :: listing[i] != listing[j])
  }
}
