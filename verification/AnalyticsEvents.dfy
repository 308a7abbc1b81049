/**
 The analytics events, their payloads, and the event identity on which the consumer deduplicates.
 An event type and its payload shape always go together, so both are one constructor of `Payload`.
 */
module AnalyticsEvents {
  import opened Wrappers

  type Id = string

  datatype OrderEventKind = Created | Triggered | Cancelled | Executed | Failed

  datatype Payload =
    | OrderPayload(kind: OrderEventKind, orderId: Id, symbol: string,
                   quantity: Option<real>, price: Option<real>, totalCost: Option<real>, status: Option<string>)
    | WalletDeposited(amount: real, balanceBefore: real, balanceAfter: real)
    | WalletDebited(amount: real, balanceBefore: real, balanceAfter: real)
    | StockPriceUpdated(stockId: Option<Id>, symbol: string, oldPrice: Option<real>, newPrice: real)
    | StockPriceDecreased(stockId: Option<Id>, symbol: string, oldPrice: Option<real>, newPrice: real)
    | StockSubscriptionChanged(stockIds: seq<Id>)

  datatype Event = Event(eventId: string, occurredAt: int, userId: Option<Id>, payload: Payload)

  // The five order types come first; the remaining types follow in the order of the enumeration.
  datatype EventType = OrderType(kind: OrderEventKind) | DepositedType | DebitedType
                     | PriceUpdatedType | PriceDecreasedType | SubscriptionType

  function TypeOf(p: Payload): EventType {
    match p
    case OrderPayload(kind, _, _, _, _, _, _) => OrderType(kind)
    case WalletDeposited(_, _, _) => DepositedType
    case WalletDebited(_, _, _) => DebitedType
    case StockPriceUpdated(_, _, _, _) => PriceUpdatedType
    case StockPriceDecreased(_, _, _, _) => PriceDecreasedType
    case StockSubscriptionChanged(_) => SubscriptionType
  }

  function TypeName(t: EventType): string {
    match t
    case OrderType(Created) => "order.created"
    case OrderType(Triggered) => "order.triggered"
    case OrderType(Cancelled) => "order.cancelled"
    case OrderType(Executed) => "order.executed"
    case OrderType(Failed) => "order.failed"
    case DepositedType => "wallet.deposited"
    case DebitedType => "wallet.debited"
    case PriceUpdatedType => "stock.price.updated"
    case PriceDecreasedType => "stock.price.decreased"
    case SubscriptionType => "stock.subscription.changed"
  }

  function CreateAnalyticsEventId(t: EventType, id: Id): string {
    TypeName(t) + ":" + id
  }

  // The event ids, spelled out.
  lemma {:induction false} EventIdSpelled(id: Id)
    ensures CreateAnalyticsEventId(OrderType(Created), id) == "order.created:" + id
    ensures CreateAnalyticsEventId(OrderType(Triggered), id) == "order.triggered:" + id
    ensures CreateAnalyticsEventId(OrderType(Cancelled), id) == "order.cancelled:" + id
    ensures CreateAnalyticsEventId(OrderType(Executed), id) == "order.executed:" + id
    ensures CreateAnalyticsEventId(OrderType(Failed), id) == "order.failed:" + id
    ensures CreateAnalyticsEventId(DepositedType, id) == "wallet.deposited:" + id
    ensures CreateAnalyticsEventId(DebitedType, id) == "wallet.debited:" + id
    ensures CreateAnalyticsEventId(PriceUpdatedType, id) == "stock.price.updated:" + id
    ensures CreateAnalyticsEventId(PriceDecreasedType, id) == "stock.price.decreased:" + id
    ensures CreateAnalyticsEventId(SubscriptionType, id) == "stock.subscription.changed:" + id
  {
    assert "order.created" + ":" == "order.created:" && "order.triggered" + ":" == "order.triggered:";
    assert "order.cancelled" + ":" == "order.cancelled:" && "order.executed" + ":" == "order.executed:";
    assert "order.failed" + ":" == "order.failed:" && "wallet.deposited" + ":" == "wallet.deposited:";
    assert "wallet.debited" + ":" == "wallet.debited:" && "stock.price.updated" + ":" == "stock.price.updated:";
    assert "stock.price.decreased" + ":" == "stock.price.decreased:";
    assert "stock.subscription.changed" + ":" == "stock.subscription.changed:";
  }

  lemma {:induction false} TypeNamesHaveNoColon(t: EventType)
    ensures ':' !in TypeName(t)
  {
  }

  lemma {:induction false} TypeNamesDiffer(t: EventType, u: EventType)
    requires TypeName(t) == TypeName(u)
    ensures t == u
  {
    var a, b := TypeName(t), TypeName(u);
    assert |a| == |b|;
    assert |a| > 6 ==> a[6] == b[6];
    assert |a| > 7 ==> a[7] == b[7];
  }

  // Type and document id can both be read back from an event id: no two documents, and no two
  // event types of one document, ever share an id.
  lemma {:induction false} EventIdInjective(t: EventType, id: Id, u: EventType, id': Id)
    requires CreateAnalyticsEventId(t, id) == CreateAnalyticsEventId(u, id')
    ensures t == u && id == id'
  {
    var a, b := TypeName(t), TypeName(u);
    var s := CreateAnalyticsEventId(t, id);
    TypeNamesHaveNoColon(t);
    TypeNamesHaveNoColon(u);
    assert s[|a|] == ':' && s[|b|] == ':';
    assert |a| >= |b|;
    assert |b| >= |a|;
    assert a == s[..|a|] && b == s[..|b|];
    assert id == s[|a| + 1..] && id' == s[|b| + 1..];
    TypeNamesDiffer(t, u);
  }

  function OrderStatusName(kind: OrderEventKind): string {
    match kind
    case Created => "pending"
    case Triggered => "triggered"
    case Cancelled => "cancelled"
    case Executed => "completed"
    case Failed => "failed"
  }
}
