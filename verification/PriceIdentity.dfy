/**
 A stock id names one symbol in everything the price updates publish, however they interleave;
   so the observed-price tables of the analytics are right for every delivery.
 */
module PriceIdentity {
  import opened Wrappers
  import opened AnalyticsEvents
  import opened Domain
  import opened Protocol
  import StockPrices
  import opened Buckets
  import opened Metrics
  import opened Sums
  import opened Snapshots
  import opened Consumer
  import Ownership
  import opened EventLog
  import opened Agreement

  predicate StockIs(db: Db, symbol: string, id: Id) { symbol in db.stocks && db.stocks[symbol].id == id }

  ghost predicate StockIdsDistinct(db: Db) {
    forall y, z | y in db.stocks && z in db.stocks && db.stocks[y].id == db.stocks[z].id :: y == z
  }

  predicate NamesStock(db: Db, p: Payload) {
    IsPrice(p) ==> p.stockId.Some? && StockIs(db, p.symbol, p.stockId.value)
  }

  function SeenStock(pc: PricePc): Option<Stock> {
    match pc
    case PriceRead(was) => was
    case PriceRecorded(was, _, _) => was
    case Upserted(was, _, _, _) => was
    case PriceAnnounced(was, _) => was
    case _ => None
  }

  predicate UpdaterOk(db: Db, p: Proc) {
    p.PriceUpdate? ==>
      && (SeenStock(p.upd).Some? ==> StockIs(db, p.symbol, SeenStock(p.upd).value.id))
      && (p.upd.Upserted? ==> StockIs(db, p.symbol, p.upd.stock.id))
  }

  ghost predicate IdentityInv(s: Sys) {
    && StockIdsDistinct(s.db)
    && (forall i | 0 <= i < |s.procs| :: UpdaterOk(s.db, s.procs[i]))
    && (forall e | e in s.db.events :: NamesStock(s.db, e.payload))
  }

  ghost predicate KeepsStocks(db: Db, db': Db) {
    forall y | y in db.stocks :: StockIs(db', y, db.stocks[y].id)
  }

  lemma {:induction false} PriceStepIdentity(db: Db, symbol: string, price: real, pc: PricePc, env: Env)
    requires StockIdsDistinct(db) && IdUnused(db, env.freshId) && UpdaterOk(db, PriceUpdate(symbol, price, pc))
    ensures var (db', pc', more) := PriceStep(db, symbol, price, pc, env);
      && KeepsStocks(db, db') && StockIdsDistinct(db') && UpdaterOk(db', PriceUpdate(symbol, price, pc'))
      && forall q | q in more :: !q.PriceUpdate?
  {
  }

  lemma {:induction false} StepIdentity(db: Db, p: Proc, env: Env)
    requires StockIdsDistinct(db) && IdUnused(db, env.freshId) && UpdaterOk(db, p)
    ensures var (db', p', more) := ProcStep(db, p, env);
      && KeepsStocks(db, db') && StockIdsDistinct(db') && UpdaterOk(db', p')
      && forall q | q in more :: !q.PriceUpdate?
  {
    if p.PriceUpdate? {
      PriceStepIdentity(db, p.symbol, p.price, p.upd, env);
    } else {
      StockPrices.OtherStepStocks(db, p, env);
    }
  }

  lemma {:induction false} PublishedNamesStock(db: Db, p: Proc, env: Env)
    requires UpdaterOk(db, p) && Publishes(p, env).Some?
    ensures NamesStock(db, Publishes(p, env).value.payload)
  {
  }

  lemma {:induction false} StepKeepsIdentity(s: Sys, i: nat, env: Env)
    requires IdentityInv(s) && i < |s.procs| && EnvOk(s.db, s.procs[i], env)
    ensures IdentityInv(Step(s, Advance(i, env)))
  {
    var p := s.procs[i];
    var s' := Step(s, Advance(i, env));
    var (db', p', more) := ProcStep(s.db, p, env);
    StepIdentity(s.db, p, env);
    StepPublishes(s.db, p, env);
    forall k | 0 <= k < |s'.procs| ensures UpdaterOk(s'.db, s'.procs[k]) {
      if k < |s.procs| && k != i {
        assert UpdaterOk(s.db, s.procs[k]);
      }
    }
    forall e | e in s'.db.events ensures NamesStock(s'.db, e.payload) {
      if e !in s.db.events {
        PublishedNamesStock(s.db, p, env);
      }
    }
  }

  lemma {:induction false} RunKeepsIdentity(s0: Sys, acts: seq<Action>)
    requires Init(s0) && StockIdsDistinct(s0.db)
    ensures IdentityInv(Run(s0, acts))
  {
    if acts != [] {
      var init, a := acts[..|acts| - 1], acts[|acts| - 1];
      RunKeepsIdentity(s0, init);
      var s := Run(s0, init);
      if a.Advance? && a.i < |s.procs| && EnvOk(s.db, s.procs[a.i], a.env) {
        StepKeepsIdentity(s, a.i, a.env);
      }
    }
  }

  lemma {:induction false} DeliveredIdsNameSymbols(s: Sys, ds: seq<Event>, who: Option<Id>, b: Bucket)
    requires IdentityInv(s) && DeliveredFrom(ds, s.db.events)
    ensures IdsNameSymbols(PayloadsFor(FirstDeliveries(ds), who, b))
  {
    var ps := PayloadsFor(FirstDeliveries(ds), who, b);
    FirstDeliveriesOnce(ds);
    forall p | p in ps ensures NamesStock(s.db, p) {
      PayloadMember(FirstDeliveries(ds), who, b, p);
    }
  }

  // Every table of every bucket lists each stock once, with the lowest price delivered for it, and any
  // two complete deliveries agree on its stocks and lowest prices.
  lemma {:induction false} DeliveredPriceTables(
      s0: Sys, acts: seq<Action>, ds: seq<Event>, ds': seq<Event>, who: Option<Id>, b: Bucket)
    requires Init(s0) && StockIdsDistinct(s0.db) && who != Some("")
    requires var log := Run(s0, acts).db.events; DeliveredFrom(ds, log) && DeliveredFrom(ds', log)
    ensures TableOk(PayloadsFor(FirstDeliveries(ds), who, b), SnapshotAfter(FirstDeliveries(ds), who, b).stockPrices)
    ensures Ids(ds) == Ids(ds') ==>
      LowestAgree(SnapshotAfter(FirstDeliveries(ds), who, b), SnapshotAfter(FirstDeliveries(ds'), who, b))
  {
    RunKeepsIdentity(s0, acts);
    DeliveredIdsNameSymbols(Run(s0, acts), ds, who, b);
    SnapshotIsFold(FirstDeliveries(ds), who, b);
    ObservedPriceTable(PayloadsFor(FirstDeliveries(ds), who, b), ScopeOf(who));
    if Ids(ds) == Ids(ds') {
      BucketPricesAgree(s0, acts, ds, ds', who, b);
      SnapshotIsFold(FirstDeliveries(ds'), who, b);
      TablesAgree(PayloadsFor(FirstDeliveries(ds), who, b), PayloadsFor(FirstDeliveries(ds'), who, b), ScopeOf(who));
    }
  }
}
