/**
 What is told about prices, over every schedule: a published price event carries the symbol and the two
 prices of the record its id names, a decrease is published exactly for a record whose price fell, and the
 analytics count the records.
 */
module PriceNews {
  import opened Wrappers
  import opened AnalyticsEvents
  import opened Domain
  import opened Protocol
  import opened OrderSafety
  import opened Livelock
  import opened EventLog
  import opened Metrics
  import opened Sums
  import opened Snapshots
  import opened Consumer
  import opened Agreement
  import opened Books

  // --- Every price event tells what a record says ---

  // The record an update announces once it has written it.
  function RecordOf(p: Proc): PriceEvent
    requires UpdateRecorded(p)
  {
    PriceEvent(p.upd.eventId, p.symbol, OldPrice(p.upd.was), p.price)
  }

  predicate Fell(pe: PriceEvent) { pe.oldPrice.Some? && pe.newPrice < pe.oldPrice.value }

  // The payload without the stock id.
  predicate Tells(p: Payload, pe: PriceEvent) {
    match p
    case StockPriceUpdated(_, symbol, oldPrice, newPrice) =>
      symbol == pe.symbol && oldPrice == pe.oldPrice && newPrice == pe.newPrice
    case StockPriceDecreased(_, symbol, oldPrice, newPrice) =>
      symbol == pe.symbol && oldPrice == pe.oldPrice && newPrice == pe.newPrice && Fell(pe)
    case _ => false
  }

  ghost predicate ToldBy(db: Db, e: Event, pe: PriceEvent) {
    pe in db.priceEvents && IsAbout(e, TypeOf(e.payload), pe.id) && Tells(e.payload, pe)
  }

  ghost predicate Told(db: Db, e: Event) { exists pe :: ToldBy(db, e, pe) }

  function RecordId(): PriceEvent -> string { (pe: PriceEvent) => pe.id }

  ghost predicate NewsInv(s: Sys) {
    && DistinctKeys(s.db.priceEvents, RecordId())
    && (forall i | 0 <= i < |s.procs| && UpdateRecorded(s.procs[i]) :: RecordOf(s.procs[i]) in s.db.priceEvents)
    && (forall e | e in s.db.events && IsPrice(e.payload) :: Told(s.db, e))
  }

  lemma {:induction false} PriceStepRecords(db: Db, p: Proc, env: Env)
    requires p.PriceUpdate?
    ensures var (db', p', more) := ProcStep(db, p, env);
      && (forall q | q in more :: !q.PriceUpdate?)
      && if p.upd.PriceRead?
         then UpdateRecorded(p') && db'.priceEvents == db.priceEvents + [RecordOf(p')] && RecordOf(p').id == env.freshId
         else db'.priceEvents == db.priceEvents
              && (UpdateRecorded(p') ==> UpdateRecorded(p) && RecordOf(p') == RecordOf(p))
  {
  }

  lemma {:induction false} OtherStepRecords(db: Db, p: Proc, env: Env)
    requires !p.PriceUpdate?
    ensures var (db', p', more) := ProcStep(db, p, env);
      !p'.PriceUpdate? && db'.priceEvents == db.priceEvents && forall q | q in more :: !q.PriceUpdate?
  {
  }

  lemma {:induction false} StepRecords(db: Db, p: Proc, env: Env)
    ensures var (db', p', more) := ProcStep(db, p, env);
      && (forall q | q in more :: !q.PriceUpdate?)
      && if p.PriceUpdate? && p.upd.PriceRead?
         then UpdateRecorded(p') && db'.priceEvents == db.priceEvents + [RecordOf(p')] && RecordOf(p').id == env.freshId
         else db'.priceEvents == db.priceEvents
              && (UpdateRecorded(p') ==> UpdateRecorded(p) && RecordOf(p') == RecordOf(p))
  {
    if p.PriceUpdate? {
      PriceStepRecords(db, p, env);
    } else {
      OtherStepRecords(db, p, env);
    }
  }

  lemma {:induction false} PublishedTells(p: Proc, env: Env)
    requires Publishes(p, env).Some? && IsPrice(Publishes(p, env).value.payload)
    ensures var e := Publishes(p, env).value;
      UpdateRecorded(p) && IsAbout(e, TypeOf(e.payload), RecordOf(p).id) && Tells(e.payload, RecordOf(p))
  {
  }

  lemma {:induction false} OneMoreRecord(records: seq<PriceEvent>, pe: PriceEvent)
    requires DistinctKeys(records, RecordId()) && forall x | x in records :: x.id != pe.id
    ensures DistinctKeys(records + [pe], RecordId())
  {
    assert forall j | 0 <= j < |records| :: (records + [pe])[j] == records[j] && records[j] in records;
  }

  lemma {:induction false} StepKeepsNews(s: Sys, i: nat, env: Env)
    requires NewsInv(s) && i < |s.procs| && EnvOk(s.db, s.procs[i], env)
    ensures NewsInv(Step(s, Advance(i, env)))
  {
    var p := s.procs[i];
    var s' := Step(s, Advance(i, env));
    var (db', p', more) := ProcStep(s.db, p, env);
    StepRecords(s.db, p, env);
    StepPublishes(s.db, p, env);
    if p.PriceUpdate? && p.upd.PriceRead? {
      OneMoreRecord(s.db.priceEvents, RecordOf(p'));
    }
    assert forall pe | pe in s.db.priceEvents :: pe in db'.priceEvents;
    forall k | 0 <= k < |s'.procs| && UpdateRecorded(s'.procs[k]) ensures RecordOf(s'.procs[k]) in db'.priceEvents {
      if k < |s.procs| && k != i {
        assert RecordOf(s.procs[k]) in s.db.priceEvents;
      }
    }
    forall e | e in db'.events && IsPrice(e.payload) ensures Told(db', e) {
      if e in s.db.events {
        var pe :| ToldBy(s.db, e, pe);
        assert ToldBy(db', e, pe);
      } else {
        PublishedTells(p, env);
        assert ToldBy(db', e, RecordOf(p));
      }
    }
  }

  lemma {:induction false} RunKeepsNews(s0: Sys, acts: seq<Action>)
    requires Init(s0)
    ensures NewsInv(Run(s0, acts))
  {
    if acts != [] {
      var init, a := acts[..|acts| - 1], acts[|acts| - 1];
      RunKeepsNews(s0, init);
      var s := Run(s0, init);
      if a.Advance? && a.i < |s.procs| && EnvOk(s.db, s.procs[a.i], a.env) {
        StepKeepsNews(s, a.i, a.env);
      }
    }
  }

  // Every published price event has the id of one price record, and carries its symbol and both its prices;
  // a decrease is only published for a record with an old price above the new one.
  lemma {:induction false} PublishedPrices(s0: Sys, acts: seq<Action>, e: Event) returns (pe: PriceEvent)
    requires Init(s0) && e in Run(s0, acts).db.events
    requires e.payload.StockPriceUpdated? || e.payload.StockPriceDecreased?
    ensures pe in Run(s0, acts).db.priceEvents
    ensures e.userId == None && e.payload.symbol == pe.symbol
    ensures e.payload.oldPrice == pe.oldPrice && e.payload.newPrice == pe.newPrice
    ensures e.payload.StockPriceUpdated? ==> e.eventId == "stock.price.updated:" + pe.id
    ensures e.payload.StockPriceDecreased? ==>
      e.eventId == "stock.price.decreased:" + pe.id && pe.oldPrice.Some? && pe.newPrice < pe.oldPrice.value
    ensures forall x | x in Run(s0, acts).db.priceEvents && x.id == pe.id :: x == pe
  {
    var db := Run(s0, acts).db;
    RunKeepsNews(s0, acts);
    RunKeepsLog(s0, acts);
    assert Stated(db, e) && Told(db, e);
    pe :| ToldBy(db, e, pe);
    EventIdSpelled(pe.id);
    SoleRecord(db.priceEvents, pe);
  }

  lemma {:induction false} SoleRecord(records: seq<PriceEvent>, pe: PriceEvent)
    requires DistinctKeys(records, RecordId()) && pe in records
    ensures forall x | x in records && x.id == pe.id :: x == pe
  {
    var j :| 0 <= j < |records| && records[j] == pe;
    forall x | x in records && x.id == pe.id ensures x == pe {
      var k :| 0 <= k < |records| && records[k] == x;
      assert RecordId()(records[j]) == RecordId()(records[k]);
    }
  }

  // --- Where a record comes from ---

  // The price a request has read, at some step before.
  lemma {:induction false} PriceWasRead(s0: Sys, acts: seq<Action>, n: nat, i: nat) returns (k: nat)
    requires Init(s0) && n <= |acts| && i < |At(s0, acts, n).procs| && At(s0, acts, n).procs[i].PriceUpdate?
    requires At(s0, acts, n).procs[i].upd.PriceRead?
    ensures k < n && var p, stocks := At(s0, acts, n).procs[i], At(s0, acts, k).db.stocks;
      p.upd.was == if p.symbol in stocks then Some(stocks[p.symbol]) else None
    decreases n
  {
    assert acts[..0] == [];
    NextState(s0, acts, n - 1);
    var s := At(s0, acts, n - 1);
    UpdateBefore(s, acts[n - 1], i);
    if s.procs[i].upd.PriceRead? {
      k := PriceWasRead(s0, acts, n - 1, i);
    } else {
      k := n - 1;
    }
  }

  lemma {:induction false} UpdateBefore(s: Sys, a: Action, i: nat)
    requires i < |Step(s, a).procs| && Step(s, a).procs[i].PriceUpdate? && Step(s, a).procs[i].upd.PriceRead?
    ensures i < |s.procs| && s.procs[i].PriceUpdate? && s.procs[i].symbol == Step(s, a).procs[i].symbol
    ensures s.procs[i] == Step(s, a).procs[i] || (s.procs[i].upd.PriceQueued? && Step(s, a).procs[i].upd.was
        == if s.procs[i].symbol in s.db.stocks then Some(s.db.stocks[s.procs[i].symbol]) else None)
  {
    if a.Advance? && a.i < |s.procs| && EnvOk(s.db, s.procs[a.i], a.env) {
      StepRecords(s.db, s.procs[a.i], a.env);
      var more := ProcStep(s.db, s.procs[a.i], a.env).2;
      assert forall j | |s.procs| <= j < |Step(s, a).procs| :: Step(s, a).procs[j] in more;
    }
  }

  // A step that records a price is one of a price update, and records its symbol and price; the old price
  // is what the stock's was at an earlier step, and absent exactly if there was no such stock then.
  lemma {:induction false} RecordedPrices(s0: Sys, acts: seq<Action>, m: nat) returns (k: nat)
    requires Init(s0) && m < |acts| && At(s0, acts, m + 1).db.priceEvents != At(s0, acts, m).db.priceEvents
    ensures acts[m].Advance? && acts[m].i < |At(s0, acts, m).procs|
    ensures k < m && var p, stocks := At(s0, acts, m).procs[acts[m].i], At(s0, acts, k).db.stocks;
      && p.PriceUpdate?
      && At(s0, acts, m + 1).db.priceEvents == At(s0, acts, m).db.priceEvents
         + [PriceEvent(acts[m].env.freshId, p.symbol,
                       if p.symbol in stocks then Some(stocks[p.symbol].currentPrice) else None, p.price)]
  {
    NextState(s0, acts, m);
    var s := At(s0, acts, m);
    assert acts[m].Advance?;
    StepRecords(s.db, s.procs[acts[m].i], acts[m].env);
    k := PriceWasRead(s0, acts, m, acts[m].i);
  }

  // --- Every record is announced, or about to be ---

  // The process still has to publish the update, or the decrease, of this record.
  predicate OwesNews(p: Proc, t: EventType, pe: PriceEvent) {
    && UpdateRecorded(p) && RecordOf(p) == pe
    && (t == PriceUpdatedType ==> !p.upd.PriceAnnounced?)
  }

  predicate IsNews(t: EventType, pe: PriceEvent) { t == PriceUpdatedType || (t == PriceDecreasedType && Fell(pe)) }

  ghost predicate NewsAnnounced(s: Sys, t: EventType, pe: PriceEvent) {
    || CreateAnalyticsEventId(t, pe.id) in Ids(s.db.events)
    || exists i :: 0 <= i < |s.procs| && OwesNews(s.procs[i], t, pe)
  }

  ghost predicate AllNewsAnnounced(s: Sys) {
    forall t, pe | pe in s.db.priceEvents && IsNews(t, pe) :: NewsAnnounced(s, t, pe)
  }

  lemma {:induction false} StepPaysNews(db: Db, p: Proc, env: Env, t: EventType, pe: PriceEvent)
    requires OwesNews(p, t, pe) && IsNews(t, pe)
    ensures OwesNews(ProcStep(db, p, env).1, t, pe)
            || (Publishes(p, env).Some? && IsAbout(Publishes(p, env).value, t, pe.id))
  {
  }

  lemma {:induction false} NewsKept(s: Sys, i: nat, env: Env, t: EventType, pe: PriceEvent)
    requires i < |s.procs| && EnvOk(s.db, s.procs[i], env) && env.delivered
    requires NewsAnnounced(s, t, pe) && IsNews(t, pe)
    ensures NewsAnnounced(Step(s, Advance(i, env)), t, pe)
  {
    var s' := Step(s, Advance(i, env));
    StepPublishes(s.db, s.procs[i], env);
    if CreateAnalyticsEventId(t, pe.id) in Ids(s.db.events) {
      assert forall e | e in s.db.events :: e in s'.db.events;
    } else {
      var j :| 0 <= j < |s.procs| && OwesNews(s.procs[j], t, pe);
      StepPaysNews(s.db, s.procs[j], env, t, pe);
      if j != i || OwesNews(ProcStep(s.db, s.procs[i], env).1, t, pe) {
        assert OwesNews(s'.procs[j], t, pe);
      } else {
        InIds(s'.db.events, Publishes(s.procs[i], env).value);
      }
    }
  }

  lemma {:induction false} StepKeepsNewsAnnounced(s: Sys, a: Action)
    requires AllNewsAnnounced(s) && (a.Advance? ==> a.env.delivered)
    ensures AllNewsAnnounced(Step(s, a))
  {
    var s' := Step(s, a);
    forall t, pe | pe in s'.db.priceEvents && IsNews(t, pe) ensures NewsAnnounced(s', t, pe) {
      if a.Advance? && a.i < |s.procs| && EnvOk(s.db, s.procs[a.i], a.env) {
        if pe in s.db.priceEvents {
          NewsKept(s, a.i, a.env, t, pe);
        } else {
          StepRecords(s.db, s.procs[a.i], a.env);
          assert OwesNews(s'.procs[a.i], t, pe);
        }
      } else if CreateAnalyticsEventId(t, pe.id) !in Ids(s.db.events) {
        var i :| 0 <= i < |s.procs| && OwesNews(s.procs[i], t, pe);
        assert OwesNews(s'.procs[i], t, pe);
      }
    }
  }

  lemma {:induction false} RunKeepsNewsAnnounced(s0: Sys, acts: seq<Action>)
    requires Init(s0) && AllDelivered(acts)
    ensures AllNewsAnnounced(Run(s0, acts))
  {
    if acts != [] {
      var init, a := acts[..|acts| - 1], acts[|acts| - 1];
      assert a in acts;
      RunKeepsNewsAnnounced(s0, init);
      StepKeepsNewsAnnounced(Run(s0, init), a);
    }
  }

  // The update that wrote the record has made its announcements.
  ghost predicate UpdateDone(s: Sys, pe: PriceEvent) {
    forall i | 0 <= i < |s.procs| && UpdateRecorded(s.procs[i]) :: s.procs[i].upd.eventId != pe.id
  }

  lemma {:induction false} DoneAtTheEnd(s: Sys, pe: PriceEvent)
    requires Quiescent(s)
    ensures UpdateDone(s, pe)
  {
    forall i | 0 <= i < |s.procs| ensures !UpdateRecorded(s.procs[i]) {
      assert Finished(s.procs[i]);
    }
  }

  lemma {:induction false} NewsPublished(s0: Sys, acts: seq<Action>, t: EventType, pe: PriceEvent) returns (e: Event)
    requires Init(s0) && AllDelivered(acts)
    requires pe in Run(s0, acts).db.priceEvents && UpdateDone(Run(s0, acts), pe) && IsNews(t, pe)
    ensures e in Run(s0, acts).db.events && TypeOf(e.payload) == t && e.eventId == CreateAnalyticsEventId(t, pe.id)
    ensures Tells(e.payload, pe)
  {
    var s := Run(s0, acts);
    RunKeepsNewsAnnounced(s0, acts);
    RunKeepsNews(s0, acts);
    RunKeepsLog(s0, acts);
    assert NewsAnnounced(s, t, pe);
    IdPresent(s.db.events, CreateAnalyticsEventId(t, pe.id));
    e :| e in s.db.events && e.eventId == CreateAnalyticsEventId(t, pe.id);
    AboutType(s.db, e, t, pe.id);
    var x := PublishedPrices(s0, acts, e);
    EventIdSpelled(x.id);
    assert IsAbout(e, t, x.id);
  }

  // When no publish failed, a recorded price whose update is past its announcements has been published, and a
  // decrease with its id has been if and only if the recorded new price is below the recorded old one.
  lemma {:induction false} RecordsAnnounced(s0: Sys, acts: seq<Action>, pe: PriceEvent)
    requires Init(s0) && AllDelivered(acts) && pe in Run(s0, acts).db.priceEvents
    requires forall i | 0 <= i < |Run(s0, acts).procs| && Run(s0, acts).procs[i].PriceUpdate? ::
      var upd := Run(s0, acts).procs[i].upd;
      upd.PriceRecorded? || upd.Upserted? || upd.PriceAnnounced? ==> upd.eventId != pe.id
    ensures exists e :: e in Run(s0, acts).db.events && e.eventId == "stock.price.updated:" + pe.id
                        && e.payload.StockPriceUpdated? && e.payload.symbol == pe.symbol
                        && e.payload.oldPrice == pe.oldPrice && e.payload.newPrice == pe.newPrice
    ensures (exists e :: e in Run(s0, acts).db.events && e.eventId == "stock.price.decreased:" + pe.id)
            <==> pe.oldPrice.Some? && pe.newPrice < pe.oldPrice.value
  {
    var db := Run(s0, acts).db;
    EventIdSpelled(pe.id);
    var e := NewsPublished(s0, acts, PriceUpdatedType, pe);
    if Fell(pe) {
      var d := NewsPublished(s0, acts, PriceDecreasedType, pe);
    } else if d :| d in db.events && d.eventId == "stock.price.decreased:" + pe.id {
      RunKeepsLog(s0, acts);
      AboutType(db, d, PriceDecreasedType, pe.id);
      var x := PublishedPrices(s0, acts, d);
      EventIdSpelled(x.id);
      assert IsAbout(d, PriceDecreasedType, x.id);
      assert false;
    }
  }

  // --- The counts of the analytics ---

  function NewsId(t: EventType): PriceEvent -> string { (pe: PriceEvent) => CreateAnalyticsEventId(t, pe.id) }

  function NewsFigure(t: EventType): PriceEvent -> real { (pe: PriceEvent) => if IsNews(t, pe) then 1.0 else 0.0 }

  lemma {:induction false} NewsIdsDistinct(records: seq<PriceEvent>, t: EventType)
    requires DistinctKeys(records, RecordId())
    ensures DistinctKeys(records, NewsId(t))
  {
    forall i, j | 0 <= i < j < |records| ensures NewsId(t)(records[i]) != NewsId(t)(records[j]) {
      assert RecordId()(records[i]) != RecordId()(records[j]);
      if NewsId(t)(records[i]) == NewsId(t)(records[j]) {
        EventIdInjective(t, records[i].id, t, records[j].id);
      }
    }
  }

  function NewsCounter(t: EventType): Counter { if t == PriceUpdatedType then PriceUpdates else PriceDecreases }

  lemma {:induction false} NewsShare(e: Event, t: EventType)
    requires t == PriceUpdatedType || t == PriceDecreasedType
    ensures Share(None, LIFETIME, NewsCounter(t))(e) == if TypeOf(e.payload) == t then 1.0 else 0.0
  {
  }

  lemma {:induction false} NewsOf(s0: Sys, acts: seq<Action>, e: Event, t: EventType) returns (pe: PriceEvent)
    requires Init(s0) && e in Run(s0, acts).db.events && TypeOf(e.payload) == t
    requires t == PriceUpdatedType || t == PriceDecreasedType
    ensures pe in Run(s0, acts).db.priceEvents && NewsId(t)(pe) == e.eventId && IsNews(t, pe)
  {
    pe := PublishedPrices(s0, acts, e);
    EventIdSpelled(pe.id);
  }

  lemma {:induction false} ReportedNews(s0: Sys, acts: seq<Action>, ds: seq<Event>, t: EventType)
    requires Init(s0) && DeliveredFrom(ds, Run(s0, acts).db.events)
    requires t == PriceUpdatedType || t == PriceDecreasedType
    ensures var records := Run(s0, acts).db.priceEvents;
      && Reported(ds, None, LIFETIME, NewsCounter(t)) == SumIn(records, NewsId(t), NewsFigure(t), Ids(ds))
      && (AllDelivered(acts) && Quiescent(Run(s0, acts)) && CompletelyDelivered(ds, Run(s0, acts).db.events) ==>
            Reported(ds, None, LIFETIME, NewsCounter(t)) == SumBy(records, NewsFigure(t)))
  {
    var db, xs, share := Run(s0, acts).db, FirstDeliveries(ds), Share(None, LIFETIME, NewsCounter(t));
    RunKeepsNews(s0, acts);
    RunKeepsLog(s0, acts);
    FirstDeliveriesOnce(ds);
    FigureIsSum(xs, None, LIFETIME, NewsCounter(t));
    NewsIdsDistinct(db.priceEvents, t);
    forall x, pe | x in xs && pe in db.priceEvents && IdOf()(x) == NewsId(t)(pe)
      ensures share(x) == NewsFigure(t)(pe)
    {
      NewsShare(x, t);
      AboutType(db, x, t, pe.id);
      var y := NewsOf(s0, acts, x, t);
      assert IsAbout(x, t, y.id);
      SoleRecord(db.priceEvents, pe);
    }
    forall x | x in xs && share(x) != 0.0 ensures exists pe :: pe in db.priceEvents && NewsId(t)(pe) == IdOf()(x) {
      NewsShare(x, t);
      var pe := NewsOf(s0, acts, x, t);
    }
    SumMatched(xs, IdOf(), share, db.priceEvents, NewsId(t), NewsFigure(t));
    if AllDelivered(acts) && Quiescent(Run(s0, acts)) && CompletelyDelivered(ds, db.events) {
      forall pe | pe in db.priceEvents && NewsFigure(t)(pe) != 0.0 ensures NewsId(t)(pe) in Ids(ds) {
        DoneAtTheEnd(Run(s0, acts), pe);
        var e := NewsPublished(s0, acts, t, pe);
        InIds(db.events, e);
      }
      SumInAll(db.priceEvents, NewsId(t), NewsFigure(t), Ids(ds));
    }
  }

  lemma {:induction false} UpdateTotal(records: seq<PriceEvent>)
    ensures SumBy(records, NewsFigure(PriceUpdatedType)) == |records| as real
  {
    if records != [] {
      UpdateTotal(records[..|records| - 1]);
    }
  }

  ghost function Fallen(records: seq<PriceEvent>): set<PriceEvent> { set pe | pe in records && Fell(pe) }

  lemma {:induction false} OneMoreFallen(records: seq<PriceEvent>, last: PriceEvent)
    requires forall x | x in records :: x.id != last.id
    ensures |Fallen(records + [last])| == |Fallen(records)| + if Fell(last) then 1 else 0
  {
    assert forall x :: x in records + [last] <==> x in records || x == last;
    assert Fallen(records + [last]) == Fallen(records) + if Fell(last) then {last} else {};
  }

  lemma {:induction false} DecreaseTotal(records: seq<PriceEvent>)
    requires DistinctKeys(records, RecordId())
    ensures SumBy(records, NewsFigure(PriceDecreasedType)) == |Fallen(records)| as real
  {
    if records == [] {
      assert Fallen(records) == {};
    } else {
      var init, last := records[..|records| - 1], records[|records| - 1];
      DecreaseTotal(init);
      forall x | x in init ensures x.id != last.id {
        assert RecordId()(x) != RecordId()(last);
      }
      OneMoreFallen(init, last);
      assert records == init + [last];
    }
  }

  // The lifetime counts of the admin: never more updates than recorded prices, nor decreases than records
  // whose price fell, and exactly those when nothing was lost and every call has come to its end.
  lemma {:induction false} PriceCountsMatchTheStore(s0: Sys, acts: seq<Action>, ds: seq<Event>)
    requires Init(s0) && DeliveredFrom(ds, Run(s0, acts).db.events)
    ensures var records := Run(s0, acts).db.priceEvents;
      var fallen := set pe | pe in records && pe.oldPrice.Some? && pe.newPrice < pe.oldPrice.value;
      var m := SnapshotAfter(FirstDeliveries(ds), None, LIFETIME);
      && m.priceUpdateCount <= |records| && m.priceDecreaseCount <= |fallen|
      && (AllDelivered(acts) && Quiescent(Run(s0, acts)) && CompletelyDelivered(ds, Run(s0, acts).db.events) ==>
            m.priceUpdateCount == |records| && m.priceDecreaseCount == |fallen|)
  {
    var records := Run(s0, acts).db.priceEvents;
    RunKeepsNews(s0, acts);
    UpdateTotal(records);
    DecreaseTotal(records);
    assert Fallen(records) == set pe | pe in records && pe.oldPrice.Some? && pe.newPrice < pe.oldPrice.value;
    ReportedFields(ds, None, LIFETIME);
    ReportedNews(s0, acts, ds, PriceUpdatedType);
    ReportedNews(s0, acts, ds, PriceDecreasedType);
    SumInBounded(records, NewsId(PriceUpdatedType), NewsFigure(PriceUpdatedType), Ids(ds));
    SumInBounded(records, NewsId(PriceDecreasedType), NewsFigure(PriceDecreasedType), Ids(ds));
  }
}
