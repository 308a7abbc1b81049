/**
 The consumer of the analytics queue: delivery at least once, in any order, in batches that a bad
 message aborts.  It applies each event id once, so the snapshots are those of the first deliveries,
 and everything that adds up does not depend on the order of delivery.
 */
module Consumer {
  import opened Wrappers
  import opened AnalyticsEvents
  import opened Buckets
  import opened Metrics
  import opened Sums
  import opened Snapshots

  // A message body that is not an analytics event has no event.  Whether deleting the message from the
  // queue would fail is a matter of the delivery.
  datatype Message = Message(receiptHandle: string, event: Option<Event>, deleteFails: bool)

  // What one receive call comes to; `destroyed` says whether the module was destroyed meanwhile.
  datatype Response = Received(messages: seq<Message>, destroyed: bool) | ReceiveFailed(destroyed: bool)

  datatype State = State(stores: Stores, processed: set<string>, deleted: seq<string>)

  predicate HasReceipt(m: Message) { m.receiptHandle != "" }

  predicate Carries(m: Message) { HasReceipt(m) && m.event.Some? }

  predicate Throws(m: Message) { HasReceipt(m) && (m.event.None? || m.deleteFails) }

  function Handled(s: State, m: Message): State {
    if !Carries(m) then s
    else
      var e := m.event.value;
      State(if e.eventId in s.processed then s.stores else AfterEvent(s.stores, e),
            s.processed + {e.eventId}, s.deleted + if m.deleteFails then [] else [m.receiptHandle])
  }

  function HandledAll(s: State, ms: seq<Message>): State {
    if ms == [] then s else Handled(HandledAll(s, ms[..|ms| - 1]), ms[|ms| - 1])
  }

  // The messages of a batch that are taken up: those up to the first one that throws.
  function TakenUp(ms: seq<Message>): seq<Message> {
    if ms == [] then [] else [ms[0]] + if Throws(ms[0]) then [] else TakenUp(ms[1..])
  }

  function TakenUpOf(response: Response): seq<Message> {
    if response.Received? then TakenUp(response.messages) else []
  }

  class AnalyticsEventsConsumer {
    const analytics: AnalyticsService
    var processed: set<string>
    var deleted: seq<string>
    var isRunning: bool

    function Now(): State
      reads this, analytics
    {
      State(analytics.Contents(), processed, deleted)
    }

    constructor (analytics: AnalyticsService)
      ensures this.analytics == analytics && Now() == State(analytics.Contents(), {}, []) && !isRunning
    {
      this.analytics := analytics;
      processed, deleted, isRunning := {}, [], false;
    }

    method OnModuleDestroy()
      modifies this`isRunning
      ensures !isRunning
    {
      isRunning := false;
    }

    method DeleteMessage(m: Message) returns (threw: bool)
      modifies this`deleted
      ensures threw == m.deleteFails
      ensures deleted == old(deleted) + if threw then [] else [m.receiptHandle]
    {
      if m.deleteFails {
        return true;
      }
      deleted := deleted + [m.receiptHandle];
      threw := false;
    }

    method HandleMessage(m: Message) returns (threw: bool)
      modifies this`processed, this`deleted, analytics
      ensures Now() == Handled(old(Now()), m)
      ensures threw <==> m.receiptHandle != "" && (m.event.None? || m.deleteFails)
      ensures m.receiptHandle == "" || m.event.None? ==> Now() == old(Now())
      ensures m.receiptHandle != "" && m.event.Some? ==>
        && processed == old(processed) + {m.event.value.eventId}
        && deleted == old(deleted) + (if m.deleteFails then [] else [m.receiptHandle])
        && (m.event.value.eventId in old(processed) ==> analytics.Contents() == old(analytics.Contents()))
        && (m.event.value.eventId !in old(processed) ==>
              analytics.Contents() == AfterEvent(old(analytics.Contents()), m.event.value))
    {
      if m.receiptHandle == "" {
        return false;
      }
      if m.event.None? {
        return true;
      }
      var event := m.event.value;
      if event.eventId in processed {
        assert processed == processed + {event.eventId};
        threw := DeleteMessage(m);
        return;
      }
      analytics.ApplyEvent(event);
      processed := processed + {event.eventId};
      threw := DeleteMessage(m);
    }

    // The rest of a batch is given up at the first exception.
    method HandleBatch(messages: seq<Message>)
      modifies this`processed, this`deleted, analytics
      ensures Now() == HandledAll(old(Now()), TakenUp(messages))
    {
      ghost var start := Now();
      ghost var done: seq<Message> := [];
      for i := 0 to |messages|
        invariant TakenUp(messages) == done + TakenUp(messages[i..])
        invariant Now() == HandledAll(start, done)
      {
        HandledOne(start, done, messages[i]);
        TakenUpStep(messages, i, done);
        var threw := HandleMessage(messages[i]);
        done := done + [messages[i]];
        if threw {
          assert done + [] == done;
          return;
        }
      }
      assert TakenUp(messages) == done;
    }

    method PollOnce(response: Response)
      modifies this, analytics
      ensures Now() == HandledAll(old(Now()), TakenUpOf(response))
      ensures isRunning == (old(isRunning) && !response.destroyed)
    {
      if response.Received? {
        HandleBatch(response.messages);
      }
      if response.destroyed {
        OnModuleDestroy();
      }
    }

    // Handles exactly the messages taken, in their order: their ids are recorded, and they are deleted
    // unless that fails.
    method Poll(responses: seq<Response>)
      requires isRunning
      modifies this, analytics
      ensures exists ps :: AllTaken(responses, ps) && Now() == HandledAll(old(Now()), MessagesAt(responses, ps))
      ensures forall i: nat, j: nat | Takes(responses, i, j) ::
        var m := responses[i].messages[j];
        m.event.value.eventId in processed && (!m.deleteFails ==> m.receiptHandle in deleted)
      ensures old(processed) <= processed && old(deleted) <= deleted
      ensures forall id | id in processed && id !in old(processed) ::
        exists i: nat, j: nat :: Takes(responses, i, j) && responses[i].messages[j].event.value.eventId == id
      ensures forall k | |old(deleted)| <= k < |deleted| ::
        exists i: nat, j: nat :: Takes(responses, i, j) && !responses[i].messages[j].deleteFails
                                 && responses[i].messages[j].receiptHandle == deleted[k]
      ensures old(Now()) == START ==>
        exists ps :: AllTaken(responses, ps)
                     && analytics.Contents() == StoresOf(FirstDeliveries(EventsAt(responses, ps)))
    {
      var i := 0;
      while isRunning && i < |responses|
        invariant 0 <= i <= |responses| && forall k | 0 <= k < i - 1 :: !responses[k].destroyed
        invariant isRunning <==> i == 0 || !responses[i - 1].destroyed
        invariant Now() == HandledAll(old(Now()), ConsumedFrom(responses, i))
      {
        HandledAppend(old(Now()), ConsumedFrom(responses, i), TakenUpOf(responses[i]));
        PollOnce(responses[i]);
        i := i + 1;
      }
      ghost var ps := Polled(old(Now()), responses, i);
    }
  }

  lemma {:induction false} HandledOne(s: State, ms: seq<Message>, m: Message)
    ensures HandledAll(s, ms + [m]) == Handled(HandledAll(s, ms), m)
  {
    assert (ms + [m])[..|ms|] == ms;
  }

  lemma {:induction false} TakenUpStep(messages: seq<Message>, i: nat, done: seq<Message>)
    requires i < |messages|
    ensures done + TakenUp(messages[i..]) == (done + [messages[i]]) + if Throws(messages[i]) then []
        else TakenUp(messages[i + 1..])
  {
    assert messages[i..][1..] == messages[i + 1..];
  }

  lemma {:induction false} HandledAppend(s: State, ms: seq<Message>, more: seq<Message>)
    ensures HandledAll(s, ms + more) == HandledAll(HandledAll(s, ms), more)
  {
    if more == [] {
      assert ms + more == ms;
    } else {
      var init, last := more[..|more| - 1], more[|more| - 1];
      HandledAppend(s, ms, init);
      assert (ms + more)[..|ms + more| - 1] == ms + init;
    }
  }

  // --- Each event id is applied once ---

  function EventsOf(ms: seq<Message>): seq<Event> {
    if ms == [] then []
    else
      var m := ms[|ms| - 1];
      EventsOf(ms[..|ms| - 1]) + if Carries(m) then [m.event.value] else []
  }

  function ReceiptsOf(ms: seq<Message>): seq<string> {
    if ms == [] then []
    else
      var m := ms[|ms| - 1];
      ReceiptsOf(ms[..|ms| - 1]) + if Carries(m) && !m.deleteFails then [m.receiptHandle] else []
  }

  function IdOf(): Event -> string { (e: Event) => e.eventId }

  ghost function Ids(events: seq<Event>): set<string> { KeysOf(events, IdOf()) }

  // The first delivery of every event id, in the order of delivery.
  ghost function FirstDeliveries(events: seq<Event>): seq<Event> {
    if events == [] then []
    else
      var init, e := events[..|events| - 1], events[|events| - 1];
      FirstDeliveries(init) + if e.eventId in Ids(init) then [] else [e]
  }

  lemma {:induction false} IdsAppend(events: seq<Event>, e: Event)
    ensures Ids(events + [e]) == Ids(events) + {e.eventId}
  {
    KeysAppend(events, e, IdOf());
  }

  lemma {:induction false} FirstDeliveriesOnce(events: seq<Event>)
    ensures DistinctKeys(FirstDeliveries(events), IdOf())
    ensures Ids(FirstDeliveries(events)) == Ids(events)
    ensures forall e | e in FirstDeliveries(events) :: e in events
  {
    if events != [] {
      var init, e := events[..|events| - 1], events[|events| - 1];
      FirstDeliveriesOnce(init);
      assert events == init + [e];
      IdsAppend(init, e);
      if e.eventId !in Ids(init) {
        IdsAppend(FirstDeliveries(init), e);
        assert forall x | x in FirstDeliveries(init) :: x.eventId in Ids(FirstDeliveries(init));
      }
    }
  }

  const START: State := State(Stores(map[], map[]), {}, [])

  ghost function StateFor(events: seq<Event>, deleted: seq<string>): State {
    State(StoresOf(FirstDeliveries(events)), Ids(events), deleted)
  }

  lemma {:induction false} FirstDeliveriesAppend(init: seq<Event>, e: Event)
    ensures FirstDeliveries(init + [e]) == FirstDeliveries(init) + if e.eventId in Ids(init) then [] else [e]
  {
    assert (init + [e])[..|init|] == init;
  }

  lemma {:induction false} StoresAppend(events: seq<Event>, e: Event)
    ensures StoresOf(FirstDeliveries(events + [e]))
         == if e.eventId in Ids(events) then StoresOf(FirstDeliveries(events))
             else AfterEvent(StoresOf(FirstDeliveries(events)), e)
  {
    var firsts := FirstDeliveries(events);
    FirstDeliveriesAppend(events, e);
    assert (firsts + [e])[..|firsts|] == firsts && firsts + [] == firsts;
  }

  lemma {:induction false} HandledEvent(events: seq<Event>, deleted: seq<string>, m: Message)
    requires Carries(m)
    ensures Handled(StateFor(events, deleted), m)
         == StateFor(events + [m.event.value], deleted + if m.deleteFails then [] else [m.receiptHandle])
  {
    StoresAppend(events, m.event.value);
    IdsAppend(events, m.event.value);
  }

  // Whatever was delivered, however often and in whatever batches: the snapshots are those of the
  // first deliveries, the recorded ids are the delivered ones, and exactly the messages so handled are
  // deleted, unless the delete call failed: those come again and are not applied again.
  lemma {:induction false} EachIdAppliedOnce(ms: seq<Message>)
    ensures var s := HandledAll(START, ms);
      && s.stores == StoresOf(FirstDeliveries(EventsOf(ms)))
      && s.processed == Ids(EventsOf(ms))
      && s.deleted == ReceiptsOf(ms)
  {
    if ms == [] {
      assert Ids([]) == {};
    } else {
      var init, m := ms[..|ms| - 1], ms[|ms| - 1];
      EachIdAppliedOnce(init);
      assert HandledAll(START, init) == StateFor(EventsOf(init), ReceiptsOf(init));
      if Carries(m) {
        HandledEvent(EventsOf(init), ReceiptsOf(init), m);
      } else {
        assert EventsOf(ms) == EventsOf(init) && ReceiptsOf(ms) == ReceiptsOf(init);
      }
    }
  }

  // --- Which messages a run of the loop handles ---

  // Message j of response i carries an event, and nothing is in its way: no response before destroyed the
  // module, no message of its batch before it threw.
  predicate Takes(responses: seq<Response>, i: nat, j: nat) {
    && i < |responses| && responses[i].Received? && j < |responses[i].messages|
    && (forall k | 0 <= k < i :: !responses[k].destroyed)
    && (forall k | 0 <= k < j :: !Throws(responses[i].messages[k]))
    && Carries(responses[i].messages[j])
  }

  // The same, spelled out.
  lemma {:induction false} TakesIff(responses: seq<Response>, i: nat, j: nat)
    ensures Takes(responses, i, j)
      <==> (&& i < |responses| && responses[i].Received? && j < |responses[i].messages|
            && (forall k | 0 <= k < i :: !responses[k].destroyed)
            && (forall k | 0 <= k < j ::
                  var m := responses[i].messages[k]; m.receiptHandle == "" || (m.event.Some? && !m.deleteFails))
            && responses[i].messages[j].receiptHandle != "" && responses[i].messages[j].event.Some?)
  {
  }

  predicate InOrder(ps: seq<(nat, nat)>) {
    forall a, b | 0 <= a < b < |ps| :: ps[a].0 < ps[b].0 || (ps[a].0 == ps[b].0 && ps[a].1 < ps[b].1)
  }

  // All the places of messages taken, in order.
  ghost predicate AllTaken(responses: seq<Response>, ps: seq<(nat, nat)>) {
    InOrder(ps) && forall i: nat, j: nat :: (i, j) in ps <==> Takes(responses, i, j)
  }

  lemma {:induction false} AllTakenIff(responses: seq<Response>, ps: seq<(nat, nat)>)
    ensures AllTaken(responses, ps)
      <==> (&& (forall a, b | 0 <= a < b < |ps| ::
                  ps[a].0 < ps[b].0 || (ps[a].0 == ps[b].0 && ps[a].1 < ps[b].1))
            && (forall i: nat, j: nat :: (i, j) in ps <==> Takes(responses, i, j)))
  {
  }

  function MessagesAt(responses: seq<Response>, ps: seq<(nat, nat)>): seq<Message>
    requires forall q | q in ps :: Takes(responses, q.0, q.1)
  {
    seq(|ps|, k requires 0 <= k < |ps| =>
          assert Takes(responses, ps[k].0, ps[k].1); responses[ps[k].0].messages[ps[k].1])
  }

  // The messages of a batch that are taken up are a prefix of it, up to the first one that throws.
  lemma {:induction false} TakenUpPrefix(ms: seq<Message>) returns (n: nat)
    ensures n <= |ms| && TakenUp(ms) == ms[..n]
    ensures forall k | 0 <= k < n - 1 :: !Throws(ms[k])
    ensures n < |ms| ==> n > 0 && Throws(ms[n - 1])
  {
    if ms == [] || Throws(ms[0]) {
      n := if ms == [] then 0 else 1;
    } else {
      var m := TakenUpPrefix(ms[1..]);
      n := m + 1;
      assert forall k | 0 < k < |ms| :: ms[k] == ms[1..][k - 1];
    }
  }

  // Where the messages of a batch stand that carry an event.
  function CarriedAt(ms: seq<Message>): (js: seq<nat>)
    ensures forall k | 0 <= k < |js| :: js[k] < |ms|
  {
    if ms == [] then []
    else CarriedAt(ms[..|ms| - 1]) + if Carries(ms[|ms| - 1]) then [|ms| - 1] else []
  }

  lemma {:induction false} CarriedOrdered(ms: seq<Message>)
    ensures forall j: nat :: j in CarriedAt(ms) <==> j < |ms| && Carries(ms[j])
    ensures forall a, b | 0 <= a < b < |CarriedAt(ms)| :: CarriedAt(ms)[a] < CarriedAt(ms)[b]
  {
    if ms != [] {
      CarriedOrdered(ms[..|ms| - 1]);
    }
  }

  function Selection(ms: seq<Message>, js: seq<nat>): seq<Message>
    requires forall k | 0 <= k < |js| :: js[k] < |ms|
  {
    seq(|js|, k requires 0 <= k < |js| => ms[js[k]])
  }

  lemma {:induction false} SelectionOfPrefix(ms: seq<Message>, n: nat, js: seq<nat>)
    requires n <= |ms| && forall k | 0 <= k < |js| :: js[k] < n
    ensures Selection(ms[..n], js) == Selection(ms, js)
  {
  }

  // A message that carries no event changes nothing.
  lemma {:induction false} HandledCarried(s: State, ms: seq<Message>)
    ensures HandledAll(s, ms) == HandledAll(s, Selection(ms, CarriedAt(ms)))
  {
    if ms != [] {
      var n := |ms| - 1;
      var js := CarriedAt(ms[..n]);
      HandledCarried(s, ms[..n]);
      SelectionOfPrefix(ms, n, js);
      if Carries(ms[n]) {
        assert Selection(ms, js + [n]) == Selection(ms, js) + [ms[n]];
        HandledOne(s, Selection(ms, js), ms[n]);
      } else {
        assert js + [] == js;
      }
    }
  }

  // Places of response i.
  function Places(i: nat, js: seq<nat>): seq<(nat, nat)> { seq(|js|, k requires 0 <= k < |js| => (i, js[k])) }

  // The places of messages taken from response i alone, when it is reached.
  lemma {:induction false} BatchPlaces(responses: seq<Response>, i: nat) returns (js: seq<nat>)
    requires i < |responses| && forall k | 0 <= k < i :: !responses[k].destroyed
    ensures forall j: nat :: j in js <==> Takes(responses, i, j)
    ensures forall a, b | 0 <= a < b < |js| :: js[a] < js[b]
    ensures responses[i].ReceiveFailed? ==> js == [] && TakenUpOf(responses[i]) == []
    ensures responses[i].Received? ==>
      && (forall k | 0 <= k < |js| :: js[k] < |responses[i].messages|)
      && forall s :: HandledAll(s, TakenUpOf(responses[i])) == HandledAll(s, Selection(responses[i].messages, js))
  {
    if responses[i].ReceiveFailed? {
      return [];
    }
    var ms := responses[i].messages;
    var n := TakenUpPrefix(ms);
    js := CarriedAt(ms[..n]);
    CarriedOrdered(ms[..n]);
    forall j: nat ensures j in js <==> Takes(responses, i, j) {
      assert j < n ==> ms[..n][j] == ms[j];
    }
    SelectionOfPrefix(ms, n, js);
    forall s ensures HandledAll(s, TakenUpOf(responses[i])) == HandledAll(s, Selection(ms, js)) {
      HandledCarried(s, ms[..n]);
    }
  }

  lemma {:induction false} PlacesAppend(responses: seq<Response>, i: nat, ps: seq<(nat, nat)>, js: seq<nat>)
    requires i < |responses| && InOrder(ps) && forall q | q in ps :: q.0 < i && Takes(responses, q.0, q.1)
    requires (forall j: nat :: j in js <==> Takes(responses, i, j)) && forall a, b | 0 <= a < b < |js| :: js[a] < js[b]
    ensures InOrder(ps + Places(i, js))
    ensures forall q | q in ps + Places(i, js) :: Takes(responses, q.0, q.1)
    ensures responses[i].Received? ==>
      && (forall k | 0 <= k < |js| :: js[k] < |responses[i].messages|)
      && MessagesAt(responses, ps + Places(i, js))
         == MessagesAt(responses, ps) + Selection(responses[i].messages, js)
  {
    assert forall k | 0 <= k < |js| :: js[k] in js;
  }

  // What the first i responses come to, none of them but perhaps the last destroying the module.
  lemma {:induction false} TakenSoFar(responses: seq<Response>, i: nat) returns (ps: seq<(nat, nat)>)
    requires i <= |responses| && forall k | 0 <= k < i - 1 :: !responses[k].destroyed
    ensures InOrder(ps) && forall q: (nat, nat) :: q in ps <==> q.0 < i && Takes(responses, q.0, q.1)
    ensures forall s :: HandledAll(s, ConsumedFrom(responses, i)) == HandledAll(s, MessagesAt(responses, ps))
  {
    if i == 0 {
      return [];
    }
    var before := TakenSoFar(responses, i - 1);
    var js := BatchPlaces(responses, i - 1);
    PlacesAppend(responses, i - 1, before, js);
    ps := before + Places(i - 1, js);
    forall q: (nat, nat) ensures q in ps <==> q.0 < i && Takes(responses, q.0, q.1) {
      if q.0 == i - 1 && Takes(responses, q.0, q.1) {
        var k :| 0 <= k < |js| && js[k] == q.1;
        assert Places(i - 1, js)[k] == q;
      }
    }
    forall s ensures HandledAll(s, ConsumedFrom(responses, i)) == HandledAll(s, MessagesAt(responses, ps)) {
      HandledAppend(s, ConsumedFrom(responses, i - 1), TakenUpOf(responses[i - 1]));
      if responses[i - 1].Received? {
        HandledAppend(s, MessagesAt(responses, before), Selection(responses[i - 1].messages, js));
      } else {
        assert Places(i - 1, js) == [] && before + [] == before;
      }
    }
  }

  // The batches of the first i responses.
  function ConsumedFrom(responses: seq<Response>, i: nat): seq<Message>
    requires i <= |responses|
  {
    if i == 0 then [] else ConsumedFrom(responses, i - 1) + TakenUpOf(responses[i - 1])
  }

  function EventsAt(responses: seq<Response>, ps: seq<(nat, nat)>): seq<Event>
    requires forall q | q in ps :: Takes(responses, q.0, q.1)
  {
    seq(|ps|, k requires 0 <= k < |ps| =>
          assert Takes(responses, ps[k].0, ps[k].1); responses[ps[k].0].messages[ps[k].1].event.value)
  }

  lemma {:induction false} EventsOfCarrying(ms: seq<Message>)
    requires forall m | m in ms :: Carries(m)
    ensures |EventsOf(ms)| == |ms|
    ensures forall k | 0 <= k < |ms| :: Carries(ms[k]) && EventsOf(ms)[k] == ms[k].event.value
  {
    if ms != [] {
      EventsOfCarrying(ms[..|ms| - 1]);
    }
  }

  // What handling messages that all carry an event records and deletes.
  lemma {:induction false} HandledMessages(s: State, ms: seq<Message>)
    requires forall m | m in ms :: Carries(m)
    ensures forall id :: id in HandledAll(s, ms).processed
                         <==> id in s.processed || exists m :: m in ms && Carries(m) && m.event.value.eventId == id
    ensures s.deleted <= HandledAll(s, ms).deleted
    ensures forall m | m in ms && !m.deleteFails :: m.receiptHandle in HandledAll(s, ms).deleted
    ensures forall k | |s.deleted| <= k < |HandledAll(s, ms).deleted| ::
      exists m :: m in ms && !m.deleteFails && m.receiptHandle == HandledAll(s, ms).deleted[k]
  {
    if ms != [] {
      var init, m := ms[..|ms| - 1], ms[|ms| - 1];
      HandledMessages(s, init);
      assert ms == init + [m];
    }
  }

  // The messages at the places taken are the messages taken.
  lemma {:induction false} PlaceOf(responses: seq<Response>, ps: seq<(nat, nat)>, m: Message)
    requires AllTaken(responses, ps)
    ensures m in MessagesAt(responses, ps)
       <==> exists i: nat, j: nat :: Takes(responses, i, j) && responses[i].messages[j] == m
  {
    var ms := MessagesAt(responses, ps);
    if m in ms {
      var k :| 0 <= k < |ps| && ms[k] == m;
      assert ps[k] in ps;
      assert Takes(responses, ps[k].0, ps[k].1);
    }
    if i: nat, j: nat :| Takes(responses, i, j) && responses[i].messages[j] == m {
      assert (i, j) in ps;
      var k :| 0 <= k < |ps| && ps[k] == (i, j);
      assert ms[k] == m;
    }
  }

  lemma {:induction false} PolledIds(s: State, responses: seq<Response>, ps: seq<(nat, nat)>)
    requires AllTaken(responses, ps)
    ensures var after := HandledAll(s, MessagesAt(responses, ps));
      && (forall i: nat, j: nat | Takes(responses, i, j) ::
            responses[i].messages[j].event.value.eventId in after.processed)
      && (forall id | id in after.processed && id !in s.processed ::
            exists i: nat, j: nat :: Takes(responses, i, j) && responses[i].messages[j].event.value.eventId == id)
      && s.processed <= after.processed
  {
    var ms := MessagesAt(responses, ps);
    HandledMessages(s, ms);
    forall i: nat, j: nat | Takes(responses, i, j)
      ensures responses[i].messages[j].event.value.eventId in HandledAll(s, ms).processed
    {
      PlaceOf(responses, ps, responses[i].messages[j]);
    }
    forall id | id in HandledAll(s, ms).processed && id !in s.processed
      ensures exists i: nat, j: nat :: Takes(responses, i, j) && responses[i].messages[j].event.value.eventId == id
    {
      var m :| m in ms && Carries(m) && m.event.value.eventId == id;
      PlaceOf(responses, ps, m);
    }
  }

  lemma {:induction false} PolledReceipts(s: State, responses: seq<Response>, ps: seq<(nat, nat)>)
    requires AllTaken(responses, ps)
    ensures var after := HandledAll(s, MessagesAt(responses, ps));
      && (forall i: nat, j: nat | Takes(responses, i, j) && !responses[i].messages[j].deleteFails ::
            responses[i].messages[j].receiptHandle in after.deleted)
      && s.deleted <= after.deleted
      && (forall k | |s.deleted| <= k < |after.deleted| ::
            exists i: nat, j: nat :: Takes(responses, i, j) && !responses[i].messages[j].deleteFails
                                     && responses[i].messages[j].receiptHandle == after.deleted[k])
  {
    var ms := MessagesAt(responses, ps);
    var after := HandledAll(s, ms);
    HandledMessages(s, ms);
    forall i: nat, j: nat | Takes(responses, i, j) && !responses[i].messages[j].deleteFails
      ensures responses[i].messages[j].receiptHandle in after.deleted
    {
      PlaceOf(responses, ps, responses[i].messages[j]);
    }
    forall k | |s.deleted| <= k < |after.deleted|
      ensures exists i: nat, j: nat :: Takes(responses, i, j) && !responses[i].messages[j].deleteFails
                                       && responses[i].messages[j].receiptHandle == after.deleted[k]
    {
      var m :| m in ms && !m.deleteFails && m.receiptHandle == after.deleted[k];
      PlaceOf(responses, ps, m);
    }
  }

  lemma {:induction false} PolledStores(responses: seq<Response>, ps: seq<(nat, nat)>)
    requires AllTaken(responses, ps)
    ensures HandledAll(START, MessagesAt(responses, ps)).stores == StoresOf(FirstDeliveries(EventsAt(responses, ps)))
  {
    var ms := MessagesAt(responses, ps);
    EventsOfCarrying(ms);
    assert EventsOf(ms) == EventsAt(responses, ps);
    EachIdAppliedOnce(ms);
  }

  // The ids of the messages taken are recorded and no others, and their receipts are deleted, unless that
  // fails, and no others.
  ghost predicate TakenRecorded(before: State, responses: seq<Response>, after: State) {
    && (forall i: nat, j: nat | Takes(responses, i, j) ::
          responses[i].messages[j].event.value.eventId in after.processed)
    && (forall id | id in after.processed && id !in before.processed ::
          exists i: nat, j: nat :: Takes(responses, i, j) && responses[i].messages[j].event.value.eventId == id)
    && before.processed <= after.processed
    && (forall i: nat, j: nat | Takes(responses, i, j) && !responses[i].messages[j].deleteFails ::
          responses[i].messages[j].receiptHandle in after.deleted)
    && before.deleted <= after.deleted
    && (forall k | |before.deleted| <= k < |after.deleted| ::
          exists i: nat, j: nat :: Takes(responses, i, j) && !responses[i].messages[j].deleteFails
                                   && responses[i].messages[j].receiptHandle == after.deleted[k])
  }

  // Where the loop leaves off after i responses, everything that is ever taken has been.
  lemma {:induction false} Polled(s: State, responses: seq<Response>, i: nat) returns (ps: seq<(nat, nat)>)
    requires i <= |responses| && forall k | 0 <= k < i - 1 :: !responses[k].destroyed
    requires i < |responses| ==> i > 0 && responses[i - 1].destroyed
    ensures AllTaken(responses, ps)
    ensures HandledAll(s, ConsumedFrom(responses, i)) == HandledAll(s, MessagesAt(responses, ps))
    ensures TakenRecorded(s, responses, HandledAll(s, ConsumedFrom(responses, i)))
    ensures s == START ==>
      HandledAll(s, ConsumedFrom(responses, i)).stores == StoresOf(FirstDeliveries(EventsAt(responses, ps)))
  {
    ps := TakenSoFar(responses, i);
    assert AllTaken(responses, ps);
    PolledIds(s, responses, ps);
    PolledReceipts(s, responses, ps);
    PolledStores(responses, ps);
  }

  // --- Independence of the delivery order ---

  function SnapshotAfter(deliveries: seq<Event>, who: Option<Id>, b: Bucket): Metrics {
    Snapshot(StoresOf(deliveries), who, b)
  }

  // Deliveries of one id have one effect on the bucket.
  ghost predicate SameEffect(ds: seq<Event>, ds': seq<Event>, b: Bucket) {
    forall e, f | e in ds && f in ds' && e.eventId == f.eventId ::
        SameEvent(e, f) && (InBucket(e.occurredAt, b) <==> InBucket(f.occurredAt, b))
  }

  predicate SameEvent(e: Event, f: Event) { e.userId == f.userId && e.payload == f.payload }

  lemma {:induction false} SameEffectOfFirsts(ds: seq<Event>, ds': seq<Event>, b: Bucket)
    requires SameEffect(ds, ds', b)
    ensures SameEffect(FirstDeliveries(ds), FirstDeliveries(ds'), b)
  {
    FirstDeliveriesOnce(ds);
    FirstDeliveriesOnce(ds');
  }

  lemma {:induction false} IdPresent(events: seq<Event>, id: string)
    requires id in Ids(events)
    ensures exists e :: e in events && e.eventId == id
  {
  }

  lemma {:induction false} SharesAgree(e: Event, f: Event, who: Option<Id>, b: Bucket, c: Counter)
    requires SameEvent(e, f) && (InBucket(e.occurredAt, b) <==> InBucket(f.occurredAt, b))
    ensures Share(who, b, c)(e) == Share(who, b, c)(f)
  {
  }

  lemma {:induction false} SharesMatch(xs: seq<Event>, ys: seq<Event>, who: Option<Id>, b: Bucket, c: Counter)
    requires SameEffect(xs, ys, b)
    ensures forall x, y | x in xs && y in ys && IdOf()(x) == IdOf()(y) :: Share(who, b, c)(x) == Share(who, b, c)(y)
  {
    forall x, y | x in xs && y in ys && IdOf()(x) == IdOf()(y) ensures Share(who, b, c)(x) == Share(who, b, c)(y) {
      SharesAgree(x, y, who, b, c);
    }
  }

  lemma {:induction false} FiguresAgree(xs: seq<Event>, ys: seq<Event>, who: Option<Id>, b: Bucket, c: Counter)
    requires who != Some("") && DistinctKeys(xs, IdOf()) && DistinctKeys(ys, IdOf())
    requires Ids(xs) == Ids(ys) && SameEffect(xs, ys, b)
    ensures Figure(xs, who, b, c) == Figure(ys, who, b, c)
  {
    FigureIsSum(xs, who, b, c);
    FigureIsSum(ys, who, b, c);
    SharesMatch(xs, ys, who, b, c);
    SumByKeys(xs, ys, IdOf(), Share(who, b, c));
  }

  lemma {:induction false} PayloadMember(events: seq<Event>, who: Option<Id>, b: Bucket, p: Payload)
    ensures p in PayloadsFor(events, who, b) <==> exists e :: e in events && Selected(e, who, b) && e.payload == p
  {
    if events != [] {
      var init, last := events[..|events| - 1], events[|events| - 1];
      PayloadMember(init, who, b, p);
      assert forall e :: e in events <==> e in init || e == last;
    }
  }

  lemma {:induction false} PayloadsIncluded(xs: seq<Event>, ys: seq<Event>, who: Option<Id>, b: Bucket, p: Payload)
    requires Ids(xs) <= Ids(ys) && SameEffect(xs, ys, b) && p in PayloadsFor(xs, who, b)
    ensures p in PayloadsFor(ys, who, b)
  {
    PayloadMember(xs, who, b, p);
    PayloadMember(ys, who, b, p);
    var e :| e in xs && Selected(e, who, b) && e.payload == p;
    assert e.eventId in Ids(xs);
    IdPresent(ys, e.eventId);
    var f :| f in ys && f.eventId == e.eventId;
    assert SameEvent(e, f);
  }

  ghost predicate SamePayloads(ps: seq<Payload>, qs: seq<Payload>) {
    forall p :: p in ps <==> p in qs
  }

  lemma {:induction false} SelectionsAgree(xs: seq<Event>, ys: seq<Event>, who: Option<Id>, b: Bucket)
    requires Ids(xs) == Ids(ys) && SameEffect(xs, ys, b)
    ensures SamePayloads(PayloadsFor(xs, who, b), PayloadsFor(ys, who, b))
  {
    assert SameEffect(ys, xs, b);
    forall p ensures p in PayloadsFor(xs, who, b) <==> p in PayloadsFor(ys, who, b) {
      if p in PayloadsFor(xs, who, b) {
        PayloadsIncluded(xs, ys, who, b, p);
      }
      if p in PayloadsFor(ys, who, b) {
        PayloadsIncluded(ys, xs, who, b, p);
      }
    }
  }

  // The parts of a snapshot that no delivery order changes.
  ghost predicate CountersAgree(m: Metrics, m': Metrics) {
    && (forall c :: Read(m, c) == Read(m', c))
    && m.averageExecutionPrice == m'.averageExecutionPrice
  }

  ghost predicate LowestAgree(m: Metrics, m': Metrics) {
    && (forall y :: HasSymbol(m.stockPrices, y) <==> HasSymbol(m'.stockPrices, y))
    && (forall i, j | 0 <= i < |m.stockPrices| && 0 <= j < |m'.stockPrices|
        && m.stockPrices[i].symbol == m'.stockPrices[j].symbol
          :: m.stockPrices[i].lowest == m'.stockPrices[j].lowest)
  }

  ghost predicate SubscriptionsAgree(m: Metrics, m': Metrics) {
    && (forall x :: x in m.subscribedStockIds <==> x in m'.subscribedStockIds)
    && m.subscriptionCount == m'.subscriptionCount
  }

  lemma {:induction false} AdminListsAgree(ps: seq<Payload>, qs: seq<Payload>)
    requires SamePayloads(ps, qs)
    ensures SubscriptionsAgree(MetricsOf(ps, AdminScope), MetricsOf(qs, AdminScope))
  {
    var ids, ids' := MetricsOf(ps, AdminScope).subscribedStockIds, MetricsOf(qs, AdminScope).subscribedStockIds;
    AdminSubscriptions(ps);
    AdminSubscriptions(qs);
    forall x ensures x in ids <==> x in ids' {
      assert Subscribes(ps, x) <==> Subscribes(qs, x);
    }
    DistinctSize(ids);
    DistinctSize(ids');
    assert (set x | x in ids) == (set x | x in ids');
  }

  // The two feeds hold the same prices.
  ghost predicate SamePrices(ps: seq<Payload>, qs: seq<Payload>) {
    forall p | IsPrice(p) :: p in ps <==> p in qs
  }

  lemma {:induction false} SymbolListed(ps: seq<Payload>, entries: seq<StockPrice>, y: string)
    requires TableOk(ps, entries)
    ensures HasSymbol(entries, y) <==> exists p :: p in ps && Observes(p, y)
  {
    if HasSymbol(entries, y) {
      var i :| 0 <= i < |entries| && entries[i].symbol == y;
      assert EntryOk(ps, entries[i]);
    }
  }

  lemma {:induction false} LowestUnique(ps: seq<Payload>, qs: seq<Payload>, y: string, x: real, z: real)
    requires SamePrices(ps, qs) && IsLowest(ps, y, x) && IsLowest(qs, y, z)
    ensures x == z
  {
    var p :| p in ps && Observes(p, y) && p.newPrice == x;
    var q :| q in qs && Observes(q, y) && q.newPrice == z;
    assert p in qs && q in ps;
  }

  lemma {:induction false} TablesAgree(ps: seq<Payload>, qs: seq<Payload>, scope: Scope)
    requires SamePrices(ps, qs) && IdsNameSymbols(ps)
    ensures LowestAgree(MetricsOf(ps, scope), MetricsOf(qs, scope))
  {
    var m, m' := MetricsOf(ps, scope), MetricsOf(qs, scope);
    assert IdsNameSymbols(qs);
    ObservedPriceTable(ps, scope);
    ObservedPriceTable(qs, scope);
    forall y ensures HasSymbol(m.stockPrices, y) <==> HasSymbol(m'.stockPrices, y) {
      SymbolListed(ps, m.stockPrices, y);
      SymbolListed(qs, m'.stockPrices, y);
    }
    forall i, j | 0 <= i < |m.stockPrices| && 0 <= j < |m'.stockPrices|
        && m.stockPrices[i].symbol == m'.stockPrices[j].symbol
      ensures m.stockPrices[i].lowest == m'.stockPrices[j].lowest
    {
      assert EntryOk(ps, m.stockPrices[i]) && EntryOk(qs, m'.stockPrices[j]);
      LowestUnique(ps, qs, m.stockPrices[i].symbol, m.stockPrices[i].lowest, m'.stockPrices[j].lowest);
    }
  }

  lemma {:induction false} AveragesAgree(xs: seq<Event>, ys: seq<Event>, who: Option<Id>, b: Bucket)
    requires who != Some("")
    requires Figure(xs, who, b, Quantity) == Figure(ys, who, b, Quantity)
        && Figure(xs, who, b, Invested) == Figure(ys, who, b, Invested)
    ensures SnapshotAfter(xs, who, b).averageExecutionPrice == SnapshotAfter(ys, who, b).averageExecutionPrice
  {
    SnapshotIsFold(xs, who, b);
    SnapshotIsFold(ys, who, b);
    AverageIsRatio(PayloadsFor(xs, who, b), ScopeOf(who));
    AverageIsRatio(PayloadsFor(ys, who, b), ScopeOf(who));
  }

  lemma {:induction false} AllFiguresAgree(xs: seq<Event>, ys: seq<Event>, who: Option<Id>, b: Bucket)
    requires who != Some("") && DistinctKeys(xs, IdOf()) && DistinctKeys(ys, IdOf())
    requires Ids(xs) == Ids(ys) && SameEffect(xs, ys, b)
    ensures CountersAgree(SnapshotAfter(xs, who, b), SnapshotAfter(ys, who, b))
  {
    forall c ensures Read(SnapshotAfter(xs, who, b), c) == Read(SnapshotAfter(ys, who, b), c) {
      FiguresAgree(xs, ys, who, b, c);
    }
    FiguresAgree(xs, ys, who, b, Quantity);
    FiguresAgree(xs, ys, who, b, Invested);
    AveragesAgree(xs, ys, who, b);
  }

  lemma {:induction false} AllListsAgree(xs: seq<Event>, ys: seq<Event>, who: Option<Id>, b: Bucket)
    requires who != Some("") && Ids(xs) == Ids(ys) && SameEffect(xs, ys, b)
    ensures who.None? ==> SubscriptionsAgree(SnapshotAfter(xs, who, b), SnapshotAfter(ys, who, b))
    ensures IdsNameSymbols(PayloadsFor(xs, who, b)) ==>
        LowestAgree(SnapshotAfter(xs, who, b), SnapshotAfter(ys, who, b))
  {
    SelectionsAgree(xs, ys, who, b);
    SnapshotIsFold(xs, who, b);
    SnapshotIsFold(ys, who, b);
    var ps, qs := PayloadsFor(xs, who, b), PayloadsFor(ys, who, b);
    if who.None? {
      AdminListsAgree(ps, qs);
    }
    if IdsNameSymbols(ps) {
      TablesAgree(ps, qs, ScopeOf(who));
    }
  }

  // Two deliveries that cover the same event ids, in any order and with any repetitions.
  lemma {:induction false} OrderOfDeliveryDoesNotMatter(ds: seq<Event>, ds': seq<Event>, who: Option<Id>, b: Bucket)
    requires who != Some("") && Ids(ds) == Ids(ds') && SameEffect(ds, ds', b)
    ensures var m, m' := SnapshotAfter(FirstDeliveries(ds), who, b), SnapshotAfter(FirstDeliveries(ds'), who, b);
      && CountersAgree(m, m')
      && (who.None? ==> SubscriptionsAgree(m, m'))
      && (IdsNameSymbols(PayloadsFor(FirstDeliveries(ds), who, b)) ==> LowestAgree(m, m'))
  {
    FirstDeliveriesOnce(ds);
    FirstDeliveriesOnce(ds');
    SameEffectOfFirsts(ds, ds', b);
    AllFiguresAgree(FirstDeliveries(ds), FirstDeliveries(ds'), who, b);
    AllListsAgree(FirstDeliveries(ds), FirstDeliveries(ds'), who, b);
  }

  // A re-triggered order reuses its event id.  When two deliveries of one id fall in different
  // buckets, the first one to arrive decides: the figures of the two orders of delivery then agree
  // exactly when the event does not count here, or both times lie on the same side of the bucket.
  lemma {:induction false} RepeatedIdAgreesIff(e: Event, f: Event, who: Option<Id>, b: Bucket, c: Counter)
    requires who != Some("") && e.eventId == f.eventId && SameEvent(e, f)
    ensures Figure(FirstDeliveries([e, f]), who, b, c) == Figure(FirstDeliveries([f, e]), who, b, c)
       <==> (!Concerns(e, who) || Contribution(e.payload, c) == 0.0
             || (InBucket(e.occurredAt, b) <==> InBucket(f.occurredAt, b)))
  {
    FirstOfPair(e, f);
    FirstOfPair(f, e);
    FigureOfOne(e, who, b, c);
    FigureOfOne(f, who, b, c);
  }

  lemma {:induction false} FirstOfOne(e: Event)
    ensures FirstDeliveries([e]) == [e] && e.eventId in Ids([e])
  {
    FirstDeliveriesAppend([], e);
    IdsAppend([], e);
    assert [] + [e] == [e] && e.eventId !in Ids([]);
  }

  lemma {:induction false} FirstOfPair(e: Event, f: Event)
    requires e.eventId == f.eventId
    ensures FirstDeliveries([e, f]) == [e]
  {
    FirstOfOne(e);
    FirstDeliveriesAppend([e], f);
    assert [e] + [f] == [e, f];
  }

  lemma {:induction false} FigureOfOne(e: Event, who: Option<Id>, b: Bucket, c: Counter)
    requires who != Some("")
    ensures Figure([e], who, b, c) == Share(who, b, c)(e)
  {
    FigureIsSum([e], who, b, c);
    assert [e][..0] == [];
  }
}
