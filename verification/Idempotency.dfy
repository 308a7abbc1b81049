/**
 Idempotency keys over every schedule: no two orders share one; a repeated request is answered with the
 one order exactly when that was inserted before the repeat looked its key up, and refused exactly when it
 was inserted between the repeat's lookup and its insert; whose order it is answered with.
 */
module Idempotency {
  import opened Wrappers
  import opened AnalyticsEvents
  import opened Domain
  import opened Protocol
  import opened Ownership
  import opened OrderSafety
  import opened EventLog

  ghost predicate KeysUnique(db: Db) {
    forall o, x | o in db.orders && x in db.orders && db.orders[o].idempotencyKey.Some?
                  && db.orders[o].idempotencyKey == db.orders[x].idempotencyKey :: o == x
  }

  // A request that has been answered was answered with an order that has its key.
  predicate ReplyHasKey(db: Db, p: Proc) {
    p.Creation? && p.create.Created? && p.key.Some? ==>
        p.create.o in db.orders && db.orders[p.create.o].idempotencyKey == p.key
  }

  // An order that is new after a step was inserted by a request whose key nobody had.
  lemma {:induction false} InsertedKey(db: Db, p: Proc, env: Env, o: Id)
    requires p.Creation? && p.create.UserRead? && o !in db.orders && o in CreateStep(db, p, env).0.orders
    ensures !KeyTaken(db.orders, p.key)
  {
  }

  lemma {:induction false} InsertKeepsKeys(db: Db, o: Id, order: Order)
    requires KeysUnique(db) && o !in db.orders && !KeyTaken(db.orders, order.idempotencyKey)
    ensures KeysUnique(SetOrder(db, o, order))
  {
  }

  lemma {:induction false} MovesKeepKeys(db: Db, db': Db)
    requires KeysUnique(db) && db'.orders.Keys == db.orders.Keys
    requires forall o | o in db.orders :: SameTerms(db.orders[o], db'.orders[o])
    ensures KeysUnique(db')
  {
  }

  lemma {:induction false} StepKeepsKeys(s: Sys, i: nat, env: Env)
    requires KeysUnique(s.db) && i < |s.procs| && EnvOk(s.db, s.procs[i], env)
    ensures KeysUnique(Step(s, Advance(i, env)).db)
  {
    var db' := ProcStep(s.db, s.procs[i], env).0;
    StepKeeps(s.db, s.procs[i], env);
    if o :| o in db'.orders && o !in s.db.orders {
      InsertedByCreation(s.db, s.procs[i], env, o);
      InsertedKey(s.db, s.procs[i], env, o);
      InsertKeepsKeys(s.db, o, NewOrder(s.procs[i]));
    } else {
      MovesKeepKeys(s.db, db');
    }
  }

  // No two orders ever share an idempotency key.
  lemma {:induction false} KeysStayUnique(s0: Sys, acts: seq<Action>)
    requires Init(s0)
    ensures KeysUnique(Run(s0, acts).db)
  {
    if acts != [] {
      var init, a := acts[..|acts| - 1], acts[|acts| - 1];
      KeysStayUnique(s0, init);
      var s := Run(s0, init);
      if a.Advance? && a.i < |s.procs| && EnvOk(s.db, s.procs[a.i], a.env) {
        StepKeepsKeys(s, a.i, a.env);
      }
    }
  }

  lemma {:induction false} CreateStepReplies(db: Db, p: Proc, env: Env)
    requires p.Creation? && AnnouncerOk(db, p) && ReplyHasKey(db, p)
    ensures var (db', pc', more) := CreateStep(db, p, env); ReplyHasKey(db', p.(create := pc'))
  {
  }

  ghost predicate RepliesOk(s: Sys) { forall i | 0 <= i < |s.procs| :: ReplyHasKey(s.db, s.procs[i]) }

  lemma {:induction false} StepKeepsReplies(s: Sys, a: Action)
    requires LogInv(s) && RepliesOk(s)
    ensures RepliesOk(Step(s, a))
  {
    if a.Advance? && a.i < |s.procs| && EnvOk(s.db, s.procs[a.i], a.env) {
      var (db', p', more) := ProcStep(s.db, s.procs[a.i], a.env);
      var procs' := s.procs[a.i := p'] + more;
      StepKeeps(s.db, s.procs[a.i], a.env);
      assert AnnouncerOk(s.db, s.procs[a.i]) && ReplyHasKey(s.db, s.procs[a.i]);
      if s.procs[a.i].Creation? {
        CreateStepReplies(s.db, s.procs[a.i], a.env);
      }
      MoreReplies(s.db, s.procs[a.i], a.env);
      forall k | 0 <= k < |procs'| ensures ReplyHasKey(db', procs'[k]) {
        if k >= |s.procs| {
          assert procs'[k] in more;
        } else if k != a.i {
          assert ReplyHasKey(s.db, s.procs[k]);
        }
      }
    } else {
      assert forall i | 0 <= i < |s.procs| :: ReplyHasKey(s.db, s.procs[i]) && Step(s, a).procs[i] == s.procs[i];
    }
  }

  lemma {:induction false} MoreReplies(db: Db, p: Proc, env: Env)
    ensures var (db', p', more) := ProcStep(db, p, env);
      (p'.Creation? <==> p.Creation?) && forall q | q in more :: !q.Creation?
  {
  }

  lemma {:induction false} RunKeepsReplies(s0: Sys, acts: seq<Action>)
    requires Init(s0)
    ensures RepliesOk(Run(s0, acts))
  {
    if acts != [] {
      var init, a := acts[..|acts| - 1], acts[|acts| - 1];
      RunKeepsReplies(s0, init);
      RunKeepsLog(s0, init);
      StepKeepsReplies(Run(s0, init), a);
    }
  }

  // All requests answered under one key are answered with the same order.
  lemma {:induction false} RepeatsAgree(s0: Sys, acts: seq<Action>, i: nat, j: nat)
    requires Init(s0) && i < |Run(s0, acts).procs| && j < |Run(s0, acts).procs|
    requires var p, q := Run(s0, acts).procs[i], Run(s0, acts).procs[j];
      p.Creation? && q.Creation? && p.key.Some? && p.key == q.key && p.create.Created? && q.create.Created?
    ensures Run(s0, acts).procs[i].create.o == Run(s0, acts).procs[j].create.o
  {
    RunKeepsReplies(s0, acts);
    KeysStayUnique(s0, acts);
    var s := Run(s0, acts);
    assert ReplyHasKey(s.db, s.procs[i]) && ReplyHasKey(s.db, s.procs[j]);
  }

  // --- When a repeat is answered, and when it is refused ---

  predicate HasKey(db: Db, o: Id, key: Option<string>) { o in db.orders && db.orders[o].idempotencyKey == key }

  ghost predicate NewKey(db: Db, db': Db, key: Option<string>) { exists o :: o !in db.orders && HasKey(db', o, key) }

  // Step m inserts an order with the key.
  ghost predicate InsertsKey(s0: Sys, acts: seq<Action>, m: nat, key: Option<string>) {
    m < |acts| && NewKey(At(s0, acts, m).db, At(s0, acts, m + 1).db, key)
  }

  lemma {:induction false} TakenOrNew(db: Db, db': Db, key: Option<string>)
    requires forall o | o in db.orders :: o in db'.orders && SameTerms(db.orders[o], db'.orders[o])
    ensures key.Some? ==> (KeyTaken(db'.orders, key) <==> KeyTaken(db.orders, key) || NewKey(db, db', key))
  {
    assert forall o | o in db.orders :: HasKey(db', o, key) <==> HasKey(db, o, key);
    if o :| HasKey(db', o, key) {
      assert o in db.orders ==> HasKey(db, o, key);
    }
    if o :| HasKey(db, o, key) {
      assert HasKey(db', o, key);
    }
  }

  // Step k is the key lookup of request i.
  ghost predicate LooksUp(s0: Sys, acts: seq<Action>, k: nat, i: nat) {
    && k < |acts| && acts[k].Advance? && acts[k].i == i
    && var s := At(s0, acts, k);
       i < |s.procs| && s.procs[i].Creation? && s.procs[i].create.CreateStarted? && EnvOk(s.db, s.procs[i], acts[k].env)
  }

  lemma {:induction false} StepTakesKey(s0: Sys, acts: seq<Action>, m: nat, key: Option<string>)
    requires Init(s0) && m < |acts| && key.Some?
    ensures KeyTaken(At(s0, acts, m + 1).db.orders, key)
       <==> (KeyTaken(At(s0, acts, m).db.orders, key) || InsertsKey(s0, acts, m, key))
  {
    var s := At(s0, acts, m);
    NextState(s0, acts, m);
    RunKeepsInv(s0, acts[..m]);
    forall o | o in s.db.orders ensures OrderMoves(s.db, Step(s, acts[m]).db, o) {
      StepMoves(s, acts[m], o);
    }
    TakenOrNew(s.db, Step(s, acts[m]).db, key);
  }

  // A key is taken exactly when it was, or was inserted since.
  lemma {:induction false} TakenIff(s0: Sys, acts: seq<Action>, k: nat, n: nat, key: Option<string>)
    requires Init(s0) && k <= n <= |acts| && key.Some?
    ensures KeyTaken(At(s0, acts, n).db.orders, key)
       <==> (KeyTaken(At(s0, acts, k).db.orders, key) || exists m: nat :: k <= m < n && InsertsKey(s0, acts, m, key))
    decreases n
  {
    if k < n {
      TakenIff(s0, acts, k, n - 1, key);
      StepTakesKey(s0, acts, n - 1, key);
    }
  }

  // A request keeps its arguments.
  lemma {:induction false} RequestStep(s: Sys, a: Action, i: nat)
    requires i < |s.procs| && s.procs[i].Creation?
    ensures i < |Step(s, a).procs| && Step(s, a).procs[i] == s.procs[i].(create := Step(s, a).procs[i].create)
    ensures s.procs[i].create.Created? ==> Step(s, a).procs[i] == s.procs[i]
  {
  }

  lemma {:induction false} RequestKept(s0: Sys, acts: seq<Action>, k: nat, n: nat, i: nat)
    requires k <= n <= |acts| && i < |At(s0, acts, k).procs| && At(s0, acts, k).procs[i].Creation?
    ensures var p := At(s0, acts, k).procs[i];
      && i < |At(s0, acts, n).procs| && At(s0, acts, n).procs[i].Creation?
      && At(s0, acts, n).procs[i] == p.(create := At(s0, acts, n).procs[i].create)
      && (p.create.Created? ==> At(s0, acts, n).procs[i] == p)
    decreases n
  {
    if k < n {
      RequestKept(s0, acts, k, n - 1, i);
      NextState(s0, acts, n - 1);
      RequestStep(At(s0, acts, n - 1), acts[n - 1], i);
    }
  }

  // A request past its lookup found the key free then.
  lemma {:induction false} FreeAtLookup(s0: Sys, acts: seq<Action>, k: nat, i: nat)
    requires LooksUp(s0, acts, k, i) && i < |Run(s0, acts).procs|
    requires Run(s0, acts).procs[i].Creation? && !Run(s0, acts).procs[i].create.Created?
    ensures !KeyTaken(At(s0, acts, k).db.orders, Run(s0, acts).procs[i].key)
    ensures At(s0, acts, k + 1).db == At(s0, acts, k).db
  {
    assert acts[..|acts|] == acts;
    NextState(s0, acts, k);
    RequestKept(s0, acts, k, |acts|, i);
    RequestKept(s0, acts, k + 1, |acts|, i);
  }

  lemma {:induction false} LookupKept(s0: Sys, acts: seq<Action>, a: Action, k: nat, i: nat)
    requires LooksUp(s0, acts, k, i)
    ensures LooksUp(s0, acts + [a], k, i)
  {
    AtAppend(s0, acts, a);
    assert (acts + [a])[k] == acts[k];
  }

  // The step before a request came to where it is now.
  lemma {:induction false} RequestBefore(s: Sys, a: Action, i: nat)
    requires i < |Step(s, a).procs| && Step(s, a).procs[i].Creation? && !Step(s, a).procs[i].create.CreateStarted?
    ensures i < |s.procs| && s.procs[i].Creation?
    ensures s.procs[i].create.CreateStarted? ==> a.Advance? && a.i == i && EnvOk(s.db, s.procs[i], a.env)
  {
    if a.Advance? && a.i < |s.procs| && EnvOk(s.db, s.procs[a.i], a.env) {
      MoreReplies(s.db, s.procs[a.i], a.env);
      var more := ProcStep(s.db, s.procs[a.i], a.env).2;
      assert forall j | |s.procs| <= j < |Step(s, a).procs| :: Step(s, a).procs[j] in more;
    }
  }

  // Every request that has begun has looked its key up.
  lemma {:induction false} LookedUp(s0: Sys, acts: seq<Action>, i: nat)
    requires Init(s0) && i < |Run(s0, acts).procs|
    requires Run(s0, acts).procs[i].Creation? && !Run(s0, acts).procs[i].create.CreateStarted?
    ensures exists k: nat :: LooksUp(s0, acts, k, i)
    decreases |acts|
  {
    assert acts != [];
    var init, a := acts[..|acts| - 1], acts[|acts| - 1];
    assert acts == init + [a] && acts[..|init|] == init;
    RequestBefore(Run(s0, init), a, i);
    if Run(s0, init).procs[i].create.CreateStarted? {
      assert LooksUp(s0, acts, |init|, i);
    } else {
      LookedUp(s0, init, i);
      var k: nat :| LooksUp(s0, init, k, i);
      LookupKept(s0, init, a, k, i);
    }
  }

  // A request whose lookup runs now is answered exactly when an order with its key has been inserted, and
  // then with that one order.
  lemma {:induction false} RepeatAnsweredIff(s0: Sys, acts: seq<Action>, i: nat, env: Env)
    requires Init(s0) && i < |Run(s0, acts).procs| && EnvOk(Run(s0, acts).db, Run(s0, acts).procs[i], env)
    requires var p := Run(s0, acts).procs[i]; p.Creation? && p.create.CreateStarted? && p.key.Some?
    ensures var s := Run(s0, acts); var s' := Step(s, Advance(i, env)); var key := s.procs[i].key;
      && s'.db == s.db && s'.procs[i].Creation?
      && (s'.procs[i].create.Created? <==> exists m: nat :: InsertsKey(s0, acts, m, key))
      && (s'.procs[i].create.Created? ==>
            HasKey(s.db, s'.procs[i].create.o, key) && forall o | HasKey(s.db, o, key) :: o == s'.procs[i].create.o)
  {
    var s := Run(s0, acts);
    var key := s.procs[i].key;
    assert acts[..|acts|] == acts && acts[..0] == [];
    TakenIff(s0, acts, 0, |acts|, key);
    assert !KeyTaken(At(s0, acts, 0).db.orders, key);
    KeysStayUnique(s0, acts);
    assert Step(s, Advance(i, env)).procs[i] == ProcStep(s.db, s.procs[i], env).1;
    assert (exists m: nat :: InsertsKey(s0, acts, m, key)) <==> KeyTaken(s.db.orders, key) by {
      if m: nat :| InsertsKey(s0, acts, m, key) {
        assert 0 <= m < |acts|;
      }
    }
  }

  // A request that reaches its insert is refused there exactly when an order with its key was inserted
  // after its own lookup, and then changes nothing.
  lemma {:induction false} LateRepeatRefusedIff(s0: Sys, acts: seq<Action>, i: nat, env: Env)
    requires Init(s0) && i < |Run(s0, acts).procs| && EnvOk(Run(s0, acts).db, Run(s0, acts).procs[i], env)
    requires var p := Run(s0, acts).procs[i]; p.Creation? && p.create.UserRead? && p.key.Some?
    ensures exists k: nat :: LooksUp(s0, acts, k, i)
    ensures var s := Run(s0, acts); var s' := Step(s, Advance(i, env)); var p' := s'.procs[i];
      && p'.Creation?
      && (forall k: nat | LooksUp(s0, acts, k, i) ::
            p'.create == CreateRefused <==> exists m: nat :: k < m < |acts| && InsertsKey(s0, acts, m, s.procs[i].key))
      && (p'.create == CreateRefused ==> s'.db == s.db)
  {
    var s := Run(s0, acts);
    var s' := Step(s, Advance(i, env));
    var key := s.procs[i].key;
    assert acts[..|acts|] == acts;
    LookedUp(s0, acts, i);
    assert s'.procs[i] == ProcStep(s.db, s.procs[i], env).1;
    forall k: nat | LooksUp(s0, acts, k, i)
      ensures KeyTaken(s.db.orders, key) <==> exists m: nat :: k < m < |acts| && InsertsKey(s0, acts, m, key)
    {
      FreeAtLookup(s0, acts, k, i);
      TakenIff(s0, acts, k + 1, |acts|, key);
    }
  }

  // --- Whose order a repeat is answered with ---

  // Request j inserts the order at step m.
  ghost predicate InsertedBy(s0: Sys, acts: seq<Action>, m: nat, j: nat, o: Id) {
    && m < |acts| && acts[m].Advance? && acts[m].i == j
    && o !in At(s0, acts, m).db.orders && o in At(s0, acts, m + 1).db.orders
  }

  lemma {:induction false} WasInserted(s0: Sys, acts: seq<Action>, n: nat, o: Id)
    requires Init(s0) && n <= |acts| && o in At(s0, acts, n).db.orders
    ensures exists m: nat, j: nat :: InsertedBy(s0, acts, m, j, o)
    decreases n
  {
    assert acts[..0] == [];
    NextState(s0, acts, n - 1);
    if o in At(s0, acts, n - 1).db.orders {
      WasInserted(s0, acts, n - 1, o);
    } else {
      assert InsertedBy(s0, acts, n - 1, acts[n - 1].i, o);
    }
  }

  lemma {:induction false} InserterTerms(s0: Sys, acts: seq<Action>, m: nat, j: nat, o: Id)
    requires Init(s0) && InsertedBy(s0, acts, m, j, o)
    ensures var s := Run(s0, acts);
      && o in s.db.orders && j < |s.procs| && s.procs[j].Creation?
      && SameTerms(s.db.orders[o], NewOrder(s.procs[j]))
  {
    var s := At(s0, acts, m);
    assert acts[..|acts|] == acts;
    NextState(s0, acts, m);
    InsertedByCreation(s.db, s.procs[j], acts[m].env, o);
    OrderKept(s0, acts, m + 1, o);
    RequestKept(s0, acts, m, |acts|, j);
  }

  // The lookup does not ask for the user: a request is answered with the order of whichever request of its
  // key was inserted, and that has the requester's user and terms exactly when that request had them.
  lemma {:induction false} ReplyTermsIff(s0: Sys, acts: seq<Action>, i: nat)
    requires Init(s0) && i < |Run(s0, acts).procs|
    requires var p := Run(s0, acts).procs[i]; p.Creation? && p.create.Created? && p.key.Some?
    ensures var s := Run(s0, acts); var p := s.procs[i]; var o := p.create.o;
      && o in s.db.orders
      && (exists m: nat, j: nat :: InsertedBy(s0, acts, m, j, o))
      && forall m: nat, j: nat | InsertedBy(s0, acts, m, j, o) ::
           && j < |s.procs| && s.procs[j].Creation? && s.procs[j].key == p.key
           && (s.db.orders[o].userId == p.userId <==> s.procs[j].userId == p.userId)
           && (SameTerms(s.db.orders[o], NewOrder(p)) <==> SameTerms(NewOrder(s.procs[j]), NewOrder(p)))
  {
    var s := Run(s0, acts);
    var o := s.procs[i].create.o;
    RunKeepsReplies(s0, acts);
    assert ReplyHasKey(s.db, s.procs[i]);
    assert acts[..|acts|] == acts;
    WasInserted(s0, acts, |acts|, o);
    forall m: nat, j: nat | InsertedBy(s0, acts, m, j, o)
      ensures j < |s.procs| && s.procs[j].Creation? && SameTerms(s.db.orders[o], NewOrder(s.procs[j]))
    {
      InserterTerms(s0, acts, m, j, o);
    }
  }
}
