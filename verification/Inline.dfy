/**
 The inline queue driver: one request at a time, and a job put on a queue runs to its end before the
 call that queued it goes on.  `Complete` is that scheduler over the small-step system; it is shown to
 be one of its schedules, so everything proved over all schedules holds of inline runs.
 */
module Inline {
  import opened Wrappers
  import opened AnalyticsEvents
  import opened Domain
  import opened Protocol
  import opened Ownership
  import opened Livelock

  // What the outside world answers, step by step.
  type Tape = nat -> Env

  // --- Termination of one request ---

  function Level(p: Proc): nat {
    if p.Creation? || p.PriceUpdate? then 2 else if p.Evaluation? then 1 else 0
  }

  function Stage(p: Proc): nat {
    if p.Evaluation? then
      (match p.eval case EvalQueued => 3 case EvalPriced(_) => 2 case EvalEnded => 0 case _ => 1)
    else Work(p, 0)
  }

  function Turn(p: Proc): nat {
    if p.Evaluation? && p.eval.Scanning? then 2 else if p.Evaluation? && p.eval.Announcing? then 1 else 0
  }

  predicate Descends(p: Proc, p': Proc) {
    && Level(p') == Level(p)
    && (Stage(p') < Stage(p)
        || (Stage(p') == Stage(p) && p.Evaluation? && p'.Evaluation?
            && (|Todo(p'.eval)| < |Todo(p.eval)| || (|Todo(p'.eval)| == |Todo(p.eval)| && Turn(p') < Turn(p)))))
  }

  lemma {:induction false} EvalStepDescends(db: Db, symbol: string, pc: EvalPc, env: Env)
    requires !pc.EvalEnded?
    ensures var (db', pc', more) := EvalStep(db, symbol, pc, env);
      && Descends(Evaluation(symbol, pc), Evaluation(symbol, pc'))
      && |more| <= 1 && forall q | q in more :: Level(q) == 0
  {
  }

  lemma {:induction false} StepDescends(db: Db, p: Proc, env: Env)
    requires !Finished(p)
    ensures var (db', p', more) := ProcStep(db, p, env);
      && Descends(p, p') && |more| <= 1 && forall q | q in more :: Level(q) < Level(p)
  {
    if p.Execution? {
      ExecStepUsesWork(db, p.orderId, p.exec, env);
    } else if p.Evaluation? {
      EvalStepDescends(db, p.symbol, p.eval, env);
    }
  }

  // Runs a process to its end, and any job it queues to its end in between.
  ghost function Complete(db: Db, p: Proc, tape: Tape, n: nat): (Db, Proc, nat)
    decreases Level(p), Stage(p), if p.Evaluation? then |Todo(p.eval)| else 0, Turn(p)
  {
    if Finished(p) then (db, p, n)
    else
      StepDescends(db, p, tape(n));
      var (db', p', more) := ProcStep(db, p, tape(n));
      if more == [] then Complete(db', p', tape, n + 1)
      else
        var (db'', _, n'') := Complete(db', more[0], tape, n + 1);
        Complete(db'', p', tape, n'')
  }

  // --- It is a schedule ---

  ghost predicate Reaches(s: Sys, s': Sys) {
    exists acts: seq<Action> :: Run(s, acts) == s'
  }

  lemma {:induction false} RunConcat(s: Sys, a: seq<Action>, b: seq<Action>)
    ensures Run(s, a + b) == Run(Run(s, a), b)
  {
    if b == [] {
      assert a + b == a;
    } else {
      assert (a + b)[..|a + b| - 1] == a + b[..|b| - 1];
      RunConcat(s, a, b[..|b| - 1]);
    }
  }

  lemma {:induction false} ReachesTransitive(s: Sys, t: Sys, u: Sys)
    requires Reaches(s, t) && Reaches(t, u)
    ensures Reaches(s, u)
  {
    var a: seq<Action> :| Run(s, a) == t;
    var b: seq<Action> :| Run(t, b) == u;
    RunConcat(s, a, b);
  }

  lemma {:induction false} ReachesRefl(s: Sys)
    ensures Reaches(s, s)
  {
    assert Run(s, []) == s;
  }

  lemma {:induction false} ReachesStep(s: Sys, a: Action)
    ensures Reaches(s, Step(s, a))
  {
    assert [a][..0] == [];
    assert Run(s, [a]) == Step(s, a);
  }

  // The same by a schedule whose steps all take their answers from one tape.
  ghost predicate OnTape(tape: Tape, acts: seq<Action>) {
    forall a | a in acts && a.Advance? :: exists m :: a.env == tape(m)
  }

  ghost predicate Follows(tape: Tape, s: Sys, s': Sys) {
    exists acts: seq<Action> :: Run(s, acts) == s' && OnTape(tape, acts)
  }

  lemma {:induction false} FollowsTransitive(tape: Tape, s: Sys, t: Sys, u: Sys)
    requires Follows(tape, s, t) && Follows(tape, t, u)
    ensures Follows(tape, s, u)
  {
    var a: seq<Action> :| Run(s, a) == t && OnTape(tape, a);
    var b: seq<Action> :| Run(t, b) == u && OnTape(tape, b);
    RunConcat(s, a, b);
    assert OnTape(tape, a + b);
  }

  lemma {:induction false} FollowsRefl(tape: Tape, s: Sys)
    ensures Follows(tape, s, s)
  {
    assert Run(s, []) == s && OnTape(tape, []);
  }

  lemma {:induction false} FollowsStep(tape: Tape, s: Sys, a: Action)
    requires a.Advance? ==> exists m :: a.env == tape(m)
    ensures Follows(tape, s, Step(s, a))
  {
    assert [a][..0] == [];
    assert Run(s, [a]) == Step(s, a) && OnTape(tape, [a]);
  }

  // Document ids are never handed out twice, and queries list what they select.
  ghost predicate TapeOk(db: Db, tape: Tape, n: nat) {
    && (forall m | m >= n :: IdUnused(db, tape(m).freshId))
    && (forall m, k | n <= m < k :: tape(m).freshId != tape(k).freshId)
    && (forall m, ids | m >= n :: Lists(tape(m).arrange(ids), ids))
  }

  lemma {:induction false} ExecStepIds(db: Db, o: Id, pc: ExecPc, env: Env, id: Id)
    requires IdUnused(db, id) && id != env.freshId
    ensures IdUnused(ExecStep(db, o, pc, env).0, id)
  {
  }

  lemma {:induction false} PriceStepIds(db: Db, symbol: string, price: real, pc: PricePc, env: Env, id: Id)
    requires IdUnused(db, id) && id != env.freshId
    ensures IdUnused(PriceStep(db, symbol, price, pc, env).0, id)
  {
  }

  lemma {:induction false} CreateStepIds(db: Db, p: Proc, env: Env, id: Id)
    requires p.Creation? && IdUnused(db, id) && id != env.freshId
    ensures IdUnused(CreateStep(db, p, env).0, id)
  {
  }

  lemma {:induction false} EvalStepIds(db: Db, symbol: string, pc: EvalPc, env: Env, id: Id)
    requires IdUnused(db, id)
    ensures IdUnused(EvalStep(db, symbol, pc, env).0, id)
  {
  }

  lemma {:induction false} RequestStepIds(db: Db, p: Proc, env: Env, id: Id)
    requires (p.Cancellation? || p.Depositing?) && IdUnused(db, id) && id != env.freshId
    ensures IdUnused(ProcStep(db, p, env).0, id)
  {
    var db' := ProcStep(db, p, env).0;
    assert db'.stocks == db.stocks && db'.priceEvents == db.priceEvents && db'.orders.Keys == db.orders.Keys;
  }

  lemma {:induction false} OtherStepIds(db: Db, p: Proc, env: Env, id: Id)
    requires !p.Execution? && IdUnused(db, id) && id != env.freshId
    ensures IdUnused(ProcStep(db, p, env).0, id)
  {
    match p {
      case PriceUpdate(symbol, price, pc) => PriceStepIds(db, symbol, price, pc, env, id);
      case Creation(_, _, _, _, _, _) => CreateStepIds(db, p, env, id);
      case Evaluation(symbol, pc) => EvalStepIds(db, symbol, pc, env, id);
      case Cancellation(_, _, _) => RequestStepIds(db, p, env, id);
      case Depositing(_, _, _) => RequestStepIds(db, p, env, id);
    }
  }

  lemma {:induction false} StepKeepsTape(db: Db, p: Proc, tape: Tape, n: nat)
    requires TapeOk(db, tape, n)
    ensures TapeOk(ProcStep(db, p, tape(n)).0, tape, n + 1)
  {
    forall m | m >= n + 1 ensures IdUnused(ProcStep(db, p, tape(n)).0, tape(m).freshId) {
      if p.Execution? {
        ExecStepIds(db, p.orderId, p.exec, tape(n), tape(m).freshId);
      } else {
        OtherStepIds(db, p, tape(n), tape(m).freshId);
      }
    }
  }

  // The state after process i of s has been completed, with the jobs it queued appended.
  ghost predicate CompletedFrom(s: Sys, i: nat, tape: Tape, n: nat, s': Sys)
    requires i < |s.procs|
  {
    var (db', p', n') := Complete(s.db, s.procs[i], tape, n);
    && Follows(tape, s, s') && s'.db == db' && TapeOk(db', tape, n') && n <= n'
    && |s'.procs| >= |s.procs| && s'.procs[i] == p'
    && (forall j | 0 <= j < |s.procs| && j != i :: s'.procs[j] == s.procs[j])
    && Finished(s'.procs[i]) && NewFinished(s, s')
  }

  // The jobs queued on the way are finished too.
  predicate NewFinished(s: Sys, s': Sys) {
    forall j | |s.procs| <= j < |s'.procs| :: Finished(s'.procs[j])
  }

  lemma {:induction false} FirstStep(s: Sys, i: nat, tape: Tape, n: nat)
    requires i < |s.procs| && TapeOk(s.db, tape, n)
    ensures var (db1, p1, more) := ProcStep(s.db, s.procs[i], tape(n));
      Follows(tape, s, Sys(db1, s.procs[i := p1] + more))
  {
    assert EnvOk(s.db, s.procs[i], tape(n));
    FollowsStep(tape, s, Advance(i, tape(n)));
  }

  // One step towards s1, and the completion of the same process from there.
  lemma {:induction false} ThenCompletes(s: Sys, s1: Sys, i: nat, tape: Tape, n: nat, n1: nat, s': Sys)
    requires i < |s.procs| <= |s1.procs| && Follows(tape, s, s1) && CompletedFrom(s1, i, tape, n1, s') && n <= n1
    requires NewFinished(s, s1) && forall j | 0 <= j < |s.procs| && j != i :: s1.procs[j] == s.procs[j]
    requires Complete(s.db, s.procs[i], tape, n) == Complete(s1.db, s1.procs[i], tape, n1)
    ensures CompletedFrom(s, i, tape, n, s')
  {
    FollowsTransitive(tape, s, s1, s');
  }

  lemma {:induction false} CompleteIsRun(s: Sys, i: nat, tape: Tape, n: nat) returns (s': Sys)
    requires i < |s.procs| && TapeOk(s.db, tape, n)
    ensures CompletedFrom(s, i, tape, n, s')
    decreases Level(s.procs[i]), Stage(s.procs[i]),
              if s.procs[i].Evaluation? then |Todo(s.procs[i].eval)| else 0, Turn(s.procs[i])
  {
    var p := s.procs[i];
    if Finished(p) {
      FollowsRefl(tape, s);
      return s;
    }
    StepDescends(s.db, p, tape(n));
    StepKeepsTape(s.db, p, tape, n);
    var (db1, p1, more) := ProcStep(s.db, p, tape(n));
    var s1 := Sys(db1, s.procs[i := p1] + more);
    FirstStep(s, i, tape, n);
    if more == [] {
      s' := CompleteIsRun(s1, i, tape, n + 1);
      ThenCompletes(s, s1, i, tape, n, n + 1, s');
    } else {
      var j := |s.procs|;
      assert s1.procs[j] == more[0];
      var s2 := CompleteIsRun(s1, j, tape, n + 1);
      FollowsTransitive(tape, s, s1, s2);
      var (_, _, n2) := Complete(db1, more[0], tape, n + 1);
      assert s2.procs[i] == p1;
      s' := CompleteIsRun(s2, i, tape, n2);
      ThenCompletes(s, s2, i, tape, n, n2, s');
    }
  }

  // Any state can be run to an end: every process finished, one after the other.
  lemma {:induction false} RunsOutFrom(s: Sys, j: nat, k: nat, tape: Tape, n: nat) returns (s': Sys)
    requires j <= k <= |s.procs| && TapeOk(s.db, tape, n)
    requires forall i | 0 <= i < |s.procs| && !(j <= i < k) :: Finished(s.procs[i])
    ensures Follows(tape, s, s') && forall i | 0 <= i < |s'.procs| :: Finished(s'.procs[i])
    decreases k - j
  {
    if j == k {
      FollowsRefl(tape, s);
      return s;
    }
    var s1 := CompleteIsRun(s, j, tape, n);
    var (_, _, n1) := Complete(s.db, s.procs[j], tape, n);
    s' := RunsOutFrom(s1, j + 1, k, tape, n1);
    FollowsTransitive(tape, s, s1, s');
  }

  // --- A sequence of requests, each finished before the next ---

  predicate IsRequest(p: Proc) {
    CanStart(p) && (p.PriceUpdate? || p.Creation? || p.Cancellation? || p.Depositing?)
  }

  ghost function Serve(db: Db, requests: seq<Proc>, tape: Tape): (Db, nat) {
    if requests == [] then (db, 0)
    else
      var (db1, n1) := Serve(db, requests[..|requests| - 1], tape);
      var (db2, _, n2) := Complete(db1, requests[|requests| - 1], tape, n1);
      (db2, n2)
  }

  ghost predicate ServedFrom(s0: Sys, requests: seq<Proc>, tape: Tape, s: Sys) {
    var (db, n) := Serve(s0.db, requests, tape);
    Follows(tape, s0, s) && s.db == db && TapeOk(db, tape, n)
  }

  // Every inline run is a run of the interleaved system.
  lemma {:induction false} InlineRunsAreRuns(s0: Sys, requests: seq<Proc>, tape: Tape) returns (s: Sys)
    requires TapeOk(s0.db, tape, 0) && forall p | p in requests :: IsRequest(p)
    ensures ServedFrom(s0, requests, tape, s)
  {
    if requests == [] {
      FollowsRefl(tape, s0);
      return s0;
    }
    var init, p := requests[..|requests| - 1], requests[|requests| - 1];
    var s1 := InlineRunsAreRuns(s0, init, tape);
    var (db1, n1) := Serve(s0.db, init, tape);
    assert s1.db == db1 && TapeOk(db1, tape, n1);
    assert p in requests && CanStart(p);
    var s2 := Step(s1, Spawn(p));
    assert s2.db == s1.db && s2.procs == s1.procs + [p];
    FollowsStep(tape, s1, Spawn(p));
    FollowsTransitive(tape, s0, s1, s2);
    s := CompleteIsRun(s2, |s1.procs|, tape, n1);
    FollowsTransitive(tape, s0, s2, s);
  }

  // The safety results carry over: an inline run keeps the ownership invariant.
  lemma {:induction false} InlineKeepsDb(s0: Sys, requests: seq<Proc>, tape: Tape)
    requires Init(s0) && TapeOk(s0.db, tape, 0) && forall p | p in requests :: IsRequest(p)
    ensures DbOk(Serve(s0.db, requests, tape).0)
    ensures TapeOk(Serve(s0.db, requests, tape).0, tape, Serve(s0.db, requests, tape).1)
  {
    var s := InlineRunsAreRuns(s0, requests, tape);
    var acts: seq<Action> :| Run(s0, acts) == s && OnTape(tape, acts);
    RunKeepsInv(s0, acts);
  }
}
