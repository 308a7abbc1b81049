/**
 The gap that a stranded execution leaves in the analytics, reached: every call has come to its end, every
 publish has arrived, every event is delivered, and the report is still short of the store.
 */
module Shortfall {
  import opened Wrappers
  import opened AnalyticsEvents
  import opened Domain
  import opened Protocol
  import opened Ownership
  import opened Inline
  import opened Sums
  import opened Buckets
  import opened Metrics
  import opened Snapshots
  import opened Agreement
  import opened Books
  import opened PositionRuns
  import opened Schedules

  // With every event of the log delivered, the report names fewer trades of the user than there are.
  ghost predicate ReportsTooFew(db: Db, u: Id, b: Bucket) {
    Reported(db.events, Some(u), b, TradeCount) < SumBy(db.trades, TradeFigure(Some(u), b, TradeCount))
  }

  // Whatever the others do until they have all come to their end, a stranded execution is among them.
  lemma {:induction false} StrandedAtTheEnd(s: Sys, j: nat, tape: Tape, n: nat) returns (s': Sys)
    requires j < |s.procs| && IsStranded(s.procs[j]) && TapeOk(s.db, tape, n)
    ensures Follows(tape, s, s') && Quiescent(s') && j < |s'.procs| && IsStranded(s'.procs[j])
  {
    s' := RunsOutFrom(s, 0, |s.procs|, tape, n);
    var acts: seq<Action> :| Run(s, acts) == s' && OnTape(tape, acts);
    assert Run(s, []) == s && [] + acts == acts;
    StrandedStays(s, [], acts, j);
  }

  lemma {:induction false} OnTapeDelivered(tape: Tape, acts: seq<Action>)
    requires OnTape(tape, acts) && forall m :: tape(m).delivered
    ensures AllDelivered(acts)
  {
    forall a | a in acts && a.Advance? ensures a.env.delivered {
      var m :| a.env == tape(m);
    }
  }

  lemma {:induction false} StrandedTrade(s0: Sys, acts: seq<Action>, j: nat) returns (t: Trade)
    requires Init(s0) && j < |Run(s0, acts).procs| && IsStranded(Run(s0, acts).procs[j])
    ensures t in Run(s0, acts).db.trades && t.buyOrderId in StrandedOrders(Run(s0, acts).procs) && t.userId != ""
  {
    var s := Run(s0, acts);
    var p := s.procs[j];
    RunKeepsInv(s0, acts);
    StrandedHolds(s, j);
    t := TradeFor(p.orderId, p.exec.order, p.exec.price, p.exec.at);
    TradesOfMember(s.db.trades, t, p.orderId);
    assert ProcOk(s.db, p) && OrderOk(s.db, p.orderId);
  }

  // The report on the trades of the user, in a bucket that contains the time of a stranded one.
  lemma {:induction false} StrandedMissing(s0: Sys, acts: seq<Action>, t: Trade, b: Bucket)
    requires Init(s0) && AllDelivered(acts) && Quiescent(Run(s0, acts)) && t in Run(s0, acts).db.trades
    requires t.buyOrderId in StrandedOrders(Run(s0, acts).procs) && t.userId != "" && InBucket(t.executedAt, b)
    ensures ReportsTooFew(Run(s0, acts).db, t.userId, b)
  {
    var who := Some(t.userId);
    ReportedAndStranded(s0, acts, Run(s0, acts).db.events, who, b, TradeCount);
    StrandedNothingIff(s0, acts, who, b, TradeCount);
    assert Counted(t, who, b);
  }

  // From every starting state: two requests of one user for one stock can come to a state in which every
  // call has ended and every event was published, and once all are delivered the analytics report fewer
  // trades of that user than there are, in every bucket that contains the time of the stranded one.
  lemma {:induction false} ShortfallReachable(s0: Sys, ps: seq<Proc>, u: Id, y: string, most: real, tape: Tape)
    returns (acts: seq<Action>, t: Trade)
    requires Init(s0) && OneBuyer(s0.db, ps, u, y, most) && |ps| >= 2 && TapeOk(s0.db, tape, 0)
    requires forall m :: tape(m).delivered
    ensures AllDelivered(acts) && Quiescent(Run(s0, acts)) && t in Run(s0, acts).db.trades
    ensures forall b | InBucket(t.executedAt, b) :: ReportsTooFew(Run(s0, acts).db, t.userId, b)
  {
    var s1, j, n := StrandedReachable(s0, ps, u, y, most, tape);
    var s := StrandedAtTheEnd(s1, j, tape, n);
    FollowsTransitive(tape, s0, s1, s);
    acts :| Run(s0, acts) == s && OnTape(tape, acts);
    OnTapeDelivered(tape, acts);
    t := StrandedTrade(s0, acts, j);
    forall b | InBucket(t.executedAt, b) ensures ReportsTooFew(s.db, t.userId, b) {
      StrandedMissing(s0, acts, t, b);
    }
  }
}
