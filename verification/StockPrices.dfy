/**
 The running least price of a stock, over every schedule: it is the smallest of the value it started
 with and every price written since.
 */
module StockPrices {
  import opened Wrappers
  import opened AnalyticsEvents
  import opened Domain
  import opened Protocol

  // A price update of y that has written the stock.
  predicate Wrote(p: Proc, y: string) {
    p.PriceUpdate? && p.symbol == y && !p.upd.PriceQueued? && !p.upd.PriceRead? && !p.upd.PriceRecorded?
  }

  // least is the minimum of `start` and the prices written, and one of them.
  ghost predicate LeastOf(s: Sys, y: string, start: real, least: real) {
    && least <= start
    && (forall i | 0 <= i < |s.procs| && Wrote(s.procs[i], y) :: least <= s.procs[i].price)
    && (least == start || exists i :: 0 <= i < |s.procs| && Wrote(s.procs[i], y) && s.procs[i].price == least)
  }

  ghost predicate LeastOk(s: Sys, y: string, start: real, below: bool) {
    && y in s.db.stocks && s.db.stocks[y].leastPrice.Some?
    && LeastOf(s, y, start, s.db.stocks[y].leastPrice.value)
    && (below ==> s.db.stocks[y].leastPrice.value <= s.db.stocks[y].currentPrice)
  }

  lemma {:induction false} PriceStepStocks(db: Db, p: Proc, env: Env, y: string)
    requires y in db.stocks && p.PriceUpdate?
    ensures var (db', pc', more) := PriceStep(db, p.symbol, p.price, p.upd, env); var p' := p.(upd := pc');
      && y in db'.stocks
      && (forall q | q in more :: !q.PriceUpdate?)
      && (if p.symbol == y && p.upd.PriceRecorded?
          then db'.stocks[y] == UpsertedStock(Some(db.stocks[y]), p.price, env.freshId, env.missingIsNull)
              && Wrote(p', y)
          else db'.stocks[y] == db.stocks[y] && (Wrote(p', y) <==> Wrote(p, y)))
  {
  }

  lemma {:induction false} OtherStepStocks(db: Db, p: Proc, env: Env)
    requires !p.PriceUpdate?
    ensures var (db', p', more) := ProcStep(db, p, env);
      db'.stocks == db.stocks && !p'.PriceUpdate? && forall q | q in more :: !q.PriceUpdate?
  {
  }

  lemma {:induction false} StepStocks(db: Db, p: Proc, env: Env, y: string)
    requires y in db.stocks
    ensures var (db', p', more) := ProcStep(db, p, env);
      && y in db'.stocks
      && (forall q | q in more :: !Wrote(q, y))
      && (if p.PriceUpdate? && p.symbol == y && p.upd.PriceRecorded?
          then
            && db'.stocks[y] == UpsertedStock(Some(db.stocks[y]), p.price, env.freshId, env.missingIsNull)
            && Wrote(p', y) && p'.price == p.price
          else
            && db'.stocks[y] == db.stocks[y] && (Wrote(p', y) <==> Wrote(p, y))
            && (Wrote(p, y) ==> p'.price == p.price))
  {
    if p.PriceUpdate? {
      PriceStepStocks(db, p, env, y);
    } else {
      OtherStepStocks(db, p, env);
    }
  }

  lemma {:induction false} StepKeepsLeast(s: Sys, a: Action, y: string, start: real, below: bool)
    requires LeastOk(s, y, start, below)
    ensures LeastOk(Step(s, a), y, start, below)
  {
    var s' := Step(s, a);
    var least := s.db.stocks[y].leastPrice.value;
    if a.Advance? && a.i < |s.procs| && EnvOk(s.db, s.procs[a.i], a.env) {
      StepStocks(s.db, s.procs[a.i], a.env, y);
      var least' := s'.db.stocks[y].leastPrice.value;
      assert forall i | 0 <= i < |s.procs| && i != a.i :: s'.procs[i] == s.procs[i];
      if least' == least && least != start {
        var i :| 0 <= i < |s.procs| && Wrote(s.procs[i], y) && s.procs[i].price == least;
        assert Wrote(s'.procs[i], y) && s'.procs[i].price == least;
      } else if least' != least {
        assert Wrote(s'.procs[a.i], y) && s'.procs[a.i].price == least';
      }
    } else {
      if least != start {
        var i :| 0 <= i < |s.procs| && Wrote(s.procs[i], y) && s.procs[i].price == least;
        assert Wrote(s'.procs[i], y);
      }
    }
  }

  lemma {:induction false} LeastPriceIsMinimum(s0: Sys, acts: seq<Action>, y: string)
    requires Init(s0) && y in s0.db.stocks && s0.db.stocks[y].leastPrice.Some?
    ensures LeastOk(Run(s0, acts), y, s0.db.stocks[y].leastPrice.value,
                    s0.db.stocks[y].leastPrice.value <= s0.db.stocks[y].currentPrice)
  {
    if acts != [] {
      LeastPriceIsMinimum(s0, acts[..|acts| - 1], y);
      StepKeepsLeast(Run(s0, acts[..|acts| - 1]), acts[|acts| - 1], y, s0.db.stocks[y].leastPrice.value,
                     s0.db.stocks[y].leastPrice.value <= s0.db.stocks[y].currentPrice);
    }
  }
}
