/** How often a backlogged lane is served, in terms of its visits. */
module Throughput {
  import opened Types
  import opened World
  import opened Invariant
  import opened EnqueueProofs
  import opened Preservation
  import opened Delivery
  import opened Guarantees

  ghost function Turns(log: Log, t: Tenant, p: Priority): nat {
    match log
    case Start => 0
    case Then(before, v) => Turns(before, t, p) + if At(v, t, p) then 1 else 0
  }

  ghost function Serves(log: Log, t: Tenant, p: Priority): nat {
    match log
    case Start => 0
    case Then(before, v) => Serves(before, t, p) + if At(v, t, p) && v.outcome.Served? then 1 else 0
  }

  ghost predicate Extends(past: Log, log: Log) {
    log == past || (log.Then? && Extends(past, log.before))
  }

  /** Since `past`, each visit of lane (t, p) found a live head, and refills were worth `quantum`. */
  ghost predicate Busy(past: Log, log: Log, t: Tenant, p: Priority, quantum: nat) {
    log == past || log.Start? ||
    (&& Busy(past, log.before, t, p, quantum)
     && (At(log.visit, t, p) ==>
           log.visit.outcome.Served? || (log.visit.outcome.Refilled? && log.visit.outcome.quantum == quantum)))
  }

  lemma TimesOneMore(x: int, n: int)
    ensures x * (n + 1) == x * n + x
  {
  }

  lemma {:induction false} BusyRefills(past: Log, log: Log, t: Tenant, p: Priority, quantum: nat)
    requires Extends(past, log) && Busy(past, log, t, p, quantum)
    ensures Serves(log, t, p) >= Serves(past, t, p)
    ensures Refills(log, t, p) - Refills(past, t, p) ==
            quantum * (Turns(log, t, p) - Turns(past, t, p) - (Serves(log, t, p) - Serves(past, t, p)))
  {
    if log != past {
      BusyRefills(past, log.before, t, p, quantum);
      TimesOneMore(quantum, Turns(log.before, t, p) - Turns(past, t, p) - (Serves(log.before, t, p) - Serves(past, t, p)));
    }
  }

  lemma {:induction false} BusyCharges(h: History, past: Log, log: Log, t: Tenant, p: Priority, cost: nat)
    requires Extends(past, log) && LogOk(h, log) && CostsWithin(h, t, p, cost)
    ensures Charged(log, t, p) - Charged(past, t, p) <= cost * (Serves(log, t, p) - Serves(past, t, p))
  {
    if log != past {
      BusyCharges(h, past, log.before, t, p, cost);
      TimesOneMore(cost, Serves(log.before, t, p) - Serves(past, t, p));
      hide ChargeFor;
    }
  }

  lemma {:induction false} BusyBalance(h: History, past: Log, log: Log, t: Tenant, p: Priority, quantum: nat, cost: nat)
    requires Extends(past, log) && Busy(past, log, t, p, quantum) && LogOk(h, log) && CostsWithin(h, t, p, cost)
    requires cost >= 1 && quantum >= 1 && cost - 1 + quantum <= I64_MAX
    ensures Balance(log, t, p) - Balance(past, t, p) ==
            Refills(log, t, p) - Refills(past, t, p) - (Charged(log, t, p) - Charged(past, t, p))
    ensures Balance(log, t, p) <= Max(Balance(past, t, p), cost - 1 + quantum)
  {
    hide WrapI64, ChargeFor;
    if log != past {
      BusyBalance(h, past, log.before, t, p, quantum, cost);
      BalanceStep(log.before, log.visit, t, p);
    }
  }

  /** How one visit moves a lane's balance. */
  lemma BalanceStep(before: Log, v: Visit, t: Tenant, p: Priority)
    ensures Balance(Then(before, v), t, p) ==
            if At(v, t, p) && v.outcome.Refilled? then WrapI64(Balance(before, t, p) + v.outcome.quantum)
            else if At(v, t, p) && v.outcome.Served? then WrapI64(Balance(before, t, p) - v.outcome.cost)
            else Balance(before, t, p)
  {
    hide WrapI64;
    var x := Refills(before, t, p) - Charged(before, t, p);
    if v.outcome.Refilled? {
      WrapTwice(x, v.outcome.quantum);
    } else if v.outcome.Served? {
      WrapTwice(x, 0 - v.outcome.cost);
    }
  }

  lemma {:induction false} ExtendsTrans(a: Log, b: Log, c: Log)
    requires Extends(a, b) && Extends(b, c)
    ensures Extends(a, c)
  {
    if c != b {
      ExtendsTrans(a, b, c.before);
    }
  }

  lemma {:induction false} RunExtendsLog(cfg: Config, clock: Clock, w: World, moves: seq<Move>)
    requires Inv(cfg, w)
    ensures Extends(w.books.history.log, Run(cfg, clock, w, moves).books.history.log)
    decreases |moves|
  {
    hide BooksOk, TenantInvAt, Homed, RingsKnown, Step, VisitOk;
    if moves != [] {
      var m := moves[0];
      var w1 := Step(cfg, clock, w, m);
      StepKeeps(cfg, clock, w, m);
      if m.VisitMove? && CanVisit(w, m.shard, m.priority) {
        VisitLogs(cfg, clock, w, m.shard, m.priority);
        assert w1 == VisitRing(clock, w, m.shard, m.priority).world by { VisitIsStep(cfg, clock, w, m.shard, m.priority); }
        assert Extends(w.books.history.log, w1.books.history.log);
      } else {
        OthersKeepLog(cfg, clock, w, m);
      }
      RunExtendsLog(cfg, clock, w1, moves[1..]);
      ExtendsTrans(w.books.history.log, w1.books.history.log, Run(cfg, clock, w1, moves[1..]).books.history.log);
    }
  }

  /** Throughput: if lane (t, p) sees a live head on each of its k visits, with quantum q and its own tasks
      charging at most C, C - 1 + q within an `i64`, and starts with no debt, it is served s times with
      (C + q) * s >= q * k - C - q + 1. */
  lemma ThroughputBound(cfg: Config, clock: Clock, w: World, moves: seq<Move>, t: Tenant, p: Priority, quantum: nat, cost: nat)
    requires Inv(cfg, w) && LogInv(w) && HomeState(w, t).deficits.At(p) >= 0
    requires quantum >= 1 && cost >= 1 && cost - 1 + quantum <= I64_MAX
    requires var end := Run(cfg, clock, w, moves).books.history;
             Busy(w.books.history.log, end.log, t, p, quantum) && CostsWithin(end, t, p, cost)
    ensures var past, log := w.books.history.log, Run(cfg, clock, w, moves).books.history.log;
            var k, s := Turns(log, t, p) - Turns(past, t, p), Serves(log, t, p) - Serves(past, t, p);
            (cost + quantum) * s >= quantum * k - cost - quantum + 1
  {
    hide BooksOk, TenantInvAt, Homed, RingsKnown, Step, LogOk, CostsWithin, Turns, Serves, Refills, Charged, Busy, Extends, LastServed, HomeState, WrapI64;
    RunKeepsLog(cfg, clock, w, moves);
    RunExtendsLog(cfg, clock, w, moves);
    InvAtLane(cfg, w, t, p);
    var past, end := w.books.history.log, Run(cfg, clock, w, moves).books.history;
    var k, s := Turns(end.log, t, p) - Turns(past, t, p), Serves(end.log, t, p) - Serves(past, t, p);
    BusyRefills(past, end.log, t, p, quantum);
    BusyCharges(end, past, end.log, t, p, cost);
    BusyBalance(end, past, end.log, t, p, quantum, cost);
    assert quantum * (k - s) == quantum * k - quantum * s;
    assert (cost + quantum) * s == cost * s + quantum * s;
  }
}
