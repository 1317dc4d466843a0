/**
  The circuit breaker: whether a task must stop because its own budget or the
  day's ceiling is spent, judged by the ledger's cached totals.
 */
module CircuitBreaker {
  import opened Wrappers
  import opened CostLedger

  datatype Reason = Fine | BudgetExceeded | DailyCeilingExceeded

  predicate BudgetSpent(budget: Option<real>, cumulative: real) {
    budget.Some? && budget.value > 0.0 && cumulative >= budget.value
  }

  predicate DaySpent(ceiling: real, nanos: int) { ceiling > 0.0 && nanos as real / NANO >= ceiling }

  /** The task's own budget is judged first; a budget or ceiling that is not positive is none. */
  function Decide(budget: Option<real>, cumulative: real, ceiling: real, nanos: int): Reason {
    if BudgetSpent(budget, cumulative) then BudgetExceeded
    else if DaySpent(ceiling, nanos) then DailyCeilingExceeded
    else Fine
  }

  function Threshold(configured: real): real { if configured <= 0.0 || configured >= 1.0 then 0.8 else configured }

  predicate WarningDue(budget: Option<real>, cumulative: real, threshold: real) {
    budget.Some? && budget.value > 0.0 && budget.value * threshold <= cumulative < budget.value
  }

  // ---- The decision against what was really spent ----

  /**
    In any run of concurrent writers whose records carry their recording times:
    a check stops a task for the day only when the day's records in the database,
    with those added too late for the day before, reach the ceiling; and it stops
    every task once the database passes it by what calls have still to add and a
    nano-dollar for each of the k records added.
   */
  lemma DayBreaksInTime(states: seq<State>, steps: seq<Step>, hour: int, now: int, i: nat, ceiling: real,
                        budget: Option<real>, task: string)
    requires TimedRun(states, steps, hour, now) && i < |states| && CostsOk(states[i]) && ceiling > 0.0
    ensures var s := states[i];
            var pending, late := DayPending(s.threads, s.dailyStart), Sum(Late(s.window, s.dailyStart));
            var reason := Decide(budget, Cached(s.totals, task), ceiling, s.nanos);
            && 0.0 <= pending && 0.0 <= late
            && (reason == DailyCeilingExceeded ==> Spend(s) + late >= ceiling + pending)
            && (Legible(s.db, hour) && Spend(s) + late >= ceiling + pending + |s.window| as real / NANO ==> reason != Fine)
  {
    DailyTotalIsClose(states, steps, hour, now, i);
    var s := states[i];
    var added := Spend(s) - DayPending(s.threads, s.dailyStart) + Sum(Late(s.window, s.dailyStart));
    DayPendingIsNonNegative(s.threads, s.dailyStart);
    LateIsNonNegative(states, steps, hour, now, i);
    CeilingIn(ceiling, added, |s.window|, s.nanos, Legible(s.db, hour));
  }

  lemma CeilingIn(ceiling: real, added: real, k: nat, nanos: int, legible: bool)
    requires ceiling > 0.0 && nanos as real <= added * NANO && (legible ==> added * NANO - k as real <= nanos as real)
    ensures DaySpent(ceiling, nanos) ==> added >= ceiling
    ensures legible && added >= ceiling + k as real / NANO ==> DaySpent(ceiling, nanos)
  {
    if legible && added >= ceiling + k as real / NANO {
      assert (ceiling + k as real / NANO) * NANO == ceiling * NANO + k as real;
    }
  }

  /** Without late additions and pending ones, the database alone decides. */
  lemma SettledDayBreaksInTime(states: seq<State>, steps: seq<Step>, hour: int, now: int, i: nat, ceiling: real,
                               budget: Option<real>, task: string)
    requires TimedRun(states, steps, hour, now) && i < |states| && CostsOk(states[i]) && ceiling > 0.0
    requires !AddedLate(states, steps, i) && forall th :: th in states[i].threads ==> !th.OwesDaily()
    ensures var s := states[i];
            var reason := Decide(budget, Cached(s.totals, task), ceiling, s.nanos);
            && (reason == DailyCeilingExceeded ==> Spend(s) >= ceiling)
            && (Legible(s.db, hour) && Spend(s) >= ceiling + |s.window| as real / NANO ==> reason != Fine)
  {
    var s := states[i];
    DayBreaksInTime(states, steps, hour, now, i, ceiling, budget, task);
    ExcessIffAddedLate(states, steps, hour, now, i);
    forall t | 0 <= t < |s.threads| ensures DayOwed(s.threads[t], s.dailyStart) == 0.0 { assert s.threads[t] in s.threads; }
    NoneOwed(s.threads, s.dailyStart);
  }

  /**
    A task is stopped for its budget only when the database says it is spent,
    and whenever it is spent without what concurrent calls have still to add.
   */
  lemma BudgetBreaksInTime(states: seq<State>, steps: seq<Step>, hour: int, now: int, i: nat, task: string, budget: real,
                           ceiling: real)
    requires Run(states, steps, hour, now) && i < |states| && CostsOk(states[i]) && budget > 0.0
    ensures var s := states[i];
            var reason := Decide(Some(budget), Cached(s.totals, task), ceiling, s.nanos);
            && (reason == BudgetExceeded ==> Total(s.db, task) >= budget)
            && (reason == BudgetExceeded <==> Total(s.db, task) - Pending(s.threads, task) >= budget)
  {
    NoUpdateIsLost(states, steps, hour, now, i, task);
    PendingIsNonNegative(states[i].threads, task);
  }

  lemma {:induction false} PendingIsNonNegative(threads: seq<Thread>, task: string)
    requires forall th :: th in threads && th.rec.Some? ==> 0.0 <= th.rec.value.cost
    ensures 0.0 <= Pending(threads, task)
  {
    if threads != [] {
      var rest := threads[..|threads| - 1];
      assert threads[|threads| - 1] in threads && forall th :: th in rest ==> th in threads;
      PendingIsNonNegative(rest, task);
    }
  }

  /** A run in which the ceiling trips on a day without any spend. */
  lemma TrippedByLateWitness() returns (states: seq<State>, steps: seq<Step>, s: State)
    ensures TimedRun(states, steps, 0, 0) && s == states[|steps|] && CostsOk(s) && Legible(s.db, 0)
    ensures Spend(s) == 0.0 && Decide(None, 0.0, 5.0, s.nanos) == DailyCeilingExceeded
  {
    states, steps, s := LateWitness();
  }

  /** A run in which the ceiling does not trip although the database has passed it. */
  lemma OpenWhilePendingWitness() returns (states: seq<State>, steps: seq<Step>, s: State)
    ensures TimedRun(states, steps, 0, 0) && s == states[|steps|] && CostsOk(s) && Legible(s.db, 0)
    ensures Spend(s) == 100.0 && Decide(None, 0.0, 5.0, s.nanos) == Fine
  {
    states, steps, s := PendingWitness();
  }

  // ---- Warnings, for one check at a time ----

  datatype Event = Check(task: string, due: bool) | Reset(task: string)

  datatype Warnings = Warnings(sent: set<string>, notices: seq<string>)

  function Observe(w: Warnings, e: Event): Warnings {
    match e
    case Check(task, due) => if due && task !in w.sent then Warnings(w.sent + {task}, w.notices + [task]) else w
    case Reset(task) => w.(sent := w.sent - {task})
  }

  function ObserveAll(w: Warnings, events: seq<Event>): Warnings {
    if events == [] then w else Observe(ObserveAll(w, events[..|events| - 1]), events[|events| - 1])
  }

  function Count(s: seq<string>, x: string): nat {
    if s == [] then 0 else Count(s[..|s| - 1], x) + (if s[|s| - 1] == x then 1 else 0)
  }

  predicate Ever(events: seq<Event>, e: Event) {
    events != [] && (Ever(events[..|events| - 1], e) || events[|events| - 1] == e)
  }

  lemma ObserveCounts(w: Warnings, e: Event, task: string, w': Warnings)
    requires e != Reset(task) && w' == Observe(w, e)
    ensures task in w'.sent <==> task in w.sent || e == Check(task, true)
    ensures Count(w'.notices, task) == Count(w.notices, task) + (if e == Check(task, true) && task !in w.sent then 1 else 0)
  {
    if w'.notices != w.notices { assert w'.notices[..|w.notices|] == w.notices; }
  }

  /** Until it is reset, a task is warned about once: at its first check at which a warning is due. */
  lemma {:induction false} OneWarningPerReset(w: Warnings, events: seq<Event>, task: string)
    requires !Ever(events, Reset(task))
    ensures var w' := ObserveAll(w, events);
            && (task in w'.sent <==> task in w.sent || Ever(events, Check(task, true)))
            && Count(w'.notices, task) == Count(w.notices, task) + (if task !in w.sent && Ever(events, Check(task, true)) then 1 else 0)
  {
    if events != [] {
      var rest, e := events[..|events| - 1], events[|events| - 1];
      OneWarningPerReset(w, rest, task);
      ObserveCounts(ObserveAll(w, rest), e, task, ObserveAll(w, events));
    }
  }

  // ---- The breaker itself ----

  class TaskBudgetStore {
    var budgets: map<string, real>

    constructor ()
      ensures budgets == map[]
    {
      budgets := map[];
    }

    method Register(task: string, cost: real)
      modifies this
      ensures budgets == old(budgets)[task := cost]
    {
      budgets := budgets[task := cost];
    }

    function Lookup(task: string): (budget: Option<real>)
      reads this
      ensures budget.Some? <==> task in budgets
    {
      if task in budgets then Some(budgets[task]) else None
    }

    method Remove(task: string)
      modifies this
      ensures budgets == old(budgets) - {task}
    {
      budgets := budgets - {task};
    }
  }

  class Breaker {
    const ledger: SQLiteLedger
    const budgets: TaskBudgetStore
    const threshold: real
    var sent: set<string>
    var notices: seq<string>

    constructor (ledger: SQLiteLedger, budgets: TaskBudgetStore, threshold: real)
      ensures this.ledger == ledger && this.budgets == budgets && sent == {} && notices == []
      ensures this.threshold == (if 0.0 < threshold < 1.0 then threshold else 0.8) && this.threshold == Threshold(threshold)
    {
      this.ledger, this.budgets, sent, notices := ledger, budgets, {}, [];
      this.threshold := if threshold <= 0.0 || threshold >= 1.0 then 0.8 else threshold;
    }

    /** The task's part of a check: whether its budget is spent, and a warning if that is due. */
    method CheckBudget(task: string) returns (stopped: bool)
      modifies this
      ensures stopped <==> task in budgets.budgets && 0.0 < budgets.budgets[task] <= Cached(ledger.taskTotals, task)
      ensures Warnings(sent, notices) == Observe(old(Warnings(sent, notices)),
                Check(task, WarningDue(budgets.Lookup(task), Cached(ledger.taskTotals, task), threshold)))
    {
      var maxBudget := budgets.Lookup(task);
      if maxBudget.Some? && maxBudget.value > 0.0 {
        var cumulative := ledger.TaskCumulative(task);
        if cumulative >= maxBudget.value { return true; }
        var warningLevel := maxBudget.value * threshold;
        if cumulative >= warningLevel && task !in sent {
          notices := notices + [task];
          sent := sent + {task};
        }
      }
      return false;
    }

    method CheckCircuitBreaker(task: string, ceiling: real, now: int) returns (reason: Reason)
      modifies this, ledger`dailyStart, ledger`dailyTotal
      ensures DayStart(now, ledger.resetHour) <= ledger.dailyStart
      ensures ledger.dailyTotal == if old(ledger.dailyStart) < ledger.dailyStart then 0 else old(ledger.dailyTotal)
      ensures reason == Decide(budgets.Lookup(task), Cached(ledger.taskTotals, task), ceiling, ledger.dailyTotal)
      ensures var total := if task in ledger.taskTotals then ledger.taskTotals[task] else 0.0;
              var stopped := task in budgets.budgets && 0.0 < budgets.budgets[task] <= total;
              var full := 0.0 < ceiling && ceiling * NANO <= ledger.dailyTotal as real;
              && (reason == BudgetExceeded <==> stopped)
              && (reason == DailyCeilingExceeded <==> !stopped && full)
              && (reason == Fine <==> !stopped && !full)
      ensures Warnings(sent, notices) == Observe(old(Warnings(sent, notices)),
                Check(task, WarningDue(budgets.Lookup(task), Cached(ledger.taskTotals, task), threshold)))
      ensures var total := if task in ledger.taskTotals then ledger.taskTotals[task] else 0.0;
              var due := task in budgets.budgets && budgets.budgets[task] > 0.0
                         && budgets.budgets[task] * threshold <= total < budgets.budgets[task];
              notices == if due && task !in old(sent) then old(notices) + [task] else old(notices)
    {
      ledger.RotateDailyIfNeeded(now);
      var stopped := CheckBudget(task);
      if stopped { return BudgetExceeded; }
      if ceiling > 0.0 {
        var dailyTotal := ledger.LoadDailyTotal();
        if dailyTotal >= ceiling { return DailyCeilingExceeded; }
      }
      return Fine;
    }

    method ResetTaskWarning(task: string)
      modifies this
      ensures Warnings(sent, notices) == Observe(old(Warnings(sent, notices)), Reset(task))
    {
      sent := sent - {task};
    }
  }
}
