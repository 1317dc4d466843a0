/**
  The cost ledger: a database of records, with a cached total per task that
  concurrent writers update by compare-and-swap, and a total for the day kept in
  whole nano-dollars.  One step is one atomic operation or one locked region.
 */
module CostLedger {
  import opened Timestamps
  import opened Runs
  import opened Wrappers

  // ---- The daily window ----

  const HOUR := 3600 * SECOND
  const DAY := 24 * HOUR

  /** A configured reset hour outside the day counts as midnight. */
  function ResetHour(hour: int): int { if hour < 0 || hour > 23 then 0 else hour }

  function DayStart(now: int, hour: int): int {
    var today := now - now % DAY + ResetHour(hour) * HOUR;
    if now < today then today - DAY else today
  }

  predicate IsReset(time: int, hour: int) { time % DAY == ResetHour(hour) * HOUR }

  /** There is exactly one reset in the day up to now, and it is the start of the window. */
  lemma DayStartIsTheReset(now: int, hour: int, start: int)
    ensures start == DayStart(now, hour) <==> IsReset(start, hour) && start <= now < start + DAY
  {
    var today := now - now % DAY + ResetHour(hour) * HOUR;
    ShiftedReset(now / DAY, hour);
    ShiftedReset(now / DAY - 1, hour);
    assert today == DAY * (now / DAY) + ResetHour(hour) * HOUR;
    if IsReset(start, hour) && start <= now < start + DAY {
      ResetsAreFarApart(start, DayStart(now, hour), hour);
    }
  }

  lemma ShiftedReset(day: int, hour: int)
    ensures IsReset(DAY * day + ResetHour(hour) * HOUR, hour)
  {
  }

  /** Two resets less than a day apart are the same. */
  lemma ResetsAreFarApart(a: int, b: int, hour: int)
    requires IsReset(a, hour) && IsReset(b, hour) && a - DAY < b < a + DAY
    ensures a == b
  {
    assert (a - b) % DAY == 0 by { assert a == DAY * (a / DAY) + a % DAY && b == DAY * (b / DAY) + b % DAY; }
  }

  lemma DayStartIsMonotone(a: int, b: int, hour: int)
    requires a <= b
    ensures DayStart(a, hour) <= DayStart(b, hour)
  {
    DayStartIsTheReset(a, hour, DayStart(a, hour));
    DayStartIsTheReset(b, hour, DayStart(b, hour));
    if DayStart(b, hour) < DayStart(a, hour) {
      DayStartIsTheReset(b, hour, DayStart(a, hour));
    }
  }

  // ---- Records and their sums ----

  datatype Rec = Rec(id: string, task: string, cost: real, at: int)

  const NANO := 1_000_000_000.0

  /** Conversion to int64, which drops the fraction. */
  function Trunc(x: real): int { if x < 0.0 then -(-x).Floor else x.Floor }

  predicate HasId(db: seq<Rec>, id: string) { exists r :: r in db && r.id == id }

  predicate HasTask(db: seq<Rec>, task: string) {
    db != [] && (HasTask(db[..|db| - 1], task) || db[|db| - 1].task == task)
  }

  function Sum(db: seq<Rec>): real { if db == [] then 0.0 else Sum(db[..|db| - 1]) + db[|db| - 1].cost }

  function Total(db: seq<Rec>, task: string): real {
    if db == [] then 0.0
    else Total(db[..|db| - 1], task) + (if db[|db| - 1].task == task then db[|db| - 1].cost else 0.0)
  }

  function Cached(totals: map<string, real>, task: string): real { if task in totals then totals[task] else 0.0 }

  /** The rows of the grouped sum query: one per task that has a record. */
  function Rebuilt(db: seq<Rec>): map<string, real> {
    if db == [] then map[]
    else
      var r, m := db[|db| - 1], Rebuilt(db[..|db| - 1]);
      m[r.task := Cached(m, r.task) + r.cost]
  }

  lemma {:induction false} RebuiltIsTotal(db: seq<Rec>, task: string)
    ensures task in Rebuilt(db) <==> HasTask(db, task)
    ensures Cached(Rebuilt(db), task) == Total(db, task)
  {
    if db != [] {
      var r, rest := db[|db| - 1], db[..|db| - 1];
      RebuiltIsTotal(rest, task);
      RebuiltIsTotal(rest, r.task);
    }
  }

  /** Whether the daily query sees a record: its stored text is compared with that of the window's start. */
  predicate Counted(r: Rec, start: int) { r.at == start || start + SECOND <= r.at }

  function Since(db: seq<Rec>, start: int): seq<Rec> {
    if db == [] then []
    else
      var r, rest := db[|db| - 1], Since(db[..|db| - 1], start);
      if start <= r.at then rest + [r] else rest
  }

  function CountedSince(db: seq<Rec>, start: int): seq<Rec> {
    if db == [] then []
    else
      var r, rest := db[|db| - 1], CountedSince(db[..|db| - 1], start);
      if Counted(r, start) then rest + [r] else rest
  }

  // ---- Writers ----

  /** Where a call is: rotating the day, inserting, adding to its task's total, adding to the day's, done. */
  datatype Pc = Starting | Rotating(start: int) | Past | Adding | Swapping(current: real) | AddingDaily | Returned

  /** A call with a record is Record; one without reads the daily total. */
  datatype Thread = Thread(rec: Option<Rec>, began: int, pc: Pc)
  {
    predicate Owes() { rec.Some? && (pc.Adding? || pc.Swapping?) }
    predicate OwesDaily() { rec.Some? && (pc.Adding? || pc.Swapping? || pc.AddingDaily?) }
  }

  /**
    The window is a history variable: the records that went into the daily total
    since it was last reset or rebuilt.
   */
  datatype State = State(db: seq<Rec>, totals: map<string, real>, nanos: int, dailyStart: int, hour: int,
                         clock: int, threads: seq<Thread>, window: seq<Rec>)

  datatype Step =
    | Tick(ns: nat)
    | Begin(rec: Option<Rec>)
    | ReadClock(t: nat)
    | Rotate(t: nat)
    | Insert(t: nat, works: bool)
    | LoadOrStore(t: nat)
    | Swap(t: nat)
    | AddDaily(t: nat)
    | Restart

  function Moved(s: State, t: nat, pc: Pc): seq<Thread>
    requires t < |s.threads|
  {
    s.threads[t := s.threads[t].(pc := pc)]
  }

  predicate Enabled(s: State, step: Step) {
    match step
    case Tick(_) => true
    case Begin(_) => true
    case ReadClock(t) => t < |s.threads| && s.threads[t].pc.Starting?
    case Rotate(t) => t < |s.threads| && s.threads[t].pc.Rotating?
    case Insert(t, _) => t < |s.threads| && s.threads[t].pc.Past?
    case LoadOrStore(t) => t < |s.threads| && s.threads[t].pc.Adding? && s.threads[t].rec.Some?
    case Swap(t) => t < |s.threads| && s.threads[t].pc.Swapping? && s.threads[t].rec.Some?
    case AddDaily(t) => t < |s.threads| && s.threads[t].pc.AddingDaily? && s.threads[t].rec.Some?
    case Restart => true
  }

  function Next(s: State, step: Step): State
    requires Enabled(s, step)
  {
    match step
    case Tick(ns) => s.(clock := s.clock + ns)
    case Begin(rec) => s.(threads := s.threads + [Thread(rec, 0, Starting)])
    case ReadClock(t) =>
      var start := DayStart(s.clock, s.hour);
      var pc := if s.dailyStart < start then Rotating(start) else Past;
      s.(threads := s.threads[t := s.threads[t].(began := s.clock, pc := pc)])
    case Rotate(t) =>
      var start, threads := s.threads[t].pc.start, Moved(s, t, Past);
      if s.dailyStart < start then s.(threads := threads, dailyStart := start, nanos := 0, window := [])
      else s.(threads := threads)
    case Insert(t, works) =>
      var rec := s.threads[t].rec;
      if rec.None? || !works || HasId(s.db, rec.value.id) then s.(threads := Moved(s, t, Returned))
      else s.(threads := Moved(s, t, Adding), db := s.db + [rec.value])
    case LoadOrStore(t) =>
      var r := s.threads[t].rec.value;
      if r.task in s.totals then s.(threads := Moved(s, t, Swapping(s.totals[r.task])))
      else s.(threads := Moved(s, t, AddingDaily), totals := s.totals[r.task := r.cost])
    case Swap(t) =>
      var r, current := s.threads[t].rec.value, s.threads[t].pc.current;
      if r.task in s.totals && s.totals[r.task] == current
      then s.(threads := Moved(s, t, AddingDaily), totals := s.totals[r.task := current + r.cost])
      else s.(threads := Moved(s, t, Adding))
    case AddDaily(t) =>
      var r := s.threads[t].rec.value;
      s.(threads := Moved(s, t, Returned), nanos := AddedNanos(s.nanos, r.cost), window := s.window + [r])
    case Restart =>
      Reopened(s.db, s.hour, s.clock)
  }

  /** addToDailyTotal: to dollars, add, back to whole nano-dollars. */
  function AddedNanos(nanos: int, cost: real): int { Trunc((nanos as real / NANO + cost) * NANO) }

  /** What a freshly opened ledger holds. */
  function Reopened(db: seq<Rec>, hour: int, now: int): State {
    var start := DayStart(now, hour);
    State(db, Rebuilt(db), Trunc(Sum(CountedSince(db, start)) * NANO), start, hour, now, [], Since(db, start))
  }

  ghost predicate Run(states: seq<State>, steps: seq<Step>, hour: int, now: int) {
    && |states| == |steps| + 1 && states[0] == Reopened([], hour, now)
    && forall i :: 0 <= i < |steps| ==> Enabled(states[i], steps[i]) && states[i + 1] == Next(states[i], steps[i])
  }

  // ---- No update is lost ----

  /** What one call has inserted for a task and not yet added to its total. */
  function Owed(th: Thread, task: string): real {
    if th.Owes() && th.rec.value.task == task then th.rec.value.cost else 0.0
  }

  function Pending(threads: seq<Thread>, task: string): real {
    if threads == [] then 0.0 else Pending(threads[..|threads| - 1], task) + Owed(threads[|threads| - 1], task)
  }

  /** How many calls have yet to add to a task's total. */
  function Waiting(threads: seq<Thread>, task: string): nat {
    if threads == [] then 0 else Waiting(threads[..|threads| - 1], task) + Waits(threads[|threads| - 1], task)
  }

  function Waits(th: Thread, task: string): nat { if th.Owes() && th.rec.value.task == task then 1 else 0 }

  lemma {:induction false} PendingAfterMove(threads: seq<Thread>, t: nat, th: Thread, task: string)
    requires t < |threads|
    ensures Pending(threads[t := th], task) == Pending(threads, task) - Owed(threads[t], task) + Owed(th, task)
    ensures Waiting(threads[t := th], task) == Waiting(threads, task) - Waits(threads[t], task) + Waits(th, task)
  {
    var n := |threads| - 1;
    if t < n {
      assert threads[t := th][..n] == threads[..n][t := th];
      PendingAfterMove(threads[..n], t, th, task);
    } else {
      assert threads[t := th][..n] == threads[..n];
    }
  }

  /** The cached total and what is still owed make up the sum in the database. */
  ghost predicate TaskOk(s: State, task: string) {
    && Cached(s.totals, task) + Pending(s.threads, task) == Total(s.db, task)
    && (task in s.totals || Waiting(s.threads, task) > 0 <==> HasTask(s.db, task))
  }

  ghost predicate IdsOk(db: seq<Rec>) { forall i, j :: 0 <= i < j < |db| ==> db[i].id != db[j].id }

  lemma QuietMoveKeepsTask(s: State, t: nat, th: Thread, s': State, task: string)
    requires t < |s.threads| && TaskOk(s, task) && s'.threads == s.threads[t := th]
    requires s'.db == s.db && s'.totals == s.totals
    requires s.threads[t].Owes() == th.Owes() && s.threads[t].rec == th.rec
    ensures TaskOk(s', task)
  {
    PendingAfterMove(s.threads, t, th, task);
  }

  lemma InsertKeepsTask(s: State, t: nat, s': State, task: string)
    requires t < |s.threads| && TaskOk(s, task) && s.threads[t].rec.Some? && !s.threads[t].Owes()
    requires s'.threads == Moved(s, t, Adding) && s'.db == s.db + [s.threads[t].rec.value] && s'.totals == s.totals
    ensures TaskOk(s', task)
  {
    PendingAfterMove(s.threads, t, s.threads[t].(pc := Adding), task);
    assert s'.db[..|s.db|] == s.db;
  }

  /** A call adds what it owes to the total it saw, which is still the current one. */
  lemma AddKeepsTask(s: State, t: nat, s': State, task: string)
    requires t < |s.threads| && TaskOk(s, task) && s.threads[t].Owes()
    requires s'.threads == Moved(s, t, AddingDaily) && s'.db == s.db
    requires var r := s.threads[t].rec.value; s'.totals == s.totals[r.task := Cached(s.totals, r.task) + r.cost]
    ensures TaskOk(s', task)
  {
    var r := s.threads[t].rec.value;
    PendingAfterMove(s.threads, t, s.threads[t].(pc := AddingDaily), task);
    WaitsIsPart(s.threads, t, r.task);
  }

  lemma {:induction false} WaitsIsPart(threads: seq<Thread>, t: nat, task: string)
    requires t < |threads|
    ensures Waits(threads[t], task) <= Waiting(threads, task)
  {
    if t < |threads| - 1 { WaitsIsPart(threads[..|threads| - 1], t, task); }
  }

  lemma BeginKeepsTask(s: State, rec: Option<Rec>, task: string)
    requires TaskOk(s, task)
    ensures TaskOk(Next(s, Begin(rec)), task)
  {
    PendingAfterBegin(s.threads, Thread(rec, 0, Starting), task);
  }

  lemma PendingAfterBegin(threads: seq<Thread>, th: Thread, task: string)
    ensures Pending(threads + [th], task) == Pending(threads, task) + Owed(th, task)
    ensures Waiting(threads + [th], task) == Waiting(threads, task) + Waits(th, task)
  {
    assert (threads + [th])[..|threads|] == threads;
  }

  /** The three steps that may write: what they do not write, they leave to a later one. */
  lemma WriteKeepsTask(s: State, step: Step, t: nat, s': State, task: string)
    requires TaskOk(s, task) && Enabled(s, step) && s' == Next(s, step)
    requires (step.Insert? || step.LoadOrStore? || step.Swap?) && step.t == t
    ensures TaskOk(s', task)
  {
    var owes := s'.threads[t].Owes();
    if step.Insert? {
      if owes { InsertKeepsTask(s, t, s', task); } else { QuietMoveKeepsTask(s, t, s'.threads[t], s', task); }
    } else {
      if owes { QuietMoveKeepsTask(s, t, s'.threads[t], s', task); } else { AddKeepsTask(s, t, s', task); }
    }
  }

  lemma StepKeepsTask(s: State, step: Step, task: string)
    requires TaskOk(s, task) && Enabled(s, step)
    ensures TaskOk(Next(s, step), task)
  {
    var s' := Next(s, step);
    match step
    case Tick(_) =>
    case Begin(rec) => BeginKeepsTask(s, rec, task);
    case ReadClock(t) => QuietMoveKeepsTask(s, t, s'.threads[t], s', task);
    case Rotate(t) => QuietMoveKeepsTask(s, t, s'.threads[t], s', task);
    case Insert(t, _) => WriteKeepsTask(s, step, t, s', task);
    case LoadOrStore(t) => WriteKeepsTask(s, step, t, s', task);
    case Swap(t) => WriteKeepsTask(s, step, t, s', task);
    case AddDaily(t) => QuietMoveKeepsTask(s, t, s'.threads[t], s', task);
    case Restart => RebuiltIsTotal(s.db, task);
  }

  lemma {:induction false} TaskAlways(states: seq<State>, steps: seq<Step>, hour: int, now: int, i: nat, task: string)
    requires Run(states, steps, hour, now) && i < |states|
    ensures TaskOk(states[i], task) && IdsOk(states[i].db)
  {
    if i > 0 {
      TaskAlways(states, steps, hour, now, i - 1, task);
      StepKeepsTask(states[i - 1], steps[i - 1], task);
    }
  }

  /**
    However the writers interleave, a task's cached total plus what has been
    inserted and not yet added is the sum in the database, and an ID is stored once.
   */
  lemma NoUpdateIsLost(states: seq<State>, steps: seq<Step>, hour: int, now: int, i: nat, task: string)
    requires Run(states, steps, hour, now) && i < |states|
    ensures Cached(states[i].totals, task) + Pending(states[i].threads, task) == Total(states[i].db, task)
    ensures forall a, b :: 0 <= a < b < |states[i].db| ==> states[i].db[a].id != states[i].db[b].id
  {
    TaskAlways(states, steps, hour, now, i, task);
  }

  lemma {:induction false} NothingPending(threads: seq<Thread>, task: string)
    requires forall th :: th in threads ==> !th.Owes()
    ensures Pending(threads, task) == 0.0 && Waiting(threads, task) == 0
  {
    if threads != [] {
      assert forall th :: th in threads[..|threads| - 1] ==> th in threads;
      assert threads[|threads| - 1] in threads;
      NothingPending(threads[..|threads| - 1], task);
    }
  }

  /** Once no writer is between its insert and its add, the cache is what a restart would rebuild. */
  lemma RestartChangesNoTotal(states: seq<State>, steps: seq<Step>, hour: int, now: int, i: nat)
    requires Run(states, steps, hour, now) && i < |states|
    requires forall th :: th in states[i].threads ==> !th.Owes()
    ensures Next(states[i], Restart).totals == states[i].totals
  {
    var s := states[i];
    forall task ensures task in s.totals <==> task in Rebuilt(s.db)
      ensures task in s.totals ==> s.totals[task] == Rebuilt(s.db)[task]
    {
      TaskAlways(states, steps, hour, now, i, task);
      NothingPending(s.threads, task);
      RebuiltIsTotal(s.db, task);
    }
  }

  // ---- The daily total ----

  predicate NonNegative(db: seq<Rec>) { forall r :: r in db ==> 0.0 <= r.cost }

  /** No costs are negative, in the database or on their way to it. */
  predicate CostsOk(s: State) {
    NonNegative(s.db) && forall th :: th in s.threads && th.rec.Some? ==> 0.0 <= th.rec.value.cost
  }

  /** A record the text comparison gets wrong: in the first second of the window, but not at its start. */
  predicate Misread(r: Rec, start: int) { start < r.at < start + SECOND }

  predicate Legible(db: seq<Rec>, hour: int) { forall r :: r in db ==> !Misread(r, DayStart(r.at, hour)) }

  /** The whole nano-dollars kept for the window, against its true sum. */
  predicate BooksOk(nanos: int, window: seq<Rec>, legible: bool) {
    && 0 <= nanos && nanos as real <= Sum(window) * NANO
    && (legible ==> Sum(window) * NANO - |window| as real <= nanos as real)
  }

  ghost predicate DailyOk(s: State) { CostsOk(s) ==> BooksOk(s.nanos, s.window, Legible(s.db, s.hour)) }

  /** Converting to dollars and back loses nothing but the fraction of a nano-dollar. */
  lemma AddedNanosIs(nanos: int, cost: real)
    requires 0 <= nanos && 0.0 <= cost
    ensures AddedNanos(nanos, cost) == nanos + (cost * NANO).Floor
  {
    assert (nanos as real / NANO + cost) * NANO == nanos as real + cost * NANO;
  }

  lemma AddKeepsBooks(nanos: int, window: seq<Rec>, r: Rec, legible: bool)
    requires BooksOk(nanos, window, legible) && 0.0 <= r.cost
    ensures BooksOk(AddedNanos(nanos, r.cost), window + [r], legible)
  {
    AddedNanosIs(nanos, r.cost);
    assert (window + [r])[..|window|] == window;
    assert Sum(window + [r]) == Sum(window) + r.cost;
  }

  /** What the last record adds to the true and to the rebuilt sum. */
  lemma LastAdds(db: seq<Rec>, start: int)
    requires db != []
    ensures var r, rest := db[|db| - 1], db[..|db| - 1];
            && Sum(Since(db, start)) == Sum(Since(rest, start)) + (if start <= r.at then r.cost else 0.0)
            && Sum(CountedSince(db, start)) == Sum(CountedSince(rest, start)) + (if Counted(r, start) then r.cost else 0.0)
  {
    var r, rest := db[|db| - 1], db[..|db| - 1];
    SumOfAppend(CountedSince(rest, start), r);
    SumOfAppend(Since(rest, start), r);
  }

  lemma CountedUpTo(db: seq<Rec>, i: nat, start: int)
    requires i < |db|
    ensures Sum(CountedSince(db[..i + 1], start))
            == Sum(CountedSince(db[..i], start)) + (if Counted(db[i], start) then db[i].cost else 0.0)
  {
    assert db[..i + 1][..i] == db[..i];
    LastAdds(db[..i + 1], start);
  }

  lemma {:induction false} CountedIsPart(db: seq<Rec>, start: int)
    requires NonNegative(db)
    ensures 0.0 <= Sum(CountedSince(db, start)) <= Sum(Since(db, start))
  {
    if db != [] {
      assert db[|db| - 1] in db;
      CountedIsPart(db[..|db| - 1], start);
      LastAdds(db, start);
    }
  }

  lemma {:induction false} CountedIsSince(db: seq<Rec>, start: int)
    requires forall r :: r in db ==> !Misread(r, start)
    ensures CountedSince(db, start) == Since(db, start)
  {
    if db != [] {
      assert db[|db| - 1] in db;
      CountedIsSince(db[..|db| - 1], start);
    }
  }

  lemma SumOfAppend(db: seq<Rec>, r: Rec)
    ensures Sum(db + [r]) == Sum(db) + r.cost
  {
    assert (db + [r])[..|db|] == db;
  }

  lemma LegibleIsCounted(db: seq<Rec>, hour: int, now: int)
    requires Legible(db, hour)
    ensures CountedSince(db, DayStart(now, hour)) == Since(db, DayStart(now, hour))
  {
    var start := DayStart(now, hour);
    forall r | r in db ensures !Misread(r, start) {
      if Misread(r, start) {
        DayStartIsTheReset(now, hour, start);
        DayStartIsTheReset(r.at, hour, start);
      }
    }
    CountedIsSince(db, start);
  }

  /** Opening a ledger starts its books right, unless a record is misread. */
  lemma ReopenedBooks(db: seq<Rec>, hour: int, now: int)
    requires NonNegative(db)
    ensures var s := Reopened(db, hour, now); BooksOk(s.nanos, s.window, Legible(db, hour))
  {
    var start := DayStart(now, hour);
    CountedIsPart(db, start);
    if Legible(db, hour) { LegibleIsCounted(db, hour, now); }
    if Since(db, start) == [] { assert Sum(CountedSince(db, start)) == 0.0; }
  }

  lemma StepKeepsDaily(s: State, step: Step)
    requires DailyOk(s) && Enabled(s, step)
    ensures DailyOk(Next(s, step))
  {
    var s' := Next(s, step);
    if CostsOk(s') {
      if step.Restart? {
        ReopenedBooks(s.db, s.hour, s.clock);
      } else {
        CostsWereOk(s, step);
        if step.AddDaily? {
          assert s.threads[step.t] in s.threads;
          AddKeepsBooks(s.nanos, s.window, s.threads[step.t].rec.value, Legible(s.db, s.hour));
        }
        assert Legible(s'.db, s'.hour) ==> Legible(s.db, s.hour);
      }
    }
  }

  lemma CostsWereOk(s: State, step: Step)
    requires Enabled(s, step) && !step.Restart? && CostsOk(Next(s, step))
    ensures CostsOk(s)
  {
    var s' := Next(s, step);
    assert s.db <= s'.db && |s.threads| <= |s'.threads|;
    forall th | th in s.threads && th.rec.Some? ensures 0.0 <= th.rec.value.cost {
      var x :| 0 <= x < |s.threads| && s.threads[x] == th;
      assert s'.threads[x] in s'.threads && s'.threads[x].rec == th.rec;
    }
  }

  lemma {:induction false} DailyAlways(states: seq<State>, steps: seq<Step>, hour: int, now: int, i: nat)
    requires Run(states, steps, hour, now) && i < |states|
    ensures DailyOk(states[i])
  {
    if i > 0 {
      DailyAlways(states, steps, hour, now, i - 1);
      StepKeepsDaily(states[i - 1], steps[i - 1]);
    }
  }

  /** After k additions the day's total is at most k nano-dollars below what was added, and never above it. */
  lemma AdditionsAreClose(states: seq<State>, steps: seq<Step>, hour: int, now: int, i: nat)
    requires Run(states, steps, hour, now) && i < |states|
    requires CostsOk(states[i])
    ensures var s := states[i];
            && s.nanos as real <= Sum(s.window) * NANO
            && (Legible(s.db, hour) ==> Sum(s.window) * NANO - |s.window| as real <= s.nanos as real)
  {
    DailyAlways(states, steps, hour, now, i);
    HourStays(states, steps, hour, now, i);
  }

  lemma {:induction false} HourStays(states: seq<State>, steps: seq<Step>, hour: int, now: int, i: nat)
    requires Run(states, steps, hour, now) && i < |states|
    ensures states[i].hour == hour
  {
    if i > 0 { HourStays(states, steps, hour, now, i - 1); }
  }

  predicate MisreadsAreFree(db: seq<Rec>, start: int) { forall r :: r in db && Misread(r, start) ==> r.cost == 0.0 }

  /** The total rebuilt for the day is the true one exactly when every record it misreads was free. */
  lemma RebuiltDayIsExactIff(db: seq<Rec>, start: int)
    requires NonNegative(db)
    ensures Sum(CountedSince(db, start)) == Sum(Since(db, start)) <==> MisreadsAreFree(db, start)
  {
    if MisreadsAreFree(db, start) {
      FreeMisreadsAreHarmless(db, start);
    } else {
      var r :| r in db && Misread(r, start) && r.cost != 0.0;
      CostlyMisreadsShow(db, start, r);
    }
  }

  lemma {:induction false} FreeMisreadsAreHarmless(db: seq<Rec>, start: int)
    requires MisreadsAreFree(db, start)
    ensures Sum(CountedSince(db, start)) == Sum(Since(db, start))
  {
    if db != [] {
      var r, rest := db[|db| - 1], db[..|db| - 1];
      assert r in db && MisreadsAreFree(rest, start);
      assert Misread(r, start) ==> r.cost == 0.0;
      FreeMisreadsAreHarmless(rest, start);
      LastAdds(db, start);
    }
  }

  lemma {:induction false} CostlyMisreadsShow(db: seq<Rec>, start: int, r: Rec)
    requires NonNegative(db) && r in db && Misread(r, start) && r.cost != 0.0
    ensures Sum(CountedSince(db, start)) < Sum(Since(db, start))
  {
    var last, rest := db[|db| - 1], db[..|db| - 1];
    assert last in db && forall x :: x in rest ==> x in db;
    LastAdds(db, start);
    if r in rest { CostlyMisreadsShow(rest, start, r); } else { CountedIsPart(rest, start); }
  }

  // ---- The window moves with the clock ----

  /** A call past its rotation has seen the window of its own clock reading, or a later one. */
  predicate ThreadDayOk(th: Thread, dailyStart: int, hour: int, clock: int) {
    match th.pc
    case Starting => true
    case Rotating(start) => th.began <= clock && start == DayStart(th.began, hour)
    case _ => th.began <= clock && DayStart(th.began, hour) <= dailyStart
  }

  ghost predicate DayOk(s: State) {
    && IsReset(s.dailyStart, s.hour) && s.dailyStart <= s.clock
    && forall t :: 0 <= t < |s.threads| ==> ThreadDayOk(s.threads[t], s.dailyStart, s.hour, s.clock)
  }

  lemma StepKeepsDay(s: State, step: Step)
    requires DayOk(s) && Enabled(s, step)
    ensures DayOk(Next(s, step))
    ensures s.dailyStart <= Next(s, step).dailyStart
  {
    match step
    case ReadClock(t) => DayStartIsTheReset(s.clock, s.hour, DayStart(s.clock, s.hour));
    case Rotate(t) =>
      var began := s.threads[t].began;
      assert ThreadDayOk(s.threads[t], s.dailyStart, s.hour, s.clock);
      DayStartIsTheReset(began, s.hour, DayStart(began, s.hour));
    case Restart =>
      DayStartIsTheReset(s.clock, s.hour, DayStart(s.clock, s.hour));
      DayStartIsTheReset(s.dailyStart, s.hour, s.dailyStart);
      DayStartIsMonotone(s.dailyStart, s.clock, s.hour);
    case Insert(t, _) => assert ThreadDayOk(s.threads[t], s.dailyStart, s.hour, s.clock);
    case LoadOrStore(t) => assert ThreadDayOk(s.threads[t], s.dailyStart, s.hour, s.clock);
    case Swap(t) => assert ThreadDayOk(s.threads[t], s.dailyStart, s.hour, s.clock);
    case AddDaily(t) => assert ThreadDayOk(s.threads[t], s.dailyStart, s.hour, s.clock);
    case _ =>
  }

  lemma {:induction false} DayAlways(states: seq<State>, steps: seq<Step>, hour: int, now: int, i: nat)
    requires Run(states, steps, hour, now) && i < |states|
    ensures DayOk(states[i]) && states[i].hour == hour
  {
    if i > 0 {
      DayAlways(states, steps, hour, now, i - 1);
      StepKeepsDay(states[i - 1], steps[i - 1]);
    } else {
      DayStartIsTheReset(now, hour, DayStart(now, hour));
    }
  }

  lemma {:induction false} DayAdvances(states: seq<State>, steps: seq<Step>, hour: int, now: int, i: nat, j: nat)
    requires Run(states, steps, hour, now) && i <= j < |states|
    ensures states[i].dailyStart <= states[j].dailyStart
  {
    if i < j {
      DayAdvances(states, steps, hour, now, i, j - 1);
      DayAlways(states, steps, hour, now, j - 1);
      StepKeepsDay(states[j - 1], steps[j - 1]);
    }
  }

  /**
    The window never moves back and is always a reset in the past, and a call
    that inserts or reads the total works in the window of its own clock reading or later.
   */
  lemma WindowFollowsTheClock(states: seq<State>, steps: seq<Step>, hour: int, now: int, i: nat, j: nat, t: nat)
    requires Run(states, steps, hour, now) && i <= j < |states|
    requires t < |states[j].threads| && !states[j].threads[t].pc.Starting? && !states[j].threads[t].pc.Rotating?
    ensures states[i].dailyStart <= states[j].dailyStart <= states[j].clock && IsReset(states[j].dailyStart, hour)
    ensures DayStart(states[j].threads[t].began, hour) <= states[j].dailyStart
  {
    DayAdvances(states, steps, hour, now, i, j);
    DayAlways(states, steps, hour, now, j);
    assert ThreadDayOk(states[j].threads[t], states[j].dailyStart, hour, states[j].clock);
  }

  // ---- The daily total against the database ----

  /** Each record carries the time at which its recording began. */
  ghost predicate Timed(s: State, step: Step) {
    step.ReadClock? && step.t < |s.threads| && s.threads[step.t].rec.Some? ==> s.threads[step.t].rec.value.at == s.clock
  }

  ghost predicate TimedRun(states: seq<State>, steps: seq<Step>, hour: int, now: int) {
    Run(states, steps, hour, now) && forall i :: 0 <= i < |steps| ==> Timed(states[i], steps[i])
  }

  /** What one call has inserted for the current day and not yet added to its total. */
  function DayOwed(th: Thread, start: int): real {
    if th.OwesDaily() && start <= th.rec.value.at then th.rec.value.cost else 0.0
  }

  function DayPending(threads: seq<Thread>, start: int): real {
    if threads == [] then 0.0 else DayPending(threads[..|threads| - 1], start) + DayOwed(threads[|threads| - 1], start)
  }

  /** The records of an earlier day that went into the total after it was reset. */
  function Late(window: seq<Rec>, start: int): seq<Rec> {
    if window == [] then []
    else
      var r, rest := window[|window| - 1], Late(window[..|window| - 1], start);
      if r.at < start then rest + [r] else rest
  }

  /** What the database has for the current day. */
  function Spend(s: State): real { Sum(Since(s.db, s.dailyStart)) }

  lemma {:induction false} DayPendingAfterMove(threads: seq<Thread>, t: nat, th: Thread, start: int)
    requires t < |threads|
    ensures DayPending(threads[t := th], start) == DayPending(threads, start) - DayOwed(threads[t], start) + DayOwed(th, start)
  {
    var n := |threads| - 1;
    if t < n {
      assert threads[t := th][..n] == threads[..n][t := th];
      DayPendingAfterMove(threads[..n], t, th, start);
    } else {
      assert threads[t := th][..n] == threads[..n];
    }
  }

  lemma DayPendingAfterBegin(threads: seq<Thread>, th: Thread, start: int)
    ensures DayPending(threads + [th], start) == DayPending(threads, start) + DayOwed(th, start)
  {
    assert (threads + [th])[..|threads|] == threads;
  }

  lemma {:induction false} NoneOwed(threads: seq<Thread>, start: int)
    requires forall t :: 0 <= t < |threads| ==> DayOwed(threads[t], start) == 0.0
    ensures DayPending(threads, start) == 0.0
  {
    if threads != [] { NoneOwed(threads[..|threads| - 1], start); }
  }

  lemma {:induction false} WindowSplits(window: seq<Rec>, start: int)
    ensures Sum(window) == Sum(Since(window, start)) + Sum(Late(window, start))
  {
    if window != [] {
      var r, rest := window[|window| - 1], window[..|window| - 1];
      WindowSplits(rest, start);
      SumOfAppend(Since(rest, start), r);
      SumOfAppend(Late(rest, start), r);
    }
  }

  lemma SinceOfAppend(db: seq<Rec>, r: Rec, start: int)
    ensures Since(db + [r], start) == if start <= r.at then Since(db, start) + [r] else Since(db, start)
    ensures Late(db + [r], start) == if r.at < start then Late(db, start) + [r] else Late(db, start)
  {
    assert (db + [r])[..|db|] == db;
  }

  lemma SpendOfAppend(db: seq<Rec>, r: Rec, start: int)
    ensures Sum(Since(db + [r], start)) == Sum(Since(db, start)) + (if start <= r.at then r.cost else 0.0)
  {
    SinceOfAppend(db, r, start);
    SumOfAppend(Since(db, start), r);
  }

  lemma {:induction false} SinceIsIdempotent(db: seq<Rec>, start: int)
    ensures Since(Since(db, start), start) == Since(db, start)
    ensures Late(Since(db, start), start) == []
  {
    if db != [] {
      SinceIsIdempotent(db[..|db| - 1], start);
      SinceOfAppend(Since(db[..|db| - 1], start), db[|db| - 1], start);
    }
  }

  lemma {:induction false} NothingSince(db: seq<Rec>, start: int)
    requires forall r :: r in db ==> r.at < start
    ensures Since(db, start) == []
  {
    if db != [] {
      assert db[|db| - 1] in db;
      NothingSince(db[..|db| - 1], start);
    }
  }

  /** What lies in an earlier window lies before the start of a later one. */
  lemma EarlierDay(at: int, start: int, hour: int)
    requires IsReset(start, hour) && DayStart(at, hour) < start
    ensures at < start
  {
    DayStartIsTheReset(at, hour, DayStart(at, hour));
    if start <= at { ResetsAreFarApart(DayStart(at, hour), start, hour); }
  }

  predicate TimeKept(th: Thread) { th.rec.Some? && !th.pc.Starting? ==> th.rec.value.at == th.began }

  /** Nothing in the database lies in a later day than the current one. */
  ghost predicate PastOk(s: State) {
    && DayOk(s)
    && (forall t :: 0 <= t < |s.threads| ==> TimeKept(s.threads[t]))
    && (forall r :: r in s.db ==> DayStart(r.at, s.hour) <= s.dailyStart)
  }

  /** The day's records in the total, and those still to be added, are the day's records in the database. */
  ghost predicate SpendOk(s: State) {
    Sum(Since(s.window, s.dailyStart)) + DayPending(s.threads, s.dailyStart) == Spend(s)
  }

  lemma StepKeepsPast(s: State, step: Step)
    requires PastOk(s) && Enabled(s, step) && Timed(s, step)
    ensures PastOk(Next(s, step))
  {
    StepKeepsDay(s, step);
    if step.Insert? {
      assert ThreadDayOk(s.threads[step.t], s.dailyStart, s.hour, s.clock) && TimeKept(s.threads[step.t]);
    }
  }

  lemma NewDayIsEmpty(s: State, start: int)
    requires PastOk(s) && IsReset(start, s.hour) && s.dailyStart < start
    ensures Since(s.db, start) == [] && DayPending(s.threads, start) == 0.0
  {
    forall r | r in s.db ensures r.at < start { EarlierDay(r.at, start, s.hour); }
    NothingSince(s.db, start);
    forall t | 0 <= t < |s.threads| ensures DayOwed(s.threads[t], start) == 0.0 {
      assert ThreadDayOk(s.threads[t], s.dailyStart, s.hour, s.clock) && TimeKept(s.threads[t]);
      if s.threads[t].OwesDaily() { EarlierDay(s.threads[t].rec.value.at, start, s.hour); }
    }
    NoneOwed(s.threads, start);
  }

  lemma MoveKeepsSpend(s: State, t: nat, th: Thread, s': State)
    requires SpendOk(s) && t < |s.threads| && s'.threads == s.threads[t := th]
    requires s'.dailyStart == s.dailyStart && s'.db == s.db && s'.window == s.window
    requires DayOwed(th, s.dailyStart) == DayOwed(s.threads[t], s.dailyStart)
    ensures SpendOk(s')
  {
    DayPendingAfterMove(s.threads, t, th, s.dailyStart);
  }

  lemma PendingMoves(threads: seq<Thread>, t: nat, th: Thread, start: int, threads': seq<Thread>)
    requires t < |threads| && threads' == threads[t := th]
    ensures DayPending(threads', start) == DayPending(threads, start) - DayOwed(threads[t], start) + DayOwed(th, start)
  {
    DayPendingAfterMove(threads, t, th, start);
  }

  lemma SpendGrows(db: seq<Rec>, r: Rec, start: int, db': seq<Rec>)
    requires db' == db + [r]
    ensures Sum(Since(db', start)) == Sum(Since(db, start)) + (if start <= r.at then r.cost else 0.0)
  {
    SpendOfAppend(db, r, start);
  }

  lemma InsertKeepsSpend(s: State, t: nat, r: Rec, s': State)
    requires SpendOk(s) && t < |s.threads| && s.threads[t].rec == Some(r) && s.threads[t].pc.Past?
    requires s'.threads == Moved(s, t, Adding) && s'.db == s.db + [r]
    requires s'.dailyStart == s.dailyStart && s'.window == s.window
    ensures SpendOk(s')
  {
    var start := s.dailyStart;
    PendingMoves(s.threads, t, s.threads[t].(pc := Adding), start, s'.threads);
    SpendGrows(s.db, r, start, s'.db);
  }

  lemma AddDailyKeepsSpend(s: State, t: nat, r: Rec, s': State)
    requires SpendOk(s) && t < |s.threads| && s.threads[t].rec == Some(r) && s.threads[t].pc.AddingDaily?
    requires s'.threads == Moved(s, t, Returned) && s'.window == s.window + [r]
    requires s'.dailyStart == s.dailyStart && s'.db == s.db
    ensures SpendOk(s')
  {
    var start := s.dailyStart;
    PendingMoves(s.threads, t, s.threads[t].(pc := Returned), start, s'.threads);
    SpendGrows(s.window, r, start, s'.window);
  }

  lemma RotateKeepsSpend(s: State, t: nat)
    requires SpendOk(s) && PastOk(s) && Enabled(s, Rotate(t))
    ensures SpendOk(Next(s, Rotate(t)))
  {
    var start, s' := s.threads[t].pc.start, Next(s, Rotate(t));
    if s.dailyStart < start {
      assert ThreadDayOk(s.threads[t], s.dailyStart, s.hour, s.clock);
      DayStartIsTheReset(s.threads[t].began, s.hour, start);
      NewDayIsEmpty(s, start);
      DayPendingAfterMove(s.threads, t, s.threads[t].(pc := Past), start);
    } else {
      MoveKeepsSpend(s, t, s.threads[t].(pc := Past), s');
    }
  }

  /** The steps of a call that leave the day and its total alone. */
  lemma CallKeepsSpend(s: State, step: Step, t: nat, s': State)
    requires SpendOk(s) && Enabled(s, step) && s' == Next(s, step)
    requires (step.ReadClock? || step.Insert? || step.LoadOrStore? || step.Swap?) && step.t == t
    ensures SpendOk(s')
  {
    if step.Insert? && s'.threads[t].OwesDaily() {
      InsertKeepsSpend(s, t, s.threads[t].rec.value, s');
    } else {
      MoveKeepsSpend(s, t, s'.threads[t], s');
    }
  }

  lemma StepKeepsSpend(s: State, step: Step)
    requires SpendOk(s) && PastOk(s) && Enabled(s, step)
    ensures SpendOk(Next(s, step))
  {
    var s' := Next(s, step);
    match step
    case Tick(_) =>
    case Begin(rec) => DayPendingAfterBegin(s.threads, Thread(rec, 0, Starting), s.dailyStart);
    case ReadClock(t) => CallKeepsSpend(s, step, t, s');
    case Rotate(t) => RotateKeepsSpend(s, t);
    case Insert(t, _) => CallKeepsSpend(s, step, t, s');
    case LoadOrStore(t) => CallKeepsSpend(s, step, t, s');
    case Swap(t) => CallKeepsSpend(s, step, t, s');
    case AddDaily(t) => AddDailyKeepsSpend(s, t, s.threads[t].rec.value, s');
    case Restart => SinceIsIdempotent(s.db, s'.dailyStart);
  }

  lemma {:induction false} SpendAlways(states: seq<State>, steps: seq<Step>, hour: int, now: int, i: nat)
    requires TimedRun(states, steps, hour, now) && i < |states|
    ensures PastOk(states[i]) && SpendOk(states[i])
  {
    DayAlways(states, steps, hour, now, i);
    if i > 0 {
      SpendAlways(states, steps, hour, now, i - 1);
      StepKeepsPast(states[i - 1], steps[i - 1]);
      StepKeepsSpend(states[i - 1], steps[i - 1]);
    }
  }

  /**
    For any interleaving of records that carry their recording times: the day's
    total is the day's spend in the database, less what calls have inserted and
    not yet added, plus what was added too late for the day before, less at most
    one nano-dollar for each of its k records.
   */
  lemma DailyTotalIsClose(states: seq<State>, steps: seq<Step>, hour: int, now: int, i: nat)
    requires TimedRun(states, steps, hour, now) && i < |states| && CostsOk(states[i])
    ensures var s := states[i];
            var added := Spend(s) - DayPending(s.threads, s.dailyStart) + Sum(Late(s.window, s.dailyStart));
            && s.nanos as real <= added * NANO
            && (Legible(s.db, hour) ==> added * NANO - |s.window| as real <= s.nanos as real)
  {
    SpendAlways(states, steps, hour, now, i);
    AdditionsAreClose(states, steps, hour, now, i);
    WindowSplits(states[i].window, states[i].dailyStart);
  }

  /** Since the total was last reset or rebuilt, some call added a record of an earlier day to it. */
  ghost predicate AddedLate(states: seq<State>, steps: seq<Step>, i: nat)
    requires i < |states| && i <= |steps|
  {
    i > 0
    && states[i].dailyStart == states[i - 1].dailyStart && !steps[i - 1].Restart?
    && (AddedLate(states, steps, i - 1) || LateStep(states[i - 1], steps[i - 1]))
  }

  /** The window moved on between a call's own rotation and its addition. */
  predicate LateStep(s: State, step: Step) {
    step.AddDaily? && step.t < |s.threads| && s.threads[step.t].began < s.dailyStart
  }

  /** The excess is there exactly when some addition since the last reset came too late. */
  lemma {:induction false} ExcessIffAddedLate(states: seq<State>, steps: seq<Step>, hour: int, now: int, i: nat)
    requires TimedRun(states, steps, hour, now) && i < |states|
    ensures Late(states[i].window, states[i].dailyStart) != [] <==> AddedLate(states, steps, i)
  {
    if i > 0 {
      ExcessIffAddedLate(states, steps, hour, now, i - 1);
      SpendAlways(states, steps, hour, now, i - 1);
      LateAfterStep(states[i - 1], steps[i - 1]);
      assert states[i] == Next(states[i - 1], steps[i - 1]);
    }
  }

  lemma LateAfterStep(s: State, step: Step)
    requires PastOk(s) && Enabled(s, step)
    ensures var s' := Next(s, step);
            Late(s'.window, s'.dailyStart) != []
            <==> s'.dailyStart == s.dailyStart && !step.Restart? && (Late(s.window, s.dailyStart) != [] || LateStep(s, step))
  {
    match step
    case AddDaily(t) =>
      assert TimeKept(s.threads[t]);
      SinceOfAppend(s.window, s.threads[t].rec.value, s.dailyStart);
    case Restart => SinceIsIdempotent(s.db, Next(s, step).dailyStart);
    case _ =>
  }

  lemma {:induction false} DayPendingIsNonNegative(threads: seq<Thread>, start: int)
    requires forall th :: th in threads && th.rec.Some? ==> 0.0 <= th.rec.value.cost
    ensures 0.0 <= DayPending(threads, start)
  {
    if threads != [] {
      var rest := threads[..|threads| - 1];
      assert threads[|threads| - 1] in threads && forall th :: th in rest ==> th in threads;
      DayPendingIsNonNegative(rest, start);
    }
  }

  /** What was added late was recorded, and so cost no less than nothing. */
  lemma LateIsNonNegative(states: seq<State>, steps: seq<Step>, hour: int, now: int, i: nat)
    requires TimedRun(states, steps, hour, now) && i < |states| && CostsOk(states[i])
    ensures 0.0 <= Sum(Late(states[i].window, states[i].dailyStart))
  {
    WindowAlways(states, steps, hour, now, i);
    LateSumIsNonNegative(states[i].window, states[i].dailyStart);
  }

  lemma {:induction false} LateSumIsNonNegative(window: seq<Rec>, start: int)
    requires NonNegative(window)
    ensures 0.0 <= Sum(Late(window, start))
  {
    if window != [] {
      var r, rest := window[|window| - 1], window[..|window| - 1];
      assert r in window && forall x :: x in rest ==> x in window;
      LateSumIsNonNegative(rest, start);
      SumOfAppend(Late(rest, start), r);
    }
  }

  /** Whatever is in the window, or is to go there, is in the database. */
  ghost predicate WindowStored(s: State) {
    && (forall r :: r in s.window ==> r in s.db)
    && (forall t :: 0 <= t < |s.threads| && s.threads[t].OwesDaily() ==> s.threads[t].rec.value in s.db)
  }

  lemma {:induction false} SinceIsPart(db: seq<Rec>, start: int)
    ensures forall r :: r in Since(db, start) ==> r in db
  {
    if db != [] {
      SinceIsPart(db[..|db| - 1], start);
      assert forall r :: r in db[..|db| - 1] ==> r in db;
    }
  }

  lemma StepKeepsWindow(s: State, step: Step)
    requires WindowStored(s) && Enabled(s, step)
    ensures WindowStored(Next(s, step))
  {
    if step.Restart? { SinceIsPart(s.db, Next(s, step).dailyStart); }
  }

  lemma {:induction false} WindowAlways(states: seq<State>, steps: seq<Step>, hour: int, now: int, i: nat)
    requires Run(states, steps, hour, now) && i < |states|
    ensures WindowStored(states[i])
  {
    if i > 0 {
      WindowAlways(states, steps, hour, now, i - 1);
      StepKeepsWindow(states[i - 1], steps[i - 1]);
    }
  }

  // ---- Runs in which the total is not the spend ----

  lemma Extend(states: seq<State>, steps: seq<Step>, hour: int, now: int, s: State, step: Step)
    returns (states': seq<State>, steps': seq<Step>, s': State)
    requires TimedRun(states, steps, hour, now) && s == states[|steps|] && Enabled(s, step) && Timed(s, step)
    ensures TimedRun(states', steps', hour, now) && s' == states'[|steps'|] == Next(s, step)
  {
    s' := Next(s, step);
    states', steps' := states + [s'], steps + [step];
    forall i | 0 <= i < |steps'|
      ensures Enabled(states'[i], steps'[i]) && states'[i + 1] == Next(states'[i], steps'[i]) && Timed(states'[i], steps'[i])
    {
      if i < |steps| { assert states'[i] == states[i] && states'[i + 1] == states[i + 1] && steps'[i] == steps[i]; }
    }
  }

  /** A call inserts its record at a given time, and has yet to add it. */
  lemma Inserted(rec: Rec) returns (states: seq<State>, steps: seq<Step>, s: State)
    requires 0 <= rec.at < DAY
    ensures TimedRun(states, steps, 0, 0) && s == states[|steps|]
    ensures s == State([rec], map[], 0, 0, 0, rec.at, [Thread(Some(rec), rec.at, Adding)], [])
  {
    s := Reopened([], 0, 0);
    states, steps := [s], [];
    states, steps, s := Extend(states, steps, 0, 0, s, Tick(rec.at));
    states, steps, s := Extend(states, steps, 0, 0, s, Begin(Some(rec)));
    states, steps, s := Extend(states, steps, 0, 0, s, ReadClock(0));
    states, steps, s := Extend(states, steps, 0, 0, s, Insert(0, true));
  }

  /** The same call, with only the daily total still to come. */
  lemma Loaded(rec: Rec) returns (states: seq<State>, steps: seq<Step>, s: State)
    requires 0 <= rec.at < DAY
    ensures TimedRun(states, steps, 0, 0) && s == states[|steps|]
    ensures s == State([rec], map[rec.task := rec.cost], 0, 0, 0, rec.at, [Thread(Some(rec), rec.at, AddingDaily)], [])
  {
    states, steps, s := Inserted(rec);
    states, steps, s := Extend(states, steps, 0, 0, s, LoadOrStore(0));
  }

  lemma OneRecord(rec: Rec, start: int)
    ensures Sum([rec]) == rec.cost && Sum([]) == 0.0
    ensures Since([rec], start) == (if start <= rec.at then [rec] else [])
    ensures CountedSince([rec], start) == (if Counted(rec, start) then [rec] else [])
  {
    assert [rec][..0] == [];
    assert Since([], start) == [] && CountedSince([], start) == [];
  }

  /** A hundred dollars inserted and not yet added: the total does not know of them. */
  lemma PendingWitness() returns (states: seq<State>, steps: seq<Step>, s: State)
    ensures TimedRun(states, steps, 0, 0) && s == states[|steps|] && CostsOk(s) && Legible(s.db, 0)
    ensures Spend(s) == 100.0 && s.nanos == 0
  {
    var rec := Rec("r", "t", 100.0, SECOND);
    states, steps, s := Inserted(rec);
    OneRecord(rec, 0);
  }

  /** A hundred dollars inserted before the reset and added after it: they count for the new day. */
  lemma LateWitness() returns (states: seq<State>, steps: seq<Step>, s: State)
    ensures TimedRun(states, steps, 0, 0) && s == states[|steps|] && CostsOk(s) && Legible(s.db, 0)
    ensures Spend(s) == 0.0 && s.nanos == 100 * SECOND && forall th :: th in s.threads ==> !th.OwesDaily()
  {
    var rec := Rec("r", "t", 100.0, DAY - 1);
    states, steps, s := Loaded(rec);
    states, steps, s := Extend(states, steps, 0, 0, s, Tick(1));
    states, steps, s := Extend(states, steps, 0, 0, s, Begin(None));
    states, steps, s := Extend(states, steps, 0, 0, s, ReadClock(1));
    assert DayStart(DAY, 0) == DAY;
    states, steps, s := Extend(states, steps, 0, 0, s, Rotate(1));
    assert s.threads == [Thread(Some(rec), DAY - 1, AddingDaily), Thread(None, DAY, Past)];
    states, steps, s := Extend(states, steps, 0, 0, s, AddDaily(0));
    assert s.threads == [Thread(Some(rec), DAY - 1, Returned), Thread(None, DAY, Past)];
    AddedNanosIs(0, 100.0);
    OneRecord(rec, DAY);
  }

  /** A dollar recorded half a second into the day: in the total, and gone from it after a restart. */
  lemma MisreadWitness() returns (states: seq<State>, steps: seq<Step>, s: State)
    ensures TimedRun(states, steps, 0, 0) && s == states[|steps|] && CostsOk(s)
    ensures s.nanos == SECOND && Spend(s) == 1.0 && Next(s, Restart).nanos == 0 && Spend(Next(s, Restart)) == 1.0
  {
    var rec := Rec("r", "t", 1.0, SECOND / 2);
    states, steps, s := Loaded(rec);
    states, steps, s := Extend(states, steps, 0, 0, s, AddDaily(0));
    AddedNanosIs(0, 1.0);
    assert DayStart(SECOND / 2, 0) == 0;
    OneRecord(rec, 0);
  }

  // ---- The day after a restart, for one call at a time ----

  /** Calls come one at a time, and each record carries the time at which it is recorded. */
  ghost predicate Solo(s: State, step: Step) {
    && (step.Begin? ==> forall th :: th in s.threads ==> th.pc.Returned?)
    && (step.ReadClock? && step.t < |s.threads| && s.threads[step.t].rec.Some? ==> s.threads[step.t].rec.value.at == s.clock)
  }

  ghost predicate SoloRun(states: seq<State>, steps: seq<Step>, hour: int, now: int) {
    Run(states, steps, hour, now) && forall i :: 0 <= i < |steps| ==> Solo(states[i], steps[i])
  }

  /** The record inserted but not yet in the daily total. */
  function InDoubt(threads: seq<Thread>): seq<Rec> {
    if threads != [] && threads[|threads| - 1].OwesDaily() then [threads[|threads| - 1].rec.value] else []
  }

  predicate LastOk(th: Thread, dailyStart: int, hour: int) {
    match th.pc
    case Starting => true
    case Returned => true
    case Rotating(start) => dailyStart <= start && (th.rec.Some? ==> th.rec.value.at == th.began)
    case _ => dailyStart == DayStart(th.began, hour) && (th.rec.Some? ==> th.rec.value.at == th.began)
  }

  /** The window is the part of the database that is in it, up to the record in doubt. */
  ghost predicate SoloOk(s: State) {
    && DayOk(s)
    && (forall t :: 0 <= t < |s.threads| - 1 ==> s.threads[t].pc.Returned?)
    && (s.threads != [] ==> LastOk(s.threads[|s.threads| - 1], s.dailyStart, s.hour))
    && (forall r :: r in s.db ==> DayStart(r.at, s.hour) <= s.dailyStart)
    && Since(s.db, s.dailyStart) == s.window + InDoubt(s.threads)
  }

  lemma RotateKeepsSolo(s: State, t: nat)
    requires SoloOk(s) && Enabled(s, Rotate(t))
    ensures SoloOk(Next(s, Rotate(t)))
  {
    var start, s' := s.threads[t].pc.start, Next(s, Rotate(t));
    StepKeepsDay(s, Rotate(t));
    assert t == |s.threads| - 1 && ThreadDayOk(s.threads[t], s.dailyStart, s.hour, s.clock);
    if s.dailyStart < start {
      forall r | r in s.db ensures r.at < start { EarlierDay(r.at, start, s.hour); }
      NothingSince(s.db, start);
    }
  }

  lemma InsertKeepsSolo(s: State, t: nat, works: bool)
    requires SoloOk(s) && Enabled(s, Insert(t, works))
    ensures SoloOk(Next(s, Insert(t, works)))
  {
    var s' := Next(s, Insert(t, works));
    StepKeepsDay(s, Insert(t, works));
    assert t == |s.threads| - 1;
    if s'.db != s.db {
      var r := s.threads[t].rec.value;
      assert s'.db[..|s.db|] == s.db;
      DayStartIsTheReset(r.at, s.hour, DayStart(r.at, s.hour));
    }
  }

  lemma ReadClockKeepsSolo(s: State, t: nat)
    requires SoloOk(s) && Enabled(s, ReadClock(t)) && Solo(s, ReadClock(t)) && DayOk(Next(s, ReadClock(t)))
    ensures SoloOk(Next(s, ReadClock(t)))
  {
    DayStartIsTheReset(s.dailyStart, s.hour, s.dailyStart);
    DayStartIsMonotone(s.dailyStart, s.clock, s.hour);
    assert t == |s.threads| - 1;
  }

  lemma RestartKeepsSolo(s: State)
    requires SoloOk(s) && DayOk(Next(s, Restart))
    ensures SoloOk(Next(s, Restart))
  {
    DayStartIsTheReset(s.dailyStart, s.hour, s.dailyStart);
    DayStartIsMonotone(s.dailyStart, s.clock, s.hour);
  }

  lemma AdditionKeepsSolo(s: State, step: Step, t: nat)
    requires SoloOk(s) && Enabled(s, step) && Solo(s, step) && DayOk(Next(s, step))
    requires (step.LoadOrStore? || step.Swap? || step.AddDaily?) && step.t == t
    ensures SoloOk(Next(s, step))
  {
    assert t == |s.threads| - 1;
  }

  lemma StepKeepsSolo(s: State, step: Step)
    requires SoloOk(s) && Enabled(s, step) && Solo(s, step)
    ensures SoloOk(Next(s, step))
  {
    StepKeepsDay(s, step);
    match step
    case Rotate(t) => RotateKeepsSolo(s, t);
    case Insert(t, works) => InsertKeepsSolo(s, t, works);
    case ReadClock(t) => ReadClockKeepsSolo(s, t);
    case Restart => RestartKeepsSolo(s);
    case LoadOrStore(t) => AdditionKeepsSolo(s, step, t);
    case Swap(t) => AdditionKeepsSolo(s, step, t);
    case AddDaily(t) => AdditionKeepsSolo(s, step, t);
    case Begin(_) =>
    case Tick(_) =>
  }

  lemma {:induction false} SoloAlways(states: seq<State>, steps: seq<Step>, hour: int, now: int, i: nat)
    requires SoloRun(states, steps, hour, now) && i < |states|
    ensures SoloOk(states[i])
  {
    DayAlways(states, steps, hour, now, i);
    if i > 0 {
      SoloAlways(states, steps, hour, now, i - 1);
      StepKeepsSolo(states[i - 1], steps[i - 1]);
    }
  }

  /** With calls one at a time, the window between them is exactly the day's records in the database. */
  lemma WindowIsTheDay(states: seq<State>, steps: seq<Step>, hour: int, now: int, i: nat)
    requires SoloRun(states, steps, hour, now) && i < |states|
    requires forall th :: th in states[i].threads ==> th.pc.Returned?
    ensures states[i].window == Since(states[i].db, states[i].dailyStart)
  {
    SoloAlways(states, steps, hour, now, i);
    assert states[i].threads != [] ==> states[i].threads[|states[i].threads| - 1] in states[i].threads;
  }

  /**
    With calls one at a time, restarting within the day keeps the daily total up
    to the nano-dollars it had dropped: it comes back at most k higher after k records.
   */
  lemma RestartKeepsTheDay(states: seq<State>, steps: seq<Step>, hour: int, now: int, i: nat)
    requires SoloRun(states, steps, hour, now) && i < |states|
    requires CostsOk(states[i]) && Legible(states[i].db, hour)
    requires forall th :: th in states[i].threads ==> th.pc.Returned?
    requires DayStart(states[i].clock, hour) == states[i].dailyStart
    ensures var s, s' := states[i], Next(states[i], Restart);
            s'.window == s.window && s.nanos <= s'.nanos <= s.nanos + |s.window|
  {
    var s, s' := states[i], Next(states[i], Restart);
    WindowIsTheDay(states, steps, hour, now, i);
    DailyAlways(states, steps, hour, now, i);
    HourStays(states, steps, hour, now, i);
    LegibleIsCounted(s.db, hour, s.clock);
    FloorIsBetween(Sum(s.window) * NANO, s.nanos, |s.window|);
  }

  lemma FloorIsBetween(x: real, n: int, k: nat)
    requires 0 <= n && n as real <= x && x - k as real <= n as real
    ensures n <= Trunc(x) <= n + k
  {
  }

  // ---- The text the daily query compares ----

  /**
    A record's stored text sorts at or after that of the window's start exactly
    when the record is Counted, in the years that RFC 3339 can print.
   */
  lemma TextOrderIsCounted(r: Rec, start: int)
    requires start % SECOND == 0 && Printable(r.at / SECOND) && Printable(start / SECOND)
    ensures !Before(NanoText(r.at), SecondText(start)) <==> Counted(r, start)
  {
    FormatsSort(r.at, start);
  }

  // ---- The ledger itself ----

  class SQLiteLedger {
    var db: seq<Rec>
    var taskTotals: map<string, real>
    var dailyTotal: int
    var dailyStart: int
    const resetHour: int

    /** The state of the machine above with no call in progress. */
    ghost function Abstract(clock: int, window: seq<Rec>): State
      reads this
    {
      State(db, taskTotals, dailyTotal, dailyStart, resetHour, clock, [], window)
    }

    constructor (db: seq<Rec>, hour: int, now: int)
      ensures Abstract(now, Since(db, dailyStart)) == Reopened(db, ResetHour(hour), now)
      ensures resetHour == ResetHour(hour)
    {
      this.db, this.taskTotals, this.dailyTotal := db, map[], 0;
      this.resetHour := if hour < 0 || hour > 23 then 0 else hour;
      this.dailyStart := DayStart(now, if hour < 0 || hour > 23 then 0 else hour);
      new;
      RebuildAccumulators();
    }

    /** The rows of the query that sums by task. */
    method QueryTaskTotals() returns (totals: map<string, real>)
      ensures totals == Rebuilt(db)
    {
      totals := map[];
      for i := 0 to |db|
        invariant totals == Rebuilt(db[..i])
      {
        var r := db[i];
        assert db[..i + 1][..i] == db[..i];
        totals := totals[r.task := (if r.task in totals then totals[r.task] else 0.0) + r.cost];
      }
      assert db[..|db|] == db;
    }

    /** The query that sums what the text comparison counts. */
    method QueryDailyTotal() returns (total: real)
      ensures total == Sum(CountedSince(db, dailyStart))
    {
      var rows, start := db, dailyStart;
      total := 0.0;
      for i := 0 to |rows|
        invariant total == Sum(CountedSince(rows[..i], start))
      {
        CountedUpTo(rows, i, start);
        if rows[i].at == start || start + SECOND <= rows[i].at { total := total + rows[i].cost; }
      }
      assert rows[..|rows|] == rows;
    }

    method RebuildAccumulators()
      modifies this`taskTotals, this`dailyTotal
      ensures taskTotals == Rebuilt(db) && dailyTotal == Trunc(Sum(CountedSince(db, dailyStart)) * NANO)
    {
      taskTotals := QueryTaskTotals();
      var total := QueryDailyTotal();
      StoreDailyTotal(total);
    }

    method StoreDailyTotal(total: real)
      modifies this`dailyTotal
      ensures dailyTotal == Trunc(total * NANO)
      ensures 0.0 <= total ==> dailyTotal as real <= total * NANO < dailyTotal as real + 1.0
    {
      dailyTotal := Trunc(total * NANO);
    }

    function LoadDailyTotal(): (total: real)
      reads this
      ensures total * NANO == dailyTotal as real
    {
      dailyTotal as real / NANO
    }

    method AddToDailyTotal(cost: real)
      modifies this`dailyTotal
      ensures dailyTotal == AddedNanos(old(dailyTotal), cost)
      ensures 0 <= old(dailyTotal) && 0.0 <= cost ==> dailyTotal == old(dailyTotal) + (cost * NANO).Floor
    {
      if 0 <= dailyTotal && 0.0 <= cost { AddedNanosIs(dailyTotal, cost); }
      var current := dailyTotal as real / NANO;
      dailyTotal := Trunc((current + cost) * NANO);
    }

    /** The retry loop of a single writer: at most one load and one swap. */
    method AddToTaskTotal(task: string, cost: real)
      modifies this`taskTotals
      ensures taskTotals == old(taskTotals)[task := Cached(old(taskTotals), task) + cost]
    {
      var done := false;
      while !done
        invariant taskTotals == if done then old(taskTotals)[task := Cached(old(taskTotals), task) + cost] else old(taskTotals)
        decreases !done
      {
        if task !in taskTotals {
          taskTotals := taskTotals[task := cost];
          done := true;
        } else {
          var current := taskTotals[task];
          if taskTotals[task] == current {
            taskTotals := taskTotals[task := current + cost];
            done := true;
          }
        }
      }
    }

    method RotateDailyIfNeeded(now: int)
      modifies this`dailyStart, this`dailyTotal
      ensures dailyStart == if old(dailyStart) < DayStart(now, resetHour) then DayStart(now, resetHour) else old(dailyStart)
      ensures dailyTotal == if old(dailyStart) < DayStart(now, resetHour) then 0 else old(dailyTotal)
      ensures old(dailyStart) <= dailyStart && now < dailyStart + DAY
    {
      DayStartIsTheReset(now, resetHour, DayStart(now, resetHour));
      var newStart := DayStart(now, resetHour);
      if newStart > dailyStart {
        dailyStart := newStart;
        dailyTotal := 0;
      }
    }

    /** The steps of one recording call, taken without interruption. */
    method Record(rec: Rec, now: int, works: bool, ghost window: seq<Rec>) returns (ok: bool, ghost window': seq<Rec>)
      modifies this
      ensures ok <==> works && forall r :: r in old(db) ==> r.id != rec.id
      ensures db == if ok then old(db) + [rec] else old(db)
      ensures taskTotals == if !ok then old(taskTotals)
                            else old(taskTotals)[rec.task := rec.cost + if rec.task in old(taskTotals) then old(taskTotals)[rec.task] else 0.0]
      ensures Abstract(now, window') == Recorded(old(Abstract(now, window)), rec, works)
      ensures old(taskTotals) == Rebuilt(old(db)) ==> taskTotals == Rebuilt(db)
    {
      RotateDailyIfNeeded(now);
      window' := if old(dailyStart) < dailyStart then [] else window;
      if !works || HasId(db, rec.id) { return false, window'; }
      db := db + [rec];
      assert db[..|db| - 1] == old(db);
      AddToTaskTotal(rec.task, rec.cost);
      AddToDailyTotal(rec.cost);
      return true, window' + [rec];
    }

    method TaskCumulative(task: string) returns (total: real)
      ensures total == Cached(taskTotals, task)
    {
      if task !in taskTotals { return 0.0; }
      return taskTotals[task];
    }

    method DailyTotal(now: int) returns (total: real)
      modifies this`dailyStart, this`dailyTotal
      ensures DayStart(now, resetHour) <= dailyStart && total * NANO == dailyTotal as real
      ensures dailyTotal == if old(dailyStart) < dailyStart then 0 else old(dailyTotal)
    {
      RotateDailyIfNeeded(now);
      return LoadDailyTotal();
    }
  }

  /** An inserted record goes into both totals. */
  function Added(s: State, rec: Rec): State {
    s.(totals := s.totals[rec.task := Cached(s.totals, rec.task) + rec.cost],
       nanos := AddedNanos(s.nanos, rec.cost), window := s.window + [rec])
  }

  /** The day as a call finds it after its rotation. */
  function Rotated(s: State): State {
    var start := DayStart(s.clock, s.hour);
    if s.dailyStart < start then s.(dailyStart := start, nanos := 0, window := []) else s
  }

  /** One call from begin to end, with nothing else running. */
  function Recorded(s: State, rec: Rec, works: bool): State {
    var today := Rotated(s);
    if !works || HasId(s.db, rec.id) then today else Added(today.(db := s.db + [rec]), rec)
  }

  /** What a step makes of a state, if it can be taken there. */
  function Taken(s: State, step: Step): Option<State> {
    if Enabled(s, step) then Some(Next(s, step)) else None
  }

  /** A call that is alone inserts and adds, or is refused. */
  lemma PastLeadsToRecord(s: State, rec: Rec, works: bool) returns (steps: seq<Step>, end: State)
    requires |s.threads| == 1 && s.threads[0].pc.Past? && s.threads[0].rec == Some(rec)
    ensures Leads(Taken, s, steps, end) && end.threads == Moved(s, 0, Returned)
    ensures end == if works && !HasId(s.db, rec.id) then Added(s.(db := s.db + [rec], threads := end.threads), rec)
                   else s.(threads := end.threads)
  {
    steps, end := [Insert(0, works)], Next(s, Insert(0, works));
    assert Leads(Taken, end, [], end);
    if end.threads[0].pc.Adding? {
      Then(Taken, s, steps, end, LoadOrStore(0), Next(end, LoadOrStore(0)));
      steps, end := steps + [LoadOrStore(0)], Next(end, LoadOrStore(0));
      if end.threads[0].pc.Swapping? {
        Then(Taken, s, steps, end, Swap(0), Next(end, Swap(0)));
        steps, end := steps + [Swap(0)], Next(end, Swap(0));
      }
      Then(Taken, s, steps, end, AddDaily(0), Next(end, AddDaily(0)));
      steps, end := steps + [AddDaily(0)], Next(end, AddDaily(0));
    }
  }

  /** A call that is alone begins, reads the clock and rotates the day if need be. */
  lemma LeadsPast(s: State, rec: Rec) returns (steps: seq<Step>, end: State)
    requires s.threads == []
    ensures Leads(Taken, s, steps, end) && |end.threads| == 1 && end.threads[0].pc.Past? && end.threads[0].rec == Some(rec)
    ensures end.(threads := []) == Rotated(s)
  {
    var begun := Next(s, Begin(Some(rec)));
    steps, end := [Begin(Some(rec))], Next(begun, ReadClock(0));
    assert Leads(Taken, begun, [], begun);
    Then(Taken, s, steps, begun, ReadClock(0), end);
    steps := steps + [ReadClock(0)];
    if end.threads[0].pc.Rotating? {
      Then(Taken, s, steps, end, Rotate(0), Next(end, Rotate(0)));
      steps, end := steps + [Rotate(0)], Next(end, Rotate(0));
    }
  }

  /** An uninterrupted call is a run of the machine, and ends in the state that Record computes. */
  lemma CallIsRecord(s: State, rec: Rec, works: bool) returns (steps: seq<Step>, end: State)
    requires s.threads == []
    ensures Leads(Taken, s, steps, end) && |end.threads| == 1 && end.threads[0].pc.Returned?
    ensures end.(threads := []) == Recorded(s, rec, works)
  {
    var mid, rest;
    steps, mid := LeadsPast(s, rec);
    rest, end := PastLeadsToRecord(mid, rec, works);
    LeadsOn(Taken, s, steps, mid, rest, end);
    steps := steps + rest;
  }
}
