/**
  File-level locks with a time-to-live.  Every operation reads the clock first
  and takes the mutex afterwards, so an operation carries two times: the
  `reading` it compares expiry against and the moment `at` which it holds the
  mutex.  Times are nanoseconds.
 */
module Locks {

  datatype FileLock = FileLock(path: string, taskId: string, acquired: int, expiresAt: int)
  {
    predicate Expired(now: int) { now > expiresAt }
  }

  type Table = map<string, FileLock>

  datatype Op =
    | Acquire(taskId: string, path: string, ttl: int)
    | Release(taskId: string, path: string)
    | Query
    | IsLocked(path: string)
    | Prune

  datatype Answer =
    | Done
    | TaskRequired
    | PathRequired
    | TtlNotPositive
    | AlreadyLocked(holder: string, until: int)
    | NotLocked
    | LockedByOther(holder: string)
    | Active(locks: set<FileLock>)
    | Held(locked: bool, taskId: string)
    | Silent

  datatype Event = Event(op: Op, reading: int, at: int)

  function ActiveLocks(t: Table, now: int): set<FileLock> {
    set p | p in t && now < t[p].expiresAt :: t[p]
  }

  function Pruned(t: Table, now: int): Table {
    map p | p in t && !t[p].Expired(now) :: t[p]
  }

  function Respond(t: Table, e: Event): Answer {
    match e.op
    case Acquire(task, path, ttl) =>
      if task == "" then TaskRequired
      else if path == "" then PathRequired
      else if ttl <= 0 then TtlNotPositive
      else if path in t && !t[path].Expired(e.reading) && t[path].taskId != task then
        AlreadyLocked(t[path].taskId, t[path].expiresAt)
      else Done
    case Release(task, path) =>
      if task == "" then TaskRequired
      else if path == "" then PathRequired
      else if path !in t then NotLocked
      else if t[path].taskId != task then LockedByOther(t[path].taskId)
      else Done
    case Query => Active(ActiveLocks(t, e.reading))
    case IsLocked(path) =>
      if path == "" then PathRequired
      else if path !in t || t[path].Expired(e.reading) then Held(false, "")
      else Held(true, t[path].taskId)
    case Prune => Silent
  }

  function After(t: Table, e: Event): Table {
    match e.op
    case Acquire(task, path, ttl) =>
      if Respond(t, e) == Done then t[path := FileLock(path, task, e.reading, e.reading + ttl)] else t
    case Release(_, path) =>
      if Respond(t, e) == Done then t - {path} else t
    case Prune => Pruned(t, e.reading)
    case _ => t
  }

  function AfterAll(t: Table, run: seq<Event>): Table {
    if run == [] then t else After(AfterAll(t, run[..|run| - 1]), run[|run| - 1])
  }

  // ---- Tenure ----

  /** The wall clock never goes back; a reading is at most as late as the step that uses it. */
  ghost predicate Timely(run: seq<Event>) {
    && (forall i, j :: 0 <= i < j < |run| ==> run[i].at <= run[j].at)
    && (forall i :: 0 <= i < |run| ==> run[i].reading <= run[i].at)
  }

  /** The holder gives the lock up or takes it anew (which may shorten it). */
  predicate HolderActs(e: Event, task: string, path: string) {
    (e.op.Release? && e.op.taskId == task && e.op.path == path)
    || (e.op.Acquire? && e.op.taskId == task && e.op.path == path)
  }

  lemma {:induction false} LockSurvives(t: Table, run: seq<Event>, lock: FileLock)
    requires lock.path in t && t[lock.path] == lock
    requires Timely(run)
    requires forall i :: 0 <= i < |run| ==> !HolderActs(run[i], lock.taskId, lock.path) && run[i].at <= lock.expiresAt
    ensures lock.path in AfterAll(t, run) && AfterAll(t, run)[lock.path] == lock
  {
    if run != [] {
      LockSurvives(t, run[..|run| - 1], lock);
    }
  }

  lemma MiddleIsTimely(first: Event, run: seq<Event>, last: Event)
    requires Timely([first] + run + [last])
    ensures Timely(run) && last.reading <= last.at
    ensures forall i :: 0 <= i < |run| ==> run[i].at <= last.at
  {
    var all := [first] + run + [last];
    assert all[|run| + 1] == last;
    assert forall i :: 0 <= i < |run| ==> all[i + 1] == run[i];
    forall i, j | 0 <= i < j < |run| ensures run[i].at <= run[j].at {
      assert all[i + 1].at <= all[j + 1].at;
    }
    forall i | 0 <= i < |run| ensures run[i].reading <= run[i].at <= last.at {
      assert all[i + 1].at <= all[|run| + 1].at;
    }
  }

  lemma HolderIsRespected(t: Table, lock: FileLock, rival: Event)
    requires lock.path in t && t[lock.path] == lock && rival.op.Acquire? && rival.op.path == lock.path != ""
    requires rival.op.taskId != "" && rival.op.taskId != lock.taskId && rival.op.ttl > 0 && rival.reading <= lock.expiresAt
    ensures Respond(t, rival) == AlreadyLocked(lock.taskId, lock.expiresAt)
  {
  }

  /**
    After a successful Acquire read at `first.reading` with ttl d, every other
    task is refused on that path as long as its step runs no later than
    `first.reading + d`, whatever else happens and however stale its own clock
    reading, unless the holder acts in between.
   */
  lemma TenureHolds(t: Table, first: Event, run: seq<Event>, rival: Event)
    requires first.op.Acquire? && Respond(t, first) == Done
    requires rival.op.Acquire? && rival.op.path == first.op.path && rival.op.taskId != first.op.taskId
    requires rival.op.taskId != "" && rival.op.ttl > 0
    requires Timely([first] + run + [rival])
    requires forall i :: 0 <= i < |run| ==> !HolderActs(run[i], first.op.taskId, first.op.path)
    requires rival.at <= first.reading + first.op.ttl
    ensures Respond(AfterAll(After(t, first), run), rival)
            == AlreadyLocked(first.op.taskId, first.reading + first.op.ttl)
  {
    var lock := FileLock(first.op.path, first.op.taskId, first.reading, first.reading + first.op.ttl);
    var start := After(t, first);
    assert lock.path in start && start[lock.path] == lock;
    MiddleIsTimely(first, run, rival);
    LockSurvives(start, run, lock);
    HolderIsRespected(AfterAll(start, run), lock, rival);
  }

  /** The first moment past the tenure, the rival is let in. */
  lemma TenureEnds(t: Table, first: Event, rival: Event)
    requires first.op.Acquire? && Respond(t, first) == Done
    requires rival.op.Acquire? && rival.op.path == first.op.path && rival.op.taskId != first.op.taskId
    requires rival.op.taskId != "" && rival.op.ttl > 0
    ensures Respond(After(t, first), rival) == Done <==> rival.reading > first.reading + first.op.ttl
  {
  }

  /**
    A Release looks at the holder and nothing else: it frees the path exactly for
    the task that holds it, expired or not, and tells another task who that is.
   */
  lemma ReleaseAnswers(t: Table, task: string, path: string, now: int, at: int)
    ensures var answer := Respond(t, Event(Release(task, path), now, at));
            && (answer == TaskRequired <==> task == "")
            && (answer == PathRequired <==> task != "" && path == "")
            && (answer == NotLocked <==> task != "" && path != "" && path !in t)
            && (answer.LockedByOther? <==> task != "" && path != "" && path in t && t[path].taskId != task)
            && (answer.LockedByOther? ==> answer.holder == t[path].taskId)
            && (answer == Done <==> task != "" && path != "" && path in t && t[path].taskId == task)
  {
  }

  /** Straight after an Acquire, its holder alone can release the path, at any time; then anyone may take it. */
  lemma HolderReleases(t: Table, first: Event, release: Event, rival: Event)
    requires first.op.Acquire? && Respond(t, first) == Done
    requires release.op.Release? && release.op.path == first.op.path && release.op.taskId != ""
    requires rival.op.Acquire? && rival.op.path == first.op.path && rival.op.taskId != "" && rival.op.ttl > 0
    ensures Respond(After(t, first), release) ==
              if release.op.taskId == first.op.taskId then Done else LockedByOther(first.op.taskId)
    ensures release.op.taskId == first.op.taskId ==> Respond(After(After(t, first), release), rival) == Done
  {
  }

  /**
    The three ways of asking whether a path is locked give one answer, except
    that at the very moment of expiry Query no longer lists a lock that IsLocked
    reports and Acquire respects.
   */
  lemma ObserversAgree(t: Table, path: string, rival: string, ttl: int, now: int, at: int)
    requires forall p :: p in t ==> t[p].path == p
    requires path != "" && rival != "" && ttl > 0
    ensures var locked := Respond(t, Event(IsLocked(path), now, at));
            var refused := Respond(t, Event(Acquire(rival, path, ttl), now, at));
            var listed := ActiveLocks(t, now);
            && (locked == Held(true, rival) || (refused == Done <==> locked == Held(false, "")))
            && (refused.AlreadyLocked? ==> locked == Held(true, refused.holder) && now <= refused.until)
            && ((exists l :: l in listed && l.path == path)
                <==> locked.Held? && locked.locked && !(path in t && now == t[path].expiresAt))
  {
    var listed := ActiveLocks(t, now);
    if path in t && now < t[path].expiresAt { assert t[path] in listed; }
  }

  // ---- Pruning is invisible ----

  /** `thin` is `full` less some locks that have expired by `now`. */
  ghost predicate Thinned(thin: Table, full: Table, now: int) {
    && (forall p :: p in thin ==> p in full && full[p] == thin[p])
    && (forall p :: p in full && p !in thin ==> full[p].Expired(now))
  }

  predicate Watched(op: Op) { op.Acquire? || op.IsLocked? || op.Query? }

  /** What a client learns from the Acquire, IsLocked and Query calls of a run. */
  function Observed(t: Table, run: seq<Event>): seq<Answer>
    decreases |run|
  {
    if run == [] then []
    else
      var rest := Observed(After(t, run[0]), run[1..]);
      if Watched(run[0].op) then [Respond(t, run[0])] + rest else rest
  }

  function WithoutPrunes(run: seq<Event>): seq<Event> {
    if run == [] then []
    else if run[0].op.Prune? then WithoutPrunes(run[1..])
    else [run[0]] + WithoutPrunes(run[1..])
  }

  ghost predicate ReadingsInOrder(run: seq<Event>, from: int) {
    && (forall i :: 0 <= i < |run| ==> from <= run[i].reading)
    && (forall i, j :: 0 <= i < j < |run| ==> run[i].reading <= run[j].reading)
  }

  lemma StepKeepsThinned(thin: Table, full: Table, e: Event)
    requires Thinned(thin, full, e.reading)
    ensures Watched(e.op) ==> Respond(thin, e) == Respond(full, e)
    ensures e.op.Prune? ==> Thinned(After(thin, e), full, e.reading)
    ensures !e.op.Prune? ==> Thinned(After(thin, e), After(full, e), e.reading)
  {
    if e.op.Query? {
      var a, b := ActiveLocks(thin, e.reading), ActiveLocks(full, e.reading);
      forall l ensures l in a <==> l in b {
        if l in b {
          var p :| p in full && e.reading < full[p].expiresAt && full[p] == l;
          assert p in thin;
        }
      }
      assert a == b;
    }
  }

  lemma {:induction false} ThinnedObservesTheSame(thin: Table, full: Table, run: seq<Event>, now: int)
    requires Thinned(thin, full, now) && ReadingsInOrder(run, now)
    ensures Observed(thin, run) == Observed(full, WithoutPrunes(run))
    decreases |run|
  {
    if run != [] {
      var e, rest := run[0], run[1..];
      StepKeepsThinned(thin, full, e);
      assert ReadingsInOrder(rest, e.reading);
      if e.op.Prune? {
        ThinnedObservesTheSame(After(thin, e), full, rest, e.reading);
      } else {
        ThinnedObservesTheSame(After(thin, e), After(full, e), rest, e.reading);
        assert WithoutPrunes(run)[1..] == WithoutPrunes(rest);
      }
    }
  }

  /** When clock readings reach the mutex in order, no Acquire, IsLocked or Query can tell whether pruning ran. */
  lemma PruningIsInvisible(t: Table, run: seq<Event>)
    requires forall i, j :: 0 <= i < j < |run| ==> run[i].reading <= run[j].reading
    ensures Observed(t, run) == Observed(t, WithoutPrunes(run))
  {
    if run != [] {
      ThinnedObservesTheSame(t, t, run, run[0].reading);
    }
  }

  /**
    With readings out of order the law fails, and exactly here: the prune's
    reading has passed the expiry of another task's lock and the caller's has not.
   */
  lemma PruneSeenByAcquireIff(t: Table, prune: Event, e: Event)
    requires prune.op.Prune? && e.op.Acquire? && e.op.taskId != "" && e.op.path != "" && e.op.ttl > 0
    ensures Respond(After(t, prune), e) != Respond(t, e) <==>
            var p := e.op.path;
            p in t && t[p].taskId != e.op.taskId && e.reading <= t[p].expiresAt < prune.reading
  {
  }

  /** The same for IsLocked, whoever holds the lock. */
  lemma PruneSeenByIsLockedIff(t: Table, prune: Event, e: Event)
    requires prune.op.Prune? && e.op.IsLocked? && e.op.path != ""
    ensures Respond(After(t, prune), e) != Respond(t, e) <==>
            e.op.path in t && e.reading <= t[e.op.path].expiresAt < prune.reading
  {
  }

  /** And for Query, of any lock it would still list. */
  lemma PruneSeenByQueryIff(t: Table, prune: Event, e: Event)
    requires prune.op.Prune? && e.op.Query? && forall p :: p in t ==> t[p].path == p
    ensures Respond(After(t, prune), e) != Respond(t, e) <==>
            exists p :: p in t && e.reading < t[p].expiresAt < prune.reading
  {
    var before, after := ActiveLocks(t, e.reading), ActiveLocks(Pruned(t, prune.reading), e.reading);
    if p :| p in t && e.reading < t[p].expiresAt < prune.reading {
      assert t[p] in before;
      forall q | q in Pruned(t, prune.reading) ensures t[q] != t[p] { assert t[q].path == q && t[p].path == p; }
    } else {
      forall l ensures l in before <==> l in after {
        if l in before {
          var p :| p in t && e.reading < t[p].expiresAt && t[p] == l;
          assert p in Pruned(t, prune.reading);
        }
      }
    }
  }

  // ---- When pruning is visible, over whole runs ----

  predicate WellFormed(op: Op) {
    match op
    case Acquire(task, path, ttl) => task != "" && path != "" && ttl > 0
    case Release(task, path) => task != "" && path != ""
    case _ => true
  }

  /** The locks that prunes of a run removed, as far as nobody has replaced them since and their holder has not released them. */
  function Buried(t: Table, run: seq<Event>): Table {
    if run == [] then map[]
    else
      var past, e := run[..|run| - 1], run[|run| - 1];
      StillBuried(Buried(t, past), AfterAll(t, past), e)
  }

  function StillBuried(buried: Table, thin: Table, e: Event): Table {
    match e.op
    case Prune => buried + (map p | p in thin && thin[p].Expired(e.reading) :: thin[p])
    case Acquire(_, path, _) => if WellFormed(e.op) then buried - {path} else buried
    case Release(task, path) =>
      if WellFormed(e.op) && path in buried && buried[path].taskId == task then buried - {path} else buried
    case _ => buried
  }

  /** The call would respect or report this lock on path p. */
  predicate Respects(e: Event, p: string, lock: FileLock) {
    match e.op
    case Acquire(task, path, _) => WellFormed(e.op) && path == p && lock.taskId != task && e.reading <= lock.expiresAt
    case IsLocked(path) => path != "" && path == p && e.reading <= lock.expiresAt
    case Query => e.reading < lock.expiresAt
    case _ => false
  }

  /** A call after some run meets a lock that is buried. */
  ghost predicate Meets(t: Table, past: seq<Event>, e: Event) {
    exists p :: p in Buried(t, past) && Respects(e, p, Buried(t, past)[p])
  }

  ghost predicate SomeMeets(t: Table, run: seq<Event>) {
    if run == [] then false
    else
      var past := run[..|run| - 1];
      SomeMeets(t, past) || Meets(t, past, run[|run| - 1])
  }

  lemma {:induction false} SomeMeetsIff(t: Table, run: seq<Event>)
    ensures SomeMeets(t, run) <==> exists j :: 0 <= j < |run| && Meets(t, run[..j], run[j])
  {
    if run != [] {
      var past := run[..|run| - 1];
      SomeMeetsIff(t, past);
      assert forall j :: 0 <= j < |past| ==> run[..j] == past[..j] && run[j] == past[j];
    }
  }

  /** `full` is `thin` and the buried locks, each lock under its own path. */
  ghost predicate Divided(full: Table, thin: Table, buried: Table) {
    && (forall p :: p in full <==> p in thin || p in buried)
    && (forall p :: p in thin ==> p !in buried && full[p] == thin[p])
    && (forall p :: p in buried ==> full[p] == buried[p])
    && (forall p :: p in full ==> full[p].path == p)
  }

  lemma AnswersDifferIff(full: Table, thin: Table, buried: Table, e: Event)
    requires Divided(full, thin, buried) && Watched(e.op)
    ensures Respond(thin, e) != Respond(full, e) <==> exists p :: p in buried && Respects(e, p, buried[p])
  {
    match e.op
    case Query => ListsDifferIff(full, thin, buried, e.reading);
    case Acquire(_, path, _) => assert Respond(thin, e) != Respond(full, e) <==> path in buried && Respects(e, path, buried[path]);
    case IsLocked(path) => assert Respond(thin, e) != Respond(full, e) <==> path in buried && Respects(e, path, buried[path]);
  }

  lemma ListsDifferIff(full: Table, thin: Table, buried: Table, now: int)
    requires Divided(full, thin, buried)
    ensures ActiveLocks(thin, now) != ActiveLocks(full, now) <==> exists p :: p in buried && now < buried[p].expiresAt
  {
    var a, b := ActiveLocks(thin, now), ActiveLocks(full, now);
    if p :| p in buried && now < buried[p].expiresAt {
      assert full[p] in b;
      forall q | q in thin ensures thin[q] != full[p] { assert full[q].path == q; }
    } else {
      forall l ensures l in a <==> l in b {
        if l in b {
          var p :| p in full && now < full[p].expiresAt && full[p] == l;
          assert p in thin;
        }
      }
    }
  }

  /** As long as the answers agree, leaving the prunes out of a run leaves exactly the buried locks in the table. */
  lemma StepKeepsDivided(full: Table, thin: Table, buried: Table, e: Event, full': Table)
    requires Divided(full, thin, buried) && (Watched(e.op) ==> Respond(thin, e) == Respond(full, e))
    requires full' == if e.op.Prune? then full else After(full, e)
    ensures Divided(full', After(thin, e), StillBuried(buried, thin, e))
  {
    match e.op
    case Prune => PruneDivides(full, thin, buried, e.reading);
    case _ =>
  }

  lemma PruneDivides(full: Table, thin: Table, buried: Table, now: int)
    requires Divided(full, thin, buried)
    ensures Divided(full, Pruned(thin, now), buried + (map p | p in thin && thin[p].Expired(now) :: thin[p]))
  {
  }

  lemma {:induction false} WithoutPrunesAppend(run: seq<Event>, e: Event)
    ensures WithoutPrunes(run + [e]) == if e.op.Prune? then WithoutPrunes(run) else WithoutPrunes(run) + [e]
  {
    if run == [] {
      assert [e][1..] == [];
    } else {
      assert (run + [e])[1..] == run[1..] + [e];
      WithoutPrunesAppend(run[1..], e);
    }
  }

  lemma {:induction false} AfterAllFront(t: Table, first: Event, run: seq<Event>)
    ensures AfterAll(t, [first] + run) == AfterAll(After(t, first), run)
    decreases |run|
  {
    var all := [first] + run;
    if run == [] {
      assert all == [first] && all[..0] == [];
    } else {
      assert all[..|run|] == [first] + run[..|run| - 1];
      AfterAllFront(t, first, run[..|run| - 1]);
    }
  }

  lemma {:induction false} ObservedAppend(t: Table, run: seq<Event>, e: Event)
    ensures Observed(t, run + [e]) == Observed(t, run) + if Watched(e.op) then [Respond(AfterAll(t, run), e)] else []
    decreases |run|
  {
    if run == [] {
      assert [] + [e] == [e] && [e][1..] == [];
    } else {
      var first, rest := run[0], run[1..];
      assert (run + [e])[1..] == rest + [e] && run == [first] + rest;
      ObservedAppend(After(t, first), rest, e);
      AfterAllFront(t, first, rest);
    }
  }

  /** What one more event adds to the tables. */
  lemma TableAppend(t: Table, run: seq<Event>, e: Event)
    ensures AfterAll(t, run + [e]) == After(AfterAll(t, run), e)
  {
    assert (run + [e])[..|run|] == run;
  }

  lemma BuriedAppend(t: Table, run: seq<Event>, e: Event)
    ensures Buried(t, run + [e]) == StillBuried(Buried(t, run), AfterAll(t, run), e)
  {
    assert (run + [e])[..|run|] == run;
  }

  /** And to the answers. */
  lemma AnswersAppend(t: Table, past: seq<Event>, e: Event, run: seq<Event>, bare: seq<Event>, bare': seq<Event>)
    requires run == past + [e] && bare == WithoutPrunes(past) && bare' == WithoutPrunes(run)
    ensures Observed(t, run) == Observed(t, bare')
            <==> Observed(t, past) == Observed(t, bare)
                 && (Watched(e.op) ==> Respond(AfterAll(t, past), e) == Respond(AfterAll(t, bare), e))
  {
    WithoutPrunesAppend(past, e);
    ObservedAppend(t, past, e);
    if !e.op.Prune? { ObservedAppend(t, bare, e); }
    SameLength(t, t, past);
    var a, b := Observed(t, past), Observed(t, bare);
    if Watched(e.op) {
      SameAndLast(a, Respond(AfterAll(t, past), e), b, Respond(AfterAll(t, bare), e));
    } else {
      assert a + [] == a && b + [] == b;
    }
  }

  lemma SameAndLast<T>(a: seq<T>, x: T, b: seq<T>, y: T)
    requires |a| == |b|
    ensures a + [x] == b + [y] <==> a == b && x == y
  {
    if a + [x] == b + [y] {
      assert a == (a + [x])[..|a|] && x == (a + [x])[|a|];
      assert b == (b + [y])[..|b|] && y == (b + [y])[|b|];
    }
  }

  lemma {:induction false} SameLength(t: Table, u: Table, run: seq<Event>)
    ensures |Observed(t, run)| == |Observed(u, WithoutPrunes(run))|
    decreases |run|
  {
    if run != [] {
      var e, rest := run[0], run[1..];
      if e.op.Prune? {
        SameLength(After(t, e), u, rest);
      } else {
        SameLength(After(t, e), After(u, e), rest);
        assert WithoutPrunes(run)[1..] == WithoutPrunes(rest);
      }
    }
  }

  /** As long as nobody has met a buried lock, the answers are the same, and so are the tables but for the buried locks. */
  lemma {:induction false} UnseenUntilMet(t: Table, run: seq<Event>)
    requires forall p :: p in t ==> t[p].path == p
    ensures Observed(t, run) == Observed(t, WithoutPrunes(run)) <==> !SomeMeets(t, run)
    ensures Observed(t, run) == Observed(t, WithoutPrunes(run)) ==>
            Divided(AfterAll(t, WithoutPrunes(run)), AfterAll(t, run), Buried(t, run))
    decreases |run|
  {
    if run != [] {
      var past, e := run[..|run| - 1], run[|run| - 1];
      assert run == past + [e];
      UnseenUntilMet(t, past);
      TableAppend(t, past, e);
      BuriedAppend(t, past, e);
      WithoutPrunesAppend(past, e);
      TableAppend(t, WithoutPrunes(past), e);
      AnswersAppend(t, past, e, run, WithoutPrunes(past), WithoutPrunes(run));
      var full, thin, buried := AfterAll(t, WithoutPrunes(past)), AfterAll(t, past), Buried(t, past);
      if Observed(t, past) == Observed(t, WithoutPrunes(past)) {
        if Watched(e.op) { AnswersDifferIff(full, thin, buried, e); }
        if Watched(e.op) ==> Respond(thin, e) == Respond(full, e) {
          StepKeepsDivided(full, thin, buried, e, AfterAll(t, WithoutPrunes(run)));
        }
      }
    }
  }

  /**
    Over any run, with readings in any order: some client can tell that pruning
    ran exactly when some call comes upon a lock that it would respect or report,
    that an earlier prune removed, and that nothing has replaced since.
   */
  lemma PruningIsVisibleIff(t: Table, run: seq<Event>)
    requires forall p :: p in t ==> t[p].path == p
    ensures Observed(t, run) != Observed(t, WithoutPrunes(run)) <==>
            exists j :: 0 <= j < |run| && Meets(t, run[..j], run[j])
  {
    UnseenUntilMet(t, run);
    SomeMeetsIff(t, run);
  }

  lemma StalePruneWitness()
    ensures var t: Table := map["f" := FileLock("f", "a", 0, 10)];
            var run := [Event(Prune, 11, 11), Event(Acquire("b", "f", 5), 9, 12)];
            Observed(t, run) != Observed(t, WithoutPrunes(run))
  {
    var t: Table := map["f" := FileLock("f", "a", 0, 10)];
    var prune, late := Event(Prune, 11, 11), Event(Acquire("b", "f", 5), 9, 12);
    assert [prune, late][1..] == [late] && [late][1..] == [];
    assert WithoutPrunes([prune, late]) == WithoutPrunes([late]) == [late] + WithoutPrunes([]);
    assert Observed(After(t, prune), [late]) == [Done];
    assert Observed(t, [late]) == [AlreadyLocked("a", 10)];
  }

  // ---- The registry object ----

  class InMemoryRegistry {
    var locks: Table

    ghost predicate Valid() reads this {
      forall p :: p in locks ==> locks[p].path == p
    }

    constructor ()
      ensures Valid() && locks == map[]
    {
      locks := map[];
    }

    method Acquire(taskId: string, path: string, ttl: int, now: int) returns (result: Answer)
      requires Valid()
      modifies this
      ensures Valid()
      ensures result == Respond(old(locks), Event(Op.Acquire(taskId, path, ttl), now, now))
      ensures locks == After(old(locks), Event(Op.Acquire(taskId, path, ttl), now, now))
    {
      if taskId == "" { return TaskRequired; }
      if path == "" { return PathRequired; }
      if ttl <= 0 { return TtlNotPositive; }
      if path in locks {
        var existing := locks[path];
        if existing.Expired(now) {
        } else if existing.taskId != taskId {
          return AlreadyLocked(existing.taskId, existing.expiresAt);
        }
      }
      locks := locks[path := FileLock(path, taskId, now, now + ttl)];
      return Done;
    }

    method Release(taskId: string, path: string) returns (result: Answer)
      requires Valid()
      modifies this
      ensures Valid()
      ensures forall now :: result == Respond(old(locks), Event(Op.Release(taskId, path), now, now))
      ensures result == Done <==> taskId != "" && path != "" && path in old(locks) && old(locks)[path].taskId == taskId
      ensures locks == if result == Done then old(locks) - {path} else old(locks)
      ensures forall now :: locks == After(old(locks), Event(Op.Release(taskId, path), now, now))
    {
      if taskId == "" { return TaskRequired; }
      if path == "" { return PathRequired; }
      if path !in locks { return NotLocked; }
      var existing := locks[path];
      if existing.taskId != taskId { return LockedByOther(existing.taskId); }
      locks := locks - {path};
      return Done;
    }

    /** Every active lock once, in no particular order. */
    method Query(now: int) returns (result: seq<FileLock>)
      requires Valid()
      ensures Active(set l | l in result) == Respond(locks, Event(Op.Query, now, now))
      ensures forall i, j :: 0 <= i < j < |result| ==> result[i] != result[j]
    {
      result := [];
      var todo := locks.Keys;
      while todo != {}
        invariant todo <= locks.Keys
        invariant forall l :: l in result <==> l.path in locks.Keys - todo && locks[l.path] == l && now < l.expiresAt
        invariant forall i, j :: 0 <= i < j < |result| ==> result[i] != result[j]
        decreases todo
      {
        var p :| p in todo;
        if now < locks[p].expiresAt {
          result := result + [locks[p]];
        }
        todo := todo - {p};
      }
      assert (set l | l in result) == ActiveLocks(locks, now);
    }

    method IsLocked(path: string, now: int) returns (result: Answer)
      ensures result == Respond(locks, Event(Op.IsLocked(path), now, now))
    {
      if path == "" { return PathRequired; }
      if path !in locks || locks[path].Expired(now) { return Held(false, ""); }
      return Held(true, locks[path].taskId);
    }

    method PruneExpired(now: int)
      requires Valid()
      modifies this
      ensures Valid()
      ensures locks == After(old(locks), Event(Prune, now, now))
    {
      var todo := locks.Keys;
      while todo != {}
        invariant todo <= locks.Keys <= old(locks).Keys
        invariant forall p :: p in locks ==> locks[p] == old(locks)[p]
        invariant forall p :: p in old(locks) && p !in todo ==> (p in locks <==> !old(locks)[p].Expired(now))
        decreases todo
      {
        var p :| p in todo;
        if locks[p].Expired(now) {
          locks := locks - {p};
        }
        todo := todo - {p};
      }
    }
  }
}
