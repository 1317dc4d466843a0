/**
  The cron service.  Jobs are claimed under the mutex, run outside it and
  finished under it again; the store is saved to a file, which may fail, and
  reloaded by Start and after a crash.  One step is one locked region.
 */
module Cron {
  import opened Wrappers

  datatype Schedule = Schedule(kind: string, atMS: Option<int>, everyMS: Option<int>, expr: string)

  datatype Status = Unrun | Running | Ok | Failed | Interrupted

  datatype Job = Job(id: string, enabled: bool, schedule: Schedule, nextRun: Option<int>, lastRun: Option<int>,
                     status: Status, createdAt: int, updatedAt: int, deleteAfterRun: bool)

  /** The next time a cron expression fires after a given time; not interpreted here. */
  type Ticks = (string, int) -> Option<int>

  // ---- What each locked region computes ----

  function NextRun(s: Schedule, now: int, ticks: Ticks): Option<int> {
    if s.kind == "at" then
      if s.atMS.Some? && s.atMS.value > now then s.atMS else None
    else if s.kind == "every" then
      if s.everyMS.None? || s.everyMS.value <= 0 then None else Some(now + s.everyMS.value)
    else if s.kind == "cron" then
      if s.expr == "" then None else ticks(s.expr, now)
    else None
  }

  predicate Due(j: Job, now: int) {
    j.enabled && j.nextRun.Some? && j.nextRun.value <= now && j.status != Running
  }

  function DueIds(jobs: seq<Job>, now: int): seq<string> {
    if jobs == [] then []
    else (if Due(jobs[0], now) then [jobs[0].id] else []) + DueIds(jobs[1..], now)
  }

  function MarkJob(j: Job, ids: seq<string>): Job { if j.id in ids then j.(status := Running) else j }

  function Marked(jobs: seq<Job>, ids: seq<string>): seq<Job> {
    seq(|jobs|, i requires 0 <= i < |jobs| => MarkJob(jobs[i], ids))
  }

  function RecomputeJob(j: Job, now: int, ticks: Ticks): Job {
    if j.enabled then j.(nextRun := NextRun(j.schedule, now, ticks)) else j
  }

  function Recomputed(jobs: seq<Job>, now: int, ticks: Ticks): seq<Job> {
    seq(|jobs|, i requires 0 <= i < |jobs| => RecomputeJob(jobs[i], now, ticks))
  }

  function RecoverJob(j: Job): Job { if j.status == Running then j.(status := Interrupted) else j }

  /** What loadStore makes of a saved file. */
  function Recovered(jobs: seq<Job>): seq<Job> {
    seq(|jobs|, i requires 0 <= i < |jobs| => RecoverJob(jobs[i]))
  }

  function Without(jobs: seq<Job>, id: string): seq<Job> {
    if jobs == [] then []
    else
      var rest := Without(jobs[1..], id);
      if jobs[0].id != id then [jobs[0]] + rest else rest
  }

  /** Index of the first job with this ID, or the length. */
  function IndexOf(jobs: seq<Job>, id: string): (i: nat)
    ensures i <= |jobs| && (i < |jobs| ==> jobs[i].id == id)
  {
    if jobs == [] || jobs[0].id == id then 0 else 1 + IndexOf(jobs[1..], id)
  }

  predicate HasJob(jobs: seq<Job>, id: string) { IndexOf(jobs, id) < |jobs| }

  function NewJob(id: string, schedule: Schedule, now: int, ticks: Ticks): Job {
    Job(id, true, schedule, NextRun(schedule, now, ticks), None, Unrun, now, now, schedule.kind == "at")
  }

  function EnabledJob(j: Job, enabled: bool, now: int, ticks: Ticks): Job {
    j.(enabled := enabled, updatedAt := now, nextRun := if enabled then NextRun(j.schedule, now, ticks) else None)
  }

  function WithEnabled(jobs: seq<Job>, id: string, enabled: bool, now: int, ticks: Ticks): seq<Job> {
    if HasJob(jobs, id) then jobs[IndexOf(jobs, id) := EnabledJob(jobs[IndexOf(jobs, id)], enabled, now, ticks)] else jobs
  }

  /** A job after its handler returned. */
  function FinishedJob(j: Job, start: int, ok: bool, now: int, ticks: Ticks): Job {
    var j' := j.(lastRun := Some(start), updatedAt := now, status := if ok then Ok else Failed);
    if j.schedule.kind == "at" then j'.(enabled := false, nextRun := None)
    else j'.(nextRun := NextRun(j.schedule, now, ticks))
  }

  function WithFinished(jobs: seq<Job>, id: string, start: int, ok: bool, now: int, ticks: Ticks): seq<Job> {
    if !HasJob(jobs, id) then jobs
    else
      var j := jobs[IndexOf(jobs, id)];
      if j.schedule.kind == "at" && j.deleteAfterRun then Without(jobs, id)
      else jobs[IndexOf(jobs, id) := FinishedJob(j, start, ok, now, ticks)]
  }

  // ---- Runs of the service ----

  /** How far an execution got; Lost is one whose job vanished before the call, or whose process died. */
  datatype Stage = Claimed | Invoked(start: int) | Done(at: int) | Lost

  datatype Exec = Exec(jobId: string, claimedAt: int, stage: Stage)
  {
    predicate InFlight() { stage.Claimed? || stage.Invoked? }
  }

  datatype Call = Call(exec: nat, at: int)

  /**
    The service, its saved file and the clock, with its history: the schedule
    each ID was added with, every execution in the order of their claims, and
    every handler call in order.
   */
  datatype State = State(store: seq<Job>, disk: seq<Job>, running: bool, now: int,
                         added: map<string, Schedule>, execs: seq<Exec>, calls: seq<Call>)

  datatype Step =
    | Tick(ms: nat)
    | AddJob(id: string, schedule: Schedule, saved: bool)
    | EnableJob(id: string, enabled: bool, saved: bool)
    | RemoveJob(id: string, saved: bool)
    | Start(read: bool, saved: bool)
    | Stop
    | CheckJobs(saved: bool)
    | Invoke(e: nat)
    | Finish(e: nat, ok: bool, saved: bool)
    | Crash(read: bool)

  predicate Enabled(s: State, step: Step) {
    match step
    case AddJob(id, _, _) => id !in s.added
    case Invoke(e) => e < |s.execs| && s.execs[e].stage.Claimed?
    case Finish(e, _, _) => e < |s.execs| && s.execs[e].stage.Invoked?
    case _ => true
  }

  function Saved(s: State, saved: bool): State { if saved then s.(disk := s.store) else s }

  function ClaimAll(ids: seq<string>, now: int): seq<Exec> {
    seq(|ids|, i requires 0 <= i < |ids| => Exec(ids[i], now, Claimed))
  }

  function AllLost(execs: seq<Exec>): seq<Exec> {
    seq(|execs|, i requires 0 <= i < |execs| => if execs[i].InFlight() then execs[i].(stage := Lost) else execs[i])
  }

  function SetStage(execs: seq<Exec>, e: nat, stage: Stage): seq<Exec>
    requires e < |execs|
  {
    execs[e := execs[e].(stage := stage)]
  }

  function Next(s: State, step: Step, ticks: Ticks): State
    requires Enabled(s, step)
  {
    match step
    case Tick(ms) => s.(now := s.now + ms)
    case AddJob(id, schedule, saved) =>
      Saved(s.(store := s.store + [NewJob(id, schedule, s.now, ticks)], added := s.added[id := schedule]), saved)
    case EnableJob(id, enabled, saved) =>
      Saved(s.(store := WithEnabled(s.store, id, enabled, s.now, ticks)), saved && HasJob(s.store, id))
    case RemoveJob(id, saved) =>
      Saved(s.(store := Without(s.store, id)), saved && HasJob(s.store, id))
    case Start(read, saved) =>
      if s.running then s
      else if !read then s.(store := [])
      else Saved(s.(store := Recomputed(Recovered(s.disk), s.now, ticks), running := saved), saved)
    case Stop => s.(running := false)
    case CheckJobs(saved) =>
      if !s.running then s
      else
        var ids := DueIds(s.store, s.now);
        Saved(s.(store := Marked(s.store, ids), execs := s.execs + ClaimAll(ids, s.now)), saved)
    case Invoke(e) =>
      if HasJob(s.store, s.execs[e].jobId)
      then s.(execs := SetStage(s.execs, e, Invoked(s.now)), calls := s.calls + [Call(e, s.now)])
      else s.(execs := SetStage(s.execs, e, Lost))
    case Finish(e, ok, saved) =>
      var id := s.execs[e].jobId;
      Saved(s.(store := WithFinished(s.store, id, s.execs[e].stage.start, ok, s.now, ticks),
               execs := SetStage(s.execs, e, Done(s.now))), saved && HasJob(s.store, id))
    case Crash(read) =>
      s.(store := if read then Recovered(s.disk) else [], running := false, execs := AllLost(s.execs))
  }

  const INIT := State([], [], false, 0, map[], [], [])

  ghost predicate StepAt(states: seq<State>, steps: seq<Step>, ticks: Ticks, i: int)
    requires 0 <= i < |steps| < |states|
  {
    Enabled(states[i], steps[i]) && states[i + 1] == Next(states[i], steps[i], ticks)
  }

  ghost predicate Run(states: seq<State>, steps: seq<Step>, ticks: Ticks) {
    && |states| == |steps| + 1 && states[0] == INIT
    && forall i {:trigger StepAt(states, steps, ticks, i)} :: 0 <= i < |steps| ==> StepAt(states, steps, ticks, i)
  }

  // ---- Facts about job lists ----

  ghost predicate Unique(jobs: seq<Job>) {
    forall i, j :: 0 <= i < j < |jobs| ==> jobs[i].id != jobs[j].id
  }

  lemma {:induction false} WithoutKeeps(jobs: seq<Job>, id: string)
    ensures forall j :: j in Without(jobs, id) <==> j in jobs && j.id != id
    ensures Unique(jobs) ==> Unique(Without(jobs, id))
  {
    if jobs != [] {
      var rest := Without(jobs[1..], id);
      WithoutKeeps(jobs[1..], id);
      assert jobs == [jobs[0]] + jobs[1..];
      if jobs[0].id != id {
        assert Without(jobs, id) == [jobs[0]] + rest;
        assert forall j :: j in rest ==> j in jobs[1..];
        if Unique(jobs) { assert Unique(rest); }
      } else {
        assert Without(jobs, id) == rest;
      }
    }
  }

  lemma {:induction false} DueIdsAreDue(jobs: seq<Job>, now: int, id: string)
    requires id in DueIds(jobs, now)
    ensures exists j :: j in jobs && j.id == id && Due(j, now)
  {
    if Due(jobs[0], now) && jobs[0].id == id {
    } else {
      DueIdsAreDue(jobs[1..], now, id);
      var j :| j in jobs[1..] && j.id == id && Due(j, now);
      assert j in jobs;
    }
  }

  lemma {:induction false} DueIdsAreUnique(jobs: seq<Job>, now: int)
    requires Unique(jobs)
    ensures forall a, b :: 0 <= a < b < |DueIds(jobs, now)| ==> DueIds(jobs, now)[a] != DueIds(jobs, now)[b]
  {
    if jobs != [] {
      var rest := DueIds(jobs[1..], now);
      DueIdsAreUnique(jobs[1..], now);
      if jobs[0].id in rest {
        DueIdsAreDue(jobs[1..], now, jobs[0].id);
        assert false;
      }
    }
  }

  lemma {:induction false} FoundIfPresent(jobs: seq<Job>, k: nat)
    requires k < |jobs|
    ensures HasJob(jobs, jobs[k].id)
  {
    if jobs[0].id != jobs[k].id { FoundIfPresent(jobs[1..], k - 1); }
  }

  lemma {:induction false} FirstAt(jobs: seq<Job>, id: string, k: nat)
    requires k <= |jobs| && forall i :: 0 <= i < k ==> jobs[i].id != id
    requires k < |jobs| ==> jobs[k].id == id
    ensures IndexOf(jobs, id) == k
  {
    if k > 0 { FirstAt(jobs[1..], id, k - 1); }
  }

  // ---- Every stored job keeps its schedule ----

  /** A one-time job is due at its time or never, and never while disabled. */
  predicate JobOk(j: Job, added: map<string, Schedule>) {
    && j.id in added && j.schedule == added[j.id]
    && (j.schedule.kind == "at" && j.nextRun.Some? ==> j.enabled && j.nextRun == j.schedule.atMS)
  }

  ghost predicate ListOk(jobs: seq<Job>, added: map<string, Schedule>) {
    Unique(jobs) && forall i :: 0 <= i < |jobs| ==> JobOk(jobs[i], added)
  }

  ghost predicate StoresOk(s: State) { ListOk(s.store, s.added) && ListOk(s.disk, s.added) }

  lemma AddKeepsList(jobs: seq<Job>, added: map<string, Schedule>, id: string, schedule: Schedule, now: int, ticks: Ticks)
    requires ListOk(jobs, added) && id !in added
    ensures ListOk(jobs + [NewJob(id, schedule, now, ticks)], added[id := schedule])
    ensures ListOk(jobs, added[id := schedule])
  {
    forall i | 0 <= i < |jobs| ensures JobOk(jobs[i], added[id := schedule]) && jobs[i].id != id {
      assert JobOk(jobs[i], added);
    }
  }

  lemma EnableKeepsList(jobs: seq<Job>, added: map<string, Schedule>, id: string, enabled: bool, now: int, ticks: Ticks)
    requires ListOk(jobs, added)
    ensures ListOk(WithEnabled(jobs, id, enabled, now, ticks), added)
  {
    if HasJob(jobs, id) { assert JobOk(jobs[IndexOf(jobs, id)], added); }
  }

  lemma WithoutKeepsList(jobs: seq<Job>, added: map<string, Schedule>, id: string)
    requires ListOk(jobs, added)
    ensures ListOk(Without(jobs, id), added)
  {
    WithoutKeeps(jobs, id);
    var rest := Without(jobs, id);
    forall i | 0 <= i < |rest| ensures JobOk(rest[i], added) {
      assert rest[i] in rest && rest[i] in jobs;
    }
  }

  lemma FinishKeepsList(jobs: seq<Job>, added: map<string, Schedule>, id: string, start: int, ok: bool, now: int, ticks: Ticks)
    requires ListOk(jobs, added)
    ensures ListOk(WithFinished(jobs, id, start, ok, now, ticks), added)
  {
    if HasJob(jobs, id) {
      WithoutKeepsList(jobs, added, id);
      assert JobOk(jobs[IndexOf(jobs, id)], added);
    }
  }

  lemma LoadKeepsList(jobs: seq<Job>, added: map<string, Schedule>, now: int, ticks: Ticks)
    requires ListOk(jobs, added)
    ensures ListOk(Recovered(jobs), added) && ListOk(Recomputed(Recovered(jobs), now, ticks), added)
  {
    var loaded := Recovered(jobs);
    forall i | 0 <= i < |jobs| ensures JobOk(loaded[i], added) && loaded[i].id == jobs[i].id {
      assert JobOk(jobs[i], added);
    }
    var next := Recomputed(loaded, now, ticks);
    forall i | 0 <= i < |jobs| ensures JobOk(next[i], added) && next[i].id == jobs[i].id {
    }
  }

  lemma MarkKeepsList(jobs: seq<Job>, added: map<string, Schedule>, ids: seq<string>)
    requires ListOk(jobs, added)
    ensures ListOk(Marked(jobs, ids), added)
  {
    var marked := Marked(jobs, ids);
    forall i | 0 <= i < |jobs| ensures JobOk(marked[i], added) && marked[i].id == jobs[i].id {
      assert JobOk(jobs[i], added);
    }
  }

  lemma StepKeepsStores(s: State, step: Step, ticks: Ticks)
    requires StoresOk(s) && Enabled(s, step)
    ensures StoresOk(Next(s, step, ticks))
  {
    match step
    case AddJob(id, schedule, _) =>
      AddKeepsList(s.store, s.added, id, schedule, s.now, ticks);
      AddKeepsList(s.disk, s.added, id, schedule, s.now, ticks);
    case EnableJob(id, enabled, _) => EnableKeepsList(s.store, s.added, id, enabled, s.now, ticks);
    case RemoveJob(id, _) => WithoutKeepsList(s.store, s.added, id);
    case Start(_, _) => LoadKeepsList(s.disk, s.added, s.now, ticks);
    case Crash(_) => LoadKeepsList(s.disk, s.added, s.now, ticks);
    case CheckJobs(_) => MarkKeepsList(s.store, s.added, DueIds(s.store, s.now));
    case Finish(e, ok, _) =>
      FinishKeepsList(s.store, s.added, s.execs[e].jobId, s.execs[e].stage.start, ok, s.now, ticks);
    case _ =>
  }

  // ---- A one-time job runs at most once ----

  predicate OneTime(s: State, id: string) { id in s.added && s.added[id].kind == "at" }

  /** Claims know their jobs, come after the job's time, and are never repeated for a one-time job. */
  ghost predicate ClaimsOk(s: State) {
    && (forall e :: 0 <= e < |s.execs| ==> ClaimOk(s, s.execs[e].jobId, s.execs[e].claimedAt))
    && (forall e, f :: 0 <= e < f < |s.execs| && s.execs[e].jobId == s.execs[f].jobId ==> !OneTime(s, s.execs[e].jobId))
  }

  predicate ClaimOk(s: State, id: string, claimedAt: int) {
    && id in s.added && claimedAt <= s.now
    && (OneTime(s, id) ==> s.added[id].atMS.Some? && s.added[id].atMS.value <= claimedAt)
  }

  /** While the scheduler runs, a one-time job that was ever claimed cannot come due again. */
  ghost predicate SpentOk(s: State) {
    s.running ==>
      forall e, i :: (0 <= e < |s.execs| && 0 <= i < |s.store|
                      && s.store[i].id == s.execs[e].jobId && OneTime(s, s.store[i].id)) ==> Spent(s.store[i])
  }

  predicate Spent(j: Job) { j.status == Running || j.nextRun == None }

  /** Each execution calls the handler at most once, after its claim. */
  ghost predicate CallsOk(s: State) {
    && (forall c :: 0 <= c < |s.calls| ==>
          && s.calls[c].exec < |s.execs| && !s.execs[s.calls[c].exec].stage.Claimed?
          && s.execs[s.calls[c].exec].claimedAt <= s.calls[c].at)
    && (forall c, d :: 0 <= c < d < |s.calls| ==> s.calls[c].exec != s.calls[d].exec)
  }

  ghost predicate OnceInv(s: State) { StoresOk(s) && ClaimsOk(s) && SpentOk(s) && CallsOk(s) }

  /** Recomputing a one-time job after its time leaves it without a next run. */
  lemma RecomputeAfterClaim(s: State, e: nat, schedule: Schedule, ticks: Ticks)
    requires ClaimsOk(s) && e < |s.execs| && OneTime(s, s.execs[e].jobId) && schedule == s.added[s.execs[e].jobId]
    ensures NextRun(schedule, s.now, ticks) == None
  {
  }

  lemma AddKeepsOnce(s: State, id: string, schedule: Schedule, saved: bool, ticks: Ticks)
    requires OnceInv(s) && id !in s.added
    ensures OnceInv(Next(s, AddJob(id, schedule, saved), ticks))
  {
    StepKeepsStores(s, AddJob(id, schedule, saved), ticks);
  }

  lemma EnableKeepsOnce(s: State, id: string, enabled: bool, saved: bool, ticks: Ticks)
    requires OnceInv(s)
    ensures OnceInv(Next(s, EnableJob(id, enabled, saved), ticks))
  {
    StepKeepsStores(s, EnableJob(id, enabled, saved), ticks);
    var s' := Next(s, EnableJob(id, enabled, saved), ticks);
    forall e, i | s.running && 0 <= e < |s.execs| && 0 <= i < |s'.store|
      && s'.store[i].id == s.execs[e].jobId && OneTime(s, s'.store[i].id)
      ensures Spent(s'.store[i])
    {
      assert JobOk(s.store[i], s.added);
      RecomputeAfterClaim(s, e, s.store[i].schedule, ticks);
    }
  }

  lemma RemoveKeepsOnce(s: State, id: string, saved: bool, ticks: Ticks)
    requires OnceInv(s)
    ensures OnceInv(Next(s, RemoveJob(id, saved), ticks))
  {
    StepKeepsStores(s, RemoveJob(id, saved), ticks);
    SpentWithout(s, id);
  }

  lemma SpentWithout(s: State, id: string)
    requires SpentOk(s)
    ensures SpentOk(s.(store := Without(s.store, id)))
  {
    WithoutKeeps(s.store, id);
    var rest := Without(s.store, id);
    forall e, i | s.running && 0 <= e < |s.execs| && 0 <= i < |rest|
      && rest[i].id == s.execs[e].jobId && OneTime(s, rest[i].id)
      ensures Spent(rest[i])
    {
      assert rest[i] in rest;
      var k :| 0 <= k < |s.store| && s.store[k] == rest[i];
    }
  }

  lemma StartKeepsOnce(s: State, read: bool, saved: bool, ticks: Ticks)
    requires OnceInv(s)
    ensures OnceInv(Next(s, Start(read, saved), ticks))
  {
    StepKeepsStores(s, Start(read, saved), ticks);
    var s' := Next(s, Start(read, saved), ticks);
    if !s.running && read {
      forall e, i | 0 <= e < |s.execs| && 0 <= i < |s'.store|
        && s'.store[i].id == s.execs[e].jobId && OneTime(s, s'.store[i].id)
        ensures Spent(s'.store[i])
      {
        assert JobOk(s.disk[i], s.added);
        RecomputeAfterClaim(s, e, s.disk[i].schedule, ticks);
      }
    }
  }

  lemma CheckKeepsOnce(s: State, saved: bool, ticks: Ticks)
    requires OnceInv(s)
    ensures OnceInv(Next(s, CheckJobs(saved), ticks))
  {
    StepKeepsStores(s, CheckJobs(saved), ticks);
    if s.running {
      var ids, s' := DueIds(s.store, s.now), Next(s, CheckJobs(saved), ticks);
      DueIdsAreUnique(s.store, s.now);
      forall a | 0 <= a < |ids| ensures ids[a] in s.added
        && (OneTime(s, ids[a]) ==> s.added[ids[a]].atMS.Some? && s.added[ids[a]].atMS.value <= s.now)
        && (OneTime(s, ids[a]) ==> forall e :: 0 <= e < |s.execs| ==> s.execs[e].jobId != ids[a])
      {
        NewClaimIsFirst(s, ids[a]);
      }
      NewClaimsOk(s, ids, s');
      MarkedAreSpent(s, ids, s');
    }
  }

  lemma NewClaimIsFirst(s: State, id: string)
    requires OnceInv(s) && s.running && id in DueIds(s.store, s.now)
    ensures id in s.added
    ensures OneTime(s, id) ==> s.added[id].atMS.Some? && s.added[id].atMS.value <= s.now
    ensures OneTime(s, id) ==> forall e :: 0 <= e < |s.execs| ==> s.execs[e].jobId != id
  {
    DueIdsAreDue(s.store, s.now, id);
    var j :| j in s.store && j.id == id && Due(j, s.now);
    var i :| 0 <= i < |s.store| && s.store[i] == j;
    assert JobOk(s.store[i], s.added) && !Spent(s.store[i]);
  }

  lemma NewClaimsOk(s: State, ids: seq<string>, s': State)
    requires ClaimsOk(s) && CallsOk(s) && s'.added == s.added && s'.now == s.now && s'.calls == s.calls
    requires s'.execs == s.execs + ClaimAll(ids, s.now)
    requires forall a, b :: 0 <= a < b < |ids| ==> ids[a] != ids[b]
    requires forall a :: 0 <= a < |ids| ==>
      && ids[a] in s.added
      && (OneTime(s, ids[a]) ==> s.added[ids[a]].atMS.Some? && s.added[ids[a]].atMS.value <= s.now)
      && (OneTime(s, ids[a]) ==> forall e :: 0 <= e < |s.execs| ==> s.execs[e].jobId != ids[a])
    ensures ClaimsOk(s') && CallsOk(s')
  {
  }

  lemma MarkedAreSpent(s: State, ids: seq<string>, s': State)
    requires SpentOk(s) && s.running && s'.added == s.added && s'.store == Marked(s.store, ids)
    requires s'.execs == s.execs + ClaimAll(ids, s.now)
    ensures SpentOk(s')
  {
    forall e, i | 0 <= e < |s'.execs| && 0 <= i < |s'.store|
      && s'.store[i].id == s'.execs[e].jobId && OneTime(s, s'.store[i].id)
      ensures Spent(s'.store[i])
    {
      if e < |s.execs| {
        assert Spent(s.store[i]);
      } else {
        assert ids[e - |s.execs|] in ids;
      }
    }
  }

  /** Moving an execution on touches neither its job nor its claim. */
  lemma StageKeepsClaims(s: State, e: nat, stage: Stage, s': State)
    requires ClaimsOk(s) && e < |s.execs| && s'.added == s.added && s'.now == s.now
    requires s'.execs == SetStage(s.execs, e, stage)
    ensures ClaimsOk(s')
    ensures SpentOk(s) && s'.store == s.store && s'.running == s.running ==> SpentOk(s')
  {
    assert forall x :: 0 <= x < |s.execs| ==>
      s'.execs[x].jobId == s.execs[x].jobId && s'.execs[x].claimedAt == s.execs[x].claimedAt;
    forall x | 0 <= x < |s'.execs| ensures ClaimOk(s', s'.execs[x].jobId, s'.execs[x].claimedAt) {
      assert ClaimOk(s, s.execs[x].jobId, s.execs[x].claimedAt);
    }
  }

  lemma InvokeKeepsCalls(s: State, e: nat, s': State)
    requires CallsOk(s) && ClaimsOk(s) && e < |s.execs| && s.execs[e].stage.Claimed?
    requires s'.calls == s.calls + [Call(e, s.now)] && s'.execs == SetStage(s.execs, e, Invoked(s.now))
    ensures CallsOk(s')
  {
    assert ClaimOk(s, s.execs[e].jobId, s.execs[e].claimedAt);
  }

  lemma InvokeKeepsOnce(s: State, e: nat, ticks: Ticks)
    requires OnceInv(s) && Enabled(s, Invoke(e))
    ensures OnceInv(Next(s, Invoke(e), ticks))
  {
    var s' := Next(s, Invoke(e), ticks);
    StageKeepsClaims(s, e, s'.execs[e].stage, s');
    if HasJob(s.store, s.execs[e].jobId) { InvokeKeepsCalls(s, e, s'); }
  }

  /** A finished one-time job is gone or disabled. */
  lemma FinishedAreSpent(s: State, id: string, start: int, ok: bool, ticks: Ticks)
    requires StoresOk(s) && SpentOk(s)
    ensures SpentOk(s.(store := WithFinished(s.store, id, start, ok, s.now, ticks)))
  {
    if HasJob(s.store, id) {
      var j := s.store[IndexOf(s.store, id)];
      if j.schedule.kind == "at" && j.deleteAfterRun {
        SpentWithout(s, id);
      } else {
        assert JobOk(j, s.added);
      }
    }
  }

  lemma FinishKeepsOnce(s: State, e: nat, ok: bool, saved: bool, ticks: Ticks)
    requires OnceInv(s) && Enabled(s, Finish(e, ok, saved))
    ensures OnceInv(Next(s, Finish(e, ok, saved), ticks))
  {
    StepKeepsStores(s, Finish(e, ok, saved), ticks);
    var s', id, start := Next(s, Finish(e, ok, saved), ticks), s.execs[e].jobId, s.execs[e].stage.start;
    FinishedAreSpent(s, id, start, ok, ticks);
    var mid := s.(store := WithFinished(s.store, id, start, ok, s.now, ticks));
    StageKeepsClaims(mid, e, Done(s.now), s');
  }

  lemma StepKeepsOnce(s: State, step: Step, ticks: Ticks)
    requires OnceInv(s) && Enabled(s, step)
    ensures OnceInv(Next(s, step, ticks))
  {
    match step
    case AddJob(id, schedule, saved) => AddKeepsOnce(s, id, schedule, saved, ticks);
    case EnableJob(id, enabled, saved) => EnableKeepsOnce(s, id, enabled, saved, ticks);
    case RemoveJob(id, saved) => RemoveKeepsOnce(s, id, saved, ticks);
    case Start(read, saved) => StartKeepsOnce(s, read, saved, ticks);
    case CheckJobs(saved) => CheckKeepsOnce(s, saved, ticks);
    case Invoke(e) => InvokeKeepsOnce(s, e, ticks);
    case Finish(e, ok, saved) => FinishKeepsOnce(s, e, ok, saved, ticks);
    case Crash(_) => StepKeepsStores(s, step, ticks);
    case Tick(_) =>
    case Stop =>
  }

  lemma {:induction false} OnceAlways(states: seq<State>, steps: seq<Step>, ticks: Ticks, i: nat)
    requires Run(states, steps, ticks) && i < |states|
    ensures OnceInv(states[i])
  {
    if i > 0 {
      OnceAlways(states, steps, ticks, i - 1);
      assert StepAt(states, steps, ticks, i - 1);
      StepKeepsOnce(states[i - 1], steps[i - 1], ticks);
    }
  }

  /**
    Over any run, with failing saves, restarts during executions and crashes, the
    handler of a one-time job is called at most once and not before its time.
   */
  lemma OneTimeJobsRunOnce(states: seq<State>, steps: seq<Step>, ticks: Ticks, i: nat, c: nat)
    requires Run(states, steps, ticks) && i < |states| && c < |states[i].calls|
    requires states[i].calls[c].exec < |states[i].execs|
    requires OneTime(states[i], states[i].execs[states[i].calls[c].exec].jobId)
    ensures var s, id := states[i], states[i].execs[states[i].calls[c].exec].jobId;
            && s.added[id].atMS.Some? && s.added[id].atMS.value <= s.calls[c].at
            && forall d :: 0 <= d < |s.calls| && s.calls[d].exec < |s.execs| && s.execs[s.calls[d].exec].jobId == id ==> d == c
  {
    OnceAlways(states, steps, ticks, i);
  }

  lemma StoresAlways(states: seq<State>, steps: seq<Step>, ticks: Ticks, i: nat)
    requires Run(states, steps, ticks) && i < |states|
    ensures StoresOk(states[i])
  {
    OnceAlways(states, steps, ticks, i);
  }

  // ---- A one-time job that is missed stays missed ----

  /** The job's time has passed, and while the scheduler runs it has no next run. */
  ghost predicate Missed(s: State, id: string) {
    && OneTime(s, id) && (s.added[id].atMS.Some? ==> s.added[id].atMS.value <= s.now)
    && (s.running ==> NoneNext(s.store, id))
  }

  ghost predicate NoneNext(jobs: seq<Job>, id: string) {
    forall i :: 0 <= i < |jobs| && jobs[i].id == id ==> jobs[i].nextRun == None
  }

  lemma {:induction false} NotDueWithout(jobs: seq<Job>, id: string, now: int)
    requires NoneNext(jobs, id)
    ensures id !in DueIds(jobs, now)
  {
    if jobs != [] {
      forall i | 0 <= i < |jobs| - 1 && jobs[1..][i].id == id ensures jobs[1..][i].nextRun == None {
        assert jobs[i + 1].nextRun == None;
      }
      NotDueWithout(jobs[1..], id, now);
    }
  }

  lemma StartKeepsMissed(s: State, id: string, ticks: Ticks)
    requires StoresOk(s) && Missed(s, id)
    ensures NoneNext(Recomputed(Recovered(s.disk), s.now, ticks), id)
  {
    var jobs := Recomputed(Recovered(s.disk), s.now, ticks);
    forall i | 0 <= i < |jobs| && jobs[i].id == id ensures jobs[i].nextRun == None {
      assert JobOk(s.disk[i], s.added);
    }
  }

  lemma FinishKeepsMissed(s: State, id: string, done: string, start: int, ok: bool, ticks: Ticks)
    requires StoresOk(s) && Missed(s, id) && NoneNext(s.store, id)
    ensures NoneNext(WithFinished(s.store, done, start, ok, s.now, ticks), id)
  {
    WithoutKeepsMissed(s.store, id, done);
    if HasJob(s.store, done) { assert JobOk(s.store[IndexOf(s.store, done)], s.added); }
  }

  lemma WithoutKeepsMissed(jobs: seq<Job>, id: string, gone: string)
    requires NoneNext(jobs, id)
    ensures NoneNext(Without(jobs, gone), id)
  {
    WithoutKeeps(jobs, gone);
    var rest := Without(jobs, gone);
    forall i | 0 <= i < |rest| && rest[i].id == id ensures rest[i].nextRun == None {
      assert rest[i] in rest;
      var k :| 0 <= k < |jobs| && jobs[k] == rest[i];
    }
  }

  lemma EnableKeepsMissed(s: State, id: string, which: string, enabled: bool, ticks: Ticks)
    requires StoresOk(s) && Missed(s, id) && NoneNext(s.store, id)
    ensures NoneNext(WithEnabled(s.store, which, enabled, s.now, ticks), id)
  {
    if HasJob(s.store, which) { assert JobOk(s.store[IndexOf(s.store, which)], s.added); }
  }

  lemma StepKeepsMissed(s: State, step: Step, ticks: Ticks, id: string)
    requires StoresOk(s) && Missed(s, id) && Enabled(s, step)
    ensures Missed(Next(s, step, ticks), id)
    ensures var s' := Next(s, step, ticks);
            |s.execs| <= |s'.execs| && forall e :: 0 <= e < |s'.execs| && s'.execs[e].jobId == id ==> e < |s.execs|
  {
    if s.running {
      match step
      case EnableJob(which, enabled, _) => EnableKeepsMissed(s, id, which, enabled, ticks);
      case RemoveJob(gone, _) => WithoutKeepsMissed(s.store, id, gone);
      case CheckJobs(_) =>
        NotDueWithout(s.store, id, s.now);
        var ids := DueIds(s.store, s.now);
        assert forall a :: 0 <= a < |ids| ==> ids[a] in ids;
      case Finish(e, ok, _) => FinishKeepsMissed(s, id, s.execs[e].jobId, s.execs[e].stage.start, ok, ticks);
      case _ =>
    } else if step.Start? {
      StartKeepsMissed(s, id, ticks);
    }
  }

  lemma {:induction false} MissedStaysMissed(states: seq<State>, steps: seq<Step>, ticks: Ticks, i: nat, j: nat, id: string)
    requires Run(states, steps, ticks) && i <= j < |states| && Missed(states[i], id)
    ensures Missed(states[j], id) && |states[i].execs| <= |states[j].execs|
    ensures forall e :: 0 <= e < |states[j].execs| && states[j].execs[e].jobId == id ==> e < |states[i].execs|
  {
    if i < j {
      MissedStaysMissed(states, steps, ticks, i, j - 1, id);
      StoresAlways(states, steps, ticks, j - 1);
      assert StepAt(states, steps, ticks, j - 1);
      StepKeepsMissed(states[j - 1], steps[j - 1], ticks, id);
    }
  }

  /**
    A one-time job whose time comes while the scheduler is stopped is never
    claimed again, in any continuation: neither an interrupted one nor one that
    was simply missed, although reloading means to have it executed.
   */
  lemma MissedJobsNeverRun(states: seq<State>, steps: seq<Step>, ticks: Ticks, i: nat, j: nat, id: string)
    requires Run(states, steps, ticks) && i <= j < |states| && !states[i].running && OneTime(states[i], id)
    requires states[i].added[id].atMS.Some? ==> states[i].added[id].atMS.value <= states[i].now
    ensures Missed(states[j], id) && |states[i].execs| <= |states[j].execs|
    ensures forall e :: 0 <= e < |states[j].execs| && states[j].execs[e].jobId == id ==> e < |states[i].execs|
  {
    MissedStaysMissed(states, steps, ticks, i, j, id);
  }

  lemma Extend(states: seq<State>, steps: seq<Step>, ticks: Ticks, s: State, step: Step, s': State)
    returns (states': seq<State>, steps': seq<Step>)
    requires Run(states, steps, ticks) && s == states[|steps|] && Enabled(s, step) && s' == Next(s, step, ticks)
    ensures Run(states', steps', ticks) && s' == states'[|steps'|] && steps' == steps + [step]
  {
    states', steps' := states + [s'], steps + [step];
    forall i | 0 <= i < |steps'| ensures StepAt(states', steps', ticks, i) {
      if i < |steps| { assert StepAt(states, steps, ticks, i); }
    }
  }

  lemma OneDue(j: Job, now: int)
    ensures DueIds([j], now) == (if Due(j, now) then [j.id] else [])
    ensures Marked([j], DueIds([j], now)) == [if Due(j, now) then j.(status := Running) else j]
  {
    assert [j][1..] == [] && DueIds([], now) == [];
  }

  /** A job is added, claimed at its first time and called; then the process dies, and after the restart it waits. */
  lemma ClaimedThenLost(schedule: Schedule, at: nat, wait: nat, ticks: Ticks)
    returns (states: seq<State>, steps: seq<Step>, s: State)
    requires NextRun(schedule, 0, ticks) == Some(at)
    requires var next := NextRun(schedule, at, ticks); next.None? || at + wait < next.value
    ensures Run(states, steps, ticks) && s == states[|steps|] && s.running && s.now == at + wait
    ensures |s.store| == 1 && s.store[0].id == "j" && s.store[0].enabled && s.store[0].schedule == schedule
    ensures s.store[0].nextRun == NextRun(schedule, at, ticks)
    ensures s.execs == [Exec("j", at, Lost)] && s.calls == [Call(0, at)] && steps[|steps| - 1] == CheckJobs(true)
  {
    var added: map<string, Schedule> := map["j" := schedule];
    var job := NewJob("j", schedule, 0, ticks);
    s := INIT;
    states, steps := [s], [];
    var s1 := State([job], [job], false, 0, added, [], []);
    states, steps := Extend(states, steps, ticks, s, AddJob("j", schedule, true), s1);
    var s2 := s1.(running := true);
    assert Recomputed(Recovered([job]), 0, ticks) == [job];
    states, steps := Extend(states, steps, ticks, s1, Start(true, true), s2);
    var s3 := s2.(now := at);
    states, steps := Extend(states, steps, ticks, s2, Tick(at), s3);
    var busy := job.(status := Running);
    OneDue(job, at);
    var s4 := State([busy], [busy], true, at, added, [Exec("j", at, Claimed)], []);
    assert ClaimAll(["j"], at) == [Exec("j", at, Claimed)];
    states, steps := Extend(states, steps, ticks, s3, CheckJobs(true), s4);
    var s5;
    states, steps, s5 := Crashed(states, steps, ticks, s4, busy);
    states, steps, s := Restarted(states, steps, ticks, s5, busy, wait);
  }

  /** The handler of the claimed job is called, and then the process dies. */
  lemma Crashed(states: seq<State>, steps: seq<Step>, ticks: Ticks, s: State, busy: Job)
    returns (states': seq<State>, steps': seq<Step>, end: State)
    requires Run(states, steps, ticks) && s == states[|steps|] && s.calls == []
    requires s.store == s.disk == [busy] && s.execs == [Exec("j", s.now, Claimed)]
    requires busy.id == "j" && busy.status == Running
    ensures Run(states', steps', ticks) && end == states'[|steps'|]
    ensures end == s.(store := [busy.(status := Interrupted)], running := false,
                      execs := [Exec("j", s.now, Lost)], calls := [Call(0, s.now)])
  {
    var invoked := s.(execs := [Exec("j", s.now, Invoked(s.now))], calls := [Call(0, s.now)]);
    states', steps' := Extend(states, steps, ticks, s, Invoke(0), invoked);
    end := invoked.(store := [busy.(status := Interrupted)], running := false, execs := [Exec("j", s.now, Lost)]);
    assert Recovered([busy]) == [busy.(status := Interrupted)];
    states', steps' := Extend(states', steps', ticks, invoked, Crash(true), end);
  }

  /** The scheduler starts with one interrupted job, and a check finds it not due. */
  lemma Restarted(states: seq<State>, steps: seq<Step>, ticks: Ticks, s: State, busy: Job, wait: nat)
    returns (states': seq<State>, steps': seq<Step>, end: State)
    requires Run(states, steps, ticks) && s == states[|steps|] && !s.running
    requires s.disk == [busy] && busy.enabled && busy.status == Running
    requires var next := NextRun(busy.schedule, s.now, ticks); next.None? || s.now + wait < next.value
    ensures Run(states', steps', ticks) && end == states'[|steps'|] && end.running && end.now == s.now + wait
    ensures end.store == [busy.(status := Interrupted, nextRun := NextRun(busy.schedule, s.now, ticks))]
    ensures end.execs == s.execs && end.calls == s.calls && steps'[|steps'| - 1] == CheckJobs(true)
  {
    var idle := busy.(status := Interrupted, nextRun := NextRun(busy.schedule, s.now, ticks));
    var started := s.(store := [idle], disk := [idle], running := true);
    assert Recovered([busy]) == [busy.(status := Interrupted)];
    assert Recomputed([busy.(status := Interrupted)], s.now, ticks) == [idle];
    states', steps' := Extend(states, steps, ticks, s, Start(true, true), started);
    end := started.(now := s.now + wait);
    states', steps' := Extend(states', steps', ticks, started, Tick(wait), end);
    OneDue(idle, end.now);
    assert s.execs + ClaimAll([], end.now) == s.execs;
    states', steps' := Extend(states', steps', ticks, end, CheckJobs(true), end);
    assert steps'[|steps'| - 1] == CheckJobs(true);
  }

  /** A one-time job that was interrupted by a crash: enabled, long past its time, and not claimed again. */
  lemma InterruptedWitness(ticks: Ticks) returns (states: seq<State>, steps: seq<Step>, s: State)
    ensures Run(states, steps, ticks) && s == states[|steps|] && s.running && s.calls == [Call(0, 10)]
    ensures |s.store| == 1 && s.store[0].enabled && s.store[0].schedule.atMS == Some(10) && s.store[0].nextRun == None
    ensures s.execs == [Exec("j", 10, Lost)] && s.now == 1000 && steps[|steps| - 1] == CheckJobs(true)
  {
    states, steps, s := ClaimedThenLost(Schedule("at", Some(10), None, ""), 10, 990, ticks);
  }

  /** A job of every 100 ms that was interrupted by a crash, with the restart at once: still not claimed 99 ms later. */
  lemma RepeatWaitsWitness(ticks: Ticks) returns (states: seq<State>, steps: seq<Step>, s: State)
    ensures Run(states, steps, ticks) && s == states[|steps|] && s.running && s.calls == [Call(0, 100)]
    ensures |s.store| == 1 && s.store[0].enabled && s.store[0].schedule.everyMS == Some(100) && s.store[0].nextRun == Some(200)
    ensures s.execs == [Exec("j", 100, Lost)] && s.now == 199 && steps[|steps| - 1] == CheckJobs(true)
  {
    states, steps, s := ClaimedThenLost(Schedule("every", None, Some(100), ""), 100, 99, ticks);
  }

  // ---- A one-time job that is ahead is claimed ----

  ghost predicate ClaimedSince(s: State, from: nat, id: string) {
    exists e :: from <= e < |s.execs| && s.execs[e].jobId == id
  }

  /** The job has been claimed only before a given execution, and all of that is over. */
  ghost predicate Quiet(s: State, from: nat, id: string) {
    forall e :: 0 <= e < |s.execs| && s.execs[e].jobId == id ==> e < from && !s.execs[e].InFlight()
  }

  ghost predicate Unclaimed(s: State, id: string) { forall e :: 0 <= e < |s.execs| ==> s.execs[e].jobId != id }

  /** The job is enabled, idle and due at a given time, or never. */
  predicate Awaits(j: Job, id: string, at: Option<int>) {
    j.id == id && j.enabled && j.nextRun == at && j.status != Running
  }

  ghost predicate AwaitsTime(jobs: seq<Job>, id: string, at: Option<int>) {
    exists i :: 0 <= i < |jobs| && Awaits(jobs[i], id, at)
  }

  predicate Touches(step: Step, id: string) {
    (step.EnableJob? && step.id == id) || (step.RemoveJob? && step.id == id)
  }

  /** The scheduler is not stopped, and the job neither switched nor removed. */
  predicate Undisturbed(step: Step, id: string) { !step.Stop? && !step.Crash? && !Touches(step, id) }

  predicate Reaches(s: State, step: Step, at: Option<int>) { step.CheckJobs? && at.Some? && at.value <= s.now }

  lemma {:induction false} DueIsListed(jobs: seq<Job>, now: int, k: nat)
    requires k < |jobs| && Due(jobs[k], now)
    ensures jobs[k].id in DueIds(jobs, now)
  {
    if k > 0 { DueIsListed(jobs[1..], now, k - 1); }
  }

  lemma {:induction false} IdleIsNotListed(jobs: seq<Job>, now: int, k: nat)
    requires k < |jobs| && Unique(jobs) && !Due(jobs[k], now)
    ensures jobs[k].id !in DueIds(jobs, now)
  {
    if k > 0 {
      IdleIsNotListed(jobs[1..], now, k - 1);
    } else {
      NotListed(jobs[1..], now, jobs[0].id);
    }
  }

  lemma {:induction false} NotListed(jobs: seq<Job>, now: int, id: string)
    requires forall i :: 0 <= i < |jobs| ==> jobs[i].id != id
    ensures id !in DueIds(jobs, now)
  {
    if jobs != [] { NotListed(jobs[1..], now, id); }
  }

  lemma MarkKeepsAwaiting(jobs: seq<Job>, id: string, at: Option<int>, now: int)
    requires AwaitsTime(jobs, id, at) && Unique(jobs) && (at.Some? ==> now < at.value)
    ensures id !in DueIds(jobs, now) && AwaitsTime(Marked(jobs, DueIds(jobs, now)), id, at)
  {
    var i :| 0 <= i < |jobs| && Awaits(jobs[i], id, at);
    IdleIsNotListed(jobs, now, i);
    assert Marked(jobs, DueIds(jobs, now))[i] == jobs[i];
  }

  lemma WithoutKeepsAwaiting(jobs: seq<Job>, id: string, at: Option<int>, gone: string)
    requires AwaitsTime(jobs, id, at) && gone != id
    ensures AwaitsTime(Without(jobs, gone), id, at)
  {
    var i :| 0 <= i < |jobs| && Awaits(jobs[i], id, at);
    WithoutKeeps(jobs, gone);
    assert jobs[i] in Without(jobs, gone);
    var k :| 0 <= k < |Without(jobs, gone)| && Without(jobs, gone)[k] == jobs[i];
  }

  lemma UpdateKeepsAwaiting(jobs: seq<Job>, id: string, at: Option<int>, other: string, j: Job)
    requires AwaitsTime(jobs, id, at) && other != id && HasJob(jobs, other)
    ensures AwaitsTime(jobs[IndexOf(jobs, other) := j], id, at)
  {
    var i :| 0 <= i < |jobs| && Awaits(jobs[i], id, at);
    assert jobs[IndexOf(jobs, other) := j][i] == jobs[i];
  }

  lemma FinishKeepsAwaiting(s: State, id: string, at: Option<int>, done: string, start: int, ok: bool, ticks: Ticks)
    requires AwaitsTime(s.store, id, at) && done != id
    ensures AwaitsTime(WithFinished(s.store, done, start, ok, s.now, ticks), id, at)
  {
    if HasJob(s.store, done) {
      var j := s.store[IndexOf(s.store, done)];
      if j.schedule.kind == "at" && j.deleteAfterRun { WithoutKeepsAwaiting(s.store, id, at, done); }
      else { UpdateKeepsAwaiting(s.store, id, at, done, FinishedJob(j, start, ok, s.now, ticks)); }
    }
  }

  lemma ClaimKeepsQuiet(s: State, ids: seq<string>, from: nat, id: string, s': State)
    requires Quiet(s, from, id) && id !in ids && s'.execs == s.execs + ClaimAll(ids, s.now)
    ensures Quiet(s', from, id)
  {
    assert forall a :: 0 <= a < |ids| ==> ids[a] in ids;
  }

  lemma StepKeepsAwaiting(s: State, step: Step, ticks: Ticks, id: string, at: Option<int>, from: nat)
    requires StoresOk(s) && s.running && AwaitsTime(s.store, id, at) && Quiet(s, from, id)
    requires Enabled(s, step) && Undisturbed(step, id) && !Reaches(s, step, at)
    ensures var s' := Next(s, step, ticks); s'.running && AwaitsTime(s'.store, id, at) && Quiet(s', from, id)
  {
    match step
    case AddJob(_, _, _) => assert forall i :: 0 <= i < |s.store| ==> Next(s, step, ticks).store[i] == s.store[i];
    case EnableJob(which, enabled, _) =>
      if HasJob(s.store, which) {
        UpdateKeepsAwaiting(s.store, id, at, which, EnabledJob(s.store[IndexOf(s.store, which)], enabled, s.now, ticks));
      }
    case RemoveJob(gone, _) => WithoutKeepsAwaiting(s.store, id, at, gone);
    case CheckJobs(_) =>
      MarkKeepsAwaiting(s.store, id, at, s.now);
      ClaimKeepsQuiet(s, DueIds(s.store, s.now), from, id, Next(s, step, ticks));
    case Finish(e, ok, _) => FinishKeepsAwaiting(s, id, at, s.execs[e].jobId, s.execs[e].stage.start, ok, ticks);
    case _ =>
  }

  /** The first check at or after its time claims the job. */
  lemma CheckClaims(s: State, saved: bool, ticks: Ticks, id: string, at: int, from: nat)
    requires s.running && AwaitsTime(s.store, id, Some(at)) && at <= s.now && from <= |s.execs|
    ensures ClaimedSince(Next(s, CheckJobs(saved), ticks), from, id)
  {
    var i :| 0 <= i < |s.store| && Awaits(s.store[i], id, Some(at));
    var ids, s' := DueIds(s.store, s.now), Next(s, CheckJobs(saved), ticks);
    DueIsListed(s.store, s.now, i);
    var a :| 0 <= a < |ids| && ids[a] == id;
    assert s'.execs[|s.execs| + a].jobId == id;
  }

  lemma StepKeepsClaimed(s: State, step: Step, ticks: Ticks, id: string, from: nat)
    requires ClaimedSince(s, from, id) && Enabled(s, step)
    ensures ClaimedSince(Next(s, step, ticks), from, id)
  {
    var e :| from <= e < |s.execs| && s.execs[e].jobId == id;
    assert Next(s, step, ticks).execs[e].jobId == id;
  }

  // A job marked running has an execution in flight.

  ghost predicate MarksOk(s: State) {
    forall i :: 0 <= i < |s.store| && s.store[i].status == Running ==> Busy(s.execs, s.store[i].id)
  }

  lemma StepKeepsMarks(s: State, step: Step, ticks: Ticks, s': State)
    requires StoresOk(s) && MarksOk(s) && Enabled(s, step) && s' == Next(s, step, ticks)
    ensures MarksOk(s')
  {
    forall i | 0 <= i < |s'.store| && s'.store[i].status == Running ensures Busy(s'.execs, s'.store[i].id) {
      var id := s'.store[i].id;
      MarkedOrBefore(s, step, ticks, s', i);
      if step.CheckJobs? && s.running && id in DueIds(s.store, s.now) {
        var a :| 0 <= a < |DueIds(s.store, s.now)| && DueIds(s.store, s.now)[a] == id;
        assert s'.execs[|s.execs| + a] == Exec(id, s.now, Claimed);
      } else {
        var k :| 0 <= k < |s.store| && s.store[k].id == id && s.store[k].status == Running;
        FoundIfPresent(s.store, k);
        StaysBusy(s, step, ticks, s', id);
      }
    }
  }

  lemma EnableKeepsMarks(jobs: seq<Job>, which: string, enabled: bool, now: int, ticks: Ticks, i: nat)
    requires i < |jobs|
    ensures var j := WithEnabled(jobs, which, enabled, now, ticks)[i]; jobs[i].id == j.id && jobs[i].status == j.status
  {
  }

  lemma RecoveredAreIdle(jobs: seq<Job>, now: int, ticks: Ticks)
    ensures forall i :: 0 <= i < |jobs| ==> Recovered(jobs)[i].status != Running
    ensures forall i :: 0 <= i < |jobs| ==> Recomputed(Recovered(jobs), now, ticks)[i].status != Running
  {
  }

  /** A job marked running after a step was marked before it and not finished by it, or is claimed by it. */
  lemma MarkedOrBefore(s: State, step: Step, ticks: Ticks, s': State, i: nat)
    requires StoresOk(s) && Enabled(s, step) && s' == Next(s, step, ticks) && i < |s'.store| && s'.store[i].status == Running
    ensures !step.Crash? && !(step.Finish? && s.execs[step.e].jobId == s'.store[i].id)
    ensures (step.CheckJobs? && s.running && s'.store[i].id in DueIds(s.store, s.now))
         || exists k :: 0 <= k < |s.store| && s.store[k].id == s'.store[i].id && s.store[k].status == Running
  {
    match step
    case RemoveJob(gone, _) => WithoutKeepsMarks(s.store, gone, i);
    case Finish(e, ok, _) => FinishKeepsMarks(s.store, s.execs[e].jobId, s.execs[e].stage.start, ok, s.now, ticks, i);
    case EnableJob(which, enabled, _) => EnableKeepsMarks(s.store, which, enabled, s.now, ticks, i);
    case CheckJobs(_) => if s.running { assert s'.store[i] == MarkJob(s.store[i], DueIds(s.store, s.now)); }
    case Start(read, _) => if !s.running { RecoveredAreIdle(s.disk, s.now, ticks); }
    case Crash(_) => RecoveredAreIdle(s.disk, s.now, ticks);
    case _ => assert s.store[i] == s'.store[i];
  }

  /** An execution of a stored job stays in flight until the job is finished or the process dies. */
  lemma StaysBusy(s: State, step: Step, ticks: Ticks, s': State, id: string)
    requires Enabled(s, step) && s' == Next(s, step, ticks) && Busy(s.execs, id) && HasJob(s.store, id)
    requires !step.Crash? && !(step.Finish? && s.execs[step.e].jobId == id)
    ensures Busy(s'.execs, id)
  {
    var e :| 0 <= e < |s.execs| && s.execs[e].jobId == id && s.execs[e].InFlight();
    assert s'.execs[e].jobId == id && s'.execs[e].InFlight();
  }

  lemma WithoutKeepsMarks(jobs: seq<Job>, id: string, i: nat)
    requires i < |Without(jobs, id)|
    ensures exists k :: 0 <= k < |jobs| && jobs[k] == Without(jobs, id)[i] && jobs[k].id != id
  {
    WithoutKeeps(jobs, id);
    assert Without(jobs, id)[i] in Without(jobs, id);
  }

  lemma FinishKeepsMarks(jobs: seq<Job>, id: string, start: int, ok: bool, now: int, ticks: Ticks, i: nat)
    requires Unique(jobs)
    requires var after := WithFinished(jobs, id, start, ok, now, ticks); i < |after| && after[i].status == Running
    ensures exists k :: 0 <= k < |jobs| && jobs[k] == WithFinished(jobs, id, start, ok, now, ticks)[i] && jobs[k].id != id
  {
    var after := WithFinished(jobs, id, start, ok, now, ticks);
    if after == Without(jobs, id) {
      WithoutKeepsMarks(jobs, id, i);
    } else {
      assert jobs[i] == after[i];
      if jobs[i].id == id {
        FoundIfPresent(jobs, i);
        FirstAt(jobs, id, i);
        assert false;
      }
    }
  }

  lemma {:induction false} MarksAlways(states: seq<State>, steps: seq<Step>, ticks: Ticks, i: nat)
    requires Run(states, steps, ticks) && i < |states|
    ensures MarksOk(states[i])
  {
    if i > 0 {
      MarksAlways(states, steps, ticks, i - 1);
      StoresAlways(states, steps, ticks, i - 1);
      assert StepAt(states, steps, ticks, i - 1);
      StepKeepsMarks(states[i - 1], steps[i - 1], ticks, states[i]);
    }
  }

  // The steps after which a running scheduler knows the job's time.

  /** A successful start, or adding or enabling the job while the scheduler runs. */
  predicate Schedules(s: State, step: Step, id: string) {
    || (step == Start(true, true) && !s.running)
    || (s.running && step.AddJob? && step.id == id)
    || (s.running && step.EnableJob? && step.id == id && step.enabled)
  }

  ghost predicate ReadyAt(s: State, id: string, n: nat) {
    OneTime(s, id) && n < |s.store| && s.store[n].id == id && s.store[n].enabled
  }

  /** Such a step gives an enabled one-time job its time as next run exactly when that lies ahead. */
  lemma SchedulesIffAhead(s: State, step: Step, ticks: Ticks, id: string, s': State, n: nat)
    requires OnceInv(s) && MarksOk(s) && Enabled(s, step) && Schedules(s, step, id)
    requires s' == Next(s, step, ticks) && ReadyAt(s', id, n)
    ensures var at, b := s'.added[id].atMS, s'.store[n];
            && (b.nextRun.Some? <==> at.Some? && at.value > s.now)
            && (b.nextRun.Some? ==> b.nextRun == at && b.status != Running && Unclaimed(s, id))
  {
    StepKeepsStores(s, step, ticks);
    assert JobOk(s'.store[n], s'.added);
    if step.Start? {
      assert JobOk(s.disk[n], s.added);
    } else if step.AddJob? {
      assert n == |s.store|;
    } else {
      FirstAt(s.store, id, n);
      assert s'.store[n] == EnabledJob(s.store[n], true, s.now, ticks);
    }
    if s'.store[n].nextRun.Some? { AheadIsUnclaimed(s, id, s'.added); }
  }

  /** A job that lies ahead was never claimed. */
  lemma AheadIsUnclaimed(s: State, id: string, added: map<string, Schedule>)
    requires ClaimsOk(s) && id in added && added[id].kind == "at"
    requires added[id].atMS.Some? && added[id].atMS.value > s.now
    requires id in s.added ==> s.added[id] == added[id]
    ensures Unclaimed(s, id)
  {
    forall e | 0 <= e < |s.execs| ensures s.execs[e].jobId != id {
      assert ClaimOk(s, s.execs[e].jobId, s.execs[e].claimedAt);
    }
  }

  /** An enabled one-time job is in the store. */
  ghost predicate Ready(s: State, id: string) { exists n :: ReadyAt(s, id, n) }

  lemma ScheduledOrMissed(s: State, step: Step, ticks: Ticks, id: string, s': State)
    requires OnceInv(s) && MarksOk(s) && Enabled(s, step) && Schedules(s, step, id)
    requires s' == Next(s, step, ticks) && Ready(s', id)
    ensures s'.running && s'.now == s.now && s'.execs == s.execs
    ensures var at := s'.added[id].atMS;
            if at.Some? && at.value > s.now then AheadOk(s', false, |s.execs|, id, at) else Missed(s', id)
  {
    var n :| ReadyAt(s', id, n);
    SchedulesIffAhead(s, step, ticks, id, s', n);
    StepKeepsStores(s, step, ticks);
    assert forall i :: 0 <= i < |s'.store| && s'.store[i].id == id ==> i == n;
  }

  /** The job's time lies after step i, and some check up to step j has come at or after it. */
  ghost predicate TimeCame(states: seq<State>, steps: seq<Step>, i: nat, j: nat, id: string)
    requires i < j < |states| && |states| == |steps| + 1 && id in states[i + 1].added
  {
    var at := states[i + 1].added[id].atMS;
    at.Some? && at.value > states[i].now && exists k :: i < k < j && Reaches(states[k], steps[k], at)
  }

  /**
    From a successful start on, or from the moment it is added or enabled while
    the scheduler runs, and while the scheduler is not stopped and the job neither
    switched nor removed: an enabled one-time job is claimed exactly when its time
    lay ahead then and a check has come at or after it.
   */
  lemma OneTimeJobsRunIff(states: seq<State>, steps: seq<Step>, ticks: Ticks, i: nat, j: nat, id: string)
    requires Run(states, steps, ticks) && i < j < |states|
    requires Schedules(states[i], steps[i], id) && Ready(states[i + 1], id)
    requires forall k :: i < k < j ==> Undisturbed(steps[k], id)
    ensures ClaimedSince(states[j], |states[i].execs|, id) <==> TimeCame(states, steps, i, j, id)
  {
    OnceAlways(states, steps, ticks, i);
    MarksAlways(states, steps, ticks, i);
    assert StepAt(states, steps, ticks, i);
    var s, s' := states[i], states[i + 1];
    ScheduledOrMissed(s, steps[i], ticks, id, s');
    var at := s'.added[id].atMS;
    if at.Some? && at.value > s.now {
      AheadAlways(states, steps, ticks, i, j, |s.execs|, id, at);
      CheckCameIff(states, steps, i, j, at);
    } else {
      MissedStaysMissed(states, steps, ticks, i + 1, j, id);
    }
  }

  /** Some check between two steps of a run came at or after a time. */
  ghost predicate CheckCame(states: seq<State>, steps: seq<Step>, i: nat, j: nat, at: Option<int>)
    requires i < j < |states| && |states| == |steps| + 1
  {
    j > i + 1 && (CheckCame(states, steps, i, j - 1, at) || Reaches(states[j - 1], steps[j - 1], at))
  }

  lemma {:induction false} CheckCameIff(states: seq<State>, steps: seq<Step>, i: nat, j: nat, at: Option<int>)
    requires i < j < |states| && |states| == |steps| + 1
    ensures CheckCame(states, steps, i, j, at) <==> exists k :: i < k < j && Reaches(states[k], steps[k], at)
  {
    if j > i + 1 { CheckCameIff(states, steps, i, j - 1, at); }
  }

  /** What holds of a job that lay ahead when it was scheduled, before and after the check that claims it. */
  ghost predicate AheadOk(s: State, came: bool, from: nat, id: string, at: Option<int>) {
    && from <= |s.execs|
    && (if came then ClaimedSince(s, from, id) else s.running && AwaitsTime(s.store, id, at) && Quiet(s, from, id))
  }

  lemma StepKeepsAhead(s: State, step: Step, ticks: Ticks, came: bool, from: nat, id: string, at: Option<int>,
                       s': State)
    requires StoresOk(s) && AheadOk(s, came, from, id, at) && Enabled(s, step) && Undisturbed(step, id)
    requires s' == Next(s, step, ticks)
    ensures AheadOk(s', came || Reaches(s, step, at), from, id, at)
  {
    ExecsKeepClaims(s, step, ticks);
    if came {
      StepKeepsClaimed(s, step, ticks, id, from);
    } else if Reaches(s, step, at) {
      CheckClaims(s, step.saved, ticks, id, at.value, from);
    } else {
      StepKeepsAwaiting(s, step, ticks, id, at, from);
    }
  }

  lemma {:induction false} AheadAlways(states: seq<State>, steps: seq<Step>, ticks: Ticks, i: nat, j: nat, from: nat, id: string, at: Option<int>)
    requires Run(states, steps, ticks) && i < j < |states| && AheadOk(states[i + 1], false, from, id, at)
    requires forall k :: i < k < j ==> Undisturbed(steps[k], id)
    ensures AheadOk(states[j], CheckCame(states, steps, i, j, at), from, id, at)
  {
    if j > i + 1 {
      AheadAlways(states, steps, ticks, i, j - 1, from, id, at);
      StoresAlways(states, steps, ticks, j - 1);
      assert StepAt(states, steps, ticks, j - 1);
      var s, step, s' := states[j - 1], steps[j - 1], states[j];
      var came := CheckCame(states, steps, i, j - 1, at);
      assert CheckCame(states, steps, i, j, at) == (came || Reaches(s, step, at));
      StepKeepsAhead(s, step, ticks, came, from, id, at, s');
    }
  }

  // ---- Every scheduled job runs when its time comes ----

  /** One of these steps, or the end of an execution of the job while the scheduler runs. */
  predicate Reschedules(s: State, step: Step, id: string) {
    Schedules(s, step, id) || (s.running && step.Finish? && step.e < |s.execs| && s.execs[step.e].jobId == id)
  }

  /** Each of them gives an enabled job the next run that its schedule has from now. */
  lemma ReschedulesFromNow(s: State, step: Step, ticks: Ticks, id: string, s': State, n: nat)
    requires StoresOk(s) && Enabled(s, step) && Reschedules(s, step, id) && s' == Next(s, step, ticks)
    requires n < |s'.store| && s'.store[n].id == id && s'.store[n].enabled
    ensures id in s'.added && s'.running && s'.now == s.now && |s'.execs| == |s.execs|
    ensures s'.store[n].nextRun == NextRun(s'.added[id], s.now, ticks)
  {
    StepKeepsStores(s, step, ticks);
    assert JobOk(s'.store[n], s'.added);
    match step
    case Start(_, _) => assert JobOk(s.disk[n], s.added);
    case AddJob(_, _, _) => assert n == |s.store|;
    case EnableJob(_, _, _) => FirstAt(s.store, id, n);
    case Finish(e, ok, _) => FinishedFromNow(s.store, id, s.execs[e].stage.start, ok, s.now, ticks, n);
  }

  lemma NotAmong(jobs: seq<Job>, id: string, n: nat)
    requires n < |Without(jobs, id)|
    ensures Without(jobs, id)[n].id != id
  {
    WithoutKeeps(jobs, id);
    assert Without(jobs, id)[n] in Without(jobs, id);
  }

  lemma FinishedFromNow(jobs: seq<Job>, id: string, start: int, ok: bool, now: int, ticks: Ticks, n: nat)
    requires Unique(jobs)
    requires var after := WithFinished(jobs, id, start, ok, now, ticks); n < |after| && after[n].id == id && after[n].enabled
    ensures var j := WithFinished(jobs, id, start, ok, now, ticks)[n]; j.nextRun == NextRun(j.schedule, now, ticks)
  {
    var after := WithFinished(jobs, id, start, ok, now, ticks);
    if HasJob(jobs, id) {
      if after == Without(jobs, id) {
        NotAmong(jobs, id, n);
      } else {
        FirstAt(jobs, id, n);
      }
    } else {
      FoundIfPresent(jobs, n);
    }
  }

  /** Some check after step i and up to step j comes at or after a time. */
  ghost predicate CheckedAt(states: seq<State>, steps: seq<Step>, i: nat, j: nat, at: int)
    requires i < j < |states| && |states| == |steps| + 1
  {
    exists k :: i < k < j && Reaches(states[k], steps[k], Some(at))
  }

  /**
    From the moment a job is scheduled, by a start, by adding or enabling it or at
    the end of its execution, with no execution of it in flight, and while the
    scheduler is not stopped and the job neither switched nor removed: a job of a
    period is claimed again exactly when a check comes a period later, a cron job
    when one comes at its next tick, and a one-time job at its time if that lay
    ahead; a job without a next time is not claimed.
   */
  lemma ScheduledJobsRunIff(states: seq<State>, steps: seq<Step>, ticks: Ticks, i: nat, j: nat, id: string, n: nat)
    requires Run(states, steps, ticks) && i < j < |states| && Reschedules(states[i], steps[i], id)
    requires n < |states[i + 1].store| && states[i + 1].store[n].id == id && states[i + 1].store[n].enabled
    requires !Busy(states[i + 1].execs, id) && forall k :: i < k < j ==> Undisturbed(steps[k], id)
    ensures id in states[i + 1].added
    ensures var s, schedule := states[i], states[i + 1].added[id];
            var claimed := ClaimedSince(states[j], |s.execs|, id);
            match schedule
            case Schedule("every", _, Some(period), _) =>
              claimed <==> period > 0 && CheckedAt(states, steps, i, j, s.now + period)
            case Schedule("cron", _, _, expr) =>
              claimed <==> expr != "" && ticks(expr, s.now).Some? && CheckedAt(states, steps, i, j, ticks(expr, s.now).value)
            case Schedule("at", Some(at), _, _) => claimed <==> at > s.now && CheckedAt(states, steps, i, j, at)
            case _ => !claimed
  {
    StoresAlways(states, steps, ticks, i);
    MarksAlways(states, steps, ticks, i + 1);
    assert StepAt(states, steps, ticks, i);
    var s, s' := states[i], states[i + 1];
    ReschedulesFromNow(s, steps[i], ticks, id, s', n);
    var at := NextRun(s'.added[id], s.now, ticks);
    NotBusyIsQuiet(s', id);
    assert Awaits(s'.store[n], id, at);
    AheadAlways(states, steps, ticks, i, j, |s.execs|, id, at);
    CheckCameIff(states, steps, i, j, at);
    ClaimedIff(states[j], CheckCame(states, steps, i, j, at), |s.execs|, id, at);
  }

  lemma NotBusyIsQuiet(s: State, id: string)
    requires !Busy(s.execs, id)
    ensures Quiet(s, |s.execs|, id)
  {
  }

  lemma ClaimedIff(s: State, came: bool, from: nat, id: string, at: Option<int>)
    requires AheadOk(s, came, from, id, at)
    ensures ClaimedSince(s, from, id) <==> came
  {
  }

  /** The handler is called for a claimed execution exactly when its job is still stored. */
  lemma InvokeCallsIff(s: State, e: nat, ticks: Ticks)
    requires Enabled(s, Invoke(e))
    ensures var s', stored := Next(s, Invoke(e), ticks), exists k :: 0 <= k < |s.store| && s.store[k].id == s.execs[e].jobId;
            && s'.calls == (if stored then s.calls + [Call(e, s.now)] else s.calls)
            && s'.execs[e].stage == (if stored then Invoked(s.now) else Lost)
  {
    if k :| 0 <= k < |s.store| && s.store[k].id == s.execs[e].jobId { FoundIfPresent(s.store, k); }
  }

  /** A finished job that is still stored carries the start of its run and what its handler said. */
  lemma FinishRecords(s: State, e: nat, ok: bool, saved: bool, ticks: Ticks, n: nat)
    requires StoresOk(s) && Enabled(s, Finish(e, ok, saved))
    requires var s' := Next(s, Finish(e, ok, saved), ticks); n < |s'.store| && s'.store[n].id == s.execs[e].jobId
    ensures var j := Next(s, Finish(e, ok, saved), ticks).store[n];
            && j.lastRun == Some(s.execs[e].stage.start) && j.updatedAt == s.now && j.status == (if ok then Ok else Failed)
            && (j.enabled ==> j.schedule.kind != "at")
  {
    var jobs, id := s.store, s.execs[e].jobId;
    var after := WithFinished(jobs, id, s.execs[e].stage.start, ok, s.now, ticks);
    if HasJob(jobs, id) {
      if after == Without(jobs, id) {
        NotAmong(jobs, id, n);
      } else {
        FirstAt(jobs, id, n);
      }
    } else {
      FoundIfPresent(jobs, n);
    }
  }

  // ---- A repeating job waits a period after the scheduler was stopped ----

  ghost predicate NotBefore(jobs: seq<Job>, id: string, time: int) {
    forall i :: 0 <= i < |jobs| && jobs[i].id == id && jobs[i].enabled && jobs[i].nextRun.Some? ==> time <= jobs[i].nextRun.value
  }

  /** The job repeats, and while the scheduler runs it is not due before the given time. */
  ghost predicate Held(s: State, id: string, time: int) {
    && id in s.added && s.added[id].kind == "every" && time <= s.now + Period(s.added[id])
    && (s.running ==> NotBefore(s.store, id, time))
  }

  function Period(s: Schedule): int { if s.everyMS.Some? then s.everyMS.value else 0 }

  lemma EveryIsLater(schedule: Schedule, now: int, ticks: Ticks, time: int)
    requires schedule.kind == "every" && time <= now + Period(schedule)
    ensures NextRun(schedule, now, ticks).Some? ==> time <= NextRun(schedule, now, ticks).value
  {
  }

  lemma StartKeepsHeld(s: State, id: string, time: int, ticks: Ticks)
    requires StoresOk(s) && Held(s, id, time)
    ensures NotBefore(Recomputed(Recovered(s.disk), s.now, ticks), id, time)
  {
    var jobs := Recomputed(Recovered(s.disk), s.now, ticks);
    forall i | 0 <= i < |jobs| && jobs[i].id == id && jobs[i].enabled && jobs[i].nextRun.Some?
      ensures time <= jobs[i].nextRun.value
    {
      assert JobOk(s.disk[i], s.added);
      EveryIsLater(jobs[i].schedule, s.now, ticks, time);
    }
  }

  lemma WithoutKeepsHeld(jobs: seq<Job>, id: string, time: int, gone: string)
    requires NotBefore(jobs, id, time)
    ensures NotBefore(Without(jobs, gone), id, time)
  {
    WithoutKeeps(jobs, gone);
    var rest := Without(jobs, gone);
    forall i | 0 <= i < |rest| && rest[i].id == id && rest[i].enabled && rest[i].nextRun.Some?
      ensures time <= rest[i].nextRun.value
    {
      assert rest[i] in rest;
      var k :| 0 <= k < |jobs| && jobs[k] == rest[i];
    }
  }

  lemma UpdateKeepsHeld(s: State, id: string, time: int, which: string, j: Job, ticks: Ticks)
    requires StoresOk(s) && Held(s, id, time) && NotBefore(s.store, id, time) && HasJob(s.store, which)
    requires var b := s.store[IndexOf(s.store, which)]; j.id == b.id && j.schedule == b.schedule
    requires j.nextRun == None || j.nextRun == NextRun(j.schedule, s.now, ticks)
    ensures NotBefore(s.store[IndexOf(s.store, which) := j], id, time)
  {
    assert JobOk(s.store[IndexOf(s.store, which)], s.added);
    if j.id == id { EveryIsLater(j.schedule, s.now, ticks, time); }
  }

  lemma FinishKeepsHeld(s: State, id: string, time: int, done: string, start: int, ok: bool, ticks: Ticks)
    requires StoresOk(s) && Held(s, id, time) && NotBefore(s.store, id, time)
    ensures NotBefore(WithFinished(s.store, done, start, ok, s.now, ticks), id, time)
  {
    if HasJob(s.store, done) {
      var j := s.store[IndexOf(s.store, done)];
      if j.schedule.kind == "at" && j.deleteAfterRun { WithoutKeepsHeld(s.store, id, time, done); }
      else { UpdateKeepsHeld(s, id, time, done, FinishedJob(j, start, ok, s.now, ticks), ticks); }
    }
  }

  lemma CheckKeepsHeld(s: State, id: string, time: int)
    requires NotBefore(s.store, id, time)
    ensures id in DueIds(s.store, s.now) ==> time <= s.now
    ensures NotBefore(Marked(s.store, DueIds(s.store, s.now)), id, time)
  {
    if id in DueIds(s.store, s.now) {
      DueIdsAreDue(s.store, s.now, id);
      var k :| 0 <= k < |s.store| && s.store[k].id == id && Due(s.store[k], s.now);
    }
  }

  lemma StepKeepsHeld(s: State, step: Step, ticks: Ticks, id: string, time: int)
    requires StoresOk(s) && Held(s, id, time) && Enabled(s, step)
    ensures Held(Next(s, step, ticks), id, time) && |s.execs| <= |Next(s, step, ticks).execs|
    ensures forall e :: |s.execs| <= e < |Next(s, step, ticks).execs| && Next(s, step, ticks).execs[e].jobId == id
              ==> time <= Next(s, step, ticks).execs[e].claimedAt
  {
    if s.running {
      match step
      case EnableJob(which, enabled, _) =>
        if HasJob(s.store, which) {
          UpdateKeepsHeld(s, id, time, which, EnabledJob(s.store[IndexOf(s.store, which)], enabled, s.now, ticks), ticks);
        }
      case RemoveJob(gone, _) => WithoutKeepsHeld(s.store, id, time, gone);
      case CheckJobs(_) =>
        CheckKeepsHeld(s, id, time);
        var ids := DueIds(s.store, s.now);
        assert forall a :: 0 <= a < |ids| ==> ids[a] in ids;
      case Finish(e, ok, _) => FinishKeepsHeld(s, id, time, s.execs[e].jobId, s.execs[e].stage.start, ok, ticks);
      case _ =>
    } else if step.Start? {
      StartKeepsHeld(s, id, time, ticks);
    }
  }

  lemma ExecsKeepClaims(s: State, step: Step, ticks: Ticks)
    requires Enabled(s, step)
    ensures var s' := Next(s, step, ticks);
            && |s.execs| <= |s'.execs|
            && forall e :: 0 <= e < |s.execs| ==>
                 s'.execs[e].jobId == s.execs[e].jobId && s'.execs[e].claimedAt == s.execs[e].claimedAt
  {
  }

  /** Executions from a given one on are of the job no earlier than a given time. */
  ghost predicate ClaimedFrom(s: State, from: nat, id: string, time: int) {
    && from <= |s.execs|
    && forall e :: from <= e < |s.execs| && s.execs[e].jobId == id ==> time <= s.execs[e].claimedAt
  }

  lemma StepKeepsClaimedFrom(s: State, step: Step, ticks: Ticks, from: nat, id: string, time: int, s': State)
    requires StoresOk(s) && Held(s, id, time) && ClaimedFrom(s, from, id, time) && Enabled(s, step) && s' == Next(s, step, ticks)
    ensures Held(s', id, time) && ClaimedFrom(s', from, id, time)
  {
    StepKeepsHeld(s, step, ticks, id, time);
    ExecsKeepClaims(s, step, ticks);
  }

  lemma {:induction false} HeldSince(states: seq<State>, steps: seq<Step>, ticks: Ticks, i: nat, j: nat, from: nat, id: string, time: int)
    requires Run(states, steps, ticks) && i <= j < |states| && Held(states[i], id, time) && from == |states[i].execs|
    ensures Held(states[j], id, time) && ClaimedFrom(states[j], from, id, time)
  {
    if i < j {
      HeldSince(states, steps, ticks, i, j - 1, from, id, time);
      StoresAlways(states, steps, ticks, j - 1);
      assert StepAt(states, steps, ticks, j - 1);
      StepKeepsClaimedFrom(states[j - 1], steps[j - 1], ticks, from, id, time, states[j]);
    }
  }

  /**
    From a moment at which the scheduler is stopped, however it goes on, no
    repeating job is claimed before a full period has passed; so an interrupted
    one waits that long at least.
   */
  lemma StoppedRepeatsWait(states: seq<State>, steps: seq<Step>, ticks: Ticks, i: nat, j: nat, id: string, e: nat)
    requires Run(states, steps, ticks) && i <= j < |states| && !states[i].running
    requires id in states[i].added && states[i].added[id].kind == "every"
    requires |states[i].execs| <= e < |states[j].execs| && states[j].execs[e].jobId == id
    ensures states[i].now + Period(states[i].added[id]) <= states[j].execs[e].claimedAt
  {
    HeldSince(states, steps, ticks, i, j, |states[i].execs|, id, states[i].now + Period(states[i].added[id]));
  }

  // ---- Runs that start the scheduler only when nothing is in flight ----

  ghost predicate Busy(execs: seq<Exec>, id: string) {
    exists e :: 0 <= e < |execs| && execs[e].jobId == id && execs[e].InFlight()
  }

  ghost predicate Calm(s: State, step: Step) {
    step.Start? && !s.running ==> forall e :: 0 <= e < |s.execs| ==> !s.execs[e].InFlight()
  }

  ghost predicate CalmRun(states: seq<State>, steps: seq<Step>, ticks: Ticks) {
    Run(states, steps, ticks) && forall i :: 0 <= i < |steps| ==> Calm(states[i], steps[i])
  }

  /** Only the latest execution of a job can be in flight. */
  ghost predicate Single(execs: seq<Exec>) {
    forall e, f :: 0 <= e < f < |execs| && execs[e].jobId == execs[f].jobId ==> !execs[e].InFlight()
  }

  /** A stored job is marked running exactly while an execution of it is in flight. */
  ghost predicate Mirror(jobs: seq<Job>, execs: seq<Exec>) {
    forall i :: 0 <= i < |jobs| ==> (jobs[i].status == Running <==> Busy(execs, jobs[i].id))
  }

  /** Executions are of known jobs and have not ended in the future. */
  ghost predicate Known(execs: seq<Exec>, added: map<string, Schedule>, now: int) {
    forall e :: 0 <= e < |execs| ==> execs[e].jobId in added && (execs[e].stage.Done? ==> execs[e].stage.at <= now)
  }

  /** A repeating job that may come due does so no sooner than its period after each of its completions. */
  ghost predicate Rested(j: Job, execs: seq<Exec>) {
    j.schedule.kind == "every" && j.enabled && j.nextRun.Some? ==>
      PausedBy(execs, j.id, Period(j.schedule), j.nextRun.value)
  }

  /** Every completion of the job lies at least this long before the given time. */
  ghost predicate PausedBy(execs: seq<Exec>, id: string, period: int, time: int) {
    forall e :: 0 <= e < |execs| && execs[e].jobId == id && execs[e].stage.Done? ==> execs[e].stage.at + period <= time
  }

  ghost predicate AllRested(jobs: seq<Job>, execs: seq<Exec>) {
    forall i :: 0 <= i < |jobs| ==> Rested(jobs[i], execs)
  }

  /** Of two executions of a repeating job, the later starts no sooner than a period after the earlier ended. */
  ghost predicate Spaced(execs: seq<Exec>, added: map<string, Schedule>) {
    forall e, f :: (0 <= e < f < |execs| && execs[e].jobId == execs[f].jobId && execs[e].jobId in added
                    && added[execs[e].jobId].kind == "every" && execs[e].stage.Done?)
      ==> execs[e].stage.at + Period(added[execs[e].jobId]) <= execs[f].claimedAt
  }

  ghost predicate CalmInv(s: State) {
    && StoresOk(s) && Known(s.execs, s.added, s.now) && Single(s.execs) && Mirror(s.store, s.execs)
    && (s.running ==> AllRested(s.store, s.execs)) && Spaced(s.execs, s.added)
  }

  /** A next run computed now is a full period after everything that has ended. */
  lemma RecomputedIsRested(j: Job, execs: seq<Exec>, added: map<string, Schedule>, now: int, ticks: Ticks)
    requires Known(execs, added, now) && j.nextRun == NextRun(j.schedule, now, ticks)
    ensures Rested(j, execs)
  {
  }

  lemma AddKeepsCalm(s: State, id: string, schedule: Schedule, saved: bool, ticks: Ticks)
    requires CalmInv(s) && id !in s.added
    ensures CalmInv(Next(s, AddJob(id, schedule, saved), ticks))
  {
    StepKeepsStores(s, AddJob(id, schedule, saved), ticks);
    var j := NewJob(id, schedule, s.now, ticks);
    RecomputedIsRested(j, s.execs, s.added, s.now, ticks);
    assert !Busy(s.execs, id);
  }

  lemma EnableKeepsCalm(s: State, id: string, enabled: bool, saved: bool, ticks: Ticks)
    requires CalmInv(s)
    ensures CalmInv(Next(s, EnableJob(id, enabled, saved), ticks))
  {
    StepKeepsStores(s, EnableJob(id, enabled, saved), ticks);
    if HasJob(s.store, id) && enabled {
      var j := s.store[IndexOf(s.store, id)];
      RecomputedIsRested(EnabledJob(j, enabled, s.now, ticks), s.execs, s.added, s.now, ticks);
    }
  }

  lemma WithoutKeepsCalm(jobs: seq<Job>, execs: seq<Exec>, id: string)
    ensures Mirror(jobs, execs) ==> Mirror(Without(jobs, id), execs)
    ensures AllRested(jobs, execs) ==> AllRested(Without(jobs, id), execs)
    ensures !HasJob(Without(jobs, id), id)
  {
    WithoutKeeps(jobs, id);
    var rest := Without(jobs, id);
    forall i | 0 <= i < |rest| ensures rest[i] in jobs && rest[i].id != id {
      assert rest[i] in rest;
    }
  }

  lemma StartKeepsCalm(s: State, read: bool, saved: bool, ticks: Ticks)
    requires CalmInv(s) && Calm(s, Start(read, saved))
    ensures CalmInv(Next(s, Start(read, saved), ticks))
  {
    StepKeepsStores(s, Start(read, saved), ticks);
    if !s.running && read {
      var jobs := Recomputed(Recovered(s.disk), s.now, ticks);
      forall i | 0 <= i < |jobs| ensures jobs[i].status != Running && Rested(jobs[i], s.execs) {
        if jobs[i].enabled { RecomputedIsRested(jobs[i], s.execs, s.added, s.now, ticks); }
      }
    }
  }

  /** A due job is idle and has rested. */
  lemma DueIsIdle(s: State, id: string)
    requires CalmInv(s) && s.running && id in DueIds(s.store, s.now)
    ensures id in s.added && !Busy(s.execs, id)
    ensures s.added[id].kind == "every" ==> PausedBy(s.execs, id, Period(s.added[id]), s.now)
  {
    DueIdsAreDue(s.store, s.now, id);
    var j :| j in s.store && j.id == id && Due(j, s.now);
    var i :| 0 <= i < |s.store| && s.store[i] == j;
    assert JobOk(s.store[i], s.added) && Rested(s.store[i], s.execs);
  }

  lemma ClaimsKeepExecs(execs: seq<Exec>, added: map<string, Schedule>, now: int, ids: seq<string>, execs': seq<Exec>)
    requires Known(execs, added, now) && Single(execs) && Spaced(execs, added) && execs' == execs + ClaimAll(ids, now)
    requires forall a, b :: 0 <= a < b < |ids| ==> ids[a] != ids[b]
    requires forall a :: 0 <= a < |ids| ==> ids[a] in added && !Busy(execs, ids[a])
    requires forall a :: 0 <= a < |ids| && added[ids[a]].kind == "every" ==> PausedBy(execs, ids[a], Period(added[ids[a]]), now)
    ensures Known(execs', added, now) && Single(execs') && Spaced(execs', added)
  {
    forall e, f | 0 <= e < f < |execs'| && execs'[e].InFlight() ensures execs'[e].jobId != execs'[f].jobId {
      if |execs| <= f {
        assert !Busy(execs, ids[f - |execs|]);
        assert |execs| <= e ==> ids[e - |execs|] != ids[f - |execs|];
      }
    }
  }

  lemma MarkKeepsCalm(jobs: seq<Job>, execs: seq<Exec>, now: int, ids: seq<string>, execs': seq<Exec>)
    requires Mirror(jobs, execs) && AllRested(jobs, execs) && execs' == execs + ClaimAll(ids, now)
    ensures Mirror(Marked(jobs, ids), execs') && AllRested(Marked(jobs, ids), execs')
  {
    var marked := Marked(jobs, ids);
    forall i | 0 <= i < |jobs|
      ensures marked[i].status == Running <==> Busy(execs', marked[i].id)
      ensures Rested(marked[i], execs')
    {
      assert Rested(jobs[i], execs);
      BusyAfterClaims(execs, now, ids, execs', jobs[i].id);
    }
  }

  lemma BusyAfterClaims(execs: seq<Exec>, now: int, ids: seq<string>, execs': seq<Exec>, id: string)
    requires execs' == execs + ClaimAll(ids, now)
    ensures Busy(execs', id) <==> Busy(execs, id) || id in ids
  {
    if Busy(execs, id) {
      var e :| 0 <= e < |execs| && execs[e].jobId == id && execs[e].InFlight();
      assert execs'[e] == execs[e];
    }
    if id in ids {
      var a :| 0 <= a < |ids| && ids[a] == id;
      assert execs'[|execs| + a] == Exec(id, now, Claimed);
    }
  }

  lemma CheckKeepsCalm(s: State, saved: bool, ticks: Ticks)
    requires CalmInv(s)
    ensures CalmInv(Next(s, CheckJobs(saved), ticks))
  {
    StepKeepsStores(s, CheckJobs(saved), ticks);
    if s.running {
      var ids := DueIds(s.store, s.now);
      var execs' := s.execs + ClaimAll(ids, s.now);
      DueIdsAreUnique(s.store, s.now);
      forall a | 0 <= a < |ids|
        ensures ids[a] in s.added && !Busy(s.execs, ids[a])
        ensures s.added[ids[a]].kind == "every" ==> PausedBy(s.execs, ids[a], Period(s.added[ids[a]]), s.now)
      {
        DueIsIdle(s, ids[a]);
      }
      ClaimsKeepExecs(s.execs, s.added, s.now, ids, execs');
      MarkKeepsCalm(s.store, s.execs, s.now, ids, execs');
    }
  }

  /** Moving an execution on keeps every other job as busy as it was. */
  lemma BusyAfterStage(execs: seq<Exec>, e: nat, stage: Stage, id: string)
    requires e < |execs| && Single(execs) && execs[e].InFlight()
    ensures Busy(SetStage(execs, e, stage), id) <==>
              if execs[e].jobId == id then stage.Claimed? || stage.Invoked? else Busy(execs, id)
  {
    var execs' := SetStage(execs, e, stage);
    assert execs'[e].jobId == execs[e].jobId && execs'[e].stage == stage;
    if execs[e].jobId == id {
      forall f | 0 <= f < |execs| && f != e && execs[f].jobId == id ensures !execs'[f].InFlight() {
        if f < e { assert execs[f].jobId == execs[e].jobId; }
      }
    } else if Busy(execs, id) {
      var f :| 0 <= f < |execs| && execs[f].jobId == id && execs[f].InFlight();
      assert execs'[f] == execs[f];
    }
  }

  lemma StageKeepsExecs(execs: seq<Exec>, added: map<string, Schedule>, now: int, e: nat, stage: Stage)
    requires Known(execs, added, now) && Single(execs) && Spaced(execs, added)
    requires e < |execs| && execs[e].InFlight() && (stage.Done? ==> stage.at == now)
    ensures var execs' := SetStage(execs, e, stage); Known(execs', added, now) && Single(execs') && Spaced(execs', added)
  {
    var execs' := SetStage(execs, e, stage);
    assert forall x :: 0 <= x < |execs| ==> execs'[x].jobId == execs[x].jobId && execs'[x].claimedAt == execs[x].claimedAt;
    forall f | e < f < |execs| ensures execs[f].jobId != execs[e].jobId {}
  }

  lemma InvokeKeepsCalm(s: State, e: nat, ticks: Ticks)
    requires CalmInv(s) && Enabled(s, Invoke(e))
    ensures CalmInv(Next(s, Invoke(e), ticks))
  {
    var id := s.execs[e].jobId;
    var stage := if HasJob(s.store, id) then Invoked(s.now) else Lost;
    StageKeepsExecs(s.execs, s.added, s.now, e, stage);
    var execs' := SetStage(s.execs, e, stage);
    forall i | 0 <= i < |s.store|
      ensures s.store[i].status == Running <==> Busy(execs', s.store[i].id)
      ensures Rested(s.store[i], s.execs) ==> Rested(s.store[i], execs')
    {
      BusyAfterStage(s.execs, e, stage, s.store[i].id);
      FoundIfPresent(s.store, i);
      if s.store[i].id == id { assert Busy(s.execs, id); }
    }
  }

  lemma FinishKeepsMirror(s: State, e: nat, ok: bool, jobs: seq<Job>, execs': seq<Exec>, ticks: Ticks)
    requires StoresOk(s) && Single(s.execs) && Mirror(s.store, s.execs) && Enabled(s, Finish(e, ok, false))
    requires jobs == WithFinished(s.store, s.execs[e].jobId, s.execs[e].stage.start, ok, s.now, ticks)
    requires execs' == SetStage(s.execs, e, Done(s.now))
    ensures Mirror(jobs, execs')
  {
    var id := s.execs[e].jobId;
    WithoutKeepsCalm(s.store, s.execs, id);
    forall i | 0 <= i < |jobs| ensures jobs[i].status == Running <==> Busy(execs', jobs[i].id) {
      BusyAfterStage(s.execs, e, Done(s.now), jobs[i].id);
      FoundIfPresent(jobs, i);
      if HasJob(s.store, id) { assert s.store[IndexOf(s.store, id)].id == id; }
    }
  }

  lemma FinishKeepsRest(s: State, e: nat, ok: bool, jobs: seq<Job>, execs': seq<Exec>, ticks: Ticks)
    requires StoresOk(s) && Known(s.execs, s.added, s.now) && AllRested(s.store, s.execs) && Enabled(s, Finish(e, ok, false))
    requires jobs == WithFinished(s.store, s.execs[e].jobId, s.execs[e].stage.start, ok, s.now, ticks)
    requires execs' == SetStage(s.execs, e, Done(s.now)) && Known(execs', s.added, s.now)
    ensures AllRested(jobs, execs')
  {
    var id := s.execs[e].jobId;
    WithoutKeepsCalm(s.store, s.execs, id);
    forall i | 0 <= i < |jobs| ensures Rested(jobs[i], execs') {
      FoundIfPresent(jobs, i);
      assert Rested(jobs[i], s.execs) || jobs[i].id == id;
      if jobs[i].id == id && jobs[i].schedule.kind != "at" {
        assert jobs[i].nextRun == NextRun(jobs[i].schedule, s.now, ticks);
        RecomputedIsRested(jobs[i], execs', s.added, s.now, ticks);
      }
    }
  }

  lemma FinishKeepsCalm(s: State, e: nat, ok: bool, saved: bool, ticks: Ticks)
    requires CalmInv(s) && Enabled(s, Finish(e, ok, saved))
    ensures CalmInv(Next(s, Finish(e, ok, saved), ticks))
  {
    StepKeepsStores(s, Finish(e, ok, saved), ticks);
    StageKeepsExecs(s.execs, s.added, s.now, e, Done(s.now));
    var s' := Next(s, Finish(e, ok, saved), ticks);
    FinishKeepsMirror(s, e, ok, s'.store, s'.execs, ticks);
    if s.running { FinishKeepsRest(s, e, ok, s'.store, s'.execs, ticks); }
  }

  lemma CrashKeepsCalm(s: State, read: bool, ticks: Ticks)
    requires CalmInv(s)
    ensures CalmInv(Next(s, Crash(read), ticks))
    ensures forall j :: j in Next(s, Crash(read), ticks).store ==> j.status != Running
  {
    StepKeepsStores(s, Crash(read), ticks);
    var execs' := AllLost(s.execs);
    forall e | 0 <= e < |execs'|
      ensures !execs'[e].InFlight() && (execs'[e].stage.Done? ==> execs'[e] == s.execs[e])
      ensures execs'[e].jobId == s.execs[e].jobId && execs'[e].claimedAt == s.execs[e].claimedAt
    {
    }
  }

  lemma StepKeepsCalm(s: State, step: Step, ticks: Ticks)
    requires CalmInv(s) && Enabled(s, step) && Calm(s, step)
    ensures CalmInv(Next(s, step, ticks))
  {
    match step
    case AddJob(id, schedule, saved) => AddKeepsCalm(s, id, schedule, saved, ticks);
    case EnableJob(id, enabled, saved) => EnableKeepsCalm(s, id, enabled, saved, ticks);
    case RemoveJob(id, saved) => StepKeepsStores(s, step, ticks); WithoutKeepsCalm(s.store, s.execs, id);
    case Start(read, saved) => StartKeepsCalm(s, read, saved, ticks);
    case CheckJobs(saved) => CheckKeepsCalm(s, saved, ticks);
    case Invoke(e) => InvokeKeepsCalm(s, e, ticks);
    case Finish(e, ok, saved) => FinishKeepsCalm(s, e, ok, saved, ticks);
    case Crash(read) => CrashKeepsCalm(s, read, ticks);
    case Tick(_) =>
    case Stop =>
  }

  lemma {:induction false} CalmAlways(states: seq<State>, steps: seq<Step>, ticks: Ticks, i: nat)
    requires CalmRun(states, steps, ticks) && i < |states|
    ensures CalmInv(states[i])
  {
    if i > 0 {
      CalmAlways(states, steps, ticks, i - 1);
      assert StepAt(states, steps, ticks, i - 1);
      StepKeepsCalm(states[i - 1], steps[i - 1], ticks);
    }
  }

  /** No job ever has two executions in flight, and it is marked running exactly while it has one. */
  lemma ExecutionIsExclusive(states: seq<State>, steps: seq<Step>, ticks: Ticks, i: nat)
    requires CalmRun(states, steps, ticks) && i < |states|
    ensures var s := states[i];
            && (forall e, f :: (0 <= e < |s.execs| && 0 <= f < |s.execs| && s.execs[e].jobId == s.execs[f].jobId
                                && s.execs[e].InFlight() && s.execs[f].InFlight()) ==> e == f)
            && (forall j :: j in s.store ==> (j.status == Running <==> Busy(s.execs, j.id)))
  {
    CalmAlways(states, steps, ticks, i);
    var s := states[i];
    forall j | j in s.store ensures j.status == Running <==> Busy(s.execs, j.id) {
      var k :| 0 <= k < |s.store| && s.store[k] == j;
    }
  }

  /** A repeating job starts again no sooner than its period after it last ended. */
  lemma RepeatsAreSpaced(states: seq<State>, steps: seq<Step>, ticks: Ticks, i: nat, e: nat, f: nat)
    requires CalmRun(states, steps, ticks) && i < |states| && e < f < |states[i].execs|
    requires states[i].execs[e].jobId == states[i].execs[f].jobId && states[i].execs[e].stage.Done?
    ensures var s, id := states[i], states[i].execs[e].jobId;
            id in s.added && (s.added[id].kind == "every" ==> s.execs[e].stage.at + Period(s.added[id]) <= s.execs[f].claimedAt)
  {
    CalmAlways(states, steps, ticks, i);
  }

  // ---- The service itself ----

  lemma {:induction false} DueIdsAppend(jobs: seq<Job>, j: Job, now: int)
    ensures DueIds(jobs + [j], now) == DueIds(jobs, now) + (if Due(j, now) then [j.id] else [])
  {
    if jobs == [] {
      assert jobs + [j] == [j];
    } else {
      assert (jobs + [j])[1..] == jobs[1..] + [j];
      DueIdsAppend(jobs[1..], j, now);
    }
  }

  lemma {:induction false} WithoutAppend(jobs: seq<Job>, j: Job, id: string)
    ensures Without(jobs + [j], id) == if j.id != id then Without(jobs, id) + [j] else Without(jobs, id)
  {
    if jobs == [] {
      assert jobs + [j] == [j];
    } else {
      assert (jobs + [j])[1..] == jobs[1..] + [j];
      WithoutAppend(jobs[1..], j, id);
    }
  }

  lemma {:induction false} WithoutNoneOrShorter(jobs: seq<Job>, id: string)
    ensures |Without(jobs, id)| <= |jobs|
    ensures |Without(jobs, id)| == |jobs| <==> !HasJob(jobs, id)
    ensures !HasJob(jobs, id) ==> Without(jobs, id) == jobs
  {
    if jobs != [] {
      var tail := jobs[1..];
      WithoutNoneOrShorter(tail, id);
      assert HasJob(jobs, id) <==> jobs[0].id == id || HasJob(tail, id);
      assert jobs == [jobs[0]] + tail;
    }
  }

  /** How reading the file goes; a file that does not fit the types leaves whatever was decoded before the error. */
  datatype Load = Whole | Unreadable | Partial(jobs: seq<Job>)

  function Loaded(disk: seq<Job>, load: Load): seq<Job> {
    match load
    case Whole => Recovered(disk)
    case Unreadable => []
    case Partial(jobs) => jobs
  }

  /** The fields of the service, and the contents of its file. */
  class CronService {
    var store: seq<Job>
    var disk: seq<Job>
    var running: bool
    const ticks: Ticks

    constructor (disk: seq<Job>, load: Load, ticks: Ticks)
      ensures this.disk == disk && !running && this.ticks == ticks
      ensures store == Loaded(disk, load)
    {
      this.store, this.disk, this.running, this.ticks := [], disk, false, ticks;
      new;
      var _ := LoadStore(load);
    }

    method Save(works: bool) returns (ok: bool)
      modifies this`disk
      ensures ok == works && disk == if works then store else old(disk)
    {
      if works { disk := store; }
      ok := works;
    }

    method LoadStore(load: Load) returns (ok: bool)
      modifies this`store
      ensures ok == load.Whole? && store == Loaded(disk, load)
      ensures load.Whole? ==> |store| == |disk| && forall k :: 0 <= k < |disk| ==>
                store[k] == if disk[k].status == Running then disk[k].(status := Interrupted) else disk[k]
    {
      store := [];
      if load.Unreadable? { return false; }
      if load.Partial? {
        store := load.jobs;
        return false;
      }
      store := disk;
      var i := 0;
      while i < |store|
        invariant 0 <= i <= |store| == |disk|
        invariant forall k :: 0 <= k < i ==> store[k] == RecoverJob(disk[k])
        invariant forall k :: i <= k < |store| ==> store[k] == disk[k]
      {
        if store[i].status == Running {
          store := store[i := store[i].(status := Interrupted)];
        }
        i := i + 1;
      }
      return true;
    }

    method RecomputeNextRuns(now: int)
      modifies this`store
      ensures store == Recomputed(old(store), now, ticks)
    {
      var i := 0;
      while i < |store|
        invariant 0 <= i <= |store| == |old(store)|
        invariant forall k :: 0 <= k < i ==> store[k] == RecomputeJob(old(store[k]), now, ticks)
        invariant forall k :: i <= k < |store| ==> store[k] == old(store[k])
      {
        if store[i].enabled {
          store := store[i := store[i].(nextRun := NextRun(store[i].schedule, now, ticks))];
        }
        i := i + 1;
      }
    }

    method Start(now: int, load: Load, saves: bool) returns (ok: bool)
      modifies this
      ensures ok <==> old(running) || (load.Whole? && saves)
      ensures running == ok
      ensures old(running) ==> store == old(store) && disk == old(disk)
      ensures !old(running) ==> store == if load.Whole? then Recomputed(Recovered(old(disk)), now, ticks) else Loaded(old(disk), load)
      ensures !old(running) ==> disk == if load.Whole? && saves then store else old(disk)
    {
      if running { return true; }
      ok := LoadStore(load);
      if !ok { return; }
      RecomputeNextRuns(now);
      ok := Save(saves);
      if !ok { return; }
      running := true;
    }

    method Stop()
      modifies this`running
      ensures !running
    {
      if !running { return; }
      running := false;
    }

    /** The first loop of checkJobs: the IDs of the jobs that are due. */
    method CollectDue(now: int) returns (ids: seq<string>)
      ensures ids == DueIds(store, now)
    {
      ids := [];
      var i := 0;
      while i < |store|
        invariant 0 <= i <= |store| && ids == DueIds(store[..i], now)
      {
        var j := store[i];
        assert store[..i + 1] == store[..i] + [j];
        DueIdsAppend(store[..i], j, now);
        if j.enabled && j.nextRun.Some? && j.nextRun.value <= now && j.status != Running {
          ids := ids + [j.id];
        }
        i := i + 1;
      }
      assert store[..i] == store;
    }

    /** The locked part of checkJobs; the IDs returned are then executed one by one outside the lock. */
    method ClaimDue(now: int, saves: bool) returns (ids: seq<string>)
      modifies this`store, this`disk
      ensures ids == if running then DueIds(old(store), now) else []
      ensures store == if running then Marked(old(store), ids) else old(store)
      ensures disk == if running && saves then store else old(disk)
    {
      if !running { return []; }
      ids := CollectDue(now);
      var i := 0;
      while i < |store|
        invariant 0 <= i <= |store| == |old(store)| && disk == old(disk)
        invariant forall k :: 0 <= k < i ==> store[k] == MarkJob(old(store[k]), ids)
        invariant forall k :: i <= k < |store| ==> store[k] == old(store[k])
      {
        if store[i].id in ids {
          store := store[i := store[i].(status := Running)];
        }
        i := i + 1;
      }
      var _ := Save(saves);
    }

    /** The loop that looks a job up by its ID. */
    method Find(id: string) returns (i: nat)
      ensures i == IndexOf(store, id)
    {
      i := 0;
      while i < |store| && store[i].id != id
        invariant 0 <= i <= |store| && forall k :: 0 <= k < i ==> store[k].id != id
      {
        i := i + 1;
      }
      FirstAt(store, id, i);
    }

    /** The job handed to the handler, or none when it has been removed since its claim. */
    method Lookup(id: string) returns (j: Option<Job>)
      ensures j.Some? <==> HasJob(store, id)
      ensures j.Some? ==> j.value == store[IndexOf(store, id)]
    {
      var i := Find(id);
      j := if i < |store| then Some(store[i]) else None;
    }

    /** The last locked region of executeJobByID, after the handler returned. */
    method Finish(id: string, start: int, ok: bool, now: int, saves: bool)
      modifies this`store, this`disk
      ensures store == WithFinished(old(store), id, start, ok, now, ticks)
      ensures disk == if saves && HasJob(old(store), id) then store else old(disk)
      ensures HasJob(old(store), id) && old(store)[IndexOf(old(store), id)].schedule.kind != "at" ==>
                var i := IndexOf(old(store), id);
                && store == old(store)[i := store[i]] && store[i].lastRun == Some(start) && store[i].status == (if ok then Ok else Failed)
                && store[i].enabled == old(store)[i].enabled && store[i].schedule == old(store)[i].schedule
    {
      var i := Find(id);
      if i == |store| { return; }
      var j := store[i].(lastRun := Some(start), updatedAt := now);
      if ok { j := j.(status := Ok); } else { j := j.(status := Failed); }
      if j.schedule.kind == "at" {
        if j.deleteAfterRun {
          var before := store;
          store := store[i := j];
          WithoutUpdated(before, i, j);
          var _ := RemoveJob(id, saves);
          var _ := Save(saves);
          return;
        }
        j := j.(enabled := false, nextRun := None);
      } else {
        j := j.(nextRun := NextRun(j.schedule, now, ticks));
      }
      store := store[i := j];
      var _ := Save(saves);
    }

    method RemoveJob(id: string, saves: bool) returns (removed: bool)
      modifies this`store, this`disk
      ensures store == Without(old(store), id) && removed == HasJob(old(store), id)
      ensures disk == if saves && removed then store else old(disk)
    {
      var jobs, i := [], 0;
      while i < |store|
        invariant store == old(store) && disk == old(disk)
        invariant 0 <= i <= |store| && jobs == Without(store[..i], id)
      {
        assert store[..i + 1] == store[..i] + [store[i]];
        WithoutAppend(store[..i], store[i], id);
        if store[i].id != id { jobs := jobs + [store[i]]; }
        i := i + 1;
      }
      assert store[..i] == store;
      WithoutNoneOrShorter(store, id);
      removed := |jobs| < |store|;
      store := jobs;
      if removed { var _ := Save(saves); }
    }

    method AddJob(id: string, schedule: Schedule, now: int, saves: bool) returns (ok: bool)
      modifies this`store, this`disk
      ensures store == old(store) + [NewJob(id, schedule, now, ticks)]
      ensures var j := store[|old(store)|];
              && j.id == id && j.enabled && j.schedule == schedule && j.status == Unrun && j.lastRun == None
              && (j.deleteAfterRun <==> schedule.kind == "at") && j.nextRun == NextRun(schedule, now, ticks)
      ensures ok == saves && disk == if saves then store else old(disk)
    {
      var job := Job(id, true, schedule, NextRun(schedule, now, ticks), None, Unrun, now, now, schedule.kind == "at");
      store := store + [job];
      ok := Save(saves);
    }

    method EnableJob(id: string, enabled: bool, now: int, saves: bool) returns (found: bool)
      modifies this`store, this`disk
      ensures found == HasJob(old(store), id) && store == WithEnabled(old(store), id, enabled, now, ticks)
      ensures found ==> var i := IndexOf(old(store), id);
                && store[i].enabled == enabled && store[i].schedule == old(store)[i].schedule && store[i].status == old(store)[i].status
                && store[i].nextRun == if enabled then NextRun(store[i].schedule, now, ticks) else None
      ensures disk == if found && saves then store else old(disk)
    {
      var i := Find(id);
      if i == |store| { return false; }
      var j := store[i].(enabled := enabled, updatedAt := now);
      if enabled { j := j.(nextRun := NextRun(j.schedule, now, ticks)); } else { j := j.(nextRun := None); }
      store := store[i := j];
      var _ := Save(saves);
      return true;
    }
  }

  lemma {:induction false} WithoutUpdated(jobs: seq<Job>, i: nat, j: Job)
    requires i < |jobs| && j.id == jobs[i].id
    ensures Without(jobs[i := j], j.id) == Without(jobs, j.id)
    ensures HasJob(jobs[i := j], j.id)
  {
    if i > 0 {
      assert jobs[i := j][1..] == jobs[1..][i - 1 := j];
      WithoutUpdated(jobs[1..], i - 1, j);
    } else {
      assert jobs[i := j][1..] == jobs[1..];
    }
  }
}
