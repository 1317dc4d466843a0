/**
  The daily token budget of an agent role, shared by concurrent workers.  A
  worker asks `check` before each model call and reports the tokens with
  `record` afterwards; both run under one mutex, the call in between does not.
  Days are numbers that never decrease.
 */
module Budget {
  import opened Wrappers

  datatype Notice = Notice(role: string, used: int, limit: int)

  datatype Verdict = Allowed | Exceeded(notice: Notice)

  datatype Config = Config(limits: map<string, int>, actions: map<string, string>, notifier: bool)

  datatype Book = Book(tokens: map<string, int>, notified: set<string>, lastReset: Option<int>)
  {
    function Used(role: string): int { if role in tokens then tokens[role] else 0 }
  }

  predicate Limited(cfg: Config, role: string) { role in cfg.limits && cfg.limits[role] > 0 }

  predicate Stops(cfg: Config, role: string) {
    Limited(cfg, role) && role in cfg.actions && cfg.actions[role] == "stop"
  }

  /** The book as it stands at the start of today. */
  function Rolled(b: Book, today: int): Book {
    if b.lastReset == Some(today) then b else Book(map[], {}, Some(today))
  }

  predicate OverLimit(cfg: Config, b: Book, role: string) {
    Limited(cfg, role) && b.Used(role) >= cfg.limits[role]
  }

  function NoticeFor(cfg: Config, b: Book, role: string): Option<Notice> {
    if OverLimit(cfg, b, role) && cfg.notifier && role !in b.notified
    then Some(Notice(role, b.Used(role), cfg.limits[role])) else None
  }

  function VerdictFor(cfg: Config, b: Book, role: string): Verdict {
    if OverLimit(cfg, b, role) && Stops(cfg, role)
    then Exceeded(Notice(role, b.Used(role), cfg.limits[role])) else Allowed
  }

  function Checked(cfg: Config, b: Book, role: string, today: int): Book {
    var r := Rolled(b, today);
    if NoticeFor(cfg, r, role).Some? then r.(notified := r.notified + {role}) else r
  }

  function Recorded(b: Book, role: string, tokens: int): Book {
    b.(tokens := b.tokens[role := b.Used(role) + tokens])
  }

  // ---- Workers ----

  datatype Worker = Worker(role: string, inCall: bool)

  datatype Entry = Reset(day: int) | Spent(role: string, tokens: int) | Notified(role: string, day: int)

  datatype State = State(book: Book, workers: seq<Worker>, day: int, log: seq<Entry>)

  datatype Step =
    | Check(w: nat)
    | Record(w: nat, tokens: int)
    | CallFails(w: nat)
    | NextDay(days: nat)

  ghost predicate Enabled(s: State, step: Step, maxTokens: int) {
    match step
    case Check(w) => w < |s.workers| && !s.workers[w].inCall
    case Record(w, tokens) => w < |s.workers| && s.workers[w].inCall && tokens <= maxTokens
    case CallFails(w) => w < |s.workers| && s.workers[w].inCall
    case NextDay(_) => true
  }

  function Log(cfg: Config, b: Book, role: string, today: int): seq<Entry> {
    (if b.lastReset == Some(today) then [] else [Reset(today)])
    + (if NoticeFor(cfg, Rolled(b, today), role).Some? then [Notified(role, today)] else [])
  }

  ghost function Next(cfg: Config, s: State, step: Step, maxTokens: int): State
    requires Enabled(s, step, maxTokens)
  {
    match step
    case Check(w) =>
      var role := s.workers[w].role;
      var b := Checked(cfg, s.book, role, s.day);
      var allowed := VerdictFor(cfg, Rolled(s.book, s.day), role) == Allowed;
      State(b, s.workers[w := Worker(role, allowed)], s.day, s.log + Log(cfg, s.book, role, s.day))
    case Record(w, tokens) =>
      var role := s.workers[w].role;
      State(Recorded(s.book, role, tokens), s.workers[w := Worker(role, false)], s.day, s.log + [Spent(role, tokens)])
    case CallFails(w) => s.(workers := s.workers[w := Worker(s.workers[w].role, false)])
    case NextDay(days) => s.(day := s.day + days)
  }

  function Start(roles: seq<string>, day: int): State {
    State(Book(map[], {}, None), seq(|roles|, i requires 0 <= i < |roles| => Worker(roles[i], false)), day, [])
  }

  ghost predicate StepAt(cfg: Config, states: seq<State>, steps: seq<Step>, maxTokens: int, i: int)
    requires 0 <= i < |steps| < |states|
  {
    Enabled(states[i], steps[i], maxTokens) && states[i + 1] == Next(cfg, states[i], steps[i], maxTokens)
  }

  /** The states a run passes through, first to last. */
  ghost predicate Run(cfg: Config, states: seq<State>, steps: seq<Step>, maxTokens: int) {
    && |states| == |steps| + 1
    && forall i {:trigger StepAt(cfg, states, steps, maxTokens, i)} :: 0 <= i < |steps| ==> StepAt(cfg, states, steps, maxTokens, i)
  }

  // ---- Overshoot ----

  function Count(ws: seq<Worker>, role: string): nat {
    if ws == [] then 0 else Count(ws[1..], role) + if ws[0].role == role then 1 else 0
  }

  function Calling(ws: seq<Worker>, role: string): (n: nat)
    ensures n <= Count(ws, role)
  {
    if ws == [] then 0 else Calling(ws[1..], role) + if ws[0].role == role && ws[0].inCall then 1 else 0
  }

  lemma {:induction false} FlagChangesCalling(ws: seq<Worker>, w: nat, flag: bool, role: string)
    requires w < |ws|
    ensures var ws' := ws[w := Worker(ws[w].role, flag)];
            && Count(ws', role) == Count(ws, role)
            && Calling(ws', role) == Calling(ws, role)
               + (if ws[w].role == role && flag then 1 else 0) - (if ws[w].role == role && ws[w].inCall then 1 else 0)
  {
    var ws' := ws[w := Worker(ws[w].role, flag)];
    if w == 0 {
      assert ws'[1..] == ws[1..];
    } else {
      FlagChangesCalling(ws[1..], w - 1, flag, role);
      assert ws'[1..] == ws[1..][w - 1 := Worker(ws[w].role, flag)];
    }
  }

  /** Tokens already booked plus the most the calls in flight can still add. */
  ghost predicate Bounded(cfg: Config, s: State, role: string, maxTokens: int)
    requires Limited(cfg, role)
  {
    s.book.Used(role) + Calling(s.workers, role) * maxTokens
      <= cfg.limits[role] - 1 + Count(s.workers, role) * maxTokens
  }

  lemma StepKeepsBound(cfg: Config, s: State, step: Step, role: string, maxTokens: int)
    requires Stops(cfg, role) && maxTokens >= 0
    requires Enabled(s, step, maxTokens) && Bounded(cfg, s, role, maxTokens)
    ensures Bounded(cfg, Next(cfg, s, step, maxTokens), role, maxTokens)
    ensures Count(Next(cfg, s, step, maxTokens).workers, role) == Count(s.workers, role)
  {
    var s' := Next(cfg, s, step, maxTokens);
    if !step.NextDay? {
      FlagChangesCalling(s.workers, step.w, s'.workers[step.w].inCall, role);
    }
    var before, after, all := Calling(s.workers, role), Calling(s'.workers, role), Count(s.workers, role);
    if s'.book.Used(role) < cfg.limits[role] {
      TimesIsMonotone(after, all, maxTokens);
    } else {
      TimesIsMonotone(after, before, maxTokens);
      OneLess(before, maxTokens);
    }
  }

  lemma TimesIsMonotone(a: int, b: int, m: int)
    requires m >= 0
    ensures a <= b ==> a * m <= b * m
  {
  }

  lemma OneLess(a: int, m: int)
    ensures (a - 1) * m == a * m - m
  {
  }

  /**
    However W workers of a "stop" role interleave, on any day, the role's booked
    tokens stay at or below limit - 1 + W * M when no call uses more than M.
   */
  lemma {:induction false} OvershootIsBounded(cfg: Config, states: seq<State>, steps: seq<Step>, maxTokens: int,
                                              roles: seq<string>, day: int, role: string)
    requires Stops(cfg, role) && maxTokens >= 0
    requires Run(cfg, states, steps, maxTokens) && states[0] == Start(roles, day)
    ensures forall s :: s in states ==>
              s.book.Used(role) <= cfg.limits[role] - 1 + Count(Start(roles, day).workers, role) * maxTokens
  {
    forall i | 0 <= i < |states|
      ensures states[i].book.Used(role) <= cfg.limits[role] - 1 + Count(states[0].workers, role) * maxTokens
    {
      BoundAt(cfg, states, steps, maxTokens, role, i);
      assert Calling(states[i].workers, role) * maxTokens >= 0;
    }
  }

  lemma {:induction false} NobodyCalling(ws: seq<Worker>, role: string)
    requires forall i :: 0 <= i < |ws| ==> !ws[i].inCall
    ensures Calling(ws, role) == 0
  {
    if ws != [] { NobodyCalling(ws[1..], role); }
  }

  lemma {:induction false} BoundAt(cfg: Config, states: seq<State>, steps: seq<Step>, maxTokens: int, role: string, i: nat)
    requires Stops(cfg, role) && maxTokens >= 0
    requires Run(cfg, states, steps, maxTokens) && i < |states|
    requires states[0].book.Used(role) == 0 && forall k :: 0 <= k < |states[0].workers| ==> !states[0].workers[k].inCall
    ensures Bounded(cfg, states[i], role, maxTokens)
    ensures Count(states[i].workers, role) == Count(states[0].workers, role)
  {
    if i == 0 {
      NobodyCalling(states[0].workers, role);
      assert Count(states[0].workers, role) * maxTokens >= 0;
    } else {
      BoundAt(cfg, states, steps, maxTokens, role, i - 1);
      assert StepAt(cfg, states, steps, maxTokens, i - 1);
      StepKeepsBound(cfg, states[i - 1], steps[i - 1], role, maxTokens);
    }
  }

  // ---- The bound is exact ----

  ghost predicate Reaches(cfg: Config, from: State, to: State, maxTokens: int) {
    exists states, steps :: Run(cfg, states, steps, maxTokens) && states[0] == from && states[|steps|] == to
  }

  lemma ReachSelf(cfg: Config, s: State, maxTokens: int)
    ensures Reaches(cfg, s, s, maxTokens)
  {
    var steps: seq<Step> := [];
    assert Run(cfg, [s], steps, maxTokens) && [s][0] == s && [s][|steps|] == s;
  }

  lemma ReachStep(cfg: Config, a: State, b: State, step: Step, maxTokens: int)
    requires Reaches(cfg, a, b, maxTokens) && Enabled(b, step, maxTokens)
    ensures Reaches(cfg, a, Next(cfg, b, step, maxTokens), maxTokens)
  {
    var states, steps :| Run(cfg, states, steps, maxTokens) && states[0] == a && states[|steps|] == b;
    var states', steps' := states + [Next(cfg, b, step, maxTokens)], steps + [step];
    forall i | 0 <= i < |steps'| ensures StepAt(cfg, states', steps', maxTokens, i) {
      if i < |steps| { assert StepAt(cfg, states, steps, maxTokens, i); }
    }
    assert Run(cfg, states', steps', maxTokens) && states'[0] == a && states'[|steps'|] == Next(cfg, b, step, maxTokens);
  }

  /** n workers of one role, the first c of them in a call, `used` tokens booked today. */
  predicate Shape(s: State, role: string, n: nat, c: nat, used: int) {
    && |s.workers| == n && c <= n
    && s.book.lastReset == Some(s.day) && s.book.Used(role) == used
    && forall i :: 0 <= i < n ==> s.workers[i] == Worker(role, i < c)
  }

  lemma {:induction false} WarmUp(cfg: Config, role: string, n: nat, used: nat, maxTokens: int) returns (s: State)
    requires Stops(cfg, role) && n >= 1 && maxTokens >= 1 && used < cfg.limits[role]
    ensures Reaches(cfg, Start(seq(n, _ => role), 0), s, maxTokens) && Shape(s, role, n, if used == 0 then 1 else 0, used)
  {
    if used == 0 {
      s := Start(seq(n, _ => role), 0);
      ReachSelf(cfg, s, maxTokens);
      ReachStep(cfg, s, s, Check(0), maxTokens);
      s := Next(cfg, s, Check(0), maxTokens);
    } else {
      var a := WarmUp(cfg, role, n, used - 1, maxTokens);
      var from := Start(seq(n, _ => role), 0);
      if used > 1 {
        ReachStep(cfg, from, a, Check(0), maxTokens);
        a := Next(cfg, a, Check(0), maxTokens);
      }
      ReachStep(cfg, from, a, Record(0, 1), maxTokens);
      s := Next(cfg, a, Record(0, 1), maxTokens);
    }
  }

  lemma {:induction false} AllCheckIn(cfg: Config, from: State, s: State, role: string, n: nat, c: nat, maxTokens: int)
    returns (s': State)
    requires Stops(cfg, role) && c <= n
    requires Reaches(cfg, from, s, maxTokens) && Shape(s, role, n, c, cfg.limits[role] - 1)
    ensures Reaches(cfg, from, s', maxTokens) && Shape(s', role, n, n, cfg.limits[role] - 1)
    decreases n - c
  {
    if c == n {
      s' := s;
    } else {
      ReachStep(cfg, from, s, Check(c), maxTokens);
      s' := AllCheckIn(cfg, from, Next(cfg, s, Check(c), maxTokens), role, n, c + 1, maxTokens);
    }
  }

  lemma ReportStep(cfg: Config, from: State, s: State, role: string, n: nat, c: nat, used: int, maxTokens: int)
    returns (s': State)
    requires Reaches(cfg, from, s, maxTokens) && Shape(s, role, n, c, used) && c > 0
    ensures Reaches(cfg, from, s', maxTokens) && Shape(s', role, n, c - 1, used + maxTokens)
  {
    ReachStep(cfg, from, s, Record(c - 1, maxTokens), maxTokens);
    s' := Next(cfg, s, Record(c - 1, maxTokens), maxTokens);
  }

  lemma {:induction false} AllReport(cfg: Config, from: State, s: State, role: string, n: nat, c: nat, used: int,
                                     rest: int, total: int, maxTokens: int)
    returns (s': State)
    requires Reaches(cfg, from, s, maxTokens) && Shape(s, role, n, c, used) && rest == c * maxTokens && used + rest == total
    ensures Reaches(cfg, from, s', maxTokens) && Shape(s', role, n, 0, total)
    decreases c
  {
    if c == 0 {
      s' := s;
    } else {
      OneLess(c, maxTokens);
      var s1 := ReportStep(cfg, from, s, role, n, c, used, maxTokens);
      s' := AllReport(cfg, from, s1, role, n, c - 1, used + maxTokens, rest - maxTokens, total, maxTokens);
    }
  }

  /** Some run of n workers really books limit - 1 + n * M tokens. */
  lemma OvershootIsAttained(cfg: Config, role: string, n: nat, maxTokens: int) returns (s: State)
    requires Stops(cfg, role) && n >= 1 && maxTokens >= 1
    ensures Reaches(cfg, Start(seq(n, _ => role), 0), s, maxTokens)
    ensures s.book.Used(role) == cfg.limits[role] - 1 + n * maxTokens
  {
    var from := Start(seq(n, _ => role), 0);
    var warm := WarmUp(cfg, role, n, cfg.limits[role] - 1, maxTokens);
    var full := AllCheckIn(cfg, from, warm, role, n, if cfg.limits[role] == 1 then 1 else 0, maxTokens);
    s := AllReport(cfg, from, full, role, n, n, cfg.limits[role] - 1, n * maxTokens,
                   cfg.limits[role] - 1 + n * maxTokens, maxTokens);
  }

  // ---- The books are right and nobody is told twice ----

  /** What the log says a role has spent since the last reset. */
  function SpentSinceReset(log: seq<Entry>, role: string): int {
    if log == [] then 0
    else
      var front, e := log[..|log| - 1], log[|log| - 1];
      match e
      case Reset(_) => 0
      case Spent(r, k) => SpentSinceReset(front, role) + if r == role then k else 0
      case Notified(_, _) => SpentSinceReset(front, role)
  }

  ghost predicate Honest(s: State) {
    && (forall role :: s.book.Used(role) == SpentSinceReset(s.log, role))
    && (s.book.lastReset.Some? ==> s.book.lastReset.value <= s.day)
    && (forall i :: 0 <= i < |s.log| && s.log[i].Notified? ==>
          && s.book.lastReset.Some? && s.log[i].day <= s.book.lastReset.value
          && (s.log[i].day == s.book.lastReset.value ==> s.log[i].role in s.book.notified))
    && (forall i, j :: 0 <= i < j < |s.log| && s.log[i].Notified? ==> s.log[i] != s.log[j])
  }

  lemma RecordIsHonest(s: State, role: string, tokens: int, s': State)
    requires Honest(s)
    requires s'.book == Recorded(s.book, role, tokens) && s'.day == s.day && s'.log == s.log + [Spent(role, tokens)]
    ensures Honest(s')
  {
    assert s'.log[..|s.log|] == s.log;
    forall r ensures s'.book.Used(r) == SpentSinceReset(s'.log, r) {
    }
  }

  lemma CheckIsHonest(cfg: Config, s: State, role: string, s': State)
    requires Honest(s)
    requires s'.book == Checked(cfg, s.book, role, s.day) && s'.day == s.day
    requires s'.log == s.log + Log(cfg, s.book, role, s.day)
    ensures Honest(s')
  {
    var b, mid := Rolled(s.book, s.day), if s.book.lastReset == Some(s.day) then s.log else s.log + [Reset(s.day)];
    assert mid != s.log ==> mid[..|s.log|] == s.log;
    forall r ensures b.Used(r) == SpentSinceReset(mid, r) {
    }
    if NoticeFor(cfg, b, role).Some? {
      assert s'.log == mid + [Notified(role, s.day)] && s'.log[..|mid|] == mid;
      forall r ensures s'.book.Used(r) == SpentSinceReset(s'.log, r) {
      }
    } else {
      assert s'.log == mid;
    }
  }

  /**
    At every moment of every run the booked tokens are exactly what was recorded
    since the last reset, and no role is notified twice for the same day.
   */
  lemma {:induction false} BooksAreHonest(cfg: Config, states: seq<State>, steps: seq<Step>, maxTokens: int,
                                          roles: seq<string>, day: int, i: nat)
    requires Run(cfg, states, steps, maxTokens) && states[0] == Start(roles, day) && i < |states|
    ensures Honest(states[i])
  {
    if i > 0 {
      BooksAreHonest(cfg, states, steps, maxTokens, roles, day, i - 1);
      assert StepAt(cfg, states, steps, maxTokens, i - 1);
      var s, s' := states[i - 1], states[i];
      match steps[i - 1]
      case Check(w) => CheckIsHonest(cfg, s, s.workers[w].role, s');
      case Record(w, tokens) => RecordIsHonest(s, s.workers[w].role, tokens, s');
      case CallFails(_) =>
      case NextDay(_) =>
    }
  }

  // ---- Who is refused, and who is told ----

  /** What a role has spent today. */
  function SpentToday(s: State, role: string): int {
    if s.book.lastReset == Some(s.day) then SpentSinceReset(s.log, role) else 0
  }

  predicate OverToday(cfg: Config, s: State, role: string) {
    role in cfg.limits && 0 < cfg.limits[role] <= SpentToday(s, role)
  }

  /** A check lets the worker call the model unless its role is to stop and has spent its limit today. */
  lemma ChecksRefuseIff(cfg: Config, states: seq<State>, steps: seq<Step>, maxTokens: int,
                        roles: seq<string>, day: int, i: nat, w: nat)
    requires Run(cfg, states, steps, maxTokens) && states[0] == Start(roles, day)
    requires i < |steps| && steps[i] == Check(w) && w < |states[i].workers| == |states[i + 1].workers|
    ensures var role := states[i].workers[w].role;
            !states[i + 1].workers[w].inCall
            <==> OverToday(cfg, states[i], role) && role in cfg.actions && cfg.actions[role] == "stop"
  {
    BooksAreHonest(cfg, states, steps, maxTokens, roles, day, i);
    assert StepAt(cfg, states, steps, maxTokens, i);
    var s := states[i];
    assert s.book.Used(s.workers[w].role) == SpentSinceReset(s.log, s.workers[w].role);
  }

  /** A check by a worker of the role, on that day, with the limit spent. */
  predicate TellsOf(cfg: Config, s: State, step: Step, role: string, day: int) {
    step.Check? && step.w < |s.workers| && s.workers[step.w].role == role && s.day == day && OverToday(cfg, s, role)
  }

  /** Some check before step i did. */
  predicate Told(cfg: Config, states: seq<State>, steps: seq<Step>, role: string, day: int, i: nat)
    requires i <= |steps| <= |states|
  {
    i > 0 && (Told(cfg, states, steps, role, day, i - 1) || TellsOf(cfg, states[i - 1], steps[i - 1], role, day))
  }

  lemma {:induction false} ToldIff(cfg: Config, states: seq<State>, steps: seq<Step>, role: string, day: int, i: nat)
    requires i <= |steps| <= |states|
    ensures Told(cfg, states, steps, role, day, i) <==> exists k :: 0 <= k < i && TellsOf(cfg, states[k], steps[k], role, day)
  {
    if i > 0 { ToldIff(cfg, states, steps, role, day, i - 1); }
  }

  /** Whoever is marked as notified since the last reset has a notice of that day in the log. */
  ghost predicate MarksAreTold(s: State) {
    forall role :: role in s.book.notified ==> s.book.lastReset.Some? && Notified(role, s.book.lastReset.value) in s.log
  }

  lemma CheckTells(cfg: Config, s: State, role: string, s': State, other: string, day: int)
    requires cfg.notifier && Honest(s) && MarksAreTold(s)
    requires s'.book == Checked(cfg, s.book, role, s.day) && s'.log == s.log + Log(cfg, s.book, role, s.day)
    ensures MarksAreTold(s')
    ensures Notified(other, day) in s'.log <==>
            Notified(other, day) in s.log || (other == role && day == s.day && OverToday(cfg, s, role))
  {
    assert s.book.Used(role) == SpentSinceReset(s.log, role);
    var added := Log(cfg, s.book, role, s.day);
    assert forall e :: e in s'.log <==> e in s.log || e in added;
  }

  lemma {:induction false} NotifiedAlways(cfg: Config, states: seq<State>, steps: seq<Step>, maxTokens: int,
                                          roles: seq<string>, start: int, role: string, day: int, i: nat)
    requires cfg.notifier && Run(cfg, states, steps, maxTokens) && states[0] == Start(roles, start) && i < |states|
    ensures MarksAreTold(states[i])
    ensures Notified(role, day) in states[i].log <==> Told(cfg, states, steps, role, day, i)
  {
    if i > 0 {
      NotifiedAlways(cfg, states, steps, maxTokens, roles, start, role, day, i - 1);
      BooksAreHonest(cfg, states, steps, maxTokens, roles, start, i - 1);
      assert StepAt(cfg, states, steps, maxTokens, i - 1);
      var s, s' := states[i - 1], states[i];
      match steps[i - 1]
      case Check(w) => CheckTells(cfg, s, s.workers[w].role, s', role, day);
      case _ =>
    }
  }

  /** With a notifier, a role is told on a day exactly when some check of that day finds its limit spent. */
  lemma NotifiedIff(cfg: Config, states: seq<State>, steps: seq<Step>, maxTokens: int,
                    roles: seq<string>, start: int, role: string, day: int, i: nat)
    requires cfg.notifier && Run(cfg, states, steps, maxTokens) && states[0] == Start(roles, start) && i < |states|
    ensures Notified(role, day) in states[i].log <==> exists k :: 0 <= k < i && TellsOf(cfg, states[k], steps[k], role, day)
  {
    NotifiedAlways(cfg, states, steps, maxTokens, roles, start, role, day, i);
    ToldIff(cfg, states, steps, role, day, i);
  }

  // ---- The shared object ----

  datatype AgentConfig = AgentConfig(id: string, role: string, maxTokensPerDay: int, budgetAction: string)

  function RoleOf(a: AgentConfig): string { if a.role == "" then a.id else a.role }

  /** The entry that decides a role's limit: the last one that sets a positive limit for it. */
  function Decider(agents: seq<AgentConfig>, role: string): Option<AgentConfig> {
    if agents == [] then None
    else
      var a := agents[|agents| - 1];
      if RoleOf(a) == role && a.maxTokensPerDay > 0 then Some(a) else Decider(agents[..|agents| - 1], role)
  }

  function ActionOf(a: AgentConfig): string { if a.budgetAction == "" then "notify" else a.budgetAction }

  ghost predicate ConfiguredFor(agents: seq<AgentConfig>, limits: map<string, int>, actions: map<string, string>, role: string) {
    match Decider(agents, role)
    case None => role !in limits && role !in actions
    case Some(a) =>
      && role in limits && limits[role] == a.maxTokensPerDay
      && role in actions && actions[role] == ActionOf(a)
  }

  ghost predicate Configured(agents: seq<AgentConfig>, limits: map<string, int>, actions: map<string, string>) {
    forall role :: ConfiguredFor(agents, limits, actions, role)
  }

  lemma OneMoreAgent(agents: seq<AgentConfig>, n: nat, limits: map<string, int>, actions: map<string, string>)
    requires n < |agents| && Configured(agents[..n], limits, actions)
    ensures var a := agents[n];
            if a.maxTokensPerDay > 0 then
              Configured(agents[..n + 1], limits[RoleOf(a) := a.maxTokensPerDay], actions[RoleOf(a) := ActionOf(a)])
            else Configured(agents[..n + 1], limits, actions)
  {
    var a, front := agents[n], agents[..n + 1];
    assert front[..n] == agents[..n] && front[|front| - 1] == a;
    var limits', actions' := limits[RoleOf(a) := a.maxTokensPerDay], actions[RoleOf(a) := ActionOf(a)];
    forall role
      ensures if a.maxTokensPerDay > 0 then ConfiguredFor(front, limits', actions', role)
              else ConfiguredFor(front, limits, actions, role)
    {
      assert ConfiguredFor(agents[..n], limits, actions, role);
    }
  }

  class AgentBudget {
    var dailyTokens: map<string, int>
    var dailyLimits: map<string, int>
    var dailyActions: map<string, string>
    var lastReset: Option<int>
    var hasNotifier: bool
    var notified: set<string>

    ghost function Settings(): Config reads this { Config(dailyLimits, dailyActions, hasNotifier) }
    ghost function Books(): Book reads this { Book(dailyTokens, notified, lastReset) }

    constructor (agents: seq<AgentConfig>)
      ensures Configured(agents, dailyLimits, dailyActions)
      ensures Books() == Start([], 0).book && !hasNotifier
    {
      dailyTokens, dailyLimits, dailyActions := map[], map[], map[];
      lastReset, hasNotifier, notified := None, false, {};
      new;
      for n := 0 to |agents|
        invariant Configured(agents[..n], dailyLimits, dailyActions)
        invariant Books() == Start([], 0).book && !hasNotifier
      {
        var a := agents[n];
        OneMoreAgent(agents, n, dailyLimits, dailyActions);
        if a.maxTokensPerDay > 0 {
          var role := if a.role == "" then a.id else a.role;
          dailyLimits := dailyLimits[role := a.maxTokensPerDay];
          dailyActions := dailyActions[role := if a.budgetAction == "" then "notify" else a.budgetAction];
        }
      }
      assert agents[..|agents|] == agents;
    }

    method SetNotifier()
      modifies this`hasNotifier
      ensures hasNotifier
    {
      hasNotifier := true;
    }

    method Check(role: string, today: int) returns (verdict: Verdict, notice: Option<Notice>)
      modifies this`dailyTokens, this`notified, this`lastReset
      ensures Books() == Checked(Settings(), old(Books()), role, today)
      ensures verdict == VerdictFor(Settings(), Rolled(old(Books()), today), role)
      ensures notice == NoticeFor(Settings(), Rolled(old(Books()), today), role)
      ensures var used := if old(lastReset) == Some(today) && role in old(dailyTokens) then old(dailyTokens)[role] else 0;
              var over := role in dailyLimits && 0 < dailyLimits[role] <= used;
              var told := old(lastReset) == Some(today) && role in old(notified);
              && (verdict.Exceeded? <==> over && role in dailyActions && dailyActions[role] == "stop")
              && (notice.Some? <==> over && hasNotifier && !told)
              && (notice.Some? ==> notice.value == Notice(role, used, dailyLimits[role]))
    {
      if lastReset != Some(today) {
        dailyTokens := map[];
        notified := {};
        lastReset := Some(today);
      }
      if role !in dailyLimits || dailyLimits[role] <= 0 {
        return Allowed, None;
      }
      var limit := dailyLimits[role];
      var used := if role in dailyTokens then dailyTokens[role] else 0;
      notice := None;
      if used >= limit {
        if hasNotifier && role !in notified {
          notice := Some(Notice(role, used, limit));
          notified := notified + {role};
        }
        if role in dailyActions && dailyActions[role] == "stop" {
          return Exceeded(Notice(role, used, limit)), notice;
        }
      }
      return Allowed, notice;
    }

    method Record(role: string, tokens: int)
      modifies this`dailyTokens
      ensures Books() == Recorded(old(Books()), role, tokens)
    {
      dailyTokens := dailyTokens[role := (if role in dailyTokens then dailyTokens[role] else 0) + tokens];
    }
  }
}
