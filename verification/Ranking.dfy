/** The work a workflow still has before it, as a number that every step on it lowers until a row is added. */
module Ranking {
  import opened Sets
  import opened Schema
  import opened Transactions
  import opened Replay
  import opened Engine
  import opened Integrity
  import opened Frames
  import opened RunInvariants
  import opened Conservation
  import opened Prompt

  // ---- weights ----

  function Left(n: nat, used: nat): nat {
    if used <= n then n - used else 0
  }

  function Unit(n: nat): nat {
    n + 5
  }

  /** How much a claim still has to do, up to n handler requests. */
  function Work(r: Run, n: nat): nat {
    if r.outcome.Some? then 1
    else 2 + (if r.history == None then 1 else 0) + (if r.signals == None then 1 else 0) + Left(n, |r.answers|)
  }

  function RunWeight(r: Run, n: nat): nat {
    Work(r, n) + (if r.attempts < r.maxAttempts then Unit(n) else 0)
  }

  function TaskWeight(t: Task, w: Workflow, n: nat): nat {
    if t.status != Pending then 0 else if w.attempts < w.maxAttempts then 2 * Unit(n) else Unit(n)
  }

  function SpareWeight(w: Workflow, n: nat): nat {
    2 * Unit(n) * Left(w.maxAttempts, w.attempts)
  }

  function RowWeight(a: Activity, n: nat): nat {
    var spare := Left(a.maxAttempts, a.attempts);
    match a.status
    case Pending => 4 * spare + 4 + 2 * Unit(n)
    case Running => (if spare > 0 then 4 * spare + 6 else 2) + 2 * Unit(n)
    case _ => 0
  }

  function JobWeight(j: Job): nat {
    if j.result == None then 1 else 0
  }

  function RowsOf(db: Tables, wf: Id): set<Id> {
    set a | a in db.activities && db.activities[a].wf == wf
  }

  function JobsOf(s: State, wf: Id): set<Id> {
    set c | c in s.jobs && s.jobs[c].wf == wf
  }

  function TaskAt(s: State, wf: Id, n: nat, t: Id): nat {
    if t in s.db.tasks && s.db.tasks[t].wf == wf
      && wf in s.db.workflows then TaskWeight(s.db.tasks[t], s.db.workflows[wf], n) else 0
  }

  function RunAt(s: State, wf: Id, n: nat, c: Id): nat {
    if c in s.runs && s.runs[c].wf == wf then RunWeight(s.runs[c], n) else 0
  }

  function RowAt(s: State, wf: Id, n: nat, a: Id): nat {
    if a in s.db.activities && s.db.activities[a].wf == wf then RowWeight(s.db.activities[a], n) else 0
  }

  function JobAt(s: State, wf: Id, c: Id): nat {
    if c in s.jobs && s.jobs[c].wf == wf then JobWeight(s.jobs[c]) else 0
  }

  function SpareAt(s: State, wf: Id, n: nat): nat {
    if wf in s.db.workflows then SpareWeight(s.db.workflows[wf], n) else 0
  }

  ghost function Potential(s: State, wf: Id, n: nat): nat {
    SpareAt(s, wf, n)
    + Sum(TasksOf(s.db, wf), t => TaskAt(s, wf, n, t))
    + Sum(RunsOf(s, wf), c => RunAt(s, wf, n, c))
    + Sum(RowsOf(s.db, wf), a => RowAt(s, wf, n, a))
    + Sum(JobsOf(s, wf), c => JobAt(s, wf, c))
  }

  // ---- a step moves at most one row or claim of each kind ----

  datatype Focus = Focus(task: Id, run: Id, row: Id, job: Id)

  function TaskFocus(s: State, e: Step): Id {
    if e.ClaimRun? then e.task
    else if SettlesRun(e) && e.run in s.runs then s.runs[e.run].task
    else if e.Enqueue? || e.SendSignal? then s.nextId + 1
    else s.nextId
  }

  function RowFocus(s: State, e: Step): Id {
    if e.ClaimJob? then e.activity
    else if Settles(e) && e.job in s.jobs then s.jobs[e.job].activity
    else s.nextId
  }

  function JobFocus(s: State, e: Step): Id {
    if e.JobReturns? || Settles(e) || e.CrashJob? then e.job else s.nextId
  }

  function FocusOf(s: State, e: Step): Focus {
    Focus(TaskFocus(s, e), RunOf(s, e), RowFocus(s, e), JobFocus(s, e))
  }

  ghost predicate Apart<T>(m: map<Id, T>, m': map<Id, T>, x: Id) {
    forall y :: y != x ==> (y in m <==> y in m') && (y in m ==> m[y] == m'[y])
  }

  ghost predicate Near(s: State, t: State, f: Focus) {
    && Apart(s.db.tasks, t.db.tasks, f.task) && Apart(s.runs, t.runs, f.run)
    && Apart(s.db.activities, t.db.activities, f.row) && Apart(s.jobs, t.jobs, f.job)
  }

  ghost predicate AttemptsRise(s: State, t: State, wf: Id) {
    && wf in s.db.workflows && wf in t.db.workflows
    && s.db.workflows[wf].attempts <= t.db.workflows[wf].attempts
    && s.db.workflows[wf].maxAttempts == t.db.workflows[wf].maxAttempts
  }

  /** What the focus weighs. */
  function Weight(s: State, wf: Id, n: nat, f: Focus): nat {
    SpareAt(s, wf, n) + TaskAt(s, wf, n, f.task) + RunAt(s, wf, n, f.run) + RowAt(s, wf, n, f.row) + JobAt(s, wf, f.job)
  }

  lemma TasksShift(s: State, t: State, wf: Id, n: nat, x: Id)
    requires Apart(s.db.tasks, t.db.tasks, x) && AttemptsRise(s, t, wf)
    ensures Sum(TasksOf(t.db, wf), y => TaskAt(t, wf, n, y)) + TaskAt(s, wf, n, x)
         <= Sum(TasksOf(s.db, wf), y => TaskAt(s, wf, n, y)) + TaskAt(t, wf, n, x)
  {
    assert TasksOf(t.db, wf) - {x} == TasksOf(s.db, wf) - {x};
    SumShift(TasksOf(s.db, wf), y => TaskAt(s, wf, n, y), TasksOf(t.db, wf), y => TaskAt(t, wf, n, y), x);
  }

  lemma RunsShift(s: State, t: State, wf: Id, n: nat, x: Id)
    requires Apart(s.runs, t.runs, x)
    ensures Sum(RunsOf(t, wf), y => RunAt(t, wf, n, y)) + RunAt(s, wf, n, x)
         <= Sum(RunsOf(s, wf), y => RunAt(s, wf, n, y)) + RunAt(t, wf, n, x)
  {
    assert RunsOf(t, wf) - {x} == RunsOf(s, wf) - {x};
    SumShift(RunsOf(s, wf), y => RunAt(s, wf, n, y), RunsOf(t, wf), y => RunAt(t, wf, n, y), x);
  }

  lemma RowsShift(s: State, t: State, wf: Id, n: nat, x: Id)
    requires Apart(s.db.activities, t.db.activities, x)
    ensures Sum(RowsOf(t.db, wf), y => RowAt(t, wf, n, y)) + RowAt(s, wf, n, x)
         <= Sum(RowsOf(s.db, wf), y => RowAt(s, wf, n, y)) + RowAt(t, wf, n, x)
  {
    assert RowsOf(t.db, wf) - {x} == RowsOf(s.db, wf) - {x};
    SumShift(RowsOf(s.db, wf), y => RowAt(s, wf, n, y), RowsOf(t.db, wf), y => RowAt(t, wf, n, y), x);
  }

  lemma JobsShift(s: State, t: State, wf: Id, x: Id)
    requires Apart(s.jobs, t.jobs, x)
    ensures Sum(JobsOf(t, wf), y => JobAt(t, wf, y)) + JobAt(s, wf, x)
         <= Sum(JobsOf(s, wf), y => JobAt(s, wf, y)) + JobAt(t, wf, x)
  {
    assert JobsOf(t, wf) - {x} == JobsOf(s, wf) - {x};
    SumShift(JobsOf(s, wf), y => JobAt(s, wf, y), JobsOf(t, wf), y => JobAt(t, wf, y), x);
  }

  /** The potential moves by no more than the weight of the focus does. */
  lemma PotentialShift(s: State, t: State, wf: Id, n: nat, f: Focus)
    requires Near(s, t, f) && AttemptsRise(s, t, wf)
    ensures Potential(t, wf, n) + Weight(s, wf, n, f) <= Potential(s, wf, n) + Weight(t, wf, n, f)
  {
    TasksShift(s, t, wf, n, f.task);
    RunsShift(s, t, wf, n, f.run);
    RowsShift(s, t, wf, n, f.row);
    JobsShift(s, t, wf, f.job);
  }

  lemma NearStep(reg: Registry, s: State, e: Step)
    requires RowIdsUsed(s.db, s.nextId) && RunsMatch(s) && JobsMatch(s) && Enabled(reg, s, e) && !e.Cleanup?
    ensures Near(s, Apply(reg, s, e), FocusOf(s, e))
  {
    NearTasks(reg, s, e);
    NearRuns(reg, s, e);
    NearRows(reg, s, e);
    NearJobs(reg, s, e);
  }

  lemma NearTasks(reg: Registry, s: State, e: Step)
    requires RowIdsUsed(s.db, s.nextId) && Enabled(reg, s, e) && !e.Cleanup?
    ensures Apart(s.db.tasks, Apply(reg, s, e).db.tasks, TaskFocus(s, e))
  {
    if OnRun(e) {
      RunStepFrame(reg, s, e);
      if SettlesRun(e) {
        RunSettlementTouches(reg, s, e);
      }
    } else if OnActivities(e) {
      JobStepFrame(s, e);
    } else {
      OtherStepFrame(reg, s, e);
    }
  }

  lemma NearRuns(reg: Registry, s: State, e: Step)
    requires RowIdsUsed(s.db, s.nextId) && RunsMatch(s) && Enabled(reg, s, e) && !e.Cleanup?
    ensures Apart(s.runs, Apply(reg, s, e).runs, RunOf(s, e))
  {
    if OnRun(e) {
      RunStepFrame(reg, s, e);
    } else if OnActivities(e) {
      JobStepFrame(s, e);
    } else {
      OtherStepFrame(reg, s, e);
    }
  }

  lemma NearRows(reg: Registry, s: State, e: Step)
    requires RowIdsUsed(s.db, s.nextId) && Enabled(reg, s, e) && !e.Cleanup?
    ensures Apart(s.db.activities, Apply(reg, s, e).db.activities, RowFocus(s, e))
  {
    if Settles(e) {
      SettlementTouches(s, e);
    } else if OnActivities(e) {
      assert Apply(reg, s, e).db == if e.ClaimJob? then ClaimActivity(s.db, e.activity, s.now) else s.db;
    } else {
      ActivitiesUntouched(reg, s, e);
    }
  }

  lemma NearJobs(reg: Registry, s: State, e: Step)
    requires JobsMatch(s) && Enabled(reg, s, e) && !e.Cleanup?
    ensures Apart(s.jobs, Apply(reg, s, e).jobs, JobFocus(s, e))
  {
    if Settles(e) {
      SettlementTouches(s, e);
    } else if !OnActivities(e) {
      ActivitiesUntouched(reg, s, e);
    }
  }

  // ---- every step on the workflow gets it closer to the end ----

  /** The step works on a claim or a row of wf. */
  predicate Concerns(s: State, e: Step, wf: Id) {
    || (e.ClaimRun? && e.task in s.db.tasks && s.db.tasks[e.task].wf == wf)
    || (OnRun(e) && !e.ClaimRun? && e.run in s.runs && s.runs[e.run].wf == wf)
    || (e.ClaimJob? && e.activity in s.db.activities && s.db.activities[e.activity].wf == wf)
    || ((e.JobReturns? || Settles(e)) && e.job in s.jobs && s.jobs[e.job].wf == wf)
  }

  ghost predicate Capped(reg: Registry, db: Tables, wf: Id, n: nat)
    requires wf in db.workflows
  {
    db.workflows[wf].name in reg ==> Bounded(ScriptOf(reg, db.workflows[wf].name, wf, db.workflows[wf].input), n)
  }

  ghost predicate Drops(s: State, t: State, e: Step, wf: Id, n: nat) {
    Weight(t, wf, n, FocusOf(s, e)) < Weight(s, wf, n, FocusOf(s, e))
  }

  lemma ClaimRunDrops(s: State, x: Id, wf: Id, n: nat)
    requires RowIdsUsed(s.db, s.nextId) && RunsMatch(s) && JobsMatch(s) && wf in s.db.workflows
    requires Timely(s, ClaimRun(x)) && s.db.tasks[x].wf == wf
    ensures Drops(s, DoClaimRun(s, x), ClaimRun(x), wf, n)
  {
  }

  /** A run that only moves on, with less left to do. */
  lemma RunDrops(s: State, t: State, e: Step, c: Id, wf: Id, n: nat)
    requires RowIdsUsed(s.db, s.nextId) && RunsMatch(s) && JobsMatch(s) && wf in s.db.workflows
    requires FocusOf(s, e) == Focus(s.nextId, c, s.nextId, s.nextId) && c in s.runs && c in t.runs && s.runs[c].wf == wf
    requires RunKept(s.runs[c], t.runs[c]) && Work(t.runs[c], n) < Work(s.runs[c], n)
    requires t.db.tasks == s.db.tasks && t.db.activities == s.db.activities && t.jobs == s.jobs
    requires wf in t.db.workflows && t.db.workflows[wf].attempts == s.db.workflows[wf].attempts
    requires t.db.workflows[wf].maxAttempts == s.db.workflows[wf].maxAttempts
    ensures Drops(s, t, e, wf, n)
  {
  }

  lemma SettledRunDrops(s: State, t: State, e: Step, wf: Id, n: nat)
    requires RowIdsUsed(s.db, s.nextId) && RunsMatch(s) && JobsMatch(s) && wf in s.db.workflows
    requires SettlesRun(e) && e.run in s.runs && s.runs[e.run].wf == wf && s.runs[e.run].outcome.Some?
    requires t.runs == s.runs - {e.run} && t.db.activities == s.db.activities && t.jobs == s.jobs
    requires AttemptsRise(s, t, wf)
    requires var x := s.runs[e.run].task;
      && x in s.db.tasks && s.db.tasks[x].status == Running && x in t.db.tasks && t.db.tasks[x].wf == wf
      && (t.db.tasks[x].status == Pending ==>
            s.runs[e.run].attempts < s.runs[e.run].maxAttempts
              && t.db.workflows[wf].attempts == s.db.workflows[wf].attempts + 1)
    ensures Drops(s, t, e, wf, n)
  {
    var w, v, x := s.db.workflows[wf], t.db.workflows[wf], s.runs[e.run].task;
    if t.db.tasks[x].status == Pending {
      SpareSpent(w, v, n);
    } else {
      SpareFalls(w, v, n);
    }
  }

  /** An attempt of the workflow pays for its task to be pending again. */
  lemma SpareSpent(w: Workflow, v: Workflow, n: nat)
    requires v.attempts == w.attempts + 1 && v.maxAttempts == w.maxAttempts
    ensures SpareWeight(v, n) + (if v.attempts < v.maxAttempts then 2 * Unit(n) else Unit(n)) <=
      SpareWeight(w, n) + Unit(n)
  {
  }

  lemma SpareFalls(w: Workflow, v: Workflow, n: nat)
    requires v.attempts >= w.attempts && v.maxAttempts == w.maxAttempts
    ensures SpareWeight(v, n) <= SpareWeight(w, n)
  {
    TimesMonotone(2 * Unit(n), Left(v.maxAttempts, v.attempts), Left(w.maxAttempts, w.attempts));
  }

  lemma TimesMonotone(k: nat, a: nat, b: nat)
    requires a <= b
    ensures k * a <= k * b
  {
  }

  lemma ClaimJobDrops(s: State, a: Id, wf: Id, n: nat)
    requires RowIdsUsed(s.db, s.nextId) && RunsMatch(s) && JobsMatch(s) && wf in s.db.workflows
    requires Timely(s, ClaimJob(a)) && s.db.activities[a].wf == wf
    ensures Drops(s, DoClaimJob(s, a), ClaimJob(a), wf, n)
  {
  }

  lemma JobReturnsDrops(s: State, c: Id, result: JobResult, wf: Id, n: nat)
    requires RowIdsUsed(s.db, s.nextId) && RunsMatch(s) && JobsMatch(s) && wf in s.db.workflows
    requires c in s.jobs && s.jobs[c].wf == wf && s.jobs[c].result == None
    ensures Drops(s, DoJobReturns(s, c, result), JobReturns(c, result), wf, n)
  {
  }

  lemma CompleteJobDrops(s: State, c: Id, wf: Id, n: nat)
    requires RowIdsUsed(s.db, s.nextId) && RunsMatch(s) && JobsMatch(s) && JobsPrompt(s) && wf in s.db.workflows
    requires Enabled(map[], s, CompleteJob(c)) && s.jobs[c].wf == wf
    ensures Drops(s, DoCompleteJob(s, c), CompleteJob(c), wf, n)
  {
    assert JobMatches(s.db, s.jobs[c]);
  }

  lemma RetryJobDrops(s: State, c: Id, backoff: int, message: string, wf: Id, n: nat)
    requires RowIdsUsed(s.db, s.nextId) && RunsMatch(s) && JobsMatch(s) && JobsPrompt(s) && wf in s.db.workflows
    requires Enabled(map[], s, RetryJob(c, backoff, message)) && s.jobs[c].wf == wf
    ensures Drops(s, DoRetryJob(s, c, backoff, message), RetryJob(c, backoff, message), wf, n)
  {
    assert JobMatches(s.db, s.jobs[c]);
  }

  lemma FailJobDrops(s: State, c: Id, message: string, wf: Id, n: nat)
    requires RowIdsUsed(s.db, s.nextId) && RunsMatch(s) && JobsMatch(s) && JobsPrompt(s) && wf in s.db.workflows
    requires Enabled(map[], s, FailJob(c, message)) && s.jobs[c].wf == wf
    ensures Drops(s, DoFailJob(s, c, message), FailJob(c, message), wf, n)
  {
    assert JobMatches(s.db, s.jobs[c]);
  }

  // ---- put together ----

  /** Every run replays its handler, so its answers are a path. */
  ghost predicate AllReplay(reg: Registry, s: State) {
    forall c :: c in s.runs ==> Replays(reg, s.runs[c])
  }

  lemma RunStepDrops(reg: Registry, s: State, e: Step, wf: Id, n: nat)
    requires AllReplay(reg, s)
    requires RowIdsUsed(s.db, s.nextId) && RunsMatch(s) && JobsMatch(s) && wf in s.db.workflows
    requires Capped(reg, s.db, wf, n)
    requires Enabled(reg, s, e) && Timely(s, e) && OnRun(e) && !e.ClaimRun? && !SettlesRun(e) && s.runs[e.run].wf == wf
    requires Apply(reg, s, e).db.activities == s.db.activities
    ensures Drops(s, Apply(reg, s, e), e, wf, n)
  {
    assert RunMatches(s.db, s.runs[e.run]);
    LessWork(reg, s, e, n);
    WorkKeepsAttempts(reg, s, e);
    WorkFocus(s, e);
    RunDrops(s, Apply(reg, s, e), e, e.run, wf, n);
  }

  lemma WorkFocus(s: State, e: Step)
    requires OnRun(e) && !e.ClaimRun? && !SettlesRun(e)
    ensures FocusOf(s, e) == Focus(s.nextId, e.run, s.nextId, s.nextId)
  {
  }

  /** A worker on a run writes no task, no claim on an activity and no attempt count. */
  lemma WorkKeepsAttempts(reg: Registry, s: State, e: Step)
    requires Enabled(reg, s, e) && Timely(s, e) && OnRun(e) && !e.ClaimRun? && !SettlesRun(e)
    ensures var t := Apply(reg, s, e);
      && t.db.tasks == s.db.tasks && t.jobs == s.jobs && t.db.workflows.Keys == s.db.workflows.Keys
      && (forall w :: w in s.db.workflows ==>
            t.db.workflows[w].attempts == s.db.workflows[w].attempts
              && t.db.workflows[w].maxAttempts == s.db.workflows[w].maxAttempts)
      && e.run in t.runs && RunKept(s.runs[e.run], t.runs[e.run])
  {
    WorkFrame(reg, s, e);
    RunWorkflows(reg, s, e);
  }

  lemma LessWork(reg: Registry, s: State, e: Step, n: nat)
    requires Enabled(reg, s, e) && Timely(s, e) && OnRun(e) && !e.ClaimRun? && !SettlesRun(e)
    requires s.runs[e.run].name in reg ==> Bounded(HandlerOf(reg, s.runs[e.run]), n)
    requires Replays(reg, s.runs[e.run])
    ensures e.run in Apply(reg, s, e).runs && Work(Apply(reg, s, e).runs[e.run], n) < Work(s.runs[e.run], n)
  {
    var r := s.runs[e.run];
    if r.Loaded() {
      AttemptIsPath(HandlerOf(reg, r), r.history.value, r.signals.value, r.answers);
    }
  }

  lemma SettlementDrops(reg: Registry, s: State, e: Step, wf: Id, n: nat)
    requires RowIdsUsed(s.db, s.nextId) && RunsMatch(s) && JobsMatch(s) && RunsPrompt(s) && wf in s.db.workflows
    requires Enabled(reg, s, e) && SettlesRun(e) && s.runs[e.run].wf == wf
    ensures Drops(s, Apply(reg, s, e), e, wf, n)
  {
    assert RunMatches(s.db, s.runs[e.run]);
    SettledRunDrops(s, Apply(reg, s, e), e, wf, n);
  }

  lemma JobStepDrops(reg: Registry, s: State, e: Step, wf: Id, n: nat)
    requires RowIdsUsed(s.db, s.nextId) && RunsMatch(s) && JobsMatch(s) && JobsPrompt(s) && wf in s.db.workflows
    requires Enabled(reg, s, e) && Timely(s, e) && OnActivities(e) && Concerns(s, e, wf)
    ensures Drops(s, Apply(reg, s, e), e, wf, n)
  {
    match e
    case ClaimJob(a) => ClaimJobDrops(s, a, wf, n);
    case JobReturns(c, result) => JobReturnsDrops(s, c, result, wf, n);
    case CompleteJob(c) => CompleteJobDrops(s, c, wf, n);
    case RetryJob(c, backoff, message) => RetryJobDrops(s, c, backoff, message, wf, n);
    case FailJob(c, message) => FailJobDrops(s, c, message, wf, n);
  }

  /** A step on wf that adds no row lowers the weight of its focus. */
  lemma ConcernDrops(reg: Registry, s: State, e: Step, wf: Id, n: nat)
    requires AllReplay(reg, s)
    requires RowIdsUsed(s.db, s.nextId) && RunsMatch(s) && JobsMatch(s) && OneToOne(s) && wf in s.db.workflows
    requires Capped(reg, s.db, wf, n)
    requires Enabled(reg, s, e) && Timely(s, e) && Concerns(s, e, wf)
    requires e.InsertStarted? ==> Apply(reg, s, e).db.activities == s.db.activities
    ensures Drops(s, Apply(reg, s, e), e, wf, n)
  {
    if OnActivities(e) {
      JobStepDrops(reg, s, e, wf, n);
    } else if e.ClaimRun? {
      ClaimRunDrops(s, e.task, wf, n);
    } else if SettlesRun(e) {
      SettlementDrops(reg, s, e, wf, n);
    } else {
      if !e.InsertStarted? {
        ActivitiesUntouched(reg, s, e);
      }
      RunStepDrops(reg, s, e, wf, n);
    }
  }
}
