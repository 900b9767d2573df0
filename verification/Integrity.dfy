/** What holds in every reachable state, whatever workers do: constraints, ids, and claims that match their rows. */
module Integrity {
  import opened Schema
  import opened Transactions
  import opened Replay
  import opened Engine

  // ---- the invariant ----

  ghost predicate RowIdsUsed(db: Tables, next: Id) {
    && (forall i :: i in db.workflows ==> i < next)
    && (forall i :: i in db.tasks ==> i < next)
    && (forall i :: i in db.activities ==> i < next)
    && (forall i :: i in db.signals ==> i < next)
  }

  ghost predicate RunMatches(db: Tables, r: Run) {
    && (r.task in db.tasks ==> db.tasks[r.task].wf == r.wf)
    && (r.wf in db.workflows ==>
          && r.task in db.tasks
          && db.workflows[r.wf].name == r.name
          && db.workflows[r.wf].input == r.input
          && db.workflows[r.wf].maxAttempts == r.maxAttempts
          && db.workflows[r.wf].attempts >= r.attempts)
  }

  ghost predicate JobMatches(db: Tables, j: Job) {
    && (j.activity in db.activities ==>
          && db.activities[j.activity].wf == j.wf
          && db.activities[j.activity].name == j.name
          && db.activities[j.activity].input == j.input
          && db.activities[j.activity].maxAttempts == j.maxAttempts
          && 1 <= j.attempts <= db.activities[j.activity].attempts)
    && (j.wf in db.workflows ==> j.activity in db.activities)
  }

  ghost predicate RunsMatch(s: State) {
    forall c :: c in s.runs ==>
      c < s.nextId && s.runs[c].task < s.nextId && s.runs[c].wf < s.nextId && RunMatches(s.db, s.runs[c])
  }

  ghost predicate JobsMatch(s: State) {
    forall c :: c in s.jobs ==>
      c < s.nextId && s.jobs[c].activity < s.nextId && s.jobs[c].wf < s.nextId && JobMatches(s.db, s.jobs[c])
  }

  ghost predicate Valid(s: State) {
    Consistent(s.db) && RowIdsUsed(s.db, s.nextId) && RunsMatch(s) && JobsMatch(s)
  }

  // ---- how tables and claims evolve in every step but cleanup ----

  predicate WorkflowKept(w: Workflow, v: Workflow) {
    && w.key == v.key && w.name == v.name && w.input == v.input && w.priority == v.priority
    && w.maxAttempts == v.maxAttempts && w.stuckTimeout == v.stuckTimeout && w.createdAt == v.createdAt
    && w.attempts <= v.attempts
    && (v.status == w.status || v.status == Succeeded || v.status == Dead)
  }

  predicate TaskKept(t: Task, u: Task) {
    t.wf == u.wf && t.name == u.name && t.priority == u.priority && t.stuckTimeout == u.stuckTimeout
  }

  predicate ActivityKept(a: Activity, b: Activity) {
    && a.key == b.key && a.wf == b.wf && a.name == b.name && a.input == b.input && a.priority == b.priority
    && a.maxAttempts == b.maxAttempts && a.stuckTimeout == b.stuckTimeout
    && a.attempts <= b.attempts
  }

  ghost predicate WorkflowsExtend(db: Tables, after: Tables, next: Id) {
    && (forall i :: i in db.workflows ==> i in after.workflows && WorkflowKept(db.workflows[i], after.workflows[i]))
    && (forall i :: i in after.workflows && i !in db.workflows ==>
          i == next && forall j :: j in db.workflows ==> db.workflows[j].key != after.workflows[i].key)
  }

  ghost predicate TasksExtend(db: Tables, after: Tables, next: Id) {
    && (forall i :: i in db.tasks ==> i in after.tasks && TaskKept(db.tasks[i], after.tasks[i]))
    && (forall i :: i in after.tasks && i !in db.tasks ==> next <= i < next + 2 && after.tasks[i].wf in after.workflows)
  }

  ghost predicate ActivitiesExtend(db: Tables, after: Tables, next: Id) {
    && (forall i :: i in db.activities ==> i in after.activities && ActivityKept(db.activities[i], after.activities[i]))
    && (forall i :: i in after.activities && i !in db.activities ==>
          && i == next && after.activities[i].wf in db.workflows
          && forall j :: j in db.activities ==> db.activities[j].key != after.activities[i].key)
  }

  ghost predicate SignalsExtend(db: Tables, after: Tables, next: Id) {
    && (forall i :: i in db.signals ==> i in after.signals && db.signals[i] == after.signals[i])
    && (forall i :: i in after.signals && i !in db.signals ==>
          && i == next && after.signals[i].wf in db.workflows
          && forall j :: j in db.signals ==> db.signals[j].key != after.signals[i].key)
  }

  ghost predicate Extends(db: Tables, after: Tables, next: Id) {
    && WorkflowsExtend(db, after, next)
    && TasksExtend(db, after, next)
    && ActivitiesExtend(db, after, next)
    && SignalsExtend(db, after, next)
  }

  predicate RunKept(r: Run, q: Run) {
    && r.task == q.task && r.wf == q.wf && r.name == q.name && r.input == q.input
    && r.attempts == q.attempts && r.maxAttempts == q.maxAttempts
  }

  predicate JobKept(j: Job, k: Job) {
    && j.activity == k.activity && j.wf == k.wf && j.name == k.name && j.input == k.input
    && j.attempts == k.attempts && j.maxAttempts == k.maxAttempts
  }

  ghost predicate ClaimsEvolve(s: State, t: State) {
    && (forall c :: c in t.runs ==>
          || (c in s.runs && RunKept(s.runs[c], t.runs[c]))
          || (c == s.nextId && t.runs[c].task in t.db.tasks && t.runs[c].wf in t.db.workflows
               && RunMatches(t.db, t.runs[c])))
    && (forall c :: c in t.jobs ==>
          || (c in s.jobs && JobKept(s.jobs[c], t.jobs[c]))
          || (c == s.nextId && t.jobs[c].activity in t.db.activities && JobMatches(t.db, t.jobs[c])))
  }

  ghost predicate Evolves(s: State, t: State) {
    Extends(s.db, t.db, s.nextId) && ClaimsEvolve(s, t)
  }

  lemma EvolvingKeepsValid(s: State, t: State)
    requires Valid(s) && Evolves(s, t) && t.nextId == s.nextId + 2
    ensures Valid(t)
  {
    assert Consistent(t.db);
    assert RowIdsUsed(t.db, t.nextId);
    forall c | c in t.runs
      ensures c < t.nextId && t.runs[c].task < t.nextId && t.runs[c].wf < t.nextId && RunMatches(t.db, t.runs[c])
    {
      if c in s.runs && RunKept(s.runs[c], t.runs[c]) {
        assert RunMatches(s.db, s.runs[c]);
      }
    }
    forall c | c in t.jobs
      ensures c < t.nextId && t.jobs[c].activity < t.nextId && t.jobs[c].wf < t.nextId && JobMatches(t.db, t.jobs[c])
    {
      if c in s.jobs && JobKept(s.jobs[c], t.jobs[c]) {
        assert JobMatches(s.db, s.jobs[c]);
      }
    }
  }

  // ---- every step evolves ----

  lemma InsertTaskExtends(db: Tables, mid: Tables, id: Id, wf: Id, at: int, next: Id)
    requires Extends(db, mid, next) && next <= id < next + 2
    ensures Extends(db, InsertTask(mid, id, wf, at), next)
  {
  }

  lemma InsertWorkflowExtends(db: Tables, id: Id, w: Workflow)
    requires RowIdsUsed(db, id) && !HasWorkflowKey(db, w.key)
    ensures Extends(db, db.(workflows := db.workflows[id := w]), id)
  {
    assert id !in db.workflows;
  }

  lemma InsertSignalExtends(db: Tables, id: Id, g: Signal)
    requires RowIdsUsed(db, id) && !HasSignalKey(db, g.key) && g.wf in db.workflows
    ensures Extends(db, db.(signals := db.signals[id := g]), id)
  {
    assert id !in db.signals;
  }

  lemma InsertActivityExtends(db: Tables, id: Id, a: Activity)
    requires RowIdsUsed(db, id) && !HasActivityKey(db, a.key) && a.wf in db.workflows
    ensures Extends(db, db.(activities := db.activities[id := a]), id)
  {
    assert id !in db.activities;
  }

  lemma SameExtends(db: Tables, next: Id)
    ensures Extends(db, db, next)
  {
  }

  lemma EnqueueExtends(db: Tables, id: Id, key: string, name: string, input: Value, options: Options, now: int)
    requires RowIdsUsed(db, id)
    ensures var tx := InsertWorkflow(db, id, key, name, input, options, id + 1, now);
            tx.Some? && Extends(db, tx.value.0, id)
  {
    if HasWorkflowKey(db, key) {
      SameExtends(db, id);
    } else {
      var w := NewWorkflow(key, name, input, options, now);
      InsertWorkflowExtends(db, id, w);
      InsertTaskExtends(db, db.(workflows := db.workflows[id := w]), id + 1, id, options.scheduledAt, id);
    }
  }

  lemma SignalExtends(db: Tables, id: Id, key: Key, wf: Id, name: string, input: Value, now: int)
    requires RowIdsUsed(db, id)
    ensures Extends(db, Or(InsertSignal(db, id, key, wf, name, input, id + 1, now), db), id)
  {
    if HasSignalKey(db, key) || wf !in db.workflows {
      SameExtends(db, id);
    } else {
      var g := Signal(key, wf, name, input);
      InsertSignalExtends(db, id, g);
      InsertTaskExtends(db, db.(signals := db.signals[id := g]), id + 1, wf, now, id);
    }
  }

  lemma EnqueueEvolves(s: State, key: string, name: string, input: Value, options: Options)
    requires RowIdsUsed(s.db, s.nextId)
    ensures Evolves(s, DoEnqueue(s, key, name, input, options))
  {
    EnqueueExtends(s.db, s.nextId, key, name, input, options, s.now);
    var tx := InsertWorkflow(s.db, s.nextId, key, name, input, options, s.nextId + 1, s.now);
    SameClaimsEvolve(s, tx.value.0, DoEnqueue(s, key, name, input, options));
  }

  lemma SameClaimsEvolve(s: State, after: Tables, t: State)
    requires Extends(s.db, after, s.nextId) && t.db == after && t.runs == s.runs && t.jobs == s.jobs
    ensures Evolves(s, t)
  {
  }

  lemma SendSignalEvolves(s: State, wf: Id, key: Key, name: string, input: Value)
    requires RowIdsUsed(s.db, s.nextId)
    ensures Evolves(s, DoSendSignal(s, wf, key, name, input))
  {
    SignalExtends(s.db, s.nextId, key, wf, name, input, s.now);
    assert DoSendSignal(s, wf, key, name, input).db ==
      Or(InsertSignal(s.db, s.nextId, key, wf, name, input, s.nextId + 1, s.now), s.db);
  }

  lemma ClaimRunEvolves(s: State, t: Id)
    requires t in s.db.tasks && s.db.tasks[t].wf in s.db.workflows
    ensures Evolves(s, DoClaimRun(s, t))
  {
    SetTaskExtends(s.db, t, ClaimTask(s.db, t, s.now).tasks[t], s.nextId);
  }

  lemma QuietRunEvolves(s: State, c: Id, r: Run)
    requires c in s.runs && RunKept(s.runs[c], r)
    ensures Evolves(s, WithRun(s, c, r))
  {
  }

  lemma InsertStartedEvolves(reg: Registry, s: State, c: Id)
    requires RowIdsUsed(s.db, s.nextId) && Advancing(reg, s, c) && MustInsert(reg, s.runs[c])
    ensures Evolves(s, DoInsertStarted(reg, s, c))
  {
    var call, wf := RequestOf(reg, s.runs[c]).call, s.runs[c].wf;
    if HasActivityKey(s.db, call.key) || wf !in s.db.workflows {
      SameExtends(s.db, s.nextId);
    } else {
      InsertActivityExtends(s.db, s.nextId, NewActivity(call.key, wf, call.name, call.input, call.options));
    }
  }

  lemma SetWorkflowExtends(db: Tables, mid: Tables, wf: Id, w: Workflow, next: Id)
    requires Extends(db, mid, next) && wf in db.workflows && WorkflowKept(db.workflows[wf], w)
    ensures Extends(db, SetWorkflow(mid, wf, w), next)
  {
  }

  lemma SetTaskExtends(db: Tables, id: Id, t: Task, next: Id)
    requires id in db.tasks && TaskKept(db.tasks[id], t)
    ensures Extends(db, SetTask(db, id, t), next)
  {
  }

  lemma SetActivityExtends(db: Tables, id: Id, a: Activity, next: Id)
    requires id in db.activities && ActivityKept(db.activities[id], a)
    ensures Extends(db, SetActivity(db, id, a), next)
  {
  }

  lemma FinishWorkflowEvolves(s: State, c: Id)
    requires c in s.runs
    ensures Evolves(s, DoFinishWorkflow(s, c))
  {
    var wf := s.runs[c].wf;
    if wf in s.db.workflows {
      SetWorkflowExtends(s.db, s.db, wf, DoFinishWorkflow(s, c).db.workflows[wf], s.nextId);
    }
  }

  /** The three settlements of a workflow task set one task row and one workflow row. */
  lemma SettledRunEvolves(s: State, c: Id, tx: Option<Tables>, t: Task, w: Workflow)
    requires c in s.runs
    requires tx.Some? ==>
      && s.runs[c].task in s.db.tasks && TaskKept(s.db.tasks[s.runs[c].task], t)
      && s.runs[c].wf in s.db.workflows && WorkflowKept(s.db.workflows[s.runs[c].wf], w)
      && tx.value == SetWorkflow(SetTask(s.db, s.runs[c].task, t), s.runs[c].wf, w)
    ensures Evolves(s, s.(db := Or(tx, s.db), runs := s.runs - {c}))
  {
    if tx.Some? {
      SetTaskExtends(s.db, s.runs[c].task, t, s.nextId);
      SetWorkflowExtends(s.db, SetTask(s.db, s.runs[c].task, t), s.runs[c].wf, w, s.nextId);
    }
  }

  lemma CompleteRunEvolves(s: State, c: Id)
    requires c in s.runs
    ensures Evolves(s, DoCompleteRun(s, c))
  {
    var r, db := s.runs[c], DoCompleteRun(s, c).db;
    if CompleteTask(s.db, r.task, r.wf, s.now).Some? {
      SettledRunEvolves(s, c, Some(db), db.tasks[r.task], db.workflows[r.wf]);
    }
  }

  lemma RetryRunEvolves(s: State, c: Id, backoff: int, message: string)
    requires c in s.runs
    ensures Evolves(s, DoRetryRun(s, c, backoff, message))
  {
    var r, db := s.runs[c], DoRetryRun(s, c, backoff, message).db;
    if RescheduleTask(s.db, r.task, r.wf, s.now + backoff, message).Some? {
      SettledRunEvolves(s, c, Some(db), db.tasks[r.task], db.workflows[r.wf]);
    }
  }

  lemma FailRunEvolves(s: State, c: Id, message: string)
    requires c in s.runs
    ensures Evolves(s, DoFailRun(s, c, message))
  {
    var r, db := s.runs[c], DoFailRun(s, c, message).db;
    if FailTask(s.db, r.task, r.wf, message, s.now).Some? {
      SettledRunEvolves(s, c, Some(db), db.tasks[r.task], db.workflows[r.wf]);
    }
  }

  lemma ClaimJobEvolves(s: State, a: Id)
    requires a in s.db.activities
    ensures Evolves(s, DoClaimJob(s, a))
  {
    SetActivityExtends(s.db, a, ClaimActivity(s.db, a, s.now).activities[a], s.nextId);
  }

  lemma CompleteJobEvolves(s: State, c: Id)
    requires RowIdsUsed(s.db, s.nextId) && c in s.jobs && s.jobs[c].result.Some? && s.jobs[c].result.value.Output?
    ensures Evolves(s, DoCompleteJob(s, c))
  {
    var j, db := s.jobs[c], DoCompleteJob(s, c).db;
    if j.activity in s.db.activities {
      SetActivityExtends(s.db, j.activity, db.activities[j.activity], s.nextId);
      InsertTaskExtends(s.db, SetActivity(s.db, j.activity, db.activities[j.activity]), s.nextId, j.wf, s.now,
        s.nextId);
    }
  }

  lemma RetryJobEvolves(s: State, c: Id, backoff: int, message: string)
    requires c in s.jobs
    ensures Evolves(s, DoRetryJob(s, c, backoff, message))
  {
    var j, db := s.jobs[c], DoRetryJob(s, c, backoff, message).db;
    if j.activity in s.db.activities {
      SetActivityExtends(s.db, j.activity, db.activities[j.activity], s.nextId);
    }
  }

  lemma FailJobEvolves(s: State, c: Id, message: string)
    requires c in s.jobs
    ensures Evolves(s, DoFailJob(s, c, message))
  {
    var j, db := s.jobs[c], DoFailJob(s, c, message).db;
    if j.activity in s.db.activities && j.wf in s.db.workflows {
      SetActivityExtends(s.db, j.activity, db.activities[j.activity], s.nextId);
      SetWorkflowExtends(s.db, SetActivity(s.db, j.activity, db.activities[j.activity]), j.wf, db.workflows[j.wf],
        s.nextId);
    }
  }

  lemma JobReturnsEvolves(s: State, c: Id, result: JobResult)
    requires c in s.jobs
    ensures Evolves(s, DoJobReturns(s, c, result))
  {
  }

  lemma LessEvolves(s: State, t: State)
    requires t.db == s.db && t.runs.Keys <= s.runs.Keys && t.jobs.Keys <= s.jobs.Keys
    requires forall c :: c in t.runs ==> t.runs[c] == s.runs[c]
    requires forall c :: c in t.jobs ==> t.jobs[c] == s.jobs[c]
    ensures Evolves(s, t)
  {
  }

  lemma StepEvolves(reg: Registry, s: State, e: Step)
    requires RowIdsUsed(s.db, s.nextId) && Enabled(reg, s, e) && !e.Cleanup?
    ensures Evolves(s, Apply(reg, s, e))
  {
    if OnRun(e) {
      RunStepEvolves(reg, s, e);
    } else if OnActivities(e) {
      JobStepEvolves(s, e);
    } else {
      match e
      case Enqueue(key, name, input, options) => EnqueueEvolves(s, key, name, input, options);
      case SendSignal(wf, key, name, input) => SendSignalEvolves(s, wf, key, name, input);
      case Tick(d) => LessEvolves(s, Apply(reg, s, e));
    }
  }

  lemma JobStepEvolves(s: State, e: Step)
    requires RowIdsUsed(s.db, s.nextId) && OnActivities(e) && JobEnabled(s, e)
    ensures Evolves(s, ApplyJob(s, e))
  {
    match e
    case ClaimJob(a) => ClaimJobEvolves(s, a);
    case JobReturns(c, result) => JobReturnsEvolves(s, c, result);
    case CompleteJob(c) => CompleteJobEvolves(s, c);
    case RetryJob(c, backoff, message) => RetryJobEvolves(s, c, backoff, message);
    case FailJob(c, message) => FailJobEvolves(s, c, message);
    case CrashJob(c) => LessEvolves(s, ApplyJob(s, e));
  }

  lemma RunStepEvolves(reg: Registry, s: State, e: Step)
    requires RowIdsUsed(s.db, s.nextId) && OnRun(e) && RunEnabled(reg, s, e)
    ensures Evolves(s, ApplyRun(reg, s, e))
  {
    match e
    case ClaimRun(t) => ClaimRunEvolves(s, t);
    case LoadHistory(c) => QuietRunEvolves(s, c, DoLoadHistory(s, c).runs[c]);
    case LoadSignals(c) => QuietRunEvolves(s, c, DoLoadSignals(s, c).runs[c]);
    case Advance(c) => QuietRunEvolves(s, c, DoAdvance(reg, s, c).runs[c]);
    case InsertStarted(c) => InsertStartedEvolves(reg, s, c);
    case RefuseInsert(c) => QuietRunEvolves(s, c, DoRefuseInsert(s, c).runs[c]);
    case FinishWorkflow(c) => FinishWorkflowEvolves(s, c);
    case RunBreaks(c, u) => QuietRunEvolves(s, c, s.runs[c].(outcome := Some(Broken(u))));
    case CompleteRun(c) => CompleteRunEvolves(s, c);
    case RetryRun(c, backoff, message) => RetryRunEvolves(s, c, backoff, message);
    case FailRun(c, message) => FailRunEvolves(s, c, message);
    case CrashRun(c) => LessEvolves(s, ApplyRun(reg, s, e));
  }

  lemma CleanupKeepsValid(s: State, ids: set<Id>)
    requires Valid(s)
    ensures Valid(s.(db := DeleteWorkflows(s.db, ids), nextId := s.nextId + 2))
  {
  }

  lemma ValidStep(reg: Registry, s: State, e: Step)
    requires Valid(s) && Enabled(reg, s, e)
    ensures Valid(Next(reg, s, e))
  {
    if e.Cleanup? {
      CleanupKeepsValid(s, e.ids);
    } else {
      StepEvolves(reg, s, e);
      EvolvingKeepsValid(s, Next(reg, s, e));
    }
  }
}
