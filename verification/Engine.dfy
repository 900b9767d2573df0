/** The engine as one state machine: every label is one committed statement or transaction,
    or one action of a worker between two of them. */
module Engine {
  import opened Sets
  import opened Schema
  import opened Transactions
  import opened Replay

  datatype Outcome = Fine | Broken(unrecoverable: bool)

  /** A worker's claim on a workflow task, from the claim query to its settlement. */
  datatype Run = Run(
    task: Id,
    wf: Id,
    name: string,
    input: Value,
    attempts: nat,
    maxAttempts: nat,
    history: Option<Events>,
    signals: Option<Events>,
    answers: seq<Answer>,
    outcome: Option<Outcome>)
  {
    predicate Loaded() { history.Some? && signals.Some? }
  }

  datatype JobResult = Output(value: Value) | Error(unrecoverable: bool)

  /** A worker's claim on an activity. */
  datatype Job = Job(
    activity: Id,
    wf: Id,
    name: string,
    input: Value,
    attempts: nat,
    maxAttempts: nat,
    result: Option<JobResult>)

  /** One successful invocation of an activity handler. */
  datatype Invocation = Invocation(activity: Id, name: string, input: Value, output: Value)

  /** History variables: they record the past and never influence a step. */
  datatype Log = Log(
    wake: map<Id, Id>,             // per workflow, the task inserted with its latest event
    invocations: set<Invocation>,
    due: map<Id, nat>,             // per activity, claims of it while pending
    stuck: map<Id, nat>,           // per activity, claims of it past its lease
    retried: map<Id, set<nat>>)    // per activity, attempt numbers whose claim rescheduled it

  datatype State = State(db: Tables, now: int, nextId: Id, runs: map<Id, Run>, jobs: map<Id, Job>, log: Log)

  const INIT := State(EMPTY_TABLES, 0, 0, map[], map[], Log(map[], {}, map[], map[], map[]))

  function Count(m: map<Id, nat>, id: Id): nat {
    if id in m then m[id] else 0
  }

  function Members(m: map<Id, set<nat>>, id: Id): set<nat> {
    if id in m then m[id] else {}
  }

  datatype Step =
    | Enqueue(key: string, name: string, input: Value, options: Options)
    | SendSignal(wf: Id, signal: Key, name: string, input: Value)
    | ClaimRun(task: Id)
    | LoadHistory(run: Id)
    | LoadSignals(run: Id)
    | Advance(run: Id)
    | InsertStarted(run: Id)
    | RefuseInsert(run: Id)
    | FinishWorkflow(run: Id)
    | RunBreaks(run: Id, unrecoverable: bool)
    | CompleteRun(run: Id)
    | RetryRun(run: Id, backoff: int, message: string)
    | FailRun(run: Id, message: string)
    | CrashRun(run: Id)
    | ClaimJob(activity: Id)
    | JobReturns(job: Id, result: JobResult)
    | CompleteJob(job: Id)
    | RetryJob(job: Id, backoff: int, message: string)
    | FailJob(job: Id, message: string)
    | CrashJob(job: Id)
    | Cleanup(status: WorkflowStatus, cutoff: int, limit: nat, ids: set<Id>)
    | Tick(elapsed: nat)

  /** A fresh claim, before its worker has done anything. */
  predicate Fresh(r: Run) {
    r.history == None && r.signals == None && r.answers == [] && r.outcome == None
  }

  function RunsOf(s: State, wf: Id): set<Id> {
    set c | c in s.runs && s.runs[c].wf == wf
  }

  predicate Unfinished(s: State, c: Id) {
    c in s.runs && s.runs[c].outcome == None
  }

  function ScriptOf(reg: Registry, name: string, wf: Id, input: Value): Script
    requires name in reg
  {
    reg[name](wf, input)
  }

  /** The error is not retried. */
  predicate Fatal(unrecoverable: bool, attempts: nat, maxAttempts: nat) {
    unrecoverable || attempts >= maxAttempts
  }

  function RequestOf(reg: Registry, r: Run): Request
    requires r.name in reg
  {
    ScriptOf(reg, r.name, r.wf, r.input)(r.answers)
  }

  /** The next request needs a row that is not in the loaded history. */
  predicate MustInsert(reg: Registry, r: Run)
    requires r.name in reg && r.Loaded()
  {
    RequestOf(reg, r).Start? && RequestOf(reg, r).call.key !in r.history.value
  }

  predicate Advancing(reg: Registry, s: State, c: Id) {
    Unfinished(s, c) && s.runs[c].Loaded() && s.runs[c].name in reg
  }

  predicate Failing(s: State, c: Id) {
    c in s.runs && s.runs[c].outcome.Some? && s.runs[c].outcome.value.Broken?
  }

  predicate Erring(s: State, c: Id) {
    c in s.jobs && s.jobs[c].result.Some? && s.jobs[c].result.value.Error?
  }

  predicate OnRun(e: Step) {
    || e.ClaimRun? || e.LoadHistory? || e.LoadSignals? || e.Advance? || e.InsertStarted? || e.RefuseInsert?
       || e.FinishWorkflow?
    || e.RunBreaks? || e.CompleteRun? || e.RetryRun? || e.FailRun? || e.CrashRun?
  }

  predicate OnJob(e: Step) {
    e.ClaimJob? || e.JobReturns? || e.RetryJob? || e.FailJob? || e.CrashJob?
  }

  predicate Settles(e: Step) {
    e.CompleteJob? || e.RetryJob? || e.FailJob?
  }

  /** Only claims and settlements of a job touch the rows and claims of activities. */
  predicate OnActivities(e: Step) {
    e.ClaimJob? || e.JobReturns? || e.CompleteJob? || e.RetryJob? || e.FailJob? || e.CrashJob?
  }

  predicate SettlesRun(e: Step) {
    e.CompleteRun? || e.RetryRun? || e.FailRun?
  }

  predicate Enabled(reg: Registry, s: State, e: Step) {
    if OnRun(e) then RunEnabled(reg, s, e)
    else if OnActivities(e) then JobEnabled(s, e)
    else match e
      case Cleanup(status, cutoff, limit, ids) =>
        && (status == Succeeded || status == Dead)
        && ids <= ExpiredSet(s.db, status, cutoff)
        && |ids| == Least(limit, |ExpiredSet(s.db, status, cutoff)|)
      case _ => true
  }

  predicate RunEnabled(reg: Registry, s: State, e: Step)
    requires OnRun(e)
  {
    match e
    case ClaimRun(t) => t in s.db.tasks && TaskReady(s.db.tasks[t], s.now) && s.db.tasks[t].wf in s.db.workflows
    case LoadHistory(c) => Unfinished(s, c) && s.runs[c].history == None && s.runs[c].name in reg
    case LoadSignals(c) => Unfinished(s, c) && s.runs[c].signals == None && s.runs[c].name in reg
    case Advance(c) => Advancing(reg, s, c) && !MustInsert(reg, s.runs[c]) && !RequestOf(reg, s.runs[c]).Return?
    case InsertStarted(c) => Advancing(reg, s, c) && MustInsert(reg, s.runs[c])
    case RefuseInsert(c) => Advancing(reg, s, c) && MustInsert(reg, s.runs[c])
    case FinishWorkflow(c) => Advancing(reg, s, c) && RequestOf(reg, s.runs[c]).Return?
    case RunBreaks(c, _) => Unfinished(s, c)
    case CompleteRun(c) => c in s.runs && s.runs[c].outcome == Some(Fine)
    case RetryRun(c, _, _) =>
      Failing(s, c) && !Fatal(s.runs[c].outcome.value.unrecoverable, s.runs[c].attempts, s.runs[c].maxAttempts)
    case FailRun(c, _) =>
      Failing(s, c) && Fatal(s.runs[c].outcome.value.unrecoverable, s.runs[c].attempts, s.runs[c].maxAttempts)
    case CrashRun(c) => c in s.runs
  }

  predicate JobEnabled(s: State, e: Step)
    requires OnActivities(e)
  {
    match e
    case ClaimJob(a) => a in s.db.activities && ActivityReady(s.db.activities[a], s.now)
    case JobReturns(c, _) => c in s.jobs && s.jobs[c].result == None
    case CompleteJob(c) => c in s.jobs && s.jobs[c].result.Some? && s.jobs[c].result.value.Output?
    case RetryJob(c, _, _) =>
      Erring(s, c) && !Fatal(s.jobs[c].result.value.unrecoverable, s.jobs[c].attempts, s.jobs[c].maxAttempts)
    case FailJob(c, _) =>
      Erring(s, c) && Fatal(s.jobs[c].result.value.unrecoverable, s.jobs[c].attempts, s.jobs[c].maxAttempts)
    case CrashJob(c) => c in s.jobs
  }

  function Or(tx: Option<Tables>, db: Tables): Tables {
    if tx.Some? then tx.value else db
  }

  ghost function DoEnqueue(s: State, key: string, name: string, input: Value, options: Options): State {
    match InsertWorkflow(s.db, s.nextId, key, name, input, options, s.nextId + 1, s.now)
    case None => s
    case Some(r) =>
      s.(db := r.0, log := if r.1 == s.nextId then s.log.(wake := s.log.wake[r.1 := s.nextId + 1]) else s.log)
  }

  /** What EnqueueWorkflow returns. */
  ghost function EnqueuedId(s: State, key: string): Id {
    if HasWorkflowKey(s.db, key) then WorkflowWithKey(s.db, key) else s.nextId
  }

  ghost function DoSendSignal(s: State, wf: Id, key: Key, name: string, input: Value): State {
    match InsertSignal(s.db, s.nextId, key, wf, name, input, s.nextId + 1, s.now)
    case None => s
    case Some(db) => s.(db := db, log := s.log.(wake := s.log.wake[wf := s.nextId + 1]))
  }

  ghost function DoClaimRun(s: State, t: Id): State
    requires t in s.db.tasks && s.db.tasks[t].wf in s.db.workflows
  {
    var wf := s.db.tasks[t].wf;
    var w := s.db.workflows[wf];
    s.(db := ClaimTask(s.db, t, s.now),
       runs := s.runs[s.nextId := Run(t, wf, w.name, w.input, w.attempts, w.maxAttempts, None, None, [], None)])
  }

  function WithRun(s: State, c: Id, r: Run): State {
    s.(runs := s.runs[c := r])
  }

  ghost function DoLoadHistory(s: State, c: Id): State
    requires c in s.runs
  {
    WithRun(s, c, s.runs[c].(history := Some(History(s.db, s.runs[c].wf))))
  }

  ghost function DoLoadSignals(s: State, c: Id): State
    requires c in s.runs
  {
    WithRun(s, c, s.runs[c].(signals := Some(Signals(s.db, s.runs[c].wf))))
  }

  /** One request that touches no table, or a return with nothing to store. */
  function DoAdvance(reg: Registry, s: State, c: Id): State
    requires Advancing(reg, s, c)
  {
    var r := s.runs[c];
    var request := RequestOf(reg, r);
    if request.Asks() then
      WithRun(s, c, r.(answers := r.answers + [Reply(request, r.history.value, r.signals.value)]))
    else
      WithRun(s, c, r.(outcome := Some(if request.Raise? then Broken(request.unrecoverable) else Fine)))
  }

  ghost function DoInsertStarted(reg: Registry, s: State, c: Id): State
    requires Advancing(reg, s, c) && MustInsert(reg, s.runs[c])
  {
    var r := s.runs[c];
    var call := RequestOf(reg, r).call;
    var tx := InsertActivity(s.db, s.nextId, call.key, r.wf, call.name, call.input, call.options);
    WithRun(s.(db := Or(tx, s.db)), c, r.(answers := r.answers + [if tx.Some? then Scheduled else Refused]))
  }

  /** The insert did not reach the tables; the handler gets the error. */
  function DoRefuseInsert(s: State, c: Id): State
    requires c in s.runs
  {
    WithRun(s, c, s.runs[c].(answers := s.runs[c].answers + [Refused]))
  }

  function DoFinishWorkflow(s: State, c: Id): State
    requires c in s.runs
  {
    var r := s.runs[c];
    var tx := CompleteWorkflow(s.db, r.wf, s.now);
    WithRun(s.(db := Or(tx, s.db)), c, r.(outcome := Some(if tx.Some? then Fine else Broken(false))))
  }

  function DoCompleteRun(s: State, c: Id): State
    requires c in s.runs
  {
    var r := s.runs[c];
    s.(db := Or(CompleteTask(s.db, r.task, r.wf, s.now), s.db), runs := s.runs - {c})
  }

  function DoRetryRun(s: State, c: Id, backoff: int, message: string): State
    requires c in s.runs
  {
    var r := s.runs[c];
    s.(db := Or(RescheduleTask(s.db, r.task, r.wf, s.now + backoff, message), s.db), runs := s.runs - {c})
  }

  function DoFailRun(s: State, c: Id, message: string): State
    requires c in s.runs
  {
    var r := s.runs[c];
    s.(db := Or(FailTask(s.db, r.task, r.wf, message, s.now), s.db), runs := s.runs - {c})
  }

  function DoClaimJob(s: State, a: Id): State
    requires a in s.db.activities
  {
    var row := s.db.activities[a];
    s.(db := ClaimActivity(s.db, a, s.now),
       jobs := s.jobs[s.nextId := Job(a, row.wf, row.name, row.input, row.attempts + 1, row.maxAttempts, None)],
       log := if row.status == Pending
              then s.log.(due := s.log.due[a := Count(s.log.due, a) + 1])
              else s.log.(stuck := s.log.stuck[a := Count(s.log.stuck, a) + 1]))
  }

  function DoJobReturns(s: State, c: Id, result: JobResult): State
    requires c in s.jobs
  {
    var j := s.jobs[c];
    s.(jobs := s.jobs[c := j.(result := Some(result))],
       log := if result.Output?
              then s.log.(invocations := s.log.invocations + {Invocation(j.activity, j.name, j.input, result.value)})
              else s.log)
  }

  function DoCompleteJob(s: State, c: Id): State
    requires c in s.jobs && s.jobs[c].result.Some? && s.jobs[c].result.value.Output?
  {
    var j := s.jobs[c];
    s.(db := Or(CompleteActivity(s.db, j.activity, j.wf, j.result.value.value, s.nextId, s.now), s.db),
       jobs := s.jobs - {c},
       log := if j.activity in s.db.activities && j.wf in s.db.workflows
              then s.log.(wake := s.log.wake[j.wf := s.nextId])
              else s.log)
  }

  function DoRetryJob(s: State, c: Id, backoff: int, message: string): State
    requires c in s.jobs
  {
    var j := s.jobs[c];
    s.(db := Or(RescheduleActivity(s.db, j.activity, s.now + backoff, message), s.db),
       jobs := s.jobs - {c},
       log := s.log.(retried := s.log.retried[j.activity := Members(s.log.retried, j.activity) + {j.attempts}]))
  }

  function DoFailJob(s: State, c: Id, message: string): State
    requires c in s.jobs
  {
    var j := s.jobs[c];
    s.(db := Or(FailActivity(s.db, j.activity, j.wf, message, s.now), s.db), jobs := s.jobs - {c})
  }

  ghost function Apply(reg: Registry, s: State, e: Step): State
    requires Enabled(reg, s, e)
  {
    if OnRun(e) then ApplyRun(reg, s, e)
    else if OnActivities(e) then ApplyJob(s, e)
    else match e
      case Enqueue(key, name, input, options) => DoEnqueue(s, key, name, input, options)
      case SendSignal(wf, key, name, input) => DoSendSignal(s, wf, key, name, input)
      case Cleanup(_, _, _, ids) => s.(db := DeleteWorkflows(s.db, ids))
      case Tick(d) => s.(now := s.now + d)
  }

  ghost function ApplyRun(reg: Registry, s: State, e: Step): State
    requires OnRun(e) && RunEnabled(reg, s, e)
  {
    match e
    case ClaimRun(t) => DoClaimRun(s, t)
    case LoadHistory(c) => DoLoadHistory(s, c)
    case LoadSignals(c) => DoLoadSignals(s, c)
    case Advance(c) => DoAdvance(reg, s, c)
    case InsertStarted(c) => DoInsertStarted(reg, s, c)
    case RefuseInsert(c) => DoRefuseInsert(s, c)
    case FinishWorkflow(c) => DoFinishWorkflow(s, c)
    case RunBreaks(c, u) => WithRun(s, c, s.runs[c].(outcome := Some(Broken(u))))
    case CompleteRun(c) => DoCompleteRun(s, c)
    case RetryRun(c, backoff, message) => DoRetryRun(s, c, backoff, message)
    case FailRun(c, message) => DoFailRun(s, c, message)
    case CrashRun(c) => s.(runs := s.runs - {c})
  }

  ghost function ApplyJob(s: State, e: Step): State
    requires OnActivities(e) && JobEnabled(s, e)
  {
    match e
    case ClaimJob(a) => DoClaimJob(s, a)
    case JobReturns(c, result) => DoJobReturns(s, c, result)
    case CompleteJob(c) => DoCompleteJob(s, c)
    case RetryJob(c, backoff, message) => DoRetryJob(s, c, backoff, message)
    case FailJob(c, message) => DoFailJob(s, c, message)
    case CrashJob(c) => s.(jobs := s.jobs - {c})
  }

  /** The state after a step; every step may have used up two ids. */
  ghost function Next(reg: Registry, s: State, e: Step): State
    requires Enabled(reg, s, e)
  {
    Apply(reg, s, e).(nextId := s.nextId + 2)
  }

  ghost predicate Runs(reg: Registry, s: State, es: seq<Step>)
    decreases |es|
  {
    es != [] ==> Enabled(reg, s, es[0]) && Runs(reg, Next(reg, s, es[0]), es[1..])
  }

  ghost function After(reg: Registry, s: State, es: seq<Step>): State
    requires Runs(reg, s, es)
    decreases |es|
  {
    if es == [] then s else After(reg, Next(reg, s, es[0]), es[1..])
  }

  ghost predicate Reachable(reg: Registry, s: State) {
    exists es: seq<Step> :: Runs(reg, INIT, es) && After(reg, INIT, es) == s
  }

  /** A property that INIT has and every step keeps holds after every run. */
  lemma {:induction false} InductionOverRuns(reg: Registry, s: State, es: seq<Step>, inv: State -> bool)
    requires Runs(reg, s, es) && inv(s)
    requires forall t: State, e: Step :: inv(t) && Enabled(reg, t, e) ==> inv(Next(reg, t, e))
    ensures inv(After(reg, s, es))
    decreases |es|
  {
    if es != [] {
      InductionOverRuns(reg, Next(reg, s, es[0]), es[1..], inv);
    }
  }

  lemma TwoSteps(reg: Registry, s: State, e: Step, f: Step)
    requires Enabled(reg, s, e) && Enabled(reg, Next(reg, s, e), f)
    ensures Runs(reg, s, [e, f]) && After(reg, s, [e, f]) == Next(reg, Next(reg, s, e), f)
  {
    assert [e, f][1..] == [f] && [f][1..] == [];
    var t := Next(reg, Next(reg, s, e), f);
    assert Runs(reg, t, []) && After(reg, t, []) == t;
    assert Runs(reg, Next(reg, s, e), [f]) && After(reg, Next(reg, s, e), [f]) == t;
  }

  lemma {:induction false} OneMoreStep(reg: Registry, s: State, es: seq<Step>, e: Step)
    requires Runs(reg, s, es) && Enabled(reg, After(reg, s, es), e)
    ensures Runs(reg, s, es + [e]) && After(reg, s, es + [e]) == Next(reg, After(reg, s, es), e)
    decreases |es|
  {
    if es == [] {
      assert [e][1..] == [];
    } else {
      OneMoreStep(reg, Next(reg, s, es[0]), es[1..], e);
      assert (es + [e])[1..] == es[1..] + [e];
    }
  }

  lemma ReachableStep(reg: Registry, s: State, e: Step)
    requires Reachable(reg, s) && Enabled(reg, s, e)
    ensures Reachable(reg, Next(reg, s, e))
  {
    var es: seq<Step> :| Runs(reg, INIT, es) && After(reg, INIT, es) == s;
    OneMoreStep(reg, INIT, es, e);
  }
}
