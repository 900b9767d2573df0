/** What each committed statement or transaction of the Postgres storage does to the tables.
    None means the transaction failed and rolled back whole. */
module Transactions {
  import opened Schema

  ghost predicate HasWorkflowKey(db: Tables, key: string) {
    exists i :: i in db.workflows && db.workflows[i].key == key
  }

  ghost predicate HasActivityKey(db: Tables, key: Key) {
    exists a :: a in db.activities && db.activities[a].key == key
  }

  ghost predicate HasSignalKey(db: Tables, key: Key) {
    exists g :: g in db.signals && db.signals[g].key == key
  }

  ghost function WorkflowWithKey(db: Tables, key: string): Id
    requires HasWorkflowKey(db, key)
  {
    var i :| i in db.workflows && db.workflows[i].key == key; i
  }

  /** INSERT ... SELECT from the workflow row: no workflow, no task. */
  function InsertTask(db: Tables, id: Id, wf: Id, scheduledAt: int): Tables {
    if wf in db.workflows && id !in db.tasks then
      var w := db.workflows[wf];
      db.(tasks := db.tasks[id := Task(wf, w.name, Pending, w.priority, w.stuckTimeout, scheduledAt, None, None, None)])
    else
      db
  }

  function NewWorkflow(key: string, name: string, input: Value, options: Options, now: int): Workflow {
    Workflow(key, name, Active, input, options.priority, 1, options.maxAttempts, options.stuckTimeout, None, None, now)
  }

  /** The upserted id. A duplicate key keeps the old row, and its task insert selects nothing. */
  ghost function InsertWorkflow(db: Tables, id: Id, key: string, name: string, input: Value, options: Options,
                                task: Id, now: int): Option<(Tables, Id)>
  {
    if HasWorkflowKey(db, key) then
      Some((InsertTask(db, task, id, options.scheduledAt), WorkflowWithKey(db, key)))
    else if id in db.workflows then
      None
    else
      var inserted := db.(workflows := db.workflows[id := NewWorkflow(key, name, input, options, now)]);
      Some((InsertTask(inserted, task, id, options.scheduledAt), id))
  }

  ghost function InsertSignal(db: Tables, id: Id, key: Key, wf: Id, name: string, input: Value,
                              task: Id, now: int): Option<Tables>
  {
    if HasSignalKey(db, key) || wf !in db.workflows || id in db.signals then
      None
    else
      Some(InsertTask(db.(signals := db.signals[id := Signal(key, wf, name, input)]), task, wf, now))
  }

  function NewActivity(key: Key, wf: Id, name: string, input: Value, options: Options): Activity {
    Activity(key, wf, name, Pending, input, "", options.priority, 0, options.maxAttempts, options.stuckTimeout,
             options.scheduledAt, None, None, None, None)
  }

  /** ON CONFLICT (idempotency_key) DO NOTHING, then the foreign key. */
  ghost function InsertActivity(db: Tables, id: Id, key: Key, wf: Id, name: string, input: Value,
                                options: Options): Option<Tables> {
    if HasActivityKey(db, key) then
      Some(db)
    else if wf !in db.workflows || id in db.activities then
      None
    else
      Some(db.(activities := db.activities[id := NewActivity(key, wf, name, input, options)]))
  }

  function ClaimedTask(t: Task, now: int): Task {
    t.(status := Running, runAt := Some(now), stuckAt := Some(now + t.stuckTimeout))
  }

  function ClaimedActivity(a: Activity, now: int): Activity {
    a.(status := Running, attempts := a.attempts + 1, runAt := Some(now), stuckAt := Some(now + a.stuckTimeout))
  }

  function ClaimTask(db: Tables, id: Id, now: int): Tables
    requires id in db.tasks
  {
    db.(tasks := db.tasks[id := ClaimedTask(db.tasks[id], now)])
  }

  function ClaimActivity(db: Tables, id: Id, now: int): Tables
    requires id in db.activities
  {
    db.(activities := db.activities[id := ClaimedActivity(db.activities[id], now)])
  }

  /** The claim statements' UPDATE, on all candidates at once. */
  function ClaimTasks(db: Tables, ids: set<Id>, now: int): Tables {
    db.(tasks := map x | x in db.tasks :: if x in ids then ClaimedTask(db.tasks[x], now) else db.tasks[x])
  }

  function ClaimActivities(db: Tables, ids: set<Id>, now: int): Tables {
    db.(activities := map x | x in db.activities :: if x in ids then ClaimedActivity(db.activities[x], now)
      else db.activities[x])
  }

  function SetTask(db: Tables, id: Id, t: Task): Tables {
    db.(tasks := db.tasks[id := t])
  }

  function SetWorkflow(db: Tables, id: Id, w: Workflow): Tables {
    db.(workflows := db.workflows[id := w])
  }

  function SetActivity(db: Tables, id: Id, a: Activity): Tables {
    db.(activities := db.activities[id := a])
  }

  function CompleteTask(db: Tables, id: Id, wf: Id, now: int): Option<Tables> {
    if id !in db.tasks || wf !in db.workflows then None
    else
      Some(SetWorkflow(
        SetTask(db, id, db.tasks[id].(status := Completed, completedAt := Some(now))),
        wf, db.workflows[wf].(error := None)))
  }

  function RescheduleTask(db: Tables, id: Id, wf: Id, scheduledAt: int, message: string): Option<Tables> {
    if id !in db.tasks || wf !in db.workflows then None
    else
      var w := db.workflows[wf];
      Some(SetWorkflow(
        SetTask(db, id, db.tasks[id].(status := Pending, scheduledAt := scheduledAt)),
        wf, w.(attempts := w.attempts + 1, error := Some(message))))
  }

  function FailWorkflow(w: Workflow, message: string, now: int): Workflow {
    w.(status := Dead, error := Some(message), completedAt := Some(now))
  }

  function FailTask(db: Tables, id: Id, wf: Id, message: string, now: int): Option<Tables> {
    if id !in db.tasks || wf !in db.workflows then None
    else
      Some(SetWorkflow(
        SetTask(db, id, db.tasks[id].(status := Failed, completedAt := Some(now))),
        wf, FailWorkflow(db.workflows[wf], message, now)))
  }

  function CompleteWorkflow(db: Tables, wf: Id, now: int): Option<Tables> {
    if wf !in db.workflows then None
    else Some(SetWorkflow(db, wf, db.workflows[wf].(status := Succeeded, completedAt := Some(now), error := None)))
  }

  function CompleteActivity(db: Tables, id: Id, wf: Id, output: Value, task: Id, now: int): Option<Tables> {
    if id !in db.activities then None
    else
      Some(InsertTask(
        SetActivity(db, id,
          db.activities[id].(status := Completed, output := output, completedAt := Some(now), error := None)),
        task, wf, now))
  }

  function RescheduleActivity(db: Tables, id: Id, scheduledAt: int, message: string): Option<Tables> {
    if id !in db.activities then None
    else
      Some(SetActivity(db, id,
        db.activities[id].(status := Pending, scheduledAt := scheduledAt, error := Some(message))))
  }

  function FailActivity(db: Tables, id: Id, wf: Id, message: string, now: int): Option<Tables> {
    if id !in db.activities || wf !in db.workflows then None
    else
      Some(SetWorkflow(
        SetActivity(db, id, db.activities[id].(status := Failed, error := Some(message), completedAt := Some(now))),
        wf, FailWorkflow(db.workflows[wf], message, now)))
  }

  predicate Expired(db: Tables, status: WorkflowStatus, cutoff: int, i: Id) {
    i in db.workflows && db.workflows[i].status == status && db.workflows[i].createdAt < cutoff
  }

  function ExpiredSet(db: Tables, status: WorkflowStatus, cutoff: int): set<Id> {
    set i | i in db.workflows && Expired(db, status, cutoff, i)
  }

  /** DELETE with its three cascades. */
  function DeleteWorkflows(db: Tables, ids: set<Id>): Tables {
    Tables(
      db.workflows - ids,
      map t | t in db.tasks && db.tasks[t].wf !in ids :: db.tasks[t],
      map a | a in db.activities && db.activities[a].wf !in ids :: db.activities[a],
      map g | g in db.signals && db.signals[g].wf !in ids :: db.signals[g])
  }
}
