/** The four tables of the engine as values, and what their constraints promise. */
module Schema {

  datatype Option<+T> = None | Some(value: T)

  // Version 7 ids. Freshness is modelled by drawing them from one growing counter.
  type Id = nat

  // Encoded payloads are opaque to the engine.
  type Value = string

  // A name-based (version 5) id: an injective function of its namespace and its tag.
  // By default the namespace is the workflow and the tag is name + discriminator.
  datatype Key = Key(space: Id, tag: string)

  type Events = map<Key, Value>

  datatype WorkflowStatus = Active | Aborted | Succeeded | Dead

  datatype JobStatus = Pending | Running | Completed | Failed

  datatype Options = Options(priority: int, maxAttempts: nat, stuckTimeout: int, scheduledAt: int)

  datatype Workflow = Workflow(
    key: string,
    name: string,
    status: WorkflowStatus,
    input: Value,
    priority: int,
    attempts: nat,
    maxAttempts: nat,
    stuckTimeout: int,
    completedAt: Option<int>,
    error: Option<string>,
    createdAt: int)

  datatype Task = Task(
    wf: Id,
    name: string,
    status: JobStatus,
    priority: int,
    stuckTimeout: int,
    scheduledAt: int,
    runAt: Option<int>,
    stuckAt: Option<int>,
    completedAt: Option<int>)

  datatype Activity = Activity(
    key: Key,
    wf: Id,
    name: string,
    status: JobStatus,
    input: Value,
    output: Value,
    priority: int,
    attempts: nat,
    maxAttempts: nat,
    stuckTimeout: int,
    scheduledAt: int,
    runAt: Option<int>,
    stuckAt: Option<int>,
    completedAt: Option<int>,
    error: Option<string>)

  datatype Signal = Signal(key: Key, wf: Id, name: string, input: Value)

  datatype Tables = Tables(
    workflows: map<Id, Workflow>,
    tasks: map<Id, Task>,
    activities: map<Id, Activity>,
    signals: map<Id, Signal>)

  const EMPTY_TABLES := Tables(map[], map[], map[], map[])

  predicate Open(status: JobStatus) {
    status == Pending || status == Running
  }

  /** A row the claim queries may pick: due, or running past its lease. */
  predicate Ready(status: JobStatus, scheduledAt: int, stuckAt: Option<int>, now: int) {
    || (status == Pending && scheduledAt <= now)
    || (status == Running && stuckAt.Some? && stuckAt.value <= now)
  }

  predicate TaskReady(t: Task, now: int) {
    Ready(t.status, t.scheduledAt, t.stuckAt, now)
  }

  predicate ActivityReady(a: Activity, now: int) {
    Ready(a.status, a.scheduledAt, a.stuckAt, now)
  }

  ghost predicate WorkflowKeysUnique(db: Tables) {
    forall i, j :: i in db.workflows && j in db.workflows && db.workflows[i].key == db.workflows[j].key ==> i == j
  }

  ghost predicate ActivityKeysUnique(db: Tables) {
    forall i, j :: i in db.activities && j in db.activities && db.activities[i].key == db.activities[j].key ==> i == j
  }

  ghost predicate SignalKeysUnique(db: Tables) {
    forall i, j :: i in db.signals && j in db.signals && db.signals[i].key == db.signals[j].key ==> i == j
  }

  ghost predicate ForeignKeys(db: Tables) {
    && (forall t :: t in db.tasks ==> db.tasks[t].wf in db.workflows)
    && (forall a :: a in db.activities ==> db.activities[a].wf in db.workflows)
    && (forall g :: g in db.signals ==> db.signals[g].wf in db.workflows)
  }

  /** What the migration's constraints promise of every committed state. */
  ghost predicate Consistent(db: Tables) {
    WorkflowKeysUnique(db) && ActivityKeysUnique(db) && SignalKeysUnique(db) && ForeignKeys(db)
  }

  predicate Recorded(db: Tables, wf: Id, a: Id) {
    a in db.activities && db.activities[a].wf == wf && db.activities[a].status == Completed
  }

  predicate Delivered(db: Tables, wf: Id, g: Id) {
    g in db.signals && db.signals[g].wf == wf
  }

  ghost function RecordedOutput(db: Tables, wf: Id, k: Key): Value
    requires exists a :: Recorded(db, wf, a) && db.activities[a].key == k
  {
    var a :| Recorded(db, wf, a) && db.activities[a].key == k;
    db.activities[a].output
  }

  ghost function DeliveredInput(db: Tables, wf: Id, k: Key): Value
    requires exists g :: Delivered(db, wf, g) && db.signals[g].key == k
  {
    var g :| Delivered(db, wf, g) && db.signals[g].key == k;
    db.signals[g].input
  }

  /** The completed activity outputs of a workflow, by key. */
  ghost function History(db: Tables, wf: Id): Events {
    map k | k in (set a | a in db.activities && Recorded(db, wf, a) :: db.activities[a].key) ::
      RecordedOutput(db, wf, k)
  }

  /** The signals ever delivered to a workflow, by key. */
  ghost function Signals(db: Tables, wf: Id): Events {
    map k | k in (set g | g in db.signals && Delivered(db, wf, g) :: db.signals[g].key) :: DeliveredInput(db, wf, k)
  }

  /** Every event of e is in f with the same value. */
  ghost predicate Within(e: Events, f: Events) {
    forall k :: k in e ==> k in f && f[k] == e[k]
  }

  lemma SameEvents(e: Events, f: Events)
    requires Within(e, f) && Within(f, e)
    ensures e == f
  {
    assert forall k :: k in e <==> k in f;
  }

  lemma RecordedInHistory(db: Tables, wf: Id, a: Id)
    requires ActivityKeysUnique(db) && Recorded(db, wf, a)
    ensures db.activities[a].key in History(db, wf)
    ensures History(db, wf)[db.activities[a].key] == db.activities[a].output
  {
    assert db.activities[a].key in History(db, wf);
  }

  lemma HistoryIsRecorded(db: Tables, wf: Id, k: Key) returns (a: Id)
    requires ActivityKeysUnique(db) && k in History(db, wf)
    ensures Recorded(db, wf, a) && db.activities[a].key == k && db.activities[a].output == History(db, wf)[k]
  {
    a :| Recorded(db, wf, a) && db.activities[a].key == k;
    RecordedInHistory(db, wf, a);
  }

  lemma DeliveredInSignals(db: Tables, wf: Id, g: Id)
    requires SignalKeysUnique(db) && Delivered(db, wf, g)
    ensures db.signals[g].key in Signals(db, wf)
    ensures Signals(db, wf)[db.signals[g].key] == db.signals[g].input
  {
    assert db.signals[g].key in Signals(db, wf);
  }

  lemma SignalIsDelivered(db: Tables, wf: Id, k: Key) returns (g: Id)
    requires SignalKeysUnique(db) && k in Signals(db, wf)
    ensures Delivered(db, wf, g) && db.signals[g].key == k && db.signals[g].input == Signals(db, wf)[k]
  {
    g :| Delivered(db, wf, g) && db.signals[g].key == k;
    DeliveredInSignals(db, wf, g);
  }
}
