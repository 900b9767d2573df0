/** The Postgres storage as an object: each method runs the statements of one transaction on the four tables in place,
    and is proved to commit what its specification in Transactions says, or to leave the tables alone. */
module Postgres {
  import opened Sets
  import opened Schema
  import opened Transactions
  import opened ClaimQuery

  datatype Fault = NoRow | Violated | Infrastructure

  datatype Result<T> = Ok(value: T) | Err(fault: Fault)

  /** A transaction either commits as specified or changes nothing; short of an infrastructure fault
      it fails only where its specification does. */
  predicate Settled<T>(r: Result<T>, before: Tables, after: Tables, tx: Option<Tables>) {
    match r
    case Ok(_) => tx == Some(after)
    case Err(fault) => after == before && (fault != Infrastructure ==> tx == None)
  }

  datatype TaskRecord = TaskRecord(id: Id, task: Task, workflow: Workflow)

  datatype ActivityRecord = ActivityRecord(id: Id, activity: Activity)

  predicate Named(names: seq<string>, name: string) {
    names == [] || name in names
  }

  /** The rows the claim query is about, by status and name. */
  function ReadyTasks(db: Tables, names: seq<string>, now: int): map<Id, Slot> {
    map x | x in db.tasks && TaskReady(db.tasks[x], now) && Named(names, db.tasks[x].name) ::
      Slot(db.tasks[x].priority, db.tasks[x].scheduledAt)
  }

  function ReadyActivities(db: Tables, names: seq<string>, now: int): map<Id, Slot> {
    map x | x in db.activities && ActivityReady(db.activities[x], now) && Named(names, db.activities[x].name) ::
      Slot(db.activities[x].priority, db.activities[x].scheduledAt)
  }

  /** What makes a row ready, in its own columns. */
  lemma ReadyTasksIff(db: Tables, names: seq<string>, now: int, x: Id)
    ensures x in ReadyTasks(db, names, now) <==>
      && x in db.tasks && (names == [] || db.tasks[x].name in names)
      && ((db.tasks[x].status == Pending && db.tasks[x].scheduledAt <= now)
          || (db.tasks[x].status == Running && db.tasks[x].stuckAt != None && db.tasks[x].stuckAt.value <= now))
  {
  }

  /** A claimed row is ready again, for whoever asks for its name, exactly from the end of its lease on. */
  lemma TaskLeaseIff(db: Tables, ids: set<Id>, now: int, names: seq<string>, later: int, x: Id)
    requires x in ids && x in db.tasks && (names == [] || db.tasks[x].name in names)
    ensures x in ReadyTasks(ClaimTasks(db, ids, now), names, later) <==> now + db.tasks[x].stuckTimeout <= later
  {
  }

  /** What makes a row ready, in its own columns. */
  lemma ReadyActivitiesIff(db: Tables, names: seq<string>, now: int, x: Id)
    ensures x in ReadyActivities(db, names, now) <==>
      && x in db.activities && (names == [] || db.activities[x].name in names)
      && ((db.activities[x].status == Pending && db.activities[x].scheduledAt <= now)
          || (db.activities[x].status == Running && db.activities[x].stuckAt != None
               && db.activities[x].stuckAt.value <= now))
  {
  }

  /** A claimed row is ready again, for whoever asks for its name, exactly from the end of its lease on. */
  lemma ActivityLeaseIff(db: Tables, ids: set<Id>, now: int, names: seq<string>, later: int, x: Id)
    requires x in ids && x in db.activities && (names == [] || db.activities[x].name in names)
    ensures x in ReadyActivities(ClaimActivities(db, ids, now), names, later) <==>
      now + db.activities[x].stuckTimeout <= later
  {
  }

  /** What claiming these ready rows means, in their own columns. */
  lemma ClaimedTasksMean(db: Tables, ids: set<Id>, names: seq<string>, now: int)
    requires ids <= ReadyTasks(db, names, now).Keys
    ensures var after := ClaimTasks(db, ids, now);
      forall x :: x in ids ==>
        && x in after.tasks && x in db.tasks && (names == [] || after.tasks[x].name in names)
        && after.tasks[x].status == Running && after.tasks[x].runAt == Some(now)
        && forall later: int :: x in ReadyTasks(after, [], later) <==> now + after.tasks[x].stuckTimeout <= later
  {
    forall x | x in ids
      ensures x in db.tasks && (names == [] || db.tasks[x].name in names)
      ensures forall later: int ::
        x in ReadyTasks(ClaimTasks(db, ids, now), [], later) <==> now + db.tasks[x].stuckTimeout <= later
    {
      ReadyTasksIff(db, names, now, x);
      forall later: int
        ensures x in ReadyTasks(ClaimTasks(db, ids, now), [], later) <==> now + db.tasks[x].stuckTimeout <= later
      {
        TaskLeaseIff(db, ids, now, [], later, x);
      }
    }
  }

  /** What claiming these ready rows means, in their own columns. */
  lemma ClaimedActivitiesMean(db: Tables, ids: set<Id>, names: seq<string>, now: int)
    requires ids <= ReadyActivities(db, names, now).Keys
    ensures var after := ClaimActivities(db, ids, now);
      forall x :: x in ids ==>
        && x in after.activities && x in db.activities && (names == [] || after.activities[x].name in names)
        && after.activities[x].status == Running && after.activities[x].runAt == Some(now)
        && after.activities[x].attempts == db.activities[x].attempts + 1
        && forall later: int :: x in ReadyActivities(after, [], later) <==>
          now + after.activities[x].stuckTimeout <= later
  {
    forall x | x in ids
      ensures x in db.activities && (names == [] || db.activities[x].name in names)
      ensures forall later: int ::
        x in ReadyActivities(ClaimActivities(db, ids, now), [], later) <==> now + db.activities[x].stuckTimeout <= later
    {
      ReadyActivitiesIff(db, names, now, x);
      forall later: int
        ensures x in ReadyActivities(ClaimActivities(db, ids, now), [], later) <==>
          now + db.activities[x].stuckTimeout <= later
      {
        ActivityLeaseIff(db, ids, now, [], later, x);
      }
    }
  }

  /** A set in ascending order. */
  ghost predicate Lists(rows: seq<Id>, ids: set<Id>) {
    && (forall i, j :: 0 <= i < j < |rows| ==> rows[i] < rows[j])
    && (forall x :: x in ids <==> x in rows)
  }

  method OrderById(ids: set<Id>) returns (rows: seq<Id>)
    ensures Lists(rows, ids)
  {
    rows := [];
    var left := ids;
    while left != {}
      invariant left <= ids && Lists(rows, ids - left)
      invariant forall i, x :: 0 <= i < |rows| && x in left ==> rows[i] < x
      decreases left
    {
      var least :| least in left;
      var rest := left - {least};
      while rest != {}
        invariant rest <= left && least in left
        invariant forall x :: x in left && x !in rest ==> least <= x
        decreases rest
      {
        var x :| x in rest;
        if x < least {
          least := x;
        }
        rest := rest - {x};
      }
      rows, left := rows + [least], left - {least};
    }
  }

  datatype Row = Row(key: Key, value: Value)

  /** The rows are all of the events, and nothing else. */
  ghost predicate Covers(rows: seq<Row>, events: Events) {
    && (forall i :: 0 <= i < |rows| ==> rows[i].key in events && events[rows[i].key] == rows[i].value)
    && (forall k :: k in events ==> exists i :: 0 <= i < |rows| && rows[i].key == k)
  }

  /** The loop that scans event rows into a map. */
  method ScanRows(rows: seq<Row>, ghost all: Events) returns (events: Events)
    requires Covers(rows, all)
    ensures events == all
  {
    events := map[];
    for i := 0 to |rows|
      invariant forall j :: 0 <= j < i ==> rows[j].key in events
      invariant forall k :: k in events ==> k in all && events[k] == all[k]
    {
      events := events[rows[i].key := rows[i].value];
    }
    assert events.Keys == all.Keys;
  }

  /** The completed activities of a workflow, by id. */
  method SelectHistory(db: Tables, wf: Id) returns (rows: seq<Row>)
    requires ActivityKeysUnique(db)
    ensures Covers(rows, History(db, wf))
  {
    var ids := OrderById(set a | a in db.activities && Recorded(db, wf, a));
    assert forall i :: 0 <= i < |ids| ==> ids[i] in ids;
    rows := seq(|ids|, i requires 0 <= i < |ids|
      && ids[i] in db.activities => Row(db.activities[ids[i]].key, db.activities[ids[i]].output));
    forall i | 0 <= i < |rows|
      ensures rows[i].key in History(db, wf) && History(db, wf)[rows[i].key] == rows[i].value
    {
      RecordedInHistory(db, wf, ids[i]);
    }
    forall k | k in History(db, wf)
      ensures exists i :: 0 <= i < |rows| && rows[i].key == k
    {
      var a := HistoryIsRecorded(db, wf, k);
      assert a in ids;
      var i :| 0 <= i < |ids| && ids[i] == a;
      assert rows[i].key == k;
    }
  }

  /** The signals of a workflow, by id. */
  method SelectSignals(db: Tables, wf: Id) returns (rows: seq<Row>)
    requires SignalKeysUnique(db)
    ensures Covers(rows, Signals(db, wf))
  {
    var ids := OrderById(set g | g in db.signals && Delivered(db, wf, g));
    assert forall i :: 0 <= i < |ids| ==> ids[i] in ids;
    rows := seq(|ids|, i requires 0 <= i < |ids|
      && ids[i] in db.signals => Row(db.signals[ids[i]].key, db.signals[ids[i]].input));
    forall i | 0 <= i < |rows|
      ensures rows[i].key in Signals(db, wf) && Signals(db, wf)[rows[i].key] == rows[i].value
    {
      DeliveredInSignals(db, wf, ids[i]);
    }
    forall k | k in Signals(db, wf)
      ensures exists i :: 0 <= i < |rows| && rows[i].key == k
    {
      var g := SignalIsDelivered(db, wf, k);
      assert g in ids;
      var i :| 0 <= i < |ids| && ids[i] == g;
      assert rows[i].key == k;
    }
  }

  function Ids(records: seq<TaskRecord>): seq<Id> {
    seq(|records|, i requires 0 <= i < |records| => records[i].id)
  }

  function JobIds(records: seq<ActivityRecord>): seq<Id> {
    seq(|records|, i requires 0 <= i < |records| => records[i].id)
  }

  function DueTasks(db: Tables, names: seq<string>, now: int): map<Id, Slot> {
    map x | x in db.tasks && db.tasks[x].status == Pending && db.tasks[x].scheduledAt <= now
      && Named(names, db.tasks[x].name) ::
      Slot(db.tasks[x].priority, db.tasks[x].scheduledAt)
  }

  function StuckTasks(db: Tables, names: seq<string>, now: int): map<Id, Slot> {
    map x | x in db.tasks && db.tasks[x].status == Running && db.tasks[x].stuckAt.Some?
      && db.tasks[x].stuckAt.value <= now
      && Named(names, db.tasks[x].name) :: Slot(db.tasks[x].priority, db.tasks[x].scheduledAt)
  }

  lemma ReadyTasksSplit(db: Tables, names: seq<string>, now: int)
    ensures DueTasks(db, names, now) + StuckTasks(db, names, now) == ReadyTasks(db, names, now)
    ensures DueTasks(db, names, now).Keys !! StuckTasks(db, names, now).Keys
    ensures forall x :: x in ReadyTasks(db, names, now) ==> x in db.tasks
  {
  }

  /** The candidates of a claim of tasks. */
  method CandidateTasks(db: Tables, names: seq<string>, batchSize: nat, now: int) returns (picks: seq<Id>)
    ensures forall i :: 0 <= i < |picks| ==> picks[i] in db.tasks
    ensures |Picked(picks)| == |picks|
    ensures IsBest(Picked(picks), ReadyTasks(db, names, now), batchSize)
    ensures forall x, y :: x in Picked(picks) && y in ReadyTasks(db, names, now) && y !in Picked(picks) ==>
      || db.tasks[x].priority > db.tasks[y].priority
      || (db.tasks[x].priority == db.tasks[y].priority && db.tasks[x].scheduledAt <= db.tasks[y].scheduledAt)
  {
    ReadyTasksSplit(db, names, now);
    picks := ClaimCandidates(DueTasks(db, names, now), StuckTasks(db, names, now), batchSize);
    PickedSize(picks);
    assert forall x :: x in Picked(picks) ==> x in ReadyTasks(db, names, now);
  }

  function DueActivities(db: Tables, names: seq<string>, now: int): map<Id, Slot> {
    map x | x in db.activities && db.activities[x].status == Pending && db.activities[x].scheduledAt <= now
      && Named(names, db.activities[x].name) ::
      Slot(db.activities[x].priority, db.activities[x].scheduledAt)
  }

  function StuckActivities(db: Tables, names: seq<string>, now: int): map<Id, Slot> {
    map x | x in db.activities && db.activities[x].status == Running && db.activities[x].stuckAt.Some?
      && db.activities[x].stuckAt.value <= now
      && Named(names, db.activities[x].name) :: Slot(db.activities[x].priority, db.activities[x].scheduledAt)
  }

  lemma ReadyActivitiesSplit(db: Tables, names: seq<string>, now: int)
    ensures DueActivities(db, names, now) + StuckActivities(db, names, now) == ReadyActivities(db, names, now)
    ensures DueActivities(db, names, now).Keys !! StuckActivities(db, names, now).Keys
    ensures forall x :: x in ReadyActivities(db, names, now) ==> x in db.activities
  {
  }

  /** The candidates of a claim of activities. */
  method CandidateActivities(db: Tables, names: seq<string>, batchSize: nat, now: int) returns (picks: seq<Id>)
    ensures forall i :: 0 <= i < |picks| ==> picks[i] in db.activities
    ensures |Picked(picks)| == |picks|
    ensures IsBest(Picked(picks), ReadyActivities(db, names, now), batchSize)
    ensures forall x, y :: x in Picked(picks) && y in ReadyActivities(db, names, now) && y !in Picked(picks) ==>
      || db.activities[x].priority > db.activities[y].priority
      || (db.activities[x].priority == db.activities[y].priority
           && db.activities[x].scheduledAt <= db.activities[y].scheduledAt)
  {
    ReadyActivitiesSplit(db, names, now);
    picks := ClaimCandidates(DueActivities(db, names, now), StuckActivities(db, names, now), batchSize);
    PickedSize(picks);
    assert forall x :: x in Picked(picks) ==> x in ReadyActivities(db, names, now);
  }

  /** What deleting these expired workflows means, in their own columns. */
  lemma DeletedMean(db: Tables, status: WorkflowStatus, cutoff: int, ids: set<Id>)
    requires ids <= ExpiredSet(db, status, cutoff)
    ensures db.workflows.Keys - (db.workflows - ids).Keys == ids
    ensures forall w :: w in ids ==>
      w in db.workflows && db.workflows[w].status == status && db.workflows[w].createdAt < cutoff
    ensures |ids| == |ExpiredSet(db, status, cutoff)| ==> forall w :: w in db.workflows && w !in ids ==>
      db.workflows[w].status != status || db.workflows[w].createdAt >= cutoff
  {
    if |ids| == |ExpiredSet(db, status, cutoff)| {
      SubsetSize(ids, ExpiredSet(db, status, cutoff));
      forall w | w in db.workflows && w !in ids
        ensures db.workflows[w].status != status || db.workflows[w].createdAt >= cutoff
      {
        assert w !in ExpiredSet(db, status, cutoff);
      }
    }
  }

  /** LIMIT without an order. */
  method TakeAny(all: set<Id>, limit: nat) returns (ids: set<Id>)
    ensures ids <= all && |ids| == Least(limit, |all|)
  {
    ids := {};
    var left := all;
    while left != {} && |ids| < limit
      invariant ids !! left && ids + left == all && |ids| <= limit
      decreases left
    {
      var i :| i in left;
      left, ids := left - {i}, ids + {i};
    }
    assert |all| == |ids| + |left|;
  }

  class Storage {
    var workflows: map<Id, Workflow>
    var tasks: map<Id, Task>
    var activities: map<Id, Activity>
    var signals: map<Id, Signal>

    constructor ()
      ensures Db() == EMPTY_TABLES
    {
      workflows, tasks, activities, signals := map[], map[], map[], map[];
    }

    /** The committed contents. */
    function Db(): Tables
      reads this
    {
      Tables(workflows, tasks, activities, signals)
    }

    method Rollback(saved: Tables)
      modifies this
      ensures Db() == saved
    {
      workflows, tasks, activities, signals := saved.workflows, saved.tasks, saved.activities, saved.signals;
    }

    /** COMMIT may still fail, and then nothing has happened. */
    method EndTransaction(saved: Tables, done: Result<()>) returns (r: Result<()>)
      modifies this
      ensures r == done || r == Err(Infrastructure)
      ensures r.Ok? ==> Db() == old(Db())
      ensures r.Err? ==> Db() == saved
    {
      r := done;
      if * {
        r := Err(Infrastructure);
      }
      if r.Err? {
        Rollback(saved);
      }
    }

    // ---- single statements: they touch one table, and fail when they affect no row ----

    method AddTask(id: Id, wf: Id, scheduledAt: int) returns (r: Result<()>)
      modifies this`tasks
      ensures r.Ok? ==> Db() == InsertTask(old(Db()), id, wf, scheduledAt)
      ensures r.Err? ==> r.fault == Infrastructure && Db() == old(Db())
    {
      if * {
        return Err(Infrastructure);
      }
      if wf in workflows && id !in tasks {
        var w := workflows[wf];
        tasks := tasks[id := Task(wf, w.name, Pending, w.priority, w.stuckTimeout, scheduledAt, None, None, None)];
      }
      r := Ok(());
    }

    method UpdateTask(id: Id, change: Task -> Task) returns (r: Result<()>)
      modifies this`tasks
      ensures r.Ok? ==> id in old(tasks) && tasks == old(tasks)[id := change(old(tasks)[id])]
      ensures r.Err? ==> tasks == old(tasks) && (r.fault != Infrastructure ==> id !in tasks)
    {
      if * {
        return Err(Infrastructure);
      }
      if id !in tasks {
        return Err(NoRow);
      }
      tasks := tasks[id := change(tasks[id])];
      r := Ok(());
    }

    method UpdateWorkflow(id: Id, change: Workflow -> Workflow) returns (r: Result<()>)
      modifies this`workflows
      ensures r.Ok? ==> id in old(workflows) && workflows == old(workflows)[id := change(old(workflows)[id])]
      ensures r.Err? ==> workflows == old(workflows) && (r.fault != Infrastructure ==> id !in workflows)
    {
      if * {
        return Err(Infrastructure);
      }
      if id !in workflows {
        return Err(NoRow);
      }
      workflows := workflows[id := change(workflows[id])];
      r := Ok(());
    }

    method UpdateActivity(id: Id, change: Activity -> Activity) returns (r: Result<()>)
      modifies this`activities
      ensures r.Ok? ==> id in old(activities) && activities == old(activities)[id := change(old(activities)[id])]
      ensures r.Err? ==> activities == old(activities) && (r.fault != Infrastructure ==> id !in activities)
    {
      if * {
        return Err(Infrastructure);
      }
      if id !in activities {
        return Err(NoRow);
      }
      activities := activities[id := change(activities[id])];
      r := Ok(());
    }

    // ---- workflows ----

    /** The upsert: a taken key keeps its row and yields its id. */
    method UpsertWorkflow(id: Id, key: string, name: string, input: Value, options: Options, now: int)
        returns (r: Result<Id>)
      modifies this`workflows
      ensures r.Ok? && HasWorkflowKey(old(Db()), key) ==>
        workflows == old(workflows) && r.value in workflows && workflows[r.value].key == key
      ensures r.Ok? && !HasWorkflowKey(old(Db()), key) ==>
        r.value == id && id !in old(workflows)
          && workflows == old(workflows)[id := NewWorkflow(key, name, input, options, now)]
      ensures r.Err? ==> workflows == old(workflows)
      ensures r.Err? && r.fault != Infrastructure ==> !HasWorkflowKey(old(Db()), key) && id in workflows
    {
      if * {
        return Err(Infrastructure);
      }
      if i :| i in workflows && workflows[i].key == key {
        return Ok(i);
      }
      if id in workflows {
        return Err(Violated);
      }
      workflows := workflows[id := NewWorkflow(key, name, input, options, now)];
      r := Ok(id);
    }

    method InsertWorkflow(id: Id, key: string, name: string, input: Value, options: Options, task: Id, now: int)
        returns (r: Result<Id>)
      requires WorkflowKeysUnique(Db())
      modifies this
      ensures var tx := Transactions.InsertWorkflow(old(Db()), id, key, name, input, options, task, now);
        match r
        case Ok(upserted) => tx == Some((Db(), upserted))
        case Err(fault) => Db() == old(Db()) && (fault != Infrastructure ==> tx == None)
    {
      var saved := Db();
      r := UpsertWorkflow(id, key, name, input, options, now);
      var done: Result<()> := if r.Ok? then Ok(()) else Err(r.fault);
      if done.Ok? {
        // The task goes to the fresh id, not to the upserted one.
        done := AddTask(task, id, options.scheduledAt);
      }
      done := EndTransaction(saved, done);
      if done.Err? {
        r := Err(done.fault);
      }
    }

    method CompleteWorkflow(wf: Id, now: int) returns (r: Result<()>)
      modifies this`workflows
      ensures Settled(r, old(Db()), Db(), Transactions.CompleteWorkflow(old(Db()), wf, now))
    {
      r := UpdateWorkflow(wf, (w: Workflow) => w.(status := Succeeded, completedAt := Some(now), error := None));
    }

    /** DELETE ... WHERE id IN (SELECT ... LIMIT n): any rows that qualify, as many as there can be. */
    method DeleteWorkflows(status: WorkflowStatus, cutoff: int, limit: nat) returns (r: Result<nat>)
      modifies this
      ensures r.Ok? ==> exists ids ::
        && ids <= ExpiredSet(old(Db()), status, cutoff)
        && |ids| == r.value == Least(limit, |ExpiredSet(old(Db()), status, cutoff)|)
        && Db() == Transactions.DeleteWorkflows(old(Db()), ids)
      ensures r.Ok? ==> r.value == |old(workflows).Keys - workflows.Keys| <= limit
      ensures r.Ok? ==> forall w :: w in workflows ==> w in old(workflows) && workflows[w] == old(workflows)[w]
      ensures r.Ok? ==> forall w :: w in old(workflows) && w !in workflows ==>
        old(workflows)[w].status == status && old(workflows)[w].createdAt < cutoff
      ensures r.Ok? && r.value < limit ==> forall w :: w in workflows ==>
        workflows[w].status != status || workflows[w].createdAt >= cutoff
      ensures r.Err? ==> r.fault == Infrastructure && Db() == old(Db())
    {
      if * {
        return Err(Infrastructure);
      }
      var ids := TakeAny(ExpiredSet(Db(), status, cutoff), limit);
      DeletedMean(Db(), status, cutoff, ids);
      Delete(ids);
      r := Ok(|ids|);
    }

    /** The rows and, by cascade, everything of theirs. */
    method Delete(ids: set<Id>)
      modifies this
      ensures Db() == Transactions.DeleteWorkflows(old(Db()), ids)
    {
      workflows := workflows - ids;
      tasks := map t | t in tasks && tasks[t].wf !in ids :: tasks[t];
      activities := map a | a in activities && activities[a].wf !in ids :: activities[a];
      signals := map g | g in signals && signals[g].wf !in ids :: signals[g];
    }

    /** Removes completed workflows only. */
    method DeleteColdWorkflows(cutoff: int, limit: nat) returns (r: Result<nat>)
      modifies this
      ensures forall w :: w in old(workflows) && w !in workflows ==>
        old(workflows)[w].status == Succeeded && old(workflows)[w].createdAt < cutoff
      ensures forall w :: w in workflows ==> w in old(workflows) && workflows[w] == old(workflows)[w]
      ensures r.Ok? ==> r.value == |old(workflows).Keys - workflows.Keys| <= limit
      ensures r.Ok? && r.value < limit ==> forall w :: w in workflows ==>
        workflows[w].status != Succeeded || workflows[w].createdAt >= cutoff
      ensures r.Err? ==> r.fault == Infrastructure && Db() == old(Db())
    {
      r := DeleteWorkflows(Succeeded, cutoff, limit);
    }

    /** Removes failed workflows only. */
    method DeleteDeadWorkflows(cutoff: int, limit: nat) returns (r: Result<nat>)
      modifies this
      ensures forall w :: w in old(workflows) && w !in workflows ==>
        old(workflows)[w].status == Dead && old(workflows)[w].createdAt < cutoff
      ensures forall w :: w in workflows ==> w in old(workflows) && workflows[w] == old(workflows)[w]
      ensures r.Ok? ==> r.value == |old(workflows).Keys - workflows.Keys| <= limit
      ensures r.Ok? && r.value < limit ==> forall w :: w in workflows ==>
        workflows[w].status != Dead || workflows[w].createdAt >= cutoff
      ensures r.Err? ==> r.fault == Infrastructure && Db() == old(Db())
    {
      r := DeleteWorkflows(Dead, cutoff, limit);
    }

    /** The rows of a workflow's completed activities, folded into a map by key. */
    method ListHistoryEventsForWorkflow(wf: Id) returns (r: Result<Events>)
      requires ActivityKeysUnique(Db())
      ensures r.Ok? ==> r.value == History(Db(), wf)
      ensures r.Err? ==> r.fault == Infrastructure
    {
      if * {
        return Err(Infrastructure);
      }
      var rows := SelectHistory(Db(), wf);
      var events := ScanRows(rows, History(Db(), wf));
      r := Ok(events);
    }

    // ---- workflow tasks ----

    /** Claims the best ready tasks, at most batchSize, and returns each once, joined with its workflow. */
    method ListActiveWorkflowTasks(names: seq<string>, batchSize: nat, now: int) returns (r: Result<seq<TaskRecord>>)
      requires ForeignKeys(Db())
      modifies this`tasks
      ensures r.Ok? ==>
        && |Picked(Ids(r.value))| == |r.value|
           && IsBest(Picked(Ids(r.value)), ReadyTasks(old(Db()), names, now), batchSize)
        && Db() == ClaimTasks(old(Db()), Picked(Ids(r.value)), now)
      ensures r.Ok? ==> forall x, y ::
        x in Picked(Ids(r.value)) && y in ReadyTasks(old(Db()), names, now) && y !in Picked(Ids(r.value)) ==>
          || old(tasks)[x].priority > old(tasks)[y].priority
          || (old(tasks)[x].priority == old(tasks)[y].priority
               && old(tasks)[x].scheduledAt <= old(tasks)[y].scheduledAt)
      ensures r.Ok? ==> forall x :: x in Picked(Ids(r.value)) ==>
        && x in tasks && x in old(tasks) && (names == [] || tasks[x].name in names)
        && tasks[x].status == Running && tasks[x].runAt == Some(now)
        && forall later: int :: x in ReadyTasks(Db(), [], later) <==> now + tasks[x].stuckTimeout <= later
      ensures r.Ok? ==> forall x :: x in r.value ==>
        x.id in tasks && x.task == tasks[x.id] && x.task.wf in workflows && x.workflow == workflows[x.task.wf]
      ensures r.Err? ==> r.fault == Infrastructure && Db() == old(Db())
    {
      if * {
        return Err(Infrastructure);
      }
      var picks := CandidateTasks(Db(), names, batchSize, now);
      var claimed := Picked(picks);
      ClaimedTasksMean(Db(), claimed, names, now);
      tasks := map x | x in tasks :: if x in claimed then ClaimedTask(tasks[x], now) else tasks[x];
      assert Db() == ClaimTasks(old(Db()), claimed, now);
      var records := ScanTasks(picks);
      r := Ok(records);
    }

    /** The row loop that joins each claimed task with its workflow. */
    method ScanTasks(picks: seq<Id>) returns (records: seq<TaskRecord>)
      requires forall i :: 0 <= i < |picks| ==> picks[i] in tasks && tasks[picks[i]].wf in workflows
      ensures Ids(records) == picks
      ensures forall x :: x in records ==>
        x.id in tasks && x.task == tasks[x.id] && x.task.wf in workflows && x.workflow == workflows[x.task.wf]
    {
      records := [];
      for i := 0 to |picks|
        invariant Ids(records) == picks[..i]
        invariant forall x :: x in records ==>
          x.id in tasks && x.task == tasks[x.id] && x.task.wf in workflows && x.workflow == workflows[x.task.wf]
      {
        var t := tasks[picks[i]];
        records := records + [TaskRecord(picks[i], t, workflows[t.wf])];
      }
    }

    method CompleteWorkflowTask(task: Id, wf: Id, now: int) returns (r: Result<()>)
      modifies this
      ensures Settled(r, old(Db()), Db(), Transactions.CompleteTask(old(Db()), task, wf, now))
    {
      var saved := Db();
      r := UpdateTask(task, (t: Task) => t.(status := Completed, completedAt := Some(now)));
      if r.Ok? {
        r := UpdateWorkflow(wf, (w: Workflow) => w.(error := None));
      }
      r := EndTransaction(saved, r);
    }

    method ReScheduleWorkflowTask(task: Id, wf: Id, scheduledAt: int, message: string) returns (r: Result<()>)
      modifies this
      ensures Settled(r, old(Db()), Db(), Transactions.RescheduleTask(old(Db()), task, wf, scheduledAt, message))
    {
      var saved := Db();
      r := UpdateTask(task, (t: Task) => t.(status := Pending, scheduledAt := scheduledAt));
      if r.Ok? {
        r := UpdateWorkflow(wf, (w: Workflow) => w.(attempts := w.attempts + 1, error := Some(message)));
      }
      r := EndTransaction(saved, r);
    }

    method FailWorkflowTask(task: Id, wf: Id, message: string, now: int) returns (r: Result<()>)
      modifies this
      ensures Settled(r, old(Db()), Db(), Transactions.FailTask(old(Db()), task, wf, message, now))
    {
      var saved := Db();
      r := UpdateTask(task, (t: Task) => t.(status := Failed, completedAt := Some(now)));
      if r.Ok? {
        r := UpdateWorkflow(wf, (w: Workflow) => FailWorkflow(w, message, now));
      }
      r := EndTransaction(saved, r);
    }

    // ---- activities ----

    method InsertActivity(id: Id, key: Key, wf: Id, name: string, input: Value, options: Options)
        returns (r: Result<()>)
      modifies this`activities
      ensures Settled(r, old(Db()), Db(), Transactions.InsertActivity(old(Db()), id, key, wf, name, input, options))
    {
      if * {
        return Err(Infrastructure);
      }
      if a :| a in activities && activities[a].key == key {
        return Ok(());
      }
      if wf !in workflows || id in activities {
        return Err(Violated);
      }
      activities := activities[id := NewActivity(key, wf, name, input, options)];
      r := Ok(());
    }

    /** Claims the best ready activities, at most batchSize, counts the attempt and returns each once. */
    method ListActiveActivities(names: seq<string>, batchSize: nat, now: int) returns (r: Result<seq<ActivityRecord>>)
      modifies this`activities
      ensures r.Ok? ==>
        && |Picked(JobIds(r.value))| == |r.value|
           && IsBest(Picked(JobIds(r.value)), ReadyActivities(old(Db()), names, now), batchSize)
        && Db() == ClaimActivities(old(Db()), Picked(JobIds(r.value)), now)
      ensures r.Ok? ==> forall x, y ::
        x in Picked(JobIds(r.value)) && y in ReadyActivities(old(Db()), names, now) && y !in Picked(JobIds(r.value)) ==>
          || old(activities)[x].priority > old(activities)[y].priority
          || (old(activities)[x].priority == old(activities)[y].priority
               && old(activities)[x].scheduledAt <= old(activities)[y].scheduledAt)
      ensures r.Ok? ==> forall x :: x in Picked(JobIds(r.value)) ==>
        && x in activities && x in old(activities) && (names == [] || activities[x].name in names)
        && activities[x].status == Running && activities[x].runAt == Some(now)
        && activities[x].attempts == old(activities)[x].attempts + 1
        && forall later: int :: x in ReadyActivities(Db(), [], later) <==> now + activities[x].stuckTimeout <= later
      ensures r.Ok? ==> forall x :: x in r.value ==> x.id in activities && x.activity == activities[x.id]
      ensures r.Err? ==> r.fault == Infrastructure && Db() == old(Db())
    {
      if * {
        return Err(Infrastructure);
      }
      var picks := CandidateActivities(Db(), names, batchSize, now);
      var claimed := Picked(picks);
      ClaimedActivitiesMean(Db(), claimed, names, now);
      activities := map x | x in activities :: if x in claimed then ClaimedActivity(activities[x], now)
        else activities[x];
      assert Db() == ClaimActivities(old(Db()), claimed, now);
      var records := ScanActivities(picks);
      r := Ok(records);
    }

    method ScanActivities(picks: seq<Id>) returns (records: seq<ActivityRecord>)
      requires forall i :: 0 <= i < |picks| ==> picks[i] in activities
      ensures JobIds(records) == picks
      ensures forall x :: x in records ==> x.id in activities && x.activity == activities[x.id]
    {
      records := [];
      for i := 0 to |picks|
        invariant JobIds(records) == picks[..i]
        invariant forall x :: x in records ==> x.id in activities && x.activity == activities[x.id]
      {
        records := records + [ActivityRecord(picks[i], activities[picks[i]])];
      }
    }

    method CompleteActivity(id: Id, wf: Id, output: Value, task: Id, now: int) returns (r: Result<()>)
      modifies this
      ensures Settled(r, old(Db()), Db(), Transactions.CompleteActivity(old(Db()), id, wf, output, task, now))
    {
      var saved := Db();
      r := UpdateActivity(id, (a: Activity) =>
        a.(status := Completed, output := output, completedAt := Some(now), error := None));
      if r.Ok? {
        r := AddTask(task, wf, now);
      }
      r := EndTransaction(saved, r);
    }

    method ReScheduleActivity(id: Id, scheduledAt: int, message: string) returns (r: Result<()>)
      modifies this`activities
      ensures Settled(r, old(Db()), Db(), Transactions.RescheduleActivity(old(Db()), id, scheduledAt, message))
    {
      r := UpdateActivity(id, (a: Activity) =>
        a.(status := Pending, scheduledAt := scheduledAt, error := Some(message)));
    }

    method FailActivity(id: Id, wf: Id, message: string, now: int) returns (r: Result<()>)
      modifies this
      ensures Settled(r, old(Db()), Db(), Transactions.FailActivity(old(Db()), id, wf, message, now))
    {
      var saved := Db();
      r := UpdateActivity(id, (a: Activity) => a.(status := Failed, error := Some(message), completedAt := Some(now)));
      if r.Ok? {
        r := UpdateWorkflow(wf, (w: Workflow) => FailWorkflow(w, message, now));
      }
      r := EndTransaction(saved, r);
    }

    // ---- signals ----

    method AddSignal(id: Id, key: Key, wf: Id, name: string, input: Value) returns (r: Result<()>)
      modifies this`signals
      ensures r.Ok? ==>
        && !HasSignalKey(old(Db()), key) && wf in workflows && id !in old(signals)
        && signals == old(signals)[id := Signal(key, wf, name, input)]
      ensures r.Err? ==> signals == old(signals)
      ensures r.Err? && r.fault != Infrastructure ==> HasSignalKey(Db(), key) || wf !in workflows || id in signals
    {
      if * {
        return Err(Infrastructure);
      }
      if g :| g in signals && signals[g].key == key {
        return Err(Violated);
      }
      if wf !in workflows || id in signals {
        return Err(Violated);
      }
      signals := signals[id := Signal(key, wf, name, input)];
      r := Ok(());
    }

    method InsertSignal(id: Id, key: Key, wf: Id, name: string, input: Value, task: Id, now: int)
        returns (r: Result<()>)
      modifies this
      ensures Settled(r, old(Db()), Db(), Transactions.InsertSignal(old(Db()), id, key, wf, name, input, task, now))
    {
      var saved := Db();
      r := AddSignal(id, key, wf, name, input);
      if r.Ok? {
        r := AddTask(task, wf, now);
      }
      r := EndTransaction(saved, r);
    }

    /** Every signal ever delivered to a workflow, folded into a map by key. */
    method ListWorkflowSignals(wf: Id) returns (r: Result<Events>)
      requires SignalKeysUnique(Db())
      ensures r.Ok? ==> r.value == Signals(Db(), wf)
      ensures r.Err? ==> r.fault == Infrastructure
    {
      if * {
        return Err(Infrastructure);
      }
      var rows := SelectSignals(Db(), wf);
      var events := ScanRows(rows, Signals(Db(), wf));
      r := Ok(events);
    }
  }
}
