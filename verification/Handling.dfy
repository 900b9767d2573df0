/** What a worker does with one claim, statement by statement, proved to be a run of the machine in Engine.
    Other workers' steps in between are what the machine interleaves; here the worker runs alone. */
module Handling {
  import opened Schema
  import opened Transactions
  import opened Replay
  import opened Engine
  import opened Integrity
  import opened RunInvariants
  import opened Postgres

  /** The pending result of an activity or a signal. */
  datatype Future = Future(event: Option<Value>) {
    /** The value, or a suspension when the event has not been recorded yet. */
    function Get(): Answer {
      if event.Some? then Got(event.value) else NotYet
    }
  }

  /** A step on claim c. */
  predicate OnClaim(e: Step, c: Id) {
    || (OnRun(e) && !e.ClaimRun? && e.run == c)
    || ((e.JobReturns? || Settles(e) || e.CrashJob?) && e.job == c)
  }

  /** The tables and the id counter a worker sees are those of the machine after its steps es on claim c. */
  ghost predicate Mirrors(reg: Registry, s: State, es: seq<Step>, t: State, db: Tables, nextId: Id, c: Id) {
    && Runs(reg, s, es) && After(reg, s, es) == t && (forall e :: e in es ==> OnClaim(e, c))
    && t.db == db && t.nextId == nextId && t.now == s.now
  }

  class WorkflowContext {
    const storage: Storage
    const wf: Id
    const history: Events
    const signals: Events

    constructor (storage: Storage, wf: Id, history: Events, signals: Events)
      ensures this.storage == storage && this.wf == wf && this.history == history && this.signals == signals
    {
      this.storage, this.wf, this.history, this.signals := storage, wf, history, signals;
    }

    /** A recorded activity resolves at once and inserts nothing; any other is inserted under its key. */
    method ExecuteActivityAsync(call: Call, id: Id) returns (r: Result<Future>)
      modifies storage`activities
      ensures call.key in history ==> r == Ok(Future(Some(history[call.key]))) && storage.Db() == old(storage.Db())
      ensures call.key !in history && r.Ok? ==>
        && r.value == Future(None)
        && InsertActivity(old(storage.Db()), id, call.key, wf, call.name, call.input, call.options) ==
           Some(storage.Db())
      ensures r.Err? ==> storage.Db() == old(storage.Db())
      ensures r.Err? && r.fault != Infrastructure ==>
        InsertActivity(old(storage.Db()), id, call.key, wf, call.name, call.input, call.options) == None
    {
      if call.key in history {
        return Ok(Future(Some(history[call.key])));
      }
      var inserted := storage.InsertActivity(id, call.key, wf, call.name, call.input, call.options);
      r := if inserted.Ok? then Ok(Future(None)) else Err(inserted.fault);
    }

    method ReceiveSignalAsync(key: Key) returns (f: Future)
      ensures f.Get() == Lookup(signals, key)
    {
      f := Future(if key in signals then Some(signals[key]) else None);
    }
  }

  /** Step e takes the machine from t on, and the worker's tables and ids with it. */
  lemma Mirrored(reg: Registry, s: State, es: seq<Step>, t: State, e: Step, nextId: Id, c: Id)
    requires Mirrors(reg, s, es, t, t.db, nextId, c) && Enabled(reg, t, e) && OnClaim(e, c)
    ensures Mirrors(reg, s, es + [e], Next(reg, t, e), Next(reg, t, e).db, nextId + 2, c)
  {
    OneMoreStep(reg, s, es, e);
  }

  // ---- workflow tasks ----

  lemma OneMoreAnswer(h: Script, tr: seq<Answer>, a: Answer)
    requires Path(h, tr) && Fits(h(tr), a)
    ensures Path(h, tr + [a])
    ensures forall k :: Starts(h, tr + [a], k) ==> Starts(h, tr, k) || (h(tr).Start? && h(tr).call.key == k)
  {
    forall i | 0 <= i < |tr + [a]|
      ensures FitsAt(h, tr + [a], i)
    {
      assert (tr + [a])[..i] == tr[..i];
      assert i < |tr| ==> FitsAt(h, tr, i);
      assert tr[..|tr|] == tr;
    }
    forall k | Starts(h, tr + [a], k)
      ensures Starts(h, tr, k) || (h(tr).Start? && h(tr).call.key == k)
    {
      StartedByOneMore(h, tr, a, k);
    }
  }

  lemma PendingTaskReadyIff(db: Tables, x: Id, at: int)
    requires x in db.tasks && db.tasks[x].status == Pending && db.tasks[x].scheduledAt == at
    ensures forall later :: x in ReadyTasks(db, [], later) <==> at <= later
  {
    forall later: int
      ensures x in ReadyTasks(db, [], later) <==> at <= later
    {
      ReadyTasksIff(db, [], later, x);
    }
  }

  lemma PendingActivityReadyIff(db: Tables, x: Id, at: int)
    requires x in db.activities && db.activities[x].status == Pending && db.activities[x].scheduledAt == at
    ensures forall later :: x in ReadyActivities(db, [], later) <==> at <= later
  {
    forall later: int
      ensures x in ReadyActivities(db, [], later) <==> at <= later
    {
      ReadyActivitiesIff(db, [], later, x);
    }
  }

  class WorkflowWorker {
    const storage: Storage
    const registry: Registry
    const backoff: nat -> nat
    var nextId: Id   // where fresh version 7 ids come from

    constructor (storage: Storage, registry: Registry, backoff: nat -> nat, nextId: Id)
      ensures this.storage == storage && this.registry == registry && this.backoff == backoff && this.nextId == nextId
    {
      this.storage, this.registry, this.backoff, this.nextId := storage, registry, backoff, nextId;
    }

    /** Bookkeeping: the machine takes the step the worker has just taken. */
    method Take(ghost s: State, ghost es: seq<Step>, ghost t: State, ghost e: Step, ghost c: Id)
        returns (ghost es': seq<Step>, ghost t': State)
      requires Mirrors(registry, s, es, t, t.db, nextId, c) && Enabled(registry, t, e) && OnClaim(e, c)
      requires Next(registry, t, e).db == storage.Db()
      modifies this`nextId
      ensures t' == Next(registry, t, e) && es' == es + [e] && Mirrors(registry, s, es', t', storage.Db(), nextId, c)
    {
      t', es' := Next(registry, t, e), es + [e];
      Mirrored(registry, s, es, t, e, nextId, c);
      nextId := nextId + 2;
    }

    /** An infrastructure error ends the run early. */
    method Break(ghost s: State, ghost es: seq<Step>, ghost t: State, ghost c: Id)
        returns (outcome: Outcome, ghost es': seq<Step>, ghost t': State)
      requires Mirrors(registry, s, es, t, storage.Db(), nextId, c) && Unfinished(t, c)
      modifies this`nextId
      ensures outcome == Broken(false) && Mirrors(registry, s, es', t', storage.Db(), nextId, c)
      ensures c in t'.runs && t'.runs[c] == t.runs[c].(outcome := Some(outcome))
    {
      outcome := Broken(false);
      es', t' := Take(s, es, t, RunBreaks(c, false), c);
    }

    /** One ExecuteActivityAsync of the handler, which the machine does as Advance, InsertStarted or RefuseInsert.
        The handler gets the error of an insert that failed, and with it a future that never resolves. */
    method Execute(ctx: WorkflowContext, call: Call, ghost s: State, ghost es: seq<Step>, ghost t: State, ghost c: Id)
        returns (answer: Answer, future: Future, ghost es': seq<Step>, ghost t': State)
      requires ctx.storage == storage && Mirrors(registry, s, es, t, storage.Db(), nextId, c)
      requires Advancing(registry, t, c)
      requires t.runs[c].history == Some(ctx.history) && t.runs[c].wf == ctx.wf
      requires RequestOf(registry, t.runs[c]) == Start(call)
      modifies this`nextId, storage`activities
      ensures Mirrors(registry, s, es', t', storage.Db(), nextId, c) && c in t'.runs
      ensures future.Get() == Lookup(ctx.history, call.key) && (answer == Scheduled || answer == Refused)
      ensures t'.runs[c] == t.runs[c].(answers := t.runs[c].answers + [answer])
    {
      var r := ctx.ExecuteActivityAsync(call, nextId);
      answer, future := if r.Ok? then Scheduled else Refused, if r.Ok? then r.value else Future(None);
      ghost var e := if call.key in ctx.history then Advance(c)
                     else if r == Err(Infrastructure) then RefuseInsert(c)
                     else InsertStarted(c);
      es', t' := Take(s, es, t, e, c);
    }

    /** Calls the handler and answers its requests, until it returns or has made n of them. */
    method Invoke(ctx: WorkflowContext, h: Script, n: nat, ghost s: State, ghost es0: seq<Step>, ghost t0: State,
                  ghost c: Id)
        returns (answers: seq<Answer>, ghost es: seq<Step>, ghost t: State)
      requires ctx.storage == storage && Mirrors(registry, s, es0, t0, storage.Db(), nextId, c)
      requires Advancing(registry, t0, c)
      requires var r := t0.runs[c];
        && r.history == Some(ctx.history) && r.signals == Some(ctx.signals) && r.wf == ctx.wf && r.answers == []
        && h == HandlerOf(registry, r)
      requires FuturesStarted(h)
      modifies this`nextId, storage`activities
      ensures Mirrors(registry, s, es, t, storage.Db(), nextId, c) && c in t.runs
      ensures t.runs[c] == t0.runs[c].(answers := answers) && Path(h, answers)
      ensures |answers| <= n && (h(answers).Asks() ==> |answers| == n)
    {
      answers, es, t := [], es0, t0;
      var futures: map<Key, Future> := map[];
      while |answers| < n && h(answers).Asks()
        invariant |answers| <= n && Path(h, answers)
        invariant Mirrors(registry, s, es, t, storage.Db(), nextId, c)
        invariant c in t.runs && t.runs[c] == t0.runs[c].(answers := answers)
        invariant forall k :: k in futures ==> futures[k].Get() == Lookup(ctx.history, k)
        invariant forall k :: Starts(h, answers, k) ==> k in futures
        decreases n - |answers|
      {
        var request := h(answers);
        var answer;
        match request {
          case Start(call) =>
            var future;
            answer, future, es, t := Execute(ctx, call, s, es, t, c);
            futures := futures[call.key := future];
          case Get(k) =>
            answer := futures[k].Get();
            es, t := Take(s, es, t, Advance(c), c);
          case Receive(k) =>
            var f := ctx.ReceiveSignalAsync(k);
            answer := f.Get();
            es, t := Take(s, es, t, Advance(c), c);
        }
        OneMoreAnswer(h, answers, answer);
        answers := answers + [answer];
      }
    }

    /** What the handler's return leads to: completion, suspension or an error. */
    method Conclude(r: Run, end: Request, now: int, ghost s: State, ghost es0: seq<Step>, ghost t0: State, ghost c: Id)
        returns (outcome: Outcome, fault: bool, ghost es: seq<Step>, ghost t: State)
      requires Mirrors(registry, s, es0, t0, storage.Db(), nextId, c) && Advancing(registry, t0, c) && now == s.now
      requires t0.runs[c].wf == r.wf && RequestOf(registry, t0.runs[c]) == end && !end.Asks()
      modifies this`nextId, storage`workflows
      ensures Mirrors(registry, s, es, t, storage.Db(), nextId, c)
      ensures c in t.runs && t.runs[c] == t0.runs[c].(outcome := Some(outcome))
      ensures !fault && end.Raise? ==> outcome == Broken(end.unrecoverable)
      ensures !fault && end == Suspend ==> outcome == Fine
      ensures !fault && end == Return ==> outcome == if r.wf in old(storage.workflows) then Fine else Broken(false)
      ensures fault ==> end == Return && outcome == Broken(false)
      ensures end == Return && outcome == Fine ==>
        && r.wf in storage.workflows && storage.workflows[r.wf].status == Succeeded
        && storage.workflows[r.wf].completedAt == Some(now) && storage.workflows[r.wf].error == None
      ensures end != Return || outcome != Fine ==> storage.workflows == old(storage.workflows)
    {
      fault := false;
      match end {
        case Return =>
          var completed := storage.CompleteWorkflow(r.wf, now);
          if completed.Err? && completed.fault == Infrastructure {
            fault := true;
            outcome, es, t := Break(s, es0, t0, c);
          } else {
            outcome := if completed.Ok? then Fine else Broken(false);
            es, t := Take(s, es0, t0, FinishWorkflow(c), c);
          }
        case Raise(unrecoverable) =>
          outcome := Broken(unrecoverable);
          es, t := Take(s, es0, t0, Advance(c), c);
        case Suspend =>
          outcome := Fine;
          es, t := Take(s, es0, t0, Advance(c), c);
      }
    }

    /** Loads the events of the claim's workflow, replays its handler on them and, when the handler returns,
        completes it. A handler that is still running after n requests is left at that. Short of a fault
        the outcome is what the handler asked for after its answers. */
    method RunWorkflow(r: Run, n: nat, now: int, ghost s: State, ghost c: Id)
        returns (outcome: Option<Outcome>, fault: bool, answers: seq<Answer>, ghost es: seq<Step>, ghost t: State)
      requires s.db == storage.Db() && s.nextId == nextId && s.now == now && Consistent(s.db)
      requires c in s.runs && s.runs[c] == r && Fresh(r) && r.name in registry
      requires FuturesStarted(HandlerOf(registry, r))
      modifies this`nextId, storage`workflows, storage`activities
      ensures Mirrors(registry, s, es, t, storage.Db(), nextId, c)
      ensures c in t.runs && RunKept(r, t.runs[c]) && t.runs[c].outcome == outcome && t.runs[c].answers == answers
      ensures outcome == None ==> !fault && |answers| == n && HandlerOf(registry, r)(answers).Asks()
      ensures Bounded(HandlerOf(registry, r), n) ==> outcome.Some?
      ensures outcome.Some? && !fault ==> !HandlerOf(registry, r)(answers).Asks()
      ensures outcome.Some? && !fault && HandlerOf(registry, r)(answers).Raise? ==>
        outcome == Some(Broken(HandlerOf(registry, r)(answers).unrecoverable))
      ensures outcome.Some? && !fault && HandlerOf(registry, r)(answers) == Suspend ==> outcome == Some(Fine)
      ensures outcome.Some? && !fault && HandlerOf(registry, r)(answers) == Return ==>
        outcome == Some(if r.wf in old(storage.workflows) then Fine else Broken(false))
      ensures fault ==> outcome == Some(Broken(false))
      ensures fault && t.runs[c].signals != None ==> HandlerOf(registry, r)(answers) == Return
      ensures t.runs[c].signals == None ==> fault && answers == []
      ensures outcome == Some(Fine) && HandlerOf(registry, r)(answers) == Return ==>
        r.wf in storage.workflows && storage.workflows[r.wf].status == Succeeded
      ensures outcome != Some(Fine) || HandlerOf(registry, r)(answers) != Return ==>
        storage.workflows == old(storage.workflows)
    {
      es, t, answers, fault := [], s, [], false;
      var end, ctx;
      ctx, es, t := Load(r, s, c);
      if ctx == None {
        end, es, t := Break(s, es, t, c);
        return Some(end), true, [], es, t;
      }
      var h := HandlerOf(registry, r);
      answers, es, t := Invoke(ctx.value, h, n, s, es, t, c);
      if h(answers).Asks() {
        outcome := None;
      } else {
        end, fault, es, t := Conclude(r, h(answers), now, s, es, t, c);
        outcome := Some(end);
      }
    }

    /** The two loads, each a statement of its own; None means that one of them failed. */
    method Load(r: Run, ghost s: State, ghost c: Id)
        returns (ctx: Option<WorkflowContext>, ghost es: seq<Step>, ghost t: State)
      requires s.db == storage.Db() && s.nextId == nextId && Consistent(s.db)
      requires c in s.runs && s.runs[c] == r && Fresh(r) && r.name in registry
      modifies this`nextId
      ensures Mirrors(registry, s, es, t, storage.Db(), nextId, c) && Unfinished(t, c)
      ensures RunKept(r, t.runs[c]) && t.runs[c].answers == []
      ensures ctx.Some? ==>
        && ctx.value.storage == storage && ctx.value.wf == r.wf
        && t.runs[c] == r.(history := Some(ctx.value.history), signals := Some(ctx.value.signals))
      ensures ctx == None ==> t.runs[c].signals == None
    {
      es, t := [], s;
      var history := storage.ListHistoryEventsForWorkflow(r.wf);
      if history.Err? {
        return None, es, t;
      }
      es, t := Take(s, es, t, LoadHistory(c), c);
      var signals := storage.ListWorkflowSignals(r.wf);
      if signals.Err? {
        return None, es, t;
      }
      es, t := Take(s, es, t, LoadSignals(c), c);
      var loaded := new WorkflowContext(storage, r.wf, history.value, signals.value);
      ctx := Some(loaded);
    }

    /** The claim r of t, whose handler is done, and the worker's view of it. */
    ghost predicate Ended(s: State, es: seq<Step>, t: State, c: Id, r: Run, outcome: Outcome, now: int)
      reads this, storage
    {
      && Mirrors(registry, s, es, t, storage.Db(), nextId, c) && now == s.now
      && c in t.runs && RunKept(r, t.runs[c]) && t.runs[c].outcome == Some(outcome)
    }

    method CompleteTaskOf(r: Run, now: int, ghost s: State, ghost es0: seq<Step>, ghost t0: State, ghost c: Id)
        returns (done: Result<()>, ghost es: seq<Step>, ghost t: State)
      requires Ended(s, es0, t0, c, r, Fine, now)
      modifies this`nextId, storage
      ensures Mirrors(registry, s, es, t, storage.Db(), nextId, c) && c !in t.runs
      ensures es == es0 + [if done == Err(Infrastructure) then CrashRun(c) else CompleteRun(c)]
      ensures done.Ok? ==>
        && r.task in storage.tasks && storage.tasks[r.task].status == Completed
        && storage.tasks[r.task].completedAt == Some(now)
        && r.wf in storage.workflows && r.wf in old(storage.workflows)
        && storage.workflows[r.wf].error == None
        && storage.workflows[r.wf].status == old(storage.workflows)[r.wf].status
        && storage.workflows[r.wf].attempts == old(storage.workflows)[r.wf].attempts
    {
      done := storage.CompleteWorkflowTask(r.task, r.wf, now);
      es, t := Take(s, es0, t0, if done == Err(Infrastructure) then CrashRun(c) else CompleteRun(c), c);
    }

    /** A settled task and its workflow when the claim gave up or was given another try. */
    method HandleWorkflowTaskError(r: Run, unrecoverable: bool, message: string, now: int,
                                   ghost s: State, ghost es0: seq<Step>, ghost t0: State, ghost c: Id)
        returns (done: Result<()>, ghost es: seq<Step>, ghost t: State)
      requires Ended(s, es0, t0, c, r, Broken(unrecoverable), now)
      modifies this`nextId, storage
      ensures Mirrors(registry, s, es, t, storage.Db(), nextId, c) && c !in t.runs
      ensures es == es0 + [if done == Err(Infrastructure) then CrashRun(c)
                           else if unrecoverable || r.attempts >= r.maxAttempts then FailRun(c, message)
                           else RetryRun(c, backoff(r.attempts), message)]
      ensures done.Ok? ==>
        && r.task in storage.tasks && r.wf in storage.workflows && r.wf in old(storage.workflows)
        && storage.workflows[r.wf].error == Some(message)
      ensures done.Ok? && (unrecoverable || r.attempts >= r.maxAttempts) ==>
        && storage.tasks[r.task].status == Failed && storage.workflows[r.wf].status == Dead
        && storage.workflows[r.wf].attempts == old(storage.workflows)[r.wf].attempts
      ensures done.Ok? && !unrecoverable && r.attempts < r.maxAttempts ==>
        && storage.tasks[r.task].status == Pending
        && storage.workflows[r.wf].status == old(storage.workflows)[r.wf].status
        && storage.workflows[r.wf].attempts == old(storage.workflows)[r.wf].attempts + 1
        && forall later :: r.task in ReadyTasks(storage.Db(), [], later) <==> now + backoff(r.attempts) <= later
    {
      if unrecoverable || r.attempts >= r.maxAttempts {
        done, es, t := FailTaskOf(r, unrecoverable, message, now, s, es0, t0, c);
      } else {
        done, es, t := RescheduleTaskOf(r, message, now, s, es0, t0, c);
      }
    }

    method FailTaskOf(r: Run, unrecoverable: bool, message: string, now: int,
                      ghost s: State, ghost es0: seq<Step>, ghost t0: State, ghost c: Id)
        returns (done: Result<()>, ghost es: seq<Step>, ghost t: State)
      requires Ended(s, es0, t0, c, r, Broken(unrecoverable), now)
      requires unrecoverable || r.attempts >= r.maxAttempts
      modifies this`nextId, storage
      ensures Mirrors(registry, s, es, t, storage.Db(), nextId, c) && c !in t.runs
      ensures es == es0 + [if done == Err(Infrastructure) then CrashRun(c) else FailRun(c, message)]
      ensures done.Ok? ==>
        && r.task in storage.tasks && storage.tasks[r.task].status == Failed
        && storage.tasks[r.task].completedAt == Some(now)
        && r.wf in storage.workflows && r.wf in old(storage.workflows)
        && storage.workflows[r.wf].completedAt == Some(now)
        && storage.workflows[r.wf].status == Dead && storage.workflows[r.wf].error == Some(message)
        && storage.workflows[r.wf].attempts == old(storage.workflows)[r.wf].attempts
    {
      done := storage.FailWorkflowTask(r.task, r.wf, message, now);
      es, t := Take(s, es0, t0, if done == Err(Infrastructure) then CrashRun(c) else FailRun(c, message), c);
    }

    method RescheduleTaskOf(r: Run, message: string, now: int,
                            ghost s: State, ghost es0: seq<Step>, ghost t0: State, ghost c: Id)
        returns (done: Result<()>, ghost es: seq<Step>, ghost t: State)
      requires Ended(s, es0, t0, c, r, Broken(false), now) && r.attempts < r.maxAttempts
      modifies this`nextId, storage
      ensures Mirrors(registry, s, es, t, storage.Db(), nextId, c) && c !in t.runs
      ensures es
        == es0 + [if done == Err(Infrastructure) then CrashRun(c) else RetryRun(c, backoff(r.attempts), message)]
      ensures done.Ok? ==>
        && r.task in storage.tasks && storage.tasks[r.task].status == Pending
        && r.wf in storage.workflows && r.wf in old(storage.workflows)
        && storage.workflows[r.wf].status == old(storage.workflows)[r.wf].status
        && storage.workflows[r.wf].error == Some(message)
        && storage.workflows[r.wf].attempts == old(storage.workflows)[r.wf].attempts + 1
        && forall later :: r.task in ReadyTasks(storage.Db(), [], later) <==> now + backoff(r.attempts) <= later
    {
      var delay := backoff(r.attempts);
      done := storage.ReScheduleWorkflowTask(r.task, r.wf, now + delay, message);
      if done.Ok? {
        PendingTaskReadyIff(storage.Db(), r.task, now + delay);
      }
      es, t := Take(s, es0, t0, if done == Err(Infrastructure) then CrashRun(c) else RetryRun(c, delay, message), c);
    }

    /** The machine's claim c had consumed these answers before its last step. */
    ghost predicate Consumed(s: State, es: seq<Step>, c: Id, answers: seq<Answer>) {
      && es != [] && Runs(registry, s, es[..|es| - 1])
      && c in After(registry, s, es[..|es| - 1]).runs && After(registry, s, es[..|es| - 1]).runs[c].answers == answers
    }

    lemma ConsumedBefore(s: State, es0: seq<Step>, t0: State, e: Step, c: Id)
      requires Runs(registry, s, es0) && After(registry, s, es0) == t0 && c in t0.runs
      ensures Consumed(s, es0 + [e], c, t0.runs[c].answers)
    {
      assert (es0 + [e])[..|es0 + [e]| - 1] == es0;
    }

    /** Completes the task, or handles the error. */
    method Settle(r: Run, outcome: Outcome, message: string, now: int,
                  ghost s: State, ghost es0: seq<Step>, ghost t0: State, ghost c: Id)
        returns (done: Result<()>, ghost es: seq<Step>, ghost t: State)
      requires Ended(s, es0, t0, c, r, outcome, now)
      modifies this`nextId, storage
      ensures Mirrors(registry, s, es, t, storage.Db(), nextId, c) && c !in t.runs
      ensures Consumed(s, es, c, t0.runs[c].answers)
      ensures if done == Err(Infrastructure) then es[|es| - 1] == CrashRun(c) else SettlesRun(es[|es| - 1])
      ensures done.Ok? ==>
        && r.task in storage.tasks && r.wf in storage.workflows && r.wf in old(storage.workflows)
        && storage.workflows[r.wf].error == if outcome == Fine then None else Some(message)
      ensures done.Ok? && outcome == Fine ==>
        && storage.tasks[r.task].status == Completed
        && storage.workflows[r.wf].status == old(storage.workflows)[r.wf].status
      ensures done.Ok? && outcome != Fine && (outcome.unrecoverable || r.attempts >= r.maxAttempts) ==>
        && storage.tasks[r.task].status == Failed && storage.workflows[r.wf].status == Dead
        && storage.workflows[r.wf].attempts == old(storage.workflows)[r.wf].attempts
      ensures done.Ok? && outcome != Fine && !outcome.unrecoverable && r.attempts < r.maxAttempts ==>
        && storage.tasks[r.task].status == Pending
        && storage.workflows[r.wf].status == old(storage.workflows)[r.wf].status
        && storage.workflows[r.wf].attempts == old(storage.workflows)[r.wf].attempts + 1
        && forall later :: r.task in ReadyTasks(storage.Db(), [], later) <==> now + backoff(r.attempts) <= later
    {
      if outcome == Fine {
        done, es, t := CompleteTaskOf(r, now, s, es0, t0, c);
      } else {
        done, es, t := HandleWorkflowTaskError(r, outcome.unrecoverable, message, now, s, es0, t0, c);
      }
      ConsumedBefore(s, es0, t0, es[|es| - 1], c);
    }

    /** The whole of one claim: run the handler, then complete, reschedule or fail the task. Afterwards the claim
        is gone; a settlement lost to the infrastructure, or a handler that goes on for ever, leaves its task
        to be taken over. When a settlement commits, the tables show what the handler asked for after its answers:
        an error fails task and workflow exactly when it is unrecoverable or the attempts are used up, and otherwise
        costs one attempt and the backoff; a fault and an unknown handler count as recoverable errors. */
    method HandleWorkflowTask(r: Run, n: nat, message: string, now: int, ghost s: State, ghost c: Id)
        returns (done: Option<Result<()>>, fault: bool, answers: seq<Answer>, ghost es: seq<Step>, ghost t: State)
      requires s.db == storage.Db() && s.nextId == nextId && s.now == now && Consistent(s.db)
      requires c in s.runs && s.runs[c] == r && Fresh(r)
      requires r.name in registry ==> FuturesStarted(HandlerOf(registry, r))
      modifies this`nextId, storage
      ensures Mirrors(registry, s, es, t, storage.Db(), nextId, c)
      ensures done.Some? ==> c !in t.runs && es != [] && Consumed(s, es, c, answers)
      ensures done.Some? ==>
        if done == Some(Err(Infrastructure)) then es[|es| - 1] == CrashRun(c) else SettlesRun(es[|es| - 1])
      ensures done == None ==> r.name in registry && Unfinished(t, c) && |t.runs[c].answers| == n
      ensures r.name in registry && Bounded(HandlerOf(registry, r), n) ==> done.Some?
      ensures fault ==> r.name in registry && (answers == [] || HandlerOf(registry, r)(answers) == Return)
      ensures done == Some(Ok(())) ==>
        r.task in storage.tasks && r.wf in storage.workflows && r.wf in old(storage.workflows)
      ensures done == Some(Ok(())) && (r.name in registry && !fault ==> HandlerOf(registry, r)(answers).Raise?) ==>
        var u := r.name in registry && !fault && HandlerOf(registry, r)(answers) == Raise(true);
        && storage.workflows[r.wf].error == Some(message)
        && if u || r.attempts >= r.maxAttempts then
             && storage.tasks[r.task].status == Failed && storage.workflows[r.wf].status == Dead
             && storage.workflows[r.wf].attempts == old(storage.workflows)[r.wf].attempts
           else
             && storage.tasks[r.task].status == Pending
             && storage.workflows[r.wf].status == old(storage.workflows)[r.wf].status
             && storage.workflows[r.wf].attempts == old(storage.workflows)[r.wf].attempts + 1
             && forall later :: r.task in ReadyTasks(storage.Db(), [], later) <==> now + backoff(r.attempts) <= later
      ensures done == Some(Ok(())) && r.name in registry && !fault && !HandlerOf(registry, r)(answers).Raise? ==>
        && storage.tasks[r.task].status == Completed && storage.workflows[r.wf].error == None
        && (HandlerOf(registry, r)(answers) == Return ==> storage.workflows[r.wf].status == Succeeded)
        && (HandlerOf(registry, r)(answers) == Suspend ==>
              storage.workflows[r.wf].status == old(storage.workflows)[r.wf].status)
    {
      var outcome, settled;
      fault, answers := false, [];
      if r.name in registry {
        outcome, fault, answers, es, t := RunWorkflow(r, n, now, s, c);
      } else {
        var broken;
        broken, es, t := Break(s, [], s, c);
        outcome := Some(broken);
      }
      if outcome == None {
        return None, fault, answers, es, t;
      }
      settled, es, t := Settle(r, outcome.value, message, now, s, es, t, c);
      done := Some(settled);
    }

    // ---- cleanup ----

    /** Removes completed workflows that are older than the retention, unless there is none. */
    method CleanColdWorkflows(retention: int, limit: nat, now: int) returns (r: Result<nat>)
      modifies storage
      ensures retention <= 0 ==> storage.Db() == old(storage.Db())
      ensures forall w :: w in old(storage.workflows) && w !in storage.workflows ==>
        && old(storage.workflows)[w].status == Succeeded
        && old(storage.workflows)[w].createdAt + retention < now
      ensures forall w :: w in storage.workflows ==>
        w in old(storage.workflows) && storage.workflows[w] == old(storage.workflows)[w]
      ensures r.Ok? ==> r.value == |old(storage.workflows).Keys - storage.workflows.Keys| <= limit
      ensures r.Ok? && 0 < retention && r.value < limit ==> forall w :: w in storage.workflows ==>
        storage.workflows[w].status != Succeeded || now <= storage.workflows[w].createdAt + retention
      ensures r.Err? ==> storage.Db() == old(storage.Db())
    {
      if retention <= 0 {
        return Ok(0);
      }
      r := storage.DeleteColdWorkflows(now - retention, limit);
    }

    /** The same for failed workflows. */
    method CleanDeadWorkflows(retention: int, limit: nat, now: int) returns (r: Result<nat>)
      modifies storage
      ensures retention <= 0 ==> storage.Db() == old(storage.Db())
      ensures forall w :: w in old(storage.workflows) && w !in storage.workflows ==>
        && old(storage.workflows)[w].status == Dead
        && old(storage.workflows)[w].createdAt + retention < now
      ensures forall w :: w in storage.workflows ==>
        w in old(storage.workflows) && storage.workflows[w] == old(storage.workflows)[w]
      ensures r.Ok? ==> r.value == |old(storage.workflows).Keys - storage.workflows.Keys| <= limit
      ensures r.Ok? && 0 < retention && r.value < limit ==> forall w :: w in storage.workflows ==>
        storage.workflows[w].status != Dead || now <= storage.workflows[w].createdAt + retention
      ensures r.Err? ==> storage.Db() == old(storage.Db())
    {
      if retention <= 0 {
        return Ok(0);
      }
      r := storage.DeleteDeadWorkflows(now - retention, limit);
    }
  }

  // ---- activities ----

  /** Its steps do not look at the workflow registry, so the empty one stands for any. */
  class ActivityWorker {
    const storage: Storage
    const handlers: map<string, Value -> JobResult>
    const backoff: nat -> nat
    var nextId: Id

    constructor (storage: Storage, handlers: map<string, Value -> JobResult>, backoff: nat -> nat, nextId: Id)
      ensures this.storage == storage && this.handlers == handlers && this.backoff == backoff && this.nextId == nextId
    {
      this.storage, this.handlers, this.backoff, this.nextId := storage, handlers, backoff, nextId;
    }

    /** Bookkeeping: the machine takes the step the worker has just taken. */
    method Take(ghost s: State, ghost es: seq<Step>, ghost t: State, ghost e: Step, ghost c: Id)
        returns (ghost es': seq<Step>, ghost t': State)
      requires Mirrors(map[], s, es, t, t.db, nextId, c) && Enabled(map[], t, e) && OnClaim(e, c)
      requires Next(map[], t, e).db == storage.Db()
      modifies this`nextId
      ensures t' == Next(map[], t, e) && es' == es + [e] && Mirrors(map[], s, es', t', storage.Db(), nextId, c)
    {
      t', es' := Next(map[], t, e), es + [e];
      Mirrored(map[], s, es, t, e, nextId, c);
      nextId := nextId + 2;
    }

    method CompleteActivity(j: Job, output: Value, now: int, ghost s: State, ghost es0: seq<Step>, ghost t0: State,
                            ghost c: Id)
        returns (done: Result<()>, ghost es: seq<Step>, ghost t: State)
      requires Mirrors(map[], s, es0, t0, storage.Db(), nextId, c) && now == s.now
      requires c in t0.jobs && t0.jobs[c] == j.(result := Some(Output(output)))
      modifies this`nextId, storage
      ensures Mirrors(map[], s, es, t, storage.Db(), nextId, c) && c !in t.jobs
      ensures es == es0 + [if done == Err(Infrastructure) then CrashJob(c) else CompleteJob(c)]
      ensures done.Ok? ==>
        && j.activity in storage.activities && storage.activities[j.activity].status == Completed
        && storage.activities[j.activity].output == output && storage.activities[j.activity].error == None
        && storage.workflows == old(storage.workflows)
      ensures done.Ok? && j.wf in storage.workflows && old(nextId) !in old(storage.tasks) ==>
        && old(nextId) in storage.tasks && storage.tasks[old(nextId)].wf == j.wf
        && forall later :: old(nextId) in ReadyTasks(storage.Db(), [], later) <==> now <= later
    {
      done := storage.CompleteActivity(j.activity, j.wf, output, nextId, now);
      if done.Ok? && j.wf in storage.workflows && nextId !in old(storage.tasks) {
        PendingTaskReadyIff(storage.Db(), nextId, now);
      }
      es, t := Take(s, es0, t0, if done == Err(Infrastructure) then CrashJob(c) else CompleteJob(c), c);
    }

    method HandleActivityError(j: Job, unrecoverable: bool, message: string, now: int,
                               ghost s: State, ghost es0: seq<Step>, ghost t0: State, ghost c: Id)
        returns (done: Result<()>, ghost es: seq<Step>, ghost t: State)
      requires Mirrors(map[], s, es0, t0, storage.Db(), nextId, c) && now == s.now
      requires c in t0.jobs && t0.jobs[c] == j.(result := Some(Error(unrecoverable)))
      modifies this`nextId, storage
      ensures Mirrors(map[], s, es, t, storage.Db(), nextId, c) && c !in t.jobs
      ensures es == es0 + [if done == Err(Infrastructure) then CrashJob(c)
                           else if unrecoverable || j.attempts >= j.maxAttempts then FailJob(c, message)
                           else RetryJob(c, backoff(j.attempts), message)]
      ensures done.Ok? ==> j.activity in storage.activities && storage.activities[j.activity].error == Some(message)
      ensures done.Ok? && (unrecoverable || j.attempts >= j.maxAttempts) ==>
        && storage.activities[j.activity].status == Failed
        && j.wf in storage.workflows && storage.workflows[j.wf].status == Dead
        && storage.workflows[j.wf].error == Some(message)
      ensures done.Ok? && !unrecoverable && j.attempts < j.maxAttempts ==>
        && storage.activities[j.activity].status == Pending && storage.workflows == old(storage.workflows)
        && forall later ::
             j.activity in ReadyActivities(storage.Db(), [], later) <==> now + backoff(j.attempts) <= later
    {
      if unrecoverable || j.attempts >= j.maxAttempts {
        done := storage.FailActivity(j.activity, j.wf, message, now);
        es, t := Take(s, es0, t0, if done == Err(Infrastructure) then CrashJob(c) else FailJob(c, message), c);
      } else {
        var delay := backoff(j.attempts);
        done := storage.ReScheduleActivity(j.activity, now + delay, message);
        if done.Ok? {
          PendingActivityReadyIff(storage.Db(), j.activity, now + delay);
        }
        es, t := Take(s, es0, t0, if done == Err(Infrastructure) then CrashJob(c) else RetryJob(c, delay, message), c);
      }
    }

    /** The whole of one claim: call the handler, then complete, reschedule or fail the activity. */
    method HandleActivity(j: Job, message: string, now: int, ghost s: State, ghost c: Id)
        returns (done: Result<()>, ghost es: seq<Step>, ghost t: State)
      requires s.db == storage.Db() && s.nextId == nextId && s.now == now
      requires c in s.jobs && s.jobs[c] == j && j.result == None
      modifies this`nextId, storage
      ensures Mirrors(map[], s, es, t, storage.Db(), nextId, c) && c !in t.jobs
      ensures |es| == 2
      ensures es[0] == JobReturns(c, if j.name in handlers then handlers[j.name](j.input) else Error(false))
      ensures if done == Err(Infrastructure) then es[1] == CrashJob(c) else Settles(es[1])
      ensures var result := if j.name in handlers then handlers[j.name](j.input) else Error(false);
        done.Ok? ==>
          && j.activity in storage.activities
          && if result.Output? then
               storage.activities[j.activity].status == Completed
                 && storage.activities[j.activity].output == result.value
             else if result.unrecoverable || j.attempts >= j.maxAttempts then
               && storage.activities[j.activity].status == Failed
                  && storage.activities[j.activity].error == Some(message)
               && j.wf in storage.workflows && storage.workflows[j.wf].status == Dead
             else
               && storage.activities[j.activity].status == Pending
               && storage.activities[j.activity].error == Some(message)
               && forall later ::
                    j.activity in ReadyActivities(storage.Db(), [], later) <==> now + backoff(j.attempts) <= later
    {
      var result := if j.name in handlers then handlers[j.name](j.input) else Error(false);
      es, t := Take(s, [], s, JobReturns(c, result), c);
      if result.Output? {
        done, es, t := CompleteActivity(j, result.value, now, s, es, t, c);
      } else {
        done, es, t := HandleActivityError(j, result.unrecoverable, message, now, s, es, t, c);
      }
    }
  }
}
