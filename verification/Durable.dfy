/** Replay equals direct execution, over the whole engine: under lease discipline every replay of a workflow
    follows one path, and the activity rows are exactly the activities on it. */
module Durable {
  import opened Schema
  import opened Transactions
  import opened Replay
  import opened Engine
  import opened Integrity
  import opened Frames
  import opened RunInvariants
  import opened Wakeup
  import opened Lease
  import opened Growth

  // ---- the invariant ----

  /** What a run has loaded is still in the tables. */
  ghost predicate SnapshotsHold(db: Tables, r: Run) {
    r.wf in db.workflows ==>
      && (r.history.Some? ==> Within(r.history.value, History(db, r.wf)))
      && (r.signals.Some? ==> Within(r.signals.value, Signals(db, r.wf)))
  }

  /** Row a was inserted by the first request for its key, made at the end of tr, on the path the current events
      determine. */
  ghost predicate OriginAt(db: Tables, h: Script, a: Id, tr: seq<Answer>)
    requires a in db.activities
  {
    var row := db.activities[a];
    && Trace(h, History(db, row.wf), Signals(db, row.wf), tr) && Solid(tr)
    && h(tr).Start? && !Starts(h, tr, row.key)
    && var call := h(tr).call;
       && call.key == row.key && call.name == row.name && call.input == row.input
       && call.options.priority == row.priority && call.options.maxAttempts == row.maxAttempts
       && call.options.stuckTimeout == row.stuckTimeout
       && (row.attempts == 0 ==> call.options.scheduledAt == row.scheduledAt)
  }

  ghost predicate Steady(reg: Registry, db: Tables, wf: Id)
    requires wf in db.workflows
  {
    db.workflows[wf].name in reg ==> Awaits(ScriptOf(reg, db.workflows[wf].name, wf, db.workflows[wf].input))
  }

  ghost predicate HasOrigin(reg: Registry, db: Tables, a: Id)
    requires a in db.activities && db.activities[a].wf in db.workflows
  {
    var wf := db.activities[a].wf;
    db.workflows[wf].name in reg &&
    exists tr :: OriginAt(db, ScriptOf(reg, db.workflows[wf].name, wf, db.workflows[wf].input), a, tr)
  }

  ghost predicate Originates(reg: Registry, db: Tables) {
    forall a :: a in db.activities && db.activities[a].wf in db.workflows && Steady(reg, db, db.activities[a].wf) ==>
      HasOrigin(reg, db, a)
  }

  ghost predicate Held(reg: Registry, s: State) {
    && Sane(reg, s) && LatestRunning(s) && Originates(reg, s.db)
    && forall c :: c in s.runs ==> SnapshotsHold(s.db, s.runs[c])
  }

  // ---- preservation ----

  lemma EventsGrowStep(reg: Registry, s: State, e: Step, wf: Id)
    requires Valid(s) && LatestRunning(s) && Enabled(reg, s, e) && Leased(s, e) && wf in Next(reg, s, e).db.workflows
    ensures Within(History(s.db, wf), History(Next(reg, s, e).db, wf))
    ensures Within(Signals(s.db, wf), Signals(Next(reg, s, e).db, wf))
  {
    HistoryGrowsStep(reg, s, e, wf);
    SignalsGrowStep(reg, s, e, wf);
  }

  lemma SnapshotsHoldStep(reg: Registry, s: State, e: Step, c: Id)
    requires Held(reg, s) && Enabled(reg, s, e) && Leased(s, e) && c in Next(reg, s, e).runs
    ensures SnapshotsHold(Next(reg, s, e).db, Next(reg, s, e).runs[c])
  {
    if c !in s.runs {
      NewRunHasSeenNothing(reg, s, e, c);
    } else {
      KeptRunSnapshots(reg, s, e, c);
    }
  }

  lemma KeptRunSnapshots(reg: Registry, s: State, e: Step, c: Id)
    requires Valid(s) && LatestRunning(s) && Enabled(reg, s, e) && Leased(s, e)
    requires c in s.runs && c in Next(reg, s, e).runs && SnapshotsHold(s.db, s.runs[c])
    ensures SnapshotsHold(Next(reg, s, e).db, Next(reg, s, e).runs[c])
  {
    var t, r := Next(reg, s, e), s.runs[c];
    RunSnapshots(reg, s, e, c);
    if r.wf in t.db.workflows {
      GoneStaysGone(reg, s, e, r.wf);
      EventsGrowStep(reg, s, e, r.wf);
      SnapshotsCarry(s.db, t.db, r, t.runs[c]);
    }
  }

  lemma SnapshotsCarry(db: Tables, after: Tables, r: Run, q: Run)
    requires SnapshotsHold(db, r) && r.wf in db.workflows && q.wf == r.wf
    requires Within(History(db, r.wf), History(after, r.wf)) && Within(Signals(db, r.wf), Signals(after, r.wf))
    requires q.history == r.history || q.history == Some(History(after, r.wf))
    requires q.signals == r.signals || q.signals == Some(Signals(after, r.wf))
    ensures SnapshotsHold(after, q)
  {
    if r.history.Some? {
      WithinTransitive(r.history.value, History(db, r.wf), History(after, r.wf));
    }
    if r.signals.Some? {
      WithinTransitive(r.signals.value, Signals(db, r.wf), Signals(after, r.wf));
    }
  }

  /** A row keeps its origin while the events of its workflow only grow. */
  lemma OriginGrows(reg: Registry, db: Tables, after: Tables, a: Id)
    requires a in db.activities && a in after.activities && ActivityKept(db.activities[a], after.activities[a])
    requires after.activities[a].attempts == 0 ==> after.activities[a].scheduledAt == db.activities[a].scheduledAt
    requires var wf := db.activities[a].wf;
      && wf in db.workflows && wf in after.workflows && WorkflowKept(db.workflows[wf], after.workflows[wf])
      && Within(History(db, wf), History(after, wf)) && Within(Signals(db, wf), Signals(after, wf))
    requires HasOrigin(reg, db, a)
    ensures HasOrigin(reg, after, a)
  {
    var wf := db.activities[a].wf;
    var h := ScriptOf(reg, db.workflows[wf].name, wf, db.workflows[wf].input);
    var tr :| OriginAt(db, h, a, tr);
    SolidGrows(h, History(db, wf), Signals(db, wf), History(after, wf), Signals(after, wf), tr);
    assert OriginAt(after, h, a, tr);
  }

  /** A freshly inserted row originates in the run that inserted it. */
  lemma NewRowOriginates(reg: Registry, s: State, c: Id)
    requires Valid(s) && LatestRunning(s) && Enabled(reg, s, InsertStarted(c))
    requires Sound(reg, s.db, s.runs[c]) && SnapshotsHold(s.db, s.runs[c])
    requires var t := Next(reg, s, InsertStarted(c));
      s.nextId in t.db.activities && Steady(reg, t.db, t.db.activities[s.nextId].wf)
    ensures HasOrigin(reg, Next(reg, s, InsertStarted(c)).db, s.nextId)
  {
    var t := Next(reg, s, InsertStarted(c));
    var r := s.runs[c];
    InsertedRow(reg, s, c);
    EventsGrowStep(reg, s, InsertStarted(c), r.wf);
    FollowsTheTables(HandlerOf(reg, r), s.db, r, t.db);
    assert OriginAt(t.db, HandlerOf(reg, r), s.nextId, r.answers);
  }

  /** A run that inserts a row records its request, and has not inserted that key before: every key it has inserted
      has a row. */
  lemma InsertedRow(reg: Registry, s: State, c: Id)
    requires RowIdsUsed(s.db, s.nextId) && Enabled(reg, s, InsertStarted(c)) && Sound(reg, s.db, s.runs[c])
    requires RunMatches(s.db, s.runs[c])
    requires s.nextId in Next(reg, s, InsertStarted(c)).db.activities
    ensures var r, t, call := s.runs[c], Next(reg, s, InsertStarted(c)), RequestOf(reg, s.runs[c]).call;
      && r.wf in s.db.workflows && t.db.workflows == s.db.workflows
      && t.db.activities[s.nextId] == NewActivity(call.key, r.wf, call.name, call.input, call.options)
      && !Inserts(HandlerOf(reg, r), r.answers, call.key)
      && s.db.workflows[r.wf].name == r.name && s.db.workflows[r.wf].input == r.input
  {
    assert s.nextId !in s.db.activities;
  }

  /** What a run that is neither suspended nor failing has consumed is a replay on the current tables,
      and on any that know more. */
  lemma FollowsTheTables(h: Script, db: Tables, r: Run, after: Tables)
    requires Awaits(h) && h(r.answers) != Suspend && !h(r.answers).Raise?
    requires r.Loaded() && Attempt(h, r.history.value, r.signals.value, r.answers) && r.wf in db.workflows
    requires SnapshotsHold(db, r)
    requires Within(History(db, r.wf), History(after, r.wf)) && Within(Signals(db, r.wf), Signals(after, r.wf))
    ensures Solid(r.answers) && Trace(h, History(after, r.wf), Signals(after, r.wf), r.answers)
    ensures forall k :: Starts(h, r.answers, k) ==> Inserts(h, r.answers, k)
  {
    UnraisedIsTrace(h, r.history.value, r.signals.value, r.answers);
    TraceIsAttempt(h, r.history.value, r.signals.value, r.answers);
    SettledIsSolid(h, r.history.value, r.signals.value, r.answers);
    SolidGrows(h, r.history.value, r.signals.value, History(db, r.wf), Signals(db, r.wf), r.answers);
    SolidGrows(h, History(db, r.wf), Signals(db, r.wf), History(after, r.wf), Signals(after, r.wf), r.answers);
    forall k | Starts(h, r.answers, k)
      ensures Inserts(h, r.answers, k)
    {
      InsertsStarts(h, r.answers, k);
    }
  }

  lemma OriginatesStep(reg: Registry, s: State, e: Step)
    requires Held(reg, s) && OwnKeys(reg) && Enabled(reg, s, e) && Leased(s, e)
    ensures Originates(reg, Next(reg, s, e).db)
  {
    var t := Next(reg, s, e);
    forall a | a in t.db.activities && t.db.activities[a].wf in t.db.workflows
      && Steady(reg, t.db, t.db.activities[a].wf)
      ensures HasOrigin(reg, t.db, a)
    {
      if a in s.db.activities {
        OldRowOriginates(reg, s, e, a);
      } else {
        NewRowsAreInserted(reg, s, e, a);
        NewRowOriginates(reg, s, e.run);
      }
    }
  }

  lemma NewRowsAreInserted(reg: Registry, s: State, e: Step, a: Id)
    requires Enabled(reg, s, e) && a !in s.db.activities && a in Next(reg, s, e).db.activities
    ensures e.InsertStarted? && a == s.nextId
  {
    if e.Cleanup? {
    } else if OnActivities(e) {
    } else {
      ActivitiesUntouched(reg, s, e);
    }
  }

  lemma OldRowOriginates(reg: Registry, s: State, e: Step, a: Id)
    requires Held(reg, s) && Enabled(reg, s, e) && Leased(s, e)
    requires var t := Next(reg, s, e);
      a in s.db.activities && a in t.db.activities && t.db.activities[a].wf in t.db.workflows
        && Steady(reg, t.db, t.db.activities[a].wf)
    ensures HasOrigin(reg, Next(reg, s, e).db, a)
  {
    var t := Next(reg, s, e);
    var wf := s.db.activities[a].wf;
    RowsKept(reg, s, e, a);
    assert Steady(reg, s.db, wf);
    assert HasOrigin(reg, s.db, a);
    OriginStays(reg, s, e, a);
  }

  lemma OriginStays(reg: Registry, s: State, e: Step, a: Id)
    requires Valid(s) && LatestRunning(s) && Enabled(reg, s, e) && Leased(s, e)
    requires a in s.db.activities && a in Next(reg, s, e).db.activities
    requires s.db.activities[a].wf in s.db.workflows && HasOrigin(reg, s.db, a)
    ensures Next(reg, s, e).db.activities[a].wf in Next(reg, s, e).db.workflows
    ensures HasOrigin(reg, Next(reg, s, e).db, a)
  {
    RowsKept(reg, s, e, a);
    EventsGrowStep(reg, s, e, s.db.activities[a].wf);
    if Next(reg, s, e).db.activities[a].attempts == 0 {
      UnclaimedKeepsSchedule(reg, s, e, a);
    }
    OriginGrows(reg, s.db, Next(reg, s, e).db, a);
  }

  /** Only a claim can be rescheduled, so a row that was never claimed keeps its schedule. */
  lemma UnclaimedKeepsSchedule(reg: Registry, s: State, e: Step, a: Id)
    requires RowIdsUsed(s.db, s.nextId) && JobsMatch(s) && Enabled(reg, s, e)
    requires a in s.db.activities && a in Next(reg, s, e).db.activities
    requires Next(reg, s, e).db.activities[a].attempts == 0
    ensures Next(reg, s, e).db.activities[a].scheduledAt == s.db.activities[a].scheduledAt
  {
    if Settles(e) {
      assert JobMatches(s.db, s.jobs[e.job]);
      SettlementTouches(s, e);
    } else if !OnActivities(e) && !e.Cleanup? {
      ActivitiesUntouched(reg, s, e);
    }
  }

  /** An activity row that is still there is the same row, with its workflow. */
  lemma RowsKept(reg: Registry, s: State, e: Step, a: Id)
    requires Valid(s) && Enabled(reg, s, e) && a in s.db.activities && a in Next(reg, s, e).db.activities
    ensures var t, wf := Next(reg, s, e), s.db.activities[a].wf;
      && ActivityKept(s.db.activities[a], t.db.activities[a])
      && wf in s.db.workflows && wf in t.db.workflows && WorkflowKept(s.db.workflows[wf], t.db.workflows[wf])
  {
    if !e.Cleanup? {
      StepEvolves(reg, s, e);
    }
  }

  lemma HeldStep(reg: Registry, s: State, e: Step)
    requires OwnKeys(reg) && Held(reg, s) && Enabled(reg, s, e) && Leased(s, e)
    ensures Held(reg, Next(reg, s, e))
  {
    SaneStep(reg, s, e);
    LatestRunningStep(reg, s, e);
    OriginatesStep(reg, s, e);
    forall c | c in Next(reg, s, e).runs
      ensures SnapshotsHold(Next(reg, s, e).db, Next(reg, s, e).runs[c])
    {
      SnapshotsHoldStep(reg, s, e, c);
    }
  }

  lemma HeldRuns(reg: Registry, s: State, es: seq<Step>)
    requires OwnKeys(reg) && Held(reg, s) && LeasedRuns(reg, s, es) && Runs(reg, s, es)
    ensures Held(reg, After(reg, s, es))
  {
    forall t: State, e: Step | Held(reg, t) && Enabled(reg, t, e) && Leased(t, e)
      ensures Held(reg, Next(reg, t, e))
    {
      HeldStep(reg, t, e);
    }
    InductionOverLeasedRuns(reg, s, es, t => Held(reg, t));
  }

  /** Reachable when every activity claim is settled within its lease. */
  ghost predicate LeasedReachable(reg: Registry, s: State) {
    exists es: seq<Step> :: LeasedRuns(reg, INIT, es) && Runs(reg, INIT, es) && After(reg, INIT, es) == s
  }

  lemma InitIsHeld(reg: Registry)
    ensures Held(reg, INIT)
  {
  }

  lemma AlwaysHeld(reg: Registry, s: State)
    requires OwnKeys(reg) && LeasedReachable(reg, s)
    ensures Held(reg, s)
  {
    var es: seq<Step> :| LeasedRuns(reg, INIT, es) && Runs(reg, INIT, es) && After(reg, INIT, es) == s;
    InitIsHeld(reg);
    HeldRuns(reg, INIT, es);
  }

  // ---- later replays extend earlier ones ----

  /** Runs of wf claimed from id onwards, and the tables, know at least these events. */
  ghost predicate KnownSince(t: State, wf: Id, from: Id, history: Events, signals: Events) {
    wf in t.db.workflows ==>
      && Within(history, History(t.db, wf)) && Within(signals, Signals(t.db, wf))
      && forall d :: d in t.runs && d >= from && t.runs[d].wf == wf ==>
           && (t.runs[d].history.Some? ==> Within(history, t.runs[d].history.value))
           && (t.runs[d].signals.Some? ==> Within(signals, t.runs[d].signals.value))
  }

  lemma KnownSinceStep(reg: Registry, s: State, e: Step, wf: Id, from: Id, history: Events, signals: Events)
    requires Valid(s) && LatestRunning(s) && Enabled(reg, s, e) && Leased(s, e) && wf < s.nextId
    requires KnownSince(s, wf, from, history, signals)
    ensures KnownSince(Next(reg, s, e), wf, from, history, signals)
  {
    var t := Next(reg, s, e);
    if wf in t.db.workflows {
      GoneStaysGone(reg, s, e, wf);
      EventsGrowStep(reg, s, e, wf);
      WithinTransitive(history, History(s.db, wf), History(t.db, wf));
      WithinTransitive(signals, Signals(s.db, wf), Signals(t.db, wf));
      forall d | d in t.runs && d >= from && t.runs[d].wf == wf
        ensures t.runs[d].history.Some? ==> Within(history, t.runs[d].history.value)
        ensures t.runs[d].signals.Some? ==> Within(signals, t.runs[d].signals.value)
      {
        if d in s.runs {
          RunSnapshots(reg, s, e, d);
        } else {
          NewRunHasSeenNothing(reg, s, e, d);
        }
      }
    }
  }

  lemma {:induction false} KnownSinceRuns(reg: Registry, s: State, es: seq<Step>, wf: Id, from: Id, history: Events,
                                          signals: Events)
    requires Valid(s) && LatestRunning(s) && LeasedRuns(reg, s, es) && Runs(reg, s, es) && wf < s.nextId
    requires KnownSince(s, wf, from, history, signals)
    ensures KnownSince(After(reg, s, es), wf, from, history, signals)
    decreases |es|
  {
    if es != [] {
      ValidStep(reg, s, es[0]);
      LatestRunningStep(reg, s, es[0]);
      KnownSinceStep(reg, s, es[0], wf, from, history, signals);
      KnownSinceRuns(reg, Next(reg, s, es[0]), es[1..], wf, from, history, signals);
    }
  }

  /** A replay claimed after this one has loaded its events never contradicts it, and a later replay
      that has ended, with no insert refused, contains all its settled answers as a prefix. */
  lemma LaterReplayExtends(reg: Registry, s: State, c: Id, es: seq<Step>, d: Id)
    requires OwnKeys(reg) && LeasedReachable(reg, s) && LeasedRuns(reg, s, es) && Runs(reg, s, es)
    requires c in s.runs && s.runs[c].Loaded() && s.runs[c].name in reg && Awaits(HandlerOf(reg, s.runs[c]))
    requires var t := After(reg, s, es);
      && d in t.runs && d >= s.nextId && t.runs[d].Loaded() && t.runs[d].wf == s.runs[c].wf
      && t.runs[d].wf in t.db.workflows && t.runs[d].name in reg
    ensures var t, early, late := After(reg, s, es), s.runs[c].answers, After(reg, s, es).runs[d].answers;
      && HandlerOf(reg, t.runs[d]) == HandlerOf(reg, s.runs[c])
      && Consistently(Settled(early), Unrefused(late))
      && (!HandlerOf(reg, t.runs[d])(late).Asks() && Accepted(late) ==>
            |Settled(early)| <= |late| && Settled(early) == late[..|Settled(early)|])
  {
    var t, r := After(reg, s, es), s.runs[c];
    var q := t.runs[d];
    AlwaysHeld(reg, s);
    HeldRuns(reg, s, es);
    assert Sound(reg, s.db, r) && RunMatches(s.db, r) && SnapshotsHold(s.db, r) && r.wf < s.nextId;
    assert Sound(reg, t.db, q) && RunMatches(t.db, q);
    WasThere(reg, s, es, r.wf);
    WorkflowStays(reg, s, es, r.wf);
    KnownSinceRuns(reg, s, es, r.wf, s.nextId, r.history.value, r.signals.value);
    AttemptExtends(HandlerOf(reg, r), r.history.value, r.signals.value, r.answers, q.history.value, q.signals.value,
      q.answers);
  }
}
