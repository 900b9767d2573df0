/** One claim statement takes a whole batch. It does what claiming its rows one after another does. */
module Batches {
  import opened Schema
  import opened Transactions
  import opened Replay
  import opened Engine
  import opened ClaimQuery

  function TaskClaims(picks: seq<Id>): seq<Step> {
    if picks == [] then [] else [ClaimRun(picks[0])] + TaskClaims(picks[1..])
  }

  function ActivityClaims(picks: seq<Id>): seq<Step> {
    if picks == [] then [] else [ClaimJob(picks[0])] + ActivityClaims(picks[1..])
  }

  predicate Distinct(picks: seq<Id>) {
    forall i, j :: 0 <= i < j < |picks| ==> picks[i] != picks[j]
  }

  function Claim(db: Tables, x: Id): Run
    requires x in db.tasks && db.tasks[x].wf in db.workflows
  {
    var wf := db.tasks[x].wf;
    var w := db.workflows[wf];
    Run(x, wf, w.name, w.input, w.attempts, w.maxAttempts, None, None, [], None)
  }

  function JobClaim(db: Tables, x: Id): Job
    requires x in db.activities
  {
    var a := db.activities[x];
    Job(x, a.wf, a.name, a.input, a.attempts + 1, a.maxAttempts, None)
  }

  lemma PickedCons(picks: seq<Id>)
    requires picks != []
    ensures Picked(picks) == {picks[0]} + Picked(picks[1..])
    ensures Distinct(picks) ==> Distinct(picks[1..]) && picks[0] !in Picked(picks[1..])
  {
    forall i | 1 <= i < |picks|
      ensures picks[i] in Picked(picks[1..])
    {
      assert picks[1..][i - 1] == picks[i];
    }
  }

  lemma ClaimTasksCons(db: Tables, x: Id, rest: set<Id>, now: int)
    requires x in db.tasks && x !in rest
    ensures ClaimTasks(ClaimTask(db, x, now), rest, now) == ClaimTasks(db, {x} + rest, now)
  {
  }

  lemma ClaimActivitiesCons(db: Tables, x: Id, rest: set<Id>, now: int)
    requires x in db.activities && x !in rest
    ensures ClaimActivities(ClaimActivity(db, x, now), rest, now) == ClaimActivities(db, {x} + rest, now)
  {
  }

  predicate TasksReady(s: State, picks: seq<Id>) {
    forall i :: 0 <= i < |picks| ==>
      picks[i] in s.db.tasks && s.db.tasks[picks[i]].wf in s.db.workflows && TaskReady(s.db.tasks[picks[i]], s.now)
  }

  predicate ActivitiesReady(s: State, picks: seq<Id>) {
    forall i :: 0 <= i < |picks| ==> picks[i] in s.db.activities && ActivityReady(s.db.activities[picks[i]], s.now)
  }

  ghost predicate RunsGained(s: State, t: State, picks: seq<Id>)
    requires TasksReady(s, picks)
  {
    && (forall c :: c in s.runs && c < s.nextId ==> c in t.runs && t.runs[c] == s.runs[c])
    && (forall i :: 0 <= i < |picks| ==>
         s.nextId + 2 * i in t.runs && t.runs[s.nextId + 2 * i] == Claim(s.db, picks[i]))
  }

  ghost predicate JobsGained(s: State, t: State, picks: seq<Id>)
    requires ActivitiesReady(s, picks)
  {
    && (forall c :: c in s.jobs && c < s.nextId ==> c in t.jobs && t.jobs[c] == s.jobs[c])
    && (forall i :: 0 <= i < |picks| ==>
         s.nextId + 2 * i in t.jobs && t.jobs[s.nextId + 2 * i] == JobClaim(s.db, picks[i]))
  }

  lemma RunsGainedCons(s: State, mid: State, t: State, picks: seq<Id>)
    requires picks != [] && TasksReady(s, picks) && TasksReady(mid, picks[1..])
    requires mid.runs == s.runs[s.nextId := Claim(s.db, picks[0])] && mid.nextId == s.nextId + 2
    requires forall i :: 1 <= i < |picks| ==> Claim(mid.db, picks[i]) == Claim(s.db, picks[i])
    requires RunsGained(mid, t, picks[1..])
    ensures RunsGained(s, t, picks)
  {
    forall i | 0 <= i < |picks|
      ensures s.nextId + 2 * i in t.runs && t.runs[s.nextId + 2 * i] == Claim(s.db, picks[i])
    {
      if i > 0 {
        assert picks[1..][i - 1] == picks[i] && mid.nextId + 2 * (i - 1) == s.nextId + 2 * i;
      }
    }
  }

  lemma JobsGainedCons(s: State, mid: State, t: State, picks: seq<Id>)
    requires picks != [] && ActivitiesReady(s, picks) && ActivitiesReady(mid, picks[1..])
    requires mid.jobs == s.jobs[s.nextId := JobClaim(s.db, picks[0])] && mid.nextId == s.nextId + 2
    requires forall i :: 1 <= i < |picks| ==> JobClaim(mid.db, picks[i]) == JobClaim(s.db, picks[i])
    requires JobsGained(mid, t, picks[1..])
    ensures JobsGained(s, t, picks)
  {
    forall i | 0 <= i < |picks|
      ensures s.nextId + 2 * i in t.jobs && t.jobs[s.nextId + 2 * i] == JobClaim(s.db, picks[i])
    {
      if i > 0 {
        assert picks[1..][i - 1] == picks[i] && mid.nextId + 2 * (i - 1) == s.nextId + 2 * i;
      }
    }
  }

  lemma FirstTaskClaim(reg: Registry, s: State, picks: seq<Id>)
    requires picks != [] && Distinct(picks) && TasksReady(s, picks)
    ensures Enabled(reg, s, ClaimRun(picks[0]))
    ensures var mid := Next(reg, s, ClaimRun(picks[0]));
      && mid.db == ClaimTask(s.db, picks[0], s.now) && mid.now == s.now && mid.nextId == s.nextId + 2
      && mid.runs == s.runs[s.nextId := Claim(s.db, picks[0])]
      && TasksReady(mid, picks[1..]) && forall i :: 1 <= i < |picks| ==>
        Claim(mid.db, picks[i]) == Claim(s.db, picks[i])
  {
  }

  lemma FirstActivityClaim(reg: Registry, s: State, picks: seq<Id>)
    requires picks != [] && Distinct(picks) && ActivitiesReady(s, picks)
    ensures Enabled(reg, s, ClaimJob(picks[0]))
    ensures var mid := Next(reg, s, ClaimJob(picks[0]));
      && mid.db == ClaimActivity(s.db, picks[0], s.now) && mid.now == s.now && mid.nextId == s.nextId + 2
      && mid.jobs == s.jobs[s.nextId := JobClaim(s.db, picks[0])]
      && ActivitiesReady(mid, picks[1..]) && forall i :: 1 <= i < |picks| ==>
        JobClaim(mid.db, picks[i]) == JobClaim(s.db, picks[i])
  {
  }

  /** Claiming the picks one by one is possible, updates just the rows the batch updates,
      and hands out one claim per pick with what the batch returns for it. */
  lemma {:induction false} TaskBatchIsSteps(reg: Registry, s: State, picks: seq<Id>)
    requires Distinct(picks) && TasksReady(s, picks)
    ensures Runs(reg, s, TaskClaims(picks))
    ensures var t := After(reg, s, TaskClaims(picks));
      t.db == ClaimTasks(s.db, Picked(picks), s.now) && RunsGained(s, t, picks)
    decreases |picks|
  {
    if picks == [] {
      assert ClaimTasks(s.db, {}, s.now).tasks == s.db.tasks;
    } else {
      var rest := picks[1..];
      FirstTaskClaim(reg, s, picks);
      var mid := Next(reg, s, ClaimRun(picks[0]));
      PickedCons(picks);
      assert TaskClaims(picks)[1..] == TaskClaims(rest);
      TaskBatchIsSteps(reg, mid, rest);
      ClaimTasksCons(s.db, picks[0], Picked(rest), s.now);
      RunsGainedCons(s, mid, After(reg, mid, TaskClaims(rest)), picks);
    }
  }

  lemma {:induction false} ActivityBatchIsSteps(reg: Registry, s: State, picks: seq<Id>)
    requires Distinct(picks) && ActivitiesReady(s, picks)
    ensures Runs(reg, s, ActivityClaims(picks))
    ensures var t := After(reg, s, ActivityClaims(picks));
      t.db == ClaimActivities(s.db, Picked(picks), s.now) && JobsGained(s, t, picks)
    decreases |picks|
  {
    if picks == [] {
      assert ClaimActivities(s.db, {}, s.now).activities == s.db.activities;
    } else {
      var rest := picks[1..];
      FirstActivityClaim(reg, s, picks);
      var mid := Next(reg, s, ClaimJob(picks[0]));
      PickedCons(picks);
      assert ActivityClaims(picks)[1..] == ActivityClaims(rest);
      ActivityBatchIsSteps(reg, mid, rest);
      ClaimActivitiesCons(s.db, picks[0], Picked(rest), s.now);
      JobsGainedCons(s, mid, After(reg, mid, ActivityClaims(rest)), picks);
    }
  }
}
