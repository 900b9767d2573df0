/** Where the theorems stop: what the documented race abandons, and keys that run together. */
module Limits {
  import opened Schema
  import opened Transactions
  import opened Replay
  import opened Laws
  import opened Engine
  import opened RunInvariants

  // ---- racing two signals ----

  /** ExecuteActivity as the last thing a handler does. */
  function Awaited(call: Call, tr: seq<Answer>): Request {
    if tr == [] then Start(call)
    else if tr[0] == Refused then Raise(false)
    else if |tr| == 1 then Get(call.key)
    else if tr[1].Got? then Return
    else Suspend
  }

  /** The documented handler that takes whichever of two signals has arrived: it asks for the second one
      after it saw that the first is missing. */
  function Race(approval: Key, rejection: Key, approve: Call, reject: Call): Script {
    (tr: seq<Answer>) =>
      if tr == [] then Receive(approval)
      else if tr[0].Got? then Awaited(approve, tr[1..])
      else if |tr| == 1 then Receive(rejection)
      else if tr[1].Got? then Awaited(reject, tr[2..])
      else Suspend
  }

  lemma ApprovedStarts(approval: Key, rejection: Key, approve: Call, reject: Call,
                       history: Events, signals: Events, tr: seq<Answer>)
    requires Ended(Race(approval, rejection, approve, reject), history, signals, tr) && approval in signals
    ensures forall k :: Starts(Race(approval, rejection, approve, reject), tr, k) ==> k == approve.key
  {
    var h := Race(approval, rejection, approve, reject);
    assert tr != [] && Answered(h, history, signals, tr, 0) && tr[..0] == [];
    forall i, k | 0 <= i < |tr| && StartedAt(h, tr, i, k)
      ensures k == approve.key
    {
      assert i > 0 ==> tr[..i][0] == tr[0];
    }
  }

  lemma UnapprovedStarts(approval: Key, rejection: Key, approve: Call, reject: Call,
                         history: Events, signals: Events, tr: seq<Answer>)
    requires Ended(Race(approval, rejection, approve, reject), history, signals, tr) && approval !in signals
    ensures Starts(Race(approval, rejection, approve, reject), tr, reject.key) <==> rejection in signals
  {
    var h := Race(approval, rejection, approve, reject);
    assert tr != [] && Answered(h, history, signals, tr, 0) && tr[..0] == [] && tr[0] == NotYet;
    assert tr[..|tr|] == tr;
    assert |tr| > 1 && Answered(h, history, signals, tr, 1) && tr[..1] == [NotYet];
    if rejection in signals {
      assert |tr| > 2 && tr[..2] == [NotYet, tr[1]];
      assert StartedAt(h, tr, 2, reject.key);
    } else {
      forall i | 0 <= i < |tr|
        ensures !h(tr[..i]).Start?
      {
        assert Answered(h, history, signals, tr, i);
        assert i > 1 ==> tr[..i][0] == NotYet && tr[..i][1] == NotYet;
      }
    }
  }

  /** A replay of the race starts the reject activity exactly when the rejection has arrived and the approval has
      not. */
  lemma RaceStartsRejectIff(approval: Key, rejection: Key, approve: Call, reject: Call,
                            history: Events, signals: Events, tr: seq<Answer>)
    requires approve.key != reject.key && Ended(Race(approval, rejection, approve, reject), history, signals, tr)
    ensures Starts(Race(approval, rejection, approve, reject), tr, reject.key)
      <==> approval !in signals && rejection in signals
  {
    if approval in signals {
      ApprovedStarts(approval, rejection, approve, reject, history, signals, tr);
    } else {
      UnapprovedStarts(approval, rejection, approve, reject, history, signals, tr);
    }
  }

  /** Growing events make the race abandon a reject activity it has started exactly when the rejection came first
      and the approval came in between. */
  lemma RaceAbandonsIff(approval: Key, rejection: Key, approve: Call, reject: Call,
                        h0: Events, s0: Events, early: seq<Answer>, h1: Events, s1: Events, late: seq<Answer>)
    requires approve.key != reject.key && Within(h0, h1) && Within(s0, s1)
    requires Ended(Race(approval, rejection, approve, reject), h0, s0, early)
    requires Ended(Race(approval, rejection, approve, reject), h1, s1, late)
    ensures var h := Race(approval, rejection, approve, reject);
      Starts(h, early, reject.key) && !Starts(h, late, reject.key)
      <==> rejection in s0 && approval !in s0 && approval in s1
  {
    RaceStartsRejectIff(approval, rejection, approve, reject, h0, s0, early);
    RaceStartsRejectIff(approval, rejection, approve, reject, h1, s1, late);
  }

  /** So it breaks the law on starts. */
  lemma RaceBreaksStartsLaw(approval: Key, rejection: Key, approve: Call, reject: Call, yes: Value, no: Value)
    requires approve.key != reject.key && approval != rejection
    ensures !StartsLaw(Race(approval, rejection, approve, reject))
  {
    var h := Race(approval, rejection, approve, reject);
    RaceIsBounded(approval, rejection, approve, reject);
    var s0, s1 := map[rejection := no], map[rejection := no, approval := yes];
    var early := RunsToItsEnd(h, map[], s0, [], 4);
    var late := RunsToItsEnd(h, map[], s1, [], 4);
    RaceAbandonsIff(approval, rejection, approve, reject, map[], s0, early, map[], s1, late);
    assert Within(s0, s1);
  }

  lemma RaceBreaksPrefixLaw(approval: Key, rejection: Key, approve: Call, reject: Call)
    requires approve.key != reject.key && approval != rejection
    ensures !PrefixLaw(Race(approval, rejection, approve, reject))
  {
    RaceBreaksStartsLaw(approval, rejection, approve, reject, "", "");
    if PrefixLaw(Race(approval, rejection, approve, reject)) {
      PrefixLawGivesStartsLaw(Race(approval, rejection, approve, reject));
    }
  }

  /** Looks at two signals before it decides anything, and starts nothing. */
  function LookTwice(a: Key, b: Key): Script {
    (tr: seq<Answer>) => if |tr| == 0 then Receive(a) else if |tr| == 1 then Receive(b) else Return
  }

  /** The law on answers asks for more than the one on starts: it also counts an answer that was missing. */
  lemma LawsDiffer(a: Key, b: Key)
    ensures StartsLaw(LookTwice(a, b)) && !PrefixLaw(LookTwice(a, b))
  {
    LookTwiceAsksOn(a, b);
    forall tr: seq<Answer>, k: Key
      ensures !Starts(LookTwice(a, b), tr, k)
    {
    }
  }

  lemma LookTwiceAsksOn(a: Key, b: Key)
    ensures !PrefixLaw(LookTwice(a, b))
  {
    var h, tr := LookTwice(a, b), [NotYet];
    assert tr[..0] == [];
    assert Answered(h, map[], map[], tr, 0);
    AskingOnBreaksPrefixLaw(h, map[], map[], tr);
  }

  lemma RaceIsBounded(approval: Key, rejection: Key, approve: Call, reject: Call)
    ensures Bounded(Race(approval, rejection, approve, reject), 4)
  {
    var h := Race(approval, rejection, approve, reject);
    forall tr: seq<Answer> | Path(h, tr) && h(tr).Asks()
      ensures |tr| < 4
    {
    }
  }

  // ---- names that run together ----

  /** Registered handlers never choose keys themselves. */
  ghost predicate UsesDefaultKeys(reg: Registry) {
    forall name, wf, input, tr: seq<Answer> ::
      name in reg && ScriptOf(reg, name, wf, input)(tr).Start? ==>
        exists d :: ScriptOf(reg, name, wf, input)(tr).call.key ==
          DefaultKey(ScriptOf(reg, name, wf, input)(tr).call.name, wf, d)
  }

  lemma DefaultKeysAreOwn(reg: Registry)
    requires UsesDefaultKeys(reg)
    ensures OwnKeys(reg)
  {
  }

  /** A name and a discriminator are simply joined, so an activity can take the key of another one whose name
      continues its own; the second one to be started inserts nothing, whatever its input. */
  lemma JoinedNamesShareARow(db: Tables, wf: Id, name: string, middle: string, rest: string,
                             id: Id, input: Value, options: Options, id': Id, input': Value, options': Options)
    requires wf in db.workflows && id !in db.activities && !HasActivityKey(db, DefaultKey(name, wf, middle + rest))
    ensures DefaultKey(name, wf, middle + rest) == DefaultKey(name + middle, wf, rest)
    ensures var first := InsertActivity(db, id, DefaultKey(name, wf, middle + rest), wf, name, input, options);
      && first.Some? && first.value.activities[id].name == name && first.value.activities[id].input == input
      && InsertActivity(first.value, id', DefaultKey(name + middle, wf, rest), wf, name + middle, input',
         options') == first
  {
    assert name + (middle + rest) == (name + middle) + rest;
    var first := InsertActivity(db, id, DefaultKey(name, wf, middle + rest), wf, name, input, options);
    assert first.value.activities[id].key == DefaultKey(name + middle, wf, rest);
  }
}
