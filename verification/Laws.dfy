/** How replays on growing events relate, for any handler: when answers last, and when starts do. */
module Laws {
  import opened Schema
  import opened Replay

  // ---- answers ----

  /** No request is ever made after a suspension, on any events. */
  ghost predicate StopsWhenMissing(h: Script) {
    forall history: Events, signals: Events, tr: seq<Answer> ::
      Trace(h, history, signals, tr) && h(tr).Asks() ==> Solid(tr)
  }

  /** The settled answers of a replay are never contradicted by a replay on more events. */
  ghost predicate PrefixLaw(h: Script) {
    forall h0: Events, s0: Events, t: seq<Answer>, h1: Events, s1: Events, u: seq<Answer> ::
      Within(h0, h1) && Within(s0, s1) && Trace(h, h0, s0, t) && Trace(h, h1, s1, u)
      ==> Consistently(Settled(t), u)
  }

  lemma StoppingSettles(h: Script, history: Events, signals: Events, tr: seq<Answer>)
    requires StopsWhenMissing(h) && Trace(h, history, signals, tr)
    ensures Solid(Settled(tr)) && Trace(h, history, signals, Settled(tr))
  {
    if tr != [] {
      TracePrefix(h, history, signals, tr, |tr| - 1);
      assert Answered(h, history, signals, tr, |tr| - 1);
      assert Solid(tr[..|tr| - 1]);
    }
  }

  lemma StoppingGivesPrefixLaw(h: Script)
    requires StopsWhenMissing(h)
    ensures PrefixLaw(h)
  {
    forall h0: Events, s0: Events, t: seq<Answer>, h1: Events, s1: Events, u: seq<Answer> |
      Within(h0, h1) && Within(s0, s1) && Trace(h, h0, s0, t) && Trace(h, h1, s1, u)
      ensures Consistently(Settled(t), u)
    {
      StoppingSettles(h, h0, s0, t);
      SolidGrows(h, h0, s0, h1, s1, Settled(t));
      if |Settled(t)| <= |u| {
        TracesAgree(h, h1, s1, Settled(t), u);
      } else {
        TracesAgree(h, h1, s1, u, Settled(t));
      }
    }
  }

  /** Events on which a replay that got stuck on its last request is answered instead. */
  lemma AnswerArrives(h: Script, history: Events, signals: Events, tr: seq<Answer>)
      returns (h1: Events, s1: Events)
    requires Trace(h, history, signals, tr + [NotYet]) && Solid(tr)
    ensures Within(history, h1) && Within(signals, s1) && Trace(h, h1, s1, tr + [Got("")])
  {
    var stuck := tr + [NotYet];
    assert Answered(h, history, signals, stuck, |tr|);
    assert stuck[..|tr|] == tr;
    TracePrefix(h, history, signals, stuck, |tr|);
    var r := h(tr);
    h1 := if r.Get? then history[r.key := ""] else history;
    s1 := if r.Receive? then signals[r.key := ""] else signals;
    SolidGrows(h, history, signals, h1, s1, tr);
    TraceExtend(h, h1, s1, tr);
  }

  lemma LawApplied(h: Script, h0: Events, s0: Events, t: seq<Answer>, h1: Events, s1: Events, u: seq<Answer>, i: nat)
    requires PrefixLaw(h)
    requires Within(h0, h1) && Within(s0, s1) && Trace(h, h0, s0, t) && Trace(h, h1, s1, u)
    requires i < |Settled(t)| && i < |u|
    ensures Settled(t)[i] == u[i]
  {
    assert Consistently(Settled(t), u);
  }

  lemma {:induction false} PrefixLawGivesStopping(h: Script, history: Events, signals: Events, tr: seq<Answer>)
    requires PrefixLaw(h)
    requires Trace(h, history, signals, tr) && h(tr).Asks()
    ensures Solid(tr)
    decreases |tr|
  {
    if tr != [] {
      var n := |tr| - 1;
      var before := tr[..n];
      TracePrefix(h, history, signals, tr, n);
      assert Answered(h, history, signals, tr, n);
      PrefixLawGivesStopping(h, history, signals, before);
      if tr[n] == NotYet {
        assert tr == before + [NotYet];
        var h1, s1 := AnswerArrives(h, history, signals, before);
        TraceExtend(h, history, signals, tr);
        var further := tr + [Reply(h(tr), history, signals)];
        var u := before + [Got("")];
        LawApplied(h, history, signals, further, h1, s1, u, n);
      }
    }
  }

  /** The prefix law holds for exactly the handlers that stop at the first missing answer. */
  lemma PrefixLawIff(h: Script)
    ensures PrefixLaw(h) <==> StopsWhenMissing(h)
  {
    if StopsWhenMissing(h) {
      StoppingGivesPrefixLaw(h);
    }
    if PrefixLaw(h) {
      forall history: Events, signals: Events, tr: seq<Answer> |
        Trace(h, history, signals, tr) && h(tr).Asks()
        ensures Solid(tr)
      {
        PrefixLawGivesStopping(h, history, signals, tr);
      }
    }
  }

  lemma PropagatingStops(h: Script)
    requires Propagates(h)
    ensures StopsWhenMissing(h)
  {
    forall history: Events, signals: Events, tr: seq<Answer> |
      Trace(h, history, signals, tr) && h(tr).Asks()
      ensures Solid(tr)
    {
      SettledIsSolid(h, history, signals, tr);
    }
  }

  // ---- starts ----

  /** What a replay has started, every ended replay on more events starts too. */
  ghost predicate StartsLaw(h: Script) {
    forall h0: Events, s0: Events, t: seq<Answer>, h1: Events, s1: Events, u: seq<Answer>, k: Key ::
      Within(h0, h1) && Within(s0, s1) && Trace(h, h0, s0, t) && Trace(h, h1, s1, u) && !h(u).Asks() && Starts(h, t, k)
      ==> Starts(h, u, k)
  }

  ghost predicate Ended(h: Script, history: Events, signals: Events, tr: seq<Answer>) {
    Trace(h, history, signals, tr) && !h(tr).Asks()
  }

  predicate OneMore(e: Events, f: Events, k: Key) {
    k !in e && k in f && f == e[k := f[k]]
  }

  /** One more event, of either kind. */
  predicate NextEvent(h0: Events, s0: Events, h1: Events, s1: Events, k: Key) {
    (OneMore(h0, h1, k) && s0 == s1) || (h0 == h1 && OneMore(s0, s1, k))
  }

  /** No single event makes an ended replay drop something it had started. */
  ghost predicate OneEventLaw(h: Script) {
    forall h0: Events, s0: Events, t: seq<Answer>, h1: Events, s1: Events, u: seq<Answer>, q: Key, k: Key ::
      NextEvent(h0, s0, h1, s1, q) && Ended(h, h0, s0, t) && Ended(h, h1, s1, u) && Starts(h, t, k) ==> Starts(h, u, k)
  }

  lemma {:induction false} RunsToItsEnd(h: Script, history: Events, signals: Events, tr: seq<Answer>, n: nat)
      returns (end: seq<Answer>)
    requires Bounded(h, n) && Trace(h, history, signals, tr)
    ensures Ended(h, history, signals, end) && |tr| <= |end| && tr == end[..|tr|]
    decreases n - |tr|
  {
    end := tr;
    if h(tr).Asks() {
      TraceIsAttempt(h, history, signals, tr);
      TraceExtend(h, history, signals, tr);
      end := RunsToItsEnd(h, history, signals, tr + [Reply(h(tr), history, signals)], n);
      assert tr == (tr + [Reply(h(tr), history, signals)])[..|tr|];
    }
  }

  /** The ended replay on one more event, which has started k as well. */
  lemma WithOneMore(h: Script, h0: Events, s0: Events, t: seq<Answer>, h1: Events, s1: Events, q: Key, k: Key, n: nat)
      returns (u: seq<Answer>)
    requires Bounded(h, n) && OneEventLaw(h)
    requires NextEvent(h0, s0, h1, s1, q) && Ended(h, h0, s0, t) && Starts(h, t, k)
    ensures Ended(h, h1, s1, u) && Starts(h, u, k)
  {
    u := RunsToItsEnd(h, h1, s1, [], n);
  }

  lemma FewerMissing(e: Events, f: Events, q: Key)
    requires q in f && q !in e && Within(e, f)
    ensures OneMore(e, e[q := f[q]], q) && Within(e[q := f[q]], f)
    ensures |f.Keys - e[q := f[q]].Keys| < |f.Keys - e.Keys|
  {
    assert f.Keys - e.Keys == (f.Keys - e[q := f[q]].Keys) + {q};
  }

  lemma {:induction false} EventByEvent(h: Script, h0: Events, s0: Events, t: seq<Answer>,
                                        h1: Events, s1: Events, u: seq<Answer>, k: Key, n: nat, missing: nat)
    requires Bounded(h, n) && OneEventLaw(h)
    requires Within(h0, h1) && Within(s0, s1) && Ended(h, h0, s0, t) && Ended(h, h1, s1, u) && Starts(h, t, k)
    requires |h1.Keys - h0.Keys| + |s1.Keys - s0.Keys| <= missing
    ensures Starts(h, u, k)
    decreases missing
  {
    if q :| q in h1 && q !in h0 {
      FewerMissing(h0, h1, q);
      var between := WithOneMore(h, h0, s0, t, h0[q := h1[q]], s0, q, k, n);
      EventByEvent(h, h0[q := h1[q]], s0, between, h1, s1, u, k, n, missing - 1);
    } else if q :| q in s1 && q !in s0 {
      FewerMissing(s0, s1, q);
      var between := WithOneMore(h, h0, s0, t, h0, s0[q := s1[q]], q, k, n);
      EventByEvent(h, h0, s0[q := s1[q]], between, h1, s1, u, k, n, missing - 1);
    } else {
      SameEvents(h0, h1);
      SameEvents(s0, s1);
      SameEnd(h, h0, s0, t, u);
    }
  }

  lemma SameEnd(h: Script, history: Events, signals: Events, t: seq<Answer>, u: seq<Answer>)
    requires Ended(h, history, signals, t) && Ended(h, history, signals, u)
    ensures t == u
  {
    EndedIsLongest(h, history, signals, t, u);
    EndedIsLongest(h, history, signals, u, t);
    assert u[..|u|] == u;
  }

  /** For a handler without endless paths it is enough to look at one more event at a time. */
  lemma StartsLawIff(h: Script, n: nat)
    requires Bounded(h, n)
    ensures StartsLaw(h) <==> OneEventLaw(h)
  {
    if OneEventLaw(h) {
      forall h0: Events, s0: Events, t: seq<Answer>, h1: Events, s1: Events, u: seq<Answer>, k: Key |
        Within(h0, h1) && Within(s0, s1) && Trace(h, h0, s0, t) && Ended(h, h1, s1, u) && Starts(h, t, k)
        ensures Starts(h, u, k)
      {
        var end := RunsToItsEnd(h, h0, s0, t, n);
        StartsGrow(h, end, |t|, k);
        EventByEvent(h, h0, s0, end, h1, s1, u, k, n, |h1.Keys - h0.Keys| + |s1.Keys - s0.Keys|);
      }
    }
    if StartsLaw(h) {
      forall h0: Events, s0: Events, t: seq<Answer>, h1: Events, s1: Events, u: seq<Answer>, q: Key, k: Key |
        NextEvent(h0, s0, h1, s1, q) && Ended(h, h0, s0, t) && Ended(h, h1, s1, u) && Starts(h, t, k)
        ensures Starts(h, u, k)
      {
        assert Within(h0, h1) && Within(s0, s1);
      }
    }
  }

  /** A handler that asks for nothing after a missing answer abandons nothing it has started. */
  lemma StoppingGivesStartsLaw(h: Script)
    requires StopsWhenMissing(h)
    ensures StartsLaw(h)
  {
    forall h0: Events, s0: Events, t: seq<Answer>, h1: Events, s1: Events, u: seq<Answer>, k: Key |
      Within(h0, h1) && Within(s0, s1) && Trace(h, h0, s0, t) && Ended(h, h1, s1, u) && Starts(h, t, k)
      ensures Starts(h, u, k)
    {
      var i :| 0 <= i < |t| && StartedAt(h, t, i, k);
      assert Answered(h, h0, s0, t, i);
      var upTo := t[..i + 1];
      TracePrefix(h, h0, s0, t, i);
      TracePrefix(h, h0, s0, t, i + 1);
      assert upTo[..i] == t[..i] && upTo[i] == Scheduled;
      assert StartedAt(h, upTo, i, k);
      SolidGrows(h, h0, s0, h1, s1, upTo);
      EndedIsLongest(h, h1, s1, u, upTo);
      StartsGrow(h, u, |upTo|, k);
    }
  }

  lemma PrefixLawGivesStartsLaw(h: Script)
    requires PrefixLaw(h)
    ensures StartsLaw(h)
  {
    PrefixLawIff(h);
    StoppingGivesStartsLaw(h);
  }

  /** A request after a missing answer breaks the law on answers. */
  lemma AskingOnBreaksPrefixLaw(h: Script, history: Events, signals: Events, tr: seq<Answer>)
    requires Trace(h, history, signals, tr) && h(tr).Asks() && !Solid(tr)
    ensures !PrefixLaw(h)
  {
    if PrefixLaw(h) {
      PrefixLawGivesStopping(h, history, signals, tr);
    }
  }

  /** Handlers that propagate suspension keep both laws. */
  lemma PropagatingKeepsLaws(h: Script)
    requires Propagates(h)
    ensures StartsLaw(h) && PrefixLaw(h)
  {
    PropagatingStops(h);
    StoppingGivesStartsLaw(h);
    StoppingGivesPrefixLaw(h);
  }
}
