/** The claim query takes the best of the due rows and the best of the stuck rows, and the best of those again.
    It selects what the simple query over all ready rows would. */
module ClaimQuery {
  import opened Sets
  import opened Schema

  datatype Slot = Slot(priority: int, scheduledAt: int)

  /** ORDER BY priority DESC, scheduled_at: x comes strictly before y. */
  predicate Ahead(x: Slot, y: Slot) {
    x.priority > y.priority || (x.priority == y.priority && x.scheduledAt < y.scheduledAt)
  }

  /** A possible result of ORDER BY ... LIMIT k: as many rows as there can be, and none left out that is strictly
      ahead. */
  ghost predicate IsBest(picked: set<Id>, rows: map<Id, Slot>, k: nat) {
    && picked <= rows.Keys
    && |picked| == Least(k, |rows.Keys|)
    && forall x, y :: x in rows && x !in picked && y in picked ==> !Ahead(rows[x], rows[y])
  }

  function Only(rows: map<Id, Slot>, ids: set<Id>): map<Id, Slot> {
    map x | x in rows && x in ids :: rows[x]
  }

  lemma DisjointSize(a: set<Id>, b: set<Id>)
    requires a !! b
    ensures |a + b| == |a| + |b|
  {
  }

  /** Some member of a full selection is left out once another row takes a place. */
  lemma SomeoneLeftOut(full: set<Id>, picked: set<Id>, y: Id) returns (x: Id)
    requires |picked| <= |full| && y in picked && y !in full
    ensures x in full && x !in picked
  {
    if full <= picked {
      SubsetSize(full + {y}, picked);
    }
    x :| x in full && x !in picked;
  }

  /** The ready rows are the due ones and, apart from them, the stuck ones. */
  ghost predicate Splits(all: map<Id, Slot>, due: map<Id, Slot>, stuck: map<Id, Slot>) {
    && due.Keys !! stuck.Keys && all.Keys == due.Keys + stuck.Keys
    && (forall x :: x in due ==> all[x] == due[x])
    && (forall x :: x in stuck ==> all[x] == stuck[x])
  }

  /** A row that did not make it into its own selection is not ahead of anything finally picked. */
  lemma DroppedEarlyIsBehind(all: map<Id, Slot>, due: map<Id, Slot>, stuck: map<Id, Slot>,
                             a: set<Id>, b: set<Id>, picked: set<Id>, k: nat, x: Id, y: Id)
    requires Splits(all, due, stuck)
    requires IsBest(a, due, k) && b <= stuck.Keys
    requires IsBest(picked, Only(all, a + b), k)
    requires x in due && x !in a && y in picked
    ensures !Ahead(all[x], all[y])
  {
    var both: map<Id, Slot> := Only(all, a + b);
    assert |a| == k by {
      SubsetSize(a, due.Keys);
    }
    if y !in a {
      // y came from the other selection, so it took the place of some row of a, all of which are no worse than x.
      var z: Id := SomeoneLeftOut(a, picked, y);
      assert z in both && !Ahead(both[z], both[y]);
      assert !Ahead(due[x], due[z]);
    }
  }

  lemma PickedCount(all: map<Id, Slot>, due: map<Id, Slot>, stuck: map<Id, Slot>, a: set<Id>, b: set<Id>,
                    picked: set<Id>, k: nat)
    requires Splits(all, due, stuck)
    requires IsBest(a, due, k) && IsBest(b, stuck, k)
    requires IsBest(picked, Only(all, a + b), k)
    ensures picked <= all.Keys && |picked| == Least(k, |all.Keys|)
  {
    OnlyKeys(all, a + b);
    DisjointSize(a, b);
    DisjointSize(due.Keys, stuck.Keys);
    LeastOfLeasts(k, |due.Keys|, |stuck.Keys|);
  }

  lemma OnlyKeys(rows: map<Id, Slot>, ids: set<Id>)
    requires ids <= rows.Keys
    ensures Only(rows, ids).Keys == ids
  {
  }

  lemma LeastOfLeasts(k: nat, m: nat, n: nat)
    ensures Least(k, Least(k, m) + Least(k, n)) == Least(k, m + n)
  {
  }

  /** The best of the two bests is the best of all ready rows. */
  lemma BestOfBests(all: map<Id, Slot>, due: map<Id, Slot>, stuck: map<Id, Slot>, a: set<Id>, b: set<Id>,
                    picked: set<Id>, k: nat)
    requires Splits(all, due, stuck)
    requires IsBest(a, due, k) && IsBest(b, stuck, k)
    requires IsBest(picked, Only(all, a + b), k)
    ensures IsBest(picked, all, k)
  {
    PickedCount(all, due, stuck, a, b, picked, k);
    forall x, y | x in all && x !in picked && y in picked
      ensures !Ahead(all[x], all[y])
    {
      LeftOutIsBehind(all, due, stuck, a, b, picked, k, x, y);
    }
  }

  lemma SecondRoundLoser(all: map<Id, Slot>, some: set<Id>, picked: set<Id>, k: nat, x: Id, y: Id)
    requires some <= all.Keys && IsBest(picked, Only(all, some), k) && x in some && x !in picked && y in picked
    ensures y in all && !Ahead(all[x], all[y])
  {
    var both: map<Id, Slot> := Only(all, some);
    assert !Ahead(both[x], both[y]);
  }

  lemma LeftOutIsBehind(all: map<Id, Slot>, due: map<Id, Slot>, stuck: map<Id, Slot>,
                        a: set<Id>, b: set<Id>, picked: set<Id>, k: nat, x: Id, y: Id)
    requires Splits(all, due, stuck)
    requires IsBest(a, due, k) && IsBest(b, stuck, k)
    requires IsBest(picked, Only(all, a + b), k)
    requires x in all && x !in picked && y in picked
    ensures !Ahead(all[x], all[y])
  {
    if x in a || x in b {
      SecondRoundLoser(all, a + b, picked, k, x, y);
    } else if x in due {
      DroppedEarlyIsBehind(all, due, stuck, a, b, picked, k, x, y);
    } else {
      assert b + a == a + b;
      DroppedEarlyIsBehind(all, stuck, due, b, a, picked, k, x, y);
    }
  }

  // ---- ORDER BY ... LIMIT, row by row ----

  /** Picked in order: nothing comes strictly before an earlier pick. */
  ghost predicate InOrder(picks: seq<Id>, rows: map<Id, Slot>)
    requires forall i :: 0 <= i < |picks| ==> picks[i] in rows
  {
    forall i, j :: 0 <= i < j < |picks| ==> picks[i] != picks[j] && !Ahead(rows[picks[j]], rows[picks[i]])
  }

  function Picked(picks: seq<Id>): set<Id> {
    set i | 0 <= i < |picks| :: picks[i]
  }

  method Foremost(rows: map<Id, Slot>, among: set<Id>) returns (best: Id)
    requires among != {} && among <= rows.Keys
    ensures best in among
    ensures forall x :: x in among ==> !Ahead(rows[x], rows[best])
  {
    best :| best in among;
    var left := among - {best};
    while left != {}
      invariant left <= among && best in among
      invariant forall x :: x in among && x !in left ==> !Ahead(rows[x], rows[best])
      decreases left
    {
      var x :| x in left;
      if Ahead(rows[x], rows[best]) {
        best := x;
      }
      left := left - {x};
    }
  }

  lemma PickedMore(picks: seq<Id>, x: Id)
    ensures Picked(picks + [x]) == Picked(picks) + {x}
  {
    assert forall i :: 0 <= i < |picks| ==> (picks + [x])[i] == picks[i];
    assert (picks + [x])[|picks|] == x;
  }

  lemma {:induction false} PickedSize(picks: seq<Id>)
    requires forall i, j :: 0 <= i < j < |picks| ==> picks[i] != picks[j]
    ensures |Picked(picks)| == |picks|
  {
    if picks != [] {
      var n := |picks| - 1;
      PickedSize(picks[..n]);
      assert picks == picks[..n] + [picks[n]];
      PickedMore(picks[..n], picks[n]);
      assert picks[n] !in Picked(picks[..n]);
    }
  }

  /** The picks are in order, and none of the rows left comes strictly before one of them. */
  ghost predicate SoFar(picks: seq<Id>, left: set<Id>, rows: map<Id, Slot>) {
    && left !! Picked(picks) && left + Picked(picks) == rows.Keys
    && (forall i :: 0 <= i < |picks| ==> picks[i] in rows) && InOrder(picks, rows)
    && (forall x, i :: x in left && 0 <= i < |picks| ==> !Ahead(rows[x], rows[picks[i]]))
  }

  lemma PickedNext(picks: seq<Id>, left: set<Id>, rows: map<Id, Slot>, best: Id)
    requires SoFar(picks, left, rows) && best in left && forall x :: x in left ==> !Ahead(rows[x], rows[best])
    ensures SoFar(picks + [best], left - {best}, rows)
  {
    PickedMore(picks, best);
    var next := picks + [best];
    forall i | 0 <= i < |picks|
      ensures next[i] != best
    {
      assert picks[i] in Picked(picks);
    }
  }

  method OrderByLimit(rows: map<Id, Slot>, k: nat) returns (picks: seq<Id>)
    ensures forall i :: 0 <= i < |picks| ==> picks[i] in rows
    ensures InOrder(picks, rows)
    ensures IsBest(Picked(picks), rows, k)
    ensures forall i, j :: 0 <= i < j < |picks| ==>
      || rows[picks[i]].priority > rows[picks[j]].priority
      || (rows[picks[i]].priority == rows[picks[j]].priority
          && rows[picks[i]].scheduledAt <= rows[picks[j]].scheduledAt)
    ensures forall x, y :: x in Picked(picks) && y in rows && y !in Picked(picks) ==>
      || rows[x].priority > rows[y].priority
      || (rows[x].priority == rows[y].priority && rows[x].scheduledAt <= rows[y].scheduledAt)
  {
    picks := [];
    var left := rows.Keys;
    while left != {} && |picks| < k
      invariant |picks| <= k && SoFar(picks, left, rows)
      decreases left
    {
      var best := Foremost(rows, left);
      PickedNext(picks, left, rows, best);
      picks, left := picks + [best], left - {best};
    }
    PickedSize(picks);
    SubsetSize(Picked(picks), rows.Keys);
  }

  method ClaimCandidates(due: map<Id, Slot>, stuck: map<Id, Slot>, k: nat) returns (picks: seq<Id>)
    requires due.Keys !! stuck.Keys
    ensures forall i :: 0 <= i < |picks| ==> picks[i] in due + stuck
    ensures InOrder(picks, due + stuck)
    ensures IsBest(Picked(picks), due + stuck, k)
    ensures forall i, j :: 0 <= i < j < |picks| ==> var x, y := (due + stuck)[picks[i]], (due + stuck)[picks[j]];
      x.priority > y.priority || (x.priority == y.priority && x.scheduledAt <= y.scheduledAt)
    ensures forall a, b :: a in Picked(picks) && b in due + stuck && b !in Picked(picks) ==>
      var x, y := (due + stuck)[a], (due + stuck)[b];
        x.priority > y.priority || (x.priority == y.priority && x.scheduledAt <= y.scheduledAt)
  {
    var all := due + stuck;
    var a := OrderByLimit(due, k);
    var b := OrderByLimit(stuck, k);
    picks := OrderByLimit(Only(all, Picked(a) + Picked(b)), k);
    BestOfBests(all, due, stuck, Picked(a), Picked(b), Picked(picks), k);
  }
}
