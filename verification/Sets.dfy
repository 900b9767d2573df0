/** Sizes and weighted sums of finite sets. */
module Sets {

  function Least(a: nat, b: nat): nat {
    if a <= b then a else b
  }

  function Max(a: int, b: int): int {
    if a >= b then a else b
  }

  lemma SubsetSize<T>(a: set<T>, b: set<T>)
    requires a <= b
    ensures |a| <= |b|
    ensures |a| == |b| ==> a == b
  {
    assert b == a + (b - a);
    if |a| == |b| {
      assert b - a == {};
    }
  }

  lemma {:induction false} SizeInRange(r: set<nat>, n: nat)
    requires forall i :: i in r ==> 1 <= i < n
    ensures |r| <= Max(0, n - 1)
  {
    if n <= 1 {
      assert r == {};
    } else {
      SizeInRange(r - {n - 1}, n - 1);
      if n - 1 in r {
        assert |r - {n - 1}| == |r| - 1;
      } else {
        assert r - {n - 1} == r;
      }
    }
  }

  /** A set that maps one to one into the numbers below n has at most n members. */
  lemma {:induction false} SizeByInjection<T>(s: set<T>, f: map<T, nat>, n: nat)
    requires s <= f.Keys
    requires forall x :: x in s ==> f[x] < n
    requires forall x, y :: x in s && y in s && f[x] == f[y] ==> x == y
    ensures |s| <= n
    decreases n
  {
    if n == 0 {
      assert s == {};
    } else if x :| x in s && f[x] == n - 1 {
      SizeByInjection(s - {x}, f, n - 1);
      assert |s - {x}| == |s| - 1;
    } else {
      SizeByInjection(s, f, n - 1);
    }
  }

  ghost function Sum<T(!new)>(s: set<T>, w: T -> nat): nat
    decreases |s|
  {
    if s == {} then 0
    else
      var x :| x in s;
      w(x) + Sum(s - {x}, w)
  }

  lemma {:induction false} SumSplit<T(!new)>(s: set<T>, w: T -> nat, x: T)
    requires x in s
    ensures Sum(s, w) == w(x) + Sum(s - {x}, w)
    decreases |s|
  {
    var y :| y in s && Sum(s, w) == w(y) + Sum(s - {y}, w);
    if y != x {
      SumSplit(s - {y}, w, x);
      assert s - {y} - {x} == s - {x} - {y};
      SumSplit(s - {x}, w, y);
    }
  }

  lemma {:induction false} SumAtMost<T(!new)>(s: set<T>, v: T -> nat, w: T -> nat)
    requires forall x :: x in s ==> v(x) <= w(x)
    ensures Sum(s, v) <= Sum(s, w)
    decreases |s|
  {
    if s != {} {
      var x :| x in s;
      SumSplit(s, v, x);
      SumSplit(s, w, x);
      SumAtMost(s - {x}, v, w);
    }
  }

  ghost function Part<T(!new)>(s: set<T>, w: T -> nat, x: T): nat {
    if x in s then w(x) else 0
  }

  lemma SumPart<T(!new)>(s: set<T>, w: T -> nat, x: T)
    ensures Sum(s, w) == Part(s, w, x) + Sum(s - {x}, w)
  {
    if x in s {
      SumSplit(s, w, x);
    } else {
      assert s - {x} == s;
    }
  }

  /** When only x comes, goes or grows, the sum changes by no more than the part of x. */
  lemma SumShift<T(!new)>(s: set<T>, v: T -> nat, t: set<T>, w: T -> nat, x: T)
    requires t - {x} == s - {x}
    requires forall y :: y in s && y != x ==> w(y) <= v(y)
    ensures Sum(t, w) + Part(s, v, x) <= Sum(s, v) + Part(t, w, x)
  {
    SumPart(s, v, x);
    SumPart(t, w, x);
    SumAtMost(s - {x}, w, v);
  }
}
