/** Facts about the ordered, duplicate-free lists of task numbers that the
    kernel keeps in its wait queues. */
module Sequences {

  predicate NoDup(q: seq<nat>) {
    forall i, j :: 0 <= i < j < |q| ==> q[i] != q[j]
  }

  /** `q` with the first occurrence of `t` pulled out and the tail closed up. */
  function Without(q: seq<nat>, t: nat): (r: seq<nat>)
    ensures t !in q ==> r == q
    ensures t in q ==> |r| == |q| - 1
  {
    if q == [] then []
    else if q[0] == t then q[1..]
    else [q[0]] + Without(q[1..], t)
  }

  /** The order-preserving filter of `q` that leaves out every member of `gone`. */
  function Drop(q: seq<nat>, gone: set<nat>): (r: seq<nat>)
    ensures forall x :: x in r <==> x in q && x !in gone
    ensures |r| <= |q|
  {
    if q == [] then []
    else if q[0] in gone then Drop(q[1..], gone)
    else [q[0]] + Drop(q[1..], gone)
  }

  lemma {:induction false} WithoutSplit(q: seq<nat>, i: nat)
    requires i < |q| && q[i] !in q[..i]
    ensures Without(q, q[i]) == q[..i] + q[i + 1..]
  {
    if i == 0 {
    } else {
      assert q[1..][i - 1] == q[i] && q[1..][..i - 1] == q[1..i];
      assert forall x :: x in q[1..i] ==> x in q[..i];
      WithoutSplit(q[1..], i - 1);
      assert q[..i] == [q[0]] + q[1..i];
      assert q[1..][i..] == q[i + 1..];
    }
  }

  lemma {:induction false} DropNoDup(q: seq<nat>, gone: set<nat>)
    requires NoDup(q)
    ensures NoDup(Drop(q, gone))
  {
    if q == [] {
    } else {
      DropNoDup(q[1..], gone);
    }
  }

  lemma {:induction false} DropNothing(q: seq<nat>, gone: set<nat>)
    requires forall x :: x in q ==> x !in gone
    ensures Drop(q, gone) == q
  {
    if q == [] {
    } else {
      DropNothing(q[1..], gone);
    }
  }

  /** Pulling one more task out of a filtered queue filters it once more. */
  lemma {:induction false} DropOneMore(q: seq<nat>, gone: set<nat>, t: nat)
    requires NoDup(q)
    ensures Without(Drop(q, gone), t) == Drop(q, gone + {t})
  {
    if q == [] {
    } else if q[0] == t && t !in gone {
      assert forall x :: x in q[1..] ==> x != t;
      DropSame(q[1..], gone, gone + {t});
    } else {
      DropOneMore(q[1..], gone, t);
    }
  }

  /** Only membership of the queue's own elements matters to a filter. */
  lemma {:induction false} DropSame(q: seq<nat>, gone: set<nat>, gone': set<nat>)
    requires forall x :: x in q ==> (x in gone <==> x in gone')
    ensures Drop(q, gone) == Drop(q, gone')
  {
    if q == [] {
    } else {
      DropSame(q[1..], gone, gone');
    }
  }

  lemma WithoutMembers(q: seq<nat>, t: nat)
    requires NoDup(q)
    ensures NoDup(Without(q, t))
    ensures forall x :: x in Without(q, t) <==> x in q && x != t
  {
    DropNothing(q, {});
    DropOneMore(q, {}, t);
    DropNoDup(q, {} + {t});
  }

  /** The numbers below `n`. */
  function Below(n: nat): (r: set<nat>)
    ensures |r| == n
    ensures forall x: nat :: x in r <==> x < n
  {
    if n == 0 then {} else Below(n - 1) + {n - 1}
  }

  function Members(q: seq<nat>): (r: set<nat>)
    ensures forall x :: x in r <==> x in q
    ensures NoDup(q) ==> |r| == |q|
  {
    if q == [] then {} else {q[0]} + Members(q[1..])
  }

  /** Pigeonhole: a duplicate-free queue of numbers below `n` that avoids every
      member of `absent` leaves at least `|absent|` places over. */
  lemma Pigeonhole(q: seq<nat>, n: nat, absent: set<nat>)
    requires NoDup(q)
    requires forall x :: x in q ==> x < n && x !in absent
    requires forall x :: x in absent ==> x < n
    ensures |q| + |absent| <= n
  {
    var members := Members(q);
    assert members !! absent;
    assert |members + absent| == |members| + |absent|;
    SubsetCardinality(members + absent, Below(n));
  }

  lemma {:induction false} SubsetCardinality(a: set<nat>, b: set<nat>)
    requires a <= b
    ensures |a| <= |b|
    decreases a
  {
    if a == {} {
    } else {
      var x :| x in a;
      SubsetCardinality(a - {x}, b - {x});
    }
  }

  /** Sum of a finite list of per-task shares. */
  function Sum(xs: seq<nat>): nat {
    if xs == [] then 0 else xs[0] + Sum(xs[1..])
  }

  /** Changing one task's share changes the total by exactly that much. */
  lemma {:induction false} SumUpdate(xs: seq<nat>, i: nat, v: nat)
    requires i < |xs|
    ensures Sum(xs[i := v]) + xs[i] == Sum(xs) + v
  {
    if i == 0 {
      assert xs[0 := v][1..] == xs[1..];
    } else {
      assert xs[i := v][1..] == xs[1..][i - 1 := v];
      SumUpdate(xs[1..], i - 1, v);
    }
  }

  lemma {:induction false} SumAtLeast(xs: seq<nat>, i: nat)
    requires i < |xs|
    ensures Sum(xs) >= xs[i]
  {
    if i == 0 {
    } else {
      SumAtLeast(xs[1..], i - 1);
    }
  }

  lemma {:induction false} SumZero(xs: seq<nat>)
    requires forall i :: 0 <= i < |xs| ==> xs[i] == 0
    ensures Sum(xs) == 0
  {
    if xs == [] {
    } else {
      SumZero(xs[1..]);
    }
  }

  /** Two lists that differ at most at `i` and `j`. */
  lemma SumTwo(xs: seq<nat>, ys: seq<nat>, i: nat, j: nat)
    requires |xs| == |ys| && i < |xs| && j < |xs| && i != j
    requires forall t :: 0 <= t < |xs| && t != i && t != j ==> xs[t] == ys[t]
    ensures Sum(ys) + xs[i] + xs[j] == Sum(xs) + ys[i] + ys[j]
  {
    SumUpdate(xs, i, ys[i]);
    SumUpdate(xs[i := ys[i]], j, ys[j]);
    assert xs[i := ys[i]][j := ys[j]] == ys;
  }

  lemma SumOne(xs: seq<nat>, ys: seq<nat>, i: nat)
    requires |xs| == |ys| && i < |xs|
    requires forall t :: 0 <= t < |xs| && t != i ==> xs[t] == ys[t]
    ensures Sum(ys) + xs[i] == Sum(xs) + ys[i]
  {
    SumUpdate(xs, i, ys[i]);
    assert xs[i := ys[i]] == ys;
  }

  lemma {:induction false} SumBelow(xs: seq<nat>, ys: seq<nat>, i: nat)
    requires |xs| == |ys| && i < |xs|
    requires forall t :: 0 <= t < |xs| ==> xs[t] <= ys[t]
    ensures Sum(xs) <= Sum(ys)
    ensures xs[i] < ys[i] ==> Sum(xs) < Sum(ys)
  {
    if |xs| > 1 {
      SumBelow(xs[1..], ys[1..], if i == 0 then 0 else i - 1);
    }
  }
}
