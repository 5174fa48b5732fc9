/** Sums over maps of chips, where a missing key reads as zero. */
module Sums {
  import opened Cards

  // Player IDs are compared only for equality and sorted order.
  type Id = nat

  function At(m: map<Id, nat>, id: Id): nat {
    if id in m then m[id] else 0
  }

  function Min(a: nat, b: nat): nat {
    if a <= b then a else b
  }

  function Max(a: nat, b: nat): nat {
    if a >= b then a else b
  }

  ghost function Total(m: map<Id, nat>): nat
    decreases |m|
  {
    if m == map[] then 0
    else
      var k :| k in m;
      m[k] + Total(m - {k})
  }

  lemma {:induction false} TotalSplit(m: map<Id, nat>, k: Id)
    requires k in m
    ensures Total(m) == m[k] + Total(m - {k})
    decreases |m|
  {
    var j :| j in m && Total(m) == m[j] + Total(m - {j});
    if j != k {
      TotalSplit(m - {j}, k);
      TotalSplit(m - {k}, j);
      assert m - {j} - {k} == m - {k} - {j};
    }
  }

  lemma TotalUpdate(m: map<Id, nat>, k: Id, v: nat)
    ensures Total(m[k := v]) + At(m, k) == Total(m) + v
  {
    TotalSplit(m[k := v], k);
    assert m[k := v] - {k} == m - {k};
    if k in m {
      TotalSplit(m, k);
    } else {
      assert m - {k} == m;
    }
  }

  lemma TotalInsert(m: map<Id, nat>, k: Id, v: nat)
    requires k !in m
    ensures Total(m[k := v]) == Total(m) + v
  {
    TotalUpdate(m, k, v);
  }

  lemma TotalAtLeast(m: map<Id, nat>, k: Id)
    ensures At(m, k) <= Total(m)
  {
    if k in m {
      TotalSplit(m, k);
    }
  }

  lemma {:induction false} TotalZero(m: map<Id, nat>)
    requires forall k | k in m :: m[k] == 0
    ensures Total(m) == 0
    decreases |m|
  {
    if m != map[] {
      var k :| k in m;
      TotalSplit(m, k);
      TotalZero(m - {k});
    }
  }

  /** Sum over j of min(m[j], x): what everybody put in up to level x. */
  ghost function Capped(m: map<Id, nat>, x: nat): nat {
    Total(Cap(m, x))
  }

  ghost function Cap(m: map<Id, nat>, x: nat): map<Id, nat> {
    map k | k in m :: Min(At(m, k), x)
  }

  lemma CappedUpdate(m: map<Id, nat>, k: Id, v: nat, x: nat)
    requires k !in m
    ensures Capped(m[k := v], x) == Capped(m, x) + Min(v, x)
  {
    assert Cap(m[k := v], x) == Cap(m, x)[k := Min(v, x)];
    TotalUpdate(Cap(m, x), k, Min(v, x));
  }

  lemma {:induction false} CappedMonotone(m: map<Id, nat>, x: nat, y: nat)
    requires x <= y
    ensures Capped(m, x) <= Capped(m, y) <= Total(m)
    decreases |m|
  {
    if m == map[] {
      assert Cap(m, x) == map[] && Cap(m, y) == map[];
    } else {
      var k :| k in m;
      var rest := m - {k};
      assert m == rest[k := m[k]];
      CappedMonotone(rest, x, y);
      CappedUpdate(rest, k, m[k], x);
      CappedUpdate(rest, k, m[k], y);
      TotalUpdate(rest, k, m[k]);
    }
  }

  lemma CappedFull(m: map<Id, nat>, x: nat)
    requires forall k | k in m :: m[k] <= x
    ensures Capped(m, x) == Total(m)
  {
    assert Cap(m, x) == m;
  }

  lemma CappedAtZero(m: map<Id, nat>)
    ensures Capped(m, 0) == 0
  {
    TotalZero(Cap(m, 0));
  }

  /** What is left of each value above level x. */
  ghost function Over(m: map<Id, nat>, x: nat): map<Id, nat> {
    map k | k in m :: At(m, k) - Min(At(m, k), x)
  }

  ghost function Plus(m: map<Id, nat>, d: map<Id, nat>): map<Id, nat> {
    map k | k in m.Keys + d.Keys :: At(m, k) + At(d, k)
  }

  lemma PlusStep(m: map<Id, nat>, d: map<Id, nat>, k: Id)
    requires k in d
    ensures Plus(m, d) == Plus(m, d - {k})[k := At(m, k) + d[k]]
    ensures At(Plus(m, d - {k}), k) == At(m, k)
  {
    var left, right := Plus(m, d), Plus(m, d - {k})[k := At(m, k) + d[k]];
    assert left.Keys == right.Keys;
    forall j | j in left ensures left[j] == right[j] {
    }
  }

  lemma {:induction false} TotalPlus(m: map<Id, nat>, d: map<Id, nat>)
    ensures Total(Plus(m, d)) == Total(m) + Total(d)
    decreases |d|
  {
    if d == map[] {
      assert Plus(m, d) == m;
    } else {
      var k :| k in d;
      var rest := d - {k};
      TotalPlus(m, rest);
      PlusStep(m, d, k);
      TotalUpdate(Plus(m, rest), k, At(m, k) + d[k]);
      TotalSplit(d, k);
    }
  }

  lemma CapAndOver(m: map<Id, nat>, x: nat)
    ensures Capped(m, x) + Total(Over(m, x)) == Total(m)
  {
    assert Plus(Cap(m, x), Over(m, x)) == m;
    TotalPlus(Cap(m, x), Over(m, x));
  }

  // ---- The largest value ----

  ghost predicate IsTop(m: map<Id, nat>, x: nat) {
    && (forall k | k in m :: m[k] <= x)
    && (x == 0 || exists k :: k in m && m[k] == x)
  }

  ghost function Top(m: map<Id, nat>): (x: nat)
    ensures IsTop(m, x)
    decreases |m|
  {
    if m == map[] then 0
    else
      var k :| k in m;
      var rest := Top(m - {k});
      assert forall j | j in m :: j == k || (j in m - {k} && (m - {k})[j] == m[j]);
      if m[k] >= rest then m[k]
      else
        assert exists j :: j in m - {k} && (m - {k})[j] == rest;
        rest
  }

  lemma TopIsUnique(m: map<Id, nat>, x: nat)
    requires IsTop(m, x)
    ensures x == Top(m)
  {
  }

  /** The largest value once one holder of the largest is set aside. */
  ghost function Second(m: map<Id, nat>): nat {
    if m == map[] then 0
    else
      var a :| a in m && m[a] == Top(m);
      Top(m - {a})
  }

  lemma SecondIs(m: map<Id, nat>, a: Id)
    requires a in m && m[a] == Top(m)
    ensures Second(m) == Top(m - {a}) <= m[a]
  {
    var b :| b in m && m[b] == Top(m) && Second(m) == Top(m - {b});
    if a != b {
      assert b in m - {a} && a in m - {b};
      TopIsUnique(m - {a}, m[b]);
      TopIsUnique(m - {b}, m[a]);
    }
  }

  // ---- Sorted listings of finite sets ----

  ghost predicate Ascending(s: seq<nat>) {
    forall i, j | 0 <= i < j < |s| :: s[i] < s[j]
  }

  predicate IsLeast(s: set<nat>, x: nat) {
    x in s && forall y | y in s :: x <= y
  }

  lemma {:induction false} HasLeast(s: set<nat>)
    requires s != {}
    ensures exists x :: IsLeast(s, x)
  {
    var x :| x in s;
    if s == {x} {
      assert IsLeast(s, x);
    } else {
      HasLeast(s - {x});
      var z :| IsLeast(s - {x}, z);
      assert s == (s - {x}) + {x};
      assert IsLeast(s, Min(x, z));
    }
  }

  function Least(s: set<nat>): (x: nat)
    requires s != {}
    ensures IsLeast(s, x)
  {
    HasLeast(s);
    var x :| IsLeast(s, x);
    x
  }

  function SortedSet(s: set<nat>): (r: seq<nat>)
    ensures Elements(r) == s
  {
    if s == {} then []
    else
      var x := Least(s);
      var rest := SortedSet(s - {x});
      assert Elements([x] + rest) == {x} + Elements(rest);
      [x] + rest
  }

  lemma PrependAscends(x: nat, rest: seq<nat>)
    requires Ascending(rest)
    requires forall y | y in rest :: x < y
    ensures Ascending([x] + rest)
  {
    var s := [x] + rest;
    forall i, j | 0 <= i < j < |s| ensures s[i] < s[j] {
      assert s[j] == rest[j - 1];
      if i > 0 {
        assert s[i] == rest[i - 1];
        assert rest[i - 1] < rest[j - 1];
      } else {
        assert rest[j - 1] in rest;
      }
    }
  }

  lemma {:induction false} SortedSetAscends(s: set<nat>)
    ensures Ascending(SortedSet(s))
    ensures |SortedSet(s)| == |s|
  {
    if s != {} {
      var x := Least(s);
      var rest := SortedSet(s - {x});
      SortedSetAscends(s - {x});
      forall y | y in rest ensures x < y {
        assert y in Elements(rest);
      }
      PrependAscends(x, rest);
    }
  }
}
