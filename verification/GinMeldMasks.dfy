/** Every meld a hand holds, as masks of hand positions: sets rank by rank, runs suit by suit. */
module GinMeldMasks {
  import opened Cards
  import opened GinMelds

  type Mask = set<nat>

  /** A mask the search may choose: positions of the hand whose cards form a meld. */
  ghost predicate MeldMask(cards: seq<Card>, mask: Mask) {
    mask <= Range(|cards|) && IsMeld(Picked(cards, mask))
  }

  // ---- Choosing k of a list ----

  /** A choice of k items that keeps cur and draws the rest from start on. */
  ghost predicate Choice(items: seq<nat>, k: nat, start: nat, cur: Mask, m: Mask)
    requires start <= |items|
  {
    |m| == k && cur <= m <= cur + Elements(items[start..])
  }

  /** The walk over items from start on: with the first of them, then without it. */
  function WalkOf(items: seq<nat>, k: nat, start: nat, cur: Mask): seq<Mask>
    requires start <= |items|
    decreases |items| - start
  {
    if |cur| == k then [cur]
    else if start == |items| then []
    else WalkOf(items, k, start + 1, cur + {items[start]}) + WalkOf(items, k, start + 1, cur)
  }

  method Walk(items: seq<nat>, k: nat, start: nat, cur: Mask) returns (out: seq<Mask>)
    requires start <= |items|
    ensures out == WalkOf(items, k, start, cur)
    decreases |items| - start
  {
    if |cur| == k {
      return [cur];
    }
    out := [];
    for i := start to |items|
      invariant out + WalkOf(items, k, i, cur) == WalkOf(items, k, start, cur)
    {
      var more := Walk(items, k, i + 1, cur + {items[i]});
      out := out + more;
    }
  }

  /** The walk lists exactly the choices. */
  lemma {:induction false} WalkListsChoices(items: seq<nat>, k: nat, start: nat, cur: Mask, m: Mask)
    requires Distinct(items) && start <= |items| && |cur| <= k && cur !! Elements(items[start..])
    ensures m in WalkOf(items, k, start, cur) <==> Choice(items, k, start, cur, m)
    decreases |items| - start
  {
    if |cur| == k {
      if Choice(items, k, start, cur, m) {
        FullSubset(cur, m);
      }
    } else if start < |items| {
      var x := items[start];
      ChoiceSplits(items, k, start, cur, m);
      WalkListsChoices(items, k, start + 1, cur + {x}, m);
      WalkListsChoices(items, k, start + 1, cur, m);
    } else {
      assert Elements(items[start..]) == {};
      assert Choice(items, k, start, cur, m) ==> m == cur;
    }
  }

  /** A choice takes the next item or does without it. */
  lemma ChoiceSplits(items: seq<nat>, k: nat, start: nat, cur: Mask, m: Mask)
    requires Distinct(items) && start < |items| && cur !! Elements(items[start..])
    ensures var x := items[start];
            && x !in cur && cur + {x} !! Elements(items[start + 1..]) && cur !! Elements(items[start + 1..])
            && (Choice(items, k, start, cur, m) <==>
                Choice(items, k, start + 1, cur + {x}, m) || Choice(items, k, start + 1, cur, m))
  {
    var x, rest := items[start], Elements(items[start + 1..]);
    assert items[start..] == [x] + items[start + 1..];
    assert Elements(items[start..]) == {x} + rest;
    NotAgain(items, start);
    WithOrWithout(m, cur, x, rest);
  }

  lemma NotAgain(items: seq<nat>, i: nat)
    requires Distinct(items) && i < |items|
    ensures items[i] !in Elements(items[i + 1..])
  {
    var tail := items[i + 1..];
    forall x | x in tail ensures x != items[i] {
      var j :| 0 <= j < |tail| && tail[j] == x;
      assert items[i + 1 + j] == x;
    }
  }

  lemma WithOrWithout(m: Mask, cur: Mask, x: nat, rest: Mask)
    requires x !in rest && x !in cur
    ensures (cur <= m <= cur + ({x} + rest)) <==>
            (cur + {x} <= m <= cur + {x} + rest) || (cur <= m <= cur + rest)
  {
  }

  lemma FullSubset<T>(a: set<T>, b: set<T>)
    requires a <= b && |a| == |b|
    ensures a == b
  {
    assert b == a + (b - a);
    assert |b| == |a| + |b - a|;
  }

  /** Every k-element choice of items. */
  method Combinations(items: seq<nat>, k: nat) returns (out: seq<Mask>)
    requires Distinct(items)
    ensures forall m :: m in out <==> m <= Elements(items) && |m| == k && 0 < k
  {
    forall m: Mask | m <= Elements(items) ensures |m| <= |items| {
      DistinctSize(items);
      SubsetSize(m, Elements(items));
    }
    if k > |items| || k == 0 {
      return [];
    }
    out := Walk(items, k, 0, {});
    assert items[0..] == items;
    forall m ensures m in out <==> Choice(items, k, 0, {}, m) {
      WalkListsChoices(items, k, 0, {}, m);
    }
  }

  // ---- Grouping a hand ----

  /** by lists, for each key, the positions below n whose card has that key. */
  ghost predicate Grouped(cards: seq<Card>, n: nat, key: Card -> nat, groups: map<nat, seq<nat>>)
    requires n <= |cards|
  {
    && (forall r | r in groups :: Distinct(groups[r]) && forall i :: i in groups[r] <==> 0 <= i < n && key(cards[i]) == r)
    && (forall i | 0 <= i < n :: key(cards[i]) in groups)
  }

  lemma GroupOneMore(cards: seq<Card>, n: nat, key: Card -> nat, groups: map<nat, seq<nat>>)
    requires n < |cards| && Grouped(cards, n, key, groups)
    ensures var r := key(cards[n]);
            Grouped(cards, n + 1, key, groups[r := (if r in groups then groups[r] else []) + [n]])
  {
    var k := key(cards[n]);
    var more := groups[k := (if k in groups then groups[k] else []) + [n]];
    forall r | r in more
      ensures Distinct(more[r]) && forall i :: i in more[r] <==> 0 <= i < n + 1 && key(cards[i]) == r
    {
      if r == k && k in groups {
        assert n !in groups[k];
      }
    }
  }

  method GroupBy(cards: seq<Card>, key: Card -> nat) returns (groups: map<nat, seq<nat>>)
    ensures Grouped(cards, |cards|, key, groups)
  {
    groups := map[];
    for i := 0 to |cards|
      invariant Grouped(cards, i, key, groups)
    {
      GroupOneMore(cards, i, key, groups);
      var r := key(cards[i]);
      groups := groups[r := (if r in groups then groups[r] else []) + [i]];
    }
  }

  // ---- Sets ----

  ghost predicate ListsSets(idxs: seq<nat>, sizes: nat, out: seq<Mask>) {
    forall m :: m in out <==> m <= Elements(idxs) && 3 <= |m| < sizes
  }

  /** Every three and every four of one rank's cards. */
  method RankSets(idxs: seq<nat>) returns (out: seq<Mask>)
    requires Distinct(idxs)
    ensures ListsSets(idxs, 5, out)
  {
    out := [];
    for size := 3 to 5
      invariant ListsSets(idxs, size, out)
    {
      var combos := Combinations(idxs, size);
      out := out + combos;
    }
  }

  /** Three or four positions whose key has already been dealt with. */
  ghost predicate SetAmong(groups: map<nat, seq<nat>>, todo: set<nat>, m: Mask) {
    3 <= |m| <= 4 && exists r :: r in groups && r !in todo && m <= Elements(groups[r])
  }

  lemma SetAmongGrows(groups: map<nat, seq<nat>>, todo: set<nat>, r: nat, out: seq<Mask>, more: seq<Mask>)
    requires r in todo && r in groups && todo <= groups.Keys
    requires forall m :: m in out <==> SetAmong(groups, todo, m)
    requires ListsSets(groups[r], 5, more)
    ensures forall m :: m in out + more <==> SetAmong(groups, todo - {r}, m)
  {
  }

  lemma IsSetByPosition(cards: seq<Card>, m: Mask)
    requires m <= Range(|cards|)
    ensures IsSet(Picked(cards, m)) <==>
            3 <= |m| <= 4 && forall i, j | i in m && j in m :: cards[i].rank == cards[j].rank
  {
    PickedHolds(cards, m);
    var meld := Picked(cards, m);
    if IsSet(meld) {
      forall i | i in m ensures cards[i].rank == meld[0].rank {
        assert cards[i] in meld;
      }
    } else if 3 <= |meld| <= 4 {
      var k :| 1 <= k < |meld| && meld[k].rank != meld[0].rank;
      assert meld[k] in meld && meld[0] in meld;
    }
  }

  lemma SetAmongAll(cards: seq<Card>, groups: map<nat, seq<nat>>, m: Mask)
    requires Grouped(cards, |cards|, (c: Card) => c.rank, groups)
    ensures SetAmong(groups, {}, m) <==> m <= Range(|cards|) && IsSet(Picked(cards, m))
  {
    if m <= Range(|cards|) {
      IsSetByPosition(cards, m);
      if IsSet(Picked(cards, m)) {
        var i :| i in m;
        assert m <= Elements(groups[cards[i].rank]);
      }
    }
  }

  method SetMasks(cards: seq<Card>) returns (out: seq<Mask>)
    ensures forall m :: m in out <==> m <= Range(|cards|) && IsSet(Picked(cards, m))
  {
    var byRank := GroupBy(cards, (c: Card) => c.rank);
    out := [];
    var todo := byRank.Keys;
    while todo != {}
      invariant todo <= byRank.Keys
      invariant forall m :: m in out <==> SetAmong(byRank, todo, m)
    {
      var r :| r in todo;
      var sets := RankSets(byRank[r]);
      SetAmongGrows(byRank, todo, r, out, sets);
      out := out + sets;
      todo := todo - {r};
    }
    forall m ensures m in out <==> m <= Range(|cards|) && IsSet(Picked(cards, m)) {
      SetAmongAll(cards, byRank, m);
    }
  }

  // ---- Runs ----

  /** Run order of the card at a position, 0 past the end of the hand. */
  function OrderAt(cards: seq<Card>, i: nat): nat {
    if i < |cards| then RunOrder(cards[i].rank) else 0
  }

  function InsertIndex(cards: seq<Card>, s: seq<nat>, i: nat): seq<nat>
  {
    if s == [] then [i]
    else if OrderAt(cards, i) <= OrderAt(cards, s[0]) then [i] + s
    else [s[0]] + InsertIndex(cards, s[1..], i)
  }

  function SortIndexes(cards: seq<Card>, idxs: seq<nat>): (s: seq<nat>)
    ensures multiset(s) == multiset(idxs) && Elements(s) == Elements(idxs)
  {
    if idxs == [] then []
    else
      assert idxs == [idxs[0]] + idxs[1..];
      var rest := SortIndexes(cards, idxs[1..]);
      InsertIndexKeeps(cards, rest, idxs[0]);
      SameElements(InsertIndex(cards, rest, idxs[0]), idxs);
      InsertIndex(cards, rest, idxs[0])
  }

  lemma {:induction false} InsertIndexKeeps(cards: seq<Card>, s: seq<nat>, i: nat)
    ensures multiset(InsertIndex(cards, s, i)) == multiset(s) + multiset{i}
  {
    if s != [] {
      assert s == [s[0]] + s[1..];
      if OrderAt(cards, i) > OrderAt(cards, s[0]) {
        InsertIndexKeeps(cards, s[1..], i);
      }
    }
  }

  /** Positions whose cards strictly climb. */
  ghost predicate Climbing(cards: seq<Card>, s: seq<nat>) {
    forall a, b | 0 <= a < b < |s| :: OrderAt(cards, s[a]) < OrderAt(cards, s[b])
  }

  lemma {:induction false} InsertClimbs(cards: seq<Card>, s: seq<nat>, i: nat)
    requires Climbing(cards, s)
    requires forall j | j in s :: OrderAt(cards, j) != OrderAt(cards, i)
    ensures Climbing(cards, InsertIndex(cards, s, i))
  {
    if s != [] {
      assert s == [s[0]] + s[1..];
      if OrderAt(cards, i) <= OrderAt(cards, s[0]) {
        PrependClimbs(cards, i, s);
      } else {
        var rest := InsertIndex(cards, s[1..], i);
        InsertClimbs(cards, s[1..], i);
        InsertIndexKeeps(cards, s[1..], i);
        forall j | j in rest ensures OrderAt(cards, s[0]) < OrderAt(cards, j) {
          assert j in multiset(s[1..]) + multiset{i};
        }
        PrependClimbs(cards, s[0], rest);
      }
    }
  }

  lemma PrependClimbs(cards: seq<Card>, i: nat, s: seq<nat>)
    requires Climbing(cards, s)
    requires s != [] ==> OrderAt(cards, i) < OrderAt(cards, s[0])
    ensures Climbing(cards, [i] + s)
  {
    var t := [i] + s;
    forall a, b | 0 <= a < b < |t| ensures OrderAt(cards, t[a]) < OrderAt(cards, t[b]) {
      assert t[b] == s[b - 1];
      if a > 0 {
        assert t[a] == s[a - 1];
      } else if b > 1 {
        assert OrderAt(cards, s[0]) < OrderAt(cards, s[b - 1]);
      }
    }
  }

  lemma {:induction false} SortedClimbs(cards: seq<Card>, idxs: seq<nat>)
    requires Distinct(idxs)
    requires forall i, j | i in idxs && j in idxs && i != j :: OrderAt(cards, i) != OrderAt(cards, j)
    ensures Climbing(cards, SortIndexes(cards, idxs))
  {
    if idxs != [] {
      assert idxs == [idxs[0]] + idxs[1..];
      SortedClimbs(cards, idxs[1..]);
      var rest := SortIndexes(cards, idxs[1..]);
      forall j | j in rest ensures OrderAt(cards, j) != OrderAt(cards, idxs[0]) {
        assert j in Elements(idxs[1..]);
      }
      InsertClimbs(cards, rest, idxs[0]);
    }
  }

  /** Neighbours in idxs that follow on from each other. */
  predicate Follows(cards: seq<Card>, idxs: seq<nat>, a: nat)
    requires 0 < a < |idxs|
  {
    OrderAt(cards, idxs[a]) == OrderAt(cards, idxs[a - 1]) + 1
  }

  ghost predicate Unbroken(cards: seq<Card>, idxs: seq<nat>, p: nat, q: nat)
  {
    p <= q <= |idxs| && forall a | p < a < q :: Follows(cards, idxs, a)
  }

  /** A slice of at least three positions within [from, to). */
  ghost predicate SliceOf(idxs: seq<nat>, from: nat, to: nat, p: nat, q: nat, m: Mask) {
    from <= p && p + 3 <= q <= to <= |idxs| && m == Elements(idxs[p..q])
  }

  ghost predicate ListsSlices(idxs: seq<nat>, from: nat, to: nat, out: seq<Mask>) {
    forall m :: m in out <==> exists p: nat, q: nat :: SliceOf(idxs, from, to, p, q, m)
  }

  /** Unbroken slices that end by to. */
  ghost predicate ListsRuns(cards: seq<Card>, idxs: seq<nat>, to: nat, out: seq<Mask>)
  {
    forall m :: m in out <==> exists p: nat, q: nat :: SliceOf(idxs, 0, to, p, q, m) && Unbroken(cards, idxs, p, q)
  }

  method RunsFrom(idxs: seq<nat>, i: nat, end: nat) returns (out: seq<Mask>)
    requires i <= end <= |idxs|
    ensures forall m :: m in out <==> exists q: nat :: SliceOf(idxs, i, end, i, q, m)
  {
    out := [];
    var j := i + 3;
    while j <= end
      invariant i + 3 <= j
      invariant j <= end + 1 || out == []
      invariant forall m :: m in out <==> exists q: nat :: SliceOf(idxs, i, end, i, q, m) && q < j
    {
      assert SliceOf(idxs, i, end, i, j, Elements(idxs[i..j]));
      out := out + [Elements(idxs[i..j])];
      j := j + 1;
    }
  }

  /** Every stretch of at least three of one block. */
  method SubRunMasks(idxs: seq<nat>, start: nat, end: nat) returns (out: seq<Mask>)
    requires start <= end <= |idxs|
    ensures ListsSlices(idxs, start, end, out)
  {
    out := [];
    for i := start to end
      invariant forall m :: m in out <==> exists p: nat, q: nat :: SliceOf(idxs, start, end, p, q, m) && p < i
    {
      var more := RunsFrom(idxs, i, end);
      SlicesGrow(idxs, start, end, i, out, more);
      out := out + more;
    }
  }

  lemma SlicesGrow(idxs: seq<nat>, start: nat, end: nat, i: nat, out: seq<Mask>, more: seq<Mask>)
    requires start <= i < end <= |idxs|
    requires forall m :: m in out <==> exists p: nat, q: nat :: SliceOf(idxs, start, end, p, q, m) && p < i
    requires forall m :: m in more <==> exists q: nat :: SliceOf(idxs, i, end, i, q, m)
    ensures forall m :: m in out + more <==> exists p: nat, q: nat :: SliceOf(idxs, start, end, p, q, m) && p < i + 1
  {
    forall m ensures m in out + more <==> exists p: nat, q: nat :: SliceOf(idxs, start, end, p, q, m) && p < i + 1 {
      if m in out {
        var p: nat, q: nat :| SliceOf(idxs, start, end, p, q, m) && p < i;
      } else if m in more {
        var q: nat :| SliceOf(idxs, i, end, i, q, m);
        assert SliceOf(idxs, start, end, i, q, m);
      } else if exists p: nat, q: nat :: SliceOf(idxs, start, end, p, q, m) && p < i + 1 {
        var p: nat, q: nat :| SliceOf(idxs, start, end, p, q, m) && p < i + 1;
        assert SliceOf(idxs, i, end, i, q, m);
      }
    }
  }

  /** Cuts one suit's sorted positions into unbroken blocks and lists the runs of each. */
  method RunMasksInSuit(cards: seq<Card>, idxs: seq<nat>) returns (out: seq<Mask>)
    ensures ListsRuns(cards, idxs, |idxs|, out)
  {
    out := [];
    var start := 0;
    while start < |idxs|
      invariant start <= |idxs|
      invariant 0 < start < |idxs| ==> !Follows(cards, idxs, start)
      invariant ListsRuns(cards, idxs, start, out)
    {
      var end := start + 1;
      while end < |idxs| && Follows(cards, idxs, end)
        invariant start < end <= |idxs| && Unbroken(cards, idxs, start, end)
      {
        end := end + 1;
      }
      var more := SubRunMasks(idxs, start, end);
      RunsGrow(cards, idxs, start, end, out, more);
      out := out + more;
      start := end;
    }
  }

  lemma StaysInBlock(cards: seq<Card>, idxs: seq<nat>, start: nat, p: nat, q: nat)
    requires Unbroken(cards, idxs, p, q) && p < start
    requires start < |idxs| ==> !Follows(cards, idxs, start)
    ensures q <= start
  {
  }

  /** No run crosses from one block into the next. */
  lemma RunsGrow(cards: seq<Card>, idxs: seq<nat>, start: nat, end: nat, out: seq<Mask>, more: seq<Mask>)
    requires start < end <= |idxs| && Unbroken(cards, idxs, start, end)
    requires start > 0 ==> !Follows(cards, idxs, start)
    requires ListsRuns(cards, idxs, start, out) && ListsSlices(idxs, start, end, more)
    ensures ListsRuns(cards, idxs, end, out + more)
  {
    forall m ensures m in out + more <==>
                     exists p: nat, q: nat :: SliceOf(idxs, 0, end, p, q, m) && Unbroken(cards, idxs, p, q)
    {
      if m in out {
        var p: nat, q: nat :| SliceOf(idxs, 0, start, p, q, m) && Unbroken(cards, idxs, p, q);
        assert SliceOf(idxs, 0, end, p, q, m);
      } else if m in more {
        var p: nat, q: nat :| SliceOf(idxs, start, end, p, q, m);
        assert SliceOf(idxs, 0, end, p, q, m) && Unbroken(cards, idxs, p, q);
      } else if exists p: nat, q: nat :: SliceOf(idxs, 0, end, p, q, m) && Unbroken(cards, idxs, p, q) {
        var p: nat, q: nat :| SliceOf(idxs, 0, end, p, q, m) && Unbroken(cards, idxs, p, q);
        if p >= start {
          assert SliceOf(idxs, start, end, p, q, m);
        } else {
          StaysInBlock(cards, idxs, start, p, q);
          assert SliceOf(idxs, 0, start, p, q, m);
        }
      }
    }
  }

  // ---- Runs of one suit, as cards ----

  /** idxs are exactly the positions of one suit, climbing. */
  ghost predicate SuitSorted(cards: seq<Card>, suit: nat, idxs: seq<nat>) {
    && Climbing(cards, idxs)
    && forall i :: i in idxs <==> 0 <= i < |cards| && cards[i].suit == suit
  }

  ghost predicate RunMask(cards: seq<Card>, suit: nat, m: Mask) {
    m <= Range(|cards|) && IsRun(Picked(cards, m)) && RunSuit(Picked(cards, m)) == suit
  }

  lemma CardAt(cards: seq<Card>, suit: nat, idxs: seq<nat>, a: nat)
    requires AllStandard(cards) && SuitSorted(cards, suit, idxs) && a < |idxs|
    ensures idxs[a] < |cards| && cards[idxs[a]] == Card(OrderAt(cards, idxs[a]), suit)
  {
    assert idxs[a] in idxs;
    assert Standard(cards[idxs[a]]);
  }

  lemma {:induction false} UnbrokenClimbs(cards: seq<Card>, idxs: seq<nat>, p: nat, q: nat, a: nat)
    requires Unbroken(cards, idxs, p, q) && p <= a < q
    ensures OrderAt(cards, idxs[a]) == OrderAt(cards, idxs[p]) + (a - p)
  {
    if a > p {
      UnbrokenClimbs(cards, idxs, p, q, a - 1);
      assert Follows(cards, idxs, a);
    }
  }

  lemma SliceHolds(cards: seq<Card>, suit: nat, idxs: seq<nat>, p: nat, q: nat, m: Mask, c: Card)
    requires AllStandard(cards) && SuitSorted(cards, suit, idxs) && SliceOf(idxs, 0, |idxs|, p, q, m)
    ensures m <= Range(|cards|)
    ensures c in Picked(cards, m) <==>
            exists a: nat :: p <= a < q && c == Card(OrderAt(cards, idxs[a]), suit)
  {
    forall a: nat | p <= a < q
      ensures idxs[a] in m && idxs[a] < |cards| && cards[idxs[a]] == Card(OrderAt(cards, idxs[a]), suit)
    {
      CardAt(cards, suit, idxs, a);
      assert idxs[p..q][a - p] == idxs[a];
    }
    forall i | i in m ensures i < |cards| && exists a: nat :: p <= a < q && idxs[a] == i {
      var a: nat :| a < q - p && idxs[p..q][a] == i;
      assert idxs[p + a] == i;
      CardAt(cards, suit, idxs, p + a);
    }
    PickedHolds(cards, m);
    if c in Picked(cards, m) {
      var i :| i in m && cards[i] == c;
    }
  }

  /** The cards of an unbroken slice are the cells from its first card to its last. */
  lemma SliceCells(cards: seq<Card>, suit: nat, idxs: seq<nat>, p: nat, q: nat, m: Mask)
    requires AllStandard(cards) && SuitSorted(cards, suit, idxs)
    requires SliceOf(idxs, 0, |idxs|, p, q, m) && Unbroken(cards, idxs, p, q)
    ensures m <= Range(|cards|)
    ensures var lo := OrderAt(cards, idxs[p]);
            Elements(Picked(cards, m)) == Cells(suit, lo, lo + (q - 1 - p)) && 1 <= lo && lo + (q - 1 - p) <= KING
  {
    var lo := OrderAt(cards, idxs[p]);
    forall a: nat | p <= a < q ensures OrderAt(cards, idxs[a]) == lo + (a - p) {
      UnbrokenClimbs(cards, idxs, p, q, a);
    }
    CardAt(cards, suit, idxs, p);
    CardAt(cards, suit, idxs, q - 1);
    assert Standard(cards[idxs[p]]) && Standard(cards[idxs[q - 1]]);
    forall c ensures c in Picked(cards, m) <==> c in Cells(suit, lo, lo + (q - 1 - p)) {
      SliceHolds(cards, suit, idxs, p, q, m, c);
      InCells(suit, lo, lo + (q - 1 - p), c);
      if c in Cells(suit, lo, lo + (q - 1 - p)) {
        var a: nat := p + (c.rank - lo);
        assert c == Card(OrderAt(cards, idxs[a]), suit);
      }
    }
    SliceHolds(cards, suit, idxs, p, q, m, NO_CARD);
  }

  lemma SliceIsRun(cards: seq<Card>, suit: nat, idxs: seq<nat>, p: nat, q: nat, m: Mask)
    requires AllStandard(cards) && Distinct(cards) && SuitSorted(cards, suit, idxs)
    requires SliceOf(idxs, 0, |idxs|, p, q, m) && Unbroken(cards, idxs, p, q)
    ensures RunMask(cards, suit, m)
  {
    SliceCells(cards, suit, idxs, p, q, m);
    PickedHolds(cards, m);
    var lo := OrderAt(cards, idxs[p]);
    CellsAreRun(Picked(cards, m), suit, lo, lo + (q - 1 - p));
  }

  lemma {:induction false} ClimbsBy(cards: seq<Card>, idxs: seq<nat>, a: nat, b: nat)
    requires Climbing(cards, idxs) && a <= b < |idxs|
    ensures OrderAt(cards, idxs[b]) >= OrderAt(cards, idxs[a]) + (b - a)
  {
    if a < b {
      ClimbsBy(cards, idxs, a, b - 1);
    }
  }

  /** Climbing positions leave no room: the next cell's card sits right behind. */
  lemma NextCell(cards: seq<Card>, idxs: seq<nat>, a: nat, b: nat)
    requires Climbing(cards, idxs) && a < |idxs| && b < |idxs|
    requires OrderAt(cards, idxs[b]) == OrderAt(cards, idxs[a]) + 1
    ensures b == a + 1
  {
    if a <= b {
      ClimbsBy(cards, idxs, a, b);
    }
  }

  lemma HoldsCell(cards: seq<Card>, suit: nat, idxs: seq<nat>, m: Mask, r: nat)
    requires AllStandard(cards) && SuitSorted(cards, suit, idxs) && RunMask(cards, suit, m)
    requires RunLo(Picked(cards, m)) <= r <= RunHi(Picked(cards, m))
    ensures exists a: nat :: a < |idxs| && idxs[a] in m && OrderAt(cards, idxs[a]) == r
  {
    var meld := Picked(cards, m);
    PickedHolds(cards, m);
    RunIsCells(meld);
    InCells(suit, RunLo(meld), RunHi(meld), Card(r, suit));
    assert Card(r, suit) in Elements(meld);
    var i :| i in m && cards[i] == Card(r, suit);
    var a: nat :| a < |idxs| && idxs[a] == i;
  }

  /** The k-th card of the run m sits k positions after its first, at p. */
  ghost predicate Rung(cards: seq<Card>, idxs: seq<nat>, m: Mask, p: nat, lo: nat, k: nat) {
    p + k < |idxs| && idxs[p + k] in m && OrderAt(cards, idxs[p + k]) == lo + k
  }

  lemma {:induction false} CellsInARow(cards: seq<Card>, suit: nat, idxs: seq<nat>, m: Mask, p: nat, k: nat)
    requires AllStandard(cards) && SuitSorted(cards, suit, idxs) && RunMask(cards, suit, m)
    requires Rung(cards, idxs, m, p, RunLo(Picked(cards, m)), 0)
    requires k < |Picked(cards, m)|
    ensures Rung(cards, idxs, m, p, RunLo(Picked(cards, m)), k)
  {
    if k > 0 {
      CellsInARow(cards, suit, idxs, m, p, k - 1);
      HoldsCell(cards, suit, idxs, m, RunLo(Picked(cards, m)) + k);
      var b: nat :| b < |idxs| && idxs[b] in m && OrderAt(cards, idxs[b]) == RunLo(Picked(cards, m)) + k;
      NextCell(cards, idxs, p + k - 1, b);
    }
  }

  /** Rung after rung is an unbroken slice, and it is the whole mask. */
  lemma RungsAreSlice(cards: seq<Card>, suit: nat, idxs: seq<nat>, m: Mask, p: nat, lo: nat, n: nat)
    requires AllStandard(cards) && Distinct(cards) && SuitSorted(cards, suit, idxs) && n >= 3
    requires forall k: nat | k < n :: Rung(cards, idxs, m, p, lo, k)
    requires forall i | i in m :: i < |cards| && cards[i].suit == suit && lo <= cards[i].rank < lo + n
    ensures SliceOf(idxs, 0, |idxs|, p, p + n, m) && Unbroken(cards, idxs, p, p + n)
  {
    assert Rung(cards, idxs, m, p, lo, n - 1);
    forall a: nat | p < a < p + n ensures Follows(cards, idxs, a) {
      assert Rung(cards, idxs, m, p, lo, a - p) && Rung(cards, idxs, m, p, lo, a - 1 - p);
    }
    forall x | x in idxs[p..p + n] ensures x in m {
      var k: nat :| k < n && idxs[p..p + n][k] == x;
      assert Rung(cards, idxs, m, p, lo, k);
    }
    forall i | i in m ensures i in idxs[p..p + n] {
      var k := cards[i].rank - lo;
      assert Rung(cards, idxs, m, p, lo, k);
      CardAt(cards, suit, idxs, p + k);
      assert cards[i] == Card(cards[i].rank, suit);
      assert idxs[p..p + n][k] == idxs[p + k];
    }
  }

  lemma RunIsSlice(cards: seq<Card>, suit: nat, idxs: seq<nat>, m: Mask)
    requires AllStandard(cards) && Distinct(cards) && SuitSorted(cards, suit, idxs) && RunMask(cards, suit, m)
    ensures exists p: nat, q: nat :: SliceOf(idxs, 0, |idxs|, p, q, m) && Unbroken(cards, idxs, p, q)
  {
    var meld := Picked(cards, m);
    var lo, n := RunLo(meld), |meld|;
    PickedHolds(cards, m);
    RunIsCells(meld);
    HoldsCell(cards, suit, idxs, m, lo);
    var p: nat :| p < |idxs| && idxs[p] in m && OrderAt(cards, idxs[p]) == lo;
    assert Rung(cards, idxs, m, p, lo, 0);
    forall k: nat | k < n ensures Rung(cards, idxs, m, p, lo, k) {
      CellsInARow(cards, suit, idxs, m, p, k);
    }
    forall i | i in m ensures i < |cards| && cards[i].suit == suit && lo <= cards[i].rank < lo + n {
      assert cards[i] in meld;
      InCells(suit, lo, RunHi(meld), cards[i]);
      assert cards[i] in Elements(meld);
    }
    RungsAreSlice(cards, suit, idxs, m, p, lo, n);
  }

  lemma SuitRuns(cards: seq<Card>, suit: nat, idxs: seq<nat>, out: seq<Mask>)
    requires AllStandard(cards) && Distinct(cards) && SuitSorted(cards, suit, idxs)
    requires ListsRuns(cards, idxs, |idxs|, out)
    ensures forall m :: m in out <==> RunMask(cards, suit, m)
  {
    forall m ensures m in out <==> RunMask(cards, suit, m) {
      if m in out {
        var p: nat, q: nat :| SliceOf(idxs, 0, |idxs|, p, q, m) && Unbroken(cards, idxs, p, q);
        SliceIsRun(cards, suit, idxs, p, q, m);
      } else if RunMask(cards, suit, m) {
        RunIsSlice(cards, suit, idxs, m);
      }
    }
  }

  lemma SortedBySuit(cards: seq<Card>, suit: nat, group: seq<nat>)
    requires AllStandard(cards) && Distinct(cards) && Distinct(group)
    requires forall i :: i in group <==> 0 <= i < |cards| && cards[i].suit == suit
    ensures SuitSorted(cards, suit, SortIndexes(cards, group))
  {
    forall i, j | i in group && j in group && i != j ensures OrderAt(cards, i) != OrderAt(cards, j) {
      assert cards[i] != cards[j] && Standard(cards[i]) && Standard(cards[j]);
    }
    SortedClimbs(cards, group);
    var s := SortIndexes(cards, group);
    forall i ensures i in s <==> i in group {
      assert i in s <==> i in Elements(s);
      assert i in group <==> i in Elements(group);
    }
  }

  ghost predicate RunAmong(cards: seq<Card>, groups: map<nat, seq<nat>>, todo: set<nat>, m: Mask) {
    exists suit :: suit in groups && suit !in todo && RunMask(cards, suit, m)
  }

  method RunMasks(cards: seq<Card>) returns (out: seq<Mask>)
    requires AllStandard(cards) && Distinct(cards)
    ensures forall m :: m in out <==> m <= Range(|cards|) && IsRun(Picked(cards, m))
  {
    var bySuit := GroupBy(cards, (c: Card) => c.suit);
    out := [];
    var todo := bySuit.Keys;
    while todo != {}
      invariant todo <= bySuit.Keys
      invariant forall m :: m in out <==> RunAmong(cards, bySuit, todo, m)
    {
      var suit :| suit in todo;
      SortedBySuit(cards, suit, bySuit[suit]);
      var idxs := SortIndexes(cards, bySuit[suit]);
      var runs := RunMasksInSuit(cards, idxs);
      SuitRuns(cards, suit, idxs, runs);
      RunAmongGrows(cards, bySuit, todo, suit, out, runs);
      out := out + runs;
      todo := todo - {suit};
    }
    forall m ensures m in out <==> m <= Range(|cards|) && IsRun(Picked(cards, m)) {
      RunAmongAll(cards, bySuit, m);
    }
  }

  lemma RunAmongGrows(cards: seq<Card>, groups: map<nat, seq<nat>>, todo: set<nat>, suit: nat, out: seq<Mask>,
                      more: seq<Mask>)
    requires suit in todo && suit in groups
    requires forall m :: m in out <==> RunAmong(cards, groups, todo, m)
    requires forall m :: m in more <==> RunMask(cards, suit, m)
    ensures forall m :: m in out + more <==> RunAmong(cards, groups, todo - {suit}, m)
  {
  }

  lemma RunAmongAll(cards: seq<Card>, groups: map<nat, seq<nat>>, m: Mask)
    requires AllStandard(cards) && Grouped(cards, |cards|, (c: Card) => c.suit, groups)
    ensures RunAmong(cards, groups, {}, m) <==> m <= Range(|cards|) && IsRun(Picked(cards, m))
  {
    if m <= Range(|cards|) && IsRun(Picked(cards, m)) {
      var meld := Picked(cards, m);
      PickedHolds(cards, m);
      RunClimbs(meld, 0);
      SortRises(meld);
      assert SortByRun(meld)[0] in meld;
      var i :| i in m && cards[i] == SortByRun(meld)[0];
      assert RunMask(cards, cards[i].suit, m);
    }
  }

  // ---- All candidates ----

  function PowerOfTwo(i: nat): nat {
    if i == 0 then 1 else 2 * PowerOfTwo(i - 1)
  }

  /** A mask read as the integer it is in the source, by its lowest n bits. */
  function MaskValue(m: Mask, n: nat): nat {
    if n == 0 then 0 else MaskValue(m, n - 1) + if n - 1 in m then PowerOfTwo(n - 1) else 0
  }

  function InsertMask(s: seq<Mask>, m: Mask, n: nat): (r: seq<Mask>)
    ensures multiset(r) == multiset(s) + multiset{m}
  {
    if s == [] then [m]
    else if MaskValue(m, n) <= MaskValue(s[0], n) then [m] + s
    else
      assert s == [s[0]] + s[1..];
      [s[0]] + InsertMask(s[1..], m, n)
  }

  function SortMasks(s: seq<Mask>, n: nat): (r: seq<Mask>)
    ensures multiset(r) == multiset(s)
  {
    if s == [] then []
    else
      assert s == [s[0]] + s[1..];
      InsertMask(SortMasks(s[1..], n), s[0], n)
  }

  /** Exactly the melds of the hand, in mask order. */
  method GenerateMeldMasks(cards: seq<Card>) returns (masks: seq<Mask>)
    requires AllStandard(cards) && Distinct(cards)
    ensures forall m :: m in masks <==> MeldMask(cards, m)
  {
    var sets := SetMasks(cards);
    var runs := RunMasks(cards);
    masks := SortMasks(sets + runs, |cards|);
    SameElements(masks, sets + runs);
  }
}
