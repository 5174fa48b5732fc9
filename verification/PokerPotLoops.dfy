/** The loops that cut and measure a pot, walking the contribution map in whatever order it comes. */
module PokerPotLoops {
  import opened Cards
  import opened Sums
  import opened PokerMoney

  ghost function Seen(m: map<Id, nat>, todo: set<Id>): map<Id, nat> {
    m - todo
  }

  lemma SeenGrows(m: map<Id, nat>, todo: set<Id>, k: Id)
    requires k in m && k in todo
    ensures Seen(m, todo - {k}) == Seen(m, todo)[k := m[k]] && k !in Seen(m, todo)
  {
  }

  /** The two largest of the contributions seen so far. */
  ghost predicate TopTwo(m: map<Id, nat>, id: Id, top: nat, second: nat) {
    if top == 0 then second == 0 && forall k | k in m :: m[k] == 0
    else id in m && m[id] == top && IsTop(m, top) && IsTop(m - {id}, second)
  }

  lemma TopGrows(m: map<Id, nat>, x: nat, k: Id, v: nat)
    requires IsTop(m, x) && k !in m
    ensures IsTop(m[k := v], Max(x, v))
  {
    var n := m[k := v];
    assert n[k] == v;
    if v < x {
      var j :| j in m && m[j] == x;
      assert n[j] == x;
    }
  }

  lemma TopTwoGrows(m: map<Id, nat>, id: Id, top: nat, second: nat, k: Id, v: nat)
    requires TopTwo(m, id, top, second) && k !in m
    ensures var n := m[k := v];
            if v > top then TopTwo(n, k, v, top)
            else if v > second then TopTwo(n, id, top, v)
            else TopTwo(n, id, top, second)
  {
    var n := m[k := v];
    if v > top {
      TopGrows(m, top, k, v);
      assert n - {k} == m;
    } else if top > 0 {
      TopGrows(m, top, k, v);
      TopGrows(m - {id}, second, k, v);
      assert n - {id} == (m - {id})[k := v];
    }
  }

  /** Walks the contributions for the largest and the second largest. */
  method LargestTwo(contributed: map<Id, nat>) returns (topID: Id, top: nat, second: nat)
    ensures TopTwo(contributed, topID, top, second)
  {
    topID, top, second := 0, 0, 0;
    var todo := contributed.Keys;
    while todo != {}
      invariant todo <= contributed.Keys
      invariant TopTwo(Seen(contributed, todo), topID, top, second)
    {
      var id :| id in todo;
      SeenGrows(contributed, todo, id);
      TopTwoGrows(Seen(contributed, todo), topID, top, second, id, contributed[id]);
      if contributed[id] > top {
        topID, top, second := id, contributed[id], top;
      } else if contributed[id] > second {
        second := contributed[id];
      }
      todo := todo - {id};
    }
    assert Seen(contributed, {}) == contributed;
  }

  lemma SecondOfTopTwo(m: map<Id, nat>, topID: Id, top: nat, second: nat)
    requires TopTwo(m, topID, top, second)
    ensures Second(m) == second <= top == Top(m)
  {
    TopIsUnique(m, top);
    if top > 0 {
      SecondIs(m, topID);
      TopIsUnique(m - {topID}, second);
    } else if m != map[] {
      var a :| a in m && m[a] == Top(m) && Second(m) == Top(m - {a});
      TopIsUnique(m - {a}, 0);
    }
  }

  /** What the refund writes, in terms of the two largest contributions. */
  lemma RefundIs(l: Ledger, topID: Id, top: nat, second: nat)
    requires l.Unpaid() && TopTwo(l.contributed, topID, top, second)
    ensures second <= top
    ensures top == second ==> RefundUncalled(l) == l
    ensures top > second ==>
              && topID in l.contributed && topID in l.chips && top - second <= l.pool
              && RefundUncalled(l) == Ledger(l.chips[topID := l.chips[topID] + (top - second)],
                                             l.contributed[topID := second], l.pool - (top - second))
  {
    SecondOfTopTwo(l.contributed, topID, top, second);
    if top == second {
      NothingOver(l);
    } else {
      OnlyTopOver(l, topID, top, second);
    }
  }

  lemma OnlyTopOver(l: Ledger, topID: Id, top: nat, second: nat)
    requires l.Unpaid() && topID in l.contributed && l.contributed[topID] == top > second == Second(l.contributed)
    requires IsTop(l.contributed - {topID}, second)
    ensures top - second <= l.pool
    ensures RefundUncalled(l) == Ledger(l.chips[topID := At(l.chips, topID) + (top - second)],
                                        l.contributed[topID := second], l.pool - (top - second))
  {
    var m := l.contributed;
    assert forall k | k in m && k != topID :: k in m - {topID} && m[k] <= second;
    assert Plus(l.chips, Over(m, second)) == l.chips[topID := At(l.chips, topID) + (top - second)];
    assert Cap(m, second) == m[topID := second];
    TotalUpdate(m, topID, second);
    TotalAtLeast(m, topID);
  }

  lemma NothingOver(l: Ledger)
    requires l.Unpaid() && forall k | k in l.contributed :: l.contributed[k] <= Second(l.contributed)
    ensures RefundUncalled(l) == l
  {
    var m := l.contributed;
    assert Cap(m, Second(m)) == m;
    assert Plus(l.chips, Over(m, Second(m))) == l.chips;
  }

  /** What the layer loop has collected from the contributions seen so far. */
  ghost predicate Collected(seen: map<Id, nat>, live: set<Id>, prev: nat, level: nat, amount: nat, eligible: set<Id>) {
    Capped(seen, prev) + amount == Capped(seen, level) && eligible == EligibleAt(seen, live, level)
  }

  lemma CollectedGrows(seen: map<Id, nat>, live: set<Id>, prev: nat, level: nat, amount: nat, eligible: set<Id>, k: Id,
                       v: nat)
    requires Collected(seen, live, prev, level, amount, eligible) && k !in seen
    requires prev < level && (v <= prev || v >= level)
    ensures Collected(seen[k := v], live, prev, level, if v >= level then amount + (level - prev) else amount,
                      if v >= level && k in live then eligible + {k} else eligible)
  {
    CappedUpdate(seen, k, v, prev);
    CappedUpdate(seen, k, v, level);
  }

  /** One layer: what reaches level, and who of the live players reaches it. */
  method CollectLayer(contributed: map<Id, nat>, live: set<Id>, prev: nat, level: nat)
    returns (amount: nat, eligible: set<Id>)
    requires prev < level
    requires forall k | k in contributed :: contributed[k] <= prev || contributed[k] >= level
    ensures amount == Slice(contributed, prev, level)
    ensures eligible == EligibleAt(contributed, live, level)
  {
    amount, eligible := 0, {};
    var todo := contributed.Keys;
    assert Seen(contributed, todo) == map[];
    TotalZero(Cap(map[], prev));
    TotalZero(Cap(map[], level));
    CappedMonotone(contributed, prev, level);
    while todo != {}
      invariant todo <= contributed.Keys
      invariant Collected(Seen(contributed, todo), live, prev, level, amount, eligible)
    {
      var id :| id in todo;
      SeenGrows(contributed, todo, id);
      CollectedGrows(Seen(contributed, todo), live, prev, level, amount, eligible, id, contributed[id]);
      if contributed[id] >= level {
        amount := amount + (level - prev);
        if id in live {
          eligible := eligible + {id};
        }
      }
      todo := todo - {id};
    }
    assert Seen(contributed, {}) == contributed;
  }

  lemma NothingBetween(m: map<Id, nat>, i: nat)
    requires i < |Levels(m)| && Ascending(Levels(m))
    ensures Below(Levels(m), i) < Levels(m)[i]
    ensures forall k | k in m :: m[k] <= Below(Levels(m), i) || m[k] >= Levels(m)[i]
  {
    var levels := Levels(m);
    assert levels[i] in levels;
    forall k | k in m ensures m[k] <= Below(levels, i) || m[k] >= levels[i] {
      if m[k] > 0 {
        var j :| 0 <= j < |levels| && levels[j] == m[k];
      }
    }
  }

  /** Whether anybody live reaches level i: exactly up to the largest live contribution. */
  lemma ReachedByLive(m: map<Id, nat>, live: set<Id>, i: nat)
    requires LiveMoney(m, live) && i < |Levels(m)| && Ascending(Levels(m))
    ensures EligibleAt(m, live, Levels(m)[i]) != {} <==> i < LiveLevels(m, live)
  {
    LiveTopIsALevel(m, live);
    var levels, n := Levels(m), LiveLevels(m, live);
    var top :| top in live && top in m && m[top] == LiveTop(m, live);
    if i < n {
      assert top in EligibleAt(m, live, levels[i]);
    } else {
      assert levels[n - 1] < levels[i];
    }
  }

  lemma TopLevelCoversAll(m: map<Id, nat>)
    requires Levels(m) != [] && Ascending(Levels(m))
    ensures Capped(m, Levels(m)[|Levels(m)| - 1]) == Total(m)
  {
    var levels := Levels(m);
    forall k | k in m ensures m[k] <= levels[|levels| - 1] {
      if m[k] > 0 {
        var j :| 0 <= j < |levels| && levels[j] == m[k];
      }
    }
    CappedFull(m, levels[|levels| - 1]);
  }

  ghost predicate NoneBetween(m: map<Id, nat>, levels: seq<nat>, i: nat)
    requires i < |levels|
  {
    Below(levels, i) < levels[i] && forall k | k in m :: m[k] <= Below(levels, i) || m[k] >= levels[i]
  }

  /** What the cutting loop relies on: ascending levels, no contribution between two of them, n within live reach. */
  ghost predicate Cuttable(m: map<Id, nat>, live: set<Id>, levels: seq<nat>, n: nat) {
    && Ascending(levels) && 0 < n <= |levels|
    && (forall i | 0 <= i < |levels| :: EligibleAt(m, live, levels[i]) != {} <==> i < n)
    && (forall i | 0 <= i < |levels| :: NoneBetween(m, levels, i))
    && Capped(m, levels[|levels| - 1]) == Total(m)
  }

  lemma LevelsAreCuttable(m: map<Id, nat>, live: set<Id>)
    requires LiveMoney(m, live)
    ensures Cuttable(m, live, Levels(m), LiveLevels(m, live))
  {
    LevelsAscend(m);
    var levels := Levels(m);
    forall i | 0 <= i < |levels|
      ensures EligibleAt(m, live, levels[i]) != {} <==> i < LiveLevels(m, live)
      ensures NoneBetween(m, levels, i)
    {
      ReachedByLive(m, live, i);
      NothingBetween(m, i);
    }
    TopLevelCoversAll(m);
  }

  /** Where the cutting stands after i levels. */
  ghost predicate CutSoFar(m: map<Id, nat>, live: set<Id>, levels: seq<nat>, n: nat, i: nat, pots: seq<Pot>, orphan: nat)
    requires 0 < n <= |levels| && i <= |levels| && Ascending(levels)
  {
    if i <= n then pots == Layers(m, live, levels, i) && orphan == 0
    else pots == Layers(m, live, levels, n) && Capped(m, levels[n - 1]) + orphan == Capped(m, levels[i - 1])
  }

  lemma CutOneMore(m: map<Id, nat>, live: set<Id>, levels: seq<nat>, n: nat, i: nat, pots: seq<Pot>, orphan: nat)
    requires 0 < n <= |levels| && i < |levels| && Ascending(levels) && Below(levels, i) < levels[i]
    requires CutSoFar(m, live, levels, n, i, pots, orphan)
    ensures var amount := Slice(m, Below(levels, i), levels[i]) + orphan;
            if i < n then CutSoFar(m, live, levels, n, i + 1,
                                   pots + [Pot(amount, EligibleAt(m, live, levels[i]))], 0)
            else CutSoFar(m, live, levels, n, i + 1, pots, amount)
  {
    CappedMonotone(m, Below(levels, i), levels[i]);
    if i < n {
      assert Layers(m, live, levels, i + 1) == Layers(m, live, levels, i) + [Layer(m, live, levels, i)];
    } else {
      assert Below(levels, i) == levels[i - 1];
    }
  }

  lemma CutEnds(m: map<Id, nat>, live: set<Id>, levels: seq<nat>, n: nat, pots: seq<Pot>, orphan: nat)
    requires 0 < n <= |levels| && Ascending(levels) && Capped(m, levels[|levels| - 1]) == Total(m)
    requires CutSoFar(m, live, levels, n, |levels|, pots, orphan)
    ensures pots == Layers(m, live, levels, n - 1) + [Layer(m, live, levels, n - 1)]
    ensures orphan == Tail(m, levels[n - 1])
  {
  }

  lemma LastOfAppend(before: seq<Pot>, last: Pot)
    ensures (before + [last])[..|before|] == before && (before + [last])[|before|] == last
  {
  }

  /** One level: a pot if anybody live reaches it, else dead money carried on. */
  method CutLayer(contributed: map<Id, nat>, live: set<Id>, levels: seq<nat>, ghost n: nat, i: nat, prev: nat,
                  pots: seq<Pot>, orphan: nat)
    returns (more: seq<Pot>, left: nat)
    requires Cuttable(contributed, live, levels, n) && i < |levels| && prev == Below(levels, i)
    requires CutSoFar(contributed, live, levels, n, i, pots, orphan)
    ensures CutSoFar(contributed, live, levels, n, i + 1, more, left)
  {
    assert NoneBetween(contributed, levels, i);
    CutOneMore(contributed, live, levels, n, i, pots, orphan);
    var amount, eligible := CollectLayer(contributed, live, prev, levels[i]);
    amount := amount + orphan;
    if eligible == {} {
      return pots, amount;
    }
    return pots + [Pot(amount, eligible)], 0;
  }

  /** Cuts the pot level by level; money no live player can win rides with the last live layer. */
  method CutLevels(contributed: map<Id, nat>, live: set<Id>, levels: seq<nat>, ghost n: nat) returns (pots: seq<Pot>)
    requires Cuttable(contributed, live, levels, n)
    ensures pots == CutPots(contributed, live, levels, n)
  {
    pots := [];
    var orphan, prev := 0, 0;
    for i := 0 to |levels|
      invariant prev == Below(levels, i)
      invariant CutSoFar(contributed, live, levels, n, i, pots, orphan)
    {
      pots, orphan := CutLayer(contributed, live, levels, n, i, prev, pots, orphan);
      prev := levels[i];
    }
    CutEnds(contributed, live, levels, n, pots, orphan);
    pots := AddOrphan(pots, orphan, contributed, live, levels, n);
  }

  /** Dead money above every live contribution rides with the last pot. */
  method AddOrphan(cut: seq<Pot>, orphan: nat, ghost m: map<Id, nat>, ghost live: set<Id>, ghost levels: seq<nat>,
                   ghost n: nat)
    returns (pots: seq<Pot>)
    requires 0 < n <= |levels| && orphan == Tail(m, levels[n - 1])
    requires cut == Layers(m, live, levels, n - 1) + [Layer(m, live, levels, n - 1)]
    ensures pots == CutPots(m, live, levels, n)
  {
    LastOfAppend(Layers(m, live, levels, n - 1), Layer(m, live, levels, n - 1));
    pots := cut;
    if orphan > 0 {
      var last := pots[|pots| - 1];
      pots := pots[..|pots| - 1] + [Pot(last.amount + orphan, last.eligible)];
    }
  }

  method BuildSidePots(contributed: map<Id, nat>, live: set<Id>) returns (pots: seq<Pot>)
    requires LiveMoney(contributed, live)
    ensures pots == SidePots(contributed, live)
  {
    LevelsAreCuttable(contributed, live);
    pots := CutLevels(contributed, live, Levels(contributed), LiveLevels(contributed, live));
  }
}
