/** What a showdown pays, to the chip: the pots, and what the best hands collect out of them. */
module PokerPayout {
  import opened Cards
  import opened Sums
  import opened PokerMoney

  // ---- The pots ----

  lemma {:induction false} CutPotIs(m: map<Id, nat>, live: set<Id>, levels: seq<nat>, n: nat, i: nat)
    requires i < n <= |levels| && Ascending(levels)
    ensures CutPots(m, live, levels, n)[i]
         == if i == n - 1 then LastPot(m, live, levels, n) else Layer(m, live, levels, i)
  {
    if i < n - 1 {
      LayersAt(m, live, levels, n - 1, i);
    }
  }

  lemma {:induction false} CutHolds(m: map<Id, nat>, live: set<Id>, levels: seq<nat>, n: nat, i: nat)
    requires i < n <= |levels| && Ascending(levels)
    ensures CutPots(m, live, levels, n)[i].amount + Capped(m, Below(levels, i))
         == if i == n - 1 then Total(m) else Capped(m, levels[i])
  {
    LayerHolds(m, live, levels, i);
    CutPotIs(m, live, levels, n, i);
  }

  /** Pot i holds what everybody put in between its level and the one below, and the last one everything above. */
  lemma {:induction false} PotHolds(m: map<Id, nat>, live: set<Id>, i: nat)
    requires LiveMoney(m, live) && i < |SidePots(m, live)|
    ensures i < |Levels(m)|
    ensures SidePots(m, live)[i].amount + Capped(m, Below(Levels(m), i))
         == if i == |SidePots(m, live)| - 1 then Total(m) else Capped(m, Levels(m)[i])
  {
    LevelsAscend(m);
    CutHolds(m, live, Levels(m), LiveLevels(m, live), i);
  }

  lemma {:induction false} LayerHolds(m: map<Id, nat>, live: set<Id>, levels: seq<nat>, i: nat)
    requires i < |levels| && Ascending(levels)
    ensures Layer(m, live, levels, i).amount + Capped(m, Below(levels, i)) == Capped(m, levels[i])
  {
    CappedMonotone(m, Below(levels, i), levels[i]);
  }

  // ---- Groups of players ----

  /** Everybody in the group reads better than everybody who contests the pots from outside it. */
  ghost predicate Beats(group: set<Id>, live: set<Id>, scores: map<Id, int>) {
    && group <= live
    && forall id, j | id in group && j in live && j !in group :: ScoreOf(scores, j) < ScoreOf(scores, id)
  }

  /** What everybody put in up to the group's largest contribution, and the dead tail if nobody live put in more. */
  ghost function GroupCeiling(m: map<Id, nat>, live: set<Id>, group: set<Id>): nat {
    Capped(m, LiveTop(m, group))
    + if LiveTop(m, group) == LiveTop(m, live) then Tail(m, LiveTop(m, live)) else 0
  }

  ghost function Part(paid: map<Id, nat>, group: set<Id>): map<Id, nat> {
    map id | id in group :: if id in group then At(paid, id) else 0
  }

  /** What the group takes out of one pot. */
  ghost function Take(pot: Pot, scores: map<Id, int>, group: set<Id>): nat {
    Total(Part(Shares(PotWinners(pot, scores), pot.amount), group))
  }

  /** What taking so much of each pot comes to. */
  ghost function Takings(pots: seq<Pot>, take: Pot -> nat): nat {
    if pots == [] then 0 else Takings(pots[..|pots| - 1], take) + take(pots[|pots| - 1])
  }

  /** Any pot that somebody of the group may win is taken whole, and no other. */
  ghost predicate TakesWhole(take: Pot -> nat, live: set<Id>, group: set<Id>) {
    forall pot: Pot | pot.eligible <= live :: take(pot) == if pot.eligible !! group then 0 else pot.amount
  }

  /** What each member of the group collects over all pots. */
  ghost function Payouts(pots: seq<Pot>, scores: map<Id, int>, group: set<Id>): map<Id, nat> {
    map id | id in group :: if id in group then Payout(pots, scores, id) else 0
  }

  lemma PlusIs(m: map<Id, nat>, d: map<Id, nat>)
    ensures Plus(m, d).Keys == m.Keys + d.Keys
    ensures forall k | k in Plus(m, d) :: Plus(m, d)[k] == At(m, k) + At(d, k)
  {
  }

  lemma SameMap(a: map<Id, nat>, b: map<Id, nat>)
    requires a.Keys == b.Keys && forall k | k in a :: a[k] == b[k]
    ensures a == b
  {
  }

  lemma SumIs(m: map<Id, nat>, d: map<Id, nat>, sum: map<Id, nat>)
    requires sum.Keys == m.Keys + d.Keys
    requires forall k | k in sum :: sum[k] == At(m, k) + At(d, k)
    ensures Total(sum) == Total(m) + Total(d)
  {
    PlusIs(m, d);
    SameMap(sum, Plus(m, d));
    TotalPlus(m, d);
  }

  lemma PartIsWhole(paid: map<Id, nat>, group: set<Id>)
    requires paid.Keys <= group
    ensures Total(Part(paid, group)) == Total(paid)
  {
    var nothing := Part(map[], group);
    TotalZero(nothing);
    SumIs(nothing, paid, Part(paid, group));
  }

  lemma PartIsNothing(paid: map<Id, nat>, group: set<Id>)
    requires paid.Keys !! group
    ensures Total(Part(paid, group)) == 0
  {
    TotalZero(Part(paid, group));
  }

  /** A pot somebody of the group may win goes to the group whole, and any other passes it by. */
  lemma PotGoesToGroup(pot: Pot, scores: map<Id, int>, live: set<Id>, group: set<Id>)
    requires pot.eligible <= live && Beats(group, live, scores)
    ensures Take(pot, scores, group) == if pot.eligible !! group then 0 else pot.amount
  {
    var winners := PotWinners(pot, scores);
    var paid := Shares(winners, pot.amount);
    if pot.eligible != {} {
      PotHasWinners(pot, scores);
      SharesTotal(winners, pot.amount);
      WinnersAreTheBest(pot, scores);
      if pot.eligible !! group {
        PartIsNothing(paid, group);
      } else {
        PartIsWhole(paid, group);
      }
    } else {
      assert BestOf(pot.eligible, scores) == {};
      PartIsNothing(paid, group);
    }
  }

  lemma GroupTakesWhole(scores: map<Id, int>, live: set<Id>, group: set<Id>, take: Pot -> nat)
    requires Beats(group, live, scores) && forall pot :: take(pot) == Take(pot, scores, group)
    ensures TakesWhole(take, live, group)
  {
    forall pot: Pot | pot.eligible <= live ensures take(pot) == if pot.eligible !! group then 0 else pot.amount {
      PotGoesToGroup(pot, scores, live, group);
    }
  }

  lemma WinnersAreTheBest(pot: Pot, scores: map<Id, int>)
    requires pot.eligible != {}
    ensures Shares(PotWinners(pot, scores), pot.amount).Keys == BestOf(pot.eligible, scores)
  {
    var winners := PotWinners(pot, scores);
    PotHasWinners(pot, scores);
    forall id ensures id in Shares(winners, pot.amount) <==> id in BestOf(pot.eligible, scores) {
      ShareOf(winners, pot.amount, id);
      assert id in winners <==> id in Elements(winners);
    }
  }

  /** The two ways of adding up, by player and by pot. */
  lemma {:induction false} PayoutsAreTakings(pots: seq<Pot>, scores: map<Id, int>, group: set<Id>, take: Pot -> nat)
    requires forall pot :: take(pot) == Take(pot, scores, group)
    ensures Total(Payouts(pots, scores, group)) == Takings(pots, take)
  {
    if pots == [] {
      TotalZero(Payouts(pots, scores, group));
    } else {
      var before, last := pots[..|pots| - 1], pots[|pots| - 1];
      PayoutsAreTakings(before, scores, group, take);
      SumIs(Payouts(before, scores, group), Part(Shares(PotWinners(last, scores), last.amount), group),
            Payouts(pots, scores, group));
    }
  }

  lemma TakingsAppend(pots: seq<Pot>, pot: Pot, take: Pot -> nat)
    ensures Takings(pots + [pot], take) == Takings(pots, take) + take(pot)
  {
    assert (pots + [pot])[..|pots|] == pots;
  }

  /** The group's largest contribution closes a layer, or is nothing. */
  ghost predicate Closes(levels: seq<nat>, top: nat) {
    top == 0 || top in levels
  }

  lemma GroupTopCloses(m: map<Id, nat>, group: set<Id>)
    ensures Closes(Levels(m), LiveTop(m, group))
    ensures forall id | id in group :: At(m, id) <= LiveTop(m, group)
    ensures LiveTop(m, group) > 0 ==> exists id :: id in group && id in m && m[id] == LiveTop(m, group)
  {
    if LiveMoney(m, group) {
      LiveTopIsALevel(m, group);
    } else {
      var gm := m - (m.Keys - group);
      assert forall id | id in gm :: id in group && At(m, id) == gm[id];
    }
  }

  lemma NoneBetween(levels: seq<nat>, i: nat, top: nat)
    requires Ascending(levels) && i < |levels| && Closes(levels, top) && top < levels[i]
    ensures top <= Below(levels, i)
  {
    if top > 0 {
      var k: nat :| k < |levels| && levels[k] == top;
      assert k < i;
    }
  }

  /** A layer up to the group's largest contribution is contested by the group, and no later one is. */
  lemma {:induction false} GroupContests(m: map<Id, nat>, live: set<Id>, group: set<Id>, level: nat)
    requires group <= live && level > 0
    ensures EligibleAt(m, live, level) !! group <==> LiveTop(m, group) < level
  {
    GroupTopCloses(m, group);
    if LiveTop(m, group) >= level {
      var id :| id in group && id in m && m[id] == LiveTop(m, group);
      assert id in EligibleAt(m, live, level) && id in group;
    }
  }

  /** The group contests exactly the layers up to top. */
  ghost predicate ReachesTo(m: map<Id, nat>, live: set<Id>, group: set<Id>, levels: seq<nat>, top: nat) {
    && Closes(levels, top)
    && forall x | x in levels :: EligibleAt(m, live, x) !! group <==> top < x
  }

  /** One layer takes the group from what was put in below it to what was put in up to it, as far as it reaches. */
  lemma {:induction false} LayerPaysGroup(m: map<Id, nat>, live: set<Id>, group: set<Id>, levels: seq<nat>, top: nat,
                                          i: nat, take: Pot -> nat)
    requires i < |levels| && Ascending(levels) && ReachesTo(m, live, group, levels, top) && TakesWhole(take, live, group)
    ensures Capped(m, Min(top, Below(levels, i))) + take(Layer(m, live, levels, i)) == Capped(m, Min(top, levels[i]))
  {
    assert levels[i] in levels;
    LayerHolds(m, live, levels, i);
    if top < levels[i] {
      NoneBetween(levels, i, top);
    }
  }

  lemma NothingBelow(m: map<Id, nat>, x: nat)
    requires x == 0
    ensures Capped(m, x) == 0
  {
    CappedAtZero(m);
  }

  lemma {:induction false} OneMoreLayer(m: map<Id, nat>, live: set<Id>, levels: seq<nat>, n: nat, take: Pot -> nat)
    requires 0 < n <= |levels|
    ensures Takings(Layers(m, live, levels, n), take)
         == Takings(Layers(m, live, levels, n - 1), take) + take(Layer(m, live, levels, n - 1))
  {
    TakingsAppend(Layers(m, live, levels, n - 1), Layer(m, live, levels, n - 1), take);
  }

  /** Every layer takes the group that far. */
  ghost predicate LayersPay(m: map<Id, nat>, live: set<Id>, levels: seq<nat>, top: nat, take: Pot -> nat) {
    forall i: nat {:trigger Layer(m, live, levels, i)} | i < |levels| ::
      Capped(m, Min(top, Below(levels, i))) + take(Layer(m, live, levels, i)) == Capped(m, Min(top, levels[i]))
  }

  lemma {:induction false} LayersPayGroup(m: map<Id, nat>, live: set<Id>, levels: seq<nat>, top: nat, n: nat,
                                          take: Pot -> nat)
    requires n <= |levels| && LayersPay(m, live, levels, top, take)
    ensures Takings(Layers(m, live, levels, n), take) == Capped(m, Min(top, Below(levels, n)))
  {
    if n == 0 {
      NothingBelow(m, Min(top, Below(levels, n)));
    } else {
      LayersPayGroup(m, live, levels, top, n - 1, take);
      OneMoreLayer(m, live, levels, n, take);
    }
  }

  lemma AllLayersPay(m: map<Id, nat>, live: set<Id>, group: set<Id>, levels: seq<nat>, top: nat, take: Pot -> nat)
    requires Ascending(levels) && ReachesTo(m, live, group, levels, top) && TakesWhole(take, live, group)
    ensures LayersPay(m, live, levels, top, take)
  {
    forall i: nat {:trigger Layer(m, live, levels, i)} | i < |levels|
      ensures Capped(m, Min(top, Below(levels, i))) + take(Layer(m, live, levels, i)) == Capped(m, Min(top, levels[i]))
    {
      LayerPaysGroup(m, live, group, levels, top, i, take);
    }
  }

  lemma {:induction false} CutPaysGroup(m: map<Id, nat>, live: set<Id>, group: set<Id>, levels: seq<nat>, top: nat,
                                        n: nat, take: Pot -> nat)
    requires 0 < n <= |levels| && Ascending(levels) && ReachesTo(m, live, group, levels, top)
    requires TakesWhole(take, live, group) && top <= levels[n - 1]
    ensures Takings(CutPots(m, live, levels, n), take)
         == Capped(m, top) + if top == levels[n - 1] then Tail(m, levels[n - 1]) else 0
  {
    assert levels[n - 1] in levels;
    AllLayersPay(m, live, group, levels, top, take);
    LayersPayGroup(m, live, levels, top, n - 1, take);
    LayerPaysGroup(m, live, group, levels, top, n - 1, take);
    TakingsAppend(Layers(m, live, levels, n - 1), LastPot(m, live, levels, n), take);
  }

  lemma GroupReaches(m: map<Id, nat>, live: set<Id>, group: set<Id>)
    requires LiveMoney(m, live) && group <= live
    ensures ReachesTo(m, live, group, Levels(m), LiveTop(m, group)) && LiveTop(m, group) <= LiveTop(m, live)
  {
    LiveTopIsALevel(m, live);
    GroupTopCloses(m, group);
    forall x | x in Levels(m) ensures EligibleAt(m, live, x) !! group <==> LiveTop(m, group) < x {
      GroupContests(m, live, group, x);
    }
  }

  lemma {:induction false} CutPaysCeiling(m: map<Id, nat>, live: set<Id>, group: set<Id>, levels: seq<nat>, n: nat,
                                          take: Pot -> nat)
    requires LiveMoney(m, live) && group <= live && TakesWhole(take, live, group)
    requires levels == Levels(m) && 0 < n <= |levels| && levels[n - 1] == LiveTop(m, live)
    ensures Takings(CutPots(m, live, levels, n), take) == GroupCeiling(m, live, group)
  {
    LevelsAscend(m);
    GroupReaches(m, live, group);
    CutPaysGroup(m, live, group, levels, LiveTop(m, group), n, take);
  }

  lemma {:induction false} SidePotsPayGroup(m: map<Id, nat>, live: set<Id>, group: set<Id>, take: Pot -> nat)
    requires LiveMoney(m, live) && group <= live && TakesWhole(take, live, group)
    ensures Takings(SidePots(m, live), take) == GroupCeiling(m, live, group)
  {
    CutPaysCeiling(m, live, group, Levels(m), LiveLevels(m, live), take);
  }

  /**
   Players who between them beat everybody else collect exactly what everybody put in up to the largest contribution
   among them, and the dead tail when nobody live put in more.
   */
  lemma {:induction false} BestGroupCollects(m: map<Id, nat>, live: set<Id>, scores: map<Id, int>, group: set<Id>)
    requires LiveMoney(m, live) && Beats(group, live, scores)
    ensures Total(Payouts(SidePots(m, live), scores, group)) == GroupCeiling(m, live, group)
  {
    var take := pot => Take(pot, scores, group);
    GroupTakesWhole(scores, live, group, take);
    SidePotsPayGroup(m, live, group, take);
    PayoutsAreTakings(SidePots(m, live), scores, group, take);
  }

  /** The one best hand collects all it could ever win, however short its stack. */
  lemma {:induction false} BestHandCollects(m: map<Id, nat>, live: set<Id>, scores: map<Id, int>, id: Id)
    requires LiveMoney(m, live) && id in live
    requires forall j | j in live && j != id :: ScoreOf(scores, j) < ScoreOf(scores, id)
    ensures Payout(SidePots(m, live), scores, id) == FairCeiling(m, live, id)
  {
    BestGroupCollects(m, live, scores, {id});
    PayoutOfOne(SidePots(m, live), scores, id);
    LiveTopOfOne(m, id);
  }

  lemma TotalOfOne(m: map<Id, nat>, id: Id)
    requires m.Keys == {id}
    ensures Total(m) == m[id]
  {
    assert m == map[][id := m[id]];
    TotalInsert(map[], id, m[id]);
  }

  lemma {:induction false} PayoutOfOne(pots: seq<Pot>, scores: map<Id, int>, id: Id)
    ensures Total(Payouts(pots, scores, {id})) == Payout(pots, scores, id)
  {
    TotalOfOne(Payouts(pots, scores, {id}), id);
  }

  lemma LiveTopOfOne(m: map<Id, nat>, id: Id)
    ensures LiveTop(m, {id}) == At(m, id)
  {
    GroupTopCloses(m, {id});
  }

  /** Players of one score, and the best of them after everybody better is paid: how any tie is settled. */
  lemma {:induction false} TiedCollect(m: map<Id, nat>, live: set<Id>, scores: map<Id, int>, better: set<Id>, tied: set<Id>)
    requires LiveMoney(m, live) && better !! tied && Beats(better, live, scores) && Beats(better + tied, live, scores)
    ensures Total(Payouts(SidePots(m, live), scores, tied))
         == GroupCeiling(m, live, better + tied) - GroupCeiling(m, live, better)
  {
    BestGroupCollects(m, live, scores, better);
    BestGroupCollects(m, live, scores, better + tied);
    var pots := SidePots(m, live);
    JoinTotals(Payouts(pots, scores, better), Payouts(pots, scores, tied), Payouts(pots, scores, better + tied));
  }

  lemma JoinTotals(a: map<Id, nat>, b: map<Id, nat>, both: map<Id, nat>)
    requires a.Keys !! b.Keys && both.Keys == a.Keys + b.Keys
    requires forall id | id in both :: both[id] == if id in a then a[id] else b[id]
    ensures Total(both) == Total(a) + Total(b)
  {
    SumIs(a, b, both);
  }
}
