/** Who gets which chips when a poker hand ends: refunds, side pots and shares. */
module PokerMoney {
  import opened Cards
  import opened Sums

  /** A pot and who may win it; the source lists the eligible sorted, only membership matters. */
  datatype Pot = Pot(amount: nat, eligible: set<Id>)

  /** Stacks, what each player put into this hand, and the pool those chips sit in. */
  datatype Ledger = Ledger(chips: map<Id, nat>, contributed: map<Id, nat>, pool: nat)
  {
    ghost function InPlay(): nat {
      Total(chips) + pool
    }

    /** Nothing has been paid out yet: the pool is exactly what was put in. */
    ghost predicate Unpaid() {
      && pool == Total(contributed)
      && contributed.Keys <= chips.Keys
    }
  }

  /** Moves amount from a stack into the pool. */
  function Commit(l: Ledger, id: Id, amount: nat): Ledger
    requires amount <= At(l.chips, id)
  {
    Ledger(l.chips[id := At(l.chips, id) - amount], l.contributed[id := At(l.contributed, id) + amount],
           l.pool + amount)
  }

  lemma CommitKeepsLedger(l: Ledger, id: Id, amount: nat)
    requires amount <= At(l.chips, id) && l.Unpaid()
    ensures Commit(l, id, amount).Unpaid()
    ensures Commit(l, id, amount).InPlay() == l.InPlay()
  {
    TotalUpdate(l.chips, id, At(l.chips, id) - amount);
    TotalUpdate(l.contributed, id, At(l.contributed, id) + amount);
  }

  // ---- Refunds ----

  /** Everything above the second largest contribution goes back to whoever put it in. */
  ghost function RefundUncalled(l: Ledger): Ledger {
    var matched := Second(l.contributed);
    Ledger(Plus(l.chips, Over(l.contributed, matched)), Cap(l.contributed, matched),
           Capped(l.contributed, matched))
  }

  lemma RefundKeepsLedger(l: Ledger)
    requires l.Unpaid()
    ensures RefundUncalled(l).Unpaid()
    ensures RefundUncalled(l).InPlay() == l.InPlay()
  {
    var m, matched := l.contributed, Second(l.contributed);
    CapAndOver(m, matched);
    TotalPlus(l.chips, Over(m, matched));
  }

  /** Only the one player ahead of everybody else gets chips back. */
  lemma RefundTouchesOnlyTheTop(l: Ledger, id: Id)
    requires At(l.contributed, id) > Second(l.contributed)
    ensures var r := RefundUncalled(l);
            && At(r.chips, id) == At(l.chips, id) + (At(l.contributed, id) - Second(l.contributed))
            && At(r.contributed, id) == Second(l.contributed)
            && forall j | j != id :: At(r.chips, j) == At(l.chips, j) && At(r.contributed, j) == At(l.contributed, j)
  {
    var m := l.contributed;
    var a :| a in m && m[a] == Top(m);
    SecondIs(m, a);
    assert forall j | j in m && j != a :: j in m - {a} && (m - {a})[j] == m[j];
    assert forall j | j in m && j != id :: m[j] <= Second(m);
  }

  /** Unwinds the hand: every chip goes back to whoever put it in. */
  ghost function RefundContributions(l: Ledger): Ledger {
    Ledger(Plus(l.chips, l.contributed), l.contributed, 0)
  }

  lemma UnwindKeepsLedger(l: Ledger)
    requires l.Unpaid()
    ensures RefundContributions(l).InPlay() == l.InPlay() && RefundContributions(l).pool == 0
    ensures forall id :: At(RefundContributions(l).chips, id) == At(l.chips, id) + At(l.contributed, id)
  {
    TotalPlus(l.chips, l.contributed);
  }

  /** The last player standing takes what the others put in up to their own contribution. */
  ghost function AwardUncontested(l: Ledger, winner: Id): Ledger {
    var m, matched := l.contributed, At(l.contributed, winner);
    Ledger(Plus(Plus(l.chips, Over(m, matched)), map[winner := Capped(m, matched)]), m, 0)
  }

  lemma UncontestedKeepsLedger(l: Ledger, winner: Id)
    requires l.Unpaid()
    ensures AwardUncontested(l, winner).InPlay() == l.InPlay() && AwardUncontested(l, winner).pool == 0
  {
    var m, matched := l.contributed, At(l.contributed, winner);
    var prize := map[winner := Capped(m, matched)];
    CapAndOver(m, matched);
    TotalPlus(l.chips, Over(m, matched));
    TotalPlus(Plus(l.chips, Over(m, matched)), prize);
    TotalUpdate(map[], winner, Capped(m, matched));
    assert map[][winner := Capped(m, matched)] == prize;
  }

  /** The winner takes what was matched, and everybody else has back what the winner did not match. */
  lemma UncontestedPaysTheMatched(l: Ledger, winner: Id, id: Id)
    ensures var r, matched := AwardUncontested(l, winner).chips, At(l.contributed, winner);
            At(r, id) == At(l.chips, id) + if id == winner then Capped(l.contributed, matched)
                                           else At(l.contributed, id) - Min(At(l.contributed, id), matched)
  {
  }

  // ---- Side pots ----

  /** The distinct non-zero contributions, ascending. */
  function Levels(m: map<Id, nat>): (r: seq<nat>)
    ensures forall k | k in m && m[k] > 0 :: m[k] in r
    ensures forall x | x in r :: x > 0 && exists k :: k in m && m[k] == x
  {
    var values := set k | k in m && m[k] > 0 :: m[k];
    var r := SortedSet(values);
    assert forall x :: x in r <==> x in Elements(r);
    r
  }

  lemma LevelsAscend(m: map<Id, nat>)
    ensures Ascending(Levels(m))
  {
    SortedSetAscends(set k | k in m && m[k] > 0 :: m[k]);
  }

  ghost function LiveTop(m: map<Id, nat>, live: set<Id>): nat {
    Top(m - (m.Keys - live))
  }

  ghost predicate LiveMoney(m: map<Id, nat>, live: set<Id>) {
    exists id :: id in live && At(m, id) > 0
  }

  lemma LiveTopIsALevel(m: map<Id, nat>, live: set<Id>)
    requires LiveMoney(m, live)
    ensures LiveTop(m, live) > 0 && LiveTop(m, live) in Levels(m)
    ensures exists id :: id in live && id in m && m[id] == LiveTop(m, live)
    ensures forall id | id in live :: At(m, id) <= LiveTop(m, live)
  {
    var lm := m - (m.Keys - live);
    var id :| id in live && At(m, id) > 0;
    assert forall j | j in live && j in m :: j in lm && lm[j] == m[j];
    assert lm[id] <= Top(lm);
    var top :| top in lm && lm[top] == Top(lm);
    assert top in m && m[top] > 0;
  }

  function Below(levels: seq<nat>, i: nat): nat
    requires i <= |levels|
  {
    if i == 0 then 0 else levels[i - 1]
  }

  function EligibleAt(m: map<Id, nat>, live: set<Id>, level: nat): set<Id> {
    set id | id in m && id in live && m[id] >= level
  }

  /** The slice of every contribution between two levels. */
  ghost function Slice(m: map<Id, nat>, lo: nat, hi: nat): nat {
    if Capped(m, lo) <= Capped(m, hi) then Capped(m, hi) - Capped(m, lo) else 0
  }

  /** One layer of the pot, contested by the live players who paid all of it. */
  ghost function Layer(m: map<Id, nat>, live: set<Id>, levels: seq<nat>, i: nat): Pot
    requires i < |levels|
  {
    Pot(Slice(m, Below(levels, i), levels[i]), EligibleAt(m, live, levels[i]))
  }

  ghost function Layers(m: map<Id, nat>, live: set<Id>, levels: seq<nat>, n: nat): (pots: seq<Pot>)
    requires n <= |levels|
    ensures |pots| == n
  {
    if n == 0 then [] else Layers(m, live, levels, n - 1) + [Layer(m, live, levels, n - 1)]
  }

  /** The first n layers, with everything above them riding on the last. */
  ghost function CutPots(m: map<Id, nat>, live: set<Id>, levels: seq<nat>, n: nat): (pots: seq<Pot>)
    requires 0 < n <= |levels|
    ensures |pots| == n
  {
    Layers(m, live, levels, n - 1) + [LastPot(m, live, levels, n)]
  }

  /** What was put in above a level. */
  ghost function Tail(m: map<Id, nat>, level: nat): (tail: nat)
    ensures Capped(m, level) + tail == Total(m)
  {
    CappedMonotone(m, level, level);
    Total(m) - Capped(m, level)
  }

  /** The n-th layer with what was put in above it. */
  ghost function LastPot(m: map<Id, nat>, live: set<Id>, levels: seq<nat>, n: nat): Pot
    requires 0 < n <= |levels|
  {
    var last := Layer(m, live, levels, n - 1);
    Pot(last.amount + Tail(m, levels[n - 1]), last.eligible)
  }

  /** How many levels lie at or below the largest live contribution. */
  ghost function LiveLevels(m: map<Id, nat>, live: set<Id>): (n: nat)
    requires LiveMoney(m, live)
    ensures 0 < n <= |Levels(m)| && Levels(m)[n - 1] == LiveTop(m, live)
  {
    LiveTopIsALevel(m, live);
    IndexOf(Levels(m), LiveTop(m, live)) + 1
  }

  /** One pot per level up to the largest live contribution; what dead players put in above it rides on the last. */
  ghost function SidePots(m: map<Id, nat>, live: set<Id>): (pots: seq<Pot>)
    requires LiveMoney(m, live)
    ensures |pots| == LiveLevels(m, live)
  {
    LevelsAscend(m);
    CutPots(m, live, Levels(m), LiveLevels(m, live))
  }

  function SumPots(pots: seq<Pot>): nat {
    if pots == [] then 0 else SumPots(pots[..|pots| - 1]) + pots[|pots| - 1].amount
  }

  lemma SumPotsAppend(pots: seq<Pot>, pot: Pot)
    ensures SumPots(pots + [pot]) == SumPots(pots) + pot.amount
  {
    assert (pots + [pot])[..|pots|] == pots;
  }

  lemma {:induction false} LayersTelescope(m: map<Id, nat>, live: set<Id>, levels: seq<nat>, n: nat)
    requires n <= |levels| && Ascending(levels)
    ensures SumPots(Layers(m, live, levels, n)) == Capped(m, Below(levels, n))
  {
    if n == 0 {
      CappedAtZero(m);
    } else {
      LayersTelescope(m, live, levels, n - 1);
      CappedMonotone(m, Below(levels, n - 1), levels[n - 1]);
      var before, layer := Layers(m, live, levels, n - 1), Layer(m, live, levels, n - 1);
      SumPotsAppend(before, layer);
      assert SumPots(Layers(m, live, levels, n)) == SumPots(before) + layer.amount;
    }
  }

  lemma CutPotsTotal(m: map<Id, nat>, live: set<Id>, levels: seq<nat>, n: nat)
    requires 0 < n <= |levels| && Ascending(levels)
    ensures SumPots(CutPots(m, live, levels, n)) == Total(m)
  {
    LayersTelescope(m, live, levels, n - 1);
    CappedMonotone(m, Below(levels, n - 1), levels[n - 1]);
    SumPotsAppend(Layers(m, live, levels, n - 1), LastPot(m, live, levels, n));
  }

  /** The pots hold every contributed chip, live or dead. */
  lemma PotsCoverContributions(m: map<Id, nat>, live: set<Id>)
    requires LiveMoney(m, live)
    ensures SumPots(SidePots(m, live)) == Total(m)
  {
    LevelsAscend(m);
    CutPotsTotal(m, live, Levels(m), LiveLevels(m, live));
  }

  lemma {:induction false} LayersAt(m: map<Id, nat>, live: set<Id>, levels: seq<nat>, n: nat, i: nat)
    requires i < n <= |levels| && Ascending(levels)
    ensures Layers(m, live, levels, n)[i] == Layer(m, live, levels, i)
  {
    if i < n - 1 {
      LayersAt(m, live, levels, n - 1, i);
    }
  }

  lemma CutPotAt(m: map<Id, nat>, live: set<Id>, levels: seq<nat>, n: nat, i: nat)
    requires i < n <= |levels| && Ascending(levels)
    ensures CutPots(m, live, levels, n)[i].eligible == EligibleAt(m, live, levels[i])
  {
    if i < n - 1 {
      LayersAt(m, live, levels, n - 1, i);
    }
  }

  lemma CutPotContested(m: map<Id, nat>, live: set<Id>, levels: seq<nat>, n: nat, i: nat, top: Id)
    requires i < n <= |levels| && Ascending(levels) && top in live && top in m && m[top] == levels[n - 1]
    ensures CutPots(m, live, levels, n)[i].eligible == EligibleAt(m, live, levels[i]) != {}
  {
    CutPotAt(m, live, levels, n, i);
    assert levels[i] <= levels[n - 1];
    assert top in EligibleAt(m, live, levels[i]);
  }

  /** Pot i is contested by exactly the live players at or above its level, and somebody always is. */
  lemma PotsAreContested(m: map<Id, nat>, live: set<Id>, i: nat)
    requires LiveMoney(m, live) && i < |SidePots(m, live)|
    ensures SidePots(m, live)[i].eligible == EligibleAt(m, live, Levels(m)[i]) != {}
  {
    LevelsAscend(m);
    LiveTopIsALevel(m, live);
    var top :| top in live && top in m && m[top] == LiveTop(m, live);
    CutPotContested(m, live, Levels(m), LiveLevels(m, live), i, top);
  }

  /** Each pot is contested by no more players than the one before it. */
  lemma PotsShrink(m: map<Id, nat>, live: set<Id>, i: nat, j: nat)
    requires LiveMoney(m, live) && i < j < |SidePots(m, live)|
    ensures SidePots(m, live)[j].eligible <= SidePots(m, live)[i].eligible
  {
    LevelsAscend(m);
    CutPotAt(m, live, Levels(m), LiveLevels(m, live), i);
    CutPotAt(m, live, Levels(m), LiveLevels(m, live), j);
  }

  // ---- Paying pots ----

  function ScoreOf(scores: map<Id, int>, id: Id): int {
    if id in scores then scores[id] else 0
  }

  /** The best hands among those eligible. */
  function BestOf(ids: set<Id>, scores: map<Id, int>): set<Id> {
    set id | id in ids && forall j | j in ids :: ScoreOf(scores, j) <= ScoreOf(scores, id)
  }

  lemma {:induction false} SomebodyIsBest(ids: set<Id>, scores: map<Id, int>)
    requires ids != {}
    ensures BestOf(ids, scores) != {}
  {
    var id :| id in ids;
    if ids == {id} {
      assert id in BestOf(ids, scores);
    } else {
      SomebodyIsBest(ids - {id}, scores);
      var best :| best in BestOf(ids - {id}, scores);
      assert ids == (ids - {id}) + {id};
      assert best in BestOf(ids, scores) || id in BestOf(ids, scores);
    }
  }

  function PotWinners(pot: Pot, scores: map<Id, int>): (ids: seq<Id>)
    ensures Elements(ids) == BestOf(pot.eligible, scores)
  {
    SortedSet(BestOf(pot.eligible, scores))
  }

  lemma PotHasWinners(pot: Pot, scores: map<Id, int>)
    requires pot.eligible != {}
    ensures PotWinners(pot, scores) != [] && Ascending(PotWinners(pot, scores))
  {
    SomebodyIsBest(pot.eligible, scores);
    SortedSetAscends(BestOf(pot.eligible, scores));
  }

  function Portion(share: nat, rem: nat, i: nat): nat {
    share + if i < rem then 1 else 0
  }

  /** What the first n of ids are handed: share each, and one of the rem odd chips to the front ones. */
  function PartShares(ids: seq<Id>, share: nat, rem: nat, n: nat): map<Id, nat>
    requires n <= |ids|
  {
    if n == 0 then map[] else PartShares(ids, share, rem, n - 1)[ids[n - 1] := Portion(share, rem, n - 1)]
  }

  lemma {:induction false} PartSharesKeys(ids: seq<Id>, share: nat, rem: nat, n: nat, id: Id)
    requires n <= |ids|
    ensures id in PartShares(ids, share, rem, n) <==> id in ids[..n]
  {
    if n > 0 {
      PartSharesKeys(ids, share, rem, n - 1, id);
      assert ids[..n] == ids[..n - 1] + [ids[n - 1]];
    }
  }

  lemma {:induction false} PartSharesAt(ids: seq<Id>, share: nat, rem: nat, n: nat, i: nat)
    requires i < n <= |ids| && Ascending(ids)
    ensures ids[i] in PartShares(ids, share, rem, n) && PartShares(ids, share, rem, n)[ids[i]] == Portion(share, rem, i)
  {
    if i < n - 1 {
      PartSharesAt(ids, share, rem, n - 1, i);
    }
  }

  /** What each of ids is handed out of amount. */
  function Shares(ids: seq<Id>, amount: nat): map<Id, nat> {
    if ids == [] then map[] else PartShares(ids, amount / |ids|, amount % |ids|, |ids|)
  }

  ghost function Times(n: nat, x: nat): nat {
    if n == 0 then 0 else Times(n - 1, x) + x
  }

  lemma {:induction false} TimesIsProduct(n: nat, x: nat)
    ensures Times(n, x) == n * x
  {
    if n > 0 {
      TimesIsProduct(n - 1, x);
    }
  }

  lemma QuotientAndRest(amount: nat, n: nat)
    requires n > 0
    ensures Times(n, amount / n) + Min(n, amount % n) == amount
  {
    TimesIsProduct(n, amount / n);
  }

  lemma {:induction false} PartSharesTotal(ids: seq<Id>, share: nat, rem: nat, n: nat)
    requires n <= |ids| && Ascending(ids)
    ensures Total(PartShares(ids, share, rem, n)) == Times(n, share) + Min(n, rem)
  {
    if n == 0 {
      assert PartShares(ids, share, rem, 0) == map[];
    } else {
      var before := PartShares(ids, share, rem, n - 1);
      PartSharesTotal(ids, share, rem, n - 1);
      PartSharesKeys(ids, share, rem, n - 1, ids[n - 1]);
      TotalInsert(before, ids[n - 1], Portion(share, rem, n - 1));
      assert Total(PartShares(ids, share, rem, n)) == Total(before) + Portion(share, rem, n - 1);
    }
  }

  /** The whole amount is handed out. */
  lemma SharesTotal(ids: seq<Id>, amount: nat)
    requires ids != [] && Ascending(ids)
    ensures Total(Shares(ids, amount)) == amount
  {
    var n := |ids|;
    var share, rem := amount / n, amount % n;
    QuotientAndRest(amount, n);
    PartSharesTotal(ids, share, rem, n);
  }

  ghost predicate AllContested(pots: seq<Pot>) {
    forall i | 0 <= i < |pots| :: pots[i].eligible != {}
  }

  ghost function AwardPots(chips: map<Id, nat>, pots: seq<Pot>, scores: map<Id, int>): map<Id, nat> {
    if pots == [] then chips
    else
      var last := pots[|pots| - 1];
      Plus(AwardPots(chips, pots[..|pots| - 1], scores), Shares(PotWinners(last, scores), last.amount))
  }

  /** What one player collects over all pots. */
  ghost function Payout(pots: seq<Pot>, scores: map<Id, int>, id: Id): nat {
    if pots == [] then 0
    else
      var last := pots[|pots| - 1];
      Payout(pots[..|pots| - 1], scores, id) + At(Shares(PotWinners(last, scores), last.amount), id)
  }

  lemma {:induction false} AwardPaysEachPayout(chips: map<Id, nat>, pots: seq<Pot>, scores: map<Id, int>, id: Id)
    ensures At(AwardPots(chips, pots, scores), id) == At(chips, id) + Payout(pots, scores, id)
  {
    if pots != [] {
      AwardPaysEachPayout(chips, pots[..|pots| - 1], scores, id);
    }
  }

  /** Paying the pots moves exactly their chips into stacks. */
  lemma {:induction false} AwardPaysEveryChip(chips: map<Id, nat>, pots: seq<Pot>, scores: map<Id, int>)
    requires AllContested(pots)
    ensures Total(AwardPots(chips, pots, scores)) == Total(chips) + SumPots(pots)
  {
    if pots != [] {
      var last := pots[|pots| - 1];
      var winners := PotWinners(last, scores);
      PotHasWinners(last, scores);
      AwardPaysEveryChip(chips, pots[..|pots| - 1], scores);
      SharesTotal(winners, last.amount);
      TotalPlus(AwardPots(chips, pots[..|pots| - 1], scores), Shares(winners, last.amount));
    }
  }

  lemma ShareOf(ids: seq<Id>, amount: nat, id: Id)
    requires ids != [] && Ascending(ids)
    ensures id in Shares(ids, amount) <==> id in ids
    ensures id in ids ==> 0 <= Shares(ids, amount)[id] - amount / |ids| <= 1
  {
    PartSharesKeys(ids, amount / |ids|, amount % |ids|, |ids|, id);
    assert ids[..|ids|] == ids;
    if id in ids {
      var i :| 0 <= i < |ids| && ids[i] == id;
      PartSharesAt(ids, amount / |ids|, amount % |ids|, |ids|, i);
    }
  }

  /** Odd chips go to the lowest ids. */
  lemma LowestGetOddChips(ids: seq<Id>, amount: nat, id: Id, other: Id)
    requires Ascending(ids) && id in ids && other in ids && id < other
    ensures id in Shares(ids, amount) && other in Shares(ids, amount)
    ensures Shares(ids, amount)[other] <= Shares(ids, amount)[id]
  {
    var i :| 0 <= i < |ids| && ids[i] == id;
    var j :| 0 <= j < |ids| && ids[j] == other;
    PartSharesAt(ids, amount / |ids|, amount % |ids|, |ids|, i);
    PartSharesAt(ids, amount / |ids|, amount % |ids|, |ids|, j);
  }

  /**
   A pot goes to exactly its best eligible hands, in shares that differ by at most one chip, the lowest ids taking the
   odd chips.
   */
  lemma PotGoesToBestHands(pot: Pot, scores: map<Id, int>, id: Id, other: Id)
    requires pot.eligible != {}
    ensures var paid := Shares(PotWinners(pot, scores), pot.amount);
            && Total(paid) == pot.amount
            && (id in paid <==> id in pot.eligible
                                && forall j | j in pot.eligible :: ScoreOf(scores, j) <= ScoreOf(scores, id))
            && (id in paid && other in paid ==> paid[id] <= paid[other] + 1)
            && (id in paid && other in paid && id < other ==> paid[other] <= paid[id])
  {
    var winners := PotWinners(pot, scores);
    PotHasWinners(pot, scores);
    SharesTotal(winners, pot.amount);
    ShareOf(winners, pot.amount, id);
    ShareOf(winners, pot.amount, other);
    assert id in winners <==> id in Elements(winners);
    if id in winners && other in winners && id < other {
      LowestGetOddChips(winners, pot.amount, id, other);
    }
  }

  /** The most id may win: what everyone put in up to id's own contribution, and the dead tail if id is level with the top. */
  ghost function FairCeiling(m: map<Id, nat>, live: set<Id>, id: Id): nat {
    if id !in live then 0
    else
      Capped(m, At(m, id)) + if At(m, id) == LiveTop(m, live) then Tail(m, LiveTop(m, live)) else 0
  }

  lemma PotPaysAtMost(pot: Pot, scores: map<Id, int>, id: Id)
    ensures At(Shares(PotWinners(pot, scores), pot.amount), id)
            <= if id in pot.eligible then pot.amount else 0
  {
    if pot.eligible != {} {
      PotGoesToBestHands(pot, scores, id, id);
      TotalAtLeast(Shares(PotWinners(pot, scores), pot.amount), id);
    } else {
      assert PotWinners(pot, scores) == [] by {
        assert BestOf(pot.eligible, scores) == {};
      }
    }
  }

  lemma {:induction false} LayerPayouts(m: map<Id, nat>, live: set<Id>, scores: map<Id, int>, id: Id, levels: seq<nat>,
                                        n: nat)
    requires n <= |levels| && Ascending(levels)
    ensures Payout(Layers(m, live, levels, n), scores, id)
            <= if id in live then Capped(m, Min(At(m, id), Below(levels, n))) else 0
  {
    if n > 0 {
      var before, pot := Layers(m, live, levels, n - 1), Layer(m, live, levels, n - 1);
      PayoutAppend(before, pot, scores, id);
      LayerPayouts(m, live, scores, id, levels, n - 1);
      LayerStep(m, live, levels, id, n);
    }
  }

  lemma PayoutAppend(pots: seq<Pot>, pot: Pot, scores: map<Id, int>, id: Id)
    ensures Payout(pots + [pot], scores, id)
            <= Payout(pots, scores, id) + if id in pot.eligible then pot.amount else 0
  {
    assert (pots + [pot])[..|pots|] == pots;
    PotPaysAtMost(pot, scores, id);
  }

  /** Taking one more layer, if eligible for it, stays within what everyone put in up to one's own contribution. */
  lemma LayerStep(m: map<Id, nat>, live: set<Id>, levels: seq<nat>, id: Id, n: nat)
    requires 0 < n <= |levels| && Ascending(levels)
    ensures var pot := Layer(m, live, levels, n - 1);
            var prize := if id in pot.eligible then pot.amount else 0;
            (if id in live then Capped(m, Min(At(m, id), Below(levels, n - 1))) else 0) + prize
            <= if id in live then Capped(m, Min(At(m, id), levels[n - 1])) else 0
  {
    CappedMonotone(m, Min(At(m, id), Below(levels, n - 1)), Min(At(m, id), levels[n - 1]));
    CappedMonotone(m, Below(levels, n - 1), levels[n - 1]);
  }

  /** The last layer and its tail keep within the ceiling. */
  lemma LastLayerFair(m: map<Id, nat>, live: set<Id>, levels: seq<nat>, n: nat, id: Id)
    requires 0 < n <= |levels| && Ascending(levels)
    requires levels[n - 1] == LiveTop(m, live) && (id in live ==> At(m, id) <= levels[n - 1])
    ensures var last := LastPot(m, live, levels, n);
            var prize := if id in last.eligible then last.amount else 0;
            (if id in live then Capped(m, Min(At(m, id), Below(levels, n - 1))) else 0) + prize
            <= FairCeiling(m, live, id)
  {
    LayerStep(m, live, levels, id, n);
    if id in live {
      CappedMonotone(m, Min(At(m, id), Below(levels, n - 1)), At(m, id));
    }
  }

  lemma CutPotsFair(m: map<Id, nat>, live: set<Id>, scores: map<Id, int>, id: Id, levels: seq<nat>, n: nat)
    requires 0 < n <= |levels| && Ascending(levels)
    requires levels[n - 1] == LiveTop(m, live) && (id in live ==> At(m, id) <= levels[n - 1])
    ensures Payout(CutPots(m, live, levels, n), scores, id) <= FairCeiling(m, live, id)
  {
    LayerPayouts(m, live, scores, id, levels, n - 1);
    LastLayerFair(m, live, levels, n, id);
    PayoutAppend(Layers(m, live, levels, n - 1), LastPot(m, live, levels, n), scores, id);
  }

  /** Nobody collects more than their fair ceiling, and folded players collect nothing. */
  lemma NobodyWinsMoreThanTheyRisked(m: map<Id, nat>, live: set<Id>, scores: map<Id, int>, id: Id)
    requires LiveMoney(m, live)
    ensures Payout(SidePots(m, live), scores, id) <= FairCeiling(m, live, id)
  {
    LevelsAscend(m);
    LiveTopIsALevel(m, live);
    CutPotsFair(m, live, scores, id, Levels(m), LiveLevels(m, live));
  }

  // ---- The whole showdown ----

  lemma SidePotsContested(m: map<Id, nat>, live: set<Id>)
    requires LiveMoney(m, live)
    ensures AllContested(SidePots(m, live))
  {
    forall i | 0 <= i < |SidePots(m, live)| ensures SidePots(m, live)[i].eligible != {} {
      PotsAreContested(m, live, i);
    }
  }

  lemma {:induction false} AwardKeepsKeys(chips: map<Id, nat>, pots: seq<Pot>, scores: map<Id, int>)
    ensures chips.Keys <= AwardPots(chips, pots, scores).Keys
  {
    if pots != [] {
      AwardKeepsKeys(chips, pots[..|pots| - 1], scores);
    }
  }

  /** Pays every pot, each leaving the pool as it is paid. */
  ghost function PayPots(l: Ledger, live: set<Id>, scores: map<Id, int>): Ledger
    requires l.Unpaid() && LiveMoney(l.contributed, live)
  {
    var pots := SidePots(l.contributed, live);
    PotsCoverContributions(l.contributed, live);
    Ledger(AwardPots(l.chips, pots, scores), l.contributed, l.pool - SumPots(pots))
  }

  lemma PayoutEmptiesPool(l: Ledger, pots: seq<Pot>, scores: map<Id, int>)
    requires l.Unpaid() && SumPots(pots) == Total(l.contributed) && AllContested(pots)
    ensures l.pool - SumPots(pots) == 0
    ensures Total(AwardPots(l.chips, pots, scores)) == l.InPlay()
    ensures l.chips.Keys <= AwardPots(l.chips, pots, scores).Keys
  {
    AwardPaysEveryChip(l.chips, pots, scores);
    AwardKeepsKeys(l.chips, pots, scores);
  }

  lemma PayPotsPaysOut(l: Ledger, live: set<Id>, scores: map<Id, int>)
    requires l.Unpaid() && LiveMoney(l.contributed, live)
    ensures PayPots(l, live, scores).pool == 0
    ensures Total(PayPots(l, live, scores).chips) == l.InPlay()
    ensures l.chips.Keys <= PayPots(l, live, scores).chips.Keys
  {
    var pots := SidePots(l.contributed, live);
    PotsCoverContributions(l.contributed, live);
    SidePotsContested(l.contributed, live);
    PayoutEmptiesPool(l, pots, scores);
  }

  /** The uncalled part goes back, the rest is cut into pots and paid. */
  ghost function PayShowdown(l: Ledger, live: set<Id>, scores: map<Id, int>): Ledger
    requires l.Unpaid() && LiveMoney(RefundUncalled(l).contributed, live)
  {
    RefundKeepsLedger(l);
    PayPots(RefundUncalled(l), live, scores)
  }

  /** A showdown empties the pool into the stacks. */
  lemma PayShowdownPaysOut(l: Ledger, live: set<Id>, scores: map<Id, int>)
    requires l.Unpaid() && LiveMoney(RefundUncalled(l).contributed, live)
    ensures PayShowdown(l, live, scores).pool == 0
    ensures Total(PayShowdown(l, live, scores).chips) == l.InPlay()
    ensures l.chips.Keys <= PayShowdown(l, live, scores).chips.Keys
  {
    RefundKeepsLedger(l);
    PayPotsPaysOut(RefundUncalled(l), live, scores);
  }
}
