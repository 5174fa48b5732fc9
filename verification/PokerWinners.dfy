/** Whom a hand pays when it ends, and whom it announces. */
module PokerWinners {
  import opened Cards
  import opened Sums
  import opened HandEvaluator
  import opened PokerMoney
  import opened PokerPayout
  import opened PokerRules
  import opened PokerInvariant

  // ---- The showdown ----

  lemma DeadCollectNothing(m: map<Id, nat>, live: set<Id>, scores: map<Id, int>, id: Id)
    requires LiveMoney(m, live) && id !in live
    ensures Payout(SidePots(m, live), scores, id) == 0
  {
    NobodyWinsMoreThanTheyRisked(m, live, scores, id);
  }

  lemma ShowdownPaysEach(l: Ledger, live: set<Id>, scores: map<Id, int>, id: Id)
    requires l.Unpaid() && LiveMoney(RefundUncalled(l).contributed, live)
    ensures var back := RefundUncalled(l);
            && At(PayShowdown(l, live, scores).chips, id)
               == At(back.chips, id) + Payout(SidePots(back.contributed, live), scores, id)
            && (id !in live ==> At(PayShowdown(l, live, scores).chips, id) == At(back.chips, id))
  {
    var back := RefundUncalled(l);
    RefundKeepsLedger(l);
    AwardPaysEachPayout(back.chips, SidePots(back.contributed, live), scores, id);
    if id !in live {
      DeadCollectNothing(back.contributed, live, scores, id);
    }
  }

  /** Reads better than everybody else who contests the pot. */
  ghost predicate HoldsTheBestHand(t: Table, id: Id) {
    id in Live(t) && forall j | j in Live(t) && j != id :: HandScore(t, j) < HandScore(t, id)
  }

  lemma BestHandScores(t: Table, id: Id, scores: map<Id, int>)
    requires HoldsTheBestHand(t, id) && scores == HandScores(Contenders(t), t)
    ensures forall j | j in Live(t) && j != id :: ScoreOf(scores, j) < ScoreOf(scores, id)
  {
    assert forall j | j in Live(t) :: j in scores && scores[j] == HandScore(t, j);
  }

  /**
   A showdown gives the uncalled part back, then pays the best hand, however short, all that everybody put in up to
   its own contribution, with the dead money above it when nobody live put in more; whoever folded gets nothing.
   */
  lemma BestHandIsPaid(t: Table, id: Id)
    requires RunShowdown(t).Ok?
    ensures t.money.Unpaid() && LiveMoney(RefundUncalled(t.money).contributed, Live(t))
    ensures var r, back := RunShowdown(t).t, RefundUncalled(t.money);
            && (id !in Live(t) ==> Chips(r, id) == At(back.chips, id))
            && (HoldsTheBestHand(t, id) ==>
                  Chips(r, id) == At(back.chips, id) + FairCeiling(back.contributed, Live(t), id))
  {
    var back, scores := RefundUncalled(t.money), HandScores(Contenders(t), t);
    ShowdownPaysEach(t.money, Live(t), scores, id);
    if HoldsTheBestHand(t, id) {
      BestHandScores(t, id, scores);
      BestHandCollects(back.contributed, Live(t), scores, id);
    }
  }

  /** Further cards turned over, and nothing else. */
  ghost predicate BoardRanOut(t: Table, u: Table) {
    SameMatch(u, t) && u.money == t.money && u.hole == t.hole && t.board <= u.board && LastStreet(u.phase)
  }

  lemma StreetOnlyShows(t: Table, n: Table)
    requires AdvanceStreet(t) == Ok(n)
    ensures SameMatch(n, t) && n.money == t.money && n.hole == t.hole && t.board <= n.board
  {
  }

  lemma {:induction false} RunOutGoesOn(t: Table, n: Table)
    requires !LastStreet(t.phase) && AdvanceStreet(t) == Ok(n)
    ensures RunOutBoard(t) == RunOutBoard(n) && StreetsLeft(n.phase) < StreetsLeft(t.phase)
  {
  }

  lemma {:induction false} RunOutNeedsCards(t: Table)
    requires !LastStreet(t.phase) && RunOutBoard(t).Ok?
    ensures AdvanceStreet(t).Ok?
  {
  }

  lemma RunsOutFurther(t: Table, n: Table, u: Table)
    requires SameMatch(n, t) && n.money == t.money && n.hole == t.hole && t.board <= n.board && BoardRanOut(n, u)
    ensures BoardRanOut(t, u)
  {
  }

  /** A board run out is shown down with the stakes and the hole cards there were. */
  lemma {:induction false} RunOutShowsDown(t: Table) returns (u: Table)
    requires RunOutBoard(t).Ok?
    ensures BoardRanOut(t, u) && RunOutBoard(t) == RunShowdown(u)
    decreases StreetsLeft(t.phase)
  {
    if LastStreet(t.phase) {
      u := t;
    } else {
      RunOutNeedsCards(t);
      var n := AdvanceStreet(t).t;
      StreetOnlyShows(t, n);
      RunOutGoesOn(t, n);
      u := RunOutShowsDown(n);
      RunsOutFurther(t, n, u);
    }
  }

  /** The last player left takes the matched chips, and what they did not match goes back. */
  lemma {:induction false} LastOneIsPaid(t: Table, id: Id)
    requires |Contenders(t)| == 1 && WinUncontested(t).Ok?
    ensures var m, winner := t.money.contributed, Contenders(t)[0];
            var matched := At(m, winner);
            && Live(t) == {winner}
            && Chips(WinUncontested(t).t, id)
               == Chips(t, id) + if id == winner then Capped(m, matched) else At(m, id) - Min(At(m, id), matched)
  {
    UncontestedPaysTheMatched(t.money, Contenders(t)[0], id);
  }

  // ---- The list of winners ----

  /** Has the best hand of some pot's contestants. */
  ghost predicate WinsSome(pots: seq<Pot>, scores: map<Id, int>, id: Id) {
    exists i :: 0 <= i < |pots| && id in BestOf(pots[i].eligible, scores)
  }

  lemma DistinctJoin(a: seq<Id>, b: seq<Id>)
    requires Distinct(a) && Distinct(b) && forall x | x in b :: x !in a
    ensures Distinct(a + b)
  {
    forall i, j | 0 <= i < j < |a + b| ensures (a + b)[i] != (a + b)[j] {
      if i < |a| <= j {
        assert b[j - |a|] in b;
      }
    }
  }

  lemma AscendingIsDistinct(ids: seq<Id>)
    requires Ascending(ids)
    ensures Distinct(ids)
  {
  }

  lemma WinsSomeAppend(pots: seq<Pot>, scores: map<Id, int>, id: Id)
    requires pots != []
    ensures var last := |pots| - 1;
            WinsSome(pots, scores, id) <==> WinsSome(pots[..last], scores, id) || id in BestOf(pots[last].eligible, scores)
  {
    var last := |pots| - 1;
    if WinsSome(pots[..last], scores, id) {
      var i :| 0 <= i < last && id in BestOf(pots[..last][i].eligible, scores);
      assert pots[i] == pots[..last][i];
    }
    if WinsSome(pots, scores, id) {
      var i :| 0 <= i < |pots| && id in BestOf(pots[i].eligible, scores);
      assert i < last ==> pots[..last][i] == pots[i];
    }
  }

  lemma LastPotsWinners(pot: Pot, scores: map<Id, int>, before: seq<Id>, more: seq<Id>)
    requires Distinct(before)
    requires more == Keep(PotWinners(pot, scores), Elements(PotWinners(pot, scores)) - Elements(before))
    ensures Distinct(before + more)
    ensures forall id :: id in more <==> id in BestOf(pot.eligible, scores) && id !in before
  {
    var winners := PotWinners(pot, scores);
    assert Distinct(winners) by {
      SortedSetAscends(BestOf(pot.eligible, scores));
      AscendingIsDistinct(winners);
    }
    KeepIs(winners, Elements(winners) - Elements(before));
    assert forall id :: id in winners <==> id in Elements(winners);
    DistinctJoin(before, more);
  }

  /** The winners announced are everybody who took part of some pot, each once, those of the main pot first. */
  lemma {:induction false} WinnersAreAnnounced(pots: seq<Pot>, scores: map<Id, int>, n: nat)
    requires n <= |pots|
    ensures Distinct(AllWinners(pots, scores)) && AllWinners(pots[..n], scores) <= AllWinners(pots, scores)
    ensures forall id :: id in AllWinners(pots, scores) <==> WinsSome(pots, scores, id)
  {
    assert pots[..|pots|] == pots;
    if pots != [] {
      var last := |pots| - 1;
      var before := AllWinners(pots[..last], scores);
      WinnersAreAnnounced(pots[..last], scores, if n < |pots| then n else last);
      assert n < |pots| ==> pots[..last][..n] == pots[..n];
      var winners := PotWinners(pots[last], scores);
      LastPotsWinners(pots[last], scores, before, Keep(winners, Elements(winners) - Elements(before)));
      forall id ensures id in AllWinners(pots, scores) <==> WinsSome(pots, scores, id) {
        WinsSomeAppend(pots, scores, id);
      }
    }
  }
}
