/** What an action moves, and how a hand that is over has been paid, whoever ended it by acting or by leaving. */
module PokerEndings {
  import opened Cards
  import opened Options
  import opened Sums
  import opened HandEvaluator
  import opened PokerMoney
  import opened PokerRules
  import opened PokerCursor
  import opened PokerInvariant
  import opened PokerSteps
  import opened PokerMatch
  import opened PokerLeave
  import opened PokerRun
  import opened PokerPayout
  import opened PokerWinners
  import opened PokerSeats

  // ---- What an action moves ----

  /** Chips go from the actor's stack to their bet, contribution and the pool, and the bet to match rises to theirs. */
  ghost predicate ChipsMove(t: Table, r: Table, id: Id, amount: nat) {
    && amount <= Chips(t, id) && r.money.pool == t.money.pool + amount
    && (forall x :: Chips(r, x) == Chips(t, x) - (if x == id then amount else 0)
                    && At(r.bets, x) == At(t.bets, x) + (if x == id then amount else 0)
                    && At(r.money.contributed, x) == At(t.money.contributed, x) + if x == id then amount else 0)
    && r.currentBet == Max(t.currentBet, At(r.bets, id))
    && r.allIn == if amount > 0 && Chips(r, id) == 0 then t.allIn + {id} else t.allIn
  }

  /** Nothing else on the table moves. */
  ghost predicate OnlyChipsMove(t: Table, r: Table) {
    && r.players == t.players && r.left == t.left && r.turn == t.turn && r.dealer == t.dealer
    && r.hole == t.hole && r.board == t.board && r.deck == t.deck && r.phase == t.phase
    && r.handComplete == t.handComplete && r.handNumber == t.handNumber
  }

  lemma CommitStakes(t: Table, total: nat, amount: nat)
    requires t.turn < |t.players| && At(t.bets, t.players[t.turn]) <= total <= t.currentBet
    requires amount == Min(total - At(t.bets, t.players[t.turn]), Chips(t, t.players[t.turn])) > 0
    ensures var r := MarkActed(CommitTo(t, t.players[t.turn], total), t.players[t.turn]);
            ChipsMove(t, r, t.players[t.turn], amount) && OnlyChipsMove(t, r) && r.folded == t.folded
  {
  }

  lemma RaiseStakes(t: Table, total: nat, amount: nat)
    requires t.turn < |t.players| && At(t.bets, t.players[t.turn]) <= t.currentBet < total
    requires amount == total - At(t.bets, t.players[t.turn]) <= Chips(t, t.players[t.turn])
    ensures var r := MarkActed(Raise(t, t.players[t.turn], total), t.players[t.turn]);
            ChipsMove(t, r, t.players[t.turn], amount) && OnlyChipsMove(t, r) && r.folded == t.folded
  {
    var id := t.players[t.turn];
    RaisePutsMore(t, total);
    var paid := PutIn(t, id, amount);
    assert CommitTo(t, id, total) == paid;
    BetIncreaseIs(paid, id, total);
  }

  lemma FreeStakes(t: Table, a: Action)
    requires t.turn < |t.players| && (a.Fold? || a.Check?) && At(t.bets, t.players[t.turn]) <= t.currentBet
    ensures var r := ApplyAction(t, a);
            && ChipsMove(t, r, t.players[t.turn], 0) && OnlyChipsMove(t, r)
            && r.folded == if a.Fold? then t.folded + {t.players[t.turn]} else t.folded
  {
  }

  /** A fold or a check moves nothing, a call what is missing or the stack, a raise what it names, all-in everything. */
  lemma ActionMovesChips(t: Table, a: Action)
    requires Betting(t) && !a.NextHand? && ValidateAction(t, a)
    ensures var r, id := ApplyAction(t, a), t.players[t.turn];
            && ChipsMove(t, r, id, Moves(t, a)) && OnlyChipsMove(t, r)
            && r.folded == if a.Fold? then t.folded + {id} else t.folded
  {
    var id := t.players[t.turn];
    var shove := At(t.bets, id) + Chips(t, id);
    assert CanAct(t, t.turn);
    match a
    case Fold => FreeStakes(t, a);
    case Check => FreeStakes(t, a);
    case Call => CommitStakes(t, t.currentBet, Moves(t, a));
    case RaiseTo(amount) =>
      RaiseToIs(t, amount);
      RaiseStakes(t, amount, Moves(t, a));
    case AllIn =>
      AllInIs(t);
      if shove > t.currentBet {
        RaiseStakes(t, shove, Moves(t, a));
      } else {
        CommitStakes(t, shove, Moves(t, a));
      }
    case NextHand =>
  }

  // ---- How a hand over has been paid ----

  /** By the hands shown: folded players have their uncalled part back, the best hand that and its whole ceiling. */
  ghost predicate PaidAtShowdown(shown: Table, u: Table) {
    && u.board == shown.board && u.reachedShowdown
    && var back := RefundUncalled(shown.money);
       forall id ::
         && (id !in Live(shown) ==> Chips(u, id) == At(back.chips, id))
         && (HoldsTheBestHand(shown, id) ==>
               Chips(u, id) == At(back.chips, id) + FairCeiling(back.contributed, Live(shown), id))
  }

  /** To the last contender: what was matched; to everybody else what that contender did not match. */
  ghost predicate PaidUncontested(r: Table, u: Table) {
    && |Contenders(r)| == 1
    && var winner := Contenders(r)[0];
       var matched := At(r.money.contributed, winner);
       u.winners == [winner]
       && forall id ::
            Chips(u, id) == Chips(r, id) + if id == winner then Capped(r.money.contributed, matched)
                                           else At(r.money.contributed, id) - Min(At(r.money.contributed, id), matched)
  }

  /** The same players contest the same stakes with the same hole cards, over a board run out to its end. */
  ghost predicate ShownFrom(r: Table, shown: Table) {
    && Contenders(shown) == Contenders(r) && shown.money == r.money && shown.hole == r.hole
    && r.board <= shown.board && LastStreet(shown.phase)
  }

  ghost predicate PaidOff(r: Table, u: Table) {
    if |Contenders(r)| == 1 then PaidUncontested(r, u)
    else exists shown :: ShownFrom(r, shown) && PaidAtShowdown(shown, u)
  }

  lemma ShowdownPaysOff(shown: Table, u: Table)
    requires RunShowdown(shown) == Ok(u)
    ensures PaidAtShowdown(shown, u)
  {
    forall id ensures var back := RefundUncalled(shown.money);
                      && (id !in Live(shown) ==> Chips(u, id) == At(back.chips, id))
                      && (HoldsTheBestHand(shown, id) ==>
                            Chips(u, id) == At(back.chips, id) + FairCeiling(back.contributed, Live(shown), id))
    {
      BestHandIsPaid(shown, id);
    }
    assert u.board == shown.board && u.reachedShowdown;
  }

  lemma {:induction false} LastStreetShowsDown(t: Table, c: Table)
    requires c == ClearStreet(t) && LastStreet(c.phase)
    ensures SettleAndAdvance(t) == RunShowdown(c)
  {
  }

  lemma {:induction false} EarlyEndRunsOut(t: Table, c: Table)
    requires c == ClearStreet(t) && !LastStreet(c.phase) && !t.handComplete
    requires SettleAndAdvance(t).Ok? && SettleAndAdvance(t).t.handComplete
    ensures AdvanceStreet(c).Ok? && SettleAndAdvance(t) == RunOutBoard(AdvanceStreet(c).t)
  {
  }

  lemma ShownIs(r: Table, c: Table, shown: Table)
    requires Distinct(r.players + r.left) && SameMatch(c, r) && c.money == r.money && c.hole == r.hole
    requires r.board <= c.board && BoardRanOut(c, shown)
    ensures ShownFrom(r, shown)
  {
    SameContenders(r, shown);
  }

  /** A round that ends the hand ends it by a showdown for the stakes there were. */
  lemma {:induction false} SettledShowsDown(r: Table, o: Outcome) returns (shown: Table)
    requires Distinct(r.players + r.left) && !r.handComplete && o == SettleAndAdvance(r) && o.Ok? && o.t.handComplete
    ensures ShownFrom(r, shown) && RunShowdown(shown) == o
  {
    var c := ClearStreet(r);
    if LastStreet(c.phase) {
      shown := c;
      LastStreetShowsDown(r, c);
    } else {
      EarlyEndRunsOut(r, c);
      var n := AdvanceStreet(c).t;
      shown := RunOutShowsDown(n);
      StreetOnlyShows(c, n);
      RunsOutFurther(c, n, shown);
    }
    ShownIs(r, c, shown);
  }

  lemma ClosingKeepsPay(shown: Table, s: Table, u: Table)
    requires PaidAtShowdown(shown, s) && u.money == s.money && u.board == s.board && u.reachedShowdown == s.reachedShowdown
    ensures PaidAtShowdown(shown, u)
  {
  }

  /** A round that ends the hand pays it off. */
  lemma {:induction false} SettlingPaysOff(r: Table, o: Outcome, u: Table)
    requires Distinct(r.players + r.left) && !r.handComplete && |Contenders(r)| >= 2
    requires o == SettleAndAdvance(r) && o.Ok? && o.t.handComplete
    requires u.money == o.t.money && u.board == o.t.board && u.reachedShowdown == o.t.reachedShowdown
    ensures PaidOff(r, u)
  {
    var shown := SettledShowsDown(r, o);
    ShowdownPaysOff(shown, o.t);
    ClosingKeepsPay(shown, o.t, u);
  }

  lemma {:induction false} FoldingPaysOff(r: Table, u: Table)
    requires |Contenders(r)| == 1 && WinUncontested(r) == Ok(u)
    ensures PaidOff(r, u)
  {
    forall id ensures var m, winner := r.money.contributed, Contenders(r)[0];
                      Chips(u, id) == Chips(r, id) + if id == winner then Capped(m, At(m, winner))
                                                     else At(m, id) - Min(At(m, id), At(m, winner))
    {
      LastOneIsPaid(r, id);
    }
  }

  lemma EndedIs(r: Table)
    requires Dealt(r) && r.turn < |r.players| && |Contenders(r)| >= 2 && BettingRoundComplete(r)
    requires AfterBettingAction(r).Ok? && AfterBettingAction(r).t.handComplete
    ensures SettleAndAdvance(r).Ok? && SettleAndAdvance(r).t.handComplete
    ensures AfterBettingAction(r).t == FinishHand(SettleAndAdvance(r).t)
  {
    SettleKeeps(r);
  }

  /** However an action ends a hand, the hand has been paid off. */
  lemma AfterBettingPaysOff(r: Table)
    requires Dealt(r) && r.turn < |r.players| && !OwesSeat(r, r.turn) && Prefix(r, r.turn, 1) && |Contenders(r)| >= 1
    requires AfterBettingAction(r).Ok? && AfterBettingAction(r).t.handComplete
    ensures PaidOff(r, AfterBettingAction(r).t)
  {
    if |Contenders(r)| == 1 {
      UncontestedCloses(r);
      FoldingPaysOff(r, AfterBettingAction(r).t);
    } else {
      HandEndsWhenDecided(r);
      EndedIs(r);
      SettlingPaysOff(r, SettleAndAdvance(r), AfterBettingAction(r).t);
    }
  }

  lemma SamePay(r: Table, s: Table, u: Table)
    requires PaidOff(r, s) && u == s.(turn := u.turn, next := u.next)
    ensures PaidOff(r, u)
  {
    if |Contenders(r)| != 1 {
      var shown :| ShownFrom(r, shown) && PaidAtShowdown(shown, s);
      ClosingKeepsPay(shown, s, u);
    }
  }

  /** A hand that an action ends pays every chip as the cards and the stakes of that moment say. */
  lemma ActionPaysOff(t: Table, a: Action, shuffled: seq<Card>)
    requires Valid(t) && !t.handComplete && !a.NextHand? && ValidateAction(t, a) && |shuffled| == 52
    ensures var r, g := ApplyAction(t, a), Submit(t, a, shuffled);
            && !g.Crashed? && (g.t.handComplete <==> Decided(r))
            && (g.t.handComplete ==> PaidOff(r, g.t))
  {
    var r := ApplyAction(t, a);
    ActionActs(t, a);
    AfterBettingReady(t, r);
    HandEndsWhenDecided(r);
    var o := AfterBettingAction(r);
    SubmitIs(t, a, shuffled, o);
    if o.t.handComplete {
      AfterBettingPaysOff(r);
      if !o.t.matchComplete {
        SamePay(r, o.t, ApplyNextTurn(o.t, true));
      }
    }
  }

  // ---- Leaving a hand ----

  /** What is left of a hand once somebody has gone: over and paid off, on to the next street, or still in the round. */
  ghost predicate GoesOn(s: Table, u: Table) {
    && (u.handComplete <==> Decided(s)) && (u.handComplete ==> PaidOff(s, u))
    && (!u.handComplete && OwingSeats(s) == {} ==> StreetOpensInOrder(s, u))
    && (!u.handComplete && OwingSeats(s) != {} ==> u.phase == s.phase && u.board == s.board && u.money == s.money)
  }

  lemma ShiftedIs(s: Table, r: Outcome, o: Outcome)
    requires |Contenders(s)| != 1 && BettingRoundComplete(s) && r == SettleAndAdvance(s) && r.Ok?
    requires o == AfterSeatsShift(s)
    ensures o == Ok(if r.t.handComplete then FinishHand(r.t)
                    else r.t.(turn := FirstToActPostflop(r.t), next := Some(FirstToActPostflop(r.t))))
  {
  }

  lemma RoundEndsByLeaving(s: Table, o: Outcome)
    requires Dealt(s) && |Contenders(s)| >= 2 && BettingRoundComplete(s) && o == AfterSeatsShift(s)
    ensures o.Ok? && GoesOn(s, o.t)
  {
    var r := SettleAndAdvance(s);
    SettleKeeps(s);
    SettlingEnds(s, r);
    ShiftedIs(s, r, o);
    if r.t.handComplete {
      SettlingPaysOff(s, r, o.t);
    } else {
      SettlingTurnsOver(s, r);
      StreetGoesOn(s, r.t, FirstToActPostflop(r.t), r.t.(turn := FirstToActPostflop(r.t), next := None));
      OnSameStreet(s, r.t.(turn := FirstToActPostflop(r.t), next := None), o.t);
    }
  }

  lemma OnSameStreet(s: Table, u: Table, v: Table)
    requires StreetOpensInOrder(s, u) && v == u.(next := v.next)
    ensures StreetOpensInOrder(s, v)
  {
    assert ActingSeats(v) == ActingSeats(u);
  }

  lemma SeatsShiftGoesOn(s: Table, o: Outcome)
    requires Dealt(s) && |Contenders(s)| >= 1 && o == AfterSeatsShift(s) && o.Ok?
    ensures GoesOn(s, o.t)
  {
    if |Contenders(s)| == 1 {
      UncontestedCloses(s);
      FoldingPaysOff(s, o.t);
    } else if BettingRoundComplete(s) {
      RoundEndsByLeaving(s, o);
    } else {
      assert o == KeepTurn(s);
    }
  }

  lemma CursorGoesOn(s: Table, v: Table, u: Table)
    requires GoesOn(s, v) && u == v.(next := u.next, turn := u.turn) && (!v.handComplete ==> u.turn == v.turn)
    ensures GoesOn(s, u)
  {
    if v.handComplete {
      SamePay(s, v, u);
    } else if OwingSeats(s) == {} {
      OnSameStreet(s, v, u);
    }
  }

  lemma LeftIs(t: Table, seat: nat, s: Table)
    requires Betting(t) && seat < |t.players| && |t.players| > 1 && s == Remarked(Emptied(t, seat), seat)
    ensures AfterPlayerRemoved(Emptied(t, seat), seat) == AfterSeatsShift(s)
  {
    RemarkedHand(t, seat);
  }

  /**
   Somebody leaving a hand folds, unless all-in; if that leaves nothing to decide the hand is paid off, if it closes the
   round the next street opens, and else the round goes on.
   */
  lemma LeavingGoesOn(t: Table, seat: nat)
    requires Betting(t) && t.next.None? && seat < |t.players| && |t.players| > 1
    ensures var s, g := Remarked(Emptied(t, seat), seat), Remove(t, seat);
            && Live(s) == (if t.players[seat] in t.allIn then Live(t) else Live(t) - {t.players[seat]})
            && s.money == t.money && !g.Crashed? && GoesOn(s, g.t)
  {
    var s := Remarked(Emptied(t, seat), seat);
    WhoStays(t, seat, s);
    RemarkedHand(t, seat);
    LeaveMidHand(t, seat);
    LeftIs(t, seat, s);
    LeaveParks(s, AfterSeatsShift(s));
    SeatsShiftGoesOn(s, AfterSeatsShift(s));
    LeaveEndsWell(t, seat, s, AfterSeatsShift(s));
  }

  lemma WhoStays(t: Table, seat: nat, s: Table)
    requires Distinct(t.players + t.left) && seat < |t.players| && !t.handComplete
    requires s == Remarked(Emptied(t, seat), seat)
    ensures Live(s) == if t.players[seat] in t.allIn then Live(t) else Live(t) - {t.players[seat]}
    ensures s.money == t.money
  {
    AllInLeaversStayIn(t, seat);
    SeatsShift(t, seat);
    SameContenders(Emptied(t, seat), s);
  }

  lemma LeaveParks(s: Table, o: Outcome)
    requires Dealt(s) && |Contenders(s)| >= 1 && o == AfterSeatsShift(s) && o.Ok?
    ensures o.t.handComplete || o.t.next == Some(o.t.turn)
  {
    if |Contenders(s)| == 1 {
      UncontestedCloses(s);
    } else if BettingRoundComplete(s) {
      SettleKeeps(s);
      ShiftedIs(s, SettleAndAdvance(s), o);
    } else {
      assert o == KeepTurn(s);
    }
  }

  lemma LeaveEndsWell(t: Table, seat: nat, s: Table, o: Outcome)
    requires seat < |t.players| && o == AfterPlayerRemoved(Emptied(t, seat), seat) && o.Ok? && Ready(o.t)
    requires GoesOn(s, o.t) && (!o.t.handComplete ==> o.t.next == Some(o.t.turn))
    ensures !Remove(t, seat).Crashed? && GoesOn(s, Remove(t, seat).t)
  {
    RemoveIs(t, seat, o);
    if Remove(t, seat).Playing? {
      ReadyAdvances(o.t, false);
      CursorGoesOn(s, o.t, ApplyNextTurn(o.t, false));
    }
  }
}
