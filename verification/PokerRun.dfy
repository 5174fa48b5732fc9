/** Safety, conservation and termination over whole poker matches. */
module PokerRun {
  import opened Cards
  import opened Options
  import opened Sums
  import opened PokerMoney
  import opened PokerRules
  import opened PokerCursor
  import opened PokerInvariant
  import opened PokerSteps
  import opened PokerMatch
  import opened PokerLeave

  /** A step that can happen: somebody seated leaves, or the seat on turn acts while a full deck is at hand. */
  ghost predicate Possible(t: Table, e: Event) {
    match e
    case Act(_, shuffled) => |shuffled| == 52
    case Leave(seat) => seat < |t.players|
  }

  ghost function Step(t: Table, e: Event): Game
    requires Valid(t) && Possible(t, e)
  {
    match e
    case Act(a, shuffled) => Submit(t, a, shuffled)
    case Leave(seat) => Remove(t, seat)
  }

  /**
   A finished match: all ten hands are played or at most one seated player has chips left, and it is paid out in
   full unless every seat walked out on a hand in progress.
   */
  ghost predicate Closed(t: Table, total: nat) {
    && t.money.InPlay() == total && t.handNumber <= HANDS_PER_MATCH
    && (t.handNumber == HANDS_PER_MATCH || |FundedSeats(t)| <= 1)
    && (t.players != [] ==> t.money.pool == 0)
  }

  /** What a step may lead to: another valid table with the same chips, or a properly closed match. */
  ghost predicate Sound(g: Game, total: nat) {
    match g
    case Crashed => false
    case Playing(t) => Valid(t) && t.startChips == total
    case Finished(t) => Closed(t, total)
  }

  lemma ReadyIsSound(s: Table, advance: bool)
    requires Ready(s)
    ensures Sound(if s.matchComplete then Finished(s) else Playing(ApplyNextTurn(s, advance)), s.startChips)
  {
    if !s.matchComplete {
      ReadyAdvances(s, advance);
    }
  }

  /** Whenever the next hand may be dealt, dealing it works. */
  lemma NextHandReady(t: Table, shuffled: seq<Card>)
    requires Between(t) && !t.matchComplete && |shuffled| == 52
    ensures t.dealer < |t.players|
    ensures var o := NextDeal(t, shuffled);
            && o.Ok? && Ready(o.t) && o.t.startChips == t.startChips
            && o.t.players == t.players && o.t.left == t.left
            && o.t.handNumber == t.handNumber + 1 && o.t.handsTotal == t.handsTotal
  {
    DealerCanOpen(t, shuffled);
    HandOpens(t, NextFundedSeat(t, t.dealer), shuffled);
  }

  /** The hand dealt by the next funded seat. */
  ghost function NextDeal(t: Table, shuffled: seq<Card>): Outcome
    requires t.dealer < |t.players|
  {
    BeginHandOrFinish(t, NextFundedSeat(t, t.dealer), shuffled)
  }

  lemma NextHandDeals(t: Table, a: Action, shuffled: seq<Card>)
    requires t.turn < |t.players| && t.dealer < |t.players| && a.NextHand?
    ensures ApplyAction(t, a) == t && AfterAction(t, a, shuffled) == NextDeal(t, shuffled)
  {
  }

  lemma DealerCanOpen(t: Table, shuffled: seq<Card>)
    requires Between(t) && !t.matchComplete && |shuffled| == 52
    ensures CanOpen(t, NextFundedSeat(t, t.dealer), shuffled)
    ensures Total(t.money.chips) == t.startChips && t.dealer < |t.players|
  {
    NextFundedIsAnother(t, t.dealer);
  }

  /** What an accepted action comes to once its consequences are settled. */
  lemma SubmitIs(t: Table, a: Action, shuffled: seq<Card>, o: Outcome)
    requires t.turn < |t.players| && (t.handComplete || At(t.bets, t.players[t.turn]) <= t.currentBet)
    requires ValidateAction(t, a) && AfterAction(ApplyAction(t, a), a, shuffled) == o && o.Ok?
    ensures Submit(t, a, shuffled)
         == if o.t.matchComplete then Finished(o.t) else Playing(ApplyNextTurn(o.t, true))
  {
  }

  /** What follows an accepted action is never an error or a crash. */
  lemma ActReady(t: Table, a: Action, shuffled: seq<Card>)
    requires Valid(t) && |shuffled| == 52 && ValidateAction(t, a)
    ensures ApplyAction(t, a).left == t.left
    ensures var o := AfterAction(ApplyAction(t, a), a, shuffled);
            o.Ok? && Ready(o.t) && o.t.startChips == t.startChips && o.t.players == t.players && o.t.left == t.left
  {
    if a.NextHand? {
      NextHandReady(t, shuffled);
      NextHandDeals(t, a, shuffled);
    } else {
      ActionActs(t, a);
      AfterBettingReady(t, ApplyAction(t, a));
    }
  }

  lemma ActSound(t: Table, a: Action, shuffled: seq<Card>)
    requires Valid(t) && |shuffled| == 52
    ensures Sound(Submit(t, a, shuffled), t.startChips)
  {
    if ValidateAction(t, a) {
      ActReady(t, a, shuffled);
      var o := AfterAction(ApplyAction(t, a), a, shuffled);
      SubmitIs(t, a, shuffled, o);
      ReadyIsSound(o.t, true);
    }
  }

  lemma LastSeatLeaves(t: Table, seat: nat)
    requires Valid(t) && seat < |t.players| && |t.players| == 1
    ensures Remove(t, seat).Finished? && Closed(Remove(t, seat).t, t.startChips)
  {
    assert |DropAt(t.players, seat)| == 0;
  }

  lemma LeaveSound(t: Table, seat: nat)
    requires Valid(t) && seat < |t.players|
    ensures Sound(Remove(t, seat), t.startChips)
  {
    if |t.players| == 1 {
      LastSeatLeaves(t, seat);
    } else {
      if t.handComplete {
        LeaveBetweenHands(t, seat);
      } else {
        LeaveMidHand(t, seat);
      }
      var s := AfterPlayerRemoved(Emptied(t, seat), seat).t;
      ReadyIsSound(s, false);
    }
  }

  /** No step from a valid table crashes or breaks: it stays valid, or the match is over, and no chip is made or lost. */
  lemma StepIsSound(t: Table, e: Event)
    requires Valid(t) && Possible(t, e)
    ensures Sound(Step(t, e), t.startChips)
  {
    match e
    case Act(a, shuffled) => ActSound(t, a, shuffled);
    case Leave(seat) => LeaveSound(t, seat);
  }

  lemma BlankCanOpen(players: seq<Id>, left: seq<Id>, button: nat, shuffled: seq<Card>)
    requires Distinct(players + left) && 2 <= |players| <= MAX_PLAYERS && button < |players| && |shuffled| == 52
    ensures CanOpen(Blank(players, left, button), button, shuffled)
  {
    var t := Blank(players, left, button);
    assert 0 in FundedSeats(t) && 1 in FundedSeats(t);
    SubsetSize({0, 1}, FundedSeats(t));
  }

  /** The opening hand is dealt, whoever walked out before it was, and somebody has to act in it. */
  lemma OpeningIsReady(players: seq<Id>, left: seq<Id>, button: nat, shuffled: seq<Card>)
    requires Distinct(players + left) && 2 <= |players| <= MAX_PLAYERS && button < |players| && |shuffled| == 52
    ensures var o := BeginHandOrFinish(Blank(players, left, button), button, shuffled);
            && o.Ok? && Ready(o.t) && !o.t.matchComplete && o.t.startChips == Total(Stakes(players))
            && o.t.players == players && o.t.left == left
  {
    var t := Blank(players, left, button);
    BlankCanOpen(players, left, button, shuffled);
    HandOpens(t, button, shuffled);
    NotOverAtOnce(t, button, shuffled);
  }

  lemma StartIsSound(players: seq<Id>, button: nat, shuffled: seq<Card>)
    requires Distinct(players) && 2 <= |players| <= MAX_PLAYERS && button < |players| && |shuffled| == 52
    ensures Start(players, button, shuffled).Playing?
    ensures Sound(Start(players, button, shuffled), Total(Stakes(players)))
  {
    assert players + [] == players;
    OpeningIsReady(players, [], button, shuffled);
    ReadyAdvances(BeginHandOrFinish(Blank(players, [], button), button, shuffled).t, false);
  }

  /** The opening hand is dealt to full stacks, so somebody can act. */
  lemma NotOverAtOnce(t: Table, button: nat, shuffled: seq<Card>)
    requires CanOpen(t, button, shuffled)
    requires forall id | id in t.players :: Chips(t, id) > t.bigBlind
    ensures var o := BeginHandOrFinish(t, button, shuffled);
            o.Ok? && !o.t.matchComplete
  {
    DealOpens(t, button, shuffled);
    var d := DealHand(t, shuffled).t;
    BigBlindOwes(d, button);
    OpensOnASeat(PostBlinds(d, button), |FundedSeats(d)| == 2);
  }

  lemma BigBlindOwes(d: Table, button: nat)
    requires Opened(d) && button < |d.players| && Chips(d, d.players[button]) > 0 && |FundedSeats(d)| >= 2
    requires forall id | id in d.players :: Chips(d, id) > d.bigBlind
    ensures var p := PostBlinds(d, button); p.bb < |p.players| && OwesSeat(p, p.bb) && !p.matchComplete && !p.handComplete
  {
    BlindsKeep(d, button);
    BlindSeats(d, button);
    var p := PostBlinds(d, button);
    assert Chips(p, p.players[p.bb]) > 0;
    assert CanAct(p, p.bb);
  }

  lemma OpensOnASeat(p: Table, headsUp: bool)
    requires p.bb < |p.players| && p.dealer < |p.players| && OwesSeat(p, p.bb) && !p.matchComplete && !p.handComplete
    ensures var o := CloseIfComplete(OpenBetting(p, FirstToActPreflop(p, headsUp))); o.Ok? && !o.t.matchComplete
  {
    assert p.bb in OwingSeats(p);
    if NextToAct(p, p.bb) < 0 {
      NoneOwe(p, p.bb);
    }
  }

  /** The seat on turn always has a move, and the automatic one is accepted. */
  lemma TimeoutIsAccepted(t: Table)
    requires Valid(t)
    ensures TimeoutAction(t).Some? && ValidateAction(t, TimeoutAction(t).value)
  {
  }

  /** Playing for an absent player moves no chip of theirs: a check when that is free, a fold when it is not. */
  lemma TimeoutRisksNothing(t: Table)
    requires Betting(t)
    ensures TimeoutAction(t).Some? && ApplyAction(t, TimeoutAction(t).value).money == t.money
    ensures TimeoutAction(t).value == if At(t.bets, t.players[t.turn]) == t.currentBet then Check else Fold
  {
  }

  // ---- Runs ----

  /** Events applied in order until the match is over, or until one comes that cannot happen. */
  ghost function Run(g: Game, events: seq<Event>): Game
    requires g.Playing? ==> Valid(g.t)
    decreases |events|
  {
    if events == [] || !g.Playing? || !Possible(g.t, events[0]) then g
    else
      StepIsSound(g.t, events[0]);
      Run(Step(g.t, events[0]), events[1..])
  }

  lemma {:induction false} RunIsSound(g: Game, events: seq<Event>, total: nat)
    requires Sound(g, total)
    ensures Sound(Run(g, events), total)
    decreases |events|
  {
    if events != [] && g.Playing? && Possible(g.t, events[0]) {
      StepIsSound(g.t, events[0]);
      RunIsSound(Step(g.t, events[0]), events[1..], total);
    }
  }

  /** Over any actions, timeouts and leaves in any order: no crash, every chip accounted for, and no eleventh hand. */
  lemma MatchIsSound(players: seq<Id>, button: nat, shuffled: seq<Card>, events: seq<Event>)
    requires Distinct(players) && 2 <= |players| <= MAX_PLAYERS && button < |players| && |shuffled| == 52
    ensures Start(players, button, shuffled).Playing? && Valid(Start(players, button, shuffled).t)
    ensures var end := Run(Start(players, button, shuffled), events);
            Sound(end, Total(Stakes(players))) && !end.Crashed? && end.t.handNumber <= HANDS_PER_MATCH
  {
    StartIsSound(players, button, shuffled);
    RunIsSound(Start(players, button, shuffled), events, Total(Stakes(players)));
  }

  // ---- Termination ----

  function SeatChips(ids: seq<Id>, chips: map<Id, nat>): nat {
    if ids == [] then 0 else At(chips, ids[0]) + SeatChips(ids[1..], chips)
  }

  lemma {:induction false} SpendingLowers(ids: seq<Id>, chips: map<Id, nat>, id: Id, left: nat)
    requires Distinct(ids) && left < At(chips, id)
    ensures SeatChips(ids, chips[id := left]) <= SeatChips(ids, chips)
    ensures id in ids ==> SeatChips(ids, chips[id := left]) < SeatChips(ids, chips)
  {
    if ids != [] {
      assert ids == [ids[0]] + ids[1..];
      SpendingLowers(ids[1..], chips, id, left);
    }
  }

  /** Seats, hands left, streets left, chips behind the seats, seats owing. */
  datatype Rank = Rank(seats: nat, hands: int, streets: nat, behind: nat, owing: nat)

  function RankOf(t: Table): Rank {
    Rank(|t.players|, t.handsTotal - t.handNumber, if t.handComplete then 0 else StreetsLeft(t.phase),
         SeatChips(t.players, t.money.chips), |OwingSeats(t)|)
  }

  predicate Lower(a: Rank, b: Rank) {
    if a.seats != b.seats then a.seats < b.seats
    else if a.hands != b.hands then 0 <= a.hands < b.hands
    else if a.streets != b.streets then a.streets < b.streets
    else if a.behind != b.behind then a.behind < b.behind
    else a.owing < b.owing
  }

  /** Spending chips, or acting for free, brings the seat on turn's round closer to its end. */
  lemma ActingLowers(t: Table, a: Action)
    requires Betting(t) && !a.NextHand? && ValidateAction(t, a)
    ensures Closer(t, ApplyAction(t, a))
  {
    match a
    case Call =>
      CallActs(t);
      PayingLowers(t, ApplyAction(t, a), Moves(t, a));
    case RaiseTo(amount) =>
      RaiseToActs(t, amount);
      PayingLowers(t, ApplyAction(t, a), Moves(t, a));
    case AllIn =>
      AllInActs(t);
      PayingLowers(t, ApplyAction(t, a), Moves(t, a));
    case Fold => FreeActionLowers(t, ApplyAction(t, a));
    case Check => FreeActionLowers(t, ApplyAction(t, a));
    case NextHand =>
  }

  ghost predicate Closer(t: Table, r: Table) {
    || SeatChips(r.players, r.money.chips) < SeatChips(t.players, t.money.chips)
    || (SeatChips(r.players, r.money.chips) == SeatChips(t.players, t.money.chips)
        && |OwingSeats(r)| < |OwingSeats(t)|)
  }

  lemma PayingLowers(t: Table, r: Table, amount: nat)
    requires Distinct(t.players + t.left) && PutMore(t, r, amount) && amount > 0
    ensures Closer(t, r)
  {
    SplitDistinct(t.players, t.left);
    SpendingLowers(t.players, t.money.chips, t.players[t.turn], Chips(t, t.players[t.turn]) - amount);
  }

  lemma FreeActionLowers(t: Table, r: Table)
    requires Betting(t) && (r == ApplyAction(t, Fold) || (r == ApplyAction(t, Check) && ValidateAction(t, Check)))
    ensures Closer(t, r)
  {
    if r == ApplyAction(t, Fold) {
      FoldActs(t);
    } else {
      CheckActs(t);
    }
    OthersDiffer(t);
    assert OwingSeats(r) <= OwingSeats(t) - {t.turn};
    SubsetSize(OwingSeats(r), OwingSeats(t) - {t.turn});
  }

  /** Every accepted step strictly lowers the rank, so no match goes on for ever. */
  lemma StepDescends(t: Table, e: Event)
    requires Valid(t) && Possible(t, e)
    requires e.Act? ==> ValidateAction(t, e.a)
    ensures Step(t, e).Playing? ==> Lower(RankOf(Step(t, e).t), RankOf(t))
  {
    StepIsSound(t, e);
    match e
    case Leave(seat) => LeaveDescends(t, seat);
    case Act(a, shuffled) =>
      if a.NextHand? {
        NextHandDescends(t, a, shuffled);
      } else {
        BettingDescends(t, a, shuffled);
      }
  }

  lemma LeaveDescends(t: Table, seat: nat)
    requires Valid(t) && seat < |t.players|
    ensures Remove(t, seat).Playing? ==> |Remove(t, seat).t.players| < |t.players|
  {
    if |t.players| == 1 {
      LastSeatLeaves(t, seat);
    } else if t.handComplete {
      LeaveBetweenHands(t, seat);
    } else {
      LeaveMidHand(t, seat);
    }
  }

  lemma NextHandDescends(t: Table, a: Action, shuffled: seq<Card>)
    requires Between(t) && !t.matchComplete && t.next.None? && |shuffled| == 52 && a.NextHand? && ValidateAction(t, a)
    ensures var g := Submit(t, a, shuffled);
            g.Playing? ==> |g.t.players| == |t.players| && g.t.handNumber == t.handNumber + 1
                           && g.t.handsTotal == t.handsTotal
  {
    NextHandReady(t, shuffled);
    NextHandDeals(t, a, shuffled);
    SubmitKeepsCount(t, a, shuffled, NextDeal(t, shuffled));
  }

  lemma SubmitKeepsCount(t: Table, a: Action, shuffled: seq<Card>, o: Outcome)
    requires t.turn < |t.players| && (t.handComplete || At(t.bets, t.players[t.turn]) <= t.currentBet)
    requires ValidateAction(t, a) && AfterAction(ApplyAction(t, a), a, shuffled) == o && o.Ok?
    ensures var g := Submit(t, a, shuffled);
            !g.Crashed? && g.t.players == o.t.players && g.t.handNumber == o.t.handNumber
            && g.t.handsTotal == o.t.handsTotal
  {
    SubmitIs(t, a, shuffled, o);
  }

  lemma BettingDescends(t: Table, a: Action, shuffled: seq<Card>)
    requires Betting(t) && t.next.None? && !a.NextHand? && ValidateAction(t, a)
    ensures var g := Submit(t, a, shuffled);
            g.Playing? ==> Lower(RankOf(g.t), RankOf(t))
  {
    var r := ApplyAction(t, a);
    ActionActs(t, a);
    AfterBettingReady(t, r);
    ActingLowers(t, a);
    RoundMoves(t, r);
    SubmitIs(t, a, shuffled, AfterBettingAction(r));
    var s := AfterBettingAction(r).t;
    if !s.matchComplete {
      AdvancingKeepsRank(s);
      RoundLowers(t, r, s);
    }
  }

  lemma AdvancingKeepsRank(s: Table)
    requires Ready(s) && !s.matchComplete
    ensures RankOf(ApplyNextTurn(s, true)) == RankOf(s)
  {
    ReadyAdvances(s, true);
    assert OwingSeats(ApplyNextTurn(s, true)) == OwingSeats(s);
  }

  lemma RoundLowers(t: Table, r: Table, s: Table)
    requires Betting(t) && ActedWell(t, r) && Closer(t, r)
    requires s.players == r.players && s.handNumber == r.handNumber && s.handsTotal == r.handsTotal
    requires s.handComplete || StreetsLeft(s.phase) < StreetsLeft(r.phase)
             || (s.phase == r.phase && s.money == r.money && OwingSeats(s) == OwingSeats(r))
    ensures Lower(RankOf(s), RankOf(t))
  {
  }

  /** After a betting action the hand is over, on a later street, or exactly as the action left it. */
  lemma RoundMoves(t: Table, r: Table)
    requires Betting(t) && ActedWell(t, r)
    ensures var o := AfterBettingAction(r);
            && o.Ok? && o.t.players == r.players && o.t.handNumber == r.handNumber && o.t.handsTotal == r.handsTotal
            && (o.t.handComplete || StreetsLeft(o.t.phase) < StreetsLeft(r.phase)
                || (o.t.phase == r.phase && o.t.money == r.money && OwingSeats(o.t) == OwingSeats(r)))
  {
    if |Contenders(r)| == 1 {
      UncontestedCloses(r);
    } else if !BettingRoundComplete(r) {
      CursorMoves(r, r.turn);
    } else {
      SettleKeeps(r);
      if SettleAndAdvance(r).t.handComplete {
        FinishHandCloses(SettleAndAdvance(r).t);
      }
    }
  }
}
