/** The scores a poker showdown pays by are best-five scores of cards that were dealt off one deck. */
module PokerShowdown {
  import opened Cards
  import opened Options
  import opened Sums
  import opened HandEvaluator
  import Proof = HandEvaluatorProof
  import opened PokerMoney
  import opened PokerRules
  import opened PokerCursor
  import opened PokerInvariant
  import opened PokerSteps
  import opened PokerMatch
  import opened PokerLeave
  import opened PokerRun

  function Hole(t: Table, id: Id): seq<Card> {
    if id in t.hole then t.hole[id] else []
  }

  function BoardSize(p: Phase): nat {
    match p
    case PreFlop => 0
    case Flop => 3
    case Turn => 4
    case _ => 5
  }

  /** Two hole cards, the board and what is left of the deck come from one standard deck. */
  ghost predicate OneDeck(hole: seq<Card>, board: seq<Card>, deck: seq<Card>) {
    |hole| == HOLE_CARDS && multiset(hole) + multiset(board) + multiset(deck) <= multiset(StandardDeck())
  }

  /** So for everybody who contests the pot, with a board as long as the street says, and full at a showdown. */
  ghost predicate Fair(t: Table) {
    && (forall id | id in Live(t) :: OneDeck(Hole(t, id), t.board, t.deck))
    && (!t.handComplete ==> !t.reachedShowdown && |t.board| == BoardSize(t.phase))
    && (t.reachedShowdown ==> |t.board| == 5)
  }

  ghost predicate FullDeck(shuffled: seq<Card>) {
    |shuffled| == 52 && multiset(shuffled) == multiset(StandardDeck())
  }

  // ---- What fairness is for ----

  lemma OneDeckIsPlayable(hole: seq<Card>, board: seq<Card>, deck: seq<Card>)
    requires OneDeck(hole, board, deck)
    ensures Playable(hole + board)
  {
    forall c ensures multiset(hole + board)[c] <= if Standard(c) then 1 else 0 {
      DeckIsEveryCardOnce(c);
    }
    CountedOnceIsDistinct(hole + board);
    forall c | c in hole + board ensures Standard(c) {
      assert multiset(hole + board)[c] > 0;
    }
  }

  /** With the board full, the score of everybody who contests the pot is the best any five of their seven cards read. */
  lemma ScoreIsBestFive(t: Table, id: Id)
    requires Fair(t) && id in Live(t) && |t.board| == 5
    ensures Playable(Hole(t, id) + t.board) && |Hole(t, id) + t.board| == 7
    ensures Proof.IsBestScore(Hole(t, id) + t.board, HandScore(t, id))
  {
    OneDeckIsPlayable(Hole(t, id), t.board, t.deck);
    Proof.EvaluateIsBest(Hole(t, id) + t.board);
  }

  /** Every pot of a showdown goes by those scores. */
  lemma ShowdownPaysBestFive(t: Table)
    requires Fair(t) && |t.board| == 5 && RunShowdown(t).Ok?
    ensures var r, scores := RunShowdown(t).t, HandScores(Contenders(t), t);
            && (forall id | id in Live(t) ::
                  id in scores && Proof.IsBestScore(Hole(t, id) + t.board, scores[id]))
            && r.winners == AllWinners(r.pots, scores) && r.money == PayShowdown(t.money, Live(t), scores)
  {
    forall id | id in Live(t) ensures Proof.IsBestScore(Hole(t, id) + t.board, HandScore(t, id)) {
      ScoreIsBestFive(t, id);
    }
  }

  // ---- Fairness through a hand ----

  lemma NarrowedIsApart(t: Table, u: Table)
    requires forall id | id in Live(t) :: OneDeck(Hole(t, id), t.board, t.deck)
    requires Live(u) <= Live(t) && u.hole == t.hole
    requires multiset(u.board) + multiset(u.deck) <= multiset(t.board) + multiset(t.deck)
    ensures forall id | id in Live(u) :: OneDeck(Hole(u, id), u.board, u.deck)
  {
    forall id | id in Live(u) ensures OneDeck(Hole(u, id), u.board, u.deck) {
      StillOneDeck(Hole(t, id), t.board, t.deck, u.board, u.deck);
    }
  }

  lemma StillOneDeck(hole: seq<Card>, board: seq<Card>, deck: seq<Card>, boardNow: seq<Card>, deckNow: seq<Card>)
    requires OneDeck(hole, board, deck)
    requires multiset(boardNow) + multiset(deckNow) <= multiset(board) + multiset(deck)
    ensures OneDeck(hole, boardNow, deckNow)
  {
    assert multiset(hole) + (multiset(board) + multiset(deck)) == multiset(hole) + multiset(board) + multiset(deck);
  }

  /** Nothing on show changes, and nobody new contests the pot. */
  ghost predicate SameCards(t: Table, u: Table) {
    && Live(u) <= Live(t) && u.hole == t.hole && u.board == t.board && u.deck == t.deck
    && u.phase == t.phase && u.handComplete == t.handComplete && u.reachedShowdown == t.reachedShowdown
  }

  lemma SameCardsStayFair(t: Table, u: Table)
    requires Fair(t) && SameCards(t, u)
    ensures Fair(u)
  {
    NarrowedIsApart(t, u);
  }

  lemma LiveNarrows(t: Table, u: Table)
    requires Distinct(t.players + t.left) && u.players == t.players && u.left == t.left && t.folded <= u.folded
    requires forall id | id in u.allIn :: id in t.allIn || id in t.players
    ensures Live(u) <= Live(t)
  {
    SplitDistinct(t.players, t.left);
    WhoIsLive(t);
    WhoIsLive(u);
  }

  lemma BurnKeeps(deck: seq<Card>, board: seq<Card>, n: nat)
    requires |deck| >= n + 1
    ensures var s := BurnAndTurn(deck, board, n);
            |s.board| == |board| + n && multiset(s.board) + multiset(s.deck) <= multiset(board) + multiset(deck)
  {
    var rest := deck[..|deck| - 1];
    var kept, up := rest[..|rest| - n], Drawn(rest, n);
    assert BurnAndTurn(deck, board, n) == Street(true, kept, board + up);
    TurnedUp(deck, rest, kept, up, board, deck[|deck| - 1]);
  }

  lemma TurnedUp(deck: seq<Card>, rest: seq<Card>, kept: seq<Card>, up: seq<Card>, board: seq<Card>, burnt: Card)
    requires deck == rest + [burnt] && multiset(rest) == multiset(kept) + multiset(up)
    ensures multiset(board + up) + multiset(kept) <= multiset(board) + multiset(deck)
  {
  }

  lemma StreetKeeps(t: Table)
    requires Fair(t) && !t.handComplete && !LastStreet(t.phase) && AdvanceStreet(t).Ok?
    ensures Fair(AdvanceStreet(t).t) && !AdvanceStreet(t).t.handComplete
  {
    var n := if t.phase == PreFlop then 3 else 1;
    BurnKeeps(t.deck, t.board, n);
    NarrowedIsApart(t, AdvanceStreet(t).t);
  }

  lemma ShowdownKeeps(t: Table)
    requires Fair(t) && !t.handComplete && LastStreet(t.phase) && RunShowdown(t).Ok?
    ensures Fair(RunShowdown(t).t)
  {
    NarrowedIsApart(t, RunShowdown(t).t);
  }

  lemma {:induction false} RunOutKeeps(t: Table)
    requires Fair(t) && !t.handComplete && RunOutBoard(t).Ok?
    ensures Fair(RunOutBoard(t).t)
    decreases StreetsLeft(t.phase)
  {
    if LastStreet(t.phase) {
      ShowdownKeeps(t);
    } else {
      StreetKeeps(t);
      RunOutKeeps(AdvanceStreet(t).t);
    }
  }

  lemma SettleStaysFair(t: Table)
    requires Fair(t) && !t.handComplete && SettleAndAdvance(t).Ok?
    ensures Fair(SettleAndAdvance(t).t)
  {
    var c := ClearStreet(t);
    SameCardsStayFair(t, c);
    if LastStreet(c.phase) {
      ShowdownKeeps(c);
    } else {
      StreetKeeps(c);
      if |ActingSeats(c)| < 2 {
        RunOutKeeps(AdvanceStreet(c).t);
      }
    }
  }

  lemma FinishStaysFair(t: Table)
    requires Fair(t)
    ensures Fair(FinishHand(t))
  {
    NarrowedIsApart(t, FinishHand(t));
  }

  lemma UncontestedStaysFair(t: Table)
    requires Fair(t) && WinUncontested(t).Ok?
    ensures Fair(WinUncontested(t).t)
  {
    var paid := t.(money := AwardUncontested(t.money, Contenders(t)[0]), pots := [], winners := [Contenders(t)[0]]);
    SameCardsStayFair(t, paid);
    FinishStaysFair(paid);
  }

  /** A settled round, closed if that ended the hand. */
  lemma SettledStaysFair(t: Table)
    requires Fair(t) && !t.handComplete && SettleAndAdvance(t).Ok?
    ensures var s := SettleAndAdvance(t).t; Fair(if s.handComplete then FinishHand(s) else s)
  {
    SettleStaysFair(t);
    FinishStaysFair(SettleAndAdvance(t).t);
  }

  lemma AfterBettingStaysFair(t: Table)
    requires Fair(t) && !t.handComplete && t.turn < |t.players| && AfterBettingAction(t).Ok?
    ensures Fair(AfterBettingAction(t).t)
  {
    if |Contenders(t)| == 1 {
      UncontestedStaysFair(t);
    } else if !BettingRoundComplete(t) && NextToAct(t, t.turn) >= 0 {
      SameCardsStayFair(t, AfterBettingAction(t).t);
    } else {
      SettledStaysFair(t);
      var s := SettleAndAdvance(t).t;
      if !s.handComplete {
        SameCardsStayFair(s, AfterBettingAction(t).t);
      }
    }
  }

  /** Chips may have moved and somebody folded, but no card did, and only seated players went all-in. */
  ghost predicate Quiet(t: Table, u: Table) {
    && u.players == t.players && u.left == t.left && t.folded <= u.folded
    && u.hole == t.hole && u.board == t.board && u.deck == t.deck
    && u.phase == t.phase && u.handComplete == t.handComplete && u.reachedShowdown == t.reachedShowdown
    && forall id | id in u.allIn :: id in t.allIn || id in t.players
  }

  lemma QuietStaysFair(t: Table, u: Table)
    requires Fair(t) && Quiet(t, u) && Distinct(t.players + t.left)
    ensures Fair(u)
  {
    LiveNarrows(t, u);
    SameCardsStayFair(t, u);
  }

  lemma PuttingInIsQuiet(t: Table, id: Id, amount: nat)
    requires amount <= Chips(t, id) && id in t.players
    ensures Quiet(t, PutIn(t, id, amount))
  {
  }

  lemma CommittingIsQuiet(t: Table, id: Id, total: nat)
    requires id in t.players
    ensures Quiet(t, CommitTo(t, id, total))
  {
    if total >= At(t.bets, id) {
      PuttingInIsQuiet(t, id, Min(total - At(t.bets, id), Chips(t, id)));
    }
  }

  lemma RaisingIsQuiet(t: Table, id: Id, total: nat)
    requires id in t.players
    ensures Quiet(t, Raise(t, id, total))
  {
    CommittingIsQuiet(t, id, total);
    var paid := CommitTo(t, id, total);
    BetIncreaseIsQuiet(paid, id, At(paid.bets, id));
  }

  lemma BetIncreaseIsQuiet(t: Table, id: Id, newBet: nat)
    ensures Quiet(t, ApplyBetIncrease(t, id, newBet))
  {
    if newBet > t.currentBet {
      BetIncreaseIs(t, id, newBet);
    }
  }

  lemma ActionIsQuiet(t: Table, a: Action)
    requires t.turn < |t.players|
    ensures Quiet(t, ApplyAction(t, a))
  {
    var id := t.players[t.turn];
    match a
    case Call => CommittingIsQuiet(t, id, t.currentBet);
    case RaiseTo(amount) => RaisingIsQuiet(t, id, amount);
    case AllIn =>
      AllInIs(t);
      RaisingIsQuiet(t, id, At(t.bets, id) + Chips(t, id));
      CommittingIsQuiet(t, id, At(t.bets, id) + Chips(t, id));
    case _ =>
  }

  // ---- Fairness of the deal ----

  lemma {:induction false} DeckOnlyShrinks(ids: seq<Id>, chips: map<Id, nat>, start: Deal, n: nat)
    requires n <= |ids|
    ensures multiset(DealRound(ids, chips, start, n).deck) <= multiset(start.deck)
  {
    if n > 0 {
      var before := DealRound(ids, chips, start, n - 1);
      DeckOnlyShrinks(ids, chips, start, n - 1);
      SeatTakesFromDeck(before, ids[n - 1], At(chips, ids[n - 1]));
    }
  }

  lemma SeatTakesFromDeck(d: Deal, id: Id, chips: nat)
    ensures var r := DealSeat(d, id, chips);
            && multiset(r.deck) <= multiset(d.deck)
            && (r.ok ==> d.ok)
            && (r.ok && chips > 0 ==>
                  && id in r.hole && |r.hole[id]| == HOLE_CARDS
                  && multiset(r.hole[id]) + multiset(r.deck) == multiset(d.deck))
  {
    if |d.deck| >= HOLE_CARDS {
      assert multiset(d.deck) == multiset(d.deck[..|d.deck| - HOLE_CARDS]) + multiset(Drawn(d.deck, HOLE_CARDS));
    }
  }

  lemma OthersKeepTheirCards(d: Deal, id: Id, chips: nat, other: Id)
    requires other != id && other in d.hole
    ensures var r := DealSeat(d, id, chips); other in r.hole && r.hole[other] == d.hole[other]
  {
  }

  /** Two cards that were not in the deck, nor are in what is left of it. */
  ghost predicate HeldBy(d: Deal, id: Id, full: multiset<Card>) {
    id in d.hole && |d.hole[id]| == HOLE_CARDS && multiset(d.hole[id]) + multiset(d.deck) <= full
  }

  lemma NowHeld(d: Deal, id: Id, chips: nat, full: multiset<Card>)
    requires multiset(d.deck) <= full && chips > 0 && DealSeat(d, id, chips).ok
    ensures HeldBy(DealSeat(d, id, chips), id, full)
  {
    SeatTakesFromDeck(d, id, chips);
  }

  lemma StillHeld(d: Deal, id: Id, chips: nat, other: Id, full: multiset<Card>)
    requires HeldBy(d, other, full) && other != id
    ensures HeldBy(DealSeat(d, id, chips), other, full)
  {
    SeatTakesFromDeck(d, id, chips);
    OthersKeepTheirCards(d, id, chips, other);
  }

  /** Everybody dealt to holds two cards that are no longer in the deck. */
  lemma {:induction false} DealtApart(ids: seq<Id>, chips: map<Id, nat>, start: Deal, n: nat, i: nat)
    requires Distinct(ids) && i < n <= |ids| && DealRound(ids, chips, start, n).ok && At(chips, ids[i]) > 0
    ensures HeldBy(DealRound(ids, chips, start, n), ids[i], multiset(start.deck))
  {
    var before := DealRound(ids, chips, start, n - 1);
    if i == n - 1 {
      DeckOnlyShrinks(ids, chips, start, n - 1);
      NowHeld(before, ids[i], At(chips, ids[i]), multiset(start.deck));
    } else {
      DealtApart(ids, chips, start, n - 1, i);
      StillHeld(before, ids[n - 1], At(chips, ids[n - 1]), ids[i], multiset(start.deck));
    }
  }

  lemma HandDealtFair(t: Table, dealer: nat, shuffled: seq<Card>)
    requires CanOpen(t, dealer, shuffled) && FullDeck(shuffled)
    ensures DealHand(t, shuffled).Ok? && Fair(DealHand(t, shuffled).t) && Opened(DealHand(t, shuffled).t)
  {
    DealOpens(t, dealer, shuffled);
    var h := DealHand(t, shuffled).t;
    SplitDistinct(t.players, t.left);
    WhoIsLive(h);
    forall id | id in Live(h) ensures OneDeck(Hole(h, id), h.board, h.deck) {
      var i :| 0 <= i < |t.players| && t.players[i] == id;
      DealtApart(t.players, t.money.chips, Deal(t.hole, shuffled, {}, true), |t.players|, i);
    }
  }

  lemma BlindsStayFair(h: Table, dealer: nat)
    requires Opened(h) && Fair(h) && dealer < |h.players|
    ensures Fair(PostBlinds(h, dealer)) && !PostBlinds(h, dealer).handComplete
  {
    var b := SetBlinds(h, dealer, |FundedSeats(h)| == 2);
    var small, big := b.players[b.sb], b.players[b.bb];
    var posted := PostBlind(b, small, b.smallBlind);
    PuttingInIsQuiet(b, small, Min(b.smallBlind, Chips(b, small)));
    PuttingInIsQuiet(posted, big, Min(posted.bigBlind, Chips(posted, big)));
    BlindsAreQuiet(h, b, posted, PostBlind(posted, big, posted.bigBlind), PostBlinds(h, dealer));
    QuietStaysFair(h, PostBlinds(h, dealer));
  }

  lemma BlindsAreQuiet(h: Table, b: Table, small: Table, big: Table, p: Table)
    requires Quiet(h, b) && Quiet(b, small) && Quiet(small, big) && Quiet(big, p)
    ensures Quiet(h, p)
  {
  }

  lemma OpeningStaysFair(p: Table, first: int)
    requires Fair(p) && !p.handComplete && OpenBetting(p, first).Ok?
    ensures Fair(CloseIfComplete(OpenBetting(p, first)).t)
  {
    if first < 0 {
      SettledStaysFair(p);
    } else {
      SameCardsStayFair(p, OpenBetting(p, first).t);
    }
  }

  lemma HandBeginsFair(t: Table, dealer: nat, shuffled: seq<Card>)
    requires CanOpen(t, dealer, shuffled) && FullDeck(shuffled)
    ensures BeginHandOrFinish(t, dealer, shuffled).Ok? && Fair(BeginHandOrFinish(t, dealer, shuffled).t)
  {
    HandOpens(t, dealer, shuffled);
    HandDealtFair(t, dealer, shuffled);
    var h := DealHand(t, shuffled).t;
    BlindsStayFair(h, dealer);
    OpeningStaysFair(PostBlinds(h, dealer), FirstToActPreflop(PostBlinds(h, dealer), |FundedSeats(h)| == 2));
  }

  // ---- Fairness through a match ----

  lemma TurnMovesFair(s: Table, advance: bool)
    requires Fair(s)
    ensures Fair(ApplyNextTurn(s, advance))
  {
    SameCardsStayFair(s, ApplyNextTurn(s, advance));
  }

  lemma LeaveStaysFair(t: Table, seat: nat)
    requires Valid(t) && Fair(t) && seat < |t.players| && |t.players| > 1
    ensures var o := AfterPlayerRemoved(Emptied(t, seat), seat); o.Ok? && Fair(o.t)
  {
    var u := Emptied(t, seat);
    var s := Remarked(u, seat);
    ContendersShrinkByOne(t, seat);
    SameCardsStayFair(t, u);
    SameCardsStayFair(u, s);
    if t.handComplete {
      LeaveBetweenHands(t, seat);
      FinishStaysFair(s);
    } else {
      LeaveMidHand(t, seat);
      RemarkedHand(t, seat);
      ShiftStaysFair(s);
    }
  }

  lemma ShiftStaysFair(s: Table)
    requires Dealt(s) && Fair(s) && |Contenders(s)| >= 1 && AfterSeatsShift(s).Ok?
    ensures Fair(AfterSeatsShift(s).t)
  {
    if |Contenders(s)| == 1 {
      UncontestedStaysFair(s);
    } else if BettingRoundComplete(s) {
      SettleKeeps(s);
      SettledStaysFair(s);
      var r := SettleAndAdvance(s).t;
      if !r.handComplete {
        SameCardsStayFair(r, AfterSeatsShift(s).t);
      }
    } else {
      SameCardsStayFair(s, AfterSeatsShift(s).t);
    }
  }

  lemma LastLeaverStaysFair(t: Table, seat: nat)
    requires Valid(t) && Fair(t) && seat < |t.players| && |t.players| == 1
    ensures Fair(Emptied(t, seat)) && AfterPlayerRemoved(Emptied(t, seat), seat) == Ok(Emptied(t, seat))
  {
    ContendersShrinkByOne(t, seat);
    SameCardsStayFair(t, Emptied(t, seat));
  }

  lemma NextHandStaysFair(t: Table, shuffled: seq<Card>)
    requires Between(t) && !t.matchComplete && FullDeck(shuffled)
    ensures t.dealer < |t.players| && NextDeal(t, shuffled).Ok? && Fair(NextDeal(t, shuffled).t)
  {
    DealerCanOpen(t, shuffled);
    HandBeginsFair(t, NextFundedSeat(t, t.dealer), shuffled);
  }

  ghost predicate FairGame(g: Game) {
    !g.Crashed? && Fair(g.t)
  }

  lemma ActStaysFair(t: Table, a: Action, shuffled: seq<Card>)
    requires Valid(t) && Fair(t) && FullDeck(shuffled)
    ensures FairGame(Submit(t, a, shuffled))
  {
    if ValidateAction(t, a) {
      if a.NextHand? {
        NextHandStaysFair(t, shuffled);
        NextHandDeals(t, a, shuffled);
      } else {
        ActionActs(t, a);
        AfterBettingReady(t, ApplyAction(t, a));
        ActionIsQuiet(t, a);
        QuietStaysFair(t, ApplyAction(t, a));
        AfterBettingStaysFair(ApplyAction(t, a));
      }
      SubmitIs(t, a, shuffled, AfterAction(ApplyAction(t, a), a, shuffled));
      TurnMovesFair(AfterAction(ApplyAction(t, a), a, shuffled).t, true);
    }
  }

  lemma RemoveStaysFair(t: Table, seat: nat)
    requires Valid(t) && Fair(t) && seat < |t.players|
    ensures FairGame(Remove(t, seat))
  {
    if |t.players| == 1 {
      LastLeaverStaysFair(t, seat);
    } else {
      LeaveStaysFair(t, seat);
      TurnMovesFair(AfterPlayerRemoved(Emptied(t, seat), seat).t, false);
    }
  }

  lemma StepStaysFair(t: Table, e: Event)
    requires Valid(t) && Fair(t) && Possible(t, e) && (e.Act? ==> FullDeck(e.shuffled))
    ensures FairGame(Step(t, e))
  {
    match e
    case Act(a, shuffled) => ActStaysFair(t, a, shuffled);
    case Leave(seat) => RemoveStaysFair(t, seat);
  }

  /** Every deck is a shuffle of the standard one. */
  ghost predicate ProperDecks(events: seq<Event>) {
    forall e | e in events && e.Act? :: FullDeck(e.shuffled)
  }

  lemma {:induction false} RunStaysFair(g: Game, events: seq<Event>, total: nat)
    requires Sound(g, total) && FairGame(g) && ProperDecks(events)
    ensures FairGame(Run(g, events))
    decreases |events|
  {
    if events != [] && g.Playing? && Possible(g.t, events[0]) {
      StepIsSound(g.t, events[0]);
      StepStaysFair(g.t, events[0]);
      RunStaysFair(Step(g.t, events[0]), events[1..], total);
    }
  }

  lemma StartIsFair(players: seq<Id>, button: nat, shuffled: seq<Card>)
    requires Distinct(players) && 2 <= |players| <= MAX_PLAYERS && button < |players| && FullDeck(shuffled)
    ensures FairGame(Start(players, button, shuffled))
  {
    StartIsSound(players, button, shuffled);
    var t := Blank(players, [], button);
    assert players + [] == players;
    BlankCanOpen(players, [], button, shuffled);
    HandBeginsFair(t, button, shuffled);
    TurnMovesFair(BeginHandOrFinish(t, button, shuffled).t, false);
  }

  /** However a match goes, the hands it shows down are scored by the best five of seven different cards. */
  lemma ShowdownsAreFair(players: seq<Id>, button: nat, shuffled: seq<Card>, events: seq<Event>, id: Id)
    requires Distinct(players) && 2 <= |players| <= MAX_PLAYERS && button < |players|
    requires FullDeck(shuffled) && ProperDecks(events)
    ensures Start(players, button, shuffled).Playing? && Valid(Start(players, button, shuffled).t)
    ensures var g := Run(Start(players, button, shuffled), events);
            && !g.Crashed?
            && (g.t.reachedShowdown && id in Live(g.t) ==>
                  && Playable(Hole(g.t, id) + g.t.board) && |Hole(g.t, id) + g.t.board| == 7
                  && Proof.IsBestScore(Hole(g.t, id) + g.t.board, HandScore(g.t, id)))
  {
    MatchIsSound(players, button, shuffled, events);
    StartIsSound(players, button, shuffled);
    StartIsFair(players, button, shuffled);
    RunStaysFair(Start(players, button, shuffled), events, Total(Stakes(players)));
    var g := Run(Start(players, button, shuffled), events);
    if g.t.reachedShowdown && id in Live(g.t) {
      ScoreIsBestFive(g.t, id);
    }
  }
}
