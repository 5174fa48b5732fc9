/** A Hearts match as the source keeps it: hands, trick and scores updated in place. */
module HeartsMatch {
  import opened Cards
  import opened Options
  import opened HeartsRules
  import opened HeartsInvariant
  import opened HeartsRun

  class Match {
    var turn: nat
    var next: Option<nat>
    var hands: seq<seq<Card>>
    var stage: Stage
    var direction: Direction
    var pending: seq<seq<Card>>
    var passed: set<nat>
    var led: nat
    var trick: map<nat, Card>
    var trickComplete: bool
    var leader: nat
    var broken: bool
    var tricksPlayed: nat
    var points: seq<nat>
    var totals: seq<nat>
    var handNumber: nat
    var dealer: nat
    var handComplete: bool
    var matchComplete: bool
    var lastWinner: Option<nat>
    ghost var taken: seq<Card>

    ghost function View(): Table
      reads this
    {
      Table(turn, next, hands, stage, direction, pending, passed, led, trick, trickComplete, leader, broken, tricksPlayed,
            points, totals, handNumber, dealer, handComplete, matchComplete, lastWinner, taken)
    }

    // ---- Dealing ----

    method FindTwo() returns (seat: nat)
      ensures seat == FindTwoOfClubs(hands)
    {
      for i := 0 to |hands|
        invariant FindTwoOfClubs(hands) == FindTwoOfClubs(hands, i)
      {
        if TWO_OF_CLUBS in hands[i] {
          return i;
        }
      }
      return 0;
    }

    method DealFrom(shuffled: seq<Card>, n: nat)
      requires n * CARDS_PER_HAND <= |shuffled|
      modifies this`hands
      ensures hands == DealHands(shuffled, n).0
    {
      var deck := shuffled;
      hands := [];
      for i := 0 to n
        invariant (hands, deck) == DealHands(shuffled, i)
      {
        hands := hands + [Drawn(deck, CARDS_PER_HAND)];
        deck := deck[..|deck| - CARDS_PER_HAND];
      }
    }

    method ResetBooks()
      modifies this`stage, this`direction, this`pending, this`passed, this`led, this`trick, this`trickComplete
      ensures stage == Passing && direction == PassLeft && pending == NOTHING_EACH && passed == {} && led == NO_SUIT
      ensures trick == map[] && !trickComplete
    {
      stage, direction, pending, passed, led := Passing, PassLeft, NOTHING_EACH, {}, NO_SUIT;
      trick, trickComplete := map[], false;
    }

    method ResetScores()
      modifies this`leader, this`broken, this`tricksPlayed, this`points, this`handComplete, this`lastWinner, this`taken
      ensures leader == 0 && !broken && tricksPlayed == 0 && points == [0, 0, 0, 0] && !handComplete
      ensures lastWinner == None && taken == []
    {
      leader, broken, tricksPlayed, points := 0, false, 0, [0, 0, 0, 0];
      handComplete, lastWinner, taken := false, None, [];
    }

    method DealNew(button: nat, shuffled: seq<Card>)
      requires |shuffled| == 52
      modifies this
      ensures View() == DealHand(old(View()), button, shuffled)
    {
      ResetBooks();
      ResetScores();
      assert View() == ResetHand(old(View()));
      handNumber := handNumber + 1;
      dealer := button;
      DealFrom(shuffled, PLAYER_COUNT);
      direction := DirectionOf(handNumber);
    }

    method Begin(button: nat, shuffled: seq<Card>)
      requires |shuffled| == 52
      modifies this
      ensures View() == BeginHand(old(View()), button, shuffled)
    {
      DealNew(button, shuffled);
      if direction == PassNone {
        var first := FindTwo();
        stage, turn, next := TrickPlay, first, Some(first);
      } else {
        stage, turn, next := Passing, dealer, Some(dealer);
      }
    }

    // ---- Passing ----

    method SetAside(cards: seq<Card>)
      requires Shaped(View())
      modifies this`hands, this`pending, this`passed
      ensures View() == Apply(old(View()), PassCards(cards))
    {
      hands := hands[turn := RemoveEach(hands[turn], cards)];
      pending := pending[turn := cards];
      passed := passed + {turn};
    }

    method ApplyAllPasses()
      requires Shaped(View())
      modifies this`hands
      ensures hands == Deliver(old(hands), pending, direction, PLAYER_COUNT)
    {
      for i := 0 to PLAYER_COUNT
        invariant hands == Deliver(old(hands), pending, direction, i)
      {
        var to := PassRecipient(i, direction);
        hands := hands[to := hands[to] + pending[i]];
      }
    }

    method NextToPass() returns (seat: nat)
      ensures seat == NextUnpassedSeat(passed, turn)
    {
      for step := 1 to PLAYER_COUNT + 1
        invariant NextUnpassedSeat(passed, turn) == NextUnpassedSeat(passed, turn, step)
      {
        if (turn + step) % PLAYER_COUNT !in passed {
          return (turn + step) % PLAYER_COUNT;
        }
      }
      return turn;
    }

    method FinishPass()
      requires Shaped(View())
      modifies this`hands, this`stage, this`pending, this`passed, this`turn, this`next
      ensures View() == AfterPass(old(View()))
    {
      if |passed| < PLAYER_COUNT {
        var seat := NextToPass();
        next := Some(seat);
        return;
      }
      OpenPlay();
    }

    /** Everybody has passed: deliver, and the two of clubs leads. */
    method OpenPlay()
      requires Shaped(View()) && |passed| >= PLAYER_COUNT
      modifies this`hands, this`stage, this`pending, this`passed, this`turn, this`next
      ensures View() == AfterPass(old(View()))
    {
      ghost var was := View();
      ApplyAllPasses();
      assert View() == was.(hands := hands);
      StartPlay();
    }

    method StartPlay()
      modifies this`stage, this`pending, this`passed, this`turn, this`next
      ensures var first := FindTwoOfClubs(hands);
              View() == old(View()).(stage := TrickPlay, pending := NOTHING_EACH, passed := {}, turn := first,
                                     next := Some(first))
    {
      ghost var was := View();
      var first := FindTwo();
      ClearPasses(first);
      assert View() == was.(stage := TrickPlay, pending := NOTHING_EACH, passed := {}, turn := first,
                            next := Some(first));
    }

    method ClearPasses(first: nat)
      modifies this`stage, this`pending, this`passed, this`turn, this`next
      ensures stage == TrickPlay && pending == NOTHING_EACH && passed == {} && turn == first && next == Some(first)
    {
      stage, pending, passed, turn, next := TrickPlay, NOTHING_EACH, {}, first, Some(first);
    }

    // ---- Tricks ----

    method SweepTrick()
      modifies this`trick, this`led, this`trickComplete, this`taken
      ensures View() == StartTrick(old(View()))
    {
      if trickComplete {
        taken := taken + TrickCards(trick);
        trick := map[];
        led := NO_SUIT;
        trickComplete := false;
      }
    }

    method Lay(card: Card)
      requires Shaped(View())
      modifies this`hands, this`trick, this`led, this`trickComplete, this`taken, this`leader, this`broken
      ensures View() == Apply(old(View()), PlayCard(card))
    {
      SweepTrick();
      ghost var swept := View();
      PutDown(card);
      assert View() == swept.(hands := hands, led := led, leader := leader, trick := trick, broken := broken);
    }

    method PutDown(card: Card)
      requires turn < |hands|
      modifies this`hands, this`trick, this`led, this`leader, this`broken
      ensures hands == old(hands)[turn := RemoveOne(old(hands)[turn], card)] && trick == old(trick)[turn := card]
      ensures led == (if old(trick) == map[] then card.suit else old(led))
      ensures leader == (if old(trick) == map[] then turn else old(leader))
      ensures broken == (old(broken) || card.suit == HEARTS)
    {
      hands := hands[turn := RemoveOne(hands[turn], card)];
      if trick == map[] {
        led := card.suit;
        leader := turn;
      }
      trick := trick[turn := card];
      if card.suit == HEARTS {
        broken := true;
      }
    }

    method FindWinner() returns (seat: nat)
      ensures seat == TrickWinner(View())
    {
      var best: int := -1;
      seat := leader;
      for s := 0 to PLAYER_COUNT
        invariant (best, seat) == BestOfTrick(trick, led, leader, s)
      {
        if s in trick && trick[s].suit == led && RankValue(trick[s].rank) > best {
          best, seat := RankValue(trick[s].rank), s;
        }
      }
    }

    method Score()
      requires |points| == |totals|
      modifies this`totals
      ensures totals == ScoreHand(points, old(totals))
    {
      var shooter: Option<nat> := None;
      var k := 0;
      while k < |points| && shooter.None?
        invariant k <= |points|
        invariant shooter.None? ==> Shooter(points) == Shooter(points, k)
        invariant shooter.Some? ==> Shooter(points) == shooter
        decreases |points| - k, shooter.None?
      {
        if points[k] == PENALTY_POINTS_TOTAL {
          shooter := Some(k);
        } else {
          k := k + 1;
        }
      }
      for i := 0 to |totals|
        invariant |totals| == |old(totals)|
        invariant forall j | 0 <= j < i :: totals[j] == ScoreHand(points, old(totals))[j]
        invariant forall j | i <= j < |totals| :: totals[j] == old(totals)[j]
      {
        if shooter.None? {
          totals := totals[i := totals[i] + points[i]];
        } else if shooter.value != i {
          totals := totals[i := totals[i] + PENALTY_POINTS_TOTAL];
        }
      }
    }

    method CloseHand()
      requires Shaped(View())
      modifies this`totals, this`stage, this`handComplete, this`matchComplete, this`turn, this`next
      ensures View() == EndHand(old(View()))
    {
      ghost var was := View();
      FinalScore();
      assert View() == was.(totals := totals, stage := HandOver, handComplete := true);
      MatchOrNextDealer();
    }

    method FinalScore()
      requires |points| == |totals|
      modifies this`totals, this`stage, this`handComplete
      ensures totals == ScoreHand(points, old(totals)) && stage == HandOver && handComplete
    {
      Score();
      stage, handComplete := HandOver, true;
    }

    method MatchOrNextDealer()
      modifies this`matchComplete, this`turn, this`next
      ensures var over, after := old(View()), (dealer + 1) % PLAYER_COUNT;
              View() == if AnyAtLeast(totals, TARGET_SCORE) then over.(matchComplete := true, next := None)
                        else over.(turn := after, next := Some(after))
    {
      if AnyAtLeast(totals, TARGET_SCORE) {
        matchComplete := true;
        next := None;
        return;
      }
      turn := (dealer + 1) % PLAYER_COUNT;
      next := Some(turn);
    }

    method AwardTrick(winner: nat)
      requires Shaped(View()) && winner < PLAYER_COUNT
      modifies this`points, this`lastWinner, this`tricksPlayed, this`trickComplete
      ensures View() == old(View()).(points := old(points)[winner := old(points)[winner] + Penalty(TrickCards(trick))],
                                     lastWinner := Some(winner), tricksPlayed := old(tricksPlayed) + 1,
                                     trickComplete := true)
    {
      ghost var was := View();
      TakeTrick(winner);
      assert View() == was.(points := points, lastWinner := Some(winner), tricksPlayed := tricksPlayed,
                            trickComplete := true);
    }

    method TakeTrick(winner: nat)
      requires winner < |points|
      modifies this`points, this`lastWinner, this`tricksPlayed, this`trickComplete
      ensures points == old(points)[winner := old(points)[winner] + Penalty(TrickCards(trick))]
      ensures lastWinner == Some(winner) && tricksPlayed == old(tricksPlayed) + 1 && trickComplete
    {
      points := points[winner := points[winner] + Penalty(TrickCards(trick))];
      lastWinner := Some(winner);
      tricksPlayed := tricksPlayed + 1;
      trickComplete := true;
    }

    method FinishPlay()
      requires Shaped(View())
      modifies this
      ensures View() == AfterPlay(old(View()))
    {
      if |trick| < PLAYER_COUNT {
        return;
      }
      WinnerInRange(trick, led, leader, PLAYER_COUNT);
      FinishTrick();
    }

    method FinishTrick()
      requires Shaped(View()) && TrickWinner(View()) < PLAYER_COUNT
      modifies this
      ensures View() == EndTrick(old(View()))
    {
      var winner := FindWinner();
      AwardTrick(winner);
      LeadOrClose(winner);
    }

    method LeadOrClose(winner: nat)
      requires Shaped(View())
      modifies this
      ensures var won := old(View());
              View() == if tricksPlayed < CARDS_PER_HAND then won.(turn := winner, next := Some(winner))
                        else EndHand(won)
      ensures tricksPlayed == old(tricksPlayed)
    {
      if tricksPlayed < CARDS_PER_HAND {
        PassTurn(winner);
      } else {
        CloseHand();
      }
    }

    method PassTurn(seat: nat)
      modifies this`turn, this`next
      ensures View() == old(View()).(turn := seat, next := Some(seat))
    {
      turn := seat;
      next := Some(seat);
    }

    // ---- One step ----

    method FirstLegalCard() returns (card: Option<Card>)
      requires Shaped(View())
      ensures card == FirstLegal(View(), hands[turn])
    {
      var hand := hands[turn];
      for i := 0 to |hand|
        invariant FirstLegal(View(), hand) == FirstLegal(View(), hand, i)
      {
        if Legal(hand, hand[i]) {
          return Some(hand[i]);
        }
      }
      return None;
    }

    predicate Legal(hand: seq<Card>, card: Card)
      reads this
      ensures Legal(hand, card) == ValidPlay(View(), hand, card)
    {
      var leading, firstTrick := trickComplete || trick == map[], tricksPlayed == 0;
      if card !in hand || (leading && firstTrick && card != TWO_OF_CLUBS) then false
      else if leading && card.suit == HEARTS && !broken && !OnlyHearts(hand) then false
      else if !leading && card.suit != led && HandHasSuit(hand, led) then false
      else !(firstTrick && IsPenalty(card) && HasNonPenalty(hand))
    }

    predicate Accepts(a: Action)
      requires Shaped(View())
      reads this
      ensures Accepts(a) == Validate(View(), a)
    {
      match a
      case NextHand => stage == HandOver && !matchComplete
      case PassCards(cards) =>
        && stage == Passing && |cards| == CARDS_TO_PASS && turn !in passed
        && (forall i, j | 0 <= i < j < |cards| :: cards[i] != cards[j])
        && forall c | c in cards :: c in hands[turn]
      case PlayCard(card) => stage == TrickPlay && Legal(hands[turn], card)
    }

    method MoveTurn()
      modifies this`turn, this`next
      ensures View() == NextTurn(old(View()))
    {
      turn := (if next.Some? then next.value else turn + 1) % PLAYER_COUNT;
      next := None;
    }

    /** An action by the seat on turn: a rejected one changes nothing, an accepted one keeps the match sound. */
    method Act(a: Action, shuffled: seq<Card>) returns (over: bool)
      requires Valid(View()) && handNumber <= 16 && FullDeck(shuffled)
      modifies this
      ensures Submit(old(View()), a, shuffled) == if over then Finished(View()) else Playing(View())
      ensures Sound(if over then Finished(View()) else Playing(View()))
    {
      StepIsSound(View(), HeartsRun.Act(a, shuffled));
      if !Accepts(a) {
        return false;
      }
      Perform(a, shuffled);
      over := matchComplete;
      if !over {
        MoveTurn();
      }
    }

    method Perform(a: Action, shuffled: seq<Card>)
      requires Shaped(View()) && |shuffled| == 52
      modifies this
      ensures View() == After(Apply(old(View()), a), a, shuffled)
    {
      match a
      case PassCards(cards) =>
        SetAside(cards);
        FinishPass();
        return;
      case PlayCard(card) =>
        Lay(card);
        FinishPlay();
        return;
      case NextHand =>
        Begin(turn, shuffled);
        return;
    }
  }
}
