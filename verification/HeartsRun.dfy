/** Every step of a Hearts match keeps its invariant and brings the end nearer. */
module HeartsRun {
  import opened Cards
  import opened Options
  import opened HeartsRules
  import opened HeartsInvariant

  ghost predicate FullDeck(shuffled: seq<Card>) {
    |shuffled| == 52 && multiset(shuffled) == multiset(StandardDeck())
  }

  // ---- Dealing ----

  lemma {:induction false} DealSizes(deck: seq<Card>, n: nat, s: nat)
    requires s < n && n * CARDS_PER_HAND <= |deck|
    ensures |DealHands(deck, n).0[s]| == CARDS_PER_HAND
  {
    if s < n - 1 {
      DealSizes(deck, n - 1, s);
    }
  }

  lemma {:induction false} DealKeeps(deck: seq<Card>, n: nat)
    requires n * CARDS_PER_HAND <= |deck|
    ensures multiset(deck) == PackUpTo(DealHands(deck, n).0, n) + multiset(DealHands(deck, n).1)
  {
    if n > 0 {
      DealKeeps(deck, n - 1);
      var hands, rest := DealHands(deck, n - 1).0, DealHands(deck, n - 1).1;
      DealOne(hands, rest, n - 1);
    }
  }

  lemma DealOne(hands: seq<seq<Card>>, rest: seq<Card>, n: nat)
    requires |hands| == n && |rest| >= CARDS_PER_HAND
    ensures PackUpTo(hands + [Drawn(rest, CARDS_PER_HAND)], n + 1) + multiset(rest[..|rest| - CARDS_PER_HAND])
         == PackUpTo(hands, n) + multiset(rest)
  {
    var drawn := Drawn(rest, CARDS_PER_HAND);
    PackPrefix(hands, hands + [drawn], n);
  }

  /** Four hands of thirteen are the whole deck. */
  lemma DealtOut(shuffled: seq<Card>)
    requires FullDeck(shuffled)
    ensures var hands := DealHands(shuffled, 4).0;
            && (forall s | 0 <= s < PLAYER_COUNT :: |hands[s]| == CARDS_PER_HAND)
            && Pack(hands) == multiset(StandardDeck())
  {
    DealKeeps(shuffled, 4);
    forall s: nat | s < PLAYER_COUNT ensures |DealHands(shuffled, 4).0[s]| == CARDS_PER_HAND {
      DealSizes(shuffled, 4, s);
    }
    assert DealHands(shuffled, 4).1 == [];
  }

  lemma {:induction false} FindsTwoOfClubs(hands: seq<seq<Card>>, i: nat, s: nat)
    requires i <= s < |hands| && TWO_OF_CLUBS in hands[s]
    ensures TWO_OF_CLUBS in hands[FindTwoOfClubs(hands, i)]
    decreases |hands| - i
  {
    if TWO_OF_CLUBS !in hands[i] {
      FindsTwoOfClubs(hands, i + 1, s);
    }
  }

  lemma TwoOfClubsIsHeld(hands: seq<seq<Card>>)
    requires |hands| == PLAYER_COUNT && Pack(hands) == multiset(StandardDeck())
    ensures FindTwoOfClubs(hands) < PLAYER_COUNT && TWO_OF_CLUBS in hands[FindTwoOfClubs(hands)]
  {
    DeckIsEveryCardOnce(TWO_OF_CLUBS);
    var s := InSomePile(hands, TWO_OF_CLUBS, PLAYER_COUNT);
    FindsTwoOfClubs(hands, 0, s);
  }

  lemma NothingPending()
    ensures Pack(NOTHING_EACH) == multiset{} && TrickCards(map[]) == []
  {
    assert PackUpTo(NOTHING_EACH, 1) == PackUpTo(NOTHING_EACH, 2) == PackUpTo(NOTHING_EACH, 3) == multiset{};
    assert TrickUpTo(map[], 3) == TrickUpTo(map[], 2) == TrickUpTo(map[], 1) == [];
  }

  /** A table a hook has left, with the cursor where the engine is about to put it. */
  ghost predicate Ready(t: Table) {
    t.next.Some? && t.next.value == t.turn && Well(t.(next := None))
  }

  ghost predicate CanBegin(t: Table, dealer: nat, shuffled: seq<Card>) {
    && Shaped(t) && FullDeck(shuffled) && dealer < PLAYER_COUNT && !t.matchComplete
    && (forall s | 0 <= s < PLAYER_COUNT :: t.totals[s] < TARGET_SCORE)
    && Sum(t.totals) >= PENALTY_POINTS_TOTAL * t.handNumber
  }

  /** Just dealt: nothing passed, nothing played. */
  ghost predicate JustDealt(t: Table) {
    && |t.hands| == PLAYER_COUNT && t.dealer < PLAYER_COUNT && t.leader == 0
    && (forall s | 0 <= s < PLAYER_COUNT :: |t.hands[s]| == CARDS_PER_HAND)
    && Pack(t.hands) == multiset(StandardDeck()) && t.pending == NOTHING_EACH && t.passed == {}
    && t.trick == map[] && !t.trickComplete && t.tricksPlayed == 0 && t.taken == [] && t.points == [0, 0, 0, 0]
    && |t.totals| == PLAYER_COUNT && t.handNumber >= 1 && !t.matchComplete && !t.handComplete
    && (forall s | 0 <= s < PLAYER_COUNT :: t.totals[s] < TARGET_SCORE)
    && Sum(t.totals) >= PENALTY_POINTS_TOTAL * (t.handNumber - 1)
  }

  lemma HandDealt(t: Table, dealer: nat, shuffled: seq<Card>)
    requires CanBegin(t, dealer, shuffled)
    ensures JustDealt(DealHand(t, dealer, shuffled))
  {
    DealtOut(shuffled);
  }

  lemma HandOpens(d: Table)
    requires JustDealt(d)
    ensures Ready(OpenHand(d)) && OpenHand(d).handNumber == d.handNumber
  {
    TwoOfClubsIsHeld(d.hands);
    var r := OpenHand(d).(next := None);
    if d.direction == PassNone {
      assert PlayingWell(r);
    } else {
      assert PassingWell(r);
    }
  }

  lemma HandBegins(t: Table, dealer: nat, shuffled: seq<Card>)
    requires CanBegin(t, dealer, shuffled)
    ensures var b := BeginHand(t, dealer, shuffled);
            Ready(b) && b.handNumber == t.handNumber + 1 && Accounted(b)
  {
    HandDealt(t, dealer, shuffled);
    HandOpens(DealHand(t, dealer, shuffled));
    NothingPending();
    var b := BeginHand(t, dealer, shuffled);
    assert AllCards(b) == Pack(b.hands);
  }

  // ---- Passing ----

  /** Each seat's cards go to one neighbour, and every seat gets exactly one neighbour's. */
  lemma PassIsBijection(direction: Direction, a: nat, b: nat)
    requires a < PLAYER_COUNT && b < PLAYER_COUNT && a != b
    ensures PassRecipient(a, direction) != PassRecipient(b, direction)
  {
  }

  /** Who a seat is passed cards by. */
  function PassSender(to: nat, direction: Direction): (from: nat)
    requires to < PLAYER_COUNT
    ensures from < PLAYER_COUNT && PassRecipient(from, direction) == to
  {
    match direction
    case PassLeft => (to + PLAYER_COUNT - 1) % PLAYER_COUNT
    case PassRight => (to + 1) % PLAYER_COUNT
    case PassAcross => (to + 2) % PLAYER_COUNT
    case PassNone => to
  }

  lemma {:induction false} DeliveredSoFar(hands: seq<seq<Card>>, pending: seq<seq<Card>>, direction: Direction, n: nat,
                                          to: nat)
    requires |hands| == |pending| == PLAYER_COUNT && n <= PLAYER_COUNT && to < PLAYER_COUNT
    ensures var from := PassSender(to, direction);
            Deliver(hands, pending, direction, n)[to] == hands[to] + if from < n then pending[from] else []
  {
    if n == 0 {
      assert hands[to] + [] == hands[to];
    } else {
      DeliveredSoFar(hands, pending, direction, n - 1, to);
      if PassSender(to, direction) != n - 1 {
        PassIsBijection(direction, PassSender(to, direction), n - 1);
      }
    }
  }

  lemma {:induction false} DeliverKeeps(hands: seq<seq<Card>>, pending: seq<seq<Card>>, direction: Direction, n: nat)
    requires |hands| == |pending| == PLAYER_COUNT && n <= PLAYER_COUNT
    ensures Pack(Deliver(hands, pending, direction, n)) == Pack(hands) + PackUpTo(pending, n)
  {
    if n > 0 {
      DeliverKeeps(hands, pending, direction, n - 1);
      var before, to := Deliver(hands, pending, direction, n - 1), PassRecipient(n - 1, direction);
      PackAdds(before, before[to := before[to] + pending[n - 1]], to, multiset(pending[n - 1]), PLAYER_COUNT);
    }
  }

  lemma TakesThree(hand: seq<Card>, cards: seq<Card>)
    requires Distinct(cards) && forall c | c in cards :: c in hand
    ensures multiset(hand) == multiset(RemoveEach(hand, cards)) + multiset(cards)
    ensures |RemoveEach(hand, cards)| == |hand| - |cards|
  {
    var kept := multiset(hand) - multiset(cards);
    forall x ensures multiset(cards)[x] <= multiset(hand)[x] {
      DistinctCountsOnce(cards, x);
      if x in cards {
        assert multiset(hand)[x] > 0;
      }
    }
    assert multiset(hand) == multiset(cards) + kept;
    RemoveEachTakesExactly(hand, cards, kept);
    assert |multiset(hand)| == |multiset(RemoveEach(hand, cards))| + |multiset(cards)|;
  }

  lemma {:induction false} NextUnpassedFound(passed: set<nat>, from: nat, step: nat, s: nat)
    requires from < PLAYER_COUNT && 1 <= step <= s <= PLAYER_COUNT && (from + s) % PLAYER_COUNT !in passed
    ensures NextUnpassedSeat(passed, from, step) < PLAYER_COUNT && NextUnpassedSeat(passed, from, step) !in passed
    decreases s - step
  {
    if (from + step) % PLAYER_COUNT in passed {
      NextUnpassedFound(passed, from, step + 1, s);
    }
  }

  lemma SomebodyUnpassed(passed: set<nat>, from: nat)
    requires from < PLAYER_COUNT && |passed| < PLAYER_COUNT && forall s | s in passed :: s < PLAYER_COUNT
    ensures NextUnpassedSeat(passed, from) < PLAYER_COUNT && NextUnpassedSeat(passed, from) !in passed
  {
    if {0, 1, 2, 3} <= passed {
      SubsetSize({0, 1, 2, 3}, passed);
    }
    var s: nat :| s < PLAYER_COUNT && s !in passed;
    var step := if s > from then s - from else s + PLAYER_COUNT - from;
    assert (from + step) % PLAYER_COUNT == s;
    NextUnpassedFound(passed, from, 1, step);
  }

  /** Passes under way, whoever is on turn. */
  ghost predicate HalfPassed(t: Table) {
    && Shaped(t) && MatchOpen(t) && t.stage == Passing
    && t.direction != PassNone && t.trick == map[] && !t.trickComplete && t.tricksPlayed == 0 && t.taken == []
    && Sum(t.points) == 0 && (forall s | s in t.passed :: s < PLAYER_COUNT)
    && forall s | 0 <= s < PLAYER_COUNT ::
         && |t.hands[s]| == CARDS_PER_HAND - (if s in t.passed then CARDS_TO_PASS else 0)
         && |t.pending[s]| == if s in t.passed then CARDS_TO_PASS else 0
  }

  lemma Moved<T>(from: multiset<T>, fromNow: multiset<T>, to: multiset<T>, toNow: multiset<T>, moved: multiset<T>)
    requires from == fromNow + moved && toNow == to + moved
    ensures fromNow + toNow == from + to
  {
  }

  lemma PassAccounts(t: Table, cards: seq<Card>)
    requires Shaped(t) && ValidPass(t, cards) && t.pending[t.turn] == []
    ensures AllCards(Apply(t, PassCards(cards))) == AllCards(t)
    ensures |RemoveEach(t.hands[t.turn], cards)| == |t.hands[t.turn]| - |cards|
  {
    var seat, kept := t.turn, RemoveEach(t.hands[t.turn], cards);
    assert Distinct(cards);
    TakesThree(t.hands[seat], cards);
    PackAdds(t.hands[seat := kept], t.hands, seat, multiset(cards), PLAYER_COUNT);
    PackAdds(t.pending, t.pending[seat := cards], seat, multiset(cards), PLAYER_COUNT);
    Moved(Pack(t.hands), Pack(t.hands[seat := kept]), Pack(t.pending), Pack(t.pending[seat := cards]), multiset(cards));
  }

  lemma PassKeeps(t: Table, cards: seq<Card>)
    requires Well(t) && Validate(t, PassCards(cards))
    requires |RemoveEach(t.hands[t.turn], cards)| == |t.hands[t.turn]| - |cards|
    ensures HalfPassed(Apply(t, PassCards(cards))) && Apply(t, PassCards(cards)).passed == t.passed + {t.turn}
  {
    var p := Apply(t, PassCards(cards));
    assert p == t.(hands := p.hands, pending := p.pending, passed := t.passed + {t.turn});
    PassSizes(t, p, cards);
  }

  /** Three cards fewer in hand and three set aside, for the seat that passes. */
  lemma PassSizes(t: Table, p: Table, cards: seq<Card>)
    requires Shaped(t) && PassingWell(t) && |cards| == CARDS_TO_PASS && t.turn !in t.passed
    requires |RemoveEach(t.hands[t.turn], cards)| == |t.hands[t.turn]| - |cards|
    requires p.hands == t.hands[t.turn := RemoveEach(t.hands[t.turn], cards)]
    requires p.pending == t.pending[t.turn := cards] && p.passed == t.passed + {t.turn}
    ensures forall s | 0 <= s < PLAYER_COUNT ::
              && |p.hands[s]| == CARDS_PER_HAND - (if s in p.passed then CARDS_TO_PASS else 0)
              && |p.pending[s]| == if s in p.passed then CARDS_TO_PASS else 0
  {
  }

  lemma DeliveryAccounts(t: Table)
    requires Shaped(t) && |t.passed| >= PLAYER_COUNT
    ensures AllCards(AfterPass(t)) == AllCards(t)
    ensures Pack(AfterPass(t).hands) == Pack(t.hands) + Pack(t.pending)
  {
    DeliverKeeps(t.hands, t.pending, t.direction, PLAYER_COUNT);
    NothingPending();
  }

  lemma DeliverySizes(t: Table)
    requires HalfPassed(t) && |t.passed| >= PLAYER_COUNT
    ensures forall s | 0 <= s < PLAYER_COUNT :: |AfterPass(t).hands[s]| == CARDS_PER_HAND
  {
    AllPassed(t.passed);
    forall s | 0 <= s < PLAYER_COUNT ensures |AfterPass(t).hands[s]| == CARDS_PER_HAND {
      DeliveredSoFar(t.hands, t.pending, t.direction, PLAYER_COUNT, s);
    }
  }

  lemma PassesDelivered(t: Table)
    requires HalfPassed(t) && |t.passed| >= PLAYER_COUNT
    requires Pack(AfterPass(t).hands) == multiset(StandardDeck())
    ensures Ready(AfterPass(t))
  {
    DeliverySizes(t);
    TwoOfClubsIsHeld(AfterPass(t).hands);
    assert PlayingWell(AfterPass(t).(next := None));
  }

  lemma AllPassed(passed: set<nat>)
    requires |passed| >= PLAYER_COUNT && forall s | s in passed :: s < PLAYER_COUNT
    ensures forall s: nat | s < PLAYER_COUNT :: s in passed
  {
    forall s: nat | s < PLAYER_COUNT ensures s in passed {
      if s !in passed {
        SubsetSize(passed, {0, 1, 2, 3} - {s});
      }
    }
  }

  lemma PassGoesOn(p: Table)
    requires HalfPassed(p) && |p.passed| < PLAYER_COUNT && p.next.None?
    ensures Well(NextTurn(AfterPass(p))) && NextTurn(AfterPass(p)).stage == Passing
  {
    SomebodyUnpassed(p.passed, p.turn);
    var r := NextTurn(AfterPass(p));
    assert r == p.(turn := NextUnpassedSeat(p.passed, p.turn), next := None);
    assert PassingWell(r);
  }

  /** Every pass before the last one. */
  ghost predicate PassedOn(t: Table, n: Table) {
    && n.handNumber == t.handNumber && n.stage != HandOver
    && (n.stage == Passing ==> n.passed == t.passed + {t.turn})
  }

  lemma PassReady(t: Table, cards: seq<Card>)
    requires Valid(t) && Validate(t, PassCards(cards))
    ensures var r := AfterPass(Apply(t, PassCards(cards)));
            r.next.Some? && Valid(NextTurn(r)) && !r.matchComplete && PassedOn(t, NextTurn(r))
  {
    var p := Apply(t, PassCards(cards));
    assert |t.pending[t.turn]| == 0;
    PassAccounts(t, cards);
    PassKeeps(t, cards);
    if |p.passed| < PLAYER_COUNT {
      PassingContinues(p);
    } else {
      PassingEnds(p);
    }
  }

  lemma PassingContinues(p: Table)
    requires HalfPassed(p) && Accounted(p) && |p.passed| < PLAYER_COUNT && p.next.None?
    ensures var r := AfterPass(p);
            r.next.Some? && Valid(NextTurn(r)) && !r.matchComplete && NextTurn(r).stage == Passing
            && NextTurn(r).passed == p.passed && NextTurn(r).handNumber == p.handNumber
  {
    PassGoesOn(p);
    assert AllCards(NextTurn(AfterPass(p))) == AllCards(p);
  }

  lemma PassingEnds(p: Table)
    requires HalfPassed(p) && Accounted(p) && |p.passed| >= PLAYER_COUNT
    ensures var r := AfterPass(p);
            r.next.Some? && Valid(NextTurn(r)) && !r.matchComplete && NextTurn(r).stage == TrickPlay
            && NextTurn(r).handNumber == p.handNumber
  {
    DeliveryAccounts(p);
    NothingLaid(p);
    PassesDelivered(p);
    ReadyGoesOn(AfterPass(p));
    assert AllCards(NextTurn(AfterPass(p))) == AllCards(AfterPass(p));
  }

  lemma NothingLaid(p: Table)
    requires HalfPassed(p)
    ensures AllCards(p) == Pack(p.hands) + Pack(p.pending)
  {
    NothingPending();
  }

  lemma ReadyGoesOn(r: Table)
    requires Ready(r)
    ensures NextTurn(r) == r.(next := None) && Well(NextTurn(r))
  {
  }

  // ---- Playing ----

  /** A card has just been laid and the trick has not been looked at yet. */
  ghost predicate Laid(r: Table) {
    && Shaped(r) && MatchOpen(r) && r.stage == TrickPlay && r.next.None?
    && r.tricksPlayed < CARDS_PER_HAND && r.pending == NOTHING_EACH && !r.trickComplete
    && 1 <= |r.trick| <= PLAYER_COUNT && r.trick.Keys == SeatsFrom(r.leader, |r.trick|)
    && r.turn == (r.leader + |r.trick| - 1) % PLAYER_COUNT
    && r.leader in r.trick && r.led == r.trick[r.leader].suit
    && (forall s | 0 <= s < PLAYER_COUNT :: |r.hands[s]| == InHand(r, s))
    && Sum(r.points) == Penalty(r.taken)
    && (r.tricksPlayed == 0 ==> r.led == CLUBS)
  }

  /** With the won trick swept away the table is as it was, one card count lower for nobody. */
  ghost predicate Swept(t: Table) {
    && Shaped(t) && MatchOpen(t) && t.stage == TrickPlay && t.next.None?
    && PlayingWell(t) && !t.trickComplete
  }

  lemma SweepAccounts(t: Table)
    requires Shaped(t)
    ensures AllCards(StartTrick(t)) == AllCards(t)
  {
    NothingPending();
  }

  lemma SweepKeeps(t: Table)
    requires Well(t) && t.stage == TrickPlay
    ensures Swept(StartTrick(t)) && LeadingTrick(StartTrick(t)) == LeadingTrick(t)
  {
    if t.trickComplete {
      PenaltyOfBoth(t.taken, TrickCards(t.trick));
    }
  }

  lemma RoundGoesOn(leader: nat, k: nat)
    requires leader < PLAYER_COUNT
    ensures ((leader + k) % PLAYER_COUNT + 1) % PLAYER_COUNT == (leader + k + 1) % PLAYER_COUNT
  {
  }

  ghost predicate LaidDown(s: Table, r: Table, card: Card)
    requires Shaped(s)
  {
    && r == s.(hands := r.hands, led := r.led, leader := r.leader, trick := s.trick[s.turn := card], broken := r.broken)
    && r.hands == s.hands[s.turn := RemoveOne(s.hands[s.turn], card)]
    && r.leader == (if s.trick == map[] then s.turn else s.leader)
    && r.led == (if s.trick == map[] then card.suit else s.led)
  }

  lemma LayAccounts(s: Table, r: Table, card: Card)
    requires Shaped(s) && LaidDown(s, r, card) && card in s.hands[s.turn] && s.turn !in s.trick
    ensures AllCards(r) == AllCards(s)
  {
    PackAdds(r.hands, s.hands, s.turn, multiset{card}, PLAYER_COUNT);
    TrickGrows(s.trick, r.trick, s.turn, card, PLAYER_COUNT);
  }

  function LeaderNow(s: Table): nat {
    if s.trick == map[] then s.turn else s.leader
  }

  lemma FirstToLead(turn: nat)
    requires turn < PLAYER_COUNT
    ensures turn == (turn + 0) % PLAYER_COUNT && SeatsFrom(turn, 0) == {} && SeatsFrom(turn, 1) == {turn}
  {
    Sits(turn, 0, turn, {});
  }

  lemma TurnNotInTrick(s: Table)
    requires Shaped(s) && InTurn(s) && !s.trickComplete
    ensures s.turn !in s.trick && |s.trick| < PLAYER_COUNT && s.turn == (LeaderNow(s) + |s.trick|) % PLAYER_COUNT
    ensures SeatsFrom(LeaderNow(s), |s.trick| + 1) == s.trick.Keys + {s.turn}
  {
    if s.trick == map[] {
      FirstToLead(s.turn);
      assert |s.trick| == 0;
      assert s.trick.Keys + {s.turn} == {s.turn};
    } else {
      Sits(s.leader, |s.trick|, s.turn, s.trick.Keys);
    }
  }

  /** The order of play with one more card down. */
  lemma LayOrder(s: Table, r: Table, card: Card)
    requires Shaped(s) && InTurn(s) && !s.trickComplete && LaidDown(s, r, card)
    ensures 1 <= |r.trick| <= PLAYER_COUNT && r.trick.Keys == SeatsFrom(r.leader, |r.trick|)
    ensures r.turn == (r.leader + |r.trick| - 1) % PLAYER_COUNT && r.leader in r.trick
    ensures r.led == r.trick[r.leader].suit
  {
    TurnNotInTrick(s);
    assert r.leader == LeaderNow(s);
    assert |r.trick| == |s.trick| + 1;
    assert r.trick.Keys == s.trick.Keys + {s.turn};
  }

  lemma LayKeeps(s: Table, r: Table, card: Card)
    requires Swept(s) && LaidDown(s, r, card) && ValidPlay(s, s.hands[s.turn], card)
    ensures Laid(r)
  {
    TurnNotInTrick(s);
    LayOrder(s, r, card);
    LayCounts(s, r, card);
  }

  lemma LayCounts(s: Table, r: Table, card: Card)
    requires Shaped(s) && LaidDown(s, r, card) && card in s.hands[s.turn] && s.turn !in s.trick && !s.trickComplete
    requires forall seat | 0 <= seat < PLAYER_COUNT :: |s.hands[seat]| == InHand(s, seat)
    ensures forall seat | 0 <= seat < PLAYER_COUNT :: |r.hands[seat]| == InHand(r, seat)
    ensures CardsLeft(r.hands) < CardsLeft(s.hands)
  {
    forall seat | 0 <= seat < PLAYER_COUNT && seat != s.turn ensures r.hands[seat] == s.hands[seat] {
    }
  }

  lemma ApplyLays(t: Table, card: Card)
    requires Shaped(t)
    ensures LaidDown(StartTrick(t), Apply(t, PlayCard(card)), card)
  {
  }

  lemma PlayLays(t: Table, card: Card)
    requires Valid(t) && Validate(t, PlayCard(card))
    ensures var r := Apply(t, PlayCard(card));
            && Laid(r) && Accounted(r) && r.handNumber == t.handNumber && CardsLeft(r.hands) < CardsLeft(t.hands)
  {
    var s, r := StartTrick(t), Apply(t, PlayCard(card));
    SweepKeeps(t);
    SweepAccounts(t);
    ApplyLays(t, card);
    assert ValidPlay(s, s.hands[s.turn], card);
    TurnNotInTrick(s);
    LayCounts(s, r, card);
    LayAccounts(s, r, card);
    LayKeeps(s, r, card);
  }

  function CardsLeft(hands: seq<seq<Card>>): nat
    requires |hands| == PLAYER_COUNT
  {
    |hands[0]| + |hands[1]| + |hands[2]| + |hands[3]|
  }

  /** The trick goes to the highest card of the suit led. */
  lemma {:induction false} BestIsHighest(trick: map<nat, Card>, led: nat, leader: nat, n: nat, s: nat)
    requires s < n && s in trick && trick[s].suit == led
    ensures var best := BestOfTrick(trick, led, leader, n);
            && best.1 in trick && trick[best.1].suit == led && RankValue(trick[best.1].rank) == best.0
            && RankValue(trick[s].rank) <= best.0
  {
    var before := BestOfTrick(trick, led, leader, n - 1);
    if s < n - 1 {
      BestIsHighest(trick, led, leader, n - 1, s);
    } else {
      BestStartsLow(trick, led, leader, n - 1);
    }
  }

  lemma {:induction false} BestStartsLow(trick: map<nat, Card>, led: nat, leader: nat, n: nat)
    ensures var best := BestOfTrick(trick, led, leader, n);
            best.0 == -1 || (best.1 in trick && trick[best.1].suit == led && RankValue(trick[best.1].rank) == best.0)
  {
    if n > 0 {
      BestStartsLow(trick, led, leader, n - 1);
    }
  }

  lemma WinnerTookTheTrick(r: Table, s: nat)
    requires Laid(r) && s < PLAYER_COUNT && s in r.trick && r.trick[s].suit == r.led
    ensures TrickWinner(r) in r.trick && r.trick[TrickWinner(r)].suit == r.led
    ensures RankValue(r.trick[s].rank) <= RankValue(r.trick[TrickWinner(r)].rank)
  {
    BestIsHighest(r.trick, r.led, r.leader, PLAYER_COUNT, s);
  }

  /** The trick is in somebody's points but still on the table. */
  ghost function Won(r: Table): Table
    requires Shaped(r) && TrickWinner(r) < PLAYER_COUNT
  {
    var winner := TrickWinner(r);
    r.(points := r.points[winner := r.points[winner] + Penalty(TrickCards(r.trick))], lastWinner := Some(winner),
       tricksPlayed := r.tricksPlayed + 1, trickComplete := true)
  }

  lemma WonKeeps(r: Table)
    requires Laid(r) && |r.trick| == PLAYER_COUNT && TrickWinner(r) < PLAYER_COUNT
    ensures var w := Won(r);
            && Shaped(w) && InTurn(w)
            && Sum(w.points) == Penalty(w.taken) + Penalty(TrickCards(w.trick))
            && forall s | 0 <= s < PLAYER_COUNT :: |w.hands[s]| == InHand(w, s)
  {
    SeatsGoRound(r.leader, 0);
    assert r.trick.Keys == {0, 1, 2, 3};
    PointsAdd(r.points, TrickWinner(r), Penalty(TrickCards(r.trick)));
    WonCounts(r);
  }

  lemma PointsAdd(points: seq<nat>, seat: nat, more: nat)
    requires |points| == PLAYER_COUNT && seat < PLAYER_COUNT
    ensures Sum(points[seat := points[seat] + more]) == Sum(points) + more
  {
  }

  lemma WonCounts(r: Table)
    requires Laid(r) && r.trick.Keys == {0, 1, 2, 3} && TrickWinner(r) < PLAYER_COUNT
    ensures forall s | 0 <= s < PLAYER_COUNT :: |Won(r).hands[s]| == InHand(Won(r), s)
  {
    forall s | 0 <= s < PLAYER_COUNT ensures |Won(r).hands[s]| == InHand(Won(r), s) {
      assert |r.hands[s]| == InHand(r, s) && s in r.trick;
    }
  }

  lemma OrderGoesOn(r: Table)
    requires Shaped(r) && !r.trickComplete && 1 <= |r.trick| < PLAYER_COUNT
    requires r.trick.Keys == SeatsFrom(r.leader, |r.trick|) && r.turn == (r.leader + |r.trick| - 1) % PLAYER_COUNT
    requires r.leader in r.trick && r.led == r.trick[r.leader].suit
    ensures InTurn(r.(turn := (r.turn + 1) % PLAYER_COUNT))
  {
    RoundGoesOn(r.leader, |r.trick| - 1);
  }

  lemma TrickGoesOn(r: Table)
    requires Laid(r) && |r.trick| < PLAYER_COUNT
    ensures Well(NextTurn(r)) && NextTurn(r).stage == TrickPlay
  {
    OrderGoesOn(r);
    var n := NextTurn(r);
    assert n == r.(turn := (r.turn + 1) % PLAYER_COUNT);
    assert r.trick != map[];
    assert PlayingWell(n);
  }

  lemma NextTrickReady(r: Table)
    requires Laid(r) && |r.trick| == PLAYER_COUNT && r.tricksPlayed + 1 < CARDS_PER_HAND
    requires TrickWinner(r) < PLAYER_COUNT
    ensures Ready(EndTrick(r)) && EndTrick(r).stage == TrickPlay
  {
    WonKeeps(r);
    WinnerLeads(Won(r), TrickWinner(r));
    TrickIsLed(r);
  }

  lemma TrickIsLed(r: Table)
    requires Shaped(r) && TrickWinner(r) < PLAYER_COUNT && r.tricksPlayed + 1 < CARDS_PER_HAND
    ensures EndTrick(r) == Won(r).(turn := TrickWinner(r), next := Some(TrickWinner(r)))
  {
  }

  lemma WinnerLeads(w: Table, seat: nat)
    requires Shaped(w) && InTurn(w) && MatchOpen(w) && w.stage == TrickPlay && w.trickComplete && seat < PLAYER_COUNT
    requires 0 < w.tricksPlayed < CARDS_PER_HAND && w.pending == NOTHING_EACH
    requires Sum(w.points) == Penalty(w.taken) + Penalty(TrickCards(w.trick))
    requires forall s | 0 <= s < PLAYER_COUNT :: |w.hands[s]| == InHand(w, s)
    ensures Ready(w.(turn := seat, next := Some(seat)))
  {
    var e := w.(turn := seat, next := None);
    assert w.(turn := seat, next := Some(seat)).(next := None) == e;
    assert forall s | 0 <= s < PLAYER_COUNT :: InHand(e, s) == InHand(w, s);
  }

  lemma {:induction false} EmptyPack(piles: seq<seq<Card>>, n: nat)
    requires n <= |piles| && forall s | 0 <= s < n :: |piles[s]| == 0
    ensures PackUpTo(piles, n) == multiset{}
  {
    if n > 0 {
      EmptyPack(piles, n - 1);
    }
  }

  /** Thirteen tricks are the whole deck, and its points are all in. */
  lemma HandIsWorth26(r: Table)
    requires Laid(r) && Accounted(r) && |r.trick| == PLAYER_COUNT && r.tricksPlayed + 1 == CARDS_PER_HAND
    requires TrickWinner(r) < PLAYER_COUNT
    ensures Sum(Won(r).points) == PENALTY_POINTS_TOTAL
  {
    WonKeeps(r);
    var w := Won(r);
    AllOnTheTable(w);
    assert AllCards(w) == AllCards(r);
    DeckIsWorth26(w.taken + TrickCards(w.trick));
    PenaltyOfBoth(w.taken, TrickCards(w.trick));
  }

  lemma AllOnTheTable(w: Table)
    requires Shaped(w) && w.pending == NOTHING_EACH && forall s | 0 <= s < PLAYER_COUNT :: |w.hands[s]| == 0
    ensures AllCards(w) == multiset(w.taken + TrickCards(w.trick))
  {
    NothingPending();
    EmptyPack(w.hands, PLAYER_COUNT);
  }

  /** A match that ended by the scores. */
  ghost predicate Decided(t: Table) {
    && Shaped(t) && t.matchComplete && t.handComplete && t.handNumber <= 16
    && AnyAtLeast(t.totals, TARGET_SCORE) && Sum(t.totals) >= PENALTY_POINTS_TOTAL * t.handNumber
  }

  lemma HandEnds(r: Table)
    requires Laid(r) && |r.trick| == PLAYER_COUNT && r.tricksPlayed + 1 == CARDS_PER_HAND
    requires TrickWinner(r) < PLAYER_COUNT && Sum(Won(r).points) == PENALTY_POINTS_TOTAL
    ensures var e := EndTrick(r);
            && e.handNumber == r.handNumber && e.stage == HandOver
            && if e.matchComplete then Decided(e) else Ready(e)
  {
    AtMostSixteenHands(r);
    assert EndTrick(r) == EndHand(Won(r));
    EndHandCloses(Won(r));
  }

  /** Scoring a hand of 26 points either decides the match or leaves it waiting for the next deal. */
  lemma EndHandCloses(w: Table)
    requires Shaped(w) && 1 <= w.handNumber <= 16 && !w.matchComplete && Sum(w.points) == PENALTY_POINTS_TOTAL
    requires (forall s | 0 <= s < PLAYER_COUNT :: w.totals[s] < TARGET_SCORE)
    requires Sum(w.totals) >= PENALTY_POINTS_TOTAL * (w.handNumber - 1)
    ensures var e := EndHand(w);
            && e.handNumber == w.handNumber && e.stage == HandOver
            && if e.matchComplete then Decided(e) else Ready(e)
  {
    HandAdds26Or78(w.points, w.totals);
    assert Sum(ScoreHand(w.points, w.totals)) >= PENALTY_POINTS_TOTAL * w.handNumber;
  }

  lemma AfterPlayAccounts(r: Table)
    requires Shaped(r)
    ensures Shaped(AfterPlay(r)) && AllCards(AfterPlay(r)) == AllCards(r)
  {
    WinnerInRange(r.trick, r.led, r.leader, PLAYER_COUNT);
    var e := AfterPlay(r);
    assert e.hands == r.hands && e.pending == r.pending && e.trick == r.trick && e.taken == r.taken;
  }

  /** The hand is over, or fewer cards are left in it. */
  ghost predicate Nearer(t: Table, n: Table)
    requires Shaped(t) && Shaped(n)
  {
    n.stage == HandOver || (n.stage == TrickPlay && CardsLeft(n.hands) < CardsLeft(t.hands))
  }

  lemma PlayGoesOn(r: Table)
    requires Laid(r) && Accounted(r)
    ensures var e := AfterPlay(r);
            && e.handNumber == r.handNumber && e.hands == r.hands
            && (e.matchComplete ==> Decided(e))
            && (!e.matchComplete ==> Well(NextTurn(e)) && NextTurn(e).stage != Passing)
  {
    WinnerInRange(r.trick, r.led, r.leader, PLAYER_COUNT);
    if |r.trick| < PLAYER_COUNT {
      TrickGoesOn(r);
    } else {
      TrickEndsWell(r);
    }
  }

  lemma TrickEndsWell(r: Table)
    requires Laid(r) && Accounted(r) && |r.trick| == PLAYER_COUNT && TrickWinner(r) < PLAYER_COUNT
    ensures var e := EndTrick(r);
            && e.handNumber == r.handNumber && e.hands == r.hands
            && (e.matchComplete ==> Decided(e))
            && (!e.matchComplete ==> Well(NextTurn(e)) && NextTurn(e).stage != Passing)
  {
    if r.tricksPlayed + 1 < CARDS_PER_HAND {
      NextTrickReady(r);
      ReadyGoesOn(EndTrick(r));
    } else {
      HandIsWorth26(r);
      HandEnds(r);
      if !EndTrick(r).matchComplete {
        ReadyGoesOn(EndTrick(r));
      }
    }
  }

  lemma PlayReady(t: Table, card: Card)
    requires Valid(t) && Validate(t, PlayCard(card))
    ensures var e := AfterPlay(Apply(t, PlayCard(card)));
            && e.handNumber == t.handNumber && Shaped(e) && Accounted(e)
            && (e.matchComplete ==> Decided(e))
            && (!e.matchComplete ==> Valid(NextTurn(e)) && Nearer(t, NextTurn(e)))
  {
    var r := Apply(t, PlayCard(card));
    PlayLays(t, card);
    PlayGoesOn(r);
    AfterPlayAccounts(r);
    var e := AfterPlay(r);
    if !e.matchComplete {
      assert AllCards(NextTurn(e)) == AllCards(e);
    }
  }

  // ---- Whole matches ----

  datatype Event =
    | Act(a: Action, shuffled: seq<Card>)  // shuffled is the deck a new hand would be dealt from
    | Leave

  ghost predicate Possible(e: Event) {
    e.Act? ==> FullDeck(e.shuffled)
  }

  /** Anybody leaving completes the match. */
  function Step(t: Table, e: Event): Game
    requires Shaped(t) && (e.Act? ==> |e.shuffled| == 52)
  {
    match e
    case Act(a, shuffled) => Submit(t, a, shuffled)
    case Leave => Finished(t.(matchComplete := true))
  }

  ghost predicate Sound(g: Game) {
    match g
    case Playing(t) => Valid(t) && t.handNumber <= 16
    case Finished(t) => Shaped(t) && Accounted(t) && t.handNumber <= 16
  }

  /** Hands that can still come, what is left of this one, and cards or passes to go. */
  datatype Rank = Rank(hands: int, stage: nat, left: nat)

  function RankOf(t: Table): Rank
    requires Shaped(t)
  {
    match t.stage
    case Passing => Rank(16 - t.handNumber, 2, PLAYER_COUNT - (if |t.passed| <= PLAYER_COUNT then |t.passed| else 0))
    case TrickPlay => Rank(16 - t.handNumber, 1, CardsLeft(t.hands))
    case HandOver => Rank(16 - t.handNumber, 0, 0)
  }

  predicate Lower(a: Rank, b: Rank) {
    if a.hands != b.hands then 0 <= a.hands < b.hands
    else if a.stage != b.stage then a.stage < b.stage
    else a.left < b.left
  }

  lemma NextHandReady(t: Table, shuffled: seq<Card>)
    requires Valid(t) && Validate(t, NextHand) && FullDeck(shuffled)
    ensures var b := BeginHand(t, t.turn, shuffled);
            Valid(NextTurn(b)) && NextTurn(b).handNumber == t.handNumber + 1 && !b.matchComplete
  {
    HandBegins(t, t.turn, shuffled);
    var b := BeginHand(t, t.turn, shuffled);
    ReadyGoesOn(b);
    assert AllCards(NextTurn(b)) == AllCards(b);
  }

  lemma PassIsSound(t: Table, cards: seq<Card>, shuffled: seq<Card>)
    requires Valid(t) && Validate(t, PassCards(cards)) && FullDeck(shuffled)
    ensures var g := Submit(t, PassCards(cards), shuffled);
            g.Playing? && Valid(g.t) && g.t.handNumber == t.handNumber && Lower(RankOf(g.t), RankOf(t))
  {
    PassReady(t, cards);
    var a, s := PassCards(cards), AfterPass(Apply(t, PassCards(cards)));
    SubmitIs(t, a, shuffled, s);
    PassLowers(t, NextTurn(s));
  }

  /** What an accepted action comes to once its consequences are settled. */
  lemma SubmitIs(t: Table, a: Action, shuffled: seq<Card>, s: Table)
    requires Shaped(t) && |shuffled| == 52 && Validate(t, a) && After(Apply(t, a), a, shuffled) == s
    ensures Submit(t, a, shuffled) == if s.matchComplete then Finished(s) else Playing(NextTurn(s))
  {
  }

  lemma PassLowers(t: Table, n: Table)
    requires Shaped(t) && Shaped(n) && t.stage == Passing && PassedOn(t, n)
    requires t.turn !in t.passed && forall s | s in t.passed :: s < PLAYER_COUNT
    ensures Lower(RankOf(n), RankOf(t))
  {
    PassedFits(t.passed + {t.turn});
    PassedFits(t.passed);
    assert n.stage == Passing ==> |n.passed| == |t.passed| + 1;
  }

  lemma PlayIsSound(t: Table, card: Card, shuffled: seq<Card>)
    requires Valid(t) && Validate(t, PlayCard(card)) && FullDeck(shuffled)
    ensures var g := Submit(t, PlayCard(card), shuffled);
            && g.t.handNumber == t.handNumber
            && match g
               case Finished(d) => Decided(d) && Accounted(d)
               case Playing(n) => Valid(n) && Lower(RankOf(n), RankOf(t))
  {
    AtMostSixteenHands(t);
    PlayReady(t, card);
  }

  lemma NextIsSound(t: Table, shuffled: seq<Card>)
    requires Valid(t) && Validate(t, NextHand) && FullDeck(shuffled)
    ensures var g := Submit(t, NextHand, shuffled);
            g.Playing? && Valid(g.t) && g.t.handNumber == t.handNumber + 1 && Lower(RankOf(g.t), RankOf(t))
  {
    NextHandReady(t, shuffled);
    AtMostSixteenHands(NextTurn(BeginHand(t, t.turn, shuffled)));
    RankCountsHands(t);
    RankCountsHands(NextTurn(BeginHand(t, t.turn, shuffled)));
  }

  lemma RankCountsHands(t: Table)
    requires Shaped(t)
    ensures RankOf(t).hands == 16 - t.handNumber
  {
  }

  /** Every step keeps the invariant and, when it does something, lowers the rank. */
  lemma StepIsSound(t: Table, e: Event)
    requires Valid(t) && t.handNumber <= 16 && Possible(e)
    ensures Sound(Step(t, e))
    ensures Step(t, e).Playing? && Validate(t, e.a) ==> Lower(RankOf(Step(t, e).t), RankOf(t))
    ensures Step(t, e).Finished? && e.Act? ==> Decided(Step(t, e).t)
  {
    if e.Act? && Validate(t, e.a) {
      match e.a
      case NextHand =>
        NextIsSound(t, e.shuffled);
        AtMostSixteenHands(Step(t, e).t);
      case PassCards(cards) => PassIsSound(t, cards, e.shuffled);
      case PlayCard(card) => PlayIsSound(t, card, e.shuffled);
    }
  }

  lemma PassedFits(passed: set<nat>)
    requires forall s | s in passed :: s < PLAYER_COUNT
    ensures |passed| <= PLAYER_COUNT
  {
    SubsetSize(passed, {0, 1, 2, 3});
  }

  ghost function Run(g: Game, events: seq<Event>): Game
    requires g.Playing? ==> Valid(g.t) && g.t.handNumber <= 16
    decreases |events|
  {
    if events == [] || !g.Playing? || !Possible(events[0]) then g
    else
      StepIsSound(g.t, events[0]);
      Run(Step(g.t, events[0]), events[1..])
  }

  lemma {:induction false} RunIsSound(g: Game, events: seq<Event>)
    requires Sound(g)
    ensures Sound(Run(g, events))
    ensures g.Playing? && Run(g, events).Finished? ==> Decided(Run(g, events).t) || Event.Leave in events
    decreases |events|
  {
    if events != [] && g.Playing? && Possible(events[0]) {
      StepIsSound(g.t, events[0]);
      RunIsSound(Step(g.t, events[0]), events[1..]);
    }
  }

  lemma StartIsSound(first: nat, shuffled: seq<Card>)
    requires first < PLAYER_COUNT && FullDeck(shuffled)
    ensures Sound(Start(first, shuffled))
  {
    HandBegins(Blank(first), first, shuffled);
    var b := BeginHand(Blank(first), first, shuffled);
    ReadyGoesOn(b);
    assert AllCards(NextTurn(b)) == AllCards(b);
  }

  /**
   Over any plays, passes, timeouts and leaves: the 52 cards stay the 52 cards, the sixteenth hand is the last, and
   the match ends only with somebody at the target or gone.
   */
  lemma MatchIsSound(first: nat, shuffled: seq<Card>, events: seq<Event>)
    requires first < PLAYER_COUNT && FullDeck(shuffled)
    ensures Start(first, shuffled).Playing? && Valid(Start(first, shuffled).t)
    ensures var end := Run(Start(first, shuffled), events);
            Sound(end) && (end.Finished? ==> AnyAtLeast(end.t.totals, TARGET_SCORE) || Event.Leave in events)
  {
    StartIsSound(first, shuffled);
    RunIsSound(Start(first, shuffled), events);
  }
}
