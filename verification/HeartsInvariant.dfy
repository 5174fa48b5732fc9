/** Card accounting, a legal move in every state, and the points of a hand. */
module HeartsInvariant {
  import opened Cards
  import opened Options
  import opened HeartsRules

  // ---- Piles ----

  /** Hands, cards on their way to a neighbour, the trick on the table, and what has been swept off it. */
  ghost function AllCards(t: Table): multiset<Card>
    requires Shaped(t)
  {
    Pack(t.hands) + Pack(t.pending) + multiset(TrickCards(t.trick)) + multiset(t.taken)
  }

  /** Nothing lost, nothing doubled: the 52 cards. */
  ghost predicate Accounted(t: Table)
    requires Shaped(t)
  {
    AllCards(t) == multiset(StandardDeck())
  }

  lemma JoinGrows(a: seq<Card>, b: seq<Card>, more: seq<Card>, other: seq<Card>, x: multiset<Card>, y: multiset<Card>)
    requires multiset(more) == multiset(a) + x && multiset(other) == multiset(b) + y
    ensures multiset(more + other) == multiset(a + b) + (x + y)
  {
  }

  function OneIf(there: bool, card: Card): multiset<Card> {
    if there then multiset{card} else multiset{}
  }

  lemma OneIfAdds(seat: nat, n: nat, card: Card)
    ensures OneIf(seat < n, card) + OneIf(seat == n, card) == OneIf(seat < n + 1, card)
  {
  }

  lemma {:induction false} TrickGrows(trick: map<nat, Card>, more: map<nat, Card>, seat: nat, card: Card, n: nat)
    requires seat !in trick && more == trick[seat := card]
    ensures multiset(TrickUpTo(more, n)) == multiset(TrickUpTo(trick, n)) + OneIf(seat < n, card)
  {
    if n > 0 {
      TrickGrows(trick, more, seat, card, n - 1);
      PlayedGrows(trick, more, seat, card, n - 1);
      JoinGrows(TrickUpTo(trick, n - 1), Played(trick, n - 1), TrickUpTo(more, n - 1), Played(more, n - 1),
                OneIf(seat < n - 1, card), OneIf(seat == n - 1, card));
      OneIfAdds(seat, n - 1, card);
    }
  }

  lemma PlayedGrows(trick: map<nat, Card>, more: map<nat, Card>, seat: nat, card: Card, s: nat)
    requires seat !in trick && more == trick[seat := card]
    ensures multiset(Played(more, s)) == multiset(Played(trick, s)) + OneIf(seat == s, card)
  {
  }

  /** No hand holds a card twice. */
  lemma HandsDistinct(t: Table, seat: nat)
    requires Shaped(t) && Accounted(t) && seat < PLAYER_COUNT
    ensures Distinct(t.hands[seat])
    ensures forall c | c in t.hands[seat] :: Standard(c)
  {
    forall x ensures multiset(t.hands[seat])[x] <= (if Standard(x) then 1 else 0) {
      PackHolds(t.hands, seat, x, PLAYER_COUNT);
      DeckIsEveryCardOnce(x);
      assert AllCards(t)[x] == multiset(StandardDeck())[x];
    }
    CountedOnceIsDistinct(t.hands[seat]);
    forall c | c in t.hands[seat] ensures Standard(c) {
      assert multiset(t.hands[seat])[c] > 0;
    }
  }

  // ---- Points ----

  lemma {:induction false} PenaltyOfBoth(a: seq<Card>, b: seq<Card>)
    ensures Penalty(a + b) == Penalty(a) + Penalty(b)
  {
    if a == [] {
      assert a + b == b;
    } else {
      assert (a + b)[1..] == a[1..] + b;
      PenaltyOfBoth(a[1..], b);
    }
  }

  lemma PenaltyWithout(b: seq<Card>, c: Card)
    requires c in b
    ensures Penalty(b) == PointsOf(c) + Penalty(RemoveOne(b, c))
  {
    var i := IndexOf(b, c);
    assert b == b[..i] + ([c] + b[i + 1..]);
    PenaltyOfBoth(b[..i], [c] + b[i + 1..]);
    PenaltyOfBoth([c], b[i + 1..]);
    PenaltyOfBoth(b[..i], b[i + 1..]);
  }

  lemma {:induction false} PenaltyInAnyOrder(a: seq<Card>, b: seq<Card>)
    requires multiset(a) == multiset(b)
    ensures Penalty(a) == Penalty(b)
    decreases |a|
  {
    if a == [] {
      assert |multiset(b)| == 0;
    } else {
      var c, rest := a[0], RemoveOne(b, a[0]);
      assert a == [c] + a[1..];
      assert c in multiset(b);
      assert multiset(a[1..]) == multiset(a) - multiset{c};
      assert multiset(rest) == multiset(b) - multiset{c};
      PenaltyInAnyOrder(a[1..], rest);
      PenaltyWithout(b, c);
    }
  }

  lemma {:induction false} PenaltyOfDeck(n: nat)
    requires n <= 52
    ensures Penalty(StandardDeck()[..n]) ==
            if n <= 11 then 0 else if n <= 13 then 13 else if n <= 26 then n else PENALTY_POINTS_TOTAL
  {
    if n > 0 {
      var deck := StandardDeck();
      PenaltyOfDeck(n - 1);
      assert deck[..n] == deck[..n - 1] + [deck[n - 1]];
      PenaltyOfBoth(deck[..n - 1], [deck[n - 1]]);
      assert deck[n - 1] == Card((n - 1) % 13 + 1, (n - 1) / 13 + 1);
    }
  }

  /** A whole deck of tricks is worth 26 points. */
  lemma DeckIsWorth26(cards: seq<Card>)
    requires multiset(cards) == multiset(StandardDeck())
    ensures Penalty(cards) == PENALTY_POINTS_TOTAL
  {
    PenaltyOfDeck(52);
    assert StandardDeck()[..52] == StandardDeck();
    PenaltyInAnyOrder(cards, StandardDeck());
  }

  function Sum(scores: seq<nat>): nat
    requires |scores| == PLAYER_COUNT
  {
    scores[0] + scores[1] + scores[2] + scores[3]
  }

  /** A hand adds 26 points to the totals, or 78 when somebody took them all. */
  lemma HandAdds26Or78(points: seq<nat>, totals: seq<nat>)
    requires |points| == |totals| == PLAYER_COUNT && Sum(points) == PENALTY_POINTS_TOTAL
    ensures Sum(ScoreHand(points, totals)) == Sum(totals) + if Shooter(points).Some? then 78 else 26
  {
    FirstShooter(points, 0);
  }

  /** Points are their owner's, unless one seat took them all: then that seat is spared and every other takes 26. */
  lemma MoonSparesTheShooter(points: seq<nat>, totals: seq<nat>, seat: nat)
    requires |points| == |totals| == PLAYER_COUNT && Sum(points) == PENALTY_POINTS_TOTAL && seat < PLAYER_COUNT
    ensures ScoreHand(points, totals)[seat] == totals[seat] +
              if exists s :: 0 <= s < PLAYER_COUNT && points[s] == PENALTY_POINTS_TOTAL
              then PENALTY_POINTS_TOTAL - points[seat] else points[seat]
  {
    FirstShooter(points, 0);
    NoShooter(points, 0);
  }

  lemma {:induction false} NoShooter(points: seq<nat>, i: nat)
    requires i <= |points|
    ensures Shooter(points, i).None? ==> forall s | i <= s < |points| :: points[s] != PENALTY_POINTS_TOTAL
    decreases |points| - i
  {
    if i < |points| {
      NoShooter(points, i + 1);
    }
  }

  lemma {:induction false} FirstShooter(points: seq<nat>, i: nat)
    requires i <= |points|
    ensures Shooter(points, i).Some? ==>
              i <= Shooter(points, i).value < |points| && points[Shooter(points, i).value] == PENALTY_POINTS_TOTAL
    decreases |points| - i
  {
    if i < |points| && points[i] != PENALTY_POINTS_TOTAL {
      FirstShooter(points, i + 1);
    }
  }

  // ---- The invariant ----

  /** The k seats clockwise from leader on. */
  function SeatsFrom(leader: nat, k: nat): set<nat> {
    if k == 0 then {} else SeatsFrom(leader, k - 1) + {(leader + k - 1) % PLAYER_COUNT}
  }

  lemma SeatsGoRound(leader: nat, k: nat)
    requires leader < PLAYER_COUNT && k < PLAYER_COUNT
    ensures (leader + k) % PLAYER_COUNT !in SeatsFrom(leader, k)
    ensures SeatsFrom(leader, k + 1) == SeatsFrom(leader, k) + {(leader + k) % PLAYER_COUNT}
    ensures SeatsFrom(leader, 4) == {0, 1, 2, 3}
    ensures k > 0 ==> leader in SeatsFrom(leader, k)
    ensures forall s | s in SeatsFrom(leader, k) :: s < PLAYER_COUNT
  {
    assert SeatsFrom(leader, 0) == {};
    assert SeatsFrom(leader, 1) == {leader};
    assert SeatsFrom(leader, 2) == {leader, (leader + 1) % 4};
    assert SeatsFrom(leader, 3) == {leader, (leader + 1) % 4, (leader + 2) % 4};
    assert SeatsFrom(leader, 4) == {leader, (leader + 1) % 4, (leader + 2) % 4, (leader + 3) % 4};
  }

  lemma Sits(leader: nat, k: nat, turn: nat, seats: set<nat>)
    requires leader < PLAYER_COUNT && k < PLAYER_COUNT && turn == (leader + k) % PLAYER_COUNT
    requires seats == SeatsFrom(leader, k)
    ensures turn !in seats && SeatsFrom(leader, k + 1) == seats + {turn}
  {
    SeatsGoRound(leader, k);
  }

  /** The cards on the table were played in turn from the leader on, and the next seat round is to play. */
  ghost predicate InTurn(t: Table) {
    && (t.trickComplete ==> t.trick.Keys == {0, 1, 2, 3})
    && (!LeadingTrick(t) ==>
          && |t.trick| < PLAYER_COUNT && t.trick.Keys == SeatsFrom(t.leader, |t.trick|)
          && t.turn == (t.leader + |t.trick|) % PLAYER_COUNT
          && t.leader in t.trick && t.led == t.trick[t.leader].suit)
  }

  function InHand(t: Table, seat: nat): int {
    CARDS_PER_HAND - t.tricksPlayed - (if !t.trickComplete && seat in t.trick then 1 else 0)
  }

  ghost predicate PassingWell(t: Table)
    requires Shaped(t)
  {
    && t.direction != PassNone && t.trick == map[] && !t.trickComplete && t.tricksPlayed == 0 && t.taken == []
    && Sum(t.points) == 0 && t.turn !in t.passed && (forall s | s in t.passed :: s < PLAYER_COUNT)
    && forall s | 0 <= s < PLAYER_COUNT ::
         && |t.hands[s]| == CARDS_PER_HAND - (if s in t.passed then CARDS_TO_PASS else 0)
         && |t.pending[s]| == if s in t.passed then CARDS_TO_PASS else 0
  }

  ghost predicate PlayingWell(t: Table)
    requires Shaped(t)
  {
    && t.tricksPlayed < CARDS_PER_HAND && t.pending == NOTHING_EACH && InTurn(t)
    && (forall s | 0 <= s < PLAYER_COUNT :: |t.hands[s]| == InHand(t, s))
    && Sum(t.points) == Penalty(t.taken) + (if t.trickComplete then Penalty(TrickCards(t.trick)) else 0)
    && (t.tricksPlayed == 0 ==>
          && !t.trickComplete
          && (t.trick == map[] ==> TWO_OF_CLUBS in t.hands[t.turn])
          && (t.trick != map[] ==> t.led == CLUBS))
  }

  /** Hands already in the totals. */
  function HandsScored(t: Table): int {
    if t.handComplete then t.handNumber else t.handNumber - 1
  }

  /** Nobody has reached the target, yet every hand scored added at least 26 points. */
  ghost predicate MatchOpen(t: Table)
    requires Shaped(t)
  {
    && t.handNumber >= 1 && !t.matchComplete && (t.handComplete <==> t.stage == HandOver)
    && (forall s | 0 <= s < PLAYER_COUNT :: t.totals[s] < TARGET_SCORE)
    && Sum(t.totals) >= PENALTY_POINTS_TOTAL * HandsScored(t)
  }

  /** A match waiting for the seat on turn, leaving aside which cards are where. */
  ghost predicate Well(t: Table) {
    && Shaped(t) && t.next.None? && MatchOpen(t)
    && (t.stage == Passing ==> PassingWell(t))
    && (t.stage == TrickPlay ==> PlayingWell(t))
  }

  ghost predicate Valid(t: Table) {
    Well(t) && Accounted(t)
  }

  /** There is no hand cap, yet no match outlives its sixteenth hand. */
  lemma AtMostSixteenHands(t: Table)
    requires Shaped(t) && MatchOpen(t)
    ensures t.handNumber <= 16
    ensures t.handComplete ==> t.handNumber <= 15
  {
    assert Sum(t.totals) <= 396;
  }

  // ---- A legal move in every state ----

  lemma {:induction false} FirstLegalFinds(t: Table, hand: seq<Card>, i: nat, k: nat)
    requires i <= k < |hand| && ValidPlay(t, hand, hand[k])
    ensures FirstLegal(t, hand, i).Some? && ValidPlay(t, hand, FirstLegal(t, hand, i).value)
    decreases |hand| - i
  {
    if !ValidPlay(t, hand, hand[i]) {
      FirstLegalFinds(t, hand, i + 1, k);
    }
  }

  /** Two of clubs to open, and later a heart only when nothing else can be led. */
  lemma SomeCardCanLead(t: Table, hand: seq<Card>) returns (card: Card)
    requires LeadingTrick(t) && hand != [] && (t.tricksPlayed == 0 ==> TWO_OF_CLUBS in hand)
    ensures ValidPlay(t, hand, card)
  {
    if t.tricksPlayed == 0 {
      card := TWO_OF_CLUBS;
    } else if OnlyHearts(hand) {
      card := hand[0];
    } else {
      card :| card in hand && card.suit != HEARTS;
    }
  }

  /** Suit to follow, and a point on the first trick only from a hand of nothing else. */
  lemma SomeCardCanFollow(t: Table, hand: seq<Card>) returns (card: Card)
    requires !LeadingTrick(t) && hand != [] && (t.tricksPlayed == 0 ==> t.led == CLUBS)
    ensures ValidPlay(t, hand, card)
  {
    if HandHasSuit(hand, t.led) {
      card :| card in hand && card.suit == t.led;
    } else if HasNonPenalty(hand) {
      card :| card in hand && !IsPenalty(card);
    } else {
      card := hand[0];
    }
  }

  lemma NotYetPlayed(t: Table)
    requires Shaped(t) && InTurn(t)
    ensures t.trickComplete || t.turn !in t.trick
  {
    if !LeadingTrick(t) {
      Sits(t.leader, |t.trick|, t.turn, t.trick.Keys);
    }
  }

  lemma TurnHoldsCards(t: Table)
    requires Shaped(t) && PlayingWell(t)
    ensures t.hands[t.turn] != []
  {
    NotYetPlayed(t);
    assert |t.hands[t.turn]| == InHand(t, t.turn);
  }

  lemma SomeCardIsLegal(t: Table) returns (k: nat)
    requires Well(t) && t.stage == TrickPlay
    ensures k < |t.hands[t.turn]| && ValidPlay(t, t.hands[t.turn], t.hands[t.turn][k])
  {
    var hand := t.hands[t.turn];
    var card: Card;
    TurnHoldsCards(t);
    if LeadingTrick(t) {
      card := SomeCardCanLead(t, hand);
    } else {
      card := SomeCardCanFollow(t, hand);
    }
    k :| 0 <= k < |hand| && hand[k] == card;
  }

  lemma {:induction false} InsertLowKeeps(s: seq<Card>, c: Card)
    ensures multiset(InsertLow(s, c)) == multiset(s) + multiset{c}
  {
    if s != [] {
      assert s == [s[0]] + s[1..];
      InsertLowKeeps(s[1..], c);
    }
  }

  lemma {:induction false} SortLowKeeps(s: seq<Card>)
    ensures multiset(SortLow(s)) == multiset(s) && |SortLow(s)| == |s|
  {
    if s != [] {
      assert s == [s[0]] + s[1..];
      SortLowKeeps(s[1..]);
      InsertLowKeeps(SortLow(s[1..]), s[0]);
    }
    assert |multiset(SortLow(s))| == |multiset(s)|;
  }

  lemma ThreeLowestPass(t: Table)
    requires Valid(t) && t.stage == Passing
    ensures ValidPass(t, ThreeLowest(t.hands[t.turn]))
  {
    var hand := t.hands[t.turn];
    HandsDistinct(t, t.turn);
    SortLowKeeps(hand);
    var sorted := SortLow(hand);
    forall x ensures multiset(sorted)[x] <= 1 {
      DistinctCountsOnce(hand, x);
    }
    CountedOnceIsDistinct(sorted);
    forall c | c in sorted[..CARDS_TO_PASS] ensures c in hand {
      assert c in multiset(sorted);
    }
  }

  /** Whoever is on turn, the automatic move exists and is accepted. */
  lemma TimeoutIsAccepted(t: Table)
    requires Valid(t)
    ensures TimeoutAction(t).Some? && Validate(t, TimeoutAction(t).value)
  {
    match t.stage
    case HandOver =>
    case Passing => ThreeLowestPass(t);
    case TrickPlay =>
      var k := SomeCardIsLegal(t);
      FirstLegalFinds(t, t.hands[t.turn], 0, k);
  }
}
