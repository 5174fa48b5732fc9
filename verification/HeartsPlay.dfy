/** Which cards the rules of Hearts take, what each accepted action does, and that nobody ever revokes. */
module HeartsPlay {
  import opened Cards
  import opened Options
  import opened HeartsRules
  import opened HeartsInvariant
  import opened HeartsRun

  // ---- What the table remembers of the hand ----

  /** A heart has been played in this hand. */
  ghost predicate HeartSeen(t: Table) {
    (exists c :: c in t.taken && c.suit == HEARTS)
    || exists s :: 0 <= s < PLAYER_COUNT && s in t.trick && t.trick[s].suit == HEARTS
  }

  /** Hands go left, right, across and nowhere in turn; the deal moves one seat on after each. */
  ghost predicate Kept(t: Table) {
    && (t.broken <==> HeartSeen(t))
    && t.handNumber >= 1 && t.direction == DirectionOf(t.handNumber)
    && (t.handComplete ==> t.turn == (t.dealer + 1) % PLAYER_COUNT)
  }

  // ---- Which cards are accepted ----

  /** Four cards on the table are a trick already won, so the next one leads. */
  predicate Leading(t: Table) {
    t.trickComplete || t.trick == map[]
  }

  /** The rules of play, from the cards: nobody has played to a second trick yet when the seat on turn holds thirteen. */
  ghost predicate Lawful(t: Table, card: Card)
    requires Shaped(t) && (!Leading(t) ==> t.leader in t.trick)
  {
    var hand := t.hands[t.turn];
    && card in hand
    && (!Leading(t) ==> card.suit == t.trick[t.leader].suit || forall c | c in hand :: c.suit != t.trick[t.leader].suit)
    && (Leading(t) && card.suit == HEARTS ==> HeartSeen(t) || forall c | c in hand :: c.suit == HEARTS)
    && (|hand| == CARDS_PER_HAND ==>
          && (Leading(t) ==> card == TWO_OF_CLUBS)
          && (card.suit == HEARTS || card == QUEEN_OF_SPADES ==>
                forall c | c in hand :: c.suit == HEARTS || c == QUEEN_OF_SPADES))
  }

  lemma FirstTrickIsAFullHand(t: Table)
    requires Valid(t) && t.stage == TrickPlay
    ensures |t.hands[t.turn]| == CARDS_PER_HAND <==> t.tricksPlayed == 0
    ensures !Leading(t) ==> t.leader in t.trick && t.led == t.trick[t.leader].suit
  {
    NotYetPlayed(t);
    assert |t.hands[t.turn]| == InHand(t, t.turn);
  }

  lemma LawfulIsValid(t: Table, card: Card)
    requires Valid(t) && Kept(t) && t.stage == TrickPlay
    ensures !Leading(t) ==> t.leader in t.trick
    ensures Validate(t, PlayCard(card)) <==> Lawful(t, card)
  {
    FirstTrickIsAFullHand(t);
    assert LeadingTrick(t) == Leading(t);
  }

  /** A card changes the table exactly when playing it is lawful. */
  lemma OnlyLawfulCardsCount(t: Table, card: Card, shuffled: seq<Card>)
    requires Valid(t) && Kept(t) && t.stage == TrickPlay && FullDeck(shuffled)
    ensures !Leading(t) ==> t.leader in t.trick
    ensures Submit(t, PlayCard(card), shuffled) != Playing(t) <==> Lawful(t, card)
  {
    LawfulIsValid(t, card);
    if Validate(t, PlayCard(card)) {
      AtMostSixteenHands(t);
      StepIsSound(t, Act(PlayCard(card), shuffled));
    }
  }

  /** Three different cards of one's own, once. */
  ghost predicate LawfulPass(t: Table, cards: seq<Card>)
    requires Shaped(t)
  {
    |cards| == CARDS_TO_PASS && Distinct(cards) && forall c | c in cards :: c in t.hands[t.turn]
  }

  lemma OnlyLawfulPassesCount(t: Table, cards: seq<Card>, shuffled: seq<Card>)
    requires Valid(t) && t.stage == Passing && FullDeck(shuffled)
    ensures Submit(t, PassCards(cards), shuffled) != Playing(t) <==> LawfulPass(t, cards)
  {
    assert Validate(t, PassCards(cards)) <==> LawfulPass(t, cards);
    if Validate(t, PassCards(cards)) {
      AtMostSixteenHands(t);
      StepIsSound(t, Act(PassCards(cards), shuffled));
    }
  }

  // ---- What the table goes on remembering ----

  lemma InTrick(trick: map<nat, Card>, n: nat, c: Card)
    ensures c in TrickUpTo(trick, n) <==> exists s :: 0 <= s < n && s in trick && trick[s] == c
  {
    if n > 0 {
      InTrick(trick, n - 1, c);
    }
  }

  /** Sweeping a trick takes no heart out of sight. */
  lemma SweepKeepsHearts(t: Table)
    ensures HeartSeen(StartTrick(t)) <==> HeartSeen(t)
  {
    if t.trickComplete {
      var cards := TrickCards(t.trick);
      forall c ensures c in cards <==> exists s :: 0 <= s < PLAYER_COUNT && s in t.trick && t.trick[s] == c {
        InTrick(t.trick, PLAYER_COUNT, c);
      }
      if HeartSeen(t) && !(exists c :: c in t.taken && c.suit == HEARTS) {
        var s :| 0 <= s < PLAYER_COUNT && s in t.trick && t.trick[s].suit == HEARTS;
        assert t.trick[s] in t.taken + cards;
      }
      if HeartSeen(StartTrick(t)) {
        var c :| c in t.taken + cards && c.suit == HEARTS;
        assert c in t.taken || c in cards;
      }
    }
  }

  lemma LayShowsHearts(s: Table, r: Table, card: Card)
    requires Shaped(s) && LaidDown(s, r, card) && s.turn !in s.trick
    ensures HeartSeen(r) <==> HeartSeen(s) || card.suit == HEARTS
  {
    assert r.trick[s.turn] == card;
    forall x | x in s.trick ensures r.trick[x] == s.trick[x] {
    }
  }

  lemma PlayKept(t: Table, card: Card)
    requires Valid(t) && Kept(t) && Validate(t, PlayCard(card))
    ensures var r := Apply(t, PlayCard(card)); r.broken <==> HeartSeen(r)
  {
    var s, r := StartTrick(t), Apply(t, PlayCard(card));
    SweepKeeps(t);
    SweepKeepsHearts(t);
    ApplyLays(t, card);
    TurnNotInTrick(s);
    LayShowsHearts(s, r, card);
  }

  /** What the trick's end and the hand's end leave alone. */
  lemma EndKeeps(r: Table)
    requires Shaped(r)
    ensures var e := AfterPlay(r);
            && e.broken == r.broken && e.taken == r.taken && e.trick == r.trick && e.handNumber == r.handNumber
            && e.direction == r.direction && e.dealer == r.dealer
            && (e.stage == HandOver && !e.matchComplete && r.stage == TrickPlay ==>
                  e.turn == (r.dealer + 1) % PLAYER_COUNT && e.next == Some(e.turn))
  {
  }

  lemma CardKept(t: Table, card: Card, shuffled: seq<Card>)
    requires Valid(t) && Kept(t) && Validate(t, PlayCard(card)) && FullDeck(shuffled)
    ensures var g := Submit(t, PlayCard(card), shuffled); g.Playing? ==> Kept(g.t)
  {
    var r := Apply(t, PlayCard(card));
    PlayKept(t, card);
    PlayLays(t, card);
    PlayReady(t, card);
    EndKeeps(r);
    var e := AfterPlay(r);
    SubmitIs(t, PlayCard(card), shuffled, e);
    if !e.matchComplete {
      StillKept(t, r, e);
    }
  }

  lemma StillKept(t: Table, r: Table, e: Table)
    requires Kept(t) && r.handNumber == t.handNumber && r.direction == t.direction && r.dealer == t.dealer
    requires r.broken <==> HeartSeen(r)
    requires e.broken == r.broken && e.taken == r.taken && e.trick == r.trick && e.handNumber == r.handNumber
    requires e.direction == r.direction && e.dealer == r.dealer && e.dealer < PLAYER_COUNT
    requires e.handComplete ==> e.turn == (r.dealer + 1) % PLAYER_COUNT && e.next == Some(e.turn)
    ensures Kept(NextTurn(e))
  {
    assert HeartSeen(NextTurn(e)) <==> HeartSeen(r);
  }

  // ---- Passing ----

  /** How many seats round the cards of a hand go: one left, one right, across, nowhere, and over again. */
  function Shift(handNumber: nat): nat {
    match handNumber % 4
    case 1 => 1
    case 2 => 3
    case 3 => 2
    case _ => 0
  }

  lemma RecipientIs(seat: nat, handNumber: nat)
    requires seat < PLAYER_COUNT && handNumber >= 1
    ensures PassRecipient(seat, DirectionOf(handNumber)) == (seat + Shift(handNumber)) % PLAYER_COUNT
    ensures DirectionOf(handNumber) == PassNone <==> Shift(handNumber) == 0
  {
  }

  /** Everybody's three cards arrive with the seat the hand's number says. */
  lemma DeliveredRound(t: Table, seat: nat)
    requires Shaped(t) && t.handNumber >= 1 && t.direction == DirectionOf(t.handNumber) && seat < PLAYER_COUNT
    ensures var to := (seat + Shift(t.handNumber)) % PLAYER_COUNT;
            Deliver(t.hands, t.pending, t.direction, PLAYER_COUNT)[to] == t.hands[to] + t.pending[seat]
  {
    var to := (seat + Shift(t.handNumber)) % PLAYER_COUNT;
    RecipientIs(seat, t.handNumber);
    DeliveredSoFar(t.hands, t.pending, t.direction, PLAYER_COUNT, to);
    if PassSender(to, t.direction) != seat {
      PassIsBijection(t.direction, PassSender(to, t.direction), seat);
    }
  }

  /** The hands and the cards set aside once the seat on turn has given up its three. */
  function HandLess(t: Table, cards: seq<Card>, seat: nat): seq<Card>
    requires Shaped(t) && seat < PLAYER_COUNT
  {
    if seat == t.turn then RemoveEach(t.hands[seat], cards) else t.hands[seat]
  }

  function Aside(t: Table, cards: seq<Card>, seat: nat): seq<Card>
    requires Shaped(t) && seat < PLAYER_COUNT
  {
    if seat == t.turn then cards else t.pending[seat]
  }

  /** A pass before the last one only sets three cards aside, and somebody who has not passed is next. */
  ghost predicate PassedAside(t: Table, n: Table, cards: seq<Card>)
    requires Shaped(t) && Shaped(n)
  {
    && n.stage == Passing && n.passed == t.passed + {t.turn} && n.turn !in n.passed
    && forall seat: nat | seat < PLAYER_COUNT ::
         n.hands[seat] == HandLess(t, cards, seat) && n.pending[seat] == Aside(t, cards, seat)
  }

  /** The last pass sends everybody's cards on their way and opens play with the two of clubs. */
  ghost predicate PassesArrive(t: Table, n: Table, cards: seq<Card>)
    requires Shaped(t) && Shaped(n)
  {
    && n.stage == TrickPlay && TWO_OF_CLUBS in n.hands[n.turn]
    && forall seat: nat | seat < PLAYER_COUNT ::
         var to := (seat + Shift(t.handNumber)) % PLAYER_COUNT;
         n.hands[to] == HandLess(t, cards, to) + Aside(t, cards, seat)
  }

  lemma PassMoves(t: Table, cards: seq<Card>, shuffled: seq<Card>)
    requires Valid(t) && Kept(t) && Validate(t, PassCards(cards)) && FullDeck(shuffled)
    ensures var g := Submit(t, PassCards(cards), shuffled);
            && g.Playing? && Kept(g.t) && Valid(g.t) && g.t.totals == t.totals
            && if |t.passed + {t.turn}| < PLAYER_COUNT then PassedAside(t, g.t, cards) else PassesArrive(t, g.t, cards)
  {
    var p := Apply(t, PassCards(cards));
    PassReady(t, cards);
    SubmitIs(t, PassCards(cards), shuffled, AfterPass(p));
    PassDone(t, cards, p, NextTurn(AfterPass(p)));
  }

  lemma PassDone(t: Table, cards: seq<Card>, p: Table, n: Table)
    requires Valid(t) && Kept(t) && Validate(t, PassCards(cards)) && p == Apply(t, PassCards(cards))
    requires n == NextTurn(AfterPass(p)) && Valid(n) && PassedOn(t, n)
    ensures Kept(n) && n.totals == t.totals
    ensures if |p.passed| < PLAYER_COUNT then PassedAside(t, n, cards) else PassesArrive(t, n, cards)
  {
    PassKept(t, p, n);
    if |p.passed| < PLAYER_COUNT {
      PassingTurn(p);
      StillPassing(t, cards, p, n);
    } else {
      LastPassDelivers(t, cards, p);
      PlayOpens(p);
    }
  }

  lemma StillPassing(t: Table, cards: seq<Card>, p: Table, n: Table)
    requires Shaped(t) && Shaped(n) && p.stage == Passing && p.passed == t.passed + {t.turn} && |p.passed| < PLAYER_COUNT
    requires p.hands == t.hands[t.turn := RemoveEach(t.hands[t.turn], cards)] && p.pending == t.pending[t.turn := cards]
    requires n == p.(turn := n.turn, next := None) && n.turn !in n.passed
    ensures PassedAside(t, n, cards)
  {
  }

  lemma PassingTurn(p: Table)
    requires Shaped(p) && p.stage == Passing && |p.passed| < PLAYER_COUNT && Valid(NextTurn(AfterPass(p)))
    ensures var n := NextTurn(AfterPass(p)); n == p.(turn := n.turn, next := None) && n.turn !in n.passed
  {
    assert PassingWell(NextTurn(AfterPass(p)));
  }

  lemma PlayOpens(p: Table)
    requires Shaped(p) && p.trick == map[] && p.tricksPlayed == 0 && |p.passed| >= PLAYER_COUNT
    requires Valid(NextTurn(AfterPass(p)))
    ensures var n := NextTurn(AfterPass(p));
            n.stage == TrickPlay && TWO_OF_CLUBS in n.hands[n.turn] && n.hands == AfterPass(p).hands
  {
    assert PlayingWell(NextTurn(AfterPass(p)));
  }

  lemma LastPassDelivers(t: Table, cards: seq<Card>, p: Table)
    requires Shaped(t) && Shaped(p) && t.handNumber >= 1 && p.direction == t.direction == DirectionOf(t.handNumber)
    requires p.handNumber == t.handNumber && |p.passed| >= PLAYER_COUNT
    requires p.hands == t.hands[t.turn := RemoveEach(t.hands[t.turn], cards)] && p.pending == t.pending[t.turn := cards]
    ensures forall seat: nat | seat < PLAYER_COUNT ::
              var to := (seat + Shift(t.handNumber)) % PLAYER_COUNT;
              AfterPass(p).hands[to] == HandLess(t, cards, to) + Aside(t, cards, seat)
  {
    forall seat: nat | seat < PLAYER_COUNT
      ensures var to := (seat + Shift(t.handNumber)) % PLAYER_COUNT;
              AfterPass(p).hands[to] == HandLess(t, cards, to) + Aside(t, cards, seat)
    {
      DeliveredRound(p, seat);
    }
  }

  lemma PassKept(t: Table, p: Table, n: Table)
    requires Kept(t) && p.taken == n.taken == t.taken && p.trick == n.trick == t.trick && n.broken == t.broken
    requires n.handNumber == t.handNumber && n.direction == t.direction && !n.handComplete
    ensures Kept(n)
  {
    assert HeartSeen(n) <==> HeartSeen(t);
  }

  // ---- Playing ----

  /** The card goes from the hand to the table: into the trick, or, with the last one swept away, as a new trick. */
  ghost predicate CardLaid(t: Table, n: Table, card: Card)
    requires Shaped(t)
  {
    && n.hands == t.hands[t.turn := RemoveOne(t.hands[t.turn], card)]
    && (if Leading(t) then n.trick == map[t.turn := card] && n.taken == t.taken + TrickCards(t.trick)
        else n.trick == t.trick[t.turn := card] && n.taken == t.taken)
    && n.leader == if Leading(t) then t.turn else t.leader
  }

  /** The seat that took a full trick: it played the highest card of the suit led. */
  ghost predicate Takes(trick: map<nat, Card>, leader: nat, seat: nat) {
    && leader in trick && seat in trick && trick[seat].suit == trick[leader].suit
    && forall s | s in trick && trick[s].suit == trick[leader].suit ::
         RankValue(trick[s].rank) <= RankValue(trick[seat].rank)
  }

  /** An unfinished trick passes the turn on; a finished one gives its points, and the lead, to whoever took it. */
  ghost predicate TrickGoesTo(t: Table, n: Table)
    requires Shaped(t) && Shaped(n)
  {
    if |n.trick| < PLAYER_COUNT then
      n.turn == (t.turn + 1) % PLAYER_COUNT && n.points == t.points && n.totals == t.totals && n.stage == TrickPlay
    else
      exists seat: nat | seat < PLAYER_COUNT && Takes(n.trick, n.leader, seat) ::
        && n.points == t.points[seat := t.points[seat] + Penalty(TrickCards(n.trick))]
        && (n.stage == TrickPlay ==> n.turn == seat && n.totals == t.totals)
  }

  lemma TakerIs(r: Table, seat: nat)
    requires Laid(r) && |r.trick| == PLAYER_COUNT && seat == TrickWinner(r)
    ensures seat < PLAYER_COUNT && Takes(r.trick, r.leader, seat)
  {
    WinnerInRange(r.trick, r.led, r.leader, PLAYER_COUNT);
    FullTrick(r);
    WinnerTookTheTrick(r, r.leader);
    HighestIs(r, seat);
  }

  lemma FullTrick(r: Table)
    requires Laid(r) && |r.trick| == PLAYER_COUNT
    ensures r.leader in r.trick && forall s | s in r.trick :: s < PLAYER_COUNT
  {
    SeatsGoRound(r.leader, 0);
  }

  lemma HighestIs(r: Table, seat: nat)
    requires Laid(r) && (forall s | s in r.trick :: s < PLAYER_COUNT) && seat == TrickWinner(r)
    requires seat in r.trick
    ensures forall s | s in r.trick && r.trick[s].suit == r.led :: RankValue(r.trick[s].rank) <= RankValue(r.trick[seat].rank)
  {
    forall s | s in r.trick && r.trick[s].suit == r.led
      ensures RankValue(r.trick[s].rank) <= RankValue(r.trick[seat].rank)
    {
      WinnerTookTheTrick(r, s);
    }
  }

  lemma CardIsLaid(t: Table, card: Card)
    requires Valid(t) && Validate(t, PlayCard(card))
    ensures CardLaid(t, Apply(t, PlayCard(card)), card)
    ensures var r := Apply(t, PlayCard(card));
            r.points == t.points && r.totals == t.totals && r.turn == t.turn && r.stage == t.stage
  {
    NothingPending();
    if t.trickComplete {
      assert StartTrick(t).trick == map[];
    } else if t.trick == map[] {
      assert t.taken + [] == t.taken;
    }
  }

  lemma FullTrickIs(r: Table)
    requires Shaped(r) && |r.trick| == PLAYER_COUNT && TrickWinner(r) < PLAYER_COUNT
    ensures AfterPlay(r) == if r.tricksPlayed + 1 < CARDS_PER_HAND
                            then Won(r).(turn := TrickWinner(r), next := Some(TrickWinner(r))) else EndHand(Won(r))
  {
    if r.tricksPlayed + 1 < CARDS_PER_HAND {
      TrickIsLed(r);
    }
  }

  lemma WonIs(r: Table, seat: nat)
    requires Shaped(r) && seat == TrickWinner(r) < PLAYER_COUNT
    ensures var w := Won(r);
            && Shaped(w) && w.hands == r.hands && w.trick == r.trick && w.taken == r.taken && w.leader == r.leader
            && w.points == r.points[seat := r.points[seat] + Penalty(TrickCards(r.trick))] && w.totals == r.totals
            && w.stage == r.stage
  {
  }

  lemma EndHandIs(w: Table)
    requires Shaped(w)
    ensures var e := EndHand(w);
            && Shaped(e) && e.hands == w.hands && e.trick == w.trick && e.taken == w.taken && e.leader == w.leader
            && e.points == w.points && e.stage == HandOver
  {
  }

  /** A finished trick, as one change of points and lead. */
  lemma FullTrickEnds(r: Table, seat: nat)
    requires Laid(r) && |r.trick| == PLAYER_COUNT && seat == TrickWinner(r) < PLAYER_COUNT
    ensures var e := AfterPlay(r);
            && Shaped(e) && e.hands == r.hands && e.trick == r.trick && e.taken == r.taken && e.leader == r.leader
            && e.points == r.points[seat := r.points[seat] + Penalty(TrickCards(r.trick))]
            && (e.stage == TrickPlay ==> e.next == Some(seat) && e.totals == r.totals)
  {
    FullTrickIs(r);
    WonIs(r, seat);
    EndHandIs(Won(r));
  }

  /** What the end of a trick, and of a hand, makes of the card just laid. */
  lemma TrickEnds(t: Table, r: Table)
    requires Shaped(t) && Laid(r) && r.points == t.points && r.totals == t.totals && r.turn == t.turn
    ensures var e := AfterPlay(r);
            && Shaped(e) && TrickGoesTo(t, NextTurn(e))
            && e.hands == r.hands && e.trick == r.trick && e.taken == r.taken && e.leader == r.leader
  {
    if |r.trick| == PLAYER_COUNT {
      var seat := TrickWinner(r);
      TakerIs(r, seat);
      FullTrickEnds(r, seat);
      GivenTo(t, r, AfterPlay(r), seat);
    }
  }

  lemma GivenTo(t: Table, r: Table, e: Table, seat: nat)
    requires Shaped(t) && Shaped(e) && r.points == t.points && r.totals == t.totals && |r.trick| == PLAYER_COUNT
    requires seat < PLAYER_COUNT && Takes(r.trick, r.leader, seat) && e.trick == r.trick && e.leader == r.leader
    requires e.points == r.points[seat := r.points[seat] + Penalty(TrickCards(r.trick))]
    requires e.stage == TrickPlay ==> e.next == Some(seat) && e.totals == r.totals
    ensures TrickGoesTo(t, NextTurn(e))
  {
    var n := NextTurn(e);
    assert seat < PLAYER_COUNT && Takes(n.trick, n.leader, seat);
  }

  /** Everything an accepted card does to hands, trick, points and turn. */
  lemma PlayMoves(t: Table, card: Card, shuffled: seq<Card>)
    requires Valid(t) && Kept(t) && Validate(t, PlayCard(card)) && FullDeck(shuffled)
    ensures var n := Submit(t, PlayCard(card), shuffled).t;
            && Shaped(n) && CardLaid(t, n, card)
            && (Submit(t, PlayCard(card), shuffled).Playing? ==> TrickGoesTo(t, n))
  {
    var r := Apply(t, PlayCard(card));
    PlayLays(t, card);
    CardIsLaid(t, card);
    TrickEnds(t, r);
    PlayReady(t, card);
    SubmitIs(t, PlayCard(card), shuffled, AfterPlay(r));
  }

  /** A hand's points onto the totals, and whether that ends the match. */
  ghost predicate Scored(t: Table, n: Table, over: bool)
    requires Shaped(t) && Shaped(n)
  {
    && Sum(n.points) == PENALTY_POINTS_TOTAL
    && (forall seat | 0 <= seat < PLAYER_COUNT ::
          n.totals[seat] == t.totals[seat] +
            (if exists s :: 0 <= s < PLAYER_COUNT && n.points[s] == PENALTY_POINTS_TOTAL
             then PENALTY_POINTS_TOTAL - n.points[seat] else n.points[seat]))
    && (over <==> exists s :: 0 <= s < PLAYER_COUNT && n.totals[s] >= TARGET_SCORE)
  }

  lemma EndHandScores(t: Table, w: Table)
    requires Shaped(t) && Shaped(w) && w.totals == t.totals && Sum(w.points) == PENALTY_POINTS_TOTAL && !w.matchComplete
    ensures var e := EndHand(w); Shaped(e) && Scored(t, e, e.matchComplete)
  {
    forall seat: nat | seat < PLAYER_COUNT
      ensures ScoreHand(w.points, w.totals)[seat] == t.totals[seat] +
                (if exists s :: 0 <= s < PLAYER_COUNT && w.points[s] == PENALTY_POINTS_TOTAL
                 then PENALTY_POINTS_TOTAL - w.points[seat] else w.points[seat])
    {
      MoonSparesTheShooter(w.points, w.totals, seat);
    }
  }

  /** The last trick adds everybody's points to their totals, or 26 to all but the seat that took every point. */
  lemma HandIsScored(t: Table, card: Card, shuffled: seq<Card>)
    requires Valid(t) && Validate(t, PlayCard(card)) && FullDeck(shuffled)
    requires Submit(t, PlayCard(card), shuffled).t.stage == HandOver
    ensures var g := Submit(t, PlayCard(card), shuffled); Shaped(g.t) && Scored(t, g.t, g.Finished?)
  {
    var r := Apply(t, PlayCard(card));
    PlayLays(t, card);
    CardIsLaid(t, card);
    WinnerInRange(r.trick, r.led, r.leader, PLAYER_COUNT);
    SubmitIs(t, PlayCard(card), shuffled, AfterPlay(r));
    LastTrickEndsHand(r);
    HandIsWorth26(r);
    EndHandScores(t, Won(r));
  }

  lemma LastTrickEndsHand(r: Table)
    requires Laid(r) && TrickWinner(r) < PLAYER_COUNT && AfterPlay(r).stage == HandOver
    ensures |r.trick| == PLAYER_COUNT && r.tricksPlayed + 1 == CARDS_PER_HAND
    ensures AfterPlay(r) == EndHand(Won(r))
  {
  }

  // ---- The next hand ----

  lemma BeginHandIs(t: Table, dealer: nat, shuffled: seq<Card>)
    requires |shuffled| == 52
    ensures var b := BeginHand(t, dealer, shuffled);
            && b.handNumber == t.handNumber + 1 && b.dealer == dealer && b.totals == t.totals && b.points == [0, 0, 0, 0]
            && b.direction == DirectionOf(b.handNumber) && b.taken == [] && b.trick == map[] && !b.broken && !b.handComplete
            && b.tricksPlayed == 0
            && (if b.direction == PassNone then b.stage == TrickPlay else b.stage == Passing && b.next == Some(dealer))
  {
  }

  /** The deal moves one seat on; the dealer passes first, or the two of clubs leads when nobody passes. */
  lemma NextHandMovesOn(t: Table, shuffled: seq<Card>)
    requires Valid(t) && Kept(t) && Validate(t, NextHand) && FullDeck(shuffled)
    ensures var g := Submit(t, NextHand, shuffled);
            && g.Playing? && Kept(g.t) && Valid(g.t) && g.t.handNumber == t.handNumber + 1
            && g.t.dealer == (t.dealer + 1) % PLAYER_COUNT && g.t.totals == t.totals && g.t.points == [0, 0, 0, 0]
            && (if Shift(g.t.handNumber) == 0 then g.t.stage == TrickPlay && TWO_OF_CLUBS in g.t.hands[g.t.turn]
                else g.t.stage == Passing && g.t.turn == g.t.dealer)
  {
    NextHandReady(t, shuffled);
    BeginHandIs(t, t.turn, shuffled);
    SubmitIs(t, NextHand, shuffled, BeginHand(t, t.turn, shuffled));
    MovedOn(t, BeginHand(t, t.turn, shuffled));
  }

  lemma MovedOn(t: Table, b: Table)
    requires Shaped(t) && b.dealer == t.turn && b.handNumber >= 1 && b.direction == DirectionOf(b.handNumber)
    requires b.taken == [] && b.trick == map[] && !b.broken && !b.handComplete && b.tricksPlayed == 0
    requires Valid(NextTurn(b))
    requires if b.direction == PassNone then b.stage == TrickPlay else b.stage == Passing && b.next == Some(b.dealer)
    ensures var n := NextTurn(b);
            && Kept(n)
            && (if Shift(n.handNumber) == 0 then n.stage == TrickPlay && TWO_OF_CLUBS in n.hands[n.turn]
                else n.stage == Passing && n.turn == n.dealer)
  {
    RecipientIs(0, b.handNumber);
    assert !HeartSeen(NextTurn(b));
    assert b.stage == TrickPlay ==> PlayingWell(NextTurn(b));
  }

  // ---- Whole matches ----

  lemma StepKept(t: Table, e: Event)
    requires Valid(t) && Kept(t) && Possible(e)
    ensures Step(t, e).Playing? ==> Kept(Step(t, e).t)
  {
    if e.Act? && Validate(t, e.a) {
      match e.a
      case NextHand => NextHandMovesOn(t, e.shuffled);
      case PassCards(cards) => PassMoves(t, cards, e.shuffled);
      case PlayCard(card) => CardKept(t, card, e.shuffled);
    }
  }

  lemma {:induction false} RunKept(g: Game, events: seq<Event>)
    requires Sound(g) && (g.Playing? ==> Kept(g.t))
    ensures Sound(Run(g, events)) && (Run(g, events).Playing? ==> Kept(Run(g, events).t))
    decreases |events|
  {
    if events != [] && g.Playing? && Possible(events[0]) {
      StepIsSound(g.t, events[0]);
      StepKept(g.t, events[0]);
      RunKept(Step(g.t, events[0]), events[1..]);
    }
  }

  /** However a match goes, the rules take exactly the lawful cards, so nobody ever plays off suit holding the suit led. */
  lemma NobodyRevokes(first: nat, shuffled: seq<Card>, events: seq<Event>, card: Card, deck: seq<Card>)
    requires first < PLAYER_COUNT && FullDeck(shuffled) && FullDeck(deck)
    ensures Start(first, shuffled).Playing? && Valid(Start(first, shuffled).t)
    ensures var g := Run(Start(first, shuffled), events);
            g.Playing? && g.t.stage == TrickPlay ==>
              && Valid(g.t) && (!Leading(g.t) ==> g.t.leader in g.t.trick)
              && (Submit(g.t, PlayCard(card), deck) != Playing(g.t) <==> Lawful(g.t, card))
  {
    StartIsSound(first, shuffled);
    assert !HeartSeen(Start(first, shuffled).t);
    RunKept(Start(first, shuffled), events);
    var g := Run(Start(first, shuffled), events);
    if g.Playing? && g.t.stage == TrickPlay {
      OnlyLawfulCardsCount(g.t, card, deck);
    }
  }
}
