/** Card accounting, a legal move in every state, and the bounds on a Gin Rummy match. */
module GinRun {
  import opened Cards
  import opened Options
  import opened GinMelds
  import opened GinRules

  ghost predicate FullDeck(shuffled: seq<Card>) {
    |shuffled| == 52 && multiset(shuffled) == multiset(StandardDeck())
  }

  ghost function AllCards(t: Table): multiset<Card>
    requires Shaped(t)
  {
    multiset(t.hands[0]) + multiset(t.hands[1]) + multiset(t.stock) + multiset(t.discard)
  }

  /** Ten cards each, and one more for the seat that has to discard. */
  ghost predicate HandSizes(t: Table)
    requires Shaped(t)
  {
    && |t.hands[t.turn]| == DEAL_COUNT + (if t.phase == AwaitingDiscard then 1 else 0)
    && |t.hands[1 - t.turn]| == DEAL_COUNT
  }

  /** A hand in progress: all 52 cards in place, road left, and something to draw whenever a draw is due. */
  ghost predicate HandOpen(t: Table)
    requires Shaped(t)
  {
    && AllCards(t) == multiset(StandardDeck()) && HandSizes(t) && t.turnsThisHand < MAX_HAND_TURNS
    && (t.phase == AwaitingDraw ==> t.takenUpcard.None? && t.discard != [] && |t.stock| > WALL_STOCK_SIZE)
    && (t.phase == AwaitingDiscard ==>
          |t.stock| >= WALL_STOCK_SIZE && (t.takenUpcard.Some? ==> t.takenUpcard.value in t.hands[t.turn]))
  }

  ghost predicate Valid(t: Table) {
    && Shaped(t) && t.next.None? && !t.matchComplete && 1 <= t.handNumber <= MAX_HANDS
    && (t.handComplete <==> t.phase == HandOver)
    && (t.handComplete ==> t.handNumber < MAX_HANDS)
    && (forall s | 0 <= s < SEATS :: t.totals[s] < TARGET_SCORE)
    && (!t.handComplete ==> HandOpen(t))
  }

  /** Neither hand holds a card twice, and the two share none. */
  lemma HandsDistinct(t: Table, seat: nat)
    requires Shaped(t) && AllCards(t) == multiset(StandardDeck()) && seat < SEATS
    ensures Distinct(t.hands[seat]) && AllStandard(t.hands[seat])
    ensures Elements(t.hands[0]) !! Elements(t.hands[1])
  {
    forall x
      ensures multiset(t.hands[0])[x] + multiset(t.hands[1])[x] <= (if Standard(x) then 1 else 0)
    {
      DeckIsEveryCardOnce(x);
      assert AllCards(t)[x] == multiset(StandardDeck())[x];
    }
    CountedOnceIsDistinct(t.hands[seat]);
    forall c | c in t.hands[seat] ensures Standard(c) {
      assert multiset(t.hands[seat])[c] > 0;
    }
    forall c | c in t.hands[0] ensures c !in t.hands[1] {
      assert multiset(t.hands[0])[c] > 0;
    }
  }

  // ---- Steps ----

  lemma DealKeeps(shuffled: seq<Card>)
    requires FullDeck(shuffled)
    ensures multiset(Drawn(shuffled, 10)) + multiset(Drawn(shuffled[..42], 10)) + multiset(shuffled[..32][..31])
            + multiset([shuffled[..32][31]]) == multiset(StandardDeck())
  {
    var rest := shuffled[..32];
    assert multiset(shuffled) == multiset(shuffled[..42]) + multiset(Drawn(shuffled, 10));
    assert shuffled[..42][..32] == rest;
    assert multiset(shuffled[..42]) == multiset(rest) + multiset(Drawn(shuffled[..42], 10));
    assert rest == rest[..31] + [rest[31]];
    assert multiset(rest) == multiset(rest[..31]) + multiset([rest[31]]);
  }

  lemma HandBegins(t: Table, shuffled: seq<Card>)
    requires Shaped(t) && FullDeck(shuffled) && !t.matchComplete && t.handNumber < MAX_HANDS
    requires forall s | 0 <= s < SEATS :: t.totals[s] < TARGET_SCORE
    ensures var b := BeginHand(t, shuffled);
            !b.matchComplete && Valid(NextTurn(b)) && NextTurn(b).handNumber == t.handNumber + 1
  {
    DealKeeps(shuffled);
  }

  lemma CardMoves(a: multiset<Card>, b: multiset<Card>, stock: multiset<Card>, discard: multiset<Card>,
                  aNow: multiset<Card>, bNow: multiset<Card>, stockNow: multiset<Card>, discardNow: multiset<Card>,
                  card: multiset<Card>)
    requires aNow + bNow == a + b + card && stock + discard == stockNow + discardNow + card
    ensures aNow + bNow + stockNow + discardNow == a + b + stock + discard
  {
    assert aNow + bNow + stockNow + discardNow == (a + b) + (stockNow + discardNow + card);
  }

  lemma TakeAccounts(t: Table, p: Table, card: Card, upcard: Option<Card>)
    requires Shaped(t) && p == t.(stock := p.stock, discard := p.discard)
    requires multiset(t.stock) + multiset(t.discard) == multiset(p.stock) + multiset(p.discard) + multiset{card}
    ensures AllCards(TakeCard(p, card, upcard)) == AllCards(t)
  {
    var h, k := t.hands, TakeCard(p, card, upcard).hands;
    assert multiset(k[t.turn]) == multiset(h[t.turn]) + multiset{card} && k[1 - t.turn] == h[1 - t.turn];
    CardMoves(multiset(h[0]), multiset(h[1]), multiset(t.stock), multiset(t.discard),
              multiset(k[0]), multiset(k[1]), multiset(p.stock), multiset(p.discard), multiset{card});
  }

  lemma TakeKeeps(t: Table, p: Table, card: Card, upcard: Option<Card>)
    requires Valid(t) && !t.handComplete && t.phase == AwaitingDraw
    requires p == t.(stock := p.stock, discard := p.discard) && |p.stock| >= WALL_STOCK_SIZE
    requires multiset(t.stock) + multiset(t.discard) == multiset(p.stock) + multiset(p.discard) + multiset{card}
    requires upcard.Some? ==> upcard.value == card
    ensures var r := TakeCard(p, card, upcard); NextTurn(r) == r.(next := None) && Valid(NextTurn(r))
  {
    TakeAccounts(t, p, card, upcard);
    var r := NextTurn(TakeCard(p, card, upcard));
    assert AllCards(r) == AllCards(TakeCard(p, card, upcard));
    assert r.hands[1 - t.turn] == t.hands[1 - t.turn];
  }

  lemma DrawKeeps(t: Table, a: Action, outcome: Outcome)
    requires Valid(t) && Validate(t, a) && (a.DrawStock? || a.DrawDiscard?)
    ensures var r := Apply(t, a, outcome);
            && r.phase == AwaitingDiscard && !r.matchComplete
            && Valid(NextTurn(r)) && NextTurn(r) == r.(next := None) && r.turnsThisHand == t.turnsThisHand
            && r.handNumber == t.handNumber && r.totals == t.totals
  {
    if a.DrawStock? {
      var n := |t.stock| - 1;
      assert t.stock == t.stock[..n] + [t.stock[n]];
      TakeKeeps(t, t.(stock := t.stock[..n]), t.stock[n], None);
    } else {
      var n := |t.discard| - 1;
      assert t.discard == t.discard[..n] + [t.discard[n]];
      TakeKeeps(t, t.(discard := t.discard[..n]), t.discard[n], Some(t.discard[n]));
    }
  }

  /** The discard pile has the card the hand gave up. */
  lemma DiscardKeeps(t: Table, card: Card, outcome: Outcome)
    requires Valid(t) && Validate(t, Discard(card))
    ensures var r := Apply(t, Discard(card), outcome);
            && Shaped(r) && AllCards(r) == multiset(StandardDeck())
            && |r.hands[0]| == |r.hands[1]| == DEAL_COUNT && r.discard != []
  {
  }

  lemma CloseKeeps(t: Table)
    requires Shaped(t) && 1 <= t.handNumber <= MAX_HANDS && !t.matchComplete
    ensures var c := CloseHand(t);
            && c.totals == t.totals && c.handNumber == t.handNumber && c.handComplete
            && (c.matchComplete <==> MatchOver(t))
            && (!c.matchComplete ==> Valid(NextTurn(c)))
  {
  }

  lemma DiscardGoesOn(t: Table, card: Card, outcome: Outcome, shuffled: seq<Card>)
    requires Valid(t) && Validate(t, Discard(card)) && |shuffled| == 52
    ensures var a := AfterAction(Apply(t, Discard(card), outcome), Discard(card), shuffled);
            && a.Fine? && a.t.handNumber == t.handNumber && a.t.totals == t.totals
            && (!a.t.matchComplete ==> Valid(NextTurn(a.t)))
            && (a.t.handComplete || a.t.turnsThisHand == t.turnsThisHand + 1)
  {
    var r := Apply(t, Discard(card), outcome);
    DiscardKeeps(t, card, outcome);
    if HitTheWall(r) {
      CloseKeeps(r);
    } else {
      HandGoesOn(r);
    }
  }

  /** With cards above the wall and turns to spare, the other seat is to draw. */
  lemma HandGoesOn(r: Table)
    requires Shaped(r) && AllCards(r) == multiset(StandardDeck()) && !HitTheWall(r) && r.next.None?
    requires |r.hands[0]| == |r.hands[1]| == DEAL_COUNT && r.discard != [] && r.takenUpcard.None?
    requires r.phase == AwaitingDraw && !r.handComplete && !r.matchComplete && 1 <= r.handNumber <= MAX_HANDS
    requires forall s | 0 <= s < SEATS :: r.totals[s] < TARGET_SCORE
    ensures Valid(NextTurn(r))
  {
    assert HandOpen(NextTurn(r));
  }

  /** Points are only ever added. */
  ghost predicate NoScoreFalls(t: Table, r: Table)
    requires Shaped(t) && Shaped(r)
  {
    forall s | 0 <= s < SEATS :: t.totals[s] <= r.totals[s]
  }

  /** The points go to the winner and the other seat keeps what it has. */
  ghost predicate Credited(before: seq<nat>, after: seq<nat>, winner: nat, delta: nat) {
    && |before| == |after| == SEATS && winner < SEATS
    && after[winner] == before[winner] + delta && after[1 - winner] == before[1 - winner]
  }

  lemma KnockCredits(t: Table, card: Card, outcome: Outcome)
    requires Shaped(t) && outcome.winner < SEATS
    ensures Credited(t.totals, Apply(t, Knock(card), outcome).totals, outcome.winner, outcome.delta)
  {
  }

  lemma OnlyKnocksScore(t: Table, a: Action, outcome: Outcome, shuffled: seq<Card>)
    requires Shaped(t) && |shuffled| == 52 && !a.Knock?
    ensures Submit(t, a, outcome, shuffled).t.totals == t.totals
  {
  }

  lemma KnockCloses(t: Table, card: Card, outcome: Outcome)
    requires Valid(t) && Validate(t, Knock(card))
    ensures var r := Apply(t, Knock(card), outcome);
            && Shaped(r) && NoScoreFalls(t, r) && r.handNumber == t.handNumber && r.handComplete
            && (outcome.winner < SEATS ==> Credited(t.totals, r.totals, outcome.winner, outcome.delta))
            && (!r.matchComplete ==> Valid(NextTurn(r)))
  {
    var seat := t.turn;
    var scored := if outcome.winner < SEATS
                  then t.totals[outcome.winner := t.totals[outcome.winner] + outcome.delta] else t.totals;
    var p := t.(hands := t.hands[seat := RemoveOne(t.hands[seat], card)], discard := [], takenUpcard := None,
                totals := scored);
    KnockIs(t, card, outcome, p);
    CloseKeeps(p);
  }

  lemma KnockIs(t: Table, card: Card, outcome: Outcome, p: Table)
    requires Shaped(t) && Shaped(p)
    requires p == t.(hands := t.hands[t.turn := RemoveOne(t.hands[t.turn], card)], discard := [], takenUpcard := None,
                     totals := if outcome.winner < SEATS
                               then t.totals[outcome.winner := t.totals[outcome.winner] + outcome.delta] else t.totals)
    ensures Apply(t, Knock(card), outcome) == CloseHand(p)
  {
  }

  // ---- Whole matches ----

  /** Hands to come, whether this one is still on, turns it has left, and whether a draw is due. */
  datatype Rank = Rank(hands: int, open: nat, turns: int, draw: nat)

  function RankOf(t: Table): Rank {
    if t.handComplete then Rank(MAX_HANDS - t.handNumber, 0, 0, 0)
    else Rank(MAX_HANDS - t.handNumber, 1, MAX_HAND_TURNS - t.turnsThisHand, if t.phase == AwaitingDraw then 1 else 0)
  }

  predicate Lower(a: Rank, b: Rank) {
    if a.hands != b.hands then 0 <= a.hands < b.hands
    else if a.open != b.open then a.open < b.open
    else if a.turns != b.turns then 0 <= a.turns < b.turns
    else a.draw < b.draw
  }

  /** What an accepted action leads to: a valid table nearer the end, or the end of the match; no score falls. */
  ghost predicate Sound(t: Table, g: Game)
    requires Shaped(t)
  {
    match g
    case Playing(n) => Valid(n) && NoScoreFalls(t, n) && Lower(RankOf(n), RankOf(t))
    case Finished(n) => Shaped(n) && NoScoreFalls(t, n) && n.matchComplete && n.handNumber <= MAX_HANDS
  }

  lemma ActionIsSound(t: Table, a: Action, outcome: Outcome, shuffled: seq<Card>)
    requires Valid(t) && Validate(t, a) && FullDeck(shuffled)
    ensures Sound(t, Submit(t, a, outcome, shuffled))
  {
    match a
    case NextHand => HandBegins(t, shuffled);
    case DrawStock => DrawKeeps(t, a, outcome);
    case DrawDiscard => DrawKeeps(t, a, outcome);
    case Discard(card) => DiscardGoesOn(t, card, outcome, shuffled);
    case Knock(card) => KnockCloses(t, card, outcome);
  }

  /** One attempt at an action: which, what a knock would score, and the deck a new hand would use. */
  datatype Event = Event(a: Action, outcome: Outcome, shuffled: seq<Card>)

  ghost function Run(g: Game, events: seq<Event>): Game
    requires g.Playing? ==> Valid(g.t)
    decreases |events|
  {
    if events == [] || !g.Playing? || !FullDeck(events[0].shuffled) then g
    else
      var e := events[0];
      var next := Submit(g.t, e.a, e.outcome, e.shuffled);
      assert next.Playing? ==> Valid(next.t) by {
        if Validate(g.t, e.a) {
          ActionIsSound(g.t, e.a, e.outcome, e.shuffled);
        }
      }
      Run(next, events[1..])
  }

  /** Over any actions and timeouts the match stays valid or ends, and no score ever falls. */
  lemma {:induction false} RunIsSound(g: Game, events: seq<Event>)
    requires g.Playing? ==> Valid(g.t)
    requires g.Finished? ==> Shaped(g.t) && g.t.matchComplete && g.t.handNumber <= MAX_HANDS
    ensures var end := Run(g, events);
            && (end.Playing? ==> Valid(end.t))
            && (end.Finished? ==> Shaped(end.t) && end.t.matchComplete && end.t.handNumber <= MAX_HANDS)
            && (g.Playing? ==> NoScoreFalls(g.t, end.t))
    decreases |events|
  {
    if events != [] && g.Playing? && FullDeck(events[0].shuffled) {
      var e := events[0];
      if Validate(g.t, e.a) {
        ActionIsSound(g.t, e.a, e.outcome, e.shuffled);
      }
      RunIsSound(Submit(g.t, e.a, e.outcome, e.shuffled), events[1..]);
    }
  }

  lemma StartIsSound(first: nat, shuffled: seq<Card>)
    requires first < SEATS && FullDeck(shuffled)
    ensures Start(first, shuffled).Playing? && Valid(Start(first, shuffled).t)
  {
    HandBegins(Table(first, None, [[], []], [], [], AwaitingDraw, None, first, 0, 0, [0, 0], false, false), shuffled);
  }

  /** Accepted actions one match can take: none can go on past 50 hands of 100 turns of a draw and a discard each. */
  function ActionsLeft(t: Table): int {
    (MAX_HANDS - t.handNumber) * (2 * MAX_HAND_TURNS + 2)
    + if t.handComplete then 1
      else 2 * (MAX_HAND_TURNS - t.turnsThisHand) + (if t.phase == AwaitingDraw then 2 else 1)
  }

  lemma ActionsRunOut(t: Table, a: Action, outcome: Outcome, shuffled: seq<Card>)
    requires Valid(t) && Validate(t, a) && FullDeck(shuffled)
    ensures var g := Submit(t, a, outcome, shuffled);
            g.Playing? ==> 0 <= ActionsLeft(g.t) < ActionsLeft(t)
  {
    ActionIsSound(t, a, outcome, shuffled);
    match a
    case NextHand => HandBegins(t, shuffled);
    case DrawStock => DrawKeeps(t, a, outcome);
    case DrawDiscard => DrawKeeps(t, a, outcome);
    case Discard(card) => DiscardGoesOn(t, card, outcome, shuffled);
    case Knock(card) => KnockCloses(t, card, outcome);
  }

  /** How many of the events were actions the rules took. */
  ghost function Taken(g: Game, events: seq<Event>): nat
    requires g.Playing? ==> Valid(g.t)
    decreases |events|
  {
    if events == [] || !g.Playing? || !FullDeck(events[0].shuffled) then 0
    else
      var e := events[0];
      var next := Submit(g.t, e.a, e.outcome, e.shuffled);
      assert next.Playing? ==> Valid(next.t) by {
        if Validate(g.t, e.a) {
          ActionIsSound(g.t, e.a, e.outcome, e.shuffled);
        }
      }
      (if Validate(g.t, e.a) then 1 else 0) + Taken(next, events[1..])
  }

  lemma {:induction false} TakenFits(g: Game, events: seq<Event>)
    requires g.Playing? ==> Valid(g.t)
    ensures Taken(g, events) <= if g.Playing? then ActionsLeft(g.t) else 0
    decreases |events|
  {
    if g.Playing? {
      assert ActionsLeft(g.t) >= 1;
    }
    if events != [] && g.Playing? && FullDeck(events[0].shuffled) {
      var e := events[0];
      if Validate(g.t, e.a) {
        ActionIsSound(g.t, e.a, e.outcome, e.shuffled);
        ActionsRunOut(g.t, e.a, e.outcome, e.shuffled);
      }
      TakenFits(Submit(g.t, e.a, e.outcome, e.shuffled), events[1..]);
    }
  }

  /** However it goes, a match is over within fifty hands of a hundred turns: a draw and a discard each, and a deal. */
  lemma MatchRunsOut(first: nat, shuffled: seq<Card>, events: seq<Event>)
    requires first < SEATS && FullDeck(shuffled)
    ensures Start(first, shuffled).Playing? && Valid(Start(first, shuffled).t)
    ensures Taken(Start(first, shuffled), events) <= MAX_HANDS * (2 * MAX_HAND_TURNS + 2)
  {
    StartIsSound(first, shuffled);
    TakenFits(Start(first, shuffled), events);
  }
}
