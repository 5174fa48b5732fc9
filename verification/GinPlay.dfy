/** What each accepted action of Gin Rummy does to the table, and which actions are accepted. */
module GinPlay {
  import opened Cards
  import opened Options
  import opened GinMelds
  import opened GinRules
  import opened GinRun

  /** The pile that is drawn from loses its top card to the seat on turn, which has to discard next. */
  ghost predicate DrawnFrom(t: Table, n: Table, fromStock: bool)
    requires Shaped(t) && Shaped(n)
  {
    var pile := if fromStock then t.stock else t.discard;
    var left := if fromStock then n.stock else n.discard;
    && pile != [] && pile == left + [pile[|pile| - 1]]
    && (if fromStock then n.discard == t.discard else n.stock == t.stock)
    && n.hands[t.turn] == t.hands[t.turn] + [pile[|pile| - 1]] && n.hands[1 - t.turn] == t.hands[1 - t.turn]
    && n.takenUpcard == (if fromStock then None else Some(pile[|pile| - 1]))
    && n.turn == t.turn && n.phase == AwaitingDiscard && n.turnsThisHand == t.turnsThisHand
  }

  /** A draw brings the top card of the pile named, and the same seat goes on. */
  lemma DrawTakesTheTop(t: Table, fromStock: bool, outcome: Outcome, shuffled: seq<Card>)
    requires Valid(t) && |shuffled| == 52
    requires Validate(t, if fromStock then DrawStock else DrawDiscard)
    ensures var g := Submit(t, if fromStock then DrawStock else DrawDiscard, outcome, shuffled);
            g.Playing? && Valid(g.t) && DrawnFrom(t, g.t, fromStock) && g.t.totals == t.totals
  {
    if fromStock {
      StockDrawn(t, outcome, shuffled);
    } else {
      DiscardDrawn(t, outcome, shuffled);
    }
  }

  lemma StockDrawn(t: Table, outcome: Outcome, shuffled: seq<Card>)
    requires Valid(t) && |shuffled| == 52 && Validate(t, DrawStock)
    ensures var g := Submit(t, DrawStock, outcome, shuffled);
            g.Playing? && Valid(g.t) && DrawnFrom(t, g.t, true) && g.t.totals == t.totals
  {
    DrawKeeps(t, DrawStock, outcome);
  }

  lemma DiscardDrawn(t: Table, outcome: Outcome, shuffled: seq<Card>)
    requires Valid(t) && |shuffled| == 52 && Validate(t, DrawDiscard)
    ensures var g := Submit(t, DrawDiscard, outcome, shuffled);
            g.Playing? && Valid(g.t) && DrawnFrom(t, g.t, false) && g.t.totals == t.totals
  {
    DrawKeeps(t, DrawDiscard, outcome);
  }

  /** A hand is over by the wall when two cards are left to draw or a hundred turns have gone. */
  ghost predicate OutOfRoad(n: Table) {
    |n.stock| <= WALL_STOCK_SIZE || n.turnsThisHand >= MAX_HAND_TURNS
  }

  /** The seats take turns to open: the other one opens after a hand that leaves the match on. */
  ghost predicate OpenerAfter(t: Table, n: Table) {
    n.firstActor == if n.handComplete && !n.matchComplete then 1 - t.firstActor else t.firstActor
  }

  /** A discard goes on top of the pile and passes the turn, or ends the hand with nobody scoring. */
  lemma DiscardPassesTheTurn(t: Table, card: Card, outcome: Outcome, shuffled: seq<Card>)
    requires Valid(t) && |shuffled| == 52 && Validate(t, Discard(card))
    ensures var n := Submit(t, Discard(card), outcome, shuffled).t;
            && Shaped(n) && n.totals == t.totals
            && n.hands[t.turn] == RemoveOne(t.hands[t.turn], card) && n.hands[1 - t.turn] == t.hands[1 - t.turn]
            && n.stock == t.stock && n.discard == t.discard + [card] && n.takenUpcard.None?
            && n.turnsThisHand == t.turnsThisHand + 1
            && (n.handComplete <==> OutOfRoad(n)) && OpenerAfter(t, n)
            && (!n.handComplete ==> n.turn == 1 - t.turn && n.phase == AwaitingDraw)
  {
    DiscardGoesOn(t, card, outcome, shuffled);
  }

  /** The points of a knock go to the winner on record, whichever seat that is, and nobody else scores. */
  lemma KnockCreditsTheWinner(t: Table, card: Card, outcome: Outcome, shuffled: seq<Card>)
    requires Valid(t) && |shuffled| == 52 && Validate(t, Knock(card)) && outcome.winner < SEATS
    ensures var n := Submit(t, Knock(card), outcome, shuffled).t;
            && Shaped(n) && n.handComplete && OpenerAfter(t, n)
            && Credited(t.totals, n.totals, outcome.winner, outcome.delta)
            && n.hands[t.turn] == RemoveOne(t.hands[t.turn], card) && n.hands[1 - t.turn] == t.hands[1 - t.turn]
  {
    KnockCloses(t, card, outcome);
  }

  /** A new hand is dealt off the deck and opened by the seat that did not open the last one. */
  lemma NextHandAlternates(t: Table, outcome: Outcome, shuffled: seq<Card>)
    requires Valid(t) && FullDeck(shuffled) && Validate(t, NextHand)
    ensures var g := Submit(t, NextHand, outcome, shuffled);
            && g.Playing? && g.t.handNumber == t.handNumber + 1 && g.t.totals == t.totals
            && g.t.turn == g.t.firstActor == t.firstActor && g.t.phase == AwaitingDraw && g.t.turnsThisHand == 0
            && g.t.stock == shuffled[..31] && g.t.discard == [shuffled[31]]
            && multiset(g.t.hands[1]) == multiset(shuffled[32..42]) && multiset(g.t.hands[0]) == multiset(shuffled[42..])
  {
    HandBegins(t, shuffled);
    DealtInOrder(shuffled);
  }

  lemma DealtInOrder(shuffled: seq<Card>)
    requires |shuffled| == 52
    ensures shuffled[..32][..31] == shuffled[..31] && shuffled[..32][31] == shuffled[31]
    ensures multiset(Drawn(shuffled, DEAL_COUNT)) == multiset(shuffled[42..])
    ensures multiset(Drawn(shuffled[..42], DEAL_COUNT)) == multiset(shuffled[32..42])
  {
    assert shuffled[..42][32..] == shuffled[32..42];
  }

  // ---- Which actions are accepted ----

  /** A seat with ten cards may draw, one with eleven gives up a card it did not just take off the discard pile. */
  ghost predicate Lawful(t: Table, a: Action)
    requires Shaped(t)
  {
    var hand := t.hands[t.turn];
    match a
    case NextHand => t.handComplete
    case DrawStock => !t.handComplete && |hand| == DEAL_COUNT
    case DrawDiscard => !t.handComplete && |hand| == DEAL_COUNT
    case Discard(card) => !t.handComplete && |hand| == DEAL_COUNT + 1 && card in hand && t.takenUpcard != Some(card)
    case Knock(card) =>
      && !t.handComplete && |hand| == DEAL_COUNT + 1 && card in hand && t.takenUpcard != Some(card)
      && CanKnockWith(RemoveOne(hand, card))
  }

  lemma LawfulIsValid(t: Table, a: Action)
    requires Valid(t)
    ensures Validate(t, a) <==> Lawful(t, a)
  {
  }

  /** An action changes the table exactly when it is lawful. */
  lemma OnlyLawfulActionsCount(t: Table, a: Action, outcome: Outcome, shuffled: seq<Card>)
    requires Valid(t) && FullDeck(shuffled)
    ensures Submit(t, a, outcome, shuffled) != Playing(t) <==> Lawful(t, a)
  {
    LawfulIsValid(t, a);
    if Validate(t, a) {
      ActionIsSound(t, a, outcome, shuffled);
    }
  }

  // ---- Who wins the match ----

  /** A match goes on exactly while nobody has the target and there are hands to play. */
  lemma MatchEndsAtTheTarget(t: Table, a: Action, outcome: Outcome, shuffled: seq<Card>)
    requires Valid(t) && FullDeck(shuffled)
    ensures var g := Submit(t, a, outcome, shuffled);
            && Shaped(g.t)
            && (g.Finished? ==> g.t.handComplete
                                && ((exists s :: 0 <= s < SEATS && g.t.totals[s] >= TARGET_SCORE)
                                    || g.t.handNumber == MAX_HANDS))
            && (g.Playing? ==> (forall s | 0 <= s < SEATS :: g.t.totals[s] < TARGET_SCORE)
                               && (g.t.handComplete ==> g.t.handNumber < MAX_HANDS))
  {
    if Validate(t, a) {
      ActionIsSound(t, a, outcome, shuffled);
      match a
      case NextHand => HandBegins(t, shuffled);
      case DrawStock => DrawKeeps(t, a, outcome);
      case DrawDiscard => DrawKeeps(t, a, outcome);
      case Discard(card) => DiscardEnds(t, card, outcome, shuffled);
      case Knock(card) => KnockCloses(t, card, outcome);
    }
  }

  lemma DiscardEnds(t: Table, card: Card, outcome: Outcome, shuffled: seq<Card>)
    requires Valid(t) && |shuffled| == 52 && Validate(t, Discard(card))
    ensures var g := Submit(t, Discard(card), outcome, shuffled);
            g.Finished? ==> g.t.handComplete && g.t.handNumber == MAX_HANDS
  {
    DiscardGoesOn(t, card, outcome, shuffled);
  }
}
