/** Which cards Crazy Eights takes and what a play or a draw does, said without the code that decides it. */
module CrazyEightPlay {
  import opened Cards
  import opened Options
  import opened Sums
  import opened Shed
  import opened ShedPlay
  import opened CrazyEight

  /** A held card of the suit in play or of the rank on top, or an eight with a suit named for it. */
  ghost predicate Lawful(g: Eights, card: Card, suit: nat)
    requires Shaped(g.b) && g.b.turn < |g.b.players|
  {
    && card in g.b.hands[g.b.turn] && g.b.discard != []
    && (card.rank == 8 ==> SPADES <= suit <= CLUBS)
    && (card.rank != 8 ==> card.suit == g.suit || card.rank == g.b.discard[|g.b.discard| - 1].rank)
  }

  /** Over when a hand is empty or everybody has passed, else the next seat clockwise plays. */
  ghost predicate Settled(r: Eights, game: Game)
    requires r.b.turn < |r.b.players|
  {
    if (exists i :: 0 <= i < |r.b.hands| && r.b.hands[i] == []) || r.b.passes >= |r.b.players|
    then game == Finished(r)
    else game == Playing(r.(b := r.b.(turn := Neighbour(r.b.turn, 1, |r.b.players|), next := None)))
  }

  /** Laid from the hand onto the pile, with the suit in play following it; nothing else moved. */
  ghost predicate CardPlayed(g: Eights, r: Eights, card: Card, suit: nat) {
    && r.suit == (if card.rank == 8 then suit else card.suit)
    && g.b.turn < |g.b.hands| == |r.b.hands|
    && r.b == g.b.(hands := r.b.hands, discard := g.b.discard + [card], passes := 0)
    && LaidFrom(g.b.hands[g.b.turn], r.b.hands[g.b.turn], card)
    && forall i | 0 <= i < |g.b.hands| && i != g.b.turn :: r.b.hands[i] == g.b.hands[i]
  }

  lemma ActSettles(g: Eights, a: Action, shuffle: seq<Card> -> seq<Card>)
    requires Valid(g) && Validate(g, a)
    requires var r := Apply(g, a, shuffle); r.b == g.b.(hands := r.b.hands, stock := r.b.stock, discard := r.b.discard,
                                                        passes := r.b.passes)
    ensures Settled(Apply(g, a, shuffle), Step(g, Act(a), shuffle))
  {
    NextSeatIs(g.b.turn, |g.b.players|);
  }

  /** A card changes the table exactly when the rules of the game allow it. */
  lemma OnlyLawfulCardsCount(g: Eights, card: Card, suit: nat, shuffle: seq<Card> -> seq<Card>)
    requires Valid(g)
    ensures var game := Step(g, Act(PlayCard(card, suit)), shuffle);
            if Lawful(g, card, suit)
            then var r := Apply(g, PlayCard(card, suit), shuffle);
                 CardPlayed(g, r, card, suit) && r.b.turn == g.b.turn && Settled(r, game)
            else game == Playing(g)
  {
    if Lawful(g, card, suit) {
      ActSettles(g, PlayCard(card, suit), shuffle);
    }
  }

  /** One card more in hand, or a pass when none was left. */
  ghost predicate CardDrawn(g: Eights, r: Eights) {
    && r.suit == g.suit && r.b.passes == (if Available(g.b) == 0 then g.b.passes + 1 else 0)
    && Took(g.b.(passes := r.b.passes), r.b, g.b.turn, Min(1, Available(g.b)))
  }

  /** A draw is always taken. */
  lemma DrawsAlwaysCount(g: Eights, shuffle: seq<Card> -> seq<Card>)
    requires Valid(g) && Permutes(shuffle)
    ensures var r := Apply(g, DrawCard, shuffle);
            CardDrawn(g, r) && r.b.turn == g.b.turn && Settled(r, Step(g, Act(DrawCard), shuffle))
  {
    OneIsTaken(g.b, g.b.turn, shuffle);
    ActSettles(g, DrawCard, shuffle);
  }

  // ---- Whole games ----

  /** The card in play shows its suit, or is an eight with one named for it. */
  ghost predicate ShowsSuit(g: Eights) {
    && g.b.discard != []
    && var top := g.b.discard[|g.b.discard| - 1];
       if top.rank == 8 then SPADES <= g.suit <= CLUBS else g.suit == top.suit
  }

  lemma SettledShows(r: Eights, game: Game)
    requires r.b.turn < |r.b.players| && Settled(r, game) && ShowsSuit(r)
    ensures ShowsSuit(game.g)
  {
  }

  lemma StepShows(g: Eights, e: Event, shuffle: seq<Card> -> seq<Card>)
    requires Valid(g) && Permutes(shuffle) && ShowsSuit(g)
    ensures ShowsSuit(Step(g, e, shuffle).g)
  {
    match e
    case Act(PlayCard(card, suit)) =>
      OnlyLawfulCardsCount(g, card, suit, shuffle);
      if Lawful(g, card, suit) {
        SettledShows(Apply(g, PlayCard(card, suit), shuffle), Step(g, e, shuffle));
      }
    case Act(DrawCard) =>
      DrawsAlwaysCount(g, shuffle);
      SettledShows(Apply(g, DrawCard, shuffle), Step(g, e, shuffle));
    case Quit(seat) =>
  }

  /** The pile opens on a card that is no eight, of the suit then in play. */
  lemma OpeningShows(b: Board, shuffle: seq<Card> -> seq<Card>)
    requires Permutes(shuffle) && b.discard == [] && Start(b, shuffle).Some?
    ensures var g := Start(b, shuffle).value;
            ShowsSuit(g) && |g.b.discard| == 1 && g.b.discard[0].rank != 8 && g.b.turn == b.turn && g.b.hands == b.hands
  {
    OpeningConserves(b, (c: Card) => c.rank != EIGHT, shuffle);
    OpeningTakesOne(b, (c: Card) => c.rank != EIGHT, shuffle);
  }

  /** However a game goes, the suit in play is the one the pile shows, or the one named for the eight on top. */
  lemma {:induction false} RunShowsSuit(g: Game, moves: seq<Move>)
    requires (g.Playing? ==> Valid(g.g)) && ShowsSuit(g.g)
    ensures ShowsSuit(Run(g, moves).g)
    decreases |moves|
  {
    if moves != [] && g.Playing? && Permutes(moves[0].shuffle) {
      StepIsSound(g.g, moves[0].e, moves[0].shuffle);
      StepShows(g.g, moves[0].e, moves[0].shuffle);
      RunShowsSuit(Step(g.g, moves[0].e, moves[0].shuffle), moves[1..]);
    }
  }
}
