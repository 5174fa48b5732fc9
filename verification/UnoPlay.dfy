/** Which cards Uno takes and what each of them does to the table, said without the code that decides it. */
module UnoPlay {
  import opened Cards
  import opened Options
  import opened Sums
  import opened Shed
  import opened ShedPlay
  import opened Uno

  // ---- What is accepted ----

  /**
   A held card of the colour in play or of the rank on top; a wild with a colour named for it; and a wild draw four
   only from a hand without the colour in play.
   */
  ghost predicate Lawful(u: Uno, card: Card, color: nat)
    requires Shaped(u.b) && u.b.turn < |u.b.players|
  {
    var hand := u.b.hands[u.b.turn];
    && card in hand && u.b.discard != []
    && (card.rank != WILD && card.rank != WILD_DRAW_FOUR ==>
          card.suit == u.color || card.rank == u.b.discard[|u.b.discard| - 1].rank)
    && (card.rank == WILD || card.rank == WILD_DRAW_FOUR ==> SPADES <= color <= CLUBS)
    && (card.rank == WILD_DRAW_FOUR ==>
          forall c | c in hand && c.rank != WILD && c.rank != WILD_DRAW_FOUR :: c.suit != u.color)
  }

  lemma LawfulIsValid(u: Uno, card: Card, color: nat)
    requires Shaped(u.b) && u.b.turn < |u.b.players|
    ensures Validate(u, PlayCard(card, color)) <==> Lawful(u, card, color)
  {
  }

  // ---- What a card does ----

  function TurnedDirection(u: Uno, card: Card): int {
    if card.rank == REVERSE && |u.b.players| != 2 then -u.direction else u.direction
  }

  /** Who is on turn after a card: two seats on when it skips one, the same seat when two play and it reverses. */
  function SeatAfter(u: Uno, card: Card): nat
    requires u.b.turn < |u.b.players|
  {
    var n := |u.b.players|;
    var once := Neighbour(u.b.turn, TurnedDirection(u, card), n);
    if card.rank == SKIP || card.rank == DRAW_TWO || card.rank == WILD_DRAW_FOUR then Neighbour(once, u.direction, n)
    else if card.rank == REVERSE && n == 2 then u.b.turn
    else once
  }

  /** Two cards for the next seat, or four. */
  function Owed(card: Card): nat {
    if card.rank == DRAW_TWO then 2 else if card.rank == WILD_DRAW_FOUR then 4 else 0
  }

  /** Laid from the hand onto the pile, nothing else moved. */
  ghost predicate CardLaid(u: Uno, r: Uno, card: Card) {
    && u.b.turn < |u.b.hands| && r.b.players == u.b.players && r.b.stock == u.b.stock
    && r.b.discard == u.b.discard + [card] && |r.b.hands| == |u.b.hands|
    && LaidFrom(u.b.hands[u.b.turn], r.b.hands[u.b.turn], card)
    && forall i | 0 <= i < |u.b.hands| && i != u.b.turn :: r.b.hands[i] == u.b.hands[i]
  }

  /** From the table with the card laid, only the next seat draws: what it owes, or all there is. */
  ghost predicate Paid(u: Uno, laid: Uno, r: Uno, card: Card)
    requires u.b.turn < |u.b.players|
  {
    var victim := Neighbour(u.b.turn, u.direction, |u.b.players|);
    Took(laid.b.(next := r.b.next, passes := r.b.passes), r.b, victim, Min(Owed(card), Available(laid.b)))
  }

  /** The card is laid, the next seat draws what it owes, and the turn and the colour in play follow the card. */
  ghost predicate CardPlayed(u: Uno, r: Uno, card: Card, color: nat)
    requires u.b.turn < |u.b.players|
  {
    && r.color == (if card.rank == WILD || card.rank == WILD_DRAW_FOUR then color else card.suit)
    && r.direction == TurnedDirection(u, card) && r.b.turn == u.b.turn
    && r.b.next == Some(SeatAfter(u, card)) && r.b.passes == 0
    && exists laid: Uno :: CardLaid(u, laid, card) && Paid(u, laid, r, card)
  }

  lemma AdvanceIs(u: Uno)
    requires Valid(u)
    ensures Advance(u, 1) == Neighbour(u.b.turn, u.direction, |u.b.players|)
    ensures Advance(u, 2) == Neighbour(Advance(u, 1), u.direction, |u.b.players|)
  {
    var n, d, t := |u.b.players|, u.direction, u.b.turn;
    NeighbourIs(t, n);
    NeighbourIs(Neighbour(t, d, n), n);
    Around(t + d, n);
    Around(t + d * 2, n);
  }

  lemma Around(x: int, n: nat)
    requires n > 0 && -2 <= x <= n + 1
    ensures x % n == if n == 1 then 0 else if x < 0 then x + n else if x >= n then x - n else x
  {
    if n > 1 && x < 0 {
      assert x == -1 * n + (x + n);
    } else if x >= n > 1 {
      assert x == 1 * n + (x - n);
    }
  }

  lemma SkipsTo(u: Uno, card: Card, played: Uno)
    requires Valid(u) && played == u.(b := played.b, color := played.color)
    requires played.b.players == u.b.players && played.b.turn == u.b.turn && Shaped(played.b)
    ensures Advance(played, 1) == Neighbour(u.b.turn, u.direction, |u.b.players|)
    ensures Advance(played, 2) == Neighbour(Advance(played, 1), u.direction, |u.b.players|)
    ensures Turned(played) == played.(direction := if |u.b.players| == 2 then u.direction else -u.direction,
                                      b := played.b.(next := Turned(played).b.next))
    ensures Turned(played).b.next
         == Some(if |u.b.players| == 2 then u.b.turn else Neighbour(u.b.turn, -u.direction, |u.b.players|))
  {
    AdvanceIs(u);
    AdvanceIs(u.(direction := -u.direction));
  }

  lemma NothingOwed(u: Uno, laid: Uno, r: Uno, card: Card)
    requires u.b.turn < |u.b.players| && Shaped(u.b) && Shaped(laid.b) && |laid.b.players| == |u.b.players|
    requires Owed(card) == 0 && r.b == laid.b.(next := r.b.next, passes := r.b.passes)
    ensures Paid(u, laid, r, card)
  {
  }

  lemma ForcedDrawIs(laid: Uno, n: nat, shuffle: seq<Card> -> seq<Card>, r: Board, k: nat)
    requires Shaped(laid.b) && laid.b.turn < |laid.b.players| && r == DrawInto(laid.b, Advance(laid, 1), n, shuffle)
    requires Took(laid.b, r, Advance(laid, 1), k) && k > 0
    ensures ForcedDraw(laid, n, shuffle) == laid.(b := r.(next := Some(Advance(laid, 2))))
  {
  }

  lemma PaidIs(u: Uno, laid: Uno, r: Board, card: Card, next: Option<nat>)
    requires u.b.turn < |u.b.players|
    requires Took(laid.b, r, Neighbour(u.b.turn, u.direction, |u.b.players|), Min(Owed(card), Available(laid.b)))
    ensures Paid(u, laid, laid.(b := r.(next := next)), card)
  {
  }

  lemma Forced(u: Uno, laid: Uno, card: Card, shuffle: seq<Card> -> seq<Card>)
    requires Valid(u) && Permutes(shuffle) && Owed(card) > 0 && laid.b.passes == 0 && laid.b.discard != []
    requires laid == u.(b := laid.b, color := laid.color) && laid.b.turn == u.b.turn
    requires laid.b.players == u.b.players && Shaped(laid.b) && |laid.b.discard| >= 2
    ensures var r := ForcedDraw(laid, Owed(card), shuffle);
            && r == laid.(b := r.b) && r.b.turn == laid.b.turn && r.b.passes == 0
            && r.b.next == Some(Neighbour(Neighbour(u.b.turn, u.direction, |u.b.players|), u.direction, |u.b.players|))
            && Paid(u, laid, r, card)
  {
    SkipsTo(u, card, laid);
    var victim, n := Advance(laid, 1), Owed(card);
    var r := DrawInto(laid.b, victim, n, shuffle);
    DrawTakesWhatThereIs(laid.b, victim, n, shuffle);
    ForcedDrawIs(laid, n, shuffle, r, Min(n, Available(laid.b)));
    PaidIs(u, laid, r, card, Some(Advance(laid, 2)));
  }

  lemma {:induction false} EffectIs(u: Uno, laid: Uno, card: Card, shuffle: seq<Card> -> seq<Card>)
    requires Valid(u) && Permutes(shuffle) && CardLaid(u, laid, card) && u.b.discard != [] && laid.b.passes == 0
    requires laid == u.(b := laid.b, color := laid.color) && laid.b.turn == u.b.turn
    ensures var r := Effect(laid, card.rank, shuffle);
            && r.color == laid.color && r.direction == TurnedDirection(u, card) && r.b.turn == u.b.turn
            && r.b.next == Some(SeatAfter(u, card)) && r.b.passes == 0 && Paid(u, laid, r, card)
  {
    SkipsTo(u, card, laid);
    if Owed(card) > 0 {
      Forced(u, laid, card, shuffle);
    } else {
      NothingOwed(u, laid, Effect(laid, card.rank, shuffle), card);
    }
  }

  lemma LayingIs(u: Uno, card: Card, color: nat)
    requires Valid(u) && card in u.b.hands[u.b.turn]
    ensures var laid := Played(u, card, color);
            && CardLaid(u, laid, card) && laid == u.(b := laid.b, color := laid.color)
            && laid.b.turn == u.b.turn && laid.b.passes == 0
            && laid.color == if card.rank == WILD || card.rank == WILD_DRAW_FOUR then color else card.suit
  {
  }

  /** What a lawful card does, whichever it is: to hands, pile, colour, direction and turn. */
  lemma CardDoes(u: Uno, card: Card, color: nat, shuffle: seq<Card> -> seq<Card>)
    requires Valid(u) && Permutes(shuffle) && Lawful(u, card, color)
    ensures CardPlayed(u, Apply(u, PlayCard(card, color), shuffle), card, color)
  {
    LayingIs(u, card, color);
    EffectIs(u, Played(u, card, color), card, shuffle);
  }

  /** An action is settled: over when a hand is empty or everybody has passed, else the next seat plays. */
  ghost predicate Settled(r: Uno, g: Game) {
    if (exists i :: 0 <= i < |r.b.hands| && r.b.hands[i] == []) || r.b.passes >= |r.b.players|
    then g == Finished(r)
    else r.b.next.Some? && g == Playing(r.(b := r.b.(turn := r.b.next.value, next := None)))
  }

  lemma StepSettles(u: Uno, a: Action, shuffle: seq<Card> -> seq<Card>)
    requires Valid(u) && Validate(u, a)
    requires var r := Apply(u, a, shuffle); r.b.players == u.b.players && r.b.next.Some? && r.b.next.value < |u.b.players|
    ensures Settled(Apply(u, a, shuffle), Step(u, Act(a), shuffle))
  {
    SameSeatIs(Apply(u, a, shuffle).b.next.value, |u.b.players|);
  }

  lemma SeatsAreSeats(u: Uno, card: Card)
    requires Valid(u)
    ensures SeatAfter(u, card) < |u.b.players| && Neighbour(u.b.turn, u.direction, |u.b.players|) < |u.b.players|
  {
  }

  /** A card changes the table exactly when the rules of the game allow it, and then does what is printed on it. */
  lemma OnlyLawfulCardsCount(u: Uno, card: Card, color: nat, shuffle: seq<Card> -> seq<Card>)
    requires Valid(u) && Permutes(shuffle)
    ensures var g := Step(u, Act(PlayCard(card, color)), shuffle);
            if Lawful(u, card, color)
            then var r := Apply(u, PlayCard(card, color), shuffle); CardPlayed(u, r, card, color) && Settled(r, g)
            else g == Playing(u)
  {
    LawfulIsValid(u, card, color);
    if Lawful(u, card, color) {
      CardDoes(u, card, color, shuffle);
      SeatsAreSeats(u, card);
      ApplyKeepsShape(u, PlayCard(card, color), shuffle);
      StepSettles(u, PlayCard(card, color), shuffle);
    }
  }

  /** The next seat plays, whoever drew has one more card if there was one, and otherwise the turn counts as a pass. */
  ghost predicate CardDrawn(u: Uno, r: Uno)
    requires u.b.turn < |u.b.players|
  {
    && r == u.(b := r.b)
    && r.b.next == Some(Neighbour(u.b.turn, u.direction, |u.b.players|))
    && r.b.passes == (if Available(u.b) == 0 then u.b.passes + 1 else 0)
    && Took(u.b.(next := r.b.next, passes := r.b.passes), r.b, u.b.turn, Min(1, Available(u.b)))
  }

  /** A draw is always taken. */
  lemma DrawsAlwaysCount(u: Uno, shuffle: seq<Card> -> seq<Card>)
    requires Valid(u) && Permutes(shuffle)
    ensures var r := Apply(u, DrawCard, shuffle);
            CardDrawn(u, r) && Settled(r, Step(u, Act(DrawCard), shuffle))
  {
    AdvanceIs(u);
    DrawTakesWhatThereIs(u.b, u.b.turn, 1, shuffle);
    ApplyKeepsShape(u, DrawCard, shuffle);
    StepSettles(u, DrawCard, shuffle);
  }

  // ---- The opening ----

  /** Whether the seat picked to go first loses its turn to the card that opens the pile. */
  predicate OpeningSkips(card: Card, n: nat) {
    card.rank == SKIP || card.rank == DRAW_TWO || (card.rank == REVERSE && n == 2)
  }

  /** What the card that opens the pile has done by the time the first seat plays. */
  ghost predicate OpensWith(b: Board, u: Uno, card: Card)
    requires Shaped(b) && b.turn < |b.players|
  {
    var n := |b.players|;
    && u.b.discard == [card] && card.rank != WILD && card.rank != WILD_DRAW_FOUR && u.color == card.suit
    && u.direction == (if card.rank == REVERSE && n != 2 then -1 else 1)
    && b.stock != [] && u.b.players == b.players
    && u.b.turn == (if OpeningSkips(card, n) then Neighbour(b.turn, 1, n) else b.turn)
    && |u.b.hands| == |b.hands| && (forall i | 0 <= i < |b.hands| && i != b.turn :: u.b.hands[i] == b.hands[i])
    && b.hands[b.turn] <= u.b.hands[b.turn]
    && |u.b.hands[b.turn]| == |b.hands[b.turn]| + if card.rank == DRAW_TWO then Min(2, |b.stock| - 1) else 0
  }

  lemma {:induction false} OpenedIs(u: Uno, card: Card, shuffle: seq<Card> -> seq<Card>)
    requires Shaped(u.b) && u.b.turn < |u.b.players| && u.direction == 1 && Permutes(shuffle) && u.b.discard == [card]
    ensures var r, n := Opened(u, card, shuffle), |u.b.players|;
            && r.color == u.color && r.direction == (if card.rank == REVERSE && n != 2 then -1 else 1)
            && r.b.turn == (if OpeningSkips(card, n) then Neighbour(u.b.turn, 1, n) else u.b.turn)
            && Took(u.b.(turn := r.b.turn, next := r.b.next, passes := r.b.passes), r.b, u.b.turn,
                    if card.rank == DRAW_TWO then Min(2, |u.b.stock|) else 0)
  {
    AdvanceIs(u.(b := u.b.(next := None)));
    assert Advance(u, 1) == Advance(u.(b := u.b.(next := None)), 1);
    DrawTakesWhatThereIs(u.b, u.b.turn, 2, shuffle);
  }

  lemma StartIs(b: Board, shuffle: seq<Card> -> seq<Card>, begun: Board, card: Card)
    requires Shaped(b) && b.turn < |b.players|
    requires OpenDiscard(b, (c: Card) => !IsWild(c.rank), shuffle) == (Some(card), begun)
    requires Shaped(begun) && begun.turn < |begun.players|
    ensures Start(b, shuffle) == Some(Opened(Uno(begun, card.suit, 1, false), card, shuffle))
  {
  }

  /** The game opens on a plain card of the colour then in play, and that card acts on the seat picked to go first. */
  lemma OpeningCardActs(b: Board, shuffle: seq<Card> -> seq<Card>)
    requires Shaped(b) && b.turn < |b.players| && b.discard == [] && Permutes(shuffle) && Start(b, shuffle).Some?
    ensures exists card :: OpensWith(b, Start(b, shuffle).value, card)
  {
    var plain := (c: Card) => !IsWild(c.rank);
    var (found, begun) := OpenDiscard(b, plain, shuffle);
    OpeningConserves(b, plain, shuffle);
    OpeningTakesOne(b, plain, shuffle);
    var card := found.value;
    StartIs(b, shuffle, begun, card);
    OpenedIs(Uno(begun, card.suit, 1, false), card, shuffle);
    assert OpensWith(b, Start(b, shuffle).value, card);
  }

  // ---- Whole games ----

  /** The card in play shows its colour, or is a wild with one named for it. */
  ghost predicate ShowsColor(u: Uno) {
    && u.b.discard != []
    && var top := u.b.discard[|u.b.discard| - 1];
       if IsWild(top.rank) then SPADES <= u.color <= CLUBS else u.color == top.suit
  }

  lemma PlayedShows(u: Uno, r: Uno, card: Card, color: nat)
    requires u.b.turn < |u.b.players| && Shaped(u.b) && Lawful(u, card, color) && CardPlayed(u, r, card, color)
    ensures ShowsColor(r)
  {
    var laid: Uno :| CardLaid(u, laid, card) && Paid(u, laid, r, card);
    assert laid.b.discard[|laid.b.discard| - 1] == card;
  }

  lemma SettledShows(r: Uno, g: Game)
    requires Settled(r, g) && ShowsColor(r)
    ensures ShowsColor(g.u)
  {
  }

  lemma DrawnShows(u: Uno, r: Uno)
    requires u.b.turn < |u.b.players| && CardDrawn(u, r) && ShowsColor(u)
    ensures ShowsColor(r)
  {
  }

  lemma QuitShows(u: Uno, seat: nat, shuffle: seq<Card> -> seq<Card>)
    requires Valid(u) && ShowsColor(u)
    ensures ShowsColor(Step(u, Quit(seat), shuffle).u)
  {
  }

  lemma StepShows(u: Uno, e: Event, shuffle: seq<Card> -> seq<Card>)
    requires Valid(u) && Permutes(shuffle) && ShowsColor(u)
    ensures ShowsColor(Step(u, e, shuffle).u)
  {
    match e
    case Act(PlayCard(card, color)) =>
      OnlyLawfulCardsCount(u, card, color, shuffle);
      if Lawful(u, card, color) {
        var r := Apply(u, PlayCard(card, color), shuffle);
        PlayedShows(u, r, card, color);
        SettledShows(r, Step(u, e, shuffle));
      }
    case Act(DrawCard) =>
      DrawsAlwaysCount(u, shuffle);
      DrawnShows(u, Apply(u, DrawCard, shuffle));
      SettledShows(Apply(u, DrawCard, shuffle), Step(u, e, shuffle));
    case Quit(seat) => QuitShows(u, seat, shuffle);
  }

  /** However a game goes, the colour in play is the one the pile shows, or the one named for the wild on top. */
  lemma {:induction false} RunShowsColor(g: Game, moves: seq<Move>)
    requires (g.Playing? ==> Valid(g.u)) && ShowsColor(g.u)
    ensures ShowsColor(Run(g, moves).u)
    decreases |moves|
  {
    if moves != [] && g.Playing? && Permutes(moves[0].shuffle) {
      StepIsSound(g.u, moves[0].e, moves[0].shuffle);
      StepShows(g.u, moves[0].e, moves[0].shuffle);
      RunShowsColor(Step(g.u, moves[0].e, moves[0].shuffle), moves[1..]);
    }
  }
}
