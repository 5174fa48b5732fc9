/** Crazy Eights, the second game on the shared shedding board. */
module CrazyEight {
  import opened Cards
  import opened Options
  import opened Shed

  datatype Action = PlayCard(card: Card, suit: nat) | DrawCard

  datatype Eights = Eights(b: Board, suit: nat)

  ghost predicate Valid(g: Eights) {
    Shaped(g.b) && g.b.turn < |g.b.players| && g.b.next.None?
  }

  predicate Validate(g: Eights, a: Action)
    requires Shaped(g.b) && g.b.turn < |g.b.players|
  {
    match a
    case DrawCard => true
    case PlayCard(card, suit) =>
      && g.b.discard != [] && card in g.b.hands[g.b.turn]
      && if card.rank == EIGHT then IsSuit(suit)
         else card.suit == g.suit || card.rank == g.b.discard[|g.b.discard| - 1].rank
  }

  /** A draw that finds nothing is a forced pass. */
  function Apply(g: Eights, a: Action, shuffle: seq<Card> -> seq<Card>): Eights
    requires Shaped(g.b) && g.b.turn < |g.b.players|
  {
    var seat := g.b.turn;
    match a
    case PlayCard(card, suit) =>
      Eights(g.b.(hands := g.b.hands[seat := RemoveOne(g.b.hands[seat], card)], discard := g.b.discard + [card], passes := 0),
             if card.rank == EIGHT then suit else card.suit)
    case DrawCard =>
      var r := DrawOne(g.b, seat, shuffle);
      g.(b := r.(passes := if Drew(g.b, r, seat) then 0 else r.passes + 1))
  }

  function Leave(g: Eights, seat: nat, shuffle: seq<Card> -> seq<Card>): Eights
    requires Shaped(g.b) && seat < |g.b.players|
  {
    g.(b := Unseat(LeaveShedGame(g.b, seat, shuffle), seat))
  }

  /** An eight never opens the pile. */
  function Start(b: Board, shuffle: seq<Card> -> seq<Card>): Option<Eights> {
    var (card, r) := OpenDiscard(b, (c: Card) => c.rank != EIGHT, shuffle);
    if card.None? then None else Some(Eights(r, card.value.suit))
  }

  /** Every play, draw and leave keeps the cards of the table and a seat on turn. */
  lemma StepConserves(g: Eights, a: Action, shuffle: seq<Card> -> seq<Card>)
    requires Valid(g) && Permutes(shuffle) && Validate(g, a)
    ensures var r := Apply(g, a, shuffle);
            && AllCards(r.b) == AllCards(g.b) && Valid(r.(b := NextTurn(r.b, true)))
            && AllCards(NextTurn(r.b, true)) == AllCards(g.b)
  {
    match a
    case DrawCard => DrawOneConserves(g.b, g.b.turn, shuffle);
    case PlayCard(card, suit) =>
      var seat := g.b.turn;
      PackAdds(g.b.hands[seat := RemoveOne(g.b.hands[seat], card)], g.b.hands, seat, multiset{card}, |g.b.hands|);
  }

  /** A leaver's cards stay in the game, and the turn stays or passes to the next seat clockwise. */
  lemma LeaveConserves(g: Eights, seat: nat, shuffle: seq<Card> -> seq<Card>)
    requires Valid(g) && Permutes(shuffle) && seat < |g.b.players| && |g.b.players| >= 2
    ensures var r := NextTurn(Leave(g, seat, shuffle).b, false);
            && AllCards(r) == AllCards(g.b) && Shaped(r) && r.turn < |r.players|
            && r.players[r.turn]
               == g.b.players[if g.b.turn == seat then Neighbour(seat, 1, |g.b.players|) else g.b.turn]
  {
    LeavingConserves(g.b, seat, shuffle);
    TurnPassesClockwise(LeaveShedGame(g.b, seat, shuffle), seat);
    ClampIs(Leave(g, seat, shuffle).b.turn, |g.b.players| - 1);
  }

  /** The opening conserves every card and fails only on a stock of nothing but eights. */
  lemma StartConserves(b: Board, shuffle: seq<Card> -> seq<Card>)
    requires Permutes(shuffle) && b.discard == []
    ensures var s := Start(b, shuffle);
            && (s.None? <==> forall c | c in b.stock :: c.rank == EIGHT)
            && (s.Some? ==> AllCards(s.value.b) == AllCards(b) && s.value.b.discard != [])
  {
    var plain := (c: Card) => c.rank != EIGHT;
    OpeningConserves(b, plain, shuffle);
    if OpenDiscard(b, plain, shuffle).0.None? {
      assert forall c | c in b.stock :: !plain(c);
    }
  }

  // ---- Whole games ----

  datatype Event = Act(a: Action) | Quit(seat: nat)

  /** One thing that happens, with the order any pile shuffled on the way ends up in. */
  datatype Move = Move(e: Event, shuffle: seq<Card> -> seq<Card>)

  datatype Game = Playing(g: Eights) | Finished(g: Eights)

  function Step(g: Eights, e: Event, shuffle: seq<Card> -> seq<Card>): Game
    requires Shaped(g.b) && g.b.turn < |g.b.players|
  {
    match e
    case Act(a) =>
      if !Validate(g, a) then Playing(g)
      else
        var r := Apply(g, a, shuffle);
        if HandEmptyOrAllPassed(r.b) then Finished(r) else Playing(r.(b := NextTurn(r.b, true)))
    case Quit(seat) =>
      if seat >= |g.b.players| then Playing(g)
      else
        var r := Leave(g, seat, shuffle);
        if r.b.players == [] || HandEmptyOrAllPassed(r.b) || |r.b.players| == 1 then Finished(r)
        else Playing(r.(b := NextTurn(r.b, false)))
  }

  /** Over any plays, draws and leaves the cards are conserved and the turn names a seat. */
  lemma StepIsSound(g: Eights, e: Event, shuffle: seq<Card> -> seq<Card>)
    requires Valid(g) && Permutes(shuffle)
    ensures var r := Step(g, e, shuffle);
            AllCards(r.g.b) == AllCards(g.b) && (r.Playing? ==> Valid(r.g))
  {
    match e
    case Act(a) =>
      if Validate(g, a) {
        StepConserves(g, a, shuffle);
      }
    case Quit(seat) =>
      if seat < |g.b.players| {
        LeavingConserves(g.b, seat, shuffle);
        if |g.b.players| >= 2 {
          LeaveConserves(g, seat, shuffle);
        }
      }
  }

  ghost function Run(g: Game, moves: seq<Move>): Game
    requires g.Playing? ==> Valid(g.g)
    decreases |moves|
  {
    if moves == [] || !g.Playing? || !Permutes(moves[0].shuffle) then g
    else
      StepIsSound(g.g, moves[0].e, moves[0].shuffle);
      Run(Step(g.g, moves[0].e, moves[0].shuffle), moves[1..])
  }

  /** However a game goes, it is played with the cards it started with. */
  lemma {:induction false} RunConserves(g: Game, moves: seq<Move>)
    requires g.Playing? ==> Valid(g.g)
    ensures AllCards(Run(g, moves).g.b) == AllCards(g.g.b)
    ensures Run(g, moves).Playing? ==> Valid(Run(g, moves).g)
    decreases |moves|
  {
    if moves != [] && g.Playing? && Permutes(moves[0].shuffle) {
      StepIsSound(g.g, moves[0].e, moves[0].shuffle);
      RunConserves(Step(g.g, moves[0].e, moves[0].shuffle), moves[1..]);
    }
  }

  class Match {
    const table: Table
    var suit: nat

    constructor (table: Table)
      ensures this.table == table && suit == NO_SUIT
    {
      this.table, suit := table, NO_SUIT;
    }

    function View(): Eights
      reads this, table
    {
      Eights(table.View(), suit)
    }

    method Perform(a: Action, shuffle: seq<Card> -> seq<Card>)
      requires Shaped(table.View()) && table.turn < |table.players|
      modifies this`suit, table`hands, table`stock, table`discard, table`passes
      ensures View() == Apply(old(View()), a, shuffle)
    {
      match a
      case PlayCard(card, chosen) =>
        table.hands := table.hands[table.turn := RemoveOne(table.hands[table.turn], card)];
        table.discard := table.discard + [card];
        suit := if card.rank == EIGHT then chosen else card.suit;
        table.passes := 0;
        return;
      case DrawCard =>
        var drew := table.DrawCard(table.turn, shuffle);
        if drew {
          table.passes := 0;
        } else {
          table.passes := table.passes + 1;
        }
        return;
    }
  }
}
