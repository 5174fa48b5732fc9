/** Uno: action cards, directions, forced draws and leaving, on the shared shedding board. */
module Uno {
  import opened Cards
  import opened Options
  import opened Sums
  import opened Shed

  const SKIP := 22
  const REVERSE := 23
  const DRAW_TWO := 24
  const WILD := 25
  const WILD_DRAW_FOUR := 26

  datatype Action = PlayCard(card: Card, color: nat) | DrawCard

  datatype Uno = Uno(b: Board, color: nat, direction: int, leaverWasOnTurn: bool)

  predicate IsWild(rank: nat) {
    rank == WILD || rank == WILD_DRAW_FOUR
  }

  predicate HasColor(hand: seq<Card>, color: nat) {
    exists c :: c in hand && !IsWild(c.rank) && c.suit == color
  }

  ghost predicate Valid(u: Uno) {
    && Shaped(u.b) && u.b.turn < |u.b.players| && (u.direction == 1 || u.direction == -1) && u.b.next.None?
  }

  /** The seat so many steps on in the direction of play. */
  function Advance(u: Uno, steps: int): (seat: nat)
    ensures |u.b.players| > 0 ==> seat < |u.b.players|
  {
    var n := |u.b.players|;
    if n == 0 then 0 else (u.b.turn + u.direction * steps) % n
  }

  predicate Validate(u: Uno, a: Action)
    requires Shaped(u.b) && u.b.turn < |u.b.players|
  {
    match a
    case DrawCard => true
    case PlayCard(card, color) =>
      var hand := u.b.hands[u.b.turn];
      if u.b.discard == [] || card !in hand then false
      else
        var top := u.b.discard[|u.b.discard| - 1];
        if IsWild(card.rank) then IsSuit(color) && !(card.rank == WILD_DRAW_FOUR && HasColor(hand, u.color))
        else card.suit == u.color || (card.rank == top.rank && !IsWild(top.rank))
  }

  function To(u: Uno, seat: nat): Uno {
    u.(b := u.b.(next := Some(seat)))
  }

  /** Draws for a seat, counting an empty draw as a pass; a voluntary one that succeeds clears the count. */
  function Drawing(u: Uno, seat: nat, n: nat, voluntary: bool, shuffle: seq<Card> -> seq<Card>): Uno
    requires seat < |u.b.hands|
  {
    var r := DrawInto(u.b, seat, n, shuffle);
    u.(b := r.(passes := if !Drew(u.b, r, seat) then r.passes + 1 else if voluntary then 0 else r.passes))
  }

  function ForcedDraw(u: Uno, n: nat, shuffle: seq<Card> -> seq<Card>): Uno
    requires Shaped(u.b) && u.b.turn < |u.b.players|
  {
    var victim := Advance(u, 1);
    To(Drawing(u, victim, n, false, shuffle), Advance(u, 2))
  }

  /** Two-handed, a reverse is a skip. */
  function Turned(u: Uno): Uno {
    if |u.b.players| == 2 then To(u, u.b.turn)
    else
      var r := u.(direction := -u.direction);
      To(r, Advance(r, 1))
  }

  function Played(u: Uno, card: Card, color: nat): Uno
    requires u.b.turn < |u.b.hands|
  {
    var seat := u.b.turn;
    u.(b := u.b.(hands := u.b.hands[seat := RemoveOne(u.b.hands[seat], card)], discard := u.b.discard + [card],
                 passes := 0),
       color := if IsWild(card.rank) then color else card.suit)
  }

  function Apply(u: Uno, a: Action, shuffle: seq<Card> -> seq<Card>): Uno
    requires Shaped(u.b) && u.b.turn < |u.b.players|
  {
    match a
    case DrawCard => To(Drawing(u, u.b.turn, 1, true, shuffle), Advance(u, 1))
    case PlayCard(card, color) =>
      Effect(Played(u, card, color), card.rank, shuffle)
  }

  function Penalty(rank: nat): nat {
    if rank == DRAW_TWO then 2 else if rank == WILD_DRAW_FOUR then 4 else 0
  }

  /** What a card does once it is down. */
  function Effect(u: Uno, rank: nat, shuffle: seq<Card> -> seq<Card>): Uno
    requires Shaped(u.b) && u.b.turn < |u.b.players|
  {
    if rank == SKIP then To(u, Advance(u, 2))
    else if rank == REVERSE then Turned(u)
    else if Penalty(rank) > 0 then ForcedDraw(u, Penalty(rank), shuffle)
    else To(u, Advance(u, 1))
  }

  /** The card that opens the pile acts on the seat picked to go first. */
  function Opened(u: Uno, card: Card, shuffle: seq<Card> -> seq<Card>): Uno
    requires Shaped(u.b) && u.b.turn < |u.b.players|
  {
    var acted := if card.rank == DRAW_TWO then Drawing(u, u.b.turn, 2, false, shuffle)
                 else if card.rank == REVERSE && |u.b.players| != 2 then u.(direction := -1)
                 else u;
    var loses := card.rank == SKIP || card.rank == DRAW_TWO || (card.rank == REVERSE && |u.b.players| == 2);
    var first := if loses then Advance(u, 1) else u.b.turn;
    acted.(b := acted.b.(turn := first, next := Some(first)))
  }

  /** Deals are the engine's; this opens the pile and plays its card, or fails on a stock of nothing but wilds. */
  function Start(b: Board, shuffle: seq<Card> -> seq<Card>): Option<Uno>
    requires Shaped(b) && b.turn < |b.players|
  {
    var (card, begun) := OpenDiscard(b, (c: Card) => !IsWild(c.rank), shuffle);
    if card.None? then None else Some(Opened(Uno(begun, card.value.suit, 1, false), card.value, shuffle))
  }

  // ---- Leaving ----

  function OnPlayerLeave(u: Uno, seat: nat, shuffle: seq<Card> -> seq<Card>): Uno
    requires seat < |u.b.hands|
  {
    u.(leaverWasOnTurn := u.b.turn == seat, b := LeaveShedGame(u.b, seat, shuffle))
  }

  /** Counterclockwise, a leaver on turn hands it to the seat before them. */
  function AfterPlayerRemoved(u: Uno, removed: nat): Uno {
    var n := |u.b.players|;
    var r := u.(leaverWasOnTurn := false);
    if !u.leaverWasOnTurn || u.direction >= 0 || n < 2 then r
    else
      var seat := (removed - 1) % n;
      r.(b := r.b.(turn := seat, next := Some(seat)))
  }

  function Leave(u: Uno, seat: nat, shuffle: seq<Card> -> seq<Card>): Uno
    requires Shaped(u.b) && seat < |u.b.players|
  {
    var left := OnPlayerLeave(u, seat, shuffle);
    AfterPlayerRemoved(left.(b := Unseat(left.b, seat)), seat)
  }

  // ---- Whole games ----

  datatype Event = Act(a: Action) | Quit(seat: nat)

  datatype Game = Playing(u: Uno) | Finished(u: Uno)

  function Step(u: Uno, e: Event, shuffle: seq<Card> -> seq<Card>): Game
    requires Shaped(u.b) && u.b.turn < |u.b.players|
  {
    match e
    case Act(a) =>
      if !Validate(u, a) then Playing(u)
      else
        var s := Apply(u, a, shuffle);
        if HandEmptyOrAllPassed(s.b) then Finished(s) else Playing(s.(b := NextTurn(s.b, true)))
    case Quit(seat) =>
      if seat >= |u.b.players| then Playing(u)
      else
        var s := Leave(u, seat, shuffle);
        if s.b.players == [] || HandEmptyOrAllPassed(s.b) || |s.b.players| == 1 then Finished(s)
        else Playing(s.(b := NextTurn(s.b, false)))
  }

  lemma PlayedConserves(u: Uno, card: Card, color: nat)
    requires u.b.turn < |u.b.hands| && card in u.b.hands[u.b.turn]
    ensures AllCards(Played(u, card, color).b) == AllCards(u.b)
  {
    var seat := u.b.turn;
    PackAdds(u.b.hands[seat := RemoveOne(u.b.hands[seat], card)], u.b.hands, seat, multiset{card}, |u.b.hands|);
  }

  lemma DrawingConserves(u: Uno, seat: nat, n: nat, voluntary: bool, shuffle: seq<Card> -> seq<Card>)
    requires Permutes(shuffle) && seat < |u.b.hands|
    ensures AllCards(Drawing(u, seat, n, voluntary, shuffle).b) == AllCards(u.b)
  {
    DrawIntoConserves(u.b, seat, n, shuffle);
  }

  lemma ForcedDrawConserves(u: Uno, n: nat, shuffle: seq<Card> -> seq<Card>)
    requires Permutes(shuffle) && Shaped(u.b) && u.b.turn < |u.b.players|
    ensures AllCards(ForcedDraw(u, n, shuffle).b) == AllCards(u.b)
  {
    DrawingConserves(u, Advance(u, 1), n, false, shuffle);
  }

  lemma EffectConserves(u: Uno, rank: nat, shuffle: seq<Card> -> seq<Card>)
    requires Permutes(shuffle) && Shaped(u.b) && u.b.turn < |u.b.players|
    ensures AllCards(Effect(u, rank, shuffle).b) == AllCards(u.b)
  {
    ForcedDrawConserves(u, Penalty(rank), shuffle);
  }

  /** Every play, draw, penalty and recycled pile: the cards of the table stay the same cards. */
  lemma ApplyConserves(u: Uno, a: Action, shuffle: seq<Card> -> seq<Card>)
    requires Permutes(shuffle) && Shaped(u.b) && u.b.turn < |u.b.players| && Validate(u, a)
    ensures AllCards(Apply(u, a, shuffle).b) == AllCards(u.b)
  {
    match a
    case DrawCard => DrawingConserves(u, u.b.turn, 1, true, shuffle);
    case PlayCard(card, color) =>
      PlayedConserves(u, card, color);
      EffectConserves(Played(u, card, color), card.rank, shuffle);
  }

  lemma LeaveConserves(u: Uno, seat: nat, shuffle: seq<Card> -> seq<Card>)
    requires Permutes(shuffle) && Shaped(u.b) && seat < |u.b.players|
    ensures AllCards(Leave(u, seat, shuffle).b) == AllCards(u.b) && Shaped(Leave(u, seat, shuffle).b)
  {
    LeavingConserves(u.b, seat, shuffle);
  }

  lemma StartConserves(b: Board, shuffle: seq<Card> -> seq<Card>)
    requires Permutes(shuffle) && Shaped(b) && b.turn < |b.players| && b.discard == []
    ensures var s := Start(b, shuffle);
            && (s.None? <==> forall c | c in b.stock :: IsWild(c.rank))
            && (s.Some? ==> AllCards(s.value.b) == AllCards(b) && Valid(s.value.(b := NextTurn(s.value.b, false))))
  {
    var plain := (c: Card) => !IsWild(c.rank);
    OpeningConserves(b, plain, shuffle);
    var (card, o) := OpenDiscard(b, plain, shuffle);
    if card.Some? {
      var u := Uno(o, card.value.suit, 1, false);
      DrawingConserves(u, u.b.turn, 2, false, shuffle);
    } else {
      assert forall c | c in b.stock :: !plain(c);
    }
  }

  lemma ApplyKeepsShape(u: Uno, a: Action, shuffle: seq<Card> -> seq<Card>)
    requires Valid(u) && Validate(u, a)
    ensures var s := Apply(u, a, shuffle);
            && Shaped(s.b) && s.b.players == u.b.players && (s.direction == 1 || s.direction == -1) && s.b.next.Some?
  {
  }

  /** Over any plays, draws and leaves the cards are conserved and the turn names a seat. */
  lemma StepIsSound(u: Uno, e: Event, shuffle: seq<Card> -> seq<Card>)
    requires Valid(u) && Permutes(shuffle)
    ensures var g := Step(u, e, shuffle);
            AllCards(g.u.b) == AllCards(u.b) && (g.Playing? ==> Valid(g.u))
  {
    match e
    case Act(a) => ActIsSound(u, a, shuffle);
    case Quit(seat) => QuitIsSound(u, seat, shuffle);
  }

  lemma ActIsSound(u: Uno, a: Action, shuffle: seq<Card> -> seq<Card>)
    requires Valid(u) && Permutes(shuffle)
    ensures var g := Step(u, Act(a), shuffle);
            AllCards(g.u.b) == AllCards(u.b) && (g.Playing? ==> Valid(g.u))
  {
    if Validate(u, a) {
      ApplyConserves(u, a, shuffle);
      ApplyKeepsShape(u, a, shuffle);
    }
  }

  lemma QuitIsSound(u: Uno, seat: nat, shuffle: seq<Card> -> seq<Card>)
    requires Valid(u) && Permutes(shuffle)
    ensures var g := Step(u, Quit(seat), shuffle);
            AllCards(g.u.b) == AllCards(u.b) && (g.Playing? ==> Valid(g.u))
  {
    if seat < |u.b.players| {
      LeaveConserves(u, seat, shuffle);
    }
  }

  /** One thing that happens, with the order any pile shuffled on the way ends up in. */
  datatype Move = Move(e: Event, shuffle: seq<Card> -> seq<Card>)

  ghost function Run(g: Game, moves: seq<Move>): Game
    requires g.Playing? ==> Valid(g.u)
    decreases |moves|
  {
    if moves == [] || !g.Playing? || !Permutes(moves[0].shuffle) then g
    else
      StepIsSound(g.u, moves[0].e, moves[0].shuffle);
      Run(Step(g.u, moves[0].e, moves[0].shuffle), moves[1..])
  }

  /** However a game goes, it is played with the cards it started with. */
  lemma {:induction false} RunConserves(g: Game, moves: seq<Move>)
    requires g.Playing? ==> Valid(g.u)
    ensures AllCards(Run(g, moves).u.b) == AllCards(g.u.b)
    ensures Run(g, moves).Playing? ==> Valid(Run(g, moves).u)
    decreases |moves|
  {
    if moves != [] && g.Playing? && Permutes(moves[0].shuffle) {
      StepIsSound(g.u, moves[0].e, moves[0].shuffle);
      RunConserves(Step(g.u, moves[0].e, moves[0].shuffle), moves[1..]);
    }
  }

  /**
   When somebody leaves and at least two stay, the turn stays with whoever had it, or passes to the leaver's
   neighbour in the direction of play.
   */
  lemma TurnFollowsDirection(u: Uno, seat: nat, shuffle: seq<Card> -> seq<Card>)
    requires Valid(u) && seat < |u.b.players| && |u.b.players| >= 3
    ensures var r := NextTurn(Leave(u, seat, shuffle).b, false);
            && r.turn < |r.players|
            && r.players[r.turn]
               == u.b.players[if u.b.turn == seat then Neighbour(seat, u.direction, |u.b.players|) else u.b.turn]
  {
    var n := |u.b.players|;
    var gone := Unseat(LeaveShedGame(u.b, seat, shuffle), seat);
    TurnPassesClockwise(LeaveShedGame(u.b, seat, shuffle), seat);
    NeighbourIs(seat, n);
    if u.b.turn == seat && u.direction == -1 {
      BackOne(seat, n - 1);
      ClampIs(if seat == 0 then n - 2 else seat - 1, n - 1);
    } else {
      ClampIs(gone.turn, n - 1);
    }
  }

  // ---- The table in place ----

  class Match {
    const table: Table
    var color: nat
    var direction: int
    var leaverWasOnTurn: bool

    constructor (table: Table)
      ensures this.table == table && color == NO_SUIT && direction == 1 && !leaverWasOnTurn
    {
      this.table, color, direction, leaverWasOnTurn := table, NO_SUIT, 1, false;
    }

    function View(): Uno
      reads this, table
    {
      Uno(table.View(), color, direction, leaverWasOnTurn)
    }

    method PutDown(card: Card, chosen: nat)
      requires table.turn < |table.hands|
      modifies this`color, table`hands, table`discard, table`passes
      ensures View() == Played(old(View()), card, chosen)
    {
      table.hands := table.hands[table.turn := RemoveOne(table.hands[table.turn], card)];
      table.discard := table.discard + [card];
      table.passes := 0;
      color := if IsWild(card.rank) then chosen else card.suit;
    }

    method DrawFor(seat: nat, n: nat, voluntary: bool, shuffle: seq<Card> -> seq<Card>)
      requires seat < |table.hands|
      modifies table`hands, table`stock, table`discard, table`passes
      ensures View() == Drawing(old(View()), seat, n, voluntary, shuffle)
    {
      var drew := table.DrawCardsInto(seat, n, shuffle);
      if !drew {
        table.passes := table.passes + 1;
      } else if voluntary {
        table.passes := 0;
      }
    }

    method Pass(seat: nat)
      modifies table`next
      ensures View() == To(old(View()), seat)
    {
      table.next := Some(seat);
    }

    method ForceDraw(n: nat, shuffle: seq<Card> -> seq<Card>)
      requires Shaped(table.View()) && table.turn < |table.players|
      modifies table`hands, table`stock, table`discard, table`passes, table`next
      ensures View() == ForcedDraw(old(View()), n, shuffle)
    {
      var victim, after := Advance(View(), 1), Advance(View(), 2);
      DrawFor(victim, n, false, shuffle);
      Pass(after);
    }

    method TurnAround()
      requires table.turn < |table.players|
      modifies this`direction, table`next
      ensures View() == Turned(old(View()))
    {
      if |table.players| == 2 {
        Pass(table.turn);
      } else {
        direction := -direction;
        Pass(Advance(View(), 1));
      }
    }

    method Perform(a: Action, shuffle: seq<Card> -> seq<Card>)
      requires Shaped(table.View()) && table.turn < |table.players|
      modifies this, table
      ensures View() == Apply(old(View()), a, shuffle)
    {
      match a
      case DrawCard =>
        var after := Advance(View(), 1);
        DrawFor(table.turn, 1, true, shuffle);
        Pass(after);
        return;
      case PlayCard(card, chosen) =>
        PutDown(card, chosen);
        TakeEffect(card.rank, shuffle);
        return;
    }

    method TakeEffect(rank: nat, shuffle: seq<Card> -> seq<Card>)
      requires Shaped(table.View()) && table.turn < |table.players|
      modifies this, table
      ensures View() == Effect(old(View()), rank, shuffle)
    {
      if rank == SKIP {
        Pass(Advance(View(), 2));
      } else if rank == REVERSE {
        TurnAround();
      } else if Penalty(rank) > 0 {
        ForceDraw(Penalty(rank), shuffle);
      } else {
        Pass(Advance(View(), 1));
      }
    }

    method Remove(seat: nat, shuffle: seq<Card> -> seq<Card>)
      requires Shaped(table.View()) && seat < |table.players|
      modifies this, table
      ensures View() == Leave(old(View()), seat, shuffle)
    {
      leaverWasOnTurn := table.turn == seat;
      table.LeaveGame(seat, shuffle);
      table.Vacate(seat);
      Hand(seat);
    }

    method Hand(removed: nat)
      modifies this`leaverWasOnTurn, table`turn, table`next
      ensures View() == AfterPlayerRemoved(old(View()), removed)
    {
      var onTurn := leaverWasOnTurn;
      leaverWasOnTurn := false;
      if !onTurn || direction >= 0 || |table.players| < 2 {
        return;
      }
      table.turn := (removed - 1) % |table.players|;
      table.next := Some(table.turn);
    }
  }
}
