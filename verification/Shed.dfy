/** What the shedding games share: piles that recycle, hands that go back, and a discard that opens on a plain card. */
module Shed {
  import opened Cards
  import opened Options
  import opened Sums

  /** hands[i] belongs to players[i]; passes counts turns in a row on which no card was left to draw. */
  datatype Board = Board(players: seq<Id>, hands: seq<seq<Card>>, stock: seq<Card>, discard: seq<Card>, turn: nat,
                         next: Option<nat>, passes: nat)

  ghost predicate Shaped(b: Board) {
    |b.hands| == |b.players|
  }

  /** Any reordering at all. */
  ghost predicate Permutes(shuffle: seq<Card> -> seq<Card>) {
    forall s :: multiset(shuffle(s)) == multiset(s)
  }

  ghost function AllCards(b: Board): multiset<Card> {
    Pack(b.hands) + multiset(b.stock) + multiset(b.discard)
  }

  function Clamp(turn: int, n: nat): nat {
    if n == 0 then 0 else turn % n
  }

  // ---- Piles ----

  /** All of the discard but the card in play goes back into an empty stock. */
  function Reshuffle(b: Board, shuffle: seq<Card> -> seq<Card>): Board {
    if b.stock != [] || b.discard == [] then b
    else
      var n := |b.discard| - 1;
      b.(stock := shuffle(b.discard[..n]), discard := [b.discard[n]])
  }

  /** One card into a hand, recycling the discard when the stock is out; nothing when both are. */
  function DrawOne(b: Board, seat: nat, shuffle: seq<Card> -> seq<Card>): Board
    requires seat < |b.hands|
  {
    var r := if b.stock == [] then Reshuffle(b, shuffle) else b;
    if r.stock == [] then r
    else r.(hands := r.hands[seat := r.hands[seat] + [r.stock[|r.stock| - 1]]], stock := r.stock[..|r.stock| - 1])
  }

  /** Up to n cards into a hand. */
  function DrawInto(b: Board, seat: nat, n: nat, shuffle: seq<Card> -> seq<Card>): (r: Board)
    requires seat < |b.hands|
    ensures |r.hands| == |b.hands| && r == b.(hands := r.hands, stock := r.stock, discard := r.discard)
    decreases n
  {
    if n == 0 then b
    else
      var once := DrawOne(b, seat, shuffle);
      if |once.hands[seat]| == |b.hands[seat]| then once else DrawInto(once, seat, n - 1, shuffle)
  }

  predicate Drew(b: Board, r: Board, seat: nat)
    requires seat < |b.hands| && seat < |r.hands|
  {
    |r.hands[seat]| > |b.hands[seat]|
  }

  function ReturnHand(b: Board, seat: nat, shuffle: seq<Card> -> seq<Card>): Board
    requires seat < |b.hands|
  {
    b.(stock := shuffle(b.stock + b.hands[seat]), hands := b.hands[seat := []])
  }

  /** A leaver's hand goes back, and the count of passes starts over. */
  function LeaveShedGame(b: Board, seat: nat, shuffle: seq<Card> -> seq<Card>): Board
    requires seat < |b.hands|
  {
    ReturnHand(b.(passes := 0), seat, shuffle)
  }

  function Unseat(b: Board, seat: nat): Board
    requires Shaped(b) && seat < |b.players|
  {
    b.(players := DropAt(b.players, seat), hands := DropAt(b.hands, seat),
       turn := Clamp(if b.turn > seat then b.turn - 1 else b.turn, |b.players| - 1))
  }

  function NextTurn(b: Board, advance: bool): Board {
    b.(turn := Clamp(if b.next.Some? then b.next.value else if advance then b.turn + 1 else b.turn, |b.players|),
       next := None)
  }

  predicate HandEmptyOrAllPassed(b: Board) {
    (exists i :: 0 <= i < |b.hands| && b.hands[i] == []) || (b.players != [] && b.passes >= |b.players|)
  }

  /** The cards on top of the stock that may not open the pile, and whether one was found that may. */
  function OpenFrom(stock: seq<Card>, aside: seq<Card>, playable: Card -> bool): (Option<Card>, seq<Card>, seq<Card>)
    decreases |stock|
  {
    if stock == [] then (None, stock, aside)
    else
      var card, rest := stock[|stock| - 1], stock[..|stock| - 1];
      if playable(card) then (Some(card), rest, aside) else OpenFrom(rest, aside + [card], playable)
  }

  /** Opens the discard on the first playable card, shuffling what was set aside back in. */
  function OpenDiscard(b: Board, playable: Card -> bool, shuffle: seq<Card> -> seq<Card>): (Option<Card>, Board) {
    var (card, rest, aside) := OpenFrom(b.stock, [], playable);
    if card.None? then (None, b.(stock := rest + aside))
    else
      var stock := if aside == [] then rest else shuffle(rest + aside);
      (card, b.(discard := [card.value], stock := stock))
  }

  // ---- Nothing is lost ----

  lemma ReshuffleConserves(b: Board, shuffle: seq<Card> -> seq<Card>)
    requires Permutes(shuffle)
    ensures AllCards(Reshuffle(b, shuffle)) == AllCards(b)
  {
    if b.stock == [] && b.discard != [] {
      var n := |b.discard| - 1;
      assert b.discard == b.discard[..n] + [b.discard[n]];
      assert multiset(shuffle(b.discard[..n])) == multiset(b.discard[..n]);
    }
  }

  lemma DrawOneConserves(b: Board, seat: nat, shuffle: seq<Card> -> seq<Card>)
    requires Permutes(shuffle) && seat < |b.hands|
    ensures AllCards(DrawOne(b, seat, shuffle)) == AllCards(b)
  {
    ReshuffleConserves(b, shuffle);
    var r := if b.stock == [] then Reshuffle(b, shuffle) else b;
    if r.stock != [] {
      var n := |r.stock| - 1;
      assert r.stock == r.stock[..n] + [r.stock[n]];
      PackAdds(r.hands, r.hands[seat := r.hands[seat] + [r.stock[n]]], seat, multiset{r.stock[n]}, |r.hands|);
    }
  }

  lemma {:induction false} DrawIntoConserves(b: Board, seat: nat, n: nat, shuffle: seq<Card> -> seq<Card>)
    requires Permutes(shuffle) && seat < |b.hands|
    ensures AllCards(DrawInto(b, seat, n, shuffle)) == AllCards(b)
    decreases n
  {
    if n > 0 {
      DrawOneConserves(b, seat, shuffle);
      var once := DrawOne(b, seat, shuffle);
      if |once.hands[seat]| != |b.hands[seat]| {
        DrawIntoConserves(once, seat, n - 1, shuffle);
      }
    }
  }

  lemma ReturnHandConserves(b: Board, seat: nat, shuffle: seq<Card> -> seq<Card>)
    requires Permutes(shuffle) && seat < |b.hands|
    ensures AllCards(ReturnHand(b, seat, shuffle)) == AllCards(b)
  {
    var hand := b.hands[seat];
    PackAdds(b.hands[seat := []], b.hands, seat, multiset(hand), |b.hands|);
    assert multiset(shuffle(b.stock + hand)) == multiset(b.stock + hand) == multiset(b.stock) + multiset(hand);
  }

  lemma Dropped(piles: seq<seq<Card>>, seat: nat, i: nat)
    requires seat < |piles| && i < |piles| - 1
    ensures DropAt(piles, seat)[i] == piles[if i < seat then i else i + 1]
  {
  }

  lemma {:induction false} PackDrops(piles: seq<seq<Card>>, seat: nat, n: nat)
    requires seat < n <= |piles| && piles[seat] == []
    ensures PackUpTo(DropAt(piles, seat), n - 1) == PackUpTo(piles, n)
  {
    if n - 1 == seat {
      forall i: nat | i < n - 1 ensures DropAt(piles, seat)[i] == piles[i] {
        Dropped(piles, seat, i);
      }
      PackPrefix(DropAt(piles, seat), piles, n - 1);
    } else {
      PackDrops(piles, seat, n - 1);
      Dropped(piles, seat, n - 2);
    }
  }

  /** A seat that gave its hand back takes no card with it. */
  lemma LeavingConserves(b: Board, seat: nat, shuffle: seq<Card> -> seq<Card>)
    requires Permutes(shuffle) && Shaped(b) && seat < |b.players|
    ensures var r := Unseat(LeaveShedGame(b, seat, shuffle), seat); AllCards(r) == AllCards(b) && Shaped(r)
  {
    var p := b.(passes := 0);
    ReturnHandConserves(p, seat, shuffle);
    assert AllCards(p) == AllCards(b);
    PackDrops(LeaveShedGame(b, seat, shuffle).hands, seat, |b.hands|);
  }

  lemma {:induction false} OpenFromConserves(stock: seq<Card>, aside: seq<Card>, playable: Card -> bool)
    ensures var (card, rest, put) := OpenFrom(stock, aside, playable);
            && multiset(stock) + multiset(aside)
               == multiset(rest) + multiset(put) + (if card.Some? then multiset{card.value} else multiset{})
            && (card.Some? ==> playable(card.value)) && (card.None? ==> rest == [])
            && (card.None? ==> forall c | c in stock :: !playable(c))
    decreases |stock|
  {
    if stock != [] {
      var n := |stock| - 1;
      assert stock == stock[..n] + [stock[n]];
      if !playable(stock[n]) {
        OpenFromConserves(stock[..n], aside + [stock[n]], playable);
      }
    }
  }

  /** The pile opens on a playable card if the stock holds one, and no card is lost either way. */
  lemma OpeningConserves(b: Board, playable: Card -> bool, shuffle: seq<Card> -> seq<Card>)
    requires Permutes(shuffle) && b.discard == []
    ensures var (card, r) := OpenDiscard(b, playable, shuffle);
            && AllCards(r) == AllCards(b) && r.hands == b.hands && r.players == b.players
            && (card.Some? ==> r.discard == [card.value] && playable(card.value))
            && (card.None? <==> forall c | c in b.stock :: !playable(c))
  {
    OpenFromConserves(b.stock, [], playable);
    var (card, rest, aside) := OpenFrom(b.stock, [], playable);
    var found := if card.Some? then multiset{card.value} else multiset{};
    assert multiset(b.stock) == multiset(rest) + multiset(aside) + found;
    assert multiset(shuffle(rest + aside)) == multiset(rest + aside) == multiset(rest) + multiset(aside);
    var r := OpenDiscard(b, playable, shuffle).1;
    assert multiset(r.stock) == multiset(rest) + multiset(aside);
    assert multiset(r.discard) == found;
    if card.Some? {
      assert card.value in multiset(b.stock);
    }
  }

  // ---- The turn ----

  /** The seat before or after, going round. */
  function Neighbour(seat: nat, direction: int, n: nat): nat
    requires seat < n
  {
    (seat + n + direction) % n
  }

  lemma NeighbourIs(seat: nat, n: nat)
    requires seat < n
    ensures Neighbour(seat, 1, n) == if seat == n - 1 then 0 else seat + 1
    ensures Neighbour(seat, -1, n) == if seat == 0 then n - 1 else seat - 1
  {
    if seat == n - 1 {
      assert seat + n + 1 == 2 * n;
    } else {
      assert (seat + n + 1) % n == seat + 1;
    }
  }

  lemma BackOne(seat: nat, n: nat)
    requires seat <= n && n > 0
    ensures (seat - 1) % n == if seat == 0 then n - 1 else seat - 1
  {
    if seat == 0 {
      assert -1 == -1 * n + (n - 1);
    }
  }

  lemma ClampIs(turn: nat, n: nat)
    requires turn <= n && n > 0
    ensures Clamp(turn, n) == if turn == n then 0 else turn
  {
  }

  /** With the cursor left where the engine puts it, the turn stays, or passes clockwise from the leaver. */
  lemma TurnPassesClockwise(b: Board, seat: nat)
    requires Shaped(b) && seat < |b.players| && b.turn < |b.players| && |b.players| >= 2
    ensures var r := Unseat(b, seat);
            && r.turn < |r.players|
            && r.players[r.turn] == b.players[if b.turn == seat then Neighbour(seat, 1, |b.players|) else b.turn]
  {
    var n := |b.players|;
    NeighbourIs(seat, n);
    ClampIs(if b.turn > seat then b.turn - 1 else b.turn, n - 1);
  }

  /** The board as the games share it, its piles and hands updated in place. */
  class Table {
    var players: seq<Id>
    var hands: seq<seq<Card>>
    var stock: seq<Card>
    var discard: seq<Card>
    var turn: nat
    var next: Option<nat>
    var passes: nat

    function View(): Board
      reads this
    {
      Board(players, hands, stock, discard, turn, next, passes)
    }

    /** Refuses a stock that still has cards. */
    method ReshuffleDiscardIntoStock(shuffle: seq<Card> -> seq<Card>) returns (ok: bool)
      modifies this`stock, this`discard
      ensures ok == (old(stock) == [])
      ensures View() == Reshuffle(old(View()), shuffle)
    {
      if stock != [] {
        return false;
      }
      if discard == [] {
        return true;
      }
      var top, rest := discard[|discard| - 1], discard[..|discard| - 1];
      discard := [top];
      stock := shuffle(rest);
      return true;
    }

    method DrawCard(seat: nat, shuffle: seq<Card> -> seq<Card>) returns (drew: bool)
      requires seat < |hands|
      modifies this`hands, this`stock, this`discard
      ensures View() == DrawOne(old(View()), seat, shuffle)
      ensures drew == (|hands[seat]| != |old(hands)[seat]|) && |hands| == |old(hands)|
    {
      if stock == [] {
        var _ := ReshuffleDiscardIntoStock(shuffle);
      }
      if stock == [] {
        return false;
      }
      hands := hands[seat := hands[seat] + [stock[|stock| - 1]]];
      stock := stock[..|stock| - 1];
      return true;
    }

    method DrawCardsInto(seat: nat, n: nat, shuffle: seq<Card> -> seq<Card>) returns (drew: bool)
      requires seat < |hands|
      modifies this`hands, this`stock, this`discard
      ensures View() == DrawInto(old(View()), seat, n, shuffle) && |hands| == |old(hands)|
      ensures drew == Drew(old(View()), View(), seat)
    {
      ghost var goal := DrawInto(View(), seat, n, shuffle);
      var left, more := n, true;
      drew := false;
      while left > 0 && more
        invariant |hands| == |old(hands)| && |hands[seat]| >= |old(hands)[seat]|
        invariant drew == (|hands[seat]| > |old(hands)[seat]|)
        invariant goal == if more then DrawInto(View(), seat, left, shuffle) else View()
        invariant View() == old(View()).(hands := hands, stock := stock, discard := discard)
        decreases left, more
      {
        more := DrawCard(seat, shuffle);
        if more {
          left := left - 1;
          drew := true;
        }
      }
    }

    method ReturnHandToStock(seat: nat, shuffle: seq<Card> -> seq<Card>)
      requires seat < |hands|
      modifies this`hands, this`stock
      ensures View() == ReturnHand(old(View()), seat, shuffle)
    {
      stock := shuffle(stock + hands[seat]);
      hands := hands[seat := []];
    }

    method LeaveGame(seat: nat, shuffle: seq<Card> -> seq<Card>)
      requires seat < |hands|
      modifies this`hands, this`stock, this`passes
      ensures View() == LeaveShedGame(old(View()), seat, shuffle)
    {
      passes := 0;
      ReturnHandToStock(seat, shuffle);
    }

    method Open(playable: Card -> bool, shuffle: seq<Card> -> seq<Card>) returns (card: Option<Card>)
      modifies this`stock, this`discard
      ensures (card, View()) == OpenDiscard(old(View()), playable, shuffle)
    {
      var aside: seq<Card> := [];
      ghost var goal := OpenFrom(stock, [], playable);
      while stock != [] && !playable(stock[|stock| - 1])
        invariant OpenFrom(stock, aside, playable) == goal && discard == old(discard)
        decreases |stock|
      {
        aside := aside + [stock[|stock| - 1]];
        stock := stock[..|stock| - 1];
      }
      if stock == [] {
        stock := stock + aside;
        return None;
      }
      card := Some(stock[|stock| - 1]);
      stock := stock[..|stock| - 1];
      discard := [card.value];
      if aside != [] {
        stock := shuffle(stock + aside);
      }
    }

    method Vacate(seat: nat)
      requires Shaped(View()) && seat < |players|
      modifies this`players, this`hands, this`turn
      ensures View() == Unseat(old(View()), seat)
    {
      players := DropAt(players, seat);
      hands := DropAt(hands, seat);
      turn := Clamp(if turn > seat then turn - 1 else turn, |players|);
    }

    method MoveTurn(advance: bool)
      modifies this`turn, this`next
      ensures View() == NextTurn(old(View()), advance)
    {
      turn := Clamp(if next.Some? then next.value else if advance then turn + 1 else turn, |players|);
      next := None;
    }
  }
}
