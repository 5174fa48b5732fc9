/** What a draw comes to on the shedding board, and who sits next. */
module ShedPlay {
  import opened Cards
  import opened Options
  import opened Sums
  import opened Shed

  /** How many cards can still be drawn: the stock, and all of the discard but the card in play. */
  function Available(b: Board): nat {
    |b.stock| + if b.discard == [] then 0 else |b.discard| - 1
  }

  /** The card in play stays in play. */
  ghost predicate SameTop(b: Board, r: Board) {
    && (r.discard == [] <==> b.discard == [])
    && (b.discard != [] ==> r.discard[|r.discard| - 1] == b.discard[|b.discard| - 1])
  }

  /** Only one seat's hand grew, and by exactly so many cards. */
  ghost predicate Took(b: Board, r: Board, seat: nat, n: nat) {
    && seat < |b.hands| && r == b.(hands := r.hands, stock := r.stock, discard := r.discard)
    && |r.hands| == |b.hands|
    && (forall i | 0 <= i < |b.hands| && i != seat :: r.hands[i] == b.hands[i])
    && b.hands[seat] <= r.hands[seat] && |r.hands[seat]| == |b.hands[seat]| + n
    && Available(r) + n == Available(b) && SameTop(b, r) && |r.discard| <= |b.discard|
  }

  lemma ShuffleKeepsSize(shuffle: seq<Card> -> seq<Card>, s: seq<Card>)
    requires Permutes(shuffle)
    ensures |shuffle(s)| == |s|
  {
    assert multiset(shuffle(s)) == multiset(s);
    assert |multiset(shuffle(s))| == |multiset(s)|;
  }

  lemma RecycledIsAvailable(b: Board, shuffle: seq<Card> -> seq<Card>)
    requires Permutes(shuffle) && b.stock == []
    ensures var r := Reshuffle(b, shuffle);
            && Available(r) == Available(b) && SameTop(b, r) && |r.discard| <= |b.discard|
            && r == b.(stock := r.stock, discard := r.discard)
            && (r.stock == [] <==> Available(b) == 0)
  {
    if b.discard != [] {
      ShuffleKeepsSize(shuffle, b.discard[..|b.discard| - 1]);
    }
  }

  lemma OneIsTaken(b: Board, seat: nat, shuffle: seq<Card> -> seq<Card>)
    requires Permutes(shuffle) && seat < |b.hands|
    ensures Took(b, DrawOne(b, seat, shuffle), seat, Min(1, Available(b)))
    ensures b.stock != [] ==>
              DrawOne(b, seat, shuffle).hands[seat] == b.hands[seat] + [b.stock[|b.stock| - 1]]
  {
    if b.stock == [] {
      RecycledIsAvailable(b, shuffle);
    }
  }

  lemma TookMore(b: Board, once: Board, r: Board, seat: nat, m: nat, n: nat)
    requires Took(b, once, seat, m) && Took(once, r, seat, n)
    ensures Took(b, r, seat, m + n)
  {
  }

  /** A draw of n takes n cards, or all there are, into one hand and touches nothing else. */
  lemma {:induction false} DrawTakesWhatThereIs(b: Board, seat: nat, n: nat, shuffle: seq<Card> -> seq<Card>)
    requires Permutes(shuffle) && seat < |b.hands|
    ensures Took(b, DrawInto(b, seat, n, shuffle), seat, Min(n, Available(b)))
    decreases n
  {
    if n > 0 {
      OneIsTaken(b, seat, shuffle);
      var once := DrawOne(b, seat, shuffle);
      if Available(b) > 0 {
        DrawTakesWhatThereIs(once, seat, n - 1, shuffle);
        TookMore(b, once, DrawInto(once, seat, n - 1, shuffle), seat, 1, Min(n - 1, Available(once)));
      }
    }
  }

  /** The pile that opens took one card out of the stock. */
  lemma OpeningTakesOne(b: Board, playable: Card -> bool, shuffle: seq<Card> -> seq<Card>)
    requires Permutes(shuffle) && b.discard == [] && OpenDiscard(b, playable, shuffle).0.Some?
    ensures var r := OpenDiscard(b, playable, shuffle).1;
            |r.stock| + 1 == |b.stock| && r == b.(stock := r.stock, discard := r.discard)
  {
    OpenFromConserves(b.stock, [], playable);
    var (card, rest, aside) := OpenFrom(b.stock, [], playable);
    ShuffleKeepsSize(shuffle, rest + aside);
    assert |multiset(b.stock) + multiset([])| == |multiset(rest) + multiset(aside) + multiset{card.value}|;
  }

  /** One card leaves a hand. */
  ghost predicate LaidFrom(before: seq<Card>, after: seq<Card>, card: Card) {
    multiset(before) == multiset(after) + multiset{card}
  }

  lemma NextSeatIs(turn: nat, n: nat)
    requires turn < n
    ensures Clamp(turn + 1, n) == Neighbour(turn, 1, n)
  {
    NeighbourIs(turn, n);
    ClampIs(turn + 1, n);
  }

  lemma SameSeatIs(turn: nat, n: nat)
    requires turn < n
    ensures Clamp(turn, n) == turn
  {
    ClampIs(turn, n);
  }
}
