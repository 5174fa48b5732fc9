/** A pile of cards: drawn from the top, which is its end. */
module Deck {
  import opened Cards
  import opened Options

  class Pile {
    var cards: seq<Card>

    constructor (cards: seq<Card>)
      ensures this.cards == cards
    {
      this.cards := cards;
    }

    /** Swaps downwards from the top, each card with one at or below it; which one is up to the random source. */
    method Shuffle(random: nat -> nat)
      modifies this`cards
      ensures multiset(cards) == old(multiset(cards))
    {
      if cards == [] {
        return;
      }
      for i := |cards| downto 1
        invariant multiset(cards) == old(multiset(cards)) && |cards| == |old(cards)|
      {
        var j := random(i) % (i + 1);
        SwapKeeps(cards, i, j);
        cards := cards[i := cards[j]][j := cards[i]];
      }
    }

    method Peek() returns (top: Option<Card>)
      ensures top == if cards == [] then None else Some(cards[|cards| - 1])
    {
      top := if cards == [] then None else Some(cards[|cards| - 1]);
    }

    method Draw() returns (top: Option<Card>)
      modifies this`cards
      ensures top.None? ==> old(cards) == [] == cards
      ensures top.Some? ==> old(cards) == cards + [top.value]
    {
      if cards == [] {
        return None;
      }
      top := Some(cards[|cards| - 1]);
      cards := cards[..|cards| - 1];
    }

    /** The top n cards, top card first, or nothing at all. */
    method DrawNCards(n: int) returns (drawn: Option<seq<Card>>)
      modifies this`cards
      ensures drawn.None? ==> cards == old(cards) && (n < 0 || n > |cards|)
      ensures drawn.Some? ==> 0 <= n <= |old(cards)| && old(cards) == cards + Reverse(drawn.value) && |drawn.value| == n
    {
      if n < 0 || n > |cards| {
        return None;
      }
      var split := |cards| - n;
      drawn := Some(Reverse(cards[split..]));
      ReverseTwice(cards[split..]);
      cards := cards[..split];
    }

    method AddCard(more: seq<Card>)
      modifies this`cards
      ensures cards == old(cards) + more
    {
      cards := cards + more;
    }
  }

  lemma SwapKeeps(s: seq<Card>, i: nat, j: nat)
    requires i < |s| && j < |s|
    ensures multiset(s[i := s[j]][j := s[i]]) == multiset(s)
  {
  }

  lemma {:induction false} ReverseOfAppend(s: seq<Card>, c: Card)
    ensures Reverse(s + [c]) == [c] + Reverse(s)
  {
    if s == [] {
      assert [] + [c] == [c];
    } else {
      var rest := s[1..];
      assert (s + [c])[1..] == rest + [c] && (s + [c])[0] == s[0];
      ReverseOfAppend(rest, c);
      assert [c] + Reverse(rest) + [s[0]] == [c] + (Reverse(rest) + [s[0]]);
    }
  }

  lemma {:induction false} ReverseTwice(s: seq<Card>)
    ensures Reverse(Reverse(s)) == s
  {
    if s != [] {
      ReverseTwice(s[1..]);
      ReverseOfAppend(Reverse(s[1..]), s[0]);
      assert s == [s[0]] + s[1..];
    }
  }
}
