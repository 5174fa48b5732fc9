/** Cards, ranks and piles, shared by every game. */
module Cards {

  // Suits: 0 is NoSuit, 1..4 are Spades, Hearts, Diamonds, Clubs.
  const NO_SUIT := 0
  const SPADES := 1
  const HEARTS := 2
  const DIAMONDS := 3
  const CLUBS := 4

  // Ranks 1..13 are Ace..King; the Uno block starts at 20.
  const ACE := 1
  const EIGHT := 8
  const QUEEN := 12
  const KING := 13

  datatype Card = Card(rank: nat, suit: nat)

  /** The zero card, which no deck holds. */
  const NO_CARD := Card(0, 0)

  predicate IsSuit(s: nat) {
    SPADES <= s <= CLUBS
  }

  predicate Standard(c: Card) {
    ACE <= c.rank <= KING && IsSuit(c.suit)
  }

  /** Comparison value, ace high; 0 outside the standard ranks. */
  function RankValue(rank: nat): nat {
    if rank == ACE then 14 else if ACE < rank <= KING then rank else 0
  }

  /** Position in a run, ace low; 0 outside the standard ranks. */
  function RunOrder(rank: nat): nat {
    if ACE <= rank <= KING then rank else 0
  }

  function PipValue(rank: nat): nat {
    if RunOrder(rank) < 10 then RunOrder(rank) else 10
  }

  ghost predicate Distinct<T(!new)>(s: seq<T>) {
    forall i, j | 0 <= i < j < |s| :: s[i] != s[j]
  }

  function Elements<T(==)>(s: seq<T>): set<T> {
    set x | x in s
  }

  /** Index of the first c in hand, or |hand|. */
  function IndexOf<T(==)>(hand: seq<T>, c: T): (i: nat)
    ensures i <= |hand|
    ensures i < |hand| ==> hand[i] == c
    ensures c !in hand[..i]
    ensures i == |hand| <==> c !in hand
  {
    if hand == [] then 0
    else if hand[0] == c then 0
    else
      var k := IndexOf(hand[1..], c);
      assert hand[..k + 1] == [hand[0]] + hand[1..][..k];
      k + 1
  }

  function DropAt<T>(s: seq<T>, i: nat): seq<T>
    requires i < |s|
  {
    s[..i] + s[i + 1..]
  }

  /** Removes the first occurrence of c, or nothing when c is absent. */
  function RemoveOne<T(==)>(hand: seq<T>, c: T): (r: seq<T>)
    ensures c in hand ==> multiset(hand) == multiset(r) + multiset{c}
    ensures c !in hand ==> r == hand
    ensures |r| == if c in hand then |hand| - 1 else |hand|
  {
    var i := IndexOf(hand, c);
    if i == |hand| then hand
    else
      assert hand == hand[..i] + [c] + hand[i + 1..];
      DropAt(hand, i)
  }

  /** Removes one occurrence of each of cards in turn. */
  function RemoveEach<T(==)>(hand: seq<T>, cards: seq<T>): seq<T>
    decreases |cards|
  {
    if cards == [] then hand else RemoveEach(RemoveOne(hand, cards[0]), cards[1..])
  }

  lemma {:induction false} RemoveEachTakesExactly<T>(hand: seq<T>, cards: seq<T>, kept: multiset<T>)
    requires multiset(hand) == multiset(cards) + kept
    ensures multiset(RemoveEach(hand, cards)) == kept
    decreases |cards|
  {
    if cards != [] {
      var first, rest := cards[0], cards[1..];
      assert cards == [first] + rest;
      assert multiset(hand) == multiset{first} + (multiset(rest) + kept);
      assert first in hand by { assert first in multiset(hand); }
      assert multiset(RemoveOne(hand, first)) == multiset(hand) - multiset{first};
      RemoveEachTakesExactly(RemoveOne(hand, first), rest, kept);
    }
  }

  function Reverse<T>(s: seq<T>): (r: seq<T>)
    ensures |r| == |s|
    ensures multiset(r) == multiset(s)
  {
    if s == [] then []
    else
      assert s == [s[0]] + s[1..];
      Reverse(s[1..]) + [s[0]]
  }

  /** The last n cards of a pile, top card first. */
  function Drawn<T>(pile: seq<T>, n: nat): (r: seq<T>)
    requires n <= |pile|
    ensures |r| == n
    ensures multiset(pile) == multiset(pile[..|pile| - n]) + multiset(r)
  {
    assert pile == pile[..|pile| - n] + pile[|pile| - n..];
    Reverse(pile[|pile| - n..])
  }

  /** Spades to Clubs, Ace to King. */
  function StandardDeck(): (cards: seq<Card>)
    ensures |cards| == 52
    ensures forall i | 0 <= i < 52 :: cards[i] == Card(i % 13 + 1, i / 13 + 1)
  {
    seq(52, i requires 0 <= i < 52 => Card(i % 13 + 1, i / 13 + 1))
  }

  /** The standard deck holds every standard card exactly once. */
  lemma DeckIsEveryCardOnce(c: Card)
    ensures Distinct(StandardDeck())
    ensures multiset(StandardDeck())[c] == if Standard(c) then 1 else 0
  {
    var cards := StandardDeck();
    DistinctCountsOnce(cards, c);
    if Standard(c) {
      assert cards[(c.suit - 1) * 13 + c.rank - 1] == c;
    }
  }

  lemma {:induction false} DistinctCountsOnce<T(!new)>(s: seq<T>, x: T)
    requires Distinct(s)
    ensures multiset(s)[x] == if x in s then 1 else 0
  {
    if s != [] {
      assert s == [s[0]] + s[1..];
      DistinctCountsOnce(s[1..], x);
    }
  }

  lemma TwoCopies<T>(s: seq<T>, i: nat, j: nat)
    requires i < j < |s| && s[i] == s[j]
    ensures multiset(s)[s[i]] >= 2
  {
    assert s == s[..i] + [s[i]] + s[i + 1..j] + [s[j]] + s[j + 1..];
  }

  /** A sequence that holds nothing twice is duplicate-free. */
  lemma CountedOnceIsDistinct<T(!new)>(s: seq<T>)
    requires forall x :: multiset(s)[x] <= 1
    ensures Distinct(s)
  {
    forall i, j | 0 <= i < j < |s| ensures s[i] != s[j] {
      if s[i] == s[j] {
        TwoCopies(s, i, j);
      }
    }
  }

  lemma {:induction false} DistinctSize<T(!new)>(s: seq<T>)
    requires Distinct(s)
    ensures |Elements(s)| == |s|
  {
    if s != [] {
      DistinctSize(s[1..]);
      assert s == [s[0]] + s[1..];
      assert Elements(s) == {s[0]} + Elements(s[1..]);
    }
  }

  /** Pigeonhole: duplicate-free and drawn from t, so no longer than t. */
  lemma FitsIn<T(!new)>(s: seq<T>, t: seq<T>)
    requires Distinct(s)
    requires forall x | x in s :: x in t
    ensures |s| <= |t|
  {
    DistinctSize(s);
    ElementsBound(t);
    SubsetSize(Elements(s), Elements(t));
  }

  lemma {:induction false} ElementsBound<T>(t: seq<T>)
    ensures |Elements(t)| <= |t|
  {
    if t != [] {
      ElementsBound(t[1..]);
      assert t == [t[0]] + t[1..];
      assert Elements(t) == {t[0]} + Elements(t[1..]);
    }
  }

  lemma {:induction false} SubsetSize<T>(a: set<T>, b: set<T>)
    requires a <= b
    ensures |a| <= |b|
  {
    assert b == a + (b - a);
  }

  // ---- Several piles together ----

  /** The cards of the first n piles. */
  ghost function PackUpTo(piles: seq<seq<Card>>, n: nat): multiset<Card>
    requires n <= |piles|
  {
    if n == 0 then multiset{} else PackUpTo(piles, n - 1) + multiset(piles[n - 1])
  }

  ghost function Pack(piles: seq<seq<Card>>): multiset<Card> {
    PackUpTo(piles, |piles|)
  }

  lemma {:induction false} PackPrefix(a: seq<seq<Card>>, b: seq<seq<Card>>, n: nat)
    requires n <= |a| && n <= |b| && forall i | 0 <= i < n :: a[i] == b[i]
    ensures PackUpTo(a, n) == PackUpTo(b, n)
  {
    if n > 0 {
      PackPrefix(a, b, n - 1);
    }
  }

  /** Cards added to one pile. */
  lemma {:induction false} PackAdds(piles: seq<seq<Card>>, more: seq<seq<Card>>, seat: nat, cards: multiset<Card>, n: nat)
    requires seat < n <= |piles| == |more|
    requires forall i | 0 <= i < n && i != seat :: more[i] == piles[i]
    requires multiset(more[seat]) == multiset(piles[seat]) + cards
    ensures PackUpTo(more, n) == PackUpTo(piles, n) + cards
  {
    if n - 1 == seat {
      PackPrefix(more, piles, n - 1);
    } else {
      PackAdds(piles, more, seat, cards, n - 1);
    }
  }

  lemma {:induction false} PackHolds(piles: seq<seq<Card>>, seat: nat, x: Card, n: nat)
    requires seat < n <= |piles|
    ensures multiset(piles[seat])[x] <= PackUpTo(piles, n)[x]
  {
    if n - 1 != seat {
      PackHolds(piles, seat, x, n - 1);
    }
  }

  lemma {:induction false} InSomePile(piles: seq<seq<Card>>, x: Card, n: nat) returns (seat: nat)
    requires n <= |piles| && x in PackUpTo(piles, n)
    ensures seat < n && x in piles[seat]
  {
    if x in piles[n - 1] {
      seat := n - 1;
    } else {
      seat := InSomePile(piles, x, n - 1);
    }
  }
}
