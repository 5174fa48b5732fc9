/** Melds: sets of one rank and runs in one suit, aces low. */
module GinMelds {
  import opened Cards

  ghost predicate AllStandard(cards: seq<Card>) {
    forall c | c in cards :: Standard(c)
  }

  function SumDeadwood(cards: seq<Card>): nat {
    if cards == [] then 0 else PipValue(cards[0].rank) + SumDeadwood(cards[1..])
  }

  function InsertByRun(s: seq<Card>, c: Card): seq<Card> {
    if s == [] then [c]
    else if RunOrder(c.rank) <= RunOrder(s[0].rank) then [c] + s
    else [s[0]] + InsertByRun(s[1..], c)
  }

  function SortByRun(s: seq<Card>): seq<Card> {
    if s == [] then [] else InsertByRun(SortByRun(s[1..]), s[0])
  }

  predicate Rising(s: seq<Card>) {
    forall i, j | 0 <= i < j < |s| :: RunOrder(s[i].rank) <= RunOrder(s[j].rank)
  }

  lemma {:induction false} InsertRises(s: seq<Card>, c: Card)
    requires Rising(s)
    ensures Rising(InsertByRun(s, c)) && multiset(InsertByRun(s, c)) == multiset(s) + multiset{c}
  {
    if s != [] {
      assert s == [s[0]] + s[1..];
      if RunOrder(c.rank) <= RunOrder(s[0].rank) {
        PrependRises(c, s);
      } else {
        var rest := InsertByRun(s[1..], c);
        InsertRises(s[1..], c);
        forall x | x in rest ensures RunOrder(s[0].rank) <= RunOrder(x.rank) {
          assert x in multiset(s[1..]) + multiset{c};
        }
        PrependRises(s[0], rest);
      }
    }
  }

  lemma PrependRises(c: Card, s: seq<Card>)
    requires Rising(s)
    requires s != [] ==> RunOrder(c.rank) <= RunOrder(s[0].rank) || forall x | x in s :: RunOrder(c.rank) <= RunOrder(x.rank)
    ensures Rising([c] + s)
  {
    forall i, j | 0 <= i < j < |s| + 1 ensures RunOrder(([c] + s)[i].rank) <= RunOrder(([c] + s)[j].rank) {
      assert ([c] + s)[j] == s[j - 1];
      assert i > 0 ==> ([c] + s)[i] == s[i - 1];
    }
  }

  lemma {:induction false} SortRises(s: seq<Card>)
    ensures Rising(SortByRun(s)) && multiset(SortByRun(s)) == multiset(s) && |SortByRun(s)| == |s|
    ensures forall c :: c in SortByRun(s) <==> c in s
  {
    if s != [] {
      assert s == [s[0]] + s[1..];
      SortRises(s[1..]);
      InsertRises(SortByRun(s[1..]), s[0]);
    }
    SameElements(SortByRun(s), s);
  }

  lemma SameElements<T>(a: seq<T>, b: seq<T>)
    requires multiset(a) == multiset(b)
    ensures |a| == |b| && Elements(a) == Elements(b) && forall x :: x in a <==> x in b
  {
    assert |multiset(a)| == |multiset(b)|;
    forall x ensures x in a <==> x in b {
      assert x in a <==> x in multiset(a);
      assert x in b <==> x in multiset(b);
    }
  }

  predicate IsSet(meld: seq<Card>) {
    3 <= |meld| <= 4 && forall i | 1 <= i < |meld| :: meld[i].rank == meld[0].rank
  }

  /** Consecutive cards of one suit, whatever order they are held in. */
  predicate IsRun(meld: seq<Card>) {
    var sorted := SortByRun(meld);
    |meld| >= 3 && |sorted| == |meld| &&
    forall i | 1 <= i < |sorted| ::
      sorted[i].suit == sorted[0].suit && RunOrder(sorted[i].rank) == RunOrder(sorted[i - 1].rank) + 1
  }

  predicate IsMeld(meld: seq<Card>) {
    IsSet(meld) || IsRun(meld)
  }

  // ---- Runs as blocks of cells ----

  /** The cards of one suit between two ranks. */
  function Cells(suit: nat, lo: nat, hi: nat): set<Card> {
    set r | lo <= r <= hi :: Card(r, suit)
  }

  lemma InCells(suit: nat, lo: nat, hi: nat, c: Card)
    ensures c in Cells(suit, lo, hi) <==> c.suit == suit && lo <= c.rank <= hi
  {
    assert c == Card(c.rank, c.suit);
  }

  lemma {:induction false} CellsSize(suit: nat, lo: nat, hi: nat)
    requires lo <= hi + 1
    ensures |Cells(suit, lo, hi)| == hi + 1 - lo
    decreases hi
  {
    if lo == hi + 1 {
      assert Cells(suit, lo, hi) == {};
    } else if hi == 0 {
      assert Cells(suit, 0, 0) == {Card(0, suit)};
    } else {
      CellsSize(suit, lo, hi - 1);
      assert Cells(suit, lo, hi) == Cells(suit, lo, hi - 1) + {Card(hi, suit)};
    }
  }

  function RunSuit(meld: seq<Card>): nat
    requires IsRun(meld)
  {
    SortByRun(meld)[0].suit
  }

  /** Lowest and highest position of a run. */
  function RunLo(meld: seq<Card>): nat
    requires IsRun(meld)
  {
    RunOrder(SortByRun(meld)[0].rank)
  }

  function RunHi(meld: seq<Card>): nat
    requires IsRun(meld)
  {
    RunLo(meld) + |meld| - 1
  }

  lemma {:induction false} RunClimbs(meld: seq<Card>, i: nat)
    requires IsRun(meld) && AllStandard(meld) && i < |meld|
    ensures SortByRun(meld)[i] == Card(RunLo(meld) + i, RunSuit(meld))
  {
    SortRises(meld);
    var c := SortByRun(meld)[i];
    assert c in meld && SortByRun(meld)[0] in meld;
    assert c == Card(c.rank, c.suit);
    if i > 0 {
      RunClimbs(meld, i - 1);
    }
  }

  /** A run is the cells from its lowest to its highest card, each once. */
  lemma RunIsCells(meld: seq<Card>)
    requires IsRun(meld) && AllStandard(meld)
    ensures Elements(meld) == Cells(RunSuit(meld), RunLo(meld), RunHi(meld))
    ensures Distinct(meld) && 1 <= RunLo(meld) && RunHi(meld) <= KING && IsSuit(RunSuit(meld))
  {
    var sorted, s, lo := SortByRun(meld), RunSuit(meld), RunLo(meld);
    SortRises(meld);
    forall i: nat | i < |sorted| ensures sorted[i] == Card(lo + i, s) {
      RunClimbs(meld, i);
    }
    assert sorted[0] in meld && sorted[|sorted| - 1] in meld;
    forall c ensures c in Elements(meld) <==> c in Cells(s, lo, RunHi(meld)) {
      InCells(s, lo, RunHi(meld), c);
      if c in Cells(s, lo, RunHi(meld)) {
        assert sorted[c.rank - lo] == c;
      }
    }
    forall x ensures multiset(meld)[x] <= 1 {
      assert multiset(meld)[x] == multiset(sorted)[x];
      DistinctCountsOnce(sorted, x);
    }
    CountedOnceIsDistinct(meld);
  }

  lemma {:induction false} AtLeastFrom(ranks: seq<nat>, lo: nat, i: nat)
    requires forall a, b | 0 <= a < b < |ranks| :: ranks[a] < ranks[b]
    requires forall r | r in ranks :: lo <= r
    requires i < |ranks|
    ensures lo + i <= ranks[i]
  {
    if i == 0 {
      assert ranks[0] in ranks;
    } else {
      AtLeastFrom(ranks, lo, i - 1);
    }
  }

  lemma {:induction false} AtMostFrom(ranks: seq<nat>, hi: nat, i: nat)
    requires forall a, b | 0 <= a < b < |ranks| :: ranks[a] < ranks[b]
    requires forall r | r in ranks :: r <= hi
    requires i < |ranks|
    ensures ranks[i] + (|ranks| - 1 - i) <= hi
    decreases |ranks| - i
  {
    if i == |ranks| - 1 {
      assert ranks[i] in ranks;
    } else {
      AtMostFrom(ranks, hi, i + 1);
    }
  }

  /** Exactly the cells of a block, each once, is a run. */
  lemma CellsAreRun(meld: seq<Card>, suit: nat, lo: nat, hi: nat)
    requires Distinct(meld) && Elements(meld) == Cells(suit, lo, hi)
    requires 1 <= lo && lo + 2 <= hi <= KING
    ensures IsRun(meld) && RunSuit(meld) == suit && RunLo(meld) == lo && RunHi(meld) == hi
  {
    var sorted := SortByRun(meld);
    SortRises(meld);
    DistinctSize(meld);
    CellsSize(suit, lo, hi);
    SortedDistinct(meld);
    forall i: nat | i < |sorted| ensures sorted[i].suit == suit && lo <= sorted[i].rank <= hi {
      assert sorted[i] in Elements(meld);
    }
    var ranks := seq(|sorted|, i requires 0 <= i < |sorted| => sorted[i].rank);
    forall a, b | 0 <= a < b < |ranks| ensures ranks[a] < ranks[b] {
      assert sorted[a] != sorted[b];
    }
    forall i: nat | i < |sorted| ensures sorted[i].rank == lo + i {
      AtLeastFrom(ranks, lo, i);
      AtMostFrom(ranks, hi, i);
    }
  }

  lemma SortedDistinct(meld: seq<Card>)
    requires Distinct(meld)
    ensures Distinct(SortByRun(meld))
  {
    SortRises(meld);
    forall x ensures multiset(SortByRun(meld))[x] <= 1 {
      DistinctCountsOnce(meld, x);
    }
    CountedOnceIsDistinct(SortByRun(meld));
  }

  /** A meld is never both, so a card attaches to it one way only. */
  lemma RunIsNoSet(meld: seq<Card>)
    requires IsRun(meld) && AllStandard(meld)
    ensures !IsSet(meld)
  {
    SortRises(meld);
    RunClimbs(meld, 0);
    RunClimbs(meld, 1);
    assert SortByRun(meld)[0] in meld && SortByRun(meld)[1] in meld;
  }

  // ---- Cards picked out of a hand by position ----

  function Range(n: nat): (r: set<nat>)
    ensures forall i :: i in r <==> 0 <= i < n
  {
    if n == 0 then {} else Range(n - 1) + {n - 1}
  }

  /** The cards at the positions of mask among the first n, in hand order. */
  function PickedUpTo(cards: seq<Card>, mask: set<nat>, n: nat): seq<Card>
    requires n <= |cards|
  {
    if n == 0 then [] else PickedUpTo(cards, mask, n - 1) + if n - 1 in mask then [cards[n - 1]] else []
  }

  function Picked(cards: seq<Card>, mask: set<nat>): seq<Card> {
    PickedUpTo(cards, mask, |cards|)
  }

  /** What a choice of positions leaves in the hand. */
  function Left(cards: seq<Card>, used: set<nat>): seq<Card> {
    Picked(cards, Range(|cards|) - used)
  }

  lemma {:induction false} PickedMembers(cards: seq<Card>, mask: set<nat>, n: nat, c: Card)
    requires n <= |cards|
    ensures c in PickedUpTo(cards, mask, n) <==> exists i :: 0 <= i < n && i in mask && cards[i] == c
  {
    if n > 0 {
      PickedMembers(cards, mask, n - 1, c);
    }
  }

  lemma {:induction false} PickedDistinct(cards: seq<Card>, mask: set<nat>, n: nat)
    requires n <= |cards| && Distinct(cards)
    ensures Distinct(PickedUpTo(cards, mask, n))
  {
    if n > 0 {
      PickedDistinct(cards, mask, n - 1);
      PickedMembers(cards, mask, n - 1, cards[n - 1]);
    }
  }

  lemma RangeGrows(mask: set<nat>, n: nat)
    ensures |mask * Range(n + 1)| == |mask * Range(n)| + if n in mask then 1 else 0
  {
    if n in mask {
      assert mask * Range(n + 1) == mask * Range(n) + {n};
    } else {
      assert mask * Range(n + 1) == mask * Range(n);
    }
  }

  lemma {:induction false} PickedSize(cards: seq<Card>, mask: set<nat>, n: nat)
    requires n <= |cards|
    ensures |PickedUpTo(cards, mask, n)| == |mask * Range(n)|
  {
    if n == 0 {
      assert mask * Range(0) == {};
    } else {
      PickedSize(cards, mask, n - 1);
      RangeGrows(mask, n - 1);
    }
  }

  lemma PickedHolds(cards: seq<Card>, mask: set<nat>)
    requires mask <= Range(|cards|)
    ensures forall c :: c in Picked(cards, mask) <==> exists i :: i in mask && cards[i] == c
    ensures Distinct(cards) ==> Distinct(Picked(cards, mask))
    ensures |Picked(cards, mask)| == |mask|
    ensures AllStandard(cards) ==> AllStandard(Picked(cards, mask))
  {
    forall c ensures c in Picked(cards, mask) <==> exists i :: i in mask && cards[i] == c {
      PickedMembers(cards, mask, |cards|, c);
    }
    if Distinct(cards) {
      PickedDistinct(cards, mask, |cards|);
    }
    PickedSize(cards, mask, |cards|);
    assert mask * Range(|cards|) == mask;
  }

  /** Picking twice from a split hand takes every card once. */
  lemma {:induction false} PickedSplits(cards: seq<Card>, a: set<nat>, b: set<nat>, n: nat)
    requires n <= |cards| && a !! b
    ensures multiset(PickedUpTo(cards, a + b, n))
         == multiset(PickedUpTo(cards, a, n)) + multiset(PickedUpTo(cards, b, n))
  {
    if n > 0 {
      PickedSplits(cards, a, b, n - 1);
    }
  }

  lemma {:induction false} PickedAll(cards: seq<Card>, n: nat)
    requires n <= |cards|
    ensures PickedUpTo(cards, Range(|cards|), n) == cards[..n]
  {
    if n > 0 {
      PickedAll(cards, n - 1);
    }
  }
}
