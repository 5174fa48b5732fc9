/** The defender's split after a knock is the best there is, over every choice of melds and every order of layoffs. */
module GinDefender {
  import opened Cards
  import opened GinMelds
  import opened GinMeldMasks
  import opened GinMeldSearch
  import opened GinLayoffs

  // ---- The greedy order ----

  /** Next to an end some knocked run started with. */
  ghost predicate NextToRun(melds: seq<seq<Card>>, c: Card) {
    exists k :: 0 <= k < |melds| && EndsAt(melds[k], c)
  }

  ghost predicate EndsAt(meld: seq<Card>, c: Card) {
    IsRun(meld) && c.suit == RunSuit(meld) && (c.rank == RunHi(meld) + 1 || c.rank + 1 == RunLo(meld))
  }

  /** A card already laid off lies on some meld, and on a run if it could start one end. */
  ghost predicate LiesWell(melds: seq<seq<Card>>, now: seq<seq<Card>>, c: Card) {
    exists k :: 0 <= k < |now| && k < |melds| && c in now[k] && (NextToRun(melds, c) ==> IsRun(melds[k]))
  }

  ghost predicate Greedy(melds: seq<seq<Card>>, dead: set<Card>, l: Laying) {
    Grown(melds, dead, l) && forall c | c in dead && c !in Elements(l.remaining) :: LiesWell(melds, l.melds, c)
  }

  /** While a card next to a knocked run is in hand, that end is still open. */
  lemma EndStaysOpen(was: seq<Card>, now: seq<Card>, dead: set<Card>, rest: set<Card>, c: Card)
    requires IsRun(was) && AllStandard(was) && GrownMeld(was, now, dead - rest)
    requires c in rest && c !in Elements(was) && Standard(c) && EndsAt(was, c)
    ensures IsRun(now) && CanAttach(c, now)
  {
    assert c !in Elements(now);
    RunIsCells(now);
    InCells(RunSuit(now), RunLo(now), RunHi(now), c);
    AttachesToRunEnd(c, now);
  }

  lemma GreedyStep(melds: seq<seq<Card>>, dead: set<Card>, l: Laying, i: nat)
    requires Knocked(melds, dead) && Greedy(melds, dead, l) && i < |l.remaining|
    requires FindAttach(l.remaining[i], l.melds) < |l.melds|
    ensures Greedy(melds, dead, LayOff(l, i, FindAttach(l.remaining[i], l.melds)))
  {
    var c, k := l.remaining[i], FindAttach(l.remaining[i], l.melds);
    var r := LayOff(l, i, k);
    StepGrows(melds, dead, l, i, k);
    forall x | x in dead && x !in Elements(r.remaining) ensures LiesWell(melds, r.melds, x) {
      if x == c {
        GreedyPrefersRuns(melds, dead, l, c);
        assert c in r.melds[k];
      } else {
        var j :| 0 <= j < |l.melds| && j < |melds| && x in l.melds[j] && (NextToRun(melds, x) ==> IsRun(melds[j]));
        assert x in r.melds[j];
      }
    }
  }

  lemma GreedyPrefersRuns(melds: seq<seq<Card>>, dead: set<Card>, l: Laying, c: Card)
    requires Knocked(melds, dead) && Grown(melds, dead, l) && c in Elements(l.remaining)
    requires FindAttach(c, l.melds) < |l.melds|
    ensures NextToRun(melds, c) ==> IsRun(melds[FindAttach(c, l.melds)])
  {
    if NextToRun(melds, c) {
      var k :| 0 <= k < |melds| && EndsAt(melds[k], c);
      EndStaysOpen(melds[k], l.melds[k], dead, Elements(l.remaining), c);
      var f := FindAttach(c, l.melds);
      assert IsRun(l.melds[f]);
      RunIsNoSet(l.melds[f]);
    }
  }

  lemma {:induction false} SweepIsGreedy(melds: seq<seq<Card>>, dead: set<Card>, l: Laying, i: nat)
    requires Knocked(melds, dead) && Greedy(melds, dead, l) && i <= |l.remaining|
    ensures Greedy(melds, dead, Sweep(l, i))
    decreases |l.remaining| - i
  {
    if i < |l.remaining| {
      var k := FindAttach(l.remaining[i], l.melds);
      if k == |l.melds| {
        SweepIsGreedy(melds, dead, l, i + 1);
      } else {
        GreedyStep(melds, dead, l, i);
        SweepIsGreedy(melds, dead, LayOff(l, i, k), i);
      }
    }
  }

  lemma {:induction false} LayoffsAreGreedy(melds: seq<seq<Card>>, dead: set<Card>, l: Laying)
    requires Knocked(melds, dead) && Greedy(melds, dead, l)
    ensures Greedy(melds, dead, Layoffs(l))
    decreases |l.remaining|
  {
    SweepIsGreedy(melds, dead, l, 0);
    var swept := Sweep(l, 0);
    if |swept.remaining| < |l.remaining| {
      LayoffsAreGreedy(melds, dead, swept);
    }
  }

  // ---- Without three in a row, nothing layable is stranded ----

  ghost predicate Block(dead: set<Card>, suit: nat, lo: nat, hi: nat) {
    lo + 2 <= hi && Cells(suit, lo, hi) <= dead
  }

  ghost predicate NoBlock(dead: set<Card>) {
    forall suit: nat, lo: nat, hi: nat :: !Block(dead, suit, lo, hi)
  }

  /** Some card in hand still attaches. */
  ghost predicate CanGoOn(l: Laying) {
    exists c, k :: c in Elements(l.remaining) && 0 <= k < |l.melds| && CanAttach(c, l.melds[k])
  }

  /** Only one card of a rank is missing from three of them. */
  lemma FourthIsUnique(three: seq<Card>, x: Card, y: Card)
    requires |three| == 3 && Distinct(three) && AllStandard(three) && Standard(x) && Standard(y)
    requires forall c | c in three :: c.rank == x.rank
    requires y.rank == x.rank && x !in three && y !in three
    ensures x == y
  {
    var a, b, c := three[0], three[1], three[2];
    assert a in three && b in three && c in three;
    assert a.suit != b.suit && b.suit != c.suit && a.suit != c.suit;
    assert x.suit != a.suit && x.suit != b.suit && x.suit != c.suit;
    assert y.suit != a.suit && y.suit != b.suit && y.suit != c.suit;
  }

  lemma FourthAttaches(was: seq<Card>, now: seq<Card>, dead: set<Card>, rest: set<Card>, v: Card)
    requires IsMeld(was) && !IsRun(was) && AllStandard(was) && Distinct(was) && Elements(was) !! dead
    requires GrownMeld(was, now, dead - rest) && rest <= dead && v in rest && Standard(v) && LayableOn(was, dead, v)
    ensures CanAttach(v, now)
  {
    forall x | x in now ensures x in was {
      if x !in was {
        assert x in Elements(now);
        FourthIsUnique(was, v, x);
      }
    }
    assert Elements(now) == Elements(was);
    DistinctSize(was);
    DistinctSize(now);
  }

  /** A chain of deadwood off a run's end is one or two cards long. */
  lemma ShortChain(dead: set<Card>, suit: nat, from: nat, to: nat)
    requires NoBlock(dead) && from <= to && Cells(suit, from, to) <= dead
    ensures to <= from + 1
  {
    assert !Block(dead, suit, from, to);
  }

  /** Which cells a grown run holds. */
  lemma GrownRunHolds(was: seq<Card>, now: seq<Card>, dead: set<Card>, rest: set<Card>, c: Card)
    requires IsRun(was) && AllStandard(was) && Elements(was) !! dead && GrownMeld(was, now, dead - rest)
    requires c.suit == RunSuit(was)
    ensures c in Elements(now) <==> RunLo(now) <= c.rank <= RunHi(now)
    ensures c in Elements(was) <==> RunLo(was) <= c.rank <= RunHi(was)
    ensures c in rest && c !in Elements(was) ==> !(RunLo(now) <= c.rank <= RunHi(now))
  {
    RunIsCells(now);
    RunIsCells(was);
    InCells(RunSuit(was), RunLo(now), RunHi(now), c);
    InCells(RunSuit(was), RunLo(was), RunHi(was), c);
  }

  /** Two runs of a suit never meet over a card in hand: if u joins run b and neighbours run a, v beyond u is laid off too. */
  lemma AnotherRunHolds(melds: seq<seq<Card>>, dead: set<Card>, l: Laying, a: nat, b: nat, u: Card, w: Card, v: Card)
    requires Knocked(melds, dead) && Grown(melds, dead, l) && a < |melds| && b < |melds| && a != b
    requires IsRun(melds[a]) && IsRun(melds[b]) && u in l.melds[b] && u in dead && v in dead
    requires w in melds[a] && w.suit == v.suit == u.suit
    requires (w.rank + 1 == u.rank && u.rank + 1 == v.rank) || (v.rank + 1 == u.rank && u.rank + 1 == w.rank)
    ensures v !in Elements(l.remaining)
  {
    var was, now, rest := melds[b], l.melds[b], Elements(l.remaining);
    assert u in Elements(now) && w in Elements(melds[a]);
    RunIsCells(now);
    InCells(RunSuit(now), RunLo(now), RunHi(now), u);
    assert Elements(melds[a]) !! Elements(melds[b]);
    GrownRunHolds(was, now, dead, rest, u);
    GrownRunHolds(was, now, dead, rest, w);
    GrownRunHolds(was, now, dead, rest, v);
    assert w !in Elements(now);
  }

  /** With the run's first neighbour already laid off, it lies on this very run. */
  lemma NeighbourIsOnRun(melds: seq<seq<Card>>, dead: set<Card>, l: Laying, k: nat, u: Card, w: Card, v: Card)
    requires Knocked(melds, dead) && Greedy(melds, dead, l) && k < |melds| && EndsAt(melds[k], u)
    requires u in dead && u !in Elements(l.remaining) && v in Elements(l.remaining)
    requires w in melds[k] && w.suit == v.suit == u.suit
    requires (w.rank + 1 == u.rank && u.rank + 1 == v.rank) || (v.rank + 1 == u.rank && u.rank + 1 == w.rank)
    ensures u in Elements(l.melds[k])
  {
    assert NextToRun(melds, u);
    var j :| 0 <= j < |l.melds| && j < |melds| && u in l.melds[j] && IsRun(melds[j]);
    if j != k {
      AnotherRunHolds(melds, dead, l, k, j, u, w, v);
      assert false;
    }
  }

  lemma RunGoesOn(melds: seq<seq<Card>>, dead: set<Card>, l: Laying, k: nat, v: Card)
    requires Knocked(melds, dead) && Greedy(melds, dead, l) && NoBlock(dead)
    requires k < |melds| && IsRun(melds[k]) && LayableOn(melds[k], dead, v) && v in Elements(l.remaining)
    ensures CanGoOn(l)
  {
    var was, now, rest := melds[k], l.melds[k], Elements(l.remaining);
    RunIsCells(was);
    GrownRunHolds(was, now, dead, rest, v);
    AttachesToRunEnd(v, now);
    var up := v.rank > RunHi(was);
    var end := if up then RunHi(was) else RunLo(was);
    var u := Card(if up then end + 1 else end - 1, v.suit);
    var w := Card(end, v.suit);
    if up {
      ShortChain(dead, v.suit, end + 1, v.rank);
      InCells(v.suit, end + 1, v.rank, u);
    } else {
      ShortChain(dead, v.suit, v.rank, end - 1);
      InCells(v.suit, v.rank, end - 1, u);
    }
    InCells(v.suit, RunLo(was), RunHi(was), w);
    GrownRunHolds(was, now, dead, rest, u);
    AttachesToRunEnd(u, now);
    if u in rest {
      assert CanAttach(u, now);
    } else {
      NeighbourIsOnRun(melds, dead, l, k, u, w, v);
      assert CanAttach(v, now);
    }
  }

  /** With no three consecutive suited cards in the deadwood, a layable card in hand means the greedy order is not done. */
  lemma NothingStranded(melds: seq<seq<Card>>, dead: set<Card>, l: Laying, v: Card)
    requires Knocked(melds, dead) && Greedy(melds, dead, l) && NoBlock(dead)
    requires v in Elements(l.remaining) && Layable(melds, dead, v)
    ensures CanGoOn(l)
  {
    var k :| 0 <= k < |melds| && LayableOn(melds[k], dead, v);
    if IsRun(melds[k]) {
      RunGoesOn(melds, dead, l, k, v);
    } else {
      FourthAttaches(melds[k], l.melds[k], dead, Elements(l.remaining), v);
    }
  }

  // ---- With three in a row, melding the whole block strands nothing more ----

  /** A block nothing in the deadwood extends. */
  ghost predicate WholeBlock(dead: set<Card>, suit: nat, lo: nat, hi: nat) {
    Block(dead, suit, lo, hi) && lo >= 1 && Card(hi + 1, suit) !in dead && Card(lo - 1, suit) !in dead
  }

  lemma {:induction false} ExtendUp(dead: set<Card>, suit: nat, lo: nat, hi: nat) returns (top: nat)
    requires Block(dead, suit, lo, hi) && (forall c | c in dead :: Standard(c)) && hi <= KING
    ensures hi <= top <= KING && Block(dead, suit, lo, top) && Card(top + 1, suit) !in dead
    decreases KING - hi
  {
    if Card(hi + 1, suit) in dead {
      assert Cells(suit, lo, hi + 1) == Cells(suit, lo, hi) + {Card(hi + 1, suit)};
      top := ExtendUp(dead, suit, lo, hi + 1);
    } else {
      top := hi;
    }
  }

  lemma {:induction false} ExtendDown(dead: set<Card>, suit: nat, lo: nat, hi: nat) returns (bottom: nat)
    requires Block(dead, suit, lo, hi) && (forall c | c in dead :: Standard(c)) && lo >= 1
    ensures 1 <= bottom <= lo && Block(dead, suit, bottom, hi) && Card(bottom - 1, suit) !in dead
    decreases lo
  {
    if Card(lo - 1, suit) in dead {
      assert Standard(Card(lo - 1, suit));
      assert Cells(suit, lo - 1, hi) == Cells(suit, lo, hi) + {Card(lo - 1, suit)};
      bottom := ExtendDown(dead, suit, lo - 1, hi);
    } else {
      bottom := lo;
    }
  }

  lemma FindWholeBlock(dead: set<Card>) returns (suit: nat, lo: nat, hi: nat)
    requires !NoBlock(dead) && forall c | c in dead :: Standard(c)
    ensures WholeBlock(dead, suit, lo, hi) && hi <= KING
  {
    var s: nat, a: nat, b: nat :| Block(dead, s, a, b);
    InCells(s, a, b, Card(a, s));
    InCells(s, a, b, Card(b, s));
    assert Standard(Card(a, s)) && Standard(Card(b, s));
    suit := s;
    hi := ExtendUp(dead, s, a, b);
    lo := ExtendDown(dead, s, a, hi);
  }

  /** A chain of deadwood that misses the end of a whole block misses all of it. */
  lemma ChainAvoids(dead: set<Card>, suit: nat, lo: nat, hi: nat, s: nat, from: nat, to: nat, v: Card)
    requires WholeBlock(dead, suit, lo, hi) && Cells(s, from, to) <= dead
    requires v.suit == s && (v.rank == from || v.rank == to) && v !in Cells(suit, lo, hi)
    ensures Cells(s, from, to) <= dead - Cells(suit, lo, hi)
  {
    InCells(suit, lo, hi, v);
    InCells(s, from, to, Card(hi + 1, suit));
    InCells(s, from, to, Card(lo - 1, suit));
    forall x | x in Cells(s, from, to) ensures x !in Cells(suit, lo, hi) {
      InCells(s, from, to, x);
      InCells(suit, lo, hi, x);
    }
  }

  lemma StillLayable(melds: seq<seq<Card>>, dead: set<Card>, suit: nat, lo: nat, hi: nat, v: Card)
    requires WholeBlock(dead, suit, lo, hi) && v in dead && v !in Cells(suit, lo, hi) && Layable(melds, dead, v)
    ensures Layable(melds, dead - Cells(suit, lo, hi), v)
  {
    var k :| 0 <= k < |melds| && LayableOn(melds[k], dead, v);
    var meld := melds[k];
    if IsRun(meld) {
      if v.rank > RunHi(meld) {
        ChainAvoids(dead, suit, lo, hi, v.suit, RunHi(meld) + 1, v.rank, v);
      } else {
        ChainAvoids(dead, suit, lo, hi, v.suit, v.rank, RunLo(meld) - 1, v);
      }
    }
    assert LayableOn(meld, dead - Cells(suit, lo, hi), v);
  }

  // ---- Points of sets of cards ----

  ghost function Points(cards: set<Card>): nat {
    if cards == {} then 0
    else
      var c :| c in cards;
      PipValue(c.rank) + Points(cards - {c})
  }

  lemma {:induction false} PointsSplit(cards: set<Card>, c: Card)
    requires c in cards
    ensures Points(cards) == PipValue(c.rank) + Points(cards - {c})
    decreases |cards|
  {
    var d :| d in cards && Points(cards) == PipValue(d.rank) + Points(cards - {d});
    if c != d {
      PointsSplit(cards - {d}, c);
      PointsSplit(cards - {c}, d);
      assert cards - {d} - {c} == cards - {c} - {d};
    }
  }

  lemma {:induction false} FewerCardsFewerPoints(a: set<Card>, b: set<Card>)
    requires a <= b
    ensures Points(a) <= Points(b)
    decreases |b|
  {
    if b - a == {} {
      assert a == b;
    } else {
      var c :| c in b - a;
      PointsSplit(b, c);
      FewerCardsFewerPoints(a, b - {c});
    }
  }

  lemma {:induction false} SumIsPoints(cards: seq<Card>)
    requires Distinct(cards)
    ensures SumDeadwood(cards) == Points(Elements(cards))
  {
    if cards != [] {
      assert cards == [cards[0]] + cards[1..];
      SumIsPoints(cards[1..]);
      PointsSplit(Elements(cards), cards[0]);
      assert Elements(cards) - {cards[0]} == Elements(cards[1..]);
    }
  }

  // ---- The optimum ----

  /** Deadwood points once the greedy layoffs are done. */
  function PointsAfterLayoffs(knocked: seq<seq<Card>>, deadwood: seq<Card>): nat {
    SumDeadwood(Layoffs(Laying(deadwood, knocked, [])).remaining)
  }

  function ScoreAgainst(knocked: seq<seq<Card>>): seq<Card> -> nat {
    deadwood => PointsAfterLayoffs(knocked, deadwood)
  }

  ghost function Stranded(knocked: seq<seq<Card>>, dead: set<Card>): set<Card> {
    set c | c in dead && !Layable(knocked, dead, c)
  }

  /** The greedy order strands exactly what nothing could have laid off. */
  lemma GreedyIsBest(knocked: seq<seq<Card>>, deadwood: seq<Card>)
    requires Distinct(deadwood) && Knocked(knocked, Elements(deadwood)) && NoBlock(Elements(deadwood))
    ensures PointsAfterLayoffs(knocked, deadwood) <= Points(Stranded(knocked, Elements(deadwood)))
  {
    var dead, start := Elements(deadwood), Laying(deadwood, knocked, []);
    var end := Layoffs(start);
    GrownAtFirst(knocked, deadwood);
    LayoffsAreGreedy(knocked, dead, start);
    LayoffsEndStuck(start);
    assert !CanGoOn(end);
    forall c | c in Elements(end.remaining) ensures c in Stranded(knocked, dead) {
      if Layable(knocked, dead, c) {
        NothingStranded(knocked, dead, end, c);
      }
    }
    FewerCardsFewerPoints(Elements(end.remaining), Stranded(knocked, dead));
    SumIsPoints(end.remaining);
  }

  /** No order of layoffs gets below what can never be laid off. */
  lemma NoOrderBeats(knocked: seq<seq<Card>>, deadwood: seq<Card>, moves: seq<Move>)
    requires Distinct(deadwood) && Knocked(knocked, Elements(deadwood))
    requires Legal(Laying(deadwood, knocked, []), moves)
    ensures Points(Stranded(knocked, Elements(deadwood)))
         <= SumDeadwood(After(Laying(deadwood, knocked, []), moves).remaining)
  {
    var dead, start := Elements(deadwood), Laying(deadwood, knocked, []);
    var end := After(start, moves);
    GrownAtFirst(knocked, deadwood);
    LegalGrows(knocked, dead, start, moves);
    forall c | c in Stranded(knocked, dead) ensures c in Elements(end.remaining) {
      OnlyLayableGo(knocked, dead, start, moves, c);
    }
    FewerCardsFewerPoints(Stranded(knocked, dead), Elements(end.remaining));
    SumIsPoints(end.remaining);
  }

  lemma {:induction false} LegalGrows(knocked: seq<seq<Card>>, dead: set<Card>, l: Laying, moves: seq<Move>)
    requires Knocked(knocked, dead) && Grown(knocked, dead, l) && Legal(l, moves)
    ensures Grown(knocked, dead, After(l, moves))
    decreases |moves|
  {
    if moves != [] {
      StepGrows(knocked, dead, l, moves[0].card, moves[0].meld);
      LegalGrows(knocked, dead, LayOff(l, moves[0].card, moves[0].meld), moves[1..]);
    }
  }

  /** Deadwood a family of melds leaves. */
  ghost function Dead(hand: seq<Card>, family: set<Mask>): set<Card> {
    Elements(Left(hand, Union(family)))
  }

  lemma DeadIs(hand: seq<Card>, family: set<Mask>)
    requires Distinct(hand) && AllStandard(hand)
    ensures forall i | 0 <= i < |hand| :: hand[i] in Dead(hand, family) <==> i !in Union(family)
    ensures Dead(hand, family) <= Elements(hand)
    ensures Distinct(Left(hand, Union(family))) && AllStandard(Left(hand, Union(family)))
  {
    var kept := Range(|hand|) - Union(family);
    PickedHolds(hand, kept);
    forall i | 0 <= i < |hand| ensures hand[i] in Picked(hand, kept) <==> i in kept {
      if hand[i] in Picked(hand, kept) {
        var j :| j in kept && hand[j] == hand[i];
        assert j == i;
      }
    }
  }

  function PositionsOf(hand: seq<Card>, cards: set<Card>): Mask {
    set i | i in Range(|hand|) && hand[i] in cards
  }

  /** The positions of a block of the hand are a meld. */
  lemma BlockIsMeld(hand: seq<Card>, suit: nat, lo: nat, hi: nat)
    requires Distinct(hand) && AllStandard(hand) && lo + 2 <= hi <= KING && 1 <= lo
    requires Cells(suit, lo, hi) <= Elements(hand)
    ensures MeldMask(hand, PositionsOf(hand, Cells(suit, lo, hi)))
  {
    var block := Cells(suit, lo, hi);
    var m := PositionsOf(hand, block);
    PickedHolds(hand, m);
    forall c ensures c in Elements(Picked(hand, m)) <==> c in block {
      if c in block {
        var i :| 0 <= i < |hand| && hand[i] == c;
        assert i in m;
      }
    }
    CellsAreRun(Picked(hand, m), suit, lo, hi);
  }

  lemma OneMoreMeld(hand: seq<Card>, family: set<Mask>, m: Mask)
    requires MeldFamily(hand, family) && MeldMask(hand, m) && m !! Union(family)
    ensures MeldFamily(hand, family + {m}) && Union(family + {m}) == Union(family) + m
  {
    forall a | a in family ensures a !! m {
      assert a <= Union(family);
    }
  }

  /** A block in the deadwood is one more meld the family can take. */
  lemma MeldTheBlock(hand: seq<Card>, family: set<Mask>, suit: nat, lo: nat, hi: nat) returns (more: set<Mask>)
    requires Distinct(hand) && AllStandard(hand) && MeldFamily(hand, family)
    requires Block(Dead(hand, family), suit, lo, hi) && 1 <= lo && hi <= KING
    ensures MeldFamily(hand, more) && Dead(hand, more) == Dead(hand, family) - Cells(suit, lo, hi)
  {
    var m := PositionsOf(hand, Cells(suit, lo, hi));
    DeadIs(hand, family);
    BlockIsMeld(hand, suit, lo, hi);
    OneMoreMeld(hand, family, m);
    more := family + {m};
    DeadIs(hand, more);
    DeadWithout(hand, family, more, Cells(suit, lo, hi));
  }

  lemma DeadWithout(hand: seq<Card>, family: set<Mask>, more: set<Mask>, cards: set<Card>)
    requires Distinct(hand) && AllStandard(hand)
    requires Union(more) == Union(family) + PositionsOf(hand, cards)
    ensures Dead(hand, more) == Dead(hand, family) - cards
  {
    DeadIs(hand, family);
    DeadIs(hand, more);
    forall c ensures c in Dead(hand, more) <==> c in Dead(hand, family) - cards {
      if c in hand {
        var i :| 0 <= i < |hand| && hand[i] == c;
        assert i in PositionsOf(hand, cards) <==> c in cards;
      }
    }
  }

  /** Some split the search considers leaves, after the greedy layoffs, no more than this one could after any. */
  lemma {:induction false} SomeSplitAsGood(hand: seq<Card>, knocked: seq<seq<Card>>, family: set<Mask>)
    returns (best: set<Mask>)
    requires Distinct(hand) && AllStandard(hand) && Knocked(knocked, Elements(hand)) && MeldFamily(hand, family)
    ensures MeldFamily(hand, best)
    ensures PointsAfterLayoffs(knocked, Left(hand, Union(best))) <= Points(Stranded(knocked, Dead(hand, family)))
    decreases |Dead(hand, family)|
  {
    var dead := Dead(hand, family);
    DeadIs(hand, family);
    if NoBlock(dead) {
      best := family;
      GreedyIsBest(knocked, Left(hand, Union(family)));
    } else {
      var suit, lo, hi := FindWholeBlock(dead);
      var block := Cells(suit, lo, hi);
      var more := MeldTheBlock(hand, family, suit, lo, hi);
      InCells(suit, lo, hi, Card(lo, suit));
      assert dead == (dead - block) + block;
      best := SomeSplitAsGood(hand, knocked, more);
      forall c | c in Stranded(knocked, dead - block) ensures c in Stranded(knocked, dead) {
        if Layable(knocked, dead, c) {
          StillLayable(knocked, dead, suit, lo, hi, c);
        }
      }
      FewerCardsFewerPoints(Stranded(knocked, dead - block), Stranded(knocked, dead));
    }
  }

  /** The least the search finds is the least over every choice of disjoint melds and every legal order of layoffs. */
  lemma DefenderOptimal(hand: seq<Card>, knocked: seq<seq<Card>>, pts: nat, family: set<Mask>, moves: seq<Move>)
    requires Distinct(hand) && AllStandard(hand) && Knocked(knocked, Elements(hand))
    requires NoFamilyScoresLess(hand, ScoreAgainst(knocked), pts)
    requires MeldFamily(hand, family) && Legal(Laying(Left(hand, Union(family)), knocked, []), moves)
    ensures pts <= SumDeadwood(After(Laying(Left(hand, Union(family)), knocked, []), moves).remaining)
  {
    DeadIs(hand, family);
    var best := SomeSplitAsGood(hand, knocked, family);
    assert pts <= ScoreAgainst(knocked)(Left(hand, Union(best)));
    NoOrderBeats(knocked, Left(hand, Union(family)), moves);
  }

  /** These melds and this order of layoffs, if they are legal, leave no less. */
  ghost predicate NoWorseThan(pts: nat, hand: seq<Card>, knocked: seq<seq<Card>>, family: set<Mask>, moves: seq<Move>) {
    MeldFamily(hand, family) && Legal(Laying(Left(hand, Union(family)), knocked, []), moves) ==>
      pts <= SumDeadwood(After(Laying(Left(hand, Union(family)), knocked, []), moves).remaining)
  }

  /** Nothing a defender could do, by any melds and any order of layoffs, leaves less. */
  ghost predicate NoDefenceBeats(hand: seq<Card>, knocked: seq<seq<Card>>, pts: nat) {
    forall family, moves :: NoWorseThan(pts, hand, knocked, family, moves)
  }

  /** The arrangement a defender is entitled to against a knock. */
  method BestMeldSplitAgainst(hand: seq<Card>, knocked: seq<seq<Card>>)
    returns (melds: seq<seq<Card>>, deadwood: seq<Card>, pts: nat)
    requires |hand| <= MASK_BITS ==>
               AllStandard(hand) && Distinct(hand) && Knocked(knocked, Elements(hand))
    ensures pts == PointsAfterLayoffs(knocked, deadwood)
    ensures |hand| > MASK_BITS ==> melds == [] && deadwood == hand
    ensures |hand| <= MASK_BITS ==> exists masks :: SplitBy(hand, masks, melds, deadwood)
    ensures |hand| <= MASK_BITS ==> forall family, moves |
              MeldFamily(hand, family) && Legal(Laying(Left(hand, Union(family)), knocked, []), moves) ::
              pts <= SumDeadwood(After(Laying(Left(hand, Union(family)), knocked, []), moves).remaining)
  {
    LayoffsLeaveFewer(Laying(hand, knocked, []));
    SumIsSmall(Layoffs(Laying(hand, knocked, [])).remaining);
    melds, deadwood, pts := BestSplitBy(hand, ScoreAgainst(knocked));
    if |hand| <= MASK_BITS {
      forall family, moves |
        MeldFamily(hand, family) && Legal(Laying(Left(hand, Union(family)), knocked, []), moves)
        ensures pts <= SumDeadwood(After(Laying(Left(hand, Union(family)), knocked, []), moves).remaining)
      {
        DefenderOptimal(hand, knocked, pts, family, moves);
      }
    }
  }

  lemma {:induction false} LayoffsLeaveFewer(l: Laying)
    ensures |Layoffs(l).remaining| <= |l.remaining|
    decreases |l.remaining|
  {
    var swept := Sweep(l, 0);
    if |swept.remaining| < |l.remaining| {
      LayoffsLeaveFewer(swept);
    }
  }
}
