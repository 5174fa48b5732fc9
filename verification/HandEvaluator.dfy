/**
 The fast poker hand evaluator, and the slow meaning it is proved against: a hand is worth
 the best value anybody can read off five of its cards.
 */
module HandEvaluator {
  import opened Cards

  // Hand categories, weakest first.
  const HIGH_CARD := 1
  const PAIR := 2
  const TWO_PAIR := 3
  const THREE_OF_A_KIND := 4
  const STRAIGHT := 5
  const FLUSH := 6
  const FULL_HOUSE := 7
  const FOUR_OF_A_KIND := 8
  const STRAIGHT_FLUSH := 9

  const MAX_RANK := 14

  /** A category with five kickers, most important first; unused slots are 0. */
  datatype HandValue = HandValue(rank: nat, k0: nat, k1: nat, k2: nat, k3: nat, k4: nat)

  function V(c: Card): (v: nat)
    ensures v <= MAX_RANK
  {
    RankValue(c.rank)
  }

  /** Category and kickers packed four bits apart into one comparable integer. */
  function Score(h: HandValue): nat {
    h.rank * 0x100000 + h.k0 * 0x10000 + h.k1 * 0x1000 + h.k2 * 0x100 + h.k3 * 0x10 + h.k4
  }

  predicate Digits(h: HandValue) {
    h.k0 < 16 && h.k1 < 16 && h.k2 < 16 && h.k3 < 16 && h.k4 < 16
  }

  predicate LexLess(a: HandValue, b: HandValue) {
    if a.rank != b.rank then a.rank < b.rank
    else if a.k0 != b.k0 then a.k0 < b.k0
    else if a.k1 != b.k1 then a.k1 < b.k1
    else if a.k2 != b.k2 then a.k2 < b.k2
    else if a.k3 != b.k3 then a.k3 < b.k3
    else a.k4 < b.k4
  }

  /** Comparing scores is comparing category first and then kickers one by one. */
  lemma ScoreOrderIsLexicographic(a: HandValue, b: HandValue)
    requires Digits(a) && Digits(b)
    ensures Score(a) < Score(b) <==> LexLess(a, b)
    ensures Score(a) == Score(b) <==> a == b
  {
  }

  /** The source shifts and ors; with four-bit kickers that is the sum above. */
  lemma ShiftsAndOrsAddUp(r: bv32, k0: bv32, k1: bv32, k2: bv32, k3: bv32, k4: bv32)
    requires r < 16 && k0 < 16 && k1 < 16 && k2 < 16 && k3 < 16 && k4 < 16
    ensures (r << 20) | (k0 << 16) | (k1 << 12) | (k2 << 8) | (k3 << 4) | k4
            == r * 0x100000 + k0 * 0x10000 + k1 * 0x1000 + k2 * 0x100 + k3 * 0x10 + k4
  {
  }

  // ---- What a hand is worth: readings of five cards ----

  ghost predicate Consecutive(f: seq<Card>)
    requires |f| == 5
  {
    || (V(f[0]) == V(f[1]) + 1 == V(f[2]) + 2 == V(f[3]) + 3 == V(f[4]) + 4)
    || (V(f[0]) == 5 && V(f[1]) == 4 && V(f[2]) == 3 && V(f[3]) == 2 && V(f[4]) == MAX_RANK)
  }

  ghost predicate OneSuit(f: seq<Card>)
    requires |f| == 5
  {
    f[0].suit == f[1].suit == f[2].suit == f[3].suit == f[4].suit
  }

  /** The five cards, in the order given, show the category. */
  ghost predicate Shows(f: seq<Card>, category: nat)
    requires |f| == 5
  {
    match category
    case 1 => V(f[0]) >= V(f[1]) >= V(f[2]) >= V(f[3]) >= V(f[4])
    case 2 => V(f[0]) == V(f[1]) && V(f[2]) >= V(f[3]) >= V(f[4])
    case 3 => V(f[0]) == V(f[1]) && V(f[2]) == V(f[3]) && V(f[0]) >= V(f[2])
    case 4 => V(f[0]) == V(f[1]) == V(f[2]) && V(f[3]) >= V(f[4])
    case 5 => Consecutive(f)
    case 6 => OneSuit(f) && V(f[0]) >= V(f[1]) >= V(f[2]) >= V(f[3]) >= V(f[4])
    case 7 => V(f[0]) == V(f[1]) == V(f[2]) && V(f[3]) == V(f[4])
    case 8 => V(f[0]) == V(f[1]) == V(f[2]) == V(f[3])
    case 9 => OneSuit(f) && Consecutive(f)
    case _ => false
  }

  ghost function ReadAs(f: seq<Card>, category: nat): HandValue
    requires |f| == 5
  {
    if category == STRAIGHT || category == STRAIGHT_FLUSH then HandValue(category, V(f[0]), 0, 0, 0, 0)
    else HandValue(category, V(f[0]), V(f[1]), V(f[2]), V(f[3]), V(f[4]))
  }

  /** v can be read off some five cards of the hand, laid out in some order. */
  ghost predicate Reads(hand: seq<Card>, f: seq<Card>, category: nat) {
    && |f| == 5
    && Distinct(f)
    && (forall c | c in f :: c in hand)
    && Shows(f, category)
  }

  ghost predicate Playable(hand: seq<Card>) {
    Distinct(hand) && forall c | c in hand :: Standard(c)
  }

  // ---- Parts of a hand ----

  datatype Pick = OfRank(r: nat) | OfSuit(s: nat) | NotRanks(ranks: set<nat>)

  predicate Picks(p: Pick, c: Card) {
    match p
    case OfRank(r) => V(c) == r
    case OfSuit(s) => c.suit == s
    case NotRanks(ranks) => V(c) !in ranks
  }

  function Filter(hand: seq<Card>, p: Pick): seq<Card> {
    if hand == [] then []
    else
      var last := hand[|hand| - 1];
      Filter(hand[..|hand| - 1], p) + if Picks(p, last) then [last] else []
  }

  ghost predicate Descending(hand: seq<Card>) {
    forall i, j | 0 <= i < j < |hand| :: V(hand[i]) >= V(hand[j])
  }

  lemma {:induction false} FilterKeeps(hand: seq<Card>, p: Pick)
    ensures forall c :: c in Filter(hand, p) <==> c in hand && Picks(p, c)
  {
    if hand != [] {
      var init, last := hand[..|hand| - 1], hand[|hand| - 1];
      assert hand == init + [last];
      FilterKeeps(init, p);
    }
  }

  lemma {:induction false} FilterOrder(hand: seq<Card>, p: Pick)
    ensures Descending(hand) ==> Descending(Filter(hand, p))
    ensures Distinct(hand) ==> Distinct(Filter(hand, p))
  {
    if hand != [] {
      var init, last := hand[..|hand| - 1], hand[|hand| - 1];
      FilterOrder(init, p);
      FilterKeeps(init, p);
      var kept := Filter(init, p);
      forall i | 0 <= i < |kept|
        ensures Descending(hand) ==> V(kept[i]) >= V(last)
        ensures Distinct(hand) ==> kept[i] != last
      {
        assert kept[i] in init;
      }
    }
  }

  /** A duplicate-free descending list drawn from another is below it place by place. */
  lemma Dominated(e: seq<Card>, f: seq<Card>, i: nat)
    requires Distinct(e) && Descending(e) && Descending(f)
    requires forall c | c in e :: c in f
    requires i < |e|
    ensures i < |f| && V(e[i]) <= V(f[i])
  {
    FitsIn(e, f);
    if V(e[i]) > V(f[i]) {
      forall c | c in e[..i + 1] ensures c in f[..i] {
        var j :| 0 <= j <= i && e[j] == c;
        assert e[j] in f;
        var k :| 0 <= k < |f| && f[k] == c;
        assert V(f[k]) >= V(e[i]);
      }
      FitsIn(e[..i + 1], f[..i]);
    }
  }

  /** The best card ranks left once some ranks are set aside. */
  function Kicker(hand: seq<Card>, exclude: set<nat>, i: nat): (k: nat)
    ensures k <= MAX_RANK
  {
    var rest := Filter(hand, NotRanks(exclude));
    if i < |rest| then V(rest[i]) else 0
  }

  lemma KickerBound(hand: seq<Card>, exclude: set<nat>, e: seq<Card>, i: nat)
    requires Descending(hand) && Distinct(e) && Descending(e) && i < |e|
    requires forall c | c in e :: c in hand && V(c) !in exclude
    ensures V(e[i]) <= Kicker(hand, exclude, i)
  {
    var p := NotRanks(exclude);
    FilterKeeps(hand, p);
    FilterOrder(hand, p);
    assert forall c | c in e :: c in Filter(hand, p);
    Dominated(e, Filter(hand, p), i);
  }

  // ---- Rank counts ----

  function Count(hand: seq<Card>, r: nat): nat {
    |Filter(hand, OfRank(r))|
  }

  lemma CountAtLeast(hand: seq<Card>, e: seq<Card>, r: nat)
    requires Distinct(e) && forall c | c in e :: c in hand && V(c) == r
    ensures Count(hand, r) >= |e|
  {
    FilterKeeps(hand, OfRank(r));
    assert forall c | c in e :: c in Filter(hand, OfRank(r));
    FitsIn(e, Filter(hand, OfRank(r)));
  }

  /** Four suits, so at most four cards of a rank. */
  lemma CountAtMostFour(hand: seq<Card>, r: nat)
    requires Playable(hand)
    ensures Count(hand, r) <= 4
  {
    var same := Filter(hand, OfRank(r));
    FilterKeeps(hand, OfRank(r));
    FilterOrder(hand, OfRank(r));
    var rank := if r == MAX_RANK then ACE else r;
    var all := [Card(rank, SPADES), Card(rank, HEARTS), Card(rank, DIAMONDS), Card(rank, CLUBS)];
    forall c | c in same ensures c in all {
      assert Standard(c) && V(c) == r;
      assert c.rank == rank;
      assert c == all[c.suit - 1];
    }
    FitsIn(same, all);
  }

  /** The highest rank held exactly want times, from r down, or 0. */
  function TopCount(hand: seq<Card>, want: nat, r: nat): nat {
    if r < 2 then 0 else if Count(hand, r) == want then r else TopCount(hand, want, r - 1)
  }

  lemma {:induction false} TopCountIs(hand: seq<Card>, want: nat, r: nat)
    ensures TopCount(hand, want, r) <= r
    ensures TopCount(hand, want, r) > 0 ==> Count(hand, TopCount(hand, want, r)) == want
                                            && TopCount(hand, want, r) >= 2
    ensures forall x | 2 <= x <= r && Count(hand, x) == want :: x <= TopCount(hand, want, r)
  {
    if r >= 2 && Count(hand, r) != want {
      TopCountIs(hand, want, r - 1);
    }
  }

  function QuadRank(hand: seq<Card>): nat {
    TopCount(hand, 4, MAX_RANK)
  }

  function TripRank(hand: seq<Card>): nat {
    TopCount(hand, 3, MAX_RANK)
  }

  /** A second trip is only worth a pair. */
  predicate IsPairRank(hand: seq<Card>, trip: nat, r: nat) {
    Count(hand, r) == 2 || (Count(hand, r) == 3 && r != trip)
  }

  /** Ranks r..2 worth a pair, highest first. */
  function PairsFrom(hand: seq<Card>, trip: nat, r: nat): seq<nat> {
    if r < 2 then []
    else (if IsPairRank(hand, trip, r) then [r] else []) + PairsFrom(hand, trip, r - 1)
  }

  function Pairs(hand: seq<Card>): seq<nat> {
    PairsFrom(hand, TripRank(hand), MAX_RANK)
  }

  lemma {:induction false} PairsFromAre(hand: seq<Card>, trip: nat, r: nat)
    ensures forall x :: x in PairsFrom(hand, trip, r) <==> 2 <= x <= r && IsPairRank(hand, trip, x)
    ensures forall i, j | 0 <= i < j < |PairsFrom(hand, trip, r)| ::
              PairsFrom(hand, trip, r)[i] > PairsFrom(hand, trip, r)[j]
  {
    if r >= 2 {
      PairsFromAre(hand, trip, r - 1);
      var rest := PairsFrom(hand, trip, r - 1);
      assert forall i | 0 <= i < |rest| :: rest[i] in rest;
    }
  }

  // ---- Straights ----

  function RanksOf(hand: seq<Card>): seq<nat> {
    seq(|hand|, i requires 0 <= i < |hand| => V(hand[i]))
  }

  predicate HasStraight(ranks: seq<nat>, high: nat) {
    if high == 5 then
      MAX_RANK in ranks && 5 in ranks && 4 in ranks && 3 in ranks && 2 in ranks
    else
      high > 5 && high in ranks && high - 1 in ranks && high - 2 in ranks && high - 3 in ranks && high - 4 in ranks
  }

  function TopStraight(ranks: seq<nat>, high: nat): nat {
    if high < 5 then 0 else if HasStraight(ranks, high) then high else TopStraight(ranks, high - 1)
  }

  /** The high card of the best straight in ranks, or 0; the wheel counts as 5. */
  function StraightHigh(ranks: seq<nat>): nat {
    TopStraight(ranks, MAX_RANK)
  }

  lemma {:induction false} TopStraightIs(ranks: seq<nat>, high: nat)
    ensures TopStraight(ranks, high) <= high
    ensures TopStraight(ranks, high) > 0 ==> HasStraight(ranks, TopStraight(ranks, high))
                                             && TopStraight(ranks, high) >= 5
    ensures forall h | 5 <= h <= high && HasStraight(ranks, h) :: h <= TopStraight(ranks, high)
  {
    if high >= 5 && !HasStraight(ranks, high) {
      TopStraightIs(ranks, high - 1);
    }
  }

  // ---- Flushes ----

  function SuitRanks(hand: seq<Card>, s: nat): seq<nat> {
    RanksOf(Filter(hand, OfSuit(s)))
  }

  function FlushValue(ranks: seq<nat>): HandValue
    requires |ranks| >= 5
  {
    HandValue(FLUSH, ranks[0], ranks[1], ranks[2], ranks[3], ranks[4])
  }

  /** The strongest flush among suits 1..s, the earlier suit keeping a tie; [] when there is none. */
  function BestFlush(hand: seq<Card>, s: nat): (best: seq<nat>)
    ensures best != [] ==> |best| >= 5
  {
    if s == 0 then []
    else
      var before, ranks := BestFlush(hand, s - 1), SuitRanks(hand, s);
      if |ranks| >= 5 && (before == [] || LexLess(FlushValue(before), FlushValue(ranks))) then ranks else before
  }

  /** The best straight flush among suits 1..s. */
  function BestStraightFlush(hand: seq<Card>, s: nat): nat {
    if s == 0 then 0
    else
      var before, ranks := BestStraightFlush(hand, s - 1), SuitRanks(hand, s);
      if |ranks| >= 5 && StraightHigh(ranks) > before then StraightHigh(ranks) else before
  }

  // ---- The ladder ----

  /** The value of a hand already sorted by rank, highest first. */
  function Classify(hand: seq<Card>): HandValue {
    var straight := StraightHigh(RanksOf(hand));
    var quad, trip, pairs := QuadRank(hand), TripRank(hand), Pairs(hand);
    var flush, straightFlush := BestFlush(hand, CLUBS), BestStraightFlush(hand, CLUBS);
    if straightFlush > 0 then HandValue(STRAIGHT_FLUSH, straightFlush, 0, 0, 0, 0)
    else if quad > 0 then HandValue(FOUR_OF_A_KIND, quad, quad, quad, quad, Kicker(hand, {quad}, 0))
    else if trip > 0 && |pairs| > 0 then HandValue(FULL_HOUSE, trip, trip, trip, pairs[0], pairs[0])
    else if flush != [] then FlushValue(flush)
    else if straight > 0 then HandValue(STRAIGHT, straight, 0, 0, 0, 0)
    else if trip > 0 then
      HandValue(THREE_OF_A_KIND, trip, trip, trip, Kicker(hand, {trip}, 0), Kicker(hand, {trip}, 1))
    else if |pairs| >= 2 then
      HandValue(TWO_PAIR, pairs[0], pairs[0], pairs[1], pairs[1], Kicker(hand, {pairs[0], pairs[1]}, 0))
    else if |pairs| == 1 then
      HandValue(PAIR, pairs[0], pairs[0], Kicker(hand, {pairs[0]}, 0), Kicker(hand, {pairs[0]}, 1),
                Kicker(hand, {pairs[0]}, 2))
    else
      HandValue(HIGH_CARD, Kicker(hand, {}, 0), Kicker(hand, {}, 1), Kicker(hand, {}, 2), Kicker(hand, {}, 3),
                Kicker(hand, {}, 4))
  }

  /** Insertion sort by rank, highest first. */
  function SortByRank(hand: seq<Card>): seq<Card> {
    if hand == [] then [] else Insert(hand[|hand| - 1], SortByRank(hand[..|hand| - 1]))
  }

  function Insert(c: Card, sorted: seq<Card>): seq<Card> {
    if sorted == [] || V(sorted[0]) < V(c) then [c] + sorted
    else [sorted[0]] + Insert(c, sorted[1..])
  }

  /** Hands under five cards are worth nothing. */
  function Evaluate(cards: seq<Card>): nat {
    if |cards| < 5 then 0 else Score(Classify(SortByRank(cards)))
  }
}
