/** The evaluator's loops, each proved against the function it computes. */
module HandEvaluatorScan {
  import opened Cards
  import opened HandEvaluator
  import opened HandEvaluatorProof

  /** Sorted by rank, highest first. */
  method NormalizeCards(cards: seq<Card>) returns (hand: seq<Card>)
    ensures hand == SortByRank(cards)
  {
    hand := [];
    for i := 0 to |cards|
      invariant hand == SortByRank(cards[..i])
    {
      assert cards[..i + 1][..i] == cards[..i];
      hand := Insert(cards[i], hand);
    }
    assert cards[..|cards|] == cards;
  }

  /** One pass counts the ranks. */
  method CountRanks(hand: seq<Card>) returns (counts: seq<nat>)
    ensures |counts| == MAX_RANK + 1
    ensures forall r | 0 <= r <= MAX_RANK :: counts[r] == Count(hand, r)
  {
    var tally := new nat[MAX_RANK + 1](_ => 0);
    for i := 0 to |hand|
      invariant forall r | 0 <= r <= MAX_RANK :: tally[r] == Count(hand[..i], r)
    {
      assert hand[..i + 1][..i] == hand[..i];
      tally[V(hand[i])] := tally[V(hand[i])] + 1;
    }
    assert hand[..|hand|] == hand;
    counts := tally[..];
  }

  /** Picks the groups from the top rank down. */
  method RankCounts(hand: seq<Card>) returns (quad: nat, trip: nat, pairs: seq<nat>)
    ensures quad == QuadRank(hand) && trip == TripRank(hand) && pairs == Pairs(hand)
  {
    var counts := CountRanks(hand);
    quad, trip, pairs := 0, 0, [];
    var r := MAX_RANK;
    while r >= 2
      invariant 1 <= r <= MAX_RANK
      invariant QuadRank(hand) == if quad > 0 then quad else TopCount(hand, 4, r)
      invariant TripRank(hand) == if trip > 0 then trip else TopCount(hand, 3, r)
      invariant trip > 0 ==> r < trip
      invariant Pairs(hand) == pairs + PairsFrom(hand, TripRank(hand), r)
    {
      var n := counts[r];
      PickStep(hand, trip, pairs, r);
      if n == 4 {
        if quad == 0 {
          quad := r;
        }
      } else if n == 3 {
        if trip == 0 {
          trip := r;
        } else {
          pairs := pairs + [r];
        }
      } else if n == 2 {
        pairs := pairs + [r];
      }
      r := r - 1;
    }
  }

  lemma PickStep(hand: seq<Card>, trip: nat, pairs: seq<nat>, r: nat)
    requires 2 <= r <= MAX_RANK
    requires TripRank(hand) == if trip > 0 then trip else TopCount(hand, 3, r)
    requires trip > 0 ==> r < trip
    requires Pairs(hand) == pairs + PairsFrom(hand, TripRank(hand), r)
    ensures var isPair := Count(hand, r) == 2 || (Count(hand, r) == 3 && trip > 0);
            Pairs(hand) == (if isPair then pairs + [r] else pairs) + PairsFrom(hand, TripRank(hand), r - 1)
  {
    TopCountIs(hand, 3, r - 1);
  }

  /** A missing rank inside the window rules a straight out. */
  lemma GapRulesOut(ranks: seq<nat>, gap: nat, high: nat)
    requires gap !in ranks && 6 <= high && high - 4 <= gap <= high
    ensures !HasStraight(ranks, high)
  {
  }

  lemma BelowTheLast(ranks: seq<nat>, i: nat, gap: nat)
    requires forall j, k | 0 <= j < k < |ranks| :: ranks[j] >= ranks[k]
    requires 0 < i <= |ranks| && gap < ranks[i - 1] && (i < |ranks| ==> ranks[i] < gap)
    ensures gap !in ranks
  {
  }

  lemma FirstRunIsHighest(ranks: seq<nat>, high: nat)
    requires 6 <= high <= MAX_RANK && forall r | high - 4 <= r <= high :: r in ranks
    requires forall h | high < h && h >= 6 :: !HasStraight(ranks, h)
    ensures StraightHigh(ranks) == high
  {
    TopStraightIs(ranks, MAX_RANK);
    assert HasStraight(ranks, high);
  }

  lemma OnlyTheWheel(ranks: seq<nat>)
    requires forall h | h >= 6 :: !HasStraight(ranks, h)
    ensures StraightHigh(ranks) == if HasStraight(ranks, 5) then 5 else 0
  {
    TopStraightIs(ranks, MAX_RANK);
  }

  lemma WheelInSeen(ranks: seq<nat>)
    ensures {14, 5, 4, 3, 2} <= Elements(ranks) <==> HasStraight(ranks, 5)
  {
    var seen := Elements(ranks);
    assert forall r: nat :: r in seen <==> r in ranks;
    assert {14, 5, 4, 3, 2} <= seen <==> (14 in seen && 5 in seen && 4 in seen && 3 in seen && 2 in seen);
  }

  lemma ElementsGrow(ranks: seq<nat>, i: nat)
    requires i < |ranks|
    ensures Elements(ranks[..i + 1]) == Elements(ranks[..i]) + {ranks[i]}
  {
    assert ranks[..i + 1] == ranks[..i] + [ranks[i]];
  }

  /** Walks the descending run in place; the first run of five is the highest straight. */
  method ScanStraight(ranks: seq<nat>) returns (high: nat)
    requires forall j, k | 0 <= j < k < |ranks| :: ranks[j] >= ranks[k]
    requires forall r | r in ranks :: 2 <= r <= MAX_RANK
    ensures high == StraightHigh(ranks)
  {
    if |ranks| == 0 {
      OnlyTheWheel(ranks);
      return 0;
    }
    var seen := {ranks[0]};
    assert ranks[0] in ranks;
    var run := 1;
    high := ranks[0];
    var i := 1;
    while i < |ranks|
      invariant 1 <= i <= |ranks|
      invariant seen == Elements(ranks[..i])
      invariant 1 <= run <= 4 && ranks[i - 1] + run == high + 1 && high <= MAX_RANK
      invariant forall r | ranks[i - 1] <= r <= high :: r in ranks
      invariant forall h | high < h && h >= 6 :: !HasStraight(ranks, h)
    {
      assert ranks[i] in ranks;
      ElementsGrow(ranks, i);
      seen := seen + {ranks[i]};
      if ranks[i] == ranks[i - 1] {
      } else if ranks[i] == ranks[i - 1] - 1 {
        run := run + 1;
        if run == 5 {
          FirstRunIsHighest(ranks, high);
          return;
        }
      } else {
        GapAfterRun(ranks, i, run, high);
        run, high := 1, ranks[i];
      }
      i := i + 1;
    }
    GapAfterRun(ranks, i, run, high);
    assert ranks[..i] == ranks;
    OnlyTheWheel(ranks);
    WheelInSeen(ranks);
    if {14, 5, 4, 3, 2} <= seen {
      return 5;
    }
    return 0;
  }

  /** When a run of four or fewer breaks, no straight starts inside it or in the gap below it. */
  lemma GapAfterRun(ranks: seq<nat>, i: nat, run: nat, high: nat)
    requires forall j, k | 0 <= j < k < |ranks| :: ranks[j] >= ranks[k]
    requires forall r | r in ranks :: 2 <= r <= MAX_RANK
    requires 0 < i <= |ranks| && 1 <= run <= 4 && ranks[i - 1] + run == high + 1
    requires i < |ranks| ==> ranks[i] + 1 < ranks[i - 1]
    requires forall h | high < h && h >= 6 :: !HasStraight(ranks, h)
    ensures forall h | h >= 6 && (i < |ranks| ==> h > ranks[i]) :: !HasStraight(ranks, h)
  {
    assert ranks[i - 1] in ranks;
    var gap := ranks[i - 1] - 1;
    BelowTheLast(ranks, i, gap);
    forall h | 6 <= h <= high && (i < |ranks| ==> h > ranks[i]) ensures !HasStraight(ranks, h) {
      if h >= gap {
        GapRulesOut(ranks, gap, h);
      } else {
        BelowTheLast(ranks, i, h);
      }
    }
  }

  /** Ranks outside exclude, best first, padded with zeros. */
  method Kickers(hand: seq<Card>, exclude: seq<nat>, count: nat) returns (k: seq<nat>)
    ensures |k| == count
    ensures forall i | 0 <= i < count :: k[i] == Kicker(hand, Elements(exclude), i)
  {
    ghost var p := NotRanks(Elements(exclude));
    ghost var rest := Filter(hand, p);
    k := [];
    var i := 0;
    while i < |hand| && |k| < count
      invariant 0 <= i <= |hand| && |k| <= count
      invariant |k| == |Filter(hand[..i], p)|
      invariant forall j | 0 <= j < |k| :: k[j] == V(Filter(hand[..i], p)[j])
    {
      assert hand[..i + 1][..i] == hand[..i];
      if V(hand[i]) !in exclude {
        k := k + [V(hand[i])];
      }
      i := i + 1;
    }
    assert hand[..|hand|] == hand;
    FilterPrefix(hand, p, i);
    while |k| < count
      invariant |Filter(hand[..i], p)| <= |k| <= count
      invariant forall j | 0 <= j < |k| :: k[j] == Kicker(hand, Elements(exclude), j)
    {
      k := k + [0];
    }
  }

  lemma {:induction false} FilterPrefix(hand: seq<Card>, p: Pick, i: nat)
    requires i <= |hand|
    ensures Filter(hand[..i], p) <= Filter(hand, p)
    decreases |hand|
  {
    if i < |hand| {
      FilterPrefix(hand[..|hand| - 1], p, i);
      assert hand[..|hand| - 1][..i] == hand[..i];
    } else {
      assert hand[..i] == hand;
    }
  }

  /** Groups the ranks by suit, then compares the suits in a fixed order. */
  method FindFlush(hand: seq<Card>) returns (best: seq<nat>, straightFlush: nat)
    requires Playable(hand) && Descending(hand)
    ensures best == BestFlush(hand, CLUBS) && straightFlush == BestStraightFlush(hand, CLUBS)
  {
    var suits := new seq<nat>[5](_ => []);
    for i := 0 to |hand|
      invariant forall s | 1 <= s <= CLUBS :: suits[s] == SuitRanks(hand[..i], s)
    {
      assert hand[..i + 1][..i] == hand[..i];
      assert hand[i] in hand;
      forall s | 1 <= s <= CLUBS
        ensures SuitRanks(hand[..i + 1], s)
                == SuitRanks(hand[..i], s) + if s == hand[i].suit then [V(hand[i])] else []
      {
      }
      suits[hand[i].suit] := suits[hand[i].suit] + [V(hand[i])];
    }
    assert hand[..|hand|] == hand;
    best, straightFlush := [], 0;
    for s := 1 to CLUBS + 1
      invariant forall t | 1 <= t <= CLUBS :: suits[t] == SuitRanks(hand, t)
      invariant best == BestFlush(hand, s - 1) && straightFlush == BestStraightFlush(hand, s - 1)
    {
      var ranks := suits[s];
      if |ranks| >= 5 {
        if best == [] || LexLess(FlushValue(best), FlushValue(ranks)) {
          best := ranks;
        }
        SuitRanksDescend(hand, s);
        var high := ScanStraight(ranks);
        if high > straightFlush {
          straightFlush := high;
        }
      }
    }
  }

  lemma SuitRanksDescend(hand: seq<Card>, s: nat)
    requires Playable(hand) && Descending(hand)
    ensures forall j, k | 0 <= j < k < |SuitRanks(hand, s)| :: SuitRanks(hand, s)[j] >= SuitRanks(hand, s)[k]
    ensures forall r | r in SuitRanks(hand, s) :: 2 <= r <= MAX_RANK
  {
    FilterIsDrawn(hand, OfSuit(s));
    RanksInRange(Filter(hand, OfSuit(s)));
  }

  lemma RanksInRange(hand: seq<Card>)
    requires forall c | c in hand :: Standard(c)
    ensures forall r | r in RanksOf(hand) :: 2 <= r <= MAX_RANK
  {
    forall k | 0 <= k < |hand| ensures 2 <= RanksOf(hand)[k] <= MAX_RANK {
      assert hand[k] in hand;
    }
  }

  /** The whole evaluator: the best score readable off five of the cards, or 0 under five cards. */
  method EvaluateHand(cards: seq<Card>) returns (score: nat)
    requires Playable(cards)
    ensures score == Evaluate(cards)
    ensures |cards| < 5 ==> score == 0
    ensures |cards| >= 5 ==> IsBestScore(cards, score)
  {
    if |cards| < 5 {
      return 0;
    }
    EvaluateIsBest(cards);
    var hand := NormalizeCards(cards);
    SortKeepsCards(cards);
    PlayableInAnyOrder(cards, hand);
    var quad, trip, pairs := RankCounts(hand);
    var flush, straightFlush := FindFlush(hand);
    RanksInRange(hand);
    var straight := ScanStraight(RanksOf(hand));
    var value := LadderValue(hand, quad, trip, pairs, flush, straight, straightFlush);
    return Score(value);
  }

  method LadderValue(hand: seq<Card>, quad: nat, trip: nat, pairs: seq<nat>, flush: seq<nat>, straight: nat,
                     straightFlush: nat)
    returns (value: HandValue)
    requires quad == QuadRank(hand) && trip == TripRank(hand) && pairs == Pairs(hand)
    requires flush == BestFlush(hand, CLUBS) && straightFlush == BestStraightFlush(hand, CLUBS)
    requires straight == StraightHigh(RanksOf(hand))
    ensures value == Classify(hand)
  {
    if straightFlush > 0 {
      value := HandValue(STRAIGHT_FLUSH, straightFlush, 0, 0, 0, 0);
    } else if quad > 0 {
      var k := Kickers(hand, [quad], 1);
      assert Elements([quad]) == {quad};
      value := HandValue(FOUR_OF_A_KIND, quad, quad, quad, quad, k[0]);
    } else if trip > 0 && |pairs| > 0 {
      value := HandValue(FULL_HOUSE, trip, trip, trip, pairs[0], pairs[0]);
    } else if flush != [] {
      value := FlushValue(flush);
    } else if straight > 0 {
      value := HandValue(STRAIGHT, straight, 0, 0, 0, 0);
    } else if trip > 0 {
      var k := Kickers(hand, [trip], 2);
      assert Elements([trip]) == {trip};
      value := HandValue(THREE_OF_A_KIND, trip, trip, trip, k[0], k[1]);
    } else if |pairs| >= 2 {
      var k := Kickers(hand, [pairs[0], pairs[1]], 1);
      assert Elements([pairs[0], pairs[1]]) == {pairs[0], pairs[1]};
      value := HandValue(TWO_PAIR, pairs[0], pairs[0], pairs[1], pairs[1], k[0]);
    } else if |pairs| == 1 {
      var k := Kickers(hand, [pairs[0]], 3);
      assert Elements([pairs[0]]) == {pairs[0]};
      value := HandValue(PAIR, pairs[0], pairs[0], k[0], k[1], k[2]);
    } else {
      var k := Kickers(hand, [], 5);
      assert Elements<nat>([]) == {};
      value := HandValue(HIGH_CARD, k[0], k[1], k[2], k[3], k[4]);
    }
  }
}
