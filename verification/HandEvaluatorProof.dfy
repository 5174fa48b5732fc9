/** The fast classifier equals the best value readable off any five cards. */
module HandEvaluatorProof {
  import opened Cards
  import opened HandEvaluator

  /** What the upper bound needs: f reads in this category and the hand is sorted. */
  ghost predicate Claim(hand: seq<Card>, f: seq<Card>, category: nat) {
    Playable(hand) && Descending(hand) && Reads(hand, f, category)
  }

  ghost predicate Below(f: seq<Card>, category: nat, h: HandValue)
    requires |f| == 5
  {
    Score(ReadAs(f, category)) <= Score(h)
  }

  lemma CardValues(hand: seq<Card>, f: seq<Card>, category: nat)
    requires Claim(hand, f, category)
    ensures forall i | 0 <= i < 5 :: 2 <= V(f[i]) <= MAX_RANK && f[i] in hand && IsSuit(f[i].suit)
  {
    forall i | 0 <= i < 5 ensures 2 <= V(f[i]) <= MAX_RANK && f[i] in hand && IsSuit(f[i].suit) {
      assert f[i] in f;
      assert Standard(f[i]);
    }
  }

  lemma {:induction false} FlushIsFromASuit(hand: seq<Card>, s: nat)
    ensures BestFlush(hand, s) != [] ==>
              exists t :: 1 <= t <= s && BestFlush(hand, s) == SuitRanks(hand, t)
  {
    if s > 0 {
      FlushIsFromASuit(hand, s - 1);
      assert BestFlush(hand, s) == BestFlush(hand, s - 1) || BestFlush(hand, s) == SuitRanks(hand, s);
    }
  }

  lemma FlushDigits(ranks: seq<nat>, hand: seq<Card>, s: nat)
    requires ranks == SuitRanks(hand, s) && |ranks| >= 5
    ensures Digits(FlushValue(ranks))
  {
  }

  lemma StraightFlushFits(hand: seq<Card>, s: nat)
    ensures BestStraightFlush(hand, s) <= MAX_RANK
  {
    if s > 0 {
      StraightFlushFits(hand, s - 1);
      TopStraightIs(SuitRanks(hand, s), MAX_RANK);
    }
  }

  lemma BestFlushDigits(hand: seq<Card>)
    ensures BestFlush(hand, CLUBS) != [] ==> Digits(FlushValue(BestFlush(hand, CLUBS)))
  {
    FlushIsFromASuit(hand, CLUBS);
    var flush := BestFlush(hand, CLUBS);
    if flush != [] {
      var t :| 1 <= t <= CLUBS && flush == SuitRanks(hand, t);
      FlushDigits(flush, hand, t);
    }
  }

  lemma LadderDigits(hand: seq<Card>)
    ensures Digits(Classify(hand)) && 1 <= Classify(hand).rank <= 9
  {
    TopStraightIs(RanksOf(hand), MAX_RANK);
    TopCountIs(hand, 4, MAX_RANK);
    TopCountIs(hand, 3, MAX_RANK);
    PairsAreHigh(hand);
    StraightFlushFits(hand, CLUBS);
    BestFlushDigits(hand);
  }

  /** A weaker category never outscores a stronger one. */
  lemma LowerCategory(hand: seq<Card>, f: seq<Card>, category: nat)
    requires Claim(hand, f, category) && category < Classify(hand).rank
    ensures Below(f, category, Classify(hand))
  {
    CardValues(hand, f, category);
    LadderDigits(hand);
  }

  // ---- Flushes and straights ----

  lemma SuitOf(hand: seq<Card>, f: seq<Card>, category: nat)
    requires Claim(hand, f, category) && OneSuit(f)
    ensures |SuitRanks(hand, f[0].suit)| >= 5
    ensures forall i | 0 <= i < 5 :: V(f[i]) in SuitRanks(hand, f[0].suit)
    ensures Descending(f) ==> forall i | 0 <= i < 5 :: V(f[i]) <= SuitRanks(hand, f[0].suit)[i]
  {
    var p := OfSuit(f[0].suit);
    var suited := Filter(hand, p);
    FilterKeeps(hand, p);
    FilterOrder(hand, p);
    assert forall c | c in f :: c in suited;
    FitsIn(f, suited);
    forall i | 0 <= i < 5 ensures V(f[i]) in SuitRanks(hand, f[0].suit) {
      assert f[i] in f;
      var k :| 0 <= k < |suited| && suited[k] == f[i];
      assert SuitRanks(hand, f[0].suit)[k] == V(f[i]);
    }
    if Descending(f) {
      forall i | 0 <= i < 5 ensures V(f[i]) <= SuitRanks(hand, f[0].suit)[i] {
        Dominated(f, suited, i);
      }
    }
  }

  lemma {:induction false} BestFlushBeats(hand: seq<Card>, s: nat, t: nat)
    requires 1 <= t <= s && |SuitRanks(hand, t)| >= 5
    ensures BestFlush(hand, s) != []
    ensures Score(FlushValue(SuitRanks(hand, t))) <= Score(FlushValue(BestFlush(hand, s)))
  {
    var ranks := SuitRanks(hand, s);
    if t < s {
      BestFlushBeats(hand, s - 1, t);
    }
    FlushIsFromASuit(hand, s - 1);
    var before := BestFlush(hand, s - 1);
    if |ranks| >= 5 && before != [] {
      var u :| 1 <= u <= s - 1 && before == SuitRanks(hand, u);
      FlushDigits(before, hand, u);
      FlushDigits(ranks, hand, s);
      ScoreOrderIsLexicographic(FlushValue(before), FlushValue(ranks));
    }
  }

  lemma {:induction false} BestStraightFlushBeats(hand: seq<Card>, s: nat, t: nat)
    requires 1 <= t <= s && |SuitRanks(hand, t)| >= 5
    ensures StraightHigh(SuitRanks(hand, t)) <= BestStraightFlush(hand, s)
  {
    if t < s {
      BestStraightFlushBeats(hand, s - 1, t);
    }
  }

  lemma StraightFlushBound(hand: seq<Card>, f: seq<Card>)
    requires Claim(hand, f, STRAIGHT_FLUSH)
    ensures Below(f, STRAIGHT_FLUSH, Classify(hand))
  {
    CardValues(hand, f, STRAIGHT_FLUSH);
    SuitOf(hand, f, STRAIGHT_FLUSH);
    var ranks := SuitRanks(hand, f[0].suit);
    assert HasStraight(ranks, V(f[0]));
    TopStraightIs(ranks, MAX_RANK);
    BestStraightFlushBeats(hand, CLUBS, f[0].suit);
  }

  lemma FlushBound(hand: seq<Card>, f: seq<Card>)
    requires Claim(hand, f, FLUSH)
    ensures Below(f, FLUSH, Classify(hand))
  {
    CardValues(hand, f, FLUSH);
    SuitOf(hand, f, FLUSH);
    BestFlushBeats(hand, CLUBS, f[0].suit);
    if Classify(hand).rank > FLUSH {
      LowerCategory(hand, f, FLUSH);
    } else {
      assert Descending(f);
      assert Classify(hand) == FlushValue(BestFlush(hand, CLUBS));
      assert Score(ReadAs(f, FLUSH)) <= Score(FlushValue(SuitRanks(hand, f[0].suit)));
    }
  }

  lemma StraightBound(hand: seq<Card>, f: seq<Card>)
    requires Claim(hand, f, STRAIGHT)
    ensures Below(f, STRAIGHT, Classify(hand))
  {
    CardValues(hand, f, STRAIGHT);
    var ranks := RanksOf(hand);
    forall i | 0 <= i < 5 ensures V(f[i]) in ranks {
      var k :| 0 <= k < |hand| && hand[k] == f[i];
      assert ranks[k] == V(f[i]);
    }
    assert HasStraight(ranks, V(f[0]));
    TopStraightIs(ranks, MAX_RANK);
    if Classify(hand).rank > STRAIGHT {
      LowerCategory(hand, f, STRAIGHT);
    }
  }

  // ---- Rank groups ----

  /** n cards of f from place i on share a rank. */
  lemma GroupCount(hand: seq<Card>, f: seq<Card>, category: nat, i: nat, n: nat)
    requires Claim(hand, f, category) && i + n <= 5 && n > 0
    requires forall k | i <= k < i + n :: V(f[k]) == V(f[i])
    ensures n <= Count(hand, V(f[i])) <= 4
  {
    var e := f[i..i + n];
    forall c | c in e ensures c in hand && V(c) == V(f[i]) {
      var k :| 0 <= k < n && e[k] == c;
      assert c == f[i + k];
      assert c in f;
    }
    CountAtLeast(hand, e, V(f[i]));
    CountAtMostFour(hand, V(f[i]));
  }

  /** Five cards of f cannot share a rank with a group that fills it. */
  lemma GroupEnds(hand: seq<Card>, f: seq<Card>, category: nat, i: nat, n: nat, k: nat)
    requires Claim(hand, f, category) && i + n <= k < 5 && n > 0
    requires forall j | i <= j < i + n :: V(f[j]) == V(f[i])
    ensures V(f[k]) == V(f[i]) ==> Count(hand, V(f[i])) > n
  {
    if V(f[k]) == V(f[i]) {
      var e := f[i..i + n] + [f[k]];
      forall c | c in e ensures c in hand && V(c) == V(f[i]) {
        var j :| 0 <= j <= n && e[j] == c;
        assert c == if j < n then f[i + j] else f[k];
        assert c in f;
      }
      forall a, b | 0 <= a < b < |e| ensures e[a] != e[b] {
        assert e[a] == f[i + a];
        assert e[b] == if b < n then f[i + b] else f[k];
      }
      CountAtLeast(hand, e, V(f[i]));
    }
  }

  lemma QuadBound(hand: seq<Card>, f: seq<Card>)
    requires Claim(hand, f, FOUR_OF_A_KIND)
    ensures Below(f, FOUR_OF_A_KIND, Classify(hand))
  {
    CardValues(hand, f, FOUR_OF_A_KIND);
    GroupCount(hand, f, FOUR_OF_A_KIND, 0, 4);
    GroupEnds(hand, f, FOUR_OF_A_KIND, 0, 4, 4);
    TopCountIs(hand, 4, MAX_RANK);
    LadderDigits(hand);
    if V(f[0]) == QuadRank(hand) {
      KickerBound(hand, {QuadRank(hand)}, f[4..], 0);
    }
  }

  lemma FullHouseBound(hand: seq<Card>, f: seq<Card>)
    requires Claim(hand, f, FULL_HOUSE)
    ensures Below(f, FULL_HOUSE, Classify(hand))
  {
    CardValues(hand, f, FULL_HOUSE);
    GroupCount(hand, f, FULL_HOUSE, 0, 3);
    GroupCount(hand, f, FULL_HOUSE, 3, 2);
    if V(f[3]) == V(f[0]) {
      GroupCount(hand, f, FULL_HOUSE, 0, 5);
    }
    TopCountIs(hand, 4, MAX_RANK);
    TopCountIs(hand, 3, MAX_RANK);
    PairsAreHigh(hand);
    if Classify(hand).rank > FULL_HOUSE {
      LowerCategory(hand, f, FULL_HOUSE);
    } else {
      var trip, pairs := TripRank(hand), Pairs(hand);
      assert Count(hand, V(f[0])) == 3 && V(f[0]) <= trip;
      assert V(f[0]) == trip || IsPairRank(hand, trip, V(f[0]));
      assert V(f[0]) == trip ==> IsPairRank(hand, trip, V(f[3]));
      assert Classify(hand) == HandValue(FULL_HOUSE, trip, trip, trip, pairs[0], pairs[0]);
    }
  }

  /** The first pair rank is the highest, and the second the highest below it. */
  lemma PairsAreHigh(hand: seq<Card>)
    ensures var pairs := Pairs(hand);
            && (forall x | 2 <= x <= MAX_RANK && IsPairRank(hand, TripRank(hand), x) :: |pairs| > 0 && x <= pairs[0])
            && (forall x | 2 <= x <= MAX_RANK && IsPairRank(hand, TripRank(hand), x) && x != pairs[0] ::
                  |pairs| > 1 && x <= pairs[1])
            && (forall i | 0 <= i < |pairs| :: 2 <= pairs[i] <= MAX_RANK && IsPairRank(hand, TripRank(hand), pairs[i]))
            && (|pairs| > 1 ==> pairs[0] > pairs[1])
  {
    var pairs := Pairs(hand);
    PairsFromAre(hand, TripRank(hand), MAX_RANK);
    forall x | 2 <= x <= MAX_RANK && IsPairRank(hand, TripRank(hand), x)
      ensures |pairs| > 0 && x <= pairs[0]
      ensures x != pairs[0] ==> |pairs| > 1 && x <= pairs[1]
    {
      assert x in pairs;
      var i :| 0 <= i < |pairs| && pairs[i] == x;
    }
    forall i | 0 <= i < |pairs|
      ensures 2 <= pairs[i] <= MAX_RANK && IsPairRank(hand, TripRank(hand), pairs[i])
    {
      assert pairs[i] in pairs;
    }
  }

  /** The cards of f behind a group are no better than the kickers the ladder picks. */
  lemma TrailBound(hand: seq<Card>, f: seq<Card>, category: nat, n: nat, exclude: set<nat>)
    requires Claim(hand, f, category) && n < 5 && Descending(f[n..])
    requires forall k | n <= k < 5 :: V(f[k]) !in exclude
    ensures forall k | n <= k < 5 :: V(f[k]) <= Kicker(hand, exclude, k - n)
  {
    var e := f[n..];
    forall c | c in e ensures c in hand && V(c) !in exclude {
      var k :| 0 <= k < |e| && e[k] == c;
      assert c == f[n + k];
      assert c in f;
    }
    forall k | n <= k < 5 ensures V(f[k]) <= Kicker(hand, exclude, k - n) {
      KickerBound(hand, exclude, e, k - n);
      assert e[k - n] == f[k];
    }
  }

  lemma TripsRung(hand: seq<Card>, f: seq<Card>)
    requires Claim(hand, f, THREE_OF_A_KIND)
    ensures Classify(hand).rank >= THREE_OF_A_KIND
    ensures Classify(hand).rank == THREE_OF_A_KIND ==> V(f[0]) == TripRank(hand) && Count(hand, V(f[0])) == 3
  {
    CardValues(hand, f, THREE_OF_A_KIND);
    GroupCount(hand, f, THREE_OF_A_KIND, 0, 3);
    TopCountIs(hand, 4, MAX_RANK);
    TopCountIs(hand, 3, MAX_RANK);
    PairsAreHigh(hand);
    var r, trip := V(f[0]), TripRank(hand);
    assert Count(hand, r) == 4 || r == trip || IsPairRank(hand, trip, r);
  }

  lemma TripsBound(hand: seq<Card>, f: seq<Card>)
    requires Claim(hand, f, THREE_OF_A_KIND)
    ensures Below(f, THREE_OF_A_KIND, Classify(hand))
  {
    TripsRung(hand, f);
    if Classify(hand).rank > THREE_OF_A_KIND {
      LowerCategory(hand, f, THREE_OF_A_KIND);
    } else {
      GroupEnds(hand, f, THREE_OF_A_KIND, 0, 3, 3);
      GroupEnds(hand, f, THREE_OF_A_KIND, 0, 3, 4);
      TrailBound(hand, f, THREE_OF_A_KIND, 3, {TripRank(hand)});
    }
  }

  lemma TwoPairRung(hand: seq<Card>, f: seq<Card>)
    requires Claim(hand, f, TWO_PAIR)
    ensures Classify(hand).rank >= TWO_PAIR
    ensures Classify(hand).rank == TWO_PAIR ==>
              var pairs := Pairs(hand);
              && |pairs| >= 2 && Digits(Classify(hand))
              && Count(hand, V(f[0])) == 2 && Count(hand, V(f[2])) == 2
              && (V(f[0]) < pairs[0] || (V(f[0]) == pairs[0] && V(f[2]) <= pairs[1]))
  {
    CardValues(hand, f, TWO_PAIR);
    GroupCount(hand, f, TWO_PAIR, 0, 2);
    GroupCount(hand, f, TWO_PAIR, 2, 2);
    if V(f[2]) == V(f[0]) {
      GroupCount(hand, f, TWO_PAIR, 0, 4);
    }
    TopCountIs(hand, 4, MAX_RANK);
    TopCountIs(hand, 3, MAX_RANK);
    PairsAreHigh(hand);
    LadderDigits(hand);
    var r, t, trip := V(f[0]), V(f[2]), TripRank(hand);
    assert Count(hand, r) == 4 || r == trip || IsPairRank(hand, trip, r);
    assert Count(hand, t) == 4 || t == trip || IsPairRank(hand, trip, t);
    assert Classify(hand).rank <= TWO_PAIR ==> trip == 0 && QuadRank(hand) == 0;
  }

  lemma TwoPairBound(hand: seq<Card>, f: seq<Card>)
    requires Claim(hand, f, TWO_PAIR)
    ensures Below(f, TWO_PAIR, Classify(hand))
  {
    TwoPairRung(hand, f);
    CardValues(hand, f, TWO_PAIR);
    if Classify(hand).rank > TWO_PAIR {
      LowerCategory(hand, f, TWO_PAIR);
    } else {
      var pairs := Pairs(hand);
      if V(f[0]) == pairs[0] && V(f[2]) == pairs[1] {
        GroupEnds(hand, f, TWO_PAIR, 0, 2, 4);
        GroupEnds(hand, f, TWO_PAIR, 2, 2, 4);
        TrailBound(hand, f, TWO_PAIR, 4, {pairs[0], pairs[1]});
      }
    }
  }

  lemma PairRung(hand: seq<Card>, f: seq<Card>)
    requires Claim(hand, f, PAIR)
    ensures Classify(hand).rank >= PAIR
    ensures Classify(hand).rank == PAIR ==>
              |Pairs(hand)| == 1 && V(f[0]) == Pairs(hand)[0] && Count(hand, V(f[0])) == 2
  {
    CardValues(hand, f, PAIR);
    GroupCount(hand, f, PAIR, 0, 2);
    TopCountIs(hand, 4, MAX_RANK);
    TopCountIs(hand, 3, MAX_RANK);
    PairsAreHigh(hand);
    var r, trip := V(f[0]), TripRank(hand);
    assert Count(hand, r) == 4 || r == trip || IsPairRank(hand, trip, r);
    assert Classify(hand).rank == PAIR ==> trip == 0 && QuadRank(hand) == 0;
  }

  lemma PairBound(hand: seq<Card>, f: seq<Card>)
    requires Claim(hand, f, PAIR)
    ensures Below(f, PAIR, Classify(hand))
  {
    PairRung(hand, f);
    if Classify(hand).rank > PAIR {
      LowerCategory(hand, f, PAIR);
    } else {
      GroupEnds(hand, f, PAIR, 0, 2, 2);
      GroupEnds(hand, f, PAIR, 0, 2, 3);
      GroupEnds(hand, f, PAIR, 0, 2, 4);
      TrailBound(hand, f, PAIR, 2, {Pairs(hand)[0]});
    }
  }

  lemma HighCardBound(hand: seq<Card>, f: seq<Card>)
    requires Claim(hand, f, HIGH_CARD)
    ensures Below(f, HIGH_CARD, Classify(hand))
  {
    LadderDigits(hand);
    if Classify(hand).rank > HIGH_CARD {
      LowerCategory(hand, f, HIGH_CARD);
    } else {
      assert f[0..] == f;
      TrailBound(hand, f, HIGH_CARD, 0, {});
    }
  }

  /** Nothing readable off five cards of the hand beats the ladder. */
  lemma NoReadingIsBetter(hand: seq<Card>, f: seq<Card>, category: nat)
    requires Claim(hand, f, category)
    ensures Below(f, category, Classify(hand))
  {
    match category
    case 1 => HighCardBound(hand, f);
    case 2 => PairBound(hand, f);
    case 3 => TwoPairBound(hand, f);
    case 4 => TripsBound(hand, f);
    case 5 => StraightBound(hand, f);
    case 6 => FlushBound(hand, f);
    case 7 => FullHouseBound(hand, f);
    case 8 => QuadBound(hand, f);
    case 9 => StraightFlushBound(hand, f);
  }

  // ---- Reaching the ladder's value ----

  ghost predicate Drawn(hand: seq<Card>, e: seq<Card>) {
    Distinct(e) && forall c | c in e :: c in hand
  }

  lemma FilterIsDrawn(hand: seq<Card>, p: Pick)
    requires Playable(hand) && Descending(hand)
    ensures var kept := Filter(hand, p);
            Drawn(hand, kept) && Descending(kept) && forall i | 0 <= i < |kept| :: Picks(p, kept[i])
  {
    FilterKeeps(hand, p);
    FilterOrder(hand, p);
    var kept := Filter(hand, p);
    assert forall i | 0 <= i < |kept| :: kept[i] in kept;
  }

  /** Joins two lists of cards whose ranks do not meet. */
  lemma Join(hand: seq<Card>, e: seq<Card>, d: seq<Card>)
    requires Drawn(hand, e) && Drawn(hand, d)
    requires forall i, j | 0 <= i < |e| && 0 <= j < |d| :: V(e[i]) != V(d[j])
    ensures Drawn(hand, e + d)
  {
  }

  lemma {:induction false} RestSize(hand: seq<Card>, r: nat, t: nat)
    requires r != t
    ensures |Filter(hand, NotRanks({r}))| + Count(hand, r) == |hand|
    ensures |Filter(hand, NotRanks({r, t}))| + Count(hand, r) + Count(hand, t) == |hand|
    ensures Filter(hand, NotRanks({})) == hand
  {
    if hand != [] {
      RestSize(hand[..|hand| - 1], r, t);
      assert hand == hand[..|hand| - 1] + [hand[|hand| - 1]];
    }
  }

  /** n cards of rank r followed by the best five - n others. */
  lemma GroupAndRest(hand: seq<Card>, r: nat, n: nat) returns (f: seq<Card>)
    requires Playable(hand) && Descending(hand) && |hand| >= 5 && 0 < n <= 4 && Count(hand, r) == n
    ensures |f| == 5 && Drawn(hand, f) && Descending(f[n..])
    ensures forall k | 0 <= k < n :: V(f[k]) == r
    ensures forall k | n <= k < 5 :: V(f[k]) == Kicker(hand, {r}, k - n)
  {
    var same, rest := Filter(hand, OfRank(r)), Filter(hand, NotRanks({r}));
    FilterIsDrawn(hand, OfRank(r));
    FilterIsDrawn(hand, NotRanks({r}));
    RestSize(hand, r, r + 1);
    Join(hand, same, rest[..5 - n]);
    f := same + rest[..5 - n];
    assert f[n..] == rest[..5 - n];
  }

  lemma TwoGroups(hand: seq<Card>, r: nat, n: nat, t: nat, m: nat) returns (f: seq<Card>)
    requires Playable(hand) && Descending(hand)
    requires r != t && Count(hand, r) >= n && Count(hand, t) >= m
    ensures |f| == n + m && Drawn(hand, f)
    ensures forall k | 0 <= k < n :: V(f[k]) == r
    ensures forall k | n <= k < n + m :: V(f[k]) == t
  {
    FilterIsDrawn(hand, OfRank(r));
    FilterIsDrawn(hand, OfRank(t));
    var e, d := Filter(hand, OfRank(r))[..n], Filter(hand, OfRank(t))[..m];
    Join(hand, e, d);
    f := e + d;
  }

  lemma TwoPairsAndRest(hand: seq<Card>, r: nat, t: nat) returns (f: seq<Card>)
    requires Playable(hand) && Descending(hand) && |hand| >= 5
    requires r > t && Count(hand, r) == 2 && Count(hand, t) == 2
    ensures |f| == 5 && Drawn(hand, f)
    ensures V(f[0]) == V(f[1]) == r && V(f[2]) == V(f[3]) == t && V(f[4]) == Kicker(hand, {r, t}, 0)
  {
    var e := TwoGroups(hand, r, 2, t, 2);
    FilterIsDrawn(hand, NotRanks({r, t}));
    RestSize(hand, r, t);
    var d := Filter(hand, NotRanks({r, t}))[..1];
    Join(hand, e, d);
    f := e + d;
  }

  lemma CardOfRank(hand: seq<Card>, x: nat) returns (c: Card)
    requires x in RanksOf(hand)
    ensures c in hand && V(c) == x
  {
    var k :| 0 <= k < |hand| && RanksOf(hand)[k] == x;
    c := hand[k];
  }

  lemma StraightCards(hand: seq<Card>, high: nat) returns (f: seq<Card>)
    requires HasStraight(RanksOf(hand), high)
    ensures |f| == 5 && Drawn(hand, f) && Consecutive(f) && V(f[0]) == high
  {
    var c0 := CardOfRank(hand, high);
    var c1 := CardOfRank(hand, high - 1);
    var c2 := CardOfRank(hand, high - 2);
    var c3 := CardOfRank(hand, high - 3);
    var c4 := CardOfRank(hand, if high == 5 then MAX_RANK else high - 4);
    f := [c0, c1, c2, c3, c4];
  }

  lemma {:induction false} StraightFlushSuit(hand: seq<Card>, s: nat) returns (t: nat)
    ensures BestStraightFlush(hand, s) > 0 ==>
              HasStraight(SuitRanks(hand, t), BestStraightFlush(hand, s))
  {
    t := s;
    if s > 0 {
      TopStraightIs(SuitRanks(hand, s), MAX_RANK);
      if BestStraightFlush(hand, s) == BestStraightFlush(hand, s - 1) {
        t := StraightFlushSuit(hand, s - 1);
      }
    }
  }

  lemma StraightFlushReading(hand: seq<Card>) returns (f: seq<Card>)
    requires Playable(hand) && Descending(hand) && Classify(hand).rank == STRAIGHT_FLUSH
    ensures Reads(hand, f, STRAIGHT_FLUSH) && ReadAs(f, STRAIGHT_FLUSH) == Classify(hand)
  {
    BestFlushDigits(hand);
    var t := StraightFlushSuit(hand, CLUBS);
    FilterIsDrawn(hand, OfSuit(t));
    FilterKeeps(hand, OfSuit(t));
    f := StraightCards(Filter(hand, OfSuit(t)), BestStraightFlush(hand, CLUBS));
    forall i | 0 <= i < 5 ensures f[i].suit == t {
      assert f[i] in f;
    }
  }

  lemma FlushReading(hand: seq<Card>) returns (f: seq<Card>)
    requires Playable(hand) && Descending(hand) && Classify(hand).rank == FLUSH
    ensures Reads(hand, f, FLUSH) && ReadAs(f, FLUSH) == Classify(hand)
  {
    FlushIsFromASuit(hand, CLUBS);
    var t :| 1 <= t <= CLUBS && BestFlush(hand, CLUBS) == SuitRanks(hand, t);
    var suited := Filter(hand, OfSuit(t));
    FilterIsDrawn(hand, OfSuit(t));
    f := suited[..5];
    assert forall i | 0 <= i < 5 :: f[i] == suited[i];
  }

  lemma HighCardReading(hand: seq<Card>) returns (f: seq<Card>)
    requires Playable(hand) && Descending(hand) && |hand| >= 5 && Classify(hand).rank == HIGH_CARD
    ensures Reads(hand, f, HIGH_CARD) && ReadAs(f, HIGH_CARD) == Classify(hand)
  {
    RestSize(hand, 0, 1);
    f := hand[..5];
  }

  lemma PairReading(hand: seq<Card>) returns (f: seq<Card>)
    requires Playable(hand) && Descending(hand) && |hand| >= 5 && Classify(hand).rank == PAIR
    ensures Reads(hand, f, PAIR) && ReadAs(f, PAIR) == Classify(hand)
  {
    PairsAreHigh(hand);
    TopCountIs(hand, 3, MAX_RANK);
    assert TripRank(hand) == 0;
    f := GroupAndRest(hand, Pairs(hand)[0], 2);
  }

  lemma TwoPairReading(hand: seq<Card>) returns (f: seq<Card>)
    requires Playable(hand) && Descending(hand) && |hand| >= 5 && Classify(hand).rank == TWO_PAIR
    ensures Reads(hand, f, TWO_PAIR) && ReadAs(f, TWO_PAIR) == Classify(hand)
  {
    PairsAreHigh(hand);
    TopCountIs(hand, 3, MAX_RANK);
    assert TripRank(hand) == 0;
    f := TwoPairsAndRest(hand, Pairs(hand)[0], Pairs(hand)[1]);
  }

  lemma TripsReading(hand: seq<Card>) returns (f: seq<Card>)
    requires Playable(hand) && Descending(hand) && |hand| >= 5 && Classify(hand).rank == THREE_OF_A_KIND
    ensures Reads(hand, f, THREE_OF_A_KIND) && ReadAs(f, THREE_OF_A_KIND) == Classify(hand)
  {
    TopCountIs(hand, 3, MAX_RANK);
    f := GroupAndRest(hand, TripRank(hand), 3);
  }

  lemma FullHouseReading(hand: seq<Card>) returns (f: seq<Card>)
    requires Playable(hand) && Descending(hand) && |hand| >= 5 && Classify(hand).rank == FULL_HOUSE
    ensures Reads(hand, f, FULL_HOUSE) && ReadAs(f, FULL_HOUSE) == Classify(hand)
  {
    PairsAreHigh(hand);
    TopCountIs(hand, 3, MAX_RANK);
    f := TwoGroups(hand, TripRank(hand), 3, Pairs(hand)[0], 2);
  }

  lemma QuadReading(hand: seq<Card>) returns (f: seq<Card>)
    requires Playable(hand) && Descending(hand) && |hand| >= 5 && Classify(hand).rank == FOUR_OF_A_KIND
    ensures Reads(hand, f, FOUR_OF_A_KIND) && ReadAs(f, FOUR_OF_A_KIND) == Classify(hand)
  {
    TopCountIs(hand, 4, MAX_RANK);
    f := GroupAndRest(hand, QuadRank(hand), 4);
  }

  lemma StraightReading(hand: seq<Card>) returns (f: seq<Card>)
    requires Playable(hand) && Classify(hand).rank == STRAIGHT
    ensures Reads(hand, f, STRAIGHT) && ReadAs(f, STRAIGHT) == Classify(hand)
  {
    TopStraightIs(RanksOf(hand), MAX_RANK);
    f := StraightCards(hand, StraightHigh(RanksOf(hand)));
  }

  /** Five cards of the hand do show what the ladder says. */
  lemma SomeReadingReaches(hand: seq<Card>) returns (f: seq<Card>)
    requires Playable(hand) && Descending(hand) && |hand| >= 5
    ensures Reads(hand, f, Classify(hand).rank) && ReadAs(f, Classify(hand).rank) == Classify(hand)
  {
    LadderDigits(hand);
    match Classify(hand).rank
    case 1 => f := HighCardReading(hand);
    case 2 => f := PairReading(hand);
    case 3 => f := TwoPairReading(hand);
    case 4 => f := TripsReading(hand);
    case 5 => f := StraightReading(hand);
    case 6 => f := FlushReading(hand);
    case 7 => f := FullHouseReading(hand);
    case 8 => f := QuadReading(hand);
    case 9 => f := StraightFlushReading(hand);
  }

  // ---- Any order ----

  lemma {:induction false} InsertAddsOne(c: Card, sorted: seq<Card>)
    ensures multiset(Insert(c, sorted)) == multiset{c} + multiset(sorted)
  {
    if sorted != [] && V(sorted[0]) >= V(c) {
      InsertAddsOne(c, sorted[1..]);
      assert sorted == [sorted[0]] + sorted[1..];
    }
  }

  lemma {:induction false} InsertKeepsOrder(c: Card, sorted: seq<Card>)
    requires Descending(sorted)
    ensures Descending(Insert(c, sorted))
  {
    if sorted != [] && V(sorted[0]) >= V(c) {
      InsertKeepsOrder(c, sorted[1..]);
      InsertAddsOne(c, sorted[1..]);
      var rest := Insert(c, sorted[1..]);
      forall i | 0 <= i < |rest| ensures V(sorted[0]) >= V(rest[i]) {
        assert rest[i] in multiset(rest);
        assert rest[i] == c || rest[i] in sorted[1..];
      }
    }
  }

  lemma {:induction false} SortKeepsCards(hand: seq<Card>)
    ensures Descending(SortByRank(hand))
    ensures multiset(SortByRank(hand)) == multiset(hand)
  {
    if hand != [] {
      var init := hand[..|hand| - 1];
      assert hand == init + [hand[|hand| - 1]];
      SortKeepsCards(init);
      InsertAddsOne(hand[|hand| - 1], SortByRank(init));
      InsertKeepsOrder(hand[|hand| - 1], SortByRank(init));
    }
  }

  lemma PlayableInAnyOrder(hand: seq<Card>, other: seq<Card>)
    requires Playable(hand) && multiset(hand) == multiset(other)
    ensures Playable(other) && |other| == |hand|
    ensures forall c :: c in hand <==> c in other
  {
    forall c ensures c in hand <==> c in other {
      assert c in multiset(hand) <==> c in multiset(other);
    }
    forall c ensures multiset(other)[c] <= 1 {
      DistinctCountsOnce(hand, c);
    }
    CountedOnceIsDistinct(other);
  }

  /** The best score readable off five cards of the hand. */
  ghost predicate IsBestScore(hand: seq<Card>, score: nat) {
    && (exists f, category :: Reads(hand, f, category) && Score(ReadAs(f, category)) == score)
    && (forall f, category | Reads(hand, f, category) :: Score(ReadAs(f, category)) <= score)
  }

  /** For every duplicate-free hand of five or more standard cards, in any order. */
  lemma EvaluateIsBest(hand: seq<Card>)
    requires Playable(hand) && |hand| >= 5
    ensures IsBestScore(hand, Evaluate(hand))
  {
    var sorted := SortByRank(hand);
    SortKeepsCards(hand);
    PlayableInAnyOrder(hand, sorted);
    var f := SomeReadingReaches(sorted);
    var category := Classify(sorted).rank;
    assert Reads(hand, f, category) && Score(ReadAs(f, category)) == Evaluate(hand);
    forall f, category | Reads(hand, f, category) ensures Score(ReadAs(f, category)) <= Evaluate(hand) {
      NoReadingIsBetter(sorted, f, category);
    }
  }

  /** Reordering a hand never changes its score. */
  lemma OrderDoesNotMatter(hand: seq<Card>, other: seq<Card>)
    requires Playable(hand) && multiset(hand) == multiset(other)
    ensures Evaluate(hand) == Evaluate(other)
  {
    PlayableInAnyOrder(hand, other);
    if |hand| >= 5 {
      EvaluateIsBest(hand);
      EvaluateIsBest(other);
      var f, category :| Reads(hand, f, category) && Score(ReadAs(f, category)) == Evaluate(hand);
      var g, kind :| Reads(other, g, kind) && Score(ReadAs(g, kind)) == Evaluate(other);
      assert Reads(other, f, category) && Reads(hand, g, kind);
    }
  }
}
