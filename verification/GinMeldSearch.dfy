/** The search for the best split of a hand: every disjoint choice of candidate melds, cut short at a perfect score. */
module GinMeldSearch {
  import opened Cards
  import opened GinMelds
  import opened GinMeldMasks

  // Candidate masks are 16 bits wide.
  const MASK_BITS := 16
  const MAX_INT := 0x7FFF_FFFF_FFFF_FFFF

  // ---- Families of melds ----

  ghost predicate PairwiseDisjoint(masks: seq<Mask>) {
    forall a, b | 0 <= a < b < |masks| :: masks[a] !! masks[b]
  }

  function UnionOf(masks: seq<Mask>): Mask {
    if masks == [] then {} else UnionOf(masks[..|masks| - 1]) + masks[|masks| - 1]
  }

  /** Disjoint melds of a hand, in no particular order. */
  ghost predicate MeldFamily(hand: seq<Card>, family: set<Mask>) {
    && (forall m | m in family :: MeldMask(hand, m))
    && (forall a, b | a in family && b in family && a != b :: a !! b)
  }

  ghost function Union(family: set<Mask>): Mask {
    set m, i | m in family && i in m :: i
  }

  /** What the search may still choose: candidates from start on, clear of used and of each other. */
  ghost predicate Compatible(candidates: seq<Mask>, start: nat, used: Mask, picks: set<nat>) {
    && (forall p | p in picks :: start <= p < |candidates| && candidates[p] !! used)
    && (forall p, q | p in picks && q in picks && p != q :: p < |candidates| && q < |candidates| &&
          candidates[p] !! candidates[q])
  }

  ghost function Covered(candidates: seq<Mask>, picks: set<nat>): Mask {
    set p, i | p in picks && 0 <= p < |candidates| && i in candidates[p] :: i
  }

  ghost predicate Early(picks: set<nat>, i: nat) {
    exists p :: p in picks && p < i
  }

  lemma TakingFirst(candidates: seq<Mask>, start: nat, used: Mask, picks: set<nat>, i: nat)
    requires start <= i < |candidates| && Compatible(candidates, start, used, picks)
    requires i in picks && !Early(picks, i)
    ensures candidates[i] !! used
    ensures Compatible(candidates, i + 1, used + candidates[i], picks - {i})
    ensures used + Covered(candidates, picks) == used + candidates[i] + Covered(candidates, picks - {i})
  {
    forall p | p in picks - {i} ensures i + 1 <= p {
      assert !(p < i);
    }
  }

  class MeldSearch {
    const cards: seq<Card>
    const candidates: seq<Mask>
    const score: seq<Card> -> nat
    var bestPts: nat
    var bestMasks: seq<Mask>

    constructor (cards: seq<Card>, candidates: seq<Mask>, score: seq<Card> -> nat)
      ensures this.cards == cards && this.candidates == candidates && this.score == score
      ensures bestPts == MAX_INT && bestMasks == []
    {
      this.cards, this.candidates, this.score := cards, candidates, score;
      bestPts, bestMasks := MAX_INT, [];
    }

    /** Candidates that fit together. */
    ghost predicate Family(masks: seq<Mask>) {
      PairwiseDisjoint(masks) && forall m | m in masks :: m in candidates
    }

    /** The best split so far is one the candidates allow, at the score recorded. */
    ghost predicate Sound()
      reads this
    {
      bestPts < MAX_INT ==> Family(bestMasks) && bestPts == score(Left(cards, UnionOf(bestMasks)))
    }

    method Unused(used: Mask) returns (buf: seq<Card>)
      ensures buf == Left(cards, used)
    {
      buf := [];
      for i := 0 to |cards|
        invariant buf == PickedUpTo(cards, Range(|cards|) - used, i)
      {
        if i !in used {
          buf := buf + [cards[i]];
        }
      }
    }

    method Search(start: nat, used: Mask, chosen: seq<Mask>)
      requires start <= |candidates| && Family(chosen) && UnionOf(chosen) == used && Sound()
      modifies this
      ensures Sound() && bestPts <= old(bestPts)
      ensures Unbeaten(bestPts, cards, candidates, score, start, used, |candidates|)
      decreases |candidates| - start
    {
      var buf := Unused(used);
      var pts := score(buf);
      if pts < bestPts {
        bestPts := pts;
        bestMasks := chosen;
      }
      if pts == 0 {
        return;
      }
      UnbeatenAtFirst(bestPts, cards, candidates, score, start, used);
      for i := start to |candidates|
        invariant Sound() && bestPts <= old(bestPts)
        invariant Unbeaten(bestPts, cards, candidates, score, start, used, i)
      {
        var m := candidates[i];
        ghost var before := bestPts;
        if used !! m {
          FamilyGrows(chosen, m);
          Search(i + 1, used + m, chosen + [m]);
          UnbeatenTaking(before, bestPts, cards, candidates, score, start, used, i);
        } else {
          UnbeatenSkipping(bestPts, cards, candidates, score, start, used, i);
        }
      }
    }

    lemma FamilyGrows(chosen: seq<Mask>, m: Mask)
      requires Family(chosen) && m in candidates && UnionOf(chosen) !! m
      ensures Family(chosen + [m]) && UnionOf(chosen + [m]) == UnionOf(chosen) + m
    {
      assert (chosen + [m])[..|chosen|] == chosen;
      forall a: nat | a < |chosen| ensures chosen[a] !! m {
        UnionHolds(chosen, a);
      }
    }
  }

  /** No compatible choice scores less than pts: not the empty one, nor any that starts before a position. */
  ghost predicate Unbeaten(pts: nat, cards: seq<Card>, candidates: seq<Mask>, score: seq<Card> -> nat, start: nat,
                           used: Mask, before: nat)
  {
    forall picks | Compatible(candidates, start, used, picks) && (picks == {} || Early(picks, before)) ::
      pts <= score(Left(cards, used + Covered(candidates, picks)))
  }

  lemma UnbeatenAtFirst(pts: nat, cards: seq<Card>, candidates: seq<Mask>, score: seq<Card> -> nat, start: nat, used: Mask)
    requires pts <= score(Left(cards, used))
    ensures Unbeaten(pts, cards, candidates, score, start, used, start)
  {
    forall picks | Compatible(candidates, start, used, picks) && (picks == {} || Early(picks, start))
      ensures pts <= score(Left(cards, used + Covered(candidates, picks)))
    {
      assert Covered(candidates, {}) == {};
      assert used + {} == used;
    }
  }

  lemma UnbeatenSkipping(pts: nat, cards: seq<Card>, candidates: seq<Mask>, score: seq<Card> -> nat, start: nat,
                         used: Mask, i: nat)
    requires i < |candidates| && !(candidates[i] !! used)
    requires Unbeaten(pts, cards, candidates, score, start, used, i)
    ensures Unbeaten(pts, cards, candidates, score, start, used, i + 1)
  {
    forall picks | Compatible(candidates, start, used, picks) && (picks == {} || Early(picks, i + 1))
      ensures pts <= score(Left(cards, used + Covered(candidates, picks)))
    {
      assert i !in picks;
      assert picks == {} || Early(picks, i);
    }
  }

  lemma UnbeatenTaking(was: nat, pts: nat, cards: seq<Card>, candidates: seq<Mask>, score: seq<Card> -> nat, start: nat,
                       used: Mask, i: nat)
    requires start <= i < |candidates| && pts <= was
    requires Unbeaten(was, cards, candidates, score, start, used, i)
    requires Unbeaten(pts, cards, candidates, score, i + 1, used + candidates[i], |candidates|)
    ensures Unbeaten(pts, cards, candidates, score, start, used, i + 1)
  {
    forall picks | Compatible(candidates, start, used, picks) && (picks == {} || Early(picks, i + 1))
      ensures pts <= score(Left(cards, used + Covered(candidates, picks)))
    {
      if picks != {} && !Early(picks, i) {
        assert i in picks;
        TakingFirst(candidates, start, used, picks, i);
        var rest := picks - {i};
        assert rest == {} || Early(rest, |candidates|);
      }
    }
  }

  lemma {:induction false} UnionHolds(masks: seq<Mask>, a: nat)
    requires a < |masks|
    ensures masks[a] <= UnionOf(masks)
    decreases |masks|
  {
    if a < |masks| - 1 {
      UnionHolds(masks[..|masks| - 1], a);
    }
  }

  // ---- Splitting a hand ----

  /** masks are disjoint melds of the hand, melds their cards and deadwood everything else. */
  ghost predicate SplitBy(hand: seq<Card>, masks: seq<Mask>, melds: seq<seq<Card>>, deadwood: seq<Card>) {
    && PairwiseDisjoint(masks)
    && (forall m | m in masks :: MeldMask(hand, m))
    && |melds| == |masks|
    && (forall k | 0 <= k < |masks| :: melds[k] == Picked(hand, masks[k]))
    && deadwood == Left(hand, UnionOf(masks))
  }

  function Flatten(melds: seq<seq<Card>>): seq<Card> {
    if melds == [] then [] else Flatten(melds[..|melds| - 1]) + melds[|melds| - 1]
  }

  /** Melds and deadwood are the hand, every card once. */
  lemma SplitPartitions(hand: seq<Card>, masks: seq<Mask>, melds: seq<seq<Card>>, deadwood: seq<Card>)
    requires SplitBy(hand, masks, melds, deadwood)
    ensures multiset(Flatten(melds)) + multiset(deadwood) == multiset(hand)
    ensures forall meld | meld in melds :: IsMeld(meld)
  {
    UnionInRange(hand, masks);
    FlattenIsUnion(hand, masks, melds);
    PickedSplits(hand, UnionOf(masks), Range(|hand|) - UnionOf(masks), |hand|);
    assert UnionOf(masks) + (Range(|hand|) - UnionOf(masks)) == Range(|hand|);
    PickedAll(hand, |hand|);
    assert hand[..|hand|] == hand;
    forall meld | meld in melds ensures IsMeld(meld) {
      var k :| 0 <= k < |melds| && melds[k] == meld;
      assert masks[k] in masks;
    }
  }

  lemma {:induction false} UnionInRange(hand: seq<Card>, masks: seq<Mask>)
    requires forall m | m in masks :: MeldMask(hand, m)
    ensures UnionOf(masks) <= Range(|hand|)
    decreases |masks|
  {
    if masks != [] {
      UnionInRange(hand, masks[..|masks| - 1]);
      assert masks[|masks| - 1] in masks;
    }
  }

  lemma {:induction false} FlattenIsUnion(hand: seq<Card>, masks: seq<Mask>, melds: seq<seq<Card>>)
    requires PairwiseDisjoint(masks) && |melds| == |masks|
    requires forall k | 0 <= k < |masks| :: melds[k] == Picked(hand, masks[k])
    ensures multiset(Flatten(melds)) == multiset(Picked(hand, UnionOf(masks)))
    decreases |masks|
  {
    var n := |masks| - 1;
    if masks == [] {
      PickedSize(hand, {}, |hand|);
      assert {} * Range(|hand|) == {};
    } else {
      FlattenIsUnion(hand, masks[..n], melds[..n]);
      DisjointFromUnion(masks, n);
      PickedSplits(hand, UnionOf(masks[..n]), masks[n], |hand|);
    }
  }

  lemma {:induction false} DisjointFromUnion(masks: seq<Mask>, n: nat)
    requires PairwiseDisjoint(masks) && n < |masks|
    ensures UnionOf(masks[..n]) !! masks[n]
  {
    forall x | x in UnionOf(masks[..n]) ensures x !in masks[n] {
      var a := MemberOf(masks[..n], x);
    }
  }

  lemma {:induction false} MemberOf(masks: seq<Mask>, x: nat) returns (a: nat)
    requires x in UnionOf(masks)
    ensures a < |masks| && x in masks[a]
    decreases |masks|
  {
    if x in masks[|masks| - 1] {
      a := |masks| - 1;
    } else {
      a := MemberOf(masks[..|masks| - 1], x);
    }
  }

  /** Any family of melds is a choice the search considered. */
  lemma FamilyIsCompatible(hand: seq<Card>, candidates: seq<Mask>, family: set<Mask>) returns (picks: set<nat>)
    requires MeldFamily(hand, family) && forall m :: m in candidates <==> MeldMask(hand, m)
    ensures Compatible(candidates, 0, {}, picks) && Covered(candidates, picks) == Union(family)
    ensures picks == {} || Early(picks, |candidates|)
  {
    picks := set p | 0 <= p < |candidates| && candidates[p] in family && candidates[p] !in candidates[..p];
    forall p, q | p in picks && q in picks && p != q ensures candidates[p] !! candidates[q] {
      if p < q {
        assert candidates[p] in candidates[..q];
      } else {
        assert candidates[q] in candidates[..p];
      }
    }
    forall i | i in Union(family) ensures i in Covered(candidates, picks) {
      var m :| m in family && i in m;
      var p := IndexOf(candidates, m);
      assert p in picks;
    }
  }

  /** pts is the least score any disjoint choice of the hand's melds leaves. */
  ghost predicate NoFamilyScoresLess(hand: seq<Card>, score: seq<Card> -> nat, pts: nat) {
    forall family | MeldFamily(hand, family) :: pts <= score(Left(hand, Union(family)))
  }

  lemma UnbeatenIsBest(hand: seq<Card>, candidates: seq<Mask>, score: seq<Card> -> nat, pts: nat)
    requires forall m :: m in candidates <==> MeldMask(hand, m)
    requires Unbeaten(pts, hand, candidates, score, 0, {}, |candidates|)
    ensures NoFamilyScoresLess(hand, score, pts)
    ensures pts <= score(Left(hand, {}))
  {
    forall family | MeldFamily(hand, family) ensures pts <= score(Left(hand, Union(family))) {
      var picks := FamilyIsCompatible(hand, candidates, family);
      assert {} + Covered(candidates, picks) == Union(family);
    }
    assert MeldFamily(hand, {}) && Union({}) == {};
  }

  /** Every mask's cards, and what no mask takes. */
  method DealOut(hand: seq<Card>, masks: seq<Mask>) returns (melds: seq<seq<Card>>, deadwood: seq<Card>)
    ensures |melds| == |masks| && forall k | 0 <= k < |masks| :: melds[k] == Picked(hand, masks[k])
    ensures deadwood == Left(hand, UnionOf(masks))
  {
    melds := [];
    var used: Mask := {};
    for k := 0 to |masks|
      invariant |melds| == k && used == UnionOf(masks[..k])
      invariant forall j | 0 <= j < k :: melds[j] == Picked(hand, masks[j])
    {
      assert masks[..k + 1][..k] == masks[..k];
      melds := melds + [Picked(hand, masks[k])];
      used := used + masks[k];
    }
    assert masks[..|masks|] == masks;
    deadwood := Left(hand, used);
  }

  /** The best split by a score of the deadwood; a hand too big to mask is all deadwood. */
  method BestSplitBy(hand: seq<Card>, score: seq<Card> -> nat)
    returns (melds: seq<seq<Card>>, deadwood: seq<Card>, pts: nat)
    requires |hand| <= MASK_BITS ==> AllStandard(hand) && Distinct(hand) && score(hand) < MAX_INT
    ensures pts == score(deadwood)
    ensures |hand| > MASK_BITS ==> melds == [] && deadwood == hand
    ensures |hand| <= MASK_BITS ==> exists masks :: SplitBy(hand, masks, melds, deadwood)
    ensures |hand| <= MASK_BITS ==> NoFamilyScoresLess(hand, score, pts)
  {
    if |hand| > MASK_BITS {
      return [], hand, score(hand);
    }
    var candidates := GenerateMeldMasks(hand);
    var search := new MeldSearch(hand, candidates, score);
    search.Search(0, {}, []);
    UnbeatenIsBest(hand, candidates, score, search.bestPts);
    NothingUsed(hand);
    melds, deadwood := DealOut(hand, search.bestMasks);
    pts := search.bestPts;
    assert SplitBy(hand, search.bestMasks, melds, deadwood);
  }

  lemma NothingUsed(hand: seq<Card>)
    ensures Left(hand, {}) == hand
  {
    PickedAll(hand, |hand|);
    assert Range(|hand|) - {} == Range(|hand|);
    assert hand[..|hand|] == hand;
  }

  /** The split with the least deadwood. */
  method BestMeldSplit(hand: seq<Card>) returns (melds: seq<seq<Card>>, deadwood: seq<Card>, pts: nat)
    requires |hand| <= MASK_BITS ==> AllStandard(hand) && Distinct(hand)
    ensures pts == SumDeadwood(deadwood)
    ensures multiset(Flatten(melds)) + multiset(deadwood) == multiset(hand)
    ensures forall meld | meld in melds :: IsMeld(meld)
    ensures |hand| <= MASK_BITS ==> exists masks :: SplitBy(hand, masks, melds, deadwood)
    ensures |hand| <= MASK_BITS ==> NoFamilyScoresLess(hand, SumDeadwood, pts)
  {
    SumIsSmall(hand);
    melds, deadwood, pts := BestSplitBy(hand, SumDeadwood);
    if |hand| <= MASK_BITS {
      ghost var masks :| SplitBy(hand, masks, melds, deadwood);
      SplitPartitions(hand, masks, melds, deadwood);
    }
  }

  lemma {:induction false} SumIsSmall(cards: seq<Card>)
    ensures SumDeadwood(cards) <= 10 * |cards|
  {
    if cards != [] {
      SumIsSmall(cards[1..]);
    }
  }
}
