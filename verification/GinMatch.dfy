/** A Gin Rummy match as the source keeps it, and what a knock is worth. */
module GinMatch {
  import opened Cards
  import opened Options
  import opened GinMelds
  import opened GinMeldMasks
  import opened GinMeldSearch
  import opened GinLayoffs
  import opened GinDefender
  import opened GinRules
  import opened GinRun

  datatype HandResult = HandResult(
    knockerMelds: seq<seq<Card>>, knockerDeadwood: seq<Card>, knockerPoints: nat,
    opponentMelds: seq<seq<Card>>, opponentDeadwood: seq<Card>, opponentPoints: nat, laidOff: seq<Card>,
    gin: bool, undercut: bool, winner: nat, delta: nat)

  /** The least deadwood any arrangement of a hand leaves. */
  ghost predicate LeastDeadwood(hand: seq<Card>, pts: nat) {
    && NoFamilyScoresLess(hand, SumDeadwood, pts)
    && exists family :: MeldFamily(hand, family) && pts == SumDeadwood(Left(hand, Union(family)))
  }

  ghost function FamilyOf(masks: seq<Mask>): set<Mask> {
    set m | m in masks
  }

  lemma {:induction false} UnionOfIsUnion(masks: seq<Mask>)
    ensures UnionOf(masks) == Union(FamilyOf(masks))
    decreases |masks|
  {
    if masks == [] {
      assert FamilyOf(masks) == {};
    } else {
      var init, last := masks[..|masks| - 1], masks[|masks| - 1];
      UnionOfIsUnion(init);
      assert masks == init + [last];
      assert FamilyOf(masks) == FamilyOf(init) + {last};
    }
  }

  /** A split is one of the arrangements the optimum ranges over. */
  lemma SplitIsFamily(hand: seq<Card>, masks: seq<Mask>, melds: seq<seq<Card>>, deadwood: seq<Card>)
    requires SplitBy(hand, masks, melds, deadwood)
    ensures MeldFamily(hand, FamilyOf(masks)) && deadwood == Left(hand, Union(FamilyOf(masks)))
  {
    UnionOfIsUnion(masks);
    forall a, b | a in masks && b in masks && a != b ensures a !! b {
      var i :| 0 <= i < |masks| && masks[i] == a;
      var j :| 0 <= j < |masks| && masks[j] == b;
      assert i < j ==> masks[i] !! masks[j];
      assert j < i ==> masks[j] !! masks[i];
    }
  }

  /** The melds of a split are melds a defender can lay off onto. */
  lemma SplitCanBeKnocked(hand: seq<Card>, masks: seq<Mask>, melds: seq<seq<Card>>, deadwood: seq<Card>, dead: set<Card>)
    requires SplitBy(hand, masks, melds, deadwood) && Distinct(hand) && AllStandard(hand)
    requires Elements(hand) !! dead && forall c | c in dead :: Standard(c)
    ensures Knocked(melds, dead)
  {
    forall k | 0 <= k < |melds|
      ensures IsMeld(melds[k]) && AllStandard(melds[k]) && Distinct(melds[k]) && Elements(melds[k]) !! dead
    {
      assert masks[k] in masks;
      PickedHolds(hand, masks[k]);
      assert forall c | c in melds[k] :: c in Elements(hand);
    }
    forall j, k | 0 <= j < k < |melds| ensures Elements(melds[j]) !! Elements(melds[k]) {
      assert masks[j] in masks && masks[k] in masks;
      PickedHolds(hand, masks[j]);
      PickedHolds(hand, masks[k]);
      forall c | c in melds[j] ensures c !in melds[k] {
        var i :| i in masks[j] && hand[i] == c;
      }
    }
  }

  /** Two hands small enough to search, no card in either twice or in both. */
  ghost predicate HandsApart(hands: seq<seq<Card>>) {
    && |hands| == SEATS && |hands[0]| <= MASK_BITS && |hands[1]| <= MASK_BITS
    && Distinct(hands[0]) && AllStandard(hands[0]) && Distinct(hands[1]) && AllStandard(hands[1])
    && Elements(hands[0]) !! Elements(hands[1])
  }

  lemma HandsAreApart(t: Table)
    requires Valid(t) && !t.handComplete
    ensures HandsApart(t.hands)
  {
    HandsDistinct(t, 0);
    HandsDistinct(t, 1);
  }

  /** The melds and deadwood some choice of disjoint melds leaves. */
  ghost predicate SplitInto(hand: seq<Card>, melds: seq<seq<Card>>, deadwood: seq<Card>) {
    exists masks :: SplitBy(hand, masks, melds, deadwood)
  }

  /** What is left of a split's deadwood, and what has gone, once the defender has laid off onto the knocked melds. */
  ghost predicate Defends(hand: seq<Card>, knocked: seq<seq<Card>>, melds: seq<seq<Card>>, deadwood: seq<Card>,
                          laidOff: seq<Card>) {
    exists held :: SplitInto(hand, melds, held)
                   && Layoffs(Laying(held, knocked, [])).remaining == deadwood
                   && Layoffs(Laying(held, knocked, [])).laid == laidOff
  }

  /** What a knock is worth: gin takes the opponent's least deadwood, anything else the better of two differences. */
  ghost predicate Judged(knocker: nat, mine: seq<Card>, theirs: seq<Card>, r: HandResult) {
    && knocker < SEATS
    && SplitInto(mine, r.knockerMelds, r.knockerDeadwood)
    && LeastDeadwood(mine, r.knockerPoints) && r.knockerPoints == SumDeadwood(r.knockerDeadwood)
    && (r.gin <==> r.knockerPoints == 0) && r.opponentPoints == SumDeadwood(r.opponentDeadwood)
    && if r.gin then
         && SplitInto(theirs, r.opponentMelds, r.opponentDeadwood) && LeastDeadwood(theirs, r.opponentPoints)
         && r.laidOff == [] && !r.undercut && r.winner == knocker && r.delta == r.opponentPoints + GIN_BONUS
       else
         && Defends(theirs, r.knockerMelds, r.opponentMelds, r.opponentDeadwood, r.laidOff)
         && NoDefenceBeats(theirs, r.knockerMelds, r.opponentPoints)
         && (r.undercut <==> r.opponentPoints <= r.knockerPoints)
         && r.winner == (if r.undercut then 1 - knocker else knocker)
         && r.delta == if r.undercut then (r.knockerPoints - r.opponentPoints) + UNDERCUT_BONUS
                       else r.opponentPoints - r.knockerPoints
  }

  method ComputeKnockOutcome(knocker: nat, knockerHand: seq<Card>, opponentHand: seq<Card>, discard: Card)
    returns (result: HandResult, remaining: seq<Card>)
    requires knocker < SEATS && |knockerHand| <= MASK_BITS && |opponentHand| <= MASK_BITS
    requires Distinct(knockerHand) && AllStandard(knockerHand) && Distinct(opponentHand) && AllStandard(opponentHand)
    requires Elements(knockerHand) !! Elements(opponentHand)
    ensures remaining == RemoveOne(knockerHand, discard)
    ensures Judged(knocker, remaining, opponentHand, result)
  {
    remaining := RemoveOne(knockerHand, discard);
    RemovingKeepsDistinct(knockerHand, discard);
    var knockerMelds, knockerDW, knockerPts := BestMeldSplit(remaining);
    ghost var masks :| SplitBy(remaining, masks, knockerMelds, knockerDW);
    SplitIsFamily(remaining, masks, knockerMelds, knockerDW);
    if knockerPts == 0 {
      var oppMelds, oppDW, oppPts := BestMeldSplit(opponentHand);
      ghost var oppMasks :| SplitBy(opponentHand, oppMasks, oppMelds, oppDW);
      SplitIsFamily(opponentHand, oppMasks, oppMelds, oppDW);
      result := HandResult(knockerMelds, knockerDW, 0, oppMelds, oppDW, oppPts, [], true, false, knocker,
                           oppPts + GIN_BONUS);
      return;
    }
    SplitCanBeKnocked(remaining, masks, knockerMelds, knockerDW, Elements(opponentHand));
    var oppMelds, oppDW, _ := BestMeldSplitAgainst(opponentHand, knockerMelds);
    var remDW, laidOff := ApplyLayoffs(oppDW, knockerMelds);
    var remPts := SumDeadwood(remDW);
    if remPts <= knockerPts {
      result := HandResult(knockerMelds, knockerDW, knockerPts, oppMelds, remDW, remPts, laidOff, false, true,
                           1 - knocker, (knockerPts - remPts) + UNDERCUT_BONUS);
    } else {
      result := HandResult(knockerMelds, knockerDW, knockerPts, oppMelds, remDW, remPts, laidOff, false, false,
                           knocker, remPts - knockerPts);
    }
  }

  lemma RemovingKeepsDistinct(hand: seq<Card>, c: Card)
    requires Distinct(hand) && AllStandard(hand)
    ensures Distinct(RemoveOne(hand, c)) && AllStandard(RemoveOne(hand, c))
    ensures forall x | x in RemoveOne(hand, c) :: x in hand
  {
    var rest := RemoveOne(hand, c);
    forall x ensures multiset(rest)[x] <= multiset(hand)[x] {
    }
    forall x ensures multiset(rest)[x] <= 1 {
      DistinctCountsOnce(hand, x);
    }
    CountedOnceIsDistinct(rest);
    forall x | x in rest ensures x in hand {
      assert multiset(rest)[x] > 0;
    }
  }

  function Costliest(cards: seq<Card>): (c: Card)
    ensures cards != [] ==> c in cards
    ensures forall x | x in cards :: PipValue(x.rank) <= PipValue(c.rank)
  {
    if cards == [] then NO_CARD
    else
      var rest := Costliest(cards[1..]);
      if |cards| == 1 || PipValue(cards[0].rank) >= PipValue(rest.rank) then cards[0] else rest
  }

  /** Deadwood the player may give up. */
  function Allowed(cards: seq<Card>, forbidden: Option<Card>): (r: seq<Card>)
    ensures forall c :: c in r <==> c in cards && forbidden != Some(c)
  {
    if cards == [] then []
    else (if forbidden == Some(cards[0]) then [] else [cards[0]]) + Allowed(cards[1..], forbidden)
  }

  /** The deadwood of some best split. */
  ghost predicate BestLeft(hand: seq<Card>, deadwood: seq<Card>) {
    LeastDeadwood(hand, SumDeadwood(deadwood)) && exists melds :: SplitInto(hand, melds, deadwood)
  }

  /** The priciest card of it that may go, as long as one may. */
  ghost predicate Priciest(deadwood: seq<Card>, forbidden: Option<Card>, card: Card) {
    (exists c :: c in deadwood && forbidden != Some(c)) ==>
      card in deadwood && forall c | c in deadwood && forbidden != Some(c) :: PipValue(c.rank) <= PipValue(card.rank)
  }

  method BestDeadwood(hand: seq<Card>) returns (deadwood: seq<Card>)
    requires |hand| <= MASK_BITS && Distinct(hand) && AllStandard(hand)
    ensures BestLeft(hand, deadwood) && forall c | c in deadwood :: c in hand
  {
    var melds, pts;
    melds, deadwood, pts := BestMeldSplit(hand);
    ghost var masks :| SplitBy(hand, masks, melds, deadwood);
    SplitIsFamily(hand, masks, melds, deadwood);
    assert SplitInto(hand, melds, deadwood);
    PickedHolds(hand, Range(|hand|) - UnionOf(masks));
  }

  /** The priciest deadwood of a best split, or any card at all but the one just taken. */
  method AutoDiscard(hand: seq<Card>, forbidden: Option<Card>) returns (card: Option<Card>)
    requires |hand| <= MASK_BITS && Distinct(hand) && AllStandard(hand)
    ensures card.Some? ==> card.value in hand && forbidden != Some(card.value)
    ensures card.Some? ==> exists deadwood :: BestLeft(hand, deadwood) && Priciest(deadwood, forbidden, card.value)
    ensures card.None? ==> forall c | c in hand :: forbidden == Some(c)
  {
    var deadwood := BestDeadwood(hand);
    var shed := Allowed(deadwood, forbidden);
    if shed != [] {
      assert Priciest(deadwood, forbidden, Costliest(shed));
      return Some(Costliest(shed));
    }
    assert forall c :: Priciest(deadwood, forbidden, c);
    for i := 0 to |hand|
      invariant forall j | 0 <= j < i :: forbidden == Some(hand[j])
    {
      if forbidden != Some(hand[i]) {
        return Some(hand[i]);
      }
    }
    return None;
  }

  class Match {
    var turn: nat
    var next: Option<nat>
    var hands: seq<seq<Card>>
    var stock: seq<Card>
    var discard: seq<Card>
    var phase: Phase
    var takenUpcard: Option<Card>
    var firstActor: nat
    var handNumber: nat
    var turnsThisHand: nat
    var totals: seq<nat>
    var handComplete: bool
    var matchComplete: bool
    var lastResult: Option<HandResult>

    function View(): Table
      reads this
    {
      Table(turn, next, hands, stock, discard, phase, takenUpcard, firstActor, handNumber, turnsThisHand, totals,
            handComplete, matchComplete)
    }

    /** The outcome is the one on record. */
    predicate Scores(outcome: Outcome)
      reads this
    {
      lastResult.Some? && outcome == Outcome(lastResult.value.winner, lastResult.value.delta)
    }

    method DealAnew(shuffled: seq<Card>)
      requires Shaped(View()) && |shuffled| == 52
      modifies this`hands, this`stock, this`discard
      ensures hands == [Drawn(shuffled, DEAL_COUNT), Drawn(shuffled[..42], DEAL_COUNT)]
      ensures stock == shuffled[..32][..31] && discard == [shuffled[..32][31]]
    {
      stock := shuffled;
      var first := Drawn(stock, DEAL_COUNT);
      stock := stock[..|stock| - DEAL_COUNT];
      var second := Drawn(stock, DEAL_COUNT);
      stock := stock[..|stock| - DEAL_COUNT];
      hands := [first, second];
      assert shuffled[..42][..32] == shuffled[..32];
      discard := [stock[|stock| - 1]];
      stock := stock[..|stock| - 1];
    }

    method Begin(shuffled: seq<Card>)
      requires Shaped(View()) && |shuffled| == 52
      modifies this
      ensures View() == BeginHand(old(View()), shuffled)
    {
      ClearHand();
      DealAnew(shuffled);
      assert View() == BeginHand(old(View()), shuffled);
    }

    method ClearHand()
      modifies this`handNumber, this`handComplete, this`phase, this`takenUpcard, this`turnsThisHand, this`lastResult,
               this`turn, this`next
      ensures handNumber == old(handNumber) + 1 && !handComplete && phase == AwaitingDraw && takenUpcard == None
      ensures turnsThisHand == 0 && lastResult == None && turn == firstActor && next == Some(firstActor)
    {
      handNumber := handNumber + 1;
      handComplete, phase, takenUpcard, turnsThisHand, lastResult := false, AwaitingDraw, None, 0, None;
      turn, next := firstActor, Some(firstActor);
    }

    method Close()
      requires Shaped(View())
      modifies this`handComplete, this`phase, this`matchComplete, this`next, this`firstActor, this`turn
      ensures View() == CloseHand(old(View()))
    {
      handComplete, phase := true, HandOver;
      if MatchOver(View()) {
        matchComplete := true;
        next := None;
        return;
      }
      firstActor := 1 - firstActor;
      turn, next := firstActor, Some(firstActor);
    }

    method Draw(fromStock: bool)
      requires Shaped(View())
      modifies this`hands, this`stock, this`discard, this`takenUpcard, this`phase, this`next
      ensures View() == Apply(old(View()), if fromStock then DrawStock else DrawDiscard, Outcome(0, 0))
    {
      next := Some(turn);
      if fromStock {
        if stock != [] {
          var card := stock[|stock| - 1];
          stock := stock[..|stock| - 1];
          hands := hands[turn := hands[turn] + [card]];
          takenUpcard, phase := None, AwaitingDiscard;
        }
        return;
      }
      if discard != [] {
        var card := discard[|discard| - 1];
        discard := discard[..|discard| - 1];
        hands := hands[turn := hands[turn] + [card]];
        takenUpcard, phase := Some(card), AwaitingDiscard;
      }
    }

    method GiveUp(card: Card)
      requires Shaped(View())
      modifies this`hands, this`discard, this`takenUpcard, this`turnsThisHand, this`phase
      ensures View() == Apply(old(View()), Discard(card), Outcome(0, 0))
    {
      hands := hands[turn := RemoveOne(hands[turn], card)];
      discard := discard + [card];
      takenUpcard := None;
      turnsThisHand := turnsThisHand + 1;
      phase := AwaitingDraw;
    }

    /** Scores the knock and closes the hand. */
    method ApplyKnock(card: Card) returns (outcome: Outcome)
      requires Shaped(View()) && HandsApart(hands)
      modifies this
      ensures View() == Apply(old(View()), Knock(card), outcome)
      ensures Scores(outcome)
              && Judged(old(turn), RemoveOne(old(hands[turn]), card), old(hands[1 - turn]), lastResult.value)
      ensures Credited(old(totals), totals, lastResult.value.winner, lastResult.value.delta)
    {
      var seat, mine, theirs := turn, hands[turn], hands[1 - turn];
      var result, remaining := ComputeKnockOutcome(seat, mine, theirs, card);
      outcome := Outcome(result.winner, result.delta);
      ghost var was := View();
      Record(card, remaining, result);
      KnockCredits(was, card, outcome);
    }

    method Record(card: Card, remaining: seq<Card>, result: HandResult)
      requires Shaped(View()) && result.winner < SEATS && remaining == RemoveOne(hands[turn], card)
      modifies this
      ensures View() == Apply(old(View()), Knock(card), Outcome(result.winner, result.delta))
      ensures lastResult == Some(result)
    {
      lastResult := Some(result);
      SettleKnock(card, remaining, Outcome(result.winner, result.delta));
    }

    method SettleKnock(card: Card, remaining: seq<Card>, outcome: Outcome)
      requires Shaped(View()) && outcome.winner < SEATS && remaining == RemoveOne(hands[turn], card)
      modifies this`hands, this`discard, this`takenUpcard, this`totals,
               this`handComplete, this`phase, this`matchComplete, this`next, this`firstActor, this`turn
      ensures View() == Apply(old(View()), Knock(card), outcome)
    {
      hands := hands[turn := remaining];
      discard, takenUpcard := [], None;
      totals := totals[outcome.winner := totals[outcome.winner] + outcome.delta];
      Close();
    }

    /** Whether the rules take an action, which for a knock means searching for the best split. */
    method Accepts(a: Action) returns (ok: bool)
      requires Valid(View())
      ensures ok == Validate(View(), a)
    {
      if a.NextHand? {
        return handComplete && !matchComplete;
      }
      if handComplete {
        return false;
      }
      var hand := hands[turn];
      match a
      case DrawStock => return phase == AwaitingDraw && |stock| > WALL_STOCK_SIZE;
      case DrawDiscard => return phase == AwaitingDraw && discard != [];
      case Discard(card) => return phase == AwaitingDiscard && card in hand && takenUpcard != Some(card);
      case Knock(card) =>
        if phase != AwaitingDiscard || card !in hand || takenUpcard == Some(card) {
          return false;
        }
        HandsDistinct(View(), turn);
        ok := EnoughToKnock(RemoveOne(hand, card), hand, card);
    }

    method EnoughToKnock(remaining: seq<Card>, hand: seq<Card>, card: Card) returns (ok: bool)
      requires remaining == RemoveOne(hand, card) && Distinct(hand) && AllStandard(hand) && |hand| <= MASK_BITS
      ensures ok == CanKnockWith(remaining)
    {
      RemovingKeepsDistinct(hand, card);
      var melds, deadwood, pts := BestMeldSplit(remaining);
      ghost var masks :| SplitBy(remaining, masks, melds, deadwood);
      SplitIsFamily(remaining, masks, melds, deadwood);
      ok := pts <= KNOCK_THRESHOLD;
    }

    /** The automatic move: it always exists, and the rules always take it. */
    method TimeoutAction() returns (a: Option<Action>)
      requires Valid(View())
      ensures a.Some? && Validate(View(), a.value)
    {
      if handComplete {
        return Some(NextHand);
      }
      if phase == AwaitingDraw {
        if |stock| > WALL_STOCK_SIZE {
          return Some(DrawStock);
        }
        return Some(DrawDiscard);
      }
      HandsDistinct(View(), turn);
      var card := AutoDiscard(hands[turn], takenUpcard);
      SomeCardIsAllowed(hands[turn], takenUpcard);
      a := Some(Discard(card.value));
    }

    method MoveTurn()
      modifies this`turn, this`next
      ensures View() == NextTurn(old(View()))
    {
      turn := (if next.Some? then next.value else turn + 1) % SEATS;
      next := None;
    }

    /** An action by the seat on turn; outcome says what a knock scored. */
    method Act(a: Action, shuffled: seq<Card>) returns (over: bool, outcome: Outcome)
      requires Valid(View()) && FullDeck(shuffled)
      modifies this
      ensures Submit(old(View()), a, outcome, shuffled) == if over then Finished(View()) else Playing(View())
      ensures !over ==> Valid(View())
      ensures a.Knock? && Validate(old(View()), a) ==>
                Scores(outcome) && Judged(old(turn), RemoveOne(old(hands[turn]), a.discard), old(hands[1 - turn]),
                                          lastResult.value)
      ensures if a.Knock? && Validate(old(View()), a)
              then Credited(old(totals), totals, lastResult.value.winner, lastResult.value.delta)
              else totals == old(totals)
    {
      ghost var knocker, mine, theirs := turn, hands[turn], hands[1 - turn];
      var ok := Accepts(a);
      if !ok {
        return false, Outcome(0, 0);
      }
      ghost var was := View();
      over, outcome := Proceed(a, shuffled, knocker, mine, theirs);
      if !a.Knock? {
        OnlyKnocksScore(was, a, outcome, shuffled);
      }
    }

    method Proceed(a: Action, shuffled: seq<Card>, ghost knocker: nat, ghost mine: seq<Card>, ghost theirs: seq<Card>)
      returns (over: bool, outcome: Outcome)
      requires Valid(View()) && Validate(View(), a) && FullDeck(shuffled)
      requires knocker == turn && mine == hands[turn] && theirs == hands[1 - turn]
      modifies this
      ensures Submit(old(View()), a, outcome, shuffled) == if over then Finished(View()) else Playing(View())
      ensures !over ==> Valid(View())
      ensures a.Knock? ==> Scores(outcome) && Judged(knocker, RemoveOne(mine, a.discard), theirs, lastResult.value)
      ensures a.Knock? ==> Credited(old(totals), totals, lastResult.value.winner, lastResult.value.delta)
    {
      ghost var was := View();
      outcome := Perform(a, shuffled, knocker, mine, theirs);
      ActionIsSound(was, a, outcome, shuffled);
      over := matchComplete;
      if !over {
        MoveTurn();
      }
    }

    method Perform(a: Action, shuffled: seq<Card>, ghost knocker: nat, ghost mine: seq<Card>, ghost theirs: seq<Card>)
      returns (outcome: Outcome)
      requires Valid(View()) && Validate(View(), a) && |shuffled| == 52
      requires knocker == turn && mine == hands[turn] && theirs == hands[1 - turn]
      modifies this
      ensures AfterAction(Apply(old(View()), a, outcome), a, shuffled) == Fine(View())
      ensures a.Knock? ==> Scores(outcome) && Judged(knocker, RemoveOne(mine, a.discard), theirs, lastResult.value)
      ensures a.Knock? ==> Credited(old(totals), totals, lastResult.value.winner, lastResult.value.delta)
    {
      if a.Knock? {
        HandsAreApart(View());
        outcome := ApplyKnock(a.discard);
        return;
      }
      PerformPlain(a, shuffled);
      return Outcome(0, 0);
    }

    method PerformPlain(a: Action, shuffled: seq<Card>)
      requires Valid(View()) && Validate(View(), a) && !a.Knock? && |shuffled| == 52
      modifies this
      ensures AfterAction(Apply(old(View()), a, Outcome(0, 0)), a, shuffled) == Fine(View())
    {
      match a
      case DrawStock =>
        Draw(true);
        return;
      case DrawDiscard =>
        Draw(false);
        return;
      case Discard(card) =>
        GiveUp(card);
        if HitTheWall(View()) {
          Close();
        }
        return;
      case NextHand =>
        Begin(shuffled);
        return;
    }
  }

  lemma SomeCardIsAllowed(hand: seq<Card>, forbidden: Option<Card>)
    requires Distinct(hand) && |hand| >= 2
    ensures exists c :: c in hand && forbidden != Some(c)
  {
    assert hand[0] != hand[1];
    assert hand[0] in hand && hand[1] in hand;
  }
}
