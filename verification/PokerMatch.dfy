/** Whole poker matches: from the opening deal, over any actions, timeouts and leaves in any order. */
module PokerMatch {
  import opened Cards
  import opened Sums
  import opened PokerMoney
  import opened PokerRules
  import opened PokerCursor
  import opened PokerInvariant
  import opened PokerSteps

  // ---- Opening a hand ----

  /** Two funded seats and a dealer among them: what a hand can be dealt from. */
  ghost predicate CanOpen(t: Table, dealer: nat, shuffled: seq<Card>) {
    && Distinct(t.players + t.left) && 1 <= |t.players| <= MAX_PLAYERS
    && dealer < |t.players| && Chips(t, t.players[dealer]) > 0
    && (forall id | id in t.players :: id in t.money.chips)
    && 0 < t.smallBlind <= t.bigBlind
    && t.handNumber < t.handsTotal == HANDS_PER_MATCH && |FundedSeats(t)| >= 2 && !t.matchComplete
    && |shuffled| == 52
  }

  lemma {:induction false} DeckLasts(t: Table, n: nat)
    requires n <= |t.players| && |t.deck| >= n * HOLE_CARDS
    ensures DealSeats(t, n).ok && |DealSeats(t, n).deck| + n * HOLE_CARDS >= |t.deck|
  {
    if n > 0 {
      DeckLasts(t, n - 1);
    }
  }

  lemma {:induction false} WhoIsBroke(t: Table, n: nat, id: Id)
    requires n <= |t.players| && DealSeats(t, n).ok
    ensures id in DealSeats(t, n).broke <==> id in t.players[..n] && Chips(t, id) == 0
  {
    if n > 0 {
      var before, seat := t.players[..n - 1], t.players[n - 1];
      WhoIsBroke(t, n - 1, id);
      assert t.players[..n] == before + [seat];
      assert id in t.players[..n] <==> id in before || id == seat;
    }
  }

  /** No chip has moved yet in this hand. */
  ghost predicate Untouched(t: Table) {
    && Distinct(t.players + t.left) && 1 <= |t.players| <= MAX_PLAYERS
    && (forall id | id in t.players :: id in t.money.chips)
    && 0 < t.smallBlind <= t.bigBlind && 1 <= t.handNumber <= t.handsTotal == HANDS_PER_MATCH
    && Ledgered(t) && t.money.contributed == map[] && t.bets == map[]
    && t.phase == PreFlop && !t.handComplete && !t.matchComplete && t.allIn == {}
    && t.acted == t.folded
  }

  /** Hole cards are out and the broke seats sit out. */
  ghost predicate Opened(t: Table) {
    && Untouched(t) && |t.deck| >= 8
    && forall id :: id in t.folded <==> id in t.players && Chips(t, id) == 0
  }

  lemma HoleCardsOpen(b: Table)
    requires Untouched(b) && b.folded == {} && |b.deck| == 52 && |FundedSeats(b)| >= 2
    ensures var d := DealHoleCards(b);
            && d.Ok? && Opened(d.t) && |d.t.deck| >= MIN_DECK_AFTER_DEAL
            && d.t == b.(hole := d.t.hole, deck := d.t.deck, folded := d.t.folded, acted := d.t.acted)
  {
    DeckLasts(b, |b.players|);
    assert b.players[..|b.players|] == b.players;
    forall id ensures id in DealSeats(b, |b.players|).broke <==> id in b.players && Chips(b, id) == 0 {
      WhoIsBroke(b, |b.players|, id);
    }
  }

  lemma ResetIsUntouched(t: Table, b: Table, dealer: nat, shuffled: seq<Card>)
    requires CanOpen(t, dealer, shuffled)
    requires b == ResetForHand(t).(handNumber := t.handNumber + 1, deck := shuffled,
                                   startChips := Total(t.money.chips))
    ensures Untouched(b) && b.folded == {} && FundedSeats(b) == FundedSeats(t)
  {
    TotalZero(map[]);
  }

  lemma DealHandIs(t: Table, shuffled: seq<Card>, b: Table, h: Table)
    requires b == ResetForHand(t).(handNumber := t.handNumber + 1, deck := shuffled,
                                   startChips := Total(t.money.chips))
    requires DealHoleCards(b) == Ok(h) && |h.deck| >= MIN_DECK_AFTER_DEAL
    ensures DealHand(t, shuffled) == Ok(h)
  {
  }

  lemma DealOpens(t: Table, dealer: nat, shuffled: seq<Card>)
    requires CanOpen(t, dealer, shuffled)
    ensures var d := DealHand(t, shuffled);
            && d.Ok? && Opened(d.t) && d.t.players == t.players && d.t.left == t.left
            && d.t.money.chips == t.money.chips && FundedSeats(d.t) == FundedSeats(t)
            && d.t.handNumber == t.handNumber + 1 && d.t.handsTotal == t.handsTotal
            && d.t.startChips == Total(t.money.chips)
  {
    var b := ResetForHand(t).(handNumber := t.handNumber + 1, deck := shuffled, startChips := Total(t.money.chips));
    ResetIsUntouched(t, b, dealer, shuffled);
    HoleCardsOpen(b);
    var h := DealHoleCards(b).t;
    assert FundedSeats(h) == FundedSeats(b);
    DealHandIs(t, shuffled, b, h);
  }

  /** A second funded seat exists, so the search does not come back around. */
  lemma NextFundedIsAnother(t: Table, from: nat)
    requires from < |t.players| && |FundedSeats(t)| >= 2
    ensures NextFundedSeat(t, from) in FundedSeats(t) && NextFundedSeat(t, from) != from
  {
    NextSeatIsFirst(from, |t.players|, FundedSeats(t), 1);
    assert FundedSeats(t) - {from} != {} by {
      if FundedSeats(t) <= {from} {
        SubsetSize(FundedSeats(t), {from});
      }
    }
    var other :| other in FundedSeats(t) - {from};
    assert Steps(from, other, |t.players|) < |t.players|;
  }

  /** One blind posted by a funded player who has put nothing in yet. */
  ghost predicate BlindPosted(t: Table, r: Table, id: Id, amount: nat) {
    && r == t.(money := r.money, bets := r.bets, allIn := r.allIn)
    && r.money == Commit(t.money, id, Min(amount, Chips(t, id)))
    && r.bets == t.bets[id := At(t.bets, id) + Min(amount, Chips(t, id))]
    && r.allIn == if amount >= Chips(t, id) then t.allIn + {id} else t.allIn
  }

  /** Between the blinds: the books already agree. */
  ghost predicate HalfPosted(t: Table) {
    && Seated(t) && Ledgered(t) && t.phase == PreFlop && !t.handComplete && !t.matchComplete && |t.deck| >= 8
    && (forall id | id in t.allIn :: Chips(t, id) == 0 && At(t.money.contributed, id) > 0)
    && (forall id | id in t.players ::
          && At(t.bets, id) <= t.bigBlind && At(t.bets, id) == At(t.money.contributed, id)
          && (Chips(t, id) == 0 ==> id in t.folded || id in t.allIn))
    && (forall id | id in t.allIn :: id in t.players)
  }

  lemma PostingKeeps(t: Table, id: Id, amount: nat)
    requires HalfPosted(t) && id in t.players && Chips(t, id) > 0 && At(t.bets, id) == 0 && 0 < amount <= t.bigBlind
    ensures HalfPosted(PostBlind(t, id, amount))
    ensures BlindPosted(t, PostBlind(t, id, amount), id, amount)
  {
    CommitKeepsLedger(t.money, id, Min(amount, Chips(t, id)));
  }

  lemma OpenedIsHalfPosted(d: Table, dealer: nat)
    requires Opened(d) && dealer < |d.players|
    ensures HalfPosted(SetBlinds(d, dealer, |FundedSeats(d)| == 2))
  {
  }

  lemma TwoFunded(t: Table) returns (i: nat, j: nat)
    requires |FundedSeats(t)| >= 2
    ensures i != j && i in FundedSeats(t) && j in FundedSeats(t)
  {
    i :| i in FundedSeats(t);
    assert FundedSeats(t) - {i} != {} by {
      if FundedSeats(t) <= {i} {
        SubsetSize(FundedSeats(t), {i});
      }
    }
    j :| j in FundedSeats(t) - {i};
  }

  lemma HasTwo(s: seq<Id>, a: Id, b: Id)
    requires a != b && a in s && b in s
    ensures |s| >= 2
  {
    var i :| 0 <= i < |s| && s[i] == a;
    var j :| 0 <= j < |s| && s[j] == b;
  }

  /** Every funded player contests a freshly dealt pot. */
  lemma FundedContend(d: Table, p: Table)
    requires Opened(d) && |FundedSeats(d)| >= 2
    requires p.players == d.players && p.left == d.left && p.folded == d.folded
    ensures |Contenders(p)| >= 2
  {
    var i, j := TwoFunded(d);
    assert (d.players + d.left)[i] != (d.players + d.left)[j];
    WhoIsLive(p);
    HasTwo(Contenders(p), d.players[i], d.players[j]);
  }

  lemma BlindSeats(d: Table, dealer: nat)
    requires Opened(d) && dealer < |d.players| && Chips(d, d.players[dealer]) > 0 && |FundedSeats(d)| >= 2
    ensures var b := SetBlinds(d, dealer, |FundedSeats(d)| == 2);
            && b.sb in FundedSeats(d) && b.bb in FundedSeats(d) && d.players[b.sb] != d.players[b.bb]
  {
    var b := SetBlinds(d, dealer, |FundedSeats(d)| == 2);
    NextFundedIsAnother(d, dealer);
    NextFundedIsAnother(d, b.sb);
    var all := d.players + d.left;
    assert all[b.sb] != all[b.bb];
  }

  lemma TwoBlinds(b: Table, small: Id, big: Id)
    requires HalfPosted(b) && small != big && small in b.players && big in b.players
    requires Chips(b, small) > 0 && Chips(b, big) > 0 && b.bets == map[]
    ensures var p := PostBlind(PostBlind(b, small, b.smallBlind), big, b.bigBlind);
            HalfPosted(p) && p == b.(money := p.money, bets := p.bets, allIn := p.allIn)
  {
    PostingKeeps(b, small, b.smallBlind);
    PostingKeeps(PostBlind(b, small, b.smallBlind), big, b.bigBlind);
  }

  /** Both blinds come from different funded seats. */
  lemma BothPosted(d: Table, dealer: nat)
    requires Opened(d) && dealer < |d.players| && Chips(d, d.players[dealer]) > 0 && |FundedSeats(d)| >= 2
    ensures var p := PostBlinds(d, dealer);
            && HalfPosted(p.(currentBet := d.currentBet)) && p.currentBet == p.bigBlind > 0 && SameHand(d, p)
            && p.bb < |p.players|
  {
    var b := SetBlinds(d, dealer, |FundedSeats(d)| == 2);
    BlindSeats(d, dealer);
    OpenedIsHalfPosted(d, dealer);
    TwoBlinds(b, b.players[b.sb], b.players[b.bb]);
  }

  ghost predicate SameHand(d: Table, p: Table) {
    && p.players == d.players && p.left == d.left && p.folded == d.folded && p.acted == d.acted
    && p.startChips == d.startChips && p.handNumber == d.handNumber && p.handsTotal == d.handsTotal
    && p.next == d.next
  }

  lemma BlindsKeep(d: Table, dealer: nat)
    requires Opened(d) && dealer < |d.players| && Chips(d, d.players[dealer]) > 0 && |FundedSeats(d)| >= 2
    ensures var p := PostBlinds(d, dealer);
            && Dealt(p) && |Contenders(p)| >= 2 && SameHand(d, p) && p.bb < |p.players|
            && forall i: nat | CanAct(p, i) :: OwesSeat(p, i)
  {
    BothPosted(d, dealer);
    FundedContend(d, PostBlinds(d, dealer));
  }

  lemma ActorsOwe(p: Table)
    requires forall i: nat | CanAct(p, i) :: OwesSeat(p, i)
    ensures ActingSeats(p) <= OwingSeats(p)
  {
    forall i | i in ActingSeats(p) ensures i in OwingSeats(p) {
      assert CanAct(p, i);
    }
  }

  lemma NobodyActs(p: Table)
    requires Dealt(p) && |Contenders(p)| >= 2 && OwingSeats(p) == {}
    requires forall i: nat | CanAct(p, i) :: OwesSeat(p, i)
    ensures var s := SettleAndAdvance(p);
            s.Ok? && s.t.handComplete && Ready(FinishHand(s.t)) && FinishHand(s.t).startChips == p.startChips
            && FinishHand(s.t).players == p.players && FinishHand(s.t).left == p.left
            && FinishHand(s.t).handNumber == p.handNumber && FinishHand(s.t).handsTotal == p.handsTotal
  {
    OwingMeansSomebody(p);
    SettleKeeps(p);
    ActorsOwe(p);
    FinishHandCloses(SettleAndAdvance(p).t);
  }

  ghost predicate OpensWell(t: Table, o: Outcome) {
    && o.Ok? && Ready(o.t) && o.t.startChips == t.startChips
    && o.t.players == t.players && o.t.left == t.left
    && o.t.handNumber == t.handNumber && o.t.handsTotal == t.handsTotal
  }

  lemma BettingOpens(p: Table, headsUp: bool)
    requires Dealt(p) && |Contenders(p)| >= 2 && p.bb < |p.players|
    requires forall i: nat | CanAct(p, i) :: OwesSeat(p, i)
    ensures OpensWell(p, CloseIfComplete(OpenBetting(p, FirstToActPreflop(p, headsUp))))
  {
    var first := FirstToActPreflop(p, headsUp);
    if first < 0 {
      NoneOwe(p, p.bb);
      NobodyActs(p);
    } else {
      FreshCursor(p, first);
      ParkedOn(p, first);
    }
  }

  lemma NoneOwe(p: Table, from: nat)
    requires from < |p.players| && NextToAct(p, from) < 0
    ensures OwingSeats(p) == {}
  {
    NextSeatIsFirst(from, |p.players|, OwingSeats(p), 1);
  }

  /** A hand that can be opened opens on a seat that owes, or runs out at once when the blinds leave nobody to act. */
  lemma HandOpens(t: Table, dealer: nat, shuffled: seq<Card>)
    requires CanOpen(t, dealer, shuffled)
    ensures var o := BeginHandOrFinish(t, dealer, shuffled);
            && o.Ok? && Ready(o.t) && o.t.startChips == Total(t.money.chips)
            && o.t.players == t.players && o.t.left == t.left
            && o.t.handNumber == t.handNumber + 1 && o.t.handsTotal == t.handsTotal
  {
    DealOpens(t, dealer, shuffled);
    var d := DealHand(t, shuffled).t;
    BlindsKeep(d, dealer);
    BettingOpens(PostBlinds(d, dealer), |FundedSeats(d)| == 2);
  }
}
