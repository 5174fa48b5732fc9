/** A poker seat leaving, on turn or not, with chips or all-in, during a hand or between hands. */
module PokerLeave {
  import opened Cards
  import opened Sums
  import opened PokerMoney
  import opened PokerRules
  import opened PokerCursor
  import opened PokerInvariant
  import opened PokerSteps

  /** The table once the leaver's hand is decided and their seat is gone. */
  function Emptied(t: Table, seat: nat): Table
    requires seat < |t.players|
  {
    Unseat(OnPlayerLeave(t, t.players[seat]), seat)
  }

  lemma DropKeepsOthers(ids: seq<Id>, k: nat, x: Id)
    requires Distinct(ids) && k < |ids|
    ensures x in DropAt(ids, k) <==> x in ids && x != ids[k]
  {
    var rest := DropAt(ids, k);
    assert forall i: nat | i < |rest| :: rest[i] == ids[Unshift(i, k)];
    if x in ids && x != ids[k] {
      var i :| 0 <= i < |ids| && ids[i] == x;
      assert rest[if i > k then i - 1 else i] == x;
    }
  }

  lemma MovingStaysDistinct(ids: seq<Id>, gone: seq<Id>, k: nat)
    requires Distinct(ids + gone) && k < |ids|
    ensures Distinct(DropAt(ids, k) + (gone + [ids[k]]))
  {
    forall x ensures multiset(DropAt(ids, k) + (gone + [ids[k]]))[x] <= 1 {
      assert ids == ids[..k] + [ids[k]] + ids[k + 1..];
      DistinctCountsOnce(ids + gone, x);
    }
    CountedOnceIsDistinct(DropAt(ids, k) + (gone + [ids[k]]));
  }

  lemma SeatsShift(t: Table, seat: nat)
    requires Distinct(t.players + t.left) && seat < |t.players|
    ensures var u := Emptied(t, seat);
            && Distinct(u.players + u.left) && |u.players| == |t.players| - 1
            && (forall i: nat | i < |u.players| :: u.players[i] == t.players[Unshift(i, seat)])
            && (forall id :: id in u.players <==> id in t.players && id != t.players[seat])
            && (forall id :: id in u.left <==> id in t.left || id == t.players[seat])
  {
    SplitDistinct(t.players, t.left);
    MovingStaysDistinct(t.players, t.left, seat);
    forall id ensures id in DropAt(t.players, seat) <==> id in t.players && id != t.players[seat] {
      DropKeepsOthers(t.players, seat, id);
    }
  }

  /** A leave takes at most one contender out, and nobody in. */
  lemma ContendersShrinkByOne(t: Table, seat: nat)
    requires Distinct(t.players + t.left) && seat < |t.players|
    ensures var u := Emptied(t, seat);
            && Live(u) <= Live(t)
            && (!t.handComplete ==> |Contenders(u)| >= |Contenders(t)| - 1)
  {
    var u, id := Emptied(t, seat), t.players[seat];
    SplitDistinct(t.players, t.left);
    SeatsShift(t, seat);
    WhoIsLive(t);
    WhoIsLive(u);
    DistinctSize(Contenders(t));
    DistinctSize(Contenders(u));
    if !t.handComplete {
      assert Live(t) <= Live(u) + {id};
      SubsetSize(Live(t), Live(u) + {id});
    }
  }

  /** A leaver still contests the pot exactly when they were all-in and had not folded. */
  lemma AllInLeaversStayIn(t: Table, seat: nat)
    requires Distinct(t.players + t.left) && seat < |t.players| && !t.handComplete
    ensures var id := t.players[seat];
            Live(Emptied(t, seat)) == if id in t.allIn then Live(t) else Live(t) - {id}
  {
    var u, id := Emptied(t, seat), t.players[seat];
    SplitDistinct(t.players, t.left);
    SeatsShift(t, seat);
    WhoIsLive(t);
    WhoIsLive(u);
    assert forall x :: x in Live(u) <==> x in if id in t.allIn then Live(t) else Live(t) - {id};
  }

  /** Everybody left at the table stands exactly as they did. */
  lemma StandingSurvives(t: Table, seat: nat)
    requires Betting(t) && seat < |t.players| && |t.players| > 1
    ensures var u := Emptied(t, seat);
            forall i: nat | i < |u.players| ::
              CanAct(u, i) == CanAct(t, Unshift(i, seat)) && OwesSeat(u, i) == OwesSeat(t, Unshift(i, seat))
  {
    SeatsShift(t, seat);
    SplitDistinct(t.players, t.left);
  }

  /** The books of a hand survive the leave. */
  lemma BooksSurvive(t: Table, seat: nat)
    requires Betting(t) && seat < |t.players| && |t.players| > 1
    ensures var u := Emptied(t, seat); Ledgered(u) && Booked(u) && Stocked(u)
  {
    SeatsShift(t, seat);
    SplitDistinct(t.players, t.left);
    ContendersShrinkByOne(t, seat);
  }

  /** Seat markers moved to the seats that are left. */
  function Remarked(u: Table, removed: nat): Table {
    var n := |u.players|;
    u.(dealer := AdjustSeatIndex(u.dealer, removed, n), sb := AdjustSeatIndex(u.sb, removed, n),
       bb := AdjustSeatIndex(u.bb, removed, n))
  }

  lemma RemarkedHand(t: Table, seat: nat)
    requires Betting(t) && seat < |t.players| && |t.players| > 1
    ensures var s := Remarked(Emptied(t, seat), seat);
            && Dealt(s) && |Contenders(s)| >= 1 && s.startChips == t.startChips && s.next == t.next
  {
    var u := Emptied(t, seat);
    SeatsShift(t, seat);
    BooksSurvive(t, seat);
    ContendersShrinkByOne(t, seat);
    SameContenders(u, Remarked(u, seat));
  }

  lemma RemarkedOrder(t: Table, seat: nat)
    requires Betting(t) && seat < |t.players| && |t.players| > 1
    ensures var s := Remarked(Emptied(t, seat), seat);
            s.turn < |s.players| && Prefix(s, s.turn, 0)
  {
    var u := Emptied(t, seat);
    var s := Remarked(u, seat);
    SeatsShift(t, seat);
    StandingSurvives(t, seat);
    PrefixSurvivesLeave(t, u, seat);
    assert forall i :: CanAct(s, i) == CanAct(u, i) && OwesSeat(s, i) == OwesSeat(u, i);
  }

  /** With the round still open the turn lands on a seat that owes. */
  lemma TurnSettles(s: Table)
    requires Dealt(s) && |Contenders(s)| >= 2 && !BettingRoundComplete(s)
    requires s.turn < |s.players| && Prefix(s, s.turn, 0)
    ensures var i := if CannotAct(s, s.players[s.turn]) then NextToAct(s, s.turn) else s.turn;
            0 <= i < |s.players| && Cursor(s.(turn := i))
  {
    OwingMeansSomebody(s);
    var b :| OwesSeat(s, b);
    var i := if CannotAct(s, s.players[s.turn]) then NextToAct(s, s.turn) else s.turn;
    if CannotAct(s, s.players[s.turn]) {
      CursorMoves(s, s.turn);
    } else {
      assert CanAct(s, s.turn);
      assert OwesSeat(s, s.turn);
    }
    var v := s.(turn := i);
    assert forall k :: CanAct(v, k) == CanAct(s, k) && OwesSeat(v, k) == OwesSeat(s, k);
  }

  lemma LeaveMidHand(t: Table, seat: nat)
    requires Betting(t) && seat < |t.players| && |t.players| > 1
    ensures var o := AfterPlayerRemoved(Emptied(t, seat), seat);
            && o.Ok? && Ready(o.t) && o.t.startChips == t.startChips && |o.t.players| == |t.players| - 1
            && o.t.players == Emptied(t, seat).players && o.t.left == Emptied(t, seat).left
  {
    RemarkedHand(t, seat);
    RemarkedOrder(t, seat);
    SeatsShift(t, seat);
    var s := Remarked(Emptied(t, seat), seat);
    if |Contenders(s)| == 1 {
      UncontestedCloses(s);
    } else if BettingRoundComplete(s) {
      SettleKeeps(s);
      var r := SettleAndAdvance(s).t;
      if r.handComplete {
        FinishHandCloses(r);
      } else {
        FirstOnStreet(r);
        ParkedOn(r, FirstToActPostflop(r));
      }
    } else {
      TurnSettles(s);
      ParkedOn(s, if CannotAct(s, s.players[s.turn]) then NextToAct(s, s.turn) else s.turn);
    }
  }

  /** Nobody comes by chips when a seat goes. */
  lemma FundedShrink(t: Table, seat: nat)
    requires Distinct(t.players + t.left) && seat < |t.players|
    ensures |FundedSeats(Remarked(Emptied(t, seat), seat))| <= |FundedSeats(t)|
  {
    SeatsShift(t, seat);
    var after := FundedSeats(Remarked(Emptied(t, seat), seat));
    var before := set i | i in after :: Unshift(i, seat);
    UnshiftKeepsSize(after, before, seat);
    SubsetSize(before, FundedSeats(t));
  }

  lemma {:induction false} UnshiftKeepsSize(seats: set<nat>, image: set<nat>, k: nat)
    requires image == set i | i in seats :: Unshift(i, k)
    ensures |image| == |seats|
  {
    if seats != {} {
      var i :| i in seats;
      assert image - {Unshift(i, k)} == set j | j in seats - {i} :: Unshift(j, k);
      UnshiftKeepsSize(seats - {i}, image - {Unshift(i, k)}, k);
    }
  }

  lemma LeaveBetweenHands(t: Table, seat: nat)
    requires Between(t) && seat < |t.players| && |t.players| > 1
    ensures var o := AfterPlayerRemoved(Emptied(t, seat), seat);
            && o.Ok? && Ready(o.t) && o.t.startChips == t.startChips && |o.t.players| == |t.players| - 1
            && o.t.players == Emptied(t, seat).players && o.t.left == Emptied(t, seat).left
  {
    SeatsShift(t, seat);
    FundedShrink(t, seat);
    FinishHandCloses(Remarked(Emptied(t, seat), seat));
  }
}
