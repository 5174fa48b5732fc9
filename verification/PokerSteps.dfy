/** Every step of a poker match, from any valid table, leads to a valid table or to the end of the match. */
module PokerSteps {
  import opened Cards
  import opened Options
  import opened Sums
  import opened PokerMoney
  import opened PokerRules
  import opened PokerCursor
  import opened PokerInvariant

  ghost predicate Paid(t: Table, a: Id) {
    a in Live(t) && At(t.money.contributed, a) > 0
  }

  lemma TwoContenders(t: Table) returns (a: Id, b: Id)
    requires Seated(t) && |Contenders(t)| >= 2
    ensures a != b && a in Live(t) && b in Live(t)
  {
    WhoIsLive(t);
    a, b := Contenders(t)[0], Contenders(t)[1];
  }

  /** Whoever still contests the pot when a round closes has put chips in. */
  lemma LiveHavePaid(t: Table, id: Id)
    requires Booked(t) && BettingRoundComplete(t) && id in Live(t)
    ensures At(t.money.contributed, id) > 0
  {
    WhoIsLive(t);
    if t.phase == PreFlop && id !in t.allIn {
      var i :| 0 <= i < |t.players| && t.players[i] == id;
      OwingMeansSomebody(t);
      assert !OwesSeat(t, i);
    }
  }

  lemma StreetIsDealt(t: Table)
    requires Stocked(t) && !LastStreet(t.phase)
    ensures var r := AdvanceStreet(t);
            && r.Ok? && Stocked(r.t) && StreetsLeft(r.t.phase) < StreetsLeft(t.phase) && r.t.phase != Showdown
            && r.t.bets == t.bets && r.t.acted == t.acted && r.t.currentBet == t.currentBet && r.t.next == t.next
  {
  }

  /** The board runs out and the hand is paid. */
  lemma {:induction false} RunOutPays(t: Table, a: Id, b: Id)
    requires Ledgered(t) && Stocked(t) && Distinct(t.players + t.left) && a != b && Paid(t, a) && Paid(t, b)
    ensures RunOutBoard(t).Ok?
    ensures var r := RunOutBoard(t).t;
            r.money.pool == 0 && Total(r.money.chips) == t.startChips && t.money.chips.Keys <= r.money.chips.Keys
    decreases StreetsLeft(t.phase)
  {
    if LastStreet(t.phase) {
      ShowdownPays(t, a, b);
    } else {
      StreetIsDealt(t);
      var next := AdvanceStreet(t).t;
      SameContenders(t, next);
      RunOutPays(next, a, b);
    }
  }

  /** Cleared for the next street: nobody has bet or acted. */
  ghost predicate FreshStreet(t: Table) {
    && Dealt(t) && |Contenders(t)| >= 2 && |ActingSeats(t)| >= 2
    && forall i | CanAct(t, i) :: OwesSeat(t, i)
  }

  /** A hand whose pool has been paid out. */
  ghost predicate PaidOut(t: Table) {
    Seated(t) && t.handComplete && t.money.pool == 0 && Total(t.money.chips) == t.startChips
  }

  lemma ClearedStreet(t: Table)
    requires Dealt(t) && BettingRoundComplete(t)
    ensures var c := ClearStreet(t);
            && Ledgered(c) && Stocked(c) && Contenders(c) == Contenders(t)
            && (forall id | id in Live(c) :: At(c.money.contributed, id) > 0)
            && (forall id | id in c.players :: At(c.bets, id) == 0 && id !in c.acted)
            && c.next == t.next && c.phase == t.phase
  {
    var c := ClearStreet(t);
    SameContenders(t, c);
    forall id | id in Live(c) ensures At(c.money.contributed, id) > 0 {
      LiveHavePaid(t, id);
    }
    forall id | id in c.players ensures At(c.bets, id) == 0 && id !in c.acted {
      assert id in Elements(t.players);
    }
  }

  /** With two seats still able to bet, the next street opens with every one of them owing. */
  lemma StreetOpens(t: Table, c: Table)
    requires Dealt(t) && SameMatch(c, t) && c.money == t.money && !c.handComplete && |Contenders(t)| >= 2
    requires Stocked(c) && !LastStreet(c.phase) && |ActingSeats(c)| >= 2
    requires forall id | id in Live(c) :: At(c.money.contributed, id) > 0
    requires c.currentBet == 0 && forall id | id in c.players :: At(c.bets, id) == 0 && id !in c.acted
    ensures FreshStreet(AdvanceStreet(c).t)
  {
    StreetIsDealt(c);
    var d := AdvanceStreet(c).t;
    SameContenders(t, c);
    SameContenders(c, d);
    assert ActingSeats(c) == ActingSeats(d);
    forall i: nat | CanAct(d, i) ensures OwesSeat(d, i) {
      assert d.players[i] in c.players;
    }
    assert d.phase != PreFlop;
    assert Booked(d);
  }

  /** Closing a round never fails: the hand goes on with at least two to act, or is paid out. */
  lemma SettleKeeps(t: Table)
    requires Dealt(t) && BettingRoundComplete(t) && |Contenders(t)| >= 2
    ensures var s := SettleAndAdvance(t);
            && s.Ok? && s.t.startChips == t.startChips
            && (if s.t.handComplete then PaidOut(s.t)
                else FreshStreet(s.t) && StreetsLeft(s.t.phase) < StreetsLeft(t.phase) && s.t.money == t.money
                     && ActingSeats(s.t) == ActingSeats(t))
  {
    var c := ClearStreet(t);
    if LastStreet(c.phase) {
      SettleShowsDown(t, c);
    } else if |ActingSeats(c)| < 2 {
      SettleRunsOut(t, c);
    } else {
      SettleGoesOn(t, c);
    }
  }

  lemma SettleShowsDown(t: Table, c: Table)
    requires Dealt(t) && BettingRoundComplete(t) && |Contenders(t)| >= 2 && c == ClearStreet(t) && LastStreet(c.phase)
    ensures RunShowdown(c).Ok? && RunShowdown(c).t.startChips == t.startChips && PaidOut(RunShowdown(c).t)
  {
    ClearedStreet(t);
    var a, b := TwoContenders(t);
    ShowdownPays(c, a, b);
  }

  lemma SettleRunsOut(t: Table, c: Table)
    requires Dealt(t) && BettingRoundComplete(t) && |Contenders(t)| >= 2 && c == ClearStreet(t) && !LastStreet(c.phase)
    ensures AdvanceStreet(c).Ok?
    ensures var r := RunOutBoard(AdvanceStreet(c).t);
            r.Ok? && r.t.startChips == t.startChips && PaidOut(r.t)
  {
    ClearedStreet(t);
    var a, b := TwoContenders(t);
    StreetIsDealt(c);
    SameContenders(c, AdvanceStreet(c).t);
    RunOutPays(AdvanceStreet(c).t, a, b);
  }

  lemma SettleGoesOn(t: Table, c: Table)
    requires Dealt(t) && BettingRoundComplete(t) && |Contenders(t)| >= 2 && c == ClearStreet(t) && !LastStreet(c.phase)
    requires |ActingSeats(c)| >= 2
    ensures var r := AdvanceStreet(c);
            && r.Ok? && FreshStreet(r.t) && StreetsLeft(r.t.phase) < StreetsLeft(t.phase) && r.t.money == t.money
            && ActingSeats(r.t) == ActingSeats(t) && r.t.startChips == t.startChips
  {
    ClearedStreet(t);
    StreetIsDealt(c);
    StreetOpens(t, c);
    assert ActingSeats(AdvanceStreet(c).t) == ActingSeats(t);
  }

  /** Ready for the engine to move the cursor: parked on a dealer, or on the next seat that owes. */
  ghost predicate Ready(s: Table) {
    || (Between(s) && (s.matchComplete || s.next == Some(s.turn)))
    || (s.next.Some? && Betting(s.(turn := s.next.value, next := None)))
  }

  lemma ReadyAdvances(s: Table, advance: bool)
    requires Ready(s) && !s.matchComplete
    ensures ApplyNextTurn(s, advance) == s.(turn := s.next.value, next := None)
    ensures Valid(ApplyNextTurn(s, advance))
  {
    var seat := s.next.value;
    InRangeIsClamped(seat, |s.players|);
    var r := s.(turn := seat, next := None);
    if Between(s) {
      assert FundedSeats(r) == FundedSeats(s);
      assert Between(r);
    }
  }

  lemma InRangeIsClamped(seat: nat, n: nat)
    requires seat < n
    ensures Clamp(seat, n) == seat
  {
  }

  lemma ParkedOn(s: Table, seat: nat)
    requires Dealt(s) && |Contenders(s)| >= 2 && seat < |s.players| && Cursor(s.(turn := seat))
    ensures Ready(s.(next := Some(seat))) && Ready(s.(turn := seat, next := Some(seat)))
  {
    var r := s.(turn := seat, next := None);
    SameContenders(s, r);
    assert Cursor(r) by {
      var u := s.(turn := seat);
      assert forall i :: CanAct(u, i) == CanAct(r, i) && OwesSeat(u, i) == OwesSeat(r, i);
    }
    assert Dealt(r) && Betting(r);
  }

  lemma FirstOnStreet(s: Table)
    requires FreshStreet(s)
    ensures var first := FirstToActPostflop(s);
            first < |s.players| && Cursor(s.(turn := first))
  {
    assert ActingSeats(s) != {};
    var i :| i in ActingSeats(s);
    NextSeatIsFirst(s.dealer, |s.players|, ActingSeats(s), 1);
    var first := FirstToActPostflop(s);
    assert first in ActingSeats(s);
    FreshCursor(s, first);
  }

  // ---- One betting action ----

  /** r is t after the seat on turn put amount chips in; bet level, acted flags and raise size may have moved too. */
  ghost predicate PutMore(t: Table, r: Table, amount: nat) {
    && t.turn < |t.players|
    && var id := t.players[t.turn];
       && amount <= Chips(t, id)
       && r == PutIn(t, id, amount).(currentBet := r.currentBet, acted := r.acted, minRaise := r.minRaise)
       && t.currentBet <= r.currentBet && At(r.bets, id) <= r.currentBet
  }

  lemma PutMoreKeeps(t: Table, r: Table, amount: nat)
    requires Dealt(t) && Distinct(t.players + t.left) && PutMore(t, r, amount) && CanAct(t, t.turn)
    ensures Dealt(r) && Contenders(r) == Contenders(t)
    ensures forall i: nat | i < |t.players| && i != t.turn ::
              CanAct(r, i) == CanAct(t, i) && At(r.bets, t.players[i]) == At(t.bets, t.players[i])
    ensures CanAct(r, t.turn) == (amount < Chips(t, t.players[t.turn]))
  {
    CommitKeepsLedger(t.money, t.players[t.turn], amount);
    OthersDiffer(t);
    SameContenders(t, r);
    PutMoreBooked(t, r, amount);
  }

  /** The per-player books survive the payment. */
  lemma PutMoreBooked(t: Table, r: Table, amount: nat)
    requires Booked(t) && Distinct(t.players + t.left) && PutMore(t, r, amount) && CanAct(t, t.turn)
    ensures Booked(r)
  {
    OthersDiffer(t);
    SameContenders(t, r);
    var id := t.players[t.turn];
    assert At(r.money.contributed, id) >= At(t.money.contributed, id);
    assert forall x | x != id :: At(r.money.contributed, x) == At(t.money.contributed, x) && Chips(r, x) == Chips(t, x);
  }

  lemma OthersDiffer(t: Table)
    requires Distinct(t.players + t.left) && t.turn < |t.players|
    ensures forall i: nat | i < |t.players| && i != t.turn :: t.players[i] != t.players[t.turn]
    ensures t.players[t.turn] !in t.left
  {
    SplitDistinct(t.players, t.left);
  }

  /** What the seat on turn does leaves it owing nothing. */
  ghost predicate ActedWell(t: Table, r: Table) {
    && Dealt(r) && r.players == t.players && r.left == t.left && r.turn == t.turn && r.startChips == t.startChips
    && r.next == t.next && r.handNumber == t.handNumber && r.handsTotal == t.handsTotal && r.phase == t.phase
    && r.turn < |r.players| && !OwesSeat(r, r.turn) && Prefix(r, r.turn, 1) && |Contenders(r)| >= 1
  }

  lemma FoldActs(t: Table)
    requires Betting(t)
    ensures ActedWell(t, ApplyAction(t, Fold))
    ensures |Contenders(ApplyAction(t, Fold))| == |Contenders(t)| - 1
  {
    var id, r := t.players[t.turn], ApplyAction(t, Fold);
    OthersDiffer(t);
    OneFewerContender(t, id);
    SameContenders(t.(folded := t.folded + {id}), r);
    WhoIsLive(t);
    WhoIsLive(r);
    OthersKeep(t, r);
  }

  /** An action that neither raises the bet nor touches anybody else leaves the others as they were. */
  lemma OthersKeep(t: Table, r: Table)
    requires Seated(t) && Cursor(t) && r.players == t.players && r.turn == t.turn
    requires r.acted == t.acted + {t.players[t.turn]} && r.currentBet == t.currentBet
    requires forall i: nat | i < |t.players| && i != t.turn ::
               CanAct(r, i) == CanAct(t, i) && At(r.bets, t.players[i]) == At(t.bets, t.players[i])
    ensures Prefix(r, r.turn, 1)
  {
    OthersDiffer(t);
    assert forall i: nat | i < |t.players| && i != t.turn :: OwesSeat(r, i) == OwesSeat(t, i);
  }

  lemma CheckActs(t: Table)
    requires Betting(t) && ValidateAction(t, Check)
    ensures ActedWell(t, ApplyAction(t, Check)) && Contenders(ApplyAction(t, Check)) == Contenders(t)
  {
    var r := ApplyAction(t, Check);
    SameContenders(t, r);
    OthersKeep(t, r);
  }

  lemma CommitActs(t: Table, total: nat, amount: nat)
    requires Betting(t) && At(t.bets, t.players[t.turn]) <= total <= t.currentBet
    requires amount == Min(total - At(t.bets, t.players[t.turn]), Chips(t, t.players[t.turn]))
    requires total < t.currentBet ==> amount == Chips(t, t.players[t.turn])
    ensures var r := MarkActed(CommitTo(t, t.players[t.turn], total), t.players[t.turn]);
            ActedWell(t, r) && Contenders(r) == Contenders(t) && PutMore(t, r, amount)
  {
    var id := t.players[t.turn];
    var r := MarkActed(CommitTo(t, id, total), id);
    PutMoreKeeps(t, r, amount);
    OthersKeep(t, r);
  }

  lemma RaisePutsMore(t: Table, total: nat)
    requires t.turn < |t.players| && At(t.bets, t.players[t.turn]) <= t.currentBet < total
    requires total - At(t.bets, t.players[t.turn]) <= Chips(t, t.players[t.turn])
    ensures var id := t.players[t.turn];
            var r := MarkActed(Raise(t, id, total), id);
            PutMore(t, r, total - At(t.bets, id)) && r.currentBet == total && id in r.acted && r.next == t.next
  {
    var id := t.players[t.turn];
    var paid := PutIn(t, id, total - At(t.bets, id));
    assert CommitTo(t, id, total) == paid;
    BetIncreaseIs(paid, id, total);
  }

  /**
   Only a full-size raise gives players who already acted another chance to raise: a short all-in moves the
   bet and nothing else, and the least next raise is the largest there has been.
   */
  lemma OnlyAFullRaiseReopens(t: Table, raiser: Id, newBet: nat, id: Id)
    requires newBet > t.currentBet && id in t.players && id != raiser && id !in t.folded + t.allIn
    ensures var r := ApplyBetIncrease(t, raiser, newBet);
            && (id in r.acted <==> id in t.acted && newBet - t.currentBet < t.minRaise)
            && r.minRaise == Max(t.minRaise, newBet - t.currentBet) && r.currentBet == newBet
  {
    var r := ApplyBetIncrease(t, raiser, newBet);
    if newBet - t.currentBet >= t.minRaise {
      assert r.acted == StillActed(t.acted, t.players, raiser, t.folded + t.allIn);
    }
  }

  lemma BetIncreaseIs(t: Table, id: Id, newBet: nat)
    requires newBet > t.currentBet
    ensures var r := ApplyBetIncrease(t, id, newBet);
            r == t.(currentBet := newBet, acted := r.acted, minRaise := r.minRaise)
  {
  }

  /** After a raise everybody else who can act owes. */
  lemma RaiseActs(t: Table, total: nat)
    requires Betting(t) && total > t.currentBet
    requires total - At(t.bets, t.players[t.turn]) <= Chips(t, t.players[t.turn])
    ensures var r := MarkActed(Raise(t, t.players[t.turn], total), t.players[t.turn]);
            && ActedWell(t, r) && Contenders(r) == Contenders(t) && EverybodyFaces(r)
            && PutMore(t, r, total - At(t.bets, t.players[t.turn]))
  {
    var id := t.players[t.turn];
    var r := MarkActed(Raise(t, id, total), id);
    RaisePutsMore(t, total);
    RaiserIsDone(t, r, total - At(t.bets, id));
  }

  /** Everybody but the seat on turn who can still act owes an action. */
  ghost predicate EverybodyFaces(t: Table) {
    forall i: nat | CanAct(t, i) && i != t.turn :: OwesSeat(t, i)
  }

  lemma RaiserIsDone(t: Table, r: Table, amount: nat)
    requires Betting(t) && PutMore(t, r, amount) && r.next == t.next
    requires r.currentBet > t.currentBet && At(r.bets, t.players[t.turn]) == r.currentBet
    requires t.players[t.turn] in r.acted
    ensures ActedWell(t, r) && Contenders(r) == Contenders(t) && EverybodyFaces(r)
  {
    PutMoreKeeps(t, r, amount);
    forall i: nat | CanAct(r, i) && i != t.turn ensures OwesSeat(r, i) {
      assert At(r.bets, r.players[i]) <= t.currentBet;
    }
  }

  /** How many chips an action moves. */
  function Moves(t: Table, a: Action): nat
    requires t.turn < |t.players|
  {
    var id := t.players[t.turn];
    match a
    case Call => Min(ToCall(t, id), Chips(t, id))
    case RaiseTo(amount) => if amount >= At(t.bets, id) then amount - At(t.bets, id) else 0
    case AllIn => Chips(t, id)
    case _ => 0
  }

  lemma ShoveRaises(t: Table, shove: nat)
    requires Betting(t) && shove == At(t.bets, t.players[t.turn]) + Chips(t, t.players[t.turn]) > t.currentBet
    ensures ActedWell(t, ApplyAction(t, AllIn)) && PutMore(t, ApplyAction(t, AllIn), Moves(t, AllIn))
  {
    AllInIs(t);
    RaiseActs(t, shove);
  }

  lemma ShoveCalls(t: Table, shove: nat)
    requires Betting(t) && shove == At(t.bets, t.players[t.turn]) + Chips(t, t.players[t.turn]) <= t.currentBet
    ensures ActedWell(t, ApplyAction(t, AllIn)) && PutMore(t, ApplyAction(t, AllIn), Moves(t, AllIn))
  {
    AllInIs(t);
    CommitActs(t, shove, Chips(t, t.players[t.turn]));
  }

  lemma AllInActs(t: Table)
    requires Betting(t)
    ensures ActedWell(t, ApplyAction(t, AllIn)) && PutMore(t, ApplyAction(t, AllIn), Moves(t, AllIn))
  {
    var id := t.players[t.turn];
    var shove := At(t.bets, id) + Chips(t, id);
    if shove > t.currentBet {
      ShoveRaises(t, shove);
    } else {
      ShoveCalls(t, shove);
    }
  }

  lemma AllInIs(t: Table)
    requires t.turn < |t.players|
    ensures var id := t.players[t.turn];
            var shove := At(t.bets, id) + Chips(t, id);
            ApplyAction(t, AllIn)
            == MarkActed(if shove > t.currentBet then Raise(t, id, shove) else CommitTo(t, id, shove), id)
  {
  }

  lemma CallActs(t: Table)
    requires Betting(t)
    ensures ActedWell(t, ApplyAction(t, Call)) && PutMore(t, ApplyAction(t, Call), Moves(t, Call))
  {
    CommitActs(t, t.currentBet, Moves(t, Call));
  }

  lemma RaiseToActs(t: Table, amount: nat)
    requires Betting(t) && ValidateAction(t, RaiseTo(amount))
    ensures var a := RaiseTo(amount);
            && ActedWell(t, ApplyAction(t, a)) && PutMore(t, ApplyAction(t, a), Moves(t, a)) && Moves(t, a) > 0
            && EverybodyFaces(ApplyAction(t, a)) && ApplyAction(t, a).currentBet == amount
  {
    RaiseActs(t, amount);
    RaiseToIs(t, amount);
  }

  lemma RaiseToIs(t: Table, amount: nat)
    requires t.turn < |t.players| && At(t.bets, t.players[t.turn]) <= t.currentBet
    requires ValidateAction(t, RaiseTo(amount))
    ensures ApplyAction(t, RaiseTo(amount)) == MarkActed(Raise(t, t.players[t.turn], amount), t.players[t.turn])
    ensures Moves(t, RaiseTo(amount)) == amount - At(t.bets, t.players[t.turn]) > 0
    ensures ApplyAction(t, RaiseTo(amount)).currentBet == amount
  {
    RaisePutsMore(t, amount);
  }

  lemma ActionActs(t: Table, a: Action)
    requires Betting(t) && !a.NextHand? && ValidateAction(t, a)
    ensures ActedWell(t, ApplyAction(t, a))
  {
    match a
    case Fold => FoldActs(t);
    case Check => CheckActs(t);
    case Call => CallActs(t);
    case RaiseTo(amount) => RaiseToActs(t, amount);
    case AllIn => AllInActs(t);
    case NextHand =>
  }

  /** What a betting action leaves behind is ready for the engine, and never an error or a crash. */
  lemma AfterBettingReady(t: Table, r: Table)
    requires Betting(t) && ActedWell(t, r)
    ensures AfterBettingAction(r).Ok? && Ready(AfterBettingAction(r).t)
    ensures AfterBettingAction(r).t.startChips == t.startChips
    ensures AfterBettingAction(r).t.players == t.players && AfterBettingAction(r).t.left == t.left
  {
    if |Contenders(r)| == 1 {
      UncontestedCloses(r);
    } else if !BettingRoundComplete(r) {
      CursorMoves(r, r.turn);
      var i := NextToAct(r, r.turn);
      var u := r.(turn := i);
      assert Cursor(u) by {
        assert forall k :: CanAct(u, k) == CanAct(r, k) && OwesSeat(u, k) == OwesSeat(r, k);
      }
      ParkedOn(r, i);
    } else {
      SettleKeeps(r);
      var s := SettleAndAdvance(r).t;
      if s.handComplete {
        FinishHandCloses(s);
      } else {
        FirstOnStreet(s);
        ParkedOn(s, FirstToActPostflop(s));
      }
    }
  }
}
