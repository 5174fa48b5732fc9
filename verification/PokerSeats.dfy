/** Which seat deals, posts the blinds and speaks first, and what each street turns up. */
module PokerSeats {
  import opened Cards
  import opened Options
  import opened Sums
  import opened PokerMoney
  import opened PokerRules
  import opened PokerCursor
  import opened PokerInvariant
  import opened PokerSteps
  import opened PokerMatch
  import opened PokerLeave
  import opened PokerRun

  /** seat is one of seats, and none of them lies between from and it, going clockwise; from itself comes last. */
  ghost predicate FirstAfter(from: nat, seat: nat, n: nat, seats: set<nat>) {
    && from < n && seat < n && seat in seats
    && forall a | a in seats && a < n :: Steps(from, a, n) >= Steps(from, seat, n)
  }

  lemma SearchIsFirst(from: nat, n: nat, seats: set<nat>)
    requires from < n && NextSeat(from, n, seats) >= 0
    ensures FirstAfter(from, NextSeat(from, n, seats), n, seats)
  {
    NextSeatIsFirst(from, n, seats, 1);
  }

  lemma FundedIsFirst(t: Table, from: nat)
    requires from < |t.players| && FundedSeats(t) != {}
    ensures FirstAfter(from, NextFundedSeat(t, from), |t.players|, FundedSeats(t))
  {
    var some :| some in FundedSeats(t);
    NextSeatIsFirst(from, |t.players|, FundedSeats(t), 1);
  }

  // ---- The blinds ----

  /**
   The blinds come from the next funded seats after the dealer, small one first; with two players left the dealer
   posts the small one. Each is posted in full or with all there is, and nobody else has bet.
   */
  ghost predicate BlindsPosted(d: Table, u: Table, dealer: nat) {
    var funded, n := FundedSeats(d), |d.players|;
    && u.players == d.players && u.dealer == dealer < n && u.sb < n && u.bb < n
    && (if |funded| == 2 then u.sb == dealer else FirstAfter(dealer, u.sb, n, funded))
    && FirstAfter(u.sb, u.bb, n, funded)
    && u.currentBet == d.bigBlind
    && forall id :: At(u.bets, id) == if id == d.players[u.sb] then Min(d.smallBlind, Chips(d, id))
                                      else if id == d.players[u.bb] then Min(d.bigBlind, Chips(d, id)) else 0
  }

  lemma BlindsGoRound(d: Table, dealer: nat)
    requires Opened(d) && dealer < |d.players| && Chips(d, d.players[dealer]) > 0 && |FundedSeats(d)| >= 2
    ensures BlindsPosted(d, PostBlinds(d, dealer), dealer)
  {
    var b := SetBlinds(d, dealer, |FundedSeats(d)| == 2);
    FundedIsFirst(d, dealer);
    FundedIsFirst(d, b.sb);
    BlindSeats(d, dealer);
    OpenedIsHalfPosted(d, dealer);
    BetsAreBlinds(b, b.players[b.sb], b.players[b.bb]);
  }

  lemma BetsAreBlinds(b: Table, small: Id, big: Id)
    requires HalfPosted(b) && small != big && small in b.players && big in b.players && b.bets == map[]
    requires Chips(b, small) > 0 && Chips(b, big) > 0
    ensures var p := PostBlind(PostBlind(b, small, b.smallBlind), big, b.bigBlind);
            forall id :: At(p.bets, id) == if id == small then Min(b.smallBlind, Chips(b, id))
                                           else if id == big then Min(b.bigBlind, Chips(b, id)) else 0
  {
    PostingKeeps(b, small, b.smallBlind);
    PostingKeeps(PostBlind(b, small, b.smallBlind), big, b.bigBlind);
  }

  /** Before the flop the dealer speaks first heads-up, else the first after the big blind who can. */
  ghost predicate OpensPreflop(u: Table, headsUp: bool) {
    if headsUp && CanAct(u, u.dealer) then u.turn == u.dealer
    else FirstAfter(u.bb, u.turn, |u.players|, ActingSeats(u))
  }

  lemma FirstToSpeak(p: Table, headsUp: bool, first: int)
    requires p.dealer < |p.players| && p.bb < |p.players| && first == FirstToActPreflop(p, headsUp) >= 0
    requires forall i: nat | CanAct(p, i) :: OwesSeat(p, i)
    ensures OpensPreflop(p.(turn := first), headsUp)
  {
    assert OwingSeats(p) == ActingSeats(p) by {
      forall i ensures i in OwingSeats(p) <==> i in ActingSeats(p) {
        assert i in ActingSeats(p) ==> CanAct(p, i);
      }
    }
    var u := p.(turn := first);
    assert ActingSeats(u) == ActingSeats(p);
    assert CanAct(u, u.dealer) == CanAct(p, p.dealer);
    if !(headsUp && CanAct(p, p.dealer)) {
      SearchIsFirst(p.bb, |p.players|, OwingSeats(p));
    }
  }

  /** A hand that leaves somebody to act opens on blinds posted in order and on the seat that speaks first. */
  ghost predicate HandOpensInOrder(d: Table, u: Table, dealer: nat) {
    BlindsPosted(d, u, dealer) && OpensPreflop(u, |FundedSeats(d)| == 2)
  }

  lemma ParkedInOrder(d: Table, p: Table, dealer: nat, first: nat, u: Table)
    requires BlindsPosted(d, p, dealer) && OpensPreflop(p.(turn := first), |FundedSeats(d)| == 2)
    requires u == p.(turn := first, next := u.next)
    ensures HandOpensInOrder(d, u, dealer)
  {
    assert ActingSeats(u) == ActingSeats(p.(turn := first));
  }

  lemma OpenedInOrder(d: Table, p: Table, dealer: nat, first: int, o: Outcome)
    requires BlindsPosted(d, p, dealer) && Dealt(p) && |Contenders(p)| >= 2
    requires forall i: nat | CanAct(p, i) :: OwesSeat(p, i)
    requires first == FirstToActPreflop(p, |FundedSeats(d)| == 2) && o == CloseIfComplete(OpenBetting(p, first))
    ensures o.Ok? && (o.t.handComplete || (HandOpensInOrder(d, o.t, dealer) && o.t.next == Some(o.t.turn)))
  {
    if first < 0 {
      NoneOwe(p, p.bb);
      NobodyActs(p);
    } else {
      FirstToSpeak(p, |FundedSeats(d)| == 2, first);
      ParkedInOrder(d, p, dealer, first, p.(turn := first, next := Some(first)));
    }
  }

  lemma BeginIs(t: Table, dealer: nat, shuffled: seq<Card>, d: Table, p: Table)
    requires dealer < |t.players| && DealHand(t, shuffled) == Ok(d) && p == PostBlinds(d, dealer)
    ensures BeginHandOrFinish(t, dealer, shuffled)
         == CloseIfComplete(OpenBetting(p, FirstToActPreflop(p, |FundedSeats(d)| == 2)))
  {
  }

  /** A hand that can be opened opens in order, or runs out at once. */
  lemma BeginsInOrder(t: Table, dealer: nat, shuffled: seq<Card>)
    requires CanOpen(t, dealer, shuffled)
    ensures DealHand(t, shuffled).Ok? && FundedSeats(DealHand(t, shuffled).t) == FundedSeats(t)
    ensures var o := BeginHandOrFinish(t, dealer, shuffled);
            o.Ok? && (o.t.handComplete || (HandOpensInOrder(DealHand(t, shuffled).t, o.t, dealer)
                                           && o.t.next == Some(o.t.turn)))
  {
    DealOpens(t, dealer, shuffled);
    var d := DealHand(t, shuffled).t;
    var p := PostBlinds(d, dealer);
    BlindsKeep(d, dealer);
    BlindsGoRound(d, dealer);
    BeginIs(t, dealer, shuffled, d, p);
    OpenedInOrder(d, p, dealer, FirstToActPreflop(p, |FundedSeats(d)| == 2), BeginHandOrFinish(t, dealer, shuffled));
  }

  /** The engine's cursor lands where the rules parked it. */
  lemma TurnStands(d: Table, s: Table, dealer: nat, u: Table)
    requires u == s.(turn := s.turn, next := None) && HandOpensInOrder(d, s, dealer)
    ensures HandOpensInOrder(d, u, dealer)
  {
    assert ActingSeats(u) == ActingSeats(s);
  }

  lemma OpenedStands(d: Table, s: Table, dealer: nat)
    requires Ready(s) && !s.matchComplete && !s.handComplete
    requires HandOpensInOrder(d, s, dealer) && s.next == Some(s.turn)
    ensures HandOpensInOrder(d, ApplyNextTurn(s, true), dealer)
  {
    ReadyAdvances(s, true);
    TurnStands(d, s, dealer, ApplyNextTurn(s, true));
  }

  /** The deal passes to the next player with chips, and the hand opens in order from there. */
  lemma DealMovesOn(t: Table, shuffled: seq<Card>)
    requires Valid(t) && Between(t) && |shuffled| == 52
    ensures DealHand(t, shuffled).Ok? && FundedSeats(DealHand(t, shuffled).t) == FundedSeats(t)
    ensures var g := Submit(t, NextHand, shuffled);
            g.Playing? && !g.t.handComplete ==>
              && g.t.players == t.players && FirstAfter(t.dealer, g.t.dealer, |t.players|, FundedSeats(t))
              && HandOpensInOrder(DealHand(t, shuffled).t, g.t, g.t.dealer)
  {
    DealerCanOpen(t, shuffled);
    var dealer := NextFundedSeat(t, t.dealer);
    BeginsInOrder(t, dealer, shuffled);
    FundedIsFirst(t, t.dealer);
    NextHandReady(t, shuffled);
    NextHandDeals(t, NextHand, shuffled);
    HandOpened(t, shuffled, dealer, DealHand(t, shuffled).t, NextDeal(t, shuffled));
  }

  lemma HandOpened(t: Table, shuffled: seq<Card>, dealer: nat, d: Table, o: Outcome)
    requires Valid(t) && Between(t) && ApplyAction(t, NextHand) == t && AfterAction(t, NextHand, shuffled) == o
    requires o.Ok? && Ready(o.t)
    requires o.t.handComplete || (HandOpensInOrder(d, o.t, dealer) && o.t.next == Some(o.t.turn))
    ensures var g := Submit(t, NextHand, shuffled);
            g.Playing? && !g.t.handComplete ==> HandOpensInOrder(d, g.t, dealer)
  {
    SubmitIs(t, NextHand, shuffled, o);
    if !o.t.matchComplete && !o.t.handComplete {
      OpenedStands(d, o.t, dealer);
    }
  }

  // ---- Hole cards ----

  /** How many of the first n of ids hold chips. */
  function FundedAmong(ids: seq<Id>, chips: map<Id, nat>, n: nat): nat
    requires n <= |ids|
  {
    if n == 0 then 0 else FundedAmong(ids, chips, n - 1) + if At(chips, ids[n - 1]) > 0 then 1 else 0
  }

  lemma DrawnAt<T>(pile: seq<T>, n: nat, k: nat)
    requires k < n <= |pile|
    ensures Drawn(pile, n)[k] == pile[|pile| - 1 - k]
  {
    ReverseAt(pile[|pile| - n..], k);
  }

  lemma {:induction false} ReverseAt<T>(s: seq<T>, k: nat)
    requires k < |s|
    ensures Reverse(s)[k] == s[|s| - 1 - k]
  {
    if k < |s| - 1 {
      ReverseAt(s[1..], k);
    }
  }

  /** The deck less the cards of the funded seats among the first n, two for each. */
  lemma {:induction false} DeckGoesDown(ids: seq<Id>, chips: map<Id, nat>, start: Deal, n: nat)
    requires n <= |ids| && DealRound(ids, chips, start, n).ok
    ensures var d, k := DealRound(ids, chips, start, n), FundedAmong(ids, chips, n);
            2 * k <= |start.deck| && d.deck == start.deck[..|start.deck| - 2 * k]
  {
    if n > 0 {
      DeckGoesDown(ids, chips, start, n - 1);
      var d := DealRound(ids, chips, start, n - 1);
      assert DealRound(ids, chips, start, n) == DealSeat(d, ids[n - 1], At(chips, ids[n - 1]));
    }
  }

  /** What seat i is dealt: the two cards on top once the funded seats before it have theirs, or nothing when broke. */
  ghost predicate DealtInTurn(ids: seq<Id>, chips: map<Id, nat>, deck: seq<Card>, hole: map<Id, seq<Card>>, i: nat)
    requires i < |ids|
  {
    var k := FundedAmong(ids, chips, i);
    && ids[i] in hole
    && if At(chips, ids[i]) == 0 then hole[ids[i]] == []
       else 2 * k + 2 <= |deck| && hole[ids[i]] == [deck[|deck| - 1 - 2 * k], deck[|deck| - 2 - 2 * k]]
  }

  lemma SeatIsDealt(ids: seq<Id>, chips: map<Id, nat>, start: Deal, i: nat)
    requires i < |ids| && start.ok && DealRound(ids, chips, start, i + 1).ok
    ensures DealtInTurn(ids, chips, start.deck, DealRound(ids, chips, start, i + 1).hole, i)
  {
    var d := DealRound(ids, chips, start, i);
    assert DealRound(ids, chips, start, i + 1) == DealSeat(d, ids[i], At(chips, ids[i]));
    DeckGoesDown(ids, chips, start, i);
    if At(chips, ids[i]) > 0 {
      DrawnAt(d.deck, HOLE_CARDS, 0);
      DrawnAt(d.deck, HOLE_CARDS, 1);
    }
  }

  lemma {:induction false} RoundIsDealt(ids: seq<Id>, chips: map<Id, nat>, start: Deal, n: nat, i: nat)
    requires i < n <= |ids| && Distinct(ids) && start.ok && DealRound(ids, chips, start, n).ok
    ensures DealtInTurn(ids, chips, start.deck, DealRound(ids, chips, start, n).hole, i)
  {
    if i == n - 1 {
      SeatIsDealt(ids, chips, start, i);
    } else {
      RoundIsDealt(ids, chips, start, n - 1, i);
      var d := DealRound(ids, chips, start, n - 1);
      assert DealRound(ids, chips, start, n) == DealSeat(d, ids[n - 1], At(chips, ids[n - 1]));
    }
  }

  /** Every seat with chips gets the next two cards off the shuffled deck, in seat order, and a broke one none. */
  lemma HandIsDealtInTurn(t: Table, dealer: nat, shuffled: seq<Card>, i: nat)
    requires CanOpen(t, dealer, shuffled) && i < |t.players|
    ensures DealHand(t, shuffled).Ok?
    ensures DealtInTurn(t.players, t.money.chips, shuffled, DealHand(t, shuffled).t.hole, i)
  {
    DealOpens(t, dealer, shuffled);
    SplitDistinct(t.players, t.left);
    var start := Deal(t.hole, shuffled, {}, true);
    assert DealHand(t, shuffled).t.hole == DealRound(t.players, t.money.chips, start, |t.players|).hole;
    RoundIsDealt(t.players, t.money.chips, start, |t.players|, i);
  }

  // ---- Streets ----

  /** One card burnt and the next n turned over, off the top of the deck. */
  ghost predicate TurnsOver(t: Table, u: Table, n: nat) {
    && |t.deck| > n && u.deck == t.deck[..|t.deck| - 1 - n]
    && |u.board| == |t.board| + n && u.board[..|t.board|] == t.board
    && forall i | |t.board| <= i < |u.board| :: u.board[i] == t.deck[|t.deck| - 2 - (i - |t.board|)]
  }

  /** Three cards on the flop, one on the turn and one on the river. */
  ghost predicate NextStreet(t: Table, u: Table) {
    match t.phase
    case PreFlop => u.phase == Flop && TurnsOver(t, u, 3)
    case Flop => u.phase == Turn && TurnsOver(t, u, 1)
    case Turn => u.phase == River && TurnsOver(t, u, 1)
    case _ => false
  }

  lemma BurnShows(deck: seq<Card>, board: seq<Card>, n: nat, street: Street)
    requires |deck| > n && street == BurnAndTurn(deck, board, n)
    ensures street.ok && street.deck == deck[..|deck| - 1 - n]
    ensures |street.board| == |board| + n && street.board[..|board|] == board
    ensures forall i | |board| <= i < |street.board| :: street.board[i] == deck[|deck| - 2 - (i - |board|)]
  {
    var rest := deck[..|deck| - 1];
    var up := Drawn(rest, n);
    assert street == Street(true, rest[..|rest| - n], board + up);
    forall i | |board| <= i < |street.board| ensures street.board[i] == deck[|deck| - 2 - (i - |board|)] {
      DrawnAt(rest, n, i - |board|);
    }
  }

  lemma BurnTurnsOver(t: Table, n: nat)
    requires |t.deck| > n
    ensures DealCommunity(t, n).Ok? && TurnsOver(t, DealCommunity(t, n).t, n)
  {
    BurnShows(t.deck, t.board, n, BurnAndTurn(t.deck, t.board, n));
  }

  lemma StreetTurnsOver(t: Table)
    requires Stocked(t) && !LastStreet(t.phase)
    ensures AdvanceStreet(t).Ok? && NextStreet(t, AdvanceStreet(t).t)
  {
    BurnTurnsOver(t, if t.phase == PreFlop then 3 else 1);
  }

  /** The next street is dealt and the first seat after the dealer that can act is on turn. */
  ghost predicate StreetOpensInOrder(t: Table, u: Table) {
    NextStreet(t, u) && FirstAfter(u.dealer, u.turn, |u.players|, ActingSeats(u))
  }

  lemma SettledIsDealt(t: Table)
    requires SettleAndAdvance(t).Ok? && !SettleAndAdvance(t).t.handComplete
    ensures !LastStreet(t.phase) && SettleAndAdvance(t) == AdvanceStreet(ClearStreet(t))
  {
  }

  lemma ClearedTurnsOver(t: Table, c: Table, u: Table)
    requires c.phase == t.phase && c.deck == t.deck && c.board == t.board && NextStreet(c, u)
    ensures NextStreet(t, u)
  {
  }

  lemma SettlingTurnsOver(t: Table, o: Outcome)
    requires Dealt(t) && BettingRoundComplete(t) && |Contenders(t)| >= 2 && o == SettleAndAdvance(t)
    ensures o.Ok? && (o.t.handComplete ||
                      (NextStreet(t, o.t)
                       && FirstAfter(o.t.dealer, FirstToActPostflop(o.t), |o.t.players|, ActingSeats(o.t))))
  {
    SettleKeeps(t);
    if !o.t.handComplete {
      var c := ClearStreet(t);
      SettledIsDealt(t);
      StreetTurnsOver(c);
      ClearedTurnsOver(t, c, o.t);
      DealerSideOpens(o.t);
    }
  }

  lemma DealerSideOpens(s: Table)
    requires FreshStreet(s)
    ensures FirstAfter(s.dealer, FirstToActPostflop(s), |s.players|, ActingSeats(s))
  {
    assert ActingSeats(s) != {};
    var i :| i in ActingSeats(s);
    NextSeatIsFirst(s.dealer, |s.players|, ActingSeats(s), 1);
  }

  /** The turn goes round to the next seat that owes. */
  ghost predicate TurnGoesRound(r: Table, u: Table) {
    && u.phase == r.phase && u.board == r.board && u.deck == r.deck && u.players == r.players
    && OwingSeats(u) == OwingSeats(r) && FirstAfter(r.turn, u.turn, |r.players|, OwingSeats(r))
  }

  /** Where the rules park the turn once an action has left r. */
  ghost predicate ParksInOrder(r: Table, s: Table) {
    || s.handComplete
    || (s.next.Some? && var u := s.(turn := s.next.value, next := None);
                        if OwingSeats(r) != {} then TurnGoesRound(r, u) else StreetOpensInOrder(r, u))
  }

  lemma RoundGoesOn(r: Table, seat: nat, u: Table)
    requires FirstAfter(r.turn, seat, |r.players|, OwingSeats(r)) && u == r.(turn := seat, next := None)
    ensures TurnGoesRound(r, u)
  {
    assert OwingSeats(u) == OwingSeats(r);
  }

  lemma StreetGoesOn(r: Table, s: Table, seat: nat, u: Table)
    requires NextStreet(r, s) && FirstAfter(s.dealer, seat, |s.players|, ActingSeats(s))
    requires u == s.(turn := seat, next := None)
    ensures StreetOpensInOrder(r, u)
  {
    assert ActingSeats(u) == ActingSeats(s);
  }

  lemma AfterBettingParks(r: Table)
    requires Dealt(r) && r.turn < |r.players| && !OwesSeat(r, r.turn) && Prefix(r, r.turn, 1) && |Contenders(r)| >= 1
    ensures AfterBettingAction(r).Ok? && ParksInOrder(r, AfterBettingAction(r).t)
  {
    if |Contenders(r)| == 1 {
      UncontestedCloses(r);
    } else if !BettingRoundComplete(r) {
      CursorMoves(r, r.turn);
      var i := NextToAct(r, r.turn);
      SearchIsFirst(r.turn, |r.players|, OwingSeats(r));
      RoundGoesOn(r, i, r.(turn := i, next := None));
    } else {
      SettlingTurnsOver(r, SettleAndAdvance(r));
      var s := SettleAndAdvance(r).t;
      if !s.handComplete {
        var seat := FirstToActPostflop(s);
        StreetGoesOn(r, s, seat, s.(turn := seat, next := None));
      }
    }
  }

  /** Nothing is left to decide: one player contests the pot, or nobody owes and it is the river or at most one can bet. */
  ghost predicate Decided(r: Table) {
    |Contenders(r)| == 1 || (OwingSeats(r) == {} && (r.phase == River || |ActingSeats(r)| < 2))
  }

  lemma SettledOver(t: Table, c: Table, o: Outcome)
    requires c == ClearStreet(t) && o == SettleAndAdvance(t) && o.Ok? && !t.handComplete
    ensures o.t.handComplete <==> LastStreet(c.phase) || |ActingSeats(c)| < 2
  {
  }

  lemma ClearedActs(t: Table, c: Table)
    requires SameMatch(c, t) && c.money == t.money
    ensures ActingSeats(c) == ActingSeats(t)
  {
  }

  lemma SettlingEnds(t: Table, o: Outcome)
    requires Dealt(t) && BettingRoundComplete(t) && |Contenders(t)| >= 2 && o == SettleAndAdvance(t)
    ensures o.Ok? && (o.t.handComplete <==> t.phase == River || |ActingSeats(t)| < 2)
  {
    var c := ClearStreet(t);
    SettleKeeps(t);
    ClearedActs(t, c);
    SettledOver(t, c, o);
  }

  lemma HandEndsWhenDecided(r: Table)
    requires Dealt(r) && r.turn < |r.players| && !OwesSeat(r, r.turn) && Prefix(r, r.turn, 1) && |Contenders(r)| >= 1
    ensures AfterBettingAction(r).Ok? && (AfterBettingAction(r).t.handComplete <==> Decided(r))
  {
    if |Contenders(r)| == 1 {
      UncontestedCloses(r);
    } else if !BettingRoundComplete(r) {
      CursorMoves(r, r.turn);
    } else {
      SettlingEnds(r, SettleAndAdvance(r));
    }
  }

  /**
   An action ends the hand exactly when it leaves nothing to decide. Otherwise the turn goes clockwise to the next seat
   that owes an action; when none does, the next street is dealt and opened by the first seat after the dealer that
   can act.
   */
  lemma BettingGoesOn(t: Table, a: Action, shuffled: seq<Card>)
    requires Valid(t) && !t.handComplete && !a.NextHand? && ValidateAction(t, a) && |shuffled| == 52
    ensures var r, g := ApplyAction(t, a), Submit(t, a, shuffled);
            && r.turn == t.turn && r.players == t.players
            && !g.Crashed? && (g.t.handComplete <==> Decided(r))
            && (!g.t.handComplete ==>
                  g.Playing? && if OwingSeats(r) != {} then TurnGoesRound(r, g.t) else StreetOpensInOrder(r, g.t))
  {
    var r := ApplyAction(t, a);
    ActionActs(t, a);
    AfterBettingParks(r);
    HandEndsWhenDecided(r);
    AfterBettingReady(t, r);
    ActionEnds(t, a, shuffled, r, AfterBettingAction(r));
  }

  lemma ActionEnds(t: Table, a: Action, shuffled: seq<Card>, r: Table, o: Outcome)
    requires Betting(t) && !a.NextHand? && ValidateAction(t, a) && r == ApplyAction(t, a) && o == AfterBettingAction(r)
    requires o.Ok? && Ready(o.t) && ParksInOrder(r, o.t)
    ensures var g := Submit(t, a, shuffled);
            && !g.Crashed? && g.t.handComplete == o.t.handComplete
            && (!g.t.handComplete ==>
                  g.Playing? && if OwingSeats(r) != {} then TurnGoesRound(r, g.t) else StreetOpensInOrder(r, g.t))
  {
    SubmitIs(t, a, shuffled, o);
    if !o.t.matchComplete {
      ReadyAdvances(o.t, true);
    }
  }

  // ---- Leaves ----

  /** The seat before k, going round n seats. */
  function SeatBefore(k: nat, n: nat): nat
    requires k < n
  {
    if k == 0 then n - 1 else k - 1
  }

  /** A seat marker goes on naming the same player, or the one before when its player left. */
  lemma MarkerFollows(ids: seq<Id>, marker: nat, gone: nat)
    requires marker < |ids| && gone < |ids| && |ids| > 1
    ensures var rest, now := DropAt(ids, gone), AdjustSeatIndex(marker, gone, |ids| - 1);
            now < |rest| && rest[now] == ids[if marker == gone then SeatBefore(gone, |ids|) else marker]
  {
    WrapsBack(gone, |ids| - 1);
  }

  lemma WrapsBack(k: nat, n: nat)
    requires k <= n && n > 0
    ensures (k + n - 1) % n == if k == 0 then n - 1 else k - 1
  {
    if k > 0 {
      OnceAround(k - 1, n);
    }
  }

  lemma OnceAround(x: nat, n: nat)
    requires x < n
    ensures (x + n) % n == x
  {
  }

  lemma UncontestedMovesNoMarker(s: Table)
    requires WinUncontested(s).Ok?
    ensures WinUncontested(s).t.dealer == s.dealer
  {
  }

  lemma SettlingMovesNoMarker(s: Table, o: Outcome)
    requires Dealt(s) && |Contenders(s)| >= 1 && o == AfterSeatsShift(s) && o.Ok?
    ensures o.t.dealer == s.dealer
  {
    if |Contenders(s)| == 1 {
      UncontestedMovesNoMarker(s);
    } else if BettingRoundComplete(s) {
      SettleKeeps(s);
      assert SameMatch(SettleAndAdvance(s).t, s);
    } else {
      assert o == KeepTurn(s);
    }
  }

  lemma RemovedMarkers(t: Table, seat: nat, u: Table, o: Outcome)
    requires Valid(t) && seat < |t.players| && |t.players| > 1
    requires u == Emptied(t, seat) && o == AfterPlayerRemoved(u, seat) && o.Ok?
    ensures o.t.dealer == AdjustSeatIndex(t.dealer, seat, |u.players|)
  {
    var s := Remarked(u, seat);
    SeatsShift(t, seat);
    if t.handComplete {
      assert o == Ok(FinishHand(s));
    } else {
      RemarkedHand(t, seat);
      assert o == AfterSeatsShift(s);
      SettlingMovesNoMarker(s, o);
    }
  }

  /** What is left once the rules have dealt with a leave. */
  lemma RemoveIs(t: Table, seat: nat, o: Outcome)
    requires seat < |t.players| && o == AfterPlayerRemoved(Emptied(t, seat), seat) && o.Ok?
    ensures Remove(t, seat).Playing? ==> !o.t.matchComplete && Remove(t, seat).t == ApplyNextTurn(o.t, false)
    ensures !o.t.matchComplete && o.t.players != [] && (|o.t.players| > 1 || o.t.next.Some?) ==> Remove(t, seat).Playing?
  {
  }

  lemma LeaverIsRemoved(t: Table, seat: nat, o: Outcome)
    requires Valid(t) && seat < |t.players| && |t.players| > 1 && o == AfterPlayerRemoved(Emptied(t, seat), seat)
    ensures o.Ok? && o.t.players == DropAt(t.players, seat)
    ensures o.t.dealer == AdjustSeatIndex(t.dealer, seat, |t.players| - 1)
  {
    if t.handComplete {
      LeaveBetweenHands(t, seat);
    } else {
      LeaveMidHand(t, seat);
    }
    RemovedMarkers(t, seat, Emptied(t, seat), o);
  }

  /** Somebody leaving does not move the deal: the dealer stays, or the player before the dealer who left stands in. */
  lemma LeavingKeepsTheDeal(t: Table, seat: nat)
    requires Valid(t) && seat < |t.players| && |t.players| > 1
    ensures var g := Remove(t, seat);
            g.Playing? ==> (
              && g.t.players == DropAt(t.players, seat) && g.t.dealer < |g.t.players|
              && g.t.players[g.t.dealer]
                 == t.players[if seat == t.dealer then SeatBefore(seat, |t.players|) else t.dealer])
  {
    var o := AfterPlayerRemoved(Emptied(t, seat), seat);
    LeaverIsRemoved(t, seat, o);
    RemoveIs(t, seat, o);
    MarkerFollows(t.players, t.dealer, seat);
  }

  /** The first seat clockwise from p that owes, p itself coming first. */
  ghost predicate FirstOwing(s: Table, p: nat, i: nat)
    requires p < |s.players|
  {
    && OwesSeat(s, i)
    && forall b: nat | OwesSeat(s, b) :: Dist(p, b, |s.players|) >= Dist(p, i, |s.players|)
  }

  lemma NextIsFirst(s: Table, i: nat)
    requires s.turn < |s.players| && !OwesSeat(s, s.turn) && NextToAct(s, s.turn) == i
    ensures FirstOwing(s, s.turn, i)
  {
    NextSeatIsFirst(s.turn, |s.players|, OwingSeats(s), 1);
    forall b: nat | OwesSeat(s, b) ensures Dist(s.turn, b, |s.players|) >= Dist(s.turn, i, |s.players|) {
      assert b in OwingSeats(s) && i in OwingSeats(s);
    }
  }

  lemma TurnKeptIsFirst(s: Table)
    requires Dealt(s) && |Contenders(s)| >= 2 && !BettingRoundComplete(s)
    requires s.turn < |s.players| && Prefix(s, s.turn, 0)
    ensures var o := KeepTurn(s);
            o.Ok? && o.t == s.(turn := o.t.turn, next := Some(o.t.turn)) && FirstOwing(s, s.turn, o.t.turn)
  {
    if CannotAct(s, s.players[s.turn]) {
      CursorMoves(s, s.turn);
      NextIsFirst(s, NextToAct(s, s.turn));
    } else {
      OwingMeansSomebody(s);
      var some :| OwesSeat(s, some);
      assert CanAct(s, s.turn);
    }
  }

  /** First from the shifted turn means first of the others from the turn there was. */
  lemma FirstOwingUnshifts(t: Table, s: Table, seat: nat, i: nat)
    requires t.turn < |t.players| && seat < |t.players| && |t.players| > 1 && |s.players| == |t.players| - 1
    requires s.turn == ShiftedTurn(t.turn, seat, |t.players|) && FirstOwing(s, s.turn, i)
    requires forall k: nat | k < |s.players| :: OwesSeat(s, k) == OwesSeat(t, Unshift(k, seat))
    requires seat == t.turn
    ensures FirstAfter(t.turn, Unshift(i, seat), |t.players|, OwingSeats(t) - {seat})
  {
    var n := |t.players|;
    assert OwesSeat(t, Unshift(i, seat));
    forall a | a in OwingSeats(t) - {seat} ensures Steps(t.turn, a, n) >= Steps(t.turn, Unshift(i, seat), n) {
      var b := if a > seat then a - 1 else a;
      assert Unshift(b, seat) == a && OwesSeat(t, a);
      ShiftKeepsOrder(t.turn, seat, n, i, b);
    }
  }

  /** Who is on turn once somebody has left: the same player, or the next who owes when it was them that left. */
  ghost predicate TurnPassesOn(t: Table, seat: nat, u: Table)
    requires t.turn < |t.players| && seat < |t.players|
  {
    && u.turn < |u.players|
    && if seat != t.turn then u.players[u.turn] == t.players[t.turn]
       else exists j: nat :: FirstAfter(seat, j, |t.players|, OwingSeats(t) - {seat}) && u.players[u.turn] == t.players[j]
  }

  lemma ShiftedTurnPasses(t: Table, s: Table, seat: nat, i: nat)
    requires t.turn < |t.players| && seat < |t.players| && |t.players| > 1 && OwesSeat(t, t.turn)
    requires s.players == DropAt(t.players, seat)
    requires s.turn == ShiftedTurn(t.turn, seat, |t.players|) && FirstOwing(s, s.turn, i)
    requires forall k: nat | k < |s.players| :: OwesSeat(s, k) == OwesSeat(t, Unshift(k, seat))
    ensures TurnPassesOn(t, seat, s.(turn := i))
  {
    if seat != t.turn {
      assert Unshift(s.turn, seat) == t.turn;
      assert OwesSeat(s, s.turn);
      assert Dist(s.turn, s.turn, |s.players|) == 0;
    } else {
      FirstOwingUnshifts(t, s, seat, i);
      assert s.players[i] == t.players[Unshift(i, seat)];
    }
  }

  /**
   Somebody leaving in the middle of a round that goes on leaves the same player on turn; when the leaver was on turn
   it passes to the next who owes.
   */
  lemma LeavingKeepsTheTurn(t: Table, seat: nat)
    requires Betting(t) && t.next.None? && seat < |t.players| && |t.players| > 1
    requires |Contenders(Emptied(t, seat))| >= 2 && !BettingRoundComplete(Emptied(t, seat))
    ensures var g := Remove(t, seat);
            g.Playing? && g.t.players == DropAt(t.players, seat) && TurnPassesOn(t, seat, g.t)
  {
    var s := Remarked(Emptied(t, seat), seat);
    RoundStaysOpen(t, seat, s);
    TurnIsShifted(t, seat, s);
    KeptTurnPasses(t, seat, s);
    TurnIsKept(t, seat, s);
  }

  lemma TurnIsShifted(t: Table, seat: nat, s: Table)
    requires Betting(t) && seat < |t.players| && |t.players| > 1 && s == Remarked(Emptied(t, seat), seat)
    ensures s.turn < |s.players| && Prefix(s, s.turn, 0)
    ensures s.players == DropAt(t.players, seat) && s.turn == ShiftedTurn(t.turn, seat, |t.players|)
  {
    RemarkedOrder(t, seat);
    RemarkedTurn(t, seat, s.players, s.turn);
  }

  lemma RemarkedTurn(t: Table, seat: nat, players: seq<Id>, turn: nat)
    requires t.turn < |t.players| && seat < |t.players| && |t.players| > 1
    requires players == Emptied(t, seat).players && turn == Emptied(t, seat).turn
    ensures players == DropAt(t.players, seat) && turn == ShiftedTurn(t.turn, seat, |t.players|)
  {
    ShiftedTurnIsClamped(t.turn, seat, |t.players|);
  }

  lemma KeptTurnPasses(t: Table, seat: nat, s: Table)
    requires Cursor(t) && seat < |t.players| && |t.players| > 1 && s.players == DropAt(t.players, seat)
    requires Dealt(s) && |Contenders(s)| >= 2 && !BettingRoundComplete(s)
    requires s.turn == ShiftedTurn(t.turn, seat, |t.players|) && Prefix(s, s.turn, 0)
    requires forall k: nat | k < |s.players| :: OwesSeat(s, k) == OwesSeat(t, Unshift(k, seat))
    ensures KeepTurn(s).Ok? && TurnPassesOn(t, seat, KeepTurn(s).t)
  {
    TurnKeptIsFirst(s);
    ShiftedTurnPasses(t, s, seat, KeepTurn(s).t.turn);
  }

  lemma RoundStaysOpen(t: Table, seat: nat, s: Table)
    requires Betting(t) && seat < |t.players| && |t.players| > 1 && s == Remarked(Emptied(t, seat), seat)
    requires |Contenders(Emptied(t, seat))| >= 2 && !BettingRoundComplete(Emptied(t, seat))
    ensures Dealt(s) && |Contenders(s)| >= 2 && !BettingRoundComplete(s)
    ensures forall k: nat | k < |s.players| :: OwesSeat(s, k) == OwesSeat(t, Unshift(k, seat))
  {
    var u := Emptied(t, seat);
    StandingSurvives(t, seat);
    RemarkedHand(t, seat);
    SeatsShift(t, seat);
    SameContenders(u, s);
    assert OwingSeats(s) == OwingSeats(u);
    assert forall k: nat | k < |s.players| :: OwesSeat(s, k) == OwesSeat(u, k);
  }

  lemma TurnIsKept(t: Table, seat: nat, s: Table)
    requires Betting(t) && seat < |t.players| && |t.players| > 1 && s == Remarked(Emptied(t, seat), seat)
    requires |Contenders(s)| >= 2 && !BettingRoundComplete(s) && KeepTurn(s).Ok?
    ensures Remove(t, seat).Playing? && Remove(t, seat).t == KeepTurn(s).t.(next := None)
  {
    var u := Emptied(t, seat);
    RemarkedHand(t, seat);
    assert AfterPlayerRemoved(u, seat) == KeepTurn(s);
    LeaveMidHand(t, seat);
    RemoveIs(t, seat, KeepTurn(s));
    ReadyAdvances(KeepTurn(s).t, false);
  }
}
