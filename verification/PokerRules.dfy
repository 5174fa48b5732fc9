/** No-Limit Hold'em over a match of several hands: the rules as functions from table to table. */
module PokerRules {
  import opened Cards
  import opened Options
  import opened Sums
  import opened PokerMoney
  import opened HandEvaluator

  const DEFAULT_STACK := 1000
  const DEFAULT_SMALL_BLIND := 25
  const DEFAULT_BIG_BLIND := 50
  const HANDS_PER_MATCH := 10
  const HOLE_CARDS := 2
  // Burn, flop, turn, river and a two-card margin.
  const MIN_DECK_AFTER_DEAL := 1 + 3 + 1 + 1 + 2
  const MAX_PLAYERS := 9

  datatype Phase = PreFlop | Flop | Turn | River | Showdown

  datatype Action = Fold | Check | Call | RaiseTo(amount: nat) | AllIn | NextHand

  datatype Table = Table(
    players: seq<Id>, left: seq<Id>, turn: nat, next: Option<nat>,
    deck: seq<Card>, hole: map<Id, seq<Card>>,
    dealer: nat, sb: nat, bb: nat,
    money: Ledger, bets: map<Id, nat>, currentBet: nat, minRaise: nat, smallBlind: nat, bigBlind: nat,
    phase: Phase, folded: set<Id>, allIn: set<Id>, acted: set<Id>, board: seq<Card>,
    pots: seq<Pot>, handComplete: bool, winners: seq<Id>, reachedShowdown: bool,
    handNumber: nat, handsTotal: nat, matchComplete: bool, busted: map<Id, nat>, startChips: nat)

  /**
   What a hook does: it succeeds, or returns an error over a half-applied table, or runs into an
   index out of range or an unsigned subtraction below zero.
   */
  datatype Outcome = Ok(t: Table) | Broken(t: Table) | Crash

  /** Everything a street or a showdown leaves alone. */
  ghost predicate SameMatch(s: Table, t: Table) {
    && s.players == t.players && s.left == t.left && s.dealer == t.dealer && s.turn == t.turn
    && s.handNumber == t.handNumber && s.handsTotal == t.handsTotal && s.matchComplete == t.matchComplete
    && s.smallBlind == t.smallBlind && s.bigBlind == t.bigBlind && s.startChips == t.startChips
    && s.folded == t.folded && s.allIn == t.allIn
  }

  // ---- Reading the table ----

  function Chips(t: Table, id: Id): nat {
    At(t.money.chips, id)
  }

  predicate CannotAct(t: Table, id: Id) {
    id in t.folded || id in t.allIn || Chips(t, id) == 0
  }

  /** Can act, and has not acted since the last full raise or has not matched the bet. */
  predicate Owes(t: Table, id: Id) {
    !CannotAct(t, id) && (id !in t.acted || At(t.bets, id) < t.currentBet)
  }

  function ActingSeats(t: Table): set<nat> {
    set i | 0 <= i < |t.players| && !CannotAct(t, t.players[i])
  }

  function OwingSeats(t: Table): set<nat> {
    set i | 0 <= i < |t.players| && Owes(t, t.players[i])
  }

  function FundedSeats(t: Table): set<nat> {
    set i | 0 <= i < |t.players| && Chips(t, t.players[i]) > 0
  }

  predicate BettingRoundComplete(t: Table) {
    OwingSeats(t) == {}
  }

  /** The first of seats clockwise after from, wrapping once; -1 when there is none. */
  function NextSeat(from: nat, n: nat, seats: set<nat>, step: nat := 1): (seat: int)
    ensures -1 <= seat < n
    ensures seat >= 0 ==> seat in seats
    decreases n + 1 - step
  {
    if n == 0 || step > n then -1
    else if (from + step) % n in seats then (from + step) % n
    else NextSeat(from, n, seats, step + 1)
  }

  function NextToAct(t: Table, from: nat): int
  {
    NextSeat(from, |t.players|, OwingSeats(t))
  }

  function NextFundedSeat(t: Table, from: nat): (seat: nat)
    ensures from < |t.players| ==> seat < |t.players|
  {
    var i := NextSeat(from, |t.players|, FundedSeats(t));
    if i < 0 then from else i
  }

  function FirstToActPostflop(t: Table): nat
  {
    var i := NextSeat(t.dealer, |t.players|, ActingSeats(t));
    if i < 0 then t.turn else i
  }

  function Keep(ids: seq<Id>, keep: set<Id>): seq<Id> {
    if ids == [] then [] else (if ids[0] in keep then [ids[0]] else []) + Keep(ids[1..], keep)
  }

  /** Seated players who have not folded, and players who left the table while all-in. */
  function Contenders(t: Table): seq<Id> {
    Keep(t.players, Elements(t.players) - t.folded) + Keep(t.left, t.allIn - t.folded)
  }

  function Live(t: Table): set<Id> {
    Elements(Contenders(t))
  }

  /** Chips a player must add to match the bet. */
  function ToCall(t: Table, id: Id): nat {
    if t.currentBet <= At(t.bets, id) then 0 else t.currentBet - At(t.bets, id)
  }

  // ---- Dealing a hand ----

  function ResetForHand(t: Table): Table {
    t.(folded := {}, allIn := {}, bets := map[], acted := {}, board := [], pots := [], winners := [],
       money := Ledger(t.money.chips, map[], 0), currentBet := 0, minRaise := t.bigBlind, phase := PreFlop,
       handComplete := false, reachedShowdown := false)
  }

  /** Hole cards dealt so far, the deck left, who sits out broke, and whether the deck lasted. */
  datatype Deal = Deal(hole: map<Id, seq<Card>>, deck: seq<Card>, broke: set<Id>, ok: bool)

  function DealSeat(d: Deal, id: Id, chips: nat): Deal {
    if !d.ok then d
    else if chips == 0 then Deal(d.hole[id := []], d.deck, d.broke + {id}, true)
    else if |d.deck| < HOLE_CARDS then d.(ok := false)
    else Deal(d.hole[id := Drawn(d.deck, HOLE_CARDS)], d.deck[..|d.deck| - HOLE_CARDS], d.broke, true)
  }

  /** Deals to the first n of ids. */
  function DealRound(ids: seq<Id>, chips: map<Id, nat>, start: Deal, n: nat): Deal
    requires n <= |ids|
  {
    if n == 0 then start else DealSeat(DealRound(ids, chips, start, n - 1), ids[n - 1], At(chips, ids[n - 1]))
  }

  /** Deals the first n seats. */
  function DealSeats(t: Table, n: nat): Deal
    requires n <= |t.players|
  {
    DealRound(t.players, t.money.chips, Deal(t.hole, t.deck, {}, true), n)
  }

  function DealHoleCards(t: Table): (dealt: Outcome)
    ensures !dealt.Crash? && dealt.t.players == t.players
  {
    var d := DealSeats(t, |t.players|);
    var r := t.(hole := d.hole, deck := d.deck, folded := t.folded + d.broke, acted := t.acted + d.broke);
    if !d.ok || |FundedSeats(t)| < 2 then Broken(r) else Ok(r)
  }

  /** A fresh hand: everything reset, a shuffled deck, hole cards for every seat still holding chips. */
  ghost function DealHand(t: Table, shuffled: seq<Card>): (dealt: Outcome)
    ensures !dealt.Crash? && dealt.t.players == t.players
  {
    var blank := ResetForHand(t).(handNumber := t.handNumber + 1, deck := shuffled, startChips := Total(t.money.chips));
    var dealt := DealHoleCards(blank);
    if dealt.Ok? && |dealt.t.deck| < MIN_DECK_AFTER_DEAL then Broken(dealt.t) else dealt
  }

  function SetBlinds(t: Table, dealer: nat, headsUp: bool): (r: Table)
    requires dealer < |t.players|
    ensures r.sb < |r.players| && r.bb < |r.players| && r.dealer < |r.players|
  {
    var first := NextFundedSeat(t, dealer);
    if headsUp then t.(dealer := dealer, sb := dealer, bb := first)
    else t.(dealer := dealer, sb := first, bb := NextFundedSeat(t, first))
  }

  /** Moves amount chips from a stack to this street's bet and to the pool. */
  function PutIn(t: Table, id: Id, amount: nat): Table
    requires amount <= Chips(t, id)
  {
    t.(money := Commit(t.money, id, amount), bets := t.bets[id := At(t.bets, id) + amount],
       allIn := if amount == Chips(t, id) then t.allIn + {id} else t.allIn)
  }

  function PostBlind(t: Table, id: Id, amount: nat): Table {
    PutIn(t, id, Min(amount, Chips(t, id)))
  }

  /** Both blinds posted; the opening bet is the full big blind even when it was posted short. */
  function PostBlinds(t: Table, dealer: nat): (r: Table)
    requires dealer < |t.players|
    ensures r.players == t.players && r.dealer == dealer
  {
    var b := SetBlinds(t, dealer, |FundedSeats(t)| == 2);
    var t1 := PostBlind(b, b.players[b.sb], b.smallBlind);
    var t2 := PostBlind(t1, b.players[b.bb], b.bigBlind);
    t2.(currentBet := t2.bigBlind)
  }

  /** The seat under the gun, or -1 when the blinds put everybody all-in. */
  function FirstToActPreflop(t: Table, headsUp: bool): int
    requires t.dealer < |t.players|
  {
    if headsUp && !CannotAct(t, t.players[t.dealer]) then t.dealer else NextToAct(t, t.bb)
  }

  /** Parks the turn on the first decision; with none to make, the board just runs out. */
  ghost function OpenBetting(t: Table, first: int): Outcome {
    if first < 0 then SettleAndAdvance(t) else Ok(t.(turn := first, next := Some(first)))
  }

  ghost function BeginHand(t: Table, dealer: nat, shuffled: seq<Card>): Outcome
    requires dealer < |t.players|
  {
    var dealt := DealHand(t, shuffled);
    if dealt.Broken? then dealt
    else
      var posted := PostBlinds(dealt.t, dealer);
      OpenBetting(posted, FirstToActPreflop(posted, |FundedSeats(dealt.t)| == 2))
  }

  /** A hand the deal already finished is closed at once. */
  ghost function BeginHandOrFinish(t: Table, dealer: nat, shuffled: seq<Card>): Outcome
    requires dealer < |t.players|
  {
    CloseIfComplete(BeginHand(t, dealer, shuffled))
  }

  ghost function CloseIfComplete(o: Outcome): Outcome {
    if o.Ok? && o.t.handComplete then Ok(FinishHand(o.t)) else o
  }

  // ---- Closing a hand ----

  /** Stamps the hand on everybody newly broke; an earlier stamp stays. */
  function Stamped(busted: map<Id, nat>, broke: set<Id>, hand: nat): map<Id, nat> {
    map id | id in busted.Keys + broke :: if id in busted then busted[id] else if id in broke then hand else 0
  }

  function Broke(ids: seq<Id>, chips: map<Id, nat>): set<Id> {
    set id | id in ids && At(chips, id) == 0
  }

  function RecordBustouts(t: Table): (r: Table)
    ensures r == t.(busted := r.busted)
  {
    t.(busted := Stamped(t.busted, Broke(t.players, t.money.chips), t.handNumber))
  }

  /** Ends the match, or parks the turn on the next dealer. */
  function EndOrPark(t: Table): (r: Table)
    ensures r == t.(matchComplete := r.matchComplete, turn := r.turn, next := r.next)
  {
    if t.handNumber >= t.handsTotal || |FundedSeats(t)| <= 1 then t.(matchComplete := true, next := None)
    else
      var seat := NextFundedSeat(t, t.dealer);
      t.(turn := seat, next := Some(seat))
  }

  function FinishHand(t: Table): (r: Table)
    ensures r == t.(handComplete := true, phase := Showdown, busted := r.busted, matchComplete := r.matchComplete,
                    turn := r.turn, next := r.next)
  {
    EndOrPark(RecordBustouts(t.(handComplete := true, phase := Showdown)))
  }

  // ---- Streets ----

  function NoBets(bets: map<Id, nat>, seated: seq<Id>): map<Id, nat> {
    map id | id in bets.Keys + Elements(seated) :: if id in seated then 0 else At(bets, id)
  }

  function ClearStreet(t: Table): (r: Table)
    ensures SameMatch(r, t) && r.money == t.money && r.handComplete == t.handComplete
  {
    t.(bets := NoBets(t.bets, t.players),
       acted := t.acted - Elements(t.players), currentBet := 0, minRaise := t.bigBlind)
  }

  /** Whether the deck sufficed, and the deck and board afterwards. */
  datatype Street = Street(ok: bool, deck: seq<Card>, board: seq<Card>)

  /** Burns one card and turns n over, stopping where the deck runs dry. */
  function BurnAndTurn(deck: seq<Card>, board: seq<Card>, n: nat): Street {
    if deck == [] then Street(false, deck, board)
    else
      var rest := deck[..|deck| - 1];
      if |rest| < n then Street(false, [], board + Reverse(rest))
      else Street(true, rest[..|rest| - n], board + Drawn(rest, n))
  }

  function DealCommunity(t: Table, n: nat): (dealt: Outcome)
    ensures !dealt.Crash?
    ensures SameMatch(dealt.t, t) && dealt.t.money == t.money && dealt.t.handComplete == t.handComplete
  {
    var street := BurnAndTurn(t.deck, t.board, n);
    var r := t.(deck := street.deck, board := street.board);
    if street.ok then Ok(r) else Broken(r)
  }

  function NextPhase(p: Phase): Phase {
    match p
    case PreFlop => Flop
    case Flop => Turn
    case Turn => River
    case _ => Showdown
  }

  predicate LastStreet(p: Phase) {
    p == River || p == Showdown
  }

  /** Deals the next street; only called while there is one left. */
  function AdvanceStreet(t: Table): (dealt: Outcome)
    ensures dealt.Ok? ==> dealt.t.phase == NextPhase(t.phase)
    ensures !dealt.Crash?
    ensures SameMatch(dealt.t, t) && dealt.t.money == t.money && dealt.t.handComplete == t.handComplete
  {
    var dealt := DealCommunity(t, if t.phase == PreFlop then 3 else 1);
    if dealt.Ok? then Ok(dealt.t.(phase := NextPhase(t.phase))) else dealt
  }

  function StreetsLeft(p: Phase): nat {
    match p
    case PreFlop => 4
    case Flop => 3
    case Turn => 2
    case River => 1
    case Showdown => 0
  }

  ghost function RunOutBoard(t: Table): (r: Outcome)
    ensures r.Ok? ==> SameMatch(r.t, t) && r.t.handComplete
    decreases StreetsLeft(t.phase)
  {
    if LastStreet(t.phase) then RunShowdown(t)
    else
      var dealt := AdvanceStreet(t);
      if dealt.Ok? then RunOutBoard(dealt.t) else dealt
  }

  function HandScore(t: Table, id: Id): nat {
    Evaluate((if id in t.hole then t.hole[id] else []) + t.board)
  }

  function HandScores(ids: seq<Id>, t: Table): map<Id, nat> {
    map id | id in ids :: if id in ids then HandScore(t, id) else 0
  }

  /** Everybody who took a share, main pot first. */
  function AllWinners(pots: seq<Pot>, scores: map<Id, int>): seq<Id> {
    if pots == [] then []
    else
      var before := AllWinners(pots[..|pots| - 1], scores);
      before + Keep(PotWinners(pots[|pots| - 1], scores),
                    Elements(PotWinners(pots[|pots| - 1], scores)) - Elements(before))
  }

  /** Scores are read before any chip moves; without a live contribution there is no last pot for dead money. */
  ghost function RunShowdown(t: Table): (r: Outcome)
    ensures r.Ok? ==> SameMatch(r.t, t) && r.t.handComplete
  {
    var ids, live := Contenders(t), Live(t);
    if !t.money.Unpaid() || !LiveMoney(RefundUncalled(t.money).contributed, live) then Crash
    else
      var scores, pots := HandScores(ids, t), SidePots(RefundUncalled(t.money).contributed, live);
      Ok(t.(phase := Showdown, reachedShowdown := true, handComplete := true, pots := pots,
            winners := AllWinners(pots, scores), money := PayShowdown(t.money, live, scores)))
  }

  ghost function SettleAndAdvance(t: Table): (r: Outcome)
    ensures r.Ok? ==> SameMatch(r.t, t)
  {
    var cleared := ClearStreet(t);
    if LastStreet(cleared.phase) then RunShowdown(cleared)
    else
      var dealt := AdvanceStreet(cleared);
      if dealt.Ok? && |ActingSeats(cleared)| < 2 then RunOutBoard(dealt.t) else dealt
  }

  // ---- Betting ----

  function MaxCallable(t: Table, ids: seq<Id>, self: Id): nat {
    if ids == [] then 0
    else
      var rest := MaxCallable(t, ids[1..], self);
      if ids[0] == self then rest else Max(rest, At(t.bets, ids[0]) + Chips(t, ids[0]))
  }

  predicate ValidateRaiseTo(t: Table, id: Id, amount: nat)
    requires At(t.bets, id) <= t.currentBet
  {
    && id !in t.acted
    && amount > t.currentBet
    && amount <= MaxCallable(t, Contenders(t), id)
    && (var additional := amount - At(t.bets, id);
        && additional <= Chips(t, id)
        && (additional == Chips(t, id) || amount - t.currentBet >= t.minRaise))
  }

  predicate ValidateAction(t: Table, a: Action)
    requires t.turn < |t.players| && (t.handComplete || At(t.bets, t.players[t.turn]) <= t.currentBet)
  {
    var id := t.players[t.turn];
    if a.NextHand? then t.handComplete && !t.matchComplete
    else if t.handComplete || t.phase == Showdown || id in t.folded || id in t.allIn then false
    else
      match a
      case Fold => true
      case Check => ToCall(t, id) == 0
      case Call => ToCall(t, id) > 0
      case RaiseTo(amount) => ValidateRaiseTo(t, id, amount)
      case AllIn =>
        Chips(t, id) > 0 && (At(t.bets, id) + Chips(t, id) > t.currentBet ==> id !in t.acted)
  }

  /** Raises the street bet to streetTotal, clamped to the chips there are. */
  function CommitTo(t: Table, id: Id, streetTotal: nat): (r: Table)
    ensures r.players == t.players && r.turn == t.turn
  {
    if streetTotal < At(t.bets, id) then t
    else PutIn(t, id, Min(streetTotal - At(t.bets, id), Chips(t, id)))
  }

  /** Who needs no further turn once the round reopens: the raiser and whoever is out of decisions. */
  function StillActed(acted: set<Id>, players: seq<Id>, raiser: Id, done: set<Id>): set<Id> {
    set id | id in acted && (id !in players || id == raiser || id in done)
  }

  /** Only a full-size raise reopens the round for players who already acted. */
  function ApplyBetIncrease(t: Table, raiser: Id, newBet: nat): (r: Table)
    ensures r.players == t.players && r.turn == t.turn
  {
    if newBet <= t.currentBet then t
    else
      var raiseSize := newBet - t.currentBet;
      if raiseSize >= t.minRaise then
        t.(currentBet := newBet, minRaise := raiseSize,
           acted := StillActed(t.acted, t.players, raiser, t.folded + t.allIn))
      else t.(currentBet := newBet)
  }

  function Raise(t: Table, id: Id, streetTotal: nat): (r: Table)
    ensures r.players == t.players && r.turn == t.turn
  {
    var paid := CommitTo(t, id, streetTotal);
    ApplyBetIncrease(paid, id, At(paid.bets, id))
  }

  function MarkActed(t: Table, id: Id): Table {
    t.(acted := t.acted + {id})
  }

  function ApplyAction(t: Table, a: Action): (r: Table)
    requires t.turn < |t.players|
    ensures r.players == t.players && r.turn == t.turn
  {
    var id := t.players[t.turn];
    var shove := At(t.bets, id) + Chips(t, id);
    match a
    case Fold => MarkActed(t.(folded := t.folded + {id}), id)
    case Check => MarkActed(t, id)
    case Call => MarkActed(CommitTo(t, id, t.currentBet), id)
    case RaiseTo(amount) => MarkActed(Raise(t, id, amount), id)
    case AllIn => MarkActed(if shove > t.currentBet then Raise(t, id, shove) else CommitTo(t, id, shove), id)
    case NextHand => t
  }

  /** The last claimant takes the pool. */
  ghost function WinUncontested(t: Table): Outcome {
    var live := Contenders(t);
    if !t.money.Unpaid() || live == [] then Crash
    else Ok(FinishHand(t.(money := AwardUncontested(t.money, live[0]), pots := [], winners := [live[0]])))
  }

  ghost function AfterBettingAction(t: Table): Outcome
    requires t.turn < |t.players|
  {
    if t.handComplete then Ok(t)
    else if |Contenders(t)| == 1 then WinUncontested(t)
    else if !BettingRoundComplete(t) && NextToAct(t, t.turn) >= 0 then
      Ok(t.(next := Some(NextToAct(t, t.turn))))
    else
      var settled := SettleAndAdvance(t);
      match settled
      case Crash => Crash
      case Broken(b) => Broken(b.(money := RefundContributions(b.money), pots := []))
      case Ok(s) =>
        if s.handComplete then Ok(FinishHand(s))
        else Ok(s.(next := Some(FirstToActPostflop(s))))
  }

  ghost function AfterAction(t: Table, a: Action, shuffled: seq<Card>): Outcome
    requires t.turn < |t.players|
  {
    if a.NextHand? then
      if t.dealer < |t.players| then BeginHandOrFinish(t, NextFundedSeat(t, t.dealer), shuffled) else Crash
    else AfterBettingAction(t)
  }

  /** Checks when that is free, folds when it is not, deals the next hand between hands. */
  function TimeoutAction(t: Table): Option<Action> {
    if t.handComplete then if t.matchComplete then None else Some(NextHand)
    else if t.turn >= |t.players| then None
    else if ToCall(t, t.players[t.turn]) == 0 then Some(Check)
    else Some(Fold)
  }

  // ---- Leaving ----

  function OnPlayerLeave(t: Table, id: Id): Table {
    if t.handComplete || id in t.allIn then t
    else t.(folded := t.folded + {id}, acted := t.acted + {id})
  }

  /** Where a seat marker ends up once a seat is gone; its own holder's marker moves back one. */
  function AdjustSeatIndex(seat: nat, removed: nat, nAfter: nat): nat {
    if nAfter == 0 then 0
    else
      var moved := if seat > removed then seat - 1
                   else if seat == removed then (removed + nAfter - 1) % nAfter
                   else seat;
      Min(moved, nAfter - 1)
  }

  /** The turn stays where it is unless that seat is out of decisions. */
  function KeepTurn(t: Table): Outcome {
    if t.turn >= |t.players| then Crash
    else
      var i := if CannotAct(t, t.players[t.turn]) then NextToAct(t, t.turn) else t.turn;
      if i < 0 then Crash else Ok(t.(turn := i, next := Some(i)))
  }

  /** A hand in progress once the leaver's seat is gone. */
  ghost function AfterSeatsShift(t: Table): Outcome {
    if |Contenders(t)| == 1 then WinUncontested(t)
    else if BettingRoundComplete(t) then
      var settled := SettleAndAdvance(t);
      match settled
      case Crash => Crash
      case Broken(b) => Ok(FinishHand(b.(money := RefundContributions(b.money), pots := [])))
      case Ok(r) =>
        if r.handComplete then Ok(FinishHand(r))
        else
          var first := FirstToActPostflop(r);
          Ok(r.(turn := first, next := Some(first)))
    else KeepTurn(t)
  }

  ghost function AfterPlayerRemoved(t: Table, removed: nat): Outcome {
    var n := |t.players|;
    if n == 0 then Ok(t)
    else
      var s := t.(dealer := AdjustSeatIndex(t.dealer, removed, n), sb := AdjustSeatIndex(t.sb, removed, n),
                  bb := AdjustSeatIndex(t.bb, removed, n));
      if s.handComplete then Ok(FinishHand(s)) else AfterSeatsShift(s)
  }

  // ---- The engine around the rules ----

  datatype Event =
    | Act(a: Action, shuffled: seq<Card>)  // by the seat on turn; shuffled is the deck a new hand would use
    | Leave(seat: nat)

  datatype Game = Playing(t: Table) | Finished(t: Table) | Crashed

  function Clamp(turn: nat, n: nat): nat {
    if n == 0 then 0 else turn % n
  }

  function ApplyNextTurn(t: Table, advance: bool): Table {
    var turn := if t.next.Some? then t.next.value else if advance then t.turn + 1 else t.turn;
    t.(turn := Clamp(turn, |t.players|), next := None)
  }

  ghost function Submit(t: Table, a: Action, shuffled: seq<Card>): Game
    requires t.turn < |t.players| && (t.handComplete || At(t.bets, t.players[t.turn]) <= t.currentBet)
  {
    if !ValidateAction(t, a) then Playing(t)
    else
      match AfterAction(ApplyAction(t, a), a, shuffled)
      case Crash => Crashed
      case Broken(b) => Finished(b)
      case Ok(s) => if s.matchComplete then Finished(s) else Playing(ApplyNextTurn(s, true))
  }

  function Unseat(t: Table, seat: nat): Table
    requires seat < |t.players|
  {
    var players := DropAt(t.players, seat);
    t.(players := players, left := t.left + [t.players[seat]],
       turn := Clamp(if t.turn > seat then t.turn - 1 else t.turn, |players|))
  }

  ghost function Remove(t: Table, seat: nat): Game
    requires seat < |t.players|
  {
    var removed := AfterPlayerRemoved(Unseat(OnPlayerLeave(t, t.players[seat]), seat), seat);
    match removed
    case Crash => Crashed
    case Broken(b) => Finished(b)
    case Ok(s) =>
      if s.players == [] || s.matchComplete then Finished(s)
      else if |s.players| == 1 && s.next.None? then Finished(s)
      else Playing(ApplyNextTurn(s, false))
  }

  /** Everybody starts with the same stack. */
  function Stakes(players: seq<Id>): map<Id, nat> {
    map id | id in players :: if id in players then DEFAULT_STACK else 0
  }

  /** The seat picked at random takes the button, and everybody seated a full stack. */
  function Blank(players: seq<Id>, left: seq<Id>, button: nat): Table {
    Table(players, left, button, None, [], map[], button, 0, 0,
          Ledger(Stakes(players), map[], 0), map[], 0, 0,
          DEFAULT_SMALL_BLIND, DEFAULT_BIG_BLIND, PreFlop, {}, {}, {}, [], [], false, [], false,
          0, HANDS_PER_MATCH, false, map[], 0)
  }

  /** Opens a match. */
  ghost function Start(players: seq<Id>, button: nat, shuffled: seq<Card>): Game
    requires button < |players|
  {
    match BeginHandOrFinish(Blank(players, [], button), button, shuffled)
    case Crash => Crashed
    case Broken(b) => Finished(b)
    case Ok(s) => Playing(ApplyNextTurn(s, false))
  }
}
