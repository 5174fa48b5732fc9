/** Which bets the rules take, told from what was bet before on the street. */
module PokerHistory {
  import opened Cards
  import opened Options
  import opened Sums
  import opened PokerMoney
  import opened PokerRules
  import opened PokerCursor
  import opened PokerInvariant
  import opened PokerSteps
  import opened PokerMatch
  import opened PokerLeave
  import opened PokerRun

  /** One action on a street: whose, the bet it faced and the bet it left. */
  datatype Move = Move(id: Id, was: nat, now: nat)

  /** The least a raise must add: the largest raise on the street so far, and a big blind before there is one. */
  ghost function LeastRaise(h: seq<Move>, blind: nat): nat {
    if h == [] then blind
    else
      var last := h[|h| - 1];
      Max(LeastRaise(h[..|h| - 1], blind), if last.now > last.was then last.now - last.was else 0)
  }

  /** Move i raised by at least what was asked of a raise then. */
  ghost predicate FullRaise(h: seq<Move>, blind: nat, i: nat)
    requires i < |h|
  {
    h[i].now > h[i].was && h[i].now - h[i].was >= LeastRaise(h[..i], blind)
  }

  /** Has acted since the last full raise, or made it. */
  ghost predicate Spoken(h: seq<Move>, blind: nat, id: Id) {
    h != []
    && (h[|h| - 1].id == id || (!FullRaise(h, blind, |h| - 1) && Spoken(h[..|h| - 1], blind, id)))
  }

  /** Nobody ever raised who had spoken. */
  ghost predicate NoneTwice(h: seq<Move>, blind: nat) {
    forall j | 0 <= j < |h| && h[j].now > h[j].was :: !Spoken(h[..j], blind, h[j].id)
  }

  function OpeningBet(t: Table): nat {
    if t.phase == PreFlop then t.bigBlind else 0
  }

  /** What the books of a hand in progress say is what the street's moves say. */
  ghost predicate Told(t: Table, h: seq<Move>) {
    t.handComplete
    || (&& t.minRaise == LeastRaise(h, t.bigBlind)
        && t.currentBet == (if h == [] then OpeningBet(t) else h[|h| - 1].now)
        && (forall id | id in t.players && id !in t.folded && id !in t.allIn :: id in t.acted <==> Spoken(h, t.bigBlind, id))
        && NoneTwice(h, t.bigBlind))
  }

  /** The moves of the street once event e has led from t to u: a new street or hand starts a new list. */
  ghost function Noted(h: seq<Move>, t: Table, e: Event, u: Table): seq<Move> {
    if u == t then h
    else if u.handComplete || u.phase != t.phase || u.handNumber != t.handNumber then []
    else if e.Act? && t.turn < |t.players| then h + [Move(t.players[t.turn], t.currentBet, u.currentBet)]
    else h
  }

  lemma Appended(h: seq<Move>, m: Move, blind: nat)
    ensures LeastRaise(h + [m], blind) == Max(LeastRaise(h, blind), if m.now > m.was then m.now - m.was else 0)
    ensures FullRaise(h + [m], blind, |h|) <==> m.now > m.was && m.now - m.was >= LeastRaise(h, blind)
    ensures forall id :: Spoken(h + [m], blind, id) <==>
                         m.id == id || (!(m.now > m.was && m.now - m.was >= LeastRaise(h, blind)) && Spoken(h, blind, id))
    ensures NoneTwice(h, blind) && (m.now > m.was ==> !Spoken(h, blind, m.id)) ==> NoneTwice(h + [m], blind)
  {
    var more := h + [m];
    assert more[..|h|] == h && more[|h|] == m;
    if NoneTwice(h, blind) && (m.now > m.was ==> !Spoken(h, blind, m.id)) {
      forall j | 0 <= j < |more| && more[j].now > more[j].was ensures !Spoken(more[..j], blind, more[j].id) {
        assert more[..j] == h[..j];
      }
      assert h[..|h|] == h;
    }
  }

  // ---- One action ----

  /** r is t after an action of the seat on turn, in the books that say who may raise and by how much. */
  ghost predicate ActedOn(t: Table, r: Table) {
    && t.turn < |t.players| && r.players == t.players && r.bigBlind == t.bigBlind
    && t.currentBet <= r.currentBet && t.allIn <= r.allIn && t.folded <= r.folded
    && (var raise := r.currentBet - t.currentBet;
        && r.minRaise == Max(t.minRaise, raise)
        && forall id | id in t.players && id !in r.folded && id !in r.allIn ::
             id in r.acted <==> id == t.players[t.turn] || (id in t.acted && !(raise > 0 && raise >= t.minRaise)))
  }

  lemma RaiseActsOn(t: Table, total: nat)
    requires t.turn < |t.players| && At(t.bets, t.players[t.turn]) <= t.currentBet < total
    requires total - At(t.bets, t.players[t.turn]) <= Chips(t, t.players[t.turn])
    ensures ActedOn(t, MarkActed(Raise(t, t.players[t.turn], total), t.players[t.turn]))
  {
    var id := t.players[t.turn];
    var paid := PutIn(t, id, total - At(t.bets, id));
    assert CommitTo(t, id, total) == paid && At(paid.bets, id) == total;
    var r := Raise(t, id, total);
    assert r == ApplyBetIncrease(paid, id, total);
    forall x | x in t.players && x !in r.folded && x !in r.allIn && x != id
      ensures x in r.acted <==> x in t.acted && total - t.currentBet < t.minRaise
    {
      OnlyAFullRaiseReopens(paid, id, total, x);
    }
  }

  lemma CallActsOn(t: Table, total: nat)
    requires t.turn < |t.players|
    ensures ActedOn(t, MarkActed(CommitTo(t, t.players[t.turn], total), t.players[t.turn]))
  {
  }

  lemma ActionActsOn(t: Table, a: Action)
    requires Betting(t) && !a.NextHand? && ValidateAction(t, a)
    ensures ActedOn(t, ApplyAction(t, a))
  {
    var id := t.players[t.turn];
    match a
    case Fold =>
    case Check =>
    case Call => CallActsOn(t, t.currentBet);
    case RaiseTo(amount) => RaiseActsOn(t, amount);
    case AllIn =>
      var shove := At(t.bets, id) + Chips(t, id);
      if shove > t.currentBet {
        RaiseActsOn(t, shove);
      } else {
        CallActsOn(t, shove);
      }
    case NextHand =>
  }

  /** Only who has not spoken raises. */
  lemma RaisersAreFresh(t: Table, a: Action)
    requires Betting(t) && !a.NextHand? && ValidateAction(t, a) && ApplyAction(t, a).currentBet > t.currentBet
    ensures t.players[t.turn] !in t.acted
  {
  }

  /** The same street, and nobody still seated has had their books touched. */
  ghost predicate SameBooks(t: Table, u: Table) {
    && u.minRaise == t.minRaise && u.currentBet == t.currentBet && u.bigBlind == t.bigBlind
    && u.phase == t.phase && u.handNumber == t.handNumber && u.handComplete == t.handComplete
    && forall id | id in u.players ::
         id in t.players && (id in u.acted <==> id in t.acted) && (id in u.folded <==> id in t.folded)
         && (id in u.allIn <==> id in t.allIn)
  }

  lemma ToldSurvives(t: Table, h: seq<Move>, u: Table)
    requires Told(t, h) && SameBooks(t, u)
    ensures Told(u, h)
  {
  }

  /** A street nobody has bet on yet. */
  ghost predicate NewStreet(u: Table) {
    && u.minRaise == u.bigBlind && u.currentBet == OpeningBet(u)
    && forall id | id in u.players && id !in u.folded && id !in u.allIn :: id !in u.acted
  }

  lemma NewStreetIsTold(u: Table)
    requires NewStreet(u)
    ensures Told(u, [])
  {
  }

  lemma ActionIsTold(t: Table, h: seq<Move>, a: Action, r: Table)
    requires Betting(t) && Told(t, h) && !a.NextHand? && ValidateAction(t, a) && r == ApplyAction(t, a)
    requires r.handComplete == t.handComplete
    ensures Told(r, h + [Move(t.players[t.turn], t.currentBet, r.currentBet)])
  {
    ActionActsOn(t, a);
    Appended(h, Move(t.players[t.turn], t.currentBet, r.currentBet), t.bigBlind);
    if r.currentBet > t.currentBet {
      RaisersAreFresh(t, a);
      assert t.players[t.turn] in t.players;
    }
  }

  /** A street that closes without ending the hand opens the next one. */
  lemma SettlingOpensStreet(t: Table)
    requires SettleAndAdvance(t).Ok? && !SettleAndAdvance(t).t.handComplete
    ensures var u := SettleAndAdvance(t).t;
            NewStreet(u) && u.phase != t.phase && u.handNumber == t.handNumber && !LastStreet(t.phase)
  {
  }

  /** What a step may do to the street: end the hand, leave the books alone, or open a new street. */
  ghost predicate StreetMoves(t: Table, u: Table) {
    u.handComplete || SameBooks(t, u) || (NewStreet(u) && u.phase != t.phase && u.handNumber == t.handNumber)
  }

  lemma UncontestedEndsHand(t: Table)
    requires WinUncontested(t).Ok?
    ensures WinUncontested(t).t.handComplete
  {
  }

  lemma AfterBettingMoves(r: Table)
    requires r.turn < |r.players| && !r.handComplete && AfterBettingAction(r).Ok?
    ensures StreetMoves(r, AfterBettingAction(r).t)
  {
    if |Contenders(r)| == 1 {
      UncontestedEndsHand(r);
    } else if !BettingRoundComplete(r) && NextToAct(r, r.turn) >= 0 {
      assert SameBooks(r, AfterBettingAction(r).t);
    } else if !SettleAndAdvance(r).t.handComplete {
      SettlingOpensStreet(r);
    }
  }

  lemma LeaveMoves(s: Table)
    requires !s.handComplete && AfterSeatsShift(s).Ok?
    ensures StreetMoves(s, AfterSeatsShift(s).t)
  {
    if |Contenders(s)| == 1 {
      UncontestedEndsHand(s);
    } else if BettingRoundComplete(s) {
      if SettleAndAdvance(s).Ok? && !SettleAndAdvance(s).t.handComplete {
        SettlingOpensStreet(s);
      }
    }
  }

  lemma MarkersAreNoBooks(t: Table, seat: nat)
    requires Distinct(t.players + t.left) && seat < |t.players|
    ensures SameBooks(t, Remarked(Emptied(t, seat), seat))
  {
    SeatsShift(t, seat);
  }

  /** The engine only moves the cursor. */
  lemma CursorIsNoBook(s: Table, u: Table, advance: bool)
    requires u == ApplyNextTurn(s, advance)
    ensures SameBooks(s, u)
  {
  }

  // ---- A new hand ----

  /** Every hand starts with a big blind to match and a big blind to raise by. */
  lemma DealAsksForBlind(t: Table, dealer: nat, shuffled: seq<Card>)
    requires CanOpen(t, dealer, shuffled)
    ensures DealHand(t, shuffled).Ok?
    ensures var d := DealHand(t, shuffled).t; d.minRaise == d.bigBlind == t.bigBlind
  {
    DealOpens(t, dealer, shuffled);
  }

  lemma BlindsOpenStreet(d: Table, dealer: nat)
    requires Opened(d) && dealer < |d.players| && Chips(d, d.players[dealer]) > 0 && |FundedSeats(d)| >= 2
    requires d.minRaise == d.bigBlind
    ensures NewStreet(PostBlinds(d, dealer)) && PostBlinds(d, dealer).bigBlind == d.bigBlind
  {
    var b := SetBlinds(d, dealer, |FundedSeats(d)| == 2);
    BlindSeats(d, dealer);
    OpenedIsHalfPosted(d, dealer);
    TwoBlinds(b, b.players[b.sb], b.players[b.bb]);
  }

  lemma OpenedOrOver(p: Table, headsUp: bool)
    requires Dealt(p) && |Contenders(p)| >= 2 && p.bb < |p.players| && NewStreet(p)
    requires forall i: nat | CanAct(p, i) :: OwesSeat(p, i)
    ensures var o := CloseIfComplete(OpenBetting(p, FirstToActPreflop(p, headsUp)));
            o.Ok? && (o.t.handComplete || NewStreet(o.t))
  {
    if FirstToActPreflop(p, headsUp) < 0 {
      NoneOwe(p, p.bb);
      NobodyActs(p);
    }
  }

  lemma HandOpensStreet(t: Table, dealer: nat, shuffled: seq<Card>)
    requires CanOpen(t, dealer, shuffled)
    ensures var o := BeginHandOrFinish(t, dealer, shuffled); o.Ok? && (o.t.handComplete || NewStreet(o.t))
  {
    DealOpens(t, dealer, shuffled);
    DealAsksForBlind(t, dealer, shuffled);
    var d := DealHand(t, shuffled).t;
    BlindsKeep(d, dealer);
    BlindsOpenStreet(d, dealer);
    OpenedOrOver(PostBlinds(d, dealer), |FundedSeats(d)| == 2);
  }

  // ---- Any step ----

  /** From told books, through a move of the street and of the cursor, to told books. */
  lemma MovedIsTold(r: Table, h: seq<Move>, s: Table, u: Table)
    requires Told(r, h) && !r.handComplete && StreetMoves(r, s) && SameBooks(s, u)
    ensures Told(u, if u.handComplete || u.phase != r.phase then [] else h)
    ensures u.handComplete || u.handNumber == r.handNumber
    ensures !u.handComplete && u.phase == r.phase ==> u.currentBet == r.currentBet
  {
    if !u.handComplete && u.phase == r.phase {
      ToldSurvives(r, h, u);
    }
  }

  lemma BettingIsTold(t: Table, h: seq<Move>, a: Action, shuffled: seq<Card>)
    requires Betting(t) && t.next.None? && Told(t, h) && !a.NextHand? && ValidateAction(t, a) && |shuffled| == 52
    ensures var g := Submit(t, a, shuffled);
            g.Playing? ==> Told(g.t, Noted(h, t, Act(a, shuffled), g.t))
  {
    var r := ApplyAction(t, a);
    ActionActs(t, a);
    AfterBettingReady(t, r);
    AfterBettingMoves(r);
    SubmitIs(t, a, shuffled, AfterBettingAction(r));
    ActionIsTold(t, h, a, r);
    BettingEnds(t, h, r, AfterBettingAction(r).t, a, shuffled);
  }

  lemma BettingEnds(t: Table, h: seq<Move>, r: Table, s: Table, a: Action, shuffled: seq<Card>)
    requires t.turn < |t.players| && !t.handComplete && Told(t, h) && ActedWell(t, r) && StreetMoves(r, s)
    requires Told(r, h + [Move(t.players[t.turn], t.currentBet, r.currentBet)])
    ensures var u := ApplyNextTurn(s, true); Told(u, Noted(h, t, Act(a, shuffled), u))
  {
    var u := ApplyNextTurn(s, true);
    CursorIsNoBook(s, u, true);
    MovedIsTold(r, h + [Move(t.players[t.turn], t.currentBet, r.currentBet)], s, u);
  }

  lemma NextHandIsTold(t: Table, h: seq<Move>, a: Action, shuffled: seq<Card>)
    requires Valid(t) && Between(t) && !t.matchComplete && a.NextHand? && ValidateAction(t, a) && |shuffled| == 52
    ensures var g := Submit(t, a, shuffled);
            g.Playing? ==> Told(g.t, Noted(h, t, Act(a, shuffled), g.t))
  {
    DealerCanOpen(t, shuffled);
    NextHandReady(t, shuffled);
    HandOpensStreet(t, NextFundedSeat(t, t.dealer), shuffled);
    NextHandDeals(t, a, shuffled);
    SubmitIs(t, a, shuffled, NextDeal(t, shuffled));
    NewHandIsTold(t, h, NextDeal(t, shuffled).t, a, shuffled);
  }

  lemma NewHandIsTold(t: Table, h: seq<Move>, s: Table, a: Action, shuffled: seq<Card>)
    requires s.handNumber != t.handNumber && (s.handComplete || NewStreet(s))
    ensures var u := ApplyNextTurn(s, true); Told(u, Noted(h, t, Act(a, shuffled), u))
  {
    CursorIsNoBook(s, ApplyNextTurn(s, true), true);
  }

  lemma LeaveIsTold(t: Table, h: seq<Move>, seat: nat)
    requires Valid(t) && Told(t, h) && seat < |t.players| && |t.players| > 1
    ensures var g := Remove(t, seat);
            g.Playing? ==> Told(g.t, Noted(h, t, Leave(seat), g.t))
  {
    var s := Remarked(Emptied(t, seat), seat);
    MarkersAreNoBooks(t, seat);
    if t.handComplete {
      LeaveBetweenHands(t, seat);
    } else {
      LeaveMidHand(t, seat);
      LeaveMoves(s);
      ToldSurvives(t, h, s);
    }
    var o := AfterPlayerRemoved(Emptied(t, seat), seat);
    LeaveEnds(t, h, seat, s, o);
  }

  lemma LeaveEnds(t: Table, h: seq<Move>, seat: nat, s: Table, o: Outcome)
    requires seat < |t.players| && o == AfterPlayerRemoved(Emptied(t, seat), seat) && o.Ok? && Ready(o.t)
    requires s.handComplete == t.handComplete && s.phase == t.phase && s.handNumber == t.handNumber
    requires if t.handComplete then o.t.handComplete else Told(s, h) && StreetMoves(s, o.t)
    ensures var g := Remove(t, seat);
            g.Playing? ==> Told(g.t, Noted(h, t, Leave(seat), g.t))
  {
    if Remove(t, seat).Playing? {
      var u := ApplyNextTurn(o.t, false);
      CursorIsNoBook(o.t, u, false);
      if !t.handComplete {
        MovedIsTold(s, h, o.t, u);
      }
    }
  }

  /** Whatever happens, the books go on saying what the street's moves say. */
  lemma StepIsTold(t: Table, h: seq<Move>, e: Event)
    requires Valid(t) && Told(t, h) && Possible(t, e)
    ensures Step(t, e).Playing? ==> Told(Step(t, e).t, Noted(h, t, e, Step(t, e).t))
  {
    match e
    case Act(a, shuffled) =>
      if ValidateAction(t, a) {
        if a.NextHand? {
          NextHandIsTold(t, h, a, shuffled);
        } else {
          BettingIsTold(t, h, a, shuffled);
        }
      }
    case Leave(seat) =>
      if |t.players| > 1 {
        LeaveIsTold(t, h, seat);
      } else {
        LastSeatLeaves(t, seat);
      }
  }

  // ---- What is accepted ----

  /** Another player in the hand whose bet and stack together reach total. */
  ghost predicate Callable(t: Table, id: Id, total: nat) {
    exists o :: o in Live(t) && o != id && At(t.bets, o) + Chips(t, o) >= total
  }

  /** The rules of betting, from the moves of the street. */
  ghost predicate Legal(t: Table, h: seq<Move>, a: Action)
    requires t.turn < |t.players|
  {
    var id := t.players[t.turn];
    var bet, stack := At(t.bets, id), Chips(t, id);
    match a
    case Fold => true
    case Check => bet == t.currentBet
    case Call => bet < t.currentBet
    case RaiseTo(total) =>
      && t.currentBet < total <= bet + stack
      && (total == bet + stack || total - t.currentBet >= LeastRaise(h, t.bigBlind))
      && Callable(t, id, total) && !Spoken(h, t.bigBlind, id)
    case AllIn => bet + stack > t.currentBet ==> !Spoken(h, t.bigBlind, id)
    case NextHand => false
  }

  lemma {:induction false} CallableMeans(t: Table, ids: seq<Id>, id: Id, total: nat)
    requires total > 0
    ensures MaxCallable(t, ids, id) >= total <==>
            exists o :: o in ids && o != id && At(t.bets, o) + Chips(t, o) >= total
  {
    if ids != [] {
      CallableMeans(t, ids[1..], id, total);
      assert ids == [ids[0]] + ids[1..];
    }
  }

  lemma LegalIsValid(t: Table, h: seq<Move>, a: Action)
    requires Betting(t) && Told(t, h)
    ensures ValidateAction(t, a) <==> Legal(t, h, a)
  {
    var id := t.players[t.turn];
    assert CanAct(t, t.turn);
    match a
    case RaiseTo(total) =>
      if total > t.currentBet {
        CallableMeans(t, Contenders(t), id, total);
        assert forall o :: o in Contenders(t) <==> o in Live(t);
      }
    case _ =>
  }

  /** An action changes the table exactly when the rules of betting allow it. */
  lemma OnlyLegalActionsCount(t: Table, h: seq<Move>, a: Action, shuffled: seq<Card>)
    requires Valid(t) && !t.handComplete && Told(t, h) && |shuffled| == 52
    ensures Submit(t, a, shuffled) != Playing(t) <==> Legal(t, h, a)
  {
    LegalIsValid(t, h, a);
    if ValidateAction(t, a) {
      StepDescends(t, Act(a, shuffled));
    }
  }

  // ---- Whole matches ----

  /** The moves of the street a run ends on. */
  ghost function History(g: Game, h: seq<Move>, events: seq<Event>): seq<Move>
    requires g.Playing? ==> Valid(g.t)
    decreases |events|
  {
    if events == [] || !g.Playing? || !Possible(g.t, events[0]) then h
    else
      StepIsSound(g.t, events[0]);
      var next := Step(g.t, events[0]);
      History(next, if next.Playing? then Noted(h, g.t, events[0], next.t) else [], events[1..])
  }

  lemma {:induction false} RunIsTold(g: Game, h: seq<Move>, events: seq<Event>, total: nat)
    requires Sound(g, total) && (g.Playing? ==> Told(g.t, h))
    ensures Sound(Run(g, events), total)
    ensures Run(g, events).Playing? ==> Told(Run(g, events).t, History(g, h, events))
    decreases |events|
  {
    if events != [] && g.Playing? && Possible(g.t, events[0]) {
      StepIsSound(g.t, events[0]);
      StepIsTold(g.t, h, events[0]);
      var next := Step(g.t, events[0]);
      RunIsTold(next, if next.Playing? then Noted(h, g.t, events[0], next.t) else [], events[1..], total);
    }
  }

  lemma StartIsTold(players: seq<Id>, button: nat, shuffled: seq<Card>)
    requires Distinct(players) && 2 <= |players| <= MAX_PLAYERS && button < |players| && |shuffled| == 52
    ensures Start(players, button, shuffled).Playing? && Told(Start(players, button, shuffled).t, [])
  {
    assert players + [] == players;
    BlankCanOpen(players, [], button, shuffled);
    OpeningIsReady(players, [], button, shuffled);
    HandOpensStreet(Blank(players, [], button), button, shuffled);
    OpenedIsTold(players, button, shuffled, BeginHandOrFinish(Blank(players, [], button), button, shuffled));
  }

  lemma OpenedIsTold(players: seq<Id>, button: nat, shuffled: seq<Card>, o: Outcome)
    requires button < |players| && o == BeginHandOrFinish(Blank(players, [], button), button, shuffled)
    requires o.Ok? && (o.t.handComplete || NewStreet(o.t))
    ensures Start(players, button, shuffled).Playing? && Told(Start(players, button, shuffled).t, [])
  {
    CursorIsNoBook(o.t, ApplyNextTurn(o.t, false), false);
  }

  lemma {:induction false} SpokenSince(h: seq<Move>, blind: nat, id: Id, i: nat)
    requires i < |h| && h[i].id == id && !Spoken(h, blind, id)
    ensures exists k | i < k < |h| :: FullRaise(h, blind, k) && h[k].id != id
  {
    var last := |h| - 1;
    assert h[..last][..last] == h[..last];
    if i < last {
      if FullRaise(h, blind, last) {
        assert h[last].id != id;
      } else {
        SpokenSince(h[..last], blind, id, i);
        var k :| i < k < last && FullRaise(h[..last], blind, k) && h[..last][k].id != id;
        assert h[..last][..k] == h[..k] && h[..last][k] == h[k];
        assert FullRaise(h, blind, k);
      }
    }
  }

  /** Whoever raises has seen a full raise by somebody else since they last acted. */
  ghost predicate RaisesApart(h: seq<Move>, blind: nat) {
    forall i, j | 0 <= i < j < |h| && h[i].id == h[j].id && h[j].now > h[j].was ::
      exists k | i < k < j :: FullRaise(h, blind, k) && h[k].id != h[j].id
  }

  lemma NobodyRaisesTwice(h: seq<Move>, blind: nat)
    requires NoneTwice(h, blind)
    ensures RaisesApart(h, blind)
  {
    forall i, j | 0 <= i < j < |h| && h[i].id == h[j].id && h[j].now > h[j].was
      ensures exists k | i < k < j :: FullRaise(h, blind, k) && h[k].id != h[j].id
    {
      SpokenSince(h[..j], blind, h[j].id, i);
      var k :| i < k < j && FullRaise(h[..j], blind, k) && h[..j][k].id != h[j].id;
      assert h[..j][..k] == h[..k];
      assert FullRaise(h, blind, k);
    }
  }

  /**
   However a match goes, the rules take exactly the bets the street allows: a raise takes the raiser's last chip or
   adds at least the largest raise so far, somebody else could match it, and whoever has acted since the last full
   raise may not. So nobody raises twice on a street without a full raise by somebody else in between.
   */
  lemma BettingIsFair(players: seq<Id>, button: nat, shuffled: seq<Card>, events: seq<Event>, a: Action, deck: seq<Card>)
    requires Distinct(players) && 2 <= |players| <= MAX_PLAYERS && button < |players| && |shuffled| == 52 && |deck| == 52
    ensures Start(players, button, shuffled).Playing? && Valid(Start(players, button, shuffled).t)
    ensures var start := Start(players, button, shuffled);
            var g, h := Run(start, events), History(start, [], events);
            g.Playing? && !g.t.handComplete ==>
              && Valid(g.t)
              && (Submit(g.t, a, deck) != Playing(g.t) <==> Legal(g.t, h, a))
              && RaisesApart(h, g.t.bigBlind)
  {
    StartIsSound(players, button, shuffled);
    StartIsTold(players, button, shuffled);
    var start := Start(players, button, shuffled);
    RunIsTold(start, [], events, Total(Stakes(players)));
    var g, h := Run(start, events), History(start, [], events);
    if g.Playing? && !g.t.handComplete {
      OnlyLegalActionsCount(g.t, h, a, deck);
      NobodyRaisesTwice(h, g.t.bigBlind);
    }
  }
}
