/** Poker under the engine and its clock: the hooks, and that they keep their word. */
module PokerEngine {
  import opened Cards
  import opened Options
  import opened Sums
  import opened PokerMoney
  import opened PokerRules
  import opened PokerInvariant
  import opened PokerSteps
  import opened PokerMatch
  import opened PokerLeave
  import opened PokerRun
  import Length = PokerLength
  import Standings = PokerStandings
  import E = EngineRules
  import Safety = EngineSafety
  import Clock = EngineClock
  import Conduct = EngineConduct
  import Winner = EngineWinner

  /**
   What poker keeps between hooks: the match once it was started, and the decks of the hands to come, any at all,
   of which dealt are used up. brought, the chips handed out at the start, is not in the source.
   */
  datatype Books = Books(game: Option<Table>, decks: nat -> seq<Card>, dealt: nat, brought: nat)

  type State = E.Table<Books>

  // ---- The hooks ----

  function ToSeat(turn: int): nat {
    if turn < 0 then 0 else turn
  }

  function ToNext(next: Option<int>): Option<nat> {
    if next.None? then None else Some(ToSeat(next.value))
  }

  function FromNext(next: Option<nat>): Option<int> {
    if next.None? then None else Some(next.value)
  }

  /** The match as the hooks see it: seats and cursor are the engine's, the rest is poker's own. */
  function Load(s: State): Table
    requires s.extra.game.Some?
  {
    s.extra.game.value.(players := s.players, left := s.left, turn := ToSeat(s.turn), next := ToNext(s.next))
  }

  function Saved(s: State, t: Table): E.Hook<Books> {
    E.Done(t.turn, FromNext(t.next), s.extra.(game := Some(t)))
  }

  function Unchanged(s: State): E.Hook<Books> {
    E.Done(s.turn, s.next, s.extra)
  }

  /** How an outcome reads to the engine. */
  function Reported(s: State, o: Outcome): E.Hook<Books> {
    match o
    case Ok(t) => Saved(s, t)
    case Broken(t) => E.Failed(t.turn, FromNext(t.next), s.extra.(game := Some(t)))
    case Crash => E.Panicked(s.turn, s.next, s.extra)
  }

  predicate OnSeat(s: State) {
    s.extra.game.Some? && 0 <= s.turn < |s.players|
  }

  /** The deck the next hand is dealt from, shuffled somehow. */
  function NextDeck(s: State): seq<Card> {
    s.extra.decks(s.extra.dealt)
  }

  function DeckUsed(s: State): State {
    s.(extra := s.extra.(dealt := s.extra.dealt + 1))
  }

  /** What the start hook has spent: a deck, and a stack for everybody seated. */
  ghost function Staked(s: State): State {
    s.(extra := s.extra.(dealt := s.extra.dealt + 1, brought := Total(Stakes(s.players))))
  }

  ghost function OnStart(s: State): E.Hook<Books> {
    if !(0 <= s.turn < |s.players|) then E.Failed(s.turn, s.next, s.extra)
    else
      Reported(Staked(s),
               BeginHandOrFinish(Blank(s.players, s.left, s.turn).(next := ToNext(s.next)), s.turn, NextDeck(s)))
  }

  predicate Validate(s: State, a: Action) {
    && OnSeat(s)
    && (var t := Load(s); (t.handComplete || At(t.bets, t.players[t.turn]) <= t.currentBet) && ValidateAction(t, a))
  }

  function Apply(s: State, a: Action): E.Hook<Books> {
    if OnSeat(s) then Saved(s, ApplyAction(Load(s), a)) else E.Panicked(s.turn, s.next, s.extra)
  }

  ghost function After(s: State, a: Action): E.Hook<Books> {
    if OnSeat(s) then Reported(if a.NextHand? then DeckUsed(s) else s, AfterAction(Load(s), a, NextDeck(s)))
    else E.Panicked(s.turn, s.next, s.extra)
  }

  function Timeout(s: State): Option<Action> {
    if s.extra.game.Some? then TimeoutAction(Load(s)) else None
  }

  function BeforeLeave(s: State, id: Id): E.Hook<Books> {
    if s.extra.game.Some? then Saved(s, OnPlayerLeave(Load(s), id)) else Unchanged(s)
  }

  ghost function AfterLeave(s: State, removed: nat): E.Hook<Books> {
    if s.extra.game.Some? && s.players != [] then Reported(s, AfterPlayerRemoved(Load(s), removed)) else Unchanged(s)
  }

  predicate MatchWon(s: State) {
    s.extra.game.Some? && s.extra.game.value.matchComplete
  }

  function Ranking(s: State): seq<Id> {
    if s.extra.game.Some? then Standings.RankPlayers(Load(s)) else []
  }

  ghost function Hooks(): E.Rules<Books, Action> {
    E.Rules((s: State) => OnStart(s), (s, a) => Validate(s, a), (s, a) => Apply(s, a), (s, a) => After(s, a),
            s => MatchWon(s), s => Ranking(s), Some(s => Timeout(s)),
            Some(E.LeaveHooks((s, id) => BeforeLeave(s, id), (s, seat) => AfterLeave(s, seat))), None)
  }

  // ---- What poker claims of a table ----

  ghost predicate FullDecks(b: Books) {
    forall n :: |b.decks(n)| == 52
  }

  /** Not started, or failed to start, which takes less than two players. */
  ghost predicate Spare(s: State) {
    && Distinct(s.players + s.left) && |s.players| <= MAX_PLAYERS && s.next.None? && FullDecks(s.extra)
    && (s.extra.game.Some? ==> |s.players| <= 1)
  }

  /** The invariant of a poker table waiting for a move, with every chip handed out accounted for. */
  ghost predicate Good(s: State) {
    && OnSeat(s) && s.next.None? && FullDecks(s.extra)
    && Valid(Load(s)) && Load(s).startChips == s.extra.brought
  }

  /** Paid out and closed. */
  ghost predicate Over(s: State) {
    s.extra.game.Some? && Closed(Load(s), s.extra.brought)
  }

  /** How many more actions and leaves the table has in it at the most. */
  ghost function MovesLeft(s: State): nat {
    if Good(s) then
      Length.RankIsBounded(Load(s));
      Length.StepsLeftAtMost(RankOf(Load(s)), s.extra.brought);
      Length.StepsLeft(RankOf(Load(s)), s.extra.brought)
    else 0
  }

  ghost function Claims(): Conduct.Terms<Books> {
    Conduct.Terms(s => Spare(s), s => Good(s), s => Over(s), s => MovesLeft(s))
  }

  // ---- The hooks and the tables they leave ----

  lemma LoadSaved(s: State, t: Table)
    requires t.players == s.players && t.left == s.left
    ensures var n := E.Hooked(s, Saved(s, t));
            Load(n) == t && n.players == s.players && n.left == s.left && n.extra == s.extra.(game := Some(t))
            && n.turn == t.turn && n.next == FromNext(t.next)
  {
  }

  lemma LoadMoved(s: State, advance: bool)
    requires s.extra.game.Some? && s.turn >= 0 && (s.next.Some? ==> s.next.value >= 0)
    ensures var n := E.Moved(s, advance);
            Load(n) == ApplyNextTurn(Load(s), advance) && n.extra == s.extra && n.next.None? && n.turn >= 0
            && (s.players != [] ==> n.turn < |s.players|) && n.players == s.players
  {
  }

  /** A table the hooks made ready is one the engine may play on or close. */
  lemma ReadyIsGood(s: State, t: Table, advance: bool)
    requires s.extra.game == Some(t) && Load(s) == t && Ready(t)
    requires t.startChips == s.extra.brought && FullDecks(s.extra)
    requires s.turn == t.turn && s.next == FromNext(t.next)
    ensures t.matchComplete ==> Over(s)
    ensures !t.matchComplete ==>
              Good(E.Moved(s, advance)) && s.next.Some? && Load(E.Moved(s, advance)) == ApplyNextTurn(t, advance)
  {
    if t.matchComplete {
      ReadyIsSound(t, advance);
    } else {
      ReadyAdvances(t, advance);
      LoadMoved(s, advance);
    }
  }

  // ---- Starting ----

  /** One player alone is not dealt in: the hook reports an error. */
  lemma LoneOpening(players: seq<Id>, left: seq<Id>, shuffled: seq<Card>)
    requires |players| == 1 && |shuffled| == 52
    ensures var o := BeginHandOrFinish(Blank(players, left, 0), 0, shuffled); o.Broken? && o.t.next.None?
  {
    var t := ResetForHand(Blank(players, left, 0)).(handNumber := 1, deck := shuffled,
                                                     startChips := Total(Stakes(players)));
    SubsetSize(FundedSeats(t), {0});
  }

  lemma OpeningReported(s: State, o: Outcome)
    requires o.Ok? && Ready(o.t) && !o.t.matchComplete && o.t.players == s.players && o.t.left == s.left
    requires o.t.startChips == Total(Stakes(s.players)) && FullDecks(s.extra)
    ensures Good(E.Moved(E.Hooked(s, Reported(Staked(s), o)), false))
  {
    LoadSaved(Staked(s), o.t);
    ReadyIsGood(E.Hooked(Staked(s), Saved(Staked(s), o.t)), o.t, false);
    assert E.Hooked(s, Saved(Staked(s), o.t)) == E.Hooked(Staked(s), Saved(Staked(s), o.t));
  }

  lemma StartHook(s: State, o: Outcome)
    requires 0 <= s.turn < |s.players| && s.next.None?
    requires o == BeginHandOrFinish(Blank(s.players, s.left, s.turn), s.turn, NextDeck(s))
    ensures OnStart(s) == Reported(Staked(s), o)
  {
  }

  lemma TableOpens(s: State)
    requires Spare(s) && 0 <= s.turn < |s.players| && |s.players| >= 2
    ensures OnStart(s).Done? && Good(E.Moved(E.Hooked(s, OnStart(s)), false))
  {
    OpeningIsReady(s.players, s.left, s.turn, NextDeck(s));
    var o := BeginHandOrFinish(Blank(s.players, s.left, s.turn), s.turn, NextDeck(s));
    StartHook(s, o);
    OpeningReported(s, o);
  }

  lemma LoneTableFails(s: State)
    requires Spare(s) && s.turn == 0 && |s.players| == 1
    ensures OnStart(s).Failed? && OnStart(s).next.None? && FullDecks(OnStart(s).extra)
  {
    LoneOpening(s.players, s.left, NextDeck(s));
    StartHook(s, BeginHandOrFinish(Blank(s.players, s.left, 0), 0, NextDeck(s)));
  }

  lemma StartsWell(s: State, first: nat)
    requires Spare(s) && first < |s.players|
    ensures Conduct.StartsWell(Hooks(), Claims(), s, first)
  {
    if |s.players| == 1 {
      LoneTableFails(s.(turn := first));
    } else {
      TableOpens(s.(turn := first));
    }
  }

  // ---- Acting ----

  lemma SafeMove(s: State)
    requires Good(s)
    ensures Conduct.HasSafeMove(Hooks(), s)
  {
    TimeoutIsAccepted(Load(s));
  }

  /** What the hook after an action reports, as one step from the table the action left. */
  lemma ActionReported(applied: State, a: Action, o: Outcome)
    requires OnSeat(applied) && FullDecks(applied.extra)
    requires o == AfterAction(Load(applied), a, NextDeck(applied))
    requires o.Ok? && Ready(o.t) && o.t.players == applied.players && o.t.left == applied.left
    requires o.t.startChips == applied.extra.brought
    ensures var h := After(applied, a);
            var settled := E.Hooked(applied, h);
            h.Done? && MatchWon(settled) == o.t.matchComplete && settled.extra.brought == applied.extra.brought
            && (if MatchWon(settled) then Over(settled)
                else Good(E.Moved(settled, true)) && Load(E.Moved(settled, true)) == ApplyNextTurn(o.t, true))
  {
    var used := if a.NextHand? then DeckUsed(applied) else applied;
    assert After(applied, a) == Saved(used, o.t);
    LoadSaved(used, o.t);
    ReadyIsGood(E.Hooked(used, Saved(used, o.t)), o.t, true);
    assert E.Hooked(applied, Saved(used, o.t)) == E.Hooked(used, Saved(used, o.t));
  }

  /** Both hooks of an action, from the table it is applied to. */
  lemma BothReported(s: State, a: Action, r: Table, o: Outcome)
    requires OnSeat(s) && FullDecks(s.extra) && r.players == s.players && r.left == s.left && r.turn < |r.players|
    requires o == AfterAction(r, a, NextDeck(s))
    requires o.Ok? && Ready(o.t) && o.t.players == s.players && o.t.left == s.left && o.t.startChips == s.extra.brought
    ensures var applied := E.Hooked(s, Saved(s, r));
            var h := After(applied, a);
            var settled := E.Hooked(applied, h);
            h.Done? && MatchWon(settled) == o.t.matchComplete && settled.extra.brought == s.extra.brought
            && (if MatchWon(settled) then Over(settled)
                else Good(E.Moved(settled, true)) && Load(E.Moved(settled, true)) == ApplyNextTurn(o.t, true))
  {
    LoadSaved(s, r);
    ActionReported(E.Hooked(s, Saved(s, r)), a, o);
  }

  /** The table an accepted action leaves, and what the hook after it makes of that: what the poker model does. */
  lemma Played(s: State, a: Action) returns (r: Table)
    requires Good(s) && Validate(s, a)
    ensures Apply(s, a) == Saved(s, r)
    ensures var applied := E.Hooked(s, Saved(s, r));
            var h := After(applied, a);
            var settled := E.Hooked(applied, h);
            && h.Done? && settled.extra.brought == s.extra.brought
            && (if MatchWon(settled) then Over(settled)
                else Good(E.Moved(settled, true))
                     && Submit(Load(s), a, NextDeck(s)) == Playing(Load(E.Moved(settled, true))))
  {
    ActReady(Load(s), a, NextDeck(s));
    r := ApplyAction(Load(s), a);
    var o := AfterAction(r, a, NextDeck(s));
    BothReported(s, a, r, o);
    SubmitIs(Load(s), a, NextDeck(s), o);
  }

  /** Both sides of a step, as the poker model sees it. */
  lemma StepIsNearer(s: State, e: Event, n: State)
    requires Good(s) && Good(n) && n.extra.brought == s.extra.brought && Possible(Load(s), e)
    requires Length.Counts(Load(s), e) && Step(Load(s), e) == Playing(Load(n))
    ensures MovesLeft(n) < MovesLeft(s)
  {
    Length.TakenStep(Load(s), e, s.extra.brought);
  }

  lemma ActsWell(s: State, a: Action)
    requires Good(s) && Validate(s, a)
    ensures Conduct.ActsWell(Hooks(), Claims(), s, a)
  {
    var r := Played(s, a);
    var applied := E.Hooked(s, Apply(s, a));
    var settled := E.Hooked(applied, After(applied, a));
    if !MatchWon(settled) {
      StepIsNearer(s, Act(a, NextDeck(s)), E.Moved(settled, true));
    }
  }

  // ---- Leaving ----

  lemma SpareLeavesWell(s: State, seat: nat)
    requires Spare(s) && seat < |s.players|
    ensures Conduct.LeaveHooksReturn(Hooks(), s, seat)
    ensures Spare(Conduct.Departed(Hooks(), s, seat))
  {
    MovingStaysDistinct(s.players, s.left, seat);
  }

  lemma RemoveIs(t: Table, seat: nat, o: Outcome)
    requires seat < |t.players| && o == AfterPlayerRemoved(Emptied(t, seat), seat) && o.Ok?
    ensures Remove(t, seat)
         == if o.t.players == [] || o.t.matchComplete || (|o.t.players| == 1 && o.t.next.None?) then Finished(o.t)
            else Playing(ApplyNextTurn(o.t, false))
  {
  }

  /** The table with the seat gone, between the two leave hooks. */
  function Gone(s: State, seat: nat): State
    requires seat < |s.players|
  {
    E.Vacated(E.Hooked(s, BeforeLeave(s, s.players[seat])), seat)
  }

  /** The engine takes the seat away from the table exactly as the poker model does. */
  lemma LoadVacated(s: State, seat: nat)
    requires s.extra.game.Some? && s.turn >= 0 && s.next.None? && seat < |s.players|
    ensures var id := s.players[seat];
            var gone := Gone(s, seat);
            Load(gone) == Emptied(Load(s), seat) && gone.next.None? && gone.turn >= 0
            && gone.extra == s.extra.(game := Some(OnPlayerLeave(Load(s), id)))
            && gone.players == DropAt(s.players, seat)
  {
    var t := OnPlayerLeave(Load(s), s.players[seat]);
    LoadSaved(s, t);
  }

  /** Somebody stays: what the second leave hook reports, from the table with the seat gone. */
  lemma LeaveReported(gone: State, seat: nat, o: Outcome)
    requires gone.extra.game.Some? && gone.players != [] && FullDecks(gone.extra)
    requires o == AfterPlayerRemoved(Load(gone), seat) && o.Ok? && Ready(o.t)
    requires o.t.players == gone.players && o.t.left == gone.left && o.t.startChips == gone.extra.brought
    ensures AfterLeave(gone, seat).Done?
    ensures var n := E.Hooked(gone, AfterLeave(gone, seat));
            && n.extra.brought == gone.extra.brought && MatchWon(n) == o.t.matchComplete
            && n.players == gone.players && n.next == FromNext(o.t.next)
            && (if Conduct.EndsAfterLeave(Hooks(), n) then Over(n)
                else Good(E.Moved(n, false)) && Load(E.Moved(n, false)) == ApplyNextTurn(o.t, false))
  {
    LoadSaved(gone, o.t);
    ReadyIsGood(E.Hooked(gone, Saved(gone, o.t)), o.t, false);
  }

  lemma LeftReady(t: Table, seat: nat)
    requires Valid(t) && seat < |t.players| && |t.players| > 1
    ensures var o := AfterPlayerRemoved(Emptied(t, seat), seat);
            && o.Ok? && Ready(o.t) && o.t.startChips == t.startChips
            && o.t.players == Emptied(t, seat).players && o.t.left == Emptied(t, seat).left
  {
    if t.handComplete {
      LeaveBetweenHands(t, seat);
    } else {
      LeaveMidHand(t, seat);
    }
  }

  lemma GoodLeavesWell(s: State, seat: nat)
    requires Good(s) && seat < |s.players|
    ensures !AfterLeave(Gone(s, seat), seat).Panicked?
    ensures var n := E.Hooked(Gone(s, seat), AfterLeave(Gone(s, seat), seat));
            && n.extra.brought == s.extra.brought
            && (if Conduct.EndsAfterLeave(Hooks(), n) then Over(n)
                else Good(E.Moved(n, false)) && Remove(Load(s), seat) == Playing(Load(E.Moved(n, false))))
  {
    LoadVacated(s, seat);
    if |s.players| == 1 {
      LastSeatLeaves(Load(s), seat);
      assert Gone(s, seat).players == [];
    } else {
      LeftReady(Load(s), seat);
      var o := AfterPlayerRemoved(Emptied(Load(s), seat), seat);
      LeaveReported(Gone(s, seat), seat, o);
      RemoveIs(Load(s), seat, o);
    }
  }

  lemma LeavesWell(s: State, seat: nat)
    requires (Good(s) || Spare(s)) && seat < |s.players|
    ensures Conduct.LeavesWell(Hooks(), Claims(), s, seat)
  {
    if Good(s) {
      GoodLeavesWell(s, seat);
      var n := E.Hooked(Gone(s, seat), AfterLeave(Gone(s, seat), seat));
      if !Conduct.EndsAfterLeave(Hooks(), n) {
        StepIsNearer(s, Leave(seat), E.Moved(n, false));
      }
    }
    if Spare(s) {
      SpareLeavesWell(s, seat);
    }
  }

  /** Poker keeps its word: from a table as claimed every hook succeeds and leaves a table as claimed. */
  lemma PokerObeys()
    ensures Conduct.Obeys(Hooks(), Claims())
  {
    forall s, first: nat | Claims().spare(s) && first < |s.players|
      ensures Conduct.StartsWell(Hooks(), Claims(), s, first)
    {
      StartsWell(s, first);
    }
    forall s | Claims().good(s) ensures Conduct.HasSafeMove(Hooks(), s) {
      SafeMove(s);
    }
    forall s, a | Claims().good(s) && Hooks().validate(s, a) ensures Conduct.ActsWell(Hooks(), Claims(), s, a) {
      ActsWell(s, a);
    }
    forall s, seat: nat | (Claims().good(s) || Claims().spare(s)) && seat < |s.players|
      ensures Conduct.LeavesWell(Hooks(), Claims(), s, seat)
    {
      LeavesWell(s, seat);
    }
  }

  // ---- Whole matches under the clock ----

  /** The engine before anybody pressed start. */
  function Opening(players: seq<Id>, clocked: bool, decks: nat -> seq<Card>): E.Desk<Books, Action> {
    E.NewDesk(players, clocked, Books(None, decks, 0, 0))
  }

  lemma OpeningIsSpare(players: seq<Id>, clocked: bool, decks: nat -> seq<Card>)
    requires Distinct(players) && |players| <= MAX_PLAYERS && forall n :: |decks(n)| == 52
    ensures Claims().spare(Opening(players, clocked, decks).table)
  {
    assert players + [] == players;
  }

  /**
   Whatever players, leavers and timer callbacks do, in any interleaving of lock holds: a table in play is valid and
   holds every chip handed out, a finished one is closed and paid out, nothing breaks or panics, no move the clock
   plays is refused, the clock never stops, and a seat is taken only after a full set of missed turns in a row. The
   winner, while anybody is seated, is a seated player, and nobody seated has more chips.
   */
  lemma PokerUnderTheClock(players: seq<Id>, clocked: bool, decks: nat -> seq<Card>, steps: seq<E.Step<Action>>)
    requires Distinct(players) && |players| <= MAX_PLAYERS && forall n :: |decks(n)| == 52
    ensures var d := E.Run(Hooks(), Opening(players, clocked, decks), steps);
            && (d.phase.Playing? ==> OnSeat(d.table) && Valid(Load(d.table))
                                     && Load(d.table).money.InPlay() == d.table.extra.brought)
            && (d.phase.Finished? ==> d.table.extra.game.Some? && Closed(Load(d.table), d.table.extra.brought))
            && (d.phase.Finished? && d.table.players != [] ==> MostChips(d.table, d.winner))
            && Conduct.Faultless(d.log) && Clock.Ticking(Hooks(), d)
            && (forall c | c in d.flying :: !c.Rearm? && !c.Recover?)
            && (forall i | 0 <= i < |d.log| && d.log[i].Idle? ::
                  Safety.Misses(d.log[..i], d.log[i].id) >= E.MAX_MISSED_TURNS)
  {
    PokerObeys();
    OpeningIsSpare(players, clocked, decks);
    Conduct.KeepingOnesWord(Hooks(), Claims(), players, clocked, Books(None, decks, 0, 0), steps);
    var d := E.Run(Hooks(), Opening(players, clocked, decks), steps);
    forall c | c in d.flying ensures !c.Rearm? && !c.Recover? {
      assert Conduct.CallbackFits(Hooks(), d, c);
    }
    Winner.WinnerIsRight(players, clocked, Books(None, decks, 0, 0), Hooks(), steps);
    if d.phase.Finished? && d.table.players != [] {
      var reason :| E.Ended(d.winner, reason) in d.log && Winner.Fits(Hooks(), d.table, d.winner, reason);
      ChampionHasMost(d.table, d.winner, reason);
    }
  }

  /** A seated player whom nobody seated beats in chips. */
  ghost predicate MostChips(s: State, winner: Option<Id>) {
    && s.extra.game.Some? && winner.Some? && winner.value in s.players
    && forall id | id in s.players :: Chips(Load(s), id) <= Chips(Load(s), winner.value)
  }

  lemma ChampionHasMost(s: State, winner: Option<Id>, reason: E.EndReason)
    requires s.extra.game.Some? && s.players != [] && Winner.Fits(Hooks(), s, winner, reason)
    ensures MostChips(s, winner)
  {
    Standings.FirstHasMostChips(Load(s));
    if reason.Forfeit? {
      assert s.players == [s.players[0]];
    }
  }

  /** A move the clock plays for an absent player in its own turn is always accepted. */
  lemma AutoPlayIsAccepted(players: seq<Id>, clocked: bool, decks: nat -> seq<Card>, steps: seq<E.Step<Action>>,
                           c: E.Callback<Action>)
    requires Distinct(players) && |players| <= MAX_PLAYERS && forall n :: |decks(n)| == 52
    requires var d := E.Run(Hooks(), Opening(players, clocked, decks), steps);
             c in d.flying && c.Play? && c.generation == d.generation
    ensures var d := E.Run(Hooks(), Opening(players, clocked, decks), steps);
            E.SubmitLocked(Hooks(), d, c.id, c.a, false).outcome.Fine?
  {
    PokerObeys();
    OpeningIsSpare(players, clocked, decks);
    Conduct.KeepingOnesWord(Hooks(), Claims(), players, clocked, Books(None, decks, 0, 0), steps);
    Conduct.ClockMovesAreAccepted(Hooks(), Claims(), E.Run(Hooks(), Opening(players, clocked, decks), steps), c);
  }

  /** However a match stands when the last player looks away, the clock alone brings it to its end. */
  lemma MatchEndsByItself(players: seq<Id>, decks: nat -> seq<Card>, steps: seq<E.Step<Action>>)
    returns (more: seq<E.Step<Action>>)
    requires Distinct(players) && |players| <= MAX_PLAYERS && forall n :: |decks(n)| == 52
    requires var d := E.Run(Hooks(), Opening(players, true, decks), steps); d.phase.Playing? && !d.closed
    ensures forall k | 0 <= k < |more| :: Clock.IsCallback(more[k])
    ensures E.Run(Hooks(), Opening(players, true, decks), steps + more).phase.Finished?
    ensures var d := E.Run(Hooks(), Opening(players, true, decks), steps);
            |more| <= 10000 * (d.table.extra.brought + 1)
  {
    PokerObeys();
    OpeningIsSpare(players, true, decks);
    Conduct.KeepingOnesWord(Hooks(), Claims(), players, true, Books(None, decks, 0, 0), steps);
    var d := E.Run(Hooks(), Opening(players, true, decks), steps);
    Conduct.StaysClocked(Hooks(), Opening(players, true, decks), steps);
    more := Conduct.ClockEndsTheGame(Hooks(), Claims(), d);
    Conduct.RunConcat(Hooks(), Opening(players, true, decks), steps, more);
    MovesLeftAtMost(d.table);
  }

  lemma MovesLeftAtMost(s: State)
    requires Good(s)
    ensures MovesLeft(s) < 5000 * (s.extra.brought + 1)
  {
    Length.RankIsBounded(Load(s));
    Length.StepsLeftAtMost(RankOf(Load(s)), s.extra.brought);
  }
}
