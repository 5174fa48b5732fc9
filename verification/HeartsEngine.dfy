/** Hearts under the engine and its clock: the hooks, and that they keep their word. */
module HeartsEngine {
  import opened Cards
  import opened Options
  import opened Sums
  import opened HeartsRules
  import opened HeartsInvariant
  import opened HeartsRun
  import Length = HeartsLength
  import E = EngineRules
  import Safety = EngineSafety
  import Clock = EngineClock
  import Conduct = EngineConduct

  /** What hearts keeps between hooks: the match once it was started, and the decks of the hands to come. */
  datatype Books = Books(game: Option<Table>, decks: nat -> seq<Card>, dealt: nat)

  type State = E.Table<Books>

  // ---- The hooks ----

  function ToSeat(turn: int): nat {
    if turn < 0 then 0 else turn
  }

  /** The match as the hooks see it: the cursor is the engine's, the rest is hearts' own. */
  function Load(s: State): Table
    requires s.extra.game.Some?
  {
    s.extra.game.value.(turn := ToSeat(s.turn),
                        next := if s.next.None? then None else Some(ToSeat(s.next.value)))
  }

  function Saved(s: State, t: Table): E.Hook<Books> {
    E.Done(t.turn, if t.next.None? then None else Some(t.next.value), s.extra.(game := Some(t)))
  }

  function Panic(s: State): E.Hook<Books> {
    E.Panicked(s.turn, s.next, s.extra)
  }

  function NextDeck(s: State): seq<Card> {
    s.extra.decks(s.extra.dealt)
  }

  function DeckUsed(s: State): State {
    s.(extra := s.extra.(dealt := s.extra.dealt + 1))
  }

  /** Four at the table, a match on, and the cursor on a seat: outside this the hooks run out of range. */
  ghost predicate OnSeat(s: State) {
    |s.players| == PLAYER_COUNT && s.extra.game.Some? && 0 <= s.turn < PLAYER_COUNT && Shaped(Load(s))
  }

  function OnStart(s: State): E.Hook<Books> {
    if |s.players| != PLAYER_COUNT then E.Failed(s.turn, s.next, s.extra)
    else if |NextDeck(s)| == 52 then Saved(DeckUsed(s), BeginHand(Blank(ToSeat(s.turn)), ToSeat(s.turn), NextDeck(s)))
    else Panic(s)
  }

  ghost predicate Accepts(s: State, a: Action) {
    OnSeat(s) && Validate(Load(s), a)
  }

  ghost function Applied(s: State, a: Action): E.Hook<Books> {
    if OnSeat(s) then Saved(s, Apply(Load(s), a)) else Panic(s)
  }

  ghost function Settled(s: State, a: Action): E.Hook<Books> {
    if OnSeat(s) && |NextDeck(s)| == 52 then
      Saved(if a.NextHand? then DeckUsed(s) else s, After(Load(s), a, NextDeck(s)))
    else Panic(s)
  }

  ghost function Timeout(s: State): Option<Action> {
    if OnSeat(s) then TimeoutAction(Load(s)) else None
  }

  function BeforeLeave(s: State): E.Hook<Books> {
    E.Done(s.turn, s.next,
           if s.extra.game.Some? then s.extra.(game := Some(s.extra.game.value.(matchComplete := true))) else s.extra)
  }

  predicate MatchWon(s: State) {
    s.extra.game.Some? && s.extra.game.value.matchComplete
  }

  /** The order of the seats stands for the ranking, which only names the winner. */
  ghost function Hooks(): E.Rules<Books, Action> {
    E.Rules((s: State) => OnStart(s), (s, a) => Accepts(s, a), (s, a) => Applied(s, a), (s, a) => Settled(s, a),
            s => MatchWon(s), (s: State) => s.players, Some(s => Timeout(s)),
            Some(E.LeaveHooks((s, id) => BeforeLeave(s), (s: State, seat) => E.Done(s.turn, s.next, s.extra))),
            None)
  }

  // ---- What hearts claims of a table ----

  ghost predicate FullDecks(b: Books) {
    forall n :: FullDeck(b.decks(n))
  }

  ghost predicate Spare(s: State) {
    s.next.None? && FullDecks(s.extra) && s.extra.game.None?
  }

  ghost predicate Good(s: State) {
    && OnSeat(s) && s.next.None? && FullDecks(s.extra)
    && Valid(Load(s)) && Load(s).handNumber <= 16
  }

  /** Somebody reached the target or left, and the 52 cards are still the 52 cards. */
  ghost predicate Over(s: State) {
    && s.extra.game.Some? && Shaped(Load(s)) && Accounted(Load(s)) && Load(s).handNumber <= 16
    && (AnyAtLeast(Load(s).totals, TARGET_SCORE) || |s.players| < PLAYER_COUNT)
  }

  ghost function MovesLeft(s: State): nat {
    if Good(s) then
      Length.RankIsBounded(Load(s));
      Length.ActionsLeft(RankOf(Load(s)))
    else 0
  }

  ghost function Claims(): Conduct.Terms<Books> {
    Conduct.Terms(s => Spare(s), s => Good(s), s => Over(s), s => MovesLeft(s))
  }

  // ---- The hooks and the tables they leave ----

  lemma LoadSaved(s: State, t: Table)
    ensures var n := E.Hooked(s, Saved(s, t));
            Load(n) == t && n.players == s.players && n.extra == s.extra.(game := Some(t))
            && n.turn == t.turn && n.next == (if t.next.None? then None else Some(t.next.value))
  {
  }

  lemma LoadMoved(s: State, advance: bool)
    requires s.extra.game.Some? && s.turn >= 0 && (s.next.Some? ==> s.next.value >= 0)
    requires |s.players| == PLAYER_COUNT && (advance || s.next.Some?)
    ensures var n := E.Moved(s, advance);
            Load(n) == NextTurn(Load(s)) && n.extra == s.extra && n.next.None? && 0 <= n.turn < PLAYER_COUNT
            && n.players == s.players
  {
  }

  lemma OpeningSaved(s: State, b: Table)
    requires |s.players| == PLAYER_COUNT && FullDecks(s.extra) && Ready(b) && Sound(Playing(NextTurn(b)))
    ensures Good(E.Moved(E.Hooked(s, Saved(DeckUsed(s), b)), false))
  {
    LoadSaved(DeckUsed(s), b);
    assert E.Hooked(s, Saved(DeckUsed(s), b)) == E.Hooked(DeckUsed(s), Saved(DeckUsed(s), b));
    LoadMoved(E.Hooked(DeckUsed(s), Saved(DeckUsed(s), b)), false);
  }

  lemma TableOpens(s: State)
    requires Spare(s) && |s.players| == PLAYER_COUNT && 0 <= s.turn < PLAYER_COUNT
    ensures OnStart(s).Done? && Good(E.Moved(E.Hooked(s, OnStart(s)), false))
  {
    HandBegins(Blank(s.turn), s.turn, NextDeck(s));
    StartIsSound(s.turn, NextDeck(s));
    OpeningSaved(s, BeginHand(Blank(s.turn), s.turn, NextDeck(s)));
  }

  lemma StartsWell(s: State, first: nat)
    requires Spare(s) && first < |s.players|
    ensures Conduct.StartsWell(Hooks(), Claims(), s, first)
  {
    if |s.players| == PLAYER_COUNT {
      TableOpens(s.(turn := first));
    }
  }

  lemma SafeMove(s: State)
    requires Good(s)
    ensures Conduct.HasSafeMove(Hooks(), s)
  {
    TimeoutIsAccepted(Load(s));
  }

  /** Both hooks of an action, ending in the table the hearts model ends in. */
  lemma BothSaved(s: State, a: Action, r: Table, e: Table)
    requires OnSeat(s) && FullDecks(s.extra) && r == Apply(Load(s), a) && Shaped(r) && r.turn == s.turn
    requires e == After(r, a, NextDeck(s))
    ensures Applied(s, a).Done?
    ensures var applied := E.Hooked(s, Applied(s, a));
            var settled := E.Hooked(applied, Settled(applied, a));
            && Settled(applied, a).Done? && Load(settled) == e && settled.players == s.players
            && settled.extra.game == Some(e) && settled.turn == e.turn && FullDecks(settled.extra)
            && (settled.next.Some? ==> settled.next.value >= 0)
  {
    LoadSaved(s, r);
    var applied := E.Hooked(s, Applied(s, a));
    var used := if a.NextHand? then DeckUsed(applied) else applied;
    LoadSaved(used, e);
    assert E.Hooked(applied, Saved(used, e)) == E.Hooked(used, Saved(used, e));
  }

  lemma ApplyShapes(t: Table, a: Action)
    requires Shaped(t) && Validate(t, a)
    ensures Shaped(Apply(t, a)) && Apply(t, a).turn == t.turn
  {
  }

  lemma ActsWell(s: State, a: Action)
    requires Good(s) && Accepts(s, a)
    ensures Conduct.ActsWell(Hooks(), Claims(), s, a)
  {
    var t, deck := Load(s), NextDeck(s);
    ApplyShapes(t, a);
    var r := Apply(t, a);
    var e := After(r, a, deck);
    BothSaved(s, a, r, e);
    SubmitIs(t, a, deck, e);
    StepIsSound(t, Act(a, deck));
    var applied := E.Hooked(s, Applied(s, a));
    SettledWell(s, a, E.Hooked(applied, Settled(applied, a)), e);
  }

  /** What the engine reads off the table an action ends in. */
  lemma SettledWell(s: State, a: Action, settled: State, e: Table)
    requires Good(s) && Validate(Load(s), a)
    requires settled.extra.game == Some(e) && Load(settled) == e
    requires settled.players == s.players && settled.turn == e.turn
    requires FullDecks(settled.extra) && (settled.next.Some? ==> settled.next.value >= 0)
    requires Submit(Load(s), a, NextDeck(s)) == if e.matchComplete then Finished(e) else Playing(NextTurn(e))
    ensures if MatchWon(settled) then Over(settled)
            else Good(E.Moved(settled, true)) && MovesLeft(E.Moved(settled, true)) < MovesLeft(s)
  {
    StepIsSound(Load(s), Act(a, NextDeck(s)));
    if !e.matchComplete {
      LoadMoved(settled, true);
      Length.RankIsBounded(Load(s));
      Length.RankIsBounded(NextTurn(e));
      Length.LowerIsFewer(RankOf(NextTurn(e)), RankOf(Load(s)));
    }
  }

  lemma LeavesWell(s: State, seat: nat)
    requires (Good(s) || Spare(s)) && seat < |s.players|
    ensures Conduct.LeavesWell(Hooks(), Claims(), s, seat)
  {
    if Good(s) {
      var n := Conduct.Departed(Hooks(), s, seat);
      assert |n.players| == PLAYER_COUNT - 1 && MatchWon(n);
      SameCardsAfterLeave(Load(s), Load(n));
    }
  }

  lemma SameCardsAfterLeave(t: Table, n: Table)
    requires Valid(t) && n == t.(turn := n.turn, next := n.next, matchComplete := true) && n.turn < PLAYER_COUNT
    ensures Shaped(n) && Accounted(n)
  {
    assert AllCards(n) == AllCards(t);
  }

  /** Hearts keeps its word: from a table as claimed every hook succeeds and leaves a table as claimed. */
  lemma HeartsObeys()
    ensures Conduct.Obeys(Hooks(), Claims())
  {
    forall s, first: nat | Claims().spare(s) && first < |s.players|
      ensures Conduct.StartsWell(Hooks(), Claims(), s, first)
    {
      StartsWell(s, first);
    }
    forall s | Claims().good(s) ensures Conduct.HasSafeMove(Hooks(), s) {
      SafeMove(s);
    }
    forall s, a | Claims().good(s) && Hooks().validate(s, a) ensures Conduct.ActsWell(Hooks(), Claims(), s, a) {
      ActsWell(s, a);
    }
    forall s, seat: nat | (Claims().good(s) || Claims().spare(s)) && seat < |s.players|
      ensures Conduct.LeavesWell(Hooks(), Claims(), s, seat)
    {
      LeavesWell(s, seat);
    }
  }

  // ---- Whole matches under the clock ----

  function Opening(players: seq<Id>, clocked: bool, decks: nat -> seq<Card>): E.Desk<Books, Action> {
    E.NewDesk(players, clocked, Books(None, decks, 0))
  }

  /**
   Whatever players, leavers and timer callbacks do, in any interleaving of lock holds: a match in play is valid, a
   finished one has somebody at the target or gone, nothing breaks or panics, no move the clock plays is refused,
   the clock never stops, and a seat is taken only after a full set of missed turns in a row.
   */
  lemma HeartsUnderTheClock(players: seq<Id>, clocked: bool, decks: nat -> seq<Card>, steps: seq<E.Step<Action>>)
    requires forall n :: FullDeck(decks(n))
    ensures var d := E.Run(Hooks(), Opening(players, clocked, decks), steps);
            && (d.phase.Playing? ==> OnSeat(d.table) && Valid(Load(d.table)) && Load(d.table).handNumber <= 16)
            && (d.phase.Finished? ==> Over(d.table))
            && Conduct.Faultless(d.log) && Clock.Ticking(Hooks(), d)
            && (forall c | c in d.flying :: !c.Rearm? && !c.Recover?)
            && (forall i | 0 <= i < |d.log| && d.log[i].Idle? ::
                  Safety.Misses(d.log[..i], d.log[i].id) >= E.MAX_MISSED_TURNS)
  {
    HeartsObeys();
    Conduct.KeepingOnesWord(Hooks(), Claims(), players, clocked, Books(None, decks, 0), steps);
    var d := E.Run(Hooks(), Opening(players, clocked, decks), steps);
    forall c | c in d.flying ensures !c.Rearm? && !c.Recover? {
      assert Conduct.CallbackFits(Hooks(), d, c);
    }
  }

  /** However a match stands when the last player looks away, the clock alone brings it to its end. */
  lemma MatchEndsByItself(players: seq<Id>, decks: nat -> seq<Card>, steps: seq<E.Step<Action>>)
    returns (more: seq<E.Step<Action>>)
    requires forall n :: FullDeck(decks(n))
    requires var d := E.Run(Hooks(), Opening(players, true, decks), steps); d.phase.Playing? && !d.closed
    ensures |more| <= 2 * (16 * Length.ACTIONS_PER_HAND + 1) && forall k | 0 <= k < |more| :: Clock.IsCallback(more[k])
    ensures E.Run(Hooks(), Opening(players, true, decks), steps + more).phase.Finished?
  {
    HeartsObeys();
    Conduct.KeepingOnesWord(Hooks(), Claims(), players, true, Books(None, decks, 0), steps);
    var d := E.Run(Hooks(), Opening(players, true, decks), steps);
    Conduct.StaysClocked(Hooks(), Opening(players, true, decks), steps);
    more := Conduct.ClockEndsTheGame(Hooks(), Claims(), d);
    Conduct.RunConcat(Hooks(), Opening(players, true, decks), steps, more);
    MovesLeftAtMost(d.table);
  }

  lemma MovesLeftAtMost(s: State)
    requires Good(s)
    ensures MovesLeft(s) <= 16 * Length.ACTIONS_PER_HAND
  {
    Length.RankIsBounded(Load(s));
    RankCountsHands(Load(s));
  }
}
