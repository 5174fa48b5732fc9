/** The game engine and its turn clock: each function is one hold of the engine's lock. */
module EngineRules {
  import opened Cards
  import opened Options
  import opened Sums

  const MAX_MISSED_TURNS := 3

  datatype Phase = Waiting | Playing | Finished

  datatype EndReason = Win | RulesError | Forfeit | Abandoned

  /** What the rules' hooks read. Hands, piles and the rules' own books are all in extra. */
  datatype Table<G> = Table(players: seq<Id>, left: seq<Id>, turn: int, next: Option<int>, extra: G)

  /** What a hook leaves behind: it may move the cursor, ask for a next turn, and change its own books. */
  datatype Hook<G> =
    | Done(turn: int, next: Option<int>, extra: G)
    | Failed(turn: int, next: Option<int>, extra: G)
    | Panicked(turn: int, next: Option<int>, extra: G)

  /** Any rules at all. A random choice a hook makes is part of the extra state it starts from. */
  datatype Rules<!G, !A> = Rules(
    onStart: Table<G> -> Hook<G>,
    validate: (Table<G>, A) -> bool,
    apply: (Table<G>, A) -> Hook<G>,
    after: (Table<G>, A) -> Hook<G>,
    won: Table<G> -> bool,
    standings: Table<G> -> seq<Id>,
    timeout: Option<Table<G> -> Option<A>>,
    leave: Option<LeaveHooks<G>>,
    score: Option<(Table<G>, Id) -> int>)

  datatype LeaveHooks<!G> = LeaveHooks(before: (Table<G>, Id) -> Hook<G>, afterwards: (Table<G>, nat) -> Hook<G>)

  /** Broadcast events, and below them what the broadcasts do not show, with turn generations where they matter. */
  datatype Entry =
    | Started
    | Announced(id: Id)
    | Advanced
    | TimedOut(id: Id)
    | Idle(id: Id, generation: nat)
    | Gone(id: Id)
    | Ended(winner: Option<Id>, reason: EndReason)
    | Accepted(id: Id)                                        // a player's own action passed validation
    | Applied(id: Id, generation: nat)                        // an action reached the rules
    | Expired(id: Id)                                         // a turn of this player's ran out
    | NoSafeMove(id: Id)                                      // and the rules had nothing to play for them
    | Doomed(id: Id, generation: nat)                         // the clock is about to take this player's seat
    | ActCrashed(id: Id, generation: nat, present: bool)      // a hook panicked over an action
    | LeaveCrashed(id: Id)                                    // a hook panicked over a player's own leave
    | StartCrashed                                            // the start hook panicked

  /** A timer callback that has let go of the lock and has not taken it again yet. */
  datatype Callback<A> =
    | Take(generation: nat, id: Id)
    | Play(generation: nat, id: Id, a: A)
    | Rearm
    | Recover

  /**
   timers holds the generations whose timer was started and whose callback has not begun: stopping a timer
   may come too late, so a generation stays there until its callback runs.
   */
  datatype Desk<G, A> = Desk(
    phase: Phase, table: Table<G>, winner: Option<Id>, closed: bool, clocked: bool,
    generation: nat, missed: map<Id, nat>, timers: set<nat>, flying: seq<Callback<A>>, log: seq<Entry>)

  datatype Outcome = Fine | Refused | Broke | Panic

  datatype Result<G, A> = Result(d: Desk<G, A>, outcome: Outcome)

  function Hooked<G>(t: Table<G>, h: Hook<G>): Table<G> {
    t.(turn := h.turn, next := h.next, extra := h.extra)
  }

  function After<G, A>(d: Desk<G, A>, h: Hook<G>): Desk<G, A> {
    d.(table := Hooked(d.table, h))
  }

  function Log<G, A>(d: Desk<G, A>, e: Entry): Desk<G, A> {
    d.(log := d.log + [e])
  }

  function Current<G, A>(d: Desk<G, A>): Option<Id> {
    if 0 <= d.table.turn < |d.table.players| then Some(d.table.players[d.table.turn]) else None
  }

  // ---- The clock ----

  function StopTimer<G, A>(d: Desk<G, A>): Desk<G, A> {
    d.(generation := d.generation + 1)
  }

  function ArmTimer<G, A>(rules: Rules<G, A>, d: Desk<G, A>): Desk<G, A> {
    var s := StopTimer(d);
    if s.closed || !s.clocked || s.phase != Playing || s.table.players == [] || rules.timeout.None? then s
    else s.(timers := s.timers + {s.generation})
  }

  function Clamp(turn: int, n: nat): int {
    if n == 0 then 0 else turn % n
  }

  function Moved<G>(t: Table<G>, advance: bool): Table<G> {
    var turn := if t.next.Some? then t.next.value else if advance then t.turn + 1 else t.turn;
    t.(turn := Clamp(turn, |t.players|), next := None)
  }

  function NextTurn<G, A>(rules: Rules<G, A>, d: Desk<G, A>, advance: bool): Desk<G, A> {
    ArmTimer(rules, d.(table := Moved(d.table, advance)))
  }

  // ---- Ending ----

  function End<G, A>(d: Desk<G, A>, winner: Option<Id>, reason: EndReason): Desk<G, A> {
    Log(StopTimer(d.(phase := Finished, winner := winner)), Ended(winner, reason))
  }

  function WinnerOf<G, A>(rules: Rules<G, A>, d: Desk<G, A>, fallback: Option<Id>): Option<Id> {
    var standings := rules.standings(d.table);
    if standings != [] then Some(standings[0])
    else if fallback.Some? then fallback
    else if d.table.players != [] then Some(d.table.players[0])
    else d.winner
  }

  function Finish<G, A>(rules: Rules<G, A>, d: Desk<G, A>, fallback: Option<Id>, reason: EndReason): Desk<G, A> {
    End(d, WinnerOf(rules, d, fallback), reason)
  }

  // ---- Starting ----

  /** Opens the table on the seat picked. A failed start goes back to waiting; a panicking one rolls nothing back. */
  function StartGame<G, A>(rules: Rules<G, A>, d: Desk<G, A>, first: nat): Desk<G, A> {
    if d.closed || d.phase != Waiting || d.table.players == [] || first >= |d.table.players| then d
    else
      var begun := d.(phase := Playing, table := d.table.(turn := first));
      var h := rules.onStart(begun.table);
      if h.Done? then Log(NextTurn(rules, After(begun, h), false), Started)
      else if h.Failed? then After(d, h).(table := After(d, h).table.(turn := 0))
      else Log(After(begun, h), StartCrashed)
  }

  // ---- Acting ----

  /** A player acting for themselves is not idle. */
  function Hear<G, A>(d: Desk<G, A>, id: Id, present: bool): Desk<G, A> {
    if present then Log(d.(missed := d.missed - {id}), Accepted(id)) else d
  }

  /** An action gone through is announced, then wins the game or moves the turn on. */
  function Tell<G, A>(rules: Rules<G, A>, d: Desk<G, A>, id: Id): Desk<G, A> {
    var told := Log(d, Announced(id));
    if rules.won(told.table) then Finish(rules, told, Some(id), Win) else Log(NextTurn(rules, told, true), Advanced)
  }

  /** A validated action goes to the rules; present is false when the clock plays for an absent player. */
  function Carry<G, A>(rules: Rules<G, A>, d: Desk<G, A>, id: Id, a: A, present: bool): Result<G, A> {
    var tried := Log(d, Applied(id, d.generation));
    var h := rules.apply(tried.table, a);
    var applied := After(tried, h);
    if h.Panicked? then Result(Log(applied, ActCrashed(id, d.generation, present)), Panic)
    else if h.Failed? then Result(Finish(rules, applied, Some(id), RulesError), Broke)
    else
      var k := rules.after(applied.table, a);
      var settled := After(applied, k);
      if k.Panicked? then Result(Log(settled, ActCrashed(id, d.generation, present)), Panic)
      else if k.Failed? then Result(Finish(rules, settled, Some(id), RulesError), Broke)
      else Result(Tell(rules, settled, id), Fine)
  }

  function Perform<G, A>(rules: Rules<G, A>, d: Desk<G, A>, id: Id, a: A, present: bool): Result<G, A> {
    Carry(rules, Hear(d, id, present), id, a, present)
  }

  function SubmitLocked<G, A>(rules: Rules<G, A>, d: Desk<G, A>, id: Id, a: A, present: bool): Result<G, A> {
    if d.closed || d.phase != Playing || Current(d) != Some(id) || !rules.validate(d.table, a) then Result(d, Refused)
    else Perform(rules, d, id, a, present)
  }

  // ---- Leaving ----

  /** The seat is gone; the cursor still names a seat that exists. */
  function Vacated<G>(t: Table<G>, seat: nat): Table<G>
    requires seat < |t.players|
  {
    var players := DropAt(t.players, seat);
    t.(players := players, left := t.left + [t.players[seat]],
       turn := Clamp(if t.turn > seat then t.turn - 1 else t.turn, |players|))
  }

  function Unseat<G, A>(d: Desk<G, A>, seat: nat): Desk<G, A>
    requires seat < |d.table.players|
  {
    d.(table := Vacated(d.table, seat), missed := d.missed - {d.table.players[seat]})
  }

  /** What becomes of a game in play once a player has left it. */
  function Settle<G, A>(rules: Rules<G, A>, d: Desk<G, A>): Desk<G, A> {
    if d.table.players == [] then End(d, None, Abandoned)
    else if rules.won(d.table) then Finish(rules, d, None, Win)
    else if |d.table.players| == 1 && d.table.next.None? then End(d, Some(d.table.players[0]), Forfeit)
    else Log(NextTurn(rules, d, false), Advanced)
  }

  function RemoveLocked<G, A>(rules: Rules<G, A>, d: Desk<G, A>, id: Id): Result<G, A> {
    var seat := IndexOf(d.table.players, id);
    if d.phase == Finished || seat == |d.table.players| then Result(d, Refused)
    else
      var told := if rules.leave.Some? then After(d, rules.leave.value.before(d.table, id)) else d;
      if rules.leave.Some? && rules.leave.value.before(d.table, id).Panicked? then Result(told, Panic)
      else
        var gone := Unseat(told, seat);
        if rules.leave.Some? && rules.leave.value.afterwards(gone.table, seat).Panicked? then
          Result(After(gone, rules.leave.value.afterwards(gone.table, seat)), Panic)
        else
          var resolved := if rules.leave.Some? then After(gone, rules.leave.value.afterwards(gone.table, seat)) else gone;
          var left := Log(resolved, Gone(id));
          Result(if left.phase == Playing then Settle(rules, left) else left, Fine)
  }

  // ---- A turn running out ----

  /** One more turn this player let run out. */
  function Charge<G, A>(d: Desk<G, A>, id: Id): Desk<G, A> {
    Log(d.(missed := d.missed[id := At(d.missed, id) + 1]), Expired(id))
  }

  function Doom<G, A>(d: Desk<G, A>, generation: nat, id: Id): Desk<G, A> {
    Fly(Log(d, Doomed(id, generation)), Take(generation, id))
  }

  /** Takes the seat after a full set of misses or with nothing safe to play, else plays for the player. */
  function Decide<G, A>(rules: Rules<G, A>, d: Desk<G, A>, generation: nat, id: Id): Desk<G, A> {
    var safe := if rules.timeout.Some? then rules.timeout.value(d.table) else None;
    if At(d.missed, id) >= MAX_MISSED_TURNS then Doom(d, generation, id)
    else if safe.None? then Doom(Log(d.(missed := d.missed[id := MAX_MISSED_TURNS]), NoSafeMove(id)), generation, id)
    else Fly(Log(d, TimedOut(id)), Play(generation, id, safe.value))
  }

  /** First lock hold of a callback: charges the miss and decides what the second hold is to do. */
  function Resolve<G, A>(rules: Rules<G, A>, d: Desk<G, A>, generation: nat): Desk<G, A> {
    if generation != d.generation || d.phase != Playing || Current(d).None? then d
    else Decide(rules, Charge(d, Current(d).value), generation, Current(d).value)
  }

  function Fly<G, A>(d: Desk<G, A>, c: Callback<A>): Desk<G, A> {
    d.(flying := d.flying + [c])
  }

  /** Later lock holds: a callback whose generation has moved on does nothing. */
  function Land<G, A>(rules: Rules<G, A>, d: Desk<G, A>, c: Callback<A>): Desk<G, A> {
    match c
    case Take(generation, id) =>
      if generation != d.generation then d
      else
        var r := RemoveLocked(rules, Log(d, Idle(id, generation)), id);
        if r.outcome == Panic then Fly(r.d, Recover) else r.d
    case Play(generation, id, a) =>
      if generation != d.generation then d
      else
        var r := SubmitLocked(rules, d, id, a, false);
        if r.outcome == Fine then r.d else Fly(r.d, if r.outcome == Panic then Recover else Rearm)
    case Rearm => ArmTimer(rules, d)
    case Recover =>
      if d.phase == Playing && !d.closed then Finish(rules, d, None, RulesError) else d
  }

  // ---- Any interleaving ----

  datatype Step<A> =
    | Open(first: nat)
    | Submit(id: Id, a: A)
    | Leave(id: Id)
    | Fire(generation: nat)  // a started timer's callback begins
    | Resume(callback: nat)  // a callback takes the lock again
    | Close

  /**
   One lock hold. The lock is released while a panic unwinds, so after one in a player's own call the table
   plays on with what the hook left behind.
   */
  function Next<G, A>(rules: Rules<G, A>, d: Desk<G, A>, s: Step<A>): Desk<G, A> {
    match s
    case Open(first) => StartGame(rules, d, first)
    case Submit(id, a) => SubmitLocked(rules, d, id, a, true).d
    case Leave(id) =>
      var r := RemoveLocked(rules, d, id);
      if r.outcome == Panic then Log(r.d, LeaveCrashed(id)) else r.d
    case Fire(generation) =>
      if generation !in d.timers then d
      else Resolve(rules, d.(timers := d.timers - {generation}), generation)
    case Resume(k) =>
      if k >= |d.flying| then d else Land(rules, d.(flying := DropAt(d.flying, k)), d.flying[k])
    case Close => StopTimer(d.(closed := true))
  }

  function Run<G, A>(rules: Rules<G, A>, d: Desk<G, A>, steps: seq<Step<A>>): Desk<G, A>
    decreases |steps|
  {
    if steps == [] then d else Run(rules, Next(rules, d, steps[0]), steps[1..])
  }

  /** A table nobody has started yet. */
  function NewDesk<G, A>(players: seq<Id>, clocked: bool, extra: G): Desk<G, A> {
    Desk(Waiting, Table(players, [], 0, None, extra), None, false, clocked, 0, map[], {}, [], [])
  }
}
