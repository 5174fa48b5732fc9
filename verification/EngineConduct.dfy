/** Rules that keep their word under the engine: no callback of the clock is ever refused, and no error ends a game. */
module EngineConduct {
  import opened Cards
  import opened Options
  import opened Sums
  import opened EngineRules
  import opened EngineSafety
  import opened EngineClock

  /**
   What rules claim of a table nobody has started, of one in play and of one that is finished, and how many more
   moves and leaves a table in play has in it at the most.
   */
  datatype Terms<!G> = Terms(
    spare: Table<G> -> bool, good: Table<G> -> bool, over: Table<G> -> bool, rank: Table<G> -> nat)

  // ---- What is asked of the rules ----

  /** Starting works, or fails and leaves a table that may be tried again. */
  ghost predicate StartsWell<G, A>(rules: Rules<G, A>, terms: Terms<G>, t: Table<G>, first: nat) {
    var begun := t.(turn := first);
    var h := rules.onStart(begun);
    && (h.Failed? ==> terms.spare(Hooked(t, h).(turn := 0)))
    && (h.Done? ==> terms.good(Moved(Hooked(begun, h), false)))
    && !h.Panicked?
  }

  /** Somebody is on turn, and the automatic move exists and is accepted. */
  ghost predicate HasSafeMove<G, A>(rules: Rules<G, A>, t: Table<G>) {
    && 0 <= t.turn < |t.players|
    && rules.timeout.Some? && rules.timeout.value(t).Some? && rules.validate(t, rules.timeout.value(t).value)
  }

  /** An accepted action goes through, and wins the game or hands over a table in play that is nearer its end. */
  ghost predicate ActsWell<G, A>(rules: Rules<G, A>, terms: Terms<G>, t: Table<G>, a: A) {
    var h := rules.apply(t, a);
    var applied := Hooked(t, h);
    var k := rules.after(applied, a);
    var settled := Hooked(applied, k);
    && h.Done? && k.Done?
    && (if rules.won(settled) then terms.over(settled)
        else terms.good(Moved(settled, true)) && terms.rank(Moved(settled, true)) < terms.rank(t))
  }

  /** The table once the leave hooks are through with the seat gone. */
  function Departed<G, A>(rules: Rules<G, A>, t: Table<G>, seat: nat): Table<G>
    requires seat < |t.players|
  {
    if rules.leave.None? then Vacated(t, seat)
    else
      var gone := Vacated(Hooked(t, rules.leave.value.before(t, t.players[seat])), seat);
      Hooked(gone, rules.leave.value.afterwards(gone, seat))
  }

  ghost predicate LeaveHooksReturn<G, A>(rules: Rules<G, A>, t: Table<G>, seat: nat)
    requires seat < |t.players|
  {
    rules.leave.Some? ==>
      && !rules.leave.value.before(t, t.players[seat]).Panicked?
      && !rules.leave.value.afterwards(
            Vacated(Hooked(t, rules.leave.value.before(t, t.players[seat])), seat), seat).Panicked?
  }

  ghost predicate EndsAfterLeave<G, A>(rules: Rules<G, A>, t: Table<G>) {
    t.players == [] || rules.won(t) || (|t.players| == 1 && t.next.None?)
  }

  ghost predicate LeavesWell<G, A>(rules: Rules<G, A>, terms: Terms<G>, t: Table<G>, seat: nat)
    requires seat < |t.players|
  {
    var s := Departed(rules, t, seat);
    && LeaveHooksReturn(rules, t, seat)
    && (terms.good(t) ==>
          if EndsAfterLeave(rules, s) then terms.over(s)
          else terms.good(Moved(s, false)) && terms.rank(Moved(s, false)) < terms.rank(t))
    && (terms.spare(t) ==> terms.spare(s))
  }

  ghost predicate Obeys<G(!new), A(!new)>(rules: Rules<G, A>, terms: Terms<G>) {
    && (forall t, first: nat | terms.spare(t) && first < |t.players| :: StartsWell(rules, terms, t, first))
    && (forall t | terms.good(t) :: HasSafeMove(rules, t))
    && (forall t, a | terms.good(t) && rules.validate(t, a) :: ActsWell(rules, terms, t, a))
    && (forall t, seat: nat | (terms.good(t) || terms.spare(t)) && seat < |t.players| ::
          LeavesWell(rules, terms, t, seat))
  }

  // ---- What it earns ----

  ghost predicate AsClaimed<G>(terms: Terms<G>, phase: Phase, t: Table<G>) {
    match phase
    case Waiting => terms.spare(t)
    case Playing => terms.good(t)
    case Finished => terms.over(t)
  }

  /** A broadcast or a record that only rules at fault can cause. */
  predicate Fault(e: Entry) {
    e.ActCrashed? || e.LeaveCrashed? || e.StartCrashed? || (e.Ended? && e.reason == RulesError) || e.NoSafeMove?
  }

  ghost predicate Faultless(log: seq<Entry>) {
    forall k | 0 <= k < |log| :: !Fault(log[k])
  }

  /** A move the clock is about to play is still the move of the seat on turn, and still legal. */
  ghost predicate Playable<G, A>(rules: Rules<G, A>, d: Desk<G, A>, c: Callback<A>)
    requires c.Play?
  {
    d.phase == Playing && !d.closed && Current(d) == Some(c.id) && rules.validate(d.table, c.a)
  }

  ghost predicate CallbackFits<G, A>(rules: Rules<G, A>, d: Desk<G, A>, c: Callback<A>) {
    match c
    case Take(generation, _) => true
    case Play(generation, _, _) => generation <= d.generation && (generation == d.generation ==> Playable(rules, d, c))
    case Rearm => false
    case Recover => false
  }

  ghost predicate TimersFit<G, A>(d: Desk<G, A>) {
    && (forall g | g in d.timers :: g <= d.generation)
    && (d.closed ==> d.generation !in d.timers)
  }

  /**
   The table is as the rules claim; no callback is in flight to re-arm a refused turn or to recover from a panic;
   a move in flight for the present turn will be accepted; and nothing in the log is the rules' fault.
   */
  ghost predicate Conducted<G, A>(rules: Rules<G, A>, terms: Terms<G>, d: Desk<G, A>) {
    && AsClaimed(terms, d.phase, d.table)
    && TimersFit(d)
    && (forall c | c in d.flying :: CallbackFits(rules, d, c))
    && Faultless(d.log)
  }

  // ---- Each lock hold ----

  lemma LogStaysFaultless(log: seq<Entry>, e: Entry)
    requires Faultless(log) && !Fault(e)
    ensures Faultless(log + [e])
  {
  }

  /** With the generation moved on, nothing in flight is about the present turn. */
  ghost predicate Orderly<G, A>(rules: Rules<G, A>, d: Desk<G, A>) {
    && (forall g | g in d.timers :: g <= d.generation)
    && (forall c | c in d.flying :: (c.Take? || c.Play?) && (c.Play? ==> c.generation <= d.generation))
    && Faultless(d.log)
  }

  lemma ConductedIsOrderly<G, A>(rules: Rules<G, A>, terms: Terms<G>, d: Desk<G, A>)
    requires Conducted(rules, terms, d)
    ensures Orderly(rules, d)
  {
    forall c | c in d.flying ensures (c.Take? || c.Play?) && (c.Play? ==> c.generation <= d.generation) {
      assert CallbackFits(rules, d, c);
    }
  }

  lemma StoppingConducts<G, A>(rules: Rules<G, A>, terms: Terms<G>, d: Desk<G, A>)
    requires Orderly(rules, d) && AsClaimed(terms, d.phase, d.table)
    ensures Conducted(rules, terms, StopTimer(d))
  {
  }

  lemma ArmingConducts<G, A>(rules: Rules<G, A>, terms: Terms<G>, d: Desk<G, A>)
    requires Orderly(rules, d) && AsClaimed(terms, d.phase, d.table)
    ensures Conducted(rules, terms, ArmTimer(rules, d))
  {
    StoppingConducts(rules, terms, d);
  }

  lemma LoggingConducts<G, A>(rules: Rules<G, A>, terms: Terms<G>, d: Desk<G, A>, e: Entry)
    requires Conducted(rules, terms, d) && !Fault(e)
    ensures Conducted(rules, terms, Log(d, e))
  {
    forall c | c in Log(d, e).flying ensures CallbackFits(rules, Log(d, e), c) {
      assert CallbackFits(rules, d, c);
    }
  }

  lemma EndingConducts<G, A>(rules: Rules<G, A>, terms: Terms<G>, d: Desk<G, A>, winner: Option<Id>, reason: EndReason)
    requires Orderly(rules, d) && terms.over(d.table) && reason != RulesError
    ensures Conducted(rules, terms, End(d, winner, reason)) && End(d, winner, reason).phase == Finished
  {
    var ended := d.(phase := Finished, winner := winner);
    StoppingConducts(rules, terms, ended);
    LoggingConducts(rules, terms, StopTimer(ended), Ended(winner, reason));
  }

  ghost predicate InPlay<G, A>(d: Desk<G, A>, n: Desk<G, A>) {
    n.phase == Playing && n.closed == d.closed && n.clocked == d.clocked
  }

  /** The game is over, or goes on with less of it left. */
  ghost predicate Nearer<G, A>(terms: Terms<G>, d: Desk<G, A>, n: Desk<G, A>) {
    n.phase == Finished || (InPlay(d, n) && terms.rank(n.table) < terms.rank(d.table))
  }

  lemma MovingConducts<G, A>(rules: Rules<G, A>, terms: Terms<G>, d: Desk<G, A>, advance: bool, e: Entry)
    requires Orderly(rules, d) && d.phase == Playing && terms.good(Moved(d.table, advance)) && !Fault(e)
    ensures Conducted(rules, terms, Log(NextTurn(rules, d, advance), e))
    ensures NextTurn(rules, d, advance).table == Moved(d.table, advance) && InPlay(d, NextTurn(rules, d, advance))
  {
    ArmingConducts(rules, terms, d.(table := Moved(d.table, advance)));
    LoggingConducts(rules, terms, NextTurn(rules, d, advance), e);
  }

  lemma StartConducts<G(!new), A(!new)>(rules: Rules<G, A>, terms: Terms<G>, d: Desk<G, A>, first: nat)
    requires Obeys(rules, terms) && Conducted(rules, terms, d)
    ensures Conducted(rules, terms, StartGame(rules, d, first))
  {
    if !d.closed && d.phase == Waiting && first < |d.table.players| {
      assert StartsWell(rules, terms, d.table, first);
      ConductedIsOrderly(rules, terms, d);
      var begun := d.(phase := Playing, table := d.table.(turn := first));
      var h := rules.onStart(begun.table);
      if h.Done? {
        MovingConducts(rules, terms, After(begun, h), false, Started);
      } else {
        WaitingOnlyChangesTable(rules, terms, d, Hooked(d.table, h).(turn := 0));
      }
    }
  }

  lemma WaitingOnlyChangesTable<G, A>(rules: Rules<G, A>, terms: Terms<G>, d: Desk<G, A>, t: Table<G>)
    requires Conducted(rules, terms, d) && d.phase == Waiting && terms.spare(t)
    ensures Conducted(rules, terms, d.(table := t))
  {
    forall c | c in d.flying ensures CallbackFits(rules, d.(table := t), c) {
      assert CallbackFits(rules, d, c);
    }
  }

  /** An accepted action goes through and moves the table on. */
  lemma PerformConducts<G(!new), A(!new)>(rules: Rules<G, A>, terms: Terms<G>, d: Desk<G, A>, id: Id, a: A,
                                          present: bool)
    requires Obeys(rules, terms) && Conducted(rules, terms, d) && d.phase == Playing && rules.validate(d.table, a)
    ensures var r := Perform(rules, d, id, a, present);
            r.outcome == Fine && Conducted(rules, terms, r.d) && Nearer(terms, d, r.d)
  {
    assert ActsWell(rules, terms, d.table, a);
    ConductedIsOrderly(rules, terms, d);
    var heard := Hear(d, id, present);
    var tried := Log(heard, Applied(id, d.generation));
    var applied := After(tried, rules.apply(tried.table, a));
    var settled := After(applied, rules.after(applied.table, a));
    TellConducts(rules, terms, settled, id);
  }

  lemma TellConducts<G, A>(rules: Rules<G, A>, terms: Terms<G>, d: Desk<G, A>, id: Id)
    requires Orderly(rules, d) && d.phase == Playing
    requires if rules.won(d.table) then terms.over(d.table) else terms.good(Moved(d.table, true))
    ensures Conducted(rules, terms, Tell(rules, d, id))
    ensures var n := Tell(rules, d, id); n.phase == Finished || (InPlay(d, n) && n.table == Moved(d.table, true))
  {
    var told := Log(d, Announced(id));
    if rules.won(told.table) {
      EndingConducts(rules, terms, told, WinnerOf(rules, told, Some(id)), Win);
    } else {
      MovingConducts(rules, terms, told, true, Advanced);
    }
  }

  lemma SubmitConducts<G(!new), A(!new)>(rules: Rules<G, A>, terms: Terms<G>, d: Desk<G, A>, id: Id, a: A,
                                         present: bool)
    requires Obeys(rules, terms) && Conducted(rules, terms, d)
    ensures Conducted(rules, terms, SubmitLocked(rules, d, id, a, present).d)
    ensures var r := SubmitLocked(rules, d, id, a, present); r.outcome == Fine || r.outcome == Refused
  {
    if !d.closed && d.phase == Playing && Current(d) == Some(id) && rules.validate(d.table, a) {
      PerformConducts(rules, terms, d, id, a, present);
    }
  }

  lemma SettleConducts<G, A>(rules: Rules<G, A>, terms: Terms<G>, d: Desk<G, A>)
    requires Orderly(rules, d) && d.phase == Playing
    requires if EndsAfterLeave(rules, d.table) then terms.over(d.table) else terms.good(Moved(d.table, false))
    ensures Conducted(rules, terms, Settle(rules, d))
    ensures var n := Settle(rules, d);
            if EndsAfterLeave(rules, d.table) then n.phase == Finished
            else InPlay(d, n) && n.table == Moved(d.table, false)
  {
    if d.table.players == [] {
      EndingConducts(rules, terms, d, None, Abandoned);
    } else if rules.won(d.table) {
      EndingConducts(rules, terms, d, WinnerOf(rules, d, None), Win);
    } else if |d.table.players| == 1 && d.table.next.None? {
      EndingConducts(rules, terms, d, Some(d.table.players[0]), Forfeit);
    } else {
      MovingConducts(rules, terms, d, false, Advanced);
    }
  }

  /** A leave in which no hook panics, as one change of table. */
  lemma LeaveIs<G, A>(rules: Rules<G, A>, d: Desk<G, A>, id: Id, seat: nat)
    requires d.phase != Finished && seat == IndexOf(d.table.players, id) < |d.table.players|
    requires LeaveHooksReturn(rules, d.table, seat)
    ensures d.table.players[seat] == id
    ensures var left := Log(d.(table := Departed(rules, d.table, seat), missed := d.missed - {id}), Gone(id));
            RemoveLocked(rules, d, id) == Result(if d.phase == Playing then Settle(rules, left) else left, Fine)
  {
    IndexFinds(d.table.players, id);
  }

  lemma {:induction false} IndexFinds(s: seq<Id>, id: Id)
    requires IndexOf(s, id) < |s|
    ensures s[IndexOf(s, id)] == id
  {
    if s[0] != id {
      IndexFinds(s[1..], id);
    }
  }

  lemma RemoveConducts<G(!new), A(!new)>(rules: Rules<G, A>, terms: Terms<G>, d: Desk<G, A>, id: Id)
    requires Obeys(rules, terms) && Conducted(rules, terms, d)
    ensures Conducted(rules, terms, RemoveLocked(rules, d, id).d) && RemoveLocked(rules, d, id).outcome != Panic
    ensures d.phase == Playing && id in d.table.players ==> Nearer(terms, d, RemoveLocked(rules, d, id).d)
  {
    var seat := IndexOf(d.table.players, id);
    if d.phase != Finished && seat < |d.table.players| {
      assert LeavesWell(rules, terms, d.table, seat);
      LeaveIs(rules, d, id, seat);
      var gone := d.(table := Departed(rules, d.table, seat), missed := d.missed - {id});
      if d.phase == Playing {
        ConductedIsOrderly(rules, terms, d);
        SettleConducts(rules, terms, Log(gone, Gone(id)));
      } else {
        WaitingOnlyChangesTable(rules, terms, d, gone.table);
        LoggingConducts(rules, terms, d.(table := gone.table), Gone(id));
        MissesDoNotMatter(rules, terms, Log(d.(table := gone.table), Gone(id)), gone.missed);
      }
    }
  }

  lemma MissesDoNotMatter<G, A>(rules: Rules<G, A>, terms: Terms<G>, d: Desk<G, A>, missed: map<Id, nat>)
    requires Conducted(rules, terms, d)
    ensures Conducted(rules, terms, d.(missed := missed))
  {
    forall c | c in d.flying ensures CallbackFits(rules, d.(missed := missed), c) {
      assert CallbackFits(rules, d, c);
    }
  }

  lemma FlyingConducts<G, A>(rules: Rules<G, A>, terms: Terms<G>, d: Desk<G, A>, c: Callback<A>)
    requires Conducted(rules, terms, d) && CallbackFits(rules, d, c)
    ensures Conducted(rules, terms, Fly(d, c))
  {
    forall e | e in Fly(d, c).flying ensures CallbackFits(rules, Fly(d, c), e) {
      assert CallbackFits(rules, d, e);
    }
  }

  lemma LandingConducts<G, A>(rules: Rules<G, A>, terms: Terms<G>, d: Desk<G, A>, k: nat)
    requires Conducted(rules, terms, d) && k < |d.flying|
    ensures Conducted(rules, terms, Landing(d, k)) && CallbackFits(rules, Landing(d, k), d.flying[k])
  {
    forall c | c in Landing(d, k).flying ensures CallbackFits(rules, Landing(d, k), c) {
      assert c in d.flying;
      assert CallbackFits(rules, d, c);
    }
    assert CallbackFits(rules, d, d.flying[k]);
  }

  lemma FiringConducts<G(!new), A(!new)>(rules: Rules<G, A>, terms: Terms<G>, d: Desk<G, A>, generation: nat)
    requires Obeys(rules, terms) && Conducted(rules, terms, d) && generation in d.timers
    ensures Conducted(rules, terms, Next(rules, d, Fire(generation)))
  {
    var fired := d.(timers := d.timers - {generation});
    forall c | c in fired.flying ensures CallbackFits(rules, fired, c) {
      assert CallbackFits(rules, d, c);
    }
    if generation == d.generation && d.phase == Playing && Current(d).Some? {
      var id := Current(d).value;
      MissesDoNotMatter(rules, terms, fired, Charge(fired, id).missed);
      LoggingConducts(rules, terms, fired.(missed := Charge(fired, id).missed), Expired(id));
      DecideConducts(rules, terms, Charge(fired, id), id);
    }
  }

  lemma DecideConducts<G(!new), A(!new)>(rules: Rules<G, A>, terms: Terms<G>, d: Desk<G, A>, id: Id)
    requires Obeys(rules, terms) && Conducted(rules, terms, d)
    requires d.phase == Playing && !d.closed && Current(d) == Some(id)
    ensures Conducted(rules, terms, Decide(rules, d, d.generation, id))
  {
    assert HasSafeMove(rules, d.table);
    if At(d.missed, id) >= MAX_MISSED_TURNS {
      LoggingConducts(rules, terms, d, Doomed(id, d.generation));
      FlyingConducts(rules, terms, Log(d, Doomed(id, d.generation)), Take(d.generation, id));
    } else {
      var told := Log(d, TimedOut(id));
      LoggingConducts(rules, terms, d, TimedOut(id));
      FlyingConducts(rules, terms, told, Play(d.generation, id, rules.timeout.value(d.table).value));
    }
  }

  lemma ResumingConducts<G(!new), A(!new)>(rules: Rules<G, A>, terms: Terms<G>, d: Desk<G, A>, k: nat)
    requires Obeys(rules, terms) && Conducted(rules, terms, d) && k < |d.flying|
    ensures Conducted(rules, terms, Next(rules, d, Resume(k)))
  {
    LandingConducts(rules, terms, d, k);
    var landing, c := Landing(d, k), d.flying[k];
    if c.Take? {
      LoggingConducts(rules, terms, landing, Idle(c.id, c.generation));
      RemoveConducts(rules, terms, Log(landing, Idle(c.id, c.generation)), c.id);
    } else {
      SubmitConducts(rules, terms, landing, c.id, c.a, false);
    }
  }

  lemma NextConducts<G(!new), A(!new)>(rules: Rules<G, A>, terms: Terms<G>, d: Desk<G, A>, s: Step<A>)
    requires Obeys(rules, terms) && Conducted(rules, terms, d)
    ensures Conducted(rules, terms, Next(rules, d, s))
  {
    match s
    case Open(first) => StartConducts(rules, terms, d, first);
    case Submit(id, a) => SubmitConducts(rules, terms, d, id, a, true);
    case Leave(id) => RemoveConducts(rules, terms, d, id);
    case Fire(generation) =>
      if generation in d.timers {
        FiringConducts(rules, terms, d, generation);
      }
    case Resume(k) =>
      if k < |d.flying| {
        ResumingConducts(rules, terms, d, k);
      }
    case Close =>
      ConductedIsOrderly(rules, terms, d);
      StoppingConducts(rules, terms, d.(closed := true));
  }

  lemma {:induction false} RunConducts<G(!new), A(!new)>(rules: Rules<G, A>, terms: Terms<G>, d: Desk<G, A>,
                                                         steps: seq<Step<A>>)
    requires Obeys(rules, terms) && Conducted(rules, terms, d)
    ensures Conducted(rules, terms, Run(rules, d, steps))
    decreases |steps|
  {
    if steps != [] {
      NextConducts(rules, terms, d, steps[0]);
      RunConducts(rules, terms, Next(rules, d, steps[0]), steps[1..]);
    }
  }

  /** A move the clock plays in its own generation is never refused. */
  lemma ClockMovesAreAccepted<G(!new), A(!new)>(rules: Rules<G, A>, terms: Terms<G>, d: Desk<G, A>, c: Callback<A>)
    requires Obeys(rules, terms) && Conducted(rules, terms, d)
    requires c in d.flying && c.Play? && c.generation == d.generation
    ensures SubmitLocked(rules, d, c.id, c.a, false).outcome == Fine
  {
    assert CallbackFits(rules, d, c);
    PerformConducts(rules, terms, d, c.id, c.a, false);
  }

  // ---- Whole runs ----

  lemma {:induction false} NeverHelpless(log: seq<Entry>, id: Id)
    requires NoSafeMove(id) !in log
    ensures !LeftHelpless(log, id)
  {
    if log != [] {
      NeverHelpless(log[..|log| - 1], id);
    }
  }

  /**
   Under rules that keep their word, whatever players and timers do: the table is as claimed, no game ends in an
   error and nothing panics, the clock never stops, no generation sees two actions, and nobody loses a seat
   without a full set of missed turns in a row.
   */
  lemma KeepingOnesWord<G(!new), A(!new)>(rules: Rules<G, A>, terms: Terms<G>, players: seq<Id>, clocked: bool,
                                          extra: G, steps: seq<Step<A>>)
    requires Obeys(rules, terms) && terms.spare(NewDesk<G, A>(players, clocked, extra).table)
    ensures var d := Run(rules, NewDesk(players, clocked, extra), steps);
            && Conducted(rules, terms, d) && Ticking(rules, d)
            && (forall i | 0 <= i < |d.log| && d.log[i].Idle? :: Misses(d.log[..i], d.log[i].id) >= MAX_MISSED_TURNS)
            && (forall i, j | 0 <= i < j < |d.log| && d.log[i].Applied? && d.log[j].Applied? ::
                  d.log[i].generation != d.log[j].generation)
  {
    RunConducts(rules, terms, NewDesk(players, clocked, extra), steps);
    RunTicks(rules, NewDesk(players, clocked, extra), steps);
    var log := Run(rules, NewDesk(players, clocked, extra), steps).log;
    assert Unhurt(log);
    forall i | 0 <= i < |log| && log[i].Idle? ensures Misses(log[..i], log[i].id) >= MAX_MISSED_TURNS {
      FaultlessRemoval(players, clocked, extra, rules, steps, i);
    }
    forall i, j | 0 <= i < j < |log| && log[i].Applied? && log[j].Applied?
      ensures log[i].generation != log[j].generation
    {
      OneActionPerGeneration(players, clocked, extra, rules, steps, i, j);
    }
  }

  lemma FaultlessRemoval<G, A>(players: seq<Id>, clocked: bool, extra: G, rules: Rules<G, A>, steps: seq<Step<A>>,
                               i: nat)
    requires var log := Run(rules, NewDesk(players, clocked, extra), steps).log;
             i < |log| && log[i].Idle? && Faultless(log)
    ensures var log := Run(rules, NewDesk(players, clocked, extra), steps).log;
            Misses(log[..i], log[i].id) >= MAX_MISSED_TURNS
  {
    var log := Run(rules, NewDesk(players, clocked, extra), steps).log;
    IdleSeatsHadItComing(players, clocked, extra, rules, steps, i);
    forall e | e in log[..i] ensures !Fault(e) {
      var k :| 0 <= k < i && log[..i][k] == e;
      assert !Fault(log[k]);
    }
    NeverHelpless(log[..i], log[i].id);
  }

  // ---- A table everybody has turned away from ----

  lemma {:induction false} RunConcat<G, A>(rules: Rules<G, A>, d: Desk<G, A>, a: seq<Step<A>>, b: seq<Step<A>>)
    ensures Run(rules, d, a + b) == Run(rules, Run(rules, d, a), b)
    decreases |a|
  {
    if a == [] {
      assert a + b == b;
    } else {
      assert (a + b)[1..] == a[1..] + b;
      RunConcat(rules, Next(rules, d, a[0]), a[1..], b);
    }
  }

  /** A callback of the present turn brings the end nearer the moment it takes the lock. */
  lemma ResumingIsNearer<G(!new), A(!new)>(rules: Rules<G, A>, terms: Terms<G>, d: Desk<G, A>, k: nat)
    requires Obeys(rules, terms) && Conducted(rules, terms, d) && Clocked(rules, d)
    requires k < |d.flying| && Acts(d, d.flying[k])
    ensures Nearer(terms, d, Next(rules, d, Resume(k)))
  {
    LandingConducts(rules, terms, d, k);
    var landing, c := Landing(d, k), d.flying[k];
    if c.Take? {
      LoggingConducts(rules, terms, landing, Idle(c.id, c.generation));
      RemoveConducts(rules, terms, Log(landing, Idle(c.id, c.generation)), c.id);
    } else {
      PerformConducts(rules, terms, landing, c.id, c.a, false);
    }
  }

  /** One turn, seen to by the clock: a timer fires if it has not yet, and its callback lands. */
  lemma ClockTurn<G(!new), A(!new)>(rules: Rules<G, A>, terms: Terms<G>, d: Desk<G, A>) returns (steps: seq<Step<A>>)
    requires Obeys(rules, terms) && Conducted(rules, terms, d) && Ticking(rules, d) && Clocked(rules, d)
    ensures |steps| <= 2 && forall k | 0 <= k < |steps| :: IsCallback(steps[k])
    ensures Nearer(terms, d, Run(rules, d, steps))
  {
    if d.generation in d.timers {
      assert HasSafeMove(rules, d.table);
      var fired := Next(rules, d, Fire(d.generation));
      FiringConducts(rules, terms, d, d.generation);
      DecideActs(rules, Charge(d.(timers := d.timers - {d.generation}), Current(d).value), Current(d).value);
      ResumingIsNearer(rules, terms, fired, |d.flying|);
      steps := [Fire(d.generation), Resume(|d.flying|)];
      RunOfTwo(rules, d, steps);
    } else {
      NothingToRecover(rules, terms, d);
      var c :| c in d.flying && Acts(d, c);
      var k: nat :| k < |d.flying| && d.flying[k] == c;
      ResumingIsNearer(rules, terms, d, k);
      steps := [Resume(k)];
      assert steps[1..] == [] && Run(rules, d, steps) == Run(rules, Next(rules, d, Resume(k)), []);
    }
  }

  lemma {:induction false} StaysClocked<G, A>(rules: Rules<G, A>, d: Desk<G, A>, steps: seq<Step<A>>)
    ensures Run(rules, d, steps).clocked == d.clocked
    decreases |steps|
  {
    if steps != [] {
      StepStaysClocked(rules, d, steps[0]);
      StaysClocked(rules, Next(rules, d, steps[0]), steps[1..]);
    }
  }

  lemma StepStaysClocked<G, A>(rules: Rules<G, A>, d: Desk<G, A>, s: Step<A>)
    ensures Next(rules, d, s).clocked == d.clocked
  {
    match s
    case Open(_) =>
    case Submit(id, a) => SubmitStaysClocked(rules, d, id, a, true);
    case Leave(id) => RemoveStaysClocked(rules, d, id);
    case Fire(_) =>
    case Resume(k) =>
      if k < |d.flying| {
        var landing := Landing(d, k);
        match d.flying[k]
        case Take(generation, id) => RemoveStaysClocked(rules, Log(landing, Idle(id, generation)), id);
        case Play(_, id, a) => SubmitStaysClocked(rules, landing, id, a, false);
        case Rearm =>
        case Recover =>
      }
    case Close =>
  }

  lemma SubmitStaysClocked<G, A>(rules: Rules<G, A>, d: Desk<G, A>, id: Id, a: A, present: bool)
    ensures SubmitLocked(rules, d, id, a, present).d.clocked == d.clocked
  {
    var tried := Log(Hear(d, id, present), Applied(id, d.generation));
    var applied := After(tried, rules.apply(tried.table, a));
    TellStaysClocked(rules, After(applied, rules.after(applied.table, a)), id);
  }

  lemma TellStaysClocked<G, A>(rules: Rules<G, A>, d: Desk<G, A>, id: Id)
    ensures Tell(rules, d, id).clocked == d.clocked
  {
  }

  lemma SettleStaysClocked<G, A>(rules: Rules<G, A>, d: Desk<G, A>)
    ensures Settle(rules, d).clocked == d.clocked
  {
  }

  lemma RemoveStaysClocked<G, A>(rules: Rules<G, A>, d: Desk<G, A>, id: Id)
    ensures RemoveLocked(rules, d, id).d.clocked == d.clocked
  {
    var seat := IndexOf(d.table.players, id);
    if d.phase != Finished && seat < |d.table.players| {
      var told := if rules.leave.Some? then After(d, rules.leave.value.before(d.table, id)) else d;
      var gone := Unseat(told, seat);
      var resolved := if rules.leave.Some? then After(gone, rules.leave.value.afterwards(gone.table, seat)) else gone;
      SettleStaysClocked(rules, Log(resolved, Gone(id)));
    }
  }

  lemma NothingToRecover<G, A>(rules: Rules<G, A>, terms: Terms<G>, d: Desk<G, A>)
    requires Conducted(rules, terms, d)
    ensures !Recovering(d)
  {
    forall c | c in d.flying ensures !c.Recover? {
      assert CallbackFits(rules, d, c);
    }
  }

  /** With everybody away for good the clock alone plays the game to its end. */
  lemma {:induction false} ClockEndsTheGame<G(!new), A(!new)>(rules: Rules<G, A>, terms: Terms<G>, d: Desk<G, A>)
    returns (steps: seq<Step<A>>)
    requires Obeys(rules, terms) && Conducted(rules, terms, d) && Ticking(rules, d) && Clocked(rules, d)
    ensures |steps| <= 2 * (terms.rank(d.table) + 1) && forall k | 0 <= k < |steps| :: IsCallback(steps[k])
    ensures Run(rules, d, steps).phase == Finished
    decreases terms.rank(d.table)
  {
    steps := ClockTurn(rules, terms, d);
    var n := Run(rules, d, steps);
    if n.phase != Finished {
      RunConducts(rules, terms, d, steps);
      RunTicks(rules, d, steps);
      assert Unhurt(n.log);
      var rest := ClockEndsTheGame(rules, terms, n);
      RunConcat(rules, d, steps, rest);
      steps := steps + rest;
    }
  }
}
