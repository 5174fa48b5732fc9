/** A table in play never loses its clock, for any rules, unless a hook panics in a player's own call. */
module EngineClock {
  import opened Cards
  import opened Options
  import opened Sums
  import opened EngineRules
  import opened EngineSafety

  /** A game the clock has to keep moving. */
  ghost predicate Clocked<G, A>(rules: Rules<G, A>, d: Desk<G, A>) {
    d.phase == Playing && !d.closed && d.clocked && rules.timeout.Some?
  }

  /** A callback in flight that will still do something about the present turn. */
  ghost predicate Acts<G, A>(d: Desk<G, A>, c: Callback<A>) {
    match c
    case Take(generation, id) => generation == d.generation && id in d.table.players
    case Play(generation, _, _) => generation == d.generation
    case Rearm => true
    case Recover => true
  }

  ghost predicate Recovering<G, A>(d: Desk<G, A>) {
    exists c | c in d.flying :: c.Recover?
  }

  /** The present generation has a timer running or a callback on its way. */
  ghost predicate Watched<G, A>(d: Desk<G, A>) {
    d.generation in d.timers || exists c | c in d.flying :: Acts(d, c)
  }

  /** Somebody is on turn and the clock is after them, or the game is about to be ended for a panic. */
  ghost predicate Ticking<G, A>(rules: Rules<G, A>, d: Desk<G, A>) {
    Clocked(rules, d) ==> Recovering(d) || (Current(d).Some? && Watched(d))
  }

  /** A hook panicked in a call nobody but the caller recovers. */
  predicate OwnCrash(e: Entry) {
    e.StartCrashed? || e.LeaveCrashed? || (e.ActCrashed? && e.present)
  }

  ghost predicate Unhurt(log: seq<Entry>) {
    forall k | 0 <= k < |log| :: !OwnCrash(log[k])
  }

  // ---- One lock hold ----

  lemma ArmTicks<G, A>(rules: Rules<G, A>, d: Desk<G, A>)
    requires Current(d).Some?
    ensures Ticking(rules, ArmTimer(rules, d))
  {
  }

  lemma NextTurnTicks<G, A>(rules: Rules<G, A>, d: Desk<G, A>, advance: bool)
    requires d.table.players != []
    ensures Ticking(rules, NextTurn(rules, d, advance)) && NextTurn(rules, d, advance).generation == d.generation + 1
    ensures NextTurn(rules, d, advance).log == d.log
  {
    ArmTicks(rules, d.(table := Moved(d.table, advance)));
  }

  lemma LoggingTicks<G, A>(rules: Rules<G, A>, d: Desk<G, A>, e: Entry)
    requires Ticking(rules, d)
    ensures Ticking(rules, Log(d, e))
  {
    if d.generation !in d.timers && Watched(d) {
      var c :| c in d.flying && Acts(d, c);
      assert Acts(Log(d, e), c);
    }
  }

  /** What an action that went through leads to: the game is over, or the next turn has its own clock. */
  lemma TellTicks<G, A>(rules: Rules<G, A>, d: Desk<G, A>, id: Id)
    requires d.table.players != []
    ensures Ticking(rules, Tell(rules, d, id)) && Tell(rules, d, id).generation == d.generation + 1
    ensures d.log <= Tell(rules, d, id).log
  {
    var told := Log(d, Announced(id));
    if !rules.won(told.table) {
      NextTurnTicks(rules, told, true);
      LoggingTicks(rules, NextTurn(rules, told, true), Advanced);
    }
  }

  lemma CarryTicks<G, A>(rules: Rules<G, A>, d: Desk<G, A>, id: Id, a: A, present: bool)
    requires d.phase == Playing && d.table.players != []
    ensures var r := Carry(rules, d, id, a, present);
            && d.log <= r.d.log && r.outcome != Refused
            && (r.outcome != Panic ==> Ticking(rules, r.d) && r.d.generation == d.generation + 1)
            && (r.outcome == Broke ==> r.d.phase == Finished)
            && (r.outcome == Panic ==>
                  && r.d == d.(table := r.d.table, log := r.d.log)
                  && r.d.log == d.log + [Applied(id, d.generation), ActCrashed(id, d.generation, present)])
  {
    var tried := Log(d, Applied(id, d.generation));
    var applied := After(tried, rules.apply(tried.table, a));
    TellTicks(rules, After(applied, rules.after(applied.table, a)), id);
  }

  lemma SettleTicks<G, A>(rules: Rules<G, A>, d: Desk<G, A>)
    ensures Ticking(rules, Settle(rules, d)) && Settle(rules, d).generation == d.generation + 1
    ensures d.log <= Settle(rules, d).log
  {
    if d.table.players != [] {
      NextTurnTicks(rules, d, false);
      LoggingTicks(rules, NextTurn(rules, d, false), Advanced);
    }
  }

  lemma RemoveTicks<G, A>(rules: Rules<G, A>, d: Desk<G, A>, id: Id)
    ensures var r := RemoveLocked(rules, d, id);
            && d.log <= r.d.log
            && (r.outcome == Fine && d.phase == Playing ==> Ticking(rules, r.d) && r.d.generation == d.generation + 1)
            && (r.outcome == Refused ==> r.d == d)
            && (r.outcome == Refused && d.phase != Finished ==> id !in d.table.players)
            && (r.outcome == Panic ==> r.d == d.(table := r.d.table, missed := r.d.missed))
            && r.outcome != Broke && (d.phase == Waiting ==> r.d.phase == Waiting)
  {
    var seat := IndexOf(d.table.players, id);
    if d.phase != Finished && seat < |d.table.players| {
      var told := if rules.leave.Some? then After(d, rules.leave.value.before(d.table, id)) else d;
      var gone := Unseat(told, seat);
      var resolved := if rules.leave.Some? then After(gone, rules.leave.value.afterwards(gone.table, seat)) else gone;
      SettleTicks(rules, Log(resolved, Gone(id)));
    }
  }

  // ---- Callbacks ----

  lemma OthersStay<T>(s: seq<T>, k: nat, c: T)
    requires k < |s| && c in s && c != s[k]
    ensures c in DropAt(s, k)
  {
    var j :| 0 <= j < |s| && s[j] == c;
    assert DropAt(s, k)[if j < k then j else j - 1] == c;
  }

  /** A desk whose callback k has taken the lock and is about to go on. */
  function Landing<G, A>(d: Desk<G, A>, k: nat): Desk<G, A>
    requires k < |d.flying|
  {
    d.(flying := DropAt(d.flying, k))
  }

  /** A callback that no longer acts is not the one the clock was waiting for. */
  lemma IdleLandingTicks<G, A>(rules: Rules<G, A>, d: Desk<G, A>, k: nat)
    requires Ticking(rules, d) && k < |d.flying| && !Acts(d, d.flying[k])
    ensures Ticking(rules, Landing(d, k))
  {
    if Clocked(rules, d) {
      if Recovering(d) {
        var c :| c in d.flying && c.Recover?;
        OthersStay(d.flying, k, c);
      } else if d.generation !in d.timers {
        var c :| c in d.flying && Acts(d, c);
        OthersStay(d.flying, k, c);
        assert Acts(Landing(d, k), c);
      }
    }
  }

  lemma RecoverStays<G, A>(d: Desk<G, A>, k: nat)
    requires k < |d.flying| && !d.flying[k].Recover? && Recovering(d)
    ensures Recovering(Landing(d, k))
  {
    var c :| c in d.flying && c.Recover?;
    OthersStay(d.flying, k, c);
  }

  /** What a callback of the present turn does: the turn is over, or another callback is about to see to that. */
  ghost predicate Handled<G, A>(d: Desk<G, A>, n: Desk<G, A>) {
    || n.generation > d.generation
    || (n.flying != [] && (var last := n.flying[|n.flying| - 1]; last.Recover? || (last.Rearm? && n.table == d.table))
        && n.generation == d.generation && n.phase == d.phase && n.closed == d.closed)
  }

  lemma FlownIsThere<G, A>(d: Desk<G, A>, c: Callback<A>)
    ensures c in Fly(d, c).flying && Fly(d, c).flying[|Fly(d, c).flying| - 1] == c
    ensures c.Recover? ==> Recovering(Fly(d, c))
  {
    assert Fly(d, c).flying[|d.flying|] == c;
  }

  lemma TakeLands<G, A>(rules: Rules<G, A>, d: Desk<G, A>, c: Callback<A>)
    requires Clocked(rules, d) && c.Take? && Acts(d, c)
    ensures var n := Land(rules, d, c);
            && Handled(d, n) && d.log <= n.log && Ticking(rules, n)
  {
    var idle := Log(d, Idle(c.id, d.generation));
    RemoveTicks(rules, idle, c.id);
    FlownIsThere(RemoveLocked(rules, idle, c.id).d, Recover);
  }

  lemma PlayLands<G, A>(rules: Rules<G, A>, d: Desk<G, A>, c: Callback<A>)
    requires Clocked(rules, d) && c.Play? && Acts(d, c) && Current(d).Some?
    ensures var n := Land(rules, d, c);
            && Handled(d, n) && d.log <= n.log && Ticking(rules, n)
  {
    CarryTicks(rules, d, c.id, c.a, false);
    var r := SubmitLocked(rules, d, c.id, c.a, false);
    FlownIsThere(r.d, Recover);
    FlownIsThere(r.d, Rearm);
    if r.outcome == Refused {
      assert Acts(Fly(r.d, Rearm), Rearm);
    }
  }

  /** Landing writes to the log and nothing else while the turn stays. */
  lemma LandingOnlyLogs<G, A>(rules: Rules<G, A>, d: Desk<G, A>, c: Callback<A>)
    ensures d.log <= Land(rules, d, c).log
    ensures d.flying <= Land(rules, d, c).flying
  {
    match c
    case Take(generation, id) =>
      RemoveTicks(rules, Log(d, Idle(id, generation)), id);
      RemovingKeepsFlying(rules, Log(d, Idle(id, generation)), id);
    case Play(_, id, a) =>
      SubmittingOnlyLogs(rules, d, id, a, false);
    case Rearm =>
    case Recover =>
  }

  lemma SubmittingOnlyLogs<G, A>(rules: Rules<G, A>, d: Desk<G, A>, id: Id, a: A, present: bool)
    ensures d.log <= SubmitLocked(rules, d, id, a, present).d.log
    ensures d.flying == SubmitLocked(rules, d, id, a, present).d.flying
  {
    var heard := Hear(d, id, present);
    if d.phase == Playing && d.table.players != [] {
      CarryTicks(rules, heard, id, a, present);
    }
  }

  lemma RemovingKeepsFlying<G, A>(rules: Rules<G, A>, d: Desk<G, A>, id: Id)
    ensures d.flying == RemoveLocked(rules, d, id).d.flying
  {
  }

  lemma RecoveringLandingTicks<G, A>(rules: Rules<G, A>, d: Desk<G, A>, k: nat)
    requires Recovering(d) && k < |d.flying|
    ensures Ticking(rules, Land(rules, Landing(d, k), d.flying[k]))
  {
    var landing, c := Landing(d, k), d.flying[k];
    if !c.Recover? {
      RecoverStays(d, k);
      LandingOnlyLogs(rules, landing, c);
      var r :| r in landing.flying && r.Recover?;
      assert r in Land(rules, landing, c).flying;
    }
  }

  lemma ResumeTicks<G, A>(rules: Rules<G, A>, d: Desk<G, A>, k: nat)
    requires Ticking(rules, d) && k < |d.flying|
    ensures Ticking(rules, Land(rules, Landing(d, k), d.flying[k]))
  {
    var landing, c := Landing(d, k), d.flying[k];
    if Recovering(d) {
      RecoveringLandingTicks(rules, d, k);
    } else if !Clocked(rules, d) {
      StaysUnclocked(rules, landing, c);
    } else if !Acts(d, c) {
      IdleLandingTicks(rules, d, k);
      StrandedTicks(rules, landing, c);
    } else if c.Take? {
      TakeLands(rules, landing, c);
    } else if c.Play? {
      PlayLands(rules, landing, c);
    } else {
      ArmTicks(rules, landing);
    }
  }

  lemma StaysUnclocked<G, A>(rules: Rules<G, A>, d: Desk<G, A>, c: Callback<A>)
    requires !Clocked(rules, d)
    ensures Ticking(rules, Land(rules, d, c))
  {
    match c
    case Take(generation, id) => RemoveTicks(rules, Log(d, Idle(id, generation)), id);
    case Play(_, id, a) =>
      if d.phase == Playing && d.table.players != [] {
        CarryTicks(rules, d, id, a, false);
      }
    case Rearm =>
    case Recover =>
  }

  lemma StrandedTicks<G, A>(rules: Rules<G, A>, d: Desk<G, A>, c: Callback<A>)
    requires Ticking(rules, d) && !Acts(d, c) && d.phase == Playing
    ensures Ticking(rules, Land(rules, d, c))
  {
    if c.Take? && c.generation == d.generation {
      var idle := Log(d, Idle(c.id, c.generation));
      LoggingTicks(rules, d, Idle(c.id, c.generation));
      assert IndexOf(idle.table.players, c.id) == |idle.table.players|;
    }
  }

  // ---- Timers and calls ----

  lemma FireTicks<G, A>(rules: Rules<G, A>, d: Desk<G, A>, generation: nat)
    requires Ticking(rules, d) && generation in d.timers
    ensures var n := Next(rules, d, Fire(generation));
            && Ticking(rules, n) && d.log <= n.log
  {
    var fired := d.(timers := d.timers - {generation});
    if generation == d.generation && d.phase == Playing && Current(d).Some? {
      DecideActs(rules, Charge(fired, Current(d).value), Current(d).value);
    } else if Clocked(rules, d) && !Recovering(d) && d.generation !in d.timers {
      var c :| c in d.flying && Acts(d, c);
      assert Acts(fired, c);
    }
  }

  /** A decision is always in flight afterwards, and acts on the present turn. */
  lemma DecideActs<G, A>(rules: Rules<G, A>, d: Desk<G, A>, id: Id)
    requires Current(d) == Some(id)
    ensures var n := Decide(rules, d, d.generation, id);
            && |n.flying| == |d.flying| + 1 && Acts(n, n.flying[|d.flying|]) && !n.flying[|d.flying|].Rearm?
            && !n.flying[|d.flying|].Recover?
            && n.generation == d.generation && n.table == d.table && n.phase == d.phase && n.closed == d.closed
            && n.clocked == d.clocked && d.log <= n.log && Ticking(rules, n)
  {
    var n := Decide(rules, d, d.generation, id);
    assert n.flying[|d.flying|] in n.flying;
  }

  lemma OpenTicks<G, A>(rules: Rules<G, A>, d: Desk<G, A>, first: nat)
    requires Ticking(rules, d)
    ensures var n := Next(rules, d, Open(first));
            d.log <= n.log && (Unhurt(n.log) ==> Ticking(rules, n))
  {
    if !d.closed && d.phase == Waiting && first < |d.table.players| {
      var begun := d.(phase := Playing, table := d.table.(turn := first));
      var h := rules.onStart(begun.table);
      if h.Done? {
        NextTurnTicks(rules, After(begun, h), false);
        LoggingTicks(rules, NextTurn(rules, After(begun, h), false), Started);
      } else if h.Panicked? {
        assert OwnCrash((d.log + [StartCrashed])[|d.log|]);
      }
    }
  }

  lemma SubmitTicks<G, A>(rules: Rules<G, A>, d: Desk<G, A>, id: Id, a: A)
    requires Ticking(rules, d)
    ensures var n := Next(rules, d, Submit(id, a));
            d.log <= n.log && (Unhurt(n.log) ==> Ticking(rules, n))
  {
    SubmittingOnlyLogs(rules, d, id, a, true);
    if !d.closed && d.phase == Playing && Current(d) == Some(id) && rules.validate(d.table, a) {
      var heard := Hear(d, id, true);
      CarryTicks(rules, heard, id, a, true);
      var r := Carry(rules, heard, id, a, true);
      if r.outcome == Panic {
        assert OwnCrash(r.d.log[|heard.log| + 1]);
      }
    }
  }

  lemma LeaveTicks<G, A>(rules: Rules<G, A>, d: Desk<G, A>, id: Id)
    requires Ticking(rules, d)
    ensures var n := Next(rules, d, Leave(id));
            d.log <= n.log && (Unhurt(n.log) ==> Ticking(rules, n))
  {
    RemoveTicks(rules, d, id);
    var r := RemoveLocked(rules, d, id);
    if r.outcome == Panic {
      assert OwnCrash((r.d.log + [LeaveCrashed(id)])[|r.d.log|]);
    }
  }

  /** Every lock hold leaves the clock running, except one in which a hook panics over a player's own call. */
  lemma NextTicks<G, A>(rules: Rules<G, A>, d: Desk<G, A>, s: Step<A>)
    requires Ticking(rules, d)
    ensures d.log <= Next(rules, d, s).log
    ensures Unhurt(Next(rules, d, s).log) ==> Ticking(rules, Next(rules, d, s))
  {
    match s
    case Open(first) => OpenTicks(rules, d, first);
    case Submit(id, a) => SubmitTicks(rules, d, id, a);
    case Leave(id) => LeaveTicks(rules, d, id);
    case Fire(generation) =>
      if generation in d.timers {
        FireTicks(rules, d, generation);
      }
    case Resume(k) =>
      if k < |d.flying| {
        ResumeTicks(rules, d, k);
        LandingOnlyLogs(rules, Landing(d, k), d.flying[k]);
      }
    case Close =>
  }

  // ---- Whole runs ----

  lemma {:induction false} RunTicks<G, A>(rules: Rules<G, A>, d: Desk<G, A>, steps: seq<Step<A>>)
    requires Ticking(rules, d)
    ensures d.log <= Run(rules, d, steps).log
    ensures Unhurt(Run(rules, d, steps).log) ==> Ticking(rules, Run(rules, d, steps))
    decreases |steps|
  {
    if steps != [] {
      NextTicks(rules, d, steps[0]);
      var n := Next(rules, d, steps[0]);
      if Ticking(rules, n) {
        RunTicks(rules, n, steps[1..]);
      } else {
        RunOnlyLogs(rules, n, steps[1..]);
      }
    }
  }

  lemma NextOnlyLogs<G, A>(rules: Rules<G, A>, d: Desk<G, A>, s: Step<A>)
    ensures d.log <= Next(rules, d, s).log
  {
    match s
    case Open(_) =>
    case Submit(id, a) => SubmittingOnlyLogs(rules, d, id, a, true);
    case Leave(id) => RemoveTicks(rules, d, id);
    case Fire(_) =>
    case Resume(k) =>
      if k < |d.flying| {
        LandingOnlyLogs(rules, Landing(d, k), d.flying[k]);
      }
    case Close =>
  }

  lemma {:induction false} RunOnlyLogs<G, A>(rules: Rules<G, A>, d: Desk<G, A>, steps: seq<Step<A>>)
    ensures d.log <= Run(rules, d, steps).log
    decreases |steps|
  {
    if steps != [] {
      NextOnlyLogs(rules, d, steps[0]);
      RunOnlyLogs(rules, Next(rules, d, steps[0]), steps[1..]);
    }
  }

  /** Whatever players and timers do in whatever order, the table in play has a clock that is after somebody. */
  lemma ClockNeverStops<G, A>(players: seq<Id>, extra: G, rules: Rules<G, A>, steps: seq<Step<A>>)
    ensures var d := Run(rules, NewDesk(players, true, extra), steps);
            Unhurt(d.log) ==> Ticking(rules, d)
  {
    RunTicks(rules, NewDesk(players, true, extra), steps);
  }

  /** After a panic in a player's own action the clock runs on exactly when the hook left the cursor on a seat. */
  lemma ActionCrashKeepsClock<G, A>(rules: Rules<G, A>, d: Desk<G, A>, id: Id, a: A)
    requires Ticking(rules, d) && Clocked(rules, d) && !Recovering(d)
    requires SubmitLocked(rules, d, id, a, true).outcome == Panic
    ensures var n := Next(rules, d, Submit(id, a));
            Ticking(rules, n) <==> 0 <= n.table.turn < |d.table.players|
  {
    var heard := Hear(d, id, true);
    CarryTicks(rules, heard, id, a, true);
    var n := Next(rules, d, Submit(id, a));
    SameTableIsWatched(d, n);
  }

  lemma SameTableIsWatched<G, A>(d: Desk<G, A>, n: Desk<G, A>)
    requires n.generation == d.generation && n.timers == d.timers && n.flying == d.flying
    requires n.table.players == d.table.players && Watched(d)
    ensures Watched(n)
  {
    if d.generation !in d.timers {
      var c :| c in d.flying && Acts(d, c);
      assert Acts(n, c);
    }
  }

  /** A start hook that panics leaves a table in play that no clock is after. */
  lemma StartCrashHasNoClock<G, A>(rules: Rules<G, A>, d: Desk<G, A>, first: nat)
    requires d.phase == Waiting && !d.closed && d.clocked && rules.timeout.Some? && d.timers == {} && d.flying == []
    requires first < |d.table.players| && rules.onStart(d.table.(turn := first)).Panicked?
    ensures Clocked(rules, Next(rules, d, Open(first))) && !Ticking(rules, Next(rules, d, Open(first)))
  {
  }

  // ---- What a running clock is worth ----

  predicate IsCallback<A>(s: Step<A>) {
    s.Fire? || s.Resume?
  }

  /** Three lock holds of the clock. */
  ghost predicate ClockAlone<G, A>(rules: Rules<G, A>, d: Desk<G, A>, steps: seq<Step<A>>) {
    && |steps| <= 3 && (forall k | 0 <= k < |steps| :: IsCallback(steps[k]))
    && Run(rules, d, steps).generation > d.generation
  }

  /** The last callback in flight ends the turn by itself when it recovers or re-arms. */
  lemma LastOneActs<G, A>(rules: Rules<G, A>, d: Desk<G, A>)
    requires d.flying != [] && d.phase == Playing && !d.closed
    requires d.flying[|d.flying| - 1].Recover? || d.flying[|d.flying| - 1].Rearm?
    ensures Next(rules, d, Resume(|d.flying| - 1)).generation > d.generation
  {
  }

  lemma ResumingHandles<G, A>(rules: Rules<G, A>, d: Desk<G, A>, k: nat)
    requires Clocked(rules, d) && k < |d.flying| && Acts(d, d.flying[k]) && (Current(d).Some? || d.flying[k].Recover?)
    ensures Handled(d, Next(rules, d, Resume(k)))
  {
    var landing, c := Landing(d, k), d.flying[k];
    if c.Take? {
      TakeLands(rules, landing, c);
    } else if c.Play? {
      PlayLands(rules, landing, c);
    }
  }

  /** A callback of the present turn needs one more lock hold at the most. */
  lemma ResumingEndsTurn<G, A>(rules: Rules<G, A>, d: Desk<G, A>, k: nat) returns (steps: seq<Step<A>>)
    requires Clocked(rules, d) && k < |d.flying| && Acts(d, d.flying[k]) && (Current(d).Some? || d.flying[k].Recover?)
    ensures |steps| <= 2 && (forall i | 0 <= i < |steps| :: IsCallback(steps[i]))
    ensures Run(rules, d, steps).generation > d.generation
  {
    ResumingHandles(rules, d, k);
    var n := Next(rules, d, Resume(k));
    steps := EndsTurnFrom(rules, d, n, Resume(k));
  }

  lemma EndsTurnFrom<G, A>(rules: Rules<G, A>, d: Desk<G, A>, n: Desk<G, A>, s: Step<A>) returns (steps: seq<Step<A>>)
    requires n == Next(rules, d, s) && Handled(d, n) && IsCallback(s) && d.phase == Playing && !d.closed
    ensures |steps| <= 2 && (forall i | 0 <= i < |steps| :: IsCallback(steps[i]))
    ensures Run(rules, d, steps).generation > d.generation
  {
    if n.generation > d.generation {
      steps := [s];
      assert steps[1..] == [] && Run(rules, n, []) == n;
    } else {
      LastOneActs(rules, n);
      steps := [s, Resume(|n.flying| - 1)];
      RunOfTwo(rules, d, steps);
    }
  }

  lemma RunOfTwo<G, A>(rules: Rules<G, A>, d: Desk<G, A>, s: seq<Step<A>>)
    requires |s| == 2
    ensures Run(rules, d, s) == Next(rules, Next(rules, d, s[0]), s[1])
  {
    assert s[1..][1..] == [];
    assert Run(rules, Next(rules, d, s[0]), s[1..]) == Run(rules, Next(rules, Next(rules, d, s[0]), s[1]), []);
  }

  /** With everybody away the clock alone gets past the turn: an action, a seat taken, a fresh clock or the end. */
  lemma TurnsNeverHang<G, A>(rules: Rules<G, A>, d: Desk<G, A>) returns (steps: seq<Step<A>>)
    requires Ticking(rules, d) && Clocked(rules, d)
    ensures ClockAlone(rules, d, steps)
  {
    if Recovering(d) {
      var k: nat :| k < |d.flying| && d.flying[k].Recover?;
      steps := ResumingEndsTurn(rules, d, k);
    } else if d.generation in d.timers {
      var fired := Next(rules, d, Fire(d.generation));
      DecideActs(rules, Charge(d.(timers := d.timers - {d.generation}), Current(d).value), Current(d).value);
      var rest := ResumingEndsTurn(rules, fired, |d.flying|);
      steps := [Fire(d.generation)] + rest;
      assert steps[1..] == rest;
    } else {
      var c :| c in d.flying && Acts(d, c);
      var k: nat :| k < |d.flying| && d.flying[k] == c;
      steps := ResumingEndsTurn(rules, d, k);
    }
  }
}
