/** What the engine and its clock keep, for any rules and any interleaving of calls and timer callbacks. */
module EngineSafety {
  import opened Cards
  import opened Options
  import opened Sums
  import opened EngineRules

  // ---- Reading the log ----

  ghost function Endings(log: seq<Entry>): nat {
    if log == [] then 0 else Endings(log[..|log| - 1]) + if log[|log| - 1].Ended? then 1 else 0
  }

  /** Turns a player let run out since last acting for themselves. */
  ghost function Misses(log: seq<Entry>, id: Id): nat {
    if log == [] || log[|log| - 1] == Accepted(id) then 0
    else Misses(log[..|log| - 1], id) + if log[|log| - 1] == Expired(id) then 1 else 0
  }

  /** Whether, since they last acted for themselves, a turn ran out with no safe move to play. */
  ghost predicate LeftHelpless(log: seq<Entry>, id: Id) {
    log != [] && log[|log| - 1] != Accepted(id)
    && (log[|log| - 1] == NoSafeMove(id) || LeftHelpless(log[..|log| - 1], id))
  }

  ghost predicate Deserved(log: seq<Entry>, id: Id) {
    Misses(log, id) >= MAX_MISSED_TURNS || LeftHelpless(log, id)
  }

  /** Whether an own action of this player's panicked after the clock had settled on taking their seat in generation. */
  ghost predicate Struck(log: seq<Entry>, id: Id, generation: nat) {
    log != []
    && (Struck(log[..|log| - 1], id, generation)
        || (log[|log| - 1] == ActCrashed(id, generation, true) && Doomed(id, generation) in log[..|log| - 1]))
  }

  lemma {:induction false} StruckMeans(log: seq<Entry>, id: Id, generation: nat)
    ensures Struck(log, id, generation) <==>
            exists j, k | 0 <= j < k < |log| ::
              log[j] == Doomed(id, generation) && log[k] == ActCrashed(id, generation, true)
  {
    if log != [] {
      var before, last := log[..|log| - 1], |log| - 1;
      StruckMeans(before, id, generation);
      if log[last] == ActCrashed(id, generation, true) && Doomed(id, generation) in before {
        var j :| 0 <= j < |before| && before[j] == Doomed(id, generation);
        assert log[j] == Doomed(id, generation) && log[last] == ActCrashed(id, generation, true);
      }
      if Struck(before, id, generation) {
        var j, k :| 0 <= j < k < |before| && before[j] == Doomed(id, generation)
                    && before[k] == ActCrashed(id, generation, true);
        assert log[j] == Doomed(id, generation) && log[k] == ActCrashed(id, generation, true);
      }
      forall j, k | 0 <= j < k < |log| && log[j] == Doomed(id, generation) && log[k] == ActCrashed(id, generation, true)
        ensures Struck(log, id, generation)
      {
        assert log[j] == before[j];
        if k < last {
          assert log[k] == before[k];
        }
      }
    }
  }

  /** The seats taken for idling went from players who deserved it, save exactly those struck in between. */
  ghost predicate IdleExact(log: seq<Entry>) {
    forall i | 0 <= i < |log| && log[i].Idle? ::
      Deserved(log[..i], log[i].id) <==> !Struck(log[..i], log[i].id, log[i].generation)
  }

  /** The action at i got no further than a panic. */
  ghost predicate CrashFollows(log: seq<Entry>, i: nat)
    requires i < |log| && log[i].Applied?
  {
    && i + 1 < |log| && log[i + 1].ActCrashed?
    && log[i + 1].id == log[i].id && log[i + 1].generation == log[i].generation
  }

  /** Actions that reached the rules did so in different generations, in order and below bound, unless they panicked. */
  ghost predicate OnePerGeneration(log: seq<Entry>, bound: nat) {
    && (forall i | 0 <= i < |log| && log[i].Applied? :: log[i].generation < bound || CrashFollows(log, i))
    && (forall i, j | 0 <= i < j < |log| && log[i].Applied? && log[j].Applied? ::
          log[i].generation < log[j].generation || CrashFollows(log, i))
  }

  lemma Appended(log: seq<Entry>, e: Entry)
    ensures (log + [e])[..|log|] == log && (log + [e])[|log|] == e
    ensures Endings(log + [e]) == Endings(log) + if e.Ended? then 1 else 0
    ensures forall id :: Misses(log + [e], id) ==
                         if e == Accepted(id) then 0 else Misses(log, id) + if e == Expired(id) then 1 else 0
    ensures forall id :: LeftHelpless(log + [e], id) <==>
                         e != Accepted(id) && (e == NoSafeMove(id) || LeftHelpless(log, id))
    ensures forall id, g :: Struck(log + [e], id, g) <==>
                            Struck(log, id, g) || (e == ActCrashed(id, g, true) && Doomed(id, g) in log)
  {
    assert (log + [e])[..|log|] == log;
  }

  lemma IdleAppended(log: seq<Entry>, e: Entry)
    requires IdleExact(log) && (e.Idle? ==> (Deserved(log, e.id) <==> !Struck(log, e.id, e.generation)))
    ensures IdleExact(log + [e])
  {
    var longer := log + [e];
    forall i | 0 <= i < |longer| && longer[i].Idle?
      ensures Deserved(longer[..i], longer[i].id) <==> !Struck(longer[..i], longer[i].id, longer[i].generation)
    {
      assert longer[..i] == log[..i];
    }
    assert log[..|log|] == log;
  }

  lemma OneAppended(log: seq<Entry>, e: Entry, bound: nat)
    requires OnePerGeneration(log, bound) && !e.Applied?
    ensures OnePerGeneration(log + [e], bound)
  {
    var longer := log + [e];
    forall i: nat | i < |longer| && longer[i].Applied?
      ensures longer[i].generation < bound || CrashFollows(longer, i)
    {
      assert longer[i] == log[i];
      assert CrashFollows(log, i) ==> longer[i + 1] == log[i + 1];
    }
  }

  lemma ActionAppended(log: seq<Entry>, id: Id, generation: nat)
    requires OnePerGeneration(log, generation)
    ensures OnePerGeneration(log + [Applied(id, generation)], generation + 1)
    ensures forall present ::
              OnePerGeneration(log + [Applied(id, generation)] + [ActCrashed(id, generation, present)], generation)
  {
    var longer := log + [Applied(id, generation)];
    forall i: nat | i < |log| && log[i].Applied?
      ensures longer[i] == log[i] && (log[i].generation < generation || CrashFollows(longer, i))
    {
      assert CrashFollows(log, i) ==> longer[i + 1] == log[i + 1];
    }
    forall present ensures OnePerGeneration(longer + [ActCrashed(id, generation, present)], generation) {
      var crashed := longer + [ActCrashed(id, generation, present)];
      forall i: nat | i < |crashed| && crashed[i].Applied?
        ensures crashed[i].generation < generation || CrashFollows(crashed, i)
      {
        assert crashed[i] == longer[i];
        if i < |log| {
          assert CrashFollows(longer, i) ==> crashed[i + 1] == longer[i + 1];
        } else {
          assert crashed[i + 1] == ActCrashed(id, generation, present);
        }
      }
    }
  }

  lemma {:induction false} UndoomedIsUnstruck(log: seq<Entry>, id: Id, generation: nat)
    requires Doomed(id, generation) !in log
    ensures !Struck(log, id, generation)
  {
    if log != [] {
      UndoomedIsUnstruck(log[..|log| - 1], id, generation);
    }
  }

  // ---- The invariant ----

  ghost predicate SameSeats<G, A>(opening: seq<Id>, d: Desk<G, A>) {
    multiset(d.table.players) + multiset(d.table.left) == multiset(opening)
  }

  /** A miss count is no higher than the log accounts for. */
  ghost predicate Accounted<G, A>(d: Desk<G, A>) {
    forall id :: At(d.missed, id) <= Misses(d.log, id) || LeftHelpless(d.log, id)
  }

  ghost predicate NoneFromTheFuture<G, A>(d: Desk<G, A>) {
    && (forall g | g in d.timers :: g <= d.generation)
    && (forall k | 0 <= k < |d.flying| && (d.flying[k].Take? || d.flying[k].Play?) ::
          d.flying[k].generation <= d.generation)
  }

  /** A generation in which the clock settled on taking a seat has used up its timer. */
  ghost predicate DoomsSpent<G, A>(d: Desk<G, A>) {
    forall k | 0 <= k < |d.log| && d.log[k].Doomed? ::
      d.log[k].generation <= d.generation && d.log[k].generation !in d.timers
  }

  ghost predicate Core<G, A>(opening: seq<Id>, d: Desk<G, A>, bound: nat) {
    && Endings(d.log) == (if d.phase == Finished then 1 else 0)
    && SameSeats(opening, d) && Accounted(d) && NoneFromTheFuture(d) && DoomsSpent(d)
    && IdleExact(d.log) && OnePerGeneration(d.log, bound)
  }

  /** A callback about to take a seat in the present generation takes it justly, save from a player struck meanwhile. */
  ghost predicate TakesExact<G, A>(d: Desk<G, A>) {
    forall k | 0 <= k < |d.flying| && d.flying[k].Take? && d.flying[k].generation == d.generation ::
      TakeExact(d, d.flying[k])
  }

  ghost predicate TakeExact<G, A>(d: Desk<G, A>, c: Callback<A>)
    requires c.Take?
  {
    && Doomed(c.id, c.generation) in d.log
    && (Deserved(d.log, c.id) <==> !Struck(d.log, c.id, c.generation))
  }

  ghost predicate Sound<G, A>(opening: seq<Id>, d: Desk<G, A>) {
    Core(opening, d, d.generation) && TakesExact(d)
  }

  // ---- Small steps ----

  /** Nothing but the seats' cursor and the rules' own books changes. */
  lemma AfterKeeps<G, A>(opening: seq<Id>, d: Desk<G, A>, h: Hook<G>, bound: nat)
    requires Core(opening, d, bound)
    ensures Core(opening, After(d, h), bound)
    ensures TakesExact(d) ==> TakesExact(After(d, h))
  {
  }

  /** Moving to the next generation strands every callback, so nothing is left to check about them. */
  lemma StopSettles<G, A>(opening: seq<Id>, d: Desk<G, A>, bound: nat)
    requires Core(opening, d, bound) && bound <= d.generation + 1
    ensures Sound(opening, StopTimer(d))
  {
  }

  /** Entries that say nothing about misses, actions or removals to come. */
  predicate Quiet(e: Entry) {
    e.Started? || e.Announced? || e.Advanced? || e.TimedOut? || e.Gone? || e.LeaveCrashed? || e.StartCrashed? || e.Idle?
  }

  lemma QuietReads(log: seq<Entry>, e: Entry)
    requires Quiet(e)
    ensures Endings(log + [e]) == Endings(log)
    ensures forall id :: Misses(log + [e], id) == Misses(log, id)
    ensures forall id :: LeftHelpless(log + [e], id) <==> LeftHelpless(log, id)
    ensures forall id, g :: Struck(log + [e], id, g) <==> Struck(log, id, g)
  {
    Appended(log, e);
  }

  lemma QuietTakesKeep<G, A>(d: Desk<G, A>, e: Entry)
    requires Quiet(e) && TakesExact(d)
    ensures TakesExact(Log(d, e))
  {
    QuietReads(d.log, e);
    forall k | 0 <= k < |d.flying| && d.flying[k].Take? && d.flying[k].generation == d.generation
      ensures TakeExact(Log(d, e), d.flying[k])
    {
      assert TakeExact(d, d.flying[k]);
    }
  }

  lemma LogKeeps<G, A>(opening: seq<Id>, d: Desk<G, A>, e: Entry, bound: nat)
    requires Core(opening, d, bound) && Quiet(e)
    requires e.Idle? ==> (Deserved(d.log, e.id) <==> !Struck(d.log, e.id, e.generation))
    ensures Core(opening, Log(d, e), bound)
    ensures TakesExact(d) ==> TakesExact(Log(d, e))
  {
    QuietReads(d.log, e);
    IdleAppended(d.log, e);
    OneAppended(d.log, e, bound);
    if TakesExact(d) {
      QuietTakesKeep(d, e);
    }
  }

  lemma ArmSettles<G, A>(opening: seq<Id>, rules: Rules<G, A>, d: Desk<G, A>, bound: nat)
    requires Core(opening, d, bound) && bound <= d.generation + 1
    ensures Sound(opening, ArmTimer(rules, d))
  {
    StopSettles(opening, d, bound);
  }

  lemma SameSeatsKeep<G, A>(opening: seq<Id>, d: Desk<G, A>, table: Table<G>, bound: nat)
    requires Core(opening, d, bound) && table.players == d.table.players && table.left == d.table.left
    ensures Core(opening, d.(table := table), bound)
  {
  }

  lemma NextTurnSettles<G, A>(opening: seq<Id>, rules: Rules<G, A>, d: Desk<G, A>, advance: bool, bound: nat)
    requires Core(opening, d, bound) && bound <= d.generation + 1
    ensures Sound(opening, NextTurn(rules, d, advance))
  {
    var moved := Moved(d.table, advance);
    SameSeatsKeep(opening, d, moved, bound);
    ArmSettles(opening, rules, d.(table := moved), bound);
  }

  lemma MoveOnSettles<G, A>(opening: seq<Id>, rules: Rules<G, A>, d: Desk<G, A>, advance: bool, bound: nat)
    requires Core(opening, d, bound) && bound <= d.generation + 1
    ensures Sound(opening, Log(NextTurn(rules, d, advance), Advanced))
  {
    NextTurnSettles(opening, rules, d, advance, bound);
    var moved := NextTurn(rules, d, advance);
    LogKeeps(opening, moved, Advanced, moved.generation);
  }

  lemma EndSettles<G, A>(opening: seq<Id>, d: Desk<G, A>, winner: Option<Id>, reason: EndReason, bound: nat)
    requires Core(opening, d, bound) && bound <= d.generation + 1 && d.phase != Finished
    ensures Sound(opening, End(d, winner, reason))
  {
    Appended(d.log, Ended(winner, reason));
    IdleAppended(d.log, Ended(winner, reason));
    OneAppended(d.log, Ended(winner, reason), d.generation + 1);
  }

  // ---- Acting, leaving, timing out ----

  lemma HearKeeps<G, A>(opening: seq<Id>, d: Desk<G, A>, id: Id, present: bool)
    requires Core(opening, d, d.generation)
    ensures var heard := Hear(d, id, present);
            Core(opening, heard, heard.generation) && heard.phase == d.phase && (!present ==> heard == d)
  {
    Appended(d.log, Accepted(id));
    IdleAppended(d.log, Accepted(id));
    OneAppended(d.log, Accepted(id), d.generation);
  }

  lemma AppliedKeeps<G, A>(opening: seq<Id>, d: Desk<G, A>, id: Id)
    requires Core(opening, d, d.generation)
    ensures Core(opening, Log(d, Applied(id, d.generation)), d.generation + 1)
  {
    Appended(d.log, Applied(id, d.generation));
    IdleAppended(d.log, Applied(id, d.generation));
    ActionAppended(d.log, id, d.generation);
  }

  lemma TellKeeps<G, A>(opening: seq<Id>, rules: Rules<G, A>, d: Desk<G, A>, id: Id)
    requires Core(opening, d, d.generation + 1) && d.phase == Playing
    ensures Sound(opening, Tell(rules, d, id))
  {
    var told := Log(d, Announced(id));
    LogKeeps(opening, d, Announced(id), d.generation + 1);
    if rules.won(told.table) {
      EndSettles(opening, told, WinnerOf(rules, told, Some(id)), Win, d.generation + 1);
    } else {
      MoveOnSettles(opening, rules, told, true, d.generation + 1);
    }
  }

  lemma BreakSettles<G, A>(opening: seq<Id>, rules: Rules<G, A>, d: Desk<G, A>, id: Id)
    requires Core(opening, d, d.generation + 1) && d.phase == Playing
    ensures Sound(opening, Finish(rules, d, Some(id), RulesError))
  {
    EndSettles(opening, d, WinnerOf(rules, d, Some(id)), RulesError, d.generation + 1);
  }

  /** What a panicking action writes to the log. */
  function CrashLog(log: seq<Entry>, id: Id, generation: nat, present: bool): seq<Entry> {
    (if present then log + [Accepted(id)] else log) + [Applied(id, generation)] + [ActCrashed(id, generation, present)]
  }

  /** A panicking action clears the misses of whoever is there to act, and nothing else. */
  lemma CrashReads(log: seq<Entry>, id: Id, generation: nat, present: bool)
    ensures var crashed := CrashLog(log, id, generation, present);
            && Endings(crashed) == Endings(log)
            && (forall who :: Misses(crashed, who) == if present && who == id then 0 else Misses(log, who))
            && (forall who :: LeftHelpless(crashed, who) <==> !(present && who == id) && LeftHelpless(log, who))
            && (forall who, g :: Struck(crashed, who, g) <==>
                  Struck(log, who, g) || (present && who == id && g == generation && Doomed(id, g) in log))
            && (forall e :: e in crashed && e.Doomed? ==> e in log)
            && (forall e :: e in log ==> e in crashed)
  {
    var heard := if present then log + [Accepted(id)] else log;
    Appended(log, Accepted(id));
    Appended(heard, Applied(id, generation));
    Appended(heard + [Applied(id, generation)], ActCrashed(id, generation, present));
  }

  lemma CrashAppended(log: seq<Entry>, id: Id, generation: nat, present: bool)
    requires IdleExact(log) && OnePerGeneration(log, generation)
    ensures IdleExact(CrashLog(log, id, generation, present))
    ensures OnePerGeneration(CrashLog(log, id, generation, present), generation)
  {
    var heard := if present then log + [Accepted(id)] else log;
    IdleAppended(log, Accepted(id));
    OneAppended(log, Accepted(id), generation);
    IdleAppended(heard, Applied(id, generation));
    ActionAppended(heard, id, generation);
    IdleAppended(heard + [Applied(id, generation)], ActCrashed(id, generation, present));
  }

  /** The generation does not move, so a callback that was to take the seat still will. */
  lemma CrashKeeps<G, A>(opening: seq<Id>, d: Desk<G, A>, c: Desk<G, A>, id: Id, present: bool)
    requires Sound(opening, d)
    requires c == d.(table := c.table, missed := if present then d.missed - {id} else d.missed,
                     log := CrashLog(d.log, id, d.generation, present))
    requires c.table.players == d.table.players && c.table.left == d.table.left
    ensures Sound(opening, c)
  {
    CrashReads(d.log, id, d.generation, present);
    CrashAppended(d.log, id, d.generation, present);
    forall k | 0 <= k < |c.flying| && c.flying[k].Take? && c.flying[k].generation == c.generation
      ensures TakeExact(c, c.flying[k])
    {
      assert TakeExact(d, d.flying[k]);
    }
    forall k | 0 <= k < |c.log| && c.log[k].Doomed?
      ensures c.log[k].generation <= c.generation && c.log[k].generation !in c.timers
    {
      assert c.log[k] in d.log;
    }
  }

  lemma PerformKeeps<G, A>(opening: seq<Id>, rules: Rules<G, A>, d: Desk<G, A>, id: Id, a: A, present: bool)
    requires Sound(opening, d) && d.phase == Playing
    ensures Sound(opening, Perform(rules, d, id, a, present).d)
  {
    HearKeeps(opening, d, id, present);
    var heard := Hear(d, id, present);
    AppliedKeeps(opening, heard, id);
    var tried := Log(heard, Applied(id, d.generation));
    var h := rules.apply(tried.table, a);
    var applied := After(tried, h);
    AfterKeeps(opening, tried, h, tried.generation + 1);
    if h.Panicked? {
      CrashKeeps(opening, d, Log(applied, ActCrashed(id, d.generation, present)), id, present);
    } else if h.Failed? {
      BreakSettles(opening, rules, applied, id);
    } else {
      var k := rules.after(applied.table, a);
      var settled := After(applied, k);
      AfterKeeps(opening, applied, k, applied.generation + 1);
      if k.Panicked? {
        CrashKeeps(opening, d, Log(settled, ActCrashed(id, d.generation, present)), id, present);
      } else if k.Failed? {
        BreakSettles(opening, rules, settled, id);
      } else {
        TellKeeps(opening, rules, settled, id);
      }
    }
  }

  lemma UnseatKeeps<G, A>(opening: seq<Id>, d: Desk<G, A>, seat: nat, bound: nat)
    requires Core(opening, d, bound) && seat < |d.table.players|
    ensures Core(opening, Unseat(d, seat), bound)
    ensures TakesExact(d) ==> TakesExact(Unseat(d, seat))
  {
    var t := d.table;
    assert t.players == t.players[..seat] + [t.players[seat]] + t.players[seat + 1..];
  }

  lemma SettleKeeps<G, A>(opening: seq<Id>, rules: Rules<G, A>, d: Desk<G, A>)
    requires Core(opening, d, d.generation) && d.phase == Playing
    ensures Sound(opening, Settle(rules, d))
  {
    if d.table.players == [] {
      EndSettles(opening, d, None, Abandoned, d.generation);
    } else if rules.won(d.table) {
      EndSettles(opening, d, WinnerOf(rules, d, None), Win, d.generation);
    } else if |d.table.players| == 1 && d.table.next.None? {
      EndSettles(opening, d, Some(d.table.players[0]), Forfeit, d.generation);
    } else {
      MoveOnSettles(opening, rules, d, false, d.generation);
    }
  }

  lemma DepartureKeeps<G, A>(opening: seq<Id>, rules: Rules<G, A>, d: Desk<G, A>, id: Id)
    requires Core(opening, d, d.generation) && TakesExact(d)
    ensures var left := Log(d, Gone(id));
            Sound(opening, if left.phase == Playing then Settle(rules, left) else left)
  {
    LogKeeps(opening, d, Gone(id), d.generation);
    if d.phase == Playing {
      SettleKeeps(opening, rules, Log(d, Gone(id)));
    }
  }

  lemma RemoveKeeps<G, A>(opening: seq<Id>, rules: Rules<G, A>, d: Desk<G, A>, id: Id)
    requires Sound(opening, d)
    ensures Sound(opening, RemoveLocked(rules, d, id).d)
  {
    var seat := IndexOf(d.table.players, id);
    if d.phase != Finished && seat < |d.table.players| {
      if rules.leave.None? {
        UnseatKeeps(opening, d, seat, d.generation);
        DepartureKeeps(opening, rules, Unseat(d, seat), id);
      } else {
        HookedLeaveKeeps(opening, rules, d, id, seat);
      }
    }
  }

  /** A leave with hooks before and after the seat goes, either of which may panic. */
  lemma HookedLeaveKeeps<G, A>(opening: seq<Id>, rules: Rules<G, A>, d: Desk<G, A>, id: Id, seat: nat)
    requires Sound(opening, d) && d.phase != Finished && rules.leave.Some?
    requires seat == IndexOf(d.table.players, id) < |d.table.players|
    ensures Sound(opening, RemoveLocked(rules, d, id).d)
  {
    var before := rules.leave.value.before(d.table, id);
    var told := After(d, before);
    AfterKeeps(opening, d, before, d.generation);
    UnseatKeeps(opening, told, seat, d.generation);
    var gone := Unseat(told, seat);
    var afterwards := rules.leave.value.afterwards(gone.table, seat);
    AfterKeeps(opening, gone, afterwards, d.generation);
    DepartureKeeps(opening, rules, After(gone, afterwards), id);
  }

  /** No seat is being taken in the present generation, nor has been doomed in it. */
  ghost predicate Undoomed<G, A>(d: Desk<G, A>) {
    && d.generation !in d.timers
    && (forall k | 0 <= k < |d.log| && d.log[k].Doomed? :: d.log[k].generation != d.generation)
    && (forall k | 0 <= k < |d.flying| && d.flying[k].Take? :: d.flying[k].generation != d.generation)
  }

  /** Charging a miss keeps the account, and three of them earn the removal. */
  lemma ChargeKeeps<G, A>(opening: seq<Id>, d: Desk<G, A>, id: Id)
    requires Core(opening, d, d.generation) && Undoomed(d)
    ensures var charged := Charge(d, id);
            && Core(opening, charged, d.generation) && Undoomed(charged)
            && (At(charged.missed, id) >= MAX_MISSED_TURNS ==> Deserved(charged.log, id))
  {
    Appended(d.log, Expired(id));
    IdleAppended(d.log, Expired(id));
    OneAppended(d.log, Expired(id), d.generation);
  }

  lemma HelplessKeeps<G, A>(opening: seq<Id>, d: Desk<G, A>, id: Id)
    requires Core(opening, d, d.generation) && Undoomed(d)
    ensures var helpless := Log(d.(missed := d.missed[id := MAX_MISSED_TURNS]), NoSafeMove(id));
            Core(opening, helpless, d.generation) && Undoomed(helpless) && Deserved(helpless.log, id)
  {
    Appended(d.log, NoSafeMove(id));
    IdleAppended(d.log, NoSafeMove(id));
    OneAppended(d.log, NoSafeMove(id), d.generation);
  }

  lemma FlyKeeps<G, A>(opening: seq<Id>, d: Desk<G, A>, c: Callback<A>)
    requires Sound(opening, d) && !c.Take? && (c.Play? ==> c.generation <= d.generation)
    ensures Sound(opening, Fly(d, c))
  {
  }

  /** The clock settles on taking the seat of a player who deserves it. */
  lemma DoomKeeps<G, A>(opening: seq<Id>, d: Desk<G, A>, id: Id)
    requires Core(opening, d, d.generation) && Undoomed(d) && Deserved(d.log, id)
    ensures Sound(opening, Doom(d, d.generation, id))
  {
    var e := Doomed(id, d.generation);
    Appended(d.log, e);
    IdleAppended(d.log, e);
    OneAppended(d.log, e, d.generation);
    UndoomedIsUnstruck(d.log, id, d.generation);
    assert (d.log + [e])[|d.log|] == e;
  }

  lemma DecideKeeps<G, A>(opening: seq<Id>, rules: Rules<G, A>, d: Desk<G, A>, id: Id)
    requires Core(opening, d, d.generation) && Undoomed(d)
    requires At(d.missed, id) >= MAX_MISSED_TURNS ==> Deserved(d.log, id)
    ensures Sound(opening, Decide(rules, d, d.generation, id))
  {
    var safe := if rules.timeout.Some? then rules.timeout.value(d.table) else None;
    if At(d.missed, id) >= MAX_MISSED_TURNS {
      DoomKeeps(opening, d, id);
    } else if safe.None? {
      HelplessKeeps(opening, d, id);
      DoomKeeps(opening, Log(d.(missed := d.missed[id := MAX_MISSED_TURNS]), NoSafeMove(id)), id);
    } else {
      LogKeeps(opening, d, TimedOut(id), d.generation);
      FlyKeeps(opening, Log(d, TimedOut(id)), Play(d.generation, id, safe.value));
    }
  }

  lemma ExpiryKeeps<G, A>(opening: seq<Id>, rules: Rules<G, A>, d: Desk<G, A>, id: Id)
    requires Core(opening, d, d.generation) && Undoomed(d)
    ensures Sound(opening, Decide(rules, Charge(d, id), d.generation, id))
  {
    ChargeKeeps(opening, d, id);
    DecideKeeps(opening, rules, Charge(d, id), id);
  }

  lemma ResolveKeeps<G, A>(opening: seq<Id>, rules: Rules<G, A>, d: Desk<G, A>, generation: nat)
    requires Sound(opening, d) && (generation == d.generation ==> Undoomed(d))
    ensures Sound(opening, Resolve(rules, d, generation))
  {
    if generation == d.generation && d.phase == Playing && Current(d).Some? {
      ExpiryKeeps(opening, rules, d, Current(d).value);
    }
  }

  /** A timer that is still to fire belongs to a generation in which nothing was decided yet. */
  lemma FiringIsFresh<G, A>(opening: seq<Id>, d: Desk<G, A>, generation: nat)
    requires Sound(opening, d) && generation in d.timers
    ensures var fired := d.(timers := d.timers - {generation});
            Sound(opening, fired) && (generation == d.generation ==> Undoomed(fired))
  {
    forall k | 0 <= k < |d.flying| && d.flying[k].Take? && generation == d.generation
      ensures d.flying[k].generation != generation
    {
      assert d.flying[k].generation == d.generation ==> TakeExact(d, d.flying[k]);
    }
  }

  lemma LandKeeps<G, A>(opening: seq<Id>, rules: Rules<G, A>, d: Desk<G, A>, c: Callback<A>)
    requires Sound(opening, d)
    requires c.Take? && c.generation == d.generation ==> TakeExact(d, c)
    ensures Sound(opening, Land(rules, d, c))
  {
    match c
    case Take(generation, id) =>
      if generation == d.generation {
        LogKeeps(opening, d, Idle(id, generation), d.generation);
        RemoveKeeps(opening, rules, Log(d, Idle(id, generation)), id);
        FlyKeeps(opening, RemoveLocked(rules, Log(d, Idle(id, generation)), id).d, Recover);
      }
    case Play(generation, id, a) =>
      if generation == d.generation {
        var r := SubmitLocked(rules, d, id, a, false);
        if r.outcome != Refused || r.d != d {
          PerformKeeps(opening, rules, d, id, a, false);
        }
        FlyKeeps(opening, r.d, Rearm);
        FlyKeeps(opening, r.d, Recover);
      }
    case Rearm => ArmSettles(opening, rules, d, d.generation);
    case Recover =>
      if d.phase == Playing && !d.closed {
        EndSettles(opening, d, WinnerOf(rules, d, None), RulesError, d.generation);
      }
  }

  lemma StartKeeps<G, A>(opening: seq<Id>, rules: Rules<G, A>, d: Desk<G, A>, first: nat)
    requires Sound(opening, d)
    ensures Sound(opening, StartGame(rules, d, first))
  {
    if !d.closed && d.phase == Waiting && first < |d.table.players| {
      var begun := d.(phase := Playing, table := d.table.(turn := first));
      BegunKeeps(opening, d, begun);
      var h := rules.onStart(begun.table);
      AfterKeeps(opening, begun, h, begun.generation);
      if h.Done? {
        NextTurnSettles(opening, rules, After(begun, h), false, begun.generation);
        var moved := NextTurn(rules, After(begun, h), false);
        LogKeeps(opening, moved, Started, moved.generation);
      } else if h.Failed? {
        AfterKeeps(opening, d, h, d.generation);
        BegunKeeps(opening, After(d, h), After(d, h).(table := After(d, h).table.(turn := 0)));
      } else {
        LogKeeps(opening, After(begun, h), StartCrashed, begun.generation);
      }
    }
  }

  lemma BegunKeeps<G, A>(opening: seq<Id>, d: Desk<G, A>, begun: Desk<G, A>)
    requires Sound(opening, d) && d.phase != Finished && begun.phase != Finished
    requires begun == d.(phase := begun.phase, table := d.table.(turn := begun.table.turn))
    ensures Sound(opening, begun)
  {
  }

  /** Every lock hold keeps the invariant, whoever calls, whichever callback runs and whatever panics. */
  lemma NextKeeps<G, A>(opening: seq<Id>, rules: Rules<G, A>, d: Desk<G, A>, s: Step<A>)
    requires Sound(opening, d)
    ensures Sound(opening, Next(rules, d, s))
  {
    match s
    case Open(first) => StartKeeps(opening, rules, d, first);
    case Submit(id, a) =>
      if d.phase == Playing {
        PerformKeeps(opening, rules, d, id, a, true);
      }
    case Leave(id) =>
      RemoveKeeps(opening, rules, d, id);
      var r := RemoveLocked(rules, d, id).d;
      LogKeeps(opening, r, LeaveCrashed(id), r.generation);
    case Fire(generation) =>
      if generation in d.timers {
        FiringIsFresh(opening, d, generation);
        ResolveKeeps(opening, rules, d.(timers := d.timers - {generation}), generation);
      }
    case Resume(k) =>
      if k < |d.flying| {
        LandKeeps(opening, rules, d.(flying := DropAt(d.flying, k)), d.flying[k]);
      }
    case Close => StopSettles(opening, d.(closed := true), d.generation);
  }

  lemma {:induction false} RunKeeps<G, A>(opening: seq<Id>, rules: Rules<G, A>, d: Desk<G, A>, steps: seq<Step<A>>)
    requires Sound(opening, d)
    ensures Sound(opening, Run(rules, d, steps))
    decreases |steps|
  {
    if steps != [] {
      NextKeeps(opening, rules, d, steps[0]);
      RunKeeps(opening, rules, Next(rules, d, steps[0]), steps[1..]);
    }
  }

  // ---- What that means for a whole run ----

  /** Two actions reach the rules in one turn generation only when the earlier one panicked there and then. */
  lemma OneActionPerGeneration<G, A>(players: seq<Id>, clocked: bool, extra: G, rules: Rules<G, A>, steps: seq<Step<A>>,
                                     i: nat, j: nat)
    requires var log := Run(rules, NewDesk(players, clocked, extra), steps).log;
             i < j < |log| && log[i].Applied? && log[j].Applied?
    ensures var log := Run(rules, NewDesk(players, clocked, extra), steps).log;
            log[i].generation == log[j].generation ==>
              log[i + 1].ActCrashed? && log[i + 1].id == log[i].id && log[i + 1].generation == log[i].generation
  {
    NewDeskSound<G, A>(players, clocked, extra);
    RunKeeps(players, rules, NewDesk(players, clocked, extra), steps);
  }

  /**
   A seat is taken for idling after a full set of missed turns in a row or a turn with no safe move, unless an
   own action of that player's was accepted and panicked after the clock had settled on taking the seat: then,
   and only then, it is taken from a player who has just acted.
   */
  lemma IdleSeatsHadItComing<G, A>(players: seq<Id>, clocked: bool, extra: G, rules: Rules<G, A>, steps: seq<Step<A>>,
                                   i: nat)
    requires var log := Run(rules, NewDesk(players, clocked, extra), steps).log; i < |log| && log[i].Idle?
    ensures var log := Run(rules, NewDesk(players, clocked, extra), steps).log;
            var id, generation := log[i].id, log[i].generation;
            Misses(log[..i], id) >= MAX_MISSED_TURNS || LeftHelpless(log[..i], id) <==>
            !exists j, k | 0 <= j < k < i ::
              log[j] == Doomed(id, generation) && log[k] == ActCrashed(id, generation, true)
  {
    NewDeskSound<G, A>(players, clocked, extra);
    RunKeeps(players, rules, NewDesk(players, clocked, extra), steps);
    var log := Run(rules, NewDesk(players, clocked, extra), steps).log;
    var id, generation, before := log[i].id, log[i].generation, log[..i];
    StruckMeans(before, id, generation);
    assert forall k | 0 <= k < i :: before[k] == log[k];
    assert Deserved(before, id) <==> !Struck(before, id, generation);
  }

  /** Rules whose action hooks never panic, which is theirs to see to and nothing the engine can check. */
  ghost predicate Calm<G(!new), A(!new)>(rules: Rules<G, A>) {
    forall t, a :: !rules.apply(t, a).Panicked? && !rules.after(t, a).Panicked?
  }

  ghost predicate CrashFree(log: seq<Entry>) {
    forall k | 0 <= k < |log| :: !log[k].ActCrashed?
  }

  lemma CalmStep<G(!new), A(!new)>(rules: Rules<G, A>, d: Desk<G, A>, s: Step<A>)
    requires Calm(rules) && CrashFree(d.log)
    ensures CrashFree(Next(rules, d, s).log)
  {
    match s
    case Open(_) =>
    case Submit(id, a) => CalmSubmit(rules, d, id, a, true);
    case Leave(id) => LeaveWritesNoCrash(rules, d, id);
    case Fire(_) =>
    case Resume(k) =>
      if k < |d.flying| {
        CalmLanding(rules, d.(flying := DropAt(d.flying, k)), d.flying[k]);
      }
    case Close =>
  }

  lemma CalmLanding<G(!new), A(!new)>(rules: Rules<G, A>, d: Desk<G, A>, c: Callback<A>)
    requires Calm(rules) && CrashFree(d.log)
    ensures CrashFree(Land(rules, d, c).log)
  {
    match c
    case Take(generation, id) => LeaveWritesNoCrash(rules, Log(d, Idle(id, generation)), id);
    case Play(_, id, a) => CalmSubmit(rules, d, id, a, false);
    case Rearm =>
    case Recover =>
  }

  lemma CalmSubmit<G(!new), A(!new)>(rules: Rules<G, A>, d: Desk<G, A>, id: Id, a: A, present: bool)
    requires Calm(rules) && CrashFree(d.log)
    ensures CrashFree(SubmitLocked(rules, d, id, a, present).d.log)
  {
    var tried := Log(Hear(d, id, present), Applied(id, d.generation));
    var applied := After(tried, rules.apply(tried.table, a));
    TellWritesNoCrash(rules, After(applied, rules.after(applied.table, a)), id);
  }

  lemma TellWritesNoCrash<G, A>(rules: Rules<G, A>, d: Desk<G, A>, id: Id)
    requires CrashFree(d.log)
    ensures CrashFree(Tell(rules, d, id).log)
  {
  }

  lemma LeaveWritesNoCrash<G, A>(rules: Rules<G, A>, d: Desk<G, A>, id: Id)
    requires CrashFree(d.log)
    ensures CrashFree(RemoveLocked(rules, d, id).d.log)
  {
    var seat := IndexOf(d.table.players, id);
    if d.phase != Finished && seat < |d.table.players| {
      var told := if rules.leave.Some? then After(d, rules.leave.value.before(d.table, id)) else d;
      var gone := Unseat(told, seat);
      var resolved := if rules.leave.Some? then After(gone, rules.leave.value.afterwards(gone.table, seat)) else gone;
      SettlingWritesNoCrash(rules, Log(resolved, Gone(id)));
    }
  }

  lemma SettlingWritesNoCrash<G, A>(rules: Rules<G, A>, d: Desk<G, A>)
    requires CrashFree(d.log)
    ensures CrashFree(Settle(rules, d).log)
  {
  }

  lemma {:induction false} CalmRun<G(!new), A(!new)>(rules: Rules<G, A>, d: Desk<G, A>, steps: seq<Step<A>>)
    requires Calm(rules) && CrashFree(d.log)
    ensures CrashFree(Run(rules, d, steps).log)
    decreases |steps|
  {
    if steps != [] {
      CalmStep(rules, d, steps[0]);
      CalmRun(rules, Next(rules, d, steps[0]), steps[1..]);
    }
  }

  /** With action hooks that do not panic nobody loses a seat undeservedly, and no generation sees two actions. */
  lemma CalmRulesAreFair<G(!new), A(!new)>(players: seq<Id>, clocked: bool, extra: G, rules: Rules<G, A>,
                                           steps: seq<Step<A>>)
    requires Calm(rules)
    ensures var log := Run(rules, NewDesk(players, clocked, extra), steps).log;
            && (forall i | 0 <= i < |log| && log[i].Idle? :: Deserved(log[..i], log[i].id))
            && (forall i, j | 0 <= i < j < |log| && log[i].Applied? && log[j].Applied? ::
                  log[i].generation < log[j].generation)
  {
    NewDeskSound<G, A>(players, clocked, extra);
    RunKeeps(players, rules, NewDesk(players, clocked, extra), steps);
    CalmRun(rules, NewDesk(players, clocked, extra), steps);
    var log := Run(rules, NewDesk(players, clocked, extra), steps).log;
    forall i | 0 <= i < |log| && log[i].Idle? ensures Deserved(log[..i], log[i].id) {
      StruckMeans(log[..i], log[i].id, log[i].generation);
    }
  }

  /** Rules with nothing safe to play and a panic in every action. */
  function FaultyRules(): Rules<int, int> {
    Rules((t: Table<int>) => Done(t.turn, t.next, t.extra),
          (t, a) => true,
          (t: Table<int>, a: int) => Panicked(t.turn, t.next, t.extra),
          (t: Table<int>, a: int) => Done(t.turn, t.next, t.extra),
          t => false,
          t => [],
          Some(t => None),
          None,
          None)
  }

  /** A turn that runs out under these rules dooms the seat at once. */
  lemma FaultyExpiry(d: Desk<int, int>, id: Id)
    requires d.phase == Playing && Current(d) == Some(id) && d.generation in d.timers
    requires At(d.missed, id) == 0
    ensures var n := Next(FaultyRules(), d, Fire(d.generation));
            && n.phase == Playing && n.table == d.table && n.generation == d.generation && n.closed == d.closed
            && n.log == d.log + [Expired(id), NoSafeMove(id), Doomed(id, d.generation)]
            && n.flying == d.flying + [Take(d.generation, id)]
  {
  }

  /** An accepted action that panics leaves the turn where it was. */
  lemma FaultyAction(d: Desk<int, int>, id: Id, a: int)
    requires d.phase == Playing && !d.closed && Current(d) == Some(id)
    ensures var n := Next(FaultyRules(), d, Submit(id, a));
            n.log == CrashLog(d.log, id, d.generation, true) && n.flying == d.flying && n.generation == d.generation
  {
  }

  lemma TakingIsLogged<G, A>(rules: Rules<G, A>, d: Desk<G, A>, id: Id)
    requires rules.leave.None? && d.flying == [Take(d.generation, id)]
    ensures d.log + [Idle(id, d.generation)] <= Next(rules, d, Resume(0)).log
  {
    var landing := d.(flying := []);
    assert DropAt(d.flying, 0) == [];
    assert Next(rules, d, Resume(0)) == Land(rules, landing, Take(d.generation, id));
    LandedTakeIsLogged(rules, landing, id);
  }

  lemma LandedTakeIsLogged<G, A>(rules: Rules<G, A>, d: Desk<G, A>, id: Id)
    requires rules.leave.None?
    ensures d.log + [Idle(id, d.generation)] <= Land(rules, d, Take(d.generation, id)).log
  {
    LeavingOnlyLogs(rules, Log(d, Idle(id, d.generation)), id);
  }

  lemma LeavingOnlyLogs<G, A>(rules: Rules<G, A>, d: Desk<G, A>, id: Id)
    requires rules.leave.None?
    ensures d.log <= RemoveLocked(rules, d, id).d.log
  {
  }

  /** From a turn about to run out: the seat is taken from a player who has just acted. */
  lemma FaultyTurn(d: Desk<int, int>, id: Id, a: int)
    requires d.phase == Playing && !d.closed && Current(d) == Some(id) && d.generation in d.timers
    requires At(d.missed, id) == 0 && d.flying == [] && d.log == [Started]
    ensures var expired := Next(FaultyRules(), d, Fire(d.generation));
            var log := Next(FaultyRules(), Next(FaultyRules(), expired, Submit(id, a)), Resume(0)).log;
            && |log| > 7 && log[4] == Accepted(id) && log[7] == Idle(id, d.generation)
            && Misses(log[..7], id) == 0 && !LeftHelpless(log[..7], id)
  {
    FaultyExpiry(d, id);
    var d2 := Next(FaultyRules(), d, Fire(d.generation));
    FaultyAction(d2, id, a);
    var d3 := Next(FaultyRules(), d2, Submit(id, a));
    TakingIsLogged(FaultyRules(), d3, id);
    CrashReads(d2.log, id, d.generation, true);
    assert Next(FaultyRules(), d3, Resume(0)).log[..7] == d3.log;
  }

  /** The exception happens: the clock settles on the seat, its player acts, the action panics, and the seat goes. */
  lemma ActedAndTakenAllTheSame(id: Id, other: Id, a: int)
    requires id != other
    ensures var steps := [Open(0), Fire(1), Submit(id, a), Resume(0)];
            var log := Run(FaultyRules(), NewDesk([id, other], true, 0), steps).log;
            && |log| > 7 && log[4] == Accepted(id) && log[7] == Idle(id, 1)
            && Misses(log[..7], id) == 0 && !LeftHelpless(log[..7], id)
  {
    RunOfFour(FaultyRules(), NewDesk<int, int>([id, other], true, 0), [Open(0), Fire(1), Submit(id, a), Resume(0)]);
    FaultyTurn(Next(FaultyRules(), NewDesk([id, other], true, 0), Open(0)), id, a);
  }

  lemma RunOfFour<G, A>(rules: Rules<G, A>, d: Desk<G, A>, s: seq<Step<A>>)
    requires |s| == 4
    ensures Run(rules, d, s) == Next(rules, Next(rules, Next(rules, Next(rules, d, s[0]), s[1]), s[2]), s[3])
  {
    var d1 := Next(rules, d, s[0]);
    var d2 := Next(rules, d1, s[1]);
    var d3 := Next(rules, d2, s[2]);
    assert Run(rules, d2, s[2..]) == Run(rules, d3, s[2..][1..]);
    assert Run(rules, d3, s[3..]) == Run(rules, Next(rules, d3, s[3]), s[3..][1..]);
    assert s[1..][1..] == s[2..] && s[2..][1..] == s[3..] && s[3..][1..] == [];
  }

  /** The end is announced exactly when the game is over, once; nobody is lost or seated twice. */
  lemma EndedOnceAndSeatsKept<G, A>(players: seq<Id>, clocked: bool, extra: G, rules: Rules<G, A>, steps: seq<Step<A>>)
    ensures var d := Run(rules, NewDesk(players, clocked, extra), steps);
            && Endings(d.log) == (if d.phase == Finished then 1 else 0)
            && multiset(d.table.players) + multiset(d.table.left) == multiset(players)
  {
    NewDeskSound<G, A>(players, clocked, extra);
    RunKeeps(players, rules, NewDesk(players, clocked, extra), steps);
  }

  lemma NewDeskSound<G, A>(players: seq<Id>, clocked: bool, extra: G)
    ensures Sound<G, A>(players, NewDesk(players, clocked, extra))
  {
  }

  /** A callback from an older generation changes nothing, and neither does the timer of one. */
  lemma StaleCallbacksDoNothing<G, A>(rules: Rules<G, A>, d: Desk<G, A>, s: Step<A>)
    requires s.Fire? ==> s.generation != d.generation
    requires s.Fire? || (s.Resume? && s.callback < |d.flying| && (d.flying[s.callback].Take? || d.flying[s.callback].Play?)
                         && d.flying[s.callback].generation != d.generation)
    ensures var n := Next(rules, d, s); n == d.(timers := n.timers, flying := n.flying)
  {
  }

  function PhaseRank(p: Phase): nat {
    match p
    case Waiting => 0
    case Playing => 1
    case Finished => 2
  }

  lemma RemoveAdvances<G, A>(rules: Rules<G, A>, d: Desk<G, A>, id: Id)
    ensures PhaseRank(d.phase) <= PhaseRank(RemoveLocked(rules, d, id).d.phase)
  {
    var seat := IndexOf(d.table.players, id);
    if d.phase != Finished && seat < |d.table.players| {
      var told := if rules.leave.Some? then After(d, rules.leave.value.before(d.table, id)) else d;
      var gone := Unseat(told, seat);
      var resolved := if rules.leave.Some? then After(gone, rules.leave.value.afterwards(gone.table, seat)) else gone;
      SettleAdvances(rules, Log(resolved, Gone(id)));
    }
  }

  lemma SettleAdvances<G, A>(rules: Rules<G, A>, d: Desk<G, A>)
    ensures d.phase == Playing ==> Settle(rules, d).phase != Waiting
  {
  }

  lemma SubmitAdvances<G, A>(rules: Rules<G, A>, d: Desk<G, A>, id: Id, a: A, present: bool)
    ensures PhaseRank(d.phase) <= PhaseRank(SubmitLocked(rules, d, id, a, present).d.phase)
  {
    var tried := Log(Hear(d, id, present), Applied(id, d.generation));
    var applied := After(tried, rules.apply(tried.table, a));
    TellAdvances(rules, After(applied, rules.after(applied.table, a)), id);
  }

  lemma TellAdvances<G, A>(rules: Rules<G, A>, d: Desk<G, A>, id: Id)
    ensures d.phase == Playing ==> Tell(rules, d, id).phase != Waiting
  {
  }

  /** The phase only moves forward: waiting, playing, finished, and finished for good. */
  lemma PhaseOnlyAdvances<G, A>(rules: Rules<G, A>, d: Desk<G, A>, s: Step<A>)
    ensures PhaseRank(d.phase) <= PhaseRank(Next(rules, d, s).phase)
  {
    match s
    case Open(_) =>
    case Submit(id, a) => SubmitAdvances(rules, d, id, a, true);
    case Leave(id) => RemoveAdvances(rules, d, id);
    case Fire(_) =>
    case Resume(k) =>
      if k < |d.flying| {
        LandAdvances(rules, d.(flying := DropAt(d.flying, k)), d.flying[k]);
      }
    case Close =>
  }

  lemma LandAdvances<G, A>(rules: Rules<G, A>, d: Desk<G, A>, c: Callback<A>)
    ensures PhaseRank(d.phase) <= PhaseRank(Land(rules, d, c).phase)
  {
    match c
    case Take(generation, id) => RemoveAdvances(rules, Log(d, Idle(id, generation)), id);
    case Play(_, id, a) => SubmitAdvances(rules, d, id, a, false);
    case Rearm =>
    case Recover =>
  }
}
