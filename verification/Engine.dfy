/** The engine as one object: every method is a lock hold over the fields it updates in place. */
module Engine {
  import opened Cards
  import opened Options
  import opened Sums
  import opened EngineRules
  import opened EngineSafety

  class Engine<G, A> {
    const rules: Rules<G, A>
    const clocked: bool
    ghost const opening: seq<Id>
    var phase: Phase
    var players: seq<Id>
    var left: seq<Id>
    var turn: int
    var next: Option<int>
    var extra: G
    var winner: Option<Id>
    var closed: bool
    var turnSeq: nat
    var missedTurns: map<Id, nat>
    var timers: set<nat>
    var flying: seq<Callback<A>>
    var log: seq<Entry>

    function State(): Table<G>
      reads this
    {
      Table(players, left, turn, next, extra)
    }

    function View(): Desk<G, A>
      reads this
    {
      Desk(phase, State(), winner, closed, clocked, turnSeq, missedTurns, timers, flying, log)
    }

    ghost predicate Valid()
      reads this
    {
      Sound(opening, View())
    }

    constructor (rules: Rules<G, A>, players: seq<Id>, clocked: bool, extra: G)
      ensures View() == NewDesk(players, clocked, extra) && this.rules == rules && opening == players && Valid()
    {
      this.rules, this.clocked, this.opening := rules, clocked, players;
      this.phase, this.players, this.left, this.turn, this.next := Waiting, players, [], 0, None;
      this.extra, this.winner, this.closed := extra, None, false;
      this.turnSeq, this.missedTurns, this.timers, this.flying, this.log := 0, map[], {}, [], [];
      new;
      NewDeskSound<G, A>(players, clocked, extra);
    }

    method Broadcast(e: Entry)
      modifies this`log
      ensures View() == Log(old(View()), e)
    {
      log := log + [e];
    }

    /** What a hook did to the table. */
    method Take(h: Hook<G>)
      modifies this`turn, this`next, this`extra
      ensures View() == After(old(View()), h)
    {
      turn, next, extra := h.turn, h.next, h.extra;
    }

    // ---- The clock ----

    method StopTurnTimer()
      modifies this`turnSeq
      ensures View() == StopTimer(old(View()))
    {
      turnSeq := turnSeq + 1;
    }

    method ArmTurnTimer()
      modifies this`turnSeq, this`timers
      ensures View() == ArmTimer(rules, old(View()))
    {
      StopTurnTimer();
      if closed || !clocked || phase != Playing || players == [] {
        return;
      }
      if rules.timeout.None? {
        return;
      }
      timers := timers + {turnSeq};
    }

    method ClampTurn()
      modifies this`turn
      ensures turn == Clamp(old(turn), |players|)
    {
      turn := if players == [] then 0 else turn % |players|;
    }

    method ApplyNextTurn(advance: bool)
      modifies this`turn, this`next, this`turnSeq, this`timers
      ensures View() == NextTurn(rules, old(View()), advance)
    {
      if next.Some? {
        turn := next.value;
        next := None;
      } else if advance {
        turn := turn + 1;
      }
      ClampTurn();
      ArmTurnTimer();
    }

    // ---- Ending ----

    method EndGame(winner: Option<Id>, reason: EndReason)
      modifies this`phase, this`turnSeq, this`winner, this`log
      ensures View() == End(old(View()), winner, reason)
    {
      phase := Finished;
      StopTurnTimer();
      this.winner := winner;
      log := log + [Ended(winner, reason)];
    }

    method FinishGame(fallback: Option<Id>, reason: EndReason)
      modifies this`phase, this`turnSeq, this`winner, this`log
      ensures View() == Finish(rules, old(View()), fallback, reason)
      ensures phase == Finished && log == old(log) + [Ended(winner, reason)]
      ensures var best := rules.standings(old(State()));
              && (best != [] ==> winner == Some(best[0]))
              && (best == [] && fallback.Some? ==> winner == fallback)
              && (best == [] && fallback.None? && players != [] ==> winner == Some(players[0]))
    {
      var standings := rules.standings(State());
      var best := winner;
      if standings != [] {
        best := Some(standings[0]);
      } else if fallback.Some? {
        best := fallback;
      } else if players != [] {
        best := Some(players[0]);
      }
      EndGame(best, reason);
    }

    // ---- Starting ----

    method Start(first: nat)
      requires Valid()
      modifies this
      ensures View() == Next(rules, old(View()), Open(first)) && Valid()
    {
      NextKeeps(opening, rules, View(), Open(first));
      if closed || phase != Waiting || players == [] || first >= |players| {
        return;
      }
      ghost var was := View();
      phase, turn := Playing, first;
      var h := rules.onStart(State());
      Take(h);
      if h.Failed? {
        turn, phase := 0, Waiting;
      } else if h.Panicked? {
        log := log + [StartCrashed];
      } else {
        ApplyNextTurn(false);
        Broadcast(Started);
      }
    }

    // ---- Acting ----

    method SubmitAction(id: Id, a: A)
      requires Valid()
      modifies this
      ensures View() == Next(rules, old(View()), Submit(id, a)) && Valid()
    {
      NextKeeps(opening, rules, View(), Submit(id, a));
      var _ := SubmitLocked(id, a, true);
    }

    method SubmitLocked(id: Id, a: A, present: bool) returns (outcome: Outcome)
      modifies this
      ensures Result(View(), outcome) == EngineRules.SubmitLocked(rules, old(View()), id, a, present)
    {
      if closed || phase != Playing {
        return Refused;
      }
      if Current(View()) != Some(id) || !rules.validate(State(), a) {
        return Refused;
      }
      ClearMisses(id, present);
      outcome := ApplyAndAdvance(id, a, present);
    }

    method ClearMisses(id: Id, present: bool)
      modifies this`missedTurns, this`log
      ensures View() == Hear(old(View()), id, present)
    {
      if present {
        missedTurns := missedTurns - {id};
        log := log + [Accepted(id)];
      }
    }

    method ApplyAndAdvance(id: Id, a: A, present: bool) returns (outcome: Outcome)
      modifies this
      ensures Result(View(), outcome) == Carry(rules, old(View()), id, a, present)
    {
      log := log + [Applied(id, turnSeq)];
      var h := rules.apply(State(), a);
      Take(h);
      if h.Panicked? {
        log := log + [ActCrashed(id, turnSeq, present)];
        return Panic;
      }
      if h.Failed? {
        FinishGame(Some(id), RulesError);
        return Broke;
      }
      var k := rules.after(State(), a);
      Take(k);
      if k.Panicked? {
        log := log + [ActCrashed(id, turnSeq, present)];
        return Panic;
      }
      if k.Failed? {
        FinishGame(Some(id), RulesError);
        return Broke;
      }
      Announce(id);
      return Fine;
    }

    method Announce(id: Id)
      modifies this
      ensures View() == Tell(rules, old(View()), id)
    {
      Broadcast(Announced(id));
      if rules.won(State()) {
        FinishGame(Some(id), Win);
        return;
      }
      ApplyNextTurn(true);
      Broadcast(Advanced);
    }

    // ---- Leaving ----

    method RemovePlayer(id: Id)
      requires Valid()
      modifies this
      ensures View() == Next(rules, old(View()), Leave(id)) && Valid()
    {
      NextKeeps(opening, rules, View(), Leave(id));
      var outcome := RemoveLocked(id);
      if outcome == Panic {
        log := log + [LeaveCrashed(id)];
      }
    }

    method RemoveLocked(id: Id) returns (outcome: Outcome)
      modifies this
      ensures Result(View(), outcome) == EngineRules.RemoveLocked(rules, old(View()), id)
    {
      var seat := IndexOf(players, id);
      if phase == Finished || seat == |players| {
        return Refused;
      }
      if rules.leave.Some? {
        var h := rules.leave.value.before(State(), id);
        Take(h);
        if h.Panicked? {
          return Panic;
        }
      }
      Vacate(seat);
      if rules.leave.Some? {
        var h := rules.leave.value.afterwards(State(), seat);
        Take(h);
        if h.Panicked? {
          return Panic;
        }
      }
      Broadcast(Gone(id));
      if phase == Playing {
        SettleTable();
      }
      return Fine;
    }

    method Vacate(seat: nat)
      requires seat < |players|
      modifies this`players, this`left, this`turn, this`missedTurns
      ensures View() == Unseat(old(View()), seat)
    {
      var id := players[seat];
      left := left + [id];
      players := DropAt(players, seat);
      missedTurns := missedTurns - {id};
      if turn > seat {
        turn := turn - 1;
      }
      ClampTurn();
    }

    method SettleTable()
      modifies this
      ensures View() == Settle(rules, old(View()))
    {
      if players == [] {
        EndGame(None, Abandoned);
        return;
      }
      if rules.won(State()) {
        FinishGame(None, Win);
        return;
      }
      if |players| == 1 && next.None? {
        EndGame(Some(players[0]), Forfeit);
        return;
      }
      ApplyNextTurn(false);
      Broadcast(Advanced);
    }

    // ---- A turn running out ----

    /** First lock hold of a timer callback. */
    method ResolveTurnTimeout(generation: nat)
      requires Valid()
      modifies this
      ensures View() == Next(rules, old(View()), Fire(generation)) && Valid()
    {
      NextKeeps(opening, rules, View(), Fire(generation));
      if generation !in timers {
        return;
      }
      timers := timers - {generation};
      if generation != turnSeq || phase != Playing || players == [] || Current(View()).None? {
        return;
      }
      var id := Current(View()).value;
      ChargeMiss(id);
      DecideFor(generation, id);
    }

    method ChargeMiss(id: Id)
      modifies this`missedTurns, this`log
      ensures View() == Charge(old(View()), id)
    {
      missedTurns := missedTurns[id := At(missedTurns, id) + 1];
      Broadcast(Expired(id));
    }

    method DecideFor(generation: nat, id: Id)
      modifies this`missedTurns, this`log, this`flying
      ensures View() == Decide(rules, old(View()), generation, id)
    {
      if At(missedTurns, id) >= MAX_MISSED_TURNS {
        DoomSeat(generation, id);
        return;
      }
      var safe: Option<A> := None;
      if rules.timeout.Some? {
        safe := rules.timeout.value(State());
      }
      if safe.None? {
        missedTurns := missedTurns[id := MAX_MISSED_TURNS];
        log := log + [NoSafeMove(id)];
        DoomSeat(generation, id);
        return;
      }
      log := log + [TimedOut(id)];
      flying := flying + [Play(generation, id, safe.value)];
    }

    method DoomSeat(generation: nat, id: Id)
      modifies this`log, this`flying
      ensures View() == Doom(old(View()), generation, id)
    {
      log := log + [Doomed(id, generation)];
      flying := flying + [Callback.Take(generation, id)];
    }

    /** A later lock hold of callback number k. */
    method Continue(k: nat)
      requires Valid() && k < |flying|
      modifies this
      ensures View() == Next(rules, old(View()), Resume(k)) && Valid()
    {
      NextKeeps(opening, rules, View(), Resume(k));
      var c := flying[k];
      flying := DropAt(flying, k);
      match c
      case Take(generation, id) => RemoveIfStillIdle(generation, id);
      case Play(generation, id, a) => SubmitTimedOutAction(generation, id, a);
      case Rearm => ArmTurnTimer();
      case Recover => RecoverRulesPanic();
    }

    method RemoveIfStillIdle(generation: nat, id: Id)
      modifies this
      ensures View() == Land(rules, old(View()), Callback.Take(generation, id))
    {
      if generation != turnSeq {
        return;
      }
      Broadcast(Idle(id, generation));
      var outcome := RemoveLocked(id);
      if outcome == Panic {
        flying := flying + [Recover];
      }
    }

    method SubmitTimedOutAction(generation: nat, id: Id, a: A)
      modifies this
      ensures View() == Land(rules, old(View()), Play(generation, id, a))
    {
      if generation != turnSeq {
        return;
      }
      var outcome := SubmitLocked(id, a, false);
      if outcome == Panic {
        flying := flying + [Recover];
      } else if outcome != Fine {
        flying := flying + [Rearm];
      }
    }

    method RecoverRulesPanic()
      modifies this
      ensures View() == Land(rules, old(View()), Recover)
    {
      if phase == Playing && !closed {
        FinishGame(None, RulesError);
      }
    }

    method Close()
      requires Valid()
      modifies this
      ensures View() == Next(rules, old(View()), Step.Close) && Valid()
    {
      NextKeeps(opening, rules, View(), Step.Close);
      closed := true;
      StopTurnTimer();
    }
  }
}
