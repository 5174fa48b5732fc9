/** Whose turn the engine makes it, whose actions it takes, and how many missed turns it forgives. */
module EngineTurns {
  import opened Cards
  import opened Options
  import opened Sums
  import opened EngineRules
  import opened EngineSafety
  import opened EngineClock

  // ---- The cursor ----

  /** The seat after, going round. */
  function SeatAfter(seat: nat, n: nat): nat
    requires seat < n
  {
    if seat == n - 1 then 0 else seat + 1
  }

  lemma ClampIs(turn: nat, n: nat)
    requires turn <= n && n > 0
    ensures Clamp(turn, n) == if turn == n then 0 else turn
  {
  }

  /** Unless the rules named the next seat, a turn over passes to the seat after, and a turn kept stays. */
  lemma TurnPasses<G, A>(rules: Rules<G, A>, d: Desk<G, A>, advance: bool)
    requires 0 <= d.table.turn < |d.table.players|
    requires d.table.next.Some? ==> 0 <= d.table.next.value < |d.table.players|
    ensures var n := NextTurn(rules, d, advance);
            && n.table.players == d.table.players && n.table.next == None
            && n.table.turn == if d.table.next.Some? then d.table.next.value
                               else if advance then SeatAfter(d.table.turn, |d.table.players|) else d.table.turn
  {
    ClampIs(if d.table.next.Some? then d.table.next.value else if advance then d.table.turn + 1 else d.table.turn,
            |d.table.players|);
  }

  /** A seat taken out leaves whoever was on turn on turn, or hands it to the seat after when it was theirs. */
  lemma LeaverPassesTheTurn<G>(t: Table<G>, seat: nat)
    requires seat < |t.players| && 0 <= t.turn < |t.players| && |t.players| >= 2
    ensures var n, u := |t.players|, Vacated(t, seat);
            && 0 <= u.turn < |u.players| && u.left == t.left + [t.players[seat]]
            && u.players[u.turn] == t.players[if t.turn == seat then SeatAfter(seat, n) else t.turn]
  {
    ClampIs(if t.turn > seat then t.turn - 1 else t.turn, |t.players| - 1);
  }

  // ---- Whose actions count ----

  lemma AcceptedIsLogged<G, A>(rules: Rules<G, A>, d: Desk<G, A>, id: Id, a: A)
    ensures var n := Perform(rules, d, id, a, true).d;
            |d.log| < |n.log| && n.log[|d.log|] == Accepted(id)
  {
    var heard := Hear(d, id, true);
    assert heard.log[|d.log|] == Accepted(id);
    CarryingOnlyAdds(rules, heard, id, a, true);
  }

  lemma TellingOnlyAdds<G, A>(rules: Rules<G, A>, d: Desk<G, A>, id: Id)
    ensures d.log <= Tell(rules, d, id).log
  {
  }

  lemma CarryingOnlyAdds<G, A>(rules: Rules<G, A>, d: Desk<G, A>, id: Id, a: A, present: bool)
    ensures d.log <= Carry(rules, d, id, a, present).d.log
  {
    var tried := Log(d, Applied(id, d.generation));
    var applied := After(tried, rules.apply(tried.table, a));
    TellingOnlyAdds(rules, After(applied, rules.after(applied.table, a)), id);
  }

  /** A player's action does something exactly when the game is on, it is their turn, and the rules take it. */
  lemma OnlyTheSeatOnTurnActs<G, A>(rules: Rules<G, A>, d: Desk<G, A>, id: Id, a: A)
    ensures Next(rules, d, Submit(id, a)) != d <==>
            !d.closed && d.phase == Playing && Current(d) == Some(id) && rules.validate(d.table, a)
  {
    AcceptedIsLogged(rules, d, id, a);
  }

  /** A start that fails leaves a table that can be started again, with nothing announced and no timer running. */
  lemma FailedStartCanRetry<G, A>(rules: Rules<G, A>, d: Desk<G, A>, first: nat)
    requires !d.closed && d.phase == Waiting && first < |d.table.players|
    requires rules.onStart(d.table.(turn := first)).Failed?
    ensures var n := Next(rules, d, Open(first));
            && !n.closed && n.phase == Waiting && n.table.players == d.table.players && n.table.turn == 0
            && n.log == d.log && n.timers == d.timers && n.generation == d.generation && n.missed == d.missed
  {
  }

  // ---- How many misses are forgiven ----

  /** A full set of misses in a row is followed at once by the clock settling on the seat. */
  ghost predicate NoneForgiven(log: seq<Entry>) {
    forall k | 0 <= k < |log| && log[k].Expired? && Misses(log[..k + 1], log[k].id) >= MAX_MISSED_TURNS ::
      k + 1 < |log| && log[k + 1].Doomed? && log[k + 1].id == log[k].id
  }

  /** The miss count of everybody seated is no lower than the log accounts for. */
  ghost predicate Counted<G, A>(d: Desk<G, A>) {
    forall id | id in d.table.players :: At(d.missed, id) >= Misses(d.log, id)
  }

  ghost predicate Strict<G, A>(d: Desk<G, A>) {
    Distinct(d.table.players) && NoneForgiven(d.log) && Counted(d)
  }

  /** Nobody's turn ran out: entries were added, and only who acted or left has had their misses cleared. */
  ghost predicate Calmly<G, A>(d: Desk<G, A>, n: Desk<G, A>) {
    && d.log <= n.log && (forall k | |d.log| <= k < |n.log| :: !n.log[k].Expired?)
    && (Distinct(d.table.players) ==>
          && Distinct(n.table.players)
          && forall id | id in n.table.players ::
               id in d.table.players && (At(n.missed, id) >= At(d.missed, id) || Accepted(id) in n.log[|d.log|..]))
  }

  lemma MissesAppended(log: seq<Entry>, e: Entry, id: Id)
    ensures Misses(log + [e], id) == if e == Accepted(id) then 0 else Misses(log, id) + if e == Expired(id) then 1 else 0
  {
    assert (log + [e])[..|log|] == log;
  }

  lemma {:induction false} MissesOver(log: seq<Entry>, more: seq<Entry>, id: Id)
    requires forall e | e in more :: !e.Expired?
    ensures Misses(log + more, id) == if Accepted(id) in more then 0 else Misses(log, id)
  {
    if more == [] {
      assert log + more == log;
    } else {
      var before, e := more[..|more| - 1], more[|more| - 1];
      assert more == before + [e];
      MissesOver(log, before, id);
      MissesAppended(log + before, e, id);
      assert log + more == (log + before) + [e];
    }
  }

  lemma CalmStaysCounted<G, A>(d: Desk<G, A>, n: Desk<G, A>)
    requires Distinct(d.table.players) && Counted(d) && Calmly(d, n)
    ensures Counted(n)
  {
    var more := n.log[|d.log|..];
    assert n.log == d.log + more;
    forall id | id in n.table.players ensures At(n.missed, id) >= Misses(n.log, id) {
      MissesOver(d.log, more, id);
    }
  }

  lemma CalmStaysStrict<G, A>(d: Desk<G, A>, n: Desk<G, A>)
    requires Strict(d) && Calmly(d, n)
    ensures Strict(n)
  {
    CalmStaysCounted(d, n);
    forall k | 0 <= k < |n.log| && n.log[k].Expired? && Misses(n.log[..k + 1], n.log[k].id) >= MAX_MISSED_TURNS
      ensures k + 1 < |n.log| && n.log[k + 1].Doomed? && n.log[k + 1].id == n.log[k].id
    {
      assert n.log[k] == d.log[k] && n.log[..k + 1] == d.log[..k + 1];
    }
  }

  lemma CalmThenCalm<G, A>(d: Desk<G, A>, n: Desk<G, A>, e: Entry)
    requires Calmly(d, n) && !e.Expired?
    ensures Calmly(d, Log(n, e))
  {
    assert Log(n, e).log[|d.log|..] == n.log[|d.log|..] + [e];
  }

  lemma TellIsCalm<G, A>(rules: Rules<G, A>, d: Desk<G, A>, id: Id)
    ensures Calmly(d, Tell(rules, d, id))
  {
  }

  lemma CalmChain<G, A>(d: Desk<G, A>, m: Desk<G, A>, n: Desk<G, A>)
    requires Calmly(d, m) && Calmly(m, n)
    ensures Calmly(d, n)
  {
    assert n.log[|d.log|..] == m.log[|d.log|..] + n.log[|m.log|..];
  }

  lemma FinishIsCalm<G, A>(rules: Rules<G, A>, d: Desk<G, A>, fallback: Option<Id>, reason: EndReason)
    ensures Calmly(d, Finish(rules, d, fallback, reason))
  {
  }

  lemma CarryIsCalm<G, A>(rules: Rules<G, A>, d: Desk<G, A>, id: Id, a: A, present: bool)
    ensures Calmly(d, Carry(rules, d, id, a, present).d)
  {
    var tried := Log(d, Applied(id, d.generation));
    var applied := After(tried, rules.apply(tried.table, a));
    var settled := After(applied, rules.after(applied.table, a));
    assert Calmly(d, applied) && Calmly(d, settled);
    FinishIsCalm(rules, applied, Some(id), RulesError);
    FinishIsCalm(rules, settled, Some(id), RulesError);
    TellIsCalm(rules, settled, id);
    var n := Carry(rules, d, id, a, present).d;
    if n == Tell(rules, settled, id) || n == Finish(rules, settled, Some(id), RulesError) {
      CalmChain(d, settled, n);
    } else if n == Finish(rules, applied, Some(id), RulesError) {
      CalmChain(d, applied, n);
    } else if n == Log(applied, ActCrashed(id, d.generation, present)) {
      CalmThenCalm(d, applied, ActCrashed(id, d.generation, present));
    } else {
      CalmThenCalm(d, settled, ActCrashed(id, d.generation, present));
    }
  }

  lemma SubmitIsCalm<G, A>(rules: Rules<G, A>, d: Desk<G, A>, id: Id, a: A, present: bool)
    ensures Calmly(d, SubmitLocked(rules, d, id, a, present).d)
  {
    var heard := Hear(d, id, present);
    assert present ==> heard.log[|d.log|..] == [Accepted(id)];
    assert Calmly(d, heard);
    CarryIsCalm(rules, heard, id, a, present);
    CalmChain(d, heard, Carry(rules, heard, id, a, present).d);
  }

  lemma DropKeepsDistinct(ids: seq<Id>, seat: nat)
    requires Distinct(ids) && seat < |ids|
    ensures Distinct(DropAt(ids, seat)) && forall id | id in DropAt(ids, seat) :: id in ids && id != ids[seat]
  {
    var rest := DropAt(ids, seat);
    assert forall i | 0 <= i < |rest| :: rest[i] == ids[if i < seat then i else i + 1];
  }

  lemma UnseatIsCalm<G, A>(d: Desk<G, A>, seat: nat)
    requires seat < |d.table.players|
    ensures Calmly(d, Unseat(d, seat))
  {
    if Distinct(d.table.players) {
      DropKeepsDistinct(d.table.players, seat);
    }
  }

  lemma SettleIsCalm<G, A>(rules: Rules<G, A>, d: Desk<G, A>)
    ensures Calmly(d, Settle(rules, d))
  {
    FinishIsCalm(rules, d, None, Win);
  }

  lemma GoneIsCalm<G, A>(rules: Rules<G, A>, d: Desk<G, A>, id: Id)
    ensures var left := Log(d, Gone(id));
            Calmly(d, if left.phase == Playing then Settle(rules, left) else left)
  {
    var left := Log(d, Gone(id));
    assert Calmly(d, left);
    SettleIsCalm(rules, left);
    CalmChain(d, left, Settle(rules, left));
  }

  lemma RemoveIsCalm<G, A>(rules: Rules<G, A>, d: Desk<G, A>, id: Id)
    ensures Calmly(d, RemoveLocked(rules, d, id).d)
  {
    var seat := IndexOf(d.table.players, id);
    if seat < |d.table.players| {
      var told := if rules.leave.Some? then After(d, rules.leave.value.before(d.table, id)) else d;
      assert Calmly(d, told);
      var gone := Unseat(told, seat);
      UnseatIsCalm(told, seat);
      CalmChain(d, told, gone);
      var resolved := if rules.leave.Some? then After(gone, rules.leave.value.afterwards(gone.table, seat)) else gone;
      assert Calmly(gone, resolved);
      CalmChain(d, gone, resolved);
      GoneIsCalm(rules, resolved, id);
      var left := Log(resolved, Gone(id));
      CalmChain(d, resolved, if left.phase == Playing then Settle(rules, left) else left);
    }
  }

  lemma LandIsCalm<G, A>(rules: Rules<G, A>, d: Desk<G, A>, c: Callback<A>)
    ensures Calmly(d, Land(rules, d, c))
  {
    match c
    case Take(generation, id) =>
      var idle := Log(d, Idle(id, generation));
      RemoveIsCalm(rules, idle, id);
      CalmChain(d, idle, RemoveLocked(rules, idle, id).d);
    case Play(_, id, a) => SubmitIsCalm(rules, d, id, a, false);
    case Rearm =>
    case Recover => FinishIsCalm(rules, d, None, RulesError);
  }

  lemma OneMoreForgiven(log: seq<Entry>, id: Id)
    requires NoneForgiven(log) && Misses(log, id) + 1 < MAX_MISSED_TURNS
    ensures NoneForgiven(log + [Expired(id)])
  {
    var more := log + [Expired(id)];
    Appended(log, Expired(id));
    forall k | 0 <= k < |more| && more[k].Expired? && Misses(more[..k + 1], more[k].id) >= MAX_MISSED_TURNS
      ensures k + 1 < |more| && more[k + 1].Doomed? && more[k + 1].id == more[k].id
    {
      assert more[..k + 1] == if k < |log| then log[..k + 1] else more;
    }
  }

  lemma SettledOnIsUnforgiven(log: seq<Entry>, id: Id, generation: nat)
    requires NoneForgiven(log)
    ensures NoneForgiven(log + [Expired(id), Doomed(id, generation)])
  {
    var more := log + [Expired(id), Doomed(id, generation)];
    forall k | 0 <= k < |more| && more[k].Expired? && Misses(more[..k + 1], more[k].id) >= MAX_MISSED_TURNS
      ensures k + 1 < |more| && more[k + 1].Doomed? && more[k + 1].id == more[k].id
    {
      if k < |log| {
        assert more[k] == log[k] && more[..k + 1] == log[..k + 1];
      }
    }
  }

  lemma ChargedIsCounted<G, A>(d: Desk<G, A>, id: Id)
    requires Counted(d)
    ensures Counted(Charge(d, id))
  {
    forall who | who in d.table.players ensures At(Charge(d, id).missed, who) >= Misses(Charge(d, id).log, who) {
      MissesAppended(d.log, Expired(id), who);
    }
  }

  lemma ChargedIsStrict<G, A>(d: Desk<G, A>, id: Id)
    requires Strict(d) && id in d.table.players && At(d.missed, id) + 1 < MAX_MISSED_TURNS
    ensures Strict(Charge(d, id))
  {
    ChargedIsCounted(d, id);
    OneMoreForgiven(d.log, id);
  }

  lemma DoomedIsStrict<G, A>(d: Desk<G, A>, c: Desk<G, A>, generation: nat, id: Id)
    requires Strict(d) && c == Charge(d, id)
    ensures Strict(Doom(c, generation, id))
  {
    var n := Doom(c, generation, id);
    ChargedIsCounted(d, id);
    CalmStaysCounted(c, n);
    SettledOnIsUnforgiven(d.log, id, generation);
    assert n.log == d.log + [Expired(id), Doomed(id, generation)];
  }

  lemma DecidingIsCalm<G, A>(rules: Rules<G, A>, c: Desk<G, A>, generation: nat, id: Id)
    requires At(c.missed, id) < MAX_MISSED_TURNS
    ensures Calmly(c, Decide(rules, c, generation, id))
  {
  }

  /** One more miss of the player on turn, and the clock settles on the seat if that is a full set. */
  lemma ExpiryIsStrict<G, A>(rules: Rules<G, A>, d: Desk<G, A>, generation: nat, id: Id)
    requires Strict(d) && id in d.table.players
    ensures Strict(Decide(rules, Charge(d, id), generation, id))
  {
    var c := Charge(d, id);
    if At(c.missed, id) >= MAX_MISSED_TURNS {
      DoomedIsStrict(d, c, generation, id);
    } else {
      ChargedIsStrict(d, id);
      DecidingIsCalm(rules, c, generation, id);
      CalmStaysStrict(c, Decide(rules, c, generation, id));
    }
  }

  lemma NextIsStrict<G, A>(rules: Rules<G, A>, d: Desk<G, A>, s: Step<A>)
    requires Strict(d)
    ensures Strict(Next(rules, d, s))
  {
    match s
    case Open(first) => CalmStaysStrict(d, Next(rules, d, s));
    case Submit(id, a) =>
      SubmitIsCalm(rules, d, id, a, true);
      CalmStaysStrict(d, Next(rules, d, s));
    case Leave(id) =>
      RemoveIsCalm(rules, d, id);
      CalmThenCalm(d, RemoveLocked(rules, d, id).d, LeaveCrashed(id));
      CalmStaysStrict(d, Next(rules, d, s));
    case Fire(generation) =>
      var fired := d.(timers := d.timers - {generation});
      if generation in d.timers && generation == d.generation && d.phase == Playing && Current(d).Some? {
        ExpiryIsStrict(rules, fired, generation, Current(d).value);
      }
    case Resume(k) =>
      if k < |d.flying| {
        LandIsCalm(rules, Landing(d, k), d.flying[k]);
        CalmStaysStrict(Landing(d, k), Next(rules, d, s));
      }
    case Close => CalmStaysStrict(d, Next(rules, d, s));
  }

  lemma {:induction false} RunIsStrict<G, A>(rules: Rules<G, A>, d: Desk<G, A>, steps: seq<Step<A>>)
    requires Strict(d)
    ensures Strict(Run(rules, d, steps))
    decreases |steps|
  {
    if steps != [] {
      NextIsStrict(rules, d, steps[0]);
      RunIsStrict(rules, Next(rules, d, steps[0]), steps[1..]);
    }
  }

  /** In any run, the third turn in a row that a player lets run out has the clock settle on their seat there and then. */
  lemma ThirdMissIsTheLast<G, A>(players: seq<Id>, clocked: bool, extra: G, rules: Rules<G, A>, steps: seq<Step<A>>,
                                 k: nat)
    requires Distinct(players)
    requires var log := Run(rules, NewDesk(players, clocked, extra), steps).log;
             k < |log| && log[k].Expired? && Misses(log[..k + 1], log[k].id) >= MAX_MISSED_TURNS
    ensures var log := Run(rules, NewDesk(players, clocked, extra), steps).log;
            k + 1 < |log| && log[k + 1].Doomed? && log[k + 1].id == log[k].id
  {
    RunIsStrict(rules, NewDesk(players, clocked, extra), steps);
  }

  lemma SettlingKeepsSeats<G, A>(rules: Rules<G, A>, d: Desk<G, A>)
    ensures Settle(rules, d).table.players == d.table.players
  {
  }

  /** Rules whose leave hooks never panic. */
  ghost predicate LeavesCalmly<G(!new), A>(rules: Rules<G, A>) {
    rules.leave.Some? ==>
      && (forall t, id :: !rules.leave.value.before(t, id).Panicked?)
      && forall t, seat :: !rules.leave.value.afterwards(t, seat).Panicked?
  }

  lemma RemovedIsGone<G(!new), A>(rules: Rules<G, A>, d: Desk<G, A>, id: Id)
    requires Distinct(d.table.players) && d.phase != Finished && LeavesCalmly(rules)
    ensures id !in RemoveLocked(rules, d, id).d.table.players
  {
    var seat := IndexOf(d.table.players, id);
    if seat < |d.table.players| {
      DropKeepsDistinct(d.table.players, seat);
      var told := if rules.leave.Some? then After(d, rules.leave.value.before(d.table, id)) else d;
      var gone := Unseat(told, seat);
      var resolved := if rules.leave.Some? then After(gone, rules.leave.value.afterwards(gone.table, seat)) else gone;
      SettlingKeepsSeats(rules, Log(resolved, Gone(id)));
    }
  }

  /** Once the clock has settled on a seat and nothing has moved the turn on, the seat is taken. */
  lemma DoomedSeatIsTaken<G(!new), A>(rules: Rules<G, A>, d: Desk<G, A>, id: Id)
    requires Distinct(d.table.players) && d.phase != Finished && LeavesCalmly(rules)
    ensures var n := Land(rules, d, Take(d.generation, id));
            id !in n.table.players && |d.log| < |n.log| && n.log[|d.log|] == Idle(id, d.generation)
  {
    var idle := Log(d, Idle(id, d.generation));
    RemovedIsGone(rules, idle, id);
    RemoveIsCalm(rules, idle, id);
    assert idle.log[|d.log|] == Idle(id, d.generation);
  }
}
