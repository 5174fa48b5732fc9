/** Whom the engine names winner, and why, for any rules and any interleaving. */
module EngineWinner {
  import opened Cards
  import opened Options
  import opened Sums
  import opened EngineRules
  import opened EngineSafety
  import opened EngineClock

  /** The winner fits the reason the game ended for: the rules' first, the last one seated, or nobody. */
  ghost predicate Fits<G, A>(rules: Rules<G, A>, t: Table<G>, winner: Option<Id>, reason: EndReason) {
    match reason
    case Abandoned => t.players == [] && winner == None
    case Forfeit => |t.players| == 1 && winner == Some(t.players[0])
    case _ => rules.standings(t) != [] ==> winner == Some(rules.standings(t)[0])
  }

  /** A game that is over has announced its winner, and rightly. */
  ghost predicate Crowned<G, A>(rules: Rules<G, A>, d: Desk<G, A>) {
    d.phase == Finished ==>
      exists reason :: Ended(d.winner, reason) in d.log && Fits(rules, d.table, d.winner, reason)
  }

  lemma EndCrowns<G, A>(rules: Rules<G, A>, d: Desk<G, A>, winner: Option<Id>, reason: EndReason)
    requires Fits(rules, d.table, winner, reason)
    ensures Crowned(rules, End(d, winner, reason))
  {
    var n := End(d, winner, reason);
    assert n.log[|d.log|] == Ended(winner, reason);
  }

  lemma FinishCrowns<G, A>(rules: Rules<G, A>, d: Desk<G, A>, fallback: Option<Id>, reason: EndReason)
    requires reason == Win || reason == RulesError
    ensures Crowned(rules, Finish(rules, d, fallback, reason))
  {
    EndCrowns(rules, d, WinnerOf(rules, d, fallback), reason);
  }

  /** Whatever leaves the table and the winner alone leaves the announcement standing. */
  lemma StaysCrowned<G, A>(rules: Rules<G, A>, d: Desk<G, A>, n: Desk<G, A>)
    requires Crowned(rules, d) && d.log <= n.log
    requires n.phase == Finished ==> d.phase == Finished && n.table == d.table && n.winner == d.winner
    ensures Crowned(rules, n)
  {
    if n.phase == Finished {
      var reason :| Ended(d.winner, reason) in d.log && Fits(rules, d.table, d.winner, reason);
      assert Ended(n.winner, reason) in n.log;
    }
  }

  lemma TellCrowns<G, A>(rules: Rules<G, A>, d: Desk<G, A>, id: Id)
    requires d.phase == Playing
    ensures Crowned(rules, Tell(rules, d, id))
  {
    var told := Log(d, Announced(id));
    if rules.won(told.table) {
      FinishCrowns(rules, told, Some(id), Win);
    }
  }

  lemma SubmitCrowns<G, A>(rules: Rules<G, A>, d: Desk<G, A>, id: Id, a: A, present: bool)
    requires Crowned(rules, d)
    ensures Crowned(rules, SubmitLocked(rules, d, id, a, present).d)
  {
    if d.phase == Playing {
      var tried := Log(Hear(d, id, present), Applied(id, d.generation));
      var applied := After(tried, rules.apply(tried.table, a));
      FinishCrowns(rules, applied, Some(id), RulesError);
      var settled := After(applied, rules.after(applied.table, a));
      FinishCrowns(rules, settled, Some(id), RulesError);
      TellCrowns(rules, settled, id);
    }
  }

  lemma SettleCrowns<G, A>(rules: Rules<G, A>, d: Desk<G, A>)
    requires d.phase == Playing
    ensures Crowned(rules, Settle(rules, d))
  {
    if d.table.players == [] {
      EndCrowns(rules, d, None, Abandoned);
    } else if rules.won(d.table) {
      FinishCrowns(rules, d, None, Win);
    } else if |d.table.players| == 1 && d.table.next.None? {
      EndCrowns(rules, d, Some(d.table.players[0]), Forfeit);
    }
  }

  lemma RemoveCrowns<G, A>(rules: Rules<G, A>, d: Desk<G, A>, id: Id)
    requires Crowned(rules, d)
    ensures Crowned(rules, RemoveLocked(rules, d, id).d)
  {
    var seat := IndexOf(d.table.players, id);
    if d.phase == Playing && seat < |d.table.players| {
      var told := if rules.leave.Some? then After(d, rules.leave.value.before(d.table, id)) else d;
      var gone := Unseat(told, seat);
      var resolved := if rules.leave.Some? then After(gone, rules.leave.value.afterwards(gone.table, seat)) else gone;
      SettleCrowns(rules, Log(resolved, Gone(id)));
    }
  }

  lemma LandCrowns<G, A>(rules: Rules<G, A>, d: Desk<G, A>, c: Callback<A>)
    requires Crowned(rules, d)
    ensures Crowned(rules, Land(rules, d, c))
  {
    match c
    case Take(generation, id) =>
      var idle := Log(d, Idle(id, generation));
      StaysCrowned(rules, d, idle);
      RemoveCrowns(rules, idle, id);
      var r := RemoveLocked(rules, idle, id).d;
      StaysCrowned(rules, r, Fly(r, Recover));
    case Play(_, id, a) =>
      SubmitCrowns(rules, d, id, a, false);
      var r := SubmitLocked(rules, d, id, a, false).d;
      StaysCrowned(rules, r, Fly(r, Recover));
      StaysCrowned(rules, r, Fly(r, Rearm));
    case Rearm => StaysCrowned(rules, d, ArmTimer(rules, d));
    case Recover => FinishCrowns(rules, d, None, RulesError);
  }

  lemma NextCrowns<G, A>(rules: Rules<G, A>, d: Desk<G, A>, s: Step<A>)
    requires Crowned(rules, d)
    ensures Crowned(rules, Next(rules, d, s))
  {
    match s
    case Open(_) =>
      NextOnlyLogs(rules, d, s);
      StaysCrowned(rules, d, Next(rules, d, s));
    case Submit(id, a) => SubmitCrowns(rules, d, id, a, true);
    case Leave(id) =>
      RemoveCrowns(rules, d, id);
      var r := RemoveLocked(rules, d, id).d;
      StaysCrowned(rules, r, Log(r, LeaveCrashed(id)));
    case Fire(_) =>
      NextOnlyLogs(rules, d, s);
      StaysCrowned(rules, d, Next(rules, d, s));
    case Resume(k) =>
      if k < |d.flying| {
        StaysCrowned(rules, d, Landing(d, k));
        LandCrowns(rules, Landing(d, k), d.flying[k]);
      }
    case Close => StaysCrowned(rules, d, Next(rules, d, s));
  }

  lemma {:induction false} RunCrowns<G, A>(rules: Rules<G, A>, d: Desk<G, A>, steps: seq<Step<A>>)
    requires Crowned(rules, d)
    ensures Crowned(rules, Run(rules, d, steps))
    decreases |steps|
  {
    if steps != [] {
      NextCrowns(rules, d, steps[0]);
      RunCrowns(rules, Next(rules, d, steps[0]), steps[1..]);
    }
  }

  /**
   However a game ends, the winner announced is the one on record: the first of the rules' standings, the last
   player left by forfeit, or nobody at a table everybody walked away from.
   */
  lemma WinnerIsRight<G, A>(players: seq<Id>, clocked: bool, extra: G, rules: Rules<G, A>, steps: seq<Step<A>>)
    ensures var d := Run(rules, NewDesk(players, clocked, extra), steps);
            d.phase == Finished ==>
              exists reason :: Ended(d.winner, reason) in d.log && Fits(rules, d.table, d.winner, reason)
  {
    RunCrowns(rules, NewDesk(players, clocked, extra), steps);
  }
}
