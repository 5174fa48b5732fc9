/** How many steps a poker match can take. */
module PokerLength {
  import opened Cards
  import opened Sums
  import opened PokerMoney
  import opened PokerRules
  import opened PokerInvariant
  import opened PokerRun

  /** Streets still to be played if every seat left in turn and every hand went to the river. */
  function StreetsToCome(r: Rank): int {
    (r.seats * 10 + r.hands) * 5 + r.streets
  }

  /** The rank as one number, for a table of so many chips. */
  function StepsLeft(r: Rank, chips: nat): int {
    (StreetsToCome(r) * (chips + 1) + r.behind) * 10 + r.owing
  }

  predicate Bounded(r: Rank, chips: nat) {
    r.seats <= MAX_PLAYERS && 0 <= r.hands <= 9 && r.streets <= 4 && r.behind <= chips && r.owing <= MAX_PLAYERS
  }

  lemma LessTimes(a: int, b: int, k: nat)
    requires a < b
    ensures a * k + k <= b * k
  {
    assert (b - a - 1) * k >= 0;
  }

  lemma LowerIsFewer(a: Rank, b: Rank, chips: nat)
    requires Bounded(a, chips) && Bounded(b, chips) && Lower(a, b)
    ensures StepsLeft(a, chips) < StepsLeft(b, chips)
  {
    if StreetsToCome(a) < StreetsToCome(b) {
      LessTimes(StreetsToCome(a), StreetsToCome(b), chips + 1);
    }
  }

  lemma StepsLeftAtMost(r: Rank, chips: nat)
    requires Bounded(r, chips)
    ensures 0 <= StepsLeft(r, chips) < 5000 * (chips + 1)
  {
    assert 0 <= StreetsToCome(r) < 500;
    LessTimes(StreetsToCome(r), 500, chips + 1);
    assert StreetsToCome(r) * (chips + 1) >= 0;
  }

  lemma {:induction false} SeatChipsFit(ids: seq<Id>, chips: map<Id, nat>)
    requires Distinct(ids)
    ensures SeatChips(ids, chips) <= Total(chips)
  {
    if ids != [] {
      var rest := chips - {ids[0]};
      assert ids == [ids[0]] + ids[1..];
      SeatChipsFit(ids[1..], rest);
      WithoutStranger(ids[1..], chips, ids[0]);
      if ids[0] in chips {
        TotalSplit(chips, ids[0]);
      } else {
        assert rest == chips;
      }
    }
  }

  lemma {:induction false} WithoutStranger(ids: seq<Id>, chips: map<Id, nat>, id: Id)
    requires id !in ids
    ensures SeatChips(ids, chips - {id}) == SeatChips(ids, chips)
  {
    if ids != [] {
      WithoutStranger(ids[1..], chips, id);
    }
  }

  lemma {:induction false} SeatsFit(seats: set<nat>, n: nat)
    requires forall i | i in seats :: i < n
    ensures |seats| <= n
  {
    if n > 0 {
      SeatsFit(seats - {n - 1}, n - 1);
      SubsetSize(seats, (seats - {n - 1}) + {n - 1});
    } else {
      assert seats == {};
    }
  }

  lemma RankIsBounded(t: Table)
    requires Valid(t)
    ensures Bounded(RankOf(t), t.startChips)
  {
    SplitDistinct(t.players, t.left);
    SeatChipsFit(t.players, t.money.chips);
    SeatsFit(OwingSeats(t), |t.players|);
  }

  /** Whether the event does anything: somebody seated leaves, or the rules take the action. */
  ghost predicate Counts(t: Table, e: Event)
    requires Valid(t)
  {
    e.Act? ==> ValidateAction(t, e.a)
  }

  /** How many of the events did something. */
  ghost function Taken(g: Game, events: seq<Event>): nat
    requires g.Playing? ==> Valid(g.t)
    decreases |events|
  {
    if events == [] || !g.Playing? || !Possible(g.t, events[0]) then 0
    else
      StepIsSound(g.t, events[0]);
      (if Counts(g.t, events[0]) then 1 else 0) + Taken(Step(g.t, events[0]), events[1..])
  }

  lemma {:induction false} TakenFits(g: Game, events: seq<Event>, chips: nat)
    requires Sound(g, chips)
    ensures Taken(g, events) <= if g.Playing? then StepsLeft(RankOf(g.t), chips) + 1 else 0
    decreases |events|
  {
    if g.Playing? {
      RankIsBounded(g.t);
      StepsLeftAtMost(RankOf(g.t), chips);
      if events != [] && Possible(g.t, events[0]) {
        TakenStep(g.t, events[0], chips);
        TakenFits(Step(g.t, events[0]), events[1..], chips);
      }
    }
  }

  lemma TakenStep(t: Table, e: Event, chips: nat)
    requires Valid(t) && t.startChips == chips && Possible(t, e)
    ensures Sound(Step(t, e), chips)
    ensures var next := Step(t, e);
            && (next.Playing? && Counts(t, e) ==> StepsLeft(RankOf(next.t), chips) < StepsLeft(RankOf(t), chips))
            && (!Counts(t, e) ==> next == Playing(t))
  {
    StepIsSound(t, e);
    RankIsBounded(t);
    var next := Step(t, e);
    if Counts(t, e) {
      StepDescends(t, e);
      if next.Playing? {
        RankIsBounded(next.t);
        LowerIsFewer(RankOf(next.t), RankOf(t), chips);
      }
    }
  }

  /** However it goes, a match takes a bounded number of steps: no more than 5000 for every chip on the table and one. */
  lemma MatchRunsOut(players: seq<Id>, button: nat, shuffled: seq<Card>, events: seq<Event>)
    requires Distinct(players) && 2 <= |players| <= MAX_PLAYERS && button < |players| && |shuffled| == 52
    ensures Start(players, button, shuffled).Playing? && Valid(Start(players, button, shuffled).t)
    ensures Taken(Start(players, button, shuffled), events) <= 5000 * (Total(Stakes(players)) + 1)
  {
    var total := Total(Stakes(players));
    StartIsSound(players, button, shuffled);
    var g := Start(players, button, shuffled);
    TakenFits(g, events, total);
    RankIsBounded(g.t);
    StepsLeftAtMost(RankOf(g.t), total);
  }
}
