/** How many actions a hearts match can take. */
module HeartsLength {
  import opened Cards
  import opened HeartsRules
  import opened HeartsInvariant
  import opened HeartsRun

  const ACTIONS_PER_HAND := 57

  /** Four passes, fifty-two cards and the next deal for every hand still to come, and the same for this one. */
  function ActionsLeft(r: Rank): int {
    r.hands * ACTIONS_PER_HAND + if r.stage == 2 then 53 + r.left else if r.stage == 1 then 1 + r.left else 1
  }

  predicate Bounded(r: Rank) {
    && 0 <= r.hands && r.stage <= 2
    && (r.stage == 2 ==> 1 <= r.left <= 4)
    && (r.stage == 1 ==> 1 <= r.left <= 52)
    && (r.stage == 0 ==> r.left == 0)
  }

  lemma LowerIsFewer(a: Rank, b: Rank)
    requires Bounded(a) && Bounded(b) && Lower(a, b)
    ensures ActionsLeft(a) < ActionsLeft(b)
  {
    if a.hands < b.hands {
      assert a.hands * ACTIONS_PER_HAND + ACTIONS_PER_HAND <= b.hands * ACTIONS_PER_HAND;
    }
  }

  /** The seat on turn has yet to pass, or holds a card to play, and nobody holds more than thirteen. */
  lemma RankIsBounded(t: Table)
    requires Valid(t)
    ensures Bounded(RankOf(t))
  {
    AtMostSixteenHands(t);
    if t.stage == Passing {
      PassedFits(t.passed + {t.turn});
    } else if t.stage == TrickPlay {
      TurnHoldsCards(t);
      HandsAreSmall(t);
    }
  }

  lemma HandsAreSmall(t: Table)
    requires Shaped(t) && PlayingWell(t) && t.hands[t.turn] != []
    ensures 1 <= CardsLeft(t.hands) <= 52
  {
    assert forall s | 0 <= s < PLAYER_COUNT :: |t.hands[s]| <= CARDS_PER_HAND;
  }

  /** How many of the events were actions the rules took. */
  ghost function Taken(g: Game, events: seq<Event>): nat
    requires g.Playing? ==> Valid(g.t) && g.t.handNumber <= 16
    decreases |events|
  {
    if events == [] || !g.Playing? || !Possible(events[0]) then 0
    else
      StepIsSound(g.t, events[0]);
      (if events[0].Act? && Validate(g.t, events[0].a) then 1 else 0) + Taken(Step(g.t, events[0]), events[1..])
  }

  lemma {:induction false} TakenFits(g: Game, events: seq<Event>)
    requires Sound(g)
    ensures Taken(g, events) <= if g.Playing? then ActionsLeft(RankOf(g.t)) else 0
    decreases |events|
  {
    if g.Playing? {
      RankIsBounded(g.t);
      if events != [] && Possible(events[0]) {
        var next := Step(g.t, events[0]);
        StepIsSound(g.t, events[0]);
        TakenFits(next, events[1..]);
        if next.Playing? {
          RankIsBounded(next.t);
          if Validate(g.t, events[0].a) {
            LowerIsFewer(RankOf(next.t), RankOf(g.t));
          }
        }
      }
    }
  }

  /** However it goes, a match is over within sixteen hands of four passes, fifty-two cards and a deal. */
  lemma MatchRunsOut(first: nat, shuffled: seq<Card>, events: seq<Event>)
    requires first < PLAYER_COUNT && FullDeck(shuffled)
    ensures Sound(Start(first, shuffled))
    ensures Taken(Start(first, shuffled), events) <= 16 * ACTIONS_PER_HAND
  {
    StartIsSound(first, shuffled);
    var g := Start(first, shuffled);
    TakenFits(g, events);
    RankIsBounded(g.t);
    RankCountsHands(g.t);
  }
}
