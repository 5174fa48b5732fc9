/** Gin Rummy for two seats: draws, discards, knocks and the wall, as functions from table to table. */
module GinRules {
  import opened Cards
  import opened Options
  import opened GinMelds
  import opened GinMeldMasks
  import opened GinMeldSearch

  const KNOCK_THRESHOLD := 10
  const GIN_BONUS := 25
  const UNDERCUT_BONUS := 25
  const TARGET_SCORE := 100
  const WALL_STOCK_SIZE := 2
  const DEAL_COUNT := 10
  const MAX_HAND_TURNS := 100
  const MAX_HANDS := 50
  const SEATS := 2

  datatype Phase = AwaitingDraw | AwaitingDiscard | HandOver

  datatype Action = DrawStock | DrawDiscard | Discard(card: Card) | Knock(discard: Card) | NextHand

  /** Who a knock credits, and with how much. */
  datatype Outcome = Outcome(winner: nat, delta: nat)

  datatype Table = Table(
    turn: nat, next: Option<nat>, hands: seq<seq<Card>>, stock: seq<Card>, discard: seq<Card>, phase: Phase,
    takenUpcard: Option<Card>, firstActor: nat, handNumber: nat, turnsThisHand: nat, totals: seq<nat>,
    handComplete: bool, matchComplete: bool)

  ghost predicate Shaped(t: Table) {
    |t.hands| == |t.totals| == SEATS && t.turn < SEATS && t.firstActor < SEATS
  }

  predicate AnyScoreAtLeast(totals: seq<nat>, target: nat) {
    exists i :: 0 <= i < |totals| && totals[i] >= target
  }

  predicate MatchOver(t: Table) {
    AnyScoreAtLeast(t.totals, TARGET_SCORE) || t.handNumber >= MAX_HANDS
  }

  /** Ten cards each, one turned up, the rest the stock. */
  function BeginHand(t: Table, shuffled: seq<Card>): Table
    requires Shaped(t) && |shuffled| == 52
  {
    var first, second, rest := Drawn(shuffled, DEAL_COUNT), Drawn(shuffled[..42], DEAL_COUNT), shuffled[..32];
    t.(handNumber := t.handNumber + 1, handComplete := false, phase := AwaitingDraw, takenUpcard := None,
       turnsThisHand := 0, hands := [first, second], stock := rest[..31], discard := [rest[31]],
       turn := t.firstActor, next := Some(t.firstActor))
  }

  /** The other seat opens the next hand, unless the match is over. */
  function CloseHand(t: Table): Table
    requires Shaped(t)
  {
    var over := t.(handComplete := true, phase := HandOver);
    if MatchOver(over) then over.(matchComplete := true, next := None)
    else
      var opener := 1 - t.firstActor;
      over.(firstActor := opener, turn := opener, next := Some(opener))
  }

  predicate NotTakenUpcard(t: Table, card: Card) {
    t.takenUpcard != Some(card)
  }

  /** Some arrangement of the hand leaves little enough deadwood to knock on. */
  ghost predicate CanKnockWith(hand: seq<Card>) {
    exists family :: MeldFamily(hand, family) && SumDeadwood(Left(hand, Union(family))) <= KNOCK_THRESHOLD
  }

  ghost predicate Validate(t: Table, a: Action)
    requires Shaped(t)
  {
    var hand := t.hands[t.turn];
    if a.NextHand? then t.handComplete && !t.matchComplete
    else
      && !t.handComplete
      && match a
         case DrawStock => t.phase == AwaitingDraw && |t.stock| > WALL_STOCK_SIZE
         case DrawDiscard => t.phase == AwaitingDraw && t.discard != []
         case Discard(card) => t.phase == AwaitingDiscard && card in hand && NotTakenUpcard(t, card)
         case Knock(card) =>
           && t.phase == AwaitingDiscard && card in hand && NotTakenUpcard(t, card)
           && CanKnockWith(RemoveOne(hand, card))
  }

  /** A card off the top of a pile into the hand on turn, which then has to discard. */
  function TakeCard(t: Table, card: Card, upcard: Option<Card>): Table
    requires Shaped(t)
  {
    t.(hands := t.hands[t.turn := t.hands[t.turn] + [card]], takenUpcard := upcard, phase := AwaitingDiscard,
       next := Some(t.turn))
  }

  /** What an action does; outcome is what a knock scores. */
  function Apply(t: Table, a: Action, outcome: Outcome): Table
    requires Shaped(t)
  {
    var seat := t.turn;
    match a
    case DrawStock =>
      if t.stock == [] then t.(next := Some(seat))
      else TakeCard(t.(stock := t.stock[..|t.stock| - 1]), t.stock[|t.stock| - 1], None)
    case DrawDiscard =>
      if t.discard == [] then t.(next := Some(seat))
      else TakeCard(t.(discard := t.discard[..|t.discard| - 1]), t.discard[|t.discard| - 1],
                    Some(t.discard[|t.discard| - 1]))
    case Discard(card) =>
      t.(hands := t.hands[seat := RemoveOne(t.hands[seat], card)], discard := t.discard + [card], takenUpcard := None,
         turnsThisHand := t.turnsThisHand + 1, phase := AwaitingDraw)
    case Knock(card) =>
      var scored := if outcome.winner < SEATS
                    then t.totals[outcome.winner := t.totals[outcome.winner] + outcome.delta] else t.totals;
      CloseHand(t.(hands := t.hands[seat := RemoveOne(t.hands[seat], card)], discard := [], takenUpcard := None,
                   totals := scored))
    case NextHand => t
  }

  predicate HitTheWall(t: Table) {
    |t.stock| <= WALL_STOCK_SIZE || t.turnsThisHand >= MAX_HAND_TURNS
  }

  /** A draw that brought no card is an error. */
  datatype After = Fine(t: Table) | Failed(t: Table)

  function AfterAction(t: Table, a: Action, shuffled: seq<Card>): After
    requires Shaped(t) && |shuffled| == 52
  {
    match a
    case NextHand => Fine(BeginHand(t, shuffled))
    case DrawStock => if t.phase != AwaitingDiscard then Failed(t) else Fine(t)
    case DrawDiscard => if t.phase != AwaitingDiscard then Failed(t) else Fine(t)
    case Discard(_) => Fine(if HitTheWall(t) then CloseHand(t) else t)
    case Knock(_) => Fine(t)
  }

  function NextTurn(t: Table): Table {
    t.(turn := (if t.next.Some? then t.next.value else t.turn + 1) % SEATS, next := None)
  }

  datatype Game = Playing(t: Table) | Finished(t: Table)

  ghost function Submit(t: Table, a: Action, outcome: Outcome, shuffled: seq<Card>): Game
    requires Shaped(t) && |shuffled| == 52
  {
    if !Validate(t, a) then Playing(t)
    else
      match AfterAction(Apply(t, a, outcome), a, shuffled)
      case Failed(s) => Finished(s)
      case Fine(s) => if s.matchComplete then Finished(s) else Playing(NextTurn(s))
  }

  function Start(first: nat, shuffled: seq<Card>): Game
    requires first < SEATS && |shuffled| == 52
  {
    var blank := Table(first, None, [[], []], [], [], AwaitingDraw, None, first, 0, 0, [0, 0], false, false);
    Playing(NextTurn(BeginHand(blank, shuffled)))
  }
}
