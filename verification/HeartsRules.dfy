/** Hearts for four seats: passing, tricks and scores, as functions from table to table. */
module HeartsRules {
  import opened Cards
  import opened Options

  const PLAYER_COUNT := 4
  const CARDS_PER_HAND := 13
  const CARDS_TO_PASS := 3
  const PENALTY_POINTS_TOTAL := 26
  const TARGET_SCORE := 100
  const TWO_OF_CLUBS := Card(2, CLUBS)
  const QUEEN_OF_SPADES := Card(QUEEN, SPADES)

  datatype Stage = Passing | TrickPlay | HandOver

  datatype Direction = PassLeft | PassRight | PassAcross | PassNone

  datatype Action = PassCards(cards: seq<Card>) | PlayCard(card: Card) | NextHand

  /**
   Seats stand for the players, who never change while a match runs: anybody leaving ends it. taken, the
   cards swept off the table, is not in the source, which forgets them.
   */
  datatype Table = Table(
    turn: nat, next: Option<nat>, hands: seq<seq<Card>>, stage: Stage, direction: Direction,
    pending: seq<seq<Card>>, passed: set<nat>, led: nat, trick: map<nat, Card>, trickComplete: bool, leader: nat,
    broken: bool, tricksPlayed: nat, points: seq<nat>, totals: seq<nat>, handNumber: nat, dealer: nat,
    handComplete: bool, matchComplete: bool, lastWinner: Option<nat>, taken: seq<Card>)

  ghost predicate Shaped(t: Table) {
    && |t.hands| == |t.pending| == |t.points| == |t.totals| == PLAYER_COUNT
    && t.turn < PLAYER_COUNT && t.leader < PLAYER_COUNT && t.dealer < PLAYER_COUNT
  }

  // ---- Cards ----

  predicate HandHasSuit(hand: seq<Card>, suit: nat) {
    exists c :: c in hand && c.suit == suit
  }

  predicate OnlyHearts(hand: seq<Card>) {
    hand != [] && forall c | c in hand :: c.suit == HEARTS
  }

  predicate IsPenalty(c: Card) {
    c.suit == HEARTS || c == QUEEN_OF_SPADES
  }

  predicate HasNonPenalty(hand: seq<Card>) {
    exists c :: c in hand && !IsPenalty(c)
  }

  function PointsOf(c: Card): nat {
    if c.suit == HEARTS then 1 else if c == QUEEN_OF_SPADES then 13 else 0
  }

  function Penalty(cards: seq<Card>): nat {
    if cards == [] then 0 else PointsOf(cards[0]) + Penalty(cards[1..])
  }

  /** The seat's card in the trick, if it has played one. */
  function Played(trick: map<nat, Card>, seat: nat): seq<Card> {
    if seat in trick then [trick[seat]] else []
  }

  /** What the first n seats have played. */
  function TrickUpTo(trick: map<nat, Card>, n: nat): seq<Card> {
    if n == 0 then [] else TrickUpTo(trick, n - 1) + Played(trick, n - 1)
  }

  function TrickCards(trick: map<nat, Card>): seq<Card> {
    TrickUpTo(trick, PLAYER_COUNT)
  }

  // ---- Dealing ----

  /** The seat holding the two of clubs, or seat 0. */
  function FindTwoOfClubs(hands: seq<seq<Card>>, i: nat := 0): (seat: nat)
    requires i <= |hands|
    ensures hands != [] ==> seat < |hands|
    decreases |hands| - i
  {
    if i == |hands| then 0 else if TWO_OF_CLUBS in hands[i] then i else FindTwoOfClubs(hands, i + 1)
  }

  /** Thirteen cards off the top of the deck for each of n seats, and what is left. */
  function DealHands(deck: seq<Card>, n: nat): (dealt: (seq<seq<Card>>, seq<Card>))
    requires n * CARDS_PER_HAND <= |deck|
    ensures |dealt.0| == n && |dealt.1| == |deck| - n * CARDS_PER_HAND
  {
    if n == 0 then ([], deck)
    else
      var before := DealHands(deck, n - 1);
      var rest := before.1;
      (before.0 + [Drawn(rest, CARDS_PER_HAND)], rest[..|rest| - CARDS_PER_HAND])
  }

  function DirectionOf(hand: nat): Direction
    requires hand > 0
  {
    match (hand - 1) % 4
    case 0 => PassLeft
    case 1 => PassRight
    case 2 => PassAcross
    case _ => PassNone
  }

  const NOTHING_EACH: seq<seq<Card>> := [[], [], [], []]

  function ResetHand(t: Table): Table {
    t.(stage := Passing, direction := PassLeft, pending := NOTHING_EACH, passed := {}, led := NO_SUIT, trick := map[],
       trickComplete := false, leader := 0, broken := false, tricksPlayed := 0, points := [0, 0, 0, 0],
       handComplete := false, lastWinner := None, taken := [])
  }

  function DealHand(t: Table, dealer: nat, shuffled: seq<Card>): Table
    requires |shuffled| == 52
  {
    ResetHand(t).(handNumber := t.handNumber + 1, dealer := dealer, hands := DealHands(shuffled, 4).0,
                  direction := DirectionOf(t.handNumber + 1))
  }

  /** Passing starts with the dealer; a hand without passing starts with the two of clubs. */
  function OpenHand(t: Table): Table {
    var first := if t.direction == PassNone then FindTwoOfClubs(t.hands) else t.dealer;
    t.(stage := if t.direction == PassNone then TrickPlay else Passing, turn := first, next := Some(first))
  }

  function BeginHand(t: Table, dealer: nat, shuffled: seq<Card>): Table
    requires |shuffled| == 52
  {
    OpenHand(DealHand(t, dealer, shuffled))
  }

  // ---- Passing ----

  function PassRecipient(from: nat, direction: Direction): nat
    requires from < PLAYER_COUNT
  {
    match direction
    case PassLeft => (from + 1) % PLAYER_COUNT
    case PassRight => (from + PLAYER_COUNT - 1) % PLAYER_COUNT
    case PassAcross => (from + 2) % PLAYER_COUNT
    case PassNone => from
  }

  /** Hands once the first n seats' cards have been delivered. */
  function Deliver(hands: seq<seq<Card>>, pending: seq<seq<Card>>, direction: Direction, n: nat): (r: seq<seq<Card>>)
    requires |hands| == |pending| == PLAYER_COUNT && n <= PLAYER_COUNT
    ensures |r| == PLAYER_COUNT
  {
    if n == 0 then hands
    else
      var before := Deliver(hands, pending, direction, n - 1);
      var to := PassRecipient(n - 1, direction);
      before[to := before[to] + pending[n - 1]]
  }

  /** The next seat round that has not passed; from itself when all have. */
  function NextUnpassedSeat(passed: set<nat>, from: nat, step: nat := 1): nat
    decreases PLAYER_COUNT + 1 - step
  {
    if step > PLAYER_COUNT then from
    else if (from + step) % PLAYER_COUNT !in passed then (from + step) % PLAYER_COUNT
    else NextUnpassedSeat(passed, from, step + 1)
  }

  function AfterPass(t: Table): Table
    requires Shaped(t)
  {
    if |t.passed| < PLAYER_COUNT then t.(next := Some(NextUnpassedSeat(t.passed, t.turn)))
    else
      var hands := Deliver(t.hands, t.pending, t.direction, PLAYER_COUNT);
      var first := FindTwoOfClubs(hands);
      t.(hands := hands, stage := TrickPlay, pending := NOTHING_EACH, passed := {}, turn := first, next := Some(first))
  }

  // ---- Tricks ----

  predicate LeadingTrick(t: Table) {
    t.trickComplete || t.trick == map[]
  }

  predicate ValidPlay(t: Table, hand: seq<Card>, card: Card) {
    var leading, firstTrick := LeadingTrick(t), t.tricksPlayed == 0;
    && card in hand
    && !(leading && firstTrick && card != TWO_OF_CLUBS)
    && !(leading && card.suit == HEARTS && !t.broken && !OnlyHearts(hand))
    && !(!leading && card.suit != t.led && HandHasSuit(hand, t.led))
    && !(firstTrick && IsPenalty(card) && HasNonPenalty(hand))
  }

  predicate ValidPass(t: Table, cards: seq<Card>)
    requires Shaped(t)
  {
    && |cards| == CARDS_TO_PASS
    && t.turn !in t.passed
    && (forall i, j | 0 <= i < j < |cards| :: cards[i] != cards[j])
    && forall c | c in cards :: c in t.hands[t.turn]
  }

  predicate Validate(t: Table, a: Action)
    requires Shaped(t)
  {
    match a
    case NextHand => t.stage == HandOver && !t.matchComplete
    case PassCards(cards) => t.stage == Passing && ValidPass(t, cards)
    case PlayCard(card) => t.stage == TrickPlay && ValidPlay(t, t.hands[t.turn], card)
  }

  /** Sweeps a won trick off the table, just before the next card is led. */
  function StartTrick(t: Table): (r: Table)
    ensures r == t.(trick := r.trick, led := r.led, trickComplete := false, taken := r.taken)
  {
    if t.trickComplete then
      t.(taken := t.taken + TrickCards(t.trick), trick := map[], led := NO_SUIT, trickComplete := false)
    else t
  }

  function Apply(t: Table, a: Action): Table
    requires Shaped(t)
  {
    var seat := t.turn;
    match a
    case PassCards(cards) =>
      t.(hands := t.hands[seat := RemoveEach(t.hands[seat], cards)], pending := t.pending[seat := cards],
         passed := t.passed + {seat})
    case PlayCard(card) =>
      var s := StartTrick(t);
      s.(hands := s.hands[seat := RemoveOne(s.hands[seat], card)],
         led := if s.trick == map[] then card.suit else s.led,
         leader := if s.trick == map[] then seat else s.leader,
         trick := s.trick[seat := card],
         broken := s.broken || card.suit == HEARTS)
    case NextHand => t
  }

  /** The best value and its seat among the first n seats that followed the led suit. */
  function BestOfTrick(trick: map<nat, Card>, led: nat, leader: nat, n: nat): (best: (int, nat)) {
    if n == 0 then (-1, leader)
    else
      var before := BestOfTrick(trick, led, leader, n - 1);
      if n - 1 in trick && trick[n - 1].suit == led && RankValue(trick[n - 1].rank) > before.0
      then (RankValue(trick[n - 1].rank), n - 1)
      else before
  }

  function TrickWinner(t: Table): nat {
    BestOfTrick(t.trick, t.led, t.leader, PLAYER_COUNT).1
  }

  /** The first seat that took every penalty point. */
  function Shooter(points: seq<nat>, i: nat := 0): Option<nat>
    requires i <= |points|
    decreases |points| - i
  {
    if i == |points| then None
    else if points[i] == PENALTY_POINTS_TOTAL then Some(i)
    else Shooter(points, i + 1)
  }

  function ScoreHand(points: seq<nat>, totals: seq<nat>): (r: seq<nat>)
    requires |points| == |totals|
    ensures |r| == |totals|
  {
    var shooter := Shooter(points);
    seq(|totals|, i requires 0 <= i < |totals| =>
      totals[i] + (if shooter.None? then points[i] else if shooter.value == i then 0 else PENALTY_POINTS_TOTAL))
  }

  predicate AnyAtLeast(totals: seq<nat>, target: nat) {
    exists i :: 0 <= i < |totals| && totals[i] >= target
  }

  /** The last trick of a hand settles the scores, and perhaps the match. */
  function EndHand(t: Table): Table
    requires Shaped(t)
  {
    var totals := ScoreHand(t.points, t.totals);
    var over := t.(totals := totals, stage := HandOver, handComplete := true);
    if AnyAtLeast(totals, TARGET_SCORE) then over.(matchComplete := true, next := None)
    else
      var dealer := (t.dealer + 1) % PLAYER_COUNT;
      over.(turn := dealer, next := Some(dealer))
  }

  /** A full trick goes to its winner, who leads the next one. */
  function EndTrick(t: Table): Table
    requires Shaped(t) && TrickWinner(t) < PLAYER_COUNT
  {
    var winner := TrickWinner(t);
    var won := t.(points := t.points[winner := t.points[winner] + Penalty(TrickCards(t.trick))],
                  lastWinner := Some(winner), tricksPlayed := t.tricksPlayed + 1, trickComplete := true);
    if won.tricksPlayed < CARDS_PER_HAND then won.(turn := winner, next := Some(winner)) else EndHand(won)
  }

  lemma {:induction false} WinnerInRange(trick: map<nat, Card>, led: nat, leader: nat, n: nat)
    requires leader < PLAYER_COUNT && n <= PLAYER_COUNT
    ensures BestOfTrick(trick, led, leader, n).1 < PLAYER_COUNT
  {
    if n > 0 {
      WinnerInRange(trick, led, leader, n - 1);
    }
  }

  function AfterPlay(t: Table): Table
    requires Shaped(t)
  {
    WinnerInRange(t.trick, t.led, t.leader, PLAYER_COUNT);
    if |t.trick| < PLAYER_COUNT then t else EndTrick(t)
  }

  function After(t: Table, a: Action, shuffled: seq<Card>): Table
    requires Shaped(t) && |shuffled| == 52
  {
    match a
    case PassCards(_) => AfterPass(t)
    case PlayCard(_) => AfterPlay(t)
    case NextHand => BeginHand(t, t.turn, shuffled)
  }

  // ---- Playing for somebody absent ----

  predicate LowerCard(a: Card, b: Card) {
    if RankValue(a.rank) != RankValue(b.rank) then RankValue(a.rank) < RankValue(b.rank) else a.suit <= b.suit
  }

  function InsertLow(s: seq<Card>, c: Card): seq<Card> {
    if s == [] then [c] else if LowerCard(c, s[0]) then [c] + s else [s[0]] + InsertLow(s[1..], c)
  }

  function SortLow(s: seq<Card>): seq<Card> {
    if s == [] then [] else InsertLow(SortLow(s[1..]), s[0])
  }

  function ThreeLowest(hand: seq<Card>): seq<Card> {
    if |hand| <= CARDS_TO_PASS then hand
    else
      var sorted := SortLow(hand);
      if |sorted| < CARDS_TO_PASS then sorted else sorted[..CARDS_TO_PASS]
  }

  function FirstLegal(t: Table, hand: seq<Card>, i: nat := 0): Option<Card>
    requires i <= |hand|
    decreases |hand| - i
  {
    if i == |hand| then None else if ValidPlay(t, hand, hand[i]) then Some(hand[i]) else FirstLegal(t, hand, i + 1)
  }

  function TimeoutAction(t: Table): Option<Action>
    requires Shaped(t)
  {
    match t.stage
    case HandOver => if t.matchComplete then None else Some(NextHand)
    case Passing => Some(PassCards(ThreeLowest(t.hands[t.turn])))
    case TrickPlay =>
      var card := FirstLegal(t, t.hands[t.turn]);
      if card.Some? then Some(PlayCard(card.value)) else None
  }

  // ---- The engine around the rules ----

  function NextTurn(t: Table): Table {
    t.(turn := (if t.next.Some? then t.next.value else t.turn + 1) % PLAYER_COUNT, next := None)
  }

  datatype Game = Playing(t: Table) | Finished(t: Table)

  function Submit(t: Table, a: Action, shuffled: seq<Card>): Game
    requires Shaped(t) && |shuffled| == 52
  {
    if !Validate(t, a) then Playing(t)
    else
      var s := After(Apply(t, a), a, shuffled);
      if s.matchComplete then Finished(s) else Playing(NextTurn(s))
  }

  /** Nobody has a point yet; the seat picked at random deals. */
  function Blank(first: nat): Table {
    Table(first, None, NOTHING_EACH, Passing, PassLeft, NOTHING_EACH, {}, NO_SUIT, map[], false, 0, false, 0,
          [0, 0, 0, 0], [0, 0, 0, 0], 0, 0, false, false, None, [])
  }

  function Start(first: nat, shuffled: seq<Card>): Game
    requires first < PLAYER_COUNT && |shuffled| == 52
  {
    Playing(NextTurn(BeginHand(Blank(first), first, shuffled)))
  }
}
