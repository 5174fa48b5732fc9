# tty.cards: a verified model of its rules engine

Cards are dealt over SSH to people who act, run out of time, or disconnect, in any order. This project models the
part of the server that has to stay right under all of that: the engine with its turn clock, the five games it drives,
the rating change at the end of a ranked match, and the limiter in front of it. Each rule set is a function from table
to table that takes the branches the Go code takes; where the code works by updating fields, a class does the same
step by step and its contract is that function. What the games promise is proved about the functions, and so holds of
the classes.

- **Poker** (`PokerRules`, `PokerGame`). No-limit hold'em with blinds, short all-ins, side pots, uncalled bets, players who
  disconnect while all-in and still contest the pot, and seats renumbered when somebody goes. `PokerInvariant.Valid` says
  what every table waiting for a move satisfies: the seat on turn can act and owes an action, the seats that owe are a
  clockwise prefix of those that can act, the pool is exactly what was contributed, and stacks and pool are what was
  brought. `PokerRun` proves it of every run, ten hands at most, `PokerLength` bounds its steps. Which bets are taken is told from
  the moves of the street (`PokerHistory`), who deals, posts, speaks and what is turned over from the seats and the deck
  (`PokerSeats`), who is paid what to the chip from contributions and scores (`PokerMoney`, `PokerPayout`, `PokerWinners`,
  `PokerEndings`), and the scores are those of the best five of cards dealt off one deck (`PokerShowdown`).
- **Hand evaluator** (`HandEvaluator`, `HandEvaluatorScan`). The one-pass classifier against a naive reading of every five
  cards of the hand (`HandEvaluatorProof`).
- **Gin Rummy** (`GinMelds` to `GinDefender`, `GinRules`, `GinPlay`, `GinMatch`). The pruned search over candidate melds is optimal,
  also for a defender whose deadwood is what greedy layoffs leave. The argument: greed can strand a layable card only when
  three consecutive suited cards lie in the deadwood, and then another split melds that block. Positions of a hand are
  sets where the code uses the bits of a `uint16`.
- **Engine and turn clock** (`EngineRules`, `EngineSafety`, `EngineTurns`, `EngineClock`, `EngineWinner`, `Engine`, `EngineStandings`). For any rules whatever, as
  functions that may fail or panic. A step is one hold of the lock; a timer callback is several, with anything in between. A
  timer that was stopped may still fire. A panic in a player's own call is stopped at the session's edge
  (`internal/ssh/server.go:404-419`) with the lock released, so the table plays on with what the hook left. The comment at
  `internal/game/turnclock.go:156-162` takes an unmoved generation for proof that no miss count was cleared meanwhile; a panic
  clears one without moving it, and `EngineSafety` says exactly when that costs an active player the seat.
- **Games in the engine** (`EngineConduct`, `PokerEngine`, `HeartsEngine`). What rules must promise so that the clock's moves are never
  refused and a table left alone plays itself out, and that poker and hearts promise it: their invariants hold over any
  interleaving of calls and timer callbacks.
- **Hearts** (`HeartsRules`, `HeartsRun`, `HeartsPlay`, `HeartsLength`, `HeartsMatch`). A legal card in every state and no revoke in any
  run, 26 points a hand, and sixteen hands at the most although nothing caps them.
- **Elo** (`Elo`, `EloUpsets`). The chain of capped transfers between neighbours, over the reals and any expectancy strictly between
  0 and 1; that upsets pay takes one that grows with the player's rating, falls with the other's, and adds up to one.
- **Shedding games** (`Shed`, `Uno`, `CrazyEight`) conserve their cards, and take the cards and have the effects that `UnoPlay` and
  `CrazyEightPlay` say; **the limiter** (`Limiter`) never lets a key that it
  remembers through more often than configured. **The pile** (`Deck`) the games draw from is modelled by itself; their tables hold
  its cards as sequences, top card last, and draw by the same `Drawn`.

Where the source chooses at random the model allows every choice: a shuffle is an arbitrary permutation, the first seat
an arbitrary seat, a map walked in Go's order a set emptied in an arbitrary one. Time appears as a timer that may fire and,
in the limiter, as instants that never run backwards. Player IDs are naturals, of which only equality and order matter.
Unsigned chips are naturals with every subtraction either clamped as in the code or, where an underflow would be a bug,
an explicit crash that is proved not to happen. A Go map read at an absent key is `At`, which is zero there.

`dafny verify dfyconfig.toml` checks everything.

## Model

| member | source | states |
|---|---|---|
| PokerRun.MatchIsSound | internal/game/poker/rules.go:98-749 | From any opening of 2 to 9 distinct players, any order of actions, timeouts and leaves ends in a valid table or a closed match; nothing crashes or underflows, stacks plus pool stay equal to the chips brought, no run goes past hand ten, and a match ends only with all ten hands played or at most one seated player holding chips |
| PokerLength.MatchRunsOut | internal/game/poker/rules.go:619-653 | No run takes more than 5000 accepted actions and leaves for every chip on the table and one: the rank below as one number, and its bound |
| PokerShowdown.ShowdownsAreFair | internal/game/poker/streets.go:304-318 | With every deck a shuffle of the standard one, whoever contests a shown pot of any run holds, with the board, seven different standard cards, and is scored by the best five of them |
| PokerShowdown.ShowdownPaysBestFive | internal/game/poker/streets.go:142-152 | A showdown pays every pot by exactly those scores |
| PokerRun.StepIsSound | internal/game/poker/rules.go:392-749 | One step, whatever it is, from a valid table: the turn names a seat that can act and owes an action, pool and contributions agree, the pool is empty whenever a hand is over |
| PokerRun.TimeoutIsAccepted | internal/game/poker/rules.go:41-59 | On every valid table the automatic action exists and passes validation |
| PokerRun.TimeoutRisksNothing | internal/game/poker/rules.go:33-59 | The automatic action checks when that is free and folds when it is not, and moves no chip |
| PokerRun.StepDescends | internal/game/poker/rules.go:619-700 | Every accepted step strictly lowers the lexicographic rank (seats, hands left, streets left, chips behind, seats still owing) |
| PokerRun.ActingLowers | internal/game/poker/rules.go:619-653 | A betting action lowers chips behind over the seated players, or leaves them and lowers the seats still owing |
| PokerRun.NextHandReady | internal/game/poker/rules.go:126-182 | Whenever the next hand may be dealt, dealing it never fails, and the hand count goes up by one within its limit |
| PokerRun.StartIsSound | internal/game/poker/rules.go:98-124 | The opening deal succeeds and leaves a valid table |
| PokerRun.LeaveSound | internal/game/poker/rules.go:392-462 | A leave on turn, off turn, all-in or between hands keeps the table valid or closes the match |
| PokerRun.ActSound | internal/game/poker/rules.go:702-749 | An action followed by its consequences keeps the table valid or closes the match |
| PokerHistory.BettingIsFair | internal/game/poker/rules.go:512-617 | In any run, told only from the moves of the street: a raise is taken exactly if it takes the raiser's last chip or adds at least the largest raise so far, stays within the stack, another contender could match it, and the raiser has not acted since the last full raise; so nobody raises twice without a full raise by somebody else in between |
| PokerHistory.OnlyLegalActionsCount | internal/game/poker/rules.go:512-617 | An action changes the table if and only if the rules of betting, stated over the moves of the street, allow it |
| PokerHistory.LegalIsValid | internal/game/poker/rules.go:512-606 | Those rules and the books the code keeps agree on every action |
| PokerHistory.CallableMeans | internal/game/poker/rules.go:608-617 | The largest callable bet reaches an amount exactly when some other contender's bet and stack do |
| PokerHistory.StepIsTold | internal/game/poker/rules.go:680-700 | Minimum raise, bet and acted flags go on saying what the moves of the street say, through any action, leave or deal |
| PokerHistory.NobodyRaisesTwice | internal/game/poker/rules.go:575-580 | Between two actions of a player the second of which raises lies a full raise by somebody else |
| PokerSeats.DealMovesOn | internal/game/poker/rules.go:126-182 | The deal passes to the next player with chips, and the hand opens with blinds and turn in order from there |
| PokerSeats.BlindsGoRound | internal/game/poker/rules.go:229-238 | Nobody with chips sits between dealer and small blind nor between small and big blind; heads-up the dealer posts the small one; each bets the blind or their last chip, and nobody else anything |
| PokerSeats.FirstToSpeak | internal/game/poker/rules.go:240-249 | Before the flop the dealer speaks first heads-up, else the first seat after the big blind that can act |
| PokerSeats.HandIsDealtInTurn | internal/game/poker/rules.go:202-225 | Every seat with chips gets the next two cards off the shuffled deck, in seat order, and a broke one none |
| PokerSeats.BettingGoesOn | internal/game/poker/rules.go:713-749 | An action ends the hand exactly when one contender is left, or nobody owes and it is the river or at most one can bet; otherwise the turn goes to the next seat clockwise that owes, or the next street is opened by the first seat after the dealer that can act |
| PokerSeats.BurnShows | internal/game/poker/streets.go:108-127 | A street burns the top card and turns the next over in order |
| PokerSeats.StreetTurnsOver | internal/game/poker/streets.go:92-106 | Three cards on the flop, one on the turn, one on the river |
| PokerSeats.LeavingKeepsTheDeal | internal/game/poker/rules.go:404-482 | A leave leaves the same player dealing, or the one before the dealer who left |
| PokerSeats.LeavingKeepsTheTurn | internal/game/poker/rules.go:404-462 | In a round that goes on, a leave leaves the same player on turn, or passes it to the next who owes when it was theirs |
| PokerSeats.MarkerFollows | internal/game/poker/rules.go:471-482 | A seat marker goes on naming the same player, or the one before when its player left |
| PokerEndings.ActionMovesChips | internal/game/poker/rules.go:619-700 | A fold or a check moves no chip, a call what is missing or the stack, a raise up to what it names, all-in everything: from stack to bet, contribution and pool, and nothing else on the table moves |
| PokerEndings.ActionPaysOff | internal/game/poker/rules.go:713-749 | A hand that an action ends is paid off: the last contender takes what was matched, or the stakes are shown down over the board run out, the best hand getting its uncalled part and its whole ceiling |
| PokerEndings.LeavingGoesOn | internal/game/poker/rules.go:392-462 | A leaver is out of the hand unless all-in; the hand is then over and paid off exactly when nothing is left to decide, on the next street if nobody owes, and else still in the round |
| PokerEndings.SettledShowsDown | internal/game/poker/streets.go:60-88 | A round that ends the hand ends it by a showdown of the same contenders for the same stakes |
| PokerCursor.NextSeatIsFirst | internal/game/poker/streets.go:30-38 | The clockwise search returns the nearest qualifying seat, the starting seat last, and fails only when there is none |
| PokerCursor.CursorMoves | internal/game/poker/streets.go:40-48 | Once the seat on turn is done and the round is open, the next turn is on a seat that owes, and the owing seats are again a clockwise prefix of the acting ones |
| PokerCursor.FreshCursor | internal/game/poker/streets.go:50-58 | On a fresh street any acting seat may open the round |
| PokerCursor.PrefixSurvivesLeave | internal/game/poker/rules.go:471-482 | Removing any seat and renumbering keeps the clockwise prefix of owing seats |
| PokerInvariant.WhoIsLive | internal/game/poker/streets.go:158-166 | Contenders are the seated players who have not folded and the departed who were all-in and not folded, each once |
| PokerInvariant.FinishHandCloses | internal/game/poker/rules.go:290-303 | Ending a hand ends the match exactly when it was the last one or at most one seat has chips, else parks the turn on a funded dealer; no chip moves |
| PokerInvariant.UncontestedCloses | internal/game/poker/rules.go:720-726 | A fold-out pays the whole pool and closes the hand |
| PokerInvariant.TwoLiveAfterRefund | internal/game/poker/streets.go:226-244 | With two live contributions a live one is left after the uncalled part goes back |
| PokerInvariant.ShowdownPays | internal/game/poker/streets.go:142-152 | A reachable showdown always has a last pot, and pays everything out |
| PokerSteps.SettleKeeps | internal/game/poker/streets.go:60-88 | Closing a round never fails: a later street with at least two seats to act, all of them owing, or a hand paid out |
| PokerSteps.ActionActs | internal/game/poker/rules.go:619-653 | Every accepted betting action leaves the actor done and the rest owing in clockwise order |
| PokerSteps.RaiseToActs | internal/game/poker/rules.go:582-601 | A raise the rules take puts in exactly what it names, moves the bet there, and leaves everybody else who can act owing; which raises they take is `PokerHistory.OnlyLegalActionsCount` |
| PokerSteps.OnlyAFullRaiseReopens | internal/game/poker/rules.go:672-700 | After a raise of at least the minimum nobody who can still act counts as having acted; after a shorter one whoever had acted still has; the minimum is the largest raise so far. What that forbids is `PokerHistory.BettingIsFair` |
| PokerSteps.AllInActs | internal/game/poker/rules.go:643-650 | An all-in is a raise when it exceeds the bet and a call when it does not, sub-minimum sizes included |
| PokerSteps.CallActs | internal/game/poker/rules.go:636-638 | A call pays up to the bet or all there is |
| PokerSteps.FoldActs | internal/game/poker/rules.go:631-633 | A fold takes exactly one contender out |
| PokerSteps.AfterBettingReady | internal/game/poker/rules.go:713-749 | What follows an action is never an error, and never the fall-through for a missing next seat |
| PokerMatch.HandOpens | internal/game/poker/rules.go:144-182 | An opened hand is on a seat that owes, or runs straight to its end when the blinds leave nobody to act |
| PokerMatch.DealOpens | internal/game/poker/rules.go:184-225 | The deck always suffices for the deal, exactly the seats without chips are folded, and no chip moves |
| PokerMatch.BlindSeats | internal/game/poker/rules.go:229-238 | Both blinds come from funded seats, and from different ones |
| PokerMatch.BlindsKeep | internal/game/poker/rules.go:229-238 | With the blinds in, the books agree, two still contest the pot, and everybody able to act owes |
| PokerLeave.LeaveMidHand | internal/game/poker/rules.go:404-462 | A seat vanishing mid-hand, on turn or off, folded or all-in, settles into a ready table |
| PokerLeave.LeaveBetweenHands | internal/game/poker/rules.go:404-462 | A seat vanishing between hands still leaves a funded dealer on turn or ends the match |
| PokerLeave.AllInLeaversStayIn | internal/game/poker/rules.go:386-399 | A leaver goes on contesting the pot exactly when they were all-in and had not folded, and nobody else is affected |
| PokerLeave.SeatsShift | internal/game/engine.go:440-451 | Who sits where after a removal, and who is listed as gone |
| PokerMoney.CommitKeepsLedger | internal/game/poker/rules.go:658-670 | Committing chips keeps pool equal to contributions, and the total |
| PokerMoney.RefundKeepsLedger | internal/game/poker/streets.go:226-244 | So does returning an uncalled bet |
| PokerMoney.RefundTouchesOnlyTheTop | internal/game/poker/streets.go:226-244 | Only the one player ahead of all others gets anything back: the excess; every other stack and contribution stays |
| PokerMoney.UnwindKeepsLedger | internal/game/poker/streets.go:345-351 | Abandoning a hand empties the pool and gives each player exactly their contribution back |
| PokerMoney.UncontestedKeepsLedger | internal/game/poker/streets.go:324-338 | Winning uncontested empties the pool and keeps the total |
| PokerMoney.UncontestedPaysTheMatched | internal/game/poker/streets.go:320-338 | The winner takes what was put in up to their own contribution, and everybody else has back what they put in beyond it |
| PokerMoney.PotsCoverContributions | internal/game/poker/streets.go:168-219 | The side pots add up to everything contributed, live or dead |
| PokerMoney.PotsAreContested | internal/game/poker/streets.go:168-219 | Pot i is contested by exactly the live players at or above its level, and by somebody |
| PokerMoney.PotsShrink | internal/game/poker/streets.go:168-219 | Later pots are contested by no new player |
| PokerMoney.AwardPaysEachPayout | internal/game/poker/streets.go:271-302 | A stack grows by exactly its shares |
| PokerMoney.AwardPaysEveryChip | internal/game/poker/streets.go:271-302 | Paying the pots puts all their chips into stacks |
| PokerMoney.PotGoesToBestHands | internal/game/poker/streets.go:250-302 | A pot is paid out entirely, to exactly its best eligible scores, in shares at most one chip apart, the lowest IDs taking the odd chips |
| PokerMoney.NobodyWinsMoreThanTheyRisked | internal/game/poker/streets.go:168-219 | Nobody collects more than the sum over players of the smaller of the two contributions, plus the dead tail; nobody folded collects anything. That the best hand collects all of it is `PokerPayout.BestHandCollects` |
| PokerPayout.BestHandCollects | internal/game/poker/streets.go:168-302 | The one best hand collects exactly its ceiling, however short its stack |
| PokerPayout.BestGroupCollects | internal/game/poker/streets.go:168-302 | Players who between them beat all others collect exactly what everybody put in up to the largest contribution among them, and the dead tail if nobody live put in more |
| PokerPayout.TiedCollect | internal/game/poker/streets.go:168-302 | Players of one score collect between them what lies above the ceiling of everybody better, up to their own |
| PokerPayout.PotHolds | internal/game/poker/streets.go:180-218 | Pot i holds what was put in between its level and the one below, the last one everything above |
| PokerPayout.PotGoesToGroup | internal/game/poker/streets.go:250-302 | A pot that a best group may win goes to it whole, and any other passes it by |
| PokerWinners.BestHandIsPaid | internal/game/poker/streets.go:142-152 | A showdown leaves the best hand with its chips, its uncalled part and its whole ceiling, and whoever folded with their uncalled part at most |
| PokerWinners.WinnersAreAnnounced | internal/game/poker/streets.go:271-302 | The winners announced are everybody with the best hand of some pot, each once, those of the main pot first |
| PokerWinners.RunOutShowsDown | internal/game/poker/streets.go:129-140 | A board run out is shown down with the stakes and hole cards there were |
| PokerWinners.LastOneIsPaid | internal/game/poker/streets.go:320-338 | The last player left takes the matched chips, and everybody has back what that player did not match |
| PokerMoney.PayShowdownPaysOut | internal/game/poker/streets.go:142-152 | Refund, cut and pay together empty the pool into the stacks |
| PokerPotLoops.LargestTwo | internal/game/poker/streets.go:227-236 | Walking the contributions in any order finds the largest, its owner and the second largest |
| PokerPotLoops.RefundIs | internal/game/poker/streets.go:237-244 | What the refund writes to stack, contribution and pool |
| PokerPotLoops.CollectLayer | internal/game/poker/streets.go:184-197 | One layer, whatever order the map is walked in |
| PokerPotLoops.CutLevels | internal/game/poker/streets.go:180-218 | The loop over levels, dead money riding on the last live pot, cuts the pots whose amounts `PokerPayout.PotHolds` gives |
| PokerPotLoops.BuildSidePots | internal/game/poker/streets.go:168-219 | The whole cut equals the specification, so no iteration order shows; what it pays whom is `PokerPayout` |
| PokerGame.Game.Act | internal/game/engine.go:331-387 | An action on the live table does what the specification says, and leaves it valid or closed with the same chips |
| PokerGame.Game.Leave | internal/game/engine.go:424-502 | A leave likewise |
| PokerGame.Game.Pay | internal/game/poker/rules.go:658-670 | Moving chips updates stack, bet, contribution, pool and all-in mark together |
| PokerGame.Game.CommitChips | internal/game/poker/rules.go:658-670 | A street total, clamped to the stack |
| PokerGame.Game.Blind | internal/game/poker/rules.go:336-345 | A blind, clamped to the stack |
| PokerGame.Game.IncreaseBet | internal/game/poker/rules.go:680-700 | Only a full raise moves the minimum and reopens the round |
| PokerGame.Game.Apply | internal/game/poker/rules.go:619-653 | Each action writes exactly the specified fields |
| PokerGame.Game.GiveBackUncalled | internal/game/poker/streets.go:226-244 | The in-place refund is the specified one |
| PokerGame.Game.Split | internal/game/poker/streets.go:250-259 | The odd chips go one each to the first IDs in order |
| PokerGame.Game.BestHands | internal/game/poker/streets.go:271-290 | The scan for the top score collects exactly the best eligible players, in ID order |
| PokerGame.Game.PayAllPots | internal/game/poker/streets.go:271-302 | Pot after pot, pool down and stacks up by the specified shares |
| PokerGame.Game.PayUncontested | internal/game/poker/streets.go:324-338 | Unmatched chips go back before the rest goes to the winner |
| PokerGame.Game.Unwind | internal/game/poker/streets.go:345-351 | Every contribution goes back and the pool is zero |
| PokerGame.Game.ClearBets | internal/game/poker/streets.go:60-66 | A new street clears bets, actions, the bet and the minimum raise |
| PokerGame.Game.DealStreet | internal/game/poker/streets.go:92-127 | Burn one, deal three or one, stop where the deck runs dry |
| PokerGame.Game.ShowDown | internal/game/poker/streets.go:142-152 | Showdown on the live table, which pays as `PokerWinners.BestHandIsPaid` says |
| PokerGame.Game.RunOut | internal/game/poker/streets.go:129-140 | The loop over the remaining streets, then the showdown |
| PokerGame.Game.Settle | internal/game/poker/streets.go:60-88 | Closing a betting round on the live table |
| PokerGame.Game.StampBustouts | internal/game/poker/rules.go:253-265 | Players broke at the end of a hand are stamped with its number once |
| PokerGame.Game.CloseHand | internal/game/poker/rules.go:290-303 | Finishing a hand on the live table |
| PokerGame.Game.AfterBetting | internal/game/poker/rules.go:713-749 | The consequences of a betting action on the live table |
| PokerGame.Game.DealCards | internal/game/poker/rules.go:202-225 | Two cards to each funded seat; a broke seat is folded and counts as having acted |
| PokerGame.Game.PlaceBlinds | internal/game/poker/rules.go:229-238 | Heads-up the dealer is the small blind, otherwise the next two funded seats |
| PokerGame.Game.Begin | internal/game/poker/rules.go:144-182 | A hand begun on the live table |
| PokerGame.Game.BeginOrFinish | internal/game/poker/rules.go:131-139 | A hand the blinds already decided is finished at once |
| PokerGame.Game.After | internal/game/poker/rules.go:702-711 | Next hand or consequences of a bet |
| PokerGame.Game.Forfeit | internal/game/poker/rules.go:392-399 | A leaver is folded unless all-in |
| PokerGame.Game.AfterRemoved | internal/game/poker/rules.go:404-462 | Markers shift, and the hand goes on, closes or hands the turn over |
| PokerGame.Game.RoundIsComplete | internal/game/poker/streets.go:13-26 | The scan agrees with no seat owing |
| PokerGame.Game.ScanSeats | internal/game/poker/streets.go:30-38 | The wrapping loop agrees with the recursive search |
| PokerGame.Game.ListContenders | internal/game/poker/streets.go:158-166 | The two loops list the contenders |
| PokerGame.Game.ChipsInPlay | internal/game/poker/streets.go:356-362 | The sum of stacks and pool |
| PokerStandings.EverybodyRanked | internal/game/poker/streets.go:368-376 | The final ranking lists everybody who sat down once: first those who stayed, then those who left |
| PokerStandings.LevelIsTransitive | internal/game/poker/streets.go:395-416 | The comparison behind the ranking is a preorder |
| PokerStandings.SeatedDrawExactlyWhenLevel | internal/game/poker/rules.go:367-384 | Two who stayed share a score exactly when the comparison calls them level |
| PokerStandings.StandingScore | internal/game/poker/rules.go:367-384 | The counting loop returns that group number |
| PokerStandings.RankedByResult | internal/game/poker/streets.go:368-416 | Those who stayed, and those who left, come in order of chips, then of how late the chips went, then of being in the hand, then of the cards shown; genuine draws in order of ID |
| PokerStandings.FirstHasMostChips | internal/game/poker/streets.go:368-393 | While anybody is seated the ranking is led by a seated player whom nobody seated beats in chips |
| PokerStandings.BustoutsAreStamped | internal/game/poker/rules.go:251-265 | Whoever is newly broke is stamped with this hand, and an earlier stamp stays |
| HandEvaluatorProof.EvaluateIsBest | internal/game/poker/evaluator.go:62-76 | For every duplicate-free hand of five or more standard cards in any order, the score is the largest any five of its cards can be read as |
| HandEvaluatorProof.NoReadingIsBetter | internal/game/poker/evaluator.go:209-238 | No five cards read better than the classifier says |
| HandEvaluatorProof.SomeReadingReaches | internal/game/poker/evaluator.go:209-238 | Five cards of the hand do read that well: wheel, two trips, three pairs, two quads and two flush suits included |
| HandEvaluatorProof.OrderDoesNotMatter | internal/game/poker/evaluator.go:78-87 | Reordering a hand never changes its score |
| HandEvaluator.ScoreOrderIsLexicographic | internal/game/poker/evaluator.go:41-48 | Comparing packed scores is comparing category, then kickers one by one |
| HandEvaluator.ShiftsAndOrsAddUp | internal/game/poker/evaluator.go:41-48 | The shifts and ors of the packing are the sum used in the proofs |
| HandEvaluatorScan.EvaluateHand | internal/game/poker/evaluator.go:62-76 | The one-pass evaluator returns the best score, and 0 under five cards |
| HandEvaluatorScan.NormalizeCards | internal/game/poker/evaluator.go:78-87 | Sorted by rank, highest first, same cards |
| HandEvaluatorScan.RankCounts | internal/game/poker/evaluator.go:93-117 | One pass finds quads, trips and pairs, a second triple counting as a pair |
| HandEvaluatorScan.FindFlush | internal/game/poker/evaluator.go:129-146 | The strongest flush and straight flush over the suits |
| HandEvaluatorScan.ScanStraight | internal/game/poker/evaluator.go:166-190 | The first run of five in the walk is the highest straight, the wheel last |
| HandEvaluatorScan.Kickers | internal/game/poker/evaluator.go:192-207 | The best ranks left, padded with zeros |
| HandEvaluatorScan.LadderValue | internal/game/poker/evaluator.go:209-238 | The ladder of categories picks the classified value |
| GinMelds.RunIsCells | internal/game/ginrummy/melds.go:237-255 | A run is the cells of one suit from its lowest to its highest card, each once |
| GinMelds.CellsAreRun | internal/game/ginrummy/melds.go:237-255 | And any such block of three or more is a run |
| GinMelds.RunIsNoSet | internal/game/ginrummy/melds.go:224-235 | No meld is both a set and a run |
| GinMeldMasks.Combinations | internal/game/ginrummy/melds.go:194-211 | The recursive walk lists exactly the choices of the asked size |
| GinMeldMasks.SetMasks | internal/game/ginrummy/melds.go:124-145 | The candidate sets are exactly the index sets that satisfy the set test |
| GinMeldMasks.SubRunMasks | internal/game/ginrummy/melds.go:177-192 | Every stretch of three or more of a block |
| GinMeldMasks.RunMasksInSuit | internal/game/ginrummy/melds.go:162-175 | Blocks are cut where the order breaks, and every run lies inside one |
| GinMeldMasks.RunMasks | internal/game/ginrummy/melds.go:147-160 | The candidate runs are exactly the index sets that satisfy the run test |
| GinMeldMasks.GenerateMeldMasks | internal/game/ginrummy/melds.go:115-122 | The candidates are exactly the melds of the hand |
| GinMeldMasks.WalkListsChoices | internal/game/ginrummy/melds.go:194-211 | The walk from any point lists the choices that extend what it holds |
| GinMeldSearch.MeldSearch.Search | internal/game/ginrummy/melds.go:66-91 | From any point the pruned search ends no worse than every compatible choice of candidates from there on |
| GinMeldSearch.BestSplitBy | internal/game/ginrummy/melds.go:47-113 | The split is made of disjoint melds, and no choice of disjoint melds scores less, the stop at zero notwithstanding |
| GinMeldSearch.BestMeldSplit | internal/game/ginrummy/melds.go:25-27 | Melds and deadwood are the hand, every card once, and the deadwood is minimal over all such splits |
| GinMeldSearch.SplitPartitions | internal/game/ginrummy/melds.go:93-113 | Melds plus deadwood partition the hand |
| GinMeldSearch.UnbeatenIsBest | internal/game/ginrummy/melds.go:47-113 | Unbeaten over the candidates is unbeaten over every family of disjoint melds |
| GinLayoffs.ApplyLayoffs | internal/game/ginrummy/layoffs.go:17-38 | The nested loops reach the specified fixpoint |
| GinLayoffs.LayoffsEndStuck | internal/game/ginrummy/layoffs.go:17-38 | When the loop stops nothing left attaches to anything |
| GinLayoffs.OnlyLayableGo | internal/game/ginrummy/layoffs.go:17-38 | No legal order ever lays off a card outside the layable ones |
| GinLayoffs.FindAttach | internal/game/ginrummy/layoffs.go:44-56 | The first run that takes the card, else the first set that does; nothing passed over takes it, save sets passed over for a run |
| GinLayoffs.AttachGrows | internal/game/ginrummy/layoffs.go:58-76 | A card attaches only where it could always have been laid off, and the meld stays a meld |
| GinDefender.NothingStranded | internal/game/ginrummy/layoffs.go:17-56 | With no three consecutive suited cards in deadwood, the greedy order strands no layable card |
| GinDefender.StillLayable | internal/game/ginrummy/layoffs.go:17-38 | Melding a whole suited block takes nothing away from what can be laid off |
| GinDefender.GreedyIsBest | internal/game/ginrummy/layoffs.go:17-56 | Then the greedy order leaves no more than the cards nothing could lay off |
| GinDefender.NoOrderBeats | internal/game/ginrummy/layoffs.go:17-38 | And no legal order leaves less than those |
| GinDefender.SomeSplitAsGood | internal/game/ginrummy/melds.go:29-43 | For every split there is one the search considers whose greedy layoffs do as well as any layoffs of the first |
| GinDefender.DefenderOptimal | internal/game/ginrummy/melds.go:29-43 | The least the search finds is the least over every choice of disjoint melds and every legal order of layoffs |
| GinDefender.BestMeldSplitAgainst | internal/game/ginrummy/melds.go:36-43 | The method returns that least total, and the layoffs of its own deadwood come to it |
| GinMatch.ComputeKnockOutcome | internal/game/ginrummy/rules.go:270-316 | Winner, points and bonus of gin, knock and undercut, with the knocker's deadwood minimal and no defence better; the recomputed total is the search's |
| GinMatch.AutoDiscard | internal/game/ginrummy/rules.go:446-460 | The priciest deadwood of a best split other than the upcard just taken, else any such card of the hand, else none exists |
| GinMatch.Match.Begin | internal/game/ginrummy/rules.go:73-102 | The deal on the live match |
| GinMatch.Match.Close | internal/game/ginrummy/rules.go:364-385 | The hand closes, and the match when a target or the last hand is reached |
| GinMatch.Match.Draw | internal/game/ginrummy/rules.go:188-207 | A draw from either pile, remembering a taken upcard |
| GinMatch.Match.GiveUp | internal/game/ginrummy/rules.go:208-213 | A discard, counting the turn |
| GinMatch.Match.ApplyKnock | internal/game/ginrummy/rules.go:222-268 | A knock scored as judged and recorded, the points added to the recorded winner and to nobody else, and the hand closed |
| GinMatch.Match.Accepts | internal/game/ginrummy/rules.go:104-178 | Validation, the knock limit decided by searching |
| GinMatch.Match.TimeoutAction | internal/game/ginrummy/rules.go:403-441 | The automatic move exists on every valid table and is accepted |
| GinMatch.Match.Act | internal/game/ginrummy/rules.go:180-220 | An action keeps the live match valid or ends it; a knock scores what ComputeKnockOutcome judges, for the winner on record, and no other action moves a score |
| GinRun.HandBegins | internal/game/ginrummy/rules.go:73-102 | A dealt hand accounts for all 52 cards, ten a seat, one turned up |
| GinRun.DrawKeeps | internal/game/ginrummy/rules.go:188-207 | A draw keeps the 52 cards, the hand sizes of the phase and the stock above the wall |
| GinRun.DiscardGoesOn | internal/game/ginrummy/rules.go:326-359 | A discard keeps them too, or the wall or the turn limit closes the hand |
| GinRun.KnockCloses | internal/game/ginrummy/rules.go:222-268 | A knock closes the hand and adds its points to the winner it names and to nobody else |
| GinRun.OnlyKnocksScore | internal/game/ginrummy/rules.go:180-220 | No action but a knock moves a score |
| GinPlay.KnockCreditsTheWinner | internal/game/ginrummy/rules.go:222-268 | After an accepted knock the recorded winner has the points more and the other seat what it had, whichever seat knocked |
| GinPlay.DrawTakesTheTop | internal/game/ginrummy/rules.go:188-207 | A draw brings the top card of the pile named, remembers a taken upcard, and the same seat discards next |
| GinPlay.DiscardPassesTheTurn | internal/game/ginrummy/rules.go:208-213 | A discard goes on top of the pile and passes the turn, or ends the hand at the wall or the turn limit with no score moved |
| GinPlay.NextHandAlternates | internal/game/ginrummy/rules.go:73-102 | The next hand is dealt off the deck and opened by the seat that did not open the last |
| GinPlay.OnlyLawfulActionsCount | internal/game/ginrummy/rules.go:104-178 | An action changes the table exactly when the hand has the size for it, the card is held and is not the upcard just taken, and a knock leaves at most ten points |
| GinPlay.MatchEndsAtTheTarget | internal/game/ginrummy/rules.go:318-324 | A match ends with somebody at the target or after the last hand, and goes on only while nobody is |
| GinRun.ActionIsSound | internal/game/ginrummy/rules.go:326-345 | Every accepted action leads to a valid table nearer the end, or to the end |
| GinRun.RunIsSound | internal/game/ginrummy/rules.go:322-385 | Over any run the match stays valid or is over by hand 50, and no score falls |
| GinRun.ActionsRunOut | internal/game/ginrummy/rules.go:318-359 | Every accepted action uses up one of the actions left |
| GinRun.MatchRunsOut | internal/game/ginrummy/rules.go:318-359 | No match takes more than 50 times 202 accepted actions: a deal, a hundred turns of a draw and a discard, and a last draw |
| GinRun.StartIsSound | internal/game/ginrummy/rules.go:49-71 | The opening deal is valid |
| EngineSafety.IdleSeatsHadItComing | internal/game/turnclock.go:153-177 | For any rules and any interleaving: a seat is taken for idling after three expired turns with no accepted own action in between or a turn with no safe move, if and only if no own action of that player was accepted and panicked after the clock had settled on the seat in that generation |
| EngineSafety.ActedAndTakenAllTheSame | internal/game/turnclock.go:156-162 | The exception happens: a run in which a player acts, the action panics, and the seat is taken all the same, since a panic clears the misses and does not move the generation |
| EngineSafety.CalmRulesAreFair | internal/game/turnclock.go:156-177 | Where apply and after do not panic, no seat is taken undeservedly and no generation sees two actions |
| EngineSafety.OneActionPerGeneration | internal/game/turnclock.go:46-94 | Two actions reach the rules in one turn generation only when the earlier one panicked right there |
| EngineTurns.ThirdMissIsTheLast | internal/game/turnclock.go:112-151 | In any run, the third turn in a row that a player lets run out has the clock settle on their seat there and then |
| EngineTurns.DoomedSeatIsTaken | internal/game/turnclock.go:162-177 | Once the clock has settled on a seat and nothing has moved the turn on, the seat is taken |
| EngineTurns.OnlyTheSeatOnTurnActs | internal/game/engine.go:331-351 | A player's action does something exactly when the game is on and open, it is their turn, and the rules take it |
| EngineTurns.TurnPasses | internal/game/engine.go:522-543 | Unless the rules named a seat, a turn over passes to the seat after |
| EngineTurns.LeaverPassesTheTurn | internal/game/engine.go:440-451 | A seat taken out leaves whoever was on turn on turn, or hands it to the seat after |
| EngineTurns.FailedStartCanRetry | internal/game/engine.go:234-296 | A start that fails leaves a waiting table with nothing announced and no timer |
| EngineWinner.WinnerIsRight | internal/game/engine.go:391-415 | However a game ends, the winner on record is the one announced: the first of the rules' standings, the last player left by forfeit, or nobody at a table everybody walked away from |
| EngineWinner.NextCrowns | internal/game/engine.go:391-502 | Every lock hold keeps that true |
| EngineClock.ClockNeverStops | internal/game/turnclock.go:15-35 | In any run without a panic in a player's own call, a clocked table in play always has somebody on turn and a timer or callback of the present generation after them, or a panic about to end it |
| EngineClock.NextTicks | internal/game/turnclock.go:15-110 | Each lock hold keeps that up |
| EngineClock.ActionCrashKeepsClock | internal/game/engine.go:331-360 | After a panic in a player's own action the clock runs on exactly when the hook left the cursor on a seat |
| EngineClock.StartCrashHasNoClock | internal/game/engine.go:246-287 | A start hook that panics is not rolled back and leaves a table in play with no clock |
| EngineClock.TurnsNeverHang | internal/game/turnclock.go:64-110 | With nobody acting, at most three lock holds of the clock move a ticking table to its next generation |
| EngineConduct.KeepingOnesWord | internal/game/rules.go:11-41 | Rules that keep their claims about waiting, playing and finished tables: under any run the claims hold, no error or panic ends a game, no clock move is refused, the clock never stops, no generation sees two actions, and seats are taken only after three missed turns in a row |
| EngineConduct.NextConducts | internal/game/turnclock.go:64-177 | Each lock hold keeps that up |
| EngineConduct.ClockMovesAreAccepted | internal/game/turnclock.go:46-52 | A move the clock plays in its own generation is never refused |
| EngineConduct.ClockEndsTheGame | internal/game/turnclock.go:64-177 | With everybody away for good the clock alone plays such a game to its end, in at most two lock holds a move |
| PokerEngine.PokerObeys | internal/game/poker/rules.go:41-754 | Poker's hooks keep such claims: a table is valid while in play, closed when finished, and every move and leave leaves fewer to come |
| PokerEngine.PokerUnderTheClock | internal/game/turnclock.go:64-177 | Poker in the engine, over any calls and callbacks: valid tables holding every chip handed out, closed matches, no error, no panic, no refused clock move, no stopped clock, and no seat taken before three missed turns in a row |
| PokerEngine.AutoPlayIsAccepted | internal/game/turnclock.go:46-52 | The check or fold the clock plays is accepted in whatever run |
| PokerEngine.MatchEndsByItself | internal/game/turnclock.go:64-177 | From any state of any run the clock alone finishes the match within 10000 lock holds for every chip on the table and one |
| PokerEngine.Played | internal/game/poker/rules.go:619-754 | The engine's step over the hooks ends in the table the poker model's step ends in |
| PokerEngine.GoodLeavesWell | internal/game/poker/rules.go:392-469 | So does the engine's leave |
| HeartsEngine.HeartsObeys | internal/game/hearts/rules.go:45-348 | Hearts' hooks keep such claims |
| HeartsEngine.HeartsUnderTheClock | internal/game/turnclock.go:64-177 | Hearts in the engine, over any calls and callbacks: the same, with a finished match having somebody at the target or gone |
| HeartsEngine.MatchEndsByItself | internal/game/turnclock.go:64-177 | From any state of any run the clock alone finishes the match within 1826 lock holds |
| EngineSafety.EndedOnceAndSeatsKept | internal/game/engine.go:391-415 | The end is announced exactly once and only when finished; seated and departed together are always the opening seats |
| EngineSafety.StaleCallbacksDoNothing | internal/game/turnclock.go:64-94 | A timer or callback of an older generation changes nothing |
| EngineSafety.PhaseOnlyAdvances | internal/game/engine.go:234-296 | Waiting, playing, finished, never back |
| EngineSafety.NextKeeps | internal/game/turnclock.go:64-177 | Every lock hold keeps the invariant, whoever calls and whatever panics |
| EngineSafety.RunKeeps | internal/game/turnclock.go:64-177 | So does every run |
| EngineSafety.PerformKeeps | internal/game/engine.go:331-387 | An action keeps it, be it applied, failed or panicked |
| EngineSafety.RemoveKeeps | internal/game/engine.go:424-502 | A leave keeps it |
| EngineSafety.ResolveKeeps | internal/game/turnclock.go:112-151 | Charging a miss keeps it, and a seat is only slated for removal when deserved |
| EngineSafety.LandKeeps | internal/game/turnclock.go:64-110 | The second lock hold of a callback keeps it |
| EngineSafety.StartKeeps | internal/game/engine.go:234-296 | A start keeps it, failed, panicked or not |
| Engine.Engine.ArmTurnTimer | internal/game/turnclock.go:15-35 | A new generation, and a timer only for a live, clocked game with seats |
| Engine.Engine.ApplyNextTurn | internal/game/engine.go:522-543 | The asked-for or following seat, wrapped into range |
| Engine.Engine.FinishGame | internal/game/engine.go:391-415 | The fields afterwards: finished, the end logged, and the winner the first of the standings, else the fallback, else the first seat |
| Engine.Engine.Start | internal/game/engine.go:234-296 | One lock hold of the live engine, invariant kept |
| Engine.Engine.SubmitAction | internal/game/engine.go:311-315 | The same, for a player's own action |
| Engine.Engine.SubmitLocked | internal/game/engine.go:331-387 | Refused, broken, panicked or announced, as specified |
| Engine.Engine.RemovePlayer | internal/game/engine.go:417-421 | The same, for a leave |
| Engine.Engine.RemoveLocked | internal/game/engine.go:424-502 | Before-hook, seat removed, after-hook, then the game settled |
| Engine.Engine.ResolveTurnTimeout | internal/game/turnclock.go:112-151 | First lock hold of a callback |
| Engine.Engine.RemoveIfStillIdle | internal/game/turnclock.go:162-177 | Takes the seat only in the same generation |
| Engine.Engine.SubmitTimedOutAction | internal/game/engine.go:320-327 | Plays only in the same generation |
| Engine.Engine.RecoverRulesPanic | internal/game/turnclock.go:98-110 | A panic on the clock ends a game still in play |
| Engine.Engine.Continue | internal/game/turnclock.go:64-94 | Any later lock hold of a callback keeps the invariant |
| Engine.Engine.Close | internal/game/engine.go:506-512 | Closing strands the clock |
| EngineStandings.SortIsStable | internal/game/rules.go:65-71 | Ascending, the same players, equals in seat order |
| EngineStandings.StandingsListEveryoneOnce | internal/game/engine.go:210-230 | Everybody who sat down is listed exactly once if and only if the rules ranked each seated player once and nobody who never sat down |
| EngineStandings.Places | internal/game/engine.go:168-194 | The loop over neighbours assigns the specified places |
| EngineStandings.PlacesAreCompetitionRanks | internal/game/engine.go:168-194 | Exactly place - 1 entries hold a better place |
| EngineStandings.SharedPlaceMeansLevel | internal/game/engine.go:168-194 | Entries sharing a place are level, and both seated or both gone |
| EngineStandings.LeaversNeverTieTheSeated | internal/game/engine.go:168-194 | Nobody who left shares a place with somebody seated |
| EngineStandings.SeatedTieExactlyWhenLevel | internal/game/engine.go:168-194 | Seated players share a place exactly when their scores are equal |
| HeartsRun.MatchIsSound | internal/game/hearts/rules.go:63-281 | Over any run the 52 cards stay the 52 cards, the state stays valid, hand 16 is the last, and the match ends only with somebody at the target or gone |
| HeartsPlay.NobodyRevokes | internal/game/hearts/rules.go:146-182 | In any run a card is taken exactly if it is held, follows suit unless the hand has none of it, leads a heart only with hearts broken or nothing else in hand, puts a point on the first trick only from a hand of nothing else, and opens the hand as the two of clubs |
| HeartsPlay.OnlyLawfulCardsCount | internal/game/hearts/rules.go:146-182 | The same of one card on one table |
| HeartsPlay.OnlyLawfulPassesCount | internal/game/hearts/rules.go:121-144 | A pass is taken exactly if it is three different cards of one's own |
| HeartsPlay.PlayMoves | internal/game/hearts/rules.go:198-281 | What an accepted card does to hands, trick, points and turn: the trick goes to the highest card of the suit led, with its points and the lead |
| HeartsPlay.PassMoves | internal/game/hearts/trick.go:20-39 | A pass is set aside until the fourth, and then every hand has lost three cards and got those of the seat to the right, to the left or across |
| HeartsPlay.HandIsScored | internal/game/hearts/trick.go:98-127 | The last trick adds everybody's points, or 26 to all but the seat that took every point, and ends the match exactly when somebody reaches the target |
| HeartsPlay.NextHandMovesOn | internal/game/hearts/rules.go:63-93 | The deal moves one seat on; the dealer passes first, or the two of clubs leads when nobody passes |
| HeartsLength.MatchRunsOut | internal/game/hearts/rules.go:184-281 | No run takes more than sixteen times 57 accepted actions: four passes, fifty-two cards and a deal |
| HeartsRun.StepIsSound | internal/game/hearts/rules.go:184-281 | Each step keeps the invariant; an accepted one lowers the rank |
| HeartsInvariant.TimeoutIsAccepted | internal/game/hearts/rules.go:299-322 | Whoever is on turn, the automatic move exists and is accepted |
| HeartsInvariant.SomeCardCanLead | internal/game/hearts/rules.go:154-182 | A leader always has a legal card: the two of clubs first, hearts only when broken or nothing else |
| HeartsInvariant.SomeCardCanFollow | internal/game/hearts/rules.go:154-182 | So has a follower: suit, and the first-trick point ban with its exemption |
| HeartsInvariant.HandAdds26Or78 | internal/game/hearts/trick.go:98-127 | A hand adds 26 to the totals, 78 after a shot moon |
| HeartsInvariant.MoonSparesTheShooter | internal/game/hearts/trick.go:98-127 | Points go to whoever took them, unless one seat took all 26: then it is spared and every other takes 26 |
| HeartsInvariant.DeckIsWorth26 | internal/game/hearts/trick.go:85-96 | The points of a whole deck |
| HeartsInvariant.AtMostSixteenHands | internal/game/hearts/rules.go:248-281 | No hand cap exists, and yet none is dealt past the sixteenth |
| HeartsInvariant.ThreeLowestPass | internal/game/hearts/trick.go:129-141 | The automatic pass is a legal one |
| HeartsRun.PassIsBijection | internal/game/hearts/trick.go:20-31 | No two seats pass to the same neighbour |
| HeartsRun.DeliveryAccounts | internal/game/hearts/trick.go:33-39 | Delivering the passes loses no card |
| HeartsRun.PassAccounts | internal/game/hearts/rules.go:190-197 | Setting cards aside loses no card |
| HeartsRun.PassReady | internal/game/hearts/rules.go:232-246 | After a pass the next seat is one that has not passed, or all hold thirteen and the two of clubs leads |
| HeartsRun.LayAccounts | internal/game/hearts/rules.go:198-209 | Laying a card loses no card |
| HeartsRun.WinnerTookTheTrick | internal/game/hearts/trick.go:69-83 | The trick goes to the highest card of the suit led |
| HeartsRun.PlayReady | internal/game/hearts/rules.go:248-281 | After a card: the order of play, hand sizes and points agree, or the hand is scored |
| HeartsRun.HandIsWorth26 | internal/game/hearts/rules.go:248-281 | Thirteen tricks hand out exactly 26 points |
| HeartsRun.HandEnds | internal/game/hearts/rules.go:262-281 | The last trick scores the hand and ends the match once somebody reaches the target |
| HeartsRun.HandBegins | internal/game/hearts/rules.go:63-93 | A deal gives thirteen each and the 52 cards |
| HeartsMatch.Match.Begin | internal/game/hearts/rules.go:63-93 | The deal on the live match |
| HeartsMatch.Match.SetAside | internal/game/hearts/rules.go:190-197 | A pass on the live match |
| HeartsMatch.Match.ApplyAllPasses | internal/game/hearts/trick.go:33-39 | The delivery loop |
| HeartsMatch.Match.FinishPass | internal/game/hearts/rules.go:232-246 | What follows a pass |
| HeartsMatch.Match.SweepTrick | internal/game/hearts/state.go:95-102 | A won trick is swept as the next one opens |
| HeartsMatch.Match.Lay | internal/game/hearts/rules.go:198-209 | A card laid, hearts broken, the trick's suit set by its leader |
| HeartsMatch.Match.FindWinner | internal/game/hearts/trick.go:69-83 | The loop over the trick finds the specified winner |
| HeartsMatch.Match.Score | internal/game/hearts/trick.go:98-127 | The scoring loop, a shot moon included |
| HeartsMatch.Match.FinishPlay | internal/game/hearts/rules.go:248-281 | What follows a card |
| HeartsMatch.Match.FirstLegalCard | internal/game/hearts/trick.go:143-150 | The scan finds the first card the rules take, and so, by `HeartsPlay.LawfulIsValid`, the first lawful one |
| HeartsMatch.Match.Act | internal/game/hearts/rules.go:95-214 | An action keeps the live match sound; a rejected one changes nothing, and which are rejected is `HeartsPlay.OnlyLawfulCardsCount` |
| Elo.Calculate | internal/elo/elo.go:67-103 | The method returns the specified ratings |
| Elo.SettlePairs | internal/elo/elo.go:82-92 | The loop over neighbours accumulates the specified changes |
| Elo.SortBlocks | internal/elo/elo.go:122-138 | The loop sorts each tied block in place of the input order |
| Elo.ExchangeIsFair | internal/elo/elo.go:109-153 | A pair keeps both ratings in range, creates nothing, never costs the better placed a point nor pays an established player from a provisional one, and moves neither by 32 |
| Elo.ClampIsIdentity | internal/elo/elo.go:22-28 | The final clamp changes nothing |
| Elo.NewRatingIsNear | internal/elo/elo.go:67-103 | Every result is in [100, 4000], less than 48 from the old rating |
| Elo.TotalNeverGrows | internal/elo/elo.go:109-120 | The total never grows, and is kept when no provisional player neighbours an established one |
| Elo.StoredDrifts | internal/elo/elo.go:30-32 | Rounding each rating on its own moves a total by at most half a point a player |
| Elo.StoredTotalNeverGrowsBeyondRounding | internal/elo/elo.go:55-66 | So what a table stores exceeds what it brought by no more than that |
| Elo.NewTotal | internal/elo/elo.go:67-103 | The new total is the old one plus what the chain moved |
| Elo.TieOrderIsIrrelevant | internal/elo/elo.go:122-138 | Permuting players inside tied blocks changes nobody's rating |
| Elo.NormalizeKeeps | internal/elo/elo.go:122-138 | Normalising keeps every player |
| EloUpsets.BeatingTheStrongerPays | internal/elo/elo.go:67-103 | In a match of two, beating a higher rated player never ends lower than beating a lower rated one, when more is expected of higher ratings |
| EloUpsets.UpsetsMoveMore | internal/elo/elo.go:140-153 | A win moves no less when more was expected of the loser or less of the winner |
| EloUpsets.DrawsFavourTheLowerRated | internal/elo/elo.go:140-146 | A draw moves points to the lower rated of the two, and none between equals |
| EloUpsets.TwoPlayers | internal/elo/elo.go:67-103 | A match of two is one exchange |
| Shed.ReshuffleConserves | internal/game/shed.go:16-29 | Recycling the discard pile loses no card |
| Shed.DrawIntoConserves | internal/game/uno/rules.go:224-245 | Drawing, recycling as needed, loses no card |
| Shed.LeavingConserves | internal/game/shed.go:33-43 | A leaver's hand returns to the stock before the seat goes |
| Shed.OpeningConserves | internal/game/shed.go:80-111 | Opening the pile loses no card and fails only on a stock without a playable one |
| Shed.TurnPassesClockwise | internal/game/engine.go:440-451 | The turn stays with its player, or passes to the leaver's clockwise neighbour |
| ShedPlay.DrawTakesWhatThereIs | internal/game/uno/rules.go:224-245 | A draw of n takes n cards, or all there are with the pile recycled, into one hand, and leaves the card in play |
| Shed.Table.ReshuffleDiscardIntoStock | internal/game/shed.go:16-29 | All but the top card of the pile, shuffled, becomes the stock |
| Shed.Table.DrawCardsInto | internal/game/uno/rules.go:224-245 | The drawing loop, and whether anything was drawn |
| Shed.Table.ReturnHandToStock | internal/game/shed.go:33-43 | The hand goes back and the stock is shuffled |
| Shed.Table.Open | internal/game/shed.go:89-111 | The loop that sets unplayable openers aside |
| Uno.ApplyConserves | internal/game/uno/rules.go:138-174 | Plays, draws and penalties lose no card |
| Uno.StartConserves | internal/game/uno/rules.go:32-75 | So does the opening card and its effect |
| Uno.LeaveConserves | internal/game/uno/rules.go:259-294 | So does a leave |
| Uno.StepIsSound | internal/game/uno/rules.go:88-174 | A step keeps cards, seats, direction and cursor |
| Uno.RunConserves | internal/game/uno/rules.go:138-294 | So does any run |
| UnoPlay.OnlyLawfulCardsCount | internal/game/uno/rules.go:88-174 | A card changes the table exactly if it is held and of the colour in play or the rank on top, or wild with a colour named, a wild draw four only from a hand without the colour in play; and then it does what is printed on it |
| UnoPlay.CardDoes | internal/game/uno/rules.go:138-206 | The card leaves the hand for the pile, the colour follows it, the next seat draws two or four or all there is and is skipped, a reverse turns the direction or skips with two seats |
| UnoPlay.DrawsAlwaysCount | internal/game/uno/rules.go:208-222 | A draw is always taken: one card if there is one, else a pass counted, and the turn goes on |
| UnoPlay.OpeningCardActs | internal/game/uno/rules.go:32-75 | The pile opens on a plain card of the colour then in play, and that card skips, turns, or has the first seat draw two |
| UnoPlay.RunShowsColor | internal/game/uno/rules.go:88-294 | However a game goes, the colour in play is the one the pile shows or the one named for the wild on top |
| Uno.TurnFollowsDirection | internal/game/uno/rules.go:273-294 | With two or more staying, the turn stays or passes to the leaver's neighbour in the direction of play |
| Uno.Match.Perform | internal/game/uno/rules.go:138-174 | An action on the live match |
| Uno.Match.ForceDraw | internal/game/uno/rules.go:199-206 | The next player draws and is skipped |
| Uno.Match.TurnAround | internal/game/uno/rules.go:187-197 | The direction turns; with two seats a reverse is a skip |
| Uno.Match.Remove | internal/game/uno/rules.go:259-294 | A leave on the live match |
| CrazyEight.StepConserves | internal/game/crazyeight/rules.go:114-155 | An accepted action keeps the cards and a seat on turn |
| CrazyEight.RunConserves | internal/game/crazyeight/rules.go:114-177 | However a game goes, it is played with the cards it started with |
| CrazyEightPlay.OnlyLawfulCardsCount | internal/game/crazyeight/rules.go:70-155 | A card changes the table exactly if it is held and of the suit in play or the rank on top, or an eight with a suit named; and then only the hand, the pile, the suit and the turn move |
| CrazyEightPlay.DrawsAlwaysCount | internal/game/crazyeight/rules.go:133-155 | A draw is always taken: one card if there is one, else a pass counted |
| CrazyEightPlay.RunShowsSuit | internal/game/crazyeight/rules.go:70-177 | However a game goes, the suit in play is the one the pile shows or the one named for the eight on top |
| CrazyEightPlay.OpeningShows | internal/game/crazyeight/rules.go:40-54 | The pile opens on a card that is no eight, of the suit then in play |
| CrazyEight.LeaveConserves | internal/game/crazyeight/rules.go:171-177 | A leave keeps the cards, and the turn stays or passes clockwise |
| CrazyEight.StartConserves | internal/game/crazyeight/rules.go:40-54 | The opening fails only on a stock of eights |
| CrazyEight.Match.Perform | internal/game/crazyeight/rules.go:114-155 | An action on the live match |
| Limiter.SlidingWindowLimiter.NeverTooMany | internal/ratelimit/limiter.go:41-70 | A key never evicted gets at most limit admitted calls in any half-open window |
| Limiter.SpacedMeansFew | internal/ratelimit/limiter.go:41-70 | Calls limit apart by a whole window put no more than limit into one |
| Limiter.KeptAges | internal/ratelimit/limiter.go:75-88 | Forgetting expired stamps keeps the record a faithful tail of the history |
| Limiter.SlidingWindowLimiter.Allow | internal/ratelimit/limiter.go:41-70 | Admits exactly when the key's recent record is short of the limit, which for a key never evicted is exactly when fewer than limit admitted calls lie in the window; a key is lost only to admit a new one into a full table |
| Limiter.RecordCounts | internal/ratelimit/limiter.go:48-57 | The pruned record of a key never evicted is as long as the window has admitted calls in it |
| Limiter.SlidingWindowLimiter.Settle | internal/ratelimit/limiter.go:48-53 | The key's record filtered, and dropped when nothing is left of it |
| Limiter.SlidingWindowLimiter.EvictExpired | internal/ratelimit/limiter.go:79-88 | The sweep filters every key and keeps no empty one |
| Limiter.SlidingWindowLimiter.EvictOne | internal/ratelimit/limiter.go:96-101 | Drops one arbitrary key |
| Limiter.SlidingWindowLimiter.MakeRoom | internal/ratelimit/limiter.go:59-61 | The table never holds more than maxKeys keys |
| Deck.Pile.Shuffle | internal/deck/deck.go:25-31 | A permutation, whatever the random source answers |
| Deck.Pile.Draw | internal/deck/deck.go:40-48 | The top card, or an error that changes nothing |
| Deck.Pile.DrawNCards | internal/deck/deck.go:50-62 | The top n cards, or an error that changes nothing |
| Deck.Pile.AddCard | internal/deck/deck.go:64-66 | Cards on top |

## Left out

- Terminal interface, SSH, HTTP, web, metrics, configuration and database: no rules in them.
- Lobby and match storage: locking around the engine, and two easy pure functions.
- Logging, error texts and state snapshots. Broadcasts are entries in a log; channels and slow listeners are not modelled.
- Turn deadlines and per-game time limits: only that a timer may fire matters.
- Rules' hooks for validation, standings, scores, the win test and the timeout move are taken not to panic, being reads. Panics in the
  start, apply, after and leave hooks are modelled: on the clock they end the game, in a player's own call the table plays on.
- HeartsEngine.Hooks: the ranking is the order of the seats, which only names the winner; in `PokerEngine.Hooks` it is the real one.
- Gin Rummy and the shedding games are not put under the engine's clock; their runs are those of their own modules.
- The hooks of arbitrary rules may move the cursor, ask for a next turn and change their own books; they cannot change the seats, the
  phase or the winner. Poker's hook that starts a hand sets the winner to none, which it already is while a game is in play.
- What a hook that fails or panics leaves half-written in its own books: any value is allowed there.
- The engine's opening deal is part of the start hook's effect, and a failing random source is a failing start.
- Aliasing of slices (a caller keeping the cards it passed, the limiter filtering in place): sequences are values here, so what
  cloning protects against does not arise.
- A poker table that every seat abandons mid-hand keeps its pot unpaid, as in the source: `PokerRun.Closed` says so.
- The warning logged when poker chips do not add up: the equation is part of the invariant instead.
- Poker standings by the cards last held use the evaluator's score as it stands; what a table shows of it is not modelled.
- Gin Rummy: somebody leaving ends the match in the engine, so its runs are of actions and timeouts. The run theorems let a knock
  score anything; what it does score is the contract of `GinMatch.ComputeKnockOutcome`.
- GinMeldSearch.BestMeldSplit: optimal for hands of at most 16 distinct standard cards; a bigger hand is all deadwood, as in the
  source, and hands with repeated cards do not occur in the game.
- Hearts: seats stand for players, since anybody leaving ends the match, and the cards already taken are kept although the source
  forgets them.
- Elo.Calculate: floating-point error and not-a-number ratings are not modelled, nor is the logistic curve, of which only its
  range, its monotony and its symmetry are used. What is stored is the real rating rounded to the nearest point.
- Limiter.SlidingWindowLimiter.Allow: the operation counter is unbounded where the source's wraps after 2^64 calls, which would only move a sweep.
- Uno and Crazy Eights: no bound on the length of a game, because there is none; Uno's list of 108 cards is any list.
- Crazy Eights' and the shedding games' leave is proved on values; the engine's own step is the one modelled for all games.
