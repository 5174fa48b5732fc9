/** The poker table as the source keeps it: one object whose maps and fields the rules update in place. */
module PokerGame {
  import opened Cards
  import opened Options
  import opened Sums
  import opened PokerMoney
  import opened PokerPotLoops
  import opened PokerRules
  import opened PokerInvariant
  import opened PokerRun

  // ---- How one loop step changes a sum ----

  lemma PlusOneMore(m: map<Id, nat>, d: map<Id, nat>, k: Id, v: nat)
    requires k !in d
    ensures Plus(m, d[k := v]) == Plus(m, d)[k := At(Plus(m, d), k) + v]
  {
  }

  lemma PlusNothing(m: map<Id, nat>)
    ensures Plus(m, map[]) == m
  {
  }

  lemma OverOneMore(m: map<Id, nat>, k: Id, v: nat, x: nat)
    requires k !in m
    ensures Over(m[k := v], x) == Over(m, x)[k := v - Min(v, x)]
  {
  }

  /** What is returned of the contributions seen so far never exceeds them all. */
  lemma {:induction false} OverSeenFits(m: map<Id, nat>, todo: set<Id>, x: nat)
    requires todo <= m.Keys
    ensures Total(Over(Seen(m, todo), x)) <= Total(m)
  {
    if todo == {} {
      assert Seen(m, {}) == m;
      CapAndOver(m, x);
    } else {
      var k :| k in todo;
      OverSeenGrows(m, todo, k, x);
      TotalInsert(Over(Seen(m, todo), x), k, m[k] - Min(m[k], x));
      OverSeenFits(m, todo - {k}, x);
    }
  }

  lemma OverSeenGrows(m: map<Id, nat>, todo: set<Id>, k: Id, x: nat)
    requires k in m && k in todo
    ensures Over(Seen(m, todo - {k}), x) == Over(Seen(m, todo), x)[k := m[k] - Min(m[k], x)]
    ensures k !in Over(Seen(m, todo), x)
  {
    SeenGrows(m, todo, k);
    OverOneMore(Seen(m, todo), k, m[k], x);
  }

  /** Where returning unmatched chips stands with todo still to look at. */
  ghost predicate Returned(l: Ledger, todo: set<Id>, x: nat, chips: map<Id, nat>, pool: nat) {
    var back := Over(Seen(l.contributed, todo), x);
    && todo <= l.contributed.Keys <= l.chips.Keys && chips.Keys == l.chips.Keys
    && chips == Plus(l.chips, back) && pool + Total(back) == l.pool
  }

  lemma ReturnedNothing(l: Ledger, x: nat)
    requires l.Unpaid()
    ensures Returned(l, l.contributed.Keys, x, l.chips, l.pool)
  {
    assert Seen(l.contributed, l.contributed.Keys) == map[] && Over(map[], x) == map[];
    PlusNothing(l.chips);
  }

  lemma StackReturned(m: map<Id, nat>, before: map<Id, nat>, chips: map<Id, nat>, k: Id, back: nat)
    requires chips == Plus(m, before) && chips.Keys == m.Keys && k in m && k !in before
    ensures var r := if back > 0 then chips[k := chips[k] + back] else chips;
            r == Plus(m, before[k := back]) && r.Keys == m.Keys
  {
    PlusOneMore(m, before, k, back);
  }

  lemma ReturnedGrows(l: Ledger, todo: set<Id>, x: nat, chips: map<Id, nat>, pool: nat, k: Id)
    requires l.Unpaid() && Returned(l, todo, x, chips, pool) && k in todo
    ensures var back := l.contributed[k] - Min(l.contributed[k], x);
            && k in chips && back <= pool
            && Returned(l, todo - {k}, x, if back > 0 then chips[k := chips[k] + back] else chips, pool - back)
  {
    var before, back := Over(Seen(l.contributed, todo), x), l.contributed[k] - Min(l.contributed[k], x);
    OverSeenGrows(l.contributed, todo, k, x);
    StackReturned(l.chips, before, chips, k, back);
    TotalInsert(before, k, back);
    OverSeenFits(l.contributed, todo - {k}, x);
  }

  lemma ReturnedAll(l: Ledger, x: nat, chips: map<Id, nat>, pool: nat)
    requires Returned(l, {}, x, chips, pool)
    ensures chips == Plus(l.chips, Over(l.contributed, x)) && pool + Total(Over(l.contributed, x)) == l.pool
    ensures chips.Keys == l.chips.Keys
  {
    assert Seen(l.contributed, {}) == l.contributed;
  }

  lemma {:induction false} KeepOneMore(ids: seq<Id>, i: nat, keep: set<Id>)
    requires i < |ids|
    ensures Keep(ids[..i + 1], keep) == Keep(ids[..i], keep) + if ids[i] in keep then [ids[i]] else []
    decreases i
  {
    if i > 0 {
      KeepOneMore(ids[1..], i - 1, keep);
      assert ids[..i + 1][1..] == ids[1..][..i] && ids[..i][1..] == ids[1..][..i - 1];
    } else {
      assert ids[..1] == [ids[0]];
    }
  }

  /** Best hands seen so far in one pot. */
  ghost predicate BestSoFar(seen: set<Id>, scores: map<Id, int>, best: int, winners: set<Id>) {
    && winners == BestOf(seen, scores)
    && (seen == {} ==> best == -1)
    && (seen != {} ==> forall id | id in winners :: ScoreOf(scores, id) == best)
    && forall id | id in seen :: ScoreOf(scores, id) <= best
  }

  lemma BestGrows(seen: set<Id>, scores: map<Id, int>, best: int, winners: set<Id>, id: Id)
    requires BestSoFar(seen, scores, best, winners) && id !in seen && ScoreOf(scores, id) >= 0
    ensures var score := ScoreOf(scores, id);
            BestSoFar(seen + {id}, scores, Maxi(best, score),
                      if score > best then {id} else if score == best then winners + {id} else winners)
  {
    if seen != {} {
      SomebodyIsBest(seen, scores);
    }
  }

  function Maxi(a: int, b: int): int {
    if a >= b then a else b
  }

  lemma DrawnOneMore(pile: seq<Card>, k: nat)
    requires k < |pile|
    ensures Drawn(pile, k + 1) == Drawn(pile, k) + [pile[|pile| - k - 1]]
  {
    assert pile[|pile| - k - 1..][1..] == pile[|pile| - k..];
  }

  /** So far k of the cards under the burn are on the board. */
  ghost predicate Turned(rest: seq<Card>, k: nat, up: seq<Card>, deck: seq<Card>, board: seq<Card>) {
    k <= |rest| && deck == rest[..|rest| - k] && board == up + Drawn(rest, k)
  }

  lemma TurnedOneMore(rest: seq<Card>, k: nat, up: seq<Card>, deck: seq<Card>, board: seq<Card>)
    requires Turned(rest, k, up, deck, board) && deck != []
    ensures Turned(rest, k + 1, up, deck[..|deck| - 1], board + [deck[|deck| - 1]])
  {
    DrawnOneMore(rest, k);
  }

  lemma BurnRunsDry(full: seq<Card>, up: seq<Card>, n: nat, k: nat, board: seq<Card>)
    requires full != [] && k < n && Turned(full[..|full| - 1], k, up, [], board)
    ensures BurnAndTurn(full, up, n) == Street(false, [], board)
  {
    assert full[..|full| - 1][0..] == full[..|full| - 1];
  }

  lemma BurnSuffices(full: seq<Card>, up: seq<Card>, n: nat, deck: seq<Card>, board: seq<Card>)
    requires full != [] && Turned(full[..|full| - 1], n, up, deck, board)
    ensures BurnAndTurn(full, up, n) == Street(true, deck, board)
  {
  }

  lemma StampedOneMore(busted: map<Id, nat>, broke: set<Id>, hand: nat, id: Id)
    ensures var so := Stamped(busted, broke, hand);
            Stamped(busted, broke + {id}, hand) == if id in so then so else so[id := hand]
  {
  }

  /** What a fold-out leaves, in terms of what is back in the stacks and still in the pool. */
  lemma UncontestedIs(l: Ledger, winner: Id, chips: map<Id, nat>, pool: nat)
    requires l.Unpaid()
    requires chips == Plus(l.chips, Over(l.contributed, At(l.contributed, winner)))
    requires pool + Total(Over(l.contributed, At(l.contributed, winner))) == l.pool
    ensures AwardUncontested(l, winner) == Ledger(chips[winner := At(chips, winner) + pool], l.contributed, 0)
  {
    CapAndOver(l.contributed, At(l.contributed, winner));
    PlusOneMore(chips, map[], winner, pool);
    PlusNothing(chips);
  }

  /** A showdown in terms of what the refund leaves. */
  lemma PayShowdownIs(l: Ledger, live: set<Id>, scores: map<Id, int>)
    requires l.Unpaid() && LiveMoney(RefundUncalled(l).contributed, live)
    ensures var r := RefundUncalled(l);
            && SumPots(SidePots(r.contributed, live)) == r.pool
            && PayShowdown(l, live, scores) == Ledger(AwardPots(r.chips, SidePots(r.contributed, live), scores),
                                                      r.contributed, 0)
  {
    RefundKeepsLedger(l);
    PotsCoverContributions(RefundUncalled(l).contributed, live);
  }

  lemma DealHandEnds(t: Table, shuffled: seq<Card>, blank: Table, d: Table, ok: bool)
    requires blank == ResetForHand(t).(handNumber := t.handNumber + 1, deck := shuffled,
                                       startChips := Total(t.money.chips))
    requires DealHoleCards(blank) == if ok then Ok(d) else Broken(d)
    ensures DealHand(t, shuffled) == if ok && |d.deck| >= MIN_DECK_AFTER_DEAL then Ok(d) else Broken(d)
  {
  }

  lemma Absorbed(base: set<Id>, part: set<Id>, whole: set<Id>)
    requires part <= whole
    ensures (base + part) + whole == base + whole && part <= base + part
  {
  }

  /** A deal that ran out of cards stays as it was. */
  lemma {:induction false} DealStops(ids: seq<Id>, chips: map<Id, nat>, start: Deal, i: nat, n: nat)
    requires i <= n <= |ids| && !DealRound(ids, chips, start, i).ok
    ensures DealRound(ids, chips, start, n) == DealRound(ids, chips, start, i)
    decreases n
  {
    if i < n {
      DealStops(ids, chips, start, i, n - 1);
    }
  }

  /** A live player still has chips in after the refund when two contributions were not zero, one of them live. */
  lemma LiveAfterRefund(l: Ledger, live: set<Id>)
    ensures LiveMoney(RefundUncalled(l).contributed, live)
       <==> Second(l.contributed) > 0 && LiveMoney(l.contributed, live)
  {
    var m := RefundUncalled(l).contributed;
    forall id ensures At(m, id) == Min(At(l.contributed, id), Second(l.contributed)) {
    }
    if Second(l.contributed) > 0 && LiveMoney(l.contributed, live) {
      var id :| id in live && At(l.contributed, id) > 0;
      assert At(m, id) > 0;
    }
    if LiveMoney(m, live) {
      var id :| id in live && At(m, id) > 0;
      assert At(l.contributed, id) > 0;
    }
  }

  lemma ContendersAreLive(t: Table)
    requires !RunShowdown(t).Crash?
    ensures Elements(Contenders(t)) == Live(t)
    ensures t.money.Unpaid() && Second(t.money.contributed) > 0 && LiveMoney(t.money.contributed, Live(t))
  {
    LiveAfterRefund(t.money, Live(t));
  }

  lemma ShowdownIs(t: Table, pots: seq<Pot>, winners: seq<Id>, money: Ledger)
    requires !RunShowdown(t).Crash?
    requires pots == SidePots(RefundUncalled(t.money).contributed, Live(t))
    requires winners == AllWinners(pots, HandScores(Contenders(t), t))
    requires money == PayShowdown(t.money, Live(t), HandScores(Contenders(t), t))
    ensures var paid := t.(pots := pots, winners := winners, money := money);
            RunShowdown(t) == Ok(paid.(phase := Showdown, reachedShowdown := true, handComplete := true))
  {
  }

  /** The streets still to come, without the showdown. */
  function DealRest(t: Table): Outcome
    decreases StreetsLeft(t.phase)
  {
    if LastStreet(t.phase) then Ok(t)
    else
      var dealt := AdvanceStreet(t);
      if dealt.Ok? then DealRest(dealt.t) else dealt
  }

  lemma {:induction false} RunOutIs(t: Table)
    ensures var dealt := DealRest(t);
            RunOutBoard(t) == if dealt.Ok? then RunShowdown(dealt.t) else dealt
    decreases StreetsLeft(t.phase)
  {
    if !LastStreet(t.phase) && AdvanceStreet(t).Ok? {
      RunOutIs(AdvanceStreet(t).t);
    }
  }

  class Game {
    var players: seq<Id>
    var left: seq<Id>
    var turn: nat
    var next: Option<nat>
    var deck: seq<Card>
    var hole: map<Id, seq<Card>>
    var dealer: nat
    var sb: nat
    var bb: nat
    var chips: map<Id, nat>
    var contributed: map<Id, nat>
    var pool: nat
    var bets: map<Id, nat>
    var currentBet: nat
    var minRaise: nat
    var smallBlind: nat
    var bigBlind: nat
    var phase: Phase
    var folded: set<Id>
    var allIn: set<Id>
    var acted: set<Id>
    var board: seq<Card>
    var pots: seq<Pot>
    var handComplete: bool
    var winners: seq<Id>
    var reachedShowdown: bool
    var handNumber: nat
    var handsTotal: nat
    var matchComplete: bool
    var busted: map<Id, nat>
    var startChips: nat

    function Money(): Ledger
      reads this
    {
      Ledger(chips, contributed, pool)
    }

    function View(): Table
      reads this
    {
      Table(players, left, turn, next, deck, hole, dealer, sb, bb, Money(), bets, currentBet, minRaise, smallBlind,
            bigBlind, phase, folded, allIn, acted, board, pots, handComplete, winners, reachedShowdown, handNumber,
            handsTotal, matchComplete, busted, startChips)
    }

    // ---- Scans ----

    method RoundIsComplete() returns (complete: bool)
      ensures complete == BettingRoundComplete(View())
    {
      for i := 0 to |players|
        invariant forall j | 0 <= j < i :: !Owes(View(), players[j])
      {
        if Owes(View(), players[i]) {
          assert i in OwingSeats(View());
          return false;
        }
      }
      return true;
    }

    /** Scans clockwise from a seat, wrapping once around the table. */
    method ScanSeats(from: nat, n: nat, seats: set<nat>) returns (seat: int)
      ensures seat == NextSeat(from, n, seats)
    {
      var i := 1;
      while i <= n
        invariant 1 <= i <= n + 1
        invariant NextSeat(from, n, seats) == NextSeat(from, n, seats, i)
      {
        if (from + i) % n in seats {
          return (from + i) % n;
        }
        i := i + 1;
      }
      return -1;
    }

    method CountFunded() returns (count: nat)
      ensures count == |FundedSeats(View())|
    {
      count := 0;
      ghost var seen: set<nat> := {};
      for i := 0 to |players|
        invariant seen == set j | 0 <= j < i && Chips(View(), players[j]) > 0
        invariant count == |seen|
      {
        if Chips(View(), players[i]) > 0 {
          count := count + 1;
          seen := seen + {i};
        }
      }
      assert seen == FundedSeats(View());
    }

    method ListContenders() returns (live: seq<Id>)
      ensures live == Contenders(View())
    {
      ghost var active, standing := Elements(players) - folded, allIn - folded;
      live := [];
      for i := 0 to |players|
        invariant live == Keep(players[..i], active)
      {
        KeepOneMore(players, i, active);
        if players[i] !in folded {
          live := live + [players[i]];
        }
      }
      assert players[..|players|] == players;
      for i := 0 to |left|
        invariant live == Keep(players, active) + Keep(left[..i], standing)
      {
        KeepOneMore(left, i, standing);
        if left[i] !in folded && left[i] in allIn {
          live := live + [left[i]];
        }
      }
      assert left[..|left|] == left;
    }

    method ChipsInPlay() returns (total: nat)
      ensures total == Money().InPlay()
    {
      total := pool;
      var todo := chips.Keys;
      assert Seen(chips, todo) == map[];
      while todo != {}
        invariant todo <= chips.Keys
        invariant total == pool + Total(Seen(chips, todo))
      {
        var id :| id in todo;
        SeenGrows(chips, todo, id);
        TotalInsert(Seen(chips, todo), id, chips[id]);
        total := total + chips[id];
        todo := todo - {id};
      }
      assert Seen(chips, {}) == chips;
    }

    // ---- Moving chips ----

    /** Moves chips from a stack to this street's bet and to the pool. */
    method Pay(id: Id, amount: nat)
      requires amount <= At(chips, id)
      modifies this`chips, this`bets, this`contributed, this`pool, this`allIn
      ensures View() == PutIn(old(View()), id, amount)
    {
      MoveChips(id, amount);
      assert View() == old(View()).(money := Money(), bets := bets, allIn := allIn);
    }

    method MoveChips(id: Id, amount: nat)
      requires amount <= At(chips, id)
      modifies this`chips, this`bets, this`contributed, this`pool, this`allIn
      ensures Money() == Commit(old(Money()), id, amount)
      ensures bets == old(bets)[id := At(old(bets), id) + amount]
      ensures allIn == if amount == old(At(chips, id)) then old(allIn) + {id} else old(allIn)
    {
      chips := chips[id := At(chips, id) - amount];
      bets := bets[id := At(bets, id) + amount];
      contributed := contributed[id := At(contributed, id) + amount];
      pool := pool + amount;
      if At(chips, id) == 0 {
        allIn := allIn + {id};
      }
    }

    method CommitChips(id: Id, streetTotal: nat)
      modifies this`chips, this`bets, this`contributed, this`pool, this`allIn
      ensures View() == CommitTo(old(View()), id, streetTotal)
    {
      if streetTotal < At(bets, id) {
        return;
      }
      Pay(id, Min(streetTotal - At(bets, id), At(chips, id)));
    }

    method Blind(id: Id, amount: nat)
      modifies this`chips, this`bets, this`contributed, this`pool, this`allIn
      ensures View() == PostBlind(old(View()), id, amount)
    {
      Pay(id, Min(amount, At(chips, id)));
    }

    /** Everybody who can still answer owes an action again. */
    method Reopen(raiser: Id)
      modifies this`acted
      ensures acted == StillActed(old(acted), players, raiser, folded + allIn)
    {
      for i := 0 to |players|
        invariant acted == StillActed(old(acted), players[..i], raiser, folded + allIn)
      {
        if players[i] != raiser && players[i] !in folded && players[i] !in allIn {
          acted := acted - {players[i]};
        }
      }
      assert players[..|players|] == players;
    }

    /** Raises the bet; only a full-size raise gives players who already acted another turn. */
    method IncreaseBet(raiser: Id, newBet: nat)
      modifies this`currentBet, this`minRaise, this`acted
      ensures View() == ApplyBetIncrease(old(View()), raiser, newBet)
    {
      if newBet <= currentBet {
        return;
      }
      SetBet(raiser, newBet);
      assert View() == old(View()).(currentBet := currentBet, minRaise := minRaise, acted := acted);
    }

    method SetBet(raiser: Id, newBet: nat)
      requires newBet > currentBet
      modifies this`currentBet, this`minRaise, this`acted
      ensures currentBet == newBet
      ensures var raiseSize := newBet - old(currentBet);
              if raiseSize >= old(minRaise)
              then minRaise == raiseSize && acted == StillActed(old(acted), players, raiser, folded + allIn)
              else minRaise == old(minRaise) && acted == old(acted)
    {
      var raiseSize := newBet - currentBet;
      currentBet := newBet;
      if raiseSize >= minRaise {
        minRaise := raiseSize;
        Reopen(raiser);
      }
    }

    method RaiseBet(id: Id, streetTotal: nat)
      modifies this`chips, this`bets, this`contributed, this`pool, this`allIn, this`currentBet, this`minRaise, this`acted
      ensures View() == Raise(old(View()), id, streetTotal)
    {
      CommitChips(id, streetTotal);
      IncreaseBet(id, At(bets, id));
    }

    method Mark(id: Id)
      modifies this`acted
      ensures View() == MarkActed(old(View()), id)
    {
      acted := acted + {id};
    }

    method FoldHand(id: Id)
      modifies this`folded
      ensures View() == old(View()).(folded := old(folded) + {id})
    {
      folded := folded + {id};
    }

    method Shove(id: Id)
      modifies this`chips, this`bets, this`contributed, this`pool, this`allIn, this`currentBet, this`minRaise, this`acted
      ensures var t := old(View()); var all := At(t.bets, id) + Chips(t, id);
              View() == if all > t.currentBet then Raise(t, id, all) else CommitTo(t, id, all)
    {
      var newBet := At(bets, id) + At(chips, id);
      if newBet > currentBet {
        RaiseBet(id, newBet);
      } else {
        CommitChips(id, newBet);
      }
    }

    method Apply(a: Action)
      requires turn < |players|
      modifies this`chips, this`bets, this`contributed, this`pool, this`allIn, this`folded, this`acted,
               this`currentBet, this`minRaise
      ensures View() == ApplyAction(old(View()), a)
    {
      var id := players[turn];
      match a
      case Fold =>
        FoldHand(id);
        Mark(id);
        return;
      case Check =>
        Mark(id);
        return;
      case Call =>
        CommitChips(id, currentBet);
        Mark(id);
        return;
      case RaiseTo(amount) =>
        RaiseBet(id, amount);
        Mark(id);
        return;
      case AllIn =>
        Shove(id);
        Mark(id);
        return;
      case NextHand =>
    }

    // ---- Paying out ----

    /** The one player ahead of everybody else takes the unmatched part back. */
    method GiveBackUncalled()
      requires Money().Unpaid()
      modifies this`chips, this`contributed, this`pool
      ensures Money() == RefundUncalled(old(Money()))
    {
      var topID, top, second := LargestTwo(contributed);
      RefundIs(Money(), topID, top, second);
      if top == second {
        return;
      }
      var uncalled := top - second;
      contributed := contributed[topID := second];
      chips := chips[topID := chips[topID] + uncalled];
      pool := pool - uncalled;
    }

    method Split(ids: seq<Id>, amount: nat)
      requires ids != [] && Ascending(ids) && forall id | id in ids :: id in chips
      modifies this`chips
      ensures chips == Plus(old(chips), Shares(ids, amount))
    {
      var share, rem := amount / |ids|, amount % |ids|;
      PlusNothing(chips);
      for i := 0 to |ids|
        invariant chips == Plus(old(chips), PartShares(ids, share, rem, i))
      {
        var id := ids[i];
        PartSharesKeys(ids, share, rem, i, id);
        PlusOneMore(old(chips), PartShares(ids, share, rem, i), id, Portion(share, rem, i));
        assert id in chips;
        chips := chips[id := chips[id] + share];
        if i < rem {
          chips := chips[id := chips[id] + 1];
        }
      }
    }

    /** The best hands of one pot, in ID order. */
    method BestHands(pot: Pot, scores: map<Id, nat>) returns (best: seq<Id>)
      requires pot.eligible != {}
      ensures best == PotWinners(pot, scores) && best != [] && Ascending(best)
    {
      var bestScore, won: set<Id> := -1, {};
      var todo := pot.eligible;
      while todo != {}
        invariant todo <= pot.eligible
        invariant BestSoFar(pot.eligible - todo, scores, bestScore, won)
      {
        var id :| id in todo;
        BestGrows(pot.eligible - todo, scores, bestScore, won, id);
        assert pot.eligible - (todo - {id}) == (pot.eligible - todo) + {id};
        var score := ScoreOf(scores, id);
        if score > bestScore {
          bestScore := score;
          won := {id};
        } else if score == bestScore {
          won := won + {id};
        }
        todo := todo - {id};
      }
      assert pot.eligible - {} == pot.eligible;
      PotHasWinners(pot, scores);
      best := SortedSet(won);
    }

    /** Pays every pot, taking each out of the pool, and lists who took a share. */
    method PayAllPots(scores: map<Id, nat>)
      requires AllContested(pots) && SumPots(pots) <= pool
      requires forall i, id | 0 <= i < |pots| && id in pots[i].eligible :: id in chips
      modifies this`chips, this`pool, this`winners
      ensures chips == AwardPots(old(chips), pots, scores)
      ensures pool == old(pool) - SumPots(pots)
      ensures winners == AllWinners(pots, scores)
    {
      winners := [];
      assert pots[..0] == [];
      for i := 0 to |pots|
        invariant chips == AwardPots(old(chips), pots[..i], scores)
        invariant chips.Keys >= old(chips).Keys
        invariant pool + SumPots(pots[..i]) == old(pool)
        invariant winners == AllWinners(pots[..i], scores)
      {
        ghost var before := pots[..i];
        assert pots[..i + 1] == before + [pots[i]];
        PrefixSums(pots, i + 1);
        PayPot(pots[i], scores, old(chips), before);
      }
      assert pots[..|pots|] == pots;
    }

    /** Pays one pot out of the pool to its best hands. */
    method PayPot(pot: Pot, scores: map<Id, nat>, ghost was: map<Id, nat>, ghost before: seq<Pot>)
      requires pot.eligible != {} && pot.amount <= pool
      requires forall id | id in pot.eligible :: id in chips
      requires chips == AwardPots(was, before, scores) && winners == AllWinners(before, scores)
      modifies this`chips, this`pool, this`winners
      ensures chips == AwardPots(was, before + [pot], scores) && chips.Keys >= old(chips).Keys
      ensures pool == old(pool) - pot.amount
      ensures winners == AllWinners(before + [pot], scores)
    {
      assert (before + [pot])[..|before|] == before;
      var best := BestHands(pot, scores);
      assert forall id | id in best :: id in Elements(best);
      Split(best, pot.amount);
      pool := pool - pot.amount;
      winners := winners + Keep(best, Elements(best) - Elements(winners));
    }

    /** The last claimant: what nobody matched goes back first, then the rest of the pool is theirs. */
    method PayUncontested(winner: Id)
      requires Money().Unpaid()
      modifies this`chips, this`pool, this`pots
      ensures Money() == AwardUncontested(old(Money()), winner) && pots == []
    {
      var matched := At(contributed, winner);
      ghost var l := Money();
      ReturnUnmatched(winner, matched);
      UncontestedIs(l, winner, chips, pool);
      chips := chips[winner := At(chips, winner) + pool];
      pool := 0;
      pots := [];
    }

    method GiveBack(id: Id, amount: nat)
      requires id in chips && amount <= pool
      modifies this`chips, this`pool
      ensures chips == old(chips)[id := old(chips)[id] + amount] && pool == old(pool) - amount
    {
      chips := chips[id := chips[id] + amount];
      pool := pool - amount;
    }

    /** Gives one player back what they put in above matched. */
    method ReturnOne(id: Id, put: nat, winner: Id, matched: nat, ghost l: Ledger, ghost todo: set<Id>)
      requires l.Unpaid() && Returned(l, todo, matched, chips, pool)
      requires id in todo && put == l.contributed[id] && matched == At(l.contributed, winner)
      modifies this`chips, this`pool
      ensures Returned(l, todo - {id}, matched, chips, pool)
    {
      ReturnedGrows(l, todo, matched, chips, pool, id);
      if id != winner && put > matched {
        GiveBack(id, put - matched);
      }
    }

    method ReturnUnmatched(winner: Id, matched: nat)
      requires Money().Unpaid() && matched == At(contributed, winner)
      modifies this`chips, this`pool
      ensures chips == Plus(old(chips), Over(contributed, matched)) && chips.Keys == old(chips).Keys
      ensures pool + Total(Over(contributed, matched)) == old(pool)
    {
      var put := contributed;
      var todo := put.Keys;
      ghost var l := Money();
      ReturnedNothing(l, matched);
      while todo != {}
        invariant todo <= put.Keys && Returned(l, todo, matched, chips, pool)
      {
        var id :| id in todo;
        ReturnOne(id, put[id], winner, matched, l, todo);
        todo := todo - {id};
      }
      ReturnedAll(l, matched, chips, pool);
    }

    /** Hands every chip in the pool back to whoever put it in. */
    method Unwind()
      modifies this`chips, this`pool, this`pots
      ensures Money() == RefundContributions(old(Money())) && pots == []
    {
      var todo := contributed.Keys;
      assert Seen(contributed, todo) == map[];
      PlusNothing(chips);
      while todo != {}
        invariant todo <= contributed.Keys
        invariant chips == Plus(old(chips), Seen(contributed, todo))
      {
        var id :| id in todo;
        SeenGrows(contributed, todo, id);
        PlusOneMore(old(chips), Seen(contributed, todo), id, contributed[id]);
        chips := chips[id := At(chips, id) + contributed[id]];
        todo := todo - {id};
      }
      assert Seen(contributed, {}) == contributed;
      pool := 0;
      pots := [];
    }

    // ---- Streets ----

    /** The outcome of a hook that has just run: an error leaves whatever it had already changed. */
    function Done(ok: bool): Outcome
      reads this
    {
      if ok then Ok(View()) else Broken(View())
    }

    method ClearBets()
      modifies this`bets, this`acted, this`currentBet, this`minRaise
      ensures View() == ClearStreet(old(View()))
    {
      ZeroSeats();
      currentBet := 0;
      minRaise := bigBlind;
      assert View() == old(View()).(bets := bets, acted := acted, currentBet := currentBet, minRaise := minRaise);
    }

    method ZeroSeats()
      modifies this`bets, this`acted
      ensures bets == NoBets(old(bets), players) && acted == old(acted) - Elements(players)
    {
      for i := 0 to |players|
        invariant bets == NoBets(old(bets), players[..i]) && acted == old(acted) - Elements(players[..i])
      {
        assert players[..i + 1] == players[..i] + [players[i]];
        bets := bets[players[i] := 0];
        acted := acted - {players[i]};
      }
      assert players[..|players|] == players;
    }

    method CountCanBet() returns (count: nat)
      ensures count == |ActingSeats(View())|
    {
      count := 0;
      ghost var seen: set<nat> := {};
      for i := 0 to |players|
        invariant seen == set j | 0 <= j < i && !CannotAct(View(), players[j])
        invariant count == |seen|
      {
        if !CannotAct(View(), players[i]) {
          count := count + 1;
          seen := seen + {i};
        }
      }
      assert seen == ActingSeats(View());
    }

    /** Burns one card and turns n over, stopping where the deck runs dry. */
    method TurnOver(n: nat) returns (ok: bool)
      modifies this`deck, this`board
      ensures Street(ok, deck, board) == BurnAndTurn(old(deck), old(board), n)
    {
      if deck == [] {
        return false;
      }
      ghost var full, up := deck, board;
      deck := deck[..|deck| - 1];
      ghost var rest := deck;
      for k := 0 to n
        invariant Turned(rest, k, up, deck, board)
      {
        if deck == [] {
          BurnRunsDry(full, up, n, k, board);
          return false;
        }
        TurnedOneMore(rest, k, up, deck, board);
        board := board + [deck[|deck| - 1]];
        deck := deck[..|deck| - 1];
      }
      BurnSuffices(full, up, n, deck, board);
      return true;
    }

    method DealBoard(n: nat) returns (ok: bool)
      modifies this`deck, this`board
      ensures DealCommunity(old(View()), n) == Done(ok)
    {
      ghost var t := View();
      ok := TurnOver(n);
      assert View() == t.(deck := deck, board := board);
    }

    /** Deals the next street; reports when there is none left. */
    method DealStreet() returns (dealt: bool, ok: bool)
      modifies this`deck, this`board, this`phase
      ensures LastStreet(old(phase)) ==> !dealt && ok && View() == old(View())
      ensures !LastStreet(old(phase)) ==> dealt == ok && AdvanceStreet(old(View())) == Done(ok)
    {
      if LastStreet(phase) {
        return false, true;
      }
      ok := DealNext();
      return ok, ok;
    }

    method DealNext() returns (ok: bool)
      requires !LastStreet(phase)
      modifies this`deck, this`board, this`phase
      ensures AdvanceStreet(old(View())) == Done(ok)
      ensures ok ==> phase == NextPhase(old(phase))
    {
      ok := DealBoard(if phase == PreFlop then 3 else 1);
      if ok {
        phase := NextPhase(phase);
      }
    }

    method ShowDown()
      requires !RunShowdown(View()).Crash?
      modifies this`phase, this`reachedShowdown, this`handComplete, this`pots, this`winners,
               this`chips, this`contributed, this`pool
      ensures RunShowdown(old(View())) == Ok(View())
    {
      ghost var was := View();
      ContendersAreLive(was);
      var live := ListContenders();
      var scores := HandScores(live, View());
      PayOut(Elements(live), scores);
      ShowdownIs(was, pots, winners, Money());
      MarkShown();
    }

    method PayOut(live: set<Id>, scores: map<Id, nat>)
      requires Money().Unpaid() && Second(contributed) > 0 && LiveMoney(contributed, live)
      modifies this`pots, this`winners, this`chips, this`contributed, this`pool
      ensures View() == old(View()).(pots := pots, winners := winners, money := Money())
      ensures Money() == PayShowdown(old(Money()), live, scores)
      ensures pots == SidePots(RefundUncalled(old(Money())).contributed, live)
      ensures winners == AllWinners(pots, scores)
    {
      PayLive(live, scores);
    }

    method MarkShown()
      modifies this`phase, this`reachedShowdown, this`handComplete
      ensures View() == old(View()).(phase := Showdown, reachedShowdown := true, handComplete := true)
    {
      TurnUp();
      assert View() == old(View()).(phase := Showdown, reachedShowdown := true, handComplete := true);
    }

    method TurnUp()
      modifies this`phase, this`reachedShowdown, this`handComplete
      ensures phase == Showdown && reachedShowdown && handComplete
    {
      phase, reachedShowdown, handComplete := Showdown, true, true;
    }

    /** Refund, cut, pay. */
    method PayLive(live: set<Id>, scores: map<Id, nat>)
      requires Money().Unpaid() && Second(contributed) > 0 && LiveMoney(contributed, live)
      modifies this`pots, this`winners, this`chips, this`contributed, this`pool
      ensures Money() == PayShowdown(old(Money()), live, scores)
      ensures pots == SidePots(RefundUncalled(old(Money())).contributed, live)
      ensures winners == AllWinners(pots, scores)
    {
      LiveAfterRefund(Money(), live);
      PayShowdownIs(Money(), live, scores);
      RefundKeepsLedger(Money());
      GiveBackUncalled();
      CutAndPay(live, scores);
    }

    method CutAndPay(live: set<Id>, scores: map<Id, nat>)
      requires Money().Unpaid() && LiveMoney(contributed, live) && SumPots(SidePots(contributed, live)) == pool
      modifies this`pots, this`winners, this`chips, this`pool
      ensures pots == SidePots(contributed, live) && winners == AllWinners(pots, scores)
      ensures chips == AwardPots(old(chips), pots, scores) && pool == 0
    {
      CutPot(live);
      PayAllPots(scores);
    }

    method CutPot(live: set<Id>)
      requires Money().Unpaid() && LiveMoney(contributed, live)
      modifies this`pots
      ensures pots == SidePots(contributed, live) && AllContested(pots)
      ensures forall i, id | 0 <= i < |pots| && id in pots[i].eligible :: id in chips
    {
      pots := BuildSidePots(contributed, live);
      SidePotsContested(contributed, live);
      forall i, id | 0 <= i < |pots| && id in pots[i].eligible ensures id in chips {
        PotsAreContested(contributed, live, i);
      }
    }

    /** Deals whatever streets are left, then shows down. */
    method RunOut() returns (ok: bool)
      requires !RunOutBoard(View()).Crash?
      modifies this`deck, this`board, this`phase, this`reachedShowdown, this`handComplete, this`pots, this`winners,
               this`chips, this`contributed, this`pool
      ensures RunOutBoard(old(View())) == Done(ok)
    {
      RunOutIs(View());
      ok := DealOut();
      if ok {
        ShowDown();
      }
    }

    /** Deals whatever streets are left. */
    method DealOut() returns (ok: bool)
      modifies this`deck, this`board, this`phase
      ensures DealRest(old(View())) == Done(ok)
    {
      ghost var goal := DealRest(View());
      while phase != River && phase != Showdown
        invariant DealRest(View()) == goal
        decreases StreetsLeft(phase)
      {
        var dealt := DealOneMore(goal);
        if !dealt {
          return false;
        }
      }
      return true;
    }

    method DealOneMore(ghost goal: Outcome) returns (ok: bool)
      requires !LastStreet(phase) && DealRest(View()) == goal
      modifies this`deck, this`board, this`phase
      ensures if ok then DealRest(View()) == goal && StreetsLeft(phase) < StreetsLeft(old(phase))
              else goal == Broken(View())
    {
      ok := DealNext();
    }

    /** Closes a betting round: the next street, the whole board, or the showdown. */
    method Settle() returns (ok: bool)
      requires !SettleAndAdvance(View()).Crash?
      modifies this`bets, this`acted, this`currentBet, this`minRaise,
               this`deck, this`board, this`phase, this`reachedShowdown, this`handComplete, this`pots, this`winners,
               this`chips, this`contributed, this`pool
      ensures SettleAndAdvance(old(View())) == Done(ok)
    {
      ClearBets();
      var canStillBet := CountCanBet();
      var dealt, fine := DealStreet();
      if !fine {
        return false;
      }
      if !dealt {
        ShowDown();
        return true;
      }
      if canStillBet < 2 {
        ok := RunOut();
        return ok;
      }
      return true;
    }

    // ---- Closing a hand ----

    method StampBustouts()
      modifies this`busted
      ensures View() == RecordBustouts(old(View()))
    {
      ghost var t := View();
      StampBroke(players, chips, handNumber);
      assert View() == t.(busted := busted);
    }

    method StampBroke(ids: seq<Id>, stacks: map<Id, nat>, hand: nat)
      modifies this`busted
      ensures busted == Stamped(old(busted), Broke(ids, stacks), hand)
    {
      ghost var was, broke: set<Id> := busted, {};
      for i := 0 to |ids|
        invariant broke == Broke(ids[..i], stacks)
        invariant busted == Stamped(was, broke, hand)
      {
        var id := ids[i];
        assert ids[..i + 1] == ids[..i] + [id];
        if At(stacks, id) == 0 {
          StampedOneMore(was, broke, hand, id);
          broke := broke + {id};
          if id !in busted {
            busted := busted[id := hand];
          }
        }
      }
      assert ids[..|ids|] == ids;
    }

    /** Ends the match once the hands or the money run out, else parks the turn on the next dealer. */
    method CloseHand()
      modifies this`handComplete, this`phase, this`busted, this`matchComplete, this`turn, this`next
      ensures View() == FinishHand(old(View()))
    {
      handComplete := true;
      phase := Showdown;
      assert View() == old(View()).(handComplete := true, phase := Showdown);
      StampBustouts();
      EndOrParkTurn();
    }

    method EndOrParkTurn()
      modifies this`matchComplete, this`turn, this`next
      ensures View() == EndOrPark(old(View()))
    {
      ghost var t := View();
      var funded := CountFunded();
      if handNumber >= handsTotal || funded <= 1 {
        CallTheMatch();
        assert View() == t.(matchComplete := true, next := None);
        return;
      }
      var seat := NextFunded(dealer);
      Park(seat);
      assert View() == t.(turn := seat, next := Some(seat));
    }

    method CallTheMatch()
      modifies this`matchComplete, this`next
      ensures matchComplete && next == None
    {
      matchComplete, next := true, None;
    }

    method Park(seat: nat)
      modifies this`turn, this`next
      ensures turn == seat && next == Some(seat)
    {
      turn, next := seat, Some(seat);
    }

    method CloseWonBy(winner: Id)
      requires Money().Unpaid()
      modifies this`chips, this`pool, this`pots, this`winners,
               this`handComplete, this`phase, this`busted, this`matchComplete, this`turn, this`next
      ensures View() == FinishHand(old(View()).(money := AwardUncontested(old(Money()), winner), pots := [],
                                                winners := [winner]))
    {
      WinPool(winner);
      CloseHand();
    }

    method WinPool(winner: Id)
      requires Money().Unpaid()
      modifies this`chips, this`pool, this`pots, this`winners
      ensures View() == old(View()).(money := AwardUncontested(old(Money()), winner), pots := [], winners := [winner])
    {
      ghost var t := View();
      Collect(winner);
      assert View() == t.(money := Money(), pots := [], winners := [winner]);
    }

    method Collect(winner: Id)
      requires Money().Unpaid()
      modifies this`chips, this`pool, this`pots, this`winners
      ensures Money() == AwardUncontested(old(Money()), winner) && pots == [] && winners == [winner]
    {
      PayUncontested(winner);
      winners := [winner];
    }

    // ---- After an action ----

    method AfterBetting() returns (ok: bool)
      requires turn < |players| && !AfterBettingAction(View()).Crash?
      modifies this
      ensures AfterBettingAction(old(View())) == Done(ok)
    {
      if handComplete {
        return true;
      }
      var live := ListContenders();
      if |live| == 1 {
        CloseWonBy(live[0]);
        return true;
      }
      var complete := RoundIsComplete();
      if !complete {
        var seat := ScanSeats(turn, |players|, OwingSeats(View()));
        if seat >= 0 {
          next := Some(seat);
          return true;
        }
      }
      ok := SettleOrUnwind();
      if ok {
        Resume(false);
      }
    }

    /** Settles the round; a deck that runs dry sends the pot back to whoever put it in. */
    method SettleOrUnwind() returns (ok: bool)
      requires !SettleAndAdvance(View()).Crash?
      modifies this`bets, this`acted, this`currentBet, this`minRaise,
               this`deck, this`board, this`phase, this`reachedShowdown, this`handComplete, this`pots, this`winners,
               this`chips, this`contributed, this`pool
      ensures match SettleAndAdvance(old(View()))
              case Ok(s) => ok && View() == s
              case Broken(b) => !ok && View() == b.(money := RefundContributions(b.money), pots := [])
              case Crash => true
    {
      ok := Settle();
      if !ok {
        Abandon();
      }
    }

    method Abandon()
      modifies this`chips, this`pool, this`pots
      ensures View() == old(View()).(money := RefundContributions(old(Money())), pots := [])
    {
      Unwind();
      assert View() == old(View()).(money := Money(), pots := []);
    }

    /** A closed hand finishes; an open one hands the turn to the first seat after the button. */
    method Resume(park: bool)
      modifies this
      ensures var s := old(View());
              View() == if s.handComplete then FinishHand(s)
                        else if park then s.(turn := FirstToActPostflop(s), next := Some(FirstToActPostflop(s)))
                        else s.(next := Some(FirstToActPostflop(s)))
    {
      if handComplete {
        CloseHand();
        return;
      }
      var seat := ScanSeats(dealer, |players|, ActingSeats(View()));
      var first := if seat < 0 then turn else seat;
      if park {
        turn := first;
      }
      next := Some(first);
    }

    // ---- Dealing a hand ----

    method Reset()
      modifies this
      ensures View() == ResetForHand(old(View()))
    {
      ClearBooks();
      ClearTable();
    }

    method ClearBooks()
      modifies this`folded, this`allIn, this`bets, this`contributed, this`acted, this`pool
      ensures View() == old(View()).(folded := {}, allIn := {}, bets := map[], acted := {},
                                     money := Ledger(old(chips), map[], 0))
    {
      EmptyBooks();
      assert View() == old(View()).(folded := folded, allIn := allIn, bets := bets, acted := acted, money := Money());
    }

    method EmptyBooks()
      modifies this`folded, this`allIn, this`bets, this`contributed, this`acted, this`pool
      ensures folded == {} && allIn == {} && bets == map[] && contributed == map[] && acted == {} && pool == 0
    {
      folded, allIn, bets, contributed, acted, pool := {}, {}, map[], map[], {}, 0;
    }

    method ClearTable()
      modifies this`board, this`pots, this`winners, this`currentBet, this`minRaise, this`phase, this`handComplete,
               this`reachedShowdown
      ensures View() == old(View()).(board := [], pots := [], winners := [], currentBet := 0, minRaise := bigBlind,
                                     phase := PreFlop, handComplete := false, reachedShowdown := false)
    {
      EmptyTable();
      assert View() == old(View()).(board := board, pots := pots, winners := winners, currentBet := currentBet,
                                    minRaise := minRaise, phase := phase, handComplete := handComplete,
                                    reachedShowdown := reachedShowdown);
    }

    method EmptyTable()
      modifies this`board, this`pots, this`winners, this`currentBet, this`minRaise, this`phase, this`handComplete,
               this`reachedShowdown
      ensures board == [] && pots == [] && winners == [] && currentBet == 0 && minRaise == bigBlind
      ensures phase == PreFlop && !handComplete && !reachedShowdown
    {
      board, pots, winners := [], [], [];
      currentBet, minRaise, phase, handComplete, reachedShowdown := 0, bigBlind, PreFlop, false, false;
    }

    /** Two cards to every seat holding chips; a seat without any is folded for the hand. */
    method DealSeatsInTurn() returns (ok: bool)
      modifies this`hole, this`deck, this`folded, this`acted
      ensures var d := DealSeats(old(View()), |players|);
              hole == d.hole && deck == d.deck && folded == old(folded) + d.broke && acted == old(acted) + d.broke
              && ok == d.ok
    {
      ghost var start, out, done := Deal(hole, deck, {}, true), folded, acted;
      ghost var d := start;
      var ids, stacks := players, chips;
      for i := 0 to |ids|
        invariant d == DealRound(ids, stacks, start, i) && d == Deal(hole, deck, d.broke, true)
        invariant folded == out + d.broke && acted == done + d.broke
      {
        ghost var before := d;
        ok, d := DealTo(ids[i], At(stacks, ids[i]), d);
        Absorbed(out, before.broke, d.broke);
        Absorbed(done, before.broke, d.broke);
        if !ok {
          DealStops(ids, stacks, start, i + 1, |ids|);
          return false;
        }
      }
      return true;
    }

    /** One seat's turn to be dealt to. */
    method DealTo(id: Id, stack: nat, ghost d: Deal) returns (ok: bool, ghost next: Deal)
      requires d == Deal(hole, deck, d.broke, true) && d.broke <= folded && d.broke <= acted
      modifies this`hole, this`deck, this`folded, this`acted
      ensures next == DealSeat(d, id, stack) && next == Deal(hole, deck, next.broke, ok)
      ensures d.broke <= next.broke && folded == old(folded) + next.broke && acted == old(acted) + next.broke
    {
      next := DealSeat(d, id, stack);
      if stack == 0 {
        hole := hole[id := []];
        folded := folded + {id};
        acted := acted + {id};
        return true, next;
      }
      if |deck| < HOLE_CARDS {
        return false, next;
      }
      hole := hole[id := Drawn(deck, HOLE_CARDS)];
      deck := deck[..|deck| - HOLE_CARDS];
      return true, next;
    }

    method DealCards() returns (ok: bool)
      modifies this`hole, this`deck, this`folded, this`acted
      ensures DealHoleCards(old(View())) == Done(ok)
    {
      ok := DealSeatsInTurn();
      assert View() == old(View()).(hole := hole, deck := deck, folded := folded, acted := acted);
      assert FundedSeats(View()) == FundedSeats(old(View()));
      if ok {
        var funded := CountFunded();
        ok := funded >= 2;
      }
    }

    method PlaceBlinds(button: nat, headsUp: bool)
      requires button < |players|
      modifies this`dealer, this`sb, this`bb
      ensures View() == SetBlinds(old(View()), button, headsUp)
    {
      ghost var t := View();
      var first := NextFunded(button);
      var second := NextFunded(first);
      SetMarkers(button, if headsUp then button else first, if headsUp then first else second);
      assert View() == t.(dealer := dealer, sb := sb, bb := bb);
    }

    method SetMarkers(button: nat, small: nat, big: nat)
      modifies this`dealer, this`sb, this`bb
      ensures dealer == button && sb == small && bb == big
    {
      dealer, sb, bb := button, small, big;
    }

    method NextFunded(from: nat) returns (seat: nat)
      ensures seat == NextFundedSeat(View(), from)
    {
      var i := ScanSeats(from, |players|, FundedSeats(View()));
      seat := if i < 0 then from else i;
    }

    method TakeBlinds(button: nat)
      requires button < |players|
      modifies this`dealer, this`sb, this`bb, this`chips, this`bets, this`contributed, this`pool, this`allIn, this`currentBet
      ensures View() == PostBlinds(old(View()), button)
    {
      var funded := CountFunded();
      PlaceBlinds(button, funded == 2);
      Blind(players[sb], smallBlind);
      Blind(players[bb], bigBlind);
      currentBet := bigBlind;
    }

    /** A fresh hand on a shuffled deck. */
    method DealAHand(shuffled: seq<Card>) returns (ok: bool)
      modifies this
      ensures DealHand(old(View()), shuffled) == Done(ok)
    {
      Reset();
      handNumber := handNumber + 1;
      startChips := ChipsInPlay();
      deck := shuffled;
      assert startChips == Total(old(chips));
      ghost var blank := View();
      assert blank == ResetForHand(old(View())).(handNumber := handNumber, deck := shuffled, startChips := startChips);
      ok := DealCards();
      DealHandEnds(old(View()), shuffled, blank, View(), ok);
      if ok && |deck| < MIN_DECK_AFTER_DEAL {
        return false;
      }
    }

    method Begin(button: nat, shuffled: seq<Card>) returns (ok: bool)
      requires button < |players| && !BeginHand(View(), button, shuffled).Crash?
      modifies this
      ensures BeginHand(old(View()), button, shuffled) == Done(ok)
    {
      ok := DealAHand(shuffled);
      if !ok {
        return false;
      }
      var funded := CountFunded();
      TakeBlinds(button);
      var headsUp := funded == 2;
      var first: int := dealer;
      if !headsUp || CannotAct(View(), players[dealer]) {
        first := ScanSeats(bb, |players|, OwingSeats(View()));
      }
      ok := Open(first);
    }

    /** Parks the turn on the first decision, or runs the board out when there is none. */
    method Open(first: int) returns (ok: bool)
      requires !OpenBetting(View(), first).Crash?
      modifies this
      ensures OpenBetting(old(View()), first) == Done(ok)
    {
      if first < 0 {
        ok := Settle();
      } else {
        turn := first;
        next := Some(first);
        ok := true;
      }
    }

    method BeginOrFinish(button: nat, shuffled: seq<Card>) returns (ok: bool)
      requires button < |players| && !BeginHandOrFinish(View(), button, shuffled).Crash?
      modifies this
      ensures BeginHandOrFinish(old(View()), button, shuffled) == Done(ok)
    {
      ok := Begin(button, shuffled);
      if ok && handComplete {
        CloseHand();
      }
    }

    method After(a: Action, shuffled: seq<Card>) returns (ok: bool)
      requires turn < |players| && !AfterAction(View(), a, shuffled).Crash?
      modifies this
      ensures AfterAction(old(View()), a, shuffled) == Done(ok)
    {
      if a.NextHand? {
        var button := NextFunded(dealer);
        ok := BeginOrFinish(button, shuffled);
      } else {
        ok := AfterBetting();
      }
    }

    // ---- Leaving ----

    method Forfeit(id: Id)
      modifies this`folded, this`acted
      ensures View() == OnPlayerLeave(old(View()), id)
    {
      if !handComplete && id !in allIn {
        folded := folded + {id};
        acted := acted + {id};
      }
    }

    method Remark(removed: nat)
      modifies this`dealer, this`sb, this`bb
      ensures var n := |players|;
              View() == old(View()).(dealer := AdjustSeatIndex(old(dealer), removed, n),
                                     sb := AdjustSeatIndex(old(sb), removed, n), bb := AdjustSeatIndex(old(bb), removed, n))
    {
      ShiftMarkers(removed, |players|);
      assert View() == old(View()).(dealer := dealer, sb := sb, bb := bb);
    }

    method ShiftMarkers(removed: nat, n: nat)
      modifies this`dealer, this`sb, this`bb
      ensures dealer == AdjustSeatIndex(old(dealer), removed, n) && sb == AdjustSeatIndex(old(sb), removed, n)
      ensures bb == AdjustSeatIndex(old(bb), removed, n)
    {
      dealer := AdjustSeatIndex(dealer, removed, n);
      sb := AdjustSeatIndex(sb, removed, n);
      bb := AdjustSeatIndex(bb, removed, n);
    }

    /** Once the seats have shifted: markers move, and whatever the leave decided is settled. */
    method AfterRemoved(removed: nat)
      requires !AfterPlayerRemoved(View(), removed).Crash?
      modifies this
      ensures AfterPlayerRemoved(old(View()), removed) == Ok(View())
    {
      if players == [] {
        return;
      }
      Remark(removed);
      if handComplete {
        CloseHand();
        return;
      }
      AfterFold();
    }

    method AfterFold()
      requires !handComplete && !AfterSeatsShift(View()).Crash?
      modifies this
      ensures AfterSeatsShift(old(View())) == Ok(View())
    {
      var live := ListContenders();
      if |live| == 1 {
        CloseWonBy(live[0]);
        return;
      }
      var complete := RoundIsComplete();
      if complete {
        var ok := SettleOrUnwind();
        if ok {
          Resume(true);
        } else {
          CloseHand();
        }
        return;
      }
      Reseat();
    }

    /** The round goes on: the turn stays where it is unless that seat is out of decisions. */
    method Reseat()
      requires !KeepTurn(View()).Crash?
      modifies this`turn, this`next
      ensures KeepTurn(old(View())) == Ok(View())
    {
      var seat: int := turn;
      if CannotAct(View(), players[turn]) {
        seat := ScanSeats(turn, |players|, OwingSeats(View()));
      }
      turn := seat;
      next := Some(seat);
    }

    // ---- One step of a match ----

    /** An action by the seat on turn; a rejected one changes nothing. */
    method Act(a: Action, shuffled: seq<Card>) returns (over: bool)
      requires Valid(View()) && |shuffled| == 52
      modifies this
      ensures Submit(old(View()), a, shuffled) == if over then Finished(View()) else Playing(View())
      ensures Sound(if over then Finished(View()) else Playing(View()), old(startChips))
    {
      ActSound(View(), a, shuffled);
      over := Perform(a, shuffled);
    }

    method Perform(a: Action, shuffled: seq<Card>) returns (over: bool)
      requires turn < |players| && (handComplete || At(bets, players[turn]) <= currentBet)
      requires !Submit(View(), a, shuffled).Crashed?
      modifies this
      ensures Submit(old(View()), a, shuffled) == if over then Finished(View()) else Playing(View())
    {
      if !ValidateAction(View(), a) {
        return false;
      }
      Apply(a);
      var ok := After(a, shuffled);
      if !ok || matchComplete {
        return true;
      }
      MoveTurn(true);
      return false;
    }

    /** A seated player walks out. */
    method Leave(seat: nat) returns (over: bool)
      requires Valid(View()) && seat < |players|
      modifies this
      ensures Remove(old(View()), seat) == if over then Finished(View()) else Playing(View())
      ensures Sound(if over then Finished(View()) else Playing(View()), old(startChips))
    {
      LeaveSound(View(), seat);
      Forfeit(players[seat]);
      Vacate(seat);
      AfterRemoved(seat);
      if players == [] || matchComplete || (|players| == 1 && next.None?) {
        return true;
      }
      MoveTurn(false);
      return false;
    }

    method Vacate(seat: nat)
      requires seat < |players|
      modifies this`players, this`left, this`turn
      ensures View() == Unseat(old(View()), seat)
    {
      EmptySeat(seat);
      assert View() == old(View()).(players := players, left := left, turn := turn);
    }

    method EmptySeat(seat: nat)
      requires seat < |players|
      modifies this`players, this`left, this`turn
      ensures players == DropAt(old(players), seat) && left == old(left) + [old(players)[seat]]
      ensures turn == Clamp(if old(turn) > seat then old(turn) - 1 else old(turn), |players|)
    {
      left := left + [players[seat]];
      players := DropAt(players, seat);
      turn := Clamp(if turn > seat then turn - 1 else turn, |players|);
    }

    method MoveTurn(advance: bool)
      modifies this`turn, this`next
      ensures View() == ApplyNextTurn(old(View()), advance)
    {
      var seat := if next.Some? then next.value else if advance then turn + 1 else turn;
      turn, next := Clamp(seat, |players|), None;
    }
  }

  lemma {:induction false} PrefixSums(pots: seq<Pot>, i: nat)
    requires i <= |pots|
    ensures SumPots(pots[..i]) <= SumPots(pots)
    ensures i > 0 ==> SumPots(pots[..i]) == SumPots(pots[..i - 1]) + pots[i - 1].amount
    decreases |pots|
  {
    if i < |pots| {
      var init := pots[..|pots| - 1];
      PrefixSums(init, i);
      assert init[..i] == pots[..i];
      assert i > 0 ==> init[..i - 1] == pots[..i - 1];
    } else {
      assert pots[..i] == pots;
    }
  }

}
