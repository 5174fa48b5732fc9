/** What every step of a poker match keeps: seats, ledger, betting order, and no dead end anywhere. */
module PokerInvariant {
  import opened Cards
  import opened Options
  import opened Sums
  import opened PokerMoney
  import opened PokerRules
  import opened PokerCursor

  ghost predicate Seated(t: Table) {
    && Distinct(t.players + t.left)
    && 1 <= |t.players| <= MAX_PLAYERS
    && t.dealer < |t.players|
    && (forall id | id in t.players :: id in t.money.chips)
    && 0 < t.smallBlind <= t.bigBlind
    && 1 <= t.handNumber <= t.handsTotal == HANDS_PER_MATCH
  }

  /** Nothing paid yet, and stacks and pool together are what the table started with. */
  ghost predicate Ledgered(t: Table) {
    t.money.Unpaid() && t.money.InPlay() == t.startChips
  }

  /** The per-player books agree with each other. */
  ghost predicate Booked(t: Table) {
    && (forall id | id in t.allIn :: Chips(t, id) == 0 && At(t.money.contributed, id) > 0)
    && (forall id | id in t.players ::
          At(t.bets, id) <= t.currentBet && (Chips(t, id) == 0 ==> id in t.folded || id in t.allIn))
    && (t.phase == PreFlop ==>
          t.currentBet > 0 && forall id | id in t.players :: At(t.bets, id) == At(t.money.contributed, id))
    && (t.phase != PreFlop ==> forall id | id in Live(t) :: At(t.money.contributed, id) > 0)
  }

  function CardsToCome(p: Phase): nat {
    match p
    case PreFlop => 8
    case Flop => 4
    case Turn => 2
    case _ => 0
  }

  ghost predicate Stocked(t: Table) {
    |t.deck| >= CardsToCome(t.phase)
  }

  /** A hand in progress, whoever is on turn. */
  ghost predicate Dealt(t: Table) {
    && Seated(t) && Ledgered(t) && Booked(t) && Stocked(t)
    && !t.handComplete && !t.matchComplete && t.phase != Showdown
  }

  /** A hand waiting for the seat on turn. */
  ghost predicate Betting(t: Table) {
    Dealt(t) && Cursor(t) && |Contenders(t)| >= 2
  }

  /** A finished hand: the pool is paid out, and unless the match is over a funded dealer is on turn. */
  ghost predicate Between(t: Table) {
    && Seated(t) && t.handComplete && t.phase == Showdown
    && t.money.pool == 0 && Total(t.money.chips) == t.startChips
    && (t.matchComplete <==> t.handNumber == t.handsTotal || |FundedSeats(t)| <= 1)
    && (!t.matchComplete ==> t.turn < |t.players| && Chips(t, t.players[t.turn]) > 0)
  }

  ghost predicate Valid(t: Table) {
    (Betting(t) || (Between(t) && !t.matchComplete)) && t.next.None?
  }

  // ---- Contenders ----

  lemma {:induction false} KeepIs(ids: seq<Id>, keep: set<Id>)
    ensures forall id :: id in Keep(ids, keep) <==> id in ids && id in keep
    ensures Distinct(ids) ==> Distinct(Keep(ids, keep))
  {
    if ids != [] {
      KeepIs(ids[1..], keep);
      assert ids == [ids[0]] + ids[1..];
    }
  }

  lemma {:induction false} KeepAgrees(ids: seq<Id>, a: set<Id>, b: set<Id>)
    requires forall id | id in ids :: id in a <==> id in b
    ensures Keep(ids, a) == Keep(ids, b)
  {
    if ids != [] {
      assert ids == [ids[0]] + ids[1..];
      KeepAgrees(ids[1..], a, b);
    }
  }

  lemma {:induction false} KeepWithout(ids: seq<Id>, keep: set<Id>, id: Id)
    requires Distinct(ids) && id in ids && id in keep
    ensures |Keep(ids, keep - {id})| == |Keep(ids, keep)| - 1
  {
    assert ids == [ids[0]] + ids[1..];
    if ids[0] == id {
      KeepAgrees(ids[1..], keep, keep - {id});
    } else {
      KeepWithout(ids[1..], keep, id);
    }
  }

  lemma WhoIsLive(t: Table)
    ensures forall id :: id in Live(t) <==>
              (id in t.players && id !in t.folded) || (id in t.left && id in t.allIn && id !in t.folded)
    ensures forall id :: id in Contenders(t) <==> id in Live(t)
    ensures Distinct(t.players + t.left) ==> Distinct(Contenders(t))
  {
    var a, b := Keep(t.players, Elements(t.players) - t.folded), Keep(t.left, t.allIn - t.folded);
    KeepIs(t.players, Elements(t.players) - t.folded);
    KeepIs(t.left, t.allIn - t.folded);
    assert forall id :: id in Contenders(t) <==> id in a || id in b;
    if Distinct(t.players + t.left) {
      SplitDistinct(t.players, t.left);
      assert forall i, j | 0 <= i < |a| && 0 <= j < |b| :: a[i] in t.players && b[j] in t.left;
    }
  }

  lemma SplitDistinct(a: seq<Id>, b: seq<Id>)
    requires Distinct(a + b)
    ensures Distinct(a) && Distinct(b)
    ensures forall x | x in a :: x !in b
  {
    var s := a + b;
    assert forall i | 0 <= i < |a| :: s[i] == a[i];
    assert forall j | 0 <= j < |b| :: s[|a| + j] == b[j];
    forall x | x in a ensures x !in b {
      var i :| 0 <= i < |a| && a[i] == x;
      forall j | 0 <= j < |b| ensures b[j] != x {
        assert s[i] != s[|a| + j];
      }
    }
  }

  /** Contenders depend only on who is seated, gone, folded and all-in. */
  lemma SameContenders(t: Table, u: Table)
    requires u.players == t.players && u.left == t.left && u.folded == t.folded
    requires Distinct(t.players + t.left)
    requires forall id | id in t.left :: id in t.allIn <==> id in u.allIn
    ensures Contenders(u) == Contenders(t) && Live(u) == Live(t)
  {
    KeepAgrees(t.left, t.allIn - t.folded, u.allIn - u.folded);
  }

  lemma OneFewerContender(t: Table, id: Id)
    requires Distinct(t.players + t.left) && id in t.players && id !in t.folded
    ensures |Contenders(t.(folded := t.folded + {id}))| == |Contenders(t)| - 1
  {
    SplitDistinct(t.players, t.left);
    var active := Elements(t.players) - t.folded;
    KeepWithout(t.players, active, id);
    assert Elements(t.players) - (t.folded + {id}) == active - {id};
    KeepAgrees(t.left, t.allIn - t.folded, t.allIn - (t.folded + {id}));
  }

  // ---- Closing a hand ----

  /** When somebody holds chips, the next funded seat is one of them. */
  lemma NextFundedIsFunded(t: Table, from: nat)
    requires from < |t.players| && FundedSeats(t) != {}
    ensures NextFundedSeat(t, from) in FundedSeats(t)
  {
    NextSeatIsFirst(from, |t.players|, FundedSeats(t), 1);
    var i :| i in FundedSeats(t);
  }

  lemma FinishHandCloses(t: Table)
    requires Seated(t) && t.money.pool == 0 && Total(t.money.chips) == t.startChips
    requires t.matchComplete ==> t.handNumber == t.handsTotal || |FundedSeats(t)| <= 1
    ensures Between(FinishHand(t))
    ensures var r := FinishHand(t);
            r.money == t.money && r.players == t.players && r.left == t.left && r.handNumber == t.handNumber
            && r.handsTotal == t.handsTotal && r.startChips == t.startChips
            && (!r.matchComplete ==> r.next == Some(r.turn))
            && (t.matchComplete ==> r.matchComplete)
  {
    var r := FinishHand(t);
    var done := RecordBustouts(t.(handComplete := true, phase := Showdown));
    assert FundedSeats(done) == FundedSeats(t) == FundedSeats(r);
    if r.handNumber < r.handsTotal && |FundedSeats(done)| > 1 {
      assert FundedSeats(done) != {};
      NextFundedIsFunded(done, done.dealer);
    }
  }

  lemma UncontestedCloses(t: Table)
    requires Seated(t) && Ledgered(t) && |Contenders(t)| == 1 && !t.matchComplete
    ensures WinUncontested(t).Ok? && Between(WinUncontested(t).t)
    ensures var r := WinUncontested(t).t;
            r.players == t.players && r.left == t.left && r.handNumber == t.handNumber
            && r.handsTotal == t.handsTotal && r.startChips == t.startChips
            && (!r.matchComplete ==> r.next == Some(r.turn))
  {
    var winner := Contenders(t)[0];
    UncontestedKeepsLedger(t.money, winner);
    var paid := AwardUncontested(t.money, winner);
    assert forall id | id in t.players :: id in paid.chips;
    FinishHandCloses(t.(money := paid, pots := [], winners := [winner]));
  }

  // ---- Showdown ----

  lemma TwoLiveAfterRefund(m: map<Id, nat>, live: set<Id>, a: Id, b: Id)
    requires a != b && a in live && b in live && At(m, a) > 0 && At(m, b) > 0
    ensures LiveMoney(Cap(m, Second(m)), live)
  {
    var top :| top in m && m[top] == Top(m);
    SecondIs(m, top);
    var other := if top == a then b else a;
    assert other in m - {top} && (m - {top})[other] <= Second(m);
    assert At(Cap(m, Second(m)), other) > 0;
  }

  /** Two live contributions are enough for the showdown to pay out everything. */
  lemma ShowdownPays(t: Table, a: Id, b: Id)
    requires Ledgered(t) && a != b && a in Live(t) && b in Live(t)
    requires At(t.money.contributed, a) > 0 && At(t.money.contributed, b) > 0
    ensures RunShowdown(t).Ok?
    ensures var r := RunShowdown(t).t;
            r.money.pool == 0 && Total(r.money.chips) == t.startChips && t.money.chips.Keys <= r.money.chips.Keys
  {
    TwoLiveAfterRefund(t.money.contributed, Live(t), a, b);
    PayShowdownPaysOut(t.money, Live(t), HandScores(Contenders(t), t));
  }
}
