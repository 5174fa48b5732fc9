/** The turn cursor: the seats that owe an action are the first ones clockwise from it. */
module PokerCursor {
  import opened Cards
  import opened Sums
  import opened PokerMoney
  import opened PokerRules

  /** Seats clockwise from p to a. */
  function Dist(p: nat, a: nat, n: nat): nat
    requires p < n && a < n
  {
    if a >= p then a - p else a + n - p
  }

  /** Steps clockwise from p to a, a full turn being n. */
  function Steps(p: nat, a: nat, n: nat): nat
    requires p < n && a < n
  {
    if a > p then a - p else a + n - p
  }

  lemma StepLands(p: nat, i: nat, n: nat)
    requires p < n && 1 <= i <= n
    ensures (p + i) % n == if p + i < n then p + i else p + i - n
  {
  }

  /** The search finds the first seat clockwise, or there is none. */
  lemma {:induction false} NextSeatIsFirst(p: nat, n: nat, seats: set<nat>, step: nat)
    requires p < n && 1 <= step <= n + 1
    requires forall a | a in seats && a < n :: Steps(p, a, n) >= step
    ensures var r := NextSeat(p, n, seats, step);
            if r < 0 then forall a | a in seats :: a >= n
            else forall a | a in seats && a < n :: Steps(p, a, n) >= Steps(p, r, n)
    decreases n + 1 - step
  {
    if step <= n {
      StepLands(p, step, n);
      if (p + step) % n !in seats {
        NextSeatIsFirst(p, n, seats, step + 1);
      }
    }
  }

  ghost predicate CanAct(t: Table, i: nat) {
    i < |t.players| && !CannotAct(t, t.players[i])
  }

  ghost predicate OwesSeat(t: Table, i: nat) {
    i < |t.players| && Owes(t, t.players[i])
  }

  /** Clockwise from p, at distance lo or more, no seat that can act is passed over before one that owes. */
  ghost predicate Prefix(t: Table, p: nat, lo: nat)
    requires p < |t.players|
  {
    forall a, b | 0 <= a < |t.players| && 0 <= b < |t.players|
                  && lo <= Dist(p, a, |t.players|) <= Dist(p, b, |t.players|) && CanAct(t, a) && OwesSeat(t, b) ::
      OwesSeat(t, a)
  }

  /** The seat on turn can act and owes, and so does every acting seat before any other that owes. */
  ghost predicate Cursor(t: Table) {
    && t.turn < |t.players|
    && OwesSeat(t, t.turn)
    && Prefix(t, t.turn, 0)
  }

  lemma OwingMeansSomebody(t: Table)
    ensures BettingRoundComplete(t) <==> forall i :: !OwesSeat(t, i)
  {
    if BettingRoundComplete(t) {
      forall i ensures !OwesSeat(t, i) {
        assert i !in OwingSeats(t);
      }
    } else {
      var i :| i in OwingSeats(t);
      assert OwesSeat(t, i);
    }
  }

  /** When the seat at p is done, the search lands on a seat from which the order still holds. */
  lemma CursorMoves(t: Table, p: nat)
    requires p < |t.players| && !OwesSeat(t, p) && Prefix(t, p, 1) && !BettingRoundComplete(t)
    ensures var r := NextToAct(t, p);
            0 <= r < |t.players| && OwesSeat(t, r) && Prefix(t, r, 0)
  {
    var n, seats := |t.players|, OwingSeats(t);
    OwingMeansSomebody(t);
    NextSeatIsFirst(p, n, seats, 1);
    var r := NextToAct(t, p);
    var some :| OwesSeat(t, some);
    assert some in seats;
    forall a, b | 0 <= a < n && 0 <= b < n && Dist(r, a, n) <= Dist(r, b, n) && CanAct(t, a) && OwesSeat(t, b)
      ensures OwesSeat(t, a)
    {
      assert b in seats;
      assert b != p && Steps(p, b, n) >= Steps(p, r, n);
      assert 1 <= Dist(p, a, n) <= Dist(p, b, n);
    }
  }

  /** When every acting seat owes, any of them may go first. */
  lemma FreshCursor(t: Table, p: nat)
    requires p < |t.players| && CanAct(t, p)
    requires forall i | CanAct(t, i) :: OwesSeat(t, i)
    ensures Cursor(t.(turn := p))
  {
    var u := t.(turn := p);
    assert forall i :: CanAct(u, i) == CanAct(t, i) && OwesSeat(u, i) == OwesSeat(t, i);
  }

  /** The seat a survivor held before seat k was taken away. */
  function Unshift(a: nat, k: nat): nat {
    if a >= k then a + 1 else a
  }

  /** Taking seat k away keeps every order of seats clockwise from the cursor. */
  lemma ShiftKeepsOrder(turn: nat, k: nat, n: nat, a: nat, b: nat)
    requires turn < n && k < n && a < n - 1 && b < n - 1
    ensures var p := ShiftedTurn(turn, k, n);
            Dist(p, a, n - 1) <= Dist(p, b, n - 1) ==> Dist(turn, Unshift(a, k), n) <= Dist(turn, Unshift(b, k), n)
  {
  }

  function ShiftedTurn(turn: nat, k: nat, n: nat): (p: nat)
    requires turn < n && k < n && n > 1
    ensures p < n - 1
    ensures turn != k ==> Unshift(p, k) == turn
  {
    if turn > k then turn - 1 else if turn == n - 1 then 0 else turn
  }

  lemma ShiftedTurnIsClamped(turn: nat, k: nat, n: nat)
    requires turn < n && k < n && n > 1
    ensures Clamp(if turn > k then turn - 1 else turn, n - 1) == ShiftedTurn(turn, k, n)
  {
  }

  /** The order survives a seat being taken away, whoever it was. */
  lemma PrefixSurvivesLeave(t: Table, u: Table, k: nat)
    requires t.turn < |t.players| && k < |t.players| && |t.players| > 1
    requires u.players == DropAt(t.players, k)
    requires u.turn == Clamp(if t.turn > k then t.turn - 1 else t.turn, |u.players|)
    requires forall i | 0 <= i < |u.players| ::
               CanAct(u, i) == CanAct(t, Unshift(i, k)) && OwesSeat(u, i) == OwesSeat(t, Unshift(i, k))
    requires Prefix(t, t.turn, 0)
    ensures u.turn < |u.players| && Prefix(u, u.turn, 0)
    ensures t.turn != k ==> OwesSeat(u, u.turn) == OwesSeat(t, t.turn)
  {
    var n, m := |t.players|, |u.players|;
    ShiftedTurnIsClamped(t.turn, k, n);
    forall a, b | 0 <= a < m && 0 <= b < m && Dist(u.turn, a, m) <= Dist(u.turn, b, m) && CanAct(u, a) && OwesSeat(u, b)
      ensures OwesSeat(u, a)
    {
      ShiftKeepsOrder(t.turn, k, n, a, b);
      assert OwesSeat(t, Unshift(a, k));
    }
  }
}
