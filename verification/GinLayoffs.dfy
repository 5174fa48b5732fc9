/** Laying deadwood off onto the knocker's melds, runs before sets, until nothing attaches. */
module GinLayoffs {
  import opened Cards
  import opened GinMelds

  predicate CanAttach(card: Card, meld: seq<Card>) {
    if IsSet(meld) then |meld| < 4 && card.rank == meld[0].rank
    else if !IsRun(meld) then false
    else
      var sorted := SortByRun(meld);
      && card.suit == sorted[0].suit
      && (RunOrder(card.rank) == RunOrder(sorted[0].rank) - 1
          || RunOrder(card.rank) == RunOrder(sorted[|sorted| - 1].rank) + 1)
  }

  /** First meld from position i on that is a run, or a set, and takes the card; |melds| when none does. */
  function FirstTaking(card: Card, melds: seq<seq<Card>>, runs: bool, i: nat := 0): (k: nat)
    requires i <= |melds|
    ensures i <= k <= |melds|
    ensures k < |melds| ==> CanAttach(card, melds[k]) && if runs then IsRun(melds[k]) else IsSet(melds[k])
    ensures forall j | i <= j < k ::
              !(CanAttach(card, melds[j]) && if runs then IsRun(melds[j]) else IsSet(melds[j]))
    decreases |melds| - i
  {
    if i == |melds| then i
    else if CanAttach(card, melds[i]) && (if runs then IsRun(melds[i]) else IsSet(melds[i])) then i
    else FirstTaking(card, melds, runs, i + 1)
  }

  /** Runs before sets: a run keeps growing, a set stops at four. */
  function FindAttach(card: Card, melds: seq<seq<Card>>): (k: nat)
    ensures k <= |melds|
    ensures k < |melds| ==> CanAttach(card, melds[k])
    ensures forall j | 0 <= j < k :: CanAttach(card, melds[j]) ==> !IsRun(melds[j]) && k < |melds| && IsRun(melds[k])
    ensures (exists j :: 0 <= j < |melds| && IsRun(melds[j]) && CanAttach(card, melds[j])) ==>
              k < |melds| && IsRun(melds[k])
  {
    var run := FirstTaking(card, melds, true);
    if run < |melds| then run else FirstTaking(card, melds, false)
  }

  /** Deadwood not laid off yet, the melds as they have grown, and what was laid off in order. */
  datatype Laying = Laying(remaining: seq<Card>, melds: seq<seq<Card>>, laid: seq<Card>)

  function LayOff(l: Laying, i: nat, k: nat): Laying
    requires i < |l.remaining| && k < |l.melds|
  {
    var card := l.remaining[i];
    Laying(DropAt(l.remaining, i), l.melds[k := l.melds[k] + [card]], l.laid + [card])
  }

  /** One sweep over the deadwood from position i. */
  function Sweep(l: Laying, i: nat): (r: Laying)
    requires i <= |l.remaining|
    ensures |r.remaining| <= |l.remaining|
    decreases |l.remaining| - i
  {
    if i == |l.remaining| then l
    else
      var k := FindAttach(l.remaining[i], l.melds);
      if k == |l.melds| then Sweep(l, i + 1) else Sweep(LayOff(l, i, k), i)
  }

  /** Sweeps until one changes nothing: an earlier layoff can open a new end. */
  function Layoffs(l: Laying): Laying
    decreases |l.remaining|
  {
    var swept := Sweep(l, 0);
    if |swept.remaining| == |l.remaining| then swept else Layoffs(swept)
  }

  /** A sweep that lays nothing off found nothing that attaches. */
  lemma {:induction false} SweepStuck(l: Laying, i: nat)
    requires i <= |l.remaining| && |Sweep(l, i).remaining| == |l.remaining|
    ensures Sweep(l, i) == l
    ensures forall j | i <= j < |l.remaining| :: FindAttach(l.remaining[j], l.melds) == |l.melds|
    decreases |l.remaining| - i
  {
    if i < |l.remaining| && FindAttach(l.remaining[i], l.melds) == |l.melds| {
      SweepStuck(l, i + 1);
    }
  }

  ghost predicate Stuck(l: Laying) {
    forall i, k | 0 <= i < |l.remaining| && 0 <= k < |l.melds| :: !CanAttach(l.remaining[i], l.melds[k])
  }

  lemma {:induction false} LayoffsEndStuck(l: Laying)
    ensures Stuck(Layoffs(l))
    decreases |l.remaining|
  {
    var swept := Sweep(l, 0);
    if |swept.remaining| == |l.remaining| {
      SweepStuck(l, 0);
    } else {
      LayoffsEndStuck(swept);
    }
  }

  /** The two nested loops. */
  method ApplyLayoffs(deadwood: seq<Card>, knockerMelds: seq<seq<Card>>)
    returns (remaining: seq<Card>, laidOff: seq<Card>)
    ensures var end := Layoffs(Laying(deadwood, knockerMelds, [])); remaining == end.remaining && laidOff == end.laid
  {
    var melds := knockerMelds;
    remaining, laidOff := deadwood, [];
    ghost var end := Layoffs(Laying(deadwood, knockerMelds, []));
    var changed := true;
    while changed
      invariant changed ==> Layoffs(Laying(remaining, melds, laidOff)) == end
      invariant !changed ==> Laying(remaining, melds, laidOff) == end
      decreases |remaining|, changed
    {
      changed := false;
      var i := 0;
      ghost var from := Laying(remaining, melds, laidOff);
      while i < |remaining|
        invariant i <= |remaining| <= |from.remaining|
        invariant changed <==> |remaining| < |from.remaining|
        invariant Sweep(Laying(remaining, melds, laidOff), i) == Sweep(from, 0)
        decreases |remaining| - i
      {
        var k := FindAttach(remaining[i], melds);
        if k == |melds| {
          i := i + 1;
        } else {
          melds := melds[k := melds[k] + [remaining[i]]];
          laidOff := laidOff + [remaining[i]];
          remaining := DropAt(remaining, i);
          changed := true;
        }
      }
    }
  }

  // ---- Any legal order of layoffs ----

  /** Card number card of the deadwood onto meld number meld. */
  datatype Move = Move(card: nat, meld: nat)

  ghost predicate Legal(l: Laying, moves: seq<Move>)
    decreases |moves|
  {
    moves == [] ||
    (&& moves[0].card < |l.remaining| && moves[0].meld < |l.melds|
     && CanAttach(l.remaining[moves[0].card], l.melds[moves[0].meld])
     && Legal(LayOff(l, moves[0].card, moves[0].meld), moves[1..]))
  }

  ghost function After(l: Laying, moves: seq<Move>): Laying
    requires Legal(l, moves)
    decreases |moves|
  {
    if moves == [] then l else After(LayOff(l, moves[0].card, moves[0].meld), moves[1..])
  }

  // ---- What can ever be laid off ----

  /** Disjoint melds of standard cards, none of them in the deadwood. */
  ghost predicate Knocked(melds: seq<seq<Card>>, dead: set<Card>) {
    && (forall k | 0 <= k < |melds| ::
          IsMeld(melds[k]) && AllStandard(melds[k]) && Distinct(melds[k]) && Elements(melds[k]) !! dead)
    && (forall j, k | 0 <= j < k < |melds| :: Elements(melds[j]) !! Elements(melds[k]))
    && (forall c | c in dead :: Standard(c))
  }

  /** Joined to the end of a run by deadwood, or the fourth card of a set. */
  ghost predicate LayableOn(meld: seq<Card>, dead: set<Card>, c: Card) {
    if IsRun(meld) then
      c.suit == RunSuit(meld)
      && ((c.rank > RunHi(meld) && Cells(c.suit, RunHi(meld) + 1, c.rank) <= dead)
          || (c.rank < RunLo(meld) && Cells(c.suit, c.rank, RunLo(meld) - 1) <= dead))
    else |meld| == 3 && c.rank == meld[0].rank
  }

  ghost predicate Layable(melds: seq<seq<Card>>, dead: set<Card>, c: Card) {
    c in dead && exists k :: 0 <= k < |melds| && LayableOn(melds[k], dead, c)
  }

  /** How a meld may have grown once laid has been laid off. */
  ghost predicate GrownMeld(was: seq<Card>, now: seq<Card>, laid: set<Card>) {
    && AllStandard(now) && Distinct(now)
    && Elements(was) <= Elements(now) <= Elements(was) + laid
    && if IsRun(was) then
         IsRun(now) && RunSuit(now) == RunSuit(was) && RunLo(now) <= RunLo(was) && RunHi(was) <= RunHi(now)
       else IsSet(was) && IsSet(now) && now[0].rank == was[0].rank
  }

  /** Where laying off stands: what is left of the deadwood, and melds grown by the rest of it. */
  ghost predicate Grown(melds: seq<seq<Card>>, dead: set<Card>, l: Laying) {
    && Distinct(l.remaining) && Elements(l.remaining) <= dead && |l.melds| == |melds|
    && forall k | 0 <= k < |melds| :: GrownMeld(melds[k], l.melds[k], dead - Elements(l.remaining))
  }

  lemma GrownAtFirst(melds: seq<seq<Card>>, deadwood: seq<Card>)
    requires Distinct(deadwood) && Knocked(melds, Elements(deadwood))
    ensures Grown(melds, Elements(deadwood), Laying(deadwood, melds, []))
  {
    forall k | 0 <= k < |melds| ensures GrownMeld(melds[k], melds[k], {}) {
      assert IsMeld(melds[k]);
    }
    assert Elements(deadwood) - Elements(deadwood) == {};
  }

  lemma DropOne(s: seq<Card>, i: nat)
    requires i < |s| && Distinct(s)
    ensures Distinct(DropAt(s, i)) && Elements(DropAt(s, i)) == Elements(s) - {s[i]}
  {
    var t := DropAt(s, i);
    forall c ensures c in t <==> c in s && c != s[i] {
      if c in s && c != s[i] {
        var j :| 0 <= j < |s| && s[j] == c;
        assert j < i ==> t[j] == c;
        assert j > i ==> t[j - 1] == c;
      }
    }
  }

  /** A card at the end of a run makes a longer run. */
  lemma RunTakes(run: seq<Card>, c: Card)
    requires IsRun(run) && AllStandard(run) && Standard(c) && c.suit == RunSuit(run)
    requires c.rank == RunHi(run) + 1 || c.rank + 1 == RunLo(run)
    ensures var more := run + [c];
            IsRun(more) && Distinct(more) && RunSuit(more) == RunSuit(run)
            && RunLo(more) <= RunLo(run) && RunHi(run) <= RunHi(more)
  {
    var s, lo, hi, more := RunSuit(run), RunLo(run), RunHi(run), run + [c];
    RunIsCells(run);
    InCells(s, lo, hi, c);
    assert c !in Elements(run);
    assert c == Card(c.rank, s);
    if c.rank == hi + 1 {
      assert Cells(s, lo, hi + 1) == Cells(s, lo, hi) + {c};
      CellsAreRun(more, s, lo, hi + 1);
    } else {
      assert Cells(s, lo - 1, hi) == Cells(s, lo, hi) + {c};
      CellsAreRun(more, s, lo - 1, hi);
    }
  }

  lemma AttachesToRunEnd(c: Card, run: seq<Card>)
    requires IsRun(run) && AllStandard(run) && Standard(c)
    ensures CanAttach(c, run) <==> c.suit == RunSuit(run) && (c.rank == RunHi(run) + 1 || c.rank + 1 == RunLo(run))
  {
    RunIsNoSet(run);
    RunClimbs(run, |run| - 1);
    RunClimbs(run, 0);
    SortRises(run);
    assert SortByRun(run)[0] in run && SortByRun(run)[|run| - 1] in run;
  }

  /** A card that attaches is one that could always have been laid off, and the meld grows as it should. */
  lemma AttachGrows(was: seq<Card>, now: seq<Card>, dead: set<Card>, rest: set<Card>, c: Card)
    requires IsMeld(was) && AllStandard(was) && Distinct(was) && Elements(was) !! dead
    requires GrownMeld(was, now, dead - rest) && rest <= dead && c in rest && Standard(c) && CanAttach(c, now)
    ensures LayableOn(was, dead, c)
    ensures GrownMeld(was, now + [c], dead - (rest - {c}))
  {
    if IsRun(was) {
      RunGrows(was, now, dead, rest, c);
    } else {
      SetGrows(was, now, dead, rest, c);
    }
  }

  lemma RunGrows(was: seq<Card>, now: seq<Card>, dead: set<Card>, rest: set<Card>, c: Card)
    requires IsMeld(was) && IsRun(was) && AllStandard(was) && Distinct(was) && Elements(was) !! dead
    requires GrownMeld(was, now, dead - rest) && rest <= dead && c in rest && Standard(c) && CanAttach(c, now)
    ensures LayableOn(was, dead, c)
    ensures GrownMeld(was, now + [c], dead - (rest - {c}))
  {
    assert c !in Elements(now);
    assert Elements(now + [c]) == Elements(now) + {c};
    AttachesToRunEnd(c, now);
    RunTakes(now, c);
    RunIsCells(now);
    RunIsCells(was);
    ChainInDead(was, now, dead, c);
  }

  lemma SetGrows(was: seq<Card>, now: seq<Card>, dead: set<Card>, rest: set<Card>, c: Card)
    requires IsMeld(was) && !IsRun(was) && AllStandard(was) && Distinct(was) && Elements(was) !! dead
    requires GrownMeld(was, now, dead - rest) && rest <= dead && c in rest && Standard(c) && CanAttach(c, now)
    ensures LayableOn(was, dead, c)
    ensures GrownMeld(was, now + [c], dead - (rest - {c}))
  {
    assert c !in Elements(now);
    assert Elements(now + [c]) == Elements(now) + {c};
    DistinctSize(was);
    DistinctSize(now);
    SubsetSize(Elements(was), Elements(now));
    SetTakes(now, c);
  }

  lemma SetTakes(meld: seq<Card>, c: Card)
    requires IsSet(meld) && CanAttach(c, meld)
    ensures IsSet(meld + [c]) && (meld + [c])[0] == meld[0]
  {
  }

  /** Between the run's first end and its present one lies only laid-off deadwood. */
  lemma ChainInDead(was: seq<Card>, now: seq<Card>, dead: set<Card>, c: Card)
    requires IsRun(was) && IsRun(now) && AllStandard(was) && AllStandard(now) && c in dead
    requires RunSuit(now) == RunSuit(was) == c.suit && RunLo(now) <= RunLo(was) && RunHi(was) <= RunHi(now)
    requires Elements(now) <= Elements(was) + dead
    requires c.rank == RunHi(now) + 1 || c.rank + 1 == RunLo(now)
    ensures LayableOn(was, dead, c)
  {
    RunIsCells(now);
    RunIsCells(was);
    var s := c.suit;
    forall x | x in Cells(s, RunHi(was) + 1, RunHi(now) + 1) || x in Cells(s, RunLo(now) - 1, RunLo(was) - 1)
      ensures x == c || x in dead || x.rank == RunHi(now) + 1 || x.rank + 1 == RunLo(now)
    {
      InCells(s, RunHi(was) + 1, RunHi(now) + 1, x);
      InCells(s, RunLo(now), RunHi(now), x);
      InCells(s, RunLo(was), RunHi(was), x);
      assert x in Elements(now) ==> x in Elements(was) + dead;
    }
    if c.rank == RunHi(now) + 1 {
      assert Cells(s, RunHi(was) + 1, c.rank) <= dead;
    } else {
      assert Cells(s, c.rank, RunLo(was) - 1) <= dead;
    }
  }

  lemma StepGrows(melds: seq<seq<Card>>, dead: set<Card>, l: Laying, i: nat, k: nat)
    requires Knocked(melds, dead) && Grown(melds, dead, l)
    requires i < |l.remaining| && k < |l.melds| && CanAttach(l.remaining[i], l.melds[k])
    ensures Grown(melds, dead, LayOff(l, i, k)) && Layable(melds, dead, l.remaining[i])
    ensures Elements(LayOff(l, i, k).remaining) == Elements(l.remaining) - {l.remaining[i]}
  {
    var c, r := l.remaining[i], LayOff(l, i, k);
    DropOne(l.remaining, i);
    assert c in Elements(l.remaining);
    AttachGrows(melds[k], l.melds[k], dead, Elements(l.remaining), c);
    forall j | 0 <= j < |melds| ensures GrownMeld(melds[j], r.melds[j], dead - Elements(r.remaining)) {
    }
  }

  /** Whatever the order, nothing but layable cards is ever laid off. */
  lemma {:induction false} OnlyLayableGo(melds: seq<seq<Card>>, dead: set<Card>, l: Laying, moves: seq<Move>, c: Card)
    requires Knocked(melds, dead) && Grown(melds, dead, l) && Legal(l, moves)
    requires c in Elements(l.remaining) && !Layable(melds, dead, c)
    ensures c in Elements(After(l, moves).remaining)
    ensures Grown(melds, dead, After(l, moves))
    decreases |moves|
  {
    if moves != [] {
      StepGrows(melds, dead, l, moves[0].card, moves[0].meld);
      OnlyLayableGo(melds, dead, LayOff(l, moves[0].card, moves[0].meld), moves[1..], c);
    }
  }
}
