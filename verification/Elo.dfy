/** Ratings after a match: a chain of capped transfers between neighbours in the finishing order. */
module Elo {
  import opened Cards
  import opened Sums

  const MIN_RATING := 100.0
  const MAX_RATING := 4000.0
  const K_FACTOR := 32.0

  // place 0 means no place was recorded.
  datatype Player = Player(id: Id, rating: real, place: int, provisional: bool)

  /** What the win expectancy is relied on for; the source computes a logistic curve. */
  ghost predicate Expectancy(expected: (real, real) -> real) {
    forall a, b :: 0.0 < expected(a, b) < 1.0
  }

  function MinR(a: real, b: real): real {
    if a <= b then a else b
  }

  function MaxR(a: real, b: real): real {
    if a >= b then a else b
  }

  function Clamp(rating: real): real {
    MinR(MaxR(rating, MIN_RATING), MAX_RATING)
  }

  /** The stored rating: clamped, then rounded to the nearest point. */
  function Stored(rating: real): int {
    (Clamp(rating) + 0.5).Floor
  }

  ghost predicate InRange(rating: real) {
    MIN_RATING <= rating <= MAX_RATING
  }

  predicate Drew(a: Player, b: Player) {
    a.place != 0 && a.place == b.place
  }

  function RawTransfer(expected: (real, real) -> real, upper: Player, lower: Player): real {
    K_FACTOR * ((if Drew(upper, lower) then 0.5 else 1.0) - expected(upper.rating, lower.rating))
  }

  /** No more than the gainer has room for, nor than the loser can give. */
  function CapTransfer(moved: real, gains: real, loses: real): real {
    if moved < 0.0 then -MinR(-moved, MinR(MaxR(MAX_RATING - loses, 0.0), MaxR(gains - MIN_RATING, 0.0)))
    else MinR(moved, MinR(MaxR(MAX_RATING - gains, 0.0), MaxR(loses - MIN_RATING, 0.0)))
  }

  /** An established player gains nothing from a pair with a provisional one. */
  function UnpaidAgainstProvisional(upper: Player, lower: Player, up: real, down: real): (r: (real, real)) {
    if upper.provisional == lower.provisional then (up, down)
    else (if !upper.provisional then MinR(up, 0.0) else up, if !lower.provisional then MinR(down, 0.0) else down)
  }

  // ---- Ties ----

  /** Higher rating first, then ID. */
  predicate Before(a: Player, b: Player) {
    a.rating > b.rating || (a.rating == b.rating && a.id <= b.id)
  }

  function InsertTied(s: seq<Player>, p: Player): seq<Player> {
    if s == [] then [p] else if Before(p, s[0]) then [p] + s else [s[0]] + InsertTied(s[1..], p)
  }

  function SortTied(s: seq<Player>): seq<Player> {
    if s == [] then [] else InsertTied(SortTied(s[1..]), s[0])
  }

  /** How many players from the front share a recorded place. */
  function TiedBlock(players: seq<Player>, end: nat := 1): (n: nat)
    requires 1 <= end <= |players|
    ensures end <= n <= |players|
    decreases |players| - end
  {
    if end < |players| && players[end].place != 0 && players[end].place == players[0].place
    then TiedBlock(players, end + 1)
    else end
  }

  /** Within each tied block the order of the input is replaced by one of its own. */
  function NormalizeTies(players: seq<Player>): seq<Player>
    decreases |players|
  {
    if players == [] then []
    else
      var n := TiedBlock(players);
      SortTied(players[..n]) + NormalizeTies(players[n..])
  }

  // ---- The chain of transfers ----

  function Zeros(n: nat): (d: seq<real>)
    ensures |d| == n && forall j | 0 <= j < n :: d[j] == 0.0
  {
    seq(n, _ => 0.0)
  }

  /** What one pair moves: the gain above, the gain below. */
  function Exchange(expected: (real, real) -> real, upper: Player, lower: Player, upperNow: real, lowerNow: real): (real, real)
  {
    var moved := CapTransfer(RawTransfer(expected, upper, lower), upperNow, lowerNow);
    UnpaidAgainstProvisional(upper, lower, moved, -moved)
  }

  /** What a pair moves, given the two players and their ratings as they stand. */
  type Pairing = (Player, Player, real, real) -> (real, real)

  function PairingBy(expected: (real, real) -> real): Pairing {
    (upper, lower, upperNow, lowerNow) => Exchange(expected, upper, lower, upperNow, lowerNow)
  }

  /** The rating changes once the first n pairs of neighbours have settled. */
  function Deltas(pair: Pairing, ps: seq<Player>, n: nat): (d: seq<real>)
    requires ps != [] && n < |ps|
    ensures |d| == |ps|
  {
    if n == 0 then Zeros(|ps|)
    else
      var d := Deltas(pair, ps, n - 1);
      var moves := pair(ps[n - 1], ps[n], ps[n - 1].rating + d[n - 1], ps[n].rating + d[n]);
      d[n - 1 := d[n - 1] + moves.0][n := d[n] + moves.1]
  }

  /** New ratings of the first n players. */
  function Ratings(ps: seq<Player>, d: seq<real>, n: nat): map<Id, real>
    requires n <= |ps| == |d|
  {
    if n == 0 then map[] else Ratings(ps, d, n - 1)[ps[n - 1].id := Clamp(ps[n - 1].rating + d[n - 1])]
  }

  /** The new rating of everybody in a settled order. */
  function Rated(pair: Pairing, ordered: seq<Player>): map<Id, real> {
    if ordered == [] then map[]
    else Ratings(ordered, Deltas(pair, ordered, |ordered| - 1), |ordered|)
  }

  function Calculated(expected: (real, real) -> real, players: seq<Player>): map<Id, real> {
    Rated(PairingBy(expected), NormalizeTies(players))
  }

  /** Settles the pairs of neighbours from the top of the order down. */
  method SettlePairs(pair: Pairing, ordered: seq<Player>) returns (deltas: seq<real>)
    requires ordered != []
    ensures deltas == Deltas(pair, ordered, |ordered| - 1)
  {
    deltas := Zeros(|ordered|);
    for i := 0 to |ordered| - 1
      invariant deltas == Deltas(pair, ordered, i)
    {
      var moves := pair(ordered[i], ordered[i + 1], ordered[i].rating + deltas[i], ordered[i + 1].rating + deltas[i + 1]);
      deltas := deltas[i := deltas[i] + moves.0];
      deltas := deltas[i + 1 := deltas[i + 1] + moves.1];
    }
  }

  /** Sorts each tied block, from the front; settled is the part already done. */
  method SortBlocks(players: seq<Player>) returns (settled: seq<Player>)
    ensures settled == NormalizeTies(players)
  {
    settled := [];
    var rest := players;
    while rest != []
      invariant settled + NormalizeTies(rest) == NormalizeTies(players)
      decreases |rest|
    {
      var end := 1;
      while end < |rest| && rest[end].place != 0 && rest[end].place == rest[0].place
        invariant 1 <= end <= |rest| && TiedBlock(rest, end) == TiedBlock(rest)
      {
        end := end + 1;
      }
      settled := settled + SortTied(rest[..end]);
      rest := rest[end..];
    }
  }

  method Calculate(expected: (real, real) -> real, players: seq<Player>) returns (ratings: map<Id, real>)
    ensures ratings == Calculated(expected, players)
  {
    var ordered := SortBlocks(players);
    ratings := RateInOrder(PairingBy(expected), ordered);
  }

  method RateInOrder(pair: Pairing, ordered: seq<Player>) returns (ratings: map<Id, real>)
    ensures ratings == Rated(pair, ordered)
  {
    if ordered == [] {
      return map[];
    }
    var deltas := SettlePairs(pair, ordered);
    ratings := NewRatings(ordered, deltas);
  }

  method NewRatings(ordered: seq<Player>, deltas: seq<real>) returns (ratings: map<Id, real>)
    requires |ordered| == |deltas|
    ensures ratings == Ratings(ordered, deltas, |ordered|)
  {
    ratings := map[];
    for i := 0 to |ordered|
      invariant ratings == Ratings(ordered, deltas, i)
    {
      ratings := ratings[ordered[i].id := Clamp(ordered[i].rating + deltas[i])];
    }
  }

  lemma {:induction false} InsertTiedKeeps(s: seq<Player>, p: Player)
    ensures multiset(InsertTied(s, p)) == multiset(s) + multiset{p}
  {
    if s != [] {
      assert s == [s[0]] + s[1..];
      InsertTiedKeeps(s[1..], p);
    }
  }

  lemma {:induction false} SortTiedKeeps(s: seq<Player>)
    ensures multiset(SortTied(s)) == multiset(s) && |SortTied(s)| == |s|
  {
    if s != [] {
      assert s == [s[0]] + s[1..];
      SortTiedKeeps(s[1..]);
      InsertTiedKeeps(SortTied(s[1..]), s[0]);
    }
    assert |multiset(SortTied(s))| == |multiset(s)|;
  }

  lemma {:induction false} NormalizeKeeps(players: seq<Player>)
    ensures multiset(NormalizeTies(players)) == multiset(players) && |NormalizeTies(players)| == |players|
    decreases |players|
  {
    if players != [] {
      var n := TiedBlock(players);
      assert players == players[..n] + players[n..];
      SortTiedKeeps(players[..n]);
      NormalizeKeeps(players[n..]);
    }
  }

  // ---- Range, conservation, and how far anybody moves ----

  ghost predicate AllInRange(ps: seq<Player>) {
    forall p | p in ps :: InRange(p.rating)
  }

  ghost predicate DistinctIds(ps: seq<Player>) {
    forall i, j | 0 <= i < j < |ps| :: ps[i].id != ps[j].id
  }

  /** Both stay in range, nothing is created, a like-for-like pair breaks even, and neither moves far. */
  ghost predicate FairMoves(upper: Player, lower: Player, upperNow: real, lowerNow: real, moves: (real, real)) {
    && InRange(upperNow + moves.0) && InRange(lowerNow + moves.1)
    && moves.0 + moves.1 <= 0.0
    && (upper.provisional == lower.provisional ==> moves.0 + moves.1 == 0.0)
    && -16.0 < moves.0 < 32.0 && -32.0 < moves.1 < 16.0
    && (!Drew(upper, lower) ==> moves.0 >= 0.0 >= moves.1)
    && (upper.provisional != lower.provisional ==>
          (!upper.provisional ==> moves.0 <= 0.0) && (!lower.provisional ==> moves.1 <= 0.0))
  }

  ghost predicate Fair(pair: Pairing) {
    forall upper, lower, upperNow, lowerNow | InRange(upperNow) && InRange(lowerNow) ::
      FairMoves(upper, lower, upperNow, lowerNow, pair(upper, lower, upperNow, lowerNow))
  }

  /** Every pair is settled fairly. */
  lemma ExchangeIsFair(expected: (real, real) -> real, upper: Player, lower: Player, upperNow: real, lowerNow: real)
    requires Expectancy(expected) && InRange(upperNow) && InRange(lowerNow)
    ensures FairMoves(upper, lower, upperNow, lowerNow, Exchange(expected, upper, lower, upperNow, lowerNow))
  {
    var e := expected(upper.rating, lower.rating);
    assert 0.0 < e < 1.0;
  }

  lemma PairingIsFair(expected: (real, real) -> real)
    requires Expectancy(expected)
    ensures Fair(PairingBy(expected))
  {
    forall upper, lower, upperNow, lowerNow | InRange(upperNow) && InRange(lowerNow)
      ensures FairMoves(upper, lower, upperNow, lowerNow, PairingBy(expected)(upper, lower, upperNow, lowerNow))
    {
      ExchangeIsFair(expected, upper, lower, upperNow, lowerNow);
    }
  }

  function SumR(s: seq<real>): real {
    if s == [] then 0.0 else s[0] + SumR(s[1..])
  }

  lemma {:induction false} SumUpdate(s: seq<real>, i: nat, v: real)
    requires i < |s|
    ensures SumR(s[i := v]) == SumR(s) - s[i] + v
  {
    if i == 0 {
      assert s[0 := v][1..] == s[1..];
    } else {
      SumUpdate(s[1..], i - 1, v);
      assert s[i := v][1..] == s[1..][i - 1 := v];
    }
  }

  lemma {:induction false} SumZeros(s: seq<real>)
    requires forall j | 0 <= j < |s| :: s[j] == 0.0
    ensures SumR(s) == 0.0
  {
    if s != [] {
      SumZeros(s[1..]);
    }
  }

  /** The players around the cut: done ones moved by less than 48, the one at it only lost as lower of a pair. */
  ghost predicate Settled(ps: seq<Player>, d: seq<real>, n: nat)
    requires |ps| == |d| && n < |ps|
  {
    && (forall j | 0 <= j < |ps| :: InRange(ps[j].rating + d[j]))
    && (forall j | 0 <= j < n :: -48.0 < d[j] < 48.0)
    && -32.0 < d[n] < 16.0
    && (forall j | n < j < |ps| :: d[j] == 0.0)
    && SumR(d) <= 0.0
  }

  lemma SettledAtFirst(ps: seq<Player>)
    requires ps != [] && AllInRange(ps)
    ensures Settled(ps, Zeros(|ps|), 0)
  {
    SumZeros(Zeros(|ps|));
    forall j | 0 <= j < |ps| ensures InRange(ps[j].rating + Zeros(|ps|)[j]) {
      assert ps[j] in ps;
    }
  }

  lemma SettledGrows(ps: seq<Player>, d: seq<real>, n: nat, moves: (real, real))
    requires |ps| == |d| && 0 < n < |ps| && Settled(ps, d, n - 1)
    requires FairMoves(ps[n - 1], ps[n], ps[n - 1].rating + d[n - 1], ps[n].rating + d[n], moves)
    ensures var next := d[n - 1 := d[n - 1] + moves.0][n := d[n] + moves.1];
            && Settled(ps, next, n)
            && SumR(next) == SumR(d) + (moves.0 + moves.1)
  {
    SumUpdate(d, n - 1, d[n - 1] + moves.0);
    SumUpdate(d[n - 1 := d[n - 1] + moves.0], n, d[n] + moves.1);
  }

  lemma DeltasGrow(pair: Pairing, ps: seq<Player>, n: nat)
    requires Fair(pair) && 0 < n < |ps| && Settled(ps, Deltas(pair, ps, n - 1), n - 1)
    ensures Settled(ps, Deltas(pair, ps, n), n)
    ensures SameStanding(ps, n) ==> SumR(Deltas(pair, ps, n)) == SumR(Deltas(pair, ps, n - 1))
  {
    var d := Deltas(pair, ps, n - 1);
    var moves := pair(ps[n - 1], ps[n], ps[n - 1].rating + d[n - 1], ps[n].rating + d[n]);
    assert InRange(ps[n - 1].rating + d[n - 1]) && InRange(ps[n].rating + d[n]);
    SettledGrows(ps, d, n, moves);
    assert Deltas(pair, ps, n) == d[n - 1 := d[n - 1] + moves.0][n := d[n] + moves.1];
  }

  lemma {:induction false} DeltasSettle(pair: Pairing, ps: seq<Player>, n: nat)
    requires Fair(pair) && n < |ps| && AllInRange(ps)
    ensures Settled(ps, Deltas(pair, ps, n), n)
  {
    if n == 0 {
      SettledAtFirst(ps);
    } else {
      DeltasSettle(pair, ps, n - 1);
      DeltasGrow(pair, ps, n);
    }
  }

  lemma {:induction false} DeltasBalance(pair: Pairing, ps: seq<Player>, n: nat)
    requires Fair(pair) && n < |ps| && AllInRange(ps) && NoMixedNeighbours(ps)
    ensures SumR(Deltas(pair, ps, n)) == 0.0
  {
    if n == 0 {
      SumZeros(Zeros(|ps|));
    } else {
      DeltasSettle(pair, ps, n - 1);
      DeltasBalance(pair, ps, n - 1);
      assert SameStanding(ps, n);
      DeltasGrow(pair, ps, n);
    }
  }

  lemma {:induction false} RatingsAre(ps: seq<Player>, d: seq<real>, n: nat, k: nat)
    requires k < n <= |ps| == |d| && DistinctIds(ps)
    ensures ps[k].id in Ratings(ps, d, n) && Ratings(ps, d, n)[ps[k].id] == Clamp(ps[k].rating + d[k])
  {
    if k < n - 1 {
      RatingsAre(ps, d, n - 1, k);
    }
  }

  lemma PermutedKeeps(players: seq<Player>, ordered: seq<Player>)
    requires multiset(players) == multiset(ordered) && DistinctIds(players) && AllInRange(players)
    ensures DistinctIds(ordered) && AllInRange(ordered)
    ensures forall p :: p in players <==> p in ordered
  {
    forall p ensures p in players <==> p in ordered {
      assert p in multiset(players) <==> p in multiset(ordered);
    }
    forall i, j | 0 <= i < j < |ordered| ensures ordered[i].id != ordered[j].id {
      assert ordered[i] in players && ordered[j] in players;
      var a :| 0 <= a < |players| && players[a] == ordered[i];
      var b :| 0 <= b < |players| && players[b] == ordered[j];
      if a == b {
        TwoCopies(ordered, i, j);
        PlayersDistinct(players);
        DistinctCountsOnce(players, players[a]);
        assert false;
      }
    }
  }

  lemma PlayersDistinct(players: seq<Player>)
    requires DistinctIds(players)
    ensures Distinct(players)
  {
  }

  /** The final clamp changes nothing: a new rating is the old one plus what the chain moved. */
  lemma ClampIsIdentity(expected: (real, real) -> real, players: seq<Player>, k: nat)
    requires Expectancy(expected) && DistinctIds(players) && AllInRange(players) && k < |players|
    ensures |NormalizeTies(players)| == |players|
    ensures var ordered := NormalizeTies(players);
            var d, r := Deltas(PairingBy(expected), ordered, |players| - 1), Calculated(expected, players);
            && ordered[k].id in r && r[ordered[k].id] == ordered[k].rating + d[k]
            && InRange(r[ordered[k].id]) && -48.0 < d[k] < 48.0
  {
    NormalizeKeeps(players);
    var ordered := NormalizeTies(players);
    PermutedKeeps(players, ordered);
    PairingIsFair(expected);
    DeltasSettle(PairingBy(expected), ordered, |players| - 1);
    RatingsAre(ordered, Deltas(PairingBy(expected), ordered, |players| - 1), |players|, k);
  }

  /** Everybody ends in range, less than 48 points from where they started. */
  lemma NewRatingIsNear(expected: (real, real) -> real, players: seq<Player>, p: Player)
    requires Expectancy(expected) && DistinctIds(players) && AllInRange(players) && p in players
    ensures var r := Calculated(expected, players);
            p.id in r && InRange(r[p.id]) && p.rating - 48.0 < r[p.id] < p.rating + 48.0
  {
    NormalizeKeeps(players);
    var ordered := NormalizeTies(players);
    PermutedKeeps(players, ordered);
    var k :| 0 <= k < |ordered| && ordered[k] == p;
    ClampIsIdentity(expected, players, k);
  }

  ghost predicate NoMixedNeighbours(ps: seq<Player>) {
    forall k | 0 < k < |ps| :: SameStanding(ps, k)
  }

  predicate SameStanding(ps: seq<Player>, k: nat)
    requires 0 < k < |ps|
  {
    ps[k - 1].provisional == ps[k].provisional
  }

  /** The ratings r gives the players, in the order of ps. */
  function Listed(ps: seq<Player>, r: map<Id, real>): seq<real>
    requires forall p | p in ps :: p.id in r
  {
    seq(|ps|, i requires 0 <= i < |ps| && ps[i] in ps => r[ps[i].id])
  }

  function Old(ps: seq<Player>): seq<real> {
    seq(|ps|, i requires 0 <= i < |ps| => ps[i].rating)
  }

  lemma {:induction false} SumsDiffer(a: seq<real>, b: seq<real>, d: seq<real>)
    requires |a| == |b| == |d| && forall i | 0 <= i < |a| :: b[i] == a[i] + d[i]
    ensures SumR(b) == SumR(a) + SumR(d)
  {
    if a != [] {
      SumsDiffer(a[1..], b[1..], d[1..]);
    }
  }

  /** The new total is the old one plus everything the chain moved. */
  lemma NewTotal(expected: (real, real) -> real, players: seq<Player>)
    requires Expectancy(expected) && DistinctIds(players) && AllInRange(players) && players != []
    ensures |NormalizeTies(players)| == |players|
    ensures var ordered := NormalizeTies(players); var r := Calculated(expected, players);
            && (forall p | p in ordered :: p.id in r)
            && SumR(Listed(ordered, r)) == SumR(Old(ordered)) + SumR(Deltas(PairingBy(expected), ordered, |players| - 1))
  {
    NormalizeKeeps(players);
    var ordered, r := NormalizeTies(players), Calculated(expected, players);
    var d := Deltas(PairingBy(expected), ordered, |players| - 1);
    forall k: nat | k < |ordered| ensures ordered[k].id in r && r[ordered[k].id] == ordered[k].rating + d[k] {
      ClampIsIdentity(expected, players, k);
    }
    forall p | p in ordered ensures p.id in r {
      var k :| 0 <= k < |ordered| && ordered[k] == p;
    }
    SumsDiffer(Old(ordered), Listed(ordered, r), d);
  }

  /** The table never grows, and keeps its total whenever no provisional player sits next to an established one. */
  lemma TotalNeverGrows(expected: (real, real) -> real, players: seq<Player>)
    requires Expectancy(expected) && DistinctIds(players) && AllInRange(players) && players != []
    ensures |NormalizeTies(players)| == |players|
    ensures var ordered := NormalizeTies(players); var r := Calculated(expected, players);
            && (forall p | p in ordered :: p.id in r)
            && SumR(Listed(ordered, r)) <= SumR(Old(ordered))
            && (NoMixedNeighbours(ordered) ==> SumR(Listed(ordered, r)) == SumR(Old(ordered)))
  {
    NewTotal(expected, players);
    var ordered := NormalizeTies(players);
    NormalizeKeeps(players);
    PermutedKeeps(players, ordered);
    PairingIsFair(expected);
    DeltasSettle(PairingBy(expected), ordered, |players| - 1);
    if NoMixedNeighbours(ordered) {
      DeltasBalance(PairingBy(expected), ordered, |players| - 1);
    }
  }

  // ---- What is stored ----

  function StoredSum(ratings: seq<real>): int {
    if ratings == [] then 0 else Stored(ratings[0]) + StoredSum(ratings[1..])
  }

  /** Rounding each rating on its own moves a total by half a point a player at most. */
  lemma {:induction false} StoredDrifts(ratings: seq<real>)
    requires forall i | 0 <= i < |ratings| :: InRange(ratings[i])
    ensures SumR(ratings) - 0.5 * |ratings| as real <= StoredSum(ratings) as real
            <= SumR(ratings) + 0.5 * |ratings| as real
  {
    if ratings != [] {
      StoredDrifts(ratings[1..]);
    }
  }

  /** What a table stores afterwards exceeds what it brought by rounding only. */
  lemma StoredTotalNeverGrowsBeyondRounding(expected: (real, real) -> real, players: seq<Player>)
    requires Expectancy(expected) && DistinctIds(players) && AllInRange(players) && players != []
    ensures |NormalizeTies(players)| == |players|
    ensures var ordered := NormalizeTies(players); var r := Calculated(expected, players);
            && (forall p | p in ordered :: p.id in r)
            && StoredSum(Listed(ordered, r)) as real <= SumR(Old(ordered)) + 0.5 * |players| as real
  {
    TotalNeverGrows(expected, players);
    var ordered, r := NormalizeTies(players), Calculated(expected, players);
    NormalizeKeeps(players);
    PermutedKeeps(players, ordered);
    forall i | 0 <= i < |ordered| ensures InRange(Listed(ordered, r)[i]) {
      assert ordered[i] in players;
      NewRatingIsNear(expected, players, ordered[i]);
    }
    StoredDrifts(Listed(ordered, r));
  }

  // ---- Ties ----

  /** The same blocks, each in any order. */
  ghost predicate TieShuffle(ps: seq<Player>, qs: seq<Player>)
    decreases |ps|
  {
    if ps == [] then qs == []
    else
      var n := TiedBlock(ps);
      n <= |qs| && multiset(ps[..n]) == multiset(qs[..n]) && TieShuffle(ps[n..], qs[n..])
  }

  ghost predicate Sorted(s: seq<Player>) {
    forall i, j | 0 <= i < j < |s| :: Before(s[i], s[j])
  }

  lemma PrependSorted(p: Player, s: seq<Player>)
    requires Sorted(s) && forall x | x in s :: Before(p, x)
    ensures Sorted([p] + s)
  {
    forall i, j | 0 <= i < j < |s| + 1 ensures Before(([p] + s)[i], ([p] + s)[j]) {
      assert ([p] + s)[j] == s[j - 1];
      assert i > 0 ==> ([p] + s)[i] == s[i - 1];
    }
  }

  lemma {:induction false} InsertSorts(s: seq<Player>, p: Player)
    requires Sorted(s)
    ensures Sorted(InsertTied(s, p))
  {
    if s != [] {
      if Before(p, s[0]) {
        forall x | x in s ensures Before(p, x) {
          var k :| 0 <= k < |s| && s[k] == x;
          assert k > 0 ==> Before(s[0], s[k]);
        }
        PrependSorted(p, s);
      } else {
        var rest := InsertTied(s[1..], p);
        InsertSorts(s[1..], p);
        InsertTiedKeeps(s[1..], p);
        forall x | x in rest ensures Before(s[0], x) {
          assert x in multiset(rest);
          if x != p {
            var k :| 0 <= k < |s[1..]| && s[1..][k] == x;
            assert s[k + 1] == x;
          }
        }
        PrependSorted(s[0], rest);
      }
    }
  }

  lemma {:induction false} SortSorts(s: seq<Player>)
    ensures Sorted(SortTied(s))
  {
    if s != [] {
      SortSorts(s[1..]);
      InsertSorts(SortTied(s[1..]), s[0]);
    }
  }

  lemma WithoutFirst(a: seq<Player>)
    requires Sorted(a) && a != []
    ensures a == [a[0]] + a[1..] && Sorted(a[1..])
    ensures multiset(a[1..]) == multiset(a) - multiset{a[0]}
    ensures forall x | x in a[1..] :: x in a
  {
    assert a == [a[0]] + a[1..];
  }

  /** With distinct IDs there is only one sorted order. */
  lemma {:induction false} SortedIsUnique(a: seq<Player>, b: seq<Player>)
    requires Sorted(a) && Sorted(b) && multiset(a) == multiset(b)
    requires forall x, y | x in a && y in a && x.id == y.id :: x == y
    ensures a == b
    decreases |a|
  {
    if a == [] {
      assert |multiset(b)| == 0;
    } else {
      assert |multiset(a)| == |multiset(b)|;
      SameFirst(a, b);
      WithoutFirst(a);
      WithoutFirst(b);
      SortedIsUnique(a[1..], b[1..]);
    }
  }

  lemma SameFirst(a: seq<Player>, b: seq<Player>)
    requires Sorted(a) && Sorted(b) && multiset(a) == multiset(b) && a != [] && b != []
    requires forall x, y | x in a && y in a && x.id == y.id :: x == y
    ensures a[0] == b[0]
  {
    assert a[0] in multiset(b) && b[0] in multiset(a);
    var i :| 0 <= i < |b| && b[i] == a[0];
    var j :| 0 <= j < |a| && a[j] == b[0];
    assert i > 0 ==> Before(b[0], b[i]);
    assert j > 0 ==> Before(a[0], a[j]);
  }

  lemma SortIgnoresOrder(a: seq<Player>, b: seq<Player>)
    requires multiset(a) == multiset(b) && forall x, y | x in a && y in a && x.id == y.id :: x == y
    ensures SortTied(a) == SortTied(b)
  {
    SortTiedKeeps(a);
    SortTiedKeeps(b);
    SortSorts(a);
    SortSorts(b);
    forall x | x in SortTied(a) ensures x in a {
      assert x in multiset(SortTied(a));
    }
    SortedIsUnique(SortTied(a), SortTied(b));
  }

  lemma {:induction false} BlockShares(ps: seq<Player>, end: nat, k: nat)
    requires 1 <= end <= |ps| && k < TiedBlock(ps, end)
    requires forall j | 0 < j < end :: ps[j].place != 0 && ps[j].place == ps[0].place
    ensures k > 0 ==> ps[k].place != 0 && ps[k].place == ps[0].place
    ensures var n := TiedBlock(ps, end); n < |ps| ==> ps[n].place == 0 || ps[n].place != ps[0].place
    decreases |ps| - end
  {
    if end < |ps| && ps[end].place != 0 && ps[end].place == ps[0].place {
      BlockShares(ps, end + 1, k);
    }
  }

  lemma {:induction false} BlockIs(ps: seq<Player>, end: nat, n: nat)
    requires 1 <= end <= n <= |ps|
    requires forall j | 0 < j < n :: ps[j].place != 0 && ps[j].place == ps[0].place
    requires n < |ps| ==> ps[n].place == 0 || ps[n].place != ps[0].place
    ensures TiedBlock(ps, end) == n
    decreases n - end
  {
    if end < n {
      BlockIs(ps, end + 1, n);
    }
  }

  lemma ShuffledFirstPlace(ps: seq<Player>, qs: seq<Player>)
    requires TieShuffle(ps, qs) && ps != []
    ensures qs != [] && qs[0].place == ps[0].place
  {
    var n := TiedBlock(ps);
    assert qs[0] in multiset(qs[..n]) by {
      assert qs[..n][0] == qs[0];
    }
    assert qs[0] in multiset(ps[..n]);
    var k :| 0 <= k < n && ps[k] == qs[0];
    BlockShares(ps, 1, k);
  }

  lemma ShuffledBlock(ps: seq<Player>, qs: seq<Player>)
    requires TieShuffle(ps, qs) && ps != []
    ensures qs != [] && TiedBlock(qs) == TiedBlock(ps)
  {
    var n := TiedBlock(ps);
    ShuffledFirstPlace(ps, qs);
    forall j | 0 < j < n ensures qs[j].place != 0 && qs[j].place == qs[0].place {
      assert qs[..n][j] in multiset(qs[..n]);
      var k :| 0 <= k < n && ps[k] == qs[j];
      BlockShares(ps, 1, k);
      BlockShares(ps, 1, j);
    }
    BlockShares(ps, 1, 0);
    if n < |ps| {
      ShuffledFirstPlace(ps[n..], qs[n..]);
    } else {
      assert qs[n..] == [];
    }
    BlockIs(qs, 1, n);
  }

  lemma {:induction false} NormalizeIgnoresTieOrder(ps: seq<Player>, qs: seq<Player>)
    requires TieShuffle(ps, qs) && forall x, y | x in ps && y in ps && x.id == y.id :: x == y
    ensures NormalizeTies(ps) == NormalizeTies(qs)
    decreases |ps|
  {
    if ps != [] {
      var n := TiedBlock(ps);
      ShuffledBlock(ps, qs);
      assert forall x | x in ps[..n] :: x in ps;
      SortIgnoresOrder(ps[..n], qs[..n]);
      assert forall x | x in ps[n..] :: x in ps;
      NormalizeIgnoresTieOrder(ps[n..], qs[n..]);
    }
  }

  /** Whoever happened to be listed first among equals changes nobody's rating. */
  lemma TieOrderIsIrrelevant(expected: (real, real) -> real, ps: seq<Player>, qs: seq<Player>)
    requires TieShuffle(ps, qs) && DistinctIds(ps)
    ensures Calculated(expected, ps) == Calculated(expected, qs)
  {
    forall x, y | x in ps && y in ps && x.id == y.id ensures x == y {
      var i :| 0 <= i < |ps| && ps[i] == x;
      var j :| 0 <= j < |ps| && ps[j] == y;
    }
    NormalizeIgnoresTieOrder(ps, qs);
  }
}
