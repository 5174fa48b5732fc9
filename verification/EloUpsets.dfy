/** What the rating exchange is for: upsets pay, and a draw favours the underdog. */
module EloUpsets {
  import opened Cards
  import opened Sums
  import opened Elo

  /** More is expected of the higher rated, less the higher rated the other, and the two expectations add up to one. */
  ghost predicate Sensible(expected: (real, real) -> real) {
    && Expectancy(expected)
    && (forall a, b, c :: a <= b ==> expected(a, c) <= expected(b, c))
    && (forall a, b, c :: a <= b ==> expected(c, b) <= expected(c, a))
    && (forall a, b :: expected(a, b) + expected(b, a) == 1.0)
  }

  lemma CapIsMonotone(less: real, more: real, gains: real, gainsLower: real, loses: real, losesHigher: real)
    requires 0.0 <= less <= more && gainsLower <= gains && loses <= losesHigher
    ensures 0.0 <= CapTransfer(less, gains, loses) <= CapTransfer(more, gainsLower, losesHigher)
  {
  }

  /** A win moves no less when more was expected of whoever lost, or less of whoever won. */
  lemma UpsetsMoveMore(expected: (real, real) -> real, winner: Player, loser: Player, under: Player, over: Player)
    requires Sensible(expected) && !Drew(winner, loser) && !Drew(under, over)
    requires under.rating <= winner.rating && loser.rating <= over.rating
    requires under.provisional == winner.provisional && over.provisional == loser.provisional
    ensures var usual := Exchange(expected, winner, loser, winner.rating, loser.rating);
            var upset := Exchange(expected, under, over, under.rating, over.rating);
            0.0 <= usual.0 <= upset.0 && upset.1 <= usual.1 <= 0.0
  {
    assert expected(under.rating, over.rating) <= expected(winner.rating, over.rating)
        <= expected(winner.rating, loser.rating) < 1.0;
    CapIsMonotone(RawTransfer(expected, winner, loser), RawTransfer(expected, under, over),
                  winner.rating, under.rating, loser.rating, over.rating);
  }

  /** A draw moves points to the lower rated of the two, and none between equals. */
  lemma DrawsFavourTheLowerRated(expected: (real, real) -> real, upper: Player, lower: Player)
    requires Sensible(expected) && Drew(upper, lower)
    ensures upper.rating >= lower.rating ==> RawTransfer(expected, upper, lower) <= 0.0
    ensures upper.rating <= lower.rating ==> RawTransfer(expected, upper, lower) >= 0.0
  {
    var a, b := upper.rating, lower.rating;
    assert expected(a, b) + expected(b, a) == 1.0;
    if a >= b {
      assert expected(b, a) <= expected(a, a) <= expected(a, b);
    }
    if a <= b {
      assert expected(a, b) <= expected(b, b) <= expected(b, a);
    }
  }

  lemma AloneIsSettled(p: Player)
    ensures SortTied([p]) == [p] && NormalizeTies([p]) == [p]
  {
    assert TiedBlock([p]) == 1;
    assert [p][..1] == [p] && [p][1..] == [];
    assert SortTied([]) == [] && NormalizeTies([]) == [];
  }

  lemma InOrder(winner: Player, loser: Player)
    requires !Drew(winner, loser)
    ensures NormalizeTies([winner, loser]) == [winner, loser]
  {
    var both := [winner, loser];
    assert TiedBlock(both) == 1;
    assert both[..1] == [winner] && both[1..] == [loser];
    AloneIsSettled(winner);
    AloneIsSettled(loser);
  }

  lemma OnePair(pair: Pairing, winner: Player, loser: Player, moves: (real, real))
    requires moves == pair(winner, loser, winner.rating, loser.rating)
    ensures Deltas(pair, [winner, loser], 1) == [moves.0, moves.1]
  {
    var both := [winner, loser];
    assert Deltas(pair, both, 0) == [0.0, 0.0];
  }

  lemma TwoRatings(winner: Player, loser: Player, d: seq<real>)
    requires winner.id != loser.id && |d| == 2
    ensures Ratings([winner, loser], d, 2)
         == map[winner.id := Clamp(winner.rating + d[0]), loser.id := Clamp(loser.rating + d[1])]
  {
    assert Ratings([winner, loser], d, 1) == map[winner.id := Clamp(winner.rating + d[0])];
  }

  /** A match of two is one exchange. */
  lemma TwoPlayers(expected: (real, real) -> real, winner: Player, loser: Player)
    requires winner.id != loser.id && !Drew(winner, loser)
    ensures var moves := Exchange(expected, winner, loser, winner.rating, loser.rating);
            Calculated(expected, [winner, loser])
            == map[winner.id := Clamp(winner.rating + moves.0), loser.id := Clamp(loser.rating + moves.1)]
  {
    var moves := Exchange(expected, winner, loser, winner.rating, loser.rating);
    InOrder(winner, loser);
    OnePair(PairingBy(expected), winner, loser, moves);
    TwoRatings(winner, loser, [moves.0, moves.1]);
  }

  /** In a match of two, beating a higher rated player never ends lower than beating a lower rated one. */
  lemma BeatingTheStrongerPays(expected: (real, real) -> real, winner: Player, loser: Player, over: Player)
    requires Sensible(expected) && winner.id != loser.id && winner.id != over.id && loser.rating <= over.rating
    requires !Drew(winner, loser) && !Drew(winner, over) && over.provisional == loser.provisional
    requires InRange(winner.rating)
    ensures var usual, upset := Calculated(expected, [winner, loser]), Calculated(expected, [winner, over]);
            winner.id in usual && winner.id in upset && winner.rating <= usual[winner.id] <= upset[winner.id]
  {
    TwoPlayers(expected, winner, loser);
    TwoPlayers(expected, winner, over);
    UpsetsMoveMore(expected, winner, loser, winner, over);
  }
}
