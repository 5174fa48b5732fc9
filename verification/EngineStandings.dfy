/** Who finished where: the standings list and the places that ties share. */
module EngineStandings {
  import opened Cards
  import opened Options
  import opened Sums

  // ---- Ordering by score ----

  function InsertByScore(s: seq<Id>, id: Id, score: Id -> int): seq<Id> {
    if s == [] then [id]
    else if score(id) <= score(s[0]) then [id] + s
    else [s[0]] + InsertByScore(s[1..], id, score)
  }

  /** Ascending by score; equal scores stay in seat order. */
  function StandingsByScore(players: seq<Id>, score: Id -> int): seq<Id> {
    if players == [] then [] else InsertByScore(StandingsByScore(players[1..], score), players[0], score)
  }

  ghost predicate Ordered(s: seq<Id>, score: Id -> int) {
    forall i, j | 0 <= i < j < |s| :: score(s[i]) <= score(s[j])
  }

  lemma PrependOrders(id: Id, s: seq<Id>, score: Id -> int)
    requires Ordered(s, score)
    requires s != [] ==> score(id) <= score(s[0]) || forall x | x in s :: score(id) <= score(x)
    ensures Ordered([id] + s, score)
  {
    forall i, j | 0 <= i < j < |s| + 1 ensures score(([id] + s)[i]) <= score(([id] + s)[j]) {
      assert ([id] + s)[j] == s[j - 1];
      assert i > 0 ==> ([id] + s)[i] == s[i - 1];
    }
  }

  lemma {:induction false} InsertKeeps(s: seq<Id>, id: Id, score: Id -> int)
    ensures multiset(InsertByScore(s, id, score)) == multiset(s) + multiset{id}
  {
    if s != [] {
      assert s == [s[0]] + s[1..];
      InsertKeeps(s[1..], id, score);
    }
  }

  lemma {:induction false} InsertOrders(s: seq<Id>, id: Id, score: Id -> int)
    requires Ordered(s, score)
    ensures Ordered(InsertByScore(s, id, score), score)
  {
    if s != [] {
      if score(id) <= score(s[0]) {
        PrependOrders(id, s, score);
      } else {
        InsertOrders(s[1..], id, score);
        InsertedAreAbove(s, id, score);
        PrependOrders(s[0], InsertByScore(s[1..], id, score), score);
      }
    }
  }

  lemma InsertedAreAbove(s: seq<Id>, id: Id, score: Id -> int)
    requires s != [] && Ordered(s, score) && score(s[0]) < score(id)
    ensures forall x | x in InsertByScore(s[1..], id, score) :: score(s[0]) <= score(x)
  {
    InsertKeeps(s[1..], id, score);
    forall x | x in InsertByScore(s[1..], id, score) ensures score(s[0]) <= score(x) {
      assert x in multiset(InsertByScore(s[1..], id, score));
      if x != id {
        var k :| 0 <= k < |s[1..]| && s[1..][k] == x;
        assert s[k + 1] == x;
      }
    }
  }

  /** Those with one score, in the order they sit. */
  function WithScore(s: seq<Id>, score: Id -> int, v: int): seq<Id> {
    if s == [] then [] else (if score(s[0]) == v then [s[0]] else []) + WithScore(s[1..], score, v)
  }

  lemma WithScoreFirst(id: Id, s: seq<Id>, score: Id -> int, v: int)
    ensures WithScore([id] + s, score, v) == (if score(id) == v then [id] else []) + WithScore(s, score, v)
  {
    assert ([id] + s)[1..] == s;
  }

  lemma {:induction false} InsertIsStable(s: seq<Id>, id: Id, score: Id -> int, v: int)
    ensures WithScore(InsertByScore(s, id, score), score, v) == WithScore([id] + s, score, v)
  {
    if s != [] && score(id) > score(s[0]) {
      InsertIsStable(s[1..], id, score, v);
      PassesOver(s[0], s[1..], InsertByScore(s[1..], id, score), id, score, v);
    }
  }

  /** Passing over somebody with another score changes nobody's order. */
  lemma PassesOver(first: Id, rest: seq<Id>, inserted: seq<Id>, id: Id, score: Id -> int, v: int)
    requires WithScore(inserted, score, v) == WithScore([id] + rest, score, v) && score(first) != score(id)
    ensures WithScore([first] + inserted, score, v) == WithScore([id] + ([first] + rest), score, v)
  {
    WithScoreFirst(first, inserted, score, v);
    WithScoreFirst(id, rest, score, v);
    WithScoreFirst(id, [first] + rest, score, v);
    WithScoreFirst(first, rest, score, v);
  }

  /** A stable sort: the same players, ascending, and nobody overtakes an equal. */
  lemma {:induction false} SortIsStable(players: seq<Id>, score: Id -> int, v: int)
    ensures Ordered(StandingsByScore(players, score), score)
    ensures multiset(StandingsByScore(players, score)) == multiset(players)
    ensures WithScore(StandingsByScore(players, score), score, v) == WithScore(players, score, v)
  {
    if players != [] {
      assert players == [players[0]] + players[1..];
      SortIsStable(players[1..], score, v);
      var rest := StandingsByScore(players[1..], score);
      InsertOrders(rest, players[0], score);
      InsertKeeps(rest, players[0], score);
      InsertIsStable(rest, players[0], score, v);
      assert ([players[0]] + rest)[1..] == rest;
    }
  }

  // ---- The list ----

  function Missing(left: seq<Id>, placed: set<Id>): seq<Id> {
    if left == [] then []
    else (if left[|left| - 1] in placed then [] else [left[|left| - 1]]) + Missing(left[..|left| - 1], placed)
  }

  /** What the rules rank, then whoever left and is not ranked yet, last to leave first. */
  function Standings(ranked: seq<Id>, left: seq<Id>): seq<Id> {
    ranked + Missing(left, Elements(ranked))
  }

  lemma {:induction false} MissingAre(left: seq<Id>, placed: set<Id>)
    requires Distinct(left)
    ensures Distinct(Missing(left, placed))
    ensures forall id :: id in Missing(left, placed) <==> id in left && id !in placed
  {
    if left != [] {
      var init := left[..|left| - 1];
      MissingAre(init, placed);
      assert left == init + [left[|left| - 1]];
    }
  }

  /** Nobody twice, everybody who sat down, and nobody else. */
  ghost predicate EveryoneOnce(list: seq<Id>, everyone: seq<Id>) {
    Distinct(list) && Elements(list) == Elements(everyone)
  }

  /** A ranking of all the seated, each once, and of nobody who never sat down. */
  ghost predicate ProperRanking(ranked: seq<Id>, players: seq<Id>, left: seq<Id>) {
    Distinct(ranked) && Elements(players) <= Elements(ranked) <= Elements(players + left)
  }

  lemma WhoIsListed(left: seq<Id>, ranked: seq<Id>)
    requires Distinct(left)
    ensures Elements(Standings(ranked, left)) == Elements(ranked) + Elements(left)
    ensures Distinct(Standings(ranked, left)) <==> Distinct(ranked)
  {
    MissingAre(left, Elements(ranked));
    var all, late := Standings(ranked, left), Missing(left, Elements(ranked));
    forall id ensures id in all <==> id in ranked || id in left {
      assert id in ranked <==> id in Elements(ranked);
    }
    if Distinct(ranked) {
      forall i, j | 0 <= i < j < |all| ensures all[i] != all[j] {
        if i < |ranked| <= j {
          assert all[i] in Elements(ranked);
          assert all[j] == late[j - |ranked|];
        }
      }
    }
    if Distinct(all) {
      forall i, j | 0 <= i < j < |ranked| ensures ranked[i] != ranked[j] {
        assert all[i] == ranked[i] && all[j] == ranked[j];
      }
    }
  }

  /** Everybody who sat down is listed exactly once, if and only if the rules ranked the seated properly. */
  lemma StandingsListEveryoneOnce(players: seq<Id>, left: seq<Id>, ranked: seq<Id>)
    requires Distinct(players + left)
    ensures EveryoneOnce(Standings(ranked, left), players + left) <==> ProperRanking(ranked, players, left)
    ensures ProperRanking(ranked, players, left) ==> |Standings(ranked, left)| == |players| + |left|
  {
    assert Distinct(left) by {
      assert left == (players + left)[|players|..];
    }
    WhoIsListed(left, ranked);
    assert Elements(players + left) == Elements(players) + Elements(left);
    forall id | id in players ensures id !in left {
      SeatedHaveNotLeft(players, left, id);
    }
    assert Elements(players) !! Elements(left);
    if ProperRanking(ranked, players, left) {
      DistinctSize(Standings(ranked, left));
      DistinctSize(players + left);
    }
  }

  // ---- Places ----

  /** Level with the entry above: both seated or both gone, and scored the same. */
  predicate LevelWithAbove(standings: seq<Id>, left: set<Id>, score: Option<Id -> int>, i: nat)
    requires 0 < i < |standings|
  {
    && score.Some?
    && (standings[i] in left <==> standings[i - 1] in left)
    && score.value(standings[i]) == score.value(standings[i - 1])
  }

  function PlaceOf(standings: seq<Id>, left: set<Id>, score: Option<Id -> int>, i: nat): nat
    requires i < |standings|
  {
    if i > 0 && LevelWithAbove(standings, left, score, i) then PlaceOf(standings, left, score, i - 1) else i + 1
  }

  method Places(standings: seq<Id>, leftPlayers: seq<Id>, score: Option<Id -> int>) returns (places: seq<nat>)
    ensures |places| == |standings|
    ensures forall i | 0 <= i < |places| :: places[i] == PlaceOf(standings, Elements(leftPlayers), score, i)
  {
    var left: set<Id> := {};
    for i := 0 to |leftPlayers|
      invariant left == Elements(leftPlayers[..i])
    {
      assert leftPlayers[..i + 1] == leftPlayers[..i] + [leftPlayers[i]];
      left := left + {leftPlayers[i]};
    }
    assert leftPlayers[..|leftPlayers|] == leftPlayers;
    places := [];
    for i := 0 to |standings|
      invariant |places| == i
      invariant forall j | 0 <= j < i :: places[j] == PlaceOf(standings, left, score, j)
    {
      var place := i + 1;
      if i > 0 && LevelWithAbove(standings, left, score, i) {
        place := places[i - 1];
      }
      places := places + [place];
    }
  }

  /** Competition ranks: exactly place - 1 entries, the ones at the top of the list, hold a better place. */
  lemma {:induction false} PlacesAreCompetitionRanks(standings: seq<Id>, left: set<Id>, score: Option<Id -> int>,
                                                     i: nat, j: nat)
    requires j <= i < |standings|
    ensures 1 <= PlaceOf(standings, left, score, i) <= i + 1
    ensures PlaceOf(standings, left, score, j) <= PlaceOf(standings, left, score, i)
    ensures j < PlaceOf(standings, left, score, i) - 1 <==>
            PlaceOf(standings, left, score, j) < PlaceOf(standings, left, score, i)
    decreases i
  {
    if i > 0 {
      PlacesAreCompetitionRanks(standings, left, score, i - 1, if j < i then j else i - 1);
    }
  }

  /** Entries between two that share a place share it too, each level with the one above. */
  lemma {:induction false} SharedPlaceMeansLevel(standings: seq<Id>, left: set<Id>, score: Option<Id -> int>,
                                                 i: nat, j: nat)
    requires i < j < |standings|
    requires PlaceOf(standings, left, score, i) == PlaceOf(standings, left, score, j)
    ensures LevelWithAbove(standings, left, score, j)
    ensures PlaceOf(standings, left, score, i) == PlaceOf(standings, left, score, j - 1)
    ensures standings[i] in left <==> standings[j] in left
    ensures score.Some? && score.value(standings[i]) == score.value(standings[j])
    decreases j
  {
    PlacesAreCompetitionRanks(standings, left, score, i, i);
    if i < j - 1 {
      SharedPlaceMeansLevel(standings, left, score, i, j - 1);
    }
  }

  /** Somebody who left never shares a place with somebody still seated. */
  lemma LeaversNeverTieTheSeated(standings: seq<Id>, left: set<Id>, score: Option<Id -> int>, i: nat, j: nat)
    requires i < j < |standings| && (standings[i] in left) != (standings[j] in left)
    ensures PlaceOf(standings, left, score, i) < PlaceOf(standings, left, score, j)
  {
    PlacesAreCompetitionRanks(standings, left, score, j, i);
    if PlaceOf(standings, left, score, i) == PlaceOf(standings, left, score, j) {
      SharedPlaceMeansLevel(standings, left, score, i, j);
    }
  }

  /** Under rules that rank by score, two seated players share a place exactly when they scored the same. */
  lemma SeatedTieExactlyWhenLevel(players: seq<Id>, left: seq<Id>, score: Id -> int, i: nat, j: nat)
    requires Distinct(players + left) && i <= j < |players|
    ensures var standings := Standings(StandingsByScore(players, score), left);
            && |standings| >= |players|
            && (PlaceOf(standings, Elements(left), Some(score), i) == PlaceOf(standings, Elements(left), Some(score), j)
                <==> score(standings[i]) == score(standings[j]))
  {
    var ranked := StandingsByScore(players, score);
    SortIsStable(players, score, 0);
    assert |multiset(ranked)| == |multiset(players)|;
    var standings := Standings(ranked, left);
    forall k | 0 <= k < |players| ensures standings[k] !in Elements(left) {
      assert standings[k] == ranked[k];
      assert ranked[k] in multiset(players);
      SeatedHaveNotLeft(players, left, ranked[k]);
    }
    if PlaceOf(standings, Elements(left), Some(score), i) == PlaceOf(standings, Elements(left), Some(score), j) {
      if i < j {
        SharedPlaceMeansLevel(standings, Elements(left), Some(score), i, j);
      }
    } else if score(standings[i]) == score(standings[j]) {
      LevelRunTies(standings, Elements(left), score, i, j);
    }
  }

  lemma SeatedHaveNotLeft(players: seq<Id>, left: seq<Id>, id: Id)
    requires Distinct(players + left) && id in players
    ensures id !in left
  {
    var k :| 0 <= k < |players| && players[k] == id;
    forall m | 0 <= m < |left| ensures left[m] != id {
      assert (players + left)[k] == id && (players + left)[|players| + m] == left[m];
    }
  }

  lemma {:induction false} LevelRunTies(standings: seq<Id>, left: set<Id>, score: Id -> int, i: nat, j: nat)
    requires i <= j < |standings| && score(standings[i]) == score(standings[j])
    requires forall k | 0 <= k <= j :: standings[k] !in left
    requires forall a, b | 0 <= a < b <= j :: score(standings[a]) <= score(standings[b])
    ensures PlaceOf(standings, left, Some(score), i) == PlaceOf(standings, left, Some(score), j)
    decreases j
  {
    if i < j {
      assert score(standings[i]) <= score(standings[j - 1]) <= score(standings[j]);
      LevelRunTies(standings, left, score, i, j - 1);
    }
  }
}
