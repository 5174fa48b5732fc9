/** Ranking a finished poker match, and which players it calls level. */
module PokerStandings {
  import opened Cards
  import opened Sums
  import opened PokerMoney
  import opened PokerRules

  /** What a player is ranked on; the cards only count while they are in the hand and a flop is out. */
  datatype Standing = Standing(chips: nat, busted: nat, folded: bool, score: nat)

  function StandingOf(t: Table, id: Id): Standing {
    Standing(Chips(t, id), At(t.busted, id), id in t.folded, HandScore(t, id))
  }

  function Compare(a: nat, b: nat): int {
    if a < b then -1 else if a > b then 1 else 0
  }

  /** Negative when a finished ahead of b, zero for a genuine draw; board is how many community cards are out. */
  function Level(a: Standing, b: Standing, board: nat): int {
    if a.chips != b.chips then Compare(b.chips, a.chips)
    else if a.busted != b.busted then Compare(b.busted, a.busted)
    else if a.folded != b.folded then (if a.folded then 1 else -1)
    else if !a.folded && board >= 3 then Compare(b.score, a.score)
    else 0
  }

  function LevelOf(t: Table, a: Id, b: Id): int {
    Level(StandingOf(t, a), StandingOf(t, b), |t.board|)
  }

  /** Level with the ID as a last resort. */
  predicate NotAfter(t: Table, a: Id, b: Id) {
    LevelOf(t, a, b) < 0 || (LevelOf(t, a, b) == 0 && a <= b)
  }

  function InsertRanked(t: Table, s: seq<Id>, id: Id): seq<Id> {
    if s == [] then [id] else if NotAfter(t, id, s[0]) then [id] + s else [s[0]] + InsertRanked(t, s[1..], id)
  }

  function SortRanked(t: Table, ids: seq<Id>): seq<Id> {
    if ids == [] then [] else InsertRanked(t, SortRanked(t, ids[1..]), ids[0])
  }

  /** Everybody who sat down, the ones who walked out last. */
  function RankPlayers(t: Table): seq<Id> {
    SortRanked(t, t.players) + SortRanked(t, t.left)
  }

  /** The group entry i of a ranking falls in: it changes wherever two neighbours are not level. */
  function Group(t: Table, ranked: seq<Id>, i: nat): nat
    requires i < |ranked|
  {
    if i == 0 then 0
    else Group(t, ranked, i - 1) + if LevelOf(t, ranked[i - 1], ranked[i]) != 0 then 1 else 0
  }

  method StandingScore(t: Table, id: Id) returns (group: nat)
    requires id in t.players + t.left
    ensures var ranked := RankPlayers(t);
            IndexOf(ranked, id) < |ranked| && group == Group(t, ranked, IndexOf(ranked, id))
  {
    var ranked := RankPlayers(t);
    EverybodyRanked(t);
    group := 0;
    var i := 0;
    while ranked[i] != id
      invariant i < |ranked| && id !in ranked[..i] && group == Group(t, ranked, i)
      decreases |ranked| - i
    {
      StillAhead(ranked, id, i);
      i := i + 1;
      if LevelOf(t, ranked[i - 1], ranked[i]) != 0 {
        group := group + 1;
      }
    }
    FirstIndex(ranked, id, i);
  }

  lemma StillAhead(s: seq<Id>, id: Id, i: nat)
    requires i < |s| && id in s && id !in s[..i] && s[i] != id
    ensures i + 1 < |s| && id !in s[..i + 1]
  {
    assert s[..i + 1] == s[..i] + [s[i]];
    assert s == s[..i + 1] + s[i + 1..];
  }

  lemma {:induction false} FirstIndex(s: seq<Id>, id: Id, i: nat)
    requires i < |s| && s[i] == id && id !in s[..i]
    ensures IndexOf(s, id) == i
  {
    if i > 0 {
      assert s[..i][0] == s[0];
      assert s[..i][1..] == s[1..][..i - 1];
      FirstIndex(s[1..], id, i - 1);
    }
  }

  lemma {:induction false} InsertRankedKeeps(t: Table, s: seq<Id>, id: Id)
    ensures multiset(InsertRanked(t, s, id)) == multiset(s) + multiset{id}
  {
    if s != [] {
      assert s == [s[0]] + s[1..];
      InsertRankedKeeps(t, s[1..], id);
    }
  }

  lemma {:induction false} SortRankedKeeps(t: Table, ids: seq<Id>)
    ensures multiset(SortRanked(t, ids)) == multiset(ids)
  {
    if ids != [] {
      assert ids == [ids[0]] + ids[1..];
      SortRankedKeeps(t, ids[1..]);
      InsertRankedKeeps(t, SortRanked(t, ids[1..]), ids[0]);
    }
  }

  /** The ranking lists everybody who sat down once, and nobody who walked out above somebody who stayed. */
  lemma EverybodyRanked(t: Table)
    ensures multiset(RankPlayers(t)) == multiset(t.players + t.left)
    ensures forall id :: id in RankPlayers(t) <==> id in t.players + t.left
    ensures |SortRanked(t, t.players)| == |t.players| && |RankPlayers(t)| == |t.players| + |t.left|
    ensures multiset(RankPlayers(t)[..|t.players|]) == multiset(t.players)
    ensures multiset(RankPlayers(t)[|t.players|..]) == multiset(t.left)
  {
    SortRankedKeeps(t, t.players);
    SortRankedKeeps(t, t.left);
    assert |multiset(SortRanked(t, t.players))| == |multiset(t.players)|;
    assert |multiset(SortRanked(t, t.left))| == |multiset(t.left)|;
    assert RankPlayers(t)[..|t.players|] == SortRanked(t, t.players);
    assert RankPlayers(t)[|t.players|..] == SortRanked(t, t.left);
    forall id ensures id in RankPlayers(t) <==> id in t.players + t.left {
      assert id in RankPlayers(t) <==> id in multiset(RankPlayers(t));
      assert id in t.players + t.left <==> id in multiset(t.players + t.left);
    }
  }

  // ---- Level is a consistent order ----

  lemma LevelIsAntisymmetric(a: Standing, b: Standing, board: nat)
    ensures Level(a, b, board) < 0 <==> Level(b, a, board) > 0
    ensures Level(a, b, board) == 0 <==> Level(b, a, board) == 0
  {
  }

  lemma LevelIsTransitive(a: Standing, b: Standing, c: Standing, board: nat)
    requires Level(a, b, board) <= 0 && Level(b, c, board) <= 0
    ensures Level(a, c, board) <= 0
    ensures Level(a, c, board) == 0 <==> Level(a, b, board) == 0 && Level(b, c, board) == 0
  {
  }

  ghost predicate Ranked(t: Table, s: seq<Id>) {
    forall i, j | 0 <= i < j < |s| :: LevelOf(t, s[i], s[j]) <= 0
  }

  lemma PrependRanked(t: Table, id: Id, s: seq<Id>)
    requires Ranked(t, s) && (s != [] ==> LevelOf(t, id, s[0]) <= 0)
    ensures Ranked(t, [id] + s)
  {
    var r := [id] + s;
    forall i, j | 0 <= i < j < |r| ensures LevelOf(t, r[i], r[j]) <= 0 {
      assert r[j] == s[j - 1];
      if i > 0 {
        assert r[i] == s[i - 1];
      } else if j > 1 {
        LevelIsTransitive(StandingOf(t, id), StandingOf(t, s[0]), StandingOf(t, s[j - 1]), |t.board|);
      }
    }
  }

  lemma {:induction false} InsertRanks(t: Table, s: seq<Id>, id: Id)
    requires Ranked(t, s)
    ensures Ranked(t, InsertRanked(t, s, id))
    ensures s != [] && !NotAfter(t, id, s[0]) ==> InsertRanked(t, s, id)[0] == s[0]
  {
    if s != [] {
      if NotAfter(t, id, s[0]) {
        PrependRanked(t, id, s);
      } else {
        InsertRanks(t, s[1..], id);
        LevelIsAntisymmetric(StandingOf(t, id), StandingOf(t, s[0]), |t.board|);
        PrependRanked(t, s[0], InsertRanked(t, s[1..], id));
      }
    }
  }

  lemma {:induction false} SortRanks(t: Table, ids: seq<Id>)
    ensures Ranked(t, SortRanked(t, ids))
  {
    if ids != [] {
      SortRanks(t, ids[1..]);
      InsertRanks(t, SortRanked(t, ids[1..]), ids[0]);
    }
  }

  lemma LevelWithSelf(a: Standing, board: nat)
    ensures Level(a, a, board) == 0
  {
  }

  lemma {:induction false} GroupsAreLevels(t: Table, ranked: seq<Id>, n: nat, i: nat, j: nat)
    requires i <= j < n <= |ranked| && Ranked(t, ranked[..n])
    ensures Group(t, ranked, i) <= Group(t, ranked, j)
    ensures Group(t, ranked, i) == Group(t, ranked, j) <==> LevelOf(t, ranked[i], ranked[j]) == 0
    decreases j
  {
    if i == j {
      LevelWithSelf(StandingOf(t, ranked[i]), |t.board|);
    } else {
      GroupsAreLevels(t, ranked, n, i, j - 1);
      var s := ranked[..n];
      assert LevelOf(t, s[j - 1], s[j]) <= 0;
      if i < j - 1 {
        assert LevelOf(t, s[i], s[j - 1]) <= 0;
      } else {
        LevelWithSelf(StandingOf(t, ranked[i]), |t.board|);
      }
      LevelIsTransitive(StandingOf(t, s[i]), StandingOf(t, s[j - 1]), StandingOf(t, s[j]), |t.board|);
    }
  }

  /** Among those who saw the match through, the same group means a genuine draw and nothing else does. */
  lemma SeatedDrawExactlyWhenLevel(t: Table, i: nat, j: nat)
    requires i <= j < |t.players|
    ensures var ranked := RankPlayers(t);
            && |ranked| >= |t.players|
            && (Group(t, ranked, i) == Group(t, ranked, j) <==> LevelOf(t, ranked[i], ranked[j]) == 0)
            && LevelOf(t, ranked[i], ranked[j]) <= 0
  {
    var ranked, n := RankPlayers(t), |t.players|;
    EverybodyRanked(t);
    SortRanks(t, t.players);
    assert ranked[..n] == SortRanked(t, t.players);
    GroupsAreLevels(t, ranked, n, i, j);
    if i == j {
      LevelWithSelf(StandingOf(t, ranked[i]), |t.board|);
    } else {
      assert LevelOf(t, ranked[..n][i], ranked[..n][j]) <= 0;
    }
  }

  // ---- What the ranking goes by ----

  /** a did at least as well as b: chips, then how late the chips went, then being in the hand, then the cards shown. */
  ghost predicate DidAsWell(t: Table, a: Id, b: Id) {
    if Chips(t, a) != Chips(t, b) then Chips(t, a) > Chips(t, b)
    else if At(t.busted, a) != At(t.busted, b) then At(t.busted, a) > At(t.busted, b)
    else if a in t.folded then b in t.folded
    else b in t.folded || |t.board| < 3 || HandScore(t, a) >= HandScore(t, b)
  }

  /** In order of what players did, and among genuine draws in order of ID. */
  ghost predicate ByResult(t: Table, s: seq<Id>) {
    forall i, j | 0 <= i < j < |s| :: DidAsWell(t, s[i], s[j]) && (DidAsWell(t, s[j], s[i]) ==> s[i] <= s[j])
  }

  lemma LevelIsResult(t: Table, a: Id, b: Id)
    ensures LevelOf(t, a, b) <= 0 <==> DidAsWell(t, a, b)
  {
  }

  lemma PrependByResult(t: Table, id: Id, s: seq<Id>)
    requires ByResult(t, s) && (s != [] ==> DidAsWell(t, id, s[0]) && (DidAsWell(t, s[0], id) ==> id <= s[0]))
    ensures ByResult(t, [id] + s)
  {
    var r := [id] + s;
    forall i, j | 0 <= i < j < |r|
      ensures DidAsWell(t, r[i], r[j]) && (DidAsWell(t, r[j], r[i]) ==> r[i] <= r[j])
    {
      assert r[j] == s[j - 1];
      if i > 0 {
        assert r[i] == s[i - 1];
      } else if j > 1 {
        assert DidAsWell(t, s[0], s[j - 1]);
      }
    }
  }

  lemma {:induction false} InsertByResult(t: Table, s: seq<Id>, id: Id)
    requires ByResult(t, s)
    ensures ByResult(t, InsertRanked(t, s, id))
    ensures s != [] && !NotAfter(t, id, s[0]) ==> InsertRanked(t, s, id)[0] == s[0]
  {
    if s != [] {
      LevelIsResult(t, id, s[0]);
      LevelIsResult(t, s[0], id);
      LevelIsAntisymmetric(StandingOf(t, id), StandingOf(t, s[0]), |t.board|);
      if NotAfter(t, id, s[0]) {
        PrependByResult(t, id, s);
      } else {
        InsertByResult(t, s[1..], id);
        AfterInsert(t, s, id);
        PrependByResult(t, s[0], InsertRanked(t, s[1..], id));
      }
    }
  }

  lemma AfterInsert(t: Table, s: seq<Id>, id: Id)
    requires s != [] && ByResult(t, s) && !NotAfter(t, id, s[0])
    requires |s| > 1 && !NotAfter(t, id, s[1]) ==> InsertRanked(t, s[1..], id)[0] == s[1]
    ensures var rest := InsertRanked(t, s[1..], id);
            && rest != [] && DidAsWell(t, s[0], rest[0]) && (DidAsWell(t, rest[0], s[0]) ==> s[0] <= rest[0])
  {
    LevelIsResult(t, id, s[0]);
    LevelIsResult(t, s[0], id);
    LevelIsAntisymmetric(StandingOf(t, id), StandingOf(t, s[0]), |t.board|);
  }

  lemma {:induction false} SortByResult(t: Table, ids: seq<Id>)
    ensures ByResult(t, SortRanked(t, ids))
  {
    if ids != [] {
      SortByResult(t, ids[1..]);
      InsertByResult(t, SortRanked(t, ids[1..]), ids[0]);
    }
  }

  /** Those who stayed come in order of what they won, and so do those who left. */
  lemma RankedByResult(t: Table)
    ensures |RankPlayers(t)| == |t.players| + |t.left|
    ensures ByResult(t, RankPlayers(t)[..|t.players|]) && ByResult(t, RankPlayers(t)[|t.players|..])
  {
    EverybodyRanked(t);
    SortByResult(t, t.players);
    SortByResult(t, t.left);
    assert RankPlayers(t)[..|t.players|] == SortRanked(t, t.players);
    assert RankPlayers(t)[|t.players|..] == SortRanked(t, t.left);
  }

  /** While anybody is seated the ranking is led by a seated player whom nobody seated beats in chips. */
  lemma FirstHasMostChips(t: Table)
    requires t.players != []
    ensures RankPlayers(t) != [] && RankPlayers(t)[0] in t.players
    ensures forall id | id in t.players :: Chips(t, id) <= Chips(t, RankPlayers(t)[0])
  {
    RankedByResult(t);
    EverybodyRanked(t);
    var seated := RankPlayers(t)[..|t.players|];
    assert seated[0] in multiset(seated);
    forall id | id in t.players ensures Chips(t, id) <= Chips(t, seated[0]) {
      assert id in multiset(seated);
      var k :| 0 <= k < |seated| && seated[k] == id;
      assert k > 0 ==> DidAsWell(t, seated[0], seated[k]);
    }
  }

  /** Whoever is newly broke is stamped with the hand that broke them, and keeps that stamp. */
  lemma BustoutsAreStamped(t: Table, id: Id)
    ensures At(RecordBustouts(t).busted, id)
         == if id in t.busted then t.busted[id] else if id in t.players && Chips(t, id) == 0 then t.handNumber else 0
  {
  }
}
