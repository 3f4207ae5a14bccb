/**
 * The leaderboard projection (`get_leaderboard` in backend/server.py): the ten
 * players with the most experience points, best first, each shown with their
 * company and success rate.
 */
module Leaderboard {
  import opened Progression

  const BoardSize: nat := 10

  /** A stored player: name, company id and progression. */
  datatype PlayerRecord = PlayerRecord(name: string, companyId: string, progress: Progress)

  /** The stored company fields the leaderboard shows. */
  datatype CompanyRecord = CompanyRecord(name: string, industry: string)

  datatype Entry = Entry(
    playerName: string,
    companyName: string,
    industry: string,
    level: int,
    experiencePoints: int,
    successRate: real)

  function Xp(p: PlayerRecord): int {
    p.progress.experiencePoints
  }

  /** A share of a positive whole lies between 0 and 1. */
  lemma ShareAtMostOne(part: real, whole: real)
    requires 0.0 <= part <= whole && whole > 0.0
    ensures 0.0 <= part / whole <= 1.0
  {
    assert part / whole * whole == part;
  }

  /** `successful / max(1, total) * 100`: the divisor is never zero. */
  function SuccessRate(successful: int, total: int): (rate: real)
    ensures total >= 1 ==> rate * total as real == successful as real * 100.0
    ensures total < 1 ==> rate == successful as real * 100.0
    ensures 0 <= successful <= total ==> 0.0 <= rate <= 100.0
  {
    var divisor := if total < 1 then 1 else total;
    var share := successful as real / divisor as real;
    assert 0 <= successful <= total ==> 0.0 <= share <= 1.0 by {
      if 0 <= successful <= total {
        ShareAtMostOne(successful as real, divisor as real);
      }
    }
    share * 100.0
  }

  predicate ByXpDescending(ps: seq<PlayerRecord>) {
    forall i, j :: 0 <= i < j < |ps| ==> Xp(ps[i]) >= Xp(ps[j])
  }

  /** Inserts `p` before the first player with at most as many points. */
  function Insert(p: PlayerRecord, sorted: seq<PlayerRecord>): (r: seq<PlayerRecord>)
    requires ByXpDescending(sorted)
    ensures |r| == |sorted| + 1
    ensures r[0] == p || (|sorted| > 0 && r[0] == sorted[0])
    ensures ByXpDescending(r)
    ensures multiset(r) == multiset(sorted) + multiset{p}
  {
    if sorted == [] then [p]
    else if Xp(sorted[0]) <= Xp(p) then
      PrependSorted(p, sorted);
      [p] + sorted
    else
      var tail := sorted[1..];
      assert ByXpDescending(tail) by {
        forall i, j | 0 <= i < j < |tail| ensures Xp(tail[i]) >= Xp(tail[j]) {
          assert tail[i] == sorted[i + 1] && tail[j] == sorted[j + 1];
        }
      }
      var rest := Insert(p, tail);
      assert multiset(sorted) == multiset{sorted[0]} + multiset(tail) by {
        assert sorted == [sorted[0]] + tail;
      }
      PrependSorted(sorted[0], rest);
      [sorted[0]] + rest
  }

  /** A player with at least the points of a ranking's head can lead that ranking. */
  lemma PrependSorted(h: PlayerRecord, ps: seq<PlayerRecord>)
    requires ByXpDescending(ps)
    requires |ps| > 0 ==> Xp(ps[0]) <= Xp(h)
    ensures ByXpDescending([h] + ps)
  {
    var r := [h] + ps;
    forall i, j | 0 <= i < j < |r| ensures Xp(r[i]) >= Xp(r[j]) {
      if i == 0 {
        assert r[j] == ps[j - 1];
        assert Xp(ps[0]) >= Xp(ps[j - 1]);
      } else {
        assert r[i] == ps[i - 1] && r[j] == ps[j - 1];
      }
    }
  }

  /** The players ordered by experience points, highest first. */
  function SortByXp(ps: seq<PlayerRecord>): (r: seq<PlayerRecord>)
    ensures ByXpDescending(r)
    ensures multiset(r) == multiset(ps)
  {
    if ps == [] then []
    else
      assert ps == [ps[0]] + ps[1..];
      Insert(ps[0], SortByXp(ps[1..]))
  }

  /** The query's result: the first ten players by experience points. */
  function TopPlayers(ps: seq<PlayerRecord>): (r: seq<PlayerRecord>)
    ensures |r| == if |ps| < BoardSize then |ps| else BoardSize
    ensures ByXpDescending(r)
    ensures multiset(r) <= multiset(ps)
    ensures forall p :: p in r ==> p in ps
  {
    var sorted := SortByXp(ps);
    var k := if |sorted| < BoardSize then |sorted| else BoardSize;
    var r, rest := sorted[..k], sorted[k..];
    assert sorted == r + rest;
    assert multiset(ps) == multiset(r) + multiset(rest);
    assert forall p :: p in r ==> multiset(r)[p] > 0 && multiset(ps)[p] > 0;
    assert ByXpDescending(r) by {
      forall i, j | 0 <= i < j < |r| ensures Xp(r[i]) >= Xp(r[j]) {
        assert r[i] == sorted[i] && r[j] == sorted[j];
      }
    }
    r
  }

  /** No player left out of the top ten has more points than any player in it. */
  lemma TopPlayersAreTop(ps: seq<PlayerRecord>, q: PlayerRecord, t: PlayerRecord)
    requires q in multiset(ps) - multiset(TopPlayers(ps))
    requires t in TopPlayers(ps)
    ensures Xp(q) <= Xp(t)
  {
    var sorted := SortByXp(ps);
    var k := if |sorted| < BoardSize then |sorted| else BoardSize;
    var top, rest := sorted[..k], sorted[k..];
    assert top == TopPlayers(ps);
    assert sorted == top + rest;
    assert multiset(ps) == multiset(top) + multiset(rest);
    assert multiset(rest)[q] > 0;
    var j :| 0 <= j < |rest| && rest[j] == q;
    var i :| 0 <= i < |top| && top[i] == t;
    assert top[i] == sorted[i] && rest[j] == sorted[k + j];
    assert Xp(sorted[i]) >= Xp(sorted[k + j]);
  }

  function EntryFor(p: PlayerRecord, c: CompanyRecord): Entry {
    Entry(p.name, c.name, c.industry, p.progress.level, p.progress.experiencePoints,
      SuccessRate(p.progress.successfulDecisions, p.progress.totalDecisions))
  }

  /**
   * The entries shown for `ranked`, in its order: one per player whose company is
   * found, none for a player whose company is missing.
   */
  function Entries(ranked: seq<PlayerRecord>, companies: map<string, CompanyRecord>): (r: seq<Entry>)
    ensures |r| <= |ranked|
  {
    if ranked == [] then []
    else
      var init, p := ranked[..|ranked| - 1], ranked[|ranked| - 1];
      var shown := Entries(init, companies);
      if p.companyId in companies then shown + [EntryFor(p, companies[p.companyId])] else shown
  }

  /**
   * Every entry shown belongs to a ranked player whose company is found, and every
   * such player is shown.
   */
  lemma {:induction false} EntriesMembers(ranked: seq<PlayerRecord>, companies: map<string, CompanyRecord>)
    ensures forall e :: e in Entries(ranked, companies) ==>
      exists p :: p in ranked && p.companyId in companies && e == EntryFor(p, companies[p.companyId])
    ensures forall p :: p in ranked && p.companyId in companies ==>
      EntryFor(p, companies[p.companyId]) in Entries(ranked, companies)
  {
    if ranked != [] {
      var init, p := ranked[..|ranked| - 1], ranked[|ranked| - 1];
      EntriesMembers(init, companies);
      assert ranked == init + [p];
      assert forall q :: q in ranked <==> q in init || q == p;
    }
  }

  /** A ranking ordered by points gives entries ordered by points. */
  lemma {:induction false} EntriesOrdered(ranked: seq<PlayerRecord>, companies: map<string, CompanyRecord>)
    requires ByXpDescending(ranked)
    ensures forall i, j :: 0 <= i < j < |Entries(ranked, companies)| ==>
      Entries(ranked, companies)[i].experiencePoints >= Entries(ranked, companies)[j].experiencePoints
  {
    if ranked != [] {
      var init, p := ranked[..|ranked| - 1], ranked[|ranked| - 1];
      assert ByXpDescending(init) by {
        forall i, j | 0 <= i < j < |init| ensures Xp(init[i]) >= Xp(init[j]) {
          assert init[i] == ranked[i] && init[j] == ranked[j];
        }
      }
      EntriesOrdered(init, companies);
      EntriesMembers(init, companies);
      var shown := Entries(init, companies);
      forall e | e in shown ensures e.experiencePoints >= Xp(p) {
        var q :| q in init && q.companyId in companies && e == EntryFor(q, companies[q.companyId]);
        var k :| 0 <= k < |init| && init[k] == q;
        assert ranked[k] == q;
      }
      var r := Entries(ranked, companies);
      if p.companyId in companies {
        forall i, j | 0 <= i < j < |r| ensures r[i].experiencePoints >= r[j].experiencePoints {
          if j == |shown| {
            assert r[i] == shown[i] && shown[i] in shown;
          } else {
            assert r[i] == shown[i] && r[j] == shown[j];
          }
        }
      }
    }
  }

  /**
   * The leaderboard: one entry per top-ten player whose company is found, in the
   * ranking's order. `companies` maps company ids to the stored companies.
   */
  method GetLeaderboard(players: seq<PlayerRecord>, companies: map<string, CompanyRecord>)
    returns (board: seq<Entry>)
    ensures board == Entries(TopPlayers(players), companies)
  {
    var top := TopPlayers(players);
    board := [];
    for i := 0 to |top|
      invariant board == Entries(top[..i], companies)
    {
      var p := top[i];
      if p.companyId in companies {
        board := board + [EntryFor(p, companies[p.companyId])];
      }
      assert top[..i + 1][..i] == top[..i] && top[..i + 1][i] == p;
    }
    assert top[..|top|] == top;
  }

  /**
   * The leaderboard has at most ten entries, ordered by points, each for a top-ten
   * player whose company is found, and one for every such player.
   */
  lemma LeaderboardShape(players: seq<PlayerRecord>, companies: map<string, CompanyRecord>)
    ensures var board := Entries(TopPlayers(players), companies);
      && |board| <= BoardSize
      && (forall i, j :: 0 <= i < j < |board| ==> board[i].experiencePoints >= board[j].experiencePoints)
      && (forall e :: e in board ==>
            exists p :: p in TopPlayers(players) && p.companyId in companies && e == EntryFor(p, companies[p.companyId]))
      && (forall p :: p in TopPlayers(players) && p.companyId in companies ==>
            EntryFor(p, companies[p.companyId]) in board)
  {
    EntriesOrdered(TopPlayers(players), companies);
    EntriesMembers(TopPlayers(players), companies);
  }

  /** Every entry of a consistent player shows a success rate between 0 and 100. */
  lemma ConsistentSuccessRateInRange(p: PlayerRecord, c: CompanyRecord)
    requires Consistent(p.progress)
    ensures 0.0 <= EntryFor(p, c).successRate <= 100.0
  {
  }
}
