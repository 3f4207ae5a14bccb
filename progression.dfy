/**
 * A player's progression after a decision: experience points, decision
 * counters, level and achievements (the player-update block of `make_decision`
 * in backend/server.py).
 */
module Progression {

  const SuccessThreshold: real := 70.0
  const XpPerLevel: int := 100
  const RookieDecisions: int := 10
  const Rookie: string := "Business Rookie"

  /** Python's `int(x)` on a float: truncation toward zero. */
  function Truncate(x: real): (r: int)
    ensures x >= 0.0 ==> r == x.Floor
    ensures x < 0.0 ==> r as real - 1.0 < x <= r as real
  {
    if x >= 0.0 then x.Floor else -((-x).Floor)
  }

  /** Experience points for a decision: `int(score / 10) + 10`. */
  function XpGained(score: real): (xp: int)
    ensures 0.0 <= score <= 100.0 ==> 10 <= xp <= 20
    ensures score >= 0.0 ==> xp >= 10
  {
    Truncate(score / 10.0) + 10
  }

  /** A higher score never earns fewer experience points. */
  lemma XpGainedMonotone(low: real, high: real)
    requires 0.0 <= low <= high
    ensures XpGained(low) <= XpGained(high)
  {
    assert (low / 10.0).Floor <= (high / 10.0).Floor by {
      assert low / 10.0 <= high / 10.0;
    }
  }

  /** The progression fields of a player record. */
  datatype Progress = Progress(
    level: int,
    experiencePoints: int,
    totalDecisions: int,
    successfulDecisions: int,
    achievements: seq<string>)

  /** The progression of a newly created player. */
  function NewProgress(): Progress {
    Progress(1, 0, 0, 0, [])
  }

  predicate NoDuplicates(s: seq<string>) {
    forall i, j :: 0 <= i < j < |s| ==> s[i] != s[j]
  }

  /**
   * What holds of every player the game has created and updated: the level is the
   * one the experience points reach (one level per 100 points), the successful
   * decisions are among the decisions made, achievements are not repeated, and the
   * rookie achievement is held exactly from the tenth decision on.
   */
  predicate Consistent(p: Progress) {
    && p.experiencePoints >= 0
    && p.level == p.experiencePoints / XpPerLevel + 1
    && 0 <= p.successfulDecisions <= p.totalDecisions
    && NoDuplicates(p.achievements)
    && (Rookie in p.achievements <==> p.totalDecisions >= RookieDecisions)
  }

  /** The progression after one decision with success score `score`. */
  function Progressed(p: Progress, score: real): (r: Progress)
    ensures r.experiencePoints == p.experiencePoints + XpGained(score)
    ensures 0.0 <= score <= 100.0 ==> p.experiencePoints + 10 <= r.experiencePoints <= p.experiencePoints + 20
    ensures r.totalDecisions == p.totalDecisions + 1
    ensures r.successfulDecisions == p.successfulDecisions + 1 <==> score > SuccessThreshold
    ensures r.successfulDecisions == p.successfulDecisions <==> score <= SuccessThreshold
    ensures p.level <= r.level <= p.level + 1
    ensures r.level == p.level + 1 <==> r.experiencePoints >= p.level * XpPerLevel
    ensures |p.achievements| <= |r.achievements| && r.achievements[..|p.achievements|] == p.achievements
    ensures Rookie in r.achievements <==> Rookie in p.achievements || r.totalDecisions >= RookieDecisions
    ensures forall a :: a in r.achievements && a !in p.achievements ==> a == Rookie
    ensures NoDuplicates(p.achievements) ==> NoDuplicates(r.achievements)
  {
    var xp := p.experiencePoints + XpGained(score);
    var total := p.totalDecisions + 1;
    Progress(
      if xp >= p.level * XpPerLevel then p.level + 1 else p.level,
      xp,
      total,
      if score > SuccessThreshold then p.successfulDecisions + 1 else p.successfulDecisions,
      if total >= RookieDecisions && Rookie !in p.achievements then p.achievements + [Rookie] else p.achievements)
  }

  /**
   * A decision keeps a player consistent. In particular, since one decision earns at
   * most 20 points, raising the level by at most one per decision always reaches the
   * level the experience points call for.
   */
  lemma ProgressedConsistent(p: Progress, score: real)
    requires Consistent(p) && 0.0 <= score <= 100.0
    ensures Consistent(Progressed(p, score))
  {
    var r := Progressed(p, score);
    var x, l := p.experiencePoints, p.level;
    assert (l - 1) * 100 <= x < l * 100;
    if r.experiencePoints >= l * 100 {
      assert l * 100 <= r.experiencePoints < (l + 1) * 100;
    } else {
      assert (l - 1) * 100 <= r.experiencePoints < l * 100;
    }
  }

  /** The progression after a sequence of decisions with the given scores, in order. */
  function Replay(p: Progress, scores: seq<real>): Progress
    decreases scores
  {
    if scores == [] then p else Replay(Progressed(p, scores[0]), scores[1..])
  }

  predicate ScoresInRange(scores: seq<real>) {
    forall i :: 0 <= i < |scores| ==> 0.0 <= scores[i] <= 100.0
  }

  /**
   * Over any sequence of decisions: the level and the experience points never
   * decrease, each decision counts exactly once, each earns at least 10 points,
   * and achievements are only ever appended.
   */
  lemma {:induction false} ReplayMonotone(p: Progress, scores: seq<real>)
    requires ScoresInRange(scores)
    decreases scores
    ensures var r := Replay(p, scores);
      && p.level <= r.level <= p.level + |scores|
      && r.experiencePoints >= p.experiencePoints + 10 * |scores|
      && r.totalDecisions == p.totalDecisions + |scores|
      && p.successfulDecisions <= r.successfulDecisions <= p.successfulDecisions + |scores|
      && |p.achievements| <= |r.achievements| && r.achievements[..|p.achievements|] == p.achievements
  {
    if scores != [] {
      var q := Progressed(p, scores[0]);
      ReplayMonotone(q, scores[1..]);
      var r := Replay(p, scores);
      assert r.achievements[..|p.achievements|] == r.achievements[..|q.achievements|][..|p.achievements|];
    }
  }

  /** Any sequence of decisions keeps a consistent player consistent. */
  lemma {:induction false} ReplayConsistent(p: Progress, scores: seq<real>)
    requires Consistent(p) && ScoresInRange(scores)
    ensures Consistent(Replay(p, scores))
    decreases scores
  {
    if scores != [] {
      ProgressedConsistent(p, scores[0]);
      ReplayConsistent(Progressed(p, scores[0]), scores[1..]);
    }
  }

  /** A new player holds "Business Rookie", once, exactly when ten or more decisions are made. */
  lemma RookieFromTenthDecision(scores: seq<real>)
    requires ScoresInRange(scores)
    ensures var r := Replay(NewProgress(), scores);
      && (Rookie in r.achievements <==> |scores| >= RookieDecisions)
      && r.level == r.experiencePoints / XpPerLevel + 1
      && r.successfulDecisions <= r.totalDecisions == |scores|
  {
    ReplayConsistent(NewProgress(), scores);
    ReplayMonotone(NewProgress(), scores);
  }

  /** A player record; the decision update changes its fields in place. */
  class Player {
    var name: string
    var companyId: string
    var level: int
    var experiencePoints: int
    var totalDecisions: int
    var successfulDecisions: int
    var achievements: seq<string>

    function Snapshot(): Progress
      reads this
    {
      Progress(level, experiencePoints, totalDecisions, successfulDecisions, achievements)
    }

    constructor (name: string, companyId: string)
      ensures this.name == name && this.companyId == companyId
      ensures Snapshot() == NewProgress() && Consistent(Snapshot())
    {
      this.name, this.companyId := name, companyId;
      level, experiencePoints, totalDecisions, successfulDecisions, achievements := 1, 0, 0, 0, [];
    }

    /**
     * Records one decision with success score `score`; returns the experience points
     * gained and whether the level went up.
     */
    method RecordDecision(score: real) returns (xpGained: int, levelUp: bool)
      modifies this
      ensures name == old(name) && companyId == old(companyId)
      ensures Snapshot() == Progressed(old(Snapshot()), score)
      ensures xpGained == XpGained(score)
      ensures levelUp <==> level > old(level)
      ensures old(Consistent(Snapshot())) && 0.0 <= score <= 100.0 ==> Consistent(Snapshot())
    {
      ghost var next := Progressed(Snapshot(), score);
      var previousLevel := level;
      xpGained := XpGained(score);
      experiencePoints := experiencePoints + xpGained;
      totalDecisions := totalDecisions + 1;
      if score > SuccessThreshold {
        successfulDecisions := successfulDecisions + 1;
      }
      if experiencePoints >= level * XpPerLevel {
        level := level + 1;
      }
      if totalDecisions >= RookieDecisions && Rookie !in achievements {
        achievements := achievements + [Rookie];
      }
      levelUp := level > previousLevel;
      assert achievements == next.achievements && level == next.level;
      if 0.0 <= score <= 100.0 && old(Consistent(Snapshot())) {
        ProgressedConsistent(old(Snapshot()), score);
      }
    }
  }
}
