/**
 * The success score of a decision (`calculate_decision_success` in
 * backend/server.py): gains count double, losses count one and a half times,
 * the company's cash adds a financial-health term, and the sum is clamped to [0, 100].
 */
module Scoring {
  import opened Metrics

  /** The sum of the positive changes of a consequences dictionary. */
  function PositiveImpact(cs: seq<Effect>): (r: real)
    ensures r >= 0.0
  {
    if cs == [] then 0.0 else PositiveImpact(cs[..|cs| - 1]) + AtLeastZero(cs[|cs| - 1].change)
  }

  /** The sum of the negative changes of a consequences dictionary. */
  function NegativeImpact(cs: seq<Effect>): (r: real)
    ensures r <= 0.0
  {
    if cs == [] then 0.0
    else NegativeImpact(cs[..|cs| - 1]) + (if cs[|cs| - 1].change < 0.0 then cs[|cs| - 1].change else 0.0)
  }

  /** The plain sum of all changes, the reference the two impacts split. */
  function NetChange(cs: seq<Effect>): real {
    if cs == [] then 0.0 else cs[0].change + NetChange(cs[1..])
  }

  /** Gains and losses together make up the net change, each change counted once. */
  lemma {:induction false} ImpactsSplitNetChange(cs: seq<Effect>)
    ensures PositiveImpact(cs) + NegativeImpact(cs) == NetChange(cs)
  {
    if cs != [] {
      ImpactsSplitNetChange(cs[1..]);
      NetChangeOfSnoc(cs);
      if |cs| > 1 {
        ImpactsSplitNetChange(cs[..|cs| - 1]);
      }
    }
  }

  /** NetChange read from the other end: the last change plus the sum of the others. */
  lemma {:induction false} NetChangeOfSnoc(cs: seq<Effect>)
    requires cs != []
    ensures NetChange(cs) == NetChange(cs[..|cs| - 1]) + cs[|cs| - 1].change
  {
    if |cs| > 1 {
      NetChangeOfSnoc(cs[1..]);
      assert cs[1..][..|cs[1..]| - 1] == cs[..|cs| - 1][1..];
    }
  }

  /** The unclamped score: 50, twice the gains, 1.5 times the losses, and 10 per 100000 of cash. */
  function RawScore(cs: seq<Effect>, cash: real): real {
    50.0 + PositiveImpact(cs) * 2.0 + NegativeImpact(cs) * 1.5 + (cash / 100000.0) * 10.0
  }

  /** The success score of a decision, judged on the company after the decision. */
  function DecisionSuccess(cs: seq<Effect>, company: MetricSet): (score: real)
    requires "cash" in company.business
    ensures 0.0 <= score <= 100.0
    ensures 0.0 <= RawScore(cs, company.business["cash"]) <= 100.0 ==>
      score == RawScore(cs, company.business["cash"])
    ensures RawScore(cs, company.business["cash"]) < 0.0 ==> score == 0.0
    ensures RawScore(cs, company.business["cash"]) > 100.0 ==> score == 100.0
  {
    var raw := RawScore(cs, company.business["cash"]);
    if 100.0 < raw then 100.0 else if raw < 0.0 then 0.0 else raw
  }

  /** A decision with no losses on a company whose cash is not negative scores at least 50. */
  lemma {:induction false} NoLossesScoresAtLeastFifty(cs: seq<Effect>, company: MetricSet)
    requires "cash" in company.business && company.business["cash"] >= 0.0
    requires forall i :: 0 <= i < |cs| ==> cs[i].change >= 0.0
    ensures DecisionSuccess(cs, company) >= 50.0
  {
    NoLossesNoPenalty(cs);
  }

  lemma {:induction false} NoLossesNoPenalty(cs: seq<Effect>)
    requires forall i :: 0 <= i < |cs| ==> cs[i].change >= 0.0
    ensures NegativeImpact(cs) == 0.0
  {
    if cs != [] {
      NoLossesNoPenalty(cs[..|cs| - 1]);
    }
  }
}
