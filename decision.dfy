/**
 * One decision from end to end (the core of `make_decision` in backend/server.py):
 * the scenario and choice are resolved and checked first, then the consequences are
 * applied to a copy of the company, the success score is computed on the updated
 * company, and the player's progression is updated.
 */
module Decision {
  import opened Results
  import opened Metrics
  import opened Scoring
  import opened Progression
  import opened Scenarios

  /** What a decision reports back, with the updated company that replaces the stored one. */
  datatype Outcome = Outcome(
    company: Company,
    successScore: real,
    xpGained: int,
    levelUp: bool,
    consequences: Consequences)

  /** The consequences a decision resolves to, or why it is rejected. */
  function Resolve(catalog: seq<Scenario>, scenarioTitle: string, choiceIndex: int): Result<Consequences, DecisionError>
    requires |catalog| > 0
  {
    ResolveChoice(FindScenario(catalog, scenarioTitle), choiceIndex)
  }

  /**
   * Processes a decision for `player`, whose company is `company`. A rejected choice
   * changes nothing; an accepted one leaves `company` as it was and returns the
   * updated copy, and updates the player's progression with the score of that copy.
   */
  method MakeDecision(catalog: seq<Scenario>, player: Player, company: Company, scenarioTitle: string, choiceIndex: int)
    returns (r: Result<Outcome, DecisionError>)
    requires |catalog| > 0
    requires WellFormed(company.Metrics())
    modifies player
    ensures r.Failure? <==> Resolve(catalog, scenarioTitle, choiceIndex).Failure?
    ensures r.Failure? ==> r.error == Resolve(catalog, scenarioTitle, choiceIndex).error && unchanged(player)
    ensures r.Success? ==>
      var cs := Resolve(catalog, scenarioTitle, choiceIndex).value;
      var updated := r.value.company;
      && fresh(updated)
      && r.value.consequences == cs
      && updated.name == company.name && updated.industry == company.industry
      && updated.Metrics() == ApplyAll(company.Metrics(), cs)
      && WellFormed(updated.Metrics())
      && r.value.successScore == DecisionSuccess(cs, updated.Metrics())
      && player.name == old(player.name) && player.companyId == old(player.companyId)
      && player.Snapshot() == Progressed(old(player.Snapshot()), r.value.successScore)
      && r.value.xpGained == XpGained(r.value.successScore)
      && (r.value.levelUp <==> player.level > old(player.level))
  {
    var scenario := FindScenario(catalog, scenarioTitle);
    var resolved := ResolveChoice(scenario, choiceIndex);
    if resolved.Failure? {
      return Failure(resolved.error);
    }
    var cs := resolved.value;
    var updated := ApplyDecisionConsequences(company, cs);
    var score := DecisionSuccess(cs, updated.Metrics());
    var xpGained, levelUp := player.RecordDecision(score);
    r := Success(Outcome(updated, score, xpGained, levelUp, cs));
  }

  /**
   * A decision keeps the invariants of both records: a consistent player stays
   * consistent (its level still the one its points reach), and a well-formed company
   * with non-negative metrics keeps its fields and non-negative metrics.
   */
  lemma DecisionKeepsInvariants(p: Progress, m: MetricSet, cs: Consequences)
    requires Consistent(p) && WellFormed(m) && AllNonNegative(m)
    ensures WellFormed(ApplyAll(m, cs)) && AllNonNegative(ApplyAll(m, cs))
    ensures Consistent(Progressed(p, DecisionSuccess(cs, ApplyAll(m, cs))))
  {
    ApplyAllKeepsInvariant(m, cs);
    ProgressedConsistent(p, DecisionSuccess(cs, ApplyAll(m, cs)));
  }

  /**
   * In a catalog of well-formed scenarios (the server's is one) every choice index in
   * range resolves to the consequences entry of that choice, never to the empty default.
   */
  lemma WellFormedChoicesResolve(catalog: seq<Scenario>, scenarioTitle: string, choiceIndex: int)
    requires |catalog| > 0
    requires forall i :: 0 <= i < |catalog| ==> ScenarioWellFormed(catalog[i])
    requires 0 <= choiceIndex < |FindScenario(catalog, scenarioTitle).choices|
    ensures Resolve(catalog, scenarioTitle, choiceIndex).Success?
    ensures var s := FindScenario(catalog, scenarioTitle);
      s.choices[choiceIndex] in s.consequences &&
      Resolve(catalog, scenarioTitle, choiceIndex).value == s.consequences[s.choices[choiceIndex]]
  {
    var s := FindScenario(catalog, scenarioTitle);
    assert s.choices[choiceIndex] in s.choices;
  }
}
