/**
 * The scenario catalog and the resolution of a submitted choice to its
 * consequences (the scenario lookup and choice checks of `make_decision` in
 * backend/server.py).
 */
module Scenarios {
  import opened Results
  import opened Metrics

  datatype DecisionType = Materials | Logistics | Workforce | Marketing | Finance | Expansion

  /**
   * A scenario template: its title, its kind of decision, the ids of its choices in
   * order, and the consequences dictionary of each choice id.
   */
  datatype Scenario = Scenario(
    title: string,
    decisionType: DecisionType,
    choices: seq<string>,
    consequences: map<string, Consequences>)

  datatype DecisionError =
    | InvalidChoice      // choice index at or past the end: rejected with HTTP 400
    | IndexOutOfRange    // negative choice index before the start: Python's IndexError

  /** The position of the first scenario titled `title`, if any. */
  function TitleIndex(catalog: seq<Scenario>, title: string): (r: Option<nat>)
    ensures r.None? <==> forall i :: 0 <= i < |catalog| ==> catalog[i].title != title
    ensures r.Some? ==> r.value < |catalog| && catalog[r.value].title == title
    ensures r.Some? ==> forall i :: 0 <= i < r.value ==> catalog[i].title != title
  {
    if catalog == [] then None
    else if catalog[0].title == title then Some(0)
    else match TitleIndex(catalog[1..], title)
      case None => None
      case Some(i) => Some(i + 1)
  }

  /** The first scenario titled `title`; when there is none, the first scenario of the catalog. */
  function FindScenario(catalog: seq<Scenario>, title: string): (s: Scenario)
    requires |catalog| > 0
    ensures s in catalog
    ensures (exists i :: 0 <= i < |catalog| && catalog[i].title == title) ==> s.title == title
    ensures (forall i :: 0 <= i < |catalog| ==> catalog[i].title != title) ==> s == catalog[0]
    ensures forall i :: 0 <= i < |catalog| && catalog[i] != s ==>
      catalog[i].title != title || exists j :: 0 <= j < i && catalog[j] == s
  {
    match TitleIndex(catalog, title)
    case Some(i) => catalog[i]
    case None => catalog[0]
  }

  /** The consequences of choice `id`; a choice without an entry has an empty dictionary. */
  function ConsequencesOf(s: Scenario, id: string): Consequences {
    if id in s.consequences then s.consequences[id] else []
  }

  /**
   * The consequences of the choice at `choiceIndex`, indexed the way Python indexes
   * a list: a negative index counts from the end.
   */
  function ResolveChoice(s: Scenario, choiceIndex: int): (r: Result<Consequences, DecisionError>)
    ensures r == Failure(InvalidChoice) <==> choiceIndex >= |s.choices|
    ensures r == Failure(IndexOutOfRange) <==> choiceIndex < -|s.choices|
    ensures r.Success? <==> -|s.choices| <= choiceIndex < |s.choices|
    ensures r.Success? && choiceIndex >= 0 ==> r.value == ConsequencesOf(s, s.choices[choiceIndex])
    ensures r.Success? && choiceIndex < 0 ==>
      r.value == ConsequencesOf(s, s.choices[|s.choices| + choiceIndex])
    ensures r.Success? && s.choices[if choiceIndex >= 0 then choiceIndex else |s.choices| + choiceIndex] !in s.consequences ==>
      r.value == []
  {
    if choiceIndex >= |s.choices| then Failure(InvalidChoice)
    else if choiceIndex < -|s.choices| then Failure(IndexOutOfRange)
    else
      var id := s.choices[if choiceIndex >= 0 then choiceIndex else |s.choices| + choiceIndex];
      Success(ConsequencesOf(s, id))
  }

  /** Every choice of the scenario has an entry in its consequences. */
  predicate ScenarioWellFormed(s: Scenario) {
    forall i :: 0 <= i < |s.choices| ==> s.choices[i] in s.consequences
  }

  const CheapOverseas: Consequences :=
    [Effect("material_cost_per_unit", -4.0), Effect("production_time_days", 5.0),
     Effect("quality_score", -10.0), Effect("reputation", -15.0), Effect("profit_margin", 12.0)]

  const PremiumLocal: Consequences :=
    [Effect("material_cost_per_unit", 3.0), Effect("quality_score", 15.0),
     Effect("reputation", 10.0), Effect("profit_margin", -8.0), Effect("customer_loyalty", 10.0)]

  const SustainableFair: Consequences :=
    [Effect("material_cost_per_unit", 2.5), Effect("reputation", 25.0),
     Effect("brand_awareness", 8.0), Effect("profit_margin", -6.0),
     Effect("customer_loyalty", 15.0)]

  const NegotiateCurrent: Consequences :=
    [Effect("material_cost_per_unit", -1.0), Effect("reputation", 5.0), Effect("efficiency", 5.0),
     Effect("profit_margin", 3.0)]

  const SourcingScenario: Scenario :=
    Scenario("Raw Material Sourcing Decision", Materials,
      ["cheap_overseas", "premium_local", "sustainable_fair", "negotiate_current"],
      map[
        "cheap_overseas" := CheapOverseas,
        "premium_local" := PremiumLocal,
        "sustainable_fair" := SustainableFair,
        "negotiate_current" := NegotiateCurrent])

  const EconomySea: Consequences :=
    [Effect("cash", 49500.0), Effect("production_time_days", 30.0),
     Effect("customer_loyalty", -5.0), Effect("efficiency", -5.0), Effect("profit_margin", 8.0)]

  const StandardLand: Consequences :=
    [Effect("cash", 48800.0), Effect("production_time_days", 10.0),
     Effect("customer_loyalty", 5.0), Effect("efficiency", 5.0), Effect("profit_margin", 6.0)]

  const ExpressAir: Consequences :=
    [Effect("cash", 47000.0), Effect("production_time_days", 3.0),
     Effect("customer_loyalty", 15.0), Effect("reputation", 10.0), Effect("profit_margin", -2.0)]

  const MixedStrategy: Consequences :=
    [Effect("cash", 48000.0), Effect("production_time_days", 8.0),
     Effect("customer_loyalty", 10.0), Effect("efficiency", 10.0), Effect("profit_margin", 4.0)]

  const ShippingScenario: Scenario :=
    Scenario("Shipping Method Selection", Logistics,
      ["economy_sea", "standard_land", "express_air", "mixed_strategy"],
      map[
        "economy_sea" := EconomySea,
        "standard_land" := StandardLand,
        "express_air" := ExpressAir,
        "mixed_strategy" := MixedStrategy])

  const HirePremium: Consequences :=
    [Effect("total_employees", 25.0), Effect("average_salary", 7500.0),
     Effect("productivity", 20.0), Effect("employee_satisfaction", 15.0),
     Effect("cash", -162500.0), Effect("efficiency", 15.0)]

  const HireStandard: Consequences :=
    [Effect("total_employees", 30.0), Effect("average_salary", 0.0), Effect("productivity", 15.0),
     Effect("employee_satisfaction", 5.0), Effect("cash", -150000.0), Effect("efficiency", 10.0)]

  const AutomationHybrid: Consequences :=
    [Effect("total_employees", 10.0), Effect("average_salary", 12000.0),
     Effect("productivity", 35.0), Effect("efficiency", 30.0), Effect("cash", -280000.0),
     Effect("quality_score", 15.0)]

  const OutsourceProduction: Consequences :=
    [Effect("cash", -80000.0), Effect("efficiency", -10.0), Effect("quality_score", -8.0),
     Effect("profit_margin", 8.0), Effect("reputation", -5.0)]

  const WorkforceScenario: Scenario :=
    Scenario("Factory Workforce Expansion", Workforce,
      ["hire_premium", "hire_standard", "automation_hybrid", "outsource_production"],
      map[
        "hire_premium" := HirePremium,
        "hire_standard" := HireStandard,
        "automation_hybrid" := AutomationHybrid,
        "outsource_production" := OutsourceProduction])

  const DigitalFocused: Consequences :=
    [Effect("brand_awareness", 25.0), Effect("customer_acquisition_cost", -15.0),
     Effect("market_penetration", 12.0), Effect("marketing_budget", 0.0),
     Effect("customer_loyalty", 8.0)]

  const TraditionalMix: Consequences :=
    [Effect("brand_awareness", 15.0), Effect("market_penetration", 8.0),
     Effect("customer_acquisition_cost", 5.0), Effect("marketing_budget", 2000.0),
     Effect("reputation", 5.0)]

  const Experiential: Consequences :=
    [Effect("customer_loyalty", 20.0), Effect("brand_awareness", 18.0),
     Effect("customer_acquisition_cost", 10.0), Effect("marketing_budget", 5000.0),
     Effect("reputation", 15.0)]

  const ContentEducation: Consequences :=
    [Effect("reputation", 20.0), Effect("customer_loyalty", 15.0), Effect("brand_awareness", 10.0),
     Effect("customer_acquisition_cost", -5.0), Effect("marketing_budget", -3000.0)]

  const MarketingScenario: Scenario :=
    Scenario("Marketing Campaign Strategy", Marketing,
      ["digital_focused", "traditional_mix", "experiential", "content_education"],
      map[
        "digital_focused" := DigitalFocused,
        "traditional_mix" := TraditionalMix,
        "experiential" := Experiential,
        "content_education" := ContentEducation])

  const RdInnovation: Consequences :=
    [Effect("cash", -80000.0), Effect("quality_score", 25.0), Effect("reputation", 15.0),
     Effect("market_share", 8.0), Effect("efficiency", 10.0)]

  const MarketExpansion: Consequences :=
    [Effect("cash", -75000.0), Effect("market_share", 15.0), Effect("brand_awareness", 20.0),
     Effect("revenue", 15000.0), Effect("market_penetration", 10.0)]

  const CapacityUpgrade: Consequences :=
    [Effect("cash", -90000.0), Effect("production_capacity", 500.0), Effect("efficiency", 25.0),
     Effect("quality_score", 10.0), Effect("profit_margin", 5.0)]

  const Acquisition: Consequences :=
    [Effect("cash", -85000.0), Effect("market_share", 12.0), Effect("total_employees", 20.0),
     Effect("production_capacity", 300.0), Effect("customer_loyalty", 8.0)]

  const InvestmentScenario: Scenario :=
    Scenario("Financial Investment Decision", Finance,
      ["rd_innovation", "market_expansion", "capacity_upgrade", "acquisition"],
      map[
        "rd_innovation" := RdInnovation,
        "market_expansion" := MarketExpansion,
        "capacity_upgrade" := CapacityUpgrade,
        "acquisition" := Acquisition])

  const FranchiseModel: Consequences :=
    [Effect("market_share", 20.0), Effect("revenue", 25000.0), Effect("cash", 50000.0),
     Effect("reputation", 5.0), Effect("efficiency", -5.0)]

  const DirectExpansion: Consequences :=
    [Effect("market_share", 15.0), Effect("revenue", 30000.0), Effect("cash", -120000.0),
     Effect("reputation", 15.0), Effect("customer_loyalty", 10.0)]

  const OnlinePlatform: Consequences :=
    [Effect("market_penetration", 30.0), Effect("customer_acquisition_cost", -20.0),
     Effect("cash", -60000.0), Effect("brand_awareness", 25.0), Effect("efficiency", 15.0)]

  const LicensingDeals: Consequences :=
    [Effect("revenue", 15000.0), Effect("cash", 30000.0), Effect("market_share", 10.0),
     Effect("reputation", -5.0), Effect("efficiency", 5.0)]

  const ExpansionScenario: Scenario :=
    Scenario("Business Expansion Strategy", Expansion,
      ["franchise_model", "direct_expansion", "online_platform", "licensing_deals"],
      map[
        "franchise_model" := FranchiseModel,
        "direct_expansion" := DirectExpansion,
        "online_platform" := OnlinePlatform,
        "licensing_deals" := LicensingDeals])

  /** The six scenarios the server resolves decisions against, in order. */
  const BusinessScenarios: seq<Scenario> :=
    [SourcingScenario, ShippingScenario, WorkforceScenario, MarketingScenario, InvestmentScenario, ExpansionScenario]

  /** The server's catalog has six scenarios, and each of their choices has consequences. */
  lemma BusinessScenariosWellFormed()
    ensures |BusinessScenarios| == 6
    ensures forall i :: 0 <= i < |BusinessScenarios| ==> ScenarioWellFormed(BusinessScenarios[i])
  {
    SourcingScenarioWellFormed();
    ShippingScenarioWellFormed();
    WorkforceScenarioWellFormed();
    MarketingScenarioWellFormed();
    InvestmentScenarioWellFormed();
    ExpansionScenarioWellFormed();
  }

  lemma SourcingScenarioWellFormed()
    ensures ScenarioWellFormed(SourcingScenario)
  {
  }

  lemma ShippingScenarioWellFormed()
    ensures ScenarioWellFormed(ShippingScenario)
  {
  }

  lemma WorkforceScenarioWellFormed()
    ensures ScenarioWellFormed(WorkforceScenario)
  {
  }

  lemma MarketingScenarioWellFormed()
    ensures ScenarioWellFormed(MarketingScenario)
  {
  }

  lemma InvestmentScenarioWellFormed()
    ensures ScenarioWellFormed(InvestmentScenario)
  {
  }

  lemma ExpansionScenarioWellFormed()
    ensures ScenarioWellFormed(ExpansionScenario)
  {
  }
}
