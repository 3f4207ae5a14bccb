/**
 * The company's four groups of metrics and the application of a decision's
 * consequences to them (`apply_decision_consequences` in backend/server.py).
 *
 * Every metric is a `real`. A group is a map from the metric's field name to its
 * value, so that looking a metric up by name (`hasattr`/`getattr`/`setattr` in
 * the source) is a map lookup.
 */
module Metrics {
  import opened Results

  const BusinessFields: set<string> :=
    {"cash", "revenue", "profit_margin", "market_share", "reputation", "efficiency"}
  const ProductionFields: set<string> :=
    {"units_produced", "production_capacity", "material_cost_per_unit", "production_time_days", "quality_score"}
  const WorkforceFields: set<string> :=
    {"total_employees", "average_salary", "employee_satisfaction", "productivity", "training_level"}
  const MarketingFields: set<string> :=
    {"brand_awareness", "customer_loyalty", "marketing_budget", "customer_acquisition_cost", "market_penetration"}

  /** One entry of a consequences dictionary: a metric name and its signed change. */
  datatype Effect = Effect(metric: string, change: real)

  predicate DistinctMetrics(cs: seq<Effect>) {
    forall i, j :: 0 <= i < j < |cs| ==> cs[i].metric != cs[j].metric
  }

  /** A consequences dictionary: its entries in insertion order, no metric named twice. */
  type Consequences = cs: seq<Effect> | DistinctMetrics(cs)

  /** The change a consequences dictionary gives for `metric`, if it names it. */
  function Lookup(cs: seq<Effect>, metric: string): (r: Option<real>)
    ensures r.None? <==> forall i :: 0 <= i < |cs| ==> cs[i].metric != metric
    ensures r.Some? ==> exists i :: 0 <= i < |cs| && cs[i] == Effect(metric, r.value)
  {
    if cs == [] then None
    else if cs[|cs| - 1].metric == metric then Some(cs[|cs| - 1].change)
    else Lookup(cs[..|cs| - 1], metric)
  }

  /** The metric state of a company, group by group. */
  datatype MetricSet = MetricSet(
    business: map<string, real>,
    production: map<string, real>,
    workforce: map<string, real>,
    marketing: map<string, real>)

  /** Each group holds exactly the fields its record declares. */
  predicate WellFormed(m: MetricSet) {
    && m.business.Keys == BusinessFields
    && m.production.Keys == ProductionFields
    && m.workforce.Keys == WorkforceFields
    && m.marketing.Keys == MarketingFields
  }

  /** Some group has a field called `metric`. */
  predicate Known(m: MetricSet, metric: string) {
    metric in m.business || metric in m.production || metric in m.workforce || metric in m.marketing
  }

  /** The value of `metric`, taken from the first group, in the source's order, that has it. */
  function Value(m: MetricSet, metric: string): real
    requires Known(m, metric)
  {
    if metric in m.business then m.business[metric]
    else if metric in m.production then m.production[metric]
    else if metric in m.workforce then m.workforce[metric]
    else m.marketing[metric]
  }

  ghost predicate AllNonNegative(m: MetricSet) {
    forall metric :: Known(m, metric) ==> Value(m, metric) >= 0.0
  }

  /** Python's `max(0, x)`. */
  function AtLeastZero(x: real): (r: real)
    ensures r >= 0.0 && r >= x
    ensures x >= 0.0 ==> r == x
  {
    if x < 0.0 then 0.0 else x
  }

  /**
   * One iteration of the source's loop: the first group with a field called
   * `metric` gets `max(0, current + change)`; a name no group has is ignored.
   */
  function ApplyChange(m: MetricSet, metric: string, change: real): (r: MetricSet)
    ensures r.business.Keys == m.business.Keys && r.production.Keys == m.production.Keys
    ensures r.workforce.Keys == m.workforce.Keys && r.marketing.Keys == m.marketing.Keys
    ensures !Known(m, metric) ==> r == m
  {
    if metric in m.business then
      m.(business := m.business[metric := AtLeastZero(m.business[metric] + change)])
    else if metric in m.production then
      m.(production := m.production[metric := AtLeastZero(m.production[metric] + change)])
    else if metric in m.workforce then
      m.(workforce := m.workforce[metric := AtLeastZero(m.workforce[metric] + change)])
    else if metric in m.marketing then
      m.(marketing := m.marketing[metric := AtLeastZero(m.marketing[metric] + change)])
    else
      m
  }

  /**
   * After one change, the metric it names is `max(0, current + change)` and every
   * other metric keeps its value; the same names are known before and after.
   */
  lemma ApplyChangeAt(m: MetricSet, metric: string, change: real, name: string)
    ensures Known(ApplyChange(m, metric, change), name) <==> Known(m, name)
    ensures Known(m, name) ==>
      Value(ApplyChange(m, metric, change), name) ==
        if name == metric then AtLeastZero(Value(m, name) + change) else Value(m, name)
  {
  }

  /** All entries of a consequences dictionary applied in order. */
  function ApplyAll(m: MetricSet, cs: seq<Effect>): (r: MetricSet)
    ensures r.business.Keys == m.business.Keys && r.production.Keys == m.production.Keys
    ensures r.workforce.Keys == m.workforce.Keys && r.marketing.Keys == m.marketing.Keys
  {
    if cs == [] then m
    else ApplyChange(ApplyAll(m, cs[..|cs| - 1]), cs[|cs| - 1].metric, cs[|cs| - 1].change)
  }

  /**
   * After a decision, every known metric the consequences name is `max(0, old + change)`
   * and every other metric keeps its value.
   */
  lemma {:induction false} ApplyAllAt(m: MetricSet, cs: Consequences, metric: string)
    requires Known(m, metric)
    ensures Known(ApplyAll(m, cs), metric)
    ensures Lookup(cs, metric).Some? ==>
      Value(ApplyAll(m, cs), metric) == AtLeastZero(Value(m, metric) + Lookup(cs, metric).value)
    ensures Lookup(cs, metric).Some? ==> Value(ApplyAll(m, cs), metric) >= 0.0
    ensures Lookup(cs, metric).None? ==> Value(ApplyAll(m, cs), metric) == Value(m, metric)
  {
    if cs != [] {
      var init: Consequences := cs[..|cs| - 1];
      ApplyAllAt(m, init, metric);
      var last := cs[|cs| - 1];
      assert cs[..|cs| - 1] == init;
      ApplyChangeAt(ApplyAll(m, init), last.metric, last.change, metric);
      if last.metric == metric {
        assert Lookup(init, metric).None? by {
          forall i | 0 <= i < |init| ensures init[i].metric != metric {
            assert cs[i] == init[i];
          }
        }
      }
    }
  }

  /** Names that no group has are ignored: such consequences leave the metrics as they were. */
  lemma {:induction false} ApplyAllIgnoresUnknown(m: MetricSet, cs: seq<Effect>)
    requires forall i :: 0 <= i < |cs| ==> !Known(m, cs[i].metric)
    ensures ApplyAll(m, cs) == m
  {
    if cs != [] {
      ApplyAllIgnoresUnknown(m, cs[..|cs| - 1]);
    }
  }

  /** Applying consequences keeps every metric non-negative and every group's field set. */
  lemma {:induction false} ApplyAllKeepsInvariant(m: MetricSet, cs: seq<Effect>)
    requires WellFormed(m) && AllNonNegative(m)
    ensures WellFormed(ApplyAll(m, cs)) && AllNonNegative(ApplyAll(m, cs))
  {
    if cs != [] {
      var before := ApplyAll(m, cs[..|cs| - 1]);
      ApplyAllKeepsInvariant(m, cs[..|cs| - 1]);
      forall name | Known(ApplyAll(m, cs), name) ensures Value(ApplyAll(m, cs), name) >= 0.0 {
        ApplyChangeAt(before, cs[|cs| - 1].metric, cs[|cs| - 1].change, name);
      }
    }
  }

  /** No metric of the group is negative. */
  predicate GroupNonNegative(g: map<string, real>) {
    forall metric :: metric in g ==> g[metric] >= 0.0
  }

  /** The field defaults of a newly created company, group by group. */
  function DefaultBusiness(): (g: map<string, real>)
    ensures g.Keys == BusinessFields && GroupNonNegative(g)
    ensures "cash" in g && g["cash"] == 100000.0
  {
    map["cash" := 100000.0, "revenue" := 0.0, "profit_margin" := 0.0,
        "market_share" := 5.0, "reputation" := 50.0, "efficiency" := 50.0]
  }

  function DefaultProduction(): (g: map<string, real>)
    ensures g.Keys == ProductionFields && GroupNonNegative(g)
  {
    map["units_produced" := 0.0, "production_capacity" := 1000.0, "material_cost_per_unit" := 10.0,
        "production_time_days" := 7.0, "quality_score" := 70.0]
  }

  function DefaultWorkforce(): (g: map<string, real>)
    ensures g.Keys == WorkforceFields && GroupNonNegative(g)
  {
    map["total_employees" := 50.0, "average_salary" := 50000.0, "employee_satisfaction" := 70.0,
        "productivity" := 70.0, "training_level" := 50.0]
  }

  function DefaultMarketing(): (g: map<string, real>)
    ensures g.Keys == MarketingFields && GroupNonNegative(g)
  {
    map["brand_awareness" := 30.0, "customer_loyalty" := 60.0, "marketing_budget" := 10000.0,
        "customer_acquisition_cost" := 50.0, "market_penetration" := 15.0]
  }

  /** The field defaults of a newly created company. */
  function DefaultMetrics(): (m: MetricSet)
    ensures WellFormed(m) && AllNonNegative(m)
    ensures Value(m, "cash") == 100000.0
  {
    MetricSet(DefaultBusiness(), DefaultProduction(), DefaultWorkforce(), DefaultMarketing())
  }

  /** A company record; its metric groups are updated in place, field by field. */
  class Company {
    var name: string
    var industry: string
    var business: map<string, real>
    var production: map<string, real>
    var workforce: map<string, real>
    var marketing: map<string, real>

    function Metrics(): MetricSet
      reads this
    {
      MetricSet(business, production, workforce, marketing)
    }

    constructor (name: string, industry: string)
      ensures this.name == name && this.industry == industry
      ensures Metrics() == DefaultMetrics()
    {
      this.name := name;
      this.industry := industry;
      var m := DefaultMetrics();
      business, production, workforce, marketing := m.business, m.production, m.workforce, m.marketing;
    }

    /**
     * One iteration of the source's loop: the first group with a field called `metric`
     * gets `max(0, current + change)`; a name no group has is ignored.
     */
    method Apply(metric: string, change: real)
      modifies this
      ensures name == old(name) && industry == old(industry)
      ensures Metrics() == ApplyChange(old(Metrics()), metric, change)
    {
      if metric in business {
        business := business[metric := AtLeastZero(business[metric] + change)];
      } else if metric in production {
        production := production[metric := AtLeastZero(production[metric] + change)];
      } else if metric in workforce {
        workforce := workforce[metric := AtLeastZero(workforce[metric] + change)];
      } else if metric in marketing {
        marketing := marketing[metric := AtLeastZero(marketing[metric] + change)];
      }
    }

    /** A deep copy: the groups are values, so the copy shares nothing mutable. */
    constructor CopyOf(source: Company)
      ensures name == source.name && industry == source.industry
      ensures Metrics() == source.Metrics()
    {
      name, industry := source.name, source.industry;
      business, production, workforce, marketing :=
        source.business, source.production, source.workforce, source.marketing;
    }
  }

  /**
   * Applies a decision's consequences to a deep copy of `company`; `company` itself
   * is not modified (the method may modify nothing that existed before the call).
   */
  method ApplyDecisionConsequences(company: Company, cs: Consequences) returns (updated: Company)
    ensures fresh(updated)
    ensures updated.name == company.name && updated.industry == company.industry
    ensures updated.Metrics() == ApplyAll(company.Metrics(), cs)
  {
    updated := new Company.CopyOf(company);
    for i := 0 to |cs|
      invariant updated.name == company.name && updated.industry == company.industry
      invariant updated.Metrics() == ApplyAll(company.Metrics(), cs[..i])
    {
      updated.Apply(cs[i].metric, cs[i].change);
      assert cs[..i + 1][..i] == cs[..i] && cs[..i + 1][i] == cs[i];
    }
    assert cs[..|cs|] == cs;
  }
}
