/**
 * The persona template catalog (`personaTemplates`): a constant with two categories,
 * `business` and `consumer`, each an ordered list of two named templates whose
 * defaults pre-fill the persona wizard. Nothing writes to it.
 */
module Templates {
  import opened Wrappers
  import opened Strings

  /**
   * The fields a template pre-fills. `role` and `decisionMaking` are optional because
   * the wizard substitutes a fallback when they are missing or empty.
   */
  datatype PersonaDefaults = PersonaDefaults(
    industry: string,
    ageRange: string,
    goals: seq<string>,
    challenges: seq<string>,
    role: Option<string>,
    decisionMaking: Option<string>)

  datatype PersonaTemplate = PersonaTemplate(name: string, defaults: PersonaDefaults)

  datatype TemplateCategory = TemplateCategory(
    name: string,
    categories: seq<string>,
    templates: seq<PersonaTemplate>)

  const BusinessTemplates: seq<PersonaTemplate> := [
    PersonaTemplate("IT Decision Maker", PersonaDefaults(
      "Technology", "35-50",
      ["Improve infrastructure efficiency", "Reduce operational costs", "Enhance security measures"],
      ["Managing legacy systems", "Budget constraints", "Security compliance"],
      Some("IT Manager"), Some("Analytical and risk-aware"))),
    PersonaTemplate("Finance Executive", PersonaDefaults(
      "Financial Services", "40-55",
      ["Optimize investment returns", "Reduce financial risks", "Improve reporting accuracy"],
      ["Market volatility", "Regulatory compliance", "Data accuracy"],
      Some("CFO"), Some("Data-driven and compliance-focused")))
  ]

  const ConsumerTemplates: seq<PersonaTemplate> := [
    PersonaTemplate("Young Professional", PersonaDefaults(
      "Digital Services", "25-35",
      ["Save time on daily tasks", "Stay organized", "Professional growth"],
      ["Limited free time", "Work-life balance", "Information overload"],
      Some("Urban Professional"), Some("Fast-paced and value-driven"))),
    PersonaTemplate("Digital Native", PersonaDefaults(
      "Mobile Apps", "18-24",
      ["Connect with friends", "Express creativity", "Stay trendy"],
      ["Short attention span", "Information filtering", "Privacy concerns"],
      Some("Digital Consumer"), Some("Social proof and trend-based")))
  ]

  /** The catalog, keyed by category. */
  const PersonaTemplates: map<string, TemplateCategory> := map[
    "business" := TemplateCategory("Business Professional", ["Enterprise", "B2B", "Corporate"], BusinessTemplates),
    "consumer" := TemplateCategory("Consumer", ["B2C", "Retail", "Services"], ConsumerTemplates)
  ]

  /**
   * `personaTemplates[category].templates.find(t => t.name === name)`: the first
   * template of the category with that name, or None (also for an unknown category).
   */
  function FindTemplate(category: string, name: string): (r: Option<PersonaTemplate>)
    ensures r.Some? ==> category in PersonaTemplates && r.value in PersonaTemplates[category].templates
                        && r.value.name == name
    ensures r.None? && category in PersonaTemplates ==>
              forall t :: t in PersonaTemplates[category].templates ==> t.name != name
  {
    if category !in PersonaTemplates then None
    else FirstNamed(PersonaTemplates[category].templates, name)
  }

  function FirstNamed(ts: seq<PersonaTemplate>, name: string): (r: Option<PersonaTemplate>)
    ensures r.Some? ==> r.value in ts && r.value.name == name
    ensures r.None? ==> forall t :: t in ts ==> t.name != name
    ensures r.Some? && ts != [] && ts[0].name == name ==> r.value == ts[0]
    ensures r.Some? ==> exists i :: 0 <= i < |ts| && ts[i] == r.value
                                    && forall j :: 0 <= j < i ==> ts[j].name != name
  {
    if ts == [] then None
    else if ts[0].name == name then Some(ts[0])
    else FirstNamed(ts[1..], name)
  }

  /** A list item that survives `join(', ')` followed by `split(',')` and `trim`. */
  predicate IsPlainItem(s: string) {
    s != [] && IsTrimmed(s) && ',' !in s
  }

  /** Defaults for which none of the wizard's fallbacks apply and whose lists survive the round trip. */
  predicate WellFormedDefaults(d: PersonaDefaults) {
    && d.industry != [] && d.ageRange != []
    && d.role.Some? && d.role.value != []
    && d.decisionMaking.Some? && d.decisionMaking.value != []
    && |d.goals| == 3 && |d.challenges| == 3
    && (forall i :: 0 <= i < 3 ==> IsPlainItem(d.goals[i]) && IsPlainItem(d.challenges[i]))
  }

  /** Template names are distinct within a list, so a lookup by name finds the one meant. */
  predicate DistinctNames(ts: seq<PersonaTemplate>) {
    forall i, j :: 0 <= i < j < |ts| ==> ts[i].name != ts[j].name
  }

  /** The catalog has exactly the two categories, each with two templates. */
  lemma CatalogShape()
    ensures PersonaTemplates.Keys == {"business", "consumer"}
    ensures |PersonaTemplates["business"].templates| == 2
    ensures |PersonaTemplates["consumer"].templates| == 2
  {
  }

  /** Every built-in template is well formed. */
  lemma CatalogWellFormed()
    ensures forall c, t :: c in PersonaTemplates && t in PersonaTemplates[c].templates ==> WellFormedDefaults(t.defaults)
  {
    ItDecisionMakerWellFormed();
    FinanceExecutiveWellFormed();
    YoungProfessionalWellFormed();
    DigitalNativeWellFormed();
  }

  lemma ItDecisionMakerWellFormed()
    ensures WellFormedDefaults(BusinessTemplates[0].defaults)
  {
    ItDecisionMakerGoalsPlain();
    ItDecisionMakerChallengesPlain();
  }

  lemma ItDecisionMakerGoalsPlain()
    ensures forall i :: 0 <= i < 3 ==> IsPlainItem(BusinessTemplates[0].defaults.goals[i])
  {
    var xs := BusinessTemplates[0].defaults.goals;
    assert IsPlainItem(xs[0]);
    assert IsPlainItem(xs[1]);
    assert IsPlainItem(xs[2]);
  }

  lemma ItDecisionMakerChallengesPlain()
    ensures forall i :: 0 <= i < 3 ==> IsPlainItem(BusinessTemplates[0].defaults.challenges[i])
  {
    var xs := BusinessTemplates[0].defaults.challenges;
    assert IsPlainItem(xs[0]);
    assert IsPlainItem(xs[1]);
    assert IsPlainItem(xs[2]);
  }

  lemma FinanceExecutiveWellFormed()
    ensures WellFormedDefaults(BusinessTemplates[1].defaults)
  {
    FinanceExecutiveGoalsPlain();
    FinanceExecutiveChallengesPlain();
  }

  lemma FinanceExecutiveGoalsPlain()
    ensures forall i :: 0 <= i < 3 ==> IsPlainItem(BusinessTemplates[1].defaults.goals[i])
  {
    var xs := BusinessTemplates[1].defaults.goals;
    assert IsPlainItem(xs[0]);
    assert IsPlainItem(xs[1]);
    assert IsPlainItem(xs[2]);
  }

  lemma FinanceExecutiveChallengesPlain()
    ensures forall i :: 0 <= i < 3 ==> IsPlainItem(BusinessTemplates[1].defaults.challenges[i])
  {
    var xs := BusinessTemplates[1].defaults.challenges;
    assert IsPlainItem(xs[0]);
    assert IsPlainItem(xs[1]);
    assert IsPlainItem(xs[2]);
  }

  lemma YoungProfessionalWellFormed()
    ensures WellFormedDefaults(ConsumerTemplates[0].defaults)
  {
    YoungProfessionalGoalsPlain();
    YoungProfessionalChallengesPlain();
  }

  lemma YoungProfessionalGoalsPlain()
    ensures forall i :: 0 <= i < 3 ==> IsPlainItem(ConsumerTemplates[0].defaults.goals[i])
  {
    var xs := ConsumerTemplates[0].defaults.goals;
    assert IsPlainItem(xs[0]);
    assert IsPlainItem(xs[1]);
    assert IsPlainItem(xs[2]);
  }

  lemma YoungProfessionalChallengesPlain()
    ensures forall i :: 0 <= i < 3 ==> IsPlainItem(ConsumerTemplates[0].defaults.challenges[i])
  {
    var xs := ConsumerTemplates[0].defaults.challenges;
    assert IsPlainItem(xs[0]);
    assert IsPlainItem(xs[1]);
    assert IsPlainItem(xs[2]);
  }

  lemma DigitalNativeWellFormed()
    ensures WellFormedDefaults(ConsumerTemplates[1].defaults)
  {
    DigitalNativeGoalsPlain();
    DigitalNativeChallengesPlain();
  }

  lemma DigitalNativeGoalsPlain()
    ensures forall i :: 0 <= i < 3 ==> IsPlainItem(ConsumerTemplates[1].defaults.goals[i])
  {
    var xs := ConsumerTemplates[1].defaults.goals;
    assert IsPlainItem(xs[0]);
    assert IsPlainItem(xs[1]);
    assert IsPlainItem(xs[2]);
  }

  lemma DigitalNativeChallengesPlain()
    ensures forall i :: 0 <= i < 3 ==> IsPlainItem(ConsumerTemplates[1].defaults.challenges[i])
  {
    var xs := ConsumerTemplates[1].defaults.challenges;
    assert IsPlainItem(xs[0]);
    assert IsPlainItem(xs[1]);
    assert IsPlainItem(xs[2]);
  }

  /** Within each category, looking a template up by its own name returns that template. */
  lemma LookupByNameExact()
    ensures forall c :: c in PersonaTemplates ==> DistinctNames(PersonaTemplates[c].templates)
    ensures forall c, t :: c in PersonaTemplates && t in PersonaTemplates[c].templates ==> FindTemplate(c, t.name) == Some(t)
  {
  }
}
