/**
 * The persona wizard (`PersonaCreator` and the `personaQuestions` table): a linear
 * dialogue initial -> role -> age -> goals -> challenges -> behaviour that stores each
 * answer under its step and, after the last one, builds a persona record.
 */
module Wizard {
  import opened Wrappers
  import opened Strings
  import opened Templates

  datatype Step = Initial | Role | Age | Goals | Challenges | Behaviour

  /** The steps in the order the dialogue visits them. */
  const Steps: seq<Step> := [Initial, Role, Age, Goals, Challenges, Behaviour]

  /** `personaQuestions[s].question` */
  function Question(s: Step): string {
    match s
    case Initial => "Hi! I'll help you create a persona. What industry are you creating this persona for?"
    case Role => "What role or position should this persona have?"
    case Age => "What age range are you targeting? (e.g., 25-35)"
    case Goals => "What are their main goals or objectives?"
    case Challenges => "What challenges do they face in their role?"
    case Behaviour => "How do they typically make decisions?"
  }

  /** `personaQuestions[s].next`, None standing for `null`: the step after `s`, none after the last. */
  function Next(s: Step): (r: Option<Step>)
    ensures r.None? <==> s == Behaviour
    ensures r.Some? ==> Position(r.value) == Position(s) + 1
  {
    match s
    case Initial => Some(Role)
    case Role => Some(Age)
    case Age => Some(Goals)
    case Goals => Some(Challenges)
    case Challenges => Some(Behaviour)
    case Behaviour => None
  }

  /** Where `s` stands in the dialogue. */
  function Position(s: Step): (i: nat)
    ensures i < |Steps| && Steps[i] == s
  {
    match s
    case Initial => 0
    case Role => 1
    case Age => 2
    case Goals => 3
    case Challenges => 4
    case Behaviour => 5
  }

  /**
   * The question table is one chain through all six steps: each step's `next` is the
   * step after it, and only the last step has none.
   */
  lemma QuestionChain()
    ensures forall i :: 0 <= i < |Steps| - 1 ==> Next(Steps[i]) == Some(Steps[i + 1])
    ensures Next(Steps[|Steps| - 1]) == None
    ensures forall s :: Next(s).None? <==> s == Behaviour
  {
  }

  const CompletionMessage: string :=
    "I've created your persona! Would you like to export it or create another one?"

  /** The record `generatePersona` builds and hands to the display. */
  datatype Persona = Persona(
    industry: string,
    role: string,
    age: string,
    goals: seq<string>,
    challenges: seq<string>,
    decisionMaking: string)

  /**
   * `answer.split(',').map(x => x.trim())`: one trimmed piece per comma-separated
   * segment, empty segments included.
   */
  function SplitList(answer: string): (r: seq<string>)
    ensures |r| == Count(answer, ',') + 1
    ensures forall i :: 0 <= i < |r| ==> IsTrimmed(r[i]) && ',' !in r[i]
  {
    var pieces := Split(answer, ',');
    var r := MapTrim(pieces);
    forall i | 0 <= i < |r|
      ensures ',' !in r[i]
    {
      TrimAddsNothing(pieces[i], ',');
    }
    r
  }

  /**
   * Empty segments are kept, not dropped: `"x,,y"` gives three pieces, the
   * middle one empty.
   */
  lemma SplitListKeepsEmptySegments(x: string, y: string)
    requires ',' !in x && ',' !in y
    ensures var r := SplitList(x + [','] + [','] + y);
      |r| == 3 && r[0] == Trim(x) && r[1] == "" && r[2] == Trim(y)
  {
    var s := x + [','] + [','] + y;
    var pieces := Split(s, ',');
    var r := SplitList(s);
    assert r == MapTrim(pieces);
    SplitTwoCommas(x, y);
    assert r[0] == Trim(pieces[0]) && pieces[0] == x;
    assert r[1] == Trim(pieces[1]) && pieces[1] == [];
    assert r[2] == Trim(pieces[2]) && pieces[2] == y;
    var e: string := [];
    assert Trim(e) == e by { assert AllWhitespace(e); }
  }

  lemma SplitTwoCommas(x: string, y: string)
    requires ',' !in x && ',' !in y
    ensures Split(x + [','] + [','] + y, ',') == [x, [], y]
  {
    SplitAfterPrefix(y, [], ',');
    assert y + [] == y;
    SplitAfterSeparator(y, ',');
    SplitAfterSeparator([','] + y, ',');
    SplitAfterPrefix(x, [','] + ([','] + y), ',');
    assert x + [','] + [','] + y == x + ([','] + ([','] + y));
    assert x + [] == x;
  }

  /** `generatePersona`: the answers mapped onto the persona's fields. */
  function GeneratePersona(responses: map<Step, string>): Persona
    requires forall s :: s in responses
  {
    Persona(
      industry := responses[Initial],
      role := responses[Role],
      age := responses[Age],
      goals := SplitList(responses[Goals]),
      challenges := SplitList(responses[Challenges]),
      decisionMaking := responses[Behaviour])
  }

  /**
   * The persona holds the plain answers as given, and the goals and challenges as one
   * trimmed, comma-free piece per comma-separated segment; an answer without a comma
   * becomes a single item, its trim.
   */
  lemma PersonaFromAnswers(responses: map<Step, string>)
    requires forall s :: s in responses
    ensures var p := GeneratePersona(responses);
            && p.industry == responses[Initial] && p.role == responses[Role]
            && p.age == responses[Age] && p.decisionMaking == responses[Behaviour]
            && |p.goals| == Count(responses[Goals], ',') + 1
            && |p.challenges| == Count(responses[Challenges], ',') + 1
            && (forall i :: 0 <= i < |p.goals| ==> IsTrimmed(p.goals[i]) && ',' !in p.goals[i])
            && (forall i :: 0 <= i < |p.challenges| ==> IsTrimmed(p.challenges[i]) && ',' !in p.challenges[i])
    ensures ',' !in responses[Goals] ==> GeneratePersona(responses).goals == [Trim(responses[Goals])]
    ensures ',' !in responses[Challenges] ==> GeneratePersona(responses).challenges == [Trim(responses[Challenges])]
  {
    SingleSegment(responses[Goals]);
    SingleSegment(responses[Challenges]);
  }

  /** An answer without a comma is one segment. */
  lemma SingleSegment(answer: string)
    ensures ',' !in answer ==> SplitList(answer) == [Trim(answer)]
  {
    if ',' !in answer {
      SplitWithoutSeparator(answer, ',');
      MapTrimAt([answer], 0);
    }
  }

  datatype WizardState = WizardState(currentStep: Step, responses: map<Step, string>, isCreating: bool)

  /** While a dialogue runs, every step before the current one has an answer. */
  predicate Ready(w: WizardState) {
    w.isCreating ==> forall s :: Position(s) < Position(w.currentStep) ==> s in w.responses
  }

  /** What `processAnswer` returns: `null`, the next question, or the completion message with the persona it displays. */
  datatype Reply = NoReply | Ask(question: string) | Finished(message: string, persona: Persona)

  /** The state `start()` leaves behind, whatever came before. */
  function Started(): WizardState {
    WizardState(Initial, map[], true)
  }

  /**
   * `processAnswer(a)`. Outside a dialogue nothing changes and there is no reply.
   * Inside one, `a` is stored verbatim under the current step; the wizard then moves to
   * the next step and asks its question, or, at the last step, stops and builds the persona.
   */
  function Answer(w: WizardState, a: string): (r: (WizardState, Reply))
    requires Ready(w)
    ensures Ready(r.0)
    ensures !w.isCreating ==> r == (w, NoReply)
    ensures w.isCreating ==> r.0.responses == w.responses[w.currentStep := a]
    ensures w.isCreating && w.currentStep != Behaviour ==>
              && r.0.isCreating
              && Position(r.0.currentStep) == Position(w.currentStep) + 1
              && r.1 == Ask(Question(r.0.currentStep))
    ensures w.isCreating && w.currentStep == Behaviour ==>
              && !r.0.isCreating
              && r.0.currentStep == Behaviour
              && (forall s :: s in r.0.responses)
              && r.1 == Finished(CompletionMessage, GeneratePersona(r.0.responses))
  {
    if !w.isCreating then (w, NoReply)
    else
      var responses := w.responses[w.currentStep := a];
      NextAdvances(w.currentStep);
      StoringKeepsReady(w.responses, w.currentStep, a, responses);
      match Next(w.currentStep)
      case Some(n) => (WizardState(n, responses, true), Ask(Question(n)))
      case None =>
        LastAnswerCompletes(w.responses, a, responses);
        (WizardState(w.currentStep, responses, false), Finished(CompletionMessage, GeneratePersona(responses)))
  }

  /** A step's `next` is the step one position further on. */
  lemma NextAdvances(s: Step)
    ensures Next(s).Some? ==> Position(Next(s).value) == Position(s) + 1
    ensures Next(s).None? <==> s == Behaviour
  {
  }

  /** Storing the current step's answer keeps every step up to it answered. */
  lemma StoringKeepsReady(m: map<Step, string>, step: Step, a: string, updated: map<Step, string>)
    requires forall s :: Position(s) < Position(step) ==> s in m
    requires updated == m[step := a]
    ensures forall s :: Position(s) <= Position(step) ==> s in updated
  {
    forall s | Position(s) <= Position(step) ensures s in updated {
      if Position(s) == Position(step) {
        PositionInjective(s, step);
      }
    }
  }

  /** Storing the last step's answer after all the others leaves no step unanswered. */
  lemma LastAnswerCompletes(m: map<Step, string>, a: string, full: map<Step, string>)
    requires forall s :: Position(s) < Position(Behaviour) ==> s in m
    requires full == m[Behaviour := a]
    ensures forall s :: s in full
  {
    forall s ensures s in full {
      if s != Behaviour {
        assert Position(s) < Position(Behaviour);
      }
    }
  }

  /** Feeding `answers` one after another: the final state and every reply. */
  function Converse(w: WizardState, answers: seq<string>): (r: (WizardState, seq<Reply>))
    requires Ready(w)
    ensures Ready(r.0) && |r.1| == |answers|
    decreases |answers|
  {
    if answers == [] then (w, [])
    else
      var step := Answer(w, answers[0]);
      var rest := Converse(step.0, answers[1..]);
      (rest.0, [step.1] + rest.1)
  }

  /**
   * After `start()`, the first five answers are each met with the next question and the
   * sixth finishes the dialogue with the persona built from the six answers.
   */
  lemma {:induction false} SixAnswersFinish(answers: seq<string>)
    requires |answers| == 6
    ensures !Converse(Started(), answers).0.isCreating
    ensures forall i :: 0 <= i < 5 ==> Converse(Started(), answers).1[i] == Ask(Question(Steps[i + 1]))
    ensures Converse(Started(), answers).1[5] == Finished(CompletionMessage,
              Persona(answers[0], answers[1], answers[2], SplitList(answers[3]), SplitList(answers[4]), answers[5]))
  {
    var r := Converse(Started(), answers);
    ConverseFinishes(Started(), answers);
    ConverseStores(Started(), answers);
    ConverseAsks(Started(), answers);
    StepPositions();
    assert Position(Started().currentStep) == 0;
    PersonaFromPositions(r.0.responses, answers);
  }

  lemma PersonaFromPositions(m: map<Step, string>, answers: seq<string>)
    requires |answers| == |Steps|
    requires forall s :: s in m
    requires forall s :: m[s] == answers[Position(s)]
    ensures GeneratePersona(m) ==
              Persona(answers[0], answers[1], answers[2], SplitList(answers[3]), SplitList(answers[4]), answers[5])
  {
    assert m[Initial] == answers[0] && m[Role] == answers[1] && m[Age] == answers[2];
    assert m[Goals] == answers[3] && m[Challenges] == answers[4] && m[Behaviour] == answers[5];
  }

  /** The dialogue is over, every step has an answer, and the last reply carries the persona built from them. */
  predicate EndsFinished(r: (WizardState, seq<Reply>)) {
    && !r.0.isCreating
    && (forall s :: s in r.0.responses)
    && |r.1| > 0
    && r.1[|r.1| - 1] == Finished(CompletionMessage, GeneratePersona(r.0.responses))
  }

  /**
   * From any step of a running dialogue, one answer for each step still to come ends
   * it, and the last answer is met with the persona built from every stored answer.
   */
  lemma {:induction false} ConverseFinishes(w: WizardState, answers: seq<string>)
    requires Ready(w) && w.isCreating
    requires |answers| == |Steps| - Position(w.currentStep)
    ensures EndsFinished(Converse(w, answers))
    decreases |answers|
  {
    var step := Answer(w, answers[0]);
    var rest := Converse(step.0, answers[1..]);
    assert Converse(w, answers) == (rest.0, [step.1] + rest.1);
    if w.currentStep == Behaviour {
      assert answers[1..] == [];
      assert rest == (step.0, []);
    } else {
      ConverseFinishes(step.0, answers[1..]);
      FinishedAfterReply(step.1, rest);
    }
  }

  lemma FinishedAfterReply(first: Reply, rest: (WizardState, seq<Reply>))
    requires EndsFinished(rest)
    ensures EndsFinished((rest.0, [first] + rest.1))
  {
    assert ([first] + rest.1)[|rest.1|] == rest.1[|rest.1| - 1];
  }

  /**
   * Starting at `w`, the map `m` holds the answer given at each step still to come under
   * that step, and keeps every answer stored before.
   */
  predicate StoredFrom(w: WizardState, answers: seq<string>, m: map<Step, string>) {
    && |answers| == |Steps| - Position(w.currentStep)
    && (forall s :: Position(s) >= Position(w.currentStep) ==>
          s in m && m[s] == answers[Position(s) - Position(w.currentStep)])
    && (forall s :: Position(s) < Position(w.currentStep) ==> s in m && s in w.responses && m[s] == w.responses[s])
  }

  /** Starting at `w`, each reply but the last is the question of the step after the one answered. */
  predicate AskedFrom(w: WizardState, replies: seq<Reply>) {
    && |replies| == |Steps| - Position(w.currentStep)
    && forall s :: Position(s) > Position(w.currentStep) ==>
         replies[Position(s) - Position(w.currentStep) - 1] == Ask(Question(s))
  }

  /**
   * From any step of a running dialogue, the answer given at step `s` ends up stored
   * under `s`, and the answers stored before it are kept.
   */
  lemma {:induction false} ConverseStores(w: WizardState, answers: seq<string>)
    requires Ready(w) && w.isCreating
    requires |answers| == |Steps| - Position(w.currentStep)
    ensures StoredFrom(w, answers, Converse(w, answers).0.responses)
    decreases |answers|
  {
    var step := Answer(w, answers[0]);
    var rest := Converse(step.0, answers[1..]);
    assert Converse(w, answers).0 == rest.0;
    if w.currentStep == Behaviour {
      assert answers[1..] == [];
      StoresLast(w, answers, rest.0.responses);
    } else {
      ConverseStores(step.0, answers[1..]);
      StoresStep(w, answers, step.0, rest.0.responses);
    }
  }

  lemma StoresLast(w: WizardState, answers: seq<string>, m: map<Step, string>)
    requires Ready(w) && w.isCreating && w.currentStep == Behaviour && |answers| == 1
    requires m == w.responses[w.currentStep := answers[0]]
    ensures StoredFrom(w, answers, m)
  {
    forall s | Position(s) >= Position(w.currentStep)
      ensures s in m && m[s] == answers[Position(s) - Position(w.currentStep)]
    {
      PositionInjective(s, w.currentStep);
    }
  }

  lemma StoresStep(w: WizardState, answers: seq<string>, next: WizardState, m: map<Step, string>)
    requires Ready(w) && w.isCreating && |answers| == |Steps| - Position(w.currentStep)
    requires Position(next.currentStep) == Position(w.currentStep) + 1
    requires next.responses == w.responses[w.currentStep := answers[0]]
    requires StoredFrom(next, answers[1..], m)
    ensures StoredFrom(w, answers, m)
  {
    var pos := Position(w.currentStep);
    forall s | Position(s) >= pos
      ensures s in m && m[s] == answers[Position(s) - pos]
    {
      if Position(s) == pos {
        PositionInjective(s, w.currentStep);
      } else {
        assert answers[1..][Position(s) - pos - 1] == answers[Position(s) - pos];
      }
    }
  }

  /**
   * From any step of a running dialogue, the answer given at each step but the last is
   * met with the question of the step after it.
   */
  lemma {:induction false} ConverseAsks(w: WizardState, answers: seq<string>)
    requires Ready(w) && w.isCreating
    requires |answers| == |Steps| - Position(w.currentStep)
    ensures AskedFrom(w, Converse(w, answers).1)
    decreases |answers|
  {
    var step := Answer(w, answers[0]);
    var rest := Converse(step.0, answers[1..]);
    assert Converse(w, answers).1 == [step.1] + rest.1;
    if w.currentStep != Behaviour {
      ConverseAsks(step.0, answers[1..]);
      AsksStep(w, step, rest.1);
    }
  }

  lemma AsksStep(w: WizardState, step: (WizardState, Reply), replies: seq<Reply>)
    requires Position(step.0.currentStep) == Position(w.currentStep) + 1
    requires step.1 == Ask(Question(step.0.currentStep))
    requires AskedFrom(step.0, replies)
    ensures AskedFrom(w, [step.1] + replies)
  {
    var pos := Position(w.currentStep);
    forall s | Position(s) > pos
      ensures ([step.1] + replies)[Position(s) - pos - 1] == Ask(Question(s))
    {
      if Position(s) == pos + 1 {
        PositionInjective(s, step.0.currentStep);
      }
    }
  }

  lemma StepPositions()
    ensures forall i :: 0 <= i < |Steps| ==> Position(Steps[i]) == i
  {
  }

  lemma PositionInjective(s: Step, t: Step)
    requires Position(s) == Position(t)
    ensures s == t
  {
  }

  /** Once the dialogue has finished, further answers change nothing and get no reply. */
  lemma {:induction false} IdleIgnoresAnswers(w: WizardState, answers: seq<string>)
    requires !w.isCreating
    ensures Converse(w, answers).0 == w
    ensures forall i :: 0 <= i < |answers| ==> Converse(w, answers).1[i] == NoReply
    decreases |answers|
  {
    if answers != [] {
      IdleIgnoresAnswers(w, answers[1..]);
    }
  }

  lemma AllStepsAnswered(r: map<Step, string>)
    requires Initial in r && Role in r && Age in r && Goals in r && Challenges in r && Behaviour in r
    ensures forall s :: s in r
  {
    forall s ensures s in r {
      assert Steps[Position(s)] == s;
    }
  }

  /** JavaScript's `v || fallback` for an optional string: the fallback when `v` is missing or empty. */
  function OrElse(v: Option<string>, fallback: string): string {
    if v.Some? && v.value != [] then v.value else fallback
  }

  /** The answers `loadTemplate(defaults)` seeds: lists joined with ", ", two fallbacks. */
  function TemplateResponses(d: PersonaDefaults): (r: map<Step, string>)
    ensures forall s :: s in r
  {
    var r := map[Initial := d.industry,
        Role := OrElse(d.role, "Professional"),
        Age := d.ageRange,
        Goals := Join(d.goals, ", "),
        Challenges := Join(d.challenges, ", "),
        Behaviour := OrElse(d.decisionMaking, "Data-driven")];
    AllStepsAnswered(r);
    r
  }

  /**
   * A non-empty list of comma-free items, joined with ", " and split back on ','
   * with each piece trimmed, gives each item trimmed, in order.
   */
  lemma JoinThenSplitList(items: seq<string>)
    requires |items| > 0
    requires forall i :: 0 <= i < |items| ==> ',' !in items[i]
    ensures SplitList(Join(items, ", ")) == MapTrim(items)
  {
    assert ", " == [','] + " ";
    SplitJoin(items, ',', " ");
    var pieces := [items[0]] + Padded(items[1..], " ");
    assert Split(Join(items, ", "), ',') == pieces;
    PaddedTrim(items, pieces);
  }

  /** An empty list does not round-trip: it comes back as one empty item. */
  lemma EmptyListBecomesOneBlank()
    ensures SplitList(Join([], ", ")) == [""]
  {
    assert Split([], ',') == [[]];
  }

  /** For plain items the round trip is exact. */
  lemma JoinThenSplitListExact(items: seq<string>)
    requires |items| > 0
    requires forall i :: 0 <= i < |items| ==> ',' !in items[i] && IsTrimmed(items[i])
    ensures SplitList(Join(items, ", ")) == items
  {
    JoinThenSplitList(items);
    MapTrimOfTrimmed(items);
  }

  /**
   * The persona `loadTemplate` builds: the fields copied, the fallbacks where role or
   * decision making is missing or empty, and the goal and challenge lists unchanged
   * when they are non-empty and their items are trimmed and comma-free.
   */
  lemma TemplatePersona(d: PersonaDefaults)
    requires |d.goals| > 0 && |d.challenges| > 0
    requires forall i :: 0 <= i < |d.goals| ==> ',' !in d.goals[i] && IsTrimmed(d.goals[i])
    requires forall i :: 0 <= i < |d.challenges| ==> ',' !in d.challenges[i] && IsTrimmed(d.challenges[i])
    ensures GeneratePersona(TemplateResponses(d)) ==
              Persona(d.industry, OrElse(d.role, "Professional"), d.ageRange, d.goals, d.challenges,
                      OrElse(d.decisionMaking, "Data-driven"))
  {
    var m := TemplateResponses(d);
    TemplateResponsesAt(d, m);
    JoinThenSplitListExact(d.goals);
    JoinThenSplitListExact(d.challenges);
  }

  lemma TemplateResponsesAt(d: PersonaDefaults, m: map<Step, string>)
    requires m == TemplateResponses(d)
    ensures m[Initial] == d.industry && m[Role] == OrElse(d.role, "Professional") && m[Age] == d.ageRange
    ensures m[Goals] == Join(d.goals, ", ") && m[Challenges] == Join(d.challenges, ", ")
    ensures m[Behaviour] == OrElse(d.decisionMaking, "Data-driven")
  {
  }

  /** Every built-in template yields exactly its own defaults; no fallback applies. */
  lemma CatalogPersonasExact(c: string, t: PersonaTemplate)
    requires c in PersonaTemplates && t in PersonaTemplates[c].templates
    ensures GeneratePersona(TemplateResponses(t.defaults)) ==
              Persona(t.defaults.industry, t.defaults.role.value, t.defaults.ageRange,
                      t.defaults.goals, t.defaults.challenges, t.defaults.decisionMaking.value)
  {
    CatalogWellFormed();
    TemplatePersona(t.defaults);
  }

  /** The wizard's three fields. */
  class PersonaCreator {
    var currentStep: Step
    var responses: map<Step, string>
    var isCreating: bool

    function State(): WizardState
      reads this
    {
      WizardState(currentStep, responses, isCreating)
    }

    ghost predicate Valid()
      reads this
    {
      Ready(State())
    }

    constructor ()
      ensures Valid() && State() == WizardState(Initial, map[], false)
    {
      currentStep := Initial;
      responses := map[];
      isCreating := false;
    }

    /** `start()`: a fresh dialogue at the first step, whatever the state was. */
    method Start() returns (question: string)
      modifies this
      ensures Valid() && State() == Started()
      ensures question == Question(Initial)
    {
      isCreating := true;
      currentStep := Initial;
      responses := map[];
      question := Question(currentStep);
    }

    /** `processAnswer(answer)` */
    method ProcessAnswer(answer: string) returns (reply: Reply)
      requires Valid()
      modifies this
      ensures Valid()
      ensures (State(), reply) == Answer(old(State()), answer)
    {
      if !isCreating {
        return NoReply;
      }
      var nextStep := Next(currentStep);
      var updated := responses[currentStep := answer];
      NextAdvances(currentStep);
      StoringKeepsReady(responses, currentStep, answer, updated);
      if nextStep.None? {
        LastAnswerCompletes(responses, answer, updated);
      }
      responses := updated;
      if nextStep.Some? {
        currentStep := nextStep.value;
        reply := Ask(Question(nextStep.value));
      } else {
        isCreating := false;
        reply := Finished(CompletionMessage, GeneratePersona(responses));
      }
    }

    /**
     * `loadTemplate(defaults)`: replaces the answers with the template's and builds the
     * persona from them, leaving the step and the dialogue flag as they were.
     */
    method LoadTemplate(defaults: PersonaDefaults) returns (shown: Persona)
      requires Valid()
      modifies this
      ensures Valid()
      ensures responses == TemplateResponses(defaults)
      ensures currentStep == old(currentStep) && isCreating == old(isCreating)
      ensures shown == GeneratePersona(TemplateResponses(defaults))
    {
      responses := TemplateResponses(defaults);
      shown := GeneratePersona(responses);
    }

    /** `reset()`: back to the first step with no answers and no dialogue running. */
    method Reset()
      modifies this
      ensures Valid() && State() == WizardState(Initial, map[], false)
    {
      currentStep := Initial;
      responses := map[];
      isCreating := false;
    }
  }
}
