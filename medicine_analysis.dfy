/**
 * The medicine-analysis wizard: three questions (age, gender, medicine name),
 * a simulated analysis phase and a results screen.
 *
 * The handlers of the component are modelled twice, as is usual for a class
 * with a specification: pure transition functions on a `WizardState` value,
 * whose properties are proved here, and the class `Wizard`, whose methods
 * update its fields in place and are proved to follow those functions.
 */
module MedicineAnalysis {

  /** The three questions, in the order the wizard asks them. */
  datatype Question = Age | Gender | Medicine

  /** The answers collected so far; the empty string means "not answered yet". */
  datatype Answers = Answers(age: string, gender: string, medicine: string)

  const NoAnswers: Answers := Answers("", "", "")

  /** The step at which each question is shown (steps are numbered from 1). */
  function StepOf(q: Question): (n: int)
    ensures 1 <= n <= 3
  {
    match q
    case Age => 1
    case Gender => 2
    case Medicine => 3
  }

  /** Each step asks exactly one question. */
  lemma OneQuestionPerStep(p: Question, q: Question)
    ensures StepOf(p) == StepOf(q) ==> p == q
  {
  }

  function AnswerTo(q: Question, a: Answers): (v: string)
  {
    match q
    case Age => a.age
    case Gender => a.gender
    case Medicine => a.medicine
  }

  /** The answers after the input for `q` reported the new value `v`. */
  function WithAnswer(a: Answers, q: Question, v: string): (b: Answers)
    ensures AnswerTo(q, b) == v
    ensures forall p :: p != q ==> AnswerTo(p, b) == AnswerTo(p, a)
  {
    match q
    case Age => a.(age := v)
    case Gender => a.(gender := v)
    case Medicine => a.(medicine := v)
  }

  /** Whether the current step's question has an answer; false for a step outside 1..3. */
  function CanProceed(step: int, a: Answers): (r: bool)
    ensures forall q :: StepOf(q) == step ==> (r <==> AnswerTo(q, a) != "")
    ensures !(1 <= step <= 3) ==> !r
  {
    match step
    case 1 => a.age != ""
    case 2 => a.gender != ""
    case 3 => a.medicine != ""
    case _ => false
  }

  /**
   * The component's state. `timerPending` records that the 3-second
   * completion timeout has been scheduled and has not fired yet.
   */
  datatype WizardState = WizardState(
    step: int,
    answers: Answers,
    isAnalyzing: bool,
    showResults: bool,
    timerPending: bool)

  /** The state of a freshly mounted wizard. */
  const Initial: WizardState := WizardState(1, NoAnswers, false, false, false)

  /**
   * What holds of every state the wizard can reach: the step is 1, 2 or 3;
   * a completion is pending exactly while the analysis runs; the analysis
   * and the results are never shown together; every question before the
   * current step is answered; and once the analysis has started all three
   * questions are answered.
   */
  predicate Consistent(s: WizardState)
  {
    && 1 <= s.step <= 3
    && s.timerPending == s.isAnalyzing
    && !(s.isAnalyzing && s.showResults)
    && (forall q :: StepOf(q) < s.step ==> AnswerTo(q, s.answers) != "")
    && (s.isAnalyzing || s.showResults ==> forall q :: AnswerTo(q, s.answers) != "")
  }

  // Which controls are rendered, and when the Next button is enabled.

  /** The Next button exists only in the question view: no results, no analysis running. */
  predicate NextShown(s: WizardState)
  {
    !s.showResults && !s.isAnalyzing
  }

  /** The Next button is rendered and not disabled. */
  predicate NextEnabled(s: WizardState)
  {
    NextShown(s) && CanProceed(s.step, s.answers)
  }

  /** The Back button is part of every view but the results view, analysis included. */
  predicate BackShown(s: WizardState)
  {
    !s.showResults
  }

  /** The input for `q` is rendered only at its own step, outside the analysis. */
  predicate InputShown(s: WizardState, q: Question)
  {
    NextShown(s) && s.step == StepOf(q)
  }

  // The handlers, as functions of the state.

  /** `handleNext`: advance one step, or at step 3 start the analysis and schedule its completion. */
  function Next(s: WizardState): (t: WizardState)
    ensures t.answers == s.answers && t.showResults == s.showResults
    ensures s.step < 3 ==> t.step == s.step + 1 && t.isAnalyzing == s.isAnalyzing && t.timerPending == s.timerPending
    ensures s.step == 3 ==> t.step == 3 && t.isAnalyzing && t.timerPending
    ensures s.step > 3 ==> t == s
    ensures Consistent(s) && NextEnabled(s) ==> Consistent(t) && (t.isAnalyzing <==> s.step == 3)
  {
    if s.step < 3 then s.(step := s.step + 1)
    else if s.step == 3 then s.(isAnalyzing := true, timerPending := true)
    else s
  }

  /** The outcome of `handleBack`: the new state, and whether `onBack` was called. */
  datatype BackOutcome = BackOutcome(state: WizardState, exit: bool)

  /** `handleBack`: go back one step (leaving a running analysis running), or exit at step 1. */
  function Back(s: WizardState): (r: BackOutcome)
    ensures r.exit <==> s.step <= 1
    ensures r.exit ==> r.state == s
    ensures !r.exit ==> r.state.step == s.step - 1 && r.state.answers == s.answers
    ensures r.state.isAnalyzing == s.isAnalyzing && r.state.timerPending == s.timerPending
    ensures r.state.showResults == s.showResults
    ensures Consistent(s) ==> Consistent(r.state)
  {
    if s.step > 1 then BackOutcome(s.(step := s.step - 1), false)
    else BackOutcome(s, true)
  }

  /** The `onChange` / `onValueChange` handler of the input for question `q`. */
  function SetAnswer(s: WizardState, q: Question, v: string): (t: WizardState)
    ensures AnswerTo(q, t.answers) == v
    ensures forall p :: p != q ==> AnswerTo(p, t.answers) == AnswerTo(p, s.answers)
    ensures t.step == s.step && t.isAnalyzing == s.isAnalyzing
    ensures t.showResults == s.showResults && t.timerPending == s.timerPending
    ensures Consistent(s) && InputShown(s, q) ==> Consistent(t)
  {
    s.(answers := WithAnswer(s.answers, q, v))
  }

  /** The completion timeout: the analysis ends and the results are shown. */
  function Complete(s: WizardState): (t: WizardState)
    ensures t.showResults && !t.isAnalyzing && !t.timerPending
    ensures t.step == s.step && t.answers == s.answers
    ensures Consistent(s) && s.timerPending ==> Consistent(t)
  {
    s.(isAnalyzing := false, showResults := true, timerPending := false)
  }

  // The results screen.

  datatype Ingredient = Ingredient(name: string, percentage: string, kind: string)

  datatype AnalysisResult = AnalysisResult(
    medicine: string,
    composition: seq<Ingredient>,
    riskLevel: string,
    warnings: seq<string>,
    interactions: seq<string>,
    suitability: string)

  const FallbackMedicine: string := "Ibuprofen"

  /** Everything on the results screen except the medicine name, which is a constant. */
  const MockAnalysis: AnalysisResult := AnalysisResult(
    FallbackMedicine,
    [ Ingredient("Ibuprofen", "200mg", "Active ingredient"),
      Ingredient("Microcrystalline cellulose", "45%", "Excipient"),
      Ingredient("Sodium starch glycolate", "8%", "Disintegrant"),
      Ingredient("Magnesium stearate", "2%", "Lubricant") ],
    "Low",
    [ "May cause stomach irritation if taken on empty stomach",
      "Avoid alcohol consumption while taking this medication" ],
    [ "Warfarin - Increased bleeding risk",
      "ACE inhibitors - Reduced effectiveness" ],
    "Suitable for your age group and profile")

  /**
   * `mockResults`: the entered medicine name (JavaScript's `||` falls back
   * to "Ibuprofen" for the empty string); the rest never depends on the answers.
   */
  function MockResults(a: Answers): (r: AnalysisResult)
    ensures a.medicine != "" ==> r.medicine == a.medicine
    ensures a.medicine == "" ==> r.medicine == FallbackMedicine
    ensures r.medicine != ""
    ensures r.(medicine := FallbackMedicine) == MockAnalysis
  {
    MockAnalysis.(medicine := if a.medicine != "" then a.medicine else FallbackMedicine)
  }

  // Sequences of events, as the user and the timer deliver them.

  datatype Event = ClickNext | ClickBack | Enter(question: Question, value: string) | AnalysisTimer

  /** Whether the control behind `e` is there to be used (or the timer is armed). */
  predicate Available(s: WizardState, e: Event)
  {
    match e
    case ClickNext => NextEnabled(s)
    case ClickBack => BackShown(s)
    case Enter(q, _) => InputShown(s, q)
    case AnalysisTimer => s.timerPending
  }

  /** The effect of one event; an event whose control is absent or disabled does nothing. */
  function Dispatch(s: WizardState, e: Event): (t: WizardState)
    ensures !Available(s, e) ==> t == s
    // A special case of the clause above, stated on its own: Next with the current question unanswered does nothing.
    ensures e == ClickNext && !CanProceed(s.step, s.answers) ==> t == s
    ensures Consistent(s) ==> Consistent(t)
  {
    if !Available(s, e) then s
    else match e
      case ClickNext => Next(s)
      case ClickBack => Back(s).state
      case Enter(q, v) => SetAnswer(s, q, v)
      case AnalysisTimer => Complete(s)
  }

  /** Whether `e` makes the wizard call `onBack`, which unmounts it. */
  predicate Exits(s: WizardState, e: Event)
  {
    Available(s, e) && e == ClickBack && Back(s).exit
  }

  /** The state after delivering `es`; nothing is delivered after the wizard exits. */
  function Run(s: WizardState, es: seq<Event>): (t: WizardState)
    decreases |es|
  {
    if es == [] || Exits(s, es[0]) then s else Run(Dispatch(s, es[0]), es[1..])
  }

  /** How many completion timeouts fire while delivering `es`. */
  function Completions(s: WizardState, es: seq<Event>): (c: nat)
    decreases |es|
  {
    if es == [] || Exits(s, es[0]) then 0
    else (if es[0] == AnalysisTimer && Available(s, es[0]) then 1 else 0)
         + Completions(Dispatch(s, es[0]), es[1..])
  }

  /** Every state reached from a consistent one is consistent; in particular the step stays within 1..3. */
  lemma {:induction false} RunConsistent(s: WizardState, es: seq<Event>)
    requires Consistent(s)
    ensures Consistent(Run(s, es))
    ensures 1 <= Run(s, es).step <= 3
    decreases |es|
  {
    if es != [] && !Exits(s, es[0]) {
      RunConsistent(Dispatch(s, es[0]), es[1..]);
    }
  }

  /** The wizard starts consistent, so every state it reaches from mounting is consistent. */
  lemma {:induction false} ReachableConsistent(es: seq<Event>)
    ensures Consistent(Run(Initial, es))
  {
    assert Consistent(Initial);
    RunConsistent(Initial, es);
  }

  /** Delivering one event and then the rest. */
  lemma RunStep(s: WizardState, e: Event, es: seq<Event>)
    ensures Run(s, [e] + es) == if Exits(s, e) then s else Run(Dispatch(s, e), es)
  {
    assert ([e] + es)[1..] == es;
  }

  /** Next does nothing until the age is entered; Back from step 2 keeps the age. */
  lemma AgeWalkthrough()
    ensures Run(Initial, [ClickNext]) == Initial
    ensures Run(Initial, [Enter(Age, "34"), ClickNext]).step == 2
    ensures Run(Initial, [Enter(Age, "34"), ClickNext, ClickBack]).step == 1
    ensures Run(Initial, [Enter(Age, "34"), ClickNext, ClickBack]).answers.age == "34"
  {
    var s0 := Initial;
    RunStep(s0, ClickNext, []);
    var s1 := Dispatch(s0, Enter(Age, "34"));
    assert s1 == s0.(answers := Answers("34", "", ""));
    var s2 := Dispatch(s1, ClickNext);
    assert s2 == s1.(step := 2);
    var s3 := Dispatch(s2, ClickBack);
    assert s3 == s1 && !Exits(s2, ClickBack);
    RunStep(s1, ClickNext, []);
    assert Run(s1, [ClickNext]) == s2;
    RunStep(s0, Enter(Age, "34"), [ClickNext]);
    RunStep(s2, ClickBack, []);
    RunStep(s1, ClickNext, [ClickBack]);
    assert Run(s1, [ClickNext, ClickBack]) == s1;
    RunStep(s0, Enter(Age, "34"), [ClickNext, ClickBack]);
  }

  /** Three answers and Next start the analysis, whose completion shows the results for the medicine entered. */
  lemma AnalysisWalkthrough()
    ensures var s := Run(Initial, [Enter(Age, "34"), ClickNext, Enter(Gender, "Male"), ClickNext,
                                   Enter(Medicine, "Aspirin"), ClickNext]);
            s.isAnalyzing && !s.showResults
            && Complete(s).showResults && MockResults(Complete(s).answers).medicine == "Aspirin"
  {
    var s1 := Dispatch(Initial, Enter(Age, "34"));
    assert s1 == Initial.(answers := Answers("34", "", ""));
    var s2 := Dispatch(s1, ClickNext);
    assert s2 == s1.(step := 2);
    var s4 := Dispatch(s2, Enter(Gender, "Male"));
    assert s4 == s2.(answers := Answers("34", "Male", ""));
    var s5 := Dispatch(s4, ClickNext);
    assert s5 == s4.(step := 3);
    var s6 := Dispatch(s5, Enter(Medicine, "Aspirin"));
    assert s6 == s5.(answers := Answers("34", "Male", "Aspirin"));
    var s7 := Dispatch(s6, ClickNext);
    assert s7 == s6.(isAnalyzing := true, timerPending := true);
    RunStep(s6, ClickNext, []);
    assert Run(s6, [ClickNext]) == s7;
    RunStep(s5, Enter(Medicine, "Aspirin"), [ClickNext]);
    assert Run(s5, [Enter(Medicine, "Aspirin"), ClickNext]) == s7;
    RunStep(s4, ClickNext, [Enter(Medicine, "Aspirin"), ClickNext]);
    assert Run(s4, [ClickNext, Enter(Medicine, "Aspirin"), ClickNext]) == s7;
    RunStep(s2, Enter(Gender, "Male"), [ClickNext, Enter(Medicine, "Aspirin"), ClickNext]);
    assert Run(s2, [Enter(Gender, "Male"), ClickNext, Enter(Medicine, "Aspirin"), ClickNext]) == s7;
    RunStep(s1, ClickNext, [Enter(Gender, "Male"), ClickNext, Enter(Medicine, "Aspirin"), ClickNext]);
    RunStep(Initial, Enter(Age, "34"), [ClickNext, Enter(Gender, "Male"), ClickNext, Enter(Medicine, "Aspirin"), ClickNext]);
  }

  /** The results screen is final: no event changes the wizard's state any more. */
  lemma {:induction false} ResultsAreFinal(s: WizardState, es: seq<Event>)
    requires Consistent(s) && s.showResults
    ensures Run(s, es) == s
    ensures Completions(s, es) == 0
    decreases |es|
  {
    if es != [] && !Exits(s, es[0]) {
      assert Dispatch(s, es[0]) == s;
      ResultsAreFinal(s, es[1..]);
    }
  }

  /** The analysis completes at most once in the life of a wizard, whatever the user does. */
  lemma {:induction false} CompletesAtMostOnce(s: WizardState, es: seq<Event>)
    requires Consistent(s)
    ensures Completions(s, es) <= 1
    ensures s.showResults ==> Completions(s, es) == 0
    decreases |es|
  {
    if s.showResults {
      ResultsAreFinal(s, es);
    } else if es != [] && !Exits(s, es[0]) {
      var t := Dispatch(s, es[0]);
      CompletesAtMostOnce(t, es[1..]);
      if es[0] == AnalysisTimer && Available(s, es[0]) {
        assert t.showResults;
      }
    }
  }

  /**
   * The component itself: its `useState` cells are fields, its handlers are
   * methods. A method requires that its control is rendered (and, for Next,
   * enabled), since the source offers no other way to call it.
   */
  class Wizard {
    var step: int
    var formData: Answers
    var isAnalyzing: bool
    var showResults: bool
    var timerPending: bool

    function State(): WizardState
      reads this
    {
      WizardState(step, formData, isAnalyzing, showResults, timerPending)
    }

    ghost predicate Valid()
      reads this
    {
      Consistent(State())
    }

    constructor ()
      ensures Valid() && State() == Initial
    {
      step := 1;
      formData := NoAnswers;
      isAnalyzing := false;
      showResults := false;
      timerPending := false;
    }

    method HandleNext()
      requires Valid() && NextEnabled(State())
      modifies this
      ensures Valid() && State() == Next(old(State()))
    {
      if step < 3 {
        step := step + 1;
      } else if step == 3 {
        isAnalyzing := true;
        timerPending := true;
      }
    }

    /** Returns whether `onBack` was called. */
    method HandleBack() returns (exit: bool)
      requires Valid() && BackShown(State())
      modifies this
      ensures Valid()
      ensures State() == Back(old(State())).state && exit == Back(old(State())).exit
    {
      if step > 1 {
        step := step - 1;
        exit := false;
      } else {
        exit := true;
      }
    }

    method SetAge(value: string)
      requires Valid() && InputShown(State(), Age)
      modifies this
      ensures Valid() && State() == SetAnswer(old(State()), Age, value)
    {
      formData := formData.(age := value);
    }

    method SetGender(value: string)
      requires Valid() && InputShown(State(), Gender)
      modifies this
      ensures Valid() && State() == SetAnswer(old(State()), Gender, value)
    {
      formData := formData.(gender := value);
    }

    method SetMedicine(value: string)
      requires Valid() && InputShown(State(), Medicine)
      modifies this
      ensures Valid() && State() == SetAnswer(old(State()), Medicine, value)
    {
      formData := formData.(medicine := value);
    }

    /** The callback of the 3-second timeout scheduled by `HandleNext` at step 3. */
    method CompleteAnalysis()
      requires Valid() && timerPending
      modifies this
      ensures Valid() && State() == Complete(old(State()))
    {
      isAnalyzing := false;
      showResults := true;
      timerPending := false;
    }
  }

  /** Answering and advancing through all three steps, as a user of the class would. */
  method AnalysisScenario()
  {
    var w := new Wizard();
    w.SetAge("34");
    w.HandleNext();
    w.SetGender("Female");
    var exit := w.HandleBack();
    assert !exit && w.step == 1 && w.formData.age == "34";
    w.HandleNext();
    w.HandleNext();
    w.SetMedicine("Aspirin");
    w.HandleNext();
    assert w.isAnalyzing && !w.showResults && w.step == 3;
    w.CompleteAnalysis();
    assert w.showResults && !w.isAnalyzing;
    assert MockResults(w.formData).medicine == "Aspirin";
  }
}
