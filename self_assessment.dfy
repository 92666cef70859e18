/** The self-assessment questionnaire of client/src/pages/Self-assessmentPage.jsx:
    the `AssessmentForm` wizard (birth date, then nineteen yes/no questions, then
    one submission) and the `SummaryForm` view that shows the returned result. */
module SelfAssessmentPage {
  import opened Wrappers

  // ---------------------------------------------------------------------------
  // Catalog

  const YES := "Yes"
  const NO := "No"

  /** The questions shown one at a time (the list declared inside `AssessmentForm`). */
  const QUESTIONS: seq<string> := [
    "Do you often feel panicked?",
    "Do you experience excessive sweating (without physical cause)?",
    "Do you have difficulty concentrating?",
    "Are you having trouble with work or daily activities?",
    "Have you felt hopeless lately?",
    "Do you often feel angry without a clear reason?",
    "Do you feel your reactions to situations are overly exaggerated?",
    "Has your eating pattern changed unusually?",
    "Have you ever had thoughts of suicide?",
    "Do you feel constantly fatigued without a physical reason?",
    "Has your weight increased significantly without an apparent cause?",
    "Do you feel like withdrawing or becoming very introverted?",
    "Do you often experience nightmares?",
    "Do you avoid people or social activities you used to enjoy?",
    "Do you frequently feel negative about yourself?",
    "Do you often blame yourself for small things?",
    "Have you ever experienced hallucinations (seeing or hearing things that aren't real)?",
    "Do you engage in repetitive behaviors that are hard to control?",
    "Do you feel unusually energetic (hyperactive)?"
  ]

  /** The payload keys; position i names the answer to question i. */
  const FIELD_NAMES: seq<string> := [
    "panic", "sweating", "concentration_trouble", "work_trouble", "hopelessness",
    "anger", "over_react", "eating_change", "suicidal_thought", "tired",
    "weight_gain", "introvert", "nightmares", "avoids_people_activities",
    "negative_feeling", "self_blaming", "hallucinations", "repetitive_behaviour",
    "increased_energy"
  ]

  /** `questions.length - 1`: the index of the question that shows "Finish". */
  const LAST_QUESTION: nat := |QUESTIONS| - 1

  const SUMMARY_PATH := "/self-assessment/summary"

  predicate IsReplyText(s: string) { s == YES || s == NO }

  /** No two of the first `n` names are equal. */
  predicate DistinctPrefix(names: seq<string>, n: nat)
    requires n <= |names|
  {
    forall i, j :: 0 <= i < j < n ==> names[i] != names[j]
  }

  /** Questions and field names have the same length, and no field name repeats. */
  lemma CatalogInLockstep()
    ensures |QUESTIONS| == |FIELD_NAMES| == 19 && LAST_QUESTION == 18
    ensures DistinctPrefix(FIELD_NAMES, |FIELD_NAMES|)
  {
    // no two names agree in both length and first letter
    forall i, j | 0 <= i < j < |FIELD_NAMES|
      ensures FIELD_NAMES[i] != FIELD_NAMES[j]
    {
      assert (|FIELD_NAMES[i]|, FIELD_NAMES[i][0]) != (|FIELD_NAMES[j]|, FIELD_NAMES[j][0]);
    }
  }

  // ---------------------------------------------------------------------------
  // Age

  /** A calendar date as (year, month, day); month and day as the date input gives them. */
  datatype Date = Date(year: int, month: int, day: int)

  /** `calculateAge`: the year difference, less one when today's month is earlier
      than the birth month, or the same month with an earlier day. */
  function CalculateAge(birth: Date, today: Date): int {
    var age := today.year - birth.year;
    var m := today.month - birth.month;
    if m < 0 || (m == 0 && today.day < birth.day) then age - 1 else age
  }

  /** `a`'s (month, day) comes before `b`'s. */
  predicate EarlierInYear(a: Date, b: Date) {
    a.month < b.month || (a.month == b.month && a.day < b.day)
  }

  /** Lexicographic order on (year, month, day). */
  predicate OnOrBefore(a: Date, b: Date) {
    a.year < b.year || (a.year == b.year && (a.month < b.month || (a.month == b.month && a.day <= b.day)))
  }

  /** The date `years` years after `birth`, with the same month and day. */
  function Anniversary(birth: Date, years: int): Date {
    Date(birth.year + years, birth.month, birth.day)
  }

  /** The age is the year difference or one less, and one less exactly when today's
      (month, day) comes before the birth (month, day). */
  lemma AgeIsYearDifferenceOrOneLess(birth: Date, today: Date)
    ensures CalculateAge(birth, today) == today.year - birth.year ||
            CalculateAge(birth, today) == today.year - birth.year - 1
    ensures CalculateAge(birth, today) == today.year - birth.year - 1 <==> EarlierInYear(today, birth)
  {
  }

  /** The age counts completed years: the k-th anniversary of the birth date has been
      reached on `today` exactly when k is at most the age. */
  lemma AgeCountsCompletedYears(birth: Date, today: Date)
    ensures forall k :: OnOrBefore(Anniversary(birth, k), today) <==> k <= CalculateAge(birth, today)
  {
  }

  /** The birthday example: 2000-06-15 is 23 on 2024-06-14 and 24 on 2024-06-15. */
  lemma BirthdayExample()
    ensures CalculateAge(Date(2000, 6, 15), Date(2024, 6, 14)) == 23
    ensures CalculateAge(Date(2000, 6, 15), Date(2024, 6, 15)) == 24
  {
  }

  // ---------------------------------------------------------------------------
  // Payload

  /** An entry of `answers`: entry 0 is the computed age (a number), the later ones the
      replies as the answer buttons give them. */
  datatype Entry = AgeYears(years: int) | Reply(text: string)

  /** The object sent to the backend: `age` (JavaScript `undefined` as None) and one
      0/1 field per field name. */
  datatype Payload = Payload(age: Option<Entry>, fields: map<string, int>)

  /** `answers[index] === "Yes" ? 1 : 0`, where an index past the end reads `undefined`. */
  function YesFlag(answers: seq<Entry>, index: nat): int {
    if index < |answers| && answers[index] == Reply(YES) then 1 else 0
  }

  /** The `fieldNames.reduce` fold over the first `n` names: name k (0-based) gets the
      flag of answer k + 1; a later name overwrites an equal earlier one. */
  function FoldFields(names: seq<string>, answers: seq<Entry>, n: nat): (acc: map<string, int>)
    requires n <= |names|
    ensures forall key :: key in acc <==> key in names[..n]
    ensures forall key :: key in acc ==> acc[key] == 0 || acc[key] == 1
    ensures DistinctPrefix(names, n) ==> forall k :: 0 <= k < n ==> acc[names[k]] == YesFlag(answers, k + 1)
  {
    if n == 0 then map[]
    else
      assert names[..n] == names[..n - 1] + [names[n - 1]];
      FoldFields(names, answers, n - 1)[names[n - 1] := YesFlag(answers, n)]
  }

  /** With distinct names the fold has one key per name. */
  lemma {:induction false} FoldFieldsCount(names: seq<string>, answers: seq<Entry>, n: nat)
    requires n <= |names| && DistinctPrefix(names, n)
    ensures |FoldFields(names, answers, n)| == n
  {
    if n > 0 {
      FoldFieldsCount(names, answers, n - 1);
    }
  }

  /** `assessmentData`: `age` from the answers as they were before the click, the fields
      from the answers including the one just recorded. */
  function AssessmentData(answers: seq<Entry>, updated: seq<Entry>): Payload {
    Payload(if |answers| > 0 then Some(answers[0]) else None,
            FoldFields(FIELD_NAMES, updated, |FIELD_NAMES|))
  }

  /** The payload's `age` is the first entry of the answers before the click. */
  lemma PayloadAge(answers: seq<Entry>, updated: seq<Entry>)
    requires |answers| > 0
    ensures AssessmentData(answers, updated).age == Some(answers[0])
  {
  }

  /** The payload has one field per field name and no other, 19 in all. */
  lemma PayloadKeys(answers: seq<Entry>, updated: seq<Entry>)
    ensures forall name :: name in AssessmentData(answers, updated).fields <==> name in FIELD_NAMES
    ensures |AssessmentData(answers, updated).fields| == |FIELD_NAMES| == 19
  {
    CatalogInLockstep();
    FoldFieldsCount(FIELD_NAMES, updated, |FIELD_NAMES|);
    assert FIELD_NAMES[..|FIELD_NAMES|] == FIELD_NAMES;
  }

  /** Field i is 1 exactly when `updated[i + 1]` is "Yes", and 0 otherwise. */
  lemma PayloadFieldValues(answers: seq<Entry>, updated: seq<Entry>)
    ensures forall i :: 0 <= i < |FIELD_NAMES| ==>
      AssessmentData(answers, updated).fields[FIELD_NAMES[i]] ==
        (if i + 1 < |updated| && updated[i + 1] == Reply(YES) then 1 else 0)
  {
    CatalogInLockstep();
  }

  /** Answers after the first 19 replies do not change the fields: the fold reads
      indices 1..n only. */
  lemma {:induction false} FoldIgnoresLateAnswers(names: seq<string>, answers: seq<Entry>, extra: seq<Entry>, n: nat)
    requires n <= |names| && n < |answers|
    ensures FoldFields(names, answers + extra, n) == FoldFields(names, answers, n)
  {
    if n > 0 {
      FoldIgnoresLateAnswers(names, answers, extra, n - 1);
      assert (answers + extra)[n] == answers[n];
    }
  }

  /** A retry after a failed submission sends the same payload: with the first 20
      entries recorded, anything appended later is ignored. */
  lemma RetryResendsRecordedAnswers(answers: seq<Entry>, updated: seq<Entry>, extra: seq<Entry>)
    requires |updated| >= |FIELD_NAMES| + 1
    ensures AssessmentData(answers, updated + extra) == AssessmentData(answers, updated)
  {
    FoldIgnoresLateAnswers(FIELD_NAMES, updated, extra, |FIELD_NAMES|);
  }

  /** Nineteen "Yes" replies give 1 in every field. */
  lemma AllYesPayload(age: int)
    ensures var updated := [AgeYears(age)] + seq(19, _ => Reply(YES));
      forall name :: name in FIELD_NAMES ==> AssessmentData(updated, updated).fields[name] == 1
  {
    var updated := [AgeYears(age)] + seq(19, _ => Reply(YES));
    PayloadFieldValues(updated, updated);
    forall name | name in FIELD_NAMES
      ensures AssessmentData(updated, updated).fields[name] == 1
    {
      var i :| 0 <= i < |FIELD_NAMES| && FIELD_NAMES[i] == name;
      assert updated[i + 1] == Reply(YES);
    }
  }

  // ---------------------------------------------------------------------------
  // Backend reply and summary view

  /** The `assessment_result` object printed by `SummaryForm`. */
  datatype AssessmentResult = AssessmentResult(resultLabel: string, description: string, confidencePercent: string, tips: string)

  /** The parsed reply of the backend: a truthy or falsy `success`, and an
      `assessment_result` that is present or falsy (None). */
  datatype BackendReply = BackendReply(success: bool, assessmentResult: Option<AssessmentResult>)

  /** The navigation state `{ assessment_result }` handed to the summary page. */
  datatype SummaryState = SummaryState(assessmentResult: Option<AssessmentResult>)

  /** What `SummaryForm` renders. */
  datatype SummaryScreen =
    | NoAssessmentData
    | ResultShown(resultLabel: string, description: string, confidencePercent: string, tips: string)

  /** `SummaryForm`: `location.state?.assessment_result`, with the fallback when falsy. */
  function SummaryForm(state: Option<SummaryState>): SummaryScreen {
    if state.Some? && state.value.assessmentResult.Some? then
      var r := state.value.assessmentResult.value;
      ResultShown(r.resultLabel, r.description, r.confidencePercent, r.tips)
    else NoAssessmentData
  }

  /** The fallback is shown exactly when there is no result; otherwise the result's
      four parts are shown unchanged. */
  lemma SummaryFallback(state: Option<SummaryState>)
    ensures SummaryForm(state) == NoAssessmentData <==> state.None? || state.value.assessmentResult.None?
    ensures state.Some? && state.value.assessmentResult.Some? ==>
      var r := state.value.assessmentResult.value;
      SummaryForm(state).resultLabel == r.resultLabel && SummaryForm(state).description == r.description &&
      SummaryForm(state).confidencePercent == r.confidencePercent && SummaryForm(state).tips == r.tips
  {
  }

  // ---------------------------------------------------------------------------
  // The wizard state and its transitions

  /** `step`: the string-tagged "age" / "questions" phases. */
  datatype Step = AgeStep | QuestionsStep

  /** A snapshot of the five state fields of `AssessmentForm`. `birthDate` None is the
      empty input string. */
  datatype Form = Form(step: Step, birthDate: Option<Date>, currentQuestion: nat,
                       answers: seq<Entry>, selectedAnswer: Option<string>)

  const INITIAL_FORM := Form(AgeStep, None, 0, [], None)

  /** What a click on Next/Finish does besides changing the state. */
  datatype NextEffect =
    | AnswerMissing                                          // alert, nothing else
    | NextQuestion                                           // the next question is shown
    | Submitted(payload: Payload, summary: Option<SummaryState>)
      // one request with `payload`; on a truthy `success` a navigation to the
      // summary page with `summary`, otherwise (None) the "try again" alert

  /** The date input's `onChange`. */
  function ChangeBirthDate(f: Form, date: Option<Date>): Form {
    f.(birthDate := date)
  }

  /** `handleAgeSubmit`: nothing without a birth date; otherwise the answers become the
      one-entry list holding the age and the questions step begins. */
  function SubmitAge(f: Form, today: Date): Form {
    match f.birthDate
    case None => f
    case Some(birth) => f.(answers := [AgeYears(CalculateAge(birth, today))], step := QuestionsStep)
  }

  /** `handleSelectAnswer`. */
  function SelectAnswer(f: Form, answer: string): Form {
    f.(selectedAnswer := Some(answer))
  }

  /** The state change of `handleNext`, which does not depend on the backend reply. */
  function Next(f: Form): Form {
    match f.selectedAnswer
    case None => f
    case Some(answer) =>
      var recorded := f.(answers := f.answers + [Reply(answer)], selectedAnswer := None);
      if f.currentQuestion < LAST_QUESTION then recorded.(currentQuestion := f.currentQuestion + 1)
      else recorded
  }

  /** The effect of `handleNext` given the `reply` the backend would return. */
  function NextEffectOf(f: Form, reply: BackendReply): NextEffect {
    match f.selectedAnswer
    case None => AnswerMissing
    case Some(answer) =>
      if f.currentQuestion < LAST_QUESTION then NextQuestion
      else
        var payload := AssessmentData(f.answers, f.answers + [Reply(answer)]);
        Submitted(payload, if reply.success then Some(SummaryState(reply.assessmentResult)) else None)
  }

  /** The invariant of the wizard. In the age step nothing is recorded yet. In the
      questions step the index is within the catalog, entry 0 is the age and the rest
      are replies, and one entry per answered question plus the age is recorded — until
      the last question is answered, after which the index stays at the last question and
      at least 20 entries exist. */
  predicate ValidForm(f: Form) {
    match f.step
    case AgeStep =>
      f.currentQuestion == 0 && f.answers == [] && f.selectedAnswer == None
    case QuestionsStep =>
      && f.currentQuestion <= LAST_QUESTION
      && |f.answers| >= 1
      && f.answers[0].AgeYears?
      && (forall i :: 1 <= i < |f.answers| ==> f.answers[i].Reply? && IsReplyText(f.answers[i].text))
      && (|f.answers| == f.currentQuestion + 1 ||
          (f.currentQuestion == LAST_QUESTION && |f.answers| >= |QUESTIONS| + 1))
      && (f.selectedAnswer.Some? ==> IsReplyText(f.selectedAnswer.value))
  }

  lemma InitialFormValid()
    ensures ValidForm(INITIAL_FORM)
  {
  }

  /** Leaving the age step without a birth date changes nothing. */
  lemma SubmitAgeWithoutDate(f: Form, today: Date)
    requires f.birthDate.None?
    ensures SubmitAge(f, today) == f
  {
  }

  /** With a birth date, the answers are reset to exactly [age] (not appended to),
      the step becomes "questions", and nothing else changes. */
  lemma SubmitAgeResets(f: Form, today: Date)
    requires f.birthDate.Some?
    ensures var g := SubmitAge(f, today);
      && g.answers == [AgeYears(CalculateAge(f.birthDate.value, today))]
      && g.step == QuestionsStep
      && g.birthDate == f.birthDate && g.currentQuestion == f.currentQuestion
      && g.selectedAnswer == f.selectedAnswer
  {
  }

  /** Without a selected answer, Next changes nothing and only alerts. */
  lemma NextWithoutSelection(f: Form, reply: BackendReply)
    requires f.selectedAnswer.None?
    ensures Next(f) == f && NextEffectOf(f, reply) == AnswerMissing
  {
  }

  /** With a selection, Next appends exactly that answer, clears the selection, moves
      to the next question unless at the last one, and changes nothing else. */
  lemma NextWithSelection(f: Form)
    requires f.selectedAnswer.Some?
    ensures var g := Next(f);
      && g.answers == f.answers + [Reply(f.selectedAnswer.value)]
      && g.selectedAnswer == None
      && g.currentQuestion == (if f.currentQuestion < LAST_QUESTION then f.currentQuestion + 1 else f.currentQuestion)
      && g.step == f.step && g.birthDate == f.birthDate
  {
  }

  lemma SubmitAgePreservesValid(f: Form, today: Date)
    requires ValidForm(f) && f.step == AgeStep
    ensures ValidForm(SubmitAge(f, today))
  {
  }

  lemma SelectAnswerPreservesValid(f: Form, answer: string)
    requires ValidForm(f) && f.step == QuestionsStep && IsReplyText(answer)
    ensures ValidForm(SelectAnswer(f, answer))
  {
  }

  lemma NextPreservesValid(f: Form)
    requires ValidForm(f)
    ensures ValidForm(Next(f))
  {
  }

  /** A request is made only from the last question, and then carries the payload of
      the answers recorded so far: `age` is the stored age and field i is 1 exactly when
      reply i + 1 is "Yes". */
  lemma SubmissionOnlyFromLastQuestion(f: Form, reply: BackendReply)
    requires ValidForm(f) && f.step == QuestionsStep
    ensures NextEffectOf(f, reply).Submitted? <==> f.selectedAnswer.Some? && f.currentQuestion == LAST_QUESTION
    ensures NextEffectOf(f, reply).Submitted? ==>
      && NextEffectOf(f, reply).payload.age == Some(f.answers[0])
      && NextEffectOf(f, reply).payload == AssessmentData(Next(f).answers, Next(f).answers)
  {
  }

  /** On the first Finish the payload holds exactly the 19 recorded replies. */
  lemma FirstFinishPayload(f: Form, reply: BackendReply)
    requires ValidForm(f) && f.step == QuestionsStep
    requires f.currentQuestion == LAST_QUESTION && |f.answers| == LAST_QUESTION + 1 && f.selectedAnswer.Some?
    ensures |Next(f).answers| == |QUESTIONS| + 1
    ensures var p := NextEffectOf(f, reply).payload;
      forall i :: 0 <= i < |FIELD_NAMES| ==>
        p.fields[FIELD_NAMES[i]] == (if Next(f).answers[i + 1] == Reply(YES) then 1 else 0)
  {
    CatalogInLockstep();
    PayloadFieldValues(f.answers, Next(f).answers);
  }

  /** A reply without `success` navigates nowhere; the wizard stays at the last
      question with every answer kept (one more than before), so another Finish
      appends again and resubmits the same payload. */
  lemma FailedSubmissionKeepsAnswers(f: Form, reply: BackendReply, later: string)
    requires ValidForm(f) && f.step == QuestionsStep
    requires f.currentQuestion == LAST_QUESTION && f.selectedAnswer.Some? && !reply.success
    ensures NextEffectOf(f, reply).Submitted? && NextEffectOf(f, reply).summary.None?
    ensures Next(f).currentQuestion == LAST_QUESTION && Next(f).step == QuestionsStep
    ensures Next(f).answers[..|f.answers|] == f.answers && |Next(f).answers| == |f.answers| + 1 >= 20
    ensures var retry := SelectAnswer(Next(f), later);
      && |Next(retry).answers| == |f.answers| + 2
      && NextEffectOf(retry, reply).payload == NextEffectOf(f, reply).payload
  {
    var g := Next(f);
    var retry := SelectAnswer(g, later);
    assert g.answers[..|f.answers|] == f.answers;
    assert retry.answers[0] == f.answers[0];
    RetryResendsRecordedAnswers(retry.answers, g.answers, [Reply(later)]);
    RetryResendsRecordedAnswers(f.answers, g.answers, []);
    assert g.answers + [] == g.answers;
  }

  /** A reply with `success` hands its `assessment_result` to the summary page, which
      shows it, or shows the fallback when the reply has none. */
  lemma SuccessfulSubmissionShowsResult(f: Form, reply: BackendReply)
    requires ValidForm(f) && f.step == QuestionsStep
    requires f.currentQuestion == LAST_QUESTION && f.selectedAnswer.Some? && reply.success
    ensures NextEffectOf(f, reply).Submitted? && NextEffectOf(f, reply).summary.Some?
    ensures var screen := SummaryForm(NextEffectOf(f, reply).summary);
      match reply.assessmentResult
      case None => screen == NoAssessmentData
      case Some(r) => screen == ResultShown(r.resultLabel, r.description, r.confidencePercent, r.tips)
  {
  }

  // ---------------------------------------------------------------------------
  // The component

  /** `AssessmentForm`'s state fields and handlers. */
  class AssessmentForm {
    var step: Step
    var birthDate: Option<Date>
    var currentQuestion: nat
    var answers: seq<Entry>
    var selectedAnswer: Option<string>

    function State(): Form
      reads this
    {
      Form(step, birthDate, currentQuestion, answers, selectedAnswer)
    }

    predicate Valid()
      reads this
    {
      ValidForm(State())
    }

    /** The initial `useState` values. */
    constructor ()
      ensures State() == INITIAL_FORM && Valid()
    {
      step := AgeStep;
      birthDate := None;
      currentQuestion := 0;
      answers := [];
      selectedAnswer := None;
    }

    method HandleBirthDateChange(date: Option<Date>)
      requires Valid()
      modifies this
      ensures Valid() && State() == ChangeBirthDate(old(State()), date)
    {
      birthDate := date;
    }

    /** `handleAgeSubmit`, with "today" passed in; `accepted` is false when it alerts. */
    method HandleAgeSubmit(today: Date) returns (accepted: bool)
      requires Valid() && step == AgeStep
      modifies this
      ensures Valid() && State() == SubmitAge(old(State()), today)
      ensures accepted <==> old(birthDate).Some?
    {
      if birthDate.None? {
        return false;
      }
      var age := CalculateAge(birthDate.value, today);
      answers := [AgeYears(age)];
      step := QuestionsStep;
      accepted := true;
      SubmitAgePreservesValid(old(State()), today);
    }

    /** `handleSelectAnswer`, called by the "Yes" and "No" buttons of the questions step. */
    method HandleSelectAnswer(answer: string)
      requires Valid() && step == QuestionsStep && IsReplyText(answer)
      modifies this
      ensures Valid() && State() == SelectAnswer(old(State()), answer)
    {
      selectedAnswer := Some(answer);
    }

    /** `handleNext`, the Next/Finish button; `reply` is what the backend returns if
        this click submits. */
    method HandleNext(reply: BackendReply) returns (effect: NextEffect)
      requires Valid() && step == QuestionsStep
      modifies this
      ensures Valid() && State() == Next(old(State()))
      ensures effect == NextEffectOf(old(State()), reply)
    {
      NextPreservesValid(State());
      if selectedAnswer.None? {
        return AnswerMissing;
      }
      var updatedAnswers := answers + [Reply(selectedAnswer.value)];
      var priorAnswers := answers;
      answers := updatedAnswers;
      selectedAnswer := None;
      if currentQuestion < |QUESTIONS| - 1 {
        currentQuestion := currentQuestion + 1;
        effect := NextQuestion;
      } else {
        var assessmentData := AssessmentData(priorAnswers, updatedAnswers);
        if reply.success {
          effect := Submitted(assessmentData, Some(SummaryState(reply.assessmentResult)));
        } else {
          effect := Submitted(assessmentData, None);
        }
      }
    }
  }
}
