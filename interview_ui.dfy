/** The interview wizard of src/components/interview/interview-ui.tsx: the
    step-by-step question component and its handlers. Rendering is left
    out; what remains is the state each handler leaves behind and the
    answer it reports. */
module InterviewUi {
  import opened Common
  import opened InterviewTool
  import opened MultiSelect
  import opened CustomInput

  /** `Record<string, string | string[]>` keyed by question text. */
  type Answers = map<string, Answer>

  /** JavaScript truthiness of a stored answer: a non-empty string, or any
      array (even an empty one). */
  predicate AnswerTruthy(a: Answer) {
    a.Several? || a.text != ""
  }

  /** `getInitialSelected`: the labels a step starts with. */
  function InitialSelected(initialAnswer: Option<Answer>): (r: seq<string>)
    ensures initialAnswer.None? ==> r == []
    ensures initialAnswer.Some? && initialAnswer.value.Several? ==> r == initialAnswer.value.texts
    ensures initialAnswer.Some? && initialAnswer.value.Single? ==>
      r == if initialAnswer.value.text == "" then [] else [initialAnswer.value.text]
  {
    match initialAnswer
    case None => []
    case Some(Single(s)) => if s == "" then [] else [s]
    case Some(Several(texts)) => texts
  }

  /** The question shown at `step`: none when `questions` is not an array,
      is empty, or has no question at `step`. */
  function CurrentQuestion(questionsField: Option<seq<InterviewQuestion>>, step: int): (r: Option<InterviewQuestion>)
    ensures r.Some? <==> questionsField.Some? && 0 <= step < |questionsField.value|
    ensures r.Some? ==> r.value == questionsField.value[step]
  {
    if questionsField.Some? && 0 <= step < |questionsField.value| then Some(questionsField.value[step]) else None
  }

  /** One question step, owning a multi-select and a custom input. */
  class StepQuestion {
    const question: InterviewQuestion
    const selection: MultiSelectState
    const custom: CustomInputState

    constructor (question: InterviewQuestion, initialAnswer: Option<Answer>)
      ensures this.question == question && fresh(selection) && fresh(custom)
      ensures selection.selected == InitialSelected(initialAnswer)
      ensures custom.value == "" && !custom.isOpen
    {
      this.question := question;
      selection := new MultiSelectState(Some(InitialSelected(initialAnswer)));
      custom := new CustomInputState();
    }

    /** `handleOptionClick`: a multi-select question toggles the label; a
        single-select question answers with it at once. */
    method HandleOptionClick(optionLabel: string) returns (answer: Option<Answer>)
      modifies selection
      ensures question.multiSelect ==> answer.None? && selection.selected == Toggled(old(selection.selected), optionLabel)
      ensures !question.multiSelect ==> answer == Some(Single(optionLabel)) && selection.selected == old(selection.selected)
    {
      if question.multiSelect {
        selection.Toggle(optionLabel);
        answer := None;
      } else {
        answer := Some(Single(optionLabel));
      }
    }

    /** `handleMultiSelectConfirm`: answers with the selection only when it
        is not empty. */
    method HandleMultiSelectConfirm() returns (answer: Option<Answer>)
      ensures answer.Some? <==> |selection.selected| > 0
      ensures answer.Some? ==> answer.value == Several(selection.selected) && AnswerTruthy(answer.value)
    {
      if |selection.selected| > 0 {
        answer := Some(Several(selection.selected));
      } else {
        answer := None;
      }
    }

    /** `handleCustomSubmit`: an empty custom text does nothing; otherwise a
        multi-select question adds it to the selection and a single-select
        question answers with it. */
    method HandleCustomSubmit() returns (answer: Option<Answer>)
      modifies selection, custom
      ensures Submitted(old(custom.value)).None? ==>
        && answer.None? && selection.selected == old(selection.selected)
        && custom.value == old(custom.value) && custom.isOpen == old(custom.isOpen)
      ensures Submitted(old(custom.value)).Some? ==> custom.value == "" && !custom.isOpen
      ensures Submitted(old(custom.value)).Some? && question.multiSelect ==>
        answer.None? && selection.selected == Added(old(selection.selected), Submitted(old(custom.value)).value)
      ensures Submitted(old(custom.value)).Some? && !question.multiSelect ==>
        answer == Some(Single(Submitted(old(custom.value)).value)) && selection.selected == old(selection.selected)
    {
      var value := custom.Submit();
      if value.None? {
        return None;
      }
      if question.multiSelect {
        selection.Add(value.value);
        answer := None;
      } else {
        answer := Some(Single(value.value));
      }
    }
  }

  function Texts(questions: seq<InterviewQuestion>): (r: seq<string>)
    ensures |r| == |questions| && forall k :: 0 <= k < |questions| ==> r[k] == questions[k].question
  {
    seq(|questions|, k requires 0 <= k < |questions| => questions[k].question)
  }

  /** The answers `handleGoBack` keeps for the questions it keeps. */
  function Kept(answers: Answers, questions: seq<InterviewQuestion>): Answers
    decreases |questions|
  {
    if |questions| == 0 then map[]
    else
      var kept := Kept(answers, questions[..|questions| - 1]);
      var q := questions[|questions| - 1].question;
      if q in answers && AnswerTruthy(answers[q]) then kept[q := answers[q]] else kept
  }

  /** Going back keeps exactly the truthy answers of the kept questions'
      texts, each unchanged. */
  lemma {:induction false} KeptIsRestriction(answers: Answers, questions: seq<InterviewQuestion>)
    ensures forall key :: key in Kept(answers, questions) <==>
      key in Texts(questions) && key in answers && AnswerTruthy(answers[key])
    ensures forall key :: key in Kept(answers, questions) ==> Kept(answers, questions)[key] == answers[key]
    decreases |questions|
  {
    if |questions| > 0 {
      var init := questions[..|questions| - 1];
      KeptIsRestriction(answers, init);
      assert Texts(questions) == Texts(init) + [questions[|questions| - 1].question];
    }
  }

  /** The wizard: the current step and the answers so far. */
  class InterviewWizard {
    const questions: seq<InterviewQuestion>
    var currentStep: nat
    var answers: Answers

    /** `questions` falls back to `[]` when the input's field is not an
        array; `answers` starts from `initialAnswers ?? {}`. */
    constructor (questionsField: Option<seq<InterviewQuestion>>, initialAnswers: Option<Answers>)
      ensures questions == (if questionsField.Some? then questionsField.value else [])
      ensures currentStep == 0
      ensures answers == (if initialAnswers.Some? then initialAnswers.value else map[])
    {
      questions := if questionsField.Some? then questionsField.value else [];
      currentStep := 0;
      answers := if initialAnswers.Some? then initialAnswers.value else map[];
    }

    /** The wizard renders, and its handlers exist, only while the step
        names a question. */
    predicate Renders()
      reads this
    {
      currentStep < |questions|
    }

    /** `handleAnswer`: the answer is stored under the current question's
        text; the last question submits every answer, any other moves on
        one step. */
    method HandleAnswer(answer: Answer) returns (submitted: Option<InterviewOutput>)
      requires Renders()
      modifies this
      ensures answers == old(answers)[questions[old(currentStep)].question := answer]
      ensures old(currentStep) == |questions| - 1 ==>
        submitted == Some(InterviewOutput(answers)) && currentStep == old(currentStep)
      ensures old(currentStep) < |questions| - 1 ==>
        submitted.None? && currentStep == old(currentStep) + 1
    {
      var newAnswers := answers[questions[currentStep].question := answer];
      answers := newAnswers;
      if currentStep == |questions| - 1 {
        submitted := Some(InterviewOutput(newAnswers));
      } else {
        submitted := None;
        currentStep := currentStep + 1;
      }
    }

    /** `handleGoBack`: the step becomes `stepIndex` and only the truthy
        answers of the questions before it survive. */
    method HandleGoBack(stepIndex: nat)
      modifies this
      ensures currentStep == stepIndex
      ensures answers == Kept(old(answers), questions[..if stepIndex < |questions| then stepIndex else |questions|])
    {
      var questionsToKeep := questions[..if stepIndex < |questions| then stepIndex else |questions|];
      var newAnswers: Answers := map[];
      for i := 0 to |questionsToKeep|
        invariant newAnswers == Kept(answers, questionsToKeep[..i])
      {
        var q := questionsToKeep[i];
        assert questionsToKeep[..i + 1][..i] == questionsToKeep[..i];
        if q.question in answers && AnswerTruthy(answers[q.question]) {
          newAnswers := newAnswers[q.question := answers[q.question]];
        }
      }
      assert questionsToKeep[..|questionsToKeep|] == questionsToKeep;
      answers := newAnswers;
      currentStep := stepIndex;
    }
  }

  // ---------------------------------------------------------------------
  // The answered-questions list

  /** Question `q` shows as answered. */
  predicate Answered(answers: Answers, q: InterviewQuestion) {
    q.question in answers && AnswerTruthy(answers[q.question])
  }

  /** The rows of the answered list for the questions before the current
      step, each with the step its click goes back to, as written: the
      row's position among the answered questions. */
  function AnsweredRowsAsWritten(questions: seq<InterviewQuestion>, answers: Answers): seq<(InterviewQuestion, nat)>
    decreases |questions|
  {
    if |questions| == 0 then []
    else
      var rows := AnsweredRowsAsWritten(questions[..|questions| - 1], answers);
      if Answered(answers, questions[|questions| - 1]) then rows + [(questions[|questions| - 1], |rows|)] else rows
  }

  /** The same rows, each going back to its question's own step. */
  function AnsweredRows(questions: seq<InterviewQuestion>, answers: Answers): seq<(InterviewQuestion, nat)>
    decreases |questions|
  {
    if |questions| == 0 then []
    else
      var rows := AnsweredRows(questions[..|questions| - 1], answers);
      if Answered(answers, questions[|questions| - 1]) then rows + [(questions[|questions| - 1], |questions| - 1)] else rows
  }

  /** A single-select option may have the empty label, which is stored as
      a falsy answer: the next question's row then goes back one step too
      far. The wizard shows rows for the questions before the current step,
      so at step 2 of three questions the rows are those of "a" and "b". */
  lemma EmptyLabelShiftsGoBack()
    ensures var first := InterviewQuestion("a", "h", false, [InterviewOption("", ""), InterviewOption("y", "")]);
      var second := InterviewQuestion("b", "h", false, [InterviewOption("x", ""), InterviewOption("z", "")]);
      var third := InterviewQuestion("c", "h", false, [InterviewOption("x", ""), InterviewOption("z", "")]);
      var questions := [first, second, third];
      var rows := AnsweredRowsAsWritten(questions[..2], map["a" := Single(""), "b" := Single("x")]);
      |rows| == 1 && rows[0].0 == second && questions[rows[0].1] != second
  {
    var first := InterviewQuestion("a", "h", false, [InterviewOption("", ""), InterviewOption("y", "")]);
    var second := InterviewQuestion("b", "h", false, [InterviewOption("x", ""), InterviewOption("z", "")]);
    var third := InterviewQuestion("c", "h", false, [InterviewOption("x", ""), InterviewOption("z", "")]);
    var questions := [first, second, third];
    var answers := map["a" := Single(""), "b" := Single("x")];
    assert questions[..2] == [first, second];
    assert [first, second][..1] == [first];
    assert [first][..0] == [];
    assert !Answered(answers, first) && Answered(answers, second);
    assert AnsweredRowsAsWritten([first], answers) == [];
    assert AnsweredRowsAsWritten([first, second], answers) == [(second, 0)];
  }

  /** With the corrected rows every click goes back to the step of the
      question it shows, and the rows are exactly the answered questions. */
  lemma {:induction false} RowsGoBackToTheirQuestion(questions: seq<InterviewQuestion>, answers: Answers)
    ensures forall r :: r in AnsweredRows(questions, answers) ==>
      r.1 < |questions| && questions[r.1] == r.0 && Answered(answers, r.0)
    ensures forall k :: 0 <= k < |questions| && Answered(answers, questions[k]) ==>
      (questions[k], k) in AnsweredRows(questions, answers)
    decreases |questions|
  {
    if |questions| > 0 {
      var init := questions[..|questions| - 1];
      RowsGoBackToTheirQuestion(init, answers);
      forall k | 0 <= k < |questions| - 1
        ensures questions[k] == init[k]
      {
      }
    }
  }
}
