/** The quiz player (components/quiz/QuizEngine.tsx): a step counter over
    the quiz's questions and a three-state machine, question → lead capture
    → results, with the answers kept in a map keyed by question id. The
    300 ms delay before a step advances is not modelled: each handler
    applies its whole update at once. */
module QuizEngine {
  import opened Common
  import opened QuizTypes
  import opened QuestionCard

  datatype QuizState = Asking | LeadCapture | Results

  /** What the rendered page lets the respondent do. */
  datatype Action = AnswerQuestion | GoBack | ChangeSelection | TypeText | SubmitLead

  /** The payload of `submitResponse`; `timeTaken` is the rounded number of
      seconds since the player was mounted, read from the clock. */
  datatype ResponseSubmission = ResponseSubmission(
    quizId: string, answers: map<string, AnswerValue>, timeTaken: int, email: string, name: Option<string>)

  /** The actions the question card offers for a question, given whether
      the engine handed it an `onBack`, the typed text and the selection. */
  function CardActions(q: Question, onBackGiven: bool, textAnswer: string, selected: seq<string>): set<Action> {
    (if AnsweringShown(q, textAnswer, selected) then {AnswerQuestion} else {})
    + (if SelectingShown(q) then {ChangeSelection} else {})
    + (if TypingShown(q) then {TypeText} else {})
    + (if BackButtonShown(q, onBackGiven) then {GoBack} else {})
  }

  /** The actions each state offers. A step off the question list renders
      no question card (the page fails on `currentQuestion.id`), so it
      offers nothing; `onBack` is handed to the card only after the first
      question. */
  function OfferedActions(state: QuizState, step: int, questions: seq<Question>, textAnswer: string, selected: seq<string>): set<Action> {
    match state
    case Results => {}
    case LeadCapture => {SubmitLead}
    case Asking =>
      if 0 <= step < |questions| then CardActions(questions[step], step > 0, textAnswer, selected) else {}
  }

  /** `progress`: the share of questions up to and including the current one. */
  function StepProgress(step: int, count: nat): Option<real> {
    if count == 0 then None else Some(((step + 1) as real / count as real) * 100.0)
  }

  /** The results page is final; the lead form only submits. */
  lemma FinalStates(step: int, questions: seq<Question>, textAnswer: string, selected: seq<string>)
    ensures OfferedActions(Results, step, questions, textAnswer, selected) == {}
    ensures OfferedActions(LeadCapture, step, questions, textAnswer, selected) == {SubmitLead}
  {
  }

  /** Each control is offered exactly when the card draws it: Back on a
      question after the first that allows it and whose structure shows the
      `backButton` element; answering, selecting and typing when their
      `answers` or `button` control is drawn. */
  lemma BackOfferedIff(state: QuizState, step: int, questions: seq<Question>, textAnswer: string, selected: seq<string>)
    ensures GoBack in OfferedActions(state, step, questions, textAnswer, selected) <==>
      state == Asking && 0 < step < |questions| && questions[step].allowBack == Some(true) && Drawn(questions[step], BackButton)
    ensures AnswerQuestion in OfferedActions(state, step, questions, textAnswer, selected) <==>
      state == Asking && 0 <= step < |questions| && AnsweringShown(questions[step], textAnswer, selected)
    ensures ChangeSelection in OfferedActions(state, step, questions, textAnswer, selected) <==>
      state == Asking && 0 <= step < |questions| && SelectingShown(questions[step])
    ensures TypeText in OfferedActions(state, step, questions, textAnswer, selected) <==>
      state == Asking && 0 <= step < |questions| && TypingShown(questions[step])
    ensures SubmitLead in OfferedActions(state, step, questions, textAnswer, selected) <==> state == LeadCapture
  {
    if state == Asking && 0 <= step < |questions| {
      CardActionsIff(questions[step], step > 0, textAnswer, selected);
    }
  }

  lemma CardActionsIff(q: Question, onBackGiven: bool, textAnswer: string, selected: seq<string>)
    ensures GoBack in CardActions(q, onBackGiven, textAnswer, selected) <==> BackButtonShown(q, onBackGiven)
    ensures AnswerQuestion in CardActions(q, onBackGiven, textAnswer, selected) <==> AnsweringShown(q, textAnswer, selected)
    ensures ChangeSelection in CardActions(q, onBackGiven, textAnswer, selected) <==> SelectingShown(q)
    ensures TypeText in CardActions(q, onBackGiven, textAnswer, selected) <==> TypingShown(q)
    ensures SubmitLead !in CardActions(q, onBackGiven, textAnswer, selected)
  {
  }

  /** A question without a structure draws every element, so Back depends
      only on `allowBack` and the step; a question whose structure is empty
      draws nothing, and the player is stuck on it. */
  lemma StructureDecidesControls(step: int, questions: seq<Question>, textAnswer: string, selected: seq<string>)
    requires 0 <= step < |questions|
    ensures questions[step].structure.None? ==>
      (GoBack in OfferedActions(Asking, step, questions, textAnswer, selected) <==> step > 0 && questions[step].allowBack == Some(true))
    ensures questions[step].structure == Some([]) ==> OfferedActions(Asking, step, questions, textAnswer, selected) == {}
  {
    var q := questions[step];
    DrawnByDefault(q, BackButton);
    DrawnByDefault(q, Answers);
    DrawnByDefault(q, Button);
  }

  /** On a question, the bar is above zero and reaches 100 exactly on the
      last question. */
  lemma ProgressFullIffLast(step: int, count: nat)
    requires 0 <= step < count
    ensures StepProgress(step, count).Some?
    ensures 0.0 < StepProgress(step, count).value <= 100.0
    ensures StepProgress(step, count).value == 100.0 <==> step == count - 1
  {
    if step < count - 1 {
      ShareBelowOne((step + 1) as real, count as real);
    }
  }

  class Engine {
    const quizId: string
    /** `quiz.questions || []`. */
    const questions: seq<Question>
    var currentStep: int
    var answers: map<string, AnswerValue>
    var quizState: QuizState
    var textAnswer: string
    var selectedOptions: map<string, seq<string>>
    /** The `submitResponse` calls made so far. */
    var submissions: seq<ResponseSubmission>

    /** The step stays on a question of the quiz (on 0 when there is none). */
    ghost predicate Valid()
      reads this
    {
      0 <= currentStep && (currentStep < |questions| || currentStep == 0)
    }

    /** What the page offers; the card gets the stored selection of the
        current question. */
    function Offered(): set<Action>
      reads this
    {
      var selected := if 0 <= currentStep < |questions| then CurrentSelection() else [];
      OfferedActions(quizState, currentStep, questions, textAnswer, selected)
    }

    function Progress(): Option<real>
      reads this
    {
      StepProgress(currentStep, |questions|)
    }

    /** `selectedOptions[currentQuestion.id] || []`: a stored list is used as
        it is, even when empty. */
    function CurrentSelection(): seq<string>
      requires 0 <= currentStep < |questions|
      reads this
    {
      var id := questions[currentStep].id;
      if id in selectedOptions then selectedOptions[id] else []
    }

    constructor (quizId: string, questions: Option<seq<Question>>)
      ensures this.quizId == quizId && this.questions == questions.GetOr([])
      ensures currentStep == 0 && quizState == Asking && answers == map[]
      ensures textAnswer == "" && selectedOptions == map[] && submissions == []
      ensures Valid()
    {
      this.quizId := quizId;
      this.questions := questions.GetOr([]);
      currentStep := 0;
      answers := map[];
      quizState := Asking;
      textAnswer := "";
      selectedOptions := map[];
      submissions := [];
    }

    /** `handleAnswer`: records the answer under its question id, clears the
        typed text, and moves to the next question or, after the last one,
        to the lead form. */
    method HandleAnswer(questionId: string, value: AnswerValue)
      requires Valid() && AnswerQuestion in Offered()
      modifies this
      ensures Valid()
      ensures answers == old(answers)[questionId := value]
      ensures textAnswer == ""
      ensures old(currentStep) < |questions| - 1 ==> currentStep == old(currentStep) + 1 && quizState == Asking
      ensures old(currentStep) == |questions| - 1 ==> currentStep == old(currentStep) && quizState == LeadCapture
      ensures selectedOptions == old(selectedOptions) && submissions == old(submissions)
    {
      answers := answers[questionId := value];
      textAnswer := "";
      if currentStep < |questions| - 1 {
        currentStep := currentStep + 1;
      } else {
        quizState := LeadCapture;
      }
    }

    /** The card's Back button: one question back. */
    method Back()
      requires Valid() && GoBack in Offered()
      modifies this`currentStep
      ensures Valid()
      ensures currentStep == old(currentStep) - 1
    {
      currentStep := currentStep - 1;
    }

    /** `onSelectionChange`: stores the card's new selection under the
        current question's id. */
    method SelectionChange(newSelection: seq<string>)
      requires Valid() && ChangeSelection in Offered()
      modifies this`selectedOptions
      ensures selectedOptions == old(selectedOptions)[questions[currentStep].id := newSelection]
      ensures CurrentSelection() == newSelection
    {
      selectedOptions := selectedOptions[questions[currentStep].id := newSelection];
    }

    /** `onTextAnswerChange`. */
    method TextAnswerChange(value: string)
      requires Valid() && TypeText in Offered()
      modifies this`textAnswer
      ensures textAnswer == value
    {
      textAnswer := value;
    }

    /** `handleLeadSubmit`: sends the answers with the lead and shows the results. */
    method HandleLeadSubmit(email: string, firstName: Option<string>, timeTaken: int)
      requires Valid() && SubmitLead in Offered()
      modifies this`submissions, this`quizState
      ensures Valid()
      ensures submissions == old(submissions) + [ResponseSubmission(quizId, answers, timeTaken, email, firstName)]
      ensures quizState == Results && Offered() == {}
    {
      submissions := submissions + [ResponseSubmission(quizId, answers, timeTaken, email, firstName)];
      quizState := Results;
    }
  }
}
