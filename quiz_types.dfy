/** The client-side records of a quiz (types/index.ts) that the quiz player
    and the editors share. Optional properties are `Option`s; a property the
    code tests for truthiness is read through `Truthy`. */
module QuizTypes {
  import opened Common

  datatype QuestionType =
    | MultipleChoice | Text | TrueFalse | Rating | MultiSelect | Content
    | SingleChoice | YesNo | Scale | Testimonial | Product

  /** One option of a choice question; the display-only `icon` and image
      properties are not modelled. */
  datatype AnswerOption = AnswerOption(value: string, labelText: string, score: Option<int>)

  datatype ElementId = BackButton | Image | Title | Description | Answers | Button

  datatype Location = CardArea | OutsideTop | OutsideBottom

  /** One entry of a question's layout `structure`. */
  datatype QuestionElement = QuestionElement(id: ElementId, visible: bool, location: Location, order: int)

  datatype Question = Question(
    id: string,
    quizId: string,
    text: string,
    description: Option<string>,
    imageUrl: Option<string>,
    buttonText: Option<string>,
    questionType: QuestionType,
    order: int,
    options: Option<seq<AnswerOption>>,
    isActive: bool,
    isRequired: Option<bool>,
    allowBack: Option<bool>,
    structure: Option<seq<QuestionElement>>)

  /** What an answer callback receives: a string, a list of strings, or
      `undefined` (the first selection of an empty list). */
  datatype AnswerValue = TextValue(text: string) | ListValue(items: seq<string>) | Undefined
}
