/** The question editor (components/admin/QuestionEditor.tsx). Its state is
    a partial question whose options are JavaScript objects: the list is
    copied on each edit but the option objects are shared with whoever
    handed the question in, which is why options are a class here. */
module QuestionEditor {
  import opened Common
  import opened QuizTypes

  /** One answer option object. */
  class OptionBox {
    var value: string
    var labelText: string
    var score: Option<int>

    constructor (value: string, labelText: string, score: Option<int>)
      ensures this.value == value && this.labelText == labelText && this.score == score
    {
      this.value := value;
      this.labelText := labelText;
      this.score := score;
    }
  }

  datatype Condition = Is | Isnt

  /** A branching rule; its action is always `jump_to`. */
  datatype LogicRule = LogicRule(condition: Condition, value: string, target: string)

  /** `Partial<Question>` as the editor holds it. */
  datatype Draft = Draft(
    id: Option<string>,
    text: Option<string>,
    description: Option<string>,
    questionType: QuestionType,
    order: Option<int>,
    options: Option<seq<OptionBox>>,
    isActive: Option<bool>,
    isRequired: Option<bool>,
    allowBack: Option<bool>,
    logic: Option<seq<LogicRule>>)

  /** The types whose options a type change clears. */
  predicate HasNoOptions(t: QuestionType) {
    t == Rating || t == Content || t == Testimonial || t == Product || t == Scale
  }

  /** What a type change does to the options. */
  datatype OptionsReset = TrueFalseOptions | NoOptions | BlankOptions | KeepOptions

  function ResetFor(newType: QuestionType, current: Option<seq<OptionBox>>): OptionsReset {
    if newType == TrueFalse then TrueFalseOptions
    else if HasNoOptions(newType) then NoOptions
    else if current.None? || |current.value| == 0 then BlankOptions
    else KeepOptions
  }

  /** True/false always gets its own pair, the option-less types nothing, and
      any other type keeps a non-empty list or else gets two blank options. */
  lemma ResetCases(newType: QuestionType, current: Option<seq<OptionBox>>)
    ensures ResetFor(newType, current) == TrueFalseOptions <==> newType == TrueFalse
    ensures ResetFor(newType, current) == NoOptions <==> HasNoOptions(newType)
    ensures ResetFor(newType, current) == KeepOptions <==>
      newType != TrueFalse && !HasNoOptions(newType) && current.Some? && current.value != []
  {
  }

  /** Index of the first question whose id differs from `id`. */
  function FirstOtherIndex(allQuestions: seq<Draft>, id: Option<string>): (r: Option<nat>)
    ensures r.Some? ==> r.value < |allQuestions| && allQuestions[r.value].id != id
    ensures r.Some? ==> forall j :: 0 <= j < r.value ==> allQuestions[j].id == id
    ensures r.None? <==> forall j :: 0 <= j < |allQuestions| ==> allQuestions[j].id == id
  {
    if allQuestions == [] then None
    else if allQuestions[0].id != id then Some(0)
    else match FirstOtherIndex(allQuestions[1..], id)
      case None => None
      case Some(i) => Some(i + 1)
  }

  /** `allQuestions.find(q => q.id !== question.id)?.id || ''`. */
  function RuleTarget(allQuestions: seq<Draft>, id: Option<string>): string {
    match FirstOtherIndex(allQuestions, id)
    case None => ""
    case Some(i) => OrElse(allQuestions[i].id, "")
  }

  /** A new rule never targets the question itself, unless it has no id;
      it targets nothing only when every question shares its id or the
      first other one has none. */
  lemma RuleTargetIsAnotherQuestion(allQuestions: seq<Draft>, id: Option<string>)
    ensures RuleTarget(allQuestions, id) != "" ==>
      exists i :: 0 <= i < |allQuestions| && allQuestions[i].id == Some(RuleTarget(allQuestions, id)) && allQuestions[i].id != id
    ensures (forall j :: 0 <= j < |allQuestions| ==> allQuestions[j].id == id) ==> RuleTarget(allQuestions, id) == ""
  {
  }

  /** The editable property of an option that `ReplaceOption` copies in; the
      score input stores `parseInt(v) || 0`, where `None` is the `NaN` of an
      unparsable entry. */
  datatype OptionEdit = SetLabel(labelText: string) | SetValue(value: string) | SetScore(parsed: Option<int>)

  /** `!question.text`. */
  predicate HasText(q: Draft) {
    Truthy(q.text)
  }

  /** Two distinct blank options `option-1` and `option-2`. */
  predicate BlankPair(options: Option<seq<OptionBox>>)
    reads if options.Some? then set o | o in options.value else {}
  {
    && options.Some? && |options.value| == 2 && options.value[0] != options.value[1]
    && options.value[0].value == "option-1" && options.value[0].labelText == "" && options.value[0].score.None?
    && options.value[1].value == "option-2" && options.value[1].labelText == "" && options.value[1].score.None?
  }

  class Editor {
    var question: Draft
    const allQuestions: seq<Draft>

    /** The editor once mounted: the given question with a missing option
        list replaced by two blank options, or else the blank multiple
        choice question. */
    constructor (initialQuestion: Option<Draft>, allQuestions: seq<Draft>)
      ensures this.allQuestions == allQuestions
      ensures initialQuestion.Some? && initialQuestion.value.options.Some? ==> question == initialQuestion.value
      ensures initialQuestion.Some? && initialQuestion.value.options.None? ==>
        question == initialQuestion.value.(options := question.options) && BlankPair(question.options) &&
        fresh(question.options.value[0]) && fresh(question.options.value[1])
      ensures initialQuestion.None? ==>
        question == Draft(None, Some(""), None, MultipleChoice, None, question.options, Some(true), Some(true), Some(false), None) &&
        BlankPair(question.options) && fresh(question.options.value[0]) && fresh(question.options.value[1])
    {
      this.allQuestions := allQuestions;
      if initialQuestion.Some? && initialQuestion.value.options.Some? {
        question := initialQuestion.value;
      } else {
        var first := new OptionBox("option-1", "", None);
        var second := new OptionBox("option-2", "", None);
        if initialQuestion.Some? {
          question := initialQuestion.value.(options := Some([first, second]));
        } else {
          question := Draft(None, Some(""), None, MultipleChoice, None, Some([first, second]), Some(true), Some(true), Some(false), None);
        }
      }
    }

    /** The type select: the type becomes the new one and the options follow
        `ResetFor`; nothing else changes. */
    method ChangeType(newType: QuestionType)
      modifies this`question
      ensures question == old(question).(questionType := newType, options := question.options)
      ensures ResetFor(newType, old(question.options)) == KeepOptions ==> question.options == old(question.options)
      ensures ResetFor(newType, old(question.options)) == NoOptions ==> question.options == Some([])
      ensures ResetFor(newType, old(question.options)) == BlankOptions ==>
        BlankPair(question.options) && fresh(question.options.value[0]) && fresh(question.options.value[1])
      ensures ResetFor(newType, old(question.options)) == TrueFalseOptions ==>
        && question.options.Some? && |question.options.value| == 2
        && fresh(question.options.value[0]) && fresh(question.options.value[1])
        && question.options.value[0].value == "true" && question.options.value[0].labelText == "True"
        && question.options.value[0].score == Some(1)
        && question.options.value[1].value == "false" && question.options.value[1].labelText == "False"
        && question.options.value[1].score == Some(0)
    {
      var newOptions := question.options;
      match ResetFor(newType, question.options) {
      case TrueFalseOptions =>
        var yes := new OptionBox("true", "True", Some(1));
        var no := new OptionBox("false", "False", Some(0));
        newOptions := Some([yes, no]);
      case NoOptions =>
        newOptions := Some([]);
      case BlankOptions =>
        var first := new OptionBox("option-1", "", None);
        var second := new OptionBox("option-2", "", None);
        newOptions := Some([first, second]);
      case KeepOptions =>
      }
      question := question.(questionType := newType, options := newOptions);
    }

    /** `handleAddOption`: one new blank option at the end, whose value is
        `option-` followed by the clock reading `stamp`. */
    method AddOption(stamp: string) returns (added: OptionBox)
      modifies this`question
      ensures fresh(added) && added.value == "option-" + stamp && added.labelText == "" && added.score.None?
      ensures question == old(question).(options := Some(old(question.options).GetOr([]) + [added]))
    {
      added := new OptionBox("option-" + stamp, "", None);
      question := question.(options := Some(question.options.GetOr([]) + [added]));
    }

    /** `handleRemoveOption`: a copy of the list without element `index`. */
    method RemoveOption(index: nat)
      modifies this`question
      ensures question == old(question).(options := Some(RemoveAt(old(question.options).GetOr([]), index)))
    {
      var newOptions := question.options.GetOr([]);
      newOptions := RemoveAt(newOptions, index);
      question := question.(options := Some(newOptions));
    }

    /** `handleOptionChange` as written: the list is copied, but the label is
        written into the shared option object itself. */
    method OptionChangeInPlace(index: nat, labelText: string)
      requires question.options.Some? && index < |question.options.value|
      modifies this`question, question.options.value[index]
      ensures question == old(question)
      ensures question.options.value[index].labelText == labelText
      ensures question.options.value[index].value == old(question.options.value[index].value)
      ensures question.options.value[index].score == old(question.options.value[index].score)
    {
      var newOptions := question.options.value;
      newOptions[index].labelText := labelText;
      question := question.(options := Some(newOptions));
    }

    /** The option edits as the value and score inputs do them, and as the
        label edit is evidently meant: element `index` of a copied list
        becomes a new object with one property replaced. Nothing that
        existed before changes. */
    method ReplaceOption(index: nat, edit: OptionEdit) returns (replacement: OptionBox)
      requires question.options.Some? && index < |question.options.value|
      modifies this`question
      ensures fresh(replacement)
      ensures question == old(question).(options := Some(old(question.options.value)[index := replacement]))
      ensures var o := old(question.options.value[index]);
        match edit
        case SetLabel(l) => replacement.value == o.value && replacement.labelText == l && replacement.score == o.score
        case SetValue(v) => replacement.value == v && replacement.labelText == o.labelText && replacement.score == o.score
        case SetScore(n) => replacement.value == o.value && replacement.labelText == o.labelText && replacement.score == Some(n.GetOr(0))
    {
      var option := question.options.value[index];
      match edit {
        case SetLabel(l) => replacement := new OptionBox(option.value, l, option.score);
        case SetValue(v) => replacement := new OptionBox(v, option.labelText, option.score);
        case SetScore(n) => replacement := new OptionBox(option.value, option.labelText, Some(n.GetOr(0)));
      }
      var newOptions := question.options.value;
      newOptions := newOptions[index := replacement];
      question := question.(options := Some(newOptions));
    }

    /** `question.options?.[0]?.value || ''`. */
    function FirstOptionValue(): string
      reads this, if question.options.Some? && question.options.value != [] then {question.options.value[0]} else {}
    {
      if question.options.Some? && question.options.value != [] then question.options.value[0].value else ""
    }

    /** "+ Add Rule": one `is` rule for the first option's value, jumping to
        the first other question. */
    method AddRule()
      modifies this`question
      ensures question == old(question).(logic := Some(old(question.logic).GetOr([]) +
        [LogicRule(Is, old(FirstOptionValue()), RuleTarget(allQuestions, old(question.id)))]))
    {
      var newRule := LogicRule(Is, FirstOptionValue(), RuleTarget(allQuestions, question.id));
      question := question.(logic := Some(question.logic.GetOr([]) + [newRule]));
    }

    /** `handleSubmit`: the question handed to `onSave`, or nothing when it
        has no text. */
    method HandleSubmit() returns (saved: Option<Draft>)
      ensures saved.Some? <==> HasText(question)
      ensures saved.Some? ==> saved.value == question
    {
      if !Truthy(question.text) {
        return None;
      }
      saved := Some(question);
    }
  }

  /** The label edit as written leaks into the question it was opened on:
      after one keystroke and a cancel, the caller's own option object
      carries the new label although nothing was saved. */
  method AliasedLabelEdit(parentQuestion: Draft, index: nat, labelText: string) returns (editor: Editor)
    requires parentQuestion.options.Some? && index < |parentQuestion.options.value|
    modifies parentQuestion.options.value[index]
    ensures parentQuestion.options.value[index].labelText == labelText
  {
    editor := new Editor(Some(parentQuestion), []);
    editor.OptionChangeInPlace(index, labelText);
  }

  /** With the copying edit the caller's options stay as they were. */
  method CopiedLabelEdit(parentQuestion: Draft, index: nat, labelText: string) returns (editor: Editor)
    requires parentQuestion.options.Some? && index < |parentQuestion.options.value|
    ensures parentQuestion.options.value[index].labelText == old(parentQuestion.options.value[index].labelText)
    ensures editor.question.options.Some? && |editor.question.options.value| == |parentQuestion.options.value|
    ensures editor.question.options.value[index].labelText == labelText
  {
    editor := new Editor(Some(parentQuestion), []);
    var replacement := editor.ReplaceOption(index, SetLabel(labelText));
  }
}
