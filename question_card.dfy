/** The question card of the quiz player (components/quiz/QuestionCard.tsx):
    which controls it offers, what each click hands back to the engine, and
    how the layout elements are grouped. The card keeps no state of its own;
    the typed text and the selection are the engine's, passed in. */
module QuestionCard {
  import opened Common
  import opened Strings
  import opened Sorting
  import opened QuizTypes

  /** The single-choice types whose Next button waits for a selection when
      they carry a button text. */
  predicate IsGatedChoice(t: QuestionType) {
    t == MultipleChoice || t == TrueFalse || t == Rating
  }

  /** `isNextDisabled()`. */
  function IsNextDisabled(q: Question, textAnswer: string, selected: seq<string>): bool {
    if q.questionType == Text then Trim(JavaScript, textAnswer) == ""
    else if q.questionType == MultiSelect then |selected| == 0
    else if Truthy(q.buttonText) && IsGatedChoice(q.questionType) then |selected| == 0
    else false
  }

  /** The rule case by case: a text answer is missing when it is all
      whitespace; a selection is missing when it is empty; nothing else
      ever disables Next. */
  lemma NextDisabledCases(q: Question, textAnswer: string, selected: seq<string>)
    ensures q.questionType == Text ==> (IsNextDisabled(q, textAnswer, selected) <==> AllSpace(JavaScript, textAnswer))
    ensures q.questionType == MultiSelect ==> (IsNextDisabled(q, textAnswer, selected) <==> selected == [])
    ensures IsGatedChoice(q.questionType) && Truthy(q.buttonText) ==>
      (IsNextDisabled(q, textAnswer, selected) <==> selected == [])
    ensures IsNextDisabled(q, textAnswer, selected) ==>
      q.questionType == Text || q.questionType == MultiSelect || (IsGatedChoice(q.questionType) && Truthy(q.buttonText))
  {
    TrimEmptyIffAllSpace(JavaScript, textAnswer);
  }

  /** What a click hands to the engine. */
  datatype CardEvent =
    | Answered(questionId: string, value: AnswerValue)
    | SelectionChanged(selection: seq<string>)

  /** `handleSingleChoiceSelection`: with a button text the click only
      selects; without one it answers at once. */
  function SingleChoiceClick(q: Question, value: string): CardEvent {
    if Truthy(q.buttonText) then SelectionChanged([value]) else Answered(q.id, TextValue(value))
  }

  function Differs(value: string): string -> bool {
    v => v != value
  }

  /** The multi-select option click: drop the value if selected, else append it. */
  function Toggle(current: seq<string>, value: string): seq<string> {
    if value in current then Filter(current, Differs(value)) else current + [value]
  }

  function MultiSelectClick(selected: seq<string>, value: string): CardEvent {
    SelectionChanged(Toggle(selected, value))
  }

  /** The toggled value's membership flips. */
  lemma ToggleFlips(current: seq<string>, value: string)
    ensures value in Toggle(current, value) <==> value !in current
  {
  }

  /** Every other value keeps its place: filtering out the toggled value
      gives the same list before and after. */
  lemma ToggleKeepsOthers(current: seq<string>, value: string)
    ensures Filter(Toggle(current, value), Differs(value)) == Filter(current, Differs(value))
  {
    if value in current {
      FilterIdempotent(current, Differs(value));
    } else {
      FilterAppend(current, [value], Differs(value));
      assert Filter([value], Differs(value)) == [] by {
        assert [value][1..] == [];
      }
      assert Filter(current, Differs(value)) + [] == Filter(current, Differs(value));
    }
  }

  /** Selecting an unselected value and deselecting it again restores the list. */
  lemma ToggleTwice(current: seq<string>, value: string)
    requires value !in current
    ensures Toggle(Toggle(current, value), value) == current
  {
    ToggleKeepsOthers(current, value);
    FilterAll(current, Differs(value));
  }

  /** The answer a Skip click sends. */
  function SkipPayload(q: Question): AnswerValue {
    if q.questionType == MultiSelect then ListValue([]) else TextValue("")
  }

  /** The Submit click (and, for a text question, the form's submit): nothing
      while a text answer is blank; the selections joined by ',' for a
      multi-select; the first selection, possibly `undefined`, otherwise. */
  function SubmitClick(q: Question, textAnswer: string, selected: seq<string>): Option<CardEvent> {
    if q.questionType == Text then
      if !IsNextDisabled(q, textAnswer, selected) then Some(Answered(q.id, TextValue(textAnswer))) else None
    else if q.questionType == MultiSelect then Some(Answered(q.id, TextValue(Join(selected, ','))))
    else Some(Answered(q.id, if selected == [] then Undefined else TextValue(selected[0])))
  }

  /** The content type's only control. */
  function ContinueClick(q: Question): CardEvent {
    Answered(q.id, TextValue("continue"))
  }

  /** The `button` element: the content type's Continue button, the row of
      Skip and Submit, or nothing. */
  datatype ButtonArea =
    | ContinueButton
    | ButtonRow(showSkip: bool, showSubmit: bool, submitDisabled: bool)
    | NoButtons

  function Buttons(q: Question, textAnswer: string, selected: seq<string>): ButtonArea {
    if q.questionType == Content then ContinueButton
    else
      var disabled := IsNextDisabled(q, textAnswer, selected);
      var showSkip := q.isRequired == Some(false) && disabled;
      var showSubmit := q.questionType == Text || q.questionType == MultiSelect || Truthy(q.buttonText);
      if !showSkip && !showSubmit then NoButtons
      else ButtonRow(showSkip, showSubmit, disabled && q.isRequired != Some(false))
  }

  /** Skip appears exactly on an optional question whose Next is disabled,
      and then Submit is never disabled. */
  lemma SkipShownIff(q: Question, textAnswer: string, selected: seq<string>)
    requires q.questionType != Content
    ensures Buttons(q, textAnswer, selected).ButtonRow? && Buttons(q, textAnswer, selected).showSkip
      <==> q.isRequired == Some(false) && IsNextDisabled(q, textAnswer, selected)
    ensures Buttons(q, textAnswer, selected).ButtonRow? && Buttons(q, textAnswer, selected).showSkip ==>
      !Buttons(q, textAnswer, selected).submitDisabled
  {
  }

  /** A content question draws no `answers` block; Continue is its only
      control, and it answers with the text `continue`. */
  lemma ContentContinues(q: Question, textAnswer: string, selected: seq<string>)
    requires q.questionType == Content
    ensures Buttons(q, textAnswer, selected) == ContinueButton
    ensures !SelectingShown(q) && !TypingShown(q)
    ensures AnsweringShown(q, textAnswer, selected) <==> Drawn(q, Button)
    ensures ContinueClick(q) == Answered(q.id, TextValue("continue"))
  {
  }

  /** On an optional multi-select with nothing selected both buttons are
      shown and send different empty answers: Skip the empty list, Submit
      the empty joined text. Elsewhere Skip sends the empty text. */
  lemma SkipAndSubmitDiffer(q: Question, textAnswer: string)
    ensures q.questionType == MultiSelect && q.isRequired == Some(false) ==>
      && Buttons(q, textAnswer, []) == ButtonRow(true, true, false)
      && SkipPayload(q) == ListValue([])
      && SubmitClick(q, textAnswer, []) == Some(Answered(q.id, TextValue("")))
    ensures q.questionType != MultiSelect ==> SkipPayload(q) == TextValue("")
  {
  }

  /** A required question whose Submit is shown and enabled sends a real
      answer when it is a text, a multi-select or a gated choice: the typed
      text, the joined selections, or the first selection. */
  lemma EnabledSubmitAnswers(q: Question, textAnswer: string, selected: seq<string>)
    requires q.questionType == Text || q.questionType == MultiSelect || IsGatedChoice(q.questionType)
    requires q.isRequired != Some(false)
    requires Buttons(q, textAnswer, selected).ButtonRow?
    requires Buttons(q, textAnswer, selected).showSubmit && !Buttons(q, textAnswer, selected).submitDisabled
    ensures SubmitClick(q, textAnswer, selected).Some?
    ensures SubmitClick(q, textAnswer, selected).value.questionId == q.id
    ensures q.questionType == Text ==> SubmitClick(q, textAnswer, selected).value.value == TextValue(textAnswer) && !AllSpace(JavaScript, textAnswer)
    ensures q.questionType != Text && q.questionType != MultiSelect ==>
      selected != [] && SubmitClick(q, textAnswer, selected).value.value == TextValue(selected[0])
  {
    TrimEmptyIffAllSpace(JavaScript, textAnswer);
  }

  /** The other single-choice types are not gated: with a button text and
      nothing selected, Submit is enabled and sends `undefined`. */
  lemma UngatedChoiceMaySubmitUndefined(q: Question, textAnswer: string)
    requires q.questionType == SingleChoice || q.questionType == YesNo || q.questionType == Scale
    requires Truthy(q.buttonText)
    ensures Buttons(q, textAnswer, []) == ButtonRow(false, true, false)
    ensures SubmitClick(q, textAnswer, []) == Some(Answered(q.id, Undefined))
  {
  }

  /** An optional text question left blank offers Skip next to an enabled
      Submit, and that Submit sends nothing. */
  lemma OptionalBlankTextSubmitIsInert(q: Question, textAnswer: string, selected: seq<string>)
    requires q.questionType == Text && q.isRequired == Some(false)
    requires AllSpace(JavaScript, textAnswer)
    ensures Buttons(q, textAnswer, selected) == ButtonRow(true, true, false)
    ensures SubmitClick(q, textAnswer, selected).None?
  {
    TrimEmptyIffAllSpace(JavaScript, textAnswer);
    assert IsNextDisabled(q, textAnswer, selected);
  }

  /** With a button text, choosing an option of a gated choice selects
      exactly that value, which enables Next, and Submit then sends the
      value an immediate click would have sent without the button text. */
  lemma SelectThenSubmit(q: Question, textAnswer: string, value: string)
    requires IsGatedChoice(q.questionType) && Truthy(q.buttonText)
    ensures SingleChoiceClick(q, value) == SelectionChanged([value])
    ensures !IsNextDisabled(q, textAnswer, [value])
    ensures SubmitClick(q, textAnswer, [value]) == Some(SingleChoiceClick(q.(buttonText := None), value))
  {
  }

  // ---------------------------------------------------------------------
  // Layout

  /** The layout used when a question has no `structure`. */
  const DefaultStructure: seq<QuestionElement> := [
    QuestionElement(BackButton, true, CardArea, 0),
    QuestionElement(Image, true, CardArea, 1),
    QuestionElement(Title, true, CardArea, 2),
    QuestionElement(Description, true, CardArea, 3),
    QuestionElement(Answers, true, CardArea, 4),
    QuestionElement(Button, true, CardArea, 5)
  ]

  /** `question.structure || [...]`: a present structure is used even when
      it is empty, since an empty array is truthy. */
  function Structure(q: Question): seq<QuestionElement> {
    q.structure.GetOr(DefaultStructure)
  }

  /** Six elements, one per element id, all visible, all in the card, with
      orders 0..5. */
  lemma DefaultStructureShape(q: Question)
    requires q.structure.None?
    ensures |Structure(q)| == 6
    ensures forall i :: 0 <= i < 6 ==> Structure(q)[i].visible && Structure(q)[i].location == CardArea && Structure(q)[i].order == i
    ensures (set i | 0 <= i < 6 :: Structure(q)[i].id) == {BackButton, Image, Title, Description, Answers, Button}
    ensures forall i, j :: 0 <= i < j < 6 ==> Structure(q)[i].id != Structure(q)[j].id
  {
    var ids := set i | 0 <= i < 6 :: Structure(q)[i].id;
    assert Structure(q)[0].id in ids && Structure(q)[1].id in ids && Structure(q)[2].id in ids;
    assert Structure(q)[3].id in ids && Structure(q)[4].id in ids && Structure(q)[5].id in ids;
  }

  datatype CardLayout = CardLayout(outsideTop: seq<QuestionElement>, card: seq<QuestionElement>, outsideBottom: seq<QuestionElement>)

  function ElementOrder(e: QuestionElement): int {
    e.order
  }

  function InGroup(location: Location): QuestionElement -> bool {
    (e: QuestionElement) => e.location == location && e.visible
  }

  function IsVisible(e: QuestionElement): bool {
    e.visible
  }

  /** A copy sorted by `order`, then one `filter` per location. */
  function Layout(structure: seq<QuestionElement>): CardLayout {
    var sorted := SortBy(structure, ElementOrder);
    CardLayout(
      Filter(sorted, InGroup(OutsideTop)),
      Filter(sorted, InGroup(CardArea)),
      Filter(sorted, InGroup(OutsideBottom)))
  }

  function Group(layout: CardLayout, location: Location): seq<QuestionElement> {
    match location
    case OutsideTop => layout.outsideTop
    case CardArea => layout.card
    case OutsideBottom => layout.outsideBottom
  }

  /** Each group is in ascending order. */
  lemma LayoutGroupsSorted(structure: seq<QuestionElement>, location: Location)
    ensures SortedBy(Group(Layout(structure), location), ElementOrder)
  {
    SortBySorted(structure, ElementOrder);
    FilterSorted(SortBy(structure, ElementOrder), ElementOrder, InGroup(location));
  }

  /** Each group holds exactly the visible elements at its location. */
  lemma LayoutMembership(structure: seq<QuestionElement>, location: Location, e: QuestionElement)
    ensures e in Group(Layout(structure), location) <==> e in structure && e.visible && e.location == location
  {
    var sorted := SortBy(structure, ElementOrder);
    assert e in sorted <==> e in multiset(sorted);
  }

  /** The three groups together are a permutation of the visible elements:
      each visible element lands in exactly one group, as often as it
      occurs, and hidden ones in none. */
  lemma LayoutIsExact(structure: seq<QuestionElement>)
    ensures multiset(Layout(structure).outsideTop) + multiset(Layout(structure).card) + multiset(Layout(structure).outsideBottom)
         == multiset(Filter(structure, IsVisible))
  {
    var sorted := SortBy(structure, ElementOrder);
    var l := Layout(structure);
    var parts := multiset(l.outsideTop) + multiset(l.card) + multiset(l.outsideBottom);
    var visible := multiset(Filter(structure, IsVisible));
    FilterMultiset(sorted, InGroup(OutsideTop));
    FilterMultiset(sorted, InGroup(CardArea));
    FilterMultiset(sorted, InGroup(OutsideBottom));
    FilterMultiset(structure, IsVisible);
    forall e ensures parts[e] == visible[e] {
      assert multiset(sorted)[e] == multiset(structure)[e];
    }
    assert parts == visible;
  }

  /** Without a structure everything is drawn inside the card, in the
      default order. */
  lemma DefaultLayout(q: Question)
    requires q.structure.None?
    ensures Layout(Structure(q)) == CardLayout([], DefaultStructure, [])
  {
    DefaultStructureShape(q);
    CardOnlyLayout(Structure(q));
  }

  /** A structure already in order, with every element visible and in the
      card, is laid out as the card alone. */
  lemma CardOnlyLayout(s: seq<QuestionElement>)
    requires forall i :: 0 <= i < |s| ==> s[i].visible && s[i].location == CardArea && s[i].order == i
    ensures Layout(s) == CardLayout([], s, [])
  {
    assert SortedBy(s, ElementOrder);
    SortByOfSorted(s, ElementOrder);
    FilterAll(s, InGroup(CardArea));
    FilterNone(s, InGroup(OutsideTop));
    FilterNone(s, InGroup(OutsideBottom));
  }

  // ---------------------------------------------------------------------
  // Controls on the page

  /** `renderElement` runs for every entry of the three groups, so an
      element is drawn when some visible entry of the structure carries its id. */
  predicate Drawn(q: Question, id: ElementId) {
    exists e :: e in Structure(q) && e.visible && e.id == id
  }

  /** The same, read off the three groups of the layout. */
  lemma DrawnIffInLayout(q: Question, id: ElementId)
    ensures Drawn(q, id) <==> exists location, e :: e in Group(Layout(Structure(q)), location) && e.id == id
  {
    var structure := Structure(q);
    if Drawn(q, id) {
      var e :| e in structure && e.visible && e.id == id;
      LayoutMembership(structure, e.location, e);
    }
    forall location, e | e in Group(Layout(structure), location) && e.id == id
      ensures Drawn(q, id)
    {
      LayoutMembership(structure, location, e);
    }
  }

  /** Without a structure every element is drawn; with an empty one, none. */
  lemma DrawnByDefault(q: Question, id: ElementId)
    ensures q.structure.None? ==> Drawn(q, id)
    ensures q.structure == Some([]) ==> !Drawn(q, id)
  {
    if q.structure.None? {
      var s := DefaultStructure;
      var k := match id
        case BackButton => 0 case Image => 1 case Title => 2
        case Description => 3 case Answers => 4 case Button => 5;
      assert s[k] in Structure(q) && s[k].visible && s[k].id == id;
    }
  }

  /** The back button: the `backButton` element is drawn, the question
      allows going back and the engine handed the card an `onBack`. */
  predicate BackButtonShown(q: Question, onBackGiven: bool) {
    Drawn(q, BackButton) && q.allowBack == Some(true) && onBackGiven
  }

  /** The option buttons of the `answers` element: one per entry of `options`. */
  predicate HasOptions(q: Question) {
    q.options.Some? && |q.options.value| > 0
  }

  /** The text input of the `answers` element. */
  predicate TypingShown(q: Question) {
    Drawn(q, Answers) && q.questionType == Text
  }

  /** Option buttons that change the selection: the multi-select toggles,
      and the single-choice buttons of a question with a button text. The
      content type draws no `answers` block. */
  predicate SelectingShown(q: Question) {
    && Drawn(q, Answers) && HasOptions(q)
    && q.questionType != Text && q.questionType != Content
    && (q.questionType == MultiSelect || Truthy(q.buttonText))
  }

  /** Whether the `button` element holds a control that calls `onAnswer`:
      Continue, Skip, or an enabled Submit whose click sends something. */
  predicate ButtonAnswers(q: Question, textAnswer: string, selected: seq<string>) {
    match Buttons(q, textAnswer, selected)
    case ContinueButton => true
    case NoButtons => false
    case ButtonRow(showSkip, showSubmit, submitDisabled) =>
      showSkip || (showSubmit && !submitDisabled && SubmitClick(q, textAnswer, selected).Some?)
  }

  /** Some drawn control answers the question: the text form submitted
      while Next is enabled, a single-choice button without a button text,
      or the `button` element. */
  predicate AnsweringShown(q: Question, textAnswer: string, selected: seq<string>) {
    || (TypingShown(q) && !IsNextDisabled(q, textAnswer, selected))
    || (Drawn(q, Answers) && HasOptions(q) && q.questionType != Text && q.questionType != Content
        && q.questionType != MultiSelect && !Truthy(q.buttonText))
    || (Drawn(q, Button) && ButtonAnswers(q, textAnswer, selected))
  }

  /** A text question whose `button` element is hidden is still answered by
      submitting its form, with the typed text, once that is not blank. */
  lemma TextFormAnswersWithoutButton(q: Question, textAnswer: string, selected: seq<string>)
    requires q.questionType == Text && Drawn(q, Answers) && !Drawn(q, Button)
    ensures AnsweringShown(q, textAnswer, selected) <==> !AllSpace(JavaScript, textAnswer)
    ensures AnsweringShown(q, textAnswer, selected) ==>
      SubmitClick(q, textAnswer, selected) == Some(Answered(q.id, TextValue(textAnswer)))
  {
    NextDisabledCases(q, textAnswer, selected);
  }

  /** With both the `answers` and the `button` element hidden nothing can
      answer; with the `button` element drawn a content question is always
      answerable by Continue, and an optional one by Skip while its Next is
      disabled. */
  lemma AnsweringNeedsAnElement(q: Question, textAnswer: string, selected: seq<string>)
    ensures !Drawn(q, Answers) && !Drawn(q, Button) ==> !AnsweringShown(q, textAnswer, selected)
    ensures Drawn(q, Button) && q.questionType == Content ==> AnsweringShown(q, textAnswer, selected)
    ensures Drawn(q, Button) && q.isRequired == Some(false) && IsNextDisabled(q, textAnswer, selected) ==>
      AnsweringShown(q, textAnswer, selected)
  {
  }
}
