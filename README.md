# Quiz funnel platform — a Dafny model of its core

This project models the core of a lead-generation quiz platform.

- **The legacy server** (`legacy_python/main.py`) is a small FastAPI app:
  - the public funnel: intro, question pages, lead form, results;
  - the admin forms that create and edit quizzes and questions;
  - an analytics page that ranks quizzes by their number of leads.
- **The quiz player**:
  - `QuizEngine.tsx` steps through a quiz's questions, then shows a lead form, then the results;
  - `QuestionCard.tsx` decides which controls a question shows, what each click hands back, and how the layout elements are grouped.
- **The business-email check** (`lib/email-utils.ts`).
- **The admin editors**: A/B tests, one question, the question list, the lead form, the thank-you pages, the HubSpot integration and the visual design.

## How the model is organised

One module per core file. Three helper modules, `Common`, `Strings` and `Sorting`, hold:
- the JavaScript idioms: `x || default` is `Option.GetOr`, and string truthiness is `Truthy`/`OrElse`;
- `filter` and `map`;
- Python's `strip` and JavaScript's `trim`, each with its own whitespace set, and `split` and `lower`;
- a stable insertion sort that stands for `list.sort` and `Array.prototype.sort`.

Pure code is written as datatypes, functions and lemmas:
- the e-mail check;
- the question card;
- the design editor;
- the read-only handlers of the legacy server.

Code that keeps state is written as a `class` whose methods change their fields. Each such method names what it changes in `modifies` and states the whole new state in `ensures`:
- the store of the legacy server;
- the quiz engine;
- every admin editor that holds React state.

More modelling choices:
- **Parent state.** A component hands new data to its parent through `onUpdate`. The model treats that data as the component's own field, since the parent passes it back as the prop. When the source sends the same value to its own state and to the parent, the field that records the parent calls is `published`, `saveRequests` or `submissions`.
- **Outside inputs.** Clock readings, confirmation dialogs and server answers are parameters: `stamp` is the text of `Date.now()`; `confirmed` is the answer to `confirm(...)`; `result` is the awaited server response.
- **Legacy tables.** These are sequences in row order. `.first()` is the first matching row.
- **Legacy unique slug.** The slug column carries a unique constraint (`legacy_python/app/db_models.py:10`). Creating a quiz whose slug is taken is modelled as a server error.

## Model

| member | source | states |
|---|---|---|
| LegacyApp.QuizIndex | legacy_python/main.py:194 | the row `.first()` finds for a slug: it has the slug and no earlier row has it; none exactly when no row has the slug |
| LegacyApp.QuestionIndex | legacy_python/main.py:210-213 | the first question row with both the quiz id and the order; none exactly when no row matches both |
| LegacyApp.QuizIntro | legacy_python/main.py:192-197 | the intro page of the slug's quiz, or the 404; stated by `KnownSlugPages` and `UnknownSlugIsNotFound` |
| LegacyApp.StartQuiz | legacy_python/main.py:199-202 | a redirect to order 1 without any lookup; stated by `KnownSlugPages`, and by `UnknownSlugIsNotFound`, which shows that even an unknown slug is redirected, and that the next page is then the 404 |
| LegacyApp.ShowQuestion | legacy_python/main.py:204-230 | the question at the order with its progress, the lead-form redirect when no row has that order, or the 404; stated by `QuestionRenders`, `PastLastGoesToLeadForm` and `UnknownSlugIsNotFound` |
| LegacyApp.SubmitAnswer | legacy_python/main.py:232-238 | a redirect to the next order, whatever the answer; stated by `KnownSlugPages`, `UnknownSlugIsNotFound` and `WalkFromOrder` |
| LegacyApp.ShowLeadForm | legacy_python/main.py:240-245 | the lead form of the slug's quiz, or the 404; stated by `KnownSlugPages` and `UnknownSlugIsNotFound` |
| LegacyApp.ShowResults | legacy_python/main.py:270-275 | the results page of the slug's quiz, or the 404; stated by `KnownSlugPages` and `UnknownSlugIsNotFound` |
| LegacyApp.Progress | legacy_python/main.py:219-221 | the share of questions before the order, in percent, and 0 for a quiz without questions; stated by `ProgressExamples` and `QuestionRenders` |
| LegacyApp.UnknownSlugIsNotFound | legacy_python/main.py:192-275 | for an unknown slug, the intro, question, lead-form and results pages all answer the 404 |
| LegacyApp.KnownSlugPages | legacy_python/main.py:192-275 | a known slug renders its own quiz row on the intro, lead-form and results pages; start leads to order 1 and an answer to the next order, whatever the answer |
| LegacyApp.QuestionRenders | legacy_python/main.py:204-230 | for a quiz whose questions have orders 1..n, order k renders the question with that order, and its progress (k-1)/n·100 lies in [0, 100) |
| LegacyApp.PastLastGoesToLeadForm | legacy_python/main.py:215-217 | the order after the last question redirects to the lead form, and so does order 1 of an empty quiz |
| LegacyApp.ProgressExamples | legacy_python/main.py:219-221 | the progress bar at 1, 3 and 5 of 5 questions reads 0, 40 and 80; with no questions it reads 0 |
| LegacyApp.WalkFromOrder | legacy_python/main.py:204-238 | following the funnel from order k shows questions k..n once each, in order, then reaches the lead form |
| LegacyApp.StartWalksWholeQuiz | legacy_python/main.py:199-202 | starting a quiz shows all its questions in order, then the lead form |
| LegacyApp.ParsedAnswers | legacy_python/main.py:170-176 | the parsed `answers` column: its entries and labels are stated by `ParsedAnswersWellFormed`, and blank segments are dropped by `BlankSegmentDropped` |
| LegacyApp.ParseAnswers | legacy_python/main.py:170-176 | the parse loop yields `ParsedAnswers`: one entry per comma segment that is not blank once trimmed |
| LegacyApp.ParsedLabels | legacy_python/main.py:173-176 | the labels are the trimmed non-blank segments, in input order |
| LegacyApp.ParsedEntriesWellFormed | legacy_python/main.py:174-176 | every entry's label is non-empty, trimmed and comma-free; its value is the lower-cased label with spaces made underscores |
| LegacyApp.ParsedAnswersWellFormed | legacy_python/main.py:170-176 | the two properties above for the whole raw text |
| LegacyApp.EmptyGuardIsRedundant | legacy_python/main.py:172 | the `if answers:` guard changes nothing: the empty text would parse to no entries anyway |
| LegacyApp.BlankSegmentDropped | legacy_python/main.py:173-176 | a segment made only of Python whitespace, including U+001C..U+001F and U+0085, adds no entry wherever it sits |
| Strings.RuntimesDiffer | legacy_python/main.py:174 | Python's `strip()` removes U+001F and keeps U+FEFF; JavaScript's `trim()` (`QuestionCard.tsx:119`) does the opposite |
| LegacyApp.Stats | legacy_python/main.py:82-86 | one row per quiz, in quiz order, holding the quiz's name and its number of leads |
| LegacyApp.AnalyticsDashboard | legacy_python/main.py:79-95 | the counting loop, the sort and the `[:5]` cut give `TopQuizzes` |
| LegacyApp.TopQuizzes | legacy_python/main.py:88-93 | the five quizzes with the most leads, stably ranked; stated by `TopQuizzesOrdered`, `TopQuizzesFromTable`, `TopQuizzesAreTop` and `RankingIsStable` |
| LegacyApp.TopQuizzesOrdered | legacy_python/main.py:88-93 | at most five rows (min(5, number of quizzes)), by non-increasing lead count |
| LegacyApp.TopQuizzesFromTable | legacy_python/main.py:84-93 | every row shown is some quiz's name and lead count, and no row shows up more often than in the full table |
| LegacyApp.TopQuizzesAreTop | legacy_python/main.py:89-93 | every row left out has no more leads than the last row shown |
| LegacyApp.RankingIsStable | legacy_python/main.py:89 | for every sort key, that is every lead count, the quizzes with that count appear in the ranking in their table order |
| LegacyApp.LeadCountAppend | legacy_python/main.py:85 | one more lead adds one to its own quiz's count and to no other |
| LegacyApp.UpdatedQuizzes | legacy_python/main.py:122-136 | the quiz table after an edit: only the first row with the slug takes the new values; stated by `UpdateKeepsIdentity` and `EditDoesNotCascade` |
| LegacyApp.UpdateKeepsIdentity | legacy_python/main.py:130-135 | an edit keeps the number of rows and every row's id and slug, so every slug lookup is unchanged |
| LegacyApp.SameSlugsSameIndex | legacy_python/main.py:130 | two tables with the same slugs in the same rows find the same row for any slug |
| LegacyApp.EditDoesNotCascade | legacy_python/main.py:122-136 | renaming or deactivating a quiz leaves every question page rendering the same question with the same progress |
| LegacyApp.Store.constructor | legacy_python/main.py:9-10 | the three tables start empty |
| LegacyApp.Store.CreateQuiz | legacy_python/main.py:101-113 | a new slug appends the quiz and redirects to the dashboard; a taken slug is a server error that adds nothing |
| LegacyApp.Store.UpdateQuiz | legacy_python/main.py:122-136 | only the first row with the slug gets the new name, description and active flag; an unknown slug changes nothing; the answer is always the dashboard redirect |
| LegacyApp.Store.CreateQuestion | legacy_python/main.py:157-190 | an unknown slug is the 404 and adds nothing; otherwise one active row with the parsed answers is appended and the question list is the redirect |
| LegacyApp.Store.SubmitLeadForm | legacy_python/main.py:247-268 | an unknown slug is the 404; otherwise exactly one lead row is appended, never deduplicated, and the results page is the redirect |
| LegacyApp.SameEmailTwice | legacy_python/main.py:259-266 | two submissions with one e-mail add two rows and raise the quiz's lead count by two |
| EmailUtils.Domain | lib/email-utils.ts:19 | the lower-cased segment after the first '@', or none without one; stated by `DomainOf` and `NoAtIsNotBusiness` |
| EmailUtils.IsBusinessEmail | lib/email-utils.ts:18-26 | the business-address verdict; stated by `IsBusinessEmailIff` and the lemmas below it |
| EmailUtils.DomainOf | lib/email-utils.ts:19 | the domain of `local@rest` is the lower-cased start of `rest` up to its next '@' |
| EmailUtils.NoAtIsNotBusiness | lib/email-utils.ts:18-23 | an address without '@' is not a business address |
| EmailUtils.IsBusinessEmailIff | lib/email-utils.ts:18-26 | `local@rest` is a business address exactly when its lower-cased domain segment is non-empty and not a listed provider |
| EmailUtils.EmptyDomainIsNotBusiness | lib/email-utils.ts:19-23 | `x@` and `x@@y` are not business addresses |
| EmailUtils.LocalPartIrrelevant | lib/email-utils.ts:19 | the part before the first '@' never changes the verdict |
| EmailUtils.DomainCaseIrrelevant | lib/email-utils.ts:19 | the letter case of the domain never changes the verdict |
| EmailUtils.DomainVerdict | lib/email-utils.ts:2-26 | for an '@'-free domain the verdict depends only on its lower-cased form and the 13-entry list |
| EmailUtils.SubdomainIsBusiness | lib/email-utils.ts:2-25 | the list is matched exactly, not as a suffix: `mail.gmail.com` is a business domain |
| EmailUtils.ProviderInAnyCase | lib/email-utils.ts:2-25 | the domain is lower-cased before the lookup: `GMail.com` is not a business domain |
| QuizEngine.FinalStates | components/quiz/QuizEngine.tsx:57-79 | the results page offers nothing; the lead form only submits |
| QuizEngine.CardActions | components/quiz/QuizEngine.tsx:159-172 | the actions the question card offers; stated by `CardActionsIff` |
| QuizEngine.CardActionsIff | components/quiz/QuestionCard.tsx:138-334 | Back, answering, selecting and typing are offered exactly when the card draws the control for them |
| QuizEngine.OfferedActions | components/quiz/QuizEngine.tsx:57-172 | the actions each page offers; stated by `FinalStates`, `BackOfferedIff` and `StructureDecidesControls` |
| QuizEngine.BackOfferedIff | components/quiz/QuizEngine.tsx:159-172 | Back is offered exactly on a question after the first that allows going back and whose structure draws the `backButton` element; answering, selecting and typing exactly while a question is shown whose drawn `answers` or `button` element holds such a control; the lead form exactly in the lead state |
| QuizEngine.StructureDecidesControls | components/quiz/QuestionCard.tsx:129-150 | without a structure Back depends only on `allowBack` and the step; a question with an empty structure offers nothing |
| QuizEngine.StepProgress | components/quiz/QuizEngine.tsx:27 | the share of questions up to the current one; stated by `ProgressFullIffLast` |
| QuizEngine.ProgressFullIffLast | components/quiz/QuizEngine.tsx:27 | on a question the bar is above 0 and at most 100, and reaches 100 exactly on the last question |
| QuizEngine.Engine.constructor | components/quiz/QuizEngine.tsx:18-25 | step 0, the question state, no answers or selections, empty text; missing questions read as none |
| QuizEngine.Engine.HandleAnswer | components/quiz/QuizEngine.tsx:29-39 | stores the answer under its question id and clears the text; moves one step on, or after the last question to the lead form; the step stays on a question |
| QuizEngine.Engine.Back | components/quiz/QuizEngine.tsx:172 | one step back, still on a question |
| QuizEngine.Engine.SelectionChange | components/quiz/QuizEngine.tsx:166-171 | stores the new selection under the current question's id, which the card then receives |
| QuizEngine.Engine.TextAnswerChange | components/quiz/QuizEngine.tsx:165 | the typed text becomes the value |
| QuizEngine.Engine.HandleLeadSubmit | components/quiz/QuizEngine.tsx:41-55 | sends exactly one submission with the quiz id, all answers, the time taken and the lead, then shows the results, which offer nothing |
| QuestionCard.IsNextDisabled | components/quiz/QuestionCard.tsx:118-126 | whether Next waits for input; stated by `NextDisabledCases` |
| QuestionCard.SingleChoiceClick | components/quiz/QuestionCard.tsx:108-116 | the event of a single-choice click; stated by `SelectThenSubmit` |
| QuestionCard.Toggle | components/quiz/QuestionCard.tsx:209-211 | the selection after a multi-select click; stated by `ToggleFlips`, `ToggleKeepsOthers` and `ToggleTwice` |
| QuestionCard.MultiSelectClick | components/quiz/QuestionCard.tsx:207-213 | hands the toggled selection to the engine; stated by the three `Toggle` lemmas |
| QuestionCard.NextDisabledCases | components/quiz/QuestionCard.tsx:118-126 | Next is disabled for a text question exactly when the text is all whitespace; for a multi-select or a gated choice with a button text, exactly when nothing is selected; never otherwise |
| QuestionCard.ToggleFlips | components/quiz/QuestionCard.tsx:207-213 | a multi-select click flips the clicked value's membership |
| QuestionCard.ToggleKeepsOthers | components/quiz/QuestionCard.tsx:207-213 | the other values keep their order and multiplicity |
| QuestionCard.ToggleTwice | components/quiz/QuestionCard.tsx:207-213 | selecting an unselected value and then deselecting it restores the selection |
| QuestionCard.Buttons | components/quiz/QuestionCard.tsx:252-303 | what the `button` element shows; stated by `SkipShownIff`, `ContentContinues` and `OptionalBlankTextSubmitIsInert` |
| QuestionCard.SkipPayload | components/quiz/QuestionCard.tsx:278 | what Skip sends; stated by `SkipAndSubmitDiffer` |
| QuestionCard.SubmitClick | components/quiz/QuestionCard.tsx:284-294 | what Submit sends; stated by `EnabledSubmitAnswers`, `UngatedChoiceMaySubmitUndefined` and `SkipAndSubmitDiffer` |
| QuestionCard.ContinueClick | components/quiz/QuestionCard.tsx:254-264 | what Continue sends; stated by `ContentContinues` |
| QuestionCard.ContentContinues | components/quiz/QuestionCard.tsx:179-264 | a content question draws no `answers` block; Continue is its only control and answers `continue`, and it can answer exactly when the `button` element is drawn |
| QuestionCard.SkipAndSubmitDiffer | components/quiz/QuestionCard.tsx:275-294 | an optional multi-select with nothing selected shows both buttons: Skip sends the empty list, Submit the empty joined text; elsewhere Skip sends the empty text |
| QuestionCard.SkipShownIff | components/quiz/QuestionCard.tsx:268-295 | Skip is shown exactly on an optional question whose Next is disabled, and Submit is then never disabled |
| QuestionCard.EnabledSubmitAnswers | components/quiz/QuestionCard.tsx:284-295 | an enabled Submit on a required text, multi-select or gated question sends a real answer: the non-blank text, the joined selections, or the first selection |
| QuestionCard.UngatedChoiceMaySubmitUndefined | components/quiz/QuestionCard.tsx:118-126 | single choice, yes/no and scale are not gated: with a button text and no selection, Submit is enabled and sends `undefined` |
| QuestionCard.OptionalBlankTextSubmitIsInert | components/quiz/QuestionCard.tsx:284-295 | an optional blank text question offers Skip beside an enabled Submit that sends nothing |
| QuestionCard.SelectThenSubmit | components/quiz/QuestionCard.tsx:108-116 | with a button text a choice click only selects, which enables Next; Submit then sends what an immediate click would have sent |
| QuestionCard.Structure | components/quiz/QuestionCard.tsx:129-136 | the structure drawn; stated by `DefaultStructureShape`, `DefaultLayout` and `DrawnByDefault` |
| QuestionCard.Layout | components/quiz/QuestionCard.tsx:310-313 | the three groups; stated by `LayoutGroupsSorted`, `LayoutMembership` and `LayoutIsExact` |
| QuestionCard.DefaultStructureShape | components/quiz/QuestionCard.tsx:129-136 | a question without a structure gets six visible card elements, one per element id, with orders 0..5 |
| QuestionCard.LayoutGroupsSorted | components/quiz/QuestionCard.tsx:310-313 | each of the three groups is in ascending order |
| QuestionCard.LayoutMembership | components/quiz/QuestionCard.tsx:311-313 | a group holds exactly the visible elements at its location |
| QuestionCard.LayoutIsExact | components/quiz/QuestionCard.tsx:310-313 | the three groups together are a permutation of the visible elements |
| QuestionCard.DefaultLayout | components/quiz/QuestionCard.tsx:129-136 | without a structure everything is drawn in the card, in the default order |
| QuestionCard.CardOnlyLayout | components/quiz/QuestionCard.tsx:310-313 | a structure already in order, all visible and all in the card, is laid out as the card alone, unchanged |
| QuestionCard.DrawnIffInLayout | components/quiz/QuestionCard.tsx:310-334 | an element is drawn exactly when one of the three groups holds an entry with its id |
| QuestionCard.DrawnByDefault | components/quiz/QuestionCard.tsx:129-136 | without a structure every element is drawn; with an empty structure none is |
| QuestionCard.BackButtonShown | components/quiz/QuestionCard.tsx:140-150 | Back is drawn when the `backButton` element is, the question allows going back and `onBack` is given; stated by `BackOfferedIff` and `StructureDecidesControls` |
| QuestionCard.AnsweringShown | components/quiz/QuestionCard.tsx:178-303 | whether a drawn control answers: the text form, a single-choice button without a button text, or the `button` element; stated by `TextFormAnswersWithoutButton` and `AnsweringNeedsAnElement` |
| QuestionCard.TextFormAnswersWithoutButton | components/quiz/QuestionCard.tsx:183-187 | a text question whose `button` element is hidden is still answered by submitting its form, exactly when the text is not blank, and with the typed text |
| QuestionCard.AnsweringNeedsAnElement | components/quiz/QuestionCard.tsx:178-303 | with `answers` and `button` both hidden nothing answers; with `button` drawn, a content question, or an optional one whose Next is disabled, can always be answered |
| AbTestEditor.InitialState | components/admin/AbTestEditor.tsx:17-23 | each given property or its default; stated by `DefaultsAddUp` and the constructor |
| AbTestEditor.Validate | components/admin/AbTestEditor.tsx:25-43 | the first failing check, or none; stated by `ValidateIff` |
| AbTestEditor.TotalTraffic | components/admin/AbTestEditor.tsx:33 | the sum of the variants' traffic; stated by `TotalTrafficConcat`, `AddKeepsTotal`, `RemoveTakesShare` and `ReplaceChangesShare` |
| AbTestEditor.ValidateIff | components/admin/AbTestEditor.tsx:25-43 | a save passes exactly when name and slug are set, the traffic adds up to 100 and every variant has a quiz; each failure is reported only after the earlier checks pass, and the message carries the total |
| AbTestEditor.TotalTrafficConcat | components/admin/AbTestEditor.tsx:33 | the traffic of two variant lists together is the sum of their traffic |
| AbTestEditor.DefaultsAddUp | components/admin/AbTestEditor.tsx:17-23 | the default two variants add up to 100, and a fresh test fails on its missing name and slug |
| AbTestEditor.AddKeepsTotal | components/admin/AbTestEditor.tsx:57-62 | the added blank variant leaves the total as it was |
| AbTestEditor.RemoveTakesShare | components/admin/AbTestEditor.tsx:64-68 | removing a variant takes exactly its share off the total |
| AbTestEditor.ReplaceChangesShare | components/admin/AbTestEditor.tsx:70-74 | editing a variant changes the total by the difference of the shares |
| AbTestEditor.Editor.constructor | components/admin/AbTestEditor.tsx:17-23 | each given property of the test, or its default |
| AbTestEditor.Editor.HandleSave | components/admin/AbTestEditor.tsx:25-55 | a failing check is reported and nothing is sent; otherwise the test is sent once, and success navigates back while failure shows the server's message or the fallback |
| AbTestEditor.Editor.AddVariant | components/admin/AbTestEditor.tsx:57-62 | one blank variant appended; the total is kept |
| AbTestEditor.Editor.RemoveVariant | components/admin/AbTestEditor.tsx:64-68 | the variant at the index is removed, and nothing else changes |
| AbTestEditor.Editor.UpdateVariant | components/admin/AbTestEditor.tsx:70-74 | one field of the variant at the index is replaced, and nothing else changes |
| QuestionEditor.ResetFor | components/admin/QuestionEditor.tsx:92-109 | the options after a type change; stated by `ResetCases` |
| QuestionEditor.RuleTarget | components/admin/QuestionEditor.tsx:320-326 | the target of a new rule; stated by `RuleTargetIsAnotherQuestion` |
| QuestionEditor.ResetCases | components/admin/QuestionEditor.tsx:92-109 | a type change gives true/false its own pair and the option-less types no options; any other type keeps a non-empty list, or else gets two blank options |
| QuestionEditor.FirstOtherIndex | components/admin/QuestionEditor.tsx:324 | the first question whose id differs from the edited one; none exactly when every id matches |
| QuestionEditor.RuleTargetIsAnotherQuestion | components/admin/QuestionEditor.tsx:320-326 | a new rule's non-empty target is another question's id, and it is empty when no other question exists |
| QuestionEditor.Editor.constructor | components/admin/QuestionEditor.tsx:26-50 | once mounted, the given question, with a missing option list replaced by two fresh blank options; without a question, the blank multiple-choice question |
| QuestionEditor.Editor.ChangeType | components/admin/QuestionEditor.tsx:92-109 | the type becomes the new one; the options become fresh objects, empty, or unchanged, as `ResetFor` says; nothing else changes |
| QuestionEditor.Editor.AddOption | components/admin/QuestionEditor.tsx:52-61 | one fresh blank option `option-<stamp>` appended |
| QuestionEditor.Editor.RemoveOption | components/admin/QuestionEditor.tsx:63-67 | a copy of the options without the index |
| QuestionEditor.Editor.OptionChangeInPlace | components/admin/QuestionEditor.tsx:69-73 | as written: the list is re-wrapped, but the label is written into the shared option object |
| QuestionEditor.Editor.ReplaceOption | components/admin/QuestionEditor.tsx:214-231 | the option at the index becomes a fresh object with one property replaced, the score stored as `parseInt(v) \|\| 0`; no existing object changes |
| QuestionEditor.Editor.AddRule | components/admin/QuestionEditor.tsx:318-330 | appends one `is` rule on the first option's value that jumps to the first other question |
| QuestionEditor.Editor.HandleSubmit | components/admin/QuestionEditor.tsx:75-79 | the question is handed to `onSave` exactly when it has text |
| QuestionEditor.AliasedLabelEdit | components/admin/QuestionEditor.tsx:69-73 | one label keystroke changes the caller's own option object, though nothing was saved |
| QuestionEditor.CopiedLabelEdit | components/admin/QuestionEditor.tsx:214-217 | with the copying edit the caller's option keeps its label while the editor shows the new one |
| QuestionList.Created | components/admin/QuestionList.tsx:20-23 | the list after a create; stated by `CreateAppends` |
| QuestionList.Edited | components/admin/QuestionList.tsx:24-30 | the list after an edit; stated by `EditReplacesById` and `EditOfUnknownIdIsNoOp` |
| QuestionList.Deleted | components/admin/QuestionList.tsx:33-37 | the list after a delete; stated by `DeleteRemovesOnlyThatId` and `DeleteOfUnknownIdIsNoOp` |
| QuestionList.CreateAppends | components/admin/QuestionList.tsx:20-23 | a create appends exactly one question, with id `q-<stamp>` and the next 1-based order, and keeps everything else the editor saved |
| QuestionList.EditReplacesById | components/admin/QuestionList.tsx:24-30 | an edit keeps the length and all ids, replaces exactly the questions with the saved id, and leaves the others alone |
| QuestionList.EditOfUnknownIdIsNoOp | components/admin/QuestionList.tsx:25-27 | editing an id that is not in the list changes nothing |
| QuestionList.DeleteRemovesOnlyThatId | components/admin/QuestionList.tsx:33-37 | a delete removes every question with the id and keeps each other one as often as it occurred |
| QuestionList.DeleteOfUnknownIdIsNoOp | components/admin/QuestionList.tsx:33-37 | deleting an unknown id changes nothing |
| QuestionList.Panel.constructor | components/admin/QuestionList.tsx:16-17 | nothing being edited or created |
| QuestionList.Panel.StartCreate | components/admin/QuestionList.tsx:43-51 | "Add Question", shown only when idle, opens the new-question editor |
| QuestionList.Panel.StartEdit | components/admin/QuestionList.tsx:96 | a question's edit button opens that question |
| QuestionList.Panel.CancelEdit | components/admin/QuestionList.tsx:65-72 | the edit editor's cancel leaves edit mode |
| QuestionList.Panel.CancelCreate | components/admin/QuestionList.tsx:114-126 | the new-question editor's cancel leaves create mode |
| QuestionList.Panel.HandleSaveQuestionAsWritten | components/admin/QuestionList.tsx:19-31 | as written: the save is a create whenever the new-question editor is open, whichever editor saved |
| QuestionList.Panel.HandleSaveQuestion | components/admin/QuestionList.tsx:19-31 | corrected: the editor that saved decides between create and edit, and closes only itself |
| QuestionList.Panel.DeleteQuestion | components/admin/QuestionList.tsx:33-37 | a confirmed delete filters out the id; a declined one changes nothing |
| QuestionList.EditWhileCreatingAsWritten | components/admin/QuestionList.tsx:19-31 | editing during a create appends a copy under a new id, leaves the original as it was, and keeps the edit form open |
| QuestionList.EditWhileCreating | components/admin/QuestionList.tsx:24-30 | with the corrected save the same steps replace the question in place and close only the edit form |
| LeadFormEditor.DefaultsShape | components/admin/LeadFormEditor.tsx:13-25 | lead capture starts off, with a required email field and a required name field and no hidden fields |
| LeadFormEditor.ToggleChangesOnlyEnabled | components/admin/LeadFormEditor.tsx:37-45 | the switch changes `enabled` only, and switching back restores the settings |
| LeadFormEditor.NewField | components/admin/LeadFormEditor.tsx:47-62 | the field "Add" appends; stated by `NewFieldShape` |
| LeadFormEditor.ApplyUpdate | components/admin/LeadFormEditor.tsx:76-86 | a field with one property replaced; stated by `UpdateChangesOneProperty` |
| LeadFormEditor.MergeHidden | components/admin/LeadFormEditor.tsx:112-121 | a hidden field with the patch spread over it; stated by `MergeHiddenTakesPatch` |
| LeadFormEditor.HiddenRemoved | components/admin/LeadFormEditor.tsx:101-110 | the hidden list without the id; stated by `HiddenRemovedOnlyThatId` |
| LeadFormEditor.HiddenUpdated | components/admin/LeadFormEditor.tsx:112-121 | the hidden list with the patch merged into the id; stated by `HiddenUpdatedOnlyMatching` |
| LeadFormEditor.NewFieldShape | components/admin/LeadFormEditor.tsx:47-62 | a new field is required exactly when it is an e-mail field, and its label names its type |
| LeadFormEditor.UpdateChangesOneProperty | components/admin/LeadFormEditor.tsx:76-86 | a field update changes only the property it names, never the id or type |
| LeadFormEditor.MergeHiddenTakesPatch | components/admin/LeadFormEditor.tsx:112-121 | each present patch property replaces the hidden field's own; an empty patch changes nothing; merging twice is merging once |
| LeadFormEditor.HiddenRemovedOnlyThatId | components/admin/LeadFormEditor.tsx:101-110 | removal drops every hidden field with the id and keeps each other one as often as it occurred |
| LeadFormEditor.HiddenUpdatedOnlyMatching | components/admin/LeadFormEditor.tsx:112-121 | an update merges the patch into exactly the hidden fields with the id |
| LeadFormEditor.Editor.constructor | components/admin/LeadFormEditor.tsx:28-30 | the quiz's settings, or the defaults; the dialog closed |
| LeadFormEditor.Editor.UpdateSettings | components/admin/LeadFormEditor.tsx:32-35 | the editor's state and the parent receive the same settings |
| LeadFormEditor.Editor.ToggleLeadCapture | components/admin/LeadFormEditor.tsx:37-45 | the settings with the new `enabled`, published once |
| LeadFormEditor.Editor.AddField | components/admin/LeadFormEditor.tsx:47-62 | one new field appended, published once |
| LeadFormEditor.Editor.RemoveField | components/admin/LeadFormEditor.tsx:64-74 | the field at the index spliced out, published once |
| LeadFormEditor.Editor.UpdateField | components/admin/LeadFormEditor.tsx:76-86 | the field at the index updated, published once |
| LeadFormEditor.Editor.OpenHiddenDialog | components/admin/LeadFormEditor.tsx:281-291 | the dialog opens on a blank URL-parameter field `hidden-<stamp>` |
| LeadFormEditor.Editor.EditHiddenDraft | components/admin/LeadFormEditor.tsx:346-397 | an input of the dialog merges into the draft |
| LeadFormEditor.Editor.CancelHiddenDialog | components/admin/LeadFormEditor.tsx:406 | the dialog closes |
| LeadFormEditor.Editor.AddHiddenField | components/admin/LeadFormEditor.tsx:88-99 | the field appended to the hidden list (a missing list reads as empty), published once; the dialog closes and its draft clears |
| LeadFormEditor.Editor.RemoveHiddenField | components/admin/LeadFormEditor.tsx:101-110 | the hidden list without the id, published once |
| LeadFormEditor.Editor.UpdateHiddenField | components/admin/LeadFormEditor.tsx:112-121 | the hidden list with the patch merged into the id, published once |
| ThankYouEditor.Merge | components/admin/ThankYouEditor.tsx:54-56 | `{ ...page, ...form }`; stated by `MergeFormOf` and `MergeTakesForm` |
| ThankYouEditor.NewPage | components/admin/ThankYouEditor.tsx:39-50 | the page a create appends; stated by `NewPageCopiesForm` |
| ThankYouEditor.PagesEdited | components/admin/ThankYouEditor.tsx:53-59 | the pages after an edit save; stated by `EditMergesOnlyEditing` and `EditWithoutTargetIsNoOp` |
| ThankYouEditor.PagesDeleted | components/admin/ThankYouEditor.tsx:63-67 | the pages after a delete; stated by `DeleteRemovesOnlyThatId` |
| ThankYouEditor.ApplyFormEdit | components/admin/ThankYouEditor.tsx:103-153 | one input of the form; stated by `FormEditSetsOne` |
| ThankYouEditor.MergeFormOf | components/admin/ThankYouEditor.tsx:18-22 | saving a page opened for editing and left untouched gives back the same page; an empty form changes nothing |
| ThankYouEditor.MergeTakesForm | components/admin/ThankYouEditor.tsx:54-56 | the merged page takes exactly the properties the form has; merging twice is merging once |
| ThankYouEditor.NewPageCopiesForm | components/admin/ThankYouEditor.tsx:39-50 | a new page has id `typ-<stamp>`, no quiz yet, and every other property from the form |
| ThankYouEditor.EditMergesOnlyEditing | components/admin/ThankYouEditor.tsx:53-59 | an edit save keeps the count and changes only the page being edited, as the form says |
| ThankYouEditor.EditWithoutTargetIsNoOp | components/admin/ThankYouEditor.tsx:53-59 | with no page being edited an edit save changes nothing |
| ThankYouEditor.DeleteRemovesOnlyThatId | components/admin/ThankYouEditor.tsx:63-67 | a delete removes every page with the id and keeps each other page as often as it occurred |
| ThankYouEditor.FormEditSetsOne | components/admin/ThankYouEditor.tsx:103-153 | an input changes only its own property, never the id, quiz or image; a score input always leaves a number, 0 when unparsable; a saved edit carries the typed value into the page |
| ThankYouEditor.Editor.constructor | components/admin/ThankYouEditor.tsx:14-16 | idle, with an empty form |
| ThankYouEditor.Editor.StartEdit | components/admin/ThankYouEditor.tsx:18-22 | the page opened in edit mode with all its properties in the form |
| ThankYouEditor.Editor.StartCreate | components/admin/ThankYouEditor.tsx:24-34 | create mode under the placeholder id `new`, with the seeded form |
| ThankYouEditor.Editor.EditForm | components/admin/ThankYouEditor.tsx:103-153 | one input of the form, a score stored as `parseInt(v) \|\| 0` |
| ThankYouEditor.Editor.CancelEdit | components/admin/ThankYouEditor.tsx:162 | leaves edit mode |
| ThankYouEditor.Editor.CancelCreate | components/admin/ThankYouEditor.tsx:279 | leaves create mode and keeps the placeholder id |
| ThankYouEditor.Editor.HandleSaveAsWritten | components/admin/ThankYouEditor.tsx:36-61 | as written: without a title nothing happens; a create appends the page but leaves the placeholder id, while an edit merges and clears the id |
| ThankYouEditor.Editor.HandleSave | components/admin/ThankYouEditor.tsx:36-61 | corrected: the same, and every successful save returns the editor to idle |
| ThankYouEditor.Editor.Delete | components/admin/ThankYouEditor.tsx:63-67 | a confirmed delete filters out the id; a declined one changes nothing |
| ThankYouEditor.CreateThenAddHiddenAsWritten | components/admin/ThankYouEditor.tsx:73-82 | after one create "Add Outcome" stays hidden, although nothing is being created or edited |
| ThankYouEditor.CreateThenAddShown | components/admin/ThankYouEditor.tsx:73-82 | with the corrected save the page is appended and "Add Outcome" is shown again |
| HubSpotIntegration.FirstHubSpot | components/admin/HubSpotIntegration.tsx:23 | the first integration of type `hubspot`; none exactly when there is none |
| HubSpotIntegration.RemoveMappingAt | components/admin/HubSpotIntegration.tsx:46-49 | the mappings without the index; stated by `WithoutPositionIsRemoveAt` and `RemoveMappingRemovesExactlyOne` |
| HubSpotIntegration.SetMappingField | components/admin/HubSpotIntegration.tsx:40-44 | a mapping with one field replaced; stated by `SetMappingFieldOnly` |
| HubSpotIntegration.WithoutPositionIsRemoveAt | components/admin/HubSpotIntegration.tsx:46-49 | the filter on positions removes exactly the element at the index and keeps the rest in order |
| HubSpotIntegration.RemoveMappingRemovesExactlyOne | components/admin/HubSpotIntegration.tsx:46-49 | removing a mapping shortens the list by one, or changes nothing for an index past the end |
| HubSpotIntegration.SetMappingFieldOnly | components/admin/HubSpotIntegration.tsx:40-44 | a mapping edit changes that field only, and setting it back undoes it |
| HubSpotIntegration.Panel.constructor | components/admin/HubSpotIntegration.tsx:13-17 | empty portal, form and mappings, no id, nothing saved |
| HubSpotIntegration.Panel.Load | components/admin/HubSpotIntegration.tsx:20-34 | the first HubSpot integration gives its id and, when it has a configuration, each value or its empty default; without one nothing changes |
| HubSpotIntegration.Panel.SetPortalId | components/admin/HubSpotIntegration.tsx:90 | the portal id input |
| HubSpotIntegration.Panel.SetFormGuid | components/admin/HubSpotIntegration.tsx:101 | the form GUID input |
| HubSpotIntegration.Panel.AddMapping | components/admin/HubSpotIntegration.tsx:36-38 | one blank mapping appended |
| HubSpotIntegration.Panel.UpdateMapping | components/admin/HubSpotIntegration.tsx:40-44 | one field of the mapping at the index replaced |
| HubSpotIntegration.Panel.RemoveMapping | components/admin/HubSpotIntegration.tsx:46-49 | the mapping at the index removed |
| HubSpotIntegration.Panel.HandleSave | components/admin/HubSpotIntegration.tsx:51-68 | sends exactly the three values as an active HubSpot integration under the known id; a successful answer with an id replaces the id |
| DesignEditor.InitialDesign | components/admin/DesignEditor.tsx:12-31 | the quiz's design, or the default without gradient or element overrides |
| DesignEditor.WithColor | components/admin/DesignEditor.tsx:42-47 | the design after a color input; stated by `ColorChangeReplacesOnlyKey` |
| DesignEditor.WithGradientStart | components/admin/DesignEditor.tsx:161-171 | the design after the start picker; stated by `GradientStartSetsCss` and `StartThenEnd` |
| DesignEditor.WithGradientEnd | components/admin/DesignEditor.tsx:184-194 | the design after the end picker; stated by `GradientEndSetsCss` and `StartThenEnd` |
| DesignEditor.WithoutGradient | components/admin/DesignEditor.tsx:202-210 | the design after "Remove Gradient"; stated by `RemoveGradientClearsThree` |
| DesignEditor.SetOverride | components/admin/DesignEditor.tsx:338-466 | the design after an element color input; stated by `SetOverrideOnlyThatOne` |
| DesignEditor.Reset | components/admin/DesignEditor.tsx:345-349 | the design after an override's Reset; stated by `ResetIdempotent` |
| DesignEditor.WithAlignment | components/admin/DesignEditor.tsx:356-359 | the design after an alignment button; stated by `AlignmentSetsBoth` |
| DesignEditor.PreviewRadius | components/admin/DesignEditor.tsx:515-519 | the preview's corner radius; stated by `PreviewRadiusTable` |
| DesignEditor.ColorChangeReplacesOnlyKey | components/admin/DesignEditor.tsx:42-47 | a color change stores the value under its key and leaves every other key and the rest of the design unchanged |
| DesignEditor.GradientStartSetsCss | components/admin/DesignEditor.tsx:161-171 | the start picker stores the start and rebuilds the gradient from it and the stored end or else the background; nothing else changes |
| DesignEditor.GradientEndSetsCss | components/admin/DesignEditor.tsx:184-194 | the end picker mirrors the start picker |
| DesignEditor.StartThenEnd | components/admin/DesignEditor.tsx:161-194 | picking a start and then an end gives the gradient between the two, whatever was stored, and shows "Remove Gradient" |
| DesignEditor.RemoveGradientClearsThree | components/admin/DesignEditor.tsx:202-210 | removal clears the three gradient properties only and hides the button; the next pick starts from the background |
| DesignEditor.SetOverrideOnlyThatOne | components/admin/DesignEditor.tsx:338-466 | an element color input sets that override and keeps the others, every sibling property and the rest of the design |
| DesignEditor.ResetIdempotent | components/admin/DesignEditor.tsx:345-349 | Reset clears the override; a second Reset changes nothing; a Reset after a pick equals a Reset of the original |
| DesignEditor.AlignmentSetsBoth | components/admin/DesignEditor.tsx:356-359 | an alignment button sets the title's and the description's alignment and nothing else |
| DesignEditor.PreviewRadiusTable | components/admin/DesignEditor.tsx:515-519 | five radius names map to their sizes; every other name gives no rounding; the default design is rounded at 1rem |

## Left out

General:
- **Rendering.** Markup, styling, animation and icons are not modelled. The model states which controls the question card draws, from the question's type, its properties and its structure; an element drawn twice is treated as drawn once.
- **The 300 ms `setTimeout`.** `QuizEngine.tsx:35-37` delays the step change. The engine applies its whole update at once.
- **The design editor's debounce** (`DesignEditor.tsx:35-40`) is not modelled. It only forwards the design to the parent.
- **Clock and dialogs.** The clock (`Date.now()`, the time taken, the database's timestamp default) is a parameter. So is the answer to `confirm(...)`.
- **Server calls** (`saveAbTest`, `saveIntegration`, `getIntegrations`, `submitResponse`) and the database session are not modelled. Their answers are parameters.
- **Saving flags.** The `isSaving` flags and the `alert` after the HubSpot save are not modelled.
- **`useEffect` re-sync.** The effects that re-sync state when a prop changes are not modelled. `QuestionEditor.Editor.constructor` models the state after the mount effect.
- **Parent round trip.** The parent is assumed to pass back, as the prop, exactly the list or settings it received through `onUpdate`.
- **JavaScript numbers** are mathematical integers, and sorting compares them exactly. Floating-point rounding is not modelled.
- **Absent and undefined properties.** A property set to `undefined` and an absent property are both `None`. `null` and `undefined` ids are also the same `None`.
- **Icons and images.** The `icon` and image properties of answer options are not modelled.
- **Character handling.** `Strings.Lower` lower-cases ASCII letters only. Trimming follows each runtime's whitespace set: Python's `str.isspace` characters for the legacy server and ECMAScript's WhiteSpace and LineTerminator characters for the player, both as of current Unicode.

Legacy server:
- **Seeding.** `seed_data` (`main.py:13-46`) inserts mock rows at start-up. It is not modelled; the store starts empty.
- **Plain GET pages.** `admin_dashboard`, `new_quiz`, `edit_quiz`, `list_questions` and `new_question` (`main.py:66-77`, `97-99`, `115-120`, `140-155`) are left out. They only look a quiz up (`QuizIndex`) and render it.
- **Template context.** The `title` and footer values are not modelled.
- **`submit_answer` logging.** It prints the answer. The print is not modelled: the answer is dropped, and the handler redirects.

Quiz player and question card:
- **Empty quiz.** `QuizEngine.tsx:152` crashes on `currentQuestion.id` when a quiz has no questions. The model offers no action in that case instead of modelling the failure.
- **Option buttons.** The model distinguishes no options from some options; which option values exist, and their labels, are not part of what the card offers.

Admin editors:
- **QuestionEditor** leaves out several inputs:
  - the true/false label inputs (`QuestionEditor.tsx:263-280`);
  - the edits of an existing logic rule (`340-386`);
  - the `_expanded` toggle (`175-183`);
  - the plain inputs for text, description, `isRequired` and `allowBack`.
  Each of these only replaces one property of the draft.
- **QuestionEditor's** `Partial<Question>` always has a type in the model.
- **Plain setters** are not modelled. They replace one property:
  - the A/B test's name, slug and status;
  - the design editor's typography, layout and border-radius selects;
  - its opacity slider and font-size selects.
- **LeadFormEditor.Editor.AddHiddenField** models `addHiddenField` itself. It accepts any field. The dialog's Add button, which is disabled while the draft has no name (`LeadFormEditor.tsx:413`), is not modelled.
- **HubSpot load errors.** `HubSpotIntegration.Panel.Load` assumes `getIntegrations` succeeded. A failed load leaves the state as it is, which is the `FirstHubSpot` = none case.

## Findings

| source | as written | input that shows it | evidently intended | confidence | as-written member | corrected member |
|---|---|---|---|---|---|---|
| components/admin/QuestionEditor.tsx:69-73 | the label edit copies the options array but assigns `label` on the shared option object | open an existing question, type one character in an option's label, press Cancel: the caller's question now carries the new label | replace the option with a copy, as the value and score inputs do (lines 214-231) | high; not executed | QuestionEditor.AliasedLabelEdit | QuestionEditor.CopiedLabelEdit |
| components/admin/QuestionList.tsx:19-31 | the save branches on `isCreating`, but a question's Edit button stays available while the new-question editor is open | press "Add Question", then Edit on question 1 and save it: a copy is appended under a new id, question 1 is unchanged, and its edit form stays open | the editor that saved decides between create and edit | high; not executed | QuestionList.EditWhileCreatingAsWritten | QuestionList.EditWhileCreating |
| components/admin/ThankYouEditor.tsx:36-61 | a create sets `editingId` to `'new'` and the save never clears it, so "Add Outcome" (line 73) stays hidden | press "Add Outcome" and save: the page is added, but the button does not come back | a create's save leaves the editor idle | high; not executed | ThankYouEditor.CreateThenAddHiddenAsWritten | ThankYouEditor.CreateThenAddShown |
