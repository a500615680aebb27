/** The question list of the quiz editor (components/admin/QuestionList.tsx):
    the quiz's questions, with at most one question opened for editing and
    a separate editor for a new question. */
module QuestionList {
  import opened Common
  import opened QuizTypes

  /** The list after a create: the saved question appended under the id
      `q-` followed by the clock reading `stamp`, numbered one past the
      existing questions. */
  function Created(questions: seq<Question>, saved: Question, stamp: string): seq<Question> {
    questions + [saved.(id := "q-" + stamp, order := |questions| + 1)]
  }

  function SameId(id: string): Question -> bool {
    (q: Question) => q.id == id
  }

  /** The list after an edit: every question with the saved question's id
      replaced by it. */
  function Edited(questions: seq<Question>, saved: Question): seq<Question> {
    MapWhere(questions, SameId(saved.id), (q: Question) => saved)
  }

  /** The list after a confirmed delete. */
  function Deleted(questions: seq<Question>, id: string): seq<Question> {
    Filter(questions, (q: Question) => q.id != id)
  }

  /** A create adds exactly one question at the end, with the new id and
      the 1-based position as its order and everything else as saved. */
  lemma CreateAppends(questions: seq<Question>, saved: Question, stamp: string)
    ensures |Created(questions, saved, stamp)| == |questions| + 1
    ensures Created(questions, saved, stamp)[..|questions|] == questions
    ensures var n := Created(questions, saved, stamp)[|questions|];
      n.id == "q-" + stamp && n.order == |questions| + 1 && n.(id := saved.id, order := saved.order) == saved
  {
  }

  /** An edit keeps the length and every id, replaces exactly the questions
      that carry the saved id, and leaves the others as they were. */
  lemma EditReplacesById(questions: seq<Question>, saved: Question)
    ensures |Edited(questions, saved)| == |questions|
    ensures forall j :: 0 <= j < |questions| ==> Edited(questions, saved)[j].id == questions[j].id
    ensures forall j :: 0 <= j < |questions| && questions[j].id == saved.id ==> Edited(questions, saved)[j] == saved
    ensures forall j :: 0 <= j < |questions| && questions[j].id != saved.id ==> Edited(questions, saved)[j] == questions[j]
  {
  }

  /** An edit of a question that is not in the list changes nothing. */
  lemma {:induction false} EditOfUnknownIdIsNoOp(questions: seq<Question>, saved: Question)
    requires forall j :: 0 <= j < |questions| ==> questions[j].id != saved.id
    ensures Edited(questions, saved) == questions
  {
    var r := Edited(questions, saved);
    assert |r| == |questions|;
    forall j | 0 <= j < |questions|
      ensures r[j] == questions[j]
    {
      assert !SameId(saved.id)(questions[j]);
    }
  }

  /** A delete removes every question with the id and keeps each other
      question as often as it occurred. */
  lemma DeleteRemovesOnlyThatId(questions: seq<Question>, id: string)
    ensures forall q :: q in Deleted(questions, id) <==> q in questions && q.id != id
    ensures forall q :: multiset(Deleted(questions, id))[q] == if q.id != id then multiset(questions)[q] else 0
  {
    FilterMultiset(questions, (q: Question) => q.id != id);
  }

  /** A delete of an id no question has changes nothing. */
  lemma DeleteOfUnknownIdIsNoOp(questions: seq<Question>, id: string)
    requires forall j :: 0 <= j < |questions| ==> questions[j].id != id
    ensures Deleted(questions, id) == questions
  {
    FilterAll(questions, (q: Question) => q.id != id);
  }

  class Panel {
    /** The `questions` prop; `onUpdate` hands the parent a new list, which
        comes back as this prop. */
    var questions: seq<Question>
    var editingId: Option<string>
    var isCreating: bool

    constructor (questions: seq<Question>)
      ensures this.questions == questions && editingId == None && !isCreating
    {
      this.questions := questions;
      editingId := None;
      isCreating := false;
    }

    /** Whether "Add Question" is shown: neither creating nor editing. */
    predicate Idle()
      reads this
    {
      !isCreating && !Truthy(editingId)
    }

    /** "Add Question" opens the editor for a new question. */
    method StartCreate()
      requires Idle()
      modifies this`isCreating
      ensures isCreating
    {
      isCreating := true;
    }

    /** A question's edit button, shown on every question not being
        edited, whether or not a new question is being created. */
    method StartEdit(index: nat)
      requires index < |questions|
      modifies this`editingId
      ensures editingId == Some(questions[index].id)
    {
      editingId := Some(questions[index].id);
    }

    method CancelEdit()
      modifies this`editingId
      ensures editingId == None
    {
      editingId := None;
    }

    method CancelCreate()
      modifies this`isCreating
      ensures !isCreating
    {
      isCreating := false;
    }

    /** `handleSaveQuestion` as written: whichever editor saved, the save
        is a create while the new-question editor is open. */
    method HandleSaveQuestionAsWritten(saved: Question, stamp: string)
      modifies this
      ensures old(isCreating) ==>
        questions == Created(old(questions), saved, stamp) && !isCreating && editingId == old(editingId)
      ensures !old(isCreating) ==>
        questions == Edited(old(questions), saved) && editingId == None && isCreating == old(isCreating)
    {
      if isCreating {
        questions := Created(questions, saved, stamp);
        isCreating := false;
      } else {
        questions := Edited(questions, saved);
        editingId := None;
      }
    }

    /** The save as evidently meant: the editor that saved decides between
        create and edit, and closes only itself. */
    method HandleSaveQuestion(fromCreateEditor: bool, saved: Question, stamp: string)
      modifies this
      ensures fromCreateEditor ==>
        questions == Created(old(questions), saved, stamp) && !isCreating && editingId == old(editingId)
      ensures !fromCreateEditor ==>
        questions == Edited(old(questions), saved) && editingId == None && isCreating == old(isCreating)
    {
      if fromCreateEditor {
        questions := Created(questions, saved, stamp);
        isCreating := false;
      } else {
        questions := Edited(questions, saved);
        editingId := None;
      }
    }

    /** `handleDeleteQuestion`; `confirmed` is the answer to the dialog. */
    method DeleteQuestion(id: string, confirmed: bool)
      modifies this`questions
      ensures confirmed ==> questions == Deleted(old(questions), id)
      ensures !confirmed ==> questions == old(questions)
    {
      if confirmed {
        questions := Deleted(questions, id);
      }
    }
  }

  /** The edit button stays available while a new question is being
      created; saving that edit then appends a copy under a new id, leaves
      the original unchanged and keeps the edit form open. */
  method EditWhileCreatingAsWritten(questions: seq<Question>, index: nat, edited: Question, stamp: string)
    returns (panel: Panel)
    requires index < |questions| && edited.id == questions[index].id
    ensures |panel.questions| == |questions| + 1
    ensures panel.questions[index] == questions[index]
    ensures panel.questions[|questions|].id == "q-" + stamp
    ensures panel.editingId == Some(questions[index].id)
  {
    panel := new Panel(questions);
    panel.StartCreate();
    panel.StartEdit(index);
    panel.HandleSaveQuestionAsWritten(edited, stamp);
    CreateAppends(questions, edited, stamp);
    assert panel.questions[index] == panel.questions[..|questions|][index];
  }

  /** With the saving editor deciding, the same steps replace the question
      in place and close the edit form, and the new-question editor stays open. */
  method EditWhileCreating(questions: seq<Question>, index: nat, edited: Question, stamp: string)
    returns (panel: Panel)
    requires index < |questions| && edited.id == questions[index].id
    ensures |panel.questions| == |questions|
    ensures panel.questions[index] == edited
    ensures panel.editingId == None && panel.isCreating
  {
    panel := new Panel(questions);
    panel.StartCreate();
    panel.StartEdit(index);
    panel.HandleSaveQuestion(false, edited, stamp);
    EditReplacesById(questions, edited);
  }
}
