/** The outcome page editor (components/admin/ThankYouEditor.tsx): the
    quiz's thank-you pages, one form shared by the create and the edit
    path, and the two mode flags that decide which path a save takes. */
module ThankYouEditor {
  import opened Common

  datatype Page = Page(
    id: string, quizId: string, title: string,
    content: Option<string>, buttonText: Option<string>, buttonUrl: Option<string>,
    scoreRangeMin: Option<int>, scoreRangeMax: Option<int>, imageUrl: Option<string>)

  /** `Partial<ThankYouPage>`: a property is either present or absent. */
  datatype Form = Form(
    id: Option<string>, quizId: Option<string>, title: Option<string>,
    content: Option<string>, buttonText: Option<string>, buttonUrl: Option<string>,
    scoreRangeMin: Option<int>, scoreRangeMax: Option<int>, imageUrl: Option<string>)

  const EmptyForm: Form := Form(None, None, None, None, None, None, None, None, None)

  /** The form "Add Outcome" starts from. */
  const CreateSeed: Form :=
    Form(None, None, Some("Thank You!"), Some("Thanks for completing the quiz."), Some("Continue"), None, Some(0), Some(100), None)

  /** A page as the edit form holds it: every property it has. */
  function FormOf(p: Page): Form {
    Form(Some(p.id), Some(p.quizId), Some(p.title), p.content, p.buttonText, p.buttonUrl, p.scoreRangeMin, p.scoreRangeMax, p.imageUrl)
  }

  /** `{ ...p, ...form }`: each property the form has replaces the page's. */
  function Merge(p: Page, f: Form): Page {
    Page(
      if f.id.Some? then f.id.value else p.id,
      if f.quizId.Some? then f.quizId.value else p.quizId,
      if f.title.Some? then f.title.value else p.title,
      if f.content.Some? then f.content else p.content,
      if f.buttonText.Some? then f.buttonText else p.buttonText,
      if f.buttonUrl.Some? then f.buttonUrl else p.buttonUrl,
      if f.scoreRangeMin.Some? then f.scoreRangeMin else p.scoreRangeMin,
      if f.scoreRangeMax.Some? then f.scoreRangeMax else p.scoreRangeMax,
      if f.imageUrl.Some? then f.imageUrl else p.imageUrl)
  }

  /** The page a create adds: the form's content under the id `typ-`
      followed by the clock reading, with no quiz yet. */
  function NewPage(f: Form, stamp: string): Page
    requires f.title.Some?
  {
    Page("typ-" + stamp, "", f.title.value, f.content, f.buttonText, f.buttonUrl, f.scoreRangeMin, f.scoreRangeMax, f.imageUrl)
  }

  function IsEditing(editingId: Option<string>): Page -> bool {
    (p: Page) => Some(p.id) == editingId
  }

  /** The pages after an edit save. */
  function PagesEdited(pages: seq<Page>, editingId: Option<string>, f: Form): seq<Page> {
    MapWhere(pages, IsEditing(editingId), (p: Page) => Merge(p, f))
  }

  /** The pages after a confirmed delete. */
  function PagesDeleted(pages: seq<Page>, id: string): seq<Page> {
    Filter(pages, (p: Page) => p.id != id)
  }

  /** Opening a page and saving it untouched gives back the same page, and
      an empty form leaves a page as it is. */
  lemma MergeFormOf(p: Page)
    ensures Merge(p, FormOf(p)) == p
    ensures Merge(p, EmptyForm) == p
  {
  }

  /** The merged page takes exactly the properties the form has. */
  lemma MergeTakesForm(p: Page, f: Form)
    ensures Merge(p, f).title == if f.title.Some? then f.title.value else p.title
    ensures Merge(p, f).id == p.id <==> f.id.None? || f.id == Some(p.id)
    ensures Merge(Merge(p, f), f) == Merge(p, f)
  {
  }

  /** A new page copies the form's title, content, button, score range and
      image. */
  lemma NewPageCopiesForm(f: Form, stamp: string)
    requires f.title.Some?
    ensures NewPage(f, stamp).id == "typ-" + stamp && NewPage(f, stamp).quizId == ""
    ensures Merge(NewPage(f, stamp), f.(id := None, quizId := None)) == NewPage(f, stamp)
    ensures FormOf(NewPage(f, stamp)) == f.(id := Some("typ-" + stamp), quizId := Some(""))
  {
  }

  /** An edit save changes only the page being edited, and only as the
      form says; the count is unchanged. */
  lemma EditMergesOnlyEditing(pages: seq<Page>, editingId: Option<string>, f: Form)
    ensures |PagesEdited(pages, editingId, f)| == |pages|
    ensures forall j :: 0 <= j < |pages| && Some(pages[j].id) == editingId ==> PagesEdited(pages, editingId, f)[j] == Merge(pages[j], f)
    ensures forall j :: 0 <= j < |pages| && Some(pages[j].id) != editingId ==> PagesEdited(pages, editingId, f)[j] == pages[j]
  {
  }

  /** With no page being edited an edit save changes nothing. */
  lemma {:induction false} EditWithoutTargetIsNoOp(pages: seq<Page>, f: Form)
    ensures PagesEdited(pages, None, f) == pages
  {
    var r := PagesEdited(pages, None, f);
    forall j | 0 <= j < |pages|
      ensures r[j] == pages[j]
    {
      assert !IsEditing(None)(pages[j]);
    }
  }

  /** A delete removes exactly the pages with the id. */
  lemma DeleteRemovesOnlyThatId(pages: seq<Page>, id: string)
    ensures forall p :: p in PagesDeleted(pages, id) <==> p in pages && p.id != id
    ensures forall p :: multiset(PagesDeleted(pages, id))[p] == if p.id != id then multiset(pages)[p] else 0
  {
    FilterMultiset(pages, (p: Page) => p.id != id);
  }

  /** One input of the form. */
  datatype FormEdit =
    | SetTitle(title: string) | SetContent(content: string)
    | SetScoreMin(parsed: Option<int>) | SetScoreMax(parsed: Option<int>)
    | SetButtonText(buttonText: string) | SetButtonUrl(buttonUrl: string)

  /** `{ ...editForm, p: value }`; a score input stores `parseInt(v) || 0`,
      where `None` is the `NaN` of an unparsable entry. */
  function ApplyFormEdit(f: Form, e: FormEdit): Form {
    match e
    case SetTitle(t) => f.(title := Some(t))
    case SetContent(c) => f.(content := Some(c))
    case SetScoreMin(n) => f.(scoreRangeMin := Some(n.GetOr(0)))
    case SetScoreMax(n) => f.(scoreRangeMax := Some(n.GetOr(0)))
    case SetButtonText(b) => f.(buttonText := Some(b))
    case SetButtonUrl(u) => f.(buttonUrl := Some(u))
  }

  /** An input changes only its own property and never the id, the quiz
      or the image; a score input always leaves a number, 0 for an
      unparsable entry; a saved edit carries the typed value into the page. */
  lemma FormEditSetsOne(p: Page, f: Form, e: FormEdit)
    ensures ApplyFormEdit(f, e).id == f.id && ApplyFormEdit(f, e).quizId == f.quizId
    ensures ApplyFormEdit(f, e).imageUrl == f.imageUrl
    ensures !e.SetTitle? ==> ApplyFormEdit(f, e).title == f.title
    ensures !e.SetContent? ==> ApplyFormEdit(f, e).content == f.content
    ensures !e.SetScoreMin? ==> ApplyFormEdit(f, e).scoreRangeMin == f.scoreRangeMin
    ensures !e.SetScoreMax? ==> ApplyFormEdit(f, e).scoreRangeMax == f.scoreRangeMax
    ensures !e.SetButtonText? ==> ApplyFormEdit(f, e).buttonText == f.buttonText
    ensures !e.SetButtonUrl? ==> ApplyFormEdit(f, e).buttonUrl == f.buttonUrl
    ensures e.SetTitle? ==> Merge(p, ApplyFormEdit(f, e)).title == e.title
    ensures e.SetScoreMin? ==> Merge(p, ApplyFormEdit(f, e)).scoreRangeMin == Some(e.parsed.GetOr(0))
    ensures e.SetScoreMax? ==> Merge(p, ApplyFormEdit(f, e)).scoreRangeMax == Some(e.parsed.GetOr(0))
  {
  }

  class Editor {
    /** The `thankYouPages` prop; `onUpdate` hands the parent a new list,
        which comes back as this prop. */
    var pages: seq<Page>
    var editingId: Option<string>
    var isCreating: bool
    var editForm: Form

    constructor (pages: seq<Page>)
      ensures this.pages == pages && editingId == None && !isCreating && editForm == EmptyForm
    {
      this.pages := pages;
      editingId := None;
      isCreating := false;
      editForm := EmptyForm;
    }

    /** Whether "Add Outcome" is shown. */
    predicate AddOutcomeShown()
      reads this
    {
      !isCreating && !Truthy(editingId)
    }

    /** `handleStartEdit` on a listed page. */
    method StartEdit(index: nat)
      requires index < |pages|
      modifies this`editingId, this`editForm, this`isCreating
      ensures editingId == Some(pages[index].id) && editForm == FormOf(pages[index]) && !isCreating
    {
      editingId := Some(pages[index].id);
      editForm := FormOf(pages[index]);
      isCreating := false;
    }

    /** `handleStartCreate`: the create mode under the placeholder id `new`,
        with the seeded form. */
    method StartCreate()
      requires AddOutcomeShown()
      modifies this`editingId, this`editForm, this`isCreating
      ensures isCreating && editingId == Some("new") && editForm == CreateSeed
    {
      isCreating := true;
      editingId := Some("new");
      editForm := CreateSeed;
    }

    method EditForm(e: FormEdit)
      modifies this`editForm
      ensures editForm == ApplyFormEdit(old(editForm), e)
    {
      editForm := ApplyFormEdit(editForm, e);
    }

    /** The edit form's Cancel. */
    method CancelEdit()
      modifies this`editingId
      ensures editingId == None
    {
      editingId := None;
    }

    /** The create form's Cancel, as written: the placeholder id stays. */
    method CancelCreate()
      modifies this`isCreating
      ensures !isCreating
    {
      isCreating := false;
    }

    /** `handleSave` as written: without a title nothing happens; a create
        appends the new page but leaves `editingId` on the placeholder. */
    method HandleSaveAsWritten(stamp: string)
      modifies this
      ensures !Truthy(old(editForm).title) ==>
        pages == old(pages) && editingId == old(editingId) && isCreating == old(isCreating) && editForm == old(editForm)
      ensures Truthy(old(editForm).title) && old(isCreating) ==>
        pages == old(pages) + [NewPage(old(editForm), stamp)] && !isCreating && editingId == old(editingId) && editForm == EmptyForm
      ensures Truthy(old(editForm).title) && !old(isCreating) ==>
        pages == PagesEdited(old(pages), old(editingId), old(editForm)) && editingId == None && !isCreating && editForm == EmptyForm
    {
      if !Truthy(editForm.title) {
        return;
      }
      if isCreating {
        pages := pages + [NewPage(editForm, stamp)];
        isCreating := false;
      } else {
        pages := PagesEdited(pages, editingId, editForm);
        editingId := None;
      }
      editForm := EmptyForm;
    }

    /** The save as evidently meant: a create also leaves the placeholder
        id, so the editor returns to its idle state. */
    method HandleSave(stamp: string)
      modifies this
      ensures !Truthy(old(editForm).title) ==>
        pages == old(pages) && editingId == old(editingId) && isCreating == old(isCreating) && editForm == old(editForm)
      ensures Truthy(old(editForm).title) && old(isCreating) ==>
        pages == old(pages) + [NewPage(old(editForm), stamp)]
      ensures Truthy(old(editForm).title) && !old(isCreating) ==>
        pages == PagesEdited(old(pages), old(editingId), old(editForm))
      ensures Truthy(old(editForm).title) ==> editingId == None && !isCreating && editForm == EmptyForm
    {
      if !Truthy(editForm.title) {
        return;
      }
      if isCreating {
        pages := pages + [NewPage(editForm, stamp)];
        isCreating := false;
      } else {
        pages := PagesEdited(pages, editingId, editForm);
      }
      editingId := None;
      editForm := EmptyForm;
    }

    /** `handleDelete`; `confirmed` is the answer to the dialog. */
    method Delete(id: string, confirmed: bool)
      modifies this`pages
      ensures confirmed ==> pages == PagesDeleted(old(pages), id)
      ensures !confirmed ==> pages == old(pages)
    {
      if confirmed {
        pages := PagesDeleted(pages, id);
      }
    }
  }

  /** As written, once an outcome has been created "Add Outcome" stays
      hidden, although nothing is being created or edited. */
  method CreateThenAddHiddenAsWritten(pages: seq<Page>, stamp: string) returns (editor: Editor)
    ensures |editor.pages| == |pages| + 1
    ensures !editor.isCreating && editor.editingId == Some("new") && !editor.AddOutcomeShown()
  {
    editor := new Editor(pages);
    editor.StartCreate();
    editor.HandleSaveAsWritten(stamp);
  }

  /** With the corrected save the editor is idle again after a create. */
  method CreateThenAddShown(pages: seq<Page>, stamp: string) returns (editor: Editor)
    ensures |editor.pages| == |pages| + 1
    ensures editor.pages[|pages|] == NewPage(CreateSeed, stamp)
    ensures editor.AddOutcomeShown()
  {
    editor := new Editor(pages);
    editor.StartCreate();
    editor.HandleSave(stamp);
  }
}
