/** The lead form editor (components/admin/LeadFormEditor.tsx): the quiz's
    settings with the lead capture switch, the visible form fields and the
    hidden fields, and the dialog that adds a hidden field. Every edit
    builds the new settings from the current ones and hands the same value
    both to the editor's own state and to the parent. */
module LeadFormEditor {
  import opened Common

  datatype FieldType = EmailField | TextField | PhoneField | CheckboxField

  /** One visible field of the lead form; the two email-only switches are
      absent until first set. */
  datatype FormField = FormField(
    id: string, fieldType: FieldType, labelText: string, required: bool,
    isBusinessEmail: Option<bool>, requiresVerification: Option<bool>)

  /** The one property each input of a field row changes. */
  datatype FieldUpdate =
    | SetLabel(labelText: string)
    | SetRequired(required: bool)
    | SetBusinessEmail(isBusinessEmail: bool)
    | SetRequiresVerification(requiresVerification: bool)

  datatype SourceType = UrlParam | Referrer | UserAgent | IpAddress | Cookie | Constant

  /** A value captured without user input. */
  datatype HiddenField = HiddenField(
    id: string, name: string, sourceType: SourceType, sourceKey: Option<string>, constantValue: Option<string>)

  /** `Partial<HiddenField>`: each property present replaces the field's own. */
  datatype HiddenPatch = HiddenPatch(
    id: Option<string>, name: Option<string>, sourceType: Option<SourceType>,
    sourceKey: Option<string>, constantValue: Option<string>)

  datatype General = General(showProgressBar: bool, autoAdvance: bool)

  datatype LeadCapture = LeadCapture(enabled: bool, fields: seq<FormField>, hiddenFields: Option<seq<HiddenField>>)

  datatype Settings = Settings(general: General, leadCapture: LeadCapture)

  /** The settings of a quiz that has none. */
  const DefaultSettings: Settings := Settings(
    General(true, true),
    LeadCapture(false, [
      FormField("email", EmailField, "Email Address", true, None, None),
      FormField("name", TextField, "Full Name", true, None, None)], None))

  /** Lead capture starts switched off, with a required email field and a
      required name field and no hidden field. */
  lemma DefaultsShape()
    ensures !DefaultSettings.leadCapture.enabled
    ensures |DefaultSettings.leadCapture.fields| == 2
    ensures forall i :: 0 <= i < 2 ==> DefaultSettings.leadCapture.fields[i].required
    ensures DefaultSettings.leadCapture.fields[0].fieldType == EmailField && DefaultSettings.leadCapture.fields[0].id == "email"
    ensures DefaultSettings.leadCapture.fields[1].fieldType == TextField && DefaultSettings.leadCapture.fields[1].id == "name"
    ensures DefaultSettings.leadCapture.hiddenFields.GetOr([]) == []
  {
  }

  function WithEnabled(s: Settings, enabled: bool): Settings {
    s.(leadCapture := s.leadCapture.(enabled := enabled))
  }

  function WithFields(s: Settings, fields: seq<FormField>): Settings {
    s.(leadCapture := s.leadCapture.(fields := fields))
  }

  function WithHidden(s: Settings, hidden: seq<HiddenField>): Settings {
    s.(leadCapture := s.leadCapture.(hiddenFields := Some(hidden)))
  }

  /** The field `addField` creates; `stamp` is the clock reading in its id. */
  function NewField(fieldType: FieldType, stamp: string): FormField {
    FormField("field-" + stamp, fieldType,
      if fieldType == EmailField then "Email Address" else if fieldType == PhoneField then "Phone Number" else "New Field",
      fieldType == EmailField, None, None)
  }

  /** `{ ...field, ...updates }` for the property one input changes. */
  function ApplyUpdate(f: FormField, u: FieldUpdate): FormField {
    match u
    case SetLabel(l) => f.(labelText := l)
    case SetRequired(r) => f.(required := r)
    case SetBusinessEmail(b) => f.(isBusinessEmail := Some(b))
    case SetRequiresVerification(v) => f.(requiresVerification := Some(v))
  }

  /** `{ ...f, ...updates }` for a hidden field. */
  function MergeHidden(f: HiddenField, u: HiddenPatch): HiddenField {
    HiddenField(
      if u.id.Some? then u.id.value else f.id,
      if u.name.Some? then u.name.value else f.name,
      if u.sourceType.Some? then u.sourceType.value else f.sourceType,
      if u.sourceKey.Some? then u.sourceKey else f.sourceKey,
      if u.constantValue.Some? then u.constantValue else f.constantValue)
  }

  function HiddenOf(s: Settings): seq<HiddenField> {
    s.leadCapture.hiddenFields.GetOr([])
  }

  /** The hidden list after `removeHiddenField(id)`. */
  function HiddenRemoved(hidden: seq<HiddenField>, id: string): seq<HiddenField> {
    Filter(hidden, (f: HiddenField) => f.id != id)
  }

  /** The hidden list after `updateHiddenField(id, u)`. */
  function HiddenUpdated(hidden: seq<HiddenField>, id: string, u: HiddenPatch): seq<HiddenField> {
    MapWhere(hidden, (f: HiddenField) => f.id == id, (f: HiddenField) => MergeHidden(f, u))
  }

  /** The switch changes `enabled` and nothing else. */
  lemma ToggleChangesOnlyEnabled(s: Settings, enabled: bool)
    ensures WithEnabled(s, enabled).leadCapture.enabled == enabled
    ensures WithEnabled(s, enabled).general == s.general
    ensures WithEnabled(s, enabled).leadCapture.fields == s.leadCapture.fields
    ensures WithEnabled(s, enabled).leadCapture.hiddenFields == s.leadCapture.hiddenFields
    ensures WithEnabled(WithEnabled(s, enabled), s.leadCapture.enabled) == s
  {
  }

  /** A new field is required exactly when it is an email field, and its
      label names its type. */
  lemma NewFieldShape(fieldType: FieldType, stamp: string)
    ensures NewField(fieldType, stamp).required <==> fieldType == EmailField
    ensures NewField(fieldType, stamp).fieldType == fieldType
    ensures fieldType == EmailField ==> NewField(fieldType, stamp).labelText == "Email Address"
    ensures fieldType == PhoneField ==> NewField(fieldType, stamp).labelText == "Phone Number"
    ensures fieldType == TextField || fieldType == CheckboxField ==> NewField(fieldType, stamp).labelText == "New Field"
  {
  }

  /** A field update changes only the property it names. */
  lemma UpdateChangesOneProperty(f: FormField, u: FieldUpdate)
    ensures ApplyUpdate(f, u).id == f.id && ApplyUpdate(f, u).fieldType == f.fieldType
    ensures u.SetLabel? ==> ApplyUpdate(f, u) == f.(labelText := u.labelText)
    ensures !u.SetLabel? ==> ApplyUpdate(f, u).labelText == f.labelText
    ensures !u.SetRequired? ==> ApplyUpdate(f, u).required == f.required
    ensures u.SetBusinessEmail? ==> ApplyUpdate(f, u).isBusinessEmail == Some(u.isBusinessEmail)
    ensures !u.SetBusinessEmail? ==> ApplyUpdate(f, u).isBusinessEmail == f.isBusinessEmail
    ensures !u.SetRequiresVerification? ==> ApplyUpdate(f, u).requiresVerification == f.requiresVerification
  {
  }

  /** A merge takes each property from the patch when the patch has it. */
  lemma MergeHiddenTakesPatch(f: HiddenField, u: HiddenPatch)
    ensures MergeHidden(f, HiddenPatch(None, None, None, None, None)) == f
    ensures MergeHidden(f, u).name == (if u.name.Some? then u.name.value else f.name)
    ensures u.id.None? ==> MergeHidden(f, u).id == f.id
    ensures MergeHidden(MergeHidden(f, u), u) == MergeHidden(f, u)
  {
  }

  /** Removing a hidden field drops every entry with that id and keeps each
      other entry as often as it occurred. */
  lemma HiddenRemovedOnlyThatId(hidden: seq<HiddenField>, id: string)
    ensures forall f :: f in HiddenRemoved(hidden, id) <==> f in hidden && f.id != id
    ensures forall f :: multiset(HiddenRemoved(hidden, id))[f] == if f.id != id then multiset(hidden)[f] else 0
  {
    FilterMultiset(hidden, (f: HiddenField) => f.id != id);
  }

  /** An update merges the patch into exactly the entries with the id. */
  lemma HiddenUpdatedOnlyMatching(hidden: seq<HiddenField>, id: string, u: HiddenPatch)
    ensures |HiddenUpdated(hidden, id, u)| == |hidden|
    ensures forall j :: 0 <= j < |hidden| && hidden[j].id == id ==> HiddenUpdated(hidden, id, u)[j] == MergeHidden(hidden[j], u)
    ensures forall j :: 0 <= j < |hidden| && hidden[j].id != id ==> HiddenUpdated(hidden, id, u)[j] == hidden[j]
  {
  }

  class Editor {
    var settings: Settings
    /** The hidden field being composed in the add dialog. */
    var editingHiddenField: Option<HiddenField>
    var isAddingHidden: bool
    /** The settings handed to `onUpdate`, in order. */
    var published: seq<Settings>

    /** `quiz.settings || defaultSettings`. */
    constructor (quizSettings: Option<Settings>)
      ensures settings == quizSettings.GetOr(DefaultSettings)
      ensures editingHiddenField == None && !isAddingHidden && published == []
    {
      settings := quizSettings.GetOr(DefaultSettings);
      editingHiddenField := None;
      isAddingHidden := false;
      published := [];
    }

    /** `updateSettings`: the editor and the parent get the same value. */
    method UpdateSettings(newSettings: Settings)
      modifies this`settings, this`published
      ensures settings == newSettings && published == old(published) + [newSettings]
    {
      settings := newSettings;
      published := published + [newSettings];
    }

    method ToggleLeadCapture(enabled: bool)
      modifies this`settings, this`published
      ensures settings == WithEnabled(old(settings), enabled) && published == old(published) + [settings]
    {
      UpdateSettings(WithEnabled(settings, enabled));
    }

    method AddField(fieldType: FieldType, stamp: string)
      modifies this`settings, this`published
      ensures settings == WithFields(old(settings), old(settings).leadCapture.fields + [NewField(fieldType, stamp)])
      ensures published == old(published) + [settings]
    {
      UpdateSettings(WithFields(settings, settings.leadCapture.fields + [NewField(fieldType, stamp)]));
    }

    /** `removeField`: a copy of the fields with element `index` spliced out. */
    method RemoveField(index: nat)
      modifies this`settings, this`published
      ensures settings == WithFields(old(settings), RemoveAt(old(settings).leadCapture.fields, index))
      ensures published == old(published) + [settings]
    {
      var newFields := settings.leadCapture.fields;
      newFields := RemoveAt(newFields, index);
      UpdateSettings(WithFields(settings, newFields));
    }

    /** `updateField`: a copy of the fields with element `index` merged with
        the update; the index comes from the rendered list. */
    method UpdateField(index: nat, u: FieldUpdate)
      requires index < |settings.leadCapture.fields|
      modifies this`settings, this`published
      ensures settings == WithFields(old(settings),
        old(settings).leadCapture.fields[index := ApplyUpdate(old(settings).leadCapture.fields[index], u)])
      ensures published == old(published) + [settings]
    {
      var newFields := settings.leadCapture.fields;
      newFields := newFields[index := ApplyUpdate(newFields[index], u)];
      UpdateSettings(WithFields(settings, newFields));
    }

    /** "Add Hidden Field": opens the dialog on a blank URL parameter. */
    method OpenHiddenDialog(stamp: string)
      modifies this`editingHiddenField, this`isAddingHidden
      ensures editingHiddenField == Some(HiddenField("hidden-" + stamp, "", UrlParam, Some(""), None))
      ensures isAddingHidden
    {
      editingHiddenField := Some(HiddenField("hidden-" + stamp, "", UrlParam, Some(""), None));
      isAddingHidden := true;
    }

    /** An input of the dialog. */
    method EditHiddenDraft(u: HiddenPatch)
      requires isAddingHidden && editingHiddenField.Some?
      modifies this`editingHiddenField
      ensures editingHiddenField == Some(MergeHidden(old(editingHiddenField).value, u))
    {
      editingHiddenField := Some(MergeHidden(editingHiddenField.value, u));
    }

    /** The dialog's Cancel closes it and keeps the draft. */
    method CancelHiddenDialog()
      modifies this`isAddingHidden
      ensures !isAddingHidden
    {
      isAddingHidden := false;
    }

    /** `addHiddenField`: appended to the hidden list (a missing list counts
        as empty), and the dialog is closed. */
    method AddHiddenField(field: HiddenField)
      modifies this
      ensures settings == WithHidden(old(settings), HiddenOf(old(settings)) + [field])
      ensures published == old(published) + [settings]
      ensures !isAddingHidden && editingHiddenField == None
    {
      UpdateSettings(WithHidden(settings, HiddenOf(settings) + [field]));
      isAddingHidden := false;
      editingHiddenField := None;
    }

    method RemoveHiddenField(id: string)
      modifies this`settings, this`published
      ensures settings == WithHidden(old(settings), HiddenRemoved(HiddenOf(old(settings)), id))
      ensures published == old(published) + [settings]
    {
      UpdateSettings(WithHidden(settings, HiddenRemoved(HiddenOf(settings), id)));
    }

    method UpdateHiddenField(id: string, u: HiddenPatch)
      modifies this`settings, this`published
      ensures settings == WithHidden(old(settings), HiddenUpdated(HiddenOf(old(settings)), id, u))
      ensures published == old(published) + [settings]
    {
      UpdateSettings(WithHidden(settings, HiddenUpdated(HiddenOf(settings), id, u)));
    }
  }
}
