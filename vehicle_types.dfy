/**
 The vehicle types page (src/components/VehicleTypesManagement.tsx): the
 search over names and descriptions, the edit form and its state, and the
 `typeData` record a save writes.
 */
module VehicleTypesManagement {
  import opened Text
  import opened Collections
  import opened Domain

  /** The form's `formData`. */
  datatype TypeForm = TypeForm(type_name: string, description: string, is_active: bool)

  /** The empty form of the "add" button and of the reset after a save. */
  function BlankForm(): (f: TypeForm)
    ensures f.type_name == "" && f.description == "" && f.is_active
  {
    TypeForm("", "", true)
  }

  /** The form handleEdit fills from a type; a missing description shows as ''. */
  function FormOf(t: VehicleType): (f: TypeForm)
    ensures f.type_name == t.type_name && f.is_active == t.is_active
    ensures f.description == "" <==> !Truthy(t.description)
    ensures Truthy(t.description) ==> f.description == t.description.value
  {
    TypeForm(t.type_name, OrEmpty(t.description), t.is_active)
  }

  /** `typeData`: the three columns a save writes. */
  datatype TypeRecord = TypeRecord(type_name: string, description: Option<string>, is_active: bool)

  /** The description is stored as null exactly when the form's is ''. */
  function TypeData(form: TypeForm): (rec: TypeRecord)
    ensures rec.type_name == form.type_name && rec.is_active == form.is_active
    ensures rec.description.None? <==> form.description == ""
    ensures rec.description.Some? ==> rec.description.value == form.description
  {
    TypeRecord(form.type_name, NullIfEmpty(form.description), form.is_active)
  }

  datatype TypeWrite =
    | UpdateType(id: string, values: TypeRecord)
    | InsertType(created_by: string, values: TypeRecord)

  function WriteFor(form: TypeForm, editing: Option<VehicleType>, user: Option<string>): (w: Option<TypeWrite>)
    ensures w.None? <==> user.None?
    ensures w.Some? ==> w.value.values == TypeData(form)
    ensures w.Some? ==> (w.value.UpdateType? <==> editing.Some?)
    ensures w.Some? && w.value.UpdateType? ==> w.value.id == editing.value.id
    ensures w.Some? && w.value.InsertType? ==> w.value.created_by == user.value
  {
    if user.None? then None
    else if editing.Some? then Some(UpdateType(editing.value.id, TypeData(form)))
    else Some(InsertType(user.value, TypeData(form)))
  }

  /** Saving an unedited type writes back its name, flag and description, except that a
      stored empty description comes back as null. */
  lemma SaveAfterEdit(t: VehicleType, user: string)
    ensures WriteFor(FormOf(t), Some(t), Some(user)) ==
      Some(UpdateType(t.id, TypeRecord(t.type_name, if Truthy(t.description) then t.description else None, t.is_active)))
  {
    NullIfEmptyOrEmpty(t.description);
  }

  /** The search predicate: the name matches, or there is a non-empty description that does.
      A name match is enough, an empty term matches every type, and without a description
      only the name counts. */
  predicate TypeMatches(t: VehicleType, searchTerm: string)
    ensures Includes(Lower(t.type_name), Lower(searchTerm)) ==> TypeMatches(t, searchTerm)
    ensures searchTerm == "" ==> TypeMatches(t, searchTerm)
    ensures !Truthy(t.description) ==>
      (TypeMatches(t, searchTerm) <==> Includes(Lower(t.type_name), Lower(searchTerm)))
  {
    IncludesEmpty(Lower(t.type_name));
    Includes(Lower(t.type_name), Lower(searchTerm)) ||
    (Truthy(t.description) && Includes(Lower(t.description.value), Lower(searchTerm)))
  }

  function Matcher(searchTerm: string): VehicleType -> bool
  {
    t => TypeMatches(t, searchTerm)
  }

  /** filteredTypes: the types whose name or description matches, in their fetched order. */
  function FilteredTypes(types: seq<VehicleType>, searchTerm: string): (r: seq<VehicleType>)
    ensures forall t :: t in r <==> t in types && TypeMatches(t, searchTerm)
    ensures IsSubsequence(r, types)
    ensures forall t :: multiset(r)[t] == if TypeMatches(t, searchTerm) then multiset(types)[t] else 0
  {
    Filter(types, Matcher(searchTerm))
  }

  /** A type without a description is kept exactly when its name matches. */
  lemma NoDescriptionNameOnly(types: seq<VehicleType>, searchTerm: string, t: VehicleType)
    requires t.description.None?
    ensures t in FilteredTypes(types, searchTerm) <==> t in types && Includes(Lower(t.type_name), Lower(searchTerm))
  {
  }

  /** An empty search keeps every type. */
  lemma {:induction false} EmptySearchKeepsAll(types: seq<VehicleType>)
    ensures FilteredTypes(types, "") == types
  {
    forall t | t in types ensures Matcher("")(t) {
      IncludesEmpty(Lower(t.type_name));
    }
    FilterKeepsAll(types, Matcher(""));
  }

  /** The page's state: the form, the type being edited and whether the form is open. */
  class VehicleTypesPage {
    var form: TypeForm
    var editing: Option<VehicleType>
    var showForm: bool

    constructor ()
      ensures form == BlankForm() && editing == None && !showForm
    {
      form := BlankForm();
      editing := None;
      showForm := false;
    }

    /** handleEdit: the type becomes the one being edited and fills the open form. */
    method HandleEdit(t: VehicleType)
      modifies this
      ensures editing == Some(t) && form == FormOf(t) && showForm
    {
      editing := Some(t);
      form := FormOf(t);
      showForm := true;
    }

    /** The "add" button: no type is being edited and the open form is blank. */
    method OpenAdd()
      modifies this
      ensures editing == None && form == BlankForm() && showForm
    {
      editing := None;
      form := BlankForm();
      showForm := true;
    }

    /** The name input's onChange: only the type name changes. */
    method EditName(value: string)
      modifies this
      ensures form == old(form).(type_name := value)
      ensures editing == old(editing) && showForm == old(showForm)
    {
      form := form.(type_name := value);
    }

    /** The description input's onChange: only the description changes. */
    method EditDescription(value: string)
      modifies this
      ensures form == old(form).(description := value)
      ensures editing == old(editing) && showForm == old(showForm)
    {
      form := form.(description := value);
    }

    /** The active checkbox's onChange: only the flag changes. */
    method SetActive(checked: bool)
      modifies this
      ensures form == old(form).(is_active := checked)
      ensures editing == old(editing) && showForm == old(showForm)
    {
      form := form.(is_active := checked);
    }

    /** The cancel button: the form closes and keeps its contents. */
    method CloseForm()
      modifies this
      ensures !showForm && form == old(form) && editing == old(editing)
    {
      showForm := false;
    }

    /** handleSubmit: without a user nothing happens; otherwise the write is sent, and only
        when it succeeds is the form reset, the editing cleared and the form closed. */
    method Submit(user: Option<string>, result: WriteResult) returns (sent: Option<TypeWrite>)
      modifies this
      ensures sent == WriteFor(old(form), old(editing), user)
      ensures sent.Some? && result == WriteOk ==> form == BlankForm() && editing == None && !showForm
      ensures sent.None? || result == WriteFailed ==>
        form == old(form) && editing == old(editing) && showForm == old(showForm)
    {
      sent := WriteFor(form, editing, user);
      if sent.None? || result == WriteFailed {
        return;
      }
      form := BlankForm();
      editing := None;
      showForm := false;
    }
  }
}
