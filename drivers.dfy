/**
 The drivers page (src/components/DriversManagement.tsx): the name search,
 the edit form and its state, and the record saving the form writes.
 */
module DriversManagement {
  import opened Text
  import opened Collections
  import opened Domain

  /** The form's `formData`. */
  datatype DriverForm = DriverForm(name: string, phone: string, is_active: bool)

  /** The empty form of the "add" button and of the reset after a save. */
  function BlankForm(): (f: DriverForm)
    ensures f.name == "" && f.phone == "" && f.is_active
  {
    DriverForm("", "", true)
  }

  /** The form handleEdit fills from a driver; a missing phone shows as ''. */
  function FormOf(d: Driver): (f: DriverForm)
    ensures f.name == d.name && f.is_active == d.is_active
    ensures f.phone == "" <==> !Truthy(d.phone)
    ensures Truthy(d.phone) ==> f.phone == d.phone.value
  {
    DriverForm(d.name, OrEmpty(d.phone), d.is_active)
  }

  /** What handleSubmit sends: the form spread into an update of the driver being edited, or
      into an insert stamped with the user. */
  datatype DriverWrite =
    | UpdateDriver(id: string, values: DriverForm)
    | InsertDriver(created_by: string, values: DriverForm)

  function WriteFor(form: DriverForm, editing: Option<Driver>, user: Option<string>): (w: Option<DriverWrite>)
    ensures w.None? <==> user.None?
    ensures w.Some? ==> w.value.values == form
    ensures w.Some? ==> (w.value.UpdateDriver? <==> editing.Some?)
    ensures w.Some? && w.value.UpdateDriver? ==> w.value.id == editing.value.id
    ensures w.Some? && w.value.InsertDriver? ==> w.value.created_by == user.value
  {
    if user.None? then None
    else if editing.Some? then Some(UpdateDriver(editing.value.id, form))
    else Some(InsertDriver(user.value, form))
  }

  /** Saving an unedited driver writes back its name, flag and phone, the phone as '' when
      the driver had none: the form is spread as it is, so '' is not turned into null. */
  lemma SaveAfterEdit(d: Driver, user: string)
    ensures WriteFor(FormOf(d), Some(d), Some(user)) ==
      Some(UpdateDriver(d.id, DriverForm(d.name, if d.phone.Some? then d.phone.value else "", d.is_active)))
  {
  }

  /** The search predicate: the lower-cased name contains the lower-cased term. */
  predicate NameMatches(d: Driver, searchTerm: string)
  {
    Includes(Lower(d.name), Lower(searchTerm))
  }

  function Matcher(searchTerm: string): Driver -> bool
  {
    d => NameMatches(d, searchTerm)
  }

  /** filteredDrivers: the drivers whose name matches, in their fetched order. */
  function FilteredDrivers(drivers: seq<Driver>, searchTerm: string): (r: seq<Driver>)
    ensures forall d :: d in r <==> d in drivers && NameMatches(d, searchTerm)
    ensures IsSubsequence(r, drivers)
    ensures forall d :: multiset(r)[d] == if NameMatches(d, searchTerm) then multiset(drivers)[d] else 0
  {
    Filter(drivers, Matcher(searchTerm))
  }

  /** An empty search keeps every driver. */
  lemma {:induction false} EmptySearchKeepsAll(drivers: seq<Driver>)
    ensures FilteredDrivers(drivers, "") == drivers
  {
    forall d | d in drivers ensures Matcher("")(d) {
      IncludesEmpty(Lower(d.name));
    }
    FilterKeepsAll(drivers, Matcher(""));
  }

  /** The page's state: the form, the driver being edited and whether the form is open. */
  class DriversPage {
    var form: DriverForm
    var editing: Option<Driver>
    var showForm: bool

    constructor ()
      ensures form == BlankForm() && editing == None && !showForm
    {
      form := BlankForm();
      editing := None;
      showForm := false;
    }

    /** handleEdit: the driver becomes the one being edited and fills the open form. */
    method HandleEdit(d: Driver)
      modifies this
      ensures editing == Some(d) && form == FormOf(d) && showForm
    {
      editing := Some(d);
      form := FormOf(d);
      showForm := true;
    }

    /** The "add" button: no driver is being edited and the open form is blank. */
    method OpenAdd()
      modifies this
      ensures editing == None && form == BlankForm() && showForm
    {
      editing := None;
      form := BlankForm();
      showForm := true;
    }

    /** The name input's onChange: only the name changes. */
    method EditName(value: string)
      modifies this
      ensures form == old(form).(name := value)
      ensures editing == old(editing) && showForm == old(showForm)
    {
      form := form.(name := value);
    }

    /** The phone input's onChange: only the phone changes. */
    method EditPhone(value: string)
      modifies this
      ensures form == old(form).(phone := value)
      ensures editing == old(editing) && showForm == old(showForm)
    {
      form := form.(phone := value);
    }

    /** The active checkbox's onChange: only the flag changes. */
    method SetActive(checked: bool)
      modifies this
      ensures form == old(form).(is_active := checked)
      ensures editing == old(editing) && showForm == old(showForm)
    {
      form := form.(is_active := checked);
    }

    /** The cancel button: the form closes and keeps its contents. */
    method CloseForm()
      modifies this
      ensures !showForm && form == old(form) && editing == old(editing)
    {
      showForm := false;
    }

    /** handleSubmit: without a user nothing happens; otherwise the write is sent, and only
        when it succeeds is the form reset, the editing cleared and the form closed. */
    method Submit(user: Option<string>, result: WriteResult) returns (sent: Option<DriverWrite>)
      modifies this
      ensures sent == WriteFor(old(form), old(editing), user)
      ensures sent.Some? && result == WriteOk ==> form == BlankForm() && editing == None && !showForm
      ensures sent.None? || result == WriteFailed ==>
        form == old(form) && editing == old(editing) && showForm == old(showForm)
    {
      sent := WriteFor(form, editing, user);
      if sent.None? || result == WriteFailed {
        return;
      }
      form := BlankForm();
      editing := None;
      showForm := false;
    }
  }
}
