/**
 The vehicles page (src/components/VehiclesManagement.tsx): the registration
 search, the edit form and its state, and the `vehicleData` record a save writes.
 */
module VehiclesManagement {
  import opened Text
  import opened Collections
  import opened Domain

  /** The form's `formData`. */
  datatype VehicleForm = VehicleForm(registration_number: string, is_active: bool)

  /** The empty form of the "add" button and of the reset after a save. */
  function BlankForm(): (f: VehicleForm)
    ensures f.registration_number == "" && f.is_active
  {
    VehicleForm("", true)
  }

  /** The form handleEdit fills from a vehicle. */
  function FormOf(v: Vehicle): (f: VehicleForm)
    ensures f.registration_number == v.registration_number && f.is_active == v.is_active
  {
    VehicleForm(v.registration_number, v.is_active)
  }

  /** `vehicleData`: the two columns a save writes. */
  datatype VehicleRecord = VehicleRecord(registration_number: string, is_active: bool)

  function VehicleData(form: VehicleForm): (rec: VehicleRecord)
    ensures rec.registration_number == form.registration_number && rec.is_active == form.is_active
  {
    VehicleRecord(form.registration_number, form.is_active)
  }

  datatype VehicleWrite =
    | UpdateVehicle(id: string, values: VehicleRecord)
    | InsertVehicle(created_by: string, values: VehicleRecord)

  function WriteFor(form: VehicleForm, editing: Option<Vehicle>, user: Option<string>): (w: Option<VehicleWrite>)
    ensures w.None? <==> user.None?
    ensures w.Some? ==> w.value.values == VehicleData(form)
    ensures w.Some? ==> (w.value.UpdateVehicle? <==> editing.Some?)
    ensures w.Some? && w.value.UpdateVehicle? ==> w.value.id == editing.value.id
    ensures w.Some? && w.value.InsertVehicle? ==> w.value.created_by == user.value
  {
    if user.None? then None
    else if editing.Some? then Some(UpdateVehicle(editing.value.id, VehicleData(form)))
    else Some(InsertVehicle(user.value, VehicleData(form)))
  }

  /** Saving an unedited vehicle writes back exactly its registration and flag. */
  lemma SaveAfterEdit(v: Vehicle, user: string)
    ensures WriteFor(FormOf(v), Some(v), Some(user)) ==
      Some(UpdateVehicle(v.id, VehicleRecord(v.registration_number, v.is_active)))
  {
  }

  predicate RegistrationMatches(v: Vehicle, searchTerm: string)
  {
    Includes(Lower(v.registration_number), Lower(searchTerm))
  }

  function Matcher(searchTerm: string): Vehicle -> bool
  {
    v => RegistrationMatches(v, searchTerm)
  }

  /** filteredVehicles: the vehicles whose registration matches, in their fetched order. */
  function FilteredVehicles(vehicles: seq<Vehicle>, searchTerm: string): (r: seq<Vehicle>)
    ensures forall v :: v in r <==> v in vehicles && RegistrationMatches(v, searchTerm)
    ensures IsSubsequence(r, vehicles)
    ensures forall v :: multiset(r)[v] == if RegistrationMatches(v, searchTerm) then multiset(vehicles)[v] else 0
  {
    Filter(vehicles, Matcher(searchTerm))
  }

  /** An empty search keeps every vehicle. */
  lemma {:induction false} EmptySearchKeepsAll(vehicles: seq<Vehicle>)
    ensures FilteredVehicles(vehicles, "") == vehicles
  {
    forall v | v in vehicles ensures Matcher("")(v) {
      IncludesEmpty(Lower(v.registration_number));
    }
    FilterKeepsAll(vehicles, Matcher(""));
  }

  /** The page's state: the form, the vehicle being edited and whether the form is open. */
  class VehiclesPage {
    var form: VehicleForm
    var editing: Option<Vehicle>
    var showForm: bool

    constructor ()
      ensures form == BlankForm() && editing == None && !showForm
    {
      form := BlankForm();
      editing := None;
      showForm := false;
    }

    /** handleEdit: the vehicle becomes the one being edited and fills the open form. */
    method HandleEdit(v: Vehicle)
      modifies this
      ensures editing == Some(v) && form == FormOf(v) && showForm
    {
      editing := Some(v);
      form := FormOf(v);
      showForm := true;
    }

    /** The "add" button: no vehicle is being edited and the open form is blank. */
    method OpenAdd()
      modifies this
      ensures editing == None && form == BlankForm() && showForm
    {
      editing := None;
      form := BlankForm();
      showForm := true;
    }

    /** The registration input's onChange: only the registration number changes. */
    method EditRegistration(value: string)
      modifies this
      ensures form == old(form).(registration_number := value)
      ensures editing == old(editing) && showForm == old(showForm)
    {
      form := form.(registration_number := value);
    }

    /** The active checkbox's onChange: only the flag changes. */
    method SetActive(checked: bool)
      modifies this
      ensures form == old(form).(is_active := checked)
      ensures editing == old(editing) && showForm == old(showForm)
    {
      form := form.(is_active := checked);
    }

    /** The cancel button: the form closes and keeps its contents. */
    method CloseForm()
      modifies this
      ensures !showForm && form == old(form) && editing == old(editing)
    {
      showForm := false;
    }

    /** handleSubmit: without a user nothing happens; otherwise the write is sent, and only
        when it succeeds is the form reset, the editing cleared and the form closed. */
    method Submit(user: Option<string>, result: WriteResult) returns (sent: Option<VehicleWrite>)
      modifies this
      ensures sent == WriteFor(old(form), old(editing), user)
      ensures sent.Some? && result == WriteOk ==> form == BlankForm() && editing == None && !showForm
      ensures sent.None? || result == WriteFailed ==>
        form == old(form) && editing == old(editing) && showForm == old(showForm)
    {
      sent := WriteFor(form, editing, user);
      if sent.None? || result == WriteFailed {
        return;
      }
      form := BlankForm();
      editing := None;
      showForm := false;
    }
  }
}
