/**
 The route and schedule form (src/components/RouteForm.tsx): the form state
 and the handlers that replace it, and the two records that saving the form
 writes, one for the `routes` table and one for `route_schedules`.
 */
module RouteForm {
  import opened Text
  import opened Collections
  import opened Domain

  /** The form's `formData`: every input is a string, the weekday checkboxes a list of tags. */
  datatype FormData = FormData(
    route_code: string,
    route_name: string,
    region: string,
    origin_coordinates: string,
    destination_coordinates: string,
    route_type: string,
    standby_time: string,
    departure_time: string,
    start_date: string,
    end_date: string,
    days_of_week: seq<string>,
    driver_id: string,
    vehicle_id: string,
    status: string,
    notes: string)

  /** The fourteen inputs that have their own `onChange` handler. */
  datatype Field =
    | RouteCode | RouteName | Region | OriginCoordinates | DestinationCoordinates
    | RouteType | StandbyTime | DepartureTime | StartDate | EndDate
    | DriverId | VehicleId | Status | Notes

  /** The value an input shows. */
  function FieldValue(f: FormData, field: Field): string
  {
    match field
    case RouteCode => f.route_code
    case RouteName => f.route_name
    case Region => f.region
    case OriginCoordinates => f.origin_coordinates
    case DestinationCoordinates => f.destination_coordinates
    case RouteType => f.route_type
    case StandbyTime => f.standby_time
    case DepartureTime => f.departure_time
    case StartDate => f.start_date
    case EndDate => f.end_date
    case DriverId => f.driver_id
    case VehicleId => f.vehicle_id
    case Status => f.status
    case Notes => f.notes
  }

  /** `setFormData(prev => ({ ...prev, field: value }))`: one input takes the typed value. */
  function WithField(f: FormData, field: Field, value: string): (r: FormData)
    ensures FieldValue(r, field) == value
    ensures forall other :: other != field ==> FieldValue(r, other) == FieldValue(f, other)
    ensures r.days_of_week == f.days_of_week
  {
    match field
    case RouteCode => f.(route_code := value)
    case RouteName => f.(route_name := value)
    case Region => f.(region := value)
    case OriginCoordinates => f.(origin_coordinates := value)
    case DestinationCoordinates => f.(destination_coordinates := value)
    case RouteType => f.(route_type := value)
    case StandbyTime => f.(standby_time := value)
    case DepartureTime => f.(departure_time := value)
    case StartDate => f.(start_date := value)
    case EndDate => f.(end_date := value)
    case DriverId => f.(driver_id := value)
    case VehicleId => f.(vehicle_id := value)
    case Status => f.(status := value)
    case Notes => f.(notes := value)
  }

  /** The state a new form starts in: central region, recurring, active, everything else blank. */
  function BlankForm(): (f: FormData)
    ensures f.days_of_week == []
    ensures forall field :: field !in {Region, RouteType, Status} ==> FieldValue(f, field) == ""
    ensures f.region == Central && f.route_type == Recurring && f.status == Active
  {
    FormData("", "", Central, "", "", Recurring, "", "", "", "", [], "", "", Active, "")
  }

  /** The form filled from a schedule and its route: the required columns as they are, an
      optional column as its value when truthy and as '' otherwise, absent weekdays as none. */
  function FormFromSchedule(s: RouteSchedule, r: Route): (f: FormData)
    ensures f.route_code == r.route_code && f.route_name == r.route_name && f.region == r.region
    ensures f.route_type == s.route_type && f.status == s.status && f.start_date == s.start_date
    ensures f.standby_time == s.standby_time && f.departure_time == s.departure_time
    ensures f.origin_coordinates == "" <==> !Truthy(r.origin_coordinates)
    ensures f.destination_coordinates == "" <==> !Truthy(r.destination_coordinates)
    ensures f.end_date == "" <==> !Truthy(s.end_date)
    ensures f.driver_id == "" <==> !Truthy(s.driver_id)
    ensures f.vehicle_id == "" <==> !Truthy(s.vehicle_id)
    ensures f.notes == "" <==> !Truthy(s.notes)
    ensures Truthy(r.origin_coordinates) ==> f.origin_coordinates == r.origin_coordinates.value
    ensures Truthy(r.destination_coordinates) ==> f.destination_coordinates == r.destination_coordinates.value
    ensures Truthy(s.driver_id) ==> f.driver_id == s.driver_id.value
    ensures Truthy(s.vehicle_id) ==> f.vehicle_id == s.vehicle_id.value
    ensures Truthy(s.notes) ==> f.notes == s.notes.value
    ensures Truthy(s.end_date) ==> f.end_date == s.end_date.value
    ensures s.days_of_week.None? ==> f.days_of_week == []
    ensures s.days_of_week.Some? ==> f.days_of_week == s.days_of_week.value
  {
    FormData(
      r.route_code, r.route_name, r.region,
      OrEmpty(r.origin_coordinates), OrEmpty(r.destination_coordinates),
      s.route_type, s.standby_time, s.departure_time, s.start_date,
      OrEmpty(s.end_date),
      if s.days_of_week.Some? then s.days_of_week.value else [],
      OrEmpty(s.driver_id), OrEmpty(s.vehicle_id), s.status, OrEmpty(s.notes))
  }

  /** The predicate `d => d !== day` of the toggle's filter. */
  function Differs(day: string): string -> bool
  {
    d => d != day
  }

  /** handleDayToggle on the list: a present day is removed everywhere, an absent one appended. */
  function ToggleDay(days: seq<string>, day: string): (r: seq<string>)
    ensures day !in days ==> r == days + [day]
    ensures day in days ==> day !in r && IsSubsequence(r, days)
    ensures day in days ==> forall x :: x != day ==> multiset(r)[x] == multiset(days)[x]
  {
    if day in days then Filter(days, Differs(day)) else days + [day]
  }

  /** Toggling an absent day twice gives back the original list. */
  lemma {:induction false} ToggleAbsentTwice(days: seq<string>, day: string)
    requires day !in days
    ensures ToggleDay(ToggleDay(days, day), day) == days
  {
    FilterAppend(days, [day], Differs(day));
    FilterKeepsAll(days, Differs(day));
    assert Filter([day], Differs(day)) == [];
  }

  /** Toggling a present day twice keeps the same set of days; the day moves to the end. */
  lemma {:induction false} TogglePresentTwice(days: seq<string>, day: string)
    requires day in days
    ensures ToggleDay(ToggleDay(days, day), day) == Filter(days, Differs(day)) + [day]
    ensures forall x :: x in ToggleDay(ToggleDay(days, day), day) <==> x in days
  {
  }

  /** A duplicate-free weekday list stays duplicate-free under a toggle. */
  lemma {:induction false} ToggleKeepsDistinct(days: seq<string>, day: string)
    requires Distinct(days)
    ensures Distinct(ToggleDay(days, day))
  {
    if day in days {
      FilterDistinct(days, Differs(day));
    } else {
      var r := days + [day];
      forall i, j | 0 <= i < j < |r| ensures r[i] != r[j] {
        if j == |days| {
          assert r[i] == days[i];
        } else {
          assert r[i] == days[i] && r[j] == days[j];
        }
      }
    }
  }

  /** The record written to the `routes` table (both the update and the insert). */
  datatype RouteRecord = RouteRecord(
    route_code: string,
    route_name: string,
    region: string,
    origin_coordinates: Option<string>,
    destination_coordinates: Option<string>)

  /** The record written to the `route_schedules` table (both the update and the insert). */
  datatype ScheduleRecord = ScheduleRecord(
    route_type: string,
    standby_time: string,
    departure_time: string,
    start_date: string,
    end_date: Option<string>,
    days_of_week: seq<string>,
    driver_id: Option<string>,
    vehicle_id: Option<string>,
    status: string,
    notes: Option<string>)

  /** How a nullable column holds a form string: null exactly for '', the string itself otherwise. */
  predicate StoredAs(input: string, column: Option<string>)
  {
    (column.None? <==> input == "") && (column.Some? ==> column.value == input)
  }

  /** The `routes` columns a save writes: code, name and region copied, the coordinates
      stored as null when their input is empty. */
  function RoutePayload(f: FormData): (rec: RouteRecord)
    ensures rec.route_code == f.route_code && rec.route_name == f.route_name && rec.region == f.region
    ensures StoredAs(f.origin_coordinates, rec.origin_coordinates)
    ensures StoredAs(f.destination_coordinates, rec.destination_coordinates)
  {
    RouteRecord(f.route_code, f.route_name, f.region,
      NullIfEmpty(f.origin_coordinates), NullIfEmpty(f.destination_coordinates))
  }

  /** The `route_schedules` columns a save writes: the optional inputs stored as null when
      empty, and the weekday list kept for a recurring route only. */
  function SchedulePayload(f: FormData): (rec: ScheduleRecord)
    ensures rec.route_type == f.route_type && rec.status == f.status
    ensures rec.standby_time == f.standby_time && rec.departure_time == f.departure_time
    ensures rec.start_date == f.start_date
    ensures StoredAs(f.end_date, rec.end_date)
    ensures StoredAs(f.driver_id, rec.driver_id)
    ensures StoredAs(f.vehicle_id, rec.vehicle_id)
    ensures StoredAs(f.notes, rec.notes)
    ensures f.route_type == OneTime ==> rec.days_of_week == []
    ensures f.route_type == Recurring ==> rec.days_of_week == f.days_of_week
    ensures f.route_type != Recurring ==> rec.days_of_week == []
  {
    ScheduleRecord(f.route_type, f.standby_time, f.departure_time, f.start_date,
      NullIfEmpty(f.end_date),
      if f.route_type == Recurring then f.days_of_week else [],
      NullIfEmpty(f.driver_id), NullIfEmpty(f.vehicle_id), f.status, NullIfEmpty(f.notes))
  }

  /** The schedule's stored columns, with the weekday list read as the form reads it. */
  function ScheduleRecordOf(s: RouteSchedule): ScheduleRecord
  {
    ScheduleRecord(s.route_type, s.standby_time, s.departure_time, s.start_date, s.end_date,
      if s.days_of_week.Some? then s.days_of_week.value else [],
      s.driver_id, s.vehicle_id, s.status, s.notes)
  }

  /** A schedule the form can save back unchanged: no optional column holds '', and a
      non-recurring schedule has no weekdays. */
  predicate SavesBackUnchanged(s: RouteSchedule, r: Route)
  {
    && (r.origin_coordinates.Some? ==> r.origin_coordinates.value != "")
    && (r.destination_coordinates.Some? ==> r.destination_coordinates.value != "")
    && (s.end_date.Some? ==> s.end_date.value != "")
    && (s.driver_id.Some? ==> s.driver_id.value != "")
    && (s.vehicle_id.Some? ==> s.vehicle_id.value != "")
    && (s.notes.Some? ==> s.notes.value != "")
    && (s.route_type != Recurring ==> s.days_of_week.None? || s.days_of_week.value == [])
  }

  /** Loading a schedule into the form and saving it without edits writes back what was
      loaded, for every schedule the form can represent. */
  lemma {:induction false} SaveAfterLoad(s: RouteSchedule, r: Route)
    requires SavesBackUnchanged(s, r)
    ensures RoutePayload(FormFromSchedule(s, r)) ==
      RouteRecord(r.route_code, r.route_name, r.region, r.origin_coordinates, r.destination_coordinates)
    ensures SchedulePayload(FormFromSchedule(s, r)) == ScheduleRecordOf(s)
  {
    NullIfEmptyOrEmpty(r.origin_coordinates);
    NullIfEmptyOrEmpty(r.destination_coordinates);
    NullIfEmptyOrEmpty(s.end_date);
    NullIfEmptyOrEmpty(s.driver_id);
    NullIfEmptyOrEmpty(s.vehicle_id);
    NullIfEmptyOrEmpty(s.notes);
  }

  /** What handleSubmit writes: an update of both rows when a schedule with its route is being
      edited, otherwise an insert of a new route and a schedule for it. */
  datatype SaveRequest =
    | UpdateExisting(route_id: string, schedule_id: string, route: RouteRecord, schedule: ScheduleRecord)
    | CreateNew(created_by: string, route: RouteRecord, schedule: ScheduleRecord)

  /** handleSubmit: nothing without a signed-in user; the same two records in either branch. */
  function SaveRequestFor(f: FormData, editing: Option<RouteSchedule>, user: Option<string>): (req: Option<SaveRequest>)
    ensures req.None? <==> user.None?
    ensures req.Some? ==> req.value.route == RoutePayload(f) && req.value.schedule == SchedulePayload(f)
    ensures req.Some? ==> (req.value.UpdateExisting? <==> editing.Some? && editing.value.route.Some?)
    ensures req.Some? && req.value.UpdateExisting? ==>
      req.value.route_id == editing.value.route.value.id && req.value.schedule_id == editing.value.id
    ensures req.Some? && req.value.CreateNew? ==> req.value.created_by == user.value
  {
    if user.None? then None
    else if editing.Some? && editing.value.route.Some? then
      Some(UpdateExisting(editing.value.route.value.id, editing.value.id, RoutePayload(f), SchedulePayload(f)))
    else
      Some(CreateNew(user.value, RoutePayload(f), SchedulePayload(f)))
  }

  /** The schedule row written once the route write has succeeded: an update of the edited
      schedule, or an insert attached to the route the route insert answered with. */
  datatype ScheduleWrite =
    | UpdateSchedule(id: string, schedule: ScheduleRecord)
    | InsertSchedule(route_id: string, created_by: string, schedule: ScheduleRecord)

  /** The second write of handleSubmit; `newRouteId` is the id of the row the route insert
      returned, which only the insert branch reads. */
  function ScheduleWriteFor(req: SaveRequest, newRouteId: string): (w: ScheduleWrite)
    ensures w.schedule == req.schedule
    ensures w.UpdateSchedule? <==> req.UpdateExisting?
    ensures req.UpdateExisting? ==> w.id == req.schedule_id
    ensures req.CreateNew? ==> w.route_id == newRouteId && w.created_by == req.created_by
  {
    match req
    case UpdateExisting(_, scheduleId, _, schedule) => UpdateSchedule(scheduleId, schedule)
    case CreateNew(createdBy, _, schedule) => InsertSchedule(newRouteId, createdBy, schedule)
  }

  /** How a submit ends: whether the schedule write was sent and whether onSave was called. */
  datatype SubmitOutcome = SubmitOutcome(scheduleWriteSent: bool, saved: bool)

  /** The two writes run in order: a failed route write stops before the schedule write,
      and onSave runs only when both succeed. */
  function SubmitOutcomeFor(req: Option<SaveRequest>, routeResult: WriteResult, scheduleResult: WriteResult): (o: SubmitOutcome)
    ensures o.scheduleWriteSent <==> req.Some? && routeResult == WriteOk
    ensures o.saved <==> req.Some? && routeResult == WriteOk && scheduleResult == WriteOk
    ensures o.saved ==> o.scheduleWriteSent
  {
    if req.None? || routeResult == WriteFailed then SubmitOutcome(false, false)
    else SubmitOutcome(true, scheduleResult == WriteOk)
  }

  /** The form component's state, replaced by its handlers. */
  class RouteFormState {
    var form: FormData

    constructor ()
      ensures form == BlankForm()
    {
      form := BlankForm();
    }

    /** The effect on `route`: a schedule that has its route fills the form, anything else leaves it. */
    method LoadSchedule(route: Option<RouteSchedule>)
      modifies this
      ensures route.Some? && route.value.route.Some? ==>
        form == FormFromSchedule(route.value, route.value.route.value)
      ensures !(route.Some? && route.value.route.Some?) ==> form == old(form)
    {
      if route.Some? && route.value.route.Some? {
        form := FormFromSchedule(route.value, route.value.route.value);
      }
    }

    /** handleDayToggle: only the weekday list changes. */
    method HandleDayToggle(day: string)
      modifies this
      ensures form.days_of_week == ToggleDay(old(form).days_of_week, day)
      ensures forall field :: FieldValue(form, field) == FieldValue(old(form), field)
    {
      form := form.(days_of_week := ToggleDay(form.days_of_week, day));
    }

    /** An input's onChange handler. */
    method Edit(field: Field, value: string)
      modifies this
      ensures form == WithField(old(form), field, value)
    {
      form := WithField(form, field, value);
    }
  }
}
