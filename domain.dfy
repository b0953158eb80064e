/**
 The records the components read from and write to the hosted database
 (the type declarations of src/lib/supabase.ts). Audit stamps (created_by,
 created_at, updated_at) are left out. Status, region, route type and weekday
 values are strings, as they are at run time; the constants below name the
 values the forms offer.
 */
module Domain {
  import opened Text

  // Route status values.
  const Active := "active"
  const Inactive := "inactive"
  const Completed := "completed"
  const Cancelled := "cancelled"

  // Route type values.
  const Recurring := "recurring"
  const OneTime := "one_time"

  // The five region values the route forms offer (central, north, south, east, west).
  const Central := "กลาง"
  const North := "เหนือ"
  const South := "ใต้"
  const East := "ออก"
  const West := "ตก"

  predicate KnownRegion(region: string)
  {
    region == Central || region == North || region == South || region == East || region == West
  }

  datatype Driver = Driver(
    id: string,
    name: string,
    phone: Option<string>,
    is_active: bool)

  datatype Vehicle = Vehicle(
    id: string,
    registration_number: string,
    is_active: bool)

  datatype VehicleType = VehicleType(
    id: string,
    type_name: string,
    description: Option<string>,
    is_active: bool)

  datatype Route = Route(
    id: string,
    route_code: string,
    route_name: string,
    region: string,
    origin_coordinates: Option<string>,
    destination_coordinates: Option<string>,
    is_active: bool)

  /**
   A schedule row as the route list fetches it, with its route joined in
   (`route` is absent when the join found nothing). `days_of_week` is optional
   because the form guards it with `|| []`.
   */
  datatype RouteSchedule = RouteSchedule(
    id: string,
    route_id: string,
    route_type: string,
    standby_time: string,
    departure_time: string,
    start_date: string,
    end_date: Option<string>,
    days_of_week: Option<seq<string>>,
    driver_id: Option<string>,
    vehicle_id: Option<string>,
    status: string,
    notes: Option<string>,
    route: Option<Route>)

  /** The database's answer to an insert or update; a thrown exception ends the same way as an error. */
  datatype WriteResult = WriteOk | WriteFailed

  /** One row of the server's daily schedule for a date, taken as given. */
  datatype DailyRoute = DailyRoute(
    schedule_id: string,
    route_id: string,
    route_code: string,
    route_name: string,
    region: string,
    standby_time: string,
    departure_time: string,
    driver_name: Option<string>,
    vehicle_registration: Option<string>,
    status: string,
    is_override: bool,
    notes: Option<string>)
}

/**
 Property access on a JavaScript object literal used as a lookup table,
 followed by `|| fallback`. A plain object also answers for the members it
 inherits from Object.prototype, which a `map` does not have.
 */
module Lookup {
  /** The names an object literal inherits from Object.prototype. */
  const ObjectPrototypeMembers: set<string> := {
    "constructor", "hasOwnProperty", "isPrototypeOf", "propertyIsEnumerable",
    "toLocaleString", "toString", "valueOf", "__proto__",
    "__defineGetter__", "__defineSetter__", "__lookupGetter__", "__lookupSetter__"
  }

  /** What `table[key]` yields: undefined, one of the table's strings, or an inherited member. */
  datatype JsValue = Undefined | Str(s: string) | InheritedMember(name: string)

  /** `table[key]` on an object literal, as the language evaluates it. */
  function PropertyGet(table: map<string, string>, key: string): (v: JsValue)
    ensures key in table ==> v == Str(table[key])
    ensures key !in table && key in ObjectPrototypeMembers ==> v == InheritedMember(key)
    ensures key !in table && key !in ObjectPrototypeMembers ==> v == Undefined
  {
    if key in table then Str(table[key])
    else if key in ObjectPrototypeMembers then InheritedMember(key)
    else Undefined
  }

  /** `v || fallback`: undefined and the empty string are falsy, inherited members are truthy. */
  function OrElse(v: JsValue, fallback: string): (r: JsValue)
    ensures r == Str(fallback) <==> (v.Undefined? || v == Str("") || v == Str(fallback))
    ensures !(v.Undefined? || v == Str("")) ==> r == v
  {
    match v
    case Undefined => Str(fallback)
    case Str(s) => if s == "" then Str(fallback) else v
    case InheritedMember(_) => v
  }

  /** The lookup as intended: the table's own non-empty entry, or the fallback. */
  function OwnLookupOr(table: map<string, string>, key: string, fallback: string): (r: string)
    ensures key in table && table[key] != "" ==> r == table[key]
    ensures key !in table || table[key] == "" ==> r == fallback
  {
    if key in table && table[key] != "" then table[key] else fallback
  }

  /** Off the inherited names, the written lookup and the intended lookup agree. */
  lemma {:induction false} LookupAgreesOffPrototype(table: map<string, string>, key: string, fallback: string)
    requires key in table || key !in ObjectPrototypeMembers
    ensures OrElse(PropertyGet(table, key), fallback) == Str(OwnLookupOr(table, key, fallback))
  {
    if key in table {
      assert PropertyGet(table, key) == Str(table[key]);
    } else {
      assert PropertyGet(table, key) == Undefined;
    }
  }
}
