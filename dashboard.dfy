/**
 The daily dashboard (src/components/Dashboard.tsx): the selected date and
 its one-day steps, the four counters derived from the rows the server
 returns for that date, and the region colour and status badge of each row.
 The rows themselves are an input: the server procedure that computes them
 is not part of this model.
 */
module Dashboard {
  import opened Text
  import opened Collections
  import opened Domain
  import opened Lookup
  import RouteManagement

  /** The four counters shown above the table. */
  datatype Stats = Stats(totalRoutes: int, activeRoutes: int, completedRoutes: int, pendingRoutes: int)

  function IsActive(r: DailyRoute): bool { r.status == Active }
  function IsCompleted(r: DailyRoute): bool { r.status == Completed }
  function IsPending(r: DailyRoute): bool { r.status != Active && r.status != Completed }

  /** Every row is active, completed or neither, and exactly one of these. */
  lemma {:induction false} StatusPartition(rows: seq<DailyRoute>)
    ensures Count(rows, IsActive) + Count(rows, IsCompleted) + Count(rows, IsPending) == |rows|
  {
    if rows != [] {
      StatusPartition(rows[1..]);
    }
  }

  /** The counters of fetchDailyRoutes: total rows, the active and the completed ones, and
      pending as total minus both, which is the number of rows that are neither. */
  function StatsOf(rows: seq<DailyRoute>): (s: Stats)
    ensures s.totalRoutes == |rows|
    ensures s.activeRoutes == Count(rows, IsActive)
    ensures s.completedRoutes == Count(rows, IsCompleted)
    ensures s.pendingRoutes == Count(rows, IsPending) && s.pendingRoutes >= 0
    ensures s.activeRoutes + s.completedRoutes + s.pendingRoutes == s.totalRoutes
  {
    FilterLength(rows, IsActive);
    FilterLength(rows, IsCompleted);
    StatusPartition(rows);
    var total := |rows|;
    var active := |Filter(rows, IsActive)|;
    var completed := |Filter(rows, IsCompleted)|;
    Stats(total, active, completed, total - active - completed)
  }

  /** With no rows every counter is zero. */
  lemma NoRowsNoCounts()
    ensures StatsOf([]) == Stats(0, 0, 0, 0)
  {
  }

  /** What the server call yields: an error, or data that may be null. */
  datatype RpcResponse = RpcError | RpcData(data: Option<seq<DailyRoute>>)

  datatype Direction = Prev | Next

  /** navigateDate on a date counted in days: one day back or one day forward. */
  function Step(date: int, direction: Direction): (d: int)
    ensures direction == Prev ==> d == date - 1
    ensures direction == Next ==> d == date + 1
  {
    match direction
    case Prev => date - 1
    case Next => date + 1
  }

  /** A step back and a step forward, in either order, return to the starting date. */
  lemma StepsCancel(date: int)
    ensures Step(Step(date, Prev), Next) == date
    ensures Step(Step(date, Next), Prev) == date
  {
  }

  const RegionColors: map<string, string> := map[
    Central := "bg-blue-500", North := "bg-green-500", South := "bg-orange-500",
    East := "bg-purple-500", West := "bg-red-500"]

  const GrayColor := "bg-gray-500"

  /** getRegionColor as written: an object-literal lookup followed by `|| 'bg-gray-500'`.
      A region in the table gets its colour, an inherited member name outside it gets that
      member, and every other value gets gray. */
  function RegionColorAsWritten(region: string): (v: JsValue)
    ensures region in RegionColors ==> v == Str(RegionColors[region])
    ensures region !in RegionColors && region in ObjectPrototypeMembers ==> v == InheritedMember(region)
    ensures region !in RegionColors && region !in ObjectPrototypeMembers ==> v == Str(GrayColor)
  {
    OrElse(PropertyGet(RegionColors, region), GrayColor)
  }

  /** As written, a region named after an inherited member gets that member instead of gray. */
  lemma RegionColorAsWrittenInheritedName()
    ensures "toString" !in RegionColors
    ensures RegionColorAsWritten("toString") == InheritedMember("toString")
    ensures RegionColorAsWritten("toString") != Str(GrayColor)
  {
  }

  /** getRegionColor as intended: the five regions' colours, gray for every other value. */
  function RegionColor(region: string): (c: string)
    ensures KnownRegion(region) ==> c == RegionColors[region]
    ensures !KnownRegion(region) ==> c == GrayColor
  {
    OwnLookupOr(RegionColors, region, GrayColor)
  }

  /** The written lookup and the intended one agree on every region that is not an inherited name. */
  lemma RegionColorAgrees(region: string)
    requires region !in ObjectPrototypeMembers
    ensures RegionColorAsWritten(region) == Str(RegionColor(region))
  {
    LookupAgreesOffPrototype(RegionColors, region, GrayColor);
  }

  const StatusStyles: map<string, string> := map[
    Active := "bg-green-100 text-green-800 border-green-200",
    Completed := "bg-blue-100 text-blue-800 border-blue-200",
    Cancelled := "bg-red-100 text-red-800 border-red-200",
    Inactive := "bg-gray-100 text-gray-800 border-gray-200"]

  const StatusLabels: map<string, string> := map[
    Active := "ใช้งาน",
    Completed := "เสร็จสิ้น",
    Cancelled := "ยกเลิก",
    Inactive := "ไม่ใช้งาน"]

  /** The dashboard's getStatusBadge: known statuses get their style and label, any other
      status the inactive style and its raw text. */
  function StatusBadge(status: string): (b: RouteManagement.Badge)
    ensures status in StatusStyles ==> b == RouteManagement.Badge(StatusStyles[status], StatusLabels[status])
    ensures status !in StatusStyles ==> b == RouteManagement.Badge(StatusStyles[Inactive], status)
  {
    RouteManagement.Badge(OwnLookupOr(StatusStyles, status, StatusStyles[Inactive]), OwnLookupOr(StatusLabels, status, status))
  }

  /** The dashboard and the route list show every status with the same badge. */
  lemma StatusBadgesAgree(status: string)
    ensures StatusBadge(status) == RouteManagement.StatusBadge(status)
  {
    assert StatusStyles == RouteManagement.StatusStyles;
    assert StatusLabels == RouteManagement.StatusLabels;
  }

  /** The dashboard's state: the selected date, the rows shown and the counters. */
  class DashboardState {
    var selectedDate: int
    var dailyRoutes: seq<DailyRoute>
    var stats: Stats

    /** The counters always describe the rows on screen. */
    ghost predicate Valid()
      reads this
    {
      stats == StatsOf(dailyRoutes)
    }

    /** The dashboard opens on today with no rows and zero counters. */
    constructor (today: int)
      ensures Valid()
      ensures selectedDate == today && dailyRoutes == [] && stats == Stats(0, 0, 0, 0)
    {
      selectedDate := today;
      dailyRoutes := [];
      stats := Stats(0, 0, 0, 0);
    }

    /** navigateDate: only the selected date moves. */
    method NavigateDate(direction: Direction)
      requires Valid()
      modifies this
      ensures Valid()
      ensures selectedDate == Step(old(selectedDate), direction)
      ensures dailyRoutes == old(dailyRoutes) && stats == old(stats)
    {
      selectedDate := Step(selectedDate, direction);
    }

    /** The "today" button: the clock's date becomes the selected date. */
    method GoToToday(today: int)
      requires Valid()
      modifies this
      ensures Valid()
      ensures selectedDate == today
      ensures dailyRoutes == old(dailyRoutes) && stats == old(stats)
    {
      selectedDate := today;
    }

    /** fetchDailyRoutes after the server answers: an error leaves everything as it was;
        data (null read as no rows) replaces the rows and the counters. */
    method ReceiveDailyRoutes(response: RpcResponse)
      requires Valid()
      modifies this
      ensures Valid()
      ensures selectedDate == old(selectedDate)
      ensures response.RpcError? ==> dailyRoutes == old(dailyRoutes) && stats == old(stats)
      ensures response.RpcData? ==>
        dailyRoutes == (if response.data.Some? then response.data.value else []) &&
        stats == StatsOf(dailyRoutes)
    {
      if response.RpcError? {
        return;
      }
      var rows := if response.data.Some? then response.data.value else [];
      dailyRoutes := rows;
      stats := StatsOf(rows);
    }
  }
}
