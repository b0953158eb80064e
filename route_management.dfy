/**
 The route list (src/components/RouteManagement.tsx): the search and region
 filter over the fetched schedules, and the helpers that turn weekday tags,
 route types and statuses into display text and badge styles.
 */
module RouteManagement {
  import opened Text
  import opened Collections
  import opened Domain
  import opened Lookup

  /** Whether a route's code or name contains the search term, ignoring case. */
  predicate MatchesSearch(r: Route, searchTerm: string)
  {
    Includes(Lower(r.route_code), Lower(searchTerm)) || Includes(Lower(r.route_name), Lower(searchTerm))
  }

  /** Whether a route lies in the selected region; '' selects every region. */
  predicate MatchesRegion(r: Route, filterRegion: string)
  {
    filterRegion == "" || r.region == filterRegion
  }

  /** The filter's predicate: a schedule without its route is never shown. */
  function KeepsSchedule(searchTerm: string, filterRegion: string): RouteSchedule -> bool
  {
    (s: RouteSchedule) => s.route.Some? && MatchesSearch(s.route.value, searchTerm) && MatchesRegion(s.route.value, filterRegion)
  }

  /** filteredRoutes: the schedules whose route matches both the search term and the region. */
  function FilteredRoutes(routes: seq<RouteSchedule>, searchTerm: string, filterRegion: string): (r: seq<RouteSchedule>)
    ensures forall s: RouteSchedule :: s in r <==>
      s in routes && s.route.Some? &&
      MatchesSearch(s.route.value, searchTerm) && MatchesRegion(s.route.value, filterRegion)
    ensures forall s: RouteSchedule :: s.route.None? ==> s !in r
    ensures IsSubsequence(r, routes)
    ensures forall s: RouteSchedule ::
      multiset(r)[s] == if KeepsSchedule(searchTerm, filterRegion)(s) then multiset(routes)[s] else 0
  {
    Filter(routes, KeepsSchedule(searchTerm, filterRegion))
  }

  /** Whether a schedule has its route joined in. */
  function HasRoute(s: RouteSchedule): bool
  {
    s.route.Some?
  }

  /** With an empty search term and no region selected, exactly the schedules with a route remain. */
  lemma {:induction false} EmptyFiltersKeepJoined(routes: seq<RouteSchedule>)
    ensures FilteredRoutes(routes, "", "") == Filter(routes, HasRoute)
  {
    forall s | s in routes ensures KeepsSchedule("", "")(s) == HasRoute(s) {
      if s.route.Some? {
        IncludesEmpty(Lower(s.route.value.route_code));
      }
    }
    FilterCongruent(routes, KeepsSchedule("", ""), HasRoute);
  }

  /** The weekday abbreviations of getDayOfWeekText. */
  const DayAbbreviations: map<string, string> := map[
    "monday" := "จ", "tuesday" := "อ", "wednesday" := "พ", "thursday" := "พฤ",
    "friday" := "ศ", "saturday" := "ส", "sunday" := "อา"]

  /** `dayMap[day]` inside the join: a tag outside the table is undefined, which joins as ''. */
  function DayAbbrev(day: string): (a: string)
    ensures day in DayAbbreviations ==> a == DayAbbreviations[day] && a != ""
    ensures day !in DayAbbreviations ==> a == ""
  {
    if day in DayAbbreviations then DayAbbreviations[day] else ""
  }

  /** `days.map(day => dayMap[day])`: one abbreviation per day, in order. */
  function Abbreviations(days: seq<string>): (r: seq<string>)
    ensures |r| == |days|
    ensures forall i :: 0 <= i < |days| ==> r[i] == DayAbbrev(days[i])
  {
    if days == [] then [] else [DayAbbrev(days[0])] + Abbreviations(days[1..])
  }

  /** getDayOfWeekText: the abbreviations joined by ", ". No days give '', one day its
      abbreviation. */
  function DayOfWeekText(days: seq<string>): (text: string)
    ensures days == [] ==> text == ""
    ensures |days| == 1 ==> text == DayAbbrev(days[0])
  {
    Join(Abbreviations(days), ", ")
  }

  /** The text of a concatenation is the two texts with one ", " between. */
  lemma {:induction false} DayOfWeekTextAppend(a: seq<string>, b: seq<string>)
    requires a != [] && b != []
    ensures DayOfWeekText(a + b) == DayOfWeekText(a) + ", " + DayOfWeekText(b)
  {
    assert Abbreviations(a + b) == Abbreviations(a) + Abbreviations(b);
    JoinAppend(Abbreviations(a), Abbreviations(b), ", ");
  }

  const RecurringLabel := "เส้นทางประจำ"
  const ExtraRouteLabel := "เส้นทางเสริม"

  /** getRouteTypeText: the recurring label for 'recurring' only, the extra-route label otherwise. */
  function RouteTypeText(routeType: string): (text: string)
    ensures text == RecurringLabel <==> routeType == Recurring
    ensures text == ExtraRouteLabel <==> routeType != Recurring
  {
    if routeType == Recurring then RecurringLabel else ExtraRouteLabel
  }

  const StatusStyles: map<string, string> := map[
    Active := "bg-green-100 text-green-800 border-green-200",
    Inactive := "bg-gray-100 text-gray-800 border-gray-200",
    Completed := "bg-blue-100 text-blue-800 border-blue-200",
    Cancelled := "bg-red-100 text-red-800 border-red-200"]

  const StatusLabels: map<string, string> := map[
    Active := "ใช้งาน",
    Inactive := "ไม่ใช้งาน",
    Completed := "เสร็จสิ้น",
    Cancelled := "ยกเลิก"]

  /** A status badge: its style class and the text it shows. */
  datatype Badge = Badge(style: string, caption: string)

  /** getStatusBadge: a known status gets its own style and label; any other status the
      inactive style and its own raw text. */
  function StatusBadge(status: string): (b: Badge)
    ensures status in StatusStyles ==> b == Badge(StatusStyles[status], StatusLabels[status])
    ensures status !in StatusStyles ==> b == Badge(StatusStyles[Inactive], status)
  {
    Badge(OwnLookupOr(StatusStyles, status, StatusStyles[Inactive]), OwnLookupOr(StatusLabels, status, status))
  }
}
