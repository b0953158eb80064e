# Fleet route scheduling dashboard: client-side rules

This project models, in Dafny, the logic that the dashboard's browser
components run themselves: the route and schedule form, the route list's
search and label helpers, the daily dashboard's counters and date
stepping, and the search, edit and save handling of the drivers, vehicles
and vehicle types pages. Database reads and writes are cut away. The lists
a page fetches and the result of each write are parameters. The rows of the
daily schedule come from a server procedure that is not in the repository.
They are taken as given and never computed here.

Modules follow the source files:

- `Domain` holds the records of `src/lib/supabase.ts`.
- `Text`, `Collections` and `Lookup` hold the JavaScript idioms the
  components use: `toLowerCase`, `includes`, `join`, `filter`, `x || ''`,
  `x || null`, and object-literal lookup with a `||` fallback.
- `RouteForm`, `RouteManagement`, `Dashboard`, `DriversManagement`,
  `VehiclesManagement` and `VehicleTypesManagement` model one component each.

Each page's state (`formData`, the record being edited, whether the form
is open, the selected date and the counters) is a class. Its handlers,
including each form input's onChange, are methods whose contracts state the
whole new state, through pure functions where the handler computes
something. The lemmas are stated about those functions.

Notes on what the code does:

- The code stores weekdays as a list that the checkbox toggle edits, not
  as a set.
- The saved weekday list is emptied for every route type other than
  `recurring`, not only for `one_time`.
- A blank driver phone is saved as `''`, because the form is spread into
  the write. A blank vehicle-type description is saved as null.
- The region type declaration merges two regions into one literal. The
  model uses the five values the forms offer.

## Model

| member | source | states |
|---|---|---|
| `RouteForm.RouteFormState.constructor` | src/components/RouteForm.tsx:17-36 | A new form is blank, with region central, type recurring, status active and no weekdays. |
| `RouteForm.BlankForm` | src/components/RouteForm.tsx:17-36 | Every input of the initial form is `''` except region, route type and status, and the weekday list is empty. |
| `RouteForm.FormFromSchedule` | src/components/RouteForm.tsx:40-56 | The form a schedule loads into: the required columns as they are, each optional column as its value when truthy and `''` otherwise, and absent weekdays as an empty list. |
| `RouteForm.RouteFormState.LoadSchedule` | src/components/RouteForm.tsx:38-58 | A schedule with its route fills the form from the schedule and route, absent optional values as `''` and absent weekdays as `[]`. Any other value leaves the form unchanged. |
| `RouteForm.RouteFormState.HandleDayToggle` | src/components/RouteForm.tsx:60-67 | Only the weekday list changes, to the toggled list. Every other input keeps its value. |
| `RouteForm.ToggleDay` | src/components/RouteForm.tsx:63-65 | An absent day is appended after the existing days. A present day disappears entirely, and the rest keep their order and multiplicities. |
| `RouteForm.ToggleAbsentTwice` | src/components/RouteForm.tsx:60-67 | Toggling an absent day twice restores the original list exactly. |
| `RouteForm.TogglePresentTwice` | src/components/RouteForm.tsx:60-67 | Toggling a present day twice keeps the same set of days, with that day moved to the end. |
| `RouteForm.ToggleKeepsDistinct` | src/components/RouteForm.tsx:63-65 | A duplicate-free weekday list stays duplicate-free after a toggle. |
| `RouteForm.WithField` | src/components/RouteForm.tsx:219-443 | An input's change handler sets that input to the typed value. Every other input and the weekday list are unchanged. |
| `RouteForm.RouteFormState.Edit` | src/components/RouteForm.tsx:219-443 | The form becomes the old form with the one input replaced. |
| `RouteForm.RoutePayload` | src/components/RouteForm.tsx:79-86 | The `routes` columns of both the update and the insert (lines 121-128): code, name and region are copied, and each coordinate is null exactly when its input is `''` and otherwise the input. |
| `RouteForm.SchedulePayload` | src/components/RouteForm.tsx:97-109 | The `route_schedules` columns of both the update and the insert (lines 140-153): end date, driver, vehicle and notes are null exactly when their input is `''`, the other inputs are copied, and the weekday list is the form's for a recurring route and empty for one-time or any other type. |
| `RouteForm.SaveAfterLoad` | src/components/RouteForm.tsx:38-153 | Loading a schedule and saving without edits writes back the loaded route and schedule columns. This holds whenever no optional column held `''` and a non-recurring schedule had no weekdays. |
| `RouteForm.SaveRequestFor` | src/components/RouteForm.tsx:69-160 | Nothing is written without a user. Editing a schedule that has its route updates both rows by their ids. Otherwise a new route and schedule are inserted. Both branches carry the same normalised records. |
| `RouteForm.ScheduleWriteFor` | src/components/RouteForm.tsx:94-155 | The schedule write after a successful route write carries the same schedule columns. It updates the edited schedule by its id, or inserts a row stamped with the user whose `route_id` is the id the route insert returned. |
| `RouteForm.SubmitOutcomeFor` | src/components/RouteForm.tsx:75-162 | The schedule write is sent only after the route write succeeds. onSave is called only when both succeed. |
| `RouteManagement.FilteredRoutes` | src/components/RouteManagement.tsx:84-95 | A schedule is kept iff it has a route whose lower-cased code or name contains the lower-cased term, and the region filter is `''` or equals its region. Every kept schedule keeps all its occurrences, and the result is an order-preserving subsequence of the fetched schedules. |
| `RouteManagement.EmptyFiltersKeepJoined` | src/components/RouteManagement.tsx:84-95 | With an empty term and no region selected, exactly the schedules that have a route are kept, in order. |
| `RouteManagement.DayAbbrev` | src/components/RouteManagement.tsx:98-108 | Each of the seven tags has its non-empty abbreviation. Any other tag contributes `''`. |
| `RouteManagement.Abbreviations` | src/components/RouteManagement.tsx:108 | There is one abbreviation per input day, in input order. |
| `RouteManagement.DayOfWeekText` | src/components/RouteManagement.tsx:97-109 | No days give the empty text, and one day gives its abbreviation. |
| `RouteManagement.DayOfWeekTextAppend` | src/components/RouteManagement.tsx:97-109 | The text of two non-empty day lists run together is their two texts joined by one `", "`. |
| `RouteManagement.RouteTypeText` | src/components/RouteManagement.tsx:111-113 | The recurring label appears iff the type is `'recurring'`. Every other value gets the extra-route label. |
| `RouteManagement.StatusBadge` | src/components/RouteManagement.tsx:115-137 | A known status gets its own style and label. Any other status gets the inactive style and shows its raw text. |
| `Dashboard.StatusPartition` | src/components/Dashboard.tsx:37-40 | Active, completed and neither-status rows add up to all rows. |
| `Dashboard.StatsOf` | src/components/Dashboard.tsx:36-47 | Total is the row count. Active and completed count rows with those statuses. Pending counts the rows that are neither, so it is never negative, and the three add up to the total. |
| `Dashboard.NoRowsNoCounts` | src/components/Dashboard.tsx:37-40 | With no rows every counter is 0. |
| `Dashboard.Step` | src/components/Dashboard.tsx:55-61 | 'prev' moves the date one day back and 'next' one day forward. |
| `Dashboard.StepsCancel` | src/components/Dashboard.tsx:55-61 | A step back followed by a step forward returns to the starting date, and so does the reverse order. |
| `Dashboard.DashboardState.constructor` | src/components/Dashboard.tsx:8-16 | The page opens on today, with no rows and all counters 0, and the counters describe the rows. |
| `Dashboard.DashboardState.NavigateDate` | src/components/Dashboard.tsx:55-61 | Only the selected date moves, by one step. The rows and counters are unchanged and stay consistent. |
| `Dashboard.DashboardState.GoToToday` | src/components/Dashboard.tsx:127-129 | The "today" button sets the selected date to the clock's date and changes nothing else. |
| `Dashboard.DashboardState.ReceiveDailyRoutes` | src/components/Dashboard.tsx:22-53 | An error leaves rows and counters as they were. Data replaces the rows, with null read as no rows, and sets the counters to those of the new rows. |
| `Dashboard.RegionColor` | src/components/Dashboard.tsx:87-96 | The five regions get their colours. Every other value gets gray. |
| `Dashboard.RegionColorAsWritten` | src/components/Dashboard.tsx:87-96 | The lookup as the language evaluates it: a region in the table gets its colour, an inherited Object.prototype member name outside the table gets that member, and every other value gets gray. |
| `Dashboard.RegionColorAsWrittenInheritedName` | src/components/Dashboard.tsx:95 | For the region `"toString"`, the written lookup yields the inherited member, not gray. |
| `Dashboard.RegionColorAgrees` | src/components/Dashboard.tsx:95 | On every value that is not an inherited member name, the written lookup gives the intended colour. |
| `Dashboard.StatusBadge` | src/components/Dashboard.tsx:63-85 | A known status gets its own style and label. Any other status gets the inactive style and its raw text. |
| `Dashboard.StatusBadgesAgree` | src/components/Dashboard.tsx:63-85 | The dashboard and the route list draw the same badge for every status. |
| `Lookup.LookupAgreesOffPrototype` | src/components/Dashboard.tsx:80-82 | A table lookup with an or-fallback equals the own-entry lookup for every key that is in the table or is not an inherited member name. |
| `Lookup.PropertyGet` | src/components/Dashboard.tsx:95 | Reading a key of an object literal gives its own entry, else the inherited Object.prototype member of that name, else undefined. |
| `Lookup.OrElse` | src/components/Dashboard.tsx:95 | An or-fallback gives the fallback exactly for undefined, `''` or the fallback itself, and returns any other (truthy) value unchanged. |
| `Text.IncludesIffOccurs` | src/components/DriversManagement.tsx:122-124 | `includes` holds iff the term occurs as a contiguous block at some position. |
| `Text.Includes` | src/components/DriversManagement.tsx:123 | `includes` holds for every prefix, and never for a term longer than the text. |
| `Text.Lower` | src/components/DriversManagement.tsx:123 | `toLowerCase` keeps the length and maps each character on its own, A-Z to a-z and every other character to itself. |
| `Text.OrEmpty` | src/components/RouteForm.tsx:44-55 | An or-`''` fallback on an optional column gives the value when present and `''` when absent. |
| `Text.NullIfEmpty` | src/components/RouteForm.tsx:102 | Or-null on a form string is null iff the string is `''`, and otherwise the string. |
| `Text.NullIfEmptyOrEmpty` | src/components/RouteForm.tsx:50 | Showing an optional column with an or-`''` fallback and storing it back with or-null reproduces it, except that a present `''` becomes null. |
| `Text.JoinAppend` | src/components/RouteManagement.tsx:108 | Joining two non-empty lists run together is joining each, with one separator between. |
| `Text.Join` | src/components/RouteManagement.tsx:108 | `join` of no parts is `''` and of one part is that part. Otherwise the text starts with the first part followed by the separator. |
| `Collections.Filter` | src/components/RouteManagement.tsx:84 | `filter` keeps exactly the elements satisfying the predicate, with their multiplicities, as an order-preserving subsequence. |
| `Collections.FilterLength` | src/components/Dashboard.tsx:38-39 | `filter(p).length` is the number of elements satisfying `p`. |
| `Collections.FilterDistinct` | src/components/RouteForm.tsx:64 | Filtering a duplicate-free list leaves it duplicate-free. |
| `DriversManagement.FilteredDrivers` | src/components/DriversManagement.tsx:122-124 | A driver is kept iff its lower-cased name contains the lower-cased term, with multiplicities and fetched order preserved. |
| `DriversManagement.EmptySearchKeepsAll` | src/components/DriversManagement.tsx:122-124 | An empty search term keeps every driver, in order. |
| `DriversManagement.WriteFor` | src/components/DriversManagement.tsx:44-76 | Nothing is written without a user. The form is sent as an update of the edited driver's id, or as an insert stamped with the user. |
| `DriversManagement.BlankForm` | src/components/DriversManagement.tsx:78 | The blank form of the add button and of the reset after a save (line 139) is name `''`, phone `''`, active. |
| `DriversManagement.FormOf` | src/components/DriversManagement.tsx:90-94 | The form an edit fills: name and flag copied, the phone `''` exactly when it is absent or empty and otherwise the phone. |
| `DriversManagement.SaveAfterEdit` | src/components/DriversManagement.tsx:88-96 | Saving an unedited driver writes back its name and flag, with its phone or `''` when it had none. |
| `DriversManagement.DriversPage.constructor` | src/components/DriversManagement.tsx:11-17 | The page starts with a blank form, no driver being edited and the form closed. |
| `DriversManagement.DriversPage.HandleEdit` | src/components/DriversManagement.tsx:88-96 | The driver becomes the one being edited and fills the form (name, phone or `''`, flag), and the form opens. |
| `DriversManagement.DriversPage.OpenAdd` | src/components/DriversManagement.tsx:137-140 | The "add" button clears the edited driver, blanks the form to `''`, `''`, active, and opens it. |
| `DriversManagement.DriversPage.EditName` | src/components/DriversManagement.tsx:180 | Typing a name changes only the name. The edited driver and the form's visibility stay. |
| `DriversManagement.DriversPage.EditPhone` | src/components/DriversManagement.tsx:194 | Typing a phone changes only the phone. The edited driver and the form's visibility stay. |
| `DriversManagement.DriversPage.SetActive` | src/components/DriversManagement.tsx:205 | The checkbox changes only the active flag. The edited driver and the form's visibility stay. |
| `DriversManagement.DriversPage.CloseForm` | src/components/DriversManagement.tsx:216 | Cancel closes the form and keeps its contents. |
| `DriversManagement.DriversPage.Submit` | src/components/DriversManagement.tsx:44-86 | The write sent is the one for the form at submit time. Only a successful write resets the form to `''`, `''`, active, clears the edited driver and closes the form. Otherwise nothing changes. |
| `VehiclesManagement.VehicleData` | src/components/VehiclesManagement.tsx:48-51 | The record carries exactly the form's registration number and active flag. |
| `VehiclesManagement.BlankForm` | src/components/VehiclesManagement.tsx:82 | The blank form of the add button and of the reset after a save (line 142) is registration `''`, active. |
| `VehiclesManagement.FormOf` | src/components/VehiclesManagement.tsx:94-97 | The form an edit fills carries the vehicle's registration number and active flag. |
| `VehiclesManagement.WriteFor` | src/components/VehiclesManagement.tsx:43-80 | Nothing is written without a user. The record is sent as an update of the edited vehicle or as an insert stamped with the user. |
| `VehiclesManagement.SaveAfterEdit` | src/components/VehiclesManagement.tsx:92-98 | Saving an unedited vehicle writes back exactly its registration and flag. |
| `VehiclesManagement.FilteredVehicles` | src/components/VehiclesManagement.tsx:125-127 | A vehicle is kept iff its lower-cased registration contains the lower-cased term, with multiplicities and order preserved. |
| `VehiclesManagement.EmptySearchKeepsAll` | src/components/VehiclesManagement.tsx:125-127 | An empty search term keeps every vehicle, in order. |
| `VehiclesManagement.VehiclesPage.constructor` | src/components/VehiclesManagement.tsx:11-16 | The page starts with a blank form, nothing being edited and the form closed. |
| `VehiclesManagement.VehiclesPage.HandleEdit` | src/components/VehiclesManagement.tsx:92-99 | The vehicle becomes the one being edited, its registration and flag fill the form, and the form opens. |
| `VehiclesManagement.VehiclesPage.OpenAdd` | src/components/VehiclesManagement.tsx:140-144 | The "add" button clears the edited vehicle, blanks the form to `''`, active, and opens it. |
| `VehiclesManagement.VehiclesPage.EditRegistration` | src/components/VehiclesManagement.tsx:183 | Typing a registration changes only the registration number. The edited vehicle and the form's visibility stay. |
| `VehiclesManagement.VehiclesPage.SetActive` | src/components/VehiclesManagement.tsx:195 | The checkbox changes only the active flag. The edited vehicle and the form's visibility stay. |
| `VehiclesManagement.VehiclesPage.CloseForm` | src/components/VehiclesManagement.tsx:206 | Cancel closes the form and keeps its contents. |
| `VehiclesManagement.VehiclesPage.Submit` | src/components/VehiclesManagement.tsx:43-90 | The write sent is the one for the form at submit time. Only a successful write resets the form to `''`, active, clears the edited vehicle and closes the form. |
| `VehicleTypesManagement.TypeData` | src/components/VehicleTypesManagement.tsx:49-53 | Name and flag are copied. The description is null exactly when the form's is `''`, and otherwise the form's. |
| `VehicleTypesManagement.BlankForm` | src/components/VehicleTypesManagement.tsx:84 | The blank form of the add button and of the reset after a save (line 146) is name `''`, description `''`, active. |
| `VehicleTypesManagement.WriteFor` | src/components/VehicleTypesManagement.tsx:44-82 | Nothing is written without a user. The record is sent as an update of the edited type or as an insert stamped with the user. |
| `VehicleTypesManagement.FormOf` | src/components/VehicleTypesManagement.tsx:96-100 | The form an edit fills: name and flag copied, the description `''` exactly when it is absent or empty and otherwise the description. |
| `VehicleTypesManagement.TypeMatches` | src/components/VehicleTypesManagement.tsx:128-131 | A lower-cased name match is enough, an empty term matches every type, and a type without a non-empty description matches exactly when its name does. |
| `VehicleTypesManagement.SaveAfterEdit` | src/components/VehicleTypesManagement.tsx:94-101 | Saving an unedited type writes back its name, flag and description, except that a stored `''` description comes back as null. |
| `VehicleTypesManagement.FilteredTypes` | src/components/VehicleTypesManagement.tsx:128-131 | A type is kept iff its lower-cased name contains the lower-cased term, or it has a non-empty description whose lower-cased text does. Multiplicities and order are preserved. |
| `VehicleTypesManagement.NoDescriptionNameOnly` | src/components/VehicleTypesManagement.tsx:130 | A type without a description is kept exactly when its name matches. |
| `VehicleTypesManagement.EmptySearchKeepsAll` | src/components/VehicleTypesManagement.tsx:128-131 | An empty search term keeps every type, in order. |
| `VehicleTypesManagement.VehicleTypesPage.constructor` | src/components/VehicleTypesManagement.tsx:11-17 | The page starts with a blank form, nothing being edited and the form closed. |
| `VehicleTypesManagement.VehicleTypesPage.HandleEdit` | src/components/VehicleTypesManagement.tsx:94-102 | The type becomes the one being edited and fills the form (name, description or `''`, flag), and the form opens. |
| `VehicleTypesManagement.VehicleTypesPage.OpenAdd` | src/components/VehicleTypesManagement.tsx:144-148 | The "add" button clears the edited type, blanks the form to `''`, `''`, active, and opens it. |
| `VehicleTypesManagement.VehicleTypesPage.EditName` | src/components/VehicleTypesManagement.tsx:187 | Typing a name changes only the type name. The edited type and the form's visibility stay. |
| `VehicleTypesManagement.VehicleTypesPage.EditDescription` | src/components/VehicleTypesManagement.tsx:200 | Typing a description changes only the description. The edited type and the form's visibility stay. |
| `VehicleTypesManagement.VehicleTypesPage.SetActive` | src/components/VehicleTypesManagement.tsx:212 | The checkbox changes only the active flag. The edited type and the form's visibility stay. |
| `VehicleTypesManagement.VehicleTypesPage.CloseForm` | src/components/VehicleTypesManagement.tsx:223 | Cancel closes the form and keeps its contents. |
| `VehicleTypesManagement.VehicleTypesPage.Submit` | src/components/VehicleTypesManagement.tsx:44-92 | The write sent is the one for the form at submit time. Only a successful write resets the form to `''`, `''`, active, clears the edited type and closes the form. |

## Left out

- Database traffic is not modelled: every select, insert, update, delete and remote call. The fetched lists, the id the route insert returns and each write's result are parameters. The fetch after a save or delete, and the deletes themselves, are I/O.
- The server procedure that computes a date's route rows is not in the repository. The dashboard's rows are an opaque input. No recurrence or override rule is modelled.
- Authentication, navigation and rendering are not modelled: the sign-in form, the auth hook, the layout and view switch, JSX, CSS and the `loading` flags. `confirm`/`alert` dialogs, console logging and async sequencing are left out too. Thai labels and CSS classes are string constants.
- Dates are integer day numbers. Formatting, the Thai locale, time of day and the `created_at`/`updated_at` timestamps of the writes are left out. Each insert's `created_by` is modelled, as the signed-in user's id.
- `Text.Lower`: folds only ASCII A-Z. Full Unicode case mapping is not modelled. Thai has no letter case, so Thai text is matched exactly as `toLowerCase` would match it.
- `RouteManagement.DayAbbrev`: a tag named after an Object.prototype member, such as `"toString"`, would look up that inherited member. The model gives `''`, the own-entry reading. The Findings row shows the effect on the region colour.
- `RouteManagement.StatusBadge`: the same inherited-member case is read as an unknown status.
- `Dashboard.StatusBadge`: the same inherited-member case is read as an unknown status.
- The route list's own page state is not modelled: its edit and visibility handling, and the onSave/onCancel callbacks that close the form. Its inline region-colour conditional in the card markup is presentation and is left out too.
- Per-keystroke search and region inputs are not modelled as state. The filters take the term and region as parameters.

## Findings

| source | as written | input that shows it | evidently intended | confidence | as-written member | corrected member |
|---|---|---|---|---|---|---|
| src/components/Dashboard.tsx:95 | the region is looked up in an object literal with an or-gray fallback, and the literal also answers for inherited members | region `"toString"`: the lookup yields the inherited function, which is truthy, so the fallback is skipped | every region outside the five gets `bg-gray-500` | not executed; low impact, since regions come from a fixed list | `Dashboard.RegionColorAsWrittenInheritedName` | `Dashboard.RegionColor` |
