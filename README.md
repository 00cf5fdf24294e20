# Brújula dashboard — a verified model

Brújula is a dashboard in which a job seeker, identified by a crypto
wallet address, records job applications and follows them through a
fixed set of statuses. The model covers four parts:

- the application records and their label tables;
- the client-side cache that the applications context and the older
  `useApplications` hook keep of one wallet's rows, and how each
  mutation changes that cache;
- the derived views over the cache: statistics, company names,
  per-status and per-platform counts, the status and monthly charts,
  and the summary cards;
- the dashboard components built on those views: the recent-applications
  table, the filtered and paginated list with its salary summary, the
  detail view, the create form, the edit dialog, and the short wallet
  address.

The database is not modelled as a store. Each request the code sends
becomes a value (`ApplicationsContext.Request`), and the backend's reply
is passed in as a parameter. Every `ensures` therefore holds whatever
the backend answers. The same applies to:

- the current date and the current year;
- the local clock's UTC offset;
- the wallet address;
- the outcome of the calls the forms make.

| module | models |
|---|---|
| `Database` | `lib/types/database.ts`: enums, records, insert and update payloads, label tables |
| `ApplicationsContext` | the provider's cache and mutations |
| `UseApplications` | the hook's cache and its refetch-after-mutation strategy |
| `Stats` | `getStats`, `getCompanyNames`, `getByStatus`, `getPlatformStats`; the code is the same in the provider and the hook |
| `ApplicationsTable`, `StatusChart`, `ProgressChart`, `StatsCards`, `AllApplications`, `ApplicationDetailModal`, `NewApplicationForm`, `EditApplicationModal`, `Navbar` | the component of the same name |
| `ApplicationForm` | the form fields, handlers and column mapping shared by the create form and the edit dialog |
| `Wrappers`, `Text`, `Seqs`, `Dates` | Option/Result; digits, number parsing, lower-casing, substrings, string order; filter, count, slice, occurrences; calendar dates |

Values become datatypes and functions. State the code updates in place
becomes a class:

- the provider's and the hook's `applications`, `loading` and `error`;
- the list view's filters and page;
- each form's `formData`, date, error and flags.

Loops become methods with invariants, each proved against a function
that specifies its result: the `forEach` dictionary tallies of the
platform statistics and the status chart, and the in-place increments of
the monthly chart.

JavaScript truthiness is written out where it matters:

- a null or empty wallet is "not connected";
- a salary of 0 counts as absent;
- `x || null` turns an empty text field into null.

`slice` clamps its bounds. `Object.entries` lists keys in first-assignment
order. `sort` on company names is lexicographic.

## Model

| member | source | states |
|---|---|---|
| Database.ParsePlatform | lib/types/database.ts:10-19 | a stored platform string names a known platform exactly when it is one of the nine names, and then the platform's name is that string |
| Database.AllStatusesComplete | lib/types/database.ts:1-8 | there are exactly seven statuses, each listed once |
| Database.AllPlatformsComplete | lib/types/database.ts:10-19 | there are exactly nine platforms, each listed once, and each name parses back to its platform |
| Database.StatusNameInjective | lib/types/database.ts:1-8 | distinct statuses are stored as distinct strings |
| Database.StatusLabel | lib/types/database.ts:168-176 | `statusLabels` gives every status a non-empty label |
| Database.PlatformLabel | lib/types/database.ts:179-189 | `platformLabels` gives every platform a non-empty label |
| Database.StatusConfigLabel | lib/types/database.ts:192-228 | `statusConfig` gives every status a non-empty short label |
| Database.PlatformLabelOf | lib/types/database.ts:179-189 | the label of a known platform, and the stored string itself when the lookup misses |
| Database.StatusPatch | context/ApplicationsContext.tsx:158 | the status update sets the status column and no other |
| Database.ApplyUpdate | lib/types/database.ts:87-104 | an update never changes the id, the owner or the creation time, and sets the status only when the update names it |
| Database.StatusPatchChangesOnlyStatus | context/ApplicationsContext.tsx:158 | applying a status patch changes the status and nothing else |
| ApplicationsContext.ApplicationsProvider.constructor | context/ApplicationsContext.tsx:65-67 | empty list, loading, no error |
| ApplicationsContext.ApplicationsProvider.FetchApplications | context/ApplicationsContext.tsx:70-95 | with no wallet: list [], not loading, no request; otherwise one select by owner; success replaces the list (null data gives []); failure sets "Error al cargar las postulaciones" and keeps the list |
| ApplicationsContext.ApplicationsProvider.CreateApplication | context/ApplicationsContext.tsx:103-126 | with no wallet: "Wallet not connected", no request, list unchanged; otherwise the insert carries the provider's wallet whatever the payload says; success gives `[newApp] + old list`; failure leaves the list unchanged |
| ApplicationsContext.ApplicationsProvider.UpdateApplication | context/ApplicationsContext.tsx:129-149 | one update filtered by id and owner; success replaces exactly the rows with that id by the returned row; failure leaves the list unchanged |
| ApplicationsContext.ApplicationsProvider.UpdateStatus | context/ApplicationsContext.tsx:152-184 | a status-only patch; on success with non-empty notes, a timeline row whose old status is the cached status of that id (null when not cached); rows with that id replaced; failure sends nothing more and leaves the list unchanged |
| ApplicationsContext.ApplicationsProvider.DeleteApplication | context/ApplicationsContext.tsx:187-201 | one delete by id and owner; success removes exactly the rows with that id; failure leaves the list unchanged |
| ApplicationsContext.GetTimeline | context/ApplicationsContext.tsx:204-216 | one select of the application's timeline; an error is thrown; null data gives [] |
| ApplicationsContext.OwnerFilter | context/ApplicationsContext.tsx:160 | `walletAddress \|\| ""`: the wallet when connected, "" otherwise |
| ApplicationsContext.FindById | context/ApplicationsContext.tsx:154 | `find` yields nothing exactly when no row has the id, and otherwise a row of the list with that id |
| ApplicationsContext.OldStatusOf | context/ApplicationsContext.tsx:170 | the timeline's old status is null exactly when the id is not cached, and otherwise the status of a cached row with that id |
| ApplicationsContext.ReplaceById | context/ApplicationsContext.tsx:177-179 | same length; each position holds the new row if its id matches and the old row otherwise |
| ApplicationsContext.RemoveById | context/ApplicationsContext.tsx:198 | keeps exactly the rows with another id; the id is gone; the length drops by the number of rows that had it |
| ApplicationsContext.RemoveByIdLength | context/ApplicationsContext.tsx:198 | the filter's length is the list length minus the occurrences of the id |
| ApplicationsContext.ReplaceAbsent | context/ApplicationsContext.tsx:177-179 | replacing an id not in the list changes nothing |
| ApplicationsContext.ReplaceIdempotent | context/ApplicationsContext.tsx:177-179 | applying the same replacement twice is applying it once |
| ApplicationsContext.ReplaceKeepsIds | context/ApplicationsContext.tsx:177-179 | replacing by a row with the same id keeps the id sequence, so unique ids stay unique |
| ApplicationsContext.RemoveAbsent | context/ApplicationsContext.tsx:198 | deleting an id not in the list leaves the list unchanged |
| ApplicationsContext.RemoveIdempotent | context/ApplicationsContext.tsx:198 | deleting twice is deleting once |
| ApplicationsContext.RemoveConcat | context/ApplicationsContext.tsx:198 | removal distributes over concatenation, so the rest keep their relative order |
| ApplicationsContext.CreateThenDelete | context/ApplicationsContext.tsx:121 | deleting a freshly created row restores the list as it was before the create |
| ApplicationsContext.RemoveKeepsUnique | context/ApplicationsContext.tsx:198 | deletion keeps ids unique |
| ApplicationsContext.PrependKeepsUnique | context/ApplicationsContext.tsx:121 | prepending a row with a new id keeps ids unique |
| UseApplications.ApplicationsHook.constructor | lib/hooks/useApplications.ts:35-37 | empty list, loading, no error, and the hook's wallet |
| UseApplications.ApplicationsHook.FetchApplications | lib/hooks/useApplications.ts:40-65 | with no wallet: list [] and no query; otherwise one select; success replaces the list; failure sets the message and keeps the list |
| UseApplications.ApplicationsHook.CreateApplication | lib/hooks/useApplications.ts:73-92 | with no wallet: throws before any insert; a failed insert throws before the refetch and leaves the cache unchanged; a successful one ends in a fetch whose result becomes the list |
| UseApplications.ApplicationsHook.UpdateApplication | lib/hooks/useApplications.ts:95-109 | a failed update leaves the cache unchanged; a successful one refetches |
| UseApplications.ApplicationsHook.UpdateStatus | lib/hooks/useApplications.ts:112-138 | status-only patch; with notes, a timeline row with the cached old status (null when not cached); then the refetch |
| UseApplications.ApplicationsHook.DeleteApplication | lib/hooks/useApplications.ts:141-152 | a failed delete leaves the cache unchanged; a successful one refetches |
| UseApplications.FetchForgetsPrevious | lib/hooks/useApplications.ts:58 | after a successful or walletless fetch, the list does not depend on what was cached before |
| UseApplications.FailedFetchKeepsList | lib/hooks/useApplications.ts:57-61 | a failed fetch keeps the list and reports the failure |
| Stats.ResponseRate | context/ApplicationsContext.tsx:247 | 0 for an empty list; otherwise rate × total = responded × 100; always within 0..100; 0 exactly when nobody answered, 100 exactly when everybody did |
| Stats.GetStats | context/ApplicationsContext.tsx:219-260 | total is the list length; the rate is computed from the four answered statuses; each of the five status fields is the number of applications with that status; this month and last month (January wrapping to December of the year before) count applications dated in those months and together never exceed the total |
| Stats.StatusCountsPartition | context/ApplicationsContext.tsx:237-241 | the seven status counts add up to the list length |
| Stats.RespondedIsSumOfAnswered | context/ApplicationsContext.tsx:244-246 | the responded count is the sum of the counts of its four statuses |
| Stats.GetByStatus | context/ApplicationsContext.tsx:269-274 | exactly the applications with that status, as many as the status count |
| Stats.GetByStatusConcat | context/ApplicationsContext.tsx:271 | the view distributes over concatenation, so it keeps the matching rows in list order |
| Stats.GetByStatusExact | context/ApplicationsContext.tsx:271 | a list whose rows all have the status is its own view; a list with none of them has an empty view |
| Stats.ByStatusPartition | context/ApplicationsContext.tsx:269-274 | the seven per-status views together hold as many rows as the list |
| Stats.GetCompanyNames | context/ApplicationsContext.tsx:263-266 | strictly sorted (so no duplicates), and a name appears exactly when some application has it |
| Stats.StrictlySortedUnique | context/ApplicationsContext.tsx:265 | two strictly sorted lists with the same elements are equal, so the company list is determined by the set of names |
| Stats.InterviewsBounded | context/ApplicationsContext.tsx:285-287 | a platform's interview count never exceeds its application count |
| Stats.TallyPlatforms | context/ApplicationsContext.tsx:278-288 | the two dictionaries the loop fills: each platform of the list is a key exactly once, and no other string is; its count and its interview count are those of the list |
| Stats.GetPlatformStats | context/ApplicationsContext.tsx:277-298 | one entry per distinct platform; each entry's count, interviews (≤ count) and effectiveness are those of its platform; sorted by count descending; the counts add up to the list length |
| Stats.InsertByCount | context/ApplicationsContext.tsx:297 | inserting into a list sorted by count descending keeps it sorted, adds one element and keeps the others |
| Stats.SortByCountDescSum | context/ApplicationsContext.tsx:297 | the sort keeps the sum of the counts |
| Stats.SortByCountDescDistinct | context/ApplicationsContext.tsx:297 | the sort keeps the platforms, each once |
| Stats.Efectividad | context/ApplicationsContext.tsx:295 | interviews per application as a percentage, within 0..100 |
| ApplicationsTable.TableRows | components/dashboard/ApplicationsTable.tsx:80-84 | at most five rows; as many as five or the number of matches, whichever is smaller; each row is in the list and, on a status tab, has that status; the rows are the first matches in list order |
| ApplicationsTable.AllTabShowsFirstRows | components/dashboard/ApplicationsTable.tsx:81-84 | on "todas" the rows are exactly the first min(5, n) applications |
| ApplicationsTable.StatusTabShowsFirstMatches | components/dashboard/ApplicationsTable.tsx:80-84 | an application with the tab's status is shown whenever fewer than five earlier applications have that status |
| ApplicationsTable.EmptyMessage | components/dashboard/ApplicationsTable.tsx:196 | the empty-table message adds "con este estado" exactly on a status tab |
| StatusChart.StatusChartData | components/dashboard/StatusChart.tsx:24-42 | one slice per distinct status present, each status once; each slice has the status's short label, its colour and its count; no slice is zero; the total is the sum of the slices and equals the list length; no slices exactly when no applications |
| StatusChart.TallyStatuses | components/dashboard/StatusChart.tsx:25-29 | the dictionary the loop fills: each status of the list is a key exactly once, holding its number of occurrences |
| StatusChart.EntriesOf | components/dashboard/StatusChart.tsx:31-37 | with every count positive, the filter keeps every key and the map builds one slice per key in key order |
| StatusChart.SlicesCoverList | components/dashboard/StatusChart.tsx:39 | the slices of a covering, duplicate-free key list add up to the list length |
| StatusChart.StatusColor | components/dashboard/StatusChart.tsx:10-18 | every status has a colour in `#RRGGBB` form |
| StatusChart.StatusColorsDistinct | components/dashboard/StatusChart.tsx:10-18 | no two statuses share a colour or a legend name |
| StatusChart.CountStatusIsOccurrences | components/dashboard/StatusChart.tsx:27-29 | the dictionary count of a status equals the `getStats`-style count of that status |
| ProgressChart.MonthlyData | components/dashboard/ProgressChart.tsx:41-61 | twelve points; point i carries the month name and index i, and counts the applications read as dated in month i of the year |
| ProgressChart.PointsCoverYear | components/dashboard/ProgressChart.tsx:52-58 | the twelve counts add up to the number of applications of that year, which is at most the list length; other years contribute nothing |
| ProgressChart.CurrentPointIsThisMonth | components/dashboard/ProgressChart.tsx:52-58 | with calendar dates, the current month's point equals `getStats().thisMonth` |
| ProgressChart.EastOfGreenwichAgrees | components/dashboard/ProgressChart.tsx:53-56 | at UTC or east of it, the code as written counts every month correctly |
| ProgressChart.FirstOfMonthMisplaced | components/dashboard/ProgressChart.tsx:53-56 | as written, at UTC-6 an application dated 1 March 2024 is counted in February |
| ProgressChart.NewYearsDayMisplaced | components/dashboard/ProgressChart.tsx:53-54 | as written, at UTC-6 an application dated 1 January 2024 counts for 2023 |
| ProgressChart.ThisMonthMisplaced | context/ApplicationsContext.tsx:226-234 | as written, at UTC-6 in March 2024 an application of 1 March counts for last month; `GetStats` counts it for this month |
| StatsCards.MonthTrend | components/dashboard/StatsCards.tsx:105-107 | up iff more than last month, down iff fewer, neutral iff equal |
| StatsCards.TrendSwaps | components/dashboard/StatsCards.tsx:105-107 | swapping the months swaps up and down |
| StatsCards.TotalChange | components/dashboard/StatsCards.tsx:119-130 | the badge reads as the signed difference, "+" exactly for a rise and "-" exactly for a fall; on a tie it reads as this month's count with a neutral trend |
| StatsCards.ResponsesReceived | components/dashboard/StatsCards.tsx:134 | the card's sum equals the number of answered applications, the numerator of `tasaRespuesta` |
| StatsCards.PriorityCount | components/dashboard/StatsCards.tsx:110 | the number of priority applications; zero exactly when none is marked |
| StatsCards.ResponsesSecondary | components/dashboard/StatsCards.tsx:138-141 | "Sin postulaciones" iff the total is 0, otherwise "de N postulaciones" with N reading as the total |
| StatsCards.InterviewsSecondary | components/dashboard/StatsCards.tsx:150-152 | accepted count when there is one, else pending count; starts with that number; the noun is plural exactly when the number is not one |
| StatsCards.PrioritySecondary | components/dashboard/StatsCards.tsx:160-163 | "Postulaciones destacadas" iff there is a priority application, else "Marca tus favoritas" |
| StatsCards.TotalCard | components/dashboard/StatsCards.tsx:113-131 | shows the list length with the month-on-month trend |
| StatsCards.ResponsesCard | components/dashboard/StatsCards.tsx:132-142 | shows the answered count |
| StatsCards.InterviewsCard | components/dashboard/StatsCards.tsx:143-153 | shows the interview count with the accepted or pending line |
| StatsCards.PriorityCard | components/dashboard/StatsCards.tsx:154-164 | shows the priority count with its line |
| StatsCards.ResponsesWithinTotal | components/dashboard/StatsCards.tsx:115-145 | interviews ≤ responses ≤ total |
| AllApplications.FilteredApplications | components/dashboard/AllApplications.tsx:128-143 | an application is kept iff the lower-cased query occurs in its lower-cased company or position, and status, platform and modality each match or are "all" |
| Text.LowerChar | components/dashboard/AllApplications.tsx:130-131 | `toLowerCase` on one character: A-Z and the Latin-1 capitals À-Þ (but not ×) move to their small letters; the model leaves every other character as it is, including capitals outside Latin-1 that `toLowerCase` would fold; the result is never such a capital |
| Text.ToLowerIdempotent | components/dashboard/AllApplications.tsx:130-131 | lower-casing twice is lower-casing once |
| AllApplications.SearchIgnoresQueryCase | components/dashboard/AllApplications.tsx:130-131 | the search gives the same verdict for a query and its lower-cased form |
| AllApplications.AccentedSearchMatches | components/dashboard/AllApplications.tsx:130-131 | the query "telefó" finds the company "TELEFÓNICA" |
| AllApplications.FilteredConcat | components/dashboard/AllApplications.tsx:128-143 | filtering distributes over concatenation, so list order is kept |
| AllApplications.NoFiltersKeepsAll | components/dashboard/AllApplications.tsx:128-143 | an empty query with every select on "all" keeps every application in order |
| AllApplications.HasActiveFilters | components/dashboard/AllApplications.tsx:153-157 | false iff the query is empty and all three selects are on "all" |
| AllApplications.TotalPages | components/dashboard/AllApplications.tsx:146 | ceil(n/10): enough pages for every item and no empty last page; zero exactly for no items |
| AllApplications.PageItems | components/dashboard/AllApplications.tsx:147-151 | page p holds items (p-1)·10 onward, at most ten; non-empty for every page up to the total, empty beyond it |
| AllApplications.FirstPagesArePrefix | components/dashboard/AllApplications.tsx:147-151 | the first k pages together are the first 10k items |
| AllApplications.PagesCoverFiltered | components/dashboard/AllApplications.tsx:146-151 | all the pages together are exactly the filtered list |
| AllApplications.FilterState.constructor | components/dashboard/AllApplications.tsx:113-117 | starts with no filter on page 1 |
| AllApplications.FilterState.SetSearchQuery | components/dashboard/AllApplications.tsx:301-304 | sets the query, keeps the selects, resets to page 1 |
| AllApplications.FilterState.SetStatusFilter | components/dashboard/AllApplications.tsx:349-352 | sets the status select, keeps the rest, resets to page 1 |
| AllApplications.FilterState.SetPlatformFilter | components/dashboard/AllApplications.tsx:372-375 | sets the platform select, keeps the rest, resets to page 1 |
| AllApplications.FilterState.SetModalityFilter | components/dashboard/AllApplications.tsx:395-398 | sets the modality select, keeps the rest, resets to page 1 |
| AllApplications.FilterState.ClearFilters | components/dashboard/AllApplications.tsx:159-165 | "" and "all" everywhere, page 1, no active filter |
| AllApplications.FilterState.PreviousPage | components/dashboard/AllApplications.tsx:815 | one page back, never below page 1 |
| AllApplications.FilterState.NextPage | components/dashboard/AllApplications.tsx:845-846 | one page on, never beyond the last page |
| AllApplications.FilterState.GoToPage | components/dashboard/AllApplications.tsx:824-829 | jumps to the chosen page |
| AllApplications.FilterState.Shown | components/dashboard/AllApplications.tsx:146-151 | exactly the current page of the filtered list (`PageItems` of the filtered list at the current page): at most ten applications, each in the list and passing the filters |
| AllApplications.PeriodSuffix | components/dashboard/AllApplications.tsx:222 | "/año" exactly for a yearly period, "/mes" otherwise (including none) |
| AllApplications.CurrencyOrDefault | components/dashboard/AllApplications.tsx:221 | the stored currency, USD when none |
| AllApplications.FormatSalary | components/dashboard/AllApplications.tsx:217-234 | nothing iff not specified or both amounts falsy (0 counts as absent); otherwise a range iff both amounts, "min+" iff only the minimum, "Hasta max" iff only the maximum, with the amounts, the default currency and the suffix |
| ApplicationDetailModal.ShowsInfoRow | components/dashboard/ApplicationDetailModal.tsx:53 | `InfoRow` draws its row exactly for a present, non-empty value, which is exactly a column the edit dialog saves back unchanged as non-null; a null value never shows |
| ApplicationDetailModal.DetailFormatSalary | components/dashboard/ApplicationDetailModal.tsx:98-115 | "No especificado" iff the salary is marked not specified, whatever the amounts; nothing iff otherwise both amounts are falsy; otherwise the currency and period defaults of the list view |
| ApplicationDetailModal.DetailAgreesWithList | components/dashboard/ApplicationDetailModal.tsx:98-115 | the detail view words a specified salary exactly as the list does; the two differ only on "not specified" |
| ApplicationDetailModal.GetLocationType | components/dashboard/ApplicationDetailModal.tsx:118-126 | no row iff no modality; otherwise the modality's label |
| ApplicationDetailModal.LocationLabelInjective | components/dashboard/ApplicationDetailModal.tsx:120-124 | distinct modalities have distinct labels |
| ApplicationDetailModal.GetPlatformLabel | components/dashboard/ApplicationDetailModal.tsx:129-134 | the free text iff the platform is "otro" and the text is non-empty; otherwise the platform's label, or the stored string when it names no known platform |
| ApplicationDetailModal.KnownPlatformIgnoresOther | components/dashboard/ApplicationDetailModal.tsx:129-134 | a known platform other than "otro" always shows its label; "otro" without text shows "Otro"; the label is never empty |
| ApplicationForm.InitialDefaults | components/dashboard/NewApplicationForm.tsx:92-108 | empty text fields, status "pendiente", USD, monthly, both boxes unticked, no modality |
| ApplicationForm.ApplyInput | components/dashboard/NewApplicationForm.tsx:110-120 | only the named field changes: a text input to the typed value, a checkbox to its state |
| ApplicationForm.ApplySelection | components/dashboard/NewApplicationForm.tsx:122-124 | only the selected field changes |
| ApplicationForm.InputsCommute | components/dashboard/NewApplicationForm.tsx:110-120 | changes to two different fields commute |
| ApplicationForm.FormExtensionality | components/dashboard/NewApplicationForm.tsx:92-108 | a form is determined by its text fields, boxes and selects |
| ApplicationForm.OrNull | components/dashboard/NewApplicationForm.tsx:155-158 | `x \|\| null`: null exactly for the empty string |
| ApplicationForm.OrNullOrEmpty | components/dashboard/EditApplicationModal.tsx:145-147 | a column survives null→""→null exactly when it is null or non-empty |
| ApplicationForm.ParseAmount | components/dashboard/NewApplicationForm.tsx:150-151 | an empty amount is null; the decimal text of a number parses back to that number |
| ApplicationForm.AmountText | components/dashboard/EditApplicationModal.tsx:138-139 | "" exactly for null; parsing the text gives the amount back |
| ApplicationForm.PlatformOtherColumn | components/dashboard/NewApplicationForm.tsx:147 | the free-text platform is sent iff the platform is "otro" |
| ApplicationForm.FormChanges | components/dashboard/NewApplicationForm.tsx:146-159 | every optional column set from the form: free text only for "otro", amounts parsed, empty texts and no modality as null |
| ApplicationForm.FormState.constructor | components/dashboard/NewApplicationForm.tsx:92-108 | the form starts as the initial form |
| ApplicationForm.FormState.HandleInputChange | components/dashboard/NewApplicationForm.tsx:110-120 | the form becomes the input change applied to the old form |
| ApplicationForm.FormState.HandleSelectChange | components/dashboard/NewApplicationForm.tsx:122-124 | the form becomes the selection applied to the old form |
| ApplicationForm.FormState.Replace | components/dashboard/EditApplicationModal.tsx:134-150 | `setFormData` with a whole form: the form becomes exactly that form |
| NewApplicationForm.InsertPayload | components/dashboard/NewApplicationForm.tsx:143-160 | the three required fields as typed and the optional columns of the form |
| NewApplicationForm.NewApplicationFormState.constructor | components/dashboard/NewApplicationForm.tsx:88-108 | the initial form, today's date, no error, not submitting |
| NewApplicationForm.NewApplicationFormState.SelectDate | components/dashboard/NewApplicationForm.tsx:323 | a picked day becomes the date; a deselect (no day) keeps the date chosen before; nothing else changes |
| NewApplicationForm.NewApplicationFormState.HandleSubmit | components/dashboard/NewApplicationForm.tsx:126-170 | no wallet: wallet error, nothing sent, checked first; a required field empty: required-fields error, nothing sent; otherwise the payload with the chosen date or today; success navigates; failure shows the save error; submitting is off at the end |
| NewApplicationForm.SubmitToProvider | components/dashboard/NewApplicationForm.tsx:126-165 | the page's submit through the provider's `createApplication`: a form failing the wallet or required-field guard sends nothing and leaves the cache alone; otherwise exactly one insert, carrying the provider's wallet and the three required fields, all non-empty, with the optional columns of the form; success prepends the new row and navigates, failure shows the save error and keeps the cache |
| EditApplicationModal.Prefill | components/dashboard/EditApplicationModal.tsx:132-150 | each column into its field: null text as "", amounts as text that parses back, a null currency as USD, a null period as monthly |
| EditApplicationModal.UpdatePayload | components/dashboard/EditApplicationModal.tsx:180-197 | every editable column from the form; the chosen date, or the stored date when none is chosen |
| EditApplicationModal.PrefillSubmitRoundTrip | components/dashboard/EditApplicationModal.tsx:132-197 | with the date read as a calendar date, a record whose optional texts are null or non-empty, whose free text is present exactly for "otro" and whose currency and period are set, is saved back unchanged |
| EditApplicationModal.PrefillSubmitKeepsColumns | components/dashboard/EditApplicationModal.tsx:135-150 | for any record with null-or-non-empty optional texts: company, position, platform, status, both flags, modality, city, URL, notes and amounts come back unchanged |
| EditApplicationModal.SaveFillsDefaults | components/dashboard/EditApplicationModal.tsx:137-142 | a null currency or period comes back as USD or monthly; "otro" without free text comes back with ""; any other platform loses its free text |
| EditApplicationModal.SavedDateOnLocalClock | components/dashboard/EditApplicationModal.tsx:151 | as written, a save without touching the date stores the day before at any clock west of UTC, and the stored date at UTC or east of it |
| EditApplicationModal.SaveShiftsDateBack | components/dashboard/EditApplicationModal.tsx:151 | as written, at UTC-6 a record of 1 March 2024 saved untouched becomes 29 February 2024 |
| EditApplicationModal.EditApplicationModalState.constructor | components/dashboard/EditApplicationModal.tsx:109-129 | the initial form, no date, no error, not submitting, not saved |
| EditApplicationModal.EditApplicationModalState.LoadApplication | components/dashboard/EditApplicationModal.tsx:132-154 | with an application on an open dialog: the form, the date and the error are replaced; otherwise nothing changes |
| EditApplicationModal.EditApplicationModalState.SelectDate | components/dashboard/EditApplicationModal.tsx:341 | `setDate` itself: a picked day becomes the date and a deselect clears it, so the save then keeps the stored date; nothing else changes |
| EditApplicationModal.EditApplicationModalState.HandleSubmit | components/dashboard/EditApplicationModal.tsx:172-207 | with no application nothing happens; otherwise the update of that id is sent; success calls `onSave` and closes; failure shows the error and neither saves nor closes |
| Navbar.TruncatedAddress | components/dashboard/Navbar.tsx:19-21 | "" iff no address; otherwise the first six characters, "...", then the last four, each cut to the address length |
| Navbar.LongAddressLength | components/dashboard/Navbar.tsx:20 | an address of ten or more characters shows as thirteen, starting with its first six and ending with its last four |
| Navbar.SameShortForm | components/dashboard/Navbar.tsx:20 | two long addresses have the same short form exactly when their first six and last four characters agree |
| Dates.PreviousMonth | context/ApplicationsContext.tsx:223-224 | the month before: January wraps to December of the previous year |
| Dates.PreviousNextInverse | context/ApplicationsContext.tsx:223-224 | stepping back and forward a month are inverse |
| Dates.ReadDate | components/dashboard/EditApplicationModal.tsx:151 | how `new Date(application_date)` is read back as a date: the stored date itself on the calendar reading, and a valid date on any reading of a valid one |
| Dates.LocalDateOfUtcMidnight | components/dashboard/ProgressChart.tsx:53-55 | midnight UTC of a date seen on a local clock is a valid date, and it is the same date exactly at UTC or east of it |
| Text.ParseShowInt | components/dashboard/EditApplicationModal.tsx:138 | a number's decimal text parses back to the number |
| Text.LexLessTotal | context/ApplicationsContext.tsx:265 | any two distinct strings are ordered one way, which makes the sort well defined |

## Left out

- The Supabase client. Each query is a `Request` value and its reply is a
  parameter. The row order the database returns (`order(...)`) is taken as
  given.
- Asynchrony. Each operation runs from start to end with no other update
  in between. React's deferred state updates and stale closures are not
  modelled, for example `updateStatus` reading the cache before the update.
- Errors of the timeline insert inside `updateStatus`. The code ignores
  them, and so does the model.
- The provider's `useEffect` that refetches when the wallet changes, the
  loading spinners, and JSX and styling.
- `formatDate` (date-fns `format` with the Spanish locale) and
  `toLocaleString` on amounts. Salary summaries are modelled as values
  saying which shape applies and which amounts, currency and suffix they
  show, not as digit strings.
- ProgressChart.MonthlyData: application dates are assumed valid calendar
  dates. The database column is a date, so an impossible date never
  reaches the chart.
- ApplicationForm.ParseAmount: amounts are integers. `parseFloat`'s
  fractions, exponents, leading spaces and "Infinity" are not modelled. A
  field that starts with no digit gives null, because NaN is sent as null.
- Stats.ResponseRate and Stats.Efectividad: these are real numbers, not
  IEEE doubles.
- Stats.GetCompanyNames: strings are compared by character, while
  JavaScript's default sort compares UTF-16 code units. The two agree on
  the Basic Multilingual Plane.
- `Object.entries` lists integer-like keys first in ascending order. No
  platform or status name is integer-like. A free-text platform such as
  "123" would be listed first, and the model lists it in first-seen order.
- StatusChart.StatusChartData: statuses are the enumeration, so the
  fallbacks to the raw status string and to the colour "#737373" never
  apply. A status string outside the enumeration is not modelled.
- StatsCards: the `statCards` array is the four card functions in order.
  The icons and colours are not modelled.
- The calendar widget. Picking a day is `SelectDate`, with the day as a
  calendar date.
- The wallet connection itself (`useWallet`) is a parameter.
- StatusChart.StatusChartData and Stats.TallyPlatforms: the key list is
  built in the loop's first-seen order, but the contracts state which keys
  there are, not their order.
- Stats.GetPlatformStats: entries with equal counts keep the first-seen
  order of their platforms. The contract states that the entries are sorted
  by count, not how ties are ordered.
- Text.LowerChar: folds only A-Z and the Latin-1 capitals. Greek, Cyrillic,
  Latin Extended and other Unicode capitals, which `toLowerCase` folds, are
  left as they are.
- AllApplications.FilteredApplications: case folding covers A-Z and the
  Latin-1 capitals, which include every Spanish accented capital.
  `toLowerCase` also folds Greek, Cyrillic and the other Unicode capitals,
  and the model leaves those unchanged.
- NewApplicationForm.NewApplicationFormState.SelectDate: the calendar
  disables days after today, so it never offers a future day. The model
  accepts any day it is given.

## Findings

| source | as written | input that shows it | evidently intended | confidence | as-written member | corrected member |
|---|---|---|---|---|---|---|
| components/dashboard/ProgressChart.tsx:53-56 | `new Date("yyyy-MM-dd")` is midnight UTC, and `getFullYear()`/`getMonth()` read it in local time | clock at UTC-6, an application dated 2024-03-01: counted in February; dated 2024-01-01: counted in 2023 | each application counted in the month of its stored date | not executed | ProgressChart.FirstOfMonthMisplaced | ProgressChart.MonthlyData |
| context/ApplicationsContext.tsx:226-234 | `getStats` reads the month of each date the same way | clock at UTC-6 in March 2024, an application dated 2024-03-01: counts for last month, not this month | this month and last month by the stored date | not executed | ProgressChart.ThisMonthMisplaced | Stats.GetStats |
| components/dashboard/EditApplicationModal.tsx:151 | the picker is filled with `new Date(application_date)`, and the save formats it in local time | clock at UTC-6, a record dated 2024-03-01 opened and saved untouched: stored as 2024-02-29 | an untouched date saved unchanged | not executed | EditApplicationModal.SaveShiftsDateBack | EditApplicationModal.PrefillSubmitRoundTrip |

The model reads dates through `Dates.DateReading`. `CalendarDate` is the
intended reading and `LocalClock(offset)` is the code as written. The
corrected members, and every view that counts by month, use
`CalendarDate`.
