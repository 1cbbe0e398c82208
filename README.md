# Osiris dashboard data layer, in Dafny

This project models the data layer of a business-operations dashboard for a
cleaning company. The layer covers jobs, calls, caller profiles and summary
counters. Its parts are:

- **The live path** (`lib/live-data.ts`). The rows of three store queries
  (jobs, calls, messages) become `Job`, `Call` and `Message` records. Missing
  numbers become 0 and a missing cleaning team becomes the empty list. The
  calls (newest first) and the messages are then grouped into one
  `CallerProfile` per phone number. This is done by two loops over an
  insertion-ordered table keyed by phone number. Last, the live counters are
  computed. A missing store or a failing query gives no result at all.
- **The fallback** (`lib/google-sheets.ts`). `getDashboardData` serves the
  live result when there is one. Otherwise it serves a fixed demonstration
  data set: 20 jobs, 12 calls and 6 hand-written profiles. The demonstration
  counters follow their own formulas. Quotes are the jobs plus 3, and answered
  calls are the calls plus 15. `calculateTimeSaved` rounds 45 minutes per
  booked job to whole hours.
- **The client portal helpers** (`app/dashboard/portal/page.tsx`). These
  select a client's jobs and calls by exact phone-number match. They also
  give the client's revenue, paid sum, invoices, payments and reviews. Two
  display helpers render call durations as `m:ss` and phone numbers as
  `(ddd) ddd-dddd`.

Modules:

- `Seqs`: the order-preserving filter and the left-to-right sum behind the
  source's `filter` and `reduce`.
- `Text`: decimal rendering and `padStart`.
- `DashboardTypes`: the records, and the selections by phone number and by
  flag.
- `LiveData`: row mapping, the grouping specification, the imperative
  grouping `BuildProfiles`, and the live result.
- `ProfileLaws`: what the grouping guarantees.
- `MockData`: the demonstration data set.
- `GoogleSheets`: the data selection, the demonstration counters and the time
  saved.
- `Portal`: the client helpers.

The grouping is specified by `GroupProfiles`: one `ProfileOf` per phone number
of `Phones`, in order of first appearance. The method `BuildProfiles` performs
the same two passes the source performs, over a `map` that it reassigns. It
is proved equal to `GroupProfiles`, and the laws in `ProfileLaws` are proved
about `GroupProfiles`.

A call's date is a `DateTime(text, instant)`. `text` is the stored string and
`instant` is the moment `new Date(text)` denotes. Comparisons use the instant,
and the profile keeps the text. So the rule that ties keep the date seen first
is observable.

The demonstration profiles are not a grouping of the demonstration calls. For
example, Robert Chen's profile claims 3 calls but lists 2, and Westfield
Properties' profile claims a later last call than its one call. The model
keeps these hard-coded values as they are. `MockProfilesAreNotAGrouping`
proves that they differ from the live grouping of the same calls. The
grouping laws are proved for the live path only.

The two counter formulas differ between the paths, as the source has them.
Live `quotesSent` is the number of booked jobs, while the demonstration
`quotesSent` is the job count plus 3. Live `callsAnswered` is the number of
calls, while the demonstration value adds 15. `CountersRevealTheSource`
states the difference.

## Model

| member | source | states |
|---|---|---|
| `LiveData.ToJob` | lib/live-data.ts:52-64 | the id is the row id rendered in decimal; a missing or unreadable price becomes 0; a missing team becomes []; callDurationSeconds is 0; no invoice, payment or review fields are set; every other field is copied from the row |
| `LiveData.ToCall` | lib/live-data.ts:67-76 | the id is the row id rendered in decimal; a missing duration becomes 0; the phone number, caller name, date, audio URL, transcript and outcome are those of the row |
| `LiveData.ToMessage` | lib/live-data.ts:104-108 | role, content and timestamp are those of the row |
| `LiveData.ToJobs` | lib/live-data.ts:52 | one job per row, in row order |
| `LiveData.ToCalls` | lib/live-data.ts:67 | one call per row, in row order |
| `LiveData.Phones` | lib/live-data.ts:79-92 | every call's number is listed, and no number is listed twice |
| `LiveData.PhonesSnoc` | lib/live-data.ts:82-91 | a call adds its phone number to the key list only when the number is new |
| `LiveData.PhonesAreDistinctCallNumbers` | lib/live-data.ts:79-92 | the keys are exactly the phone numbers that have a call, each listed once |
| `LiveData.LatestIndex` | lib/live-data.ts:95-97 | the position of a call no call is later than, with every earlier call strictly earlier |
| `LiveData.MessagesFor` | lib/live-data.ts:101-110 | the k-th message of a number is the k-th row sent from that number, so the messages keep input order |
| `LiveData.ProfileOf` | lib/live-data.ts:82-110 | a profile holds its number's calls in input order; totalCalls is their count; callerName is the first call's; lastCallDate is the date of the latest call, the first seen on equal instants; its messages are the number's messages |
| `LiveData.ProfilesFor` | lib/live-data.ts:112 | one profile per listed number, in list order |
| `LiveData.GroupProfiles` | lib/live-data.ts:79-112 | one profile per listed number, in key order, each holding exactly that number's calls and counting them |
| `LiveData.ProfileAfterOtherCall` | lib/live-data.ts:92-97 | a call of another number leaves a profile unchanged |
| `LiveData.ProfileAfterFirstCall` | lib/live-data.ts:82-91 | the first call of a number seeds its profile with that call's caller name and date, and then counts it |
| `LiveData.ProfileAfterLaterCall` | lib/live-data.ts:92-97 | a later call increments totalCalls, appends the call, and replaces lastCallDate only with a strictly later date |
| `LiveData.ProfileAfterMessage` | lib/live-data.ts:101-110 | a message appends to the messages of its own number's profile and changes no other profile |
| `LiveData.EntryStep` | lib/live-data.ts:81-98 | one step of the first loop keeps each table entry equal to the profile of the calls seen so far |
| `LiveData.IndexedIsGrouping` | lib/live-data.ts:79-98 | after the first loop the keys are in first-appearance order, the table holds exactly the numbers that have calls, and each entry is that number's profile |
| `LiveData.AttachEntry` | lib/live-data.ts:102-108 | one message turns an entry that is a number's profile into that number's profile with one more message row |
| `LiveData.AttachedProfiles` | lib/live-data.ts:101-110 | the second loop creates no key, and it turns each entry into the profile over all messages |
| `LiveData.IndexCalls` | lib/live-data.ts:79-98 | the loop over the calls computes the keys and the table of the first pass |
| `LiveData.AttachMessages` | lib/live-data.ts:101-110 | the loop over the messages computes the table of the second pass |
| `LiveData.ListProfiles` | lib/live-data.ts:112 | the profiles come out in key insertion order |
| `LiveData.BuildProfiles` | lib/live-data.ts:79-112 | the imperative grouping returns exactly GroupProfiles |
| `LiveData.LiveDashboard` | lib/live-data.ts:115-127 | jobsBooked and quotesSent both count the booked jobs; cleanersScheduled counts the paid jobs; callsAnswered is the number of calls; isLiveData holds; the profiles are the grouping of the calls and messages |
| `LiveData.LiveResult` | lib/live-data.ts:20-131 | there is a result exactly when the store is configured and every query succeeded, and it is live |
| `LiveData.GetLiveDashboardData` | lib/live-data.ts:20-131 | the imperative live path returns LiveResult: all or nothing, never partial |
| `ProfileLaws.FirstIndex` | lib/live-data.ts:82 | the position of a number's first call: no earlier call has that number |
| `ProfileLaws.FirstIndexSnoc` | lib/live-data.ts:82 | one more call moves the first-call position of a number only when the number had no call |
| `ProfileLaws.HasCallsIffFirstIndex` | lib/live-data.ts:82 | a number has calls exactly when it has a first call |
| `ProfileLaws.PhonesInFirstAppearanceOrder` | lib/live-data.ts:79-92 | the keys are ordered by the positions of their first calls |
| `ProfileLaws.ProfileNumbersArePhones` | lib/live-data.ts:112 | there are as many profiles as keys, and profile i has key i |
| `ProfileLaws.ProfilesHoldTheirCalls` | lib/live-data.ts:93-94 | each profile's calls are exactly the input calls of its number, in input order, and totalCalls is their count |
| `ProfileLaws.EveryCallerHasProfile` | lib/live-data.ts:81-91 | every call's phone number has a profile |
| `ProfileLaws.ProfilesAreDistinctCallers` | lib/live-data.ts:82-91 | every profile's number has calls, and no two profiles share a number |
| `ProfileLaws.ProfilesInFirstCallOrder` | lib/live-data.ts:79-112 | profiles come in the order of their numbers' first calls |
| `ProfileLaws.CountOverSnoc` | lib/live-data.ts:93 | one more call adds one to the call count of the numbers that include its own |
| `ProfileLaws.CountOverPhones` | lib/live-data.ts:81-93 | counting calls number by number over the keys counts every call once |
| `ProfileLaws.SumOfTotalCalls` | lib/live-data.ts:93 | the profiles' totalCalls add up to the calls of their numbers |
| `ProfileLaws.TotalCallsAddUp` | lib/live-data.ts:81-93 | the sum of totalCalls over all profiles is the number of calls |
| `ProfileLaws.FirstOfCallsOf` | lib/live-data.ts:82-94 | the first call in a profile is the first input call of its number |
| `ProfileLaws.CallerNameOfFirstCall` | lib/live-data.ts:82-91 | a profile's callerName is that of the first call of its number |
| `ProfileLaws.LatestPosition` | lib/live-data.ts:95-97 | the position of a number's latest call: no call of that number is later, and each earlier one is strictly earlier |
| `ProfileLaws.LastCallDateIsLatest` | lib/live-data.ts:88-97 | lastCallDate is the maximum date of the number's calls; on ties, the date of the call seen first is kept |
| `ProfileLaws.UnmatchedMessageDropped` | lib/live-data.ts:101-110 | a message whose number has no call creates no profile and changes none |
| `ProfileLaws.MatchedMessageAppended` | lib/live-data.ts:101-110 | a message whose number has calls is appended, after the earlier ones, to that number's profile only |
| `DashboardTypes.JobsOf` | app/dashboard/portal/page.tsx:33 | a job is selected exactly when its phone number matches |
| `DashboardTypes.CallsOf` | lib/google-sheets.ts:554 | a call is selected exactly when its phone number matches |
| `DashboardTypes.BookedJobs` | lib/google-sheets.ts:756 | a job is selected exactly when it is booked |
| `DashboardTypes.PaidJobs` | lib/google-sheets.ts:758 | a job is selected exactly when it is paid |
| `DashboardTypes.CallsOfIsSubsequence` | lib/google-sheets.ts:554 | the calls of a number are the input calls at increasing positions, and those positions are exactly the ones with that number |
| `MockData.MockJobs` | lib/google-sheets.ts:68-435 | the twenty demonstration jobs j1 to j20, in listing order |
| `MockData.MockJob` | lib/google-sheets.ts:68-435 | every demonstration job is booked, and exactly j1 to j16 are paid |
| `MockData.MockCalls` | lib/google-sheets.ts:437-546 | the twelve demonstration calls c1 to c12, in listing order |
| `MockData.MockProfiles` | lib/google-sheets.ts:548-753 | the six hand-written profiles, in listing order |
| `MockData.MockProfile` | lib/google-sheets.ts:548-753 | each hand-written profile lists the demonstration calls of its own number, in order |
| `MockData.MockJobsAllBooked` | lib/google-sheets.ts:68-435 | all demonstration jobs are booked |
| `MockData.MockPaidJobsAreDecember` | lib/google-sheets.ts:68-435 | the paid demonstration jobs are the first sixteen |
| `MockData.MockCallsOfRobertChen` | lib/google-sheets.ts:554 | Robert Chen's number matches c1 and c3 only |
| `MockData.MockCallsOfWestfield` | lib/google-sheets.ts:622 | Westfield Properties' number matches c4 only |
| `MockData.RobertChenProfileMiscounted` | lib/google-sheets.ts:550-554 | the profile claims 3 calls and lists 2 |
| `MockData.WestfieldProfileMisdated` | lib/google-sheets.ts:618-622 | the profile claims 2 calls and lists 1, and its lastCallDate is later than every listed call |
| `GoogleSheets.MockDashboardData` | lib/google-sheets.ts:755-764 | not live; jobsBooked counts the booked jobs (20); quotesSent is jobs + 3 (23); cleanersScheduled counts the paid jobs (16); callsAnswered is calls + 15 (27) |
| `GoogleSheets.MockProfilesAreNotAGrouping` | lib/google-sheets.ts:548-753 | the hand-written profiles are not the grouping of the demonstration calls, whatever the messages |
| `GoogleSheets.GetDashboardData` | lib/google-sheets.ts:60-65 | the live result unchanged when there is one; otherwise the demonstration dashboard; isLiveData tells which |
| `GoogleSheets.CountersRevealTheSource` | lib/google-sheets.ts:755-759 | quotesSent equals jobsBooked, and callsAnswered equals the number of calls, exactly when the data is live |
| `GoogleSheets.ServedProfilesAreGroupedOnlyWhenLive` | lib/google-sheets.ts:60-65 | served live profiles group the served calls and their totalCalls add up to the calls; served demonstration profiles group nothing |
| `GoogleSheets.EmptyStoreGivesEmptyDashboard` | lib/live-data.ts:115-127 | a store with no rows gives zero counters, empty lists and isLiveData |
| `GoogleSheets.OneCallOtherMessage` | lib/live-data.ts:101-110 | one call and one message of another number group into one profile, the call's, with no messages |
| `GoogleSheets.MessageOfOtherNumberNotAttached` | lib/live-data.ts:101-110 | a message of "556" is not attached to the one profile, "555" |
| `GoogleSheets.TimeSaved` | lib/google-sheets.ts:767-779 | the hours are 45 minutes per booked job rounded to the nearest hour, halves up |
| `GoogleSheets.TimeSavedDependsOnBookedCount` | lib/google-sheets.ts:777 | equal numbers of booked jobs give equal time saved |
| `GoogleSheets.TimeSavedIgnoresUnbooked` | lib/google-sheets.ts:777 | adding unbooked jobs, or keeping only the booked ones, leaves the time saved unchanged |
| `GoogleSheets.TimeSavedMonotone` | lib/google-sheets.ts:776-778 | more booked jobs never save less, and no booked job saves 0 |
| `GoogleSheets.TimeSavedGrowsWithJobs` | lib/google-sheets.ts:777-778 | adding jobs never lowers the time saved |
| `GoogleSheets.MockTimeSaved` | lib/google-sheets.ts:776-778 | the twenty booked demonstration jobs save 15 hours |
| `Portal.ClientJobs` | app/dashboard/portal/page.tsx:33 | exactly the jobs with the client's phone number |
| `Portal.ClientCalls` | app/dashboard/portal/page.tsx:34 | exactly the calls with the client's phone number |
| `Portal.ClientSelectionsInOrder` | app/dashboard/portal/page.tsx:33-34 | both selections keep input order: one more job or call extends them only when it is the client's |
| `Portal.ClientRevenue` | app/dashboard/portal/page.tsx:35 | 0 when the client has no job |
| `Portal.RevenueAppend` | app/dashboard/portal/page.tsx:35 | revenue adds up over concatenated job lists |
| `Portal.ClientPayments` | app/dashboard/portal/page.tsx:38 | exactly the client's paid jobs, no more of them than the client's jobs |
| `Portal.ClientPaid` | app/dashboard/portal/page.tsx:36 | 0 when the client has no paid job |
| `Portal.FlagListsAreSingleFilters` | app/dashboard/portal/page.tsx:37-39 | payments, invoices and reviews are each one filter over the dashboard jobs, by the client's number and the flag, in dashboard order |
| `Portal.RevenueIsPaidPlusOpen` | app/dashboard/portal/page.tsx:35-36 | revenue is the paid sum plus the sum over unpaid jobs |
| `Portal.PaidAtMostRevenue` | app/dashboard/portal/page.tsx:35-36 | with prices that are not negative, 0 <= paid <= revenue |
| `Portal.ClientInvoices` | app/dashboard/portal/page.tsx:37 | exactly the client's jobs whose invoice was sent, no more of them than the client's jobs |
| `Portal.ClientReviews` | app/dashboard/portal/page.tsx:39 | exactly the client's jobs with a review, no more of them than the client's jobs |
| `Portal.JsRemainder` | app/dashboard/portal/page.tsx:44 | JavaScript's `%`: the remainder takes the dividend's sign |
| `Portal.FormatDuration` | app/dashboard/portal/page.tsx:42-46 | the text has at least four characters |
| `Portal.FormatDurationReadsBack` | app/dashboard/portal/page.tsx:42-46 | for a duration that is not negative: the minutes, a colon, then two digits below 60, with minutes * 60 + seconds equal to the duration |
| `Portal.FormatDurationInjective` | app/dashboard/portal/page.tsx:42-46 | different durations that are not negative render differently |
| `Portal.FormatDurationExamples` | app/dashboard/portal/page.tsx:42-46 | 420 renders as "7:00", 65 as "1:05" and -5 as "-1:-5" |
| `Portal.FirstDigitRun` | app/dashboard/portal/page.tsx:41 | the leftmost position of ten consecutive digits, or none |
| `Portal.FormatPhone` | app/dashboard/portal/page.tsx:41 | the text is unchanged without a ten-digit run, and four characters longer with one |
| `Portal.FormatTenDigits` | app/dashboard/portal/page.tsx:41 | d0..d9 renders as "(d0d1d2) d3d4d5-d6d7d8d9" |
| `Portal.FormatPhoneChangesIffRun` | app/dashboard/portal/page.tsx:41 | the text changes exactly when it holds ten consecutive digits |
| `Portal.FormatPhoneKeepsDigits` | app/dashboard/portal/page.tsx:41 | formatting only inserts punctuation, so the digits stay the same and in order |

## Left out

- The connection pool, its lazy creation and the `DATABASE_URL` check (lib/live-data.ts:1-18) are process state and environment I/O. The store's answer is an input, `StoreReply`: not configured, a query failed, or the rows of the three queries.
- The SQL text and its `ORDER BY` clauses are executed by the database. The rows arrive as sequences in whatever order the store gives them.
- The settings read and upsert (`getLiveSettings`, `saveLiveSettings`, lib/live-data.ts:134-177) are database I/O outside this data layer.
- Logging of a failed query (`console.error`) is a side effect with no effect on the result.
- `new Date(...)` parsing is a library call. Each call date carries the instant it denotes as an integer. An unparsable date is not modelled; in JavaScript it compares false both ways.
- LiveData.ToJob: prices are integers. `parseFloat` of a price column and fractional prices are not modelled: an unreadable or missing price is the absent value, which becomes 0. A price that reads as 0 also gives 0, as in the source.
- Row fields that the database gives as `null` (audio URL, transcript, outcome) are absent values. JavaScript's distinction between `null` and `undefined` is not kept.
- Message roles and job statuses are taken to be one of the listed values. The source's type cast does not check this.
- Portal.FormatDuration: durations are integers. Fractional seconds are not modelled.
- Text.IntToString: JavaScript numbers are doubles. Integers above 2^53 lose precision there, and `toString` switches to exponent notation from 1e21. The model's integers are unbounded and always render in full.
- LiveData.ToJob: the `booked` and `paid` columns are booleans. A NULL there is falsy in the source's `filter`, but the row model cannot represent it.
- The React pages and components, the calendar's month arithmetic, the floating-point close rate and ROI multiplier, the audio player and the JSON route are presentation outside this data layer. The copies of `formatDuration` and the filter helpers in the calls and clients pages are the same functions as the portal's, modelled once.
