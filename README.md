# Weighing station — a Dafny model

The weighing station is a web application for a truck scale. An operator weighs
a vehicle twice. The heavier reading is the gross weight, the lighter one the
tare, and their difference the net weight of the load. The operator fills in the
ticket number, vehicle, item, vendor and direction (incoming or outgoing) and
saves the record; saving only confirms it and clears the form, and nothing is
stored. A separate dashboard lists a set of generated sample records and
narrows them with a filter bar: a date range and four selects. It shows the
incoming and outgoing totals and a seven-day trend chart.

This project models the core of that application and proves properties of it.
There are five modules:

- `Types` (`types.dfy`): the records, catalogue entities and dashboard filters.
- `Time` (`time.dfy`): the calendar arithmetic the dashboard relies on: start
  and end of day, inclusive intervals, and moving by whole days.
- `DashboardUtils` (`dashboard_utils.dfy`): `filterWeightRecords`,
  `calculateTotals` and `getWeightTrendData`.
- `FilterControls` (`filter_controls.dfy`): the filter bar's handlers and the
  default one-week date range.
- `WeighingStation` (`weighing_station.dfy`): the client page.
  - `Session` holds the page state as a value, and the two-weighing state
    machine is a set of functions on it: `Capture`, `Reset` and the guards.
  - The class `ClientPage` holds the component's state (`data`, `currentStep`,
    `isWeighing`). Its methods are proved against those functions.
  - The module also states the validation message and the save condition.

The model keeps these conventions:
- Timestamps are integer milliseconds and weights integer kilograms.
- A select-backed filter field is an `Option<string>`. Both an absent field
  (`None`) and an empty string (`Some("")`) can be represented, and every
  consumer treats them alike, as the source's truthiness tests do.
- The filter field called `type` in the source is named `recordType` here.
- The page's `type: 'incoming' | 'outgoing' | ''` is an `Option<RecordType>`, with
  `None` for `''`.

## Model

| member | source | states |
|---|---|---|
| Types.TypeName | lib/types.ts:3 | a record type's run-time string is "incoming" or "outgoing", and "incoming" exactly for incoming records |
| Time.StartOfDay | lib/dashboard-utils.ts:13 | the start of a day is at or before the moment, less than a day before it, and on the same calendar day |
| Time.EndOfDay | lib/dashboard-utils.ts:14 | the end of a day is the last millisecond of the moment's calendar day, at or after the moment |
| Time.AddDaysIndex | lib/dashboard-utils.ts:68-69 | moving a moment by n days moves its calendar day by exactly n |
| Time.DayWindow | lib/dashboard-utils.ts:12-15 | a moment lies between the start of `from`'s day and the end of `to`'s day exactly when its day lies between those two days |
| DashboardUtils.Passes | lib/dashboard-utils.ts:8-39 | a record passes exactly when its calendar day lies between the days of the range's ends (if a range is set) and its type, item, vendor and vehicle match each filter that is set and non-empty; a type filter naming neither direction passes nothing |
| DashboardUtils.FilterWeightRecords | lib/dashboard-utils.ts:4-41 | the result is no longer than the input, and a record is in it exactly when it is in the input and passes every set filter |
| DashboardUtils.FilterKeepsExactly | lib/dashboard-utils.ts:10-39 | a record is kept iff it lies in the date window, and its type, item, vendor and vehicle match each filter that is set and non-empty |
| DashboardUtils.FilterIsSubsequence | lib/dashboard-utils.ts:8 | filtering only deletes records: the result is an order-preserving subsequence of the input |
| DashboardUtils.FilterWithoutFilters | lib/dashboard-utils.ts:4-41 | with the empty filter object every record is kept, in order |
| DashboardUtils.FilterConcat | lib/dashboard-utils.ts:8 | filtering two batches together gives the concatenation of filtering each |
| DashboardUtils.FilterNarrowing | lib/dashboard-utils.ts:4-41 | filtering with a weaker filter and then a stronger one gives what the stronger one gives alone |
| DashboardUtils.FilterIdempotent | lib/dashboard-utils.ts:4-41 | filtering twice with the same filters changes nothing |
| DashboardUtils.OfType | lib/dashboard-utils.ts:44-45 | one direction's records are never more than the whole batch |
| DashboardUtils.OfTypeMembers | lib/dashboard-utils.ts:44-45 | one direction's records are exactly the records of that type |
| DashboardUtils.TypePartition | lib/dashboard-utils.ts:44-52 | the incoming and outgoing parts split both the count and the net weight of the whole batch |
| DashboardUtils.SumNetNonNegative | lib/dashboard-utils.ts:48-49 | the net-weight sum (`SumNet`, the reduce of these lines) of records without negative net weights is non-negative |
| DashboardUtils.PartsNonNegative | lib/dashboard-utils.ts:48-49 | without negative net weights, both direction totals are non-negative |
| DashboardUtils.CalculateTotals | lib/dashboard-utils.ts:43-54 | totalIncoming and incomingCount are the net-weight sum and number of the incoming records, likewise for outgoing; totalRecords is the batch size, the two counts add up to it, the two totals add up to the batch's net weight, and both totals are non-negative when no net weight is |
| DashboardUtils.OfTypeConcat | lib/dashboard-utils.ts:44-45 | selecting one direction of two batches together concatenates the selections |
| DashboardUtils.SumNetConcat | lib/dashboard-utils.ts:48-49 | the net-weight sum is additive over concatenation |
| DashboardUtils.PartConcat | lib/dashboard-utils.ts:44-51 | one direction's count and net weight over two batches are the sums over each |
| DashboardUtils.TotalsConcat | lib/dashboard-utils.ts:43-54 | the totals of two batches together are the field-wise sums of their totals |
| DashboardUtils.RecordsWithin | lib/dashboard-utils.ts:73-75 | a record is in a day's list exactly when it is in the input and its timestamp lies in the day's interval |
| DashboardUtils.Tons | lib/dashboard-utils.ts:90-91 | the ton value is the nearest whole ton: within half a ton of the kilograms, with halves rounded up |
| DashboardUtils.KgTrend | lib/dashboard-utils.ts:67-83 | the day-by-day kilogram series behind the chart has seven entries |
| DashboardUtils.Trend | lib/dashboard-utils.ts:63-96 | the chart data has seven bars |
| DashboardUtils.GetWeightTrendData | lib/dashboard-utils.ts:63-96 | the loop from i = 6 down to 0 pushes, for each of the seven days ending today, the day's incoming and outgoing net weight rounded to tons |
| DashboardUtils.TrendDays | lib/dashboard-utils.ts:67-69 | the bars stand for seven consecutive calendar days, oldest first, the last dated today |
| DashboardUtils.SumOnDaysSplit | lib/dashboard-utils.ts:73-83 | the reference per-day sum splits over adjacent ranges of days |
| DashboardUtils.WithinSum | lib/dashboard-utils.ts:70-83 | one direction's net weight between the start of one day and the end of another equals the reference sum over those calendar days |
| DashboardUtils.DayPointCountsOnlyItsDay | lib/dashboard-utils.ts:70-83 | each day's kilogram bar adds up exactly the records of its own calendar day, by direction |
| DashboardUtils.TrendBar | lib/dashboard-utils.ts:67-83 | kilogram bar k holds the reference sum of day k of the week |
| DashboardUtils.TrendBarTons | lib/dashboard-utils.ts:67-93 | bar k of the chart data is kilogram bar k rounded to tons, the nearest whole ton to the reference sum of day k |
| DashboardUtils.PrefixSum | lib/dashboard-utils.ts:67-93 | the first n kilogram bars add up to the reference sum over the first n days |
| DashboardUtils.DateOnlyFilter | lib/dashboard-utils.ts:10-17 | filtering by a date range alone keeps exactly the records within the day window |
| DashboardUtils.TrendMatchesWeekTotals | lib/dashboard-utils.ts:43-96 | summed over the seven days, the kilogram bars of each direction equal that direction's dashboard total for the records a six-days-ago-to-today filter keeps |
| DashboardUtils.RoundingGap | lib/dashboard-utils.ts:90-91 | rounding each of n bars to tons changes their total by at most n half-tons |
| DashboardUtils.ChartNearWeekTotals | lib/dashboard-utils.ts:43-96 | 1000 × the sum of the charted ton values is within 3500 kg of the week's dashboard total, in each direction |
| FilterControls.WeekAgo | components/dashboard-filters.tsx:20-22 | the default start is before today and seven calendar days earlier |
| FilterControls.DisplayedRange | components/dashboard-filters.tsx:24-25 | the inputs show the chosen range when one is set; otherwise they show today and a moment seven days earlier |
| FilterControls.HandleDateChange | components/dashboard-filters.tsx:27-36 | after an edit a date range is always set; the edited end takes the new date and the other end keeps its shown value; no other filter changes |
| FilterControls.DateChangeShown | components/dashboard-filters.tsx:24-36 | after an edit the edited input shows the chosen date, whatever day it is later |
| FilterControls.DateChangesCommute | components/dashboard-filters.tsx:27-36 | setting both ends gives the same filters in either order, namely the range from the first date to the second |
| FilterControls.DateChangeKeepsDays | components/dashboard-filters.tsx:27-36 | after a date edit, a record passes iff the other filters pass it and its day lies between the days of the two ends |
| FilterControls.DisplayedSelect | components/dashboard-filters.tsx:78 | a select shows the filter's value when the filter is active, and "All" (the empty string) exactly when it is not |
| FilterControls.HandleSelectChange | components/dashboard-filters.tsx:38-43 | the chosen field is set, or removed for the empty choice; every other field and the date range are kept |
| FilterControls.SelectShown | components/dashboard-filters.tsx:38-43 | after a choice the select shows that choice |
| FilterControls.SelectUndo | components/dashboard-filters.tsx:38-43 | choosing again what the select showed before restores the filters |
| FilterControls.SelectRestricts | components/dashboard-filters.tsx:38-43 | choosing a value keeps exactly the records that the "All" choice keeps and whose field equals the value |
| FilterControls.SelectNarrowsResults | components/dashboard-filters.tsx:38-43 | the records listed after a choice are the "All" list filtered again, and a subsequence of it |
| WeighingStation.DeriveWeights | app/client/page.tsx:89-91 | gross is the larger reading and tare the smaller; together they are the two readings; net is gross minus tare, the absolute difference, and never negative |
| WeighingStation.InitialConsistent | app/client/page.tsx:29-45 | the initial state keeps the page invariant, and cannot be saved |
| WeighingStation.Capture | app/client/page.tsx:72-104 | after a capture the page is in step 2 and no detail has changed; step 1 stores only the first weight; step 2 stores the second weight and gross/tare/net as the max/min/difference of the two readings |
| WeighingStation.CapturePreservesConsistency | app/client/page.tsx:72-104 | a capture with a scale reading keeps the page invariant |
| WeighingStation.Reset | app/client/page.tsx:106-116 | after a reset the page is in step 1 with all five weights cleared, the details kept, and the invariant holding |
| WeighingStation.ResetUndoesCapture | app/client/page.tsx:72-116 | resetting after a capture gives what resetting before it would, and resetting twice is resetting once |
| WeighingStation.TwoCaptures | app/client/page.tsx:72-104 | two captures from step 1 give gross = max, tare = min and net = difference; then no capture is offered, and saving is allowed exactly when the details are complete |
| WeighingStation.SpaceCaptures | app/client/page.tsx:214-221 | the Space shortcut never captures while a reading is in progress; on a consistent state it captures exactly when no reading is in progress and the current step's weight is missing |
| WeighingStation.CaptureButtonEnabled | app/client/page.tsx:336 | the capture button is disabled while a reading is in progress; on a consistent state it is enabled exactly when no reading is in progress and the current step's weight is missing |
| WeighingStation.ResetOffered | app/client/page.tsx:237 | on a consistent state, Escape and the reset button (line 362) act exactly when the first weight is recorded |
| WeighingStation.CaptureGuardsAgree | app/client/page.tsx:214-221 | on every reachable state the Space shortcut's falsiness test and the capture button's null test agree (button at line 336) |
| WeighingStation.ResetOfferedInSecondStep | app/client/page.tsx:237 | Escape and the reset button (line 362) act exactly in step 2 of a reachable state |
| WeighingStation.DetailsAreRequirements | app/client/page.tsx:139-143 | the five details are complete exactly when every requirement but the weighing is met |
| WeighingStation.CanProceedToSave | app/client/page.tsx:138-143 | saving is allowed exactly when a gross weight is present and every requirement other than the weighing is met |
| WeighingStation.Labels | app/client/page.tsx:56-63 | the labels list has one entry per missing requirement: entry i is the label of requirement i |
| WeighingStation.Join | app/client/page.tsx:63 | the joined string starts with the first part, and its length is the parts' total length plus one separator per gap |
| WeighingStation.OffsetStep | app/client/page.tsx:63 | in the joined string each part starts right after the previous part and one separator |
| WeighingStation.JoinPart | app/client/page.tsx:63 | part i of the joined string sits at its offset (the parts before it, each with a separator), and the last part ends the string |
| WeighingStation.JoinGap | app/client/page.tsx:63 | the separator sits right after every part but the last |
| WeighingStation.ValidationMessage | app/client/page.tsx:54-64 | the message is empty exactly when no requirement is missing; otherwise it starts with "Missing: " |
| WeighingStation.TextPart | app/client/page.tsx:63 | in "Missing: " followed by the joined labels, label i sits at its offset after the prefix, and the last label ends the line |
| WeighingStation.TextGap | app/client/page.tsx:63 | in that line every label but the last is followed by ", " |
| WeighingStation.MessagePart | app/client/page.tsx:54-64 | after "Missing: ", the label of the i-th missing requirement sits at its offset, and the last label ends the message |
| WeighingStation.MessageGap | app/client/page.tsx:63 | every missing requirement's label but the last is followed by ", " |
| WeighingStation.CollectMissing | app/client/page.tsx:55-61 | the six checks, run in the page's order, push exactly `MissingRequirements`: the unmet requirements in rank order |
| WeighingStation.UnmetUpToExactly | app/client/page.tsx:55-61 | the first k checks list exactly the unmet requirements of rank below k, in increasing rank |
| WeighingStation.MissingRequirementsExactly | app/client/page.tsx:54-64 | the message lists a requirement exactly when it is unmet, once, in the page's fixed order |
| WeighingStation.ValidationAgreesWithSave | app/client/page.tsx:54-64 | unless the gross weight is 0, the message is empty exactly when the record can be saved (condition at lines 138-143) |
| WeighingStation.ZeroGrossDisagrees | app/client/page.tsx:56 | with a gross weight of 0 and complete details, saving is allowed while the message still asks for a weighing |
| WeighingStation.ReachableValidationAgrees | app/client/page.tsx:54-64 | on every reachable state the message is empty exactly when the record can be saved |
| WeighingStation.FindVehicle | app/client/page.tsx:449 | the lookup fails exactly when no vehicle has the id; otherwise it returns the first vehicle with that id |
| WeighingStation.DriverAfterSelect | app/client/page.tsx:448-454 | when the first vehicle with the chosen id has a non-empty driver the name becomes that driver, otherwise (no such vehicle, or an empty driver) the name stays; a non-empty name never becomes empty |
| WeighingStation.ClientPage.constructor | app/client/page.tsx:29-46 | the page starts in step 1 with the empty form, not weighing, with the invariant holding |
| WeighingStation.ClientPage.CaptureWeight | app/client/page.tsx:72-104 | the state after a capture is `Capture` of the state before; the invariant holds and no reading is in progress |
| WeighingStation.ClientPage.ResetWeighing | app/client/page.tsx:106-116 | the state after a reset is `Reset` of the state before |
| WeighingStation.ClientPage.SaveRecord | app/client/page.tsx:118-137 | after saving the page is back to the initial state |
| WeighingStation.ClientPage.GetValidationMessage | app/client/page.tsx:54-64 | the message built from the six checks (`CollectMissing`) is `ValidationMessage`, whose content `MissingRequirementsExactly`, `MessagePart` and `MessageGap` characterise |
| WeighingStation.ClientPage.SetTicketNumber | app/client/page.tsx:431 | only the ticket number changes |
| WeighingStation.ClientPage.SetTransactionType | app/client/page.tsx:437 | only the transaction type changes |
| WeighingStation.ClientPage.SelectVehicle | app/client/page.tsx:448-454 | only the vehicle id and, through `DriverAfterSelect`, the driver name change |
| WeighingStation.ClientPage.SetItem | app/client/page.tsx:471 | only the item id changes |
| WeighingStation.ClientPage.SetVendor | app/client/page.tsx:487 | only the vendor id changes |
| WeighingStation.ClientPage.SetDriverName | app/client/page.tsx:506 | only the driver name changes |
| WeighingStation.ClientPage.SetNotes | app/client/page.tsx:515 | only the notes change |
| WeighingStation.ClientPage.HandleKeyPress | app/client/page.tsx:211-240 | Space outside text fields captures when the Space guard allows it; Ctrl+S saves when saving is allowed; Escape resets when a weight is present; every other key or state leaves the page unchanged; the in-progress flag is never left changed |

## Left out

- WeighingStation.ClientPage.CaptureWeight: the scale is a parameter. The model does not include the random reading (`simulateWeightReading`, lines 67-70) or the two-second delay. A capture is one atomic step, so the `isWeighing` window is not modelled. Neither are a reset or save during that window, nor a second press landing in it.
- The scale's range: the simulated scale yields whole kilograms from 500 to 49999. That range enters only as the `IsScaleReading` precondition.
- Ctrl+P and `printWeighingTicket` (lines 146-208): they build an HTML ticket and open a print window. This is presentation and I/O, so `HandleKeyPress` leaves the state unchanged for Ctrl+P.
- The `console.log` and `alert` of `saveRecord`: output only.
- `getSelectedVehicle/Item/Vendor` (lines 49-51): used only to display the ticket and the summary panel.
- The page has no setter for `itemDescription`. The field is modelled and only cleared on save.
- `preventDefault` and the focus test: the focus test is the parameter `inTextField`.
- DashboardUtils.GetWeightTrendData: the bar's `date` label (`toLocaleDateString`) is not modelled. Each bar carries the moment it stands for instead.
- Time: date-fns computes days in the local time zone, with days of 23 or 25 hours at daylight-saving changes. The model uses days of fixed length on a UTC-like integer timeline, and `setDate(getDate() - n)` is moving by n whole days.
- Time.DayWindow: when the From date is after the To date, what `isWithinInterval` does depends on the date-fns version, which is not part of this model. Older versions throw, and newer ones swap the two ends. The model's interval is then empty, which matches neither behaviour.
- FilterControls.HandleDateChange: the date input's string parsing (`new Date(value)`) is not modelled. The handler receives the parsed moment. The `toISOString` rendering of the inputs is not modelled either.
- `formatWeight` (lib/dashboard-utils.ts:56-61): it formats floating-point output, and nothing in the core uses it.
- Weights are integers. The page's scale readings are whole kilograms, but the dashboard's records can carry fractional tare and net weights (lib/dummy-data.ts). The model uses whole kilograms for them, so fractional sums and their rounding are not captured.
- The `WeighingData` interface in lib/types.ts:51-62 is not used by the page, which declares its own (app/client/page.tsx:12-26). Only the page's version is modelled.
- lib/dummy-data.ts, app/page.tsx and the chart, table and stats-card components are not part of this model. They are sample data and rendering; vehicle lookups take the vehicle list as a parameter.
