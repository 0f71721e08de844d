# IoT dashboard client: a Dafny model of its stateful core

The application is an Angular client for monitoring IoT devices. Three of its
views hold the logic modelled here:

- **Report view** (`ReportComponent`). It checks the device/range selection and
  fetches the filtered readings. It pages them 15 to a page and exports them as
  CSV: an unquoted header line, then one line per reading. Each line starts with
  the reading's position counted from 1, and every field on it is enclosed in
  double quotes with embedded quotes doubled.
- **Dashboard view** (`DashboardComponent`). It runs the same selection check and
  fetches chart data. It sorts the samples by timestamp and draws them in one of
  three ways:
  - daily: one point per sample;
  - weekly: the mean per weekday, Monday to Sunday, days without samples left out;
  - monthly: the mean per calendar month, in chronological order.
  It then polls on a single repeating interval. Each non-empty poll puts the new
  batch in front of the kept samples and keeps at most 6. The interval is
  cancelled when the view is destroyed, though a non-empty answer to a chart
  request still in flight then starts a new one.
- **Device directory** (`DeviceComponent`). It lists, adds and deletes devices,
  guarded by the stored token. It toggles a device between `active` and
  `inactive` and keeps a per-device loading flag. Each device id has at most one
  data-simulation interval. It starts when a toggle to `active` succeeds and
  stops only when a toggle to `inactive` succeeds.

Each view is a `class` whose fields are the component's fields. HTTP calls are
not made. Each response is a parameter of type `Response<T>`: `Received(data)`
or `Failed(detail)`. The stored token is an `Option<string>` parameter. The
host's timer registry becomes a set of live interval handles plus a counter for
the next handle. Dates are abstract: a sample carries an integer timestamp, a
`Weekday` and a `(year, month)` key. Sample values are integers, and every
average is an exact `real`.

The shared pieces are pure modules:

- `Selection`: the selection check.
- `Sorting`: a stable sort by integer key, standing for the host's
  `Array.prototype.sort`.
- `Csv`: quoting, joining, and a reader for the escaping rules of section 2 of
  RFC 4180.
- `Pagination`: page count and page slices.
- `Aggregation`: grouping, averages and series order.

Where one might expect otherwise, the model follows the code:

- An out-of-range page request is ignored, not clamped to the nearest page.
- A live tick redraws the chart with the daily layout even when the weekly or
  monthly view is selected, and it does not re-sort.
- Destroying the dashboard cancels its interval but leaves the stale handle in
  `pollingInterval`.
- A device loaded as `active` from the server gets no simulation interval; only
  a successful toggle starts one.
- Deleting a device does not stop its simulation interval, and the device view
  has no destroy hook, so its intervals outlive it.
- Records in the CSV export are separated by a line feed, not the carriage
  return and line feed of RFC 4180.

## Model

| member | source | states |
|---|---|---|
| `Selection.Message` | src/app/page/report/report.component.ts:55-65 | The alert text for each kind of incomplete selection, word for word. |
| `Selection.Validate` | src/app/page/report/report.component.ts:54-67 | Gives no error exactly when both device and range are non-empty. Gives the combined error exactly when both are empty, the device error when only the device is missing, and the range error when only the range is missing. The dashboard repeats the same check at dashboard.component.ts:58-71. |
| `Common.Reason` | src/app/page/device/device.component.ts:49 | The alert detail is the server's detail text when present, otherwise a non-empty fallback. |
| `Report.ReportComponent.constructor` | src/app/page/report/report.component.ts:17-28 | Starts with no data, page 1 and 0 pages, not fetched; the paging invariant holds. |
| `Report.ReportComponent.GenerateReport` | src/app/page/report/report.component.ts:53-85 | With an incomplete selection: sends no request, alerts the validation message, changes nothing. On success: stores the data, sets fetched, sets "generated" exactly when the data is non-empty, goes to page 1 of ceil(n/15) and shows that page. On failure: sets fetched and alerts, leaving data, pages and "generated" unchanged. |
| `Report.ReportComponent.OnFilterReceived` | src/app/page/report/report.component.ts:73-78 | Success handler: data stored, fetched set, "generated" iff non-empty, pagination reset to page 1. |
| `Report.ReportComponent.OnFilterFailed` | src/app/page/report/report.component.ts:79-83 | Error handler: only the fetched flag changes, to true. |
| `Report.ReportComponent.SetupPagination` | src/app/page/report/report.component.ts:87-91 | Sets current page 1, total pages ceil(n/15), and the rows shown to page 1's slice. |
| `Report.ReportComponent.UpdateDisplayedData` | src/app/page/report/report.component.ts:93-97 | The rows shown are the slice of the current page. |
| `Report.ReportComponent.GoToPage` | src/app/page/report/report.component.ts:99-104 | A page in 1..totalPages becomes current and its slice is shown. Any other number changes nothing. The paging invariant is kept. |
| `Report.ReportComponent.DownloadCsv` | src/app/page/report/report.component.ts:109-130 | Produces no file, with an alert, exactly when the data is empty. Otherwise the file is the CSV of the whole data set, not just the current page, and it reads back as the header followed by one row per reading. |
| `Report.CsvRow` | src/app/page/report/report.component.ts:116-121 | The four fields of one reading's line. `CsvRowFields` states them. |
| `Report.CsvRows` | src/app/page/report/report.component.ts:116-121 | One row per reading, in order, numbered from 1 (`CsvRowFields`). |
| `Report.CsvContent` | src/app/page/report/report.component.ts:123-126 | The exported text: the plain header line, then one line of quoted fields per reading, separated by line feeds. `CsvContentReadsBack` states what it encodes. |
| `Report.CsvContentReadsBack` | src/app/page/report/report.component.ts:115-126 | An RFC 4180 reader recovers the header record and then each reading's row, in order, exactly. This holds whatever quotes, commas or line feeds the fields contain. |
| `Report.CsvRowFields` | src/app/page/report/report.component.ts:116-121 | Row i has four fields: the decimal number i+1, then type, value and timestamp. |
| `Pagination.PageCount` | src/app/page/report/report.component.ts:89 | The page count is the ceiling of n/15: enough pages for n rows, never a spare one, and 0 exactly when n is 0. |
| `Pagination.Slice` | src/app/page/report/report.component.ts:96 | The host's slice with its bounds clamped to the list. `PageSlice` states the result for a page. |
| `Pagination.PageSlice` | src/app/page/report/report.component.ts:93-97 | A page has at most 15 rows, taken in order from position (page-1)*15. It is empty exactly when past the last page. It is full except possibly on the last page. |
| `Pagination.PagesPrefix` | src/app/page/report/report.component.ts:93-97 | Pages 1..k laid end to end are the first min(15k, n) rows. |
| `Pagination.PagesCoverData` | src/app/page/report/report.component.ts:87-97 | Pages 1..totalPages laid end to end are exactly the filtered data. |
| `Pagination.PageOfRow` | src/app/page/report/report.component.ts:93-97 | Row i appears on page i/15+1, which exists, at position i mod 15. |
| `Csv.Escape` | src/app/page/report/report.component.ts:125 | Every quote in a field doubled. `ReadQuotedEscape` shows that a reader undoes it. |
| `Csv.QuoteField` | src/app/page/report/report.component.ts:125 | A field enclosed in quotes after escaping. `UnquoteQuoteField` and `QuoteFieldInjective` state its round trip and injectivity. |
| `Csv.Join` | src/app/page/report/report.component.ts:124-126 | The parts with a separator between neighbours, as the host's join writes them. `ReadRecordJoin` and `ReadRecordsJoin` read the joined text back. |
| `Csv.ReadQuotedEscape` | src/app/page/report/report.component.ts:125 | The escaped text followed by a closing quote reads back as the original text. Doubled quotes become single quotes again. |
| `Csv.UnquoteQuoteField` | src/app/page/report/report.component.ts:125 | Unquoting a quoted field gives back the original field, for every string. |
| `Csv.QuoteFieldInjective` | src/app/page/report/report.component.ts:125 | Distinct fields are written as distinct quoted texts. |
| `Csv.ReadRecordJoin` | src/app/page/report/report.component.ts:125 | A record written field by field, quoted or plain, and joined by commas reads back as its fields. |
| `Csv.ReadRecordsJoin` | src/app/page/report/report.component.ts:123-126 | Records joined by line feeds read back as the records, in order. |
| `Csv.Decimal` | src/app/page/report/report.component.ts:117 | The row number's text is non-empty and all decimal digits. |
| `Csv.DecimalRoundTrip` | src/app/page/report/report.component.ts:117 | The decimal text of n has the value n. |
| `Dashboard.DashboardComponent.constructor` | src/app/page/dashboard/dashboard.component.ts:16-23 | Starts with no data, no chart and no interval handle. No interval of the view is running. |
| `Dashboard.DashboardComponent.InitChart` | src/app/page/dashboard/dashboard.component.ts:102-136 | When the canvas exists, the chart is created empty; otherwise nothing changes. |
| `Dashboard.DashboardComponent.GenerateReport` | src/app/page/dashboard/dashboard.component.ts:57-77 | The chart-data request is sent exactly when device and range are both chosen. Otherwise the alert is the validation message for what is missing, and nothing changes. |
| `Dashboard.DashboardComponent.OnChartData` | src/app/page/dashboard/dashboard.component.ts:78-99 | With a non-empty response: stores it, sorts it and draws it for the range (only when a chart exists), and leaves exactly one fresh interval running, whatever ran before, even after destruction. With an empty response or an error: alerts "no data" or the failure message, clears the samples and device info, and empties the chart if one exists. |
| `Dashboard.DashboardComponent.UpdateChartBasedOnRange` | src/app/page/dashboard/dashboard.component.ts:138-150 | Without a chart: changes nothing, not even the order. With a chart: sorts the samples by timestamp and draws the daily, weekly or monthly chart. An unknown range leaves the chart as it was. |
| `Dashboard.DashboardComponent.UpdateChart` | src/app/page/dashboard/dashboard.component.ts:152-164 | Labels and values have one entry per sample, in sample order: the sample's timestamp and its value. |
| `Dashboard.DashboardComponent.UpdateChartForWeekly` | src/app/page/dashboard/dashboard.component.ts:192-214 | The chart becomes the weekly series of the samples (see `Aggregation.WeeklySpec`). |
| `Dashboard.DashboardComponent.UpdateChartForMonthly` | src/app/page/dashboard/dashboard.component.ts:216-238 | The chart becomes the monthly series of the samples (see `Aggregation.MonthlySpec`). |
| `Dashboard.DashboardComponent.StartLiveUpdates` | src/app/page/dashboard/dashboard.component.ts:166-171 | Cancels the previous interval and stores a fresh handle. Afterwards exactly one interval of the view runs, the stored one. |
| `Dashboard.DashboardComponent.LiveTick` | src/app/page/dashboard/dashboard.component.ts:171-189 | Fires only for a running interval. A non-empty batch merges into the samples (at most 6 afterwards) and redraws the daily chart. An empty batch or an error leaves samples and chart unchanged. |
| `Dashboard.DashboardComponent.OnDestroy` | src/app/page/dashboard/dashboard.component.ts:34-38 | Immediately afterwards no interval of the view runs. The stored handle is not reset. |
| `Dashboard.DailyChart` | src/app/page/dashboard/dashboard.component.ts:155-162 | One point per sample, in sample order. `UpdateChart` states it point by point. |
| `Dashboard.WeeklyChart` | src/app/page/dashboard/dashboard.component.ts:207-212 | The weekly series as chart labels and values (`Aggregation.WeeklySpec`). |
| `Dashboard.MonthlyChart` | src/app/page/dashboard/dashboard.component.ts:230-236 | The monthly series as chart labels and values (`Aggregation.MonthlySpec`). |
| `Dashboard.RangeChart` | src/app/page/dashboard/dashboard.component.ts:143-149 | The chart for "daily", "weekly" or "monthly"; for any other range the current chart stays. `UpdateChartBasedOnRange` states the dispatch. |
| `Dashboard.AfterTick` | src/app/page/dashboard/dashboard.component.ts:178-183 | The samples after one poll: merged when the batch is non-empty, otherwise unchanged (`LiveTick`, `LiveBufferBounded`). |
| `Dashboard.AfterTicks` | src/app/page/dashboard/dashboard.component.ts:171-189 | The samples after a run of polls, oldest first; `LiveBufferBounded` bounds them. |
| `Dashboard.MergeLive` | src/app/page/dashboard/dashboard.component.ts:181 | The result has min(6, new + kept) samples: the new batch first, then the kept samples in order. |
| `Dashboard.LiveBufferBounded` | src/app/page/dashboard/dashboard.component.ts:178-183 | After any run of ticks, the samples are either unchanged or at most 6. Starting from at most 6, they stay at most 6. |
| `Sorting.SortBy` | src/app/page/dashboard/dashboard.component.ts:141 | The host's stable sort by a numeric key. It is sorted and a permutation (`SortBySortedPermutation`), stable (`SortByStable`), and keeps sorted input as it is (`SortBySortedIdentity`). |
| `Sorting.SortBySortedPermutation` | src/app/page/dashboard/dashboard.component.ts:141 | The sorted samples are in ascending timestamp order and are a permutation of the input. |
| `Sorting.SortByStable` | src/app/page/dashboard/dashboard.component.ts:141 | Samples with equal timestamps keep their relative order. |
| `Sorting.SortBySortedIdentity` | src/app/page/dashboard/dashboard.component.ts:141 | Re-sorting sorted samples changes nothing. |
| `Sorting.SortByDistinct` | src/app/page/dashboard/dashboard.component.ts:230-232 | Sorting keys without repeats yields keys without repeats. |
| `Aggregation.Weekly` | src/app/page/dashboard/dashboard.component.ts:195-209 | The weekday labels and average values of the weekly chart. `WeeklySpec` gives their meaning. |
| `Aggregation.Monthly` | src/app/page/dashboard/dashboard.component.ts:219-233 | The month labels and average values of the monthly chart. `MonthlySpec` gives their meaning. |
| `Aggregation.Tallies` | src/app/page/dashboard/dashboard.component.ts:195-205 | Every group made by the reduce has at least one sample. |
| `Aggregation.TalliesSpec` | src/app/page/dashboard/dashboard.component.ts:219-228 | A group exists exactly for a key that has samples. It holds the sum and the count of that key's values. |
| `Aggregation.InTallies` | src/app/page/dashboard/dashboard.component.ts:199-201 | A key has a group exactly when some sample has that key. |
| `Aggregation.AveragesAreMeans` | src/app/page/dashboard/dashboard.component.ts:209 | Each average is total divided by count, which is the exact mean of that group's values. |
| `Aggregation.DayNumber` | src/app/page/dashboard/dashboard.component.ts:207 | Each weekday has its place in the Monday-to-Sunday list. |
| `Aggregation.WeekInOrder` | src/app/page/dashboard/dashboard.component.ts:207 | The list of days is strictly in Monday-to-Sunday order. |
| `Aggregation.DaysPresent` | src/app/page/dashboard/dashboard.component.ts:208 | A day is kept exactly when it is listed and has a group. |
| `Aggregation.DaysPresentOrdered` | src/app/page/dashboard/dashboard.component.ts:207-208 | Filtering the ordered days keeps them in strict Monday-to-Sunday order. |
| `Aggregation.WeeklyLabels` | src/app/page/dashboard/dashboard.component.ts:195-208 | A weekday is labelled exactly when some sample falls on it. |
| `Aggregation.WeeklySpec` | src/app/page/dashboard/dashboard.component.ts:195-212 | The labels are exactly the weekdays that occur, each once, Monday to Sunday. There are as many values as labels, and each value is the exact mean of that day's values. |
| `Aggregation.KeysBefore` | src/app/page/dashboard/dashboard.component.ts:219-230 | The keys of the first n samples: a key is listed exactly when one of those samples has it, each key once, so there are no more keys than samples. |
| `Aggregation.KeysInOrder` | src/app/page/dashboard/dashboard.component.ts:230 | The keys of the grouping object as the host lists them: `KeysBefore` over all samples, in the order `KeysInOrderFirstSeen` states. |
| `Aggregation.KeysInOrderFirstSeen` | src/app/page/dashboard/dashboard.component.ts:219-230 | Keys come in first-seen order: a key listed before another occurs in the samples before any occurrence of the other. |
| `Aggregation.FirstSeenAt` | src/app/page/dashboard/dashboard.component.ts:219-230 | First-seen order for one pair of listed keys and one occurrence of the later key, among the first n samples. |
| `Aggregation.MonthStartInjective` | src/app/page/dashboard/dashboard.component.ts:231 | Different months start on different dates. |
| `Aggregation.MonthlyLabels` | src/app/page/dashboard/dashboard.component.ts:219-232 | The labels are exactly the months that occur, without repeats, sorted by start date, and never more than the samples. |
| `Aggregation.MonthlySpec` | src/app/page/dashboard/dashboard.component.ts:219-236 | One label per distinct month, in strictly chronological order. There are as many values as labels, and each value is the exact mean of that month's values. |
| `Devices.HasToken` | src/app/page/device/device.component.ts:31-36 | A stored token counts only when it is present and non-empty, as the source's truthiness test does. `GetDevices`, `AddDevice` and `DeleteDevice` send a request exactly when it holds. |
| `Devices.Toggled` | src/app/page/device/device.component.ts:87 | The requested status is "inactive" exactly when the current one is "active", and "active" otherwise. |
| `Devices.ToggledTwice` | src/app/page/device/device.component.ts:87 | Toggling twice restores either known status. |
| `Devices.WithoutId` | src/app/page/device/device.component.ts:151 | The filtered list is never longer than the original. |
| `Devices.WithoutIdMembers` | src/app/page/device/device.component.ts:151 | A device stays exactly when it was listed and has a different id. |
| `Devices.WithoutIdConcat` | src/app/page/device/device.component.ts:151 | Filtering distributes over concatenation, so the kept devices keep their original order. |
| `Devices.WithoutIdAbsent` | src/app/page/device/device.component.ts:151 | Deleting an id that no device has leaves the list as it was. |
| `Devices.HandlesRemove` | src/app/page/device/device.component.ts:128-134 | Removing one device's entry removes exactly its handle from the set of running handles. |
| `Devices.HandlesAdd` | src/app/page/device/device.component.ts:113 | Recording a new entry adds exactly its handle. |
| `Devices.DeviceComponent.constructor` | src/app/page/device/device.component.ts:16-21 | Starts with an empty list, a blank form, and empty loading and interval tables. |
| `Devices.DeviceComponent.GetDevices` | src/app/page/device/device.component.ts:30-52 | Without a token: no request, an alert, and the list unchanged. On success the list is replaced. On error the server's detail is alerted and the list is unchanged. |
| `Devices.DeviceComponent.AddDevice` | src/app/page/device/device.component.ts:55-79 | Without a token: nothing is sent and nothing changes. On success the form is sent, exactly the returned device is appended, and the form is reset to name "", type "", status "inactive". On error nothing changes. |
| `Devices.DeviceComponent.DeleteDevice` | src/app/page/device/device.component.ts:139-159 | Without a token: nothing changes. On success every device with that id is removed and the others stay in order. On error the list is unchanged. |
| `Devices.DeviceComponent.ToggleDeviceStatus` | src/app/page/device/device.component.ts:85-91 | Marks only this device's id as loading and requests the toggled status. |
| `Devices.DeviceComponent.OnToggleResponse` | src/app/page/device/device.component.ts:92-107 | Either way the id stops loading. On success the new status is written; "active" registers a fresh interval for the id and anything else removes its entry. On error the status and the intervals are unchanged. |
| `Devices.DeviceComponent.StartDataSimulation` | src/app/page/device/device.component.ts:110-127 | The id ends up with exactly one fresh interval and its previous one is cancelled. Other entries are unchanged. Every running simulation stays recorded under exactly one id. |
| `Devices.DeviceComponent.StopDataSimulation` | src/app/page/device/device.component.ts:128-134 | Removes only key id and cancels its interval. An id with no interval changes nothing. |

## Left out

- HTTP requests, their URLs, headers and query parameters are not modelled. Each response is a parameter. Two requests are split into sending and answering: the status toggle, so that its pending state is visible, and the dashboard's chart-data request, so that an answer arriving after destruction can be followed. The other requests complete before the next user action, and overlapping requests of the same kind are not modelled.
- Reading the token from browser storage is not modelled; the token is a parameter. The report and dashboard views attach the token without checking it, so they take none.
- `fetchDevices` in the report and dashboard views is not modelled. It only copies the server's device list into the selection drop-down.
- `downloadPDF` is not modelled: it hands the same rows to jsPDF, a file-output library. The file download of the CSV text (Blob and FileSaver) is not modelled either.
- Chart.js rendering, `lineChart.update()` and the annotation plugin are not modelled: they belong to a UI library. The chart is its labels and values.
- Date handling is abstracted:
  - `new Date(...)` parsing, `toLocaleString`, and weekday or month names are locale-dependent host functions.
  - A sample carries its timestamp, weekday and month key directly.
  - A label is the timestamp, weekday or month key it would print.
  - In the CSV, each reading's type, value and timestamp are already the text the host would write.
- JavaScript numbers are floating point, but the model uses integers for values and exact reals for averages. The sort comparator's NaN cases are not modelled.
- The interval periods (600000 ms and 60000 ms) and time itself are not modelled. An interval is a handle in a set of running intervals.
- The simulation tick's POST, its console output and its alert are not modelled. The lower-cased device type that the success handler of a toggle computes, and hands to that tick, is not modelled either.
- Other components and files are not part of this model: the auth service, login, layout, edit-device, reset- and forgot-password components, and the route table.
- `Report.ReportComponent.GoToPage`: takes an integer page. A non-integer JavaScript number such as 1.5 would pass the source's range check, and that case is not modelled.
- `Dashboard.DashboardComponent.OnDestroy`: no interval runs immediately afterwards, but the pending chart-data request is not unsubscribed. A non-empty answer that arrives later still runs `OnChartData`, which starts a fresh interval that nothing clears.
- `Devices.DeviceComponent.OnToggleResponse`: assumes the device's type is a string. In the source the success handler calls `device.type.toLowerCase()` after writing the status and clearing the loading flag, so a missing type throws there and no simulation starts. The model always starts one for "active".
- `Report.ReportComponent.GenerateReport`: a response body without `filtered_devices` would make the source throw; the model assumes a list.
