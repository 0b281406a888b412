# Transport management core, modelled in Dafny

This project models the core of a freight-transport management system: a
backend (Express controllers over PostgreSQL) and a React frontend used by
dispatchers, sales staff and managers to create services (trips), assign
tractors, trailers and drivers to them, and report on completed trips week by
week (a week runs from Wednesday 00:00 to Tuesday 23:59:59.999, Lima time).

The model covers:

- **The resource-booking ledger** (`service_assignments.dfy`). It answers
  two questions. A resource is in *conflict* when another service holds it
  while in an active status (pending_start or in_progress). That service may
  hold it as its primary tractor, trailer or driver, or through a
  supplemental assignment row. A resource is a *duplicate* when the same
  service already holds it. The tables are values; the scans are methods
  proved against specification functions.
- **The weekly reports** (`reports_week.dfy`, `reports_duration.dfy`,
  `reports_grouping.dfy`, `reports_export.dfy`, `calendar.dfy`), covering:
  - the week window for an offset, and the closed-week gate on the export;
  - the `Xd Yh Zm` duration text;
  - the grouping of flat query rows into one entry per service with its
    extra drivers. The export handler repeats the same grouping
    (backend/src/controllers/reports.controller.ts:414-461), so one
    definition serves both;
  - the spreadsheet layout: one block per service, merged service columns,
    alternating fills, and the totals by currency. The worksheet is a class
    that the export fills row by row.
- **The dashboard** (`dashboard_controller.dfy`): the local-clock week,
  built by adjusting date objects in place, and the counters folded from
  count rows.
- **The services and drivers endpoints** (`services_controller.dfy`,
  `drivers_controller.dfy`), covering:
  - createService's required-field gate and insert;
  - getServices' filter builder, whose `$n` placeholders line up with its
    parameters;
  - the money-field redaction by role;
  - createDriver's validation chain and transaction trace;
  - getDrivers' status filter.
- **Authentication** (`auth_middleware.dfy`): bearer-token extraction,
  `validateToken`, `authorizeRoles` and the role lists of the routes.
- **Frontend forms**, each with its state as a class:
  - the service edit modal (change detection and the changed-fields payload);
  - the add-units modal (validation and conflict/force flow);
  - the assign-resources modal (required selects and the force button);
  - the weekly-trips page (week navigation and the export button);
  - the create-service page (defaults, cargo measures, submit).

`common.dfy` holds the JavaScript semantics that the rest relies on:
- truthiness;
- `String.prototype.trim` and `split`;
- `parseInt`, both with no radix (decimal text, or hexadecimal after `0x`/`0X`) and with radix 10;
- `Number` on id text;
- number-to-decimal-text conversion.

JavaScript's `%` truncates toward zero. Where the source applies it to a
value that may be negative, it is modelled explicitly (`ReportsDuration.JsRem`).

Database answers, the JWT check, regular-expression tests, `parseFloat` and
clocks are parameters of the model; "## Left out" lists what that leaves aside.

## Model

| member | source | states |
|---|---|---|
| ServiceAssignments.PrimaryHit | backend/src/services/service-assignments.service.ts:44-49 | no hit exactly when no primary row holds the resource in an active status for another service; a hit names such a row |
| ServiceAssignments.ActiveOwner | backend/src/services/service-assignments.service.ts:54-58 | the services row a supplemental row joins to, found only when it is active |
| ServiceAssignments.SupplementalHit | backend/src/services/service-assignments.service.ts:53-59 | no hit exactly when no supplemental row of an active other service holds the resource; a hit names that owning service |
| ServiceAssignments.CheckConflict | backend/src/services/service-assignments.service.ts:34-70 | null exactly when the resource is not busy (held, primary or supplemental, by an active service other than the current one); otherwise the reported service is a genuine active holder, never the current service |
| ServiceAssignments.FreeWhenNoHit | backend/src/services/service-assignments.service.ts:43-64 | the UNION of the two sub-queries is complete: no hit in either means no other active service holds the resource |
| ServiceAssignments.InactiveServiceNeverConflicts | backend/src/services/service-assignments.service.ts:48 | adding a service outside statuses 2 and 3, with its supplemental rows, changes no busy answer |
| ServiceAssignments.Outcome | backend/src/services/service-assignments.service.ts:276-283 | a kind yields a message exactly when that resource was requested (truthy) and clashes; the message is of that kind and genuine |
| ServiceAssignments.AsSeqKinds | backend/src/services/service-assignments.service.ts:276-303 | each kind contributes at most one message, and exactly one when it clashes |
| ServiceAssignments.SlottedOrder | backend/src/services/service-assignments.service.ts:275-303 | messages come in tractor, trailer, driver order |
| ServiceAssignments.SlottedKinds | backend/src/services/service-assignments.service.ts:275-303 | a kind appears in the list exactly when its slot is non-empty |
| ServiceAssignments.AllConflictsMeaning | backend/src/services/service-assignments.service.ts:267-306 | at most three messages, in kind order, one per clashing requested kind and none otherwise, every one genuine |
| ServiceAssignments.CheckAllConflicts | backend/src/services/service-assignments.service.ts:267-306 | the method's list has the properties of AllConflictsMeaning: bounded, ordered, complete and sound |
| ServiceAssignments.FindService | backend/src/services/service-assignments.service.ts:205-209 | the row for the service id, or none when the table has no such row |
| ServiceAssignments.RowsOf | backend/src/services/service-assignments.service.ts:237 | exactly the supplemental rows of the service |
| ServiceAssignments.MatchRow | backend/src/services/service-assignments.service.ts:211-221 | the three checks of one row yield the matching kinds in tractor, trailer, driver order |
| ServiceAssignments.EarlierDuplicatesStep | backend/src/services/service-assignments.service.ts:242-252 | scanning one more supplemental row appends that row's matches |
| ServiceAssignments.ScanEarlierRows | backend/src/services/service-assignments.service.ts:242-252 | the loop appends the matches of every earlier row, in row order |
| ServiceAssignments.CheckDuplicateInSameService | backend/src/services/service-assignments.service.ts:183-255 | the list equals the initial-assignment matches followed by the matches of every supplemental row |
| ServiceAssignments.MatchesInKinds | backend/src/services/service-assignments.service.ts:211-221 | one row yields a message of a kind exactly when that id was requested and the row holds the same id |
| ServiceAssignments.EarlierDuplicatesKinds | backend/src/services/service-assignments.service.ts:242-252 | a kind is reported from earlier rows exactly when requested and some supplemental row of the service holds it |
| ServiceAssignments.DuplicateIffAttached | backend/src/services/service-assignments.service.ts:183-255 | a kind is reported exactly when it was requested and the same service already holds that id, initially or through a supplemental row |
| ServiceAssignments.InitialBeforeEarlier | backend/src/services/service-assignments.service.ts:211-252 | every initial-assignment message precedes every previously-added message |
| ServiceAssignments.CountOfAppend | backend/src/services/service-assignments.service.ts:189 | counting messages distributes over appending to the list |
| ServiceAssignments.MatchesInCount | backend/src/services/service-assignments.service.ts:243-251 | a row contributes one message of a kind when it holds the requested id, none otherwise |
| ServiceAssignments.EarlierCount | backend/src/services/service-assignments.service.ts:242-252 | the number of previously-added messages of a kind equals the number of supplemental rows holding that id (repeats are reported each time) |
| ServiceAssignments.MissingServiceHasNoInitialDuplicates | backend/src/services/service-assignments.service.ts:209-211 | for a service id with no row, only supplemental rows are reported |
| Calendar.Weekday | backend/src/controllers/reports.controller.ts:23 | the day of the week of a day number, 0 (Sunday) to 6 |
| Calendar.WeekdayPeriodic | backend/src/controllers/reports.controller.ts:23 | weekdays repeat every seven days |
| Calendar.DaysSinceWednesday | backend/src/controllers/reports.controller.ts:26 | between 0 and 6, and 0 exactly on Wednesday |
| Calendar.WeekStartDay | backend/src/controllers/reports.controller.ts:26-32 | the week's start is a Wednesday at most six days back |
| Calendar.WeekStartDayUnique | backend/src/controllers/reports.controller.ts:26-32 | it is the only such Wednesday |
| Calendar.SameWeekStart | backend/src/controllers/reports.controller.ts:26-32 | every day of a week maps to the same Wednesday |
| ReportsWeek.GetWeekDates | backend/src/controllers/reports.controller.ts:11-48 | the window starts on a Wednesday at 05:00 UTC (Lima midnight), lasts a week less one millisecond, and is closed exactly for negative offsets |
| ReportsWeek.WindowStart | backend/src/controllers/reports.controller.ts:29-34 | the start is Lima midnight of the week-start day shifted by seven days per offset |
| ReportsWeek.NextWeekAbuts | backend/src/controllers/reports.controller.ts:29-42 | consecutive offsets give windows a week apart that leave no gap and do not overlap |
| ReportsWeek.TodayInCurrentWeek | backend/src/controllers/reports.controller.ts:11-48 | every instant of the Lima day lies in the offset-0 window |
| ReportsWeek.SameWeekSameWindows | backend/src/controllers/reports.controller.ts:11-48 | any day of the same week yields the same windows |
| ReportsWeek.EveryInstantInOneWindow | backend/src/controllers/reports.controller.ts:11-48 | every instant lies in exactly one week window |
| ReportsWeek.ParseOffset | backend/src/controllers/reports.controller.ts:121 | a missing or non-numeric offset is 0; otherwise parseInt's value |
| ReportsWeek.HexOffsetExportsLastWeek | backend/src/controllers/reports.controller.ts:344-354 | an offset of `-0x1` is read in base 16 as -1, and the export goes ahead for last week's window |
| ReportsWeek.ParseOffsetOfNumber | backend/src/controllers/reports.controller.ts:121 | an offset sent as decimal text is read back unchanged |
| ReportsWeek.Flags | backend/src/controllers/reports.controller.ts:321-322 | can_export is the negation of is_current_week, and holds exactly for past weeks |
| ReportsWeek.ExportGateFor | backend/src/controllers/reports.controller.ts:344-354 | the export refuses with 400 exactly when the offset is not negative; otherwise it reads the closed window of that offset |
| ReportsWeek.ExportMatchesFlag | backend/src/controllers/reports.controller.ts:321-354 | the export accepts exactly when the report for the same offset says can_export |
| ReportsWeek.ClosedWindowsArePast | backend/src/controllers/reports.controller.ts:45 | a closed window ends before the current week starts |
| ReportsDuration.JsRem | backend/src/controllers/reports.controller.ts:196-197 | `%` as JavaScript computes it: Euclidean for non-negative operands, sign of the dividend otherwise |
| ReportsDuration.SplitMinutes | backend/src/controllers/reports.controller.ts:195-197 | for non-negative minutes: hours below 24, minutes below 60, and the parts recompose the total |
| ReportsDuration.FormatDuration | backend/src/controllers/reports.controller.ts:194-203 | the text built by appending parts and trimming is DurationText |
| ReportsDuration.RawDurationIsTrimmed | backend/src/controllers/reports.controller.ts:203 | the final trim changes nothing |
| ReportsDuration.ParseDuration | backend/src/controllers/reports.controller.ts:199-203 | the reference reader of a duration text: `Zm`, `Yh Zm` or `Xd Yh Zm` with digit numbers, yielding only non-negative minutes |
| ReportsDuration.ThreePartRoundTrip | backend/src/controllers/reports.controller.ts:200-202 | an `Xd Yh Zm` text reads back as its minutes |
| ReportsDuration.TwoPartRoundTrip | backend/src/controllers/reports.controller.ts:201-202 | a `Yh Zm` text reads back as its minutes |
| ReportsDuration.OnePartRoundTrip | backend/src/controllers/reports.controller.ts:202 | a `Zm` text reads back as its minutes |
| ReportsDuration.PartsRoundTrip | backend/src/controllers/reports.controller.ts:199-203 | every text built from normalised parts reads back as their minutes |
| ReportsDuration.DurationRoundTrip | backend/src/controllers/reports.controller.ts:194-203 | for every non-negative total, parsing the duration text gives the total back |
| ReportsDuration.DurationTextInjective | backend/src/controllers/reports.controller.ts:194-203 | different non-negative totals give different texts |
| ReportsDuration.NegativeDuration | backend/src/controllers/reports.controller.ts:195-202 | a negative total shows only its truncated minutes remainder, e.g. `-5m` |
| ReportsGrouping.TotalMinutesOf | backend/src/controllers/reports.controller.ts:194 | `parseInt(total_minutes) \|\| 0`: a missing or unparsable value is 0 |
| ReportsGrouping.DurationOfWholeMinutes | backend/src/controllers/reports.controller.ts:194-215 | a service entry's duration reads back as the row's whole minutes |
| ReportsGrouping.NewEntry | backend/src/controllers/reports.controller.ts:206-224 | a principal row opens an entry with its id and no extra drivers; a dispatcher sees no price |
| ReportsGrouping.KeyIndex | backend/src/controllers/reports.controller.ts:227 | Map.get: the position of the entry with that id, none when absent |
| ReportsGrouping.KeyIndexUnique | backend/src/controllers/reports.controller.ts:227 | with unique keys, Map.get finds the one entry that has the id |
| ReportsGrouping.MapSet | backend/src/controllers/reports.controller.ts:206 | Map.set keeps keys unique, stores the value under its key, keeps positions and other entries |
| ReportsGrouping.AppendDriver | backend/src/controllers/reports.controller.ts:228-234 | pushing an extra driver changes only that entry, appending the line |
| ReportsGrouping.Group | backend/src/controllers/reports.controller.ts:189-238 | the grouped services hold at most one entry per service id, as a Map does |
| ReportsGrouping.GroupRows | backend/src/controllers/reports.controller.ts:189-238 | the forEach over the rows produces Group of the rows |
| ReportsGrouping.KeysOfMapSet | backend/src/controllers/reports.controller.ts:206 | a new key goes last; an existing key keeps its place |
| ReportsGrouping.GroupOrder | backend/src/controllers/reports.controller.ts:238 | the services come out in the order their ids first appear on a principal row |
| ReportsGrouping.FirstKeysMembers | backend/src/controllers/reports.controller.ts:192-206 | an id is listed exactly when some principal row carries it |
| ReportsGrouping.EntryIffPrincipal | backend/src/controllers/reports.controller.ts:189-238 | a service has an entry exactly when it has a principal row; orphan extra-driver rows are dropped |
| ReportsGrouping.LastPrincipal | backend/src/controllers/reports.controller.ts:206 | the last principal row of an id, and none exactly when the id has no principal row |
| ReportsGrouping.GroupEntries | backend/src/controllers/reports.controller.ts:189-238 | an entry is built from the last principal row of its id, with the extra drivers that come after it, in order |
| ReportsGrouping.KeepLast | backend/src/controllers/reports.controller.ts:227-234 | a row that is not a principal row of the id keeps that id's entry built from its last principal row, and only extends its lines |
| ReportsGrouping.PrincipalFirstKeepsAllLines | backend/src/controllers/reports.controller.ts:185-238 | with the query's ordering (principal first), an entry holds every extra driver of its service |
| ReportsGrouping.DispatcherSeesNoPrice | backend/src/controllers/reports.controller.ts:216 | for a dispatcher every entry's price is null |
| ReportsExport.Worksheet.AddRow | backend/src/controllers/reports.controller.ts:531 | addRow appends one row and leaves the merges alone |
| ReportsExport.Worksheet.MergeCells | backend/src/controllers/reports.controller.ts:600 | mergeCells records one range and leaves the rows alone |
| ReportsExport.Worksheet.constructor | backend/src/controllers/reports.controller.ts:464-465 | a new worksheet has no rows and no merges |
| ReportsExport.ExtraRows | backend/src/controllers/reports.controller.ts:563-593 | one row per extra driver, in order, with the drivers' fill |
| ReportsExport.ColumnMerges | backend/src/controllers/reports.controller.ts:599-601 | one range per merged column, each from the block's first to last row |
| ReportsExport.WriteService | backend/src/controllers/reports.controller.ts:512-602 | one service adds its block of rows and, when it has extra drivers, the eleven merges of that block |
| ReportsExport.WriteExtraRows | backend/src/controllers/reports.controller.ts:563-593 | the inner loop appends exactly ExtraRows |
| ReportsExport.WriteMerges | backend/src/controllers/reports.controller.ts:596-602 | the merge loop records the ranges of columns A, B and E to M |
| ReportsExport.WriteServices | backend/src/controllers/reports.controller.ts:510-603 | after the loop the sheet holds the data rows and merges of all services |
| ReportsExport.CurrencyIndex | backend/src/controllers/reports.controller.ts:612 | the position of a currency in the totals, none when absent |
| ReportsExport.CurrencyTotalsStep | backend/src/controllers/reports.controller.ts:610-618 | one more service adds one more step to the totals |
| ReportsExport.CountService | backend/src/controllers/reports.controller.ts:611-617 | one iteration adds the service to its currency's entry, or opens one |
| ReportsExport.TotalsByCurrency | backend/src/controllers/reports.controller.ts:609-618 | the loop computes CurrencyTotals of the services |
| ReportsExport.NoCountNoSum | backend/src/controllers/reports.controller.ts:613-616 | a currency with no services sums to 0 |
| ReportsExport.SumCountsUpdate | backend/src/controllers/reports.controller.ts:614-617 | replacing an entry changes the count total by the difference |
| ReportsExport.NewCurrencyAgrees | backend/src/controllers/reports.controller.ts:612-617 | a service in an unseen currency keeps every entry equal to its count and sum |
| ReportsExport.KnownCurrencyAgrees | backend/src/controllers/reports.controller.ts:612-617 | a service in a seen currency keeps every entry equal to its count and sum |
| ReportsExport.AddServiceAgrees | backend/src/controllers/reports.controller.ts:612-617 | either way one step keeps the totals in agreement with the services |
| ReportsExport.AddServiceCounts | backend/src/controllers/reports.controller.ts:615 | each step adds exactly one to the counts |
| ReportsExport.CurrencyTotalsMeaning | backend/src/controllers/reports.controller.ts:609-618 | one entry per currency, each holding the number of services and their price sum (missing prices count 0), and the counts add up to the number of services |
| ReportsExport.CurrencyRows | backend/src/controllers/reports.controller.ts:631-641 | one total row per currency entry, in order |
| ReportsExport.WriteCurrencyRows | backend/src/controllers/reports.controller.ts:631-641 | the loop appends exactly those rows |
| ReportsExport.WriteTotalsAsWritten | backend/src/controllers/reports.controller.ts:606-641 | as written: the totals are appended directly after the data, while the counter claims two rows further down |
| ReportsExport.WriteTotals | backend/src/controllers/reports.controller.ts:606-641 | corrected: two empty rows, then the trips total and the currency rows, starting at the counter's row |
| ReportsExport.ExportWeek | backend/src/controllers/reports.controller.ts:414-461 | the export writes the week's rows grouped as the report groups them, with no price withheld |
| ReportsExport.ExportKeepsPrices | backend/src/controllers/reports.controller.ts:429-440 | every exported service carries the price of its last principal row, whatever the caller's role |
| ReportsExport.ExportSheetAsWritten | backend/src/controllers/reports.controller.ts:463-641 | as written: the whole sheet is the data blocks followed directly by the totals, with the data merges |
| ReportsExport.ExportSheet | backend/src/controllers/reports.controller.ts:463-641 | corrected: the whole sheet is the data blocks, two empty rows and the totals, with the data merges |
| ReportsExport.RowsUpToLength | backend/src/controllers/reports.controller.ts:518 | each service takes one row plus one per extra driver |
| ReportsExport.RowsPrefixAt | backend/src/controllers/reports.controller.ts:531-593 | later services never change rows already written |
| ReportsExport.BlockPlacement | backend/src/controllers/reports.controller.ts:517-593 | service i's principal row sits at its block start and its k-th extra driver k rows below, with that service's fills |
| ReportsExport.FillsAlternate | backend/src/controllers/reports.controller.ts:514-516 | neighbouring services have different fills; services two apart share them |
| ReportsExport.CoversOneBlockExtends | backend/src/controllers/reports.controller.ts:596-602 | a merge that covers one block keeps covering it as rows are added |
| ReportsExport.BlockCovers | backend/src/controllers/reports.controller.ts:596-602 | each merge of a block spans exactly that block: its principal row and its extra-driver rows |
| ReportsExport.CoversAfterBlock | backend/src/controllers/reports.controller.ts:596-602 | after one more block, old and new merges each still cover one block |
| ReportsExport.MergeCoversBlockUpTo | backend/src/controllers/reports.controller.ts:510-603 | every merge of the first n services covers exactly one service block |
| ReportsExport.MergeCoversBlock | backend/src/controllers/reports.controller.ts:596-602 | every merged range covers exactly one service block: it starts on a principal row and ends on that service's last extra driver |
| ReportsExport.MergesCoverBlocks | backend/src/controllers/reports.controller.ts:596-602 | the same, for all merges at once |
| ReportsExport.MergeCount | backend/src/controllers/reports.controller.ts:596-602 | eleven merges per service with extra drivers, none for the others |
| ReportsExport.BlockMergesLength | backend/src/controllers/reports.controller.ts:599 | a block has 11 merges when it has extra drivers, otherwise none |
| ReportsExport.TotalsAsWrittenMissSkip | backend/src/controllers/reports.controller.ts:606 | as written, the trips total lands right after the data, two rows above the row the counter names |
| ReportsExport.TotalsAtSkipTarget | backend/src/controllers/reports.controller.ts:605-625 | corrected, the data comes first, then two empty rows, then the trips total at the counter's row |
| ReportsExport.EmptyWeekSheetAsWritten | backend/src/controllers/reports.controller.ts:605-641 | as written, an empty closed week exports only `TOTAL DE VIAJES: 0`, on the row right below the header |
| ReportsExport.EmptyWeekSheet | backend/src/controllers/reports.controller.ts:605-641 | corrected: an empty week exports two empty rows and `TOTAL DE VIAJES: 0` |
| ReportsExport.Pad2 | backend/src/controllers/reports.controller.ts:646 | padStart(2, '0') yields digits |
| ReportsExport.Pad2Value | backend/src/controllers/reports.controller.ts:646 | a padded number below 100 is two digits and reads back as itself |
| ReportsExport.FormatDateReadsBack | backend/src/controllers/reports.controller.ts:644-647 | `DD-MM-YYYY`: day, month and year read back from fixed positions |
| DashboardController.LocalDate.AtMidnight | backend/src/controllers/dashboard.controller.ts:12 | new Date(y, m, d) is local midnight of that day |
| DashboardController.LocalDate.Copy | backend/src/controllers/dashboard.controller.ts:17 | a copy holds the same instant |
| DashboardController.LocalDate.SetDay | backend/src/controllers/dashboard.controller.ts:18 | setDate moves to the given day keeping the time of day |
| DashboardController.LocalDate.SetHours | backend/src/controllers/dashboard.controller.ts:19 | setHours keeps the day and sets the time of day |
| DashboardController.WeekStartLocalMs | backend/src/controllers/dashboard.controller.ts:15-19 | local midnight of a Wednesday at most six days back |
| DashboardController.WeekEndLocalMs | backend/src/controllers/dashboard.controller.ts:21-23 | one millisecond before the next week starts |
| DashboardController.DashboardWeek | backend/src/controllers/dashboard.controller.ts:12-23 | the in-place date adjustments produce the week's start and end |
| DashboardController.DashboardWeekIsCurrentReportWeek | backend/src/controllers/dashboard.controller.ts:12-23 | shifted to Lima time, the dashboard week is the report's offset-0 window |
| DashboardController.AnchorDayInWeek | backend/src/controllers/dashboard.controller.ts:12-23 | every instant of the anchor day lies inside the dashboard week |
| DashboardController.CompletedWeek | backend/src/controllers/dashboard.controller.ts:61 | `parseInt(count \|\| '0')`: no row counts 0 |
| DashboardController.CounterIgnoresOtherRows | backend/src/controllers/dashboard.controller.ts:75-86 | rows with other names leave a counter alone |
| DashboardController.CounterOfUniqueRow | backend/src/controllers/dashboard.controller.ts:75-86 | a counter with exactly one row takes that row's count |
| DashboardController.CounterOfDecimal | backend/src/controllers/dashboard.controller.ts:75-86 | a decimal count is read back as its number |
| DashboardController.DashboardStats.constructor | backend/src/controllers/dashboard.controller.ts:56-73 | every counter starts at 0 except completed_week |
| DashboardController.DashboardStats.ApplyStatusRow | backend/src/controllers/dashboard.controller.ts:75-79 | a status row overwrites only the counter of its name |
| DashboardController.DashboardStats.ApplyResourceRow | backend/src/controllers/dashboard.controller.ts:81-86 | a resource row overwrites only the counter of its type |
| DashboardController.ApplyStatusRows | backend/src/controllers/dashboard.controller.ts:75-79 | after the loop each status counter is the fold of the rows; the rest is unchanged |
| DashboardController.ApplyResourceRows | backend/src/controllers/dashboard.controller.ts:81-86 | after the loop each resource counter is the fold of the rows; the rest is unchanged |
| DashboardController.ComputeStats | backend/src/controllers/dashboard.controller.ts:6-88 | the whole reply: every counter is the fold of its rows from 0, plus the week |
| DashboardController.OnlyOpenStatusesCount | backend/src/controllers/dashboard.controller.ts:75-79 | rows for other statuses change no counter |
| ServicesController.PendingStatusId | backend/src/controllers/services.controller.ts:19-23 | the first row's id when it is present and truthy |
| ServicesController.CreateService | backend/src/controllers/services.controller.ts:7-55 | 400 exactly when a required field is falsy; 500 `Initial status configuration missing` exactly when the pending status is missing; 500 `Internal server error` exactly when the status lookup or the insert throws; 201 exactly when both pass and the insert succeeds, with that status and the caller as creator |
| ServicesController.CreatedServiceValues | backend/src/controllers/services.controller.ts:39-44 | the insert carries the request's values, and falsy optional measures and notes become null |
| ServicesController.Values | backend/src/controllers/services.controller.ts:88-105 | one parameter per active filter, in order |
| ServicesController.ConditionsPush | backend/src/controllers/services.controller.ts:91-105 | adding a filter appends its condition numbered after the existing ones |
| ServicesController.AddFilterIf | backend/src/controllers/services.controller.ts:91-105 | one `if` block adds its condition and parameter only when the value is truthy |
| ServicesController.BuildServicesQuery | backend/src/controllers/services.controller.ts:86-107 | the query is the base text, one condition per truthy filter, then the order clause, with matching parameters |
| ServicesController.CountCharAppend | backend/src/controllers/services.controller.ts:92-102 | placeholders of joined text add up |
| ServicesController.CountCharAbsent | backend/src/controllers/services.controller.ts:92-102 | text without `$` has no placeholders |
| ServicesController.ConditionsPlaceholders | backend/src/controllers/services.controller.ts:91-105 | one placeholder per condition |
| ServicesController.ConditionPlaceholder | backend/src/controllers/services.controller.ts:92 | each condition has exactly one `$` |
| ServicesController.QueryPlaceholdersMatchParams | backend/src/controllers/services.controller.ts:86-107 | the query has as many placeholders as parameters, one per truthy filter, and ends with the order clause |
| ServicesController.FixedTextHasNoPlaceholder | backend/src/controllers/services.controller.ts:86-107 | the fixed text has no placeholder |
| ServicesController.ColumnsHaveNoPlaceholder | backend/src/controllers/services.controller.ts:92-102 | the filtered column names have no placeholder |
| ServicesController.ConditionNumbering | backend/src/controllers/services.controller.ts:89-105 | the k-th condition uses `$k`, and the k-th parameter is the k-th filter's value |
| ServicesController.ConditionsOfSuffix | backend/src/controllers/services.controller.ts:89-105 | the numbering of later conditions continues past earlier ones |
| ServicesController.Redact | backend/src/controllers/services.controller.ts:111-117 | one output row per input row |
| ServicesController.RedactionHidesOnlyMoney | backend/src/controllers/services.controller.ts:110-117 | for a non-financial role price, currency_id and currency_code are gone and every other field is kept unchanged |
| ServicesController.FinancialRolesSeeEverything | backend/src/controllers/services.controller.ts:110-116 | financial roles get the rows untouched |
| ServicesController.RedactIdempotent | backend/src/controllers/services.controller.ts:111-117 | redacting twice is redacting once |
| DriversController.CatchReply | backend/src/controllers/drivers.controller.ts:121-130 | code 23505 gives 409, everything else 500 |
| DriversController.CreateDriver | backend/src/controllers/drivers.controller.ts:52-130 | missing fields give 400 with no statement; a 400 never opens the transaction; success exactly when the transaction ran without error, with its full statement trace; 409 and 500 end with ROLLBACK |
| DriversController.BadRequestIffValidationRejects | backend/src/controllers/drivers.controller.ts:52-82 | a 400 comes exactly from the validation chain, before anything is written |
| DriversController.LengthBoundIsInclusive | backend/src/controllers/drivers.controller.ts:71-74 | a number of exactly the maximum length passes, one more character is refused |
| DriversController.NoPatternNoCheck | backend/src/controllers/drivers.controller.ts:76-82 | without a pattern the regular expression plays no part |
| DriversController.CreatedDriverShape | backend/src/controllers/drivers.controller.ts:110-117 | the reply has status available, the new id, the full name, a null phone when none was given, and the license |
| DriversController.BuildDriversQuery | backend/src/controllers/drivers.controller.ts:11-36 | a truthy status adds `rs.name = $1` with that one parameter; otherwise no filter and no parameter |
| DriversController.DriversQueryShape | backend/src/controllers/drivers.controller.ts:26-36 | the query has a placeholder exactly when a status was given, and keeps its base text and order clause |
| DriversController.FixedDriversTextHasNoPlaceholder | backend/src/controllers/drivers.controller.ts:11-36 | the fixed text has no placeholder |
| AuthMiddleware.TokenOf | backend/src/middleware/auth.middleware.ts:6-7 | a token is the non-empty second space-separated piece of the header |
| AuthMiddleware.BearerTokenRoundTrip | backend/src/middleware/auth.middleware.ts:7 | `Bearer <token>` yields the token |
| AuthMiddleware.TokenAfterScheme | backend/src/middleware/auth.middleware.ts:7 | the token is whatever precedes the next space after the scheme |
| AuthMiddleware.TrailingPiecesIgnored | backend/src/middleware/auth.middleware.ts:7 | pieces after the token are ignored |
| AuthMiddleware.DoubleSpaceHasNoToken | backend/src/middleware/auth.middleware.ts:7-12 | two spaces after the scheme leave no token, so the request is refused |
| AuthMiddleware.ValidateVerdict | backend/src/middleware/auth.middleware.ts:5-26 | 401 exactly when there is no token, 403 exactly when verification fails, otherwise pass with the decoded payload |
| AuthMiddleware.Exchange.constructor | backend/src/middleware/auth.middleware.ts:5 | a request with its header, no user attached, no reply and next not yet called |
| AuthMiddleware.Exchange.ValidateToken | backend/src/middleware/auth.middleware.ts:5-26 | a refusal sets the reply and calls nothing; a pass stores the user and calls next once |
| AuthMiddleware.Exchange.AuthorizeRoles | backend/src/middleware/auth.middleware.ts:28-41 | next is called exactly when a user is present with a listed role; otherwise the reply is 403 |
| AuthMiddleware.GuardRoute | backend/src/middleware/auth.middleware.ts:5-41 | the handler is reached exactly when the token verifies and its role is allowed; otherwise the reply is 401 or 403 |
| AuthMiddleware.DispatcherAndSalesSplit | backend/src/routes/reports.route.ts:17-31 | a dispatcher may view the weekly report and assign resources, but may not export it or create services; a sales user may view, export and create, but may not assign |
| AuthMiddleware.ExportImpliesView | backend/src/routes/reports.route.ts:17-31 | whoever may export may view the report |
| AuthMiddleware.ExportRolesSeePrices | backend/src/routes/reports.route.ts:31 | the export roles are exactly the roles that see prices in the service list |
| AuthMiddleware.NoUserNoAccess | backend/src/middleware/auth.middleware.ts:32 | without a user every role check refuses |
| EditServiceModal.DefaultForm | frontend/src/components/services/EditServiceModal.tsx:51-69 | the initial form is well typed |
| EditServiceModal.IdOrNull | frontend/src/components/services/EditServiceModal.tsx:118-120 | `id \|\| null`: absent and 0 become null |
| EditServiceModal.PartBefore | frontend/src/components/services/EditServiceModal.tsx:110 | split(sep)[0]: a prefix without the separator; "" when absent |
| EditServiceModal.LoadForm | frontend/src/components/services/EditServiceModal.tsx:102-124 | the loaded form is well typed |
| EditServiceModal.LoadedDatesAreCut | frontend/src/components/services/EditServiceModal.tsx:110-122 | dates keep the part before `T`, times the part before `.`, absent ones are "" |
| EditServiceModal.SelfComparison | frontend/src/components/services/EditServiceModal.tsx:134-148 | a form compared with itself shows changes exactly when a field is NaN |
| EditServiceModal.WellTypedUpdate | frontend/src/components/services/EditServiceModal.tsx:153-155 | editing a field with a value of its kind keeps the form well typed |
| EditServiceModal.SameTrimNoChange | frontend/src/components/services/EditServiceModal.tsx:147 | editing a text to one with the same trimmed value is no change |
| EditServiceModal.PaddingIsNoChange | frontend/src/components/services/EditServiceModal.tsx:147 | adding spaces around a text is no change |
| EditServiceModal.DetectedChangesAreSent | frontend/src/components/services/EditServiceModal.tsx:139-148 | a detected change is also a strict inequality, so it reaches the payload |
| EditServiceModal.BackendFieldIsName | frontend/src/components/services/EditServiceModal.tsx:182-194 | the field map sends every field under its own name |
| EditServiceModal.PayloadMeaning | frontend/src/components/services/EditServiceModal.tsx:179-197 | a field is in the payload exactly when it differs strictly from the original, with the new value |
| EditServiceModal.FailureToast | frontend/src/components/services/EditServiceModal.tsx:205 | the server's message when it is non-empty; the fixed failure text when there is none |
| EditServiceModal.EditServiceState.constructor | frontend/src/components/services/EditServiceModal.tsx:42-71 | the default form, no original, no justification, no changes |
| EditServiceModal.EditServiceState.LoadServiceData | frontend/src/components/services/EditServiceModal.tsx:102-129 | form and original become the loaded form, and the change flag is recomputed |
| EditServiceModal.EditServiceState.InputChange | frontend/src/components/services/EditServiceModal.tsx:131-155 | only the edited field changes, and the change flag equals the comparison with the original |
| EditServiceModal.EditServiceState.SetJustification | frontend/src/components/services/EditServiceModal.tsx:42 | only the justification changes |
| EditServiceModal.EditServiceState.Close | frontend/src/components/services/EditServiceModal.tsx:77-80 | closing clears the justification and the change flag |
| EditServiceModal.EditServiceState.BuildPayload | frontend/src/components/services/EditServiceModal.tsx:179-197 | the loop builds exactly PayloadFields |
| EditServiceModal.EditServiceState.Submit | frontend/src/components/services/EditServiceModal.tsx:157-197 | a short trimmed justification is refused first, then no change; otherwise the raw justification and the changed fields are sent, and that field list is non-empty |
| EditServiceModal.VisibilityNested | frontend/src/components/services/EditServiceModal.tsx:214-217 | the end date shows only with the start date, which shows only with the assignment fields, and in_progress is the one status with a start date but no end date |
| AddUnitsModal.ValidateForm | frontend/src/components/services/AddUnitsModal.tsx:57-76 | passes exactly when a resource is chosen and the trimmed reason has 10 characters; each failure gives its own toast in the source's order |
| AddUnitsModal.SelectedId | frontend/src/components/services/AddUnitsModal.tsx:98-106 | an id is sent exactly when selected |
| AddUnitsModal.Payload | frontend/src/components/services/AddUnitsModal.tsx:92-106 | trimmed notes, the force flag, and exactly the selected ids |
| AddUnitsModal.PayloadCarriesSelectedIds | frontend/src/components/services/AddUnitsModal.tsx:98-106 | selected ids reach the request as the same numbers |
| AddUnitsModal.AddUnitsState.constructor | frontend/src/components/services/AddUnitsModal.tsx:21-29 | an empty form and no warning |
| AddUnitsModal.AddUnitsState.OpenChanged | frontend/src/components/services/AddUnitsModal.tsx:31-39 | the warning is cleared; closing also empties the form |
| AddUnitsModal.AddUnitsState.SetForm | frontend/src/components/services/AddUnitsModal.tsx:24 | only the form changes |
| AddUnitsModal.AddUnitsState.Submit | frontend/src/components/services/AddUnitsModal.tsx:78-126 | an unforced invalid form sends nothing and shows the validation toast; otherwise it sends Payload; 409 keeps the server's message as warning, 400 shows the server's message or a fallback, anything else the generic toast |
| AddUnitsModal.ValidFormPayload | frontend/src/components/services/AddUnitsModal.tsx:57-106 | a valid form's payload names a resource and has notes of 10 or more characters |
| AssignResourcesModal.Payload | frontend/src/components/services/AssignResourcesModal.tsx:69-79 | driver and tractor as numbers, the notes untouched, the trailer only when chosen |
| AssignResourcesModal.PayloadOfChosenIds | frontend/src/components/services/AssignResourcesModal.tsx:69-79 | chosen ids reach the request as the same numbers |
| AssignResourcesModal.AssignState.constructor | frontend/src/components/services/AssignResourcesModal.tsx:20-28 | an empty form and no warning |
| AssignResourcesModal.AssignState.OpenChanged | frontend/src/components/services/AssignResourcesModal.tsx:30-38 | the warning is cleared; closing also empties the form |
| AssignResourcesModal.AssignState.SetForm | frontend/src/components/services/AssignResourcesModal.tsx:23 | only the form changes |
| AssignResourcesModal.AssignState.HandleSubmit | frontend/src/components/services/AssignResourcesModal.tsx:56-93 | a missing driver or tractor sends nothing, even when forced; otherwise it sends Payload; 409 shows the server's message and the force button, other failures a toast |
| AssignResourcesModal.AssignState.OnClick | frontend/src/components/services/AssignResourcesModal.tsx:116-330 | a request is forced exactly when sent from the force button, which exists only while a warning shows; cancel clears the warning |
| WeeklyTripsReportPage.PreviousOffset | frontend/src/pages/reports/WeeklyTripsReportPage.tsx:57-59 | one week further back |
| WeeklyTripsReportPage.NextOffset | frontend/src/pages/reports/WeeklyTripsReportPage.tsx:61-66 | one week forward, never past the current week |
| WeeklyTripsReportPage.NextUndoesPrevious | frontend/src/pages/reports/WeeklyTripsReportPage.tsx:57-66 | next undoes previous |
| WeeklyTripsReportPage.WeekLabel | frontend/src/pages/reports/WeeklyTripsReportPage.tsx:46 | `actual` for the current week, else `semana_` and the distance |
| WeeklyTripsReportPage.WeekLabelsDistinct | frontend/src/pages/reports/WeeklyTripsReportPage.tsx:46 | the current and past weeks all get different labels |
| WeeklyTripsReportPage.ReportPage.constructor | frontend/src/pages/reports/WeeklyTripsReportPage.tsx:12-15 | offset 0 and no report |
| WeeklyTripsReportPage.ReportPage.PreviousWeek | frontend/src/pages/reports/WeeklyTripsReportPage.tsx:57-59 | the offset moves back and stays valid |
| WeeklyTripsReportPage.ReportPage.NextWeek | frontend/src/pages/reports/WeeklyTripsReportPage.tsx:61-66 | the offset moves forward, never past 0 |
| WeeklyTripsReportPage.ReportPage.LoadReport | frontend/src/pages/reports/WeeklyTripsReportPage.tsx:22-34 | a success stores the server's flags for the page's offset; a failure keeps the old report |
| WeeklyTripsReportPage.ReportPage.ExportToExcel | frontend/src/pages/reports/WeeklyTripsReportPage.tsx:36-55 | nothing without a report, a refusal for the current week, otherwise a download of the page's offset under its label |
| WeeklyTripsReportPage.PageGateMatchesServer | frontend/src/pages/reports/WeeklyTripsReportPage.tsx:36-47 | for a report of the page's own offset, the page's gate agrees with the server's export gate |
| WeeklyTripsReportPage.StaleReportStillRefused | backend/src/controllers/reports.controller.ts:344-354 | the server refuses the export of offset 0 on every day |
| WeeklyTripsReportPage.StaleExport | frontend/src/pages/reports/WeeklyTripsReportPage.tsx:22-47 | after loading last week, moving to the current week and failing to load it, the page still asks for the download of offset 0, which the server refuses |
| WeeklyTripsReportPage.RoleName | frontend/src/pages/reports/WeeklyTripsReportPage.tsx:93-103 | the Spanish name of a known role, the role itself otherwise, "" when absent |
| CreateServicePage.FindCode | frontend/src/pages/services/CreateServicePage.tsx:69 | Array.find: the first currency with the code, none when absent |
| CreateServicePage.DefaultServiceTypeId | frontend/src/pages/services/CreateServicePage.tsx:68 | the first type's id as text, "" when there are none |
| CreateServicePage.DefaultCurrencyId | frontend/src/pages/services/CreateServicePage.tsx:69 | the first PEN currency's id, else the first currency's, else "" |
| CreateServicePage.PenPreferred | frontend/src/pages/services/CreateServicePage.tsx:69 | PEN wins wherever it stands |
| CreateServicePage.MeasureText | frontend/src/pages/services/CreateServicePage.tsx:83-91 | zero, NaN and missing measures leave the input blank |
| CreateServicePage.JsonNumber | frontend/src/pages/services/CreateServicePage.tsx:114-117 | NaN travels as null in JSON |
| CreateServicePage.JsonInt | frontend/src/pages/services/CreateServicePage.tsx:110-115 | parseInt of an id text, null when it does not parse |
| CreateServicePage.OptionalMeasure | frontend/src/pages/services/CreateServicePage.tsx:118-120 | `parseFloat(x) \|\| undefined`: zero and NaN measures are left out |
| CreateServicePage.CheckedNumbersTruthy | frontend/src/pages/services/CreateServicePage.tsx:96-121 | the numbers the page checks reach the endpoint truthy |
| CreateServicePage.CurrencyTruthy | frontend/src/pages/services/CreateServicePage.tsx:115 | a non-zero currency id is truthy |
| CreateServicePage.AcceptedFormPassesEndpoint | frontend/src/pages/services/CreateServicePage.tsx:93-121 | a form the page sends with a date and non-zero ids passes the endpoint's required-field gate |
| CreateServicePage.ClearedDateReachesEndpoint | frontend/src/pages/services/CreateServicePage.tsx:99-113 | the page never checks the date, so a cleared date gets past the page and the endpoint refuses it |
| CreateServicePage.CreateServiceState.constructor | frontend/src/pages/services/CreateServicePage.tsx:34-50 | an empty form dated with the ISO date part of now, nothing selected |
| CreateServicePage.CreateServiceState.LoadInitialData | frontend/src/pages/services/CreateServicePage.tsx:56-76 | only the two defaults change |
| CreateServicePage.CreateServiceState.CargoDetailsChange | frontend/src/pages/services/CreateServicePage.tsx:83-91 | only the four measures change |
| CreateServicePage.CreateServiceState.Submit | frontend/src/pages/services/CreateServicePage.tsx:93-121 | any failed check gives the single toast; otherwise the request is sent, with a positive price and weight |
| Common.Trim | frontend/src/components/services/AddUnitsModal.tsx:65-70 | the result starts and ends with a non-space |
| Common.TrimIgnoresPadding | frontend/src/components/services/EditServiceModal.tsx:147 | trimming ignores spaces added around a text |
| Common.Split | backend/src/middleware/auth.middleware.ts:7 | at least one piece, none containing the separator |
| Common.JoinSplit | backend/src/middleware/auth.middleware.ts:7 | the pieces joined by the separator give the text back |
| Common.BeforeFirst | frontend/src/pages/services/CreateServicePage.tsx:38 | split(sep)[0]: the text up to the first separator |
| Common.NumberOfText | frontend/src/components/services/AddUnitsModal.tsx:99 | Number(text) of a non-empty text is finite exactly for digit text |
| Common.NatToString | frontend/src/pages/reports/WeeklyTripsReportPage.tsx:46 | the decimal text of a whole number: digits only, no leading zero |
| Common.ParseNatToString | backend/src/controllers/reports.controller.ts:121 | reading back the decimal text of a number gives the number |
| Common.IntToString | frontend/src/services/reports.service.ts:14 | the text of an integer in a query string: its digits, with a minus sign when negative |
| Common.ParseIntRadix10 | backend/src/controllers/dashboard.controller.ts:76-85 | `parseInt(s, 10)` fails exactly when no decimal digit follows the optional sign after leading spaces; it is never negative without a minus sign |
| Common.ParseInt | backend/src/controllers/reports.controller.ts:121 | `parseInt(s)` with no radix: after `0x`/`0X` it fails exactly when no hexadecimal digit follows, otherwise it reads as in base 10; never negative without a minus sign |
| Common.ParseIntOfHex | backend/src/controllers/reports.controller.ts:121 | `0x` or `0X` followed by hexadecimal digits reads as their base-16 value |
| Common.ParseIntOfMinusHex | backend/src/controllers/reports.controller.ts:121 | the same after a minus sign reads as the negated value |
| Common.HexPrefixReadings | backend/src/controllers/reports.controller.ts:121 | with no radix `0x10` is 16, `0x` is NaN and `-0x1` is -1; in base 10 `0x10` and `0x` are both 0 |
| Common.ParseIntOfNatToString | backend/src/controllers/reports.controller.ts:121 | parseInt of a whole number's decimal text gives the number back |
| Common.ParseIntOfIntToString | backend/src/controllers/reports.controller.ts:121 | parseInt of a number's decimal text gives the number back |
| Common.NatToStringInjective | frontend/src/pages/reports/WeeklyTripsReportPage.tsx:46 | different numbers have different decimal texts |

## Left out

- The database, the network and the HTTP layer: query results are inputs, and SQL text is kept only as far as the placeholders and filter clauses.
- The ledger's catalog joins (plates, worker names): assumed present for every id, so the reported texts are kept as kinds and ids.
- ServiceAssignments.CheckConflict: `LIMIT 1` without `ORDER BY` returns an unspecified row; the model takes the first primary hit, then the first supplemental hit, and its contract promises only that the reported service is a genuine active holder.
- checkTrailerConflict and checkDriverConflict are the same query on another column; they are one function over the resource kind.
- JWT verification: the verifier is a parameter (`string -> Option<TokenPayload>`). Payload shape, expiry and the secret are not modelled.
- The regular-expression test in createDriver: a parameter (`matches`).
- DriversController.CreateDriver: a stored `validation_pattern` that is not a valid regular expression makes `new RegExp` throw (backend/src/controllers/drivers.controller.ts:77), which ends in ROLLBACK and a 500; the `matches` parameter always answers, so this path is not modelled.
- ServicesController.ServicesSelect and DriversController.DriversSelect: stand-in texts for the SELECT and its joins; only the filter clauses and placeholders appended to them are modelled.
- ServiceAssignments.RowsOf: the supplemental rows come back in the order the table is given; the SQL has no ORDER BY, so the database's row order is taken to be that order.
- Text lengths: JavaScript's `.length` counts UTF-16 code units and the model counts characters. The two differ only outside the Basic Multilingual Plane, which affects the 10-character justification and notes minimums and the document-number maximum length.
- ReportsWeek.GetWeekDates: offsets are unbounded integers. In JavaScript, `Date.UTC` gives an Invalid Date once the window lies beyond about ±1.4e7 weeks from 1970, and `toISOString` then throws, so the report answers 500 (backend/src/controllers/reports.controller.ts:319-320); the model computes a window for every offset.
- ReportsWeek.ParseOffset: `parseInt` returns a double, so texts of more than 2^53 lose precision; the model reads every digit exactly.
- createDriver's trace: a failure inside the transaction is one error code. The model does not say which statement threw, or whether the worker insert was partly done before ROLLBACK.
- Floating point: prices and `parseFloat` are reals. `parseFloat` is a parameter. `Number(...).toLocaleString` and `toFixed` formatting is not modelled; the currency rows carry the real total.
- `Number()` is modelled only for digit text; any other text gives NaN. Exponents, hex, `Infinity` and surrounding spaces are not modelled.
- `toString` of non-integer numbers: a parameter where the source shows a measure.
- Time zones: the Lima calendar day is an input. The dashboard's fallback to 1 January 2023, used when the Lima date text does not parse, is not modelled. The server's local clock and the daylight-saving behaviour of `Date` are not modelled. The dashboard week is on a plain local clock without offsets.
- `toLocaleString` dates in the export rows, and ExcelJS styling (fonts, heights, alignment, page setup): not modelled. Only the fill colour is kept.
- The driver summary, currency totals and unique-driver queries of the weekly report: they are SQL aggregates whose results are not part of the reply, except `totals_by_currency`. That list is passed through.
- getRoleName's lookup of inherited object keys (`roles['constructor']`): the map is a plain dictionary.
- The `serviceTypeId` the create page sends: kept beside the request, since the endpoint never reads it.
- React rendering, loading flags, toasts other than their texts, and navigation: not modelled.
- Concurrency between the parallel queries of the dashboard and the frontends' effects: each is modelled as one step in source order.

## Findings

| source | as written | input that shows it | evidently intended | confidence | as-written member | corrected member |
|---|---|---|---|---|---|---|
| backend/src/controllers/reports.controller.ts:606 | `currentRow += 2` moves a counter that `addRow` never reads, so the totals are appended directly after the last data row | any week with a service, e.g. one service without extra drivers: data on row 2, `TOTAL DE VIAJES` on row 3 instead of row 5 | two empty rows between the data and the totals ("Skip 2 rows") | high, not executed | ReportsExport.TotalsAsWrittenMissSkip | ReportsExport.TotalsAtSkipTarget |
