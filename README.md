# Cargo tracker core, modelled in Dafny

The cargo tracker follows ocean-freight containers. Its FastAPI backend first asks the Cargoes Flow tracking API. If that has no answer, it routes the request to one carrier "driver" that scrapes the carrier's web site. The driver's raw text then goes to a language-model parser. A Next.js page uploads a spreadsheet of shipments, normalises its columns, lets the user edit the table, tracks the selected rows one by one and exports the result.

This project models the deterministic core of that system and proves properties about it:

- **Persistent browser sessions.**
  - `HMMSession` and `BrowserManager` are Dafny classes over nullable fields. Their constructors, singleton slots, `start`/`initialize`, `get_page`, token refresh and `close` are modelled; so is the restart rule of `fetch_data`.
  - The CSRF token fallback is a pure scanner, proved equivalent to the regular expression `name="_csrf"\s+content="([^"]+)"`.
  - The HMM batch driver runs against the shared manager.
- **Backend decisions.**
  - The tier order of `track_sea` and its carrier routing.
  - The Cargoes Flow request guard, number cleaning, status-code branching and field extraction.
- **Date and holiday helpers.**
  - The `parse_date` guard, `format_date` (DD/MM/YYYY[ HH:MM]) with a read-back proof, and the equality and day-difference functions over a proleptic Gregorian day count.
  - The ordered date range.
  - The two holiday tables, keyed by ISO 8601 extended calendar dates (section 4.1.2.2 of ISO 8601:2004), the inclusive range filter and the summary line.
- **Page helpers.** The bounded typing-retry loop of `human_type` and the first-visible selection of `kill_cookie_banners`.
- **Frontend.**
  - Header-row search and column normalisation.
  - Row mapping and filtering on upload, the edit handlers, the tracking loop with its progress counter, the export projection and the status colour.

Stateful code is an imperative Dafny class or a method with loop invariants, proved against a specification function; pure code is functions and lemmas. The outside world is passed in as parameters rather than modelled:

- **Network-facing calls**, passed in as functions: the browser's navigation and DOM answers, the HTTP reply, `dateutil`, the carrier drivers, the AI parser and the frontend `fetch`.
- **Per-attempt typing results**, passed in as a sequence.

## Behaviour of the code worth noting

The model follows the code as written in each of these cases:

- `drive_hmm_batch` never retries. A reply containing "No Data" or "JS_ERROR" ends the call with None (`HmmDriver.NoDataIsFinal`).
- The script that `drive_hmm_batch` passes to `page.evaluate` has a Python comment, `# SENDING THE FULL LIST`, inside its JavaScript object literal (backend/services/sea/hmm.py:36). JavaScript has no `#` comments, so a browser rejects the script, `page.evaluate` raises, and the exception leaves `drive_hmm_batch` uncaught. The model keeps the evaluation's outcome as a parameter that may raise (`HmmDriver.BatchOutcome`); when it always raises, no batch past the token check yields content or None (`HmmDriver.UnparsableScriptNeverAnswers`).
- `fetch_data` restarts at most once and does not check the token again afterwards (`HmmSession.HmmSession.FetchData`).
- `BrowserManager.close` does not reset `is_initialized`. A later `get_page` therefore returns the old, closed page and launches nothing (`BrowserManagement.CloseThenGetPage`). The only relaunch path is the `is_initialized` guard at backend/services/browser_manager.py:65-66, and `close` (lines 69-73) never clears that flag, so a closed manager cannot come back.
- `HMMSession.close` clears only `browser` and `csrf_token`. It leaves `page`, `context` and `playwright` set (`HmmSession.HmmSession.Close`).
- `refresh_hmm_session` does not always keep the old token on failure. When the `_csrf` element has no `content` attribute, it first stores None and only then raises (`BrowserManagement.RefreshedToken`). The same happens in `start`, where the regular-expression fallback then runs.
- The code has no mutual exclusion around the shared browser, so none is modelled.
- The backend never sends `co2` or `eta_changed`. Every tracked row therefore shows CO2 "N/A" and "ETA changed" false (`DashboardPage.BackendReplyFields`).
- backend/main.py:13 imports `drive_hmm`, but backend/services/sea/hmm.py defines only `drive_hmm_batch`.
  - As written, importing backend/main.py therefore fails.
  - The model treats the HMM route of `track_sea` as an abstract driver.
  - `drive_hmm_batch` is modelled on its own.

## Model

| member | source | states |
|---|---|---|
| BrowserManagement.RefreshedToken | backend/services/browser_manager.py:49-62 | the token after a refresh is the DOM attribute value when there is a page, the navigation returned and the attribute was read; otherwise it is the previous token |
| BrowserManagement.RefreshedTokenSource | backend/services/browser_manager.py:55-62 | a usable token after a refresh is either the one held before or the attribute value just read |
| BrowserManagement.BrowserManager.constructor | backend/services/browser_manager.py:8-14 | every handle is null, there is no token and the manager is not initialised |
| BrowserManagement.BrowserManager.Refresh | backend/services/browser_manager.py:49-62 | the token becomes `RefreshedToken` of the old one; no other field changes |
| BrowserManagement.BrowserManager.Initialize | backend/services/browser_manager.py:22-47 | once initialised, nothing changes; otherwise one launch, fresh handles, the flag set, and exactly one refresh whose outcome cannot clear the flag |
| BrowserManagement.BrowserManager.GetPage | backend/services/browser_manager.py:64-67 | initialises only when not yet initialised and returns the manager's `page` |
| BrowserManagement.BrowserManager.Close | backend/services/browser_manager.py:69-73 | closes the browser and stops playwright when present, and leaves the manager's own fields alone |
| BrowserManagement.ManagerSlot.GetInstance | backend/services/browser_manager.py:16-20 | creates the manager only on the first call and returns the stored one afterwards |
| BrowserManagement.CloseThenGetPage | backend/services/browser_manager.py:64-73 | `get_page`, `close`, `get_page`: the second call returns the same, now closed, page; the token, launch count and refresh count are exactly those the first call left, whatever the second call's environment |
| HmmDriver.Classify | backend/services/sea/hmm.py:55-60 | a reply is "no result" exactly when it contains "JS_ERROR" or "No Data"; any other reply is returned unchanged |
| HmmDriver.TokenForRequest | backend/services/sea/hmm.py:11-15 | a usable token in hand is used as is, without a refresh |
| HmmDriver.BatchOutcome | backend/services/sea/hmm.py:17-60 | the error dict exactly when no usable token exists; the uncaught exception exactly when a token exists and `page.evaluate` raises; otherwise the classification of the one reply for the whole list |
| HmmDriver.UnparsableScriptNeverAnswers | backend/services/sea/hmm.py:21-53 | when `page.evaluate` raises on the script, as it does for the script as written, every batch ends in the error dict or the exception, never in content |
| HmmDriver.NoTokenNoFetch | backend/services/sea/hmm.py:17-18 | without a token the answer is the error dict, whatever the page would reply |
| HmmDriver.NoDataIsFinal | backend/services/sea/hmm.py:55-57 | a "No Data" reply text ends the batch with None |
| HmmDriver.DriveHmmBatch | backend/services/sea/hmm.py:3-60 | the page comes from `get_page` first; at most one extra refresh, made only when the token is missing; one request carries the whole list; the answer (including the exception from `page.evaluate`) and the launch and refresh counts are stated exactly |
| HmmDriver.WarmBatch | backend/services/sea/hmm.py:10-18 | with a token held, a batch runs no refresh and no launch, and the answer depends only on the reply |
| CargoesFlow.CleanNumber | backend/services/cargoes_flow.py:23 | the cleaned number has no space, no dash and no lower-case letter; a one-character input is dropped when it is a space or a dash and upper-cased otherwise |
| CargoesFlow.CleanNumberAppend | backend/services/cargoes_flow.py:23 | cleaning distributes over concatenation, so with the one-character case it keeps every other character, upper-cased, in order |
| CargoesFlow.CleanNumberIdempotent | backend/services/cargoes_flow.py:23 | cleaning a cleaned number changes nothing |
| CargoesFlow.Co2String | backend/services/cargoes_flow.py:54-56 | "N/A" for a falsy value, else "<value> <unit>" |
| CargoesFlow.Or | backend/services/cargoes_flow.py:60 | `a or b` is `a` when `a` is truthy and `b` otherwise |
| CargoesFlow.Extract | backend/services/cargoes_flow.py:50-78 | a result exactly when the element is a dict whose emissions and co2e steps meet dicts; it carries the cleaned number and the whole element; ETA is destinationOceanPortEta if truthy, else promisedEta if truthy, else "N/A"; carrier is carrierScac if truthy, else "Unknown"; status and sub-status default to "Unknown" and "" when absent; CO2 is "N/A" for a falsy value, else "<value> <unit>" with unit "kg" by default |
| CargoesFlow.Co2eOf | backend/services/cargoes_flow.py:54-55 | no emissions key gives an empty co2e dict; an emissions value that is not a dict makes the chained `.get` fail |
| CargoesFlow.GetSeaShipment | backend/services/cargoes_flow.py:13-97 | None without both credentials, on an exception or on a status other than 200; a result only for a 200 answer with a non-empty list; a configured 200 answer with a non-empty list gives exactly the extraction of its first element |
| TrackApi.Route | backend/main.py:50-61 | the driver is chosen by the first substring match on the lower-cased carrier, in the order msc, hapag, cma, then hmm or hyundai, in both directions |
| TrackApi.TrackSea | backend/main.py:30-85 | a tracked answer echoes the request's number and carrier; the answer is the fixed "Not Found" reply exactly when Cargoes Flow has nothing and the routed driver gives no truthy raw data; a tracked answer is marked "Source: Cargoes Flow API" exactly when Cargoes Flow had a result |
| TrackApi.DriverTextGoesToAi | backend/main.py:66-78 | without a tier-1 result, truthy driver raw data goes with the request's carrier to the AI parser, and the answer's status, ETA and summary are the parser's "status", "latest_date" and "summary", marked "Source: Official Driver" |
| TrackApi.TierOneWins | backend/main.py:34-43 | a Cargoes Flow result fixes the answer whatever the drivers and the AI parser do: its status, its ETA and the summary "API Status: {sub_status}. CO2: {co2}" |
| TrackApi.NoRawDataNoAi | backend/main.py:66-85 | without a tier-1 result and without truthy raw data, the AI parser is not consulted and the answer is the fixed "Not Found" reply |
| TrackApi.UnroutedCarrierNotFound | backend/main.py:50-85 | a carrier that matches no driver ends in "Not Found" when tier 1 has nothing |
| TrackApi.EvergreenHasNoDriver | backend/main.py:53-61 | "Evergreen" matches no driver |
| TrackApi.MscBeforeHapag | backend/main.py:54-57 | a carrier naming both MSC and Hapag goes to the MSC driver |
| TrackApi.ShortRawTextIsError | backend/main.py:66-78 | when the AI service keeps its guard for raw text under 50 characters, a short driver text gives status "Error" and summary "No data extracted." |
| DateUtils.AfterStrictTotal | backend/services/date_utils.py:125-126 | `>` on datetimes is irreflexive and asymmetric, and total on distinct values |
| DateUtils.OrdinalStrictlyMonotone | backend/services/date_utils.py:103 | the day count grows strictly along the calendar order |
| DateUtils.OrdinalInjective | backend/services/date_utils.py:103 | two valid dates have the same day count exactly when they are the same day |
| DateUtils.ParseDate | backend/services/date_utils.py:16-25 | "" and "N/A" give None without calling the parser; any other text gives the parser's answer |
| DateUtils.FormatDate | backend/services/date_utils.py:38-47 | "N/A" for no date; otherwise 16 characters when the time is asked for and is not midnight to the minute, else 10 |
| DateUtils.FormatDateRoundTrip | backend/services/date_utils.py:42-47 | reading the formatted text back gives day, month and year, and the hour and minute exactly when they are shown; seconds are never shown |
| DateUtils.DmyRead | backend/services/date_utils.py:47 | the "DD/MM/YYYY" part reads back as the date |
| DateUtils.HmRead | backend/services/date_utils.py:45 | the " HH:MM" part reads back as the hour and minute |
| DateUtils.StandardizeDate | backend/services/date_utils.py:59-62 | "N/A" exactly when parsing fails, otherwise the formatted date with its time |
| DateUtils.DatesAreEqual | backend/services/date_utils.py:75-83 | false when either side fails to parse |
| DateUtils.DatesAreEqualSymmetric | backend/services/date_utils.py:75-83 | the comparison is symmetric |
| DateUtils.CalculateDateDifference | backend/services/date_utils.py:97-104 | None exactly when either side fails to parse |
| DateUtils.DifferenceAntisymmetric | backend/services/date_utils.py:97-104 | swapping the arguments negates the difference |
| DateUtils.DifferenceZeroIffEqual | backend/services/date_utils.py:97-104 | the difference is zero exactly when `dates_are_equal` holds, and positive exactly when the first date is earlier |
| DateUtils.GetDateRange | backend/services/date_utils.py:118-128 | (None, None) exactly when either side fails; otherwise start is not after end, and the pair is a permutation of the parsed inputs |
| HolidayUtils.IsoKeyRoundTrip | backend/services/holiday_utils.py:97 | a date written as an ISO 8601 "YYYY-MM-DD" key reads back as itself |
| HolidayUtils.H | backend/services/holiday_utils.py:5-72 | each table row's key names a valid date, and the row is keyed by that date |
| HolidayUtils.EntryShape | backend/services/holiday_utils.py:99 | an entry is the name, " (", the ten-character DD/MM/YYYY date and ")" |
| HolidayUtils.FilterAppend | backend/services/holiday_utils.py:96-99 | filtering a concatenation filters each part in order |
| HolidayUtils.FilterSingle | backend/services/holiday_utils.py:98-99 | a row is kept exactly when its date lies within both inclusive bounds |
| HolidayUtils.FilterContents | backend/services/holiday_utils.py:96-105 | never more entries than table rows; each entry comes from an in-range row; every in-range row gives an entry |
| HolidayUtils.Bounds | backend/services/holiday_utils.py:88-90 | the date bounds are ordered and are the two inputs' dates |
| HolidayUtils.HolidaysOrderIndependent | backend/services/holiday_utils.py:88-90 | swapping start and end changes nothing |
| HolidayUtils.GetHolidaysBetweenDates | backend/services/holiday_utils.py:74-110 | two empty lists when either bound is None; otherwise each table filtered to the inclusive range, in table order |
| HolidayUtils.CollectInRange | backend/services/holiday_utils.py:96-99 | the appending loop produces the table's in-range entries in order |
| HolidayUtils.SummaryShape | backend/services/holiday_utils.py:122-133 | the fixed message exactly when both lists are empty; otherwise the French section first, sections joined by "; ", entries by ", ", and an empty section left out |
| PageUtils.NormalizeShape | backend/services/utils.py:42-43 | the comparison form has no spaces, no dashes and no lower-case letters |
| PageUtils.Normalize | backend/services/utils.py:42-43 | a one-character string is dropped when it is a space or a dash and upper-cased otherwise |
| PageUtils.NormalizeAppend | backend/services/utils.py:42-43 | normalising distributes over concatenation, so every other character is kept, upper-cased, in order |
| PageUtils.NormalizeIdempotent | backend/services/utils.py:42-43 | normalising twice is normalising once |
| PageUtils.FirstMatch | backend/services/utils.py:23-47 | the first attempt whose read-back value matches the target after normalisation, with no earlier match |
| PageUtils.Element.Fill | backend/services/utils.py:57 | the field holds the text, and the fill is recorded |
| PageUtils.TryOnce | backend/services/utils.py:24-53 | an attempt matches only when it read back a value; an exception ends the attempt with no match and no clear |
| PageUtils.TypeUntilMatch | backend/services/utils.py:23-53 | the loop stops at the first matching attempt; the clears are exactly those made up to that attempt |
| PageUtils.HumanType | backend/services/utils.py:13-57 | at most three attempts; it returns at the first match without the final fill; after three misses it fills the text exactly once |
| PageUtils.FirstVisible | backend/services/utils.py:71-76 | the first visible selector with only hidden ones before it, or none when none is visible before a probe raises |
| PageUtils.ClickFirstVisible | backend/services/utils.py:71-76 | clicks that selector and nothing else, or nothing |
| PageUtils.KillCookieBanners | backend/services/utils.py:59-78 | at most one click, on the first visible consent button in list order, and no exception escapes |
| Excel.FindHeaderRow | frontend/utils/excel.ts:18-29 | the first of at most min(rows, 20) rows whose lower-cased text contains "container" and "shipping"; otherwise index 0 and not found |
| Excel.LateHeaderMissed | frontend/utils/excel.ts:22 | a header row past the twentieth is never found |
| Excel.TargetRange | frontend/utils/excel.ts:61-64 | a column is stored under trackingNumber, carrier, systemEta or its own name |
| Excel.NormalizeKeys | frontend/utils/excel.ts:54-68 | the `forEach` loop builds the object `Normalized` describes |
| Excel.AssignKeys | frontend/utils/excel.ts:57-64 | a field is present exactly when some column maps to it |
| Excel.AssignLast | frontend/utils/excel.ts:57-64 | a present field holds the cell of the last column that maps to it |
| Excel.NormalizedFields | frontend/utils/excel.ts:54-68 | both facts for the normalised row: presence exactly when mapped, and the last column wins |
| Excel.MappedColumnNotCopied | frontend/utils/excel.ts:61-64 | a column name that no column maps to is absent, so a mapped column is not also copied under its own name |
| Excel.ActualEtaKept | frontend/utils/excel.ts:63 | "Actual ETA" is kept as an extra column |
| Excel.PaddedEtaMapped | frontend/utils/excel.ts:58-63 | a column named "eta" in any letter case, padded with spaces or tabs on either side, maps to systemEta |
| Excel.TrackingBeforeCarrier | frontend/utils/excel.ts:61-62 | a column naming both a container number and a shipping line maps to trackingNumber |
| Sequences.KeepAppend | frontend/app/page.tsx:72 | `filter` over a concatenation filters each part, keeping order |
| Sequences.KeepMembers | frontend/app/page.tsx:72 | an element is kept exactly when it is in the input and passes |
| Sequences.KeepSubMultiset | frontend/app/page.tsx:72 | `filter` never adds elements |
| DashboardPage.CarrierForIsFirstRule | frontend/app/page.tsx:42-49 | the if/else chain picks the first matching entry of the ordered carrier table, or keeps the name |
| DashboardPage.MissingCarrierIsUnknown | frontend/app/page.tsx:40-49 | a missing or empty carrier becomes "UNKNOWN" |
| DashboardPage.CarrierForIdempotent | frontend/app/page.tsx:42-49 | a canonical carrier name canonicalises to itself |
| DashboardPage.MapRowShape | frontend/app/page.tsx:36-69 | a mapped row has its index as id and the sheet row as raw, starts selected and idle with no tracking result; its number is the cell text with only surrounding whitespace removed; its carrier is the first match in the ordered carrier table; its system ETA is the cell when truthy, else "N/A"; it is "air" exactly when the number has a dash or is 11 digits, else "sea" |
| DashboardPage.MapAll | frontend/app/page.tsx:36-70 | `data.map` maps row i with index i |
| DashboardPage.KeepIdsIncrease | frontend/app/page.tsx:72 | filtering keeps ids increasing |
| DashboardPage.MapRowsContents | frontend/app/page.tsx:36-74 | every stored shipment passes the number filter and is the mapping of the row its id names; every such row is stored; ids increase, so sheet order is kept; never more shipments than rows |
| DashboardPage.SetFieldLaws | frontend/app/page.tsx:79 | writing a field stores the value and leaves every other field, the id and the flags alone |
| DashboardPage.MapOne | frontend/app/page.tsx:36-37 | normalising the keys and then building the row gives the `data.map` callback's shipment |
| DashboardPage.UpdateShipmentEffect | frontend/app/page.tsx:78-80 | only rows with the id change, and only in the named field |
| DashboardPage.ToggleSelectEffect | frontend/app/page.tsx:82-84 | only rows with the id change, and only their flag flips; toggling twice restores the table |
| DashboardPage.ToggleSelectAllEffect | frontend/app/page.tsx:86-88 | every row's flag is set and nothing else changes; a second call changes nothing |
| DashboardPage.DeleteRowEffect | frontend/app/page.tsx:90-92 | exactly the rows with another id remain, in order |
| DashboardPage.PercentFacts | frontend/app/page.tsx:151 | the rounded percentage is monotone in the count, lies within 0..100, is 0 for none and 100 for all |
| DashboardPage.Tracked | frontend/app/page.tsx:128-147 | a handled row is idle and keeps its id, its selection and its number; a failed request gives "Network Error" and changes nothing else |
| DashboardPage.ProcessingOverwritten | frontend/app/page.tsx:107-140 | the "Processing..." state is always overwritten by the reply |
| DashboardPage.BackendReplyFields | frontend/app/page.tsx:133-137 | for every backend answer the row shows CO2 "N/A" and ETA changed false; a "Not Found" answer shows the backend's status and message |
| DashboardPage.TrackAll | frontend/app/page.tsx:103-152 | each row handled with the reply to its own request when selected, and unchanged otherwise |
| DashboardPage.TrackAllEffect | frontend/app/page.tsx:103-148 | unselected rows stay as they were, ids are kept, and a failed request marks its row "Network Error" |
| DashboardPage.ExportRows | frontend/app/page.tsx:158-169 | one export row per selected shipment |
| DashboardPage.ExportRowsEffect | frontend/app/page.tsx:158-169 | each export row is the projection of a selected shipment, in table order, with "ETA Changed" YES exactly when the flag is truthy; unselected rows add nothing |
| DashboardPage.StatusColorIsFirstRule | frontend/app/page.tsx:174-181 | gray for an undefined, null or empty status; a TypeError for a truthy non-string; otherwise the first match of arrived/delivered (green), transit/departed (blue), error/found (red), else yellow |
| DashboardPage.Dashboard.constructor | frontend/app/page.tsx:26-28 | the component starts with an empty table, not processing, at zero progress |
| DashboardPage.Dashboard.Upload | frontend/app/page.tsx:31-75 | the table becomes the mapped and filtered rows; the other state is unchanged |
| DashboardPage.Dashboard.StartTracking | frontend/app/page.tsx:95-155 | the table becomes `TrackAll` of the table as it was when the loop started; processing has ended; progress is 100 when some row was selected, else 0 |
| DashboardPage.Dashboard.TrackStep | frontend/app/page.tsx:104-151 | one loop pass: a selected row is handled and the count advances with the progress recomputed; an unselected row leaves everything alone |
| HmmSession.SearchFrom | backend/services/hmm_session.py:56 | the leftmost index from which the pattern matches, with no match before it |
| HmmSession.MatchAtSound | backend/services/hmm_session.py:56 | a match found at an index is a real occurrence of the pattern there, with a non-empty token free of '"' |
| HmmSession.MatchAtComplete | backend/services/hmm_session.py:56 | each occurrence of the pattern is found by the attempt at its index, with its token |
| HmmSession.ScanCsrfCorrect | backend/services/hmm_session.py:55-58 | the scan finds a token exactly when the HTML holds the pattern; the token found belongs to the leftmost occurrence |
| HmmSession.AcquireToken | backend/services/hmm_session.py:44-61 | a failed navigation keeps the token; an attribute value read from the DOM becomes the token |
| HmmSession.AcquireTokenFallback | backend/services/hmm_session.py:53-58 | the regular expression runs only when the DOM lookup failed, and a token it supplies occurs in the HTML in the pattern's shape |
| HmmSession.HmmSession.constructor | backend/services/hmm_session.py:10-16 | every field is None |
| HmmSession.HmmSession.Start | backend/services/hmm_session.py:24-61 | a no-op while a browser is held; otherwise one launch with fresh handles, and the token that `AcquireToken` gives |
| HmmSession.HmmSession.Close | backend/services/hmm_session.py:105-111 | browser and token become null; page, context and playwright keep their values; the browser is closed and playwright stopped |
| HmmSession.HmmSession.FetchData | backend/services/hmm_session.py:63-103 | at most one close-then-start, made only when the page or the token is missing; the request always goes out with the current token |
| HmmSession.SessionSlot.GetInstance | backend/services/hmm_session.py:18-22 | creates the session only on the first call and returns the stored one afterwards |
| HmmSession.SingletonClient | backend/services/hmm_session.py:18-22 | two `get_instance` calls return one object |
| HmmSession.LifecycleClient | backend/services/hmm_session.py:24-111 | `start`, `start`, `close`, `start`: the second `start` launches nothing, so the launch count grows by one for the first pair (none if a browser was held) and by one for the restart, which holds a fresh, open browser and a freshly read token |
| Strings.Trim | frontend/utils/excel.ts:58 | the trimmed text neither starts nor ends with whitespace, and the input is that text with only whitespace before and after it |
| Strings.TrimSurrounded | frontend/app/page.tsx:53 | trimming whitespace-padded text whose ends are not whitespace gives back exactly that text |
| Strings.RemoveChar | backend/services/cargoes_flow.py:23 | `replace(c, "")` removes every `c`; a one-character string is dropped exactly when it is `c` |
| Strings.RemoveCharAppend | backend/services/cargoes_flow.py:23 | removal distributes over concatenation, so the other characters are kept in order |
| Strings.PaddedRoundTrip | backend/services/date_utils.py:45-47 | zero-padded digits read back as the number |

## Left out

- Strings.Upper and Strings.Lower map ASCII letters only. Python's `str.upper`/`lower` and JavaScript's `toUpperCase`/`toLowerCase` also map other Unicode letters.
- CargoesFlow.PyStr renders lists and dicts as placeholders rather than as Python's `repr`. Numbers are integers, because floating point is not modelled.
- DashboardPage.JsString renders arrays and objects as placeholders. Spreadsheet numbers are integers.
- DashboardPage.IsNumericText accepts only a string of ASCII digits. `!isNaN(Number(s))` also accepts forms such as "1e5", "0x1F" or "  12": an 11-character one of those is classed as air by the page but not by the model.
- DateUtils.Instant has no microseconds and no time zone. The `dateutil` parser is a function parameter, apart from the "" and "N/A" guard. `strftime("%Y")` is modelled as four digits for years 1 to 9999.
- DateUtils.ParseDate: the parser parameter answers a datetime or None and never raises. `parse_date` catches only ValueError, TypeError and ParserError, so an OverflowError from `dateutil` escapes the source function; the model has no such path.
- DateUtils.GetDateRange: every instant is naive. Text with a zone, such as "2025-12-29T10:30:00Z" (the docstring's own example), parses to an aware datetime; `start > end` at date_utils.py:124 then raises TypeError when the other value is naive, where the model always compares. Two aware values compare in UTC while `.date()` keeps each value's own local date; the model has a single clock.
- HolidayUtils.GetHolidaysBetweenDates: the same holds for `start_date > end_date` at holiday_utils.py:89, which raises TypeError for an aware and a naive value; the model always compares.
- DashboardPage.Percent rounds the exact rational 100 * completed / total. `Math.round(completed / total * 100)` computes in floating point, so it may differ where the rounded product lands on the other side of a .5 boundary.
- PageUtils.TryOnce credits an attempt that raised with no `fill("")`. In the source the clear may already have happened before the exception. `wait_for`, `highlight`, the per-character typing and the sleeps are left out.
- PageUtils.KillCookieBanners assumes the click on a visible button succeeds. A click that raises is also swallowed by the source and ends the call.
- BrowserManagement.BrowserManager.Initialize assumes the launch succeeds. An exception from starting playwright or the browser would leave the flag unset.
- HmmSession.HmmSession.Start assumes the same. Its navigation, DOM lookup and `page.content()` are oracle values.
- Excel.NormalizeKeys takes the columns in the order given. The order `Object.keys` produces is not modelled; integer-like keys come first there.
- DashboardPage.Dashboard.StartTracking runs without interleaving. Edits made while a request is awaited are not modelled.
- `fetch`/`res.json()` failures become one failure reply; a `null` JSON body reads every member as undefined.
- DashboardPage.SetField covers only the text fields. `updateShipment` receives only strings from the page, and the model writes them as strings.
- The workbook reading, the FileReader, the re-parse from the header row and `exportData` are XLSX and file I/O, and are left out. `Excel.FindHeaderRow` returns the index they use.
- Playwright, httpx, FastAPI and CORS setup, the JavaScript bodies passed to `page.evaluate`, and React rendering are left out. Their answers are modelled as parameters; for `drive_hmm_batch` the parameter may also raise.
- The per-carrier scrapers (backend/services/sea/cma.py, evergreen.py, msc.py, hapag.py, fallback.py) and backend/debug_hmm.py are left out: they are browser I/O.
- The AI service (backend/services/ai_service.py) is a function parameter. The only part used is its reply for raw text under 50 characters (`TrackApi.AiShortReply`).
- backend/run.py, backend/run_server.py and frontend/next.config.ts are process and configuration setup, and are left out.
- Concurrency and asyncio suspension are left out. The code holds no locks, so there is no mutual exclusion to model.
- The printed log lines are left out.
- The headers, query parameters and URL of the Cargoes Flow request are left out; only its outcome is modelled.
- The "source" key of the Cargoes Flow result is left out. It is the fixed text "Cargoes Flow API", and `track_sea` does not read it.
