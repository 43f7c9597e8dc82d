# Sugar coupon collection: a Dafny model

This project models the three page components that hold the logic of a sugar-coupon
collection front end for a sugar mill:

- the season upload page: an administrator uploads a roster spreadsheet of farmers
  ("ryots"); the rows are parsed into records and replace the season in batches of 800;
- the collection page: an operator stages farmers by coupon or ryot number, then
  confirms payment for the newly staged ones;
- the sales report page: the sales of a range of whole days are laid out as a statement
  sheet with a totals row, whose header row is then styled before the workbook is written.

The record store, the sign-in session and the spreadsheet codec are not modelled as code.
Each store call becomes an input of the method that makes it: the roster and the sales the
store holds, a flag saying whether a query fails, or the store's reply to a write. The
parser looks at the decoded cell texts, and the number coercion `Number(...)` is a
parameter `num`.

Module layout, one file each:

- `common.dfy` (`Common`): options and results, store replies, JavaScript `trim`,
  `toLowerCase` and `includes`, nullable numbers and `x || fallback`, rounding to two
  decimals, and filter and sum over sequences.
- `records.dfy` (`Records`): the roster record, the sale record, the stored sale and
  `maybeSingle()`.
- `season_upload.dfy` (`SeasonUpload`): the parser, the season replacement, the file and
  role checks, and the upload page class.
- `collect_sugar.dfy` (`CollectSugar`): the error text mapper, the store answers, the
  staging list, the totals and the collection session class.
- `sales_report.dfy` (`SalesReport`): day boundaries, the query, the statement grid, and
  the styling of its header row.

## Where the code departs from the intended design

The system is meant to behave as described first in each item below. The model follows
the code, which behaves as described second.

- Farmer lookup. A key matching some farmer's ryot number is meant to find that farmer
  before any coupon-number match. The code asks for the rows that match either field with
  `maybeSingle()`, which yields a row only when exactly one matches. So a key that one
  farmer has as ryot number and another as coupon number finds nobody
  (`CollectSugar.AmbiguousKeyNotFound`).
- Duplicate check. It is meant to ignore letter case. The code compares exactly
  (`CollectSugar.Staged`).
- Sold check. It also uses `maybeSingle()`. A ryot with two or more recorded sales, or a
  failed check, therefore yields the status `NEW` (`CollectSugar.RepeatSaleReadsAsNew`).
- Confirmation. It is meant to re-check for sales recorded meanwhile by another
  collection point before inserting. The code does not, so the model claims no race
  protection.
- Report. An inverted date range is meant to be rejected as an error of its own. The code
  has no such check: an inverted range selects nothing and ends in "No sales data"
  (`SalesReport.InvertedRangeSelectsNothing`).
- Roster amount. It is meant to be the eligible quantity times the rate, rounded to
  hundredths. The upload reads it from cell 11 of the sheet as it stands, or 0 when that
  cell is empty (`SeasonUpload.ColumnLayout`); only the collection page recomputes it
  (`CollectSugar.EntryValues`).
- Partial upload. A season replacement whose insert fails after earlier batches were
  written is meant to be reported as such. The code gives the same
  `UploadFailed(ErrorText(msg))` as a failed reset, although the first k × 800 records are
  then stored (`SeasonUpload.CommittedPrefix`, `SeasonUpload.ReplaceSeason`).
- Totals row. It has eleven cells, and its totals sit one column to the right of the
  columns they sum (`SalesReport.TotalsOneColumnRight`). This also stops every download;
  see "## Findings".

## Model

| member | source | states |
|---|---|---|
| Common.Trim | src/pages/UploadExcel.tsx:156-169 | the result has no JavaScript white space at either end, is empty exactly when the input is all white space, and leaves a trimmed string unchanged |
| Common.TrimCutsEnds | src/pages/UploadExcel.tsx:156-169 | the input is the result with a white-space prefix before it and a white-space suffix after it, so `trim` returns the input's middle |
| Common.ContainsIff | src/pages/CollectSugar.tsx:45 | `includes` holds exactly when the substring occurs at some position |
| Common.Round2 | src/pages/CollectSugar.tsx:114 | `+x.toFixed(2)` gives a whole number of hundredths within 0.005 of `x` |
| Common.Round2OfCents | src/pages/CollectSugar.tsx:114 | an amount that is already whole hundredths is not changed by rounding |
| Records.MaybeSingle | src/pages/CollectSugar.tsx:82-98 | `maybeSingle()` yields a row exactly when one row matches, and then yields that row |
| SeasonUpload.RowKeyMeaning | src/pages/UploadExcel.tsx:153-157 | a row's key is empty exactly when the row is missing, blank, or has an empty trimmed ryot number; otherwise the key is the trimmed ryot number |
| SeasonUpload.FirstRows | src/pages/UploadExcel.tsx:152 | every row that becomes a record has an index of at least 1, so the header row never does |
| SeasonUpload.FirstRowsAreFirstOccurrences | src/pages/UploadExcel.tsx:150-160 | the rows kept are first occurrences of their ryot number among qualifying rows, every first occurrence is kept, and they are in increasing row order |
| SeasonUpload.ParseSheet | src/pages/UploadExcel.tsx:147-177 | a sheet with no rows yields "Empty Excel file"; otherwise the loop with its `seen` set yields exactly the roster of first occurrences |
| SeasonUpload.PickStep | src/pages/UploadExcel.tsx:153-174 | reading one row adds its ryot number to `seen` when the row qualifies and leaves `seen` as it was otherwise, and appends its record exactly when that number was not seen before |
| SeasonUpload.SeenKeysMeaning | src/pages/UploadExcel.tsx:150-160 | a number is in `seen` exactly when an earlier qualifying data row carries it |
| SeasonUpload.PickOrigins | src/pages/UploadExcel.tsx:152-175 | the records picked are the items of the kept rows, one each, in row order |
| SeasonUpload.RosterOrigins | src/pages/UploadExcel.tsx:152-175 | record k of the roster is built from the k-th kept row, and nothing else is in the roster |
| SeasonUpload.RosterRyot | src/pages/UploadExcel.tsx:156-166 | each record comes from a first-occurrence row and carries that row's trimmed ryot number |
| SeasonUpload.RosterRyotsDistinct | src/pages/UploadExcel.tsx:150-160 | no two records of the parsed roster share a ryot number |
| SeasonUpload.EveryRyotKept | src/pages/UploadExcel.tsx:153-160 | every ryot number that some qualifying data row carries appears in the roster |
| SeasonUpload.FirstOccurrenceWins | src/pages/UploadExcel.tsx:158-175 | the first qualifying row with a ryot number gives the one record with that number |
| SeasonUpload.LaterDuplicateDropped | src/pages/UploadExcel.tsx:158 | a later row repeating a ryot number is the origin of no record |
| SeasonUpload.QualifiesIffRyotNumber | src/pages/UploadExcel.tsx:154-157 | a blank row has an empty ryot number, so the ryot-number test alone decides whether a row qualifies |
| SeasonUpload.HeaderRowIgnored | src/pages/UploadExcel.tsx:152 | changing row 0 does not change the roster |
| SeasonUpload.PickIgnoresPositionZero | src/pages/UploadExcel.tsx:152 | the scan never looks at position 0 |
| SeasonUpload.ColumnZeroIgnored | src/pages/UploadExcel.tsx:162-173 | cell 0 of a row is never read |
| SeasonUpload.ColumnLayout | src/pages/UploadExcel.tsx:162-173 | fixed column mapping (cells 1 to 7 trimmed, numbers from cells 8 to 11); the rate falls back to 31.5 exactly when cell 10 is empty, and the text fields are trimmed |
| SeasonUpload.Batches | src/pages/UploadExcel.tsx:213-215 | every batch holds between 1 and 800 records |
| SeasonUpload.BatchAt | src/pages/UploadExcel.tsx:214-215 | batch k exists exactly when k × 800 is inside the roster, and it is the slice from k × 800 to at most 800 records on |
| SeasonUpload.BatchesPrefix | src/pages/UploadExcel.tsx:213-219 | the first k batches put together are the first k × 800 records |
| SeasonUpload.BatchesPartition | src/pages/UploadExcel.tsx:213-219 | the batches put together give back the roster |
| SeasonUpload.InsertCalls | src/pages/UploadExcel.tsx:217 | one insert call per batch, in batch order |
| SeasonUpload.FirstFault | src/pages/UploadExcel.tsx:214-219 | the index found is the first failing insert, or the batch count when none fails |
| SeasonUpload.ReplaceSeason | src/pages/UploadExcel.tsx:207-219 | its loop by 800 issues exactly the calls of the season replacement and reports its outcome |
| SeasonUpload.ResetComesFirst | src/pages/UploadExcel.tsx:207-219 | an empty roster calls nothing; the reset is the first call; nothing is inserted after a failed reset; success means the reset and every insert went through |
| SeasonUpload.CommittedPrefix | src/pages/UploadExcel.tsx:213-219 | with first failing batch k, batches 0 to k-1 were inserted (the first k × 800 records) and the last call was the insert of batch k; with none failing, the whole roster was inserted |
| SeasonUpload.AcceptsExcelExtensions | src/pages/UploadExcel.tsx:94 | a name ending in `.xls`, `.xlsx` or `.csv`, in any letter case, is accepted whatever its type |
| SeasonUpload.RefusesOtherFiles | src/pages/UploadExcel.tsx:89-101 | for every file: one is accepted only when its type is one of the two spreadsheet types or its name ends in `.xls`, `.xlsx` or `.csv` in some letter case, and a spreadsheet type is accepted whatever the name |
| SeasonUpload.AdminRoleSpellings | src/pages/UploadExcel.tsx:46 | a role passes exactly when it is "admin" in some letter case (five letters, each lower-casing to the letter of "admin"); no role, "" and "admin " fail |
| SeasonUpload.UploadPage.constructor | src/pages/UploadExcel.tsx:39-44 | the page starts with no file selected and the backup dialog closed |
| SeasonUpload.UploadPage.SelectFile | src/pages/UploadExcel.tsx:89-104 | an accepted file becomes the selection; a refused one leaves the selection as it was |
| SeasonUpload.UploadPage.Upload | src/pages/UploadExcel.tsx:106-126 | the admin check comes before the file check, and only an administrator with a file gets the backup dialog |
| SeasonUpload.UploadPage.BackupResponse | src/pages/UploadExcel.tsx:190-237 | with no file nothing happens; otherwise the dialog closes, an empty sheet fails, a parsed roster replaces the season, and only a full upload clears the selection |
| CollectSugar.FormatSupabaseError | src/pages/CollectSugar.tsx:43-49 | "Unexpected error." for a missing or empty message; the permission hint when the lower-cased message contains "permission"; otherwise the message itself; never empty |
| CollectSugar.PermissionHintIff | src/pages/CollectSugar.tsx:43-49 | for a non-empty message, the permission hint is returned exactly when the lower-cased message contains "permission" |
| CollectSugar.NotAuthenticatedShownAsIs | src/pages/CollectSugar.tsx:121-122 | the missing-session error reaches the operator as "Not authenticated" |
| CollectSugar.FindFarmer | src/pages/CollectSugar.tsx:81-91 | a farmer found is a roster row whose ryot or coupon number is the key, and only when the query succeeds |
| CollectSugar.LookupFindsSoleMatch | src/pages/CollectSugar.tsx:82-86 | a key that exactly one roster row matches finds that row |
| CollectSugar.AmbiguousKeyNotFound | src/pages/CollectSugar.tsx:82-86 | a key that two roster rows match finds nothing |
| CollectSugar.SaleFor | src/pages/CollectSugar.tsx:93-98 | a sale found is a stored sale of that ryot, and only when the check succeeds |
| CollectSugar.SoleSaleFound | src/pages/CollectSugar.tsx:94-98 | the only sale of a ryot is found |
| CollectSugar.RepeatSaleReadsAsNew | src/pages/CollectSugar.tsx:94-98 | a ryot with two stored sales reads as not yet collected |
| CollectSugar.EntryValues | src/pages/CollectSugar.tsx:100-116 | the quantity is the stored quantity or 0 when absent or zero; the rate is the stored rate or 31.5, so never zero; the amount is whole paise within half a paisa of quantity × rate; the status is ALREADY COLLECTED exactly when a sale was found |
| CollectSugar.NewEntries | src/pages/CollectSugar.tsx:131 | the entries kept are NEW entries of the list, and every NEW entry is kept |
| CollectSugar.NewEntriesAppend | src/pages/CollectSugar.tsx:131 | an empty list has no NEW entries, and appending an entry appends it to the NEW entries exactly when it is NEW, so they keep list order and one copy per NEW entry |
| CollectSugar.BuildRecords | src/pages/CollectSugar.tsx:140-154 | one record per entry in list order, each with that entry's ryot, coupon, quantity and amount, and all with the same payment mode and operator email |
| CollectSugar.MarkCollected | src/pages/CollectSugar.tsx:161-165 | every entry becomes ALREADY COLLECTED; the length, the order and all other fields stay; already collected entries are untouched |
| CollectSugar.TotalsClearedByConfirm | src/pages/CollectSugar.tsx:176-184 | after a recorded payment no entry is NEW and both totals are 0 |
| CollectSugar.TotalsAfterAppend | src/pages/CollectSugar.tsx:176-184 | staging an entry adds its quantity and amount to the totals exactly when it is NEW |
| CollectSugar.RecordsCarryTotals | src/pages/CollectSugar.tsx:140-154 | the records built carry, in sum, the quantity and amount of the entries they come from |
| CollectSugar.ConfirmSendsTotals | src/pages/CollectSugar.tsx:176-184 | the records a confirmation sends sum to the totals shown on the page |
| CollectSugar.FoundFarmerNotStaged | src/pages/CollectSugar.tsx:76-97 | with unique ryot numbers in the roster, a farmer found for a key that passed the duplicate check has no staged entry |
| CollectSugar.AddKeepsConsistent | src/pages/CollectSugar.tsx:76-118 | appending that farmer's entry keeps the list one entry per ryot, each from the roster |
| CollectSugar.ConsistentBySameIdentities | src/pages/CollectSugar.tsx:161-165 | whether the list is one entry per ryot, each from the roster, depends only on the ryot and coupon numbers of its entries |
| CollectSugar.ConfirmKeepsConsistent | src/pages/CollectSugar.tsx:161-165 | flipping the statuses keeps the list one entry per ryot, each from the roster |
| CollectSugar.CollectSession.constructor | src/pages/CollectSugar.tsx:57-59 | empty search box, empty list, cash payment |
| CollectSugar.CollectSession.Type | src/pages/CollectSugar.tsx:207-208 | the search box holds what was typed |
| CollectSugar.CollectSession.ChoosePayment | src/pages/CollectSugar.tsx:253 | the payment mode is the one chosen |
| CollectSugar.CollectSession.Add | src/pages/CollectSugar.tsx:65-126 | the key is the trimmed input. An empty key changes nothing. Then come, in order: no session (error), duplicate (exact match on ryot or coupon number), not found. Each leaves the list and the search box unchanged. Otherwise exactly one entry is appended and the box is cleared. The one-entry-per-ryot invariant is kept |
| CollectSugar.CollectSession.Confirm | src/pages/CollectSugar.tsx:130-172 | with no NEW entries nothing happens. With no session it is an error and nothing is sent. Otherwise the records of the NEW entries are sent. A success marks every entry collected; a failure leaves the list unchanged |
| SalesReport.DayBounds | src/pages/SalesReport.tsx:55-58 | a moment lies between the start and the end of its day, and both belong to that day |
| SalesReport.CompareWithDay | src/pages/SalesReport.tsx:55-66 | comparing with the start or end of a day is the same as comparing day numbers |
| SalesReport.InsertByDate | src/pages/SalesReport.tsx:66 | insertion adds the one sale and nothing else |
| SalesReport.InsertKeepsSorted | src/pages/SalesReport.tsx:66 | inserting into a date-ordered list keeps it date-ordered |
| SalesReport.SortByDate | src/pages/SalesReport.tsx:66 | the ordered result is a permutation of the selected sales |
| SalesReport.SortByDateSorted | src/pages/SalesReport.tsx:66 | the result is in ascending date order |
| SalesReport.QueryMeaning | src/pages/SalesReport.tsx:55-66 | a sale is reported exactly when it is in the store and its day lies between the two chosen days, both included; the rows come in ascending date order |
| SalesReport.InvertedRangeSelectsNothing | src/pages/SalesReport.tsx:55-70 | a first day after the last day selects no sale |
| SalesReport.OneDayRange | src/pages/SalesReport.tsx:55-66 | a one-day range keeps 00:00:00.000 and 23:59:59.999 of that day and drops the millisecond before and after |
| SalesReport.HeaderRow | src/pages/SalesReport.tsx:73-84 | ten header cells with the ten header names in order |
| SalesReport.DataRows | src/pages/SalesReport.tsx:87-98 | one row per sale, in query order |
| SalesReport.DataRowUnderHeaders | src/pages/SalesReport.tsx:73-98 | each of the ten data cells sits under the header that names its column |
| SalesReport.TotalsOneColumnRight | src/pages/SalesReport.tsx:105-117 | the totals row has 11 cells: "TOTAL" at 0, "" at 1-6 and 9, and the cane, quantity and amount totals at 7, 8 and 10, one column right of their headers |
| SalesReport.TotalsOverSelection | src/pages/SalesReport.tsx:101-103 | the totals of the ordered rows equal the sums over the selected sales, whatever their order |
| SalesReport.NullCountsAsZero | src/pages/SalesReport.tsx:101-103 | a sale with no amount adds nothing to the amount total |
| SalesReport.GridLayout | src/pages/SalesReport.tsx:122-128 | the grid has the company title, the season title, a blank row, the headers, one ten-cell row per sale, then the totals row: sales + 5 rows |
| SalesReport.GridShape | src/pages/SalesReport.tsx:122-128 | whatever the totals row, the grid has sales + 5 rows, the header row at index 3, the totals row last, and no row above it longer than ten cells |
| SalesReport.Width | src/pages/SalesReport.tsx:131 | the sheet's range is as wide as the longest row of the grid |
| SalesReport.FirstGap | src/pages/SalesReport.tsx:133-135 | the column found is the first one in the range at which the row holds no cell, and none is found exactly when every column holds one |
| SalesReport.StyleOutcome | src/pages/SalesReport.tsx:131-157 | the workbook with the grid is written exactly when the header row holds a cell in every column of the range; otherwise the `TypeError` message is shown |
| SalesReport.HandleDownload | src/pages/SalesReport.tsx:46-157 | a missing date produces nothing; a failed or empty query gives "No sales data"; otherwise the grid of the sales between the start of the first day and the end of the last is built with the totals row as written, and the header-styling loop decides between the written statement and the `TypeError` message |
| SalesReport.AsWrittenHeaderStylingFails | src/pages/SalesReport.tsx:105-135 | as written, the sheet is eleven columns wide, the header row has no cell at column 10 (K4), and styling ends in the `TypeError` message |
| SalesReport.AsWrittenNoStatement | src/pages/SalesReport.tsx:46-157 | as written, no dates, store contents or query reply lead to a written statement |
| SalesReport.AlignedTotalsUnderHeaders | src/pages/SalesReport.tsx:73-117 | the aligned totals row has ten cells, with the cane, quantity and amount totals under "Cane Wt", "Eligible Qty" and "Amt In Rs" |
| SalesReport.AlignedStatementWritten | src/pages/SalesReport.tsx:122-153 | with the aligned totals row the sheet is ten columns wide, every header column holds a cell, and the statement is written |
| SalesReport.AlignedDownloadDelivers | src/pages/SalesReport.tsx:46-157 | with the aligned totals row, a statement is written exactly when both dates are picked, the query succeeds and some sale lies in the range |

## Left out

- The record store client, the sign-in session and its role lookup. They are inputs: the roster, the sales, failure flags, replies and an optional operator.
- Spreadsheet decoding and encoding, file reading, `XLSX.writeFile`, and the optional backup download of the sales table before a season reset. These are library and file I/O.
- The styles themselves, the column widths and the body-cell styling loop of src/pages/SalesReport.tsx:137-142. That loop touches only cells that exist, so it cannot fail, and styles do not change cell values. The header-styling loop is modelled, because it can abort the download.
- SalesReport.HandleDownload: `Statement(grid)` is the array handed to `sheet_add_aoa`, and the outcome says the workbook holding it reaches `XLSX.writeFile`. The file encoding and the download are not modelled.
- Toasts, navigation, and the busy flags `isUploading`, `isAdding`, `isConfirming` and `isDownloading`. What each flag does:
  - `isUploading` disables the Upload button and switches its label to "Uploading..." (src/pages/UploadExcel.tsx:349-351). The backup dialog is closed at 193, before the upload starts. Together these keep `handleUpload` and `handleBackupResponse` from being started again while an upload runs, so modelling `SeasonUpload.UploadPage.Upload` and `SeasonUpload.UploadPage.BackupResponse` as single steps matches the page.
  - `isDownloading` disables the Download button (src/pages/SalesReport.tsx:201), so modelling `SalesReport.HandleDownload` as a single step matches the page.
  - `isAdding` disables the Add button (src/pages/CollectSugar.tsx:211), but Enter in the search box (209) bypasses it.
  - `isConfirming` is set but never read.
  - The two lines below say what this means for `Add` and `Confirm`.
- CollectSugar.CollectSession.Add: modelled as one step that runs to completion before anything else happens. The source's `handleAdd` is async and is not serialised: pressing Enter in the search box (src/pages/CollectSugar.tsx:209) calls it even while the Add button is disabled (211). Two quick Enters with the same key both pass the duplicate check at 76, which reads the `entries` of the render they started from, and both then append through `prev` at 118, so the list holds two entries for one ryot. The one-entry-per-ryot invariant `Consistent` that `Add` keeps holds only for calls that do not overlap.
- CollectSugar.CollectSession.Confirm: modelled as one step that runs to completion before anything else happens. The source's `handleConfirm` is async and is not serialised: `isConfirming` (set at src/pages/CollectSugar.tsx:135 and 170) is never read, and the Confirm button at 258 is never disabled. Two clicks while the insert is pending send the same NEW records twice; the ryot then has two sales, so later lookups read NEW (`CollectSugar.RepeatSaleReadsAsNew`) and the farmer can be paid again. An entry added while an insert is pending is marked ALREADY COLLECTED by the `prev.map` at 161-165 without having been sent. `ConfirmSendsTotals` and `TotalsClearedByConfirm` hold only for calls that do not overlap.
- Concurrency between collection points. The code does not re-check for such races.
- The login page, the dashboard, route protection, the error boundary, the layout components and the store client configuration. None of them is part of this model.
- SeasonUpload.ParseSheet: `Number(...)` on cell text is a parameter `num` returning an exact real. NaN and floating point are not modelled.
- Common.Round2: `toFixed(2)` is modelled on exact reals, rounding halves away from zero. Binary floating-point representation errors are not modelled.
- Common.Lower: `toLowerCase` is modelled on the ASCII letters only. For its three uses the model is nevertheless exact: the extension pattern `/\.(xlsx?|csv)$/i` (src/pages/UploadExcel.tsx:94) has no `u` flag and so folds only ASCII letters, and no other character lower-cases to a letter of "admin" (line 46) or "permission" (src/pages/CollectSugar.tsx:45) except `İ`, whose lower case `i` followed by U+0307 does not match either word.
- SalesReport.HandleDownload: timestamps are integer milliseconds of local time. Time zones and the ISO conversion of the bounds are not modelled.
- SalesReport.Query: the store's ordering by `sale_date` is modelled as a stable sort. Sales with equal dates therefore keep store order, an order the store does not promise. The model also returns every matching row. The code (src/pages/SalesReport.tsx:55-66) does not page through the results, and a hosted store caps each select at a configured maximum (1000 rows by default), so a long range could silently lose rows, and their totals with them.
- CollectSugar.FindFarmer: the key is assumed free of the store's filter syntax (`,`, `(`, `)`, the double quote `"` and the backslash `\`). The code puts the key unescaped into the `.or(...)` filter string (src/pages/CollectSugar.tsx:85), so a key such as `zz,ryot_number.eq.R100`, or `"R100"` typed with its quotes, which the filter parser unquotes, would find farmer R100 although neither of R100's numbers equals the key. The duplicate check would then miss R100 and could stage it twice. The exact-match lookup, and the one-entry-per-ryot guarantee of `CollectSugar.CollectSession.Add` built on it, hold only for such plain keys.
- CollectSugar.CollectSession.Confirm: the operator email is assumed present. An absent email would make `collected_by` take no value.

## Findings

| source | as written | input that shows it | evidently intended | confidence | as-written member | corrected member |
|---|---|---|---|---|---|---|
| src/pages/SalesReport.tsx:105-135 | the totals row has eleven cells, so the sheet's range ends at column 10; the header row has only ten cells, so styling cell K4 assigns `.s` on `undefined`, the `TypeError` is caught at 156-157 and shown as a toast, and `XLSX.writeFile` at 153 is never reached | any date range holding at least one sale | a ten-cell totals row with each total under the header it sums, so that every header column holds a cell and the statement is written | not executed; high, by reading the code and the sheet library's range rule | SalesReport.AsWrittenNoStatement | SalesReport.AlignedDownloadDelivers |

`SalesReport.HandleDownload` follows the code as written, because the statement's column
layout is a compatibility contract with the factory's accounting. `SalesReport.DownloadOutcome`
states the same download for any totals row. With `SalesReport.AlignedTotalRow` it is the
corrected download.
