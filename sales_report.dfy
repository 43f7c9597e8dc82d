/** The sales report page: the sales of a range of whole days, in date order,
    laid out as a statement sheet with a totals row. */
module SalesReport {
  import opened Common
  import opened Records

  // =====================================================================
  // Days
  // =====================================================================

  /** Milliseconds in a day; timestamps are milliseconds of local time. */
  const DayMs: int := 86_400_000

  function DayOf(t: int): int {
    t / DayMs
  }

  /** `setHours(0, 0, 0, 0)`. */
  function StartOfDay(t: int): int {
    DayOf(t) * DayMs
  }

  /** `setHours(23, 59, 59, 999)`. */
  function EndOfDay(t: int): int {
    DayOf(t) * DayMs + (DayMs - 1)
  }

  /** The day of `t` runs from its start to its end, and both ends belong to it. */
  lemma DayBounds(t: int)
    ensures StartOfDay(t) <= t <= EndOfDay(t)
    ensures DayOf(StartOfDay(t)) == DayOf(t) && DayOf(EndOfDay(t)) == DayOf(t)
  {
    var d := DayOf(t);
    assert d * DayMs / DayMs == d;
    assert (d * DayMs + (DayMs - 1)) / DayMs == d;
  }

  /** Comparing with the start or the end of a day is comparing days. */
  lemma {:induction false} CompareWithDay(s: int, t: int)
    ensures StartOfDay(t) <= s <==> DayOf(t) <= DayOf(s)
    ensures s <= EndOfDay(t) <==> DayOf(s) <= DayOf(t)
  {
    var q, d := DayOf(s), DayOf(t);
    assert s == q * DayMs + s % DayMs && 0 <= s % DayMs < DayMs;
    if d <= q {
      assert d * DayMs <= q * DayMs;
    } else {
      assert (d - q) * DayMs >= DayMs;
    }
    if q <= d {
      assert q * DayMs <= d * DayMs;
    } else {
      assert (q - d) * DayMs >= DayMs;
    }
  }

  // =====================================================================
  // The query
  // =====================================================================

  /** The `gte`/`lte` filter on `sale_date`. */
  predicate InRange(s: StoredSale, from: int, to: int) {
    from <= s.saleDate <= to
  }

  function Selected(store: seq<StoredSale>, from: int, to: int): seq<StoredSale> {
    Filter(store, s => InRange(s, from, to))
  }

  predicate SortedByDate(s: seq<StoredSale>) {
    forall i, j :: 0 <= i < j < |s| ==> s[i].saleDate <= s[j].saleDate
  }

  /** Places `x` before the first sale that is not earlier than it. */
  function InsertByDate(x: StoredSale, s: seq<StoredSale>): (r: seq<StoredSale>)
    ensures multiset(r) == multiset{x} + multiset(s)
  {
    if s == [] || x.saleDate <= s[0].saleDate then [x] + s
    else
      assert s == [s[0]] + s[1..];
      [s[0]] + InsertByDate(x, s[1..])
  }

  lemma {:induction false} InsertKeepsSorted(x: StoredSale, s: seq<StoredSale>)
    requires SortedByDate(s)
    ensures SortedByDate(InsertByDate(x, s))
    ensures InsertByDate(x, s)[0] == x || (s != [] && InsertByDate(x, s)[0] == s[0])
  {
    if s != [] && x.saleDate > s[0].saleDate {
      var rest := InsertByDate(x, s[1..]);
      InsertKeepsSorted(x, s[1..]);
      var r := [s[0]] + rest;
      assert rest[0] == x || rest[0] == s[1];
      forall i, j | 0 <= i < j < |r| ensures r[i].saleDate <= r[j].saleDate {
        if i == 0 {
          assert rest[0].saleDate >= s[0].saleDate;
          if j > 1 {
            assert rest[0].saleDate <= rest[j - 1].saleDate;
          }
        } else {
          assert r[i] == rest[i - 1] && r[j] == rest[j - 1];
        }
      }
    }
  }

  /** The rows in date order; rows of the same date stay in store order. */
  function SortByDate(s: seq<StoredSale>): (r: seq<StoredSale>)
    ensures multiset(r) == multiset(s)
  {
    if s == [] then []
    else
      assert s == [s[0]] + s[1..];
      InsertByDate(s[0], SortByDate(s[1..]))
  }

  lemma {:induction false} SortByDateSorted(s: seq<StoredSale>)
    ensures SortedByDate(SortByDate(s))
  {
    if s != [] {
      SortByDateSorted(s[1..]);
      InsertKeepsSorted(s[0], SortByDate(s[1..]));
    }
  }

  /** The rows the report query returns: the sales dated within [from, to],
      in ascending date order. */
  function Query(store: seq<StoredSale>, from: int, to: int): seq<StoredSale> {
    SortByDate(Selected(store, from, to))
  }

  /** A sale is reported exactly when it is in the store and its day lies
      between the chosen days, both included; the rows come in date order. */
  lemma QueryMeaning(store: seq<StoredSale>, fromDate: int, toDate: int, s: StoredSale)
    ensures s in Query(store, StartOfDay(fromDate), EndOfDay(toDate)) <==>
      s in store && DayOf(fromDate) <= DayOf(s.saleDate) <= DayOf(toDate)
    ensures SortedByDate(Query(store, StartOfDay(fromDate), EndOfDay(toDate)))
  {
    var sel := Selected(store, StartOfDay(fromDate), EndOfDay(toDate));
    assert s in Query(store, StartOfDay(fromDate), EndOfDay(toDate)) <==> s in multiset(sel);
    CompareWithDay(s.saleDate, fromDate);
    CompareWithDay(s.saleDate, toDate);
    SortByDateSorted(sel);
  }

  /** A range whose first day comes after its last day selects nothing. */
  lemma InvertedRangeSelectsNothing(store: seq<StoredSale>, fromDate: int, toDate: int)
    requires DayOf(fromDate) > DayOf(toDate)
    ensures Query(store, StartOfDay(fromDate), EndOfDay(toDate)) == []
  {
    var q := Query(store, StartOfDay(fromDate), EndOfDay(toDate));
    if q != [] {
      QueryMeaning(store, fromDate, toDate, q[0]);
      assert false;
    }
  }

  /** A one-day range keeps the first and the last millisecond of that day
      and nothing outside it. */
  lemma OneDayRange(store: seq<StoredSale>, day: int, s: StoredSale)
    requires s in store
    ensures s.saleDate == StartOfDay(day) ==> s in Query(store, StartOfDay(day), EndOfDay(day))
    ensures s.saleDate == EndOfDay(day) ==> s in Query(store, StartOfDay(day), EndOfDay(day))
    ensures s.saleDate == StartOfDay(day) - 1 ==> s !in Query(store, StartOfDay(day), EndOfDay(day))
    ensures s.saleDate == EndOfDay(day) + 1 ==> s !in Query(store, StartOfDay(day), EndOfDay(day))
  {
    QueryMeaning(store, day, day, s);
    DayBounds(day);
    CompareWithDay(s.saleDate, day);
  }

  // =====================================================================
  // The sheet
  // =====================================================================

  /** A cell of the statement: text, a number, or nothing (a NULL column). */
  datatype Cell = Text(s: string) | Number(v: real) | NoValue

  function NumCell(n: Num): Cell {
    if n.Val? then Number(n.v) else NoValue
  }

  const CompanyTitle: string := "NSL SUGARS LTD., KOPPA UNIT"
  const SeasonTitle: string := "Ryot Sugar Coupon Statement for Crushing Season -2425M"

  const HeaderNames: seq<string> := [
    "Division", "Section", "Coupon No", "Ryot Number", "Ryot Name",
    "Village", "Cane Wt", "Eligible Qty", "Sugar Rate (Per KG)", "Amt In Rs"]

  function HeaderRow(): (r: seq<Cell>)
    ensures |r| == |HeaderNames| == 10
    ensures forall k :: 0 <= k < 10 ==> r[k] == Text(HeaderNames[k])
  {
    seq(|HeaderNames|, k requires 0 <= k < |HeaderNames| => Text(HeaderNames[k]))
  }

  /** The ten cells of one sale, in the order of the headers. */
  function DataRow(r: SaleRecord): seq<Cell> {
    [Text(r.division), Text(r.section), Text(r.couponNo), Text(r.ryotNumber), Text(r.ryotName),
     Text(r.village), NumCell(r.caneWt), NumCell(r.sugarQty), NumCell(r.sugarRate), NumCell(r.amount)]
  }

  function SaleCane(s: StoredSale): real {
    RecordCane(s.record)
  }

  function SaleQty(s: StoredSale): real {
    RecordQty(s.record)
  }

  function SaleAmount(s: StoredSale): real {
    RecordAmount(s.record)
  }

  /** The totals row, eleven cells long, as the page builds it. */
  function TotalRow(data: seq<StoredSale>): seq<Cell> {
    [Text("TOTAL"), Text(""), Text(""), Text(""), Text(""), Text(""), Text(""),
     Number(Sum(data, SaleCane)), Number(Sum(data, SaleQty)), Text(""), Number(Sum(data, SaleAmount))]
  }

  /** `data.map(...)`: one row per sale, in query order. */
  function DataRows(data: seq<StoredSale>): (rows: seq<seq<Cell>>)
    ensures |rows| == |data|
    ensures forall k :: 0 <= k < |data| ==> rows[k] == DataRow(data[k].record)
  {
    seq(|data|, k requires 0 <= k < |data| => DataRow(data[k].record))
  }

  /** The array of arrays handed to `sheet_add_aoa`. */
  function Grid(rows: seq<seq<Cell>>): seq<seq<Cell>> {
    [[Text(CompanyTitle)], [Text(SeasonTitle)], [Text("")], HeaderRow()] + rows
  }

  // ---------------------------------------------------------------------
  // Styling the sheet
  // ---------------------------------------------------------------------

  /** The number of columns of the sheet's range (`range.e.c + 1`): the
      longest row, since every value written (a NULL one too) extends it. */
  function Width(g: seq<seq<Cell>>): (w: nat)
    ensures forall k :: 0 <= k < |g| ==> |g[k]| <= w
    ensures g != [] ==> exists k :: 0 <= k < |g| && |g[k]| == w
  {
    if g == [] then 0
    else
      var m := Width(g[1..]);
      assert forall k :: 1 <= k < |g| ==> g[k] == g[1..][k - 1];
      if |g[0]| >= m then |g[0]| else m
  }

  /** Whether the sheet holds a cell at column `c` of a row: one is written
      for every text and number, none for a NULL value or past the row's end. */
  predicate HasCellAt(row: seq<Cell>, c: int) {
    0 <= c < |row| && !row[c].NoValue?
  }

  /** The first column from `c` up to `width` at which `row` has no cell. */
  function FirstGap(row: seq<Cell>, c: nat, width: nat): (r: Option<nat>)
    ensures r.Some? ==> c <= r.value < width && !HasCellAt(row, r.value)
    ensures r.Some? ==> forall j :: c <= j < r.value ==> HasCellAt(row, j)
    ensures r.None? ==> forall j :: c <= j < width ==> HasCellAt(row, j)
    decreases width - c
  {
    if c >= width then None
    else if !HasCellAt(row, c) then Some(c)
    else FirstGap(row, c + 1, width)
  }

  /** The column at which the header-styling loop meets a missing cell of
      row 3 (the header row), if any. */
  function HeaderGap(g: seq<seq<Cell>>): Option<nat>
    requires |g| > 3
  {
    FirstGap(g[3], 0, Width(g))
  }

  /** The message of the `TypeError` raised by assigning `.s` on the
      `undefined` of a missing cell; its wording is the browser engine's. */
  const UndefinedCellError: string := "Cannot set properties of undefined (setting 's')"

  datatype ReportOutcome = SelectDateRange | ReportFailed(message: string) | Statement(grid: seq<seq<Cell>>)

  /** What styling the sheet leads to: the toast of the `TypeError` when a
      header cell is missing, else the workbook with `grid` is written. */
  function StyleOutcome(g: seq<seq<Cell>>): (r: ReportOutcome)
    requires |g| > 3
    ensures r.Statement? <==> forall c :: 0 <= c < Width(g) ==> HasCellAt(g[3], c)
    ensures r.Statement? ==> r.grid == g
    ensures !r.Statement? ==> r == ReportFailed(UndefinedCellError)
  {
    if HeaderGap(g).Some? then ReportFailed(UndefinedCellError) else Statement(g)
  }

  /** The outcome of `handleDownload` for the picked dates, the sales in the
      store, whether the query fails, and the way the totals row is built. */
  function DownloadOutcome(fromDate: Option<int>, toDate: Option<int>, store: seq<StoredSale>, queryFails: bool,
                           totals: seq<StoredSale> -> seq<Cell>): ReportOutcome
  {
    if fromDate.None? || toDate.None? then SelectDateRange
    else
      var data := Query(store, StartOfDay(fromDate.value), EndOfDay(toDate.value));
      if queryFails || data == [] then ReportFailed("No sales data")
      else StyleOutcome(Grid(DataRows(data) + [totals(data)]))
  }

  /** `handleDownload`, given the two picked dates, the sales in the store and
      whether the query fails: the query, the grid with the totals row as the
      page builds it, and the loop styling each column of the header row. */
  method HandleDownload(fromDate: Option<int>, toDate: Option<int>, store: seq<StoredSale>, queryFails: bool)
    returns (r: ReportOutcome)
    ensures fromDate.None? || toDate.None? ==> r == SelectDateRange
    ensures fromDate.Some? && toDate.Some? ==>
      var data := Query(store, StartOfDay(fromDate.value), EndOfDay(toDate.value));
      r == if queryFails || data == [] then ReportFailed("No sales data")
           else StyleOutcome(Grid(DataRows(data) + [TotalRow(data)]))
    ensures r == DownloadOutcome(fromDate, toDate, store, queryFails, TotalRow)
  {
    if fromDate.None? || toDate.None? {
      return SelectDateRange;
    }
    var from := fromDate.value;
    from := StartOfDay(from);
    var to := toDate.value;
    to := EndOfDay(to);
    var data := Query(store, from, to);
    if queryFails || |data| == 0 {
      return ReportFailed("No sales data");
    }
    var rows := DataRows(data);
    rows := rows + [TotalRow(data)];
    var sheet := Grid(rows);
    var width := Width(sheet);
    for c := 0 to width
      invariant forall j :: 0 <= j < c ==> HasCellAt(sheet[3], j)
    {
      if !HasCellAt(sheet[3], c) {
        return ReportFailed(UndefinedCellError);
      }
    }
    return Statement(sheet);
  }

  /** The statement's layout: the two titles, a blank row, the headers, one
      ten-cell row per sale in query order, and the totals row last. */
  lemma GridLayout(data: seq<StoredSale>)
    ensures var g := Grid(DataRows(data) + [TotalRow(data)]);
      && |g| == |data| + 5
      && g[0] == [Text(CompanyTitle)] && g[1] == [Text(SeasonTitle)] && g[2] == [Text("")]
      && g[3] == HeaderRow()
      && (forall k :: 0 <= k < |data| ==> g[4 + k] == DataRow(data[k].record) && |g[4 + k]| == |g[3]|)
      && g[|data| + 4] == TotalRow(data)
  {
    var rows := DataRows(data) + [TotalRow(data)];
    var g := Grid(rows);
    forall k | 0 <= k < |data| ensures g[4 + k] == DataRow(data[k].record) {
      assert g[4 + k] == rows[k];
    }
  }

  /** Each data cell sits under the header naming its column. */
  lemma DataRowUnderHeaders(r: SaleRecord)
    ensures var row, h := DataRow(r), HeaderNames;
      && |row| == |h|
      && h[0] == "Division" && row[0] == Text(r.division)
      && h[1] == "Section" && row[1] == Text(r.section)
      && h[2] == "Coupon No" && row[2] == Text(r.couponNo)
      && h[3] == "Ryot Number" && row[3] == Text(r.ryotNumber)
      && h[4] == "Ryot Name" && row[4] == Text(r.ryotName)
      && h[5] == "Village" && row[5] == Text(r.village)
      && h[6] == "Cane Wt" && row[6] == NumCell(r.caneWt)
      && h[7] == "Eligible Qty" && row[7] == NumCell(r.sugarQty)
      && h[8] == "Sugar Rate (Per KG)" && row[8] == NumCell(r.sugarRate)
      && h[9] == "Amt In Rs" && row[9] == NumCell(r.amount)
  {
  }

  /** The totals row is one cell longer than the header row, and each total
      sits one column to the right of the column it sums. */
  lemma TotalsOneColumnRight(data: seq<StoredSale>)
    ensures var t, h := TotalRow(data), HeaderNames;
      && |t| == 11 == |h| + 1
      && t[0] == Text("TOTAL") && (forall k :: 1 <= k <= 6 ==> t[k] == Text(""))
      && h[6] == "Cane Wt" && t[6] == Text("") && t[7] == Number(Sum(data, SaleCane))
      && h[7] == "Eligible Qty" && t[8] == Number(Sum(data, SaleQty))
      && h[9] == "Amt In Rs" && t[9] == Text("") && t[10] == Number(Sum(data, SaleAmount))
  {
  }

  /** Every row of the grid above the totals row is at most ten cells long. */
  lemma GridShape(data: seq<StoredSale>, t: seq<Cell>)
    ensures var g := Grid(DataRows(data) + [t]);
      && |g| == |data| + 5 && g[3] == HeaderRow() && g[|data| + 4] == t
      && forall k :: 0 <= k < |data| + 4 ==> |g[k]| <= 10
  {
    var rows := DataRows(data) + [t];
    var g := Grid(rows);
    forall k | 4 <= k < |data| + 4 ensures |g[k]| <= 10 {
      assert g[k] == rows[k - 4] == DataRow(data[k - 4].record);
    }
  }

  /** As written, the totals row makes the sheet eleven columns wide while the
      header row has ten cells, so styling the header row meets the missing
      cell K4 at column 10 and the download ends in the `TypeError` toast. */
  lemma AsWrittenHeaderStylingFails(data: seq<StoredSale>)
    ensures var g := Grid(DataRows(data) + [TotalRow(data)]);
      && Width(g) == 11 && HeaderGap(g) == Some(10)
      && StyleOutcome(g) == ReportFailed(UndefinedCellError)
  {
    var g := Grid(DataRows(data) + [TotalRow(data)]);
    GridShape(data, TotalRow(data));
    assert |g[|data| + 4]| == 11;
    assert HasCellAt(g[3], 9) && !HasCellAt(g[3], 10);
  }

  /** As written, no choice of dates, store contents or query reply leads to
      a written statement. */
  lemma AsWrittenNoStatement(fromDate: Option<int>, toDate: Option<int>, store: seq<StoredSale>, queryFails: bool)
    ensures !DownloadOutcome(fromDate, toDate, store, queryFails, TotalRow).Statement?
  {
    if fromDate.Some? && toDate.Some? {
      AsWrittenHeaderStylingFails(Query(store, StartOfDay(fromDate.value), EndOfDay(toDate.value)));
    }
  }

  /** The totals row as evidently intended: ten cells, each total under the
      header of the column it sums. */
  function AlignedTotalRow(data: seq<StoredSale>): seq<Cell> {
    [Text("TOTAL"), Text(""), Text(""), Text(""), Text(""), Text(""),
     Number(Sum(data, SaleCane)), Number(Sum(data, SaleQty)), Text(""), Number(Sum(data, SaleAmount))]
  }

  lemma AlignedTotalsUnderHeaders(data: seq<StoredSale>)
    ensures var t, h := AlignedTotalRow(data), HeaderNames;
      && |t| == |h| == 10
      && t[0] == Text("TOTAL") && (forall k :: 1 <= k <= 5 ==> t[k] == Text("")) && t[8] == Text("")
      && h[6] == "Cane Wt" && t[6] == Number(Sum(data, SaleCane))
      && h[7] == "Eligible Qty" && t[7] == Number(Sum(data, SaleQty))
      && h[9] == "Amt In Rs" && t[9] == Number(Sum(data, SaleAmount))
  {
  }

  /** With the aligned totals row, the sheet is ten columns wide, every header
      column holds a cell, and the statement is written. */
  lemma AlignedStatementWritten(data: seq<StoredSale>)
    ensures var g := Grid(DataRows(data) + [AlignedTotalRow(data)]);
      && Width(g) == 10 && HeaderGap(g) == None && StyleOutcome(g) == Statement(g)
  {
    var g := Grid(DataRows(data) + [AlignedTotalRow(data)]);
    GridShape(data, AlignedTotalRow(data));
    assert |g[3]| == 10;
    assert forall c :: 0 <= c < 10 ==> HasCellAt(g[3], c);
  }

  /** With the aligned totals row, a download writes the statement exactly
      when both dates are picked, the query succeeds and some sale lies in
      the range. */
  lemma AlignedDownloadDelivers(fromDate: Option<int>, toDate: Option<int>, store: seq<StoredSale>, queryFails: bool)
    ensures DownloadOutcome(fromDate, toDate, store, queryFails, AlignedTotalRow).Statement? <==>
      fromDate.Some? && toDate.Some? && !queryFails &&
      Query(store, StartOfDay(fromDate.value), EndOfDay(toDate.value)) != []
  {
    if fromDate.Some? && toDate.Some? {
      AlignedStatementWritten(Query(store, StartOfDay(fromDate.value), EndOfDay(toDate.value)));
    }
  }

  /** The totals count a NULL column as zero and do not depend on the order
      of the rows: they are the sums over the sales selected from the store. */
  lemma TotalsOverSelection(store: seq<StoredSale>, from: int, to: int)
    ensures Sum(Query(store, from, to), SaleCane) == Sum(Selected(store, from, to), SaleCane)
    ensures Sum(Query(store, from, to), SaleQty) == Sum(Selected(store, from, to), SaleQty)
    ensures Sum(Query(store, from, to), SaleAmount) == Sum(Selected(store, from, to), SaleAmount)
  {
    var q, sel := Query(store, from, to), Selected(store, from, to);
    SumPermutation(q, sel, SaleCane);
    SumPermutation(q, sel, SaleQty);
    SumPermutation(q, sel, SaleAmount);
  }

  /** A sale with a NULL amount adds nothing to the amount total. */
  lemma NullCountsAsZero(data: seq<StoredSale>, s: StoredSale)
    requires s.record.amount == Null
    ensures Sum(data + [s], SaleAmount) == Sum(data, SaleAmount)
  {
    SumAppend(data, [s], SaleAmount);
    assert [s][1..] == [];
  }
}
