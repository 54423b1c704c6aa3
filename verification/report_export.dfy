/** The business-data export: a sheet of the report template is filled in
    place, cell by cell, through a get-or-create helper. The sheet is the
    set of rows that exist and a sparse map from (row, column) to cell.
    Workbook I/O, template loading and the HTTP response are not modelled;
    the workspace service and the date formatter are parameters. */
module ReportExport {
  import opened ReportService

  datatype Cell = Blank | Text(text: string) | Number(value: real)

  /** What `workspaceService.getBusinessData` returns for a time window. */
  datatype BusinessData = BusinessData(
    turnover: real,
    validOrderCount: int,
    orderCompletionRate: real,
    unitPrice: real,
    newUsers: int)

  /** An XSSF sheet: the rows created so far and the cells created in them. */
  class Sheet {
    var rows: set<int>
    var cells: map<(int, int), Cell>

    /** Every cell lives in a row that exists. */
    ghost predicate Valid()
      reads this
    {
      forall p :: p in cells ==> p.0 in rows
    }

    /** A new, empty sheet. */
    constructor ()
      ensures Valid() && rows == {} && cells == map[]
    {
      rows := {};
      cells := map[];
    }

    /** `getRow(row) != null`. A row that does not exist has no cells. */
    function HasRow(row: int): (r: bool)
      requires Valid()
      reads this
      ensures !r ==> forall col :: (row, col) !in cells
    {
      row in rows
    }

    /** `createRow(row)`, called on a row that does not exist yet. */
    method CreateRow(row: int)
      requires Valid() && row !in rows
      modifies this
      ensures Valid() && rows == old(rows) + {row} && cells == old(cells)
    {
      rows := rows + {row};
    }

    /** `row.getCell(col) != null`. A cell exists only in an existing row. */
    function HasCell(row: int, col: int): (r: bool)
      requires Valid()
      reads this
      ensures r ==> HasRow(row)
    {
      (row, col) in cells
    }

    /** `row.createCell(col)` in an existing row, on a column without a cell. */
    method CreateCell(row: int, col: int)
      requires Valid() && row in rows && (row, col) !in cells
      modifies this
      ensures Valid() && rows == old(rows) && cells == old(cells)[(row, col) := Blank]
    {
      cells := cells[(row, col) := Blank];
    }

    /** `cell.setCellValue(value)` on an existing cell. */
    method SetCellValue(row: int, col: int, value: Cell)
      requires Valid() && (row, col) in cells
      modifies this
      ensures Valid() && rows == old(rows) && cells == old(cells)[(row, col) := value]
    {
      cells := cells[(row, col) := value];
    }
  }

  /** `getCell`: the cell at (row, col), creating the row and then the cell
      only where they are missing. Nothing else in the sheet changes. */
  method GetCell(sheet: Sheet, row: int, col: int) returns (cell: Cell)
    requires sheet.Valid()
    modifies sheet
    ensures sheet.Valid()
    ensures sheet.rows == old(sheet.rows) + {row}
    ensures (row, col) in old(sheet.cells) ==> sheet.cells == old(sheet.cells)
    ensures (row, col) !in old(sheet.cells) ==> sheet.cells == old(sheet.cells)[(row, col) := Blank]
    ensures (row, col) in sheet.cells && cell == sheet.cells[(row, col)]
  {
    if !sheet.HasRow(row) {
      sheet.CreateRow(row);
    }
    if !sheet.HasCell(row, col) {
      sheet.CreateCell(row, col);
    }
    cell := sheet.cells[(row, col)];
  }

  /** `getCell(sheet, row, col).setCellValue(value)`. */
  method Put(sheet: Sheet, row: int, col: int, value: Cell)
    requires sheet.Valid()
    modifies sheet
    ensures sheet.Valid()
    ensures sheet.rows == old(sheet.rows) + {row}
    ensures sheet.cells == old(sheet.cells)[(row, col) := value]
  {
    var _ := GetCell(sheet, row, col);
    sheet.SetCellValue(row, col, value);
  }

  /** The captions `initReportSheetIfNeeded` writes. */
  const Labels: map<(int, int), Cell> := map[
    (0, 1) := Text("运营数据报表"),
    (1, 0) := Text("时间"),
    (3, 1) := Text("营业额"),
    (3, 3) := Text("订单完成率"),
    (3, 5) := Text("新增用户"),
    (4, 1) := Text("有效订单"),
    (4, 3) := Text("平均客单价"),
    (6, 1) := Text("日期"),
    (6, 2) := Text("营业额"),
    (6, 3) := Text("有效订单"),
    (6, 4) := Text("订单完成率"),
    (6, 5) := Text("平均客单价"),
    (6, 6) := Text("新增用户")]

  const LabelRows: set<int> := {0, 1, 3, 4, 6}

  /** The overview block: the period and the figures for the whole period. */
  function OverviewCells(begin: int, end: int, overall: BusinessData, showDate: int -> string): map<(int, int), Cell> {
    map[
      (1, 1) := Text(showDate(begin) + "至" + showDate(end)),
      (3, 2) := Number(overall.turnover),
      (3, 4) := Number(overall.orderCompletionRate),
      (3, 6) := Number(overall.newUsers as real),
      (4, 2) := Number(overall.validOrderCount as real),
      (4, 4) := Number(overall.unitPrice)]
  }

  /** Detail row `row`: the date and the day's figures in columns 1 to 6. */
  function DetailRow(row: int, date: int, data: BusinessData, showDate: int -> string): map<(int, int), Cell> {
    map[
      (row, 1) := Text(showDate(date)),
      (row, 2) := Number(data.turnover),
      (row, 3) := Number(data.validOrderCount as real),
      (row, 4) := Number(data.orderCompletionRate),
      (row, 5) := Number(data.unitPrice),
      (row, 6) := Number(data.newUsers as real)]
  }

  /** The figures of one day, as the export asks for them. */
  function DayData(businessData: (int, int) -> BusinessData, date: int): BusinessData {
    businessData(StartOfDay(date), EndOfDay(date))
  }

  /** The first `n` detail rows: row 7 + i for day `begin + i`. */
  function DailyCells(begin: int, n: nat, businessData: (int, int) -> BusinessData,
                      showDate: int -> string): map<(int, int), Cell>
  {
    if n == 0 then map[]
    else
      var date := begin + n - 1;
      DailyCells(begin, n - 1, businessData, showDate) + DetailRow(6 + n, date, DayData(businessData, date), showDate)
  }

  /** Rows 7 to 6 + n. */
  function DailyRows(n: nat): set<int> {
    if n == 0 then {} else DailyRows(n - 1) + {6 + n}
  }

  /** Number of detail rows the export writes. */
  const Days: nat := 30

  /** Everything `exportBusinessData` writes, where `todayForBegin` and
      `todayForEnd` are the dates its two clock readings return (they differ
      when a run straddles midnight): the
      captions, the overview of the last 30 days and one row per day. */
  function ReportCells(todayForBegin: int, todayForEnd: int, businessData: (int, int) -> BusinessData,
                       showDate: int -> string): map<(int, int), Cell>
  {
    var begin, end := todayForBegin - Days, todayForEnd - 1;
    Labels
    + OverviewCells(begin, end, DayRange(businessData, begin, end), showDate)
    + DailyCells(begin, Days, businessData, showDate)
  }

  /** The figures for the days `begin` to `end` as one window. */
  function DayRange(businessData: (int, int) -> BusinessData, begin: int, end: int): BusinessData {
    businessData(StartOfDay(begin), EndOfDay(end))
  }

  function ReportRows(): set<int> {
    LabelRows + DailyRows(Days)
  }

  /** `initReportSheetIfNeeded`: writes the captions. */
  method InitReportSheet(sheet: Sheet)
    requires sheet.Valid()
    modifies sheet
    ensures sheet.Valid()
    ensures sheet.rows == old(sheet.rows) + LabelRows
    ensures sheet.cells == old(sheet.cells) + Labels
  {
    ghost var m := sheet.cells;
    Put(sheet, 0, 1, Text("运营数据报表"));
    Put(sheet, 1, 0, Text("时间"));
    Put(sheet, 3, 1, Text("营业额"));
    Put(sheet, 3, 3, Text("订单完成率"));
    Put(sheet, 3, 5, Text("新增用户"));
    Put(sheet, 4, 1, Text("有效订单"));
    Put(sheet, 4, 3, Text("平均客单价"));
    Put(sheet, 6, 1, Text("日期"));
    Put(sheet, 6, 2, Text("营业额"));
    Put(sheet, 6, 3, Text("有效订单"));
    Put(sheet, 6, 4, Text("订单完成率"));
    Put(sheet, 6, 5, Text("平均客单价"));
    Put(sheet, 6, 6, Text("新增用户"));
    LabelsAsWrites(m);
  }

  /** The thirteen caption writes, one after another, add `Labels`. */
  lemma LabelsAsWrites(m: map<(int, int), Cell>)
    ensures m
      [(0, 1) := Text("运营数据报表")]
      [(1, 0) := Text("时间")]
      [(3, 1) := Text("营业额")]
      [(3, 3) := Text("订单完成率")]
      [(3, 5) := Text("新增用户")]
      [(4, 1) := Text("有效订单")]
      [(4, 3) := Text("平均客单价")]
      [(6, 1) := Text("日期")]
      [(6, 2) := Text("营业额")]
      [(6, 3) := Text("有效订单")]
      [(6, 4) := Text("订单完成率")]
      [(6, 5) := Text("平均客单价")]
      [(6, 6) := Text("新增用户")]
      == m + Labels
  {
  }

  /** The overview block of `exportBusinessData`. */
  method WriteOverview(sheet: Sheet, begin: int, end: int, overall: BusinessData, showDate: int -> string)
    requires sheet.Valid()
    modifies sheet
    ensures sheet.Valid()
    ensures sheet.rows == old(sheet.rows) + {1, 3, 4}
    ensures sheet.cells == old(sheet.cells) + OverviewCells(begin, end, overall, showDate)
  {
    ghost var m := sheet.cells;
    Put(sheet, 1, 1, Text(showDate(begin) + "至" + showDate(end)));
    Put(sheet, 3, 2, Number(overall.turnover));
    Put(sheet, 3, 4, Number(overall.orderCompletionRate));
    Put(sheet, 3, 6, Number(overall.newUsers as real));
    Put(sheet, 4, 2, Number(overall.validOrderCount as real));
    Put(sheet, 4, 4, Number(overall.unitPrice));
    OverviewAsWrites(m, begin, end, overall, showDate);
  }

  /** The six overview writes, one after another, add the overview block. */
  lemma OverviewAsWrites(m: map<(int, int), Cell>, begin: int, end: int, overall: BusinessData, showDate: int -> string)
    ensures m
      [(1, 1) := Text(showDate(begin) + "至" + showDate(end))]
      [(3, 2) := Number(overall.turnover)]
      [(3, 4) := Number(overall.orderCompletionRate)]
      [(3, 6) := Number(overall.newUsers as real)]
      [(4, 2) := Number(overall.validOrderCount as real)]
      [(4, 4) := Number(overall.unitPrice)]
      == m + OverviewCells(begin, end, overall, showDate)
  {
  }

  /** The six writes of one detail row, one after another, add that row. */
  lemma DetailRowAsWrites(m: map<(int, int), Cell>, row: int, date: int, data: BusinessData, showDate: int -> string)
    ensures m
      [(row, 1) := Text(showDate(date))]
      [(row, 2) := Number(data.turnover)]
      [(row, 3) := Number(data.validOrderCount as real)]
      [(row, 4) := Number(data.orderCompletionRate)]
      [(row, 5) := Number(data.unitPrice)]
      [(row, 6) := Number(data.newUsers as real)]
      == m + DetailRow(row, date, data, showDate)
  {
  }

  lemma UnionAssociative<K, V>(a: map<K, V>, b: map<K, V>, c: map<K, V>)
    ensures (a + b) + c == a + (b + c)
  {
  }

  /** The detail rows of `exportBusinessData`: one row per day from `begin`. */
  method WriteDailyRows(sheet: Sheet, begin: int, businessData: (int, int) -> BusinessData, showDate: int -> string)
    requires sheet.Valid()
    modifies sheet
    ensures sheet.Valid()
    ensures sheet.rows == old(sheet.rows) + DailyRows(Days)
    ensures sheet.cells == old(sheet.cells) + DailyCells(begin, Days, businessData, showDate)
  {
    for i := 0 to Days
      invariant sheet.Valid()
      invariant sheet.rows == old(sheet.rows) + DailyRows(i)
      invariant sheet.cells == old(sheet.cells) + DailyCells(begin, i, businessData, showDate)
    {
      var date := begin + i;
      var data := businessData(StartOfDay(date), EndOfDay(date));
      var rowIndex := 7 + i;
      ghost var m := sheet.cells;
      Put(sheet, rowIndex, 1, Text(showDate(date)));
      Put(sheet, rowIndex, 2, Number(data.turnover));
      Put(sheet, rowIndex, 3, Number(data.validOrderCount as real));
      Put(sheet, rowIndex, 4, Number(data.orderCompletionRate));
      Put(sheet, rowIndex, 5, Number(data.unitPrice));
      Put(sheet, rowIndex, 6, Number(data.newUsers as real));
      DetailRowAsWrites(m, rowIndex, date, data, showDate);
      UnionAssociative(old(sheet.cells), DailyCells(begin, i, businessData, showDate),
                       DetailRow(rowIndex, date, data, showDate));
    }
  }

  /** `exportBusinessData` on the template's first sheet, with the two
      readings of today's date as inputs:
      the template's other cells stay as they were. */
  method ExportBusinessData(sheet: Sheet, todayForBegin: int, todayForEnd: int, businessData: (int, int) -> BusinessData,
                            showDate: int -> string)
    requires sheet.Valid()
    modifies sheet
    ensures sheet.Valid()
    ensures sheet.rows == old(sheet.rows) + ReportRows()
    ensures sheet.cells == old(sheet.cells) + ReportCells(todayForBegin, todayForEnd, businessData, showDate)
  {
    var begin := todayForBegin - 30;
    var end := todayForEnd - 1;
    var overall := businessData(StartOfDay(begin), EndOfDay(end));
    InitReportSheet(sheet);
    WriteOverview(sheet, begin, end, overall, showDate);
    WriteDailyRows(sheet, begin, businessData, showDate);
    ghost var overview := OverviewCells(begin, end, overall, showDate);
    ghost var daily := DailyCells(begin, Days, businessData, showDate);
    UnionAssociative(old(sheet.cells), Labels, overview);
    UnionAssociative(old(sheet.cells), Labels + overview, daily);
    RowsAbsorbed(old(sheet.rows), LabelRows, {1, 3, 4}, DailyRows(Days));
  }

  /** Rows created again are not created twice. */
  lemma RowsAbsorbed(a: set<int>, b: set<int>, c: set<int>, d: set<int>)
    requires c <= b
    ensures a + b + c + d == a + (b + d)
  {
  }

  /** A detail row holds columns 1 to 6 of its own row and nothing else. */
  lemma DetailRowKeys(row: int, date: int, data: BusinessData, showDate: int -> string, p: (int, int))
    ensures p in DetailRow(row, date, data, showDate) <==> p.0 == row && 1 <= p.1 <= 6
  {
  }

  /** The detail cells are exactly columns 1 to 6 of rows 7 to 6 + n. */
  lemma {:induction false} DailyCellsKeys(begin: int, n: nat, businessData: (int, int) -> BusinessData,
                                          showDate: int -> string, p: (int, int))
    ensures p in DailyCells(begin, n, businessData, showDate) <==> 7 <= p.0 < 7 + n && 1 <= p.1 <= 6
  {
    if n > 0 {
      var date := begin + n - 1;
      DailyCellsKeys(begin, n - 1, businessData, showDate, p);
      DetailRowKeys(6 + n, date, DayData(businessData, date), showDate, p);
    }
  }

  /** Detail row `row` holds day `begin + row - 7` and that day's figures. */
  lemma {:induction false} DailyCellsAt(begin: int, n: nat, businessData: (int, int) -> BusinessData,
                                        showDate: int -> string, row: int, col: int)
    requires 7 <= row < 7 + n && 1 <= col <= 6
    ensures var date := begin + row - 7;
      && (row, col) in DailyCells(begin, n, businessData, showDate)
      && DailyCells(begin, n, businessData, showDate)[(row, col)]
         == DetailRow(row, date, DayData(businessData, date), showDate)[(row, col)]
  {
    var last := begin + n - 1;
    if row < 6 + n {
      DailyCellsAt(begin, n - 1, businessData, showDate, row, col);
      DetailRowKeys(6 + n, last, DayData(businessData, last), showDate, (row, col));
    }
  }

  /** The detail rows are rows 7 to 6 + n, n of them. */
  lemma {:induction false} DailyRowsSpan(n: nat)
    ensures forall row :: row in DailyRows(n) <==> 7 <= row < 7 + n
    ensures |DailyRows(n)| == n
  {
    if n > 0 {
      DailyRowsSpan(n - 1);
      assert 6 + n !in DailyRows(n - 1);
    }
  }

  /** Detail cells of the export lie in columns 1 to 6 of rows 7 to 36. */
  lemma ExportDetailBounds(todayForBegin: int, todayForEnd: int, businessData: (int, int) -> BusinessData,
                           showDate: int -> string)
    ensures var cells := ReportCells(todayForBegin, todayForEnd, businessData, showDate);
      forall p :: p in cells && p.0 >= 7 ==> 7 <= p.0 <= 36 && 1 <= p.1 <= 6
  {
    var begin, end := todayForBegin - Days, todayForEnd - 1;
    var overview := OverviewCells(begin, end, DayRange(businessData, begin, end), showDate);
    forall p | p in ReportCells(todayForBegin, todayForEnd, businessData, showDate) && p.0 >= 7
      ensures 7 <= p.0 <= 36 && 1 <= p.1 <= 6
    {
      assert p !in Labels && p !in overview;
      DailyCellsKeys(begin, Days, businessData, showDate, p);
    }
  }

  /** Row `row` of the export holds the day `todayForBegin - 37 + row`: its
      date and that day's five figures. The detail rows follow the first
      clock reading only. */
  lemma ExportDetailRow(todayForBegin: int, todayForEnd: int, businessData: (int, int) -> BusinessData,
                        showDate: int -> string, row: int)
    requires 7 <= row <= 36
    ensures var cells, date := ReportCells(todayForBegin, todayForEnd, businessData, showDate), todayForBegin - 37 + row;
      && (row, 1) in cells && cells[(row, 1)] == Text(showDate(date))
      && (row, 2) in cells && cells[(row, 2)] == Number(DayData(businessData, date).turnover)
      && (row, 3) in cells && cells[(row, 3)] == Number(DayData(businessData, date).validOrderCount as real)
      && (row, 4) in cells && cells[(row, 4)] == Number(DayData(businessData, date).orderCompletionRate)
      && (row, 5) in cells && cells[(row, 5)] == Number(DayData(businessData, date).unitPrice)
      && (row, 6) in cells && cells[(row, 6)] == Number(DayData(businessData, date).newUsers as real)
  {
    DailyRowCells(todayForBegin - Days, Days, businessData, showDate, row);
  }

  /** Row `row` of the first `n` detail rows holds the day `begin + row - 7`. */
  lemma DailyRowCells(begin: int, n: nat, businessData: (int, int) -> BusinessData,
                      showDate: int -> string, row: int)
    requires 7 <= row < 7 + n
    ensures var cells, date := DailyCells(begin, n, businessData, showDate), begin + row - 7;
      && (row, 1) in cells && cells[(row, 1)] == Text(showDate(date))
      && (row, 2) in cells && cells[(row, 2)] == Number(DayData(businessData, date).turnover)
      && (row, 3) in cells && cells[(row, 3)] == Number(DayData(businessData, date).validOrderCount as real)
      && (row, 4) in cells && cells[(row, 4)] == Number(DayData(businessData, date).orderCompletionRate)
      && (row, 5) in cells && cells[(row, 5)] == Number(DayData(businessData, date).unitPrice)
      && (row, 6) in cells && cells[(row, 6)] == Number(DayData(businessData, date).newUsers as real)
  {
    DailyCellsAt(begin, n, businessData, showDate, row, 1);
    DailyCellsAt(begin, n, businessData, showDate, row, 2);
    DailyCellsAt(begin, n, businessData, showDate, row, 3);
    DailyCellsAt(begin, n, businessData, showDate, row, 4);
    DailyCellsAt(begin, n, businessData, showDate, row, 5);
    DailyCellsAt(begin, n, businessData, showDate, row, 6);
  }

  /** Cell (1, 1) names the period from `todayForBegin - 30` to
      `todayForEnd - 1`, and the overview figures are those of that one
      window: 30 days when both readings agree, 31 when the run straddles
      midnight. */
  lemma ExportPeriod(todayForBegin: int, todayForEnd: int, businessData: (int, int) -> BusinessData,
                     showDate: int -> string)
    ensures var cells, begin, end := ReportCells(todayForBegin, todayForEnd, businessData, showDate),
                                     todayForBegin - 30, todayForEnd - 1;
      var overall := businessData(StartOfDay(begin), EndOfDay(end));
      && cells[(1, 1)] == Text(showDate(begin) + "至" + showDate(end))
      && cells[(3, 2)] == Number(overall.turnover)
      && cells[(3, 4)] == Number(overall.orderCompletionRate)
      && cells[(3, 6)] == Number(overall.newUsers as real)
      && cells[(4, 2)] == Number(overall.validOrderCount as real)
      && cells[(4, 4)] == Number(overall.unitPrice)
  {
    var begin := todayForBegin - Days;
    DailyCellsKeys(begin, Days, businessData, showDate, (1, 1));
    DailyCellsKeys(begin, Days, businessData, showDate, (3, 2));
    DailyCellsKeys(begin, Days, businessData, showDate, (3, 4));
    DailyCellsKeys(begin, Days, businessData, showDate, (3, 6));
    DailyCellsKeys(begin, Days, businessData, showDate, (4, 2));
    DailyCellsKeys(begin, Days, businessData, showDate, (4, 4));
  }

  /** No data cell of the export overwrites a caption. */
  lemma ExportKeepsCaptions(todayForBegin: int, todayForEnd: int, businessData: (int, int) -> BusinessData,
                            showDate: int -> string)
    ensures var cells := ReportCells(todayForBegin, todayForEnd, businessData, showDate);
      forall p :: p in Labels ==> p in cells && cells[p] == Labels[p]
  {
    var begin, end := todayForBegin - Days, todayForEnd - 1;
    var overview := OverviewCells(begin, end, DayRange(businessData, begin, end), showDate);
    forall p | p in Labels
      ensures p in ReportCells(todayForBegin, todayForEnd, businessData, showDate)
      ensures ReportCells(todayForBegin, todayForEnd, businessData, showDate)[p] == Labels[p]
    {
      assert p !in overview;
      DailyCellsKeys(begin, Days, businessData, showDate, p);
    }
  }

  /** Caption rows and the first `n` detail rows: 5 + n rows. */
  lemma ReportRowsCount(n: nat)
    ensures forall row :: row in LabelRows + DailyRows(n) <==> row in LabelRows || 7 <= row < 7 + n
    ensures |LabelRows + DailyRows(n)| == 5 + n
  {
    DailyRowsSpan(n);
    LabelRowsCount();
    LabelRowsPrecedeDetail(n);
  }

  lemma LabelRowsCount()
    ensures |LabelRows| == 5
  {
  }

  lemma LabelRowsPrecedeDetail(n: nat)
    ensures LabelRows * DailyRows(n) == {}
  {
    DailyRowsSpan(n);
  }

  /** On a sheet without rows, the export creates rows 0, 1, 3, 4, 6 and
      7 to 36: 35 rows, so rows 2 and 5 stay absent. */
  lemma ExportRowsOnEmptySheet()
    ensures forall row :: row in ReportRows() <==> row in LabelRows || 7 <= row <= 36
    ensures |ReportRows()| == 35
  {
    ReportRowsCount(Days);
  }
}
