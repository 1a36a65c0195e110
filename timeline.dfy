/**
 * The geometry of the planning chart: pixels per day for each scale, the
 * header and grid ticks, the task bars, the dependency connectors, the today
 * marker, and the zoom and fit computations. Pixel values are reals; the
 * DOM elements the page creates are modelled as records of their CSS
 * position and size.
 */
module Timeline {
  import opened JsValues
  import opened Calendar
  import opened PlanDocument

  /** `state.scale`: the three scale buttons, or any other text a button could carry. */
  datatype Scale = Day | Week | Month | Other(name: string)

  /** The `data-scale` text of a scale button. */
  function ScaleOf(name: string): (s: Scale)
    ensures s.Other? <==> name != "day" && name != "week" && name != "month"
  {
    if name == "day" then Day
    else if name == "week" then Week
    else if name == "month" then Month
    else Other(name)
  }

  function ScaleName(s: Scale): string {
    match s
    case Day => "day"
    case Week => "week"
    case Month => "month"
    case Other(name) => name
  }

  /** Reading a button's scale and writing it back gives the same text. */
  lemma ScaleNameRoundTrip(name: string)
    ensures ScaleName(ScaleOf(name)) == name
  {
  }

  const RowHeight: real := 44.0
  const BarOffset: real := 10.0
  const BarHeight: real := 24.0
  const MinBarWidth: real := 4.0

  function Min(a: real, b: real): real { if a <= b then a else b }
  function Max(a: real, b: real): real { if a >= b then a else b }

  /** `getPxPerDay()`: the pixels of one scale unit spread over the days of that unit. */
  function PxPerDay(scale: Scale, pxPerUnit: real, zoomLevel: real): real {
    match scale
    case Day => pxPerUnit * zoomLevel
    case Week => pxPerUnit * zoomLevel / 7.0
    case Month => pxPerUnit * zoomLevel / 30.0
    case Other(_) => 20.0
  }

  /** Days covered by one header cell: 1, 7 or 30; the month layout serves every other scale. */
  function HeaderStep(scale: Scale): int {
    if scale.Day? then 1 else if scale.Week? then 7 else 30
  }

  /** Days covered by one grid column: 7 for weeks, 30 for months, 1 otherwise. */
  function GridStep(scale: Scale): int {
    if scale.Week? then 7 else if scale.Month? then 30 else 1
  }

  /** A header cell of a named scale is `pxPerUnit * zoomLevel` pixels wide. */
  lemma UnitWidth(scale: Scale, pxPerUnit: real, zoomLevel: real)
    requires !scale.Other?
    ensures (HeaderStep(scale) as real) * PxPerDay(scale, pxPerUnit, zoomLevel) == pxPerUnit * zoomLevel
    ensures GridStep(scale) == HeaderStep(scale)
  {
  }

  // ---------------------------------------------------------------------------
  // Ticks

  /** The values `i`, `i + step`, ... below `total`: the loop counter of `for (i = ...; i < total; i += step)`. */
  function TicksFrom(i: int, step: int, total: int): (r: seq<int>)
    requires step > 0
    decreases total - i
  {
    if i >= total then [] else [i] + TicksFrom(i + step, step, total)
  }

  /** Tick `k` is `k` steps after `i`, and below `total`. */
  lemma {:induction false} TicksAt(i: int, step: int, total: int, k: int)
    requires step > 0 && 0 <= k < |TicksFrom(i, step, total)|
    ensures TicksFrom(i, step, total)[k] == i + k * step < total
    decreases total - i
  {
    if k > 0 {
      var j := i + step;
      TicksAt(j, step, total, k - 1);
      assert j + (k - 1) * step == i + k * step;
    }
  }

  /** The ticks together reach `total`. */
  lemma {:induction false} TicksCount(i: int, step: int, total: int)
    requires step > 0
    ensures i + |TicksFrom(i, step, total)| * step >= total
    decreases total - i
  {
    if i < total {
      var j := i + step;
      TicksCount(j, step, total);
      var n := |TicksFrom(j, step, total)|;
      assert i + (n + 1) * step == j + n * step;
    }
  }

  /** One step of a `for (i = ...; i < total; i += step)` loop over the ticks `all`, at index `k`. */
  lemma TicksStep(all: seq<int>, k: int, k': int, i: int, i': int, step: int, total: int)
    requires step > 0 && 0 <= k <= |all| && TicksFrom(i, step, total) == all[k..] && i < total
    requires k' == k + 1 && i' == i + step
    ensures k' <= |all| && all[k] == i && TicksFrom(i', step, total) == all[k'..]
  {
    assert all[k..] == [i] + TicksFrom(i + step, step, total);
    assert all[k + 1..] == all[k..][1..];
  }

  /** The loop ends with every tick visited. */
  lemma TicksDone(all: seq<int>, k: int, i: int, step: int, total: int)
    requires step > 0 && 0 <= k <= |all| && TicksFrom(i, step, total) == all[k..] && i >= total
    ensures all[..k] == all
  {
  }

  /** The pixels of `days` days at `px` pixels per day. */
  function Span(days: int, px: real): real {
    (days as real) * px
  }

  /** `f` of each tick, in order: what a loop over the ticks appends one by one. */
  function MapTicks<T>(ticks: seq<int>, f: int -> T): (r: seq<T>)
    ensures |r| == |ticks|
  {
    if ticks == [] then [] else MapTicks(ticks[..|ticks| - 1], f) + [f(ticks[|ticks| - 1])]
  }

  lemma {:induction false} MapTicksAt<T>(ticks: seq<int>, f: int -> T, k: int)
    requires 0 <= k < |ticks|
    ensures MapTicks(ticks, f)[k] == f(ticks[k])
    decreases |ticks|
  {
    if k < |ticks| - 1 {
      MapTicksAt(ticks[..|ticks| - 1], f, k);
    }
  }

  /** `key` of the last tick, `-1` before the first: a loop's running "current" value. */
  function LastKey(ticks: seq<int>, key: int -> int): int {
    if ticks == [] then -1 else key(ticks[|ticks| - 1])
  }

  /** `mark` of each tick whose `key` differs from the previous tick's (`-1` before the first). */
  function MarkChanges<T>(ticks: seq<int>, key: int -> int, mark: int -> T): seq<T> {
    if ticks == [] then []
    else
      var init, last := ticks[..|ticks| - 1], ticks[|ticks| - 1];
      MarkChanges(init, key, mark) + (if key(last) != LastKey(init, key) then [mark(last)] else [])
  }

  /** `mark` of each tick that satisfies `p`. */
  function MarkWhere<T>(ticks: seq<int>, p: int -> bool, mark: int -> T): seq<T> {
    if ticks == [] then []
    else
      var last := ticks[|ticks| - 1];
      MarkWhere(ticks[..|ticks| - 1], p, mark) + (if p(last) then [mark(last)] else [])
  }

  /** When `p` holds exactly where the key changes, marking changes is marking where `p` holds. */
  lemma {:induction false} MarkChangesWhere<T>(ticks: seq<int>, key: int -> int, p: int -> bool, mark: int -> T)
    requires ticks != [] ==> (key(ticks[0]) != -1 <==> p(ticks[0]))
    requires forall j :: 0 < j < |ticks| ==> (key(ticks[j]) != key(ticks[j - 1]) <==> p(ticks[j]))
    ensures MarkChanges(ticks, key, mark) == MarkWhere(ticks, p, mark)
    decreases |ticks|
  {
    if ticks != [] {
      var n := |ticks| - 1;
      var init := ticks[..n];
      assert forall j :: 0 <= j < n ==> init[j] == ticks[j];
      MarkChangesWhere(init, key, p, mark);
    }
  }

  /** The day number of the chart's `i`-th day. */
  function DayAt(startDate: Instant, i: int): int {
    DayNumber(AddDays(startDate, i))
  }

  // ---------------------------------------------------------------------------
  // Header (`renderHeaderScales`)

  /** What a header cell shows: day of month, ISO week, month and year, short month, or year. */
  datatype Label =
    | DayOfMonthLabel(dayOfMonth: int)
    | WeekLabel(week: int)
    | MonthYearLabel(month: int, year: int)
    | ShortMonthLabel(month: int)
    | YearLabel(year: int)

  /** A header cell: CSS left, CSS width when set, text, weekend shading. */
  datatype Cell = Cell(left: real, width: Option<real>, text: Label, weekend: bool)

  datatype Header = Header(primary: seq<Cell>, secondary: seq<Cell>)

  /** The secondary-row text of day `i`: day of month, ISO week number, or month. */
  function SecondaryLabel(scale: Scale, startDate: Instant, i: int): Label {
    if scale.Day? then DayOfMonthLabel(DayOfMonth(DayAt(startDate, i)))
    else if scale.Week? then WeekLabel(WeekNumber(AddDays(startDate, i)))
    else ShortMonthLabel(MonthOf(DayAt(startDate, i)))
  }

  /** The secondary-row cell of day `i`, one header step wide; day cells on a weekend are shaded. */
  function SecondaryCell(scale: Scale, startDate: Instant, px: real, i: int): Cell {
    Cell(Span(i, px), Some(Span(HeaderStep(scale), px)), SecondaryLabel(scale, startDate, i),
         scale.Day? && IsWeekend(DayAt(startDate, i)))
  }

  function SecondaryCells(scale: Scale, startDate: Instant, px: real, ticks: seq<int>): seq<Cell> {
    MapTicks(ticks, i => SecondaryCell(scale, startDate, px, i))
  }

  lemma SecondaryCellsAt(scale: Scale, startDate: Instant, px: real, ticks: seq<int>, k: int)
    requires 0 <= k < |ticks|
    ensures |SecondaryCells(scale, startDate, px, ticks)| == |ticks|
    ensures SecondaryCells(scale, startDate, px, ticks)[k] == SecondaryCell(scale, startDate, px, ticks[k])
  {
    MapTicksAt(ticks, i => SecondaryCell(scale, startDate, px, i), k);
  }

  /** Visiting one more tick appends its cell. */
  lemma SecondaryCellsStep(scale: Scale, startDate: Instant, px: real, ticks: seq<int>, k: int, k': int)
    requires 0 <= k < |ticks| && k' == k + 1
    ensures SecondaryCells(scale, startDate, px, ticks[..k'])
         == SecondaryCells(scale, startDate, px, ticks[..k]) + [SecondaryCell(scale, startDate, px, ticks[k])]
  {
    assert ticks[..k'][..k] == ticks[..k];
  }

  /** The month label the day and week layouts put in the primary row. */
  function MonthMark(startDate: Instant, px: real, i: int): Cell {
    var day := DayAt(startDate, i);
    Cell(Span(i, px), None, MonthYearLabel(MonthOf(day), YearOf(day)), false)
  }

  /** The month of the chart's `i`-th day. */
  function MonthAt(startDate: Instant, i: int): int {
    MonthOf(DayAt(startDate, i))
  }

  /** `currentMonth` after the ticks: the last tick's month, -1 before the first. */
  function LastMonth(startDate: Instant, ticks: seq<int>): int {
    LastKey(ticks, i => MonthAt(startDate, i))
  }

  /** The primary-row labels of the day and week layouts: one wherever `getMonth()` differs from the previous tick's. */
  function MonthMarks(startDate: Instant, px: real, ticks: seq<int>): seq<Cell> {
    MarkChanges(ticks, i => MonthAt(startDate, i), i => MonthMark(startDate, px, i))
  }

  /** Visiting one more tick appends its month label when its month differs from the running one. */
  lemma MonthMarksStep(startDate: Instant, px: real, ticks: seq<int>, k: int, k': int)
    requires 0 <= k < |ticks| && k' == k + 1
    ensures MonthMarks(startDate, px, ticks[..k'])
         == MonthMarks(startDate, px, ticks[..k])
            + (if MonthAt(startDate, ticks[k]) != LastMonth(startDate, ticks[..k]) then [MonthMark(startDate, px, ticks[k])] else [])
    ensures LastMonth(startDate, ticks[..k']) == MonthAt(startDate, ticks[k])
  {
    assert ticks[..k'][..k] == ticks[..k];
  }

  /** The year cell the month layout puts above each month. */
  function YearCell(startDate: Instant, px: real, i: int): Cell {
    Cell(Span(i, px), Some(Span(30, px)), YearLabel(YearOf(DayAt(startDate, i))), false)
  }

  function YearCells(startDate: Instant, px: real, ticks: seq<int>): seq<Cell> {
    MapTicks(ticks, i => YearCell(startDate, px, i))
  }

  lemma YearCellsStep(startDate: Instant, px: real, ticks: seq<int>, k: int, k': int)
    requires 0 <= k < |ticks| && k' == k + 1
    ensures YearCells(startDate, px, ticks[..k']) == YearCells(startDate, px, ticks[..k]) + [YearCell(startDate, px, ticks[k])]
  {
    assert ticks[..k'][..k] == ticks[..k];
  }

  /** Both header rows for the given scale. */
  function HeaderFor(scale: Scale, startDate: Instant, totalDays: int, px: real): Header {
    var ticks := TicksFrom(0, HeaderStep(scale), totalDays);
    var secondary := SecondaryRow(scale, startDate, totalDays, px);
    if scale.Day? || scale.Week? then Header(MonthMarks(startDate, px, ticks), secondary)
    else Header(YearCells(startDate, px, ticks), secondary)
  }

  /** The secondary header row: one cell per header step. */
  function SecondaryRow(scale: Scale, startDate: Instant, totalDays: int, px: real): seq<Cell> {
    SecondaryCells(scale, startDate, px, TicksFrom(0, HeaderStep(scale), totalDays))
  }

  /** `renderHeaderScales`: the day, week and month layouts each loop over their ticks. */
  method RenderHeaderScales(scale: Scale, startDate: Instant, totalDays: int, px: real) returns (h: Header)
    ensures h == HeaderFor(scale, startDate, totalDays, px)
  {
    if scale.Day? || scale.Week? {
      h := RenderDayOrWeekScale(scale, startDate, totalDays, px);
    } else {
      h := RenderMonthScale(scale, startDate, totalDays, px);
    }
  }

  /** The day and week loops: one cell per tick, and a month label wherever `getMonth()` changes. */
  method RenderDayOrWeekScale(scale: Scale, startDate: Instant, totalDays: int, px: real) returns (h: Header)
    requires scale.Day? || scale.Week?
    ensures h == HeaderFor(scale, startDate, totalDays, px)
  {
    var step := HeaderStep(scale);
    var all := TicksFrom(0, step, totalDays);
    var primary: seq<Cell> := [];
    var secondary: seq<Cell> := [];
    var currentMonth := -1;
    var i, k := 0, 0;
    while i < totalDays
      invariant 0 <= k <= |all| && TicksFrom(i, step, totalDays) == all[k..]
      invariant secondary == SecondaryCells(scale, startDate, px, all[..k])
      invariant primary == MonthMarks(startDate, px, all[..k])
      invariant currentMonth == LastMonth(startDate, all[..k])
      decreases totalDays - i
    {
      var i', k' := i + step, k + 1;
      TicksStep(all, k, k', i, i', step, totalDays);
      SecondaryCellsStep(scale, startDate, px, all, k, k');
      MonthMarksStep(startDate, px, all, k, k');
      secondary := secondary + [SecondaryCell(scale, startDate, px, i)];
      var month := MonthAt(startDate, i);
      if month != currentMonth {
        currentMonth := month;
        primary := primary + [MonthMark(startDate, px, i)];
      }
      i, k := i', k';
    }
    TicksDone(all, k, i, step, totalDays);
    h := Header(primary, secondary);
  }

  /** The month loop (also taken for any other scale): a month cell and a year cell per 30 days. */
  method RenderMonthScale(scale: Scale, startDate: Instant, totalDays: int, px: real) returns (h: Header)
    requires !(scale.Day? || scale.Week?)
    ensures h == HeaderFor(scale, startDate, totalDays, px)
  {
    var all := TicksFrom(0, 30, totalDays);
    var primary: seq<Cell> := [];
    var secondary: seq<Cell> := [];
    var i, k := 0, 0;
    while i < totalDays
      invariant 0 <= k <= |all| && TicksFrom(i, 30, totalDays) == all[k..]
      invariant secondary == SecondaryCells(scale, startDate, px, all[..k])
      invariant primary == YearCells(startDate, px, all[..k])
      decreases totalDays - i
    {
      var i', k' := i + 30, k + 1;
      TicksStep(all, k, k', i, i', 30, totalDays);
      SecondaryCellsStep(scale, startDate, px, all, k, k');
      YearCellsStep(startDate, px, all, k, k');
      secondary := secondary + [SecondaryCell(scale, startDate, px, i)];
      primary := primary + [YearCell(startDate, px, i)];
      i, k := i', k';
    }
    TicksDone(all, k, i, 30, totalDays);
    h := Header(primary, secondary);
  }

  /** The secondary row tiles the header: cell `k` starts `k * step` days in and spans `step` days. */
  lemma SecondaryCellsTile(scale: Scale, startDate: Instant, totalDays: int, px: real, step: int, k: int)
    requires step == HeaderStep(scale)
    requires 0 <= k < |SecondaryRow(scale, startDate, totalDays, px)|
    ensures SecondaryRow(scale, startDate, totalDays, px)[k].left == Span(k * step, px)
    ensures SecondaryRow(scale, startDate, totalDays, px)[k].width == Some(Span(step, px))
  {
    var ticks := TicksFrom(0, step, totalDays);
    SecondaryCellsAt(scale, startDate, px, ticks, k);
    TicksAt(0, step, totalDays, k);
  }

  /** The header has one cell per `step` days, enough to reach `totalDays` and no more. */
  lemma HeaderCellCount(scale: Scale, startDate: Instant, totalDays: int, px: real, step: int)
    requires step == HeaderStep(scale)
    ensures var n := |SecondaryRow(scale, startDate, totalDays, px)|;
      n * step >= totalDays && (n == 0 || (n - 1) * step < totalDays)
  {
    var ticks := TicksFrom(0, step, totalDays);
    TicksCount(0, step, totalDays);
    if |ticks| > 0 {
      TicksAt(0, step, totalDays, |ticks| - 1);
    }
  }

  /** Week cells show ISO week numbers from 1 to 53. */
  lemma WeekLabelsRange(startDate: Instant, totalDays: int, px: real, k: int)
    requires 0 <= k < |SecondaryRow(Week, startDate, totalDays, px)|
    ensures SecondaryRow(Week, startDate, totalDays, px)[k].text.WeekLabel?
    ensures 1 <= SecondaryRow(Week, startDate, totalDays, px)[k].text.week <= 53
  {
    var ticks := TicksFrom(0, 7, totalDays);
    SecondaryCellsAt(Week, startDate, px, ticks, k);
    WeekNumberRange(AddDays(startDate, ticks[k]));
  }

  /** A tick gets a month label when it is the first, or falls at most `step` days into its month. */
  predicate OpensMonth(startDate: Instant, step: int, i: int) {
    i == 0 || DayOfMonth(DayAt(startDate, i)) <= step
  }

  /** The month labels, written with that closed test instead of the running `currentMonth`. */
  function MarksAtMonthStarts(startDate: Instant, px: real, step: int, ticks: seq<int>): seq<Cell> {
    MarkWhere(ticks, i => OpensMonth(startDate, step, i), i => MonthMark(startDate, px, i))
  }

  /** Ticks `0, step, 2 * step, ...`. */
  predicate EvenlySpaced(ticks: seq<int>, step: int) {
    forall j :: 0 <= j < |ticks| ==> ticks[j] == j * step
  }

  /**
   * With ticks at most 28 days apart, the page labels a month exactly on the
   * first tick and on the ticks that fall within `step` days of a month's start.
   */
  lemma MonthMarksAtMonthStarts(startDate: Instant, px: real, step: int, ticks: seq<int>)
    requires 0 < step <= 28 && EvenlySpaced(ticks, step)
    ensures MonthMarks(startDate, px, ticks) == MarksAtMonthStarts(startDate, px, step, ticks)
  {
    var key := i => MonthAt(startDate, i);
    var p := i => OpensMonth(startDate, step, i);
    forall j | 0 < j < |ticks|
      ensures key(ticks[j]) != key(ticks[j - 1]) <==> p(ticks[j])
    {
      assert ticks[j - 1] == (j - 1) * step && ticks[j] == (j - 1) * step + step;
      MonthTestAgrees(startDate, step, ticks[j - 1], ticks[j]);
    }
    MarkChangesWhere(ticks, key, p, i => MonthMark(startDate, px, i));
  }

  /** For consecutive ticks, "the month differs from the previous tick's" is the closed test. */
  lemma MonthTestAgrees(startDate: Instant, step: int, prev: int, i: int)
    requires 0 < step <= 28 && 0 <= prev && i == prev + step
    ensures MonthAt(startDate, i) != MonthAt(startDate, prev) <==> OpensMonth(startDate, step, i)
  {
    var earlier, day := DayAt(startDate, prev), DayAt(startDate, i);
    assert day == earlier + step;
    MonthChangeIff(earlier, day);
  }

  lemma {:induction false} TicksEvenlySpaced(step: int, total: int)
    requires step > 0
    ensures EvenlySpaced(TicksFrom(0, step, total), step)
  {
    forall j | 0 <= j < |TicksFrom(0, step, total)|
      ensures TicksFrom(0, step, total)[j] == j * step
    {
      TicksAt(0, step, total, j);
    }
  }

  /** In the day layout, months are labelled on the first column and on each first of the month. */
  lemma DayHeaderMonthLabels(startDate: Instant, totalDays: int, px: real)
    ensures HeaderFor(Day, startDate, totalDays, px).primary
         == MarksAtMonthStarts(startDate, px, 1, TicksFrom(0, 1, totalDays))
  {
    TicksEvenlySpaced(1, totalDays);
    MonthMarksAtMonthStarts(startDate, px, 1, TicksFrom(0, 1, totalDays));
  }

  /** In the week layout, months are labelled on the first week and on each week starting in a month's first seven days. */
  lemma WeekHeaderMonthLabels(startDate: Instant, totalDays: int, px: real)
    ensures HeaderFor(Week, startDate, totalDays, px).primary
         == MarksAtMonthStarts(startDate, px, 7, TicksFrom(0, 7, totalDays))
  {
    TicksEvenlySpaced(7, totalDays);
    MonthMarksAtMonthStarts(startDate, px, 7, TicksFrom(0, 7, totalDays));
  }

  // ---------------------------------------------------------------------------
  // Grid (`renderGridBackground`)

  /** A vertical grid column: CSS left and width, and whether it carries the weekend class. */
  datatype Column = Column(left: real, width: real, weekend: bool)

  function ColumnAt(scale: Scale, showWeekends: bool, startDate: Instant, px: real, i: int): Column {
    Column(Span(i, px), Span(GridStep(scale), px), scale.Day? && showWeekends && IsWeekend(DayAt(startDate, i)))
  }

  function Columns(scale: Scale, showWeekends: bool, startDate: Instant, px: real, ticks: seq<int>): seq<Column> {
    MapTicks(ticks, i => ColumnAt(scale, showWeekends, startDate, px, i))
  }

  lemma ColumnsAt(scale: Scale, showWeekends: bool, startDate: Instant, px: real, ticks: seq<int>, k: int)
    requires 0 <= k < |ticks|
    ensures |Columns(scale, showWeekends, startDate, px, ticks)| == |ticks|
    ensures Columns(scale, showWeekends, startDate, px, ticks)[k] == ColumnAt(scale, showWeekends, startDate, px, ticks[k])
  {
    MapTicksAt(ticks, i => ColumnAt(scale, showWeekends, startDate, px, i), k);
  }

  lemma ColumnsStep(scale: Scale, showWeekends: bool, startDate: Instant, px: real, ticks: seq<int>, k: int, k': int)
    requires 0 <= k < |ticks| && k' == k + 1
    ensures Columns(scale, showWeekends, startDate, px, ticks[..k'])
         == Columns(scale, showWeekends, startDate, px, ticks[..k]) + [ColumnAt(scale, showWeekends, startDate, px, ticks[k])]
  {
    assert ticks[..k'][..k] == ticks[..k];
  }

  /** The horizontal line under row `idx`. */
  function RowLineTop(idx: int): real {
    ((idx + 1) as real) * RowHeight
  }

  /** The lines under the first `rowCount` rows, top to bottom. */
  function RowLines(rowCount: int): (r: seq<real>)
    ensures |r| == if rowCount <= 0 then 0 else rowCount
  {
    if rowCount <= 0 then [] else RowLines(rowCount - 1) + [RowLineTop(rowCount - 1)]
  }

  /** Row line `k` lies `k + 1` row heights below the top. */
  lemma {:induction false} RowLinesAt(rowCount: int, k: int)
    requires 0 <= k < rowCount
    ensures RowLines(rowCount)[k] == ((k + 1) as real) * RowHeight
    decreases rowCount
  {
    if k < rowCount - 1 {
      RowLinesAt(rowCount - 1, k);
    }
  }

  datatype Grid = Grid(columns: seq<Column>, rowLines: seq<real>)

  function GridFor(scale: Scale, showWeekends: bool, startDate: Instant, totalDays: int, px: real, rowCount: int): Grid {
    Grid(Columns(scale, showWeekends, startDate, px, TicksFrom(0, GridStep(scale), totalDays)), RowLines(rowCount))
  }

  /** `renderGridBackground`: one column per grid step, then one line per row. */
  method RenderGridBackground(scale: Scale, showWeekends: bool, startDate: Instant, totalDays: int, px: real, rowCount: int)
    returns (g: Grid)
    ensures g == GridFor(scale, showWeekends, startDate, totalDays, px, rowCount)
  {
    var step := GridStep(scale);
    var all := TicksFrom(0, step, totalDays);
    var columns: seq<Column> := [];
    var i, k := 0, 0;
    while i < totalDays
      invariant 0 <= k <= |all| && TicksFrom(i, step, totalDays) == all[k..]
      invariant columns == Columns(scale, showWeekends, startDate, px, all[..k])
      decreases totalDays - i
    {
      var i', k' := i + step, k + 1;
      TicksStep(all, k, k', i, i', step, totalDays);
      ColumnsStep(scale, showWeekends, startDate, px, all, k, k');
      columns := columns + [ColumnAt(scale, showWeekends, startDate, px, i)];
      i, k := i', k';
    }
    TicksDone(all, k, i, step, totalDays);
    var lines: seq<real> := [];
    var idx := 0;
    while idx < rowCount
      invariant 0 <= idx && (idx == 0 || idx <= rowCount)
      invariant lines == RowLines(idx)
    {
      assert RowLines(idx + 1) == RowLines(idx) + [RowLineTop(idx)];
      lines := lines + [RowLineTop(idx)];
      idx := idx + 1;
    }
    if rowCount <= 0 {
      assert idx == 0 && RowLines(0) == [] == RowLines(rowCount);
    }
    g := Grid(columns, lines);
  }

  /** Columns tile the grid: column `k` starts at `k * step` days and spans `step` days; only the day layout shades weekends. */
  lemma GridColumnsTile(scale: Scale, showWeekends: bool, startDate: Instant, totalDays: int, px: real, rowCount: int,
                        step: int, k: int)
    requires step == GridStep(scale)
    requires 0 <= k < |GridFor(scale, showWeekends, startDate, totalDays, px, rowCount).columns|
    ensures var c := GridFor(scale, showWeekends, startDate, totalDays, px, rowCount).columns[k];
      c.left == Span(k * step, px) && c.width == Span(step, px)
      && (c.weekend <==> scale.Day? && showWeekends && IsWeekend(DayAt(startDate, k)))
  {
    var ticks := TicksFrom(0, step, totalDays);
    TicksAt(0, step, totalDays, k);
    ColumnsAt(scale, showWeekends, startDate, px, ticks, k);
  }

  /** Spans add up, and a span grows with its days when `px` is not negative. */
  lemma SpanSum(a: int, b: int, px: real)
    ensures Span(a, px) + Span(b, px) == Span(a + b, px)
    ensures px >= 0.0 && b >= 0 ==> Span(a, px) <= Span(a + b, px)
  {
  }

  /** The grid starts at the left edge and its last column reaches the end of the chart. */
  lemma GridCoversChart(scale: Scale, showWeekends: bool, startDate: Instant, totalDays: int, px: real, rowCount: int,
                        step: int)
    requires step == GridStep(scale)
    requires totalDays > 0 && px >= 0.0
    ensures var cs := GridFor(scale, showWeekends, startDate, totalDays, px, rowCount).columns;
      |cs| > 0 && cs[0].left == 0.0 && cs[|cs| - 1].left + cs[|cs| - 1].width >= Span(totalDays, px)
  {
    var ticks := TicksFrom(0, step, totalDays);
    var n := |ticks|;
    TicksCount(0, step, totalDays);
    TicksAt(0, step, totalDays, 0);
    TicksAt(0, step, totalDays, n - 1);
    ColumnsAt(scale, showWeekends, startDate, px, ticks, 0);
    ColumnsAt(scale, showWeekends, startDate, px, ticks, n - 1);
    var last, reach := ticks[n - 1], n * step;
    assert last + step == reach;
    SpanSum(last, step, px);
    SpanSum(totalDays, reach - totalDays, px);
    assert totalDays + (reach - totalDays) == reach;
  }

  // ---------------------------------------------------------------------------
  // Bars and connectors (`renderBars`, `drawDependency`)

  /** A bar's box as stored for the connectors: `w` is the undrawn width `duration * pxPerDay`. */
  datatype Pos = Pos(x: real, y: real, w: real, h: real)

  /** A drawn bar: its id, box (width at least 4 px), colour, progress width in percent, and label. */
  datatype Bar = Bar(id: Option<string>, left: real, top: real, width: real, color: string,
                     progress: Option<int>, caption: Option<string>)

  function PosFor(t: Task, idx: int, startDate: Instant, px: real): Pos {
    Pos(Span(DiffDays(startDate, t.start), px), (idx as real) * RowHeight + BarOffset, Span(t.duration, px), BarHeight)
  }

  /** Four phases have fixed colours; other tasks keep the colour of their `.gan` entry. */
  function BarColor(t: Task): string {
    if t.phase == Some("Conception") then "#3b82f6"
    else if t.phase == Some("Hardware") then "#10b981"
    else if t.phase == Some("Software") then "#8b5cf6"
    else if t.phase == Some("Indus & Certif") then "#f59e0b"
    else t.color
  }

  function BarFor(t: Task, idx: int, startDate: Instant, px: real): Bar {
    var p := PosFor(t, idx, startDate, px);
    Bar(t.id, p.x, p.y, Max(p.w, MinBarWidth), BarColor(t),
        if t.complete > 0 then Some(t.complete) else None, t.responsibleRole)
  }

  function Bars(tasks: seq<Task>, startDate: Instant, px: real): (r: seq<Bar>)
    ensures |r| == |tasks|
  {
    seq(|tasks|, i requires 0 <= i < |tasks| => BarFor(tasks[i], i, startDate, px))
  }

  /** `taskPositions`: boxes by task id, a later task with the same id winning. */
  function Positions(tasks: seq<Task>, startDate: Instant, px: real): map<Option<string>, Pos> {
    if tasks == [] then map[]
    else
      var last := |tasks| - 1;
      Positions(tasks[..last], startDate, px)[tasks[last].id := PosFor(tasks[last], last, startDate, px)]
  }

  /** A horizontal or vertical line of a connector: CSS left, top, width and height. */
  datatype Segment = Segment(left: real, top: real, width: real, height: real)

  /** The three lines and the arrow head `drawDependency` adds. */
  datatype Connector = Connector(out: Segment, across: Segment, into: Segment, arrowLeft: real, arrowTop: real)

  function Abs(x: real): real { if x >= 0.0 then x else -x }

  /** `drawDependency(from, to)`: out of the source's right middle, across at the midpoint, into the target's left middle. */
  function DrawDependency(from: Pos, to: Pos): Connector {
    var x1 := from.x + from.w;
    var y1 := from.y + from.h / 2.0;
    var x2 := to.x;
    var y2 := to.y + to.h / 2.0;
    var midX := x1 + (x2 - x1) / 2.0;
    Connector(
      Segment(x1, y1, midX - x1, 1.0),
      Segment(midX, Min(y1, y2), 1.0, Abs(y2 - y1)),
      Segment(midX, y2, x2 - midX, 1.0),
      x2 - 6.0, y2 - 4.0)
  }

  /**
   * The connector is a connected path from the right middle of the source
   * box to the left middle of the target box, turning half-way across; its
   * horizontal lines have non-negative widths only when the target starts at
   * or after the source's end.
   */
  lemma DrawDependencyPath(from: Pos, to: Pos)
    ensures var c := DrawDependency(from, to);
      var y1 := from.y + from.h / 2.0;
      var y2 := to.y + to.h / 2.0;
      c.out.left == from.x + from.w && c.out.top == y1
      && c.out.left + c.out.width == c.across.left == c.into.left
      && c.into.left + c.into.width == to.x && c.into.top == y2
      && c.out.width == c.into.width
      && c.across.top == Min(y1, y2) && c.across.top + c.across.height == Max(y1, y2)
      && (c.out.width >= 0.0 <==> from.x + from.w <= to.x)
      && c.arrowLeft == to.x - 6.0 && c.arrowTop == y2 - 4.0
  {
  }

  /** The connectors of one task: one per dependency id that names a drawn task, in order. */
  function DependencyConnectors(deps: seq<Option<string>>, target: Pos, positions: map<Option<string>, Pos>)
    : (r: seq<Connector>)
    ensures |r| <= |deps|
  {
    if deps == [] then []
    else
      var dep := deps[|deps| - 1];
      DependencyConnectors(deps[..|deps| - 1], target, positions)
        + (if dep in positions then [DrawDependency(positions[dep], target)] else [])
  }

  function TaskConnectors(t: Task, positions: map<Option<string>, Pos>): seq<Connector> {
    if |t.depends| > 0 && t.id in positions then DependencyConnectors(t.depends, positions[t.id], positions) else []
  }

  function Connectors(tasks: seq<Task>, positions: map<Option<string>, Pos>): seq<Connector> {
    if tasks == [] then []
    else Connectors(tasks[..|tasks| - 1], positions) + TaskConnectors(tasks[|tasks| - 1], positions)
  }

  /** `renderBars`: one bar per task with its box recorded by id, then the connectors of every dependency. */
  method RenderBars(tasks: seq<Task>, startDate: Instant, px: real)
    returns (bars: seq<Bar>, positions: map<Option<string>, Pos>, connectors: seq<Connector>)
    ensures bars == Bars(tasks, startDate, px)
    ensures positions == Positions(tasks, startDate, px)
    ensures connectors == Connectors(tasks, positions)
  {
    bars, positions := [], map[];
    for idx := 0 to |tasks|
      invariant |bars| == idx
      invariant forall k :: 0 <= k < idx ==> bars[k] == BarFor(tasks[k], k, startDate, px)
      invariant positions == Positions(tasks[..idx], startDate, px)
    {
      assert tasks[..idx + 1][..idx] == tasks[..idx];
      bars := bars + [BarFor(tasks[idx], idx, startDate, px)];
      positions := positions[tasks[idx].id := PosFor(tasks[idx], idx, startDate, px)];
    }
    assert tasks[..|tasks|] == tasks;
    connectors := [];
    for i := 0 to |tasks|
      invariant connectors == Connectors(tasks[..i], positions)
    {
      assert tasks[..i + 1][..i] == tasks[..i];
      var own := DrawTaskDependencies(tasks[i], positions);
      connectors := connectors + own;
    }
    assert tasks[..|tasks|] == tasks;
  }

  /** The inner loop of `renderBars`: a task with dependencies and a recorded box gets a connector from each recorded dependency. */
  method DrawTaskDependencies(t: Task, positions: map<Option<string>, Pos>) returns (own: seq<Connector>)
    ensures own == TaskConnectors(t, positions)
  {
    own := [];
    if |t.depends| > 0 && t.id in positions {
      var targetPos := positions[t.id];
      for j := 0 to |t.depends|
        invariant own == DependencyConnectors(t.depends[..j], targetPos, positions)
      {
        assert t.depends[..j + 1][..j] == t.depends[..j];
        var depId := t.depends[j];
        if depId in positions {
          own := own + [DrawDependency(positions[depId], targetPos)];
        }
      }
      assert t.depends[..|t.depends|] == t.depends;
    }
  }

  /** Every task's id has a recorded box, so the page never skips a task for want of one. */
  lemma {:induction false} PositionsHaveEveryTask(tasks: seq<Task>, startDate: Instant, px: real, i: int)
    requires 0 <= i < |tasks|
    ensures tasks[i].id in Positions(tasks, startDate, px)
    decreases |tasks|
  {
    if i < |tasks| - 1 {
      PositionsHaveEveryTask(tasks[..|tasks| - 1], startDate, px, i);
    }
  }

  /** A task whose id no later task repeats has its own box recorded. */
  lemma {:induction false} PositionsLastWins(tasks: seq<Task>, startDate: Instant, px: real, i: int)
    requires 0 <= i < |tasks|
    requires forall j :: i < j < |tasks| ==> tasks[j].id != tasks[i].id
    ensures tasks[i].id in Positions(tasks, startDate, px)
    ensures Positions(tasks, startDate, px)[tasks[i].id] == PosFor(tasks[i], i, startDate, px)
    decreases |tasks|
  {
    if i < |tasks| - 1 {
      PositionsLastWins(tasks[..|tasks| - 1], startDate, px, i);
    }
  }

  /** Each dependency connector joins the box of a listed dependency to the box recorded for the task's id, and every such pair is drawn. */
  lemma {:induction false} DependencyConnectorsMembers(deps: seq<Option<string>>, target: Pos,
                                                       positions: map<Option<string>, Pos>, c: Connector)
    ensures c in DependencyConnectors(deps, target, positions) <==>
      exists j :: 0 <= j < |deps| && deps[j] in positions && c == DrawDependency(positions[deps[j]], target)
    decreases |deps|
  {
    if deps != [] {
      var init := deps[..|deps| - 1];
      DependencyConnectorsMembers(init, target, positions, c);
      if exists j :: 0 <= j < |init| && init[j] in positions && c == DrawDependency(positions[init[j]], target) {
        var j :| 0 <= j < |init| && init[j] in positions && c == DrawDependency(positions[init[j]], target);
        assert deps[j] == init[j];
      }
      if exists j :: 0 <= j < |deps| && deps[j] in positions && c == DrawDependency(positions[deps[j]], target) {
        var j :| 0 <= j < |deps| && deps[j] in positions && c == DrawDependency(positions[deps[j]], target);
        if j < |init| {
          assert init[j] == deps[j];
        }
      }
    }
  }

  /** A connector is drawn exactly for each task and each of its dependency ids that names a drawn task. */
  lemma {:induction false} ConnectorsMembers(tasks: seq<Task>, positions: map<Option<string>, Pos>, c: Connector)
    requires forall i :: 0 <= i < |tasks| ==> tasks[i].id in positions
    ensures c in Connectors(tasks, positions) <==>
      exists i, j :: 0 <= i < |tasks| && 0 <= j < |tasks[i].depends| && tasks[i].depends[j] in positions
        && c == DrawDependency(positions[tasks[i].depends[j]], positions[tasks[i].id])
    decreases |tasks|
  {
    if tasks != [] {
      var init := tasks[..|tasks| - 1];
      var t := tasks[|tasks| - 1];
      ConnectorsMembers(init, positions, c);
      DependencyConnectorsMembers(t.depends, positions[t.id], positions, c);
      if exists i, j :: (0 <= i < |init| && 0 <= j < |init[i].depends| && init[i].depends[j] in positions
                         && c == DrawDependency(positions[init[i].depends[j]], positions[init[i].id])) {
        var i, j :| 0 <= i < |init| && 0 <= j < |init[i].depends| && init[i].depends[j] in positions
          && c == DrawDependency(positions[init[i].depends[j]], positions[init[i].id]);
        assert tasks[i] == init[i];
      }
      if exists i, j :: (0 <= i < |tasks| && 0 <= j < |tasks[i].depends| && tasks[i].depends[j] in positions
                         && c == DrawDependency(positions[tasks[i].depends[j]], positions[tasks[i].id])) {
        var i, j :| 0 <= i < |tasks| && 0 <= j < |tasks[i].depends| && tasks[i].depends[j] in positions
          && c == DrawDependency(positions[tasks[i].depends[j]], positions[tasks[i].id]);
        if i < |init| {
          assert init[i] == tasks[i];
        }
      }
    }
  }

  /**
   * Bar `idx` lies between the row lines above and below it, starts on the
   * day its task starts, and, for a task that ends `duration` days after its
   * start, its box ends on the day the task ends.
   */
  lemma BarGeometry(t: Task, idx: int, startDate: Instant, px: real)
    requires EndMatchesDuration(t)
    ensures var p := PosFor(t, idx, startDate, px);
      (idx as real) * RowHeight < p.y && p.y + p.h < RowLineTop(idx)
      && p.x == Span(DiffDays(startDate, t.start), px)
      && p.x + p.w == Span(DiffDays(startDate, t.end), px)
      && BarFor(t, idx, startDate, px).width >= MinBarWidth
      && BarFor(t, idx, startDate, px).width >= p.w
  {
    var a, b := DiffDays(startDate, t.start), DiffDays(startDate, t.end);
    assert b == a + t.duration;
    SpanSum(a, t.duration, px);
  }

  // ---------------------------------------------------------------------------
  // Today marker

  /** The today marker's left offset, or nothing when today is outside the chart. */
  function TodayMarker(startDate: Instant, endDate: Instant, today: Instant, px: real): Option<real> {
    if startDate <= today <= endDate then Some(Span(DiffDays(startDate, today), px)) else None
  }

  /** A shown marker lies within the chart's width. */
  lemma TodayMarkerInside(startDate: Instant, endDate: Instant, today: Instant, px: real)
    requires px >= 0.0
    ensures TodayMarker(startDate, endDate, today, px).Some? <==> startDate <= today <= endDate
    ensures TodayMarker(startDate, endDate, today, px).Some? ==>
      0.0 <= TodayMarker(startDate, endDate, today, px).value <= Span(DiffDays(startDate, endDate), px)
  {
    if startDate <= today <= endDate {
      DiffDaysMonotone(startDate, startDate, today);
      DiffDaysMonotone(startDate, today, endDate);
      var a, b := DiffDays(startDate, today), DiffDays(startDate, endDate);
      assert 0 <= a <= b;
      SpanSum(a, b - a, px);
      SpanSum(0, a, px);
      assert a + (b - a) == b;
    }
  }

  // ---------------------------------------------------------------------------
  // Zoom and fit

  const MinPxPerUnit: real := 10.0
  const MaxZoomPxPerUnit: real := 200.0
  const MaxFitPxPerUnit: real := 100.0
  const DefaultPxPerUnit: real := 40.0

  /** The zoom-in button: 20 % more pixels per unit, at most 200. */
  function ZoomedIn(p: real): real {
    Min(MaxZoomPxPerUnit, p * 1.2)
  }

  /** The zoom-out button: 20 % fewer pixels per unit, at least 10. */
  function ZoomedOut(p: real): real {
    Max(MinPxPerUnit, p * 0.8)
  }

  /** Zooming keeps the pixels per unit between 10 and 200 and moves them in the button's direction. */
  lemma ZoomStaysInRange(p: real)
    requires MinPxPerUnit <= p <= MaxZoomPxPerUnit
    ensures MinPxPerUnit <= ZoomedIn(p) <= MaxZoomPxPerUnit && MinPxPerUnit <= ZoomedOut(p) <= MaxZoomPxPerUnit
    ensures p <= ZoomedIn(p) && (ZoomedIn(p) == p <==> p == MaxZoomPxPerUnit)
    ensures ZoomedOut(p) <= p && (ZoomedOut(p) == p <==> p == MinPxPerUnit)
  {
  }

  function Clamp(lo: real, hi: real, x: real): real {
    Max(lo, Min(hi, x))
  }

  /** The pixels per unit and the scale `fitView` picks, before clamping: the chart exactly as wide as the panel. */
  function FitUnclamped(totalDays: int, availWidth: real): (Scale, real)
    requires totalDays > 0
  {
    var td := totalDays as real;
    var p := availWidth / td;
    if p < 20.0 then (Month, availWidth / (td / 30.0))
    else if p < 50.0 then (Week, availWidth / (td / 7.0))
    else (Day, p)
  }

  /** `fitView()` for a positive number of days: the chosen scale, and its pixels per unit clamped to [10, 100]. */
  function FitResult(totalDays: int, availWidth: real): (Scale, real)
    requires totalDays > 0
  {
    var (scale, p) := FitUnclamped(totalDays, availWidth);
    (scale, Clamp(MinPxPerUnit, MaxFitPxPerUnit, p))
  }

  /**
   * `fitView` picks months below 20 px per day, weeks below 50, days
   * otherwise; the result lies in [10, 100]; and unless that clamp bites, the
   * whole chart is exactly as wide as the panel.
   */
  lemma FitViewFills(totalDays: int, availWidth: real)
    requires totalDays > 0
    ensures var (scale, p) := FitResult(totalDays, availWidth);
      var perDay := availWidth / (totalDays as real);
      (scale == Month <==> perDay < 20.0)
      && (scale == Week <==> 20.0 <= perDay < 50.0)
      && (scale == Day <==> 50.0 <= perDay)
      && MinPxPerUnit <= p <= MaxFitPxPerUnit
      && (p == FitUnclamped(totalDays, availWidth).1 ==> (totalDays as real) * PxPerDay(scale, p, 1.0) == availWidth)
  {
    var td := totalDays as real;
    var (scale, raw) := FitUnclamped(totalDays, availWidth);
    if scale == Month {
      assert raw * (td / 30.0) == availWidth;
      assert td * (raw / 30.0) == raw * (td / 30.0);
    } else if scale == Week {
      assert raw * (td / 7.0) == availWidth;
      assert td * (raw / 7.0) == raw * (td / 7.0);
    } else {
      assert raw * td == availWidth;
    }
  }
}
