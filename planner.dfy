/**
 * The planning page's `state` object and the handlers that change it:
 * loading a `.gan` file, fitting, zooming and switching the scale, toggling
 * weekends, and the task editor (`openEditModal` fills it, `saveTask` writes
 * it back). Rendering reads the state and yields the chart layout.
 *
 * The browser's inputs are parameters: the parsed document, the current
 * time `now`, the timeline panel's width, the search box text, and the
 * values of the editor's fields.
 */
module Planner {
  import opened JsValues
  import opened Calendar
  import opened PlanDocument
  import opened PlanLoader
  import opened StableSort
  import opened TaskFilter
  import opened Timeline

  // ---------------------------------------------------------------------------
  // What a load computes

  /** `state.resources` after loading `doc`. */
  function LoadedResources(doc: Document): seq<Resource> {
    Resources(doc.resources, RoleMap(doc.roles))
  }

  /** The task records `doc` yields, in document order, before sorting. */
  function ParsedTasks(doc: Document): seq<Task> {
    ParseAll(Entries(doc.tasks), Allocations(doc.allocations), ResMap(LoadedResources(doc)))
  }

  /** What `loadGanFile` stores: the resources, the sorted tasks, and the chart's bounds. */
  datatype Loaded = Loaded(resources: seq<Resource>, tasks: seq<Task>, startDate: Instant, endDate: Instant)

  function LoadResult(doc: Document, now: Instant): Loaded {
    var parsed := ParsedTasks(doc);
    Loaded(LoadedResources(doc), SortByStart(parsed), PlanStart(parsed, now), PlanEnd(parsed, now))
  }

  /** Every loaded task ends `duration` days after it starts. */
  lemma LoadedTasksEnd(doc: Document, now: Instant)
    ensures forall t :: t in LoadResult(doc, now).tasks ==> EndMatchesDuration(t)
  {
    var parsed := ParsedTasks(doc);
    ParseAllEnds(Entries(doc.tasks), Allocations(doc.allocations), ResMap(LoadedResources(doc)));
    SortByStartProperties(parsed);
    forall t | t in SortByStart(parsed)
      ensures EndMatchesDuration(t)
    {
      assert t in multiset(SortByStart(parsed));
    }
  }

  /** The body of `loadGanFile` up to the state update: the role map, resources, allocations and tasks, sorted, with their bounds. */
  method LoadDocument(doc: Document, now: Instant) returns (r: Loaded)
    ensures r == LoadResult(doc, now)
    ensures forall t :: t in r.tasks ==> EndMatchesDuration(t)
  {
    var roleMap := BuildRoleMap(doc.roles);
    var res, resMap := BuildResources(doc.resources, roleMap);
    var allocs := BuildAllocations(doc.allocations);
    var parsed, minDate, maxDate := BuildTasks(doc.tasks, allocs, resMap);
    assert parsed == ParsedTasks(doc);
    LoadedTasksEnd(doc, now);
    r := Loaded(res, SortByStart(parsed), AddDays(minDate.GetOr(now), -7), AddDays(maxDate.GetOr(now), 14));
  }

  /** When no task runs backwards, the loaded chart spans at least three weeks, so `fitView` always fits it. */
  lemma ChartSpansThreeWeeks(tasks: seq<Task>, now: Instant)
    requires forall t :: t in tasks ==> EndMatchesDuration(t) && t.duration >= 0
    ensures DiffDays(PlanStart(tasks, now), PlanEnd(tasks, now)) >= 21
  {
    var lo, hi := MinStart(tasks).GetOr(now), MaxEnd(tasks).GetOr(now);
    if tasks != [] {
      var i :| 0 <= i < |tasks| && tasks[i].start == lo;
      var t := tasks[i];
      assert DiffDays(t.start, t.end) == t.duration;
      DiffDaysMonotone(lo, t.end, hi);
    }
    assert DiffDays(lo, hi) >= 0;
    assert DiffDays(PlanStart(tasks, now), PlanEnd(tasks, now)) == DiffDays(lo, hi) + 21;
  }

  // ---------------------------------------------------------------------------
  // The task editor

  /**
   * An input of the editor's resource list: the `data-resid` text it carries
   * (`"null"` for a resource without an id) and `parseFloat` of its value.
   */
  datatype FormRow = FormRow(resId: string, load: Option<real>)

  /**
   * The editor's fields as `saveTask` reads them: the id, the name, the
   * instant `new Date` gives for the start field, the two integer fields,
   * `parseFloat` of the cost field (`None` for `NaN`), and the resource rows.
   */
  datatype EditForm = EditForm(
    id: string,
    name: string,
    start: Instant,
    duration: int,
    complete: int,
    cost: Option<real>,
    rows: seq<FormRow>)

  /** `trs.findIndex(tr => tr.id === id)`. */
  function FirstWithId(trs: seq<TaskResource>, id: Option<string>): int {
    FindIndex(trs, (tr: TaskResource) => tr.id == id)
  }

  /** The load a resource row shows: the first assignment of that resource to the task, else 0. */
  function AssignedLoad(t: Task, id: Option<string>): real {
    var j := FirstWithId(t.resources, id);
    if j >= 0 then t.resources[j].load else 0.0
  }

  /** One row per resource of the plan, in the plan's order, showing the task's load on it. */
  function EditorRows(resources: seq<Resource>, t: Task): (rows: seq<FormRow>)
    ensures |rows| == |resources|
  {
    seq(|resources|, i requires 0 <= i < |resources| =>
      FormRow(IdText(resources[i].id), Some(AssignedLoad(t, resources[i].id))))
  }

  /** The editor as `openEditModal` fills it; an absent id or name shows as an empty field. */
  function EditorFor(resources: seq<Resource>, t: Task): EditForm {
    EditForm(t.id.GetOr(""), t.name.GetOr(""), StartOfDay(t.start), t.duration, t.complete, Some(t.cost),
             EditorRows(resources, t))
  }

  /** `resources.findIndex(r => r.id === id)` for the text of a `data-resid`. */
  function FindResource(resources: seq<Resource>, id: string): int {
    FindIndex(resources, (r: Resource) => r.id == Some(id))
  }

  predicate Positive(load: Option<real>) {
    load.Some? && load.value > 0.0
  }

  /** Every row with a positive load names a resource of the plan (otherwise `saveTask` throws). */
  predicate RowsKnown(rows: seq<FormRow>, resources: seq<Resource>) {
    forall i :: 0 <= i < |rows| && Positive(rows[i].load) ==> FindResource(resources, rows[i].resId) >= 0
  }

  /** The entry `saveTask` pushes for a row with a positive load; it has no `responsible` flag. */
  function SavedResource(row: FormRow, resources: seq<Resource>): TaskResource
    requires Positive(row.load) && FindResource(resources, row.resId) >= 0
  {
    var r := resources[FindResource(resources, row.resId)];
    TaskResource(Some(row.resId), r.name, r.roleName, row.load.value, false)
  }

  /** The task's new resource list: one entry per row with a positive load, in row order. */
  function SavedResources(rows: seq<FormRow>, resources: seq<Resource>): (r: seq<TaskResource>)
    requires RowsKnown(rows, resources)
    ensures |r| <= |rows|
  {
    if rows == [] then []
    else
      var last := rows[|rows| - 1];
      SavedResources(rows[..|rows| - 1], resources)
      + (if Positive(last.load) then [SavedResource(last, resources)] else [])
  }

  /** `parseFloat(cost) || 0`. */
  function CostOf(cost: Option<real>): real {
    cost.GetOr(0.0)
  }

  /** The task after `saveTask` writes the editor into it. */
  function EditedTask(t: Task, form: EditForm, resources: seq<Resource>): Task
    requires RowsKnown(form.rows, resources)
  {
    var start := StartOfDay(form.start);
    t.(name := Some(form.name), start := start, duration := form.duration,
       end := AddDays(start, form.duration), complete := form.complete,
       cost := CostOf(form.cost), resources := SavedResources(form.rows, resources))
  }

  /** `tasks.findIndex(t => t.id === id)`. */
  function FindTask(tasks: seq<Task>, id: string): int {
    FindIndex(tasks, (t: Task) => t.id == Some(id))
  }

  /**
   * A saved task again ends `duration` days after its (midnight) start, its
   * resources are the rows with a positive load, and its id, phase, colour,
   * dependencies and responsible role are untouched.
   */
  lemma EditedTaskProperties(t: Task, form: EditForm, resources: seq<Resource>)
    requires RowsKnown(form.rows, resources)
    ensures var e := EditedTask(t, form, resources);
      EndMatchesDuration(e) && e.start == StartOfDay(form.start) && e.start % MsPerDay == 0
      && e.id == t.id && e.phase == t.phase && e.color == t.color && e.depends == t.depends
      && e.responsibleRole == t.responsibleRole
      && (forall k :: 0 <= k < |e.resources| ==> e.resources[k].load > 0.0 && !e.resources[k].responsible)
  {
    SavedResourcesPositive(form.rows, resources);
  }

  lemma {:induction false} SavedResourcesPositive(rows: seq<FormRow>, resources: seq<Resource>)
    requires RowsKnown(rows, resources)
    ensures forall k :: 0 <= k < |SavedResources(rows, resources)| ==>
      SavedResources(rows, resources)[k].load > 0.0 && !SavedResources(rows, resources)[k].responsible
      && SavedResources(rows, resources)[k].id.Some?
      && FindResource(resources, SavedResources(rows, resources)[k].id.value) >= 0
    decreases |rows|
  {
    if rows != [] {
      var init := rows[..|rows| - 1];
      assert RowsKnown(init, resources) by {
        forall i | 0 <= i < |init| && Positive(init[i].load)
          ensures FindResource(resources, init[i].resId) >= 0
        {
          assert init[i] == rows[i];
        }
      }
      SavedResourcesPositive(init, resources);
    }
  }

  /** The plan's resources that the task has a positive load on, in the plan's order, named from the plan. */
  function KeptAssignments(resources: seq<Resource>, t: Task): seq<TaskResource> {
    if resources == [] then []
    else
      var r := resources[|resources| - 1];
      var load := AssignedLoad(t, r.id);
      KeptAssignments(resources[..|resources| - 1], t)
      + (if load > 0.0 then [TaskResource(r.id, r.name, r.roleName, load, false)] else [])
  }

  predicate DistinctIds(resources: seq<Resource>) {
    forall i, j :: 0 <= i < j < |resources| ==> resources[i].id != resources[j].id
  }

  /** Every resource of the plan carries an id. */
  predicate AllIdentified(resources: seq<Resource>) {
    forall i :: 0 <= i < |resources| ==> resources[i].id.Some?
  }

  /** When every resource carries an id, the rows the editor opens with name resources of the plan. */
  lemma EditorRowsKnown(resources: seq<Resource>, t: Task)
    requires AllIdentified(resources)
    ensures RowsKnown(EditorRows(resources, t), resources)
  {
    var rows := EditorRows(resources, t);
    forall i | 0 <= i < |rows| && Positive(rows[i].load)
      ensures FindResource(resources, rows[i].resId) >= 0
    {
      assert resources[i].id == Some(rows[i].resId);
    }
  }

  /**
   * A resource without an id gets the row `"null"`, which names no resource
   * (unless one is literally called "null"): once the task has a positive
   * load on it, saving the editor unchanged would throw.
   */
  lemma {:induction false} EditorRowWithoutId(resources: seq<Resource>, t: Task, i: int)
    requires 0 <= i < |resources| && resources[i].id.None? && AssignedLoad(t, None) > 0.0
    requires forall j :: 0 <= j < |resources| ==> resources[j].id != Some("null")
    ensures !RowsKnown(EditorRows(resources, t), resources)
  {
    var rows := EditorRows(resources, t);
    assert rows[i] == FormRow("null", Some(AssignedLoad(t, None)));
    assert Positive(rows[i].load);
    assert FindResource(resources, rows[i].resId) == -1;
  }

  lemma {:induction false} SavedUneditedPrefix(resources: seq<Resource>, t: Task, k: int)
    requires DistinctIds(resources) && AllIdentified(resources) && 0 <= k <= |resources|
    ensures RowsKnown(EditorRows(resources, t)[..k], resources)
    ensures SavedResources(EditorRows(resources, t)[..k], resources) == KeptAssignments(resources[..k], t)
    decreases k
  {
    var rows := EditorRows(resources, t);
    assert RowsKnown(rows[..k], resources) by {
      forall i | 0 <= i < k && Positive(rows[..k][i].load)
        ensures FindResource(resources, rows[..k][i].resId) >= 0
      {
        assert rows[..k][i] == rows[i];
      }
    }
    if k > 0 {
      SavedUneditedPrefix(resources, t, k - 1);
      assert rows[..k][..k - 1] == rows[..k - 1];
      assert resources[..k][..k - 1] == resources[..k - 1];
      var row := rows[k - 1];
      assert row == FormRow(IdText(resources[k - 1].id), Some(AssignedLoad(t, resources[k - 1].id)));
      assert resources[k - 1].id == Some(row.resId);
      assert FindResource(resources, row.resId) == k - 1;
    }
  }

  /**
   * Opening the editor on a task and saving it unchanged keeps its name,
   * duration, progress and cost, moves its start to midnight, and replaces
   * its resource list with the plan's resources it has a positive load on,
   * in the plan's order, with no responsible flag.
   */
  lemma SaveUnedited(resources: seq<Resource>, t: Task)
    requires DistinctIds(resources) && AllIdentified(resources) && t.name.Some?
    ensures RowsKnown(EditorFor(resources, t).rows, resources)
    ensures EditedTask(t, EditorFor(resources, t), resources)
         == t.(start := StartOfDay(t.start), end := AddDays(StartOfDay(t.start), t.duration),
               resources := KeptAssignments(resources, t))
  {
    var rows := EditorRows(resources, t);
    EditorRowsKnown(resources, t);
    SavedUneditedPrefix(resources, t, |resources|);
    assert rows[..|resources|] == rows;
    assert resources[..|resources|] == resources;
    assert StartOfDay(StartOfDay(t.start)) == StartOfDay(t.start);
  }

  // ---------------------------------------------------------------------------
  // The chart

  /** What `renderTimeline` draws: sizes, header, grid, bars, connectors, and the today marker. */
  datatype Layout = Layout(
    width: real,
    height: real,
    header: Header,
    grid: Grid,
    bars: seq<Bar>,
    connectors: seq<Connector>,
    today: Option<real>)

  /** The chart for the shown tasks. */
  function LayoutFor(shown: seq<Task>, scale: Scale, px: real, showWeekends: bool,
                     startDate: Instant, endDate: Instant, totalDays: int, today: Instant): Layout
  {
    Layout(Span(totalDays, px), (|shown| as real) * RowHeight,
           HeaderFor(scale, startDate, totalDays, px),
           GridFor(scale, showWeekends, startDate, totalDays, px, |shown|),
           Bars(shown, startDate, px),
           Connectors(shown, Positions(shown, startDate, px)),
           TodayMarker(startDate, endDate, today, px))
  }

  /**
   * The chart has one bar and one row line per shown task; bar `k` sits
   * inside row `k`, whose line is the grid's bottom for the last row; the
   * grid is as high as the rows.
   */
  lemma LayoutRows(shown: seq<Task>, scale: Scale, px: real, showWeekends: bool,
                   startDate: Instant, endDate: Instant, totalDays: int, today: Instant, k: int)
    requires 0 <= k < |shown|
    ensures var l := LayoutFor(shown, scale, px, showWeekends, startDate, endDate, totalDays, today);
      |l.bars| == |l.grid.rowLines| == |shown|
      && l.grid.rowLines[|shown| - 1] == l.height
      && (k == 0 || l.grid.rowLines[k - 1] < l.bars[k].top)
      && l.bars[k].top + BarHeight < l.grid.rowLines[k]
  {
    var l := LayoutFor(shown, scale, px, showWeekends, startDate, endDate, totalDays, today);
    RowLinesAt(|shown|, |shown| - 1);
    RowLinesAt(|shown|, k);
    if k > 0 {
      RowLinesAt(|shown|, k - 1);
    }
    assert l.bars[k] == BarFor(shown[k], k, startDate, px);
  }

  // ---------------------------------------------------------------------------
  // The page state

  class Planner {
    var tasks: seq<Task>
    var resources: seq<Resource>
    var scale: Scale
    var pxPerUnit: real
    var zoomLevel: real
    var showWeekends: bool
    var startDate: Instant
    var endDate: Instant
    var totalDays: int

    /**
     * What every handler keeps: pixels per unit within the zoom range, the
     * zoom level at 1, the day count matching the bounds, and every task
     * ending `duration` days after its start.
     */
    predicate Valid()
      reads this
    {
      MinPxPerUnit <= pxPerUnit <= MaxZoomPxPerUnit
      && zoomLevel == 1.0
      && totalDays == DiffDays(startDate, endDate)
      && forall t :: t in tasks ==> EndMatchesDuration(t)
    }

    /** The state when the page opens, `now` being the time of `new Date()`. */
    constructor(now: Instant)
      ensures tasks == [] && resources == [] && scale == Day && pxPerUnit == DefaultPxPerUnit
      ensures zoomLevel == 1.0 && showWeekends && startDate == now && endDate == now && totalDays == 0
      ensures Valid()
    {
      tasks, resources := [], [];
      scale, pxPerUnit, zoomLevel, showWeekends := Day, DefaultPxPerUnit, 1.0, true;
      startDate, endDate, totalDays := now, now, 0;
    }

    /** `getPxPerDay()`. */
    function PxPerDayNow(): real
      reads this
    {
      PxPerDay(scale, pxPerUnit, zoomLevel)
    }

    /**
     * `fitView()`: for a non-empty chart, reset the zoom and pick the scale and
     * pixels per unit that make the chart as wide as the panel, clamped to
     * [10, 100].
     */
    method FitView(availWidth: real)
      requires Valid()
      modifies this
      ensures Valid()
      ensures tasks == old(tasks) && resources == old(resources) && showWeekends == old(showWeekends)
      ensures startDate == old(startDate) && endDate == old(endDate) && totalDays == old(totalDays)
      ensures totalDays <= 0 ==> scale == old(scale) && pxPerUnit == old(pxPerUnit)
      ensures totalDays > 0 ==> (scale, pxPerUnit) == FitResult(totalDays, availWidth)
    {
      if totalDays <= 0 {
        return;
      }
      var td := totalDays as real;
      zoomLevel := 1.0;
      pxPerUnit := availWidth / td;
      if pxPerUnit < 20.0 {
        scale := Month;
        pxPerUnit := availWidth / (td / 30.0);
      } else if pxPerUnit < 50.0 {
        scale := Week;
        pxPerUnit := availWidth / (td / 7.0);
      } else {
        scale := Day;
      }
      pxPerUnit := Max(MinPxPerUnit, Min(MaxFitPxPerUnit, pxPerUnit));
    }

    /**
     * `loadGanFile(text)` once the XML is parsed: a parser error changes
     * nothing; otherwise the resources and the start-sorted tasks replace the
     * old ones, the bounds become a week before the earliest start and two
     * weeks after the latest end (or around `now`), and the view is fitted.
     * The page is re-rendered before the fit, with the search box's `query`:
     * when that filter throws on a loaded task, the load stays but the fit
     * is skipped.
     */
    method LoadGanFile(xml: XmlResult, now: Instant, availWidth: real, query: string)
      requires Valid()
      modifies this
      ensures Valid()
      ensures xml.ParserError? ==> unchanged(this)
      ensures xml.Parsed? ==>
        Loaded(resources, tasks, startDate, endDate) == LoadResult(xml.doc, now)
        && totalDays == DiffDays(startDate, endDate)
        && showWeekends == old(showWeekends)
        && (Filterable(tasks, query) && totalDays > 0 ==> (scale, pxPerUnit) == FitResult(totalDays, availWidth))
        && (!Filterable(tasks, query) || totalDays <= 0 ==> scale == old(scale) && pxPerUnit == old(pxPerUnit))
    {
      if xml.ParserError? {
        return;
      }
      var r := LoadDocument(xml.doc, now);
      Install(r);
      if Filterable(tasks, query) {
        FitView(availWidth);
      }
    }

    /** The state update of `loadGanFile`: the loaded resources, tasks and bounds replace the old ones. */
    method Install(r: Loaded)
      requires Valid()
      requires forall t :: t in r.tasks ==> EndMatchesDuration(t)
      modifies this
      ensures Valid()
      ensures Loaded(resources, tasks, startDate, endDate) == r
      ensures totalDays == DiffDays(startDate, endDate)
      ensures scale == old(scale) && pxPerUnit == old(pxPerUnit) && showWeekends == old(showWeekends)
    {
      resources, tasks := r.resources, r.tasks;
      startDate, endDate, totalDays := r.startDate, r.endDate, DiffDays(r.startDate, r.endDate);
    }

    /** A scale button: the button's scale, and the base 40 pixels per unit. */
    method SetScale(name: string)
      requires Valid()
      modifies this
      ensures Valid()
      ensures scale == ScaleOf(name) && pxPerUnit == DefaultPxPerUnit
      ensures tasks == old(tasks) && resources == old(resources) && showWeekends == old(showWeekends)
      ensures startDate == old(startDate) && endDate == old(endDate) && totalDays == old(totalDays)
    {
      scale := ScaleOf(name);
      pxPerUnit := DefaultPxPerUnit;
    }

    /** The zoom-in button. */
    method ZoomIn()
      requires Valid()
      modifies this
      ensures Valid()
      ensures pxPerUnit == ZoomedIn(old(pxPerUnit)) && scale == old(scale)
      ensures tasks == old(tasks) && resources == old(resources) && showWeekends == old(showWeekends)
      ensures startDate == old(startDate) && endDate == old(endDate) && totalDays == old(totalDays)
    {
      ZoomStaysInRange(pxPerUnit);
      pxPerUnit := Min(MaxZoomPxPerUnit, pxPerUnit * 1.2);
    }

    /** The zoom-out button. */
    method ZoomOut()
      requires Valid()
      modifies this
      ensures Valid()
      ensures pxPerUnit == ZoomedOut(old(pxPerUnit)) && scale == old(scale)
      ensures tasks == old(tasks) && resources == old(resources) && showWeekends == old(showWeekends)
      ensures startDate == old(startDate) && endDate == old(endDate) && totalDays == old(totalDays)
    {
      ZoomStaysInRange(pxPerUnit);
      pxPerUnit := Max(MinPxPerUnit, pxPerUnit * 0.8);
    }

    /** The weekends button. */
    method ToggleWeekends()
      requires Valid()
      modifies this
      ensures Valid()
      ensures showWeekends == !old(showWeekends)
      ensures tasks == old(tasks) && resources == old(resources) && scale == old(scale) && pxPerUnit == old(pxPerUnit)
      ensures startDate == old(startDate) && endDate == old(endDate) && totalDays == old(totalDays)
    {
      showWeekends := !showWeekends;
    }

    /** `renderTimeline()` with the search box holding `query` and the clock at `today`. */
    method RenderTimeline(query: string, today: Instant) returns (layout: Layout)
      requires Needle(query) != "" ==> AllTestable(tasks, Needle(query))
      ensures layout == LayoutFor(FilteredTasks(tasks, query), scale, PxPerDayNow(), showWeekends,
                                  startDate, endDate, totalDays, today)
    {
      var shown := FilteredTasks(tasks, query);
      var px := PxPerDay(scale, pxPerUnit, zoomLevel);
      var header := RenderHeaderScales(scale, startDate, totalDays, px);
      var grid := RenderGridBackground(scale, showWeekends, startDate, totalDays, px, |shown|);
      var bars, positions, connectors := RenderBars(shown, startDate, px);
      layout := Layout(Span(totalDays, px), (|shown| as real) * RowHeight, header, grid, bars, connectors,
                       TodayMarker(startDate, endDate, today, px));
    }

    /** `openEditModal(task)`: the editor's fields, with one resource row per resource of the plan. */
    method OpenEditModal(t: Task) returns (form: EditForm)
      ensures form == EditorFor(resources, t)
    {
      var rows: seq<FormRow> := [];
      for i := 0 to |resources|
        invariant rows == EditorRows(resources[..i], t)
      {
        var r := resources[i];
        var j := FirstWithId(t.resources, r.id);
        var load := if j >= 0 then t.resources[j].load else 0.0;
        rows := rows + [FormRow(IdText(r.id), Some(load))];
      }
      assert resources[..|resources|] == resources;
      form := EditForm(t.id.GetOr(""), t.name.GetOr(""), StartOfDay(t.start), t.duration, t.complete,
                       Some(t.cost), rows);
    }

    /**
     * `saveTask()`: the first task whose id is the editor's id takes the
     * editor's values; without such a task nothing changes. Neither the order
     * of the tasks nor the chart's bounds are recomputed.
     */
    method SaveTask(form: EditForm)
      requires Valid()
      requires RowsKnown(form.rows, resources)
      modifies this
      ensures Valid()
      ensures resources == old(resources) && scale == old(scale) && pxPerUnit == old(pxPerUnit)
      ensures FindTask(old(tasks), form.id) == -1 ==> tasks == old(tasks)
      ensures FindTask(old(tasks), form.id) >= 0 ==>
        var i := FindTask(old(tasks), form.id);
        tasks == old(tasks)[i := EditedTask(old(tasks)[i], form, resources)]
      ensures showWeekends == old(showWeekends)
      ensures startDate == old(startDate) && endDate == old(endDate) && totalDays == old(totalDays)
    {
      var i := FindTask(tasks, form.id);
      if i < 0 {
        return;
      }
      var t := tasks[i];
      var start := StartOfDay(form.start);
      var newResources: seq<TaskResource> := [];
      for j := 0 to |form.rows|
        invariant RowsKnown(form.rows[..j], resources)
        invariant newResources == SavedResources(form.rows[..j], resources)
      {
        assert form.rows[..j + 1][..j] == form.rows[..j];
        assert form.rows[..j + 1][j] == form.rows[j];
        var row := form.rows[j];
        if Positive(row.load) {
          var r := resources[FindResource(resources, row.resId)];
          newResources := newResources + [TaskResource(Some(row.resId), r.name, r.roleName, row.load.value, false)];
        }
      }
      assert form.rows[..|form.rows|] == form.rows;
      var edited := t.(name := Some(form.name), start := start, duration := form.duration,
                       end := AddDays(start, form.duration), complete := form.complete,
                       cost := CostOf(form.cost), resources := newResources);
      assert edited == EditedTask(t, form, resources);
      tasks := tasks[i := edited];
    }
  }
}
