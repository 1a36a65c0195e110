# SmartCool Intranet — planning, Gantt and dashboard core in Dafny

SmartCool Intranet is a small project-management intranet. This project
models its core in Dafny and proves properties of the model:

- **The planning page** (`public/js/planning.js`) loads a GanttProject `.gan`
  file into a `state` object. The file holds roles, resources, allocations,
  and phases that contain tasks. The page draws a Gantt chart from that
  state: a two-row time header, a background grid, one bar per task, and an
  L-shaped connector per dependency. Its handlers fit, zoom and re-scale the
  chart, toggle weekend shading, filter tasks by a search text, and edit a
  task in a modal.
- **The Gantt API** (`api/gantt.js`) lists the stored tasks. Tasks without a
  numeric id get fresh ids. The API also creates a task from a POST body,
  picking a colour from its status or phase.
- **The dashboard API** (`api/dashboard.js`) returns the three most severe
  risks, ranked by a score of their impact and probability levels, and the
  budget's `Total` amount.
- **The risks API** (`api/risks.js`) turns numeric probability and impact
  into High/Medium/Low levels. It fills missing descriptive fields with `N/A`.
- **The sidebar** (`public/js/sidebar.js`) normalises URLs to page names. It
  marks exactly the navigation link of the current page as active.

Modules, one per file:

- `JsValues` holds JavaScript's truthiness, `||` defaults, and the string
  helpers used by the core.
- `Calendar` holds local-time days and the date arithmetic. It has a
  proleptic Gregorian calendar and the ISO week number.
- `PlanDocument` is the parsed `.gan` tree. `PlanLoader` is `loadGanFile`
  and `parseTaskNode`.
- `StableSort` is the stable sort that `Array.prototype.sort` performs.
- `TaskFilter` is the search filter.
- `Timeline` holds the header, grid, bar and connector geometry, plus the
  zoom and fit arithmetic.
- `Planner` holds the page `state` as a class and its handlers.
- `GanttApi`, `Dashboard`, `Risks` and `Sidebar` are the other four
  components.

Instants are local milliseconds (`int`) and a day is 86 400 000 ms. Pixel
arithmetic is on `real`.

## Model

| member | source | states |
|---|---|---|
| JsValues.OrElse | api/risks.js:24-28 | `x \|\| d` is either the stored text or the default, and it is empty only when both are: a non-empty default such as `N/A` never leaves a field empty |
| JsValues.FindIndex | public/js/planning.js:695 | `find`/`findIndex`: the first index whose element satisfies the test, -1 when none does (also the resource lookup at line 712, the assignment lookup at 672, the responsible entry at 180, and the `Total` entry in api/dashboard.js line 18) |
| JsValues.ToLower | public/js/planning.js:233 | keeps the length, leaves no ASCII upper-case letter, shifts each upper-case letter to its lower-case partner and leaves every other character alone |
| JsValues.ToLowerIdempotent | public/js/planning.js:237-239 | lower-casing twice is lower-casing once |
| JsValues.Trim | public/js/planning.js:233 | the result is a substring of the input, starts and ends with non-whitespace, and is empty only for an all-whitespace input |
| JsValues.TrimStart | public/js/planning.js:233 | drops exactly the leading whitespace |
| JsValues.TrimEnd | public/js/planning.js:233 | drops exactly the trailing whitespace |
| JsValues.Contains | public/js/planning.js:237-239 | `includes` holds iff the needle occurs at some index |
| JsValues.BeforeFirst | public/js/sidebar.js:32 | `split(sep)[0]`: the longest prefix without the separator, followed by the separator when shorter than the input |
| JsValues.AfterLast | public/js/sidebar.js:32 | `split(sep).pop()`: the longest suffix without the separator, preceded by the separator when shorter than the input |
| JsValues.SecondField | public/js/planning.js:107 | `split(sep)[1]`: absent iff the separator does not occur, otherwise the text between the first and second separator |
| Calendar.StartOfDay | public/js/planning.js:57-61 | midnight of the same day, at or before the instant and less than a day before it |
| Calendar.AddDays | public/js/planning.js:52-56 | moves the day number by `n` and keeps the time of day |
| Calendar.JsRound | public/js/planning.js:63 | `Math.round`: the integer nearest to x, halves rounded up |
| Calendar.DiffDays | public/js/planning.js:62-64 | the difference of the two day numbers |
| Calendar.DiffDaysAddDays | public/js/planning.js:52-64 | `diffDays(a, addDays(a, n)) == n`, and adding `-n` undoes adding `n` |
| Calendar.DiffDaysMonotone | public/js/planning.js:62-64 | a later second instant never gives fewer days |
| Calendar.ThursdayOf | public/js/planning.js:66-68 | the Thursday of the day's Monday-to-Sunday week, within three days of it |
| Calendar.YearOf | public/js/planning.js:69 | the calendar year whose first day is at or before the day and whose next year starts after it |
| Calendar.YearOfUnique | public/js/planning.js:69 | that year is the only one containing the day |
| Calendar.YearOfMonotone | public/js/planning.js:69 | later days never lie in earlier years |
| Calendar.MonthOf | public/js/planning.js:333-334 | `getMonth()`: the month whose day range contains the day of the year |
| Calendar.DayOfMonth | public/js/planning.js:328 | `getDate()`: 1 to 31, counted from the month's first day |
| Calendar.MonthFromUnique | public/js/planning.js:333-334 | the month of a day of the year is the only month containing it |
| Calendar.MonthChangeIff | public/js/planning.js:333-334 | within 28 days, the month changes between two days iff the later day's day of the month is at most their distance |
| Calendar.MonthChangesBeforeMonthStart | public/js/planning.js:361-362 | a day at least its day-of-month (and at most 28) days earlier is in another month |
| Calendar.WeekNumberIsIso | public/js/planning.js:65-79 | `getWeekNumber` is one plus the whole weeks from the year's first Thursday to the day's Thursday, as ISO 8601 defines the week |
| Calendar.WeekNumberRange | public/js/planning.js:65-79 | the week number lies in 1..53 |
| Calendar.FirstThursdayUnique | public/js/planning.js:69-77 | a year has exactly one first Thursday, and it is the Thursday of 4 January's week |
| StableSort.SortByKeySorted | public/js/planning.js:206 | the sorted sequence is in non-decreasing key order |
| StableSort.SortByKeyPermutes | public/js/planning.js:206 | the sorted sequence is a permutation of the input |
| StableSort.SortByKeyStable | api/dashboard.js:21-26 | elements with equal keys keep their input order |
| PlanLoader.BuildRoleMap | public/js/planning.js:93-96 | the loop builds the role map, id to name, a later role overwriting an earlier one |
| PlanLoader.RoleMapLastWins | public/js/planning.js:94-96 | a role's name is in the map unless a later role has the same id |
| PlanLoader.RoleMapKeys | public/js/planning.js:94-96 | the map's keys are exactly the roles' ids |
| PlanLoader.RoleIdOf | public/js/planning.js:107 | `func.split(":")[1]` for a `Default:` function is the text after `Default:` up to the next colon |
| PlanLoader.RoleNameFor | public/js/planning.js:105-109 | the role's name when the function is `Default:<id>` with a known id, `Intervenant` otherwise |
| PlanLoader.BuildResources | public/js/planning.js:99-112 | the loop yields one resource per node in order and the id map, later entries winning |
| PlanLoader.ResMapLastWins | public/js/planning.js:110 | a resource is found by its id unless a later resource has the same id |
| PlanLoader.BuildAllocations | public/js/planning.js:116-124 | the loop yields one allocation per node, in order |
| PlanLoader.TaskResourcesFromAllocations | public/js/planning.js:166-176 | every resource entry of a task comes from an allocation of that task, with the allocation's resource id, load and responsible flag, and the name and role of that resource in the plan, or `Unknown` with an empty role when the plan has no such resource |
| PlanLoader.ResponsibleRole | public/js/planning.js:179-181 | the first responsible resource's role, else the first resource's role, else `-` |
| PlanLoader.ParseTask | public/js/planning.js:149-203 | a node yields a task iff it has a start; the task starts at midnight of that start's day and `diffDays(start, end)` is its duration; a missing duration is 1 day and a missing progress 0; an empty or missing colour becomes the default blue |
| PlanLoader.RootEntries | public/js/planning.js:133-146 | a root without descendant tasks is parsed itself; otherwise each descendant task is parsed, in document order; all with the root's name as phase |
| PlanLoader.EntriesPhase | public/js/planning.js:133-146 | every parsed entry's phase is the name of some root task |
| PlanLoader.ParseAllEnds | public/js/planning.js:159-160 | every loaded task ends `duration` days after its start |
| PlanLoader.ParseAllConcat | public/js/planning.js:133-147 | parsing a concatenation is concatenating the parses |
| PlanLoader.ParseAllCount | public/js/planning.js:157 | exactly the entries with a start become tasks |
| PlanLoader.MinStart | public/js/planning.js:162 | the earliest start, which is some task's start, and none for no tasks |
| PlanLoader.MaxEnd | public/js/planning.js:163 | the latest end, which is some task's end, and none for no tasks |
| PlanLoader.BuildTasks | public/js/planning.js:127-147 | the loop over root tasks yields all parsed tasks and the running minimum start and maximum end |
| PlanLoader.ParseRoot | public/js/planning.js:133-147 | one root's tasks are appended and the running bounds stay the minimum start and maximum end |
| PlanLoader.ParseEach | public/js/planning.js:143-145 | the loop over a root's descendant tasks appends their parses and keeps the running bounds |
| PlanLoader.ParseInto | public/js/planning.js:157-163 | `parseTaskNode` appends the parse of one node (nothing without a start) and updates the running bounds |
| PlanLoader.SortByStartProperties | public/js/planning.js:206 | the loaded tasks are sorted by start, a permutation of the parsed ones, and tasks with equal starts keep document order |
| PlanLoader.BoundsContainTasks | public/js/planning.js:210-211 | the chart starts at least a week before every task's start and ends at least two weeks after every task's end |
| PlanLoader.EmptyPlanBounds | public/js/planning.js:210-211 | with no tasks the chart runs from a week before `now` to two weeks after it |
| TaskFilter.FilteredTasks | public/js/planning.js:232-241 | an empty (after trimming) search keeps every task; otherwise at most the tasks |
| TaskFilter.FilteredTasksMembers | public/js/planning.js:235-240 | a task is shown iff it is a task of the plan and its lower-cased name, phase or id contains the lower-cased trimmed search |
| TaskFilter.FilteredTasksOrder | public/js/planning.js:235 | the shown tasks keep the plan's order (a subsequence) |
| TaskFilter.FilteredTasksIdempotent | public/js/planning.js:232-241 | filtering the filtered tasks again changes nothing |
| TaskFilter.SelectMembers | public/js/planning.js:235 | `filter` keeps exactly the elements satisfying the predicate |
| TaskFilter.SelectOrder | public/js/planning.js:235 | `filter` yields a subsequence of its input |
| TaskFilter.SelectIdempotent | public/js/planning.js:235 | `filter` applied twice equals once |
| Timeline.ScaleOf | public/js/planning.js:791 | a scale name other than day, week and month gives the fallback scale |
| Timeline.UnitWidth | public/js/planning.js:268-275 | one header step (1, 7 or 30 days) is `pxPerUnit * zoomLevel` pixels wide, and the grid uses the same step |
| Timeline.TicksAt | public/js/planning.js:322 | the k-th loop index is `i + k*step` and below the day count |
| Timeline.TicksCount | public/js/planning.js:407 | the loop runs until its index reaches the day count |
| Timeline.MapTicksAt | public/js/planning.js:322-348 | the k-th cell is drawn from the k-th loop index |
| Timeline.MarkChangesWhere | public/js/planning.js:333-347 | marking where the month differs from the previous one equals marking where a per-day test holds, when the two tests agree |
| Timeline.SecondaryCellsAt | public/js/planning.js:322-376 | the k-th cell of the lower header row comes from the k-th loop index |
| Timeline.RenderHeaderScales | public/js/planning.js:308-399 | the header built by the loops is the header of the scale |
| Timeline.RenderDayOrWeekScale | public/js/planning.js:321-376 | the day and week loops yield one lower cell per step and a month label at each month change |
| Timeline.RenderMonthScale | public/js/planning.js:377-398 | the month loop yields one month cell per 30 days and a year cell per step |
| Timeline.SecondaryCellsTile | public/js/planning.js:326-327 | cell k starts at `k*step` days and is one step wide, so the cells tile the row |
| Timeline.HeaderCellCount | public/js/planning.js:322 | the cells just cover the chart: n cells reach the day count, n-1 do not |
| Timeline.WeekLabelsRange | public/js/planning.js:349-376 | every week cell is labelled with a week number in 1..53 |
| Timeline.MonthMarksAtMonthStarts | public/js/planning.js:333-347 | for a step of at most 28 days, month labels are placed exactly at the first tick and at ticks that open a month |
| Timeline.MonthTestAgrees | public/js/planning.js:333-334 | the month comparison with the previous tick agrees with the day-of-month test |
| Timeline.DayHeaderMonthLabels | public/js/planning.js:321-348 | in the day layout a month is labelled on the first day and on each month's first day |
| Timeline.WeekHeaderMonthLabels | public/js/planning.js:349-376 | in the week layout a month is labelled on the first week and on each week starting in a month's first seven days |
| Timeline.ColumnsAt | public/js/planning.js:407-418 | the k-th grid column is drawn from the k-th loop index |
| Timeline.RowLines | public/js/planning.js:420-425 | one row line per row |
| Timeline.RowLinesAt | public/js/planning.js:423 | row line k is at `(k+1) * 44` |
| Timeline.RenderGridBackground | public/js/planning.js:401-426 | the loops build the grid of the scale: columns and row lines |
| Timeline.GridColumnsTile | public/js/planning.js:407-416 | column k starts at `k*step` days, is one step wide, and is shaded iff the scale is day, weekends are shown and the day is a Saturday or Sunday |
| Timeline.GridCoversChart | public/js/planning.js:407-411 | the first column starts at 0 and the last column reaches the chart's width |
| Timeline.SpanSum | public/js/planning.js:410-411 | pixel spans add up and grow with the days |
| Timeline.Bars | public/js/planning.js:435-486 | one bar per shown task |
| Timeline.DrawDependencyPath | public/js/planning.js:504-567 | a connector leaves the source's right middle, runs across at mid-way, enters the target's left middle, and ends in an arrow at the target |
| Timeline.DependencyConnectors | public/js/planning.js:494-499 | at most one connector per dependency id |
| Timeline.RenderBars | public/js/planning.js:428-502 | the loops yield the bars, the id-to-box map, and the connectors |
| Timeline.DrawTaskDependencies | public/js/planning.js:490-500 | the inner loop yields the connectors of one task |
| Timeline.PositionsHaveEveryTask | public/js/planning.js:485 | every shown task's id is in the box map |
| Timeline.PositionsLastWins | public/js/planning.js:485 | a task's box is in the map unless a later task has the same id |
| Timeline.DependencyConnectorsMembers | public/js/planning.js:494-499 | a connector is drawn iff some dependency id names a drawn task, from that task's box to the target's |
| Timeline.ConnectorsMembers | public/js/planning.js:489-501 | the chart's connectors are exactly those from each task's drawn dependencies to that task |
| Timeline.BarGeometry | public/js/planning.js:436-450 | a bar starts at the task's start day, is as long as its duration, sits inside its row, and is never narrower than the minimum width |
| Timeline.TodayMarkerInside | public/js/planning.js:298-305 | the marker shows iff today lies between the chart's bounds, and then within the chart's width |
| Timeline.ZoomStaysInRange | public/js/planning.js:798-805 | zooming keeps pixels per unit within [10, 200], moving in the button's direction unless at the limit |
| Timeline.FitViewFills | public/js/planning.js:632-649 | months below 20 px per day, weeks below 50, days otherwise; the result lies in [10, 100]; unclamped, the chart is as wide as the panel |
| Planner.LoadedTasksEnd | public/js/planning.js:159-160 | every task of a load ends `duration` days after its start |
| Planner.LoadDocument | public/js/planning.js:93-212 | the loops of a load compute the load result: resources, sorted tasks, bounds |
| Planner.ChartSpansThreeWeeks | public/js/planning.js:210-212 | when no task has a negative duration, a loaded chart spans at least 21 days |
| Planner.EditorRows | public/js/planning.js:671-684 | one editor row per resource of the plan |
| Planner.SavedResources | public/js/planning.js:706-715 | at most one saved resource per row |
| Planner.SavedResourcesPositive | public/js/planning.js:709-714 | every saved resource has a positive load and names a resource of the plan |
| Planner.EditedTaskProperties | public/js/planning.js:698-716 | an edited task ends `duration` days after its midnight start, keeps its id, phase, colour, dependencies and responsible role, and keeps only positive loads |
| Planner.EditorRowsKnown | public/js/planning.js:671-684 | when every resource has an id, the rows the editor opens with name resources of the plan |
| Planner.EditorRowWithoutId | public/js/planning.js:680 | a resource without an id gets the row `null`, which names no resource, so a positive load on it makes saving throw |
| Planner.SaveUnedited | public/js/planning.js:659-716 | when every resource has a distinct id, saving the editor unchanged only re-midnights the start, recomputes the end and keeps the assignments with positive load, named from the plan |
| Planner.LayoutRows | public/js/planning.js:277-306 | one bar and one row line per shown task; bar k sits inside row k; the grid is as tall as the rows |
| Planner.Planner.constructor | public/js/planning.js:2-12 | the initial state: no tasks, day scale, 40 px per unit, zoom 1, weekends shown, bounds at `now`, 0 days |
| Planner.Planner.FitView | public/js/planning.js:632-649 | a non-empty chart gets the fit scale and pixels per unit; an empty one is left as it is; nothing else changes |
| Planner.Planner.LoadGanFile | public/js/planning.js:86-225 | a parser error changes nothing; otherwise the state holds the load result, and the view is fitted unless the search filter throws on a loaded task during the render before the fit |
| Planner.Planner.Install | public/js/planning.js:113 | the loaded resources, tasks and bounds replace the old ones (lines 209-212 too), and the day count matches the bounds |
| Planner.Planner.SetScale | public/js/planning.js:789-796 | the scale button sets the scale and resets pixels per unit to 40 |
| Planner.Planner.ZoomIn | public/js/planning.js:798-801 | pixels per unit become `min(200, 1.2 p)`; nothing else changes |
| Planner.Planner.ZoomOut | public/js/planning.js:802-805 | pixels per unit become `max(10, 0.8 p)`; nothing else changes |
| Planner.Planner.ToggleWeekends | public/js/planning.js:813-817 | weekend shading is flipped; nothing else changes |
| Planner.Planner.RenderTimeline | public/js/planning.js:277-306 | the drawn chart is the layout of the filtered tasks at the current scale |
| Planner.Planner.OpenEditModal | public/js/planning.js:659-688 | the editor shows the task's fields and one row per plan resource with the task's load on it, or 0 |
| Planner.Planner.SaveTask | public/js/planning.js:693-722 | the first task with the editor's id takes the edited values; with no such task nothing changes; order and bounds are not recomputed |
| GanttApi.MaxNumericId | api/gantt.js:22-25 | the reduce gives 0 or the largest numeric id, and is at least every numeric id |
| GanttApi.Normalised | api/gantt.js:26-30 | the normalised list is as long as the stored one |
| GanttApi.NormalisedShape | api/gantt.js:26-30 | every id becomes numeric; numeric-id tasks are kept as they are; others change only their id |
| GanttApi.WithIds | api/gantt.js:20-31 | the loop yields the normalised list |
| GanttApi.NormalisedNewIds | api/gantt.js:26-30 | fresh ids lie above the largest numeric id, within the count of non-numeric tasks, and are pairwise distinct |
| GanttApi.NormalisedDistinct | api/gantt.js:20-31 | distinct numeric ids stay distinct after normalising |
| GanttApi.FirstHit | api/gantt.js:57-63 | the value of the first row whose key matches, none when no key matches |
| GanttApi.AutoColor | api/gantt.js:55-65 | `autoColor` always yields a `#rrggbb` colour |
| GanttApi.AutoColorByTables | api/gantt.js:55-65 | `autoColor` is the first matching status colour, else the first matching phase colour, else blue |
| GanttApi.StatusOverridesPhase | api/gantt.js:56-59 | a Critical, Delayed or Done status decides the colour whatever the phase |
| GanttApi.NextId | api/gantt.js:78 | the next id is at least 1 and above every stored id |
| GanttApi.NewTaskFieldsSet | api/gantt.js:80-90 | a created task always has a non-empty status, colour and icon; posted without a colour, a Critical, Delayed or Done task gets that status's colour |
| GanttApi.MissingStatusColour | api/gantt.js:86-88 | without a status the task is Pending, yet its colour is picked as if no status-colour rule applied |
| GanttApi.PostTask | api/gantt.js:75-109 | 400 with the fixed message iff a required field is falsy; otherwise the normalised list plus the new task with a fresh id, keeping ids distinct |
| GanttApi.Handle | api/gantt.js:67-113 | GET lists the normalised tasks, POST creates or rejects, any other method gets 405 |
| Dashboard.LevelScore | api/dashboard.js:10 | High, Medium and Low score 3, 2 and 1; any other level 0 |
| Dashboard.Score | api/dashboard.js:23-24 | a risk's score lies in 0..6 |
| Dashboard.Shown | api/dashboard.js:27 | `slice(0, 3)` keeps three risks, or all when there are fewer |
| Dashboard.TopRisks | api/dashboard.js:21-28 | as many top risks as are shown |
| Dashboard.TopRisksAreMostSevere | api/dashboard.js:21-28 | the ranking permutes the register; the shown risks are its head, in non-increasing score, and no omitted risk scores higher |
| Dashboard.TopRisksOrdered | api/dashboard.js:21-28 | the returned risks' scores do not increase |
| Dashboard.RankedKeepsTies | api/dashboard.js:21-26 | risks with equal scores keep their register order |
| Dashboard.TotalBudgetIsFirstTotal | api/dashboard.js:18-32 | the total budget is the first `Total` entry's amount, and 0 without one |
| Dashboard.DashboardResponse | api/dashboard.js:30-35 | milestones passed through, at most three risks, project start 2025-10-01 |
| Risks.GetLevel | api/risks.js:10-14 | High iff the value is at least 4, Medium iff in [3, 4), Low below 3 or when missing |
| Risks.GetLevelMonotone | api/risks.js:10-14 | a higher value never gets a lower level |
| Risks.Transform | api/risks.js:17 | one view per stored risk |
| Risks.TransformFillsDefaults | api/risks.js:24-28 | each descriptive field is the stored text when non-empty and `N/A` otherwise, so none is empty |
| Risks.TransformLevels | api/risks.js:10-14 | a view's impact and probability levels are High iff the value is at least 4 and Low iff it is below 3 or missing; the numeric probability is kept as `likelihood` too |
| Risks.ViewLosesOnlyDefaults | api/risks.js:17-35 | a risk with all descriptive fields set is recovered from its view except the numeric impact |
| Sidebar.LastSegment | public/js/sidebar.js:32 | the last path segment, without query or fragment, contains no `/`, `?` or `#` |
| Sidebar.PageName | public/js/sidebar.js:33-38 | strips one `.html`, and maps the empty name and `index` to `index`; never empty |
| Sidebar.NormalizePath | public/js/sidebar.js:29-39 | the page name of a path is non-empty and free of `/`, `?` and `#` |
| Sidebar.LastSegmentInDirectory | public/js/sidebar.js:32 | the directory part of a path is ignored |
| Sidebar.NormalizeIgnoresUrlParts | public/js/sidebar.js:29-39 | the directory, the query and the fragment do not change the page name |
| Sidebar.NormalizeStripsOneSuffix | public/js/sidebar.js:33-35 | `name.html` and `name` normalise to `name` |
| Sidebar.RootIsIndex | public/js/sidebar.js:37 | the empty path and `/` are the index page |
| Sidebar.IndexFileIsIndex | public/js/sidebar.js:33-38 | `index.html` is the index page |
| Sidebar.RootedIndexFileIsIndex | public/js/sidebar.js:29-39 | `/index.html` is the index page |
| Sidebar.Marked | public/js/sidebar.js:47-50 | `classList.add`/`remove('active')`: active iff asked, other classes untouched |
| Sidebar.HighlightActive | public/js/sidebar.js:41-51 | each link is marked active iff its normalised href equals the current page's, with its other classes kept |
| Sidebar.NavHrefPage | public/js/sidebar.js:5-12 | each navigation link normalises to its page name |
| Sidebar.AtMostOneActive | public/js/sidebar.js:5-12 | at most one navigation link is active for any path, and the Overview link is active at the site root |

## Left out

- Reading the `.gan` file and parsing XML are not modelled: the model starts from the parsed document, a tree of task nodes. A parser error is a distinct input, which the state ignores. The `alert` on failure, `renderApp`, the panel visibility and the task list are left out.
- The DOM is left out: created elements, CSS, innerHTML, tooltips, the hover highlight, scroll syncing and the resizer. Rendering yields a layout value of cells, columns, bars and connectors.
- The clock is a parameter: `new Date()` is `now` or `today`. Dates are local milliseconds, with no daylight-saving shifts and no time zones. Invalid dates (`NaN`) are not modelled.
- Month and year labels are month and year numbers. The locale's month names are left out, because `toLocaleString` is not part of this model.
- Numbers are exact reals and integers. Floating-point rounding is not modelled, nor `NaN`: a non-numeric `parseInt` or `parseFloat` attribute is treated as absent.
- `ToLower` maps ASCII letters only. Unicode case folding is not modelled.
- Strings are sequences of Unicode characters. JavaScript counts UTF-16 code units, so a character outside the Basic Multilingual Plane counts once here and twice there; lone surrogates are not modelled.
- TaskFilter.FilteredTasks requires every task to have a name and phase when the search is non-empty. The source then throws a `TypeError` on a missing one, which is not modelled.
- Planner.Planner.SaveTask requires every row with a positive load to name a known resource. `state.resources.find` returning `undefined` throws a `TypeError`, which is not modelled.
- EditorRowsKnown: holds only when every resource of the plan has an id. A resource without one gets `data-resid="null"`, and saving a positive load on it throws (Planner.EditorRowWithoutId).
- SaveUnedited: needs distinct resource ids, all present. The editor's date field is written with `toISOString` (UTC) and read back by `new Date("YYYY-MM-DD")` (also UTC); the model has a single time zone, so the day shift an unedited save causes west or east of UTC is not modelled.
- ChartSpansThreeWeeks: needs every task's duration to be non-negative. `parseInt` accepts a negative duration such as `-30`, and then the end lies before the start and the chart can span fewer than 21 days.
- LoadGanFile: when the search filter throws during the render, the source also skips showing the panels; only the skipped fit is modelled.
- Saved task resources carry `responsible` false where the source leaves it undefined; both are falsy. A resource id is written into the `data-resid` attribute as it is; ids holding `"` or `&` are not modelled.
- `tasks.sort` sorts in place. The model gives the sorted sequence as a value.
- The editor's `task.cost || 0` display value and the label text of each resource row are not modelled.
- `scoreMap` lookups of inherited object keys (such as `constructor`) are not modelled; any level other than High, Medium or Low scores 0.
- Gantt API: stored ids are whole numbers or non-numbers. Fractional ids are not modelled. POST bodies whose `task` or `phase` is not a string are not modelled either; `includes` on such a phase throws.
- Gantt API: the file I/O (`readTasks`, `writeTasks`), `getRequestBody` with its 1 MB limit and the 500 error responses are left out. The stored list and the body are parameters, and the written list is part of the response.
- Dashboard and risks APIs: reading the JSON files and the 500 error paths are left out. The files' contents are parameters.
- Sidebar: inserting the sidebar markup and a link without an `href` are left out. The links are objects with an `href` and a class set.
- Sidebar.NormalizeIgnoresUrlParts requires that the query and the fragment contain no `/`. With a `/` in them, `split('/')` cuts inside the query, as the source does, and the page name changes.
- `downloadCSV`, `closeModal`, `updateScaleBtns`, `server.js` and the other API routes are not part of this model.
