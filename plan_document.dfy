/**
 * A GanttProject `.gan` document after XML parsing, and the records the
 * planning page builds from it.
 *
 * Every attribute the page reads with `getAttribute` is optional: `None`
 * stands for a missing attribute (JavaScript `null`) and, for attributes the
 * page only tests for truthiness, also for the empty string. Numeric and
 * date attributes are given already converted; text that converts to `NaN`
 * or to an invalid date is not part of this model.
 */
module PlanDocument {
  import opened JsValues
  import opened Calendar

  /** `<role id name>` under `<roles>`. */
  datatype RoleNode = RoleNode(id: Option<string>, name: Option<string>)

  /** `<resource id name function>` under `<resources>`; `func` is the `function` attribute. */
  datatype ResourceNode = ResourceNode(id: Option<string>, name: Option<string>, func: Option<string>)

  /**
   * `<allocation task-id resource-id load responsible>` under `<allocations>`;
   * `load` is `parseFloat` of the attribute, `None` when it is missing or empty.
   */
  datatype AllocationNode = AllocationNode(
    taskId: Option<string>,
    resourceId: Option<string>,
    load: Option<real>,
    responsible: Option<string>)

  /**
   * `<task>`: `start` is the instant `new Date(start)` denotes, `duration` and
   * `complete` are `parseInt` of their attributes; `None` when the attribute is
   * missing or empty. Its element children are `<depend>` and nested `<task>`s.
   */
  datatype TaskNode = TaskNode(
    id: Option<string>,
    name: Option<string>,
    start: Option<Instant>,
    duration: Option<int>,
    complete: Option<int>,
    color: Option<string>,
    children: seq<TaskChild>)

  datatype TaskChild = Depend(dependId: Option<string>) | SubTask(node: TaskNode)

  /** The four element lists the loader queries: roles, resources, allocations, and the top-level tasks. */
  datatype Document = Document(
    roles: seq<RoleNode>,
    resources: seq<ResourceNode>,
    allocations: seq<AllocationNode>,
    tasks: seq<TaskNode>)

  /** What `DOMParser` yields: a document, or one holding a `<parsererror>`. */
  datatype XmlResult = ParserError | Parsed(doc: Document)

  // ---------------------------------------------------------------------------
  // Descendant queries

  /** `n.querySelectorAll("task")`: the nested tasks of `n` in document order, from child `i` on. */
  function DescendantTasksFrom(n: TaskNode, i: nat): seq<TaskNode>
    requires i <= |n.children|
    decreases n, |n.children| - i
  {
    if i == |n.children| then []
    else
      (match n.children[i]
       case Depend(_) => []
       case SubTask(c) => [c] + DescendantTasksFrom(c, 0))
      + DescendantTasksFrom(n, i + 1)
  }

  function DescendantTasks(n: TaskNode): seq<TaskNode> {
    DescendantTasksFrom(n, 0)
  }

  /** `n.querySelectorAll("depend")` mapped to the `id` attribute, from child `i` on. */
  function DependIdsFrom(n: TaskNode, i: nat): seq<Option<string>>
    requires i <= |n.children|
    decreases n, |n.children| - i
  {
    if i == |n.children| then []
    else
      (match n.children[i]
       case Depend(d) => [d]
       case SubTask(c) => DependIdsFrom(c, 0))
      + DependIdsFrom(n, i + 1)
  }

  function DependIds(n: TaskNode): seq<Option<string>> {
    DependIdsFrom(n, 0)
  }

  // ---------------------------------------------------------------------------
  // Records built by the loader

  /** An entry of `state.resources`. */
  datatype Resource = Resource(id: Option<string>, name: Option<string>, roleName: Option<string>)

  datatype Allocation = Allocation(taskId: Option<string>, resourceId: Option<string>, load: real, responsible: bool)

  /** An entry of a task's `resources` list. */
  datatype TaskResource = TaskResource(
    id: Option<string>,
    name: Option<string>,
    roleName: Option<string>,
    load: real,
    responsible: bool)

  /** An entry of `state.tasks`. */
  datatype Task = Task(
    id: Option<string>,
    phase: Option<string>,
    name: Option<string>,
    start: Instant,
    end: Instant,
    duration: int,
    complete: int,
    color: string,
    resources: seq<TaskResource>,
    responsibleRole: Option<string>,
    depends: seq<Option<string>>,
    cost: real)

  /** The invariant every task of the plan keeps: it ends `duration` days after it starts. */
  predicate EndMatchesDuration(t: Task) {
    t.end == AddDays(t.start, t.duration)
  }
}
