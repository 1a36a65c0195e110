/**
 * What `loadGanFile` computes from a parsed document: the role map, the
 * resource list, the allocations, one task record per `<task>` that has a
 * start date, and the earliest start and latest end among those tasks.
 *
 * Each step is a specification function over the document and a method
 * with the loop the page runs (`forEach` with `push` or `Map.set`), proved
 * to compute that function.
 */
module PlanLoader {
  import opened JsValues
  import opened Calendar
  import opened PlanDocument
  import opened StableSort

  const DefaultRoleName: string := "Intervenant"
  const DefaultLoad: real := 100.0
  const DefaultDuration: int := 1
  const DefaultComplete: int := 0
  const DefaultColor: string := "#3b82f6"
  const NoRole: string := "-"
  const UnknownResource: string := "Unknown"

  // ---------------------------------------------------------------------------
  // Roles

  /** `roleMap` after `roleMap.set(id, name)` for every role in order: a later role with the same id wins. */
  function RoleMap(roles: seq<RoleNode>): map<Option<string>, Option<string>> {
    if roles == [] then map[]
    else RoleMap(roles[..|roles| - 1])[roles[|roles| - 1].id := roles[|roles| - 1].name]
  }

  /** The role map holds exactly the ids of the roles, each mapped to the name of the last role with that id. */
  lemma {:induction false} RoleMapLastWins(roles: seq<RoleNode>, i: int)
    requires 0 <= i < |roles|
    requires forall j :: i < j < |roles| ==> roles[j].id != roles[i].id
    ensures roles[i].id in RoleMap(roles) && RoleMap(roles)[roles[i].id] == roles[i].name
    decreases |roles|
  {
    if i < |roles| - 1 {
      RoleMapLastWins(roles[..|roles| - 1], i);
    }
  }

  lemma {:induction false} RoleMapKeys(roles: seq<RoleNode>, id: Option<string>)
    ensures id in RoleMap(roles) <==> exists j :: 0 <= j < |roles| && roles[j].id == id
    decreases |roles|
  {
    if roles != [] {
      var init := roles[..|roles| - 1];
      RoleMapKeys(init, id);
      if id in RoleMap(init) {
        var j :| 0 <= j < |init| && init[j].id == id;
        assert roles[j].id == id;
      }
    }
  }

  /** `func.split(":")[1]` for a `function` attribute that starts with `Default:`. */
  function RoleIdOf(func: string): (r: string)
    requires StartsWith(func, "Default:")
    ensures r == BeforeFirst(func[8..], ':')
  {
    assert func[7] == ':';
    assert BeforeFirst(func, ':') == "Default" by {
      assert func[..8] == "Default:";
      BeforeFirstPrefix(func, "Default", ':');
    }
    SecondField(func, ':').value
  }

  /** Splitting at the first `sep` of a text that starts with a `sep`-free prefix followed by `sep`. */
  lemma {:induction false} BeforeFirstPrefix(s: string, p: string, sep: char)
    requires |p| < |s| && s[..|p|] == p && s[|p|] == sep && sep !in p
    ensures BeforeFirst(s, sep) == p
    decreases |p|
  {
    if p != [] {
      assert s[1..][..|p| - 1] == p[1..];
      BeforeFirstPrefix(s[1..], p[1..], sep);
    }
  }

  /** The role name of a resource: the role map's entry for its `Default:<id>` function, else "Intervenant". */
  function RoleNameFor(func: Option<string>, roleMap: map<Option<string>, Option<string>>): (r: Option<string>)
    ensures Truthy(func) && StartsWith(func.value, "Default:") && Some(BeforeFirst(func.value[8..], ':')) in roleMap
            ==> r == roleMap[Some(BeforeFirst(func.value[8..], ':'))]
    ensures !(Truthy(func) && StartsWith(func.value, "Default:") && Some(BeforeFirst(func.value[8..], ':')) in roleMap)
            ==> r == Some(DefaultRoleName)
  {
    if Truthy(func) && StartsWith(func.value, "Default:") then
      var roleId := RoleIdOf(func.value);
      if Some(roleId) in roleMap then roleMap[Some(roleId)] else Some(DefaultRoleName)
    else
      Some(DefaultRoleName)
  }

  method BuildRoleMap(roles: seq<RoleNode>) returns (roleMap: map<Option<string>, Option<string>>)
    ensures roleMap == RoleMap(roles)
  {
    roleMap := map[];
    for i := 0 to |roles|
      invariant roleMap == RoleMap(roles[..i])
    {
      assert roles[..i + 1][..i] == roles[..i];
      roleMap := roleMap[roles[i].id := roles[i].name];
    }
    assert roles[..|roles|] == roles;
  }

  // ---------------------------------------------------------------------------
  // Resources

  function ResourceOf(n: ResourceNode, roleMap: map<Option<string>, Option<string>>): Resource {
    Resource(n.id, n.name, RoleNameFor(n.func, roleMap))
  }

  /** `state.resources`: one entry per `<resource>`, in document order. */
  function Resources(nodes: seq<ResourceNode>, roleMap: map<Option<string>, Option<string>>): (r: seq<Resource>)
    ensures |r| == |nodes|
    ensures forall i :: 0 <= i < |nodes| ==> r[i] == ResourceOf(nodes[i], roleMap)
  {
    if nodes == [] then []
    else Resources(nodes[..|nodes| - 1], roleMap) + [ResourceOf(nodes[|nodes| - 1], roleMap)]
  }

  /** `resMap`: resources by id, a later resource with the same id winning. */
  function ResMap(resources: seq<Resource>): map<Option<string>, Resource> {
    if resources == [] then map[]
    else ResMap(resources[..|resources| - 1])[resources[|resources| - 1].id := resources[|resources| - 1]]
  }

  lemma {:induction false} ResMapLastWins(resources: seq<Resource>, i: int)
    requires 0 <= i < |resources|
    requires forall j :: i < j < |resources| ==> resources[j].id != resources[i].id
    ensures resources[i].id in ResMap(resources) && ResMap(resources)[resources[i].id] == resources[i]
    decreases |resources|
  {
    if i < |resources| - 1 {
      ResMapLastWins(resources[..|resources| - 1], i);
    }
  }

  lemma ResourcesStep(nodes: seq<ResourceNode>, roleMap: map<Option<string>, Option<string>>, i: int)
    requires 0 <= i < |nodes|
    ensures Resources(nodes[..i + 1], roleMap) == Resources(nodes[..i], roleMap) + [ResourceOf(nodes[i], roleMap)]
  {
    assert nodes[..i + 1][..i] == nodes[..i];
  }

  lemma ResMapStep(resources: seq<Resource>, r: Resource)
    ensures ResMap(resources + [r]) == ResMap(resources)[r.id := r]
  {
    assert (resources + [r])[..|resources|] == resources;
  }

  method BuildResources(nodes: seq<ResourceNode>, roleMap: map<Option<string>, Option<string>>)
    returns (resources: seq<Resource>, resMap: map<Option<string>, Resource>)
    ensures resources == Resources(nodes, roleMap)
    ensures resMap == ResMap(resources)
  {
    resources, resMap := [], map[];
    for i := 0 to |nodes|
      invariant resources == Resources(nodes[..i], roleMap)
      invariant resMap == ResMap(resources)
    {
      var r := ResourceOf(nodes[i], roleMap);
      ResourcesStep(nodes, roleMap, i);
      ResMapStep(resources, r);
      resMap := resMap[r.id := r];
      resources := resources + [r];
    }
    assert nodes[..|nodes|] == nodes;
  }

  // ---------------------------------------------------------------------------
  // Allocations

  /** An allocation's load defaults to 100 and it is responsible only for the exact text "true". */
  function AllocationOf(n: AllocationNode): (a: Allocation)
    ensures a.taskId == n.taskId && a.resourceId == n.resourceId
    ensures n.load.Some? ==> a.load == n.load.value
    ensures n.load.None? ==> a.load == 100.0
    ensures a.responsible <==> n.responsible == Some("true")
  {
    Allocation(n.taskId, n.resourceId, n.load.GetOr(DefaultLoad), n.responsible == Some("true"))
  }

  function Allocations(nodes: seq<AllocationNode>): (r: seq<Allocation>)
    ensures |r| == |nodes|
    ensures forall i :: 0 <= i < |nodes| ==> r[i] == AllocationOf(nodes[i])
  {
    if nodes == [] then [] else Allocations(nodes[..|nodes| - 1]) + [AllocationOf(nodes[|nodes| - 1])]
  }

  method BuildAllocations(nodes: seq<AllocationNode>) returns (allocs: seq<Allocation>)
    ensures allocs == Allocations(nodes)
  {
    allocs := [];
    for i := 0 to |nodes|
      invariant allocs == Allocations(nodes[..i])
    {
      assert nodes[..i + 1][..i] == nodes[..i];
      allocs := allocs + [AllocationOf(nodes[i])];
    }
    assert nodes[..|nodes|] == nodes;
  }

  // ---------------------------------------------------------------------------
  // Tasks

  /** The resource entry of a task for one of its allocations; an unknown resource is named "Unknown". */
  function TaskResourceOf(a: Allocation, resMap: map<Option<string>, Resource>): (r: TaskResource)
    ensures r.id == a.resourceId && r.load == a.load && r.responsible == a.responsible
    ensures a.resourceId in resMap ==> r.name == resMap[a.resourceId].name && r.roleName == resMap[a.resourceId].roleName
    ensures a.resourceId !in resMap ==> r.name == Some(UnknownResource) && r.roleName == Some("")
  {
    if a.resourceId in resMap then
      var res := resMap[a.resourceId];
      TaskResource(a.resourceId, res.name, res.roleName, a.load, a.responsible)
    else
      TaskResource(a.resourceId, Some(UnknownResource), Some(""), a.load, a.responsible)
  }

  /** `allocs.filter(a => a.taskId === id).map(...)`. */
  function TaskResources(allocs: seq<Allocation>, id: Option<string>, resMap: map<Option<string>, Resource>)
    : (r: seq<TaskResource>)
    ensures |r| <= |allocs|
  {
    if allocs == [] then []
    else
      var a := allocs[|allocs| - 1];
      TaskResources(allocs[..|allocs| - 1], id, resMap)
        + (if a.taskId == id then [TaskResourceOf(a, resMap)] else [])
  }

  /**
   * Every resource entry of a task comes from an allocation of that task,
   * and is named after the plan's resource with that id, or "Unknown".
   */
  lemma {:induction false} TaskResourcesFromAllocations(allocs: seq<Allocation>, id: Option<string>,
                                                         resMap: map<Option<string>, Resource>, k: int)
    requires 0 <= k < |TaskResources(allocs, id, resMap)|
    ensures exists j :: 0 <= j < |allocs| && allocs[j].taskId == id
                        && TaskResources(allocs, id, resMap)[k] == TaskResourceOf(allocs[j], resMap)
    ensures var tr := TaskResources(allocs, id, resMap)[k];
      exists j :: 0 <= j < |allocs| && allocs[j].taskId == id && tr.id == allocs[j].resourceId
                  && tr.load == allocs[j].load && tr.responsible == allocs[j].responsible
    ensures var tr := TaskResources(allocs, id, resMap)[k];
      (tr.id in resMap ==> tr.name == resMap[tr.id].name && tr.roleName == resMap[tr.id].roleName)
      && (tr.id !in resMap ==> tr.name == Some(UnknownResource) && tr.roleName == Some(""))
    decreases |allocs|
  {
    var init := allocs[..|allocs| - 1];
    var prev := TaskResources(init, id, resMap);
    if k < |prev| {
      TaskResourcesFromAllocations(init, id, resMap, k);
      var j :| 0 <= j < |init| && init[j].taskId == id && prev[k] == TaskResourceOf(init[j], resMap);
      assert allocs[j] == init[j];
    } else {
      assert allocs[|allocs| - 1].taskId == id;
    }
  }

  /** The index of the first responsible entry, or -1 when there is none. */
  function FirstResponsible(rs: seq<TaskResource>): int {
    FindIndex(rs, (r: TaskResource) => r.responsible)
  }

  /** `responsibleRole`: the role of the first responsible entry, else of the first entry, else "-". */
  function ResponsibleRole(rs: seq<TaskResource>): (r: Option<string>)
    ensures (exists i :: 0 <= i < |rs| && rs[i].responsible) ==> r == rs[FirstResponsible(rs)].roleName
    ensures (forall i :: 0 <= i < |rs| ==> !rs[i].responsible) && rs != [] ==> r == rs[0].roleName
    ensures rs == [] ==> r == Some(NoRole)
  {
    var i := FirstResponsible(rs);
    if i >= 0 then rs[i].roleName
    else if rs != [] then rs[0].roleName
    else Some(NoRole)
  }

  /** `parseTaskNode`: the task record for a node, or nothing when it has no start date. */
  function ParseTask(n: TaskNode, phase: Option<string>, allocs: seq<Allocation>, resMap: map<Option<string>, Resource>)
    : (r: Option<Task>)
    ensures r.None? <==> n.start.None?
    ensures r.Some? ==>
      var t := r.value;
      t.id == n.id && t.name == n.name && t.phase == phase
      && t.start % MsPerDay == 0 && t.start <= n.start.value < t.start + MsPerDay
      && DiffDays(t.start, t.end) == t.duration && EndMatchesDuration(t)
      && (n.duration.Some? ==> t.duration == n.duration.value) && (n.duration.None? ==> t.duration == 1)
      && (n.complete.Some? ==> t.complete == n.complete.value) && (n.complete.None? ==> t.complete == 0)
      && (Truthy(n.color) ==> t.color == n.color.value) && (!Truthy(n.color) ==> t.color == "#3b82f6")
      && t.resources == TaskResources(allocs, n.id, resMap)
      && t.responsibleRole == ResponsibleRole(t.resources)
      && t.depends == DependIds(n)
      && t.cost == 0.0
  {
    if n.start.None? then None
    else
      var start := StartOfDay(n.start.value);
      var duration := n.duration.GetOr(DefaultDuration);
      var resources := TaskResources(allocs, n.id, resMap);
      Some(Task(
        id := n.id,
        phase := phase,
        name := n.name,
        start := start,
        end := AddDays(start, duration),
        duration := duration,
        complete := n.complete.GetOr(DefaultComplete),
        color := OrElse(n.color, DefaultColor),
        resources := resources,
        responsibleRole := ResponsibleRole(resources),
        depends := DependIds(n),
        cost := 0.0))
  }

  /** A task node queued for `parseTaskNode`, with the phase name it gets. */
  datatype Pending = Pending(node: TaskNode, phase: Option<string>)

  /**
   * The nodes parsed for one top-level `<task>`: the node itself when it has
   * no nested task, otherwise every nested task, all with the top-level
   * task's name as phase.
   */
  function RootEntries(root: TaskNode): (r: seq<Pending>)
    ensures forall k :: 0 <= k < |r| ==> r[k].phase == root.name
    ensures DescendantTasks(root) == [] ==> r == [Pending(root, root.name)]
    ensures DescendantTasks(root) != [] ==>
      |r| == |DescendantTasks(root)| && forall k :: 0 <= k < |r| ==> r[k].node == DescendantTasks(root)[k]
  {
    var children := DescendantTasks(root);
    if |children| == 0 then [Pending(root, root.name)]
    else seq(|children|, k requires 0 <= k < |children| => Pending(children[k], root.name))
  }

  function Entries(roots: seq<TaskNode>): seq<Pending> {
    if roots == [] then [] else Entries(roots[..|roots| - 1]) + RootEntries(roots[|roots| - 1])
  }

  /** Every queued node carries the name of a top-level task as its phase. */
  lemma {:induction false} EntriesPhase(roots: seq<TaskNode>, k: int)
    requires 0 <= k < |Entries(roots)|
    ensures exists i :: 0 <= i < |roots| && Entries(roots)[k].phase == roots[i].name
    decreases |roots|
  {
    var init := roots[..|roots| - 1];
    if k < |Entries(init)| {
      EntriesPhase(init, k);
      var i :| 0 <= i < |init| && Entries(init)[k].phase == init[i].name;
      assert roots[i] == init[i];
    } else {
      assert Entries(roots)[k] == RootEntries(roots[|roots| - 1])[k - |Entries(init)|];
    }
  }

  /** The task a queued node yields: none when it has no start date. */
  function ParseOne(e: Pending, allocs: seq<Allocation>, resMap: map<Option<string>, Resource>): seq<Task> {
    match ParseTask(e.node, e.phase, allocs, resMap)
    case Some(t) => [t]
    case None => []
  }

  /** The parsed tasks, in parse order, of the queued nodes that have a start date. */
  function ParseAll(q: seq<Pending>, allocs: seq<Allocation>, resMap: map<Option<string>, Resource>): (r: seq<Task>)
    ensures |r| <= |q|
  {
    if q == [] then []
    else ParseAll(q[..|q| - 1], allocs, resMap) + ParseOne(q[|q| - 1], allocs, resMap)
  }

  /** Every parsed task ends `duration` days after its start. */
  lemma {:induction false} ParseAllEnds(q: seq<Pending>, allocs: seq<Allocation>, resMap: map<Option<string>, Resource>)
    ensures forall t :: t in ParseAll(q, allocs, resMap) ==> EndMatchesDuration(t)
    decreases |q|
  {
    if q != [] {
      ParseAllEnds(q[..|q| - 1], allocs, resMap);
    }
  }

  lemma {:induction false} ParseAllConcat(a: seq<Pending>, b: seq<Pending>,
                                          allocs: seq<Allocation>, resMap: map<Option<string>, Resource>)
    ensures ParseAll(a + b, allocs, resMap) == ParseAll(a, allocs, resMap) + ParseAll(b, allocs, resMap)
    decreases |b|
  {
    if b == [] {
      assert a + b == a;
    } else {
      var b', last := b[..|b| - 1], b[|b| - 1];
      var ab := a + b;
      assert ab[..|ab| - 1] == a + b' && ab[|ab| - 1] == last;
      var tail := ParseOne(last, allocs, resMap);
      calc {
        ParseAll(ab, allocs, resMap);
        ParseAll(a + b', allocs, resMap) + tail;
        { ParseAllConcat(a, b', allocs, resMap); }
        ParseAll(a, allocs, resMap) + ParseAll(b', allocs, resMap) + tail;
        { ConcatAssoc(ParseAll(a, allocs, resMap), ParseAll(b', allocs, resMap), tail); }
        ParseAll(a, allocs, resMap) + (ParseAll(b', allocs, resMap) + tail);
      }
    }
  }

  lemma ConcatAssoc<T>(x: seq<T>, y: seq<T>, z: seq<T>)
    ensures x + y + z == x + (y + z)
  {
  }

  lemma ParseAllStep(tasks: seq<Task>, q: seq<Pending>, j: int,
                     allocs: seq<Allocation>, resMap: map<Option<string>, Resource>)
    requires 0 <= j < |q|
    ensures tasks + ParseAll(q[..j + 1], allocs, resMap)
         == (tasks + ParseAll(q[..j], allocs, resMap)) + ParseOne(q[j], allocs, resMap)
  {
    assert q[..j + 1][..j] == q[..j];
  }

  /** Exactly the queued nodes with a start date yield a task. */
  lemma {:induction false} ParseAllCount(q: seq<Pending>, allocs: seq<Allocation>, resMap: map<Option<string>, Resource>)
    ensures |ParseAll(q, allocs, resMap)| == |StartedEntries(q)|
    decreases |q|
  {
    if q != [] {
      ParseAllCount(q[..|q| - 1], allocs, resMap);
    }
  }

  /** The queued nodes that have a start date. */
  function StartedEntries(q: seq<Pending>): seq<Pending> {
    if q == [] then []
    else StartedEntries(q[..|q| - 1]) + (if q[|q| - 1].node.start.Some? then [q[|q| - 1]] else [])
  }

  /** `minDate` after the `if (!minDate || start < minDate)` updates over the parsed tasks. */
  function MinStart(ts: seq<Task>): (r: Option<Instant>)
    ensures r.None? <==> ts == []
    ensures r.Some? ==> exists i :: 0 <= i < |ts| && ts[i].start == r.value
    ensures r.Some? ==> forall i :: 0 <= i < |ts| ==> r.value <= ts[i].start
  {
    if ts == [] then None
    else
      var m := MinStart(ts[..|ts| - 1]);
      var t := ts[|ts| - 1];
      if m.None? || t.start < m.value then Some(t.start) else m
  }

  /** `maxDate` after the `if (!maxDate || end > maxDate)` updates over the parsed tasks. */
  function MaxEnd(ts: seq<Task>): (r: Option<Instant>)
    ensures r.None? <==> ts == []
    ensures r.Some? ==> exists i :: 0 <= i < |ts| && ts[i].end == r.value
    ensures r.Some? ==> forall i :: 0 <= i < |ts| ==> ts[i].end <= r.value
  {
    if ts == [] then None
    else
      var m := MaxEnd(ts[..|ts| - 1]);
      var t := ts[|ts| - 1];
      if m.None? || t.end > m.value then Some(t.end) else m
  }

  /** Appending a task moves each bound only when the task lies beyond it. */
  lemma BoundsStep(tasks: seq<Task>, t: Task)
    ensures MinStart(tasks + [t])
         == if MinStart(tasks).None? || t.start < MinStart(tasks).value then Some(t.start) else MinStart(tasks)
    ensures MaxEnd(tasks + [t])
         == if MaxEnd(tasks).None? || t.end > MaxEnd(tasks).value then Some(t.end) else MaxEnd(tasks)
  {
    assert (tasks + [t])[..|tasks|] == tasks;
  }

  /** `parseTaskNode` applied to every queued node of the document, with the running bounds. */
  method BuildTasks(roots: seq<TaskNode>, allocs: seq<Allocation>, resMap: map<Option<string>, Resource>)
    returns (tasks: seq<Task>, minDate: Option<Instant>, maxDate: Option<Instant>)
    ensures tasks == ParseAll(Entries(roots), allocs, resMap)
    ensures minDate == MinStart(tasks) && maxDate == MaxEnd(tasks)
  {
    tasks, minDate, maxDate := [], None, None;
    for i := 0 to |roots|
      invariant tasks == ParseAll(Entries(roots[..i]), allocs, resMap)
      invariant minDate == MinStart(tasks) && maxDate == MaxEnd(tasks)
    {
      assert roots[..i + 1][..i] == roots[..i];
      assert Entries(roots[..i + 1]) == Entries(roots[..i]) + RootEntries(roots[i]);
      ParseAllConcat(Entries(roots[..i]), RootEntries(roots[i]), allocs, resMap);
      tasks, minDate, maxDate := ParseRoot(tasks, minDate, maxDate, roots[i], allocs, resMap);
    }
    assert roots[..|roots|] == roots;
  }

  /** The body of `rootTasks.forEach`: parse the top-level task itself, or each of its nested tasks. */
  method ParseRoot(tasks: seq<Task>, minDate: Option<Instant>, maxDate: Option<Instant>,
                   root: TaskNode, allocs: seq<Allocation>, resMap: map<Option<string>, Resource>)
    returns (tasks': seq<Task>, minDate': Option<Instant>, maxDate': Option<Instant>)
    requires minDate == MinStart(tasks) && maxDate == MaxEnd(tasks)
    ensures tasks' == tasks + ParseAll(RootEntries(root), allocs, resMap)
    ensures minDate' == MinStart(tasks') && maxDate' == MaxEnd(tasks')
  {
    var queue := RootEntries(root);
    var childNodes := DescendantTasks(root);
    if |childNodes| == 0 {
      assert queue == [Pending(root, root.name)];
      assert queue[..0] == [];
      tasks', minDate', maxDate' := ParseInto(tasks, minDate, maxDate, Pending(root, root.name), allocs, resMap);
    } else {
      tasks', minDate', maxDate' := ParseEach(tasks, minDate, maxDate, queue, allocs, resMap);
    }
  }

  /** `childNodes.forEach(child => parseTaskNode(...))`: every queued node in turn. */
  method ParseEach(tasks: seq<Task>, minDate: Option<Instant>, maxDate: Option<Instant>,
                   queue: seq<Pending>, allocs: seq<Allocation>, resMap: map<Option<string>, Resource>)
    returns (tasks': seq<Task>, minDate': Option<Instant>, maxDate': Option<Instant>)
    requires minDate == MinStart(tasks) && maxDate == MaxEnd(tasks)
    ensures tasks' == tasks + ParseAll(queue, allocs, resMap)
    ensures minDate' == MinStart(tasks') && maxDate' == MaxEnd(tasks')
  {
    tasks', minDate', maxDate' := tasks, minDate, maxDate;
    assert tasks == tasks + ParseAll(queue[..0], allocs, resMap);
    for j := 0 to |queue|
      invariant tasks' == tasks + ParseAll(queue[..j], allocs, resMap)
      invariant minDate' == MinStart(tasks') && maxDate' == MaxEnd(tasks')
    {
      ParseAllStep(tasks, queue, j, allocs, resMap);
      tasks', minDate', maxDate' := ParseInto(tasks', minDate', maxDate', queue[j], allocs, resMap);
    }
    assert queue[..|queue|] == queue;
  }

  /** One `parseTaskNode` call: push the task, if any, and update the running bounds. */
  method ParseInto(tasks: seq<Task>, minDate: Option<Instant>, maxDate: Option<Instant>,
                   e: Pending, allocs: seq<Allocation>, resMap: map<Option<string>, Resource>)
    returns (tasks': seq<Task>, minDate': Option<Instant>, maxDate': Option<Instant>)
    requires minDate == MinStart(tasks) && maxDate == MaxEnd(tasks)
    ensures tasks' == tasks + ParseOne(e, allocs, resMap)
    ensures minDate' == MinStart(tasks') && maxDate' == MaxEnd(tasks')
  {
    var parsed := ParseTask(e.node, e.phase, allocs, resMap);
    if parsed.None? {
      tasks', minDate', maxDate' := tasks, minDate, maxDate;
      assert tasks' == tasks + [];
    } else {
      var t := parsed.value;
      minDate' := if minDate.None? || t.start < minDate.value then Some(t.start) else minDate;
      maxDate' := if maxDate.None? || t.end > maxDate.value then Some(t.end) else maxDate;
      tasks' := tasks + [t];
      BoundsStep(tasks, t);
    }
  }

  // ---------------------------------------------------------------------------
  // Sorting and bounds

  function StartKey(t: Task): int {
    t.start
  }

  /** `tasks.sort((a, b) => a.start - b.start)`. */
  function SortByStart(tasks: seq<Task>): seq<Task> {
    SortByKey(tasks, StartKey)
  }

  /** After sorting, starts ascend, no task is lost or added, and tasks with equal starts keep their order. */
  lemma SortByStartProperties(tasks: seq<Task>)
    ensures forall i, j :: 0 <= i < j < |tasks| ==> SortByStart(tasks)[i].start <= SortByStart(tasks)[j].start
    ensures multiset(SortByStart(tasks)) == multiset(tasks)
    ensures forall k :: WithKey(SortByStart(tasks), StartKey, k) == WithKey(tasks, StartKey, k)
  {
    SortByKeySorted(tasks, StartKey);
    SortByKeyPermutes(tasks, StartKey);
    forall k
      ensures WithKey(SortByStart(tasks), StartKey, k) == WithKey(tasks, StartKey, k)
    {
      SortByKeyStable(tasks, StartKey, k);
    }
  }

  /** The chart's first day: a week before the earliest start, or before `now` when there is no task. */
  function PlanStart(tasks: seq<Task>, now: Instant): Instant {
    AddDays(MinStart(tasks).GetOr(now), -7)
  }

  /** The chart's last day: two weeks after the latest end, or after `now` when there is no task. */
  function PlanEnd(tasks: seq<Task>, now: Instant): Instant {
    AddDays(MaxEnd(tasks).GetOr(now), 14)
  }

  /** Every task lies inside the buffered bounds, at least 7 days after the start and 14 before the end. */
  lemma BoundsContainTasks(tasks: seq<Task>, now: Instant, t: Task)
    requires t in tasks
    ensures AddDays(PlanStart(tasks, now), 7) <= t.start
    ensures AddDays(t.end, 14) <= PlanEnd(tasks, now)
  {
  }

  /** Without tasks the chart runs from a week before `now` to two weeks after it. */
  lemma EmptyPlanBounds(now: Instant)
    ensures PlanStart([], now) == AddDays(now, -7) && PlanEnd([], now) == AddDays(now, 14)
  {
  }
}
