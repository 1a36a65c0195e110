/**
 * The task-list endpoint of the intranet server (`/api/gantt`): the task list
 * stored as JSON, the renumbering that gives every task a numeric id, the
 * status-then-phase colour rule, and the POST path that validates a request
 * and appends one task.
 *
 * Reading and writing the JSON file and reading the request body are I/O;
 * here the stored list and the parsed body are parameters and the list that
 * would be written is part of the result.
 */
module GanttApi {
  import opened JsValues

  /** A task's `id` value: a JSON number (an integer here) or anything else (missing, a string, null). */
  datatype TaskId = NumId(n: int) | OtherId

  /** The value of `Number(v)`: a finite number, or `NaN`. */
  datatype Num = NaN | Finite(v: real)

  /** `!x` is false exactly for a number that is neither `NaN` nor zero. */
  predicate NumTruthy(x: Num) {
    x.Finite? && x.v != 0.0
  }

  /** An entry of the stored task list; `None` stands for a missing field. */
  datatype StoredTask = StoredTask(
    id: TaskId,
    task: Option<string>,
    phase: Option<string>,
    startWeek: Option<Num>,
    duration: Option<Num>,
    status: Option<string>,
    color: Option<string>,
    icon: Option<string>)

  /**
   * The parsed POST body; `startWeek` and `duration` are already `Number(...)`
   * of the posted values (a missing value converts to `NaN`).
   */
  datatype RequestBody = RequestBody(
    task: Option<string>,
    phase: Option<string>,
    startWeek: Num,
    duration: Num,
    status: Option<string>,
    color: Option<string>,
    icon: Option<string>)

  // ---------------------------------------------------------------------------
  // withIds

  /** The `reduce` that starts `withIds`: the largest numeric id, and 0 when there is none larger. */
  function MaxNumericId(tasks: seq<StoredTask>): (r: int)
    ensures r >= 0
    ensures forall k :: 0 <= k < |tasks| && tasks[k].id.NumId? ==> tasks[k].id.n <= r
    ensures r == 0 || exists k :: 0 <= k < |tasks| && tasks[k].id == NumId(r)
  {
    if tasks == [] then 0
    else
      var m := MaxNumericId(tasks[..|tasks| - 1]);
      var last := tasks[|tasks| - 1];
      if last.id.NumId? && last.id.n > m then last.id.n else m
  }

  /** How many tasks have no numeric id. */
  function CountOther(tasks: seq<StoredTask>): (r: nat)
    ensures r <= |tasks|
  {
    if tasks == [] then 0
    else CountOther(tasks[..|tasks| - 1]) + (if tasks[|tasks| - 1].id.NumId? then 0 else 1)
  }

  /**
   * The id `withIds` gives the task at position `k`: its own numeric id, or
   * the counter after one increment for each earlier task without one.
   */
  function IdAt(tasks: seq<StoredTask>, k: int): TaskId
    requires 0 <= k < |tasks|
  {
    if tasks[k].id.NumId? then tasks[k].id
    else NumId(MaxNumericId(tasks) + CountOther(tasks[..k]) + 1)
  }

  /** The list `withIds` returns. */
  function Normalised(tasks: seq<StoredTask>): (r: seq<StoredTask>)
    ensures |r| == |tasks|
  {
    seq(|tasks|, k requires 0 <= k < |tasks| => tasks[k].(id := IdAt(tasks, k)))
  }

  /**
   * The renumbered list keeps length and order, gives every task a numeric
   * id, returns tasks that had one unchanged, and changes nothing but the id.
   */
  lemma NormalisedShape(tasks: seq<StoredTask>)
    ensures |Normalised(tasks)| == |tasks|
    ensures forall k :: 0 <= k < |tasks| ==> Normalised(tasks)[k].id.NumId?
    ensures forall k :: 0 <= k < |tasks| && tasks[k].id.NumId? ==> Normalised(tasks)[k] == tasks[k]
    ensures forall k :: 0 <= k < |tasks| ==> Normalised(tasks)[k].(id := tasks[k].id) == tasks[k]
  {
  }

  /** `withIds`: a copy of the list in which every task without a numeric id gets the next number. */
  method WithIds(tasks: seq<StoredTask>) returns (out: seq<StoredTask>)
    ensures out == Normalised(tasks)
  {
    var maxId := MaxNumericId(tasks);
    out := [];
    var i := 0;
    while i < |tasks|
      invariant 0 <= i <= |tasks|
      invariant maxId == MaxNumericId(tasks) + CountOther(tasks[..i])
      invariant out == Normalised(tasks)[..i]
    {
      var t := tasks[i];
      WithIdsStep(tasks, i);
      if t.id.NumId? {
        assert t == t.(id := IdAt(tasks, i));
        out := out + [t];
      } else {
        maxId := maxId + 1;
        assert NumId(maxId) == IdAt(tasks, i);
        out := out + [t.(id := NumId(maxId))];
      }
      i := i + 1;
    }
    assert Normalised(tasks)[..i] == Normalised(tasks);
  }

  /** One step of the renumbering: the task at `i` keeps its id or takes the counter's next value. */
  lemma WithIdsStep(tasks: seq<StoredTask>, i: int)
    requires 0 <= i < |tasks|
    ensures CountOther(tasks[..i + 1]) == CountOther(tasks[..i]) + (if tasks[i].id.NumId? then 0 else 1)
    ensures Normalised(tasks)[..i + 1] == Normalised(tasks)[..i] + [tasks[i].(id := IdAt(tasks, i))]
  {
    assert tasks[..i + 1][..i] == tasks[..i];
  }

  /** Every task without a numeric id before position `k` adds one to the count. */
  lemma {:induction false} CountOtherGrows(tasks: seq<StoredTask>, j: int, k: int)
    requires 0 <= j < k <= |tasks|
    requires !tasks[j].id.NumId?
    ensures CountOther(tasks[..j]) < CountOther(tasks[..k])
    decreases k
  {
    assert tasks[..k][..k - 1] == tasks[..k - 1];
    if j < k - 1 {
      CountOtherGrows(tasks, j, k - 1);
    } else {
      assert tasks[..k - 1] == tasks[..j];
    }
  }

  /**
   * The renumbered tasks get ids above every numeric id of the input, at most
   * the largest one plus the number of renumbered tasks, and no two of them
   * the same id.
   */
  lemma NormalisedNewIds(tasks: seq<StoredTask>)
    ensures forall k :: 0 <= k < |tasks| && !tasks[k].id.NumId? ==>
      MaxNumericId(tasks) < Normalised(tasks)[k].id.n <= MaxNumericId(tasks) + CountOther(tasks)
    ensures forall j, k :: 0 <= j < k < |tasks| && !tasks[j].id.NumId? && !tasks[k].id.NumId? ==>
      Normalised(tasks)[j].id != Normalised(tasks)[k].id
  {
    var r := Normalised(tasks);
    forall k | 0 <= k < |tasks| && !tasks[k].id.NumId?
      ensures r[k].id.n <= MaxNumericId(tasks) + CountOther(tasks)
    {
      assert tasks[..|tasks|] == tasks;
      CountOtherGrows(tasks, k, |tasks|);
    }
    forall j, k | 0 <= j < k < |tasks| && !tasks[j].id.NumId? && !tasks[k].id.NumId?
      ensures r[j].id != r[k].id
    {
      CountOtherGrows(tasks, j, k);
    }
  }

  /** No two tasks share a numeric id. */
  predicate DistinctIds(tasks: seq<StoredTask>) {
    forall j, k :: 0 <= j < k < |tasks| && tasks[j].id.NumId? && tasks[k].id.NumId? ==> tasks[j].id != tasks[k].id
  }

  /** When the numeric ids of the input are distinct, every id of the renumbered list is distinct. */
  lemma NormalisedDistinct(tasks: seq<StoredTask>)
    requires DistinctIds(tasks)
    ensures DistinctIds(Normalised(tasks))
  {
    NormalisedShape(tasks);
    NormalisedNewIds(tasks);
  }

  // ---------------------------------------------------------------------------
  // autoColor

  const FallbackColor := "#3b82f6"

  /** `autoColor({ phase, status })`: an overriding status colour, else the first phase tag found, else blue. */
  function AutoColor(phase: Option<string>, status: Option<string>): (r: string)
    ensures |r| == 7 && r[0] == '#'
  {
    if status == Some("Critical") then "#ef4444"
    else if status == Some("Delayed") then "#f97316"
    else if status == Some("Done") then "#64748b"
    else if Contains(OrElse(phase, ""), "POC") then "#8b5cf6"
    else if Contains(OrElse(phase, ""), "DEV") then "#10b981"
    else if Contains(OrElse(phase, ""), "IND") then "#f59e0b"
    else FallbackColor
  }

  /** The rule as two tables searched in order: statuses that override, then phase tags. */
  const StatusColors: seq<(string, string)> := [("Critical", "#ef4444"), ("Delayed", "#f97316"), ("Done", "#64748b")]
  const PhaseColors: seq<(string, string)> := [("POC", "#8b5cf6"), ("DEV", "#10b981"), ("IND", "#f59e0b")]

  /** The colour of the first row whose key satisfies `hit`. */
  function FirstHit(rows: seq<(string, string)>, hit: string -> bool): (r: Option<string>)
    ensures r.None? <==> forall i :: 0 <= i < |rows| ==> !hit(rows[i].0)
    ensures r.Some? ==>
      exists i :: 0 <= i < |rows| && hit(rows[i].0) && r.value == rows[i].1 && forall j :: 0 <= j < i ==> !hit(rows[j].0)
  {
    if rows == [] then None
    else if hit(rows[0].0) then
      Some(rows[0].1)
    else
      var r := FirstHit(rows[1..], hit);
      assert forall i :: 0 < i < |rows| ==> rows[i] == rows[1..][i - 1];
      r
  }

  /** `autoColor` agrees with the table reading: status rows first, then phase rows, then the fallback. */
  lemma AutoColorByTables(phase: Option<string>, status: Option<string>)
    ensures AutoColor(phase, status)
         == FirstHit(StatusColors, s => status == Some(s)).GetOr(
              FirstHit(PhaseColors, tag => Contains(OrElse(phase, ""), tag)).GetOr(FallbackColor))
  {
    var byStatus := FirstHit(StatusColors, s => status == Some(s));
    var byPhase := FirstHit(PhaseColors, tag => Contains(OrElse(phase, ""), tag));
    assert StatusColors[1..] == [("Delayed", "#f97316"), ("Done", "#64748b")];
    assert StatusColors[1..][1..] == [("Done", "#64748b")];
    assert PhaseColors[1..] == [("DEV", "#10b981"), ("IND", "#f59e0b")];
    assert PhaseColors[1..][1..] == [("IND", "#f59e0b")];
  }

  /** An overriding status decides the colour whatever the phase. */
  lemma {:induction false} StatusOverridesPhase(p1: Option<string>, p2: Option<string>, status: Option<string>)
    requires status.Some? && exists i :: 0 <= i < |StatusColors| && StatusColors[i].0 == status.value
    ensures AutoColor(p1, status) == AutoColor(p2, status)
  {
    var i :| 0 <= i < |StatusColors| && StatusColors[i].0 == status.value;
    assert i == 0 || i == 1 || i == 2;
  }

  // ---------------------------------------------------------------------------
  // POST

  const DefaultStatus := "Pending"
  const DefaultIcon := "fa-tasks"
  const MissingFields := "Missing required fields: task, phase, start_week, duration"

  /** The `reduce` for the next id over the renumbered list (there `t.id || 0` is `t.id`), plus one. */
  function NextId(tasks: seq<StoredTask>): (r: int)
    requires forall k :: 0 <= k < |tasks| ==> tasks[k].id.NumId?
    ensures r >= 1
    ensures forall k :: 0 <= k < |tasks| ==> tasks[k].id.n < r
  {
    MaxNumericId(tasks) + 1
  }

  /**
   * The task the POST path builds. Status and icon fall back to their
   * defaults; the colour is the posted one or else `autoColor` of the posted
   * phase and of the posted status as it came, before its default.
   */
  function NewTask(id: int, body: RequestBody): (r: StoredTask)
    ensures r.id == NumId(id) && r.task == body.task && r.phase == body.phase
    ensures r.startWeek == Some(body.startWeek) && r.duration == Some(body.duration)
    ensures r.status == Some(if Truthy(body.status) then body.status.value else DefaultStatus)
    ensures r.color == Some(if Truthy(body.color) then body.color.value else AutoColor(body.phase, body.status))
    ensures r.icon == Some(if Truthy(body.icon) then body.icon.value else DefaultIcon)
  {
    StoredTask(
      NumId(id), body.task, body.phase, Some(body.startWeek), Some(body.duration),
      Some(OrElse(body.status, DefaultStatus)),
      Some(OrElse(body.color, AutoColor(body.phase, body.status))),
      Some(OrElse(body.icon, DefaultIcon)))
  }

  /**
   * A posted task is always stored with a non-empty status, colour and icon,
   * and one posted without a colour but with an overriding status gets that
   * status's colour from the table.
   */
  lemma {:induction false} NewTaskFieldsSet(id: int, body: RequestBody)
    ensures Truthy(NewTask(id, body).status) && Truthy(NewTask(id, body).icon)
    ensures Truthy(NewTask(id, body).color)
    ensures !Truthy(body.color) ==> forall i :: 0 <= i < |StatusColors| && body.status == Some(StatusColors[i].0) ==>
      NewTask(id, body).color == Some(StatusColors[i].1)
  {
    var r := NewTask(id, body);
    assert DefaultStatus != "" && DefaultIcon != "";
    if !Truthy(body.color) {
      forall i | 0 <= i < |StatusColors| && body.status == Some(StatusColors[i].0)
        ensures r.color == Some(StatusColors[i].1)
      {
        assert i == 0 || i == 1 || i == 2;
      }
    }
  }

  /** A task posted without status is stored as `Pending` but coloured by its phase, as a non-overriding status would be. */
  lemma {:induction false} MissingStatusColour(id: int, body: RequestBody, other: string)
    requires body.status.None? && !Truthy(body.color)
    requires other !in {"Critical", "Delayed", "Done"}
    ensures NewTask(id, body).status == Some(DefaultStatus)
    ensures NewTask(id, body).color == Some(AutoColor(body.phase, Some(other)))
  {
  }

  /** The validation: task and phase are non-empty, start week and duration are numbers other than 0. */
  predicate Complete(body: RequestBody) {
    Truthy(body.task) && Truthy(body.phase) && NumTruthy(body.startWeek) && NumTruthy(body.duration)
  }

  /** What a request gets back; `Created` carries the list that is written. */
  datatype Response =
    | Listed(tasks: seq<StoredTask>)
    | BadRequest(error: string)
    | Created(id: int, written: seq<StoredTask>)
    | MethodNotAllowed

  function StatusCode(r: Response): (code: int)
    ensures code in {200, 400, 201, 405}
  {
    match r
    case Listed(_) => 200
    case BadRequest(_) => 400
    case Created(_, _) => 201
    case MethodNotAllowed => 405
  }

  /**
   * The POST branch: renumber the stored list, take the next id, build the
   * task, and either reject the request (writing nothing) or append the task.
   */
  method PostTask(stored: seq<StoredTask>, body: RequestBody) returns (r: Response)
    ensures r.BadRequest? || r.Created?
    ensures r.BadRequest? <==> !Complete(body)
    ensures r.BadRequest? ==> r.error == MissingFields
    ensures r.Created? ==> |r.written| == |stored| + 1 && r.written[..|stored|] == Normalised(stored)
    ensures r.Created? ==> r.written[|stored|] == NewTask(r.id, body)
    ensures r.Created? ==> forall k :: 0 <= k < |stored| ==> r.written[k].id.NumId? && r.written[k].id.n < r.id
    ensures r.Created? && DistinctIds(stored) ==> DistinctIds(r.written)
  {
    var tasks := WithIds(stored);
    NormalisedShape(stored);
    var nextId := NextId(tasks);
    var newTask := NewTask(nextId, body);
    if !Complete(body) {
      return BadRequest(MissingFields);
    }
    var updated := tasks + [newTask];
    assert updated[..|stored|] == tasks;
    if DistinctIds(stored) {
      NormalisedDistinct(stored);
    }
    r := Created(nextId, updated);
  }

  datatype Verb = Get | Post | OtherVerb

  /** The handler: GET lists the renumbered tasks, POST adds one, any other verb is refused. */
  method Handle(verb: Verb, stored: seq<StoredTask>, body: RequestBody) returns (r: Response)
    ensures verb == Get ==> r == Listed(Normalised(stored))
    ensures verb == Post ==> (StatusCode(r) == 400 <==> !Complete(body))
    ensures verb == Post && Complete(body) ==>
      r.Created? && StatusCode(r) == 201 && |r.written| == |stored| + 1 && r.written[..|stored|] == Normalised(stored)
    ensures verb == OtherVerb ==> StatusCode(r) == 405
  {
    match verb
    case Get =>
      var out := WithIds(stored);
      r := Listed(out);
    case Post =>
      r := PostTask(stored, body);
    case OtherVerb =>
      r := MethodNotAllowed;
  }
}
