/**
 * The search box of the planning page: `getFilteredTasks` keeps the tasks
 * whose name, phase or id contains the lower-cased, trimmed query, and keeps
 * every task when that query is empty.
 */
module TaskFilter {
  import opened JsValues
  import opened PlanDocument

  /** The query as the page compares it: lower-cased, then trimmed. */
  function Needle(query: string): string {
    Trim(ToLower(query))
  }

  /** `String(t.id)`: a missing id reads as the text "null". */
  function IdText(id: Option<string>): string {
    match id
    case Some(s) => s
    case None => "null"
  }

  function NameMatches(t: Task, needle: string): bool
    requires t.name.Some?
  {
    Contains(ToLower(t.name.value), needle)
  }

  /**
   * The page can evaluate the filter callback on `t` without a TypeError:
   * the name is present, and so is the phase unless the name already matched.
   */
  predicate Testable(t: Task, needle: string) {
    t.name.Some? && (NameMatches(t, needle) || t.phase.Some?)
  }

  /** The filter callback: a match in the name, else in the phase, else in the id. */
  predicate Matches(t: Task, needle: string)
    requires Testable(t, needle)
  {
    NameMatches(t, needle)
    || Contains(ToLower(t.phase.value), needle)
    || Contains(ToLower(IdText(t.id)), needle)
  }

  predicate AllTestable(tasks: seq<Task>, needle: string) {
    forall i :: 0 <= i < |tasks| ==> Testable(tasks[i], needle)
  }

  /** The filter callback's verdict, false where the page would throw. */
  predicate Kept(t: Task, needle: string) {
    Testable(t, needle) && Matches(t, needle)
  }

  /** `tasks.filter(...)`: the matching tasks, in their order. */
  function KeepMatching(tasks: seq<Task>, needle: string): (r: seq<Task>)
    ensures |r| <= |tasks|
  {
    Select(tasks, t => Kept(t, needle))
  }

  /** The search box's filter can be evaluated on every task: it is blank, or no task makes it throw. */
  predicate Filterable(tasks: seq<Task>, query: string) {
    Needle(query) == "" || AllTestable(tasks, Needle(query))
  }

  /** `getFilteredTasks()`: every task when the query is blank, else the matching ones. */
  function FilteredTasks(tasks: seq<Task>, query: string): (r: seq<Task>)
    requires Needle(query) != "" ==> AllTestable(tasks, Needle(query))
    ensures Needle(query) == "" ==> r == tasks
    ensures |r| <= |tasks|
  {
    if Needle(query) == "" then tasks else KeepMatching(tasks, Needle(query))
  }

  // ---------------------------------------------------------------------------
  // Array.prototype.filter

  /** The elements of `s` that satisfy `keep`, in order. */
  function Select<T>(s: seq<T>, keep: T -> bool): (r: seq<T>)
    ensures |r| <= |s|
  {
    if s == [] then []
    else Select(s[..|s| - 1], keep) + (if keep(s[|s| - 1]) then [s[|s| - 1]] else [])
  }

  lemma {:induction false} SelectMembers<T>(s: seq<T>, keep: T -> bool, x: T)
    ensures x in Select(s, keep) <==> x in s && keep(x)
    decreases |s|
  {
    if s != [] {
      var init := s[..|s| - 1];
      SelectMembers(init, keep, x);
      assert s == init + [s[|s| - 1]];
    }
  }

  /** `sub` is `s` with some elements removed, the rest in their order (matched from the back). */
  predicate IsSubsequence<T(==)>(sub: seq<T>, s: seq<T>)
    decreases |s|
  {
    if sub == [] then true
    else if s == [] then false
    else if sub[|sub| - 1] == s[|s| - 1] then IsSubsequence(sub[..|sub| - 1], s[..|s| - 1])
    else IsSubsequence(sub, s[..|s| - 1])
  }

  lemma {:induction false} SelectOrder<T>(s: seq<T>, keep: T -> bool)
    ensures IsSubsequence(Select(s, keep), s)
    decreases |s|
  {
    if s != [] {
      var init, last := s[..|s| - 1], s[|s| - 1];
      SelectOrder(init, keep);
      var k := Select(init, keep);
      assert s == init + [last];
      if keep(last) {
        var k' := k + [last];
        assert Select(s, keep) == k';
        assert k'[..|k'| - 1] == k;
        assert IsSubsequence(k', s);
      } else {
        assert Select(s, keep) == k;
        SubsequenceLonger(k, init, last);
      }
    }
  }

  /** A subsequence of `s` is also one of `s` with an element appended. */
  lemma {:induction false} SubsequenceLonger<T>(sub: seq<T>, s: seq<T>, x: T)
    requires IsSubsequence(sub, s)
    ensures IsSubsequence(sub, s + [x])
    decreases |s|, 1
  {
    var s' := s + [x];
    assert s'[..|s'| - 1] == s;
    if sub != [] && sub[|sub| - 1] == x {
      SubsequenceDropLast(sub, s);
    }
  }

  lemma {:induction false} SubsequenceDropLast<T>(sub: seq<T>, s: seq<T>)
    requires sub != [] && IsSubsequence(sub, s)
    ensures IsSubsequence(sub[..|sub| - 1], s)
    decreases |s|, 0
  {
    var init := sub[..|sub| - 1];
    assert s != [];
    if sub[|sub| - 1] == s[|s| - 1] {
      SubsequenceLonger(init, s[..|s| - 1], s[|s| - 1]);
    } else {
      SubsequenceDropLast(sub, s[..|s| - 1]);
      SubsequenceLonger(init, s[..|s| - 1], s[|s| - 1]);
    }
    assert s[..|s| - 1] + [s[|s| - 1]] == s;
  }

  lemma {:induction false} SubsequenceReflexive<T>(s: seq<T>)
    ensures IsSubsequence(s, s)
    decreases |s|
  {
    if s != [] {
      SubsequenceReflexive(s[..|s| - 1]);
    }
  }

  /** Selecting from a selection with the same test changes nothing. */
  lemma {:induction false} SelectIdempotent<T>(s: seq<T>, keep: T -> bool)
    ensures Select(Select(s, keep), keep) == Select(s, keep)
    decreases |s|
  {
    if s != [] {
      var init, last := s[..|s| - 1], s[|s| - 1];
      SelectIdempotent(init, keep);
      var k := Select(init, keep);
      if keep(last) {
        var k' := k + [last];
        assert Select(s, keep) == k';
        assert k'[..|k'| - 1] == k;
        assert Select(k', keep) == Select(k, keep) + [last];
      } else {
        assert Select(s, keep) == k;
      }
    }
  }

  // ---------------------------------------------------------------------------
  // Properties of the search

  /** A task is shown exactly when it is in the plan and, for a non-blank query, its name, phase or id contains it. */
  lemma FilteredTasksMembers(tasks: seq<Task>, query: string, t: Task)
    requires Needle(query) != "" ==> AllTestable(tasks, Needle(query))
    ensures t in FilteredTasks(tasks, query) <==>
      t in tasks && (Needle(query) == "" || Matches(t, Needle(query)))
  {
    if Needle(query) != "" {
      SelectMembers(tasks, t => Kept(t, Needle(query)), t);
    }
  }

  /** The shown tasks keep the plan's order. */
  lemma FilteredTasksOrder(tasks: seq<Task>, query: string)
    requires Needle(query) != "" ==> AllTestable(tasks, Needle(query))
    ensures IsSubsequence(FilteredTasks(tasks, query), tasks)
  {
    if Needle(query) != "" {
      SelectOrder(tasks, t => Kept(t, Needle(query)));
    } else {
      SubsequenceReflexive(tasks);
    }
  }

  /** Searching the shown tasks again with the same query shows the same tasks. */
  lemma FilteredTasksIdempotent(tasks: seq<Task>, query: string)
    requires Needle(query) != "" ==> AllTestable(tasks, Needle(query))
    ensures Needle(query) != "" ==> AllTestable(FilteredTasks(tasks, query), Needle(query))
    ensures FilteredTasks(FilteredTasks(tasks, query), query) == FilteredTasks(tasks, query)
  {
    var needle := Needle(query);
    if needle != "" {
      SelectIdempotent(tasks, t => Kept(t, needle));
      forall i | 0 <= i < |FilteredTasks(tasks, query)|
        ensures Testable(FilteredTasks(tasks, query)[i], needle)
      {
        SelectMembers(tasks, t => Kept(t, needle), FilteredTasks(tasks, query)[i]);
      }
    }
  }
}
