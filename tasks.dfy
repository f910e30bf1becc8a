/** The task list (`pages/Tasks.tsx`): a text search and a status filter over
    the sample tasks, the filter button's label, and the route a task opens.
    The sample tasks are a parameter. */
module Tasks {
  import opened Wrappers
  import Text
  import Lists
  import App

  datatype Status = InProgress | Completed | Pending

  datatype Task = Task(id: string, title: string, preview: string, status: Status)

  /** `statusConfig[status].label`. */
  function StatusLabel(s: Status): string {
    match s
    case InProgress => "In Progress"
    case Completed => "Completed"
    case Pending => "Pending"
  }

  /** The filter button: "All Status" with no filter, otherwise the status's label. */
  function FilterLabel(filter: Option<Status>): (caption: string)
    ensures filter.None? <==> caption == "All Status"
    ensures filter.Some? ==> caption == StatusLabel(filter.value)
  {
    match filter
    case None => "All Status"
    case Some(s) => StatusLabel(s)
  }

  /** Distinct statuses have distinct labels, so the label identifies the filter. */
  lemma FilterLabelInjective(a: Option<Status>, b: Option<Status>)
    ensures FilterLabel(a) == FilterLabel(b) ==> a == b
  {
  }

  /** A task is kept when its title or preview contains the query, ignoring case,
      and the filter is absent or equals its status. */
  predicate Keeps(t: Task, query: string, filter: Option<Status>) {
    (Text.ContainsIgnoringCase(t.title, query) || Text.ContainsIgnoringCase(t.preview, query))
    && (filter.None? || t.status == filter.value)
  }

  /** `filteredTasks`. */
  function FilteredTasks(tasks: seq<Task>, query: string, filter: Option<Status>): (kept: seq<Task>)
    ensures forall t :: t in kept <==> t in tasks && Keeps(t, query, filter)
    ensures forall t :: multiset(kept)[t] == if Keeps(t, query, filter) then multiset(tasks)[t] else 0
    ensures Lists.IsSubsequence(kept, tasks)
    ensures query == "" && filter.None? ==> kept == tasks
  {
    var keep := (t: Task) => Keeps(t, query, filter);
    Lists.FilterMembershipAll(tasks, keep);
    Lists.FilterMultiplicityAll(tasks, keep);
    Lists.FilterIsSubsequence(tasks, keep);
    Text.EmptyQueryMatchesAll();
    if query == "" && filter.None? then
      Lists.FilterKeepsAll(tasks, keep);
      Lists.Filter(tasks, keep)
    else Lists.Filter(tasks, keep)
  }

  /** Choosing a status narrows the list: what it keeps is an order-preserving
      part of what "All Status" keeps for the same query, and every kept task
      has that status. */
  lemma StatusFilterNarrows(tasks: seq<Task>, query: string, s: Status)
    ensures Lists.IsSubsequence(FilteredTasks(tasks, query, Some(s)), FilteredTasks(tasks, query, None))
    ensures forall t | t in FilteredTasks(tasks, query, Some(s)) :: t.status == s
  {
    var strict := (t: Task) => Keeps(t, query, Some(s));
    var loose := (t: Task) => Keeps(t, query, None);
    Lists.FilterNarrowing(tasks, strict, loose);
    assert FilteredTasks(tasks, query, Some(s)) == Lists.Filter(tasks, strict);
    assert FilteredTasks(tasks, query, None) == Lists.Filter(tasks, loose);
  }

  /** "No tasks found." is shown exactly when no task passes both tests. */
  lemma NoTasksFoundIffNoneKept(tasks: seq<Task>, query: string, filter: Option<Status>)
    ensures FilteredTasks(tasks, query, filter) == [] <==> forall i | 0 <= i < |tasks| :: !Keeps(tasks[i], query, filter)
  {
    var keep := (t: Task) => Keeps(t, query, filter);
    Lists.FilterEmptyIffNonePass(tasks, keep);
    assert FilteredTasks(tasks, query, filter) == Lists.Filter(tasks, keep);
  }

  /** Clicking a task navigates to `/task/` followed by its id. */
  function TaskPath(id: string): (p: string)
    ensures |p| == 6 + |id| && p[..6] == "/task/" && p[6..] == id
  {
    "/task/" + id
  }

  /** A task whose id is a single path segment opens the task page for that id. */
  lemma TaskPathOpensTask(id: string)
    requires App.IsSegment(id)
    ensures App.Match(TaskPath(id)).page == App.TaskPage(id)
  {
    var p := TaskPath(id);
    assert App.StripTrailingSlashes(p) == p;
    var key := Text.Lower(p);
    assert key[..6] == "/task/" && |key| > 6;
    assert key[1] == 't' && key[5] == '/';
    assert key != "/auth" && key != "/auth/callback" && key != "" && key != "/tasks";
    assert key != "/search" && key != "/settings";
  }
}
