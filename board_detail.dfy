/** The board page of src/components/BoardDetailPage.jsx: sorting, the per-column filters, the
    column and task handlers, the save filter, and the page state that ties them together. */
module BoardDetail {
  import opened Wrappers
  import opened Entities
  import opened Seqs
  import Text
  import BoardDrag

  // ---------------------------------------------------------------------------------------------
  // Sorting (`handleSortChange`)

  /** The four choices of the sort selector. */
  datatype SortBy = ByCreatedAt | ByDueDate | ByPriority | ByAssignee

  /** `localeCompare`, modelled as code-point lexicographic order. */
  function CompareStrings(x: string, y: string): (r: int)
    ensures -1 <= r <= 1
    ensures r == 0 <==> x == y
  {
    if x == [] && y == [] then 0
    else if x == [] then -1
    else if y == [] then 1
    else if x[0] < y[0] then -1
    else if x[0] > y[0] then 1
    else CompareStrings(x[1..], y[1..])
  }

  lemma {:induction false} CompareStringsFlip(x: string, y: string)
    ensures CompareStrings(y, x) == -CompareStrings(x, y)
  {
    if x != [] && y != [] && x[0] == y[0] {
      CompareStringsFlip(x[1..], y[1..]);
    }
  }

  lemma {:induction false} CompareStringsTransitive(x: string, y: string, z: string)
    requires CompareStrings(x, y) <= 0 && CompareStrings(y, z) <= 0
    ensures CompareStrings(x, z) <= 0
  {
    if x != [] && y != [] && z != [] && x[0] == y[0] == z[0] {
      CompareStringsTransitive(x[1..], y[1..], z[1..]);
    }
  }

  /** `Array.isArray(a) ? a[0] : a`: the assignee a task sorts by; `None` for `undefined`. */
  function SortAssignee(a: Assignees): Option<string> {
    match a
    case AssigneeList(ids) => if |ids| > 0 then Some(ids[0]) else None
    case SingleAssignee(id) => Some(id)
    case Unassigned => None
  }

  /** `users.find(m => m.id === key)?.name || ''`. */
  function NameOf(users: seq<User>, key: Option<string>): (name: string)
    ensures name != "" ==> key.Some? && exists i :: 0 <= i < |users| && users[i].id == key.value && users[i].name == name
    ensures key.None? ==> name == ""
  {
    if key.None? || users == [] then ""
    else if users[0].id == key.value then users[0].name
    else NameOf(users[1..], key)
  }

  /** The comparator of lines 82-100: negative when `a` sorts first. */
  function Compare(order: SortBy, users: seq<User>, a: Task, b: Task): int {
    match order
    case ByDueDate =>
      if a.dueDate.None? && b.dueDate.None? then 0
      else if a.dueDate.None? then 1
      else if b.dueDate.None? then -1
      else a.dueDate.value - b.dueDate.value
    case ByPriority => PriorityRank(b.priority) - PriorityRank(a.priority)
    case ByAssignee => CompareStrings(NameOf(users, SortAssignee(a.assignedTo)), NameOf(users, SortAssignee(b.assignedTo)))
    case ByCreatedAt => b.createdAt - a.createdAt
  }

  /** `a` may come before `b`. */
  predicate Before(order: SortBy, users: seq<User>, a: Task, b: Task) {
    Compare(order, users, a, b) <= 0
  }

  /** Every comparator is total ... */
  lemma BeforeTotal(order: SortBy, users: seq<User>, a: Task, b: Task)
    ensures Before(order, users, a, b) || Before(order, users, b, a)
  {
    if order.ByAssignee? {
      CompareStringsFlip(NameOf(users, SortAssignee(a.assignedTo)), NameOf(users, SortAssignee(b.assignedTo)));
    }
  }

  /** ... and transitive, so it is a total preorder and the stable sort result is well defined. */
  lemma BeforeTransitive(order: SortBy, users: seq<User>, a: Task, b: Task, c: Task)
    requires Before(order, users, a, b) && Before(order, users, b, c)
    ensures Before(order, users, a, c)
  {
    if order.ByAssignee? {
      CompareStringsTransitive(NameOf(users, SortAssignee(a.assignedTo)), NameOf(users, SortAssignee(b.assignedTo)),
        NameOf(users, SortAssignee(c.assignedTo)));
    }
  }

  predicate SortedBy(order: SortBy, users: seq<User>, s: seq<Task>) {
    forall i, j :: 0 <= i < j < |s| ==> Before(order, users, s[i], s[j])
  }

  /** Inserts `x` after the last element that may precede it. */
  function InsertSorted(order: SortBy, users: seq<User>, sorted: seq<Task>, x: Task): seq<Task>
    decreases |sorted|
  {
    if sorted == [] || Before(order, users, sorted[|sorted| - 1], x) then sorted + [x]
    else InsertSorted(order, users, sorted[..|sorted| - 1], x) + [sorted[|sorted| - 1]]
  }

  /** `Array.prototype.sort` with the comparator: a stable sort, written as insertion sort. */
  function SortTasks(order: SortBy, users: seq<User>, tasks: seq<Task>): seq<Task>
    decreases |tasks|
  {
    if tasks == [] then []
    else InsertSorted(order, users, SortTasks(order, users, tasks[..|tasks| - 1]), tasks[|tasks| - 1])
  }

  lemma {:induction false} InsertSortedCorrect(order: SortBy, users: seq<User>, sorted: seq<Task>, x: Task)
    requires SortedBy(order, users, sorted)
    ensures SortedBy(order, users, InsertSorted(order, users, sorted, x))
    ensures multiset(InsertSorted(order, users, sorted, x)) == multiset(sorted) + multiset{x}
    decreases |sorted|
  {
    if sorted == [] {
    } else if Before(order, users, sorted[|sorted| - 1], x) {
      var last := sorted[|sorted| - 1];
      forall i | 0 <= i < |sorted| - 1 ensures Before(order, users, sorted[i], x) {
        BeforeTransitive(order, users, sorted[i], last, x);
      }
      AppendLast(order, users, sorted, x);
    } else {
      var init := sorted[..|sorted| - 1];
      var last := sorted[|sorted| - 1];
      assert sorted == init + [last];
      InsertSortedCorrect(order, users, init, x);
      var r' := InsertSorted(order, users, init, x);
      BeforeTotal(order, users, last, x);
      PermutedBeforeLast(order, users, init, x, last, r');
      AppendLast(order, users, r', last);
    }
  }

  /** Appending an element that every element may precede keeps a list sorted. */
  lemma AppendLast(order: SortBy, users: seq<User>, s: seq<Task>, last: Task)
    requires SortedBy(order, users, s)
    requires forall i :: 0 <= i < |s| ==> Before(order, users, s[i], last)
    ensures SortedBy(order, users, s + [last])
  {
  }

  /** If every element of `init`, and `x`, may precede `last`, so may every element of a permutation of them. */
  lemma PermutedBeforeLast(order: SortBy, users: seq<User>, init: seq<Task>, x: Task, last: Task, r: seq<Task>)
    requires forall i :: 0 <= i < |init| ==> Before(order, users, init[i], last)
    requires Before(order, users, x, last)
    requires multiset(r) == multiset(init) + multiset{x}
    ensures forall i :: 0 <= i < |r| ==> Before(order, users, r[i], last)
  {
    forall i | 0 <= i < |r| ensures Before(order, users, r[i], last) {
      assert r[i] in multiset(init) + multiset{x};
      if r[i] != x {
        assert r[i] in init;
      }
    }
  }

  /** The sorted list is ordered by the comparator and is a permutation of the tasks. */
  lemma {:induction false} SortTasksCorrect(order: SortBy, users: seq<User>, tasks: seq<Task>)
    ensures SortedBy(order, users, SortTasks(order, users, tasks))
    ensures multiset(SortTasks(order, users, tasks)) == multiset(tasks)
    decreases |tasks|
  {
    if tasks != [] {
      var init := tasks[..|tasks| - 1];
      SortTasksCorrect(order, users, init);
      InsertSortedCorrect(order, users, SortTasks(order, users, init), tasks[|tasks| - 1]);
      assert tasks == init + [tasks[|tasks| - 1]];
    }
  }

  /** Sorting a list already in order changes nothing (the sort is stable), so sorting twice is sorting once. */
  lemma {:induction false} SortTasksOfSorted(order: SortBy, users: seq<User>, tasks: seq<Task>)
    requires SortedBy(order, users, tasks)
    ensures SortTasks(order, users, tasks) == tasks
    decreases |tasks|
  {
    if tasks != [] {
      var init := tasks[..|tasks| - 1];
      SortTasksOfSorted(order, users, init);
      assert tasks == init + [tasks[|tasks| - 1]];
    }
  }

  lemma SortTasksIdempotent(order: SortBy, users: seq<User>, tasks: seq<Task>)
    ensures SortTasks(order, users, SortTasks(order, users, tasks)) == SortTasks(order, users, tasks)
  {
    SortTasksCorrect(order, users, tasks);
    SortTasksOfSorted(order, users, SortTasks(order, users, tasks));
  }

  /** Sorting by priority puts high before medium before low before tasks without a priority. */
  lemma SortByPriorityOrder(users: seq<User>, tasks: seq<Task>)
    ensures var r := SortTasks(ByPriority, users, tasks);
      forall i, j :: 0 <= i < j < |r| ==> PriorityRank(r[i].priority) >= PriorityRank(r[j].priority)
  {
    SortTasksCorrect(ByPriority, users, tasks);
  }

  /** Sorting by due date puts dated tasks first, earliest first, and undated tasks last. */
  lemma SortByDueDateOrder(users: seq<User>, tasks: seq<Task>)
    ensures var r := SortTasks(ByDueDate, users, tasks);
      forall i, j :: 0 <= i < j < |r| ==>
        (r[i].dueDate.None? ==> r[j].dueDate.None?) &&
        (r[i].dueDate.Some? && r[j].dueDate.Some? ==> r[i].dueDate.value <= r[j].dueDate.value)
  {
    SortTasksCorrect(ByDueDate, users, tasks);
  }

  /** The default sort puts the newest task first. */
  lemma SortByCreatedAtOrder(users: seq<User>, tasks: seq<Task>)
    ensures var r := SortTasks(ByCreatedAt, users, tasks);
      forall i, j :: 0 <= i < j < |r| ==> r[i].createdAt >= r[j].createdAt
  {
    SortTasksCorrect(ByCreatedAt, users, tasks);
  }

  // ---------------------------------------------------------------------------------------------
  // Filtering (`getFilteredTasks`)

  /** The selector value that switches a filter off. */
  const AllFilter: string := "all"

  /** Case-insensitive substring search in the title or the description. */
  predicate MatchesSearch(t: Task, query: string) {
    || Text.Includes(Text.ToLower(t.title), Text.ToLower(query))
    || Text.Includes(Text.ToLower(t.description), Text.ToLower(query))
  }

  /** `task.priority === priorityFilter`. */
  predicate HasPriority(t: Task, priorityFilter: string) {
    t.priority != Unranked && PriorityName(t.priority) == priorityFilter
  }

  /** Each stage of the pipeline, true when that stage is switched off. */
  predicate SearchOk(t: Task, query: string) {
    query == "" || MatchesSearch(t, query)
  }

  predicate PriorityOk(t: Task, priorityFilter: string) {
    priorityFilter == AllFilter || HasPriority(t, priorityFilter)
  }

  predicate AssigneeOk(t: Task, assigneeFilter: string) {
    assigneeFilter == AllFilter || assigneeFilter in AssigneeIds(t.assignedTo)
  }

  /** A task is shown in column `columnId` under the given search and filters. */
  predicate Shown(t: Task, columnId: string, query: string, priorityFilter: string, assigneeFilter: string) {
    t.columnId == columnId && SearchOk(t, query) && PriorityOk(t, priorityFilter) && AssigneeOk(t, assigneeFilter)
  }

  function ShownBy(columnId: string, query: string, priorityFilter: string, assigneeFilter: string): Task -> bool {
    (t: Task) => Shown(t, columnId, query, priorityFilter, assigneeFilter)
  }

  /** The callbacks of the pipeline's stages. */
  function SearchFilter(query: string): Task -> bool {
    (t: Task) => SearchOk(t, query)
  }

  function PriorityFilter(priorityFilter: string): Task -> bool {
    (t: Task) => PriorityOk(t, priorityFilter)
  }

  function AssigneeFilter(assigneeFilter: string): Task -> bool {
    (t: Task) => AssigneeOk(t, assigneeFilter)
  }

  /** The tasks past the first two stages, and past the first three. */
  function SearchedBy(columnId: string, query: string): Task -> bool {
    (t: Task) => t.columnId == columnId && SearchOk(t, query)
  }

  function PrioritizedBy(columnId: string, query: string, priorityFilter: string): Task -> bool {
    (t: Task) => t.columnId == columnId && SearchOk(t, query) && PriorityOk(t, priorityFilter)
  }

  function SearchStage(tasks: seq<Task>, columnId: string, query: string): seq<Task> {
    var inColumn := Filter(tasks, BoardDrag.InColumn(columnId));
    if query != "" then Filter(inColumn, SearchFilter(query)) else inColumn
  }

  function PriorityStage(tasks: seq<Task>, columnId: string, query: string, priorityFilter: string): seq<Task> {
    var searched := SearchStage(tasks, columnId, query);
    if priorityFilter != AllFilter then Filter(searched, PriorityFilter(priorityFilter)) else searched
  }

  /** The filter pipeline of lines 106-132: column, then search, then priority, then assignee. */
  function FilteredTasks(tasks: seq<Task>, columnId: string, query: string, priorityFilter: string, assigneeFilter: string): seq<Task> {
    var byPriority := PriorityStage(tasks, columnId, query, priorityFilter);
    if assigneeFilter != AllFilter then Filter(byPriority, AssigneeFilter(assigneeFilter)) else byPriority
  }

  lemma SearchStageIsFilter(tasks: seq<Task>, columnId: string, query: string)
    ensures SearchStage(tasks, columnId, query) == Filter(tasks, SearchedBy(columnId, query))
  {
    var col := BoardDrag.InColumn(columnId);
    var search := SearchFilter(query);
    if query == "" {
      FilterAll(Filter(tasks, col), search);
    }
    FilterTwice(tasks, col, search, SearchedBy(columnId, query));
  }

  lemma PriorityStageIsFilter(tasks: seq<Task>, columnId: string, query: string, priorityFilter: string)
    ensures PriorityStage(tasks, columnId, query, priorityFilter) == Filter(tasks, PrioritizedBy(columnId, query, priorityFilter))
  {
    SearchStageIsFilter(tasks, columnId, query);
    var searched := SearchedBy(columnId, query);
    var priority := PriorityFilter(priorityFilter);
    if priorityFilter == AllFilter {
      FilterAll(Filter(tasks, searched), priority);
    }
    FilterTwice(tasks, searched, priority, PrioritizedBy(columnId, query, priorityFilter));
  }

  /** The staged pipeline is one filter by `Shown`. */
  lemma FilteredTasksIsShown(tasks: seq<Task>, columnId: string, query: string, priorityFilter: string, assigneeFilter: string)
    ensures FilteredTasks(tasks, columnId, query, priorityFilter, assigneeFilter)
         == Filter(tasks, ShownBy(columnId, query, priorityFilter, assigneeFilter))
  {
    PriorityStageIsFilter(tasks, columnId, query, priorityFilter);
    var prioritized := PrioritizedBy(columnId, query, priorityFilter);
    var withAssignee := AssigneeFilter(assigneeFilter);
    if assigneeFilter == AllFilter {
      FilterAll(Filter(tasks, prioritized), withAssignee);
    }
    FilterTwice(tasks, prioritized, withAssignee, ShownBy(columnId, query, priorityFilter, assigneeFilter));
  }

  /** A column shows exactly the tasks that pass every filter, in board order. */
  lemma FilteredTasksExactlyShown(tasks: seq<Task>, columnId: string, query: string, priorityFilter: string, assigneeFilter: string)
    ensures var r := FilteredTasks(tasks, columnId, query, priorityFilter, assigneeFilter);
      && IsSubsequence(r, tasks)
      && (forall i :: 0 <= i < |r| ==> Shown(r[i], columnId, query, priorityFilter, assigneeFilter))
      && (forall i :: 0 <= i < |tasks| && Shown(tasks[i], columnId, query, priorityFilter, assigneeFilter) ==> tasks[i] in r)
  {
    FilteredTasksIsShown(tasks, columnId, query, priorityFilter, assigneeFilter);
    FilterIsSubsequence(tasks, ShownBy(columnId, query, priorityFilter, assigneeFilter));
  }

  /** With an empty search and both selectors on "all", a column shows all of its tasks. */
  lemma UnfilteredShowsColumn(tasks: seq<Task>, columnId: string)
    ensures FilteredTasks(tasks, columnId, "", AllFilter, AllFilter) == BoardDrag.ColumnTasks(tasks, columnId)
  {
  }

  // ---------------------------------------------------------------------------------------------
  // Column and task handlers

  /** The title `addColumn` gives a new column. */
  const NewColumnTitle: string := "New Column"

  /** `editColumn(columnId, { title })`: every column with that id takes the new title. */
  function RetitleColumns(columns: seq<Column>, columnId: string, title: string): (r: seq<Column>)
    ensures |r| == |columns|
    ensures forall i :: 0 <= i < |r| ==>
      r[i].id == columns[i].id && r[i].createdAt == columns[i].createdAt &&
      r[i].title == (if columns[i].id == columnId then title else columns[i].title)
  {
    if columns == [] then []
    else
      var c := columns[0];
      [if c.id == columnId then c.(title := title) else c] + RetitleColumns(columns[1..], columnId, title)
  }

  /** Renaming twice with the same title is renaming once. */
  lemma RetitleIdempotent(columns: seq<Column>, columnId: string, title: string)
    ensures RetitleColumns(RetitleColumns(columns, columnId, title), columnId, title) == RetitleColumns(columns, columnId, title)
  {
    var once := RetitleColumns(columns, columnId, title);
    var twice := RetitleColumns(once, columnId, title);
    assert forall i :: 0 <= i < |once| ==> twice[i] == once[i];
  }

  /** `deleteColumn`, once confirmed: the column goes, and so do its tasks. */
  function DeleteColumnColumns(columns: seq<Column>, columnId: string): seq<Column> {
    Filter(columns, (c: Column) => c.id != columnId)
  }

  function DeleteColumnTasks(tasks: seq<Task>, columnId: string): seq<Task> {
    Filter(tasks, (t: Task) => t.columnId != columnId)
  }

  /** After deleting a column no column keeps its id and no task stays in it; everything else stays, in order. */
  lemma DeleteColumnCascades(columns: seq<Column>, tasks: seq<Task>, columnId: string)
    ensures var cs := DeleteColumnColumns(columns, columnId);
      forall c :: c in cs <==> c in columns && c.id != columnId
    ensures var ts := DeleteColumnTasks(tasks, columnId);
      (forall t :: t in ts <==> t in tasks && t.columnId != columnId) && IsSubsequence(ts, tasks)
  {
    FilterIsSubsequence(tasks, (t: Task) => t.columnId != columnId);
  }

  /** The task `addTask` appends: the form data, placed in the column, created by `currentUser?._id`. */
  function NewTask(taskData: Task, columnId: string, currentUser: Option<User>): Task {
    taskData.(columnId := columnId, createdBy := MongoIdRef(currentUser))
  }

  /** `editTask`: each task with the edited id is replaced by the form data, keeping its
      creator when the form has none. */
  function ReplaceTask(tasks: seq<Task>, taskData: Task, currentUser: Option<User>): (r: seq<Task>)
    ensures |r| == |tasks|
    ensures forall i :: 0 <= i < |r| ==>
      if tasks[i].id == taskData.id
      then r[i] == taskData.(createdBy := if IsTruthy(taskData.createdBy) then taskData.createdBy else MongoIdRef(currentUser))
      else r[i] == tasks[i]
  {
    if tasks == [] then []
    else
      var t := tasks[0];
      var edited := taskData.(createdBy := if IsTruthy(taskData.createdBy) then taskData.createdBy else MongoIdRef(currentUser));
      [if t.id == taskData.id then edited else t] + ReplaceTask(tasks[1..], taskData, currentUser)
  }

  /** Editing keeps the list of ids (and so their uniqueness). */
  lemma ReplaceTaskKeepsIds(tasks: seq<Task>, taskData: Task, currentUser: Option<User>)
    ensures TaskIds(ReplaceTask(tasks, taskData, currentUser)) == TaskIds(tasks)
    ensures UniqueTaskIds(tasks) ==> UniqueTaskIds(ReplaceTask(tasks, taskData, currentUser))
  {
    var r := ReplaceTask(tasks, taskData, currentUser);
    assert forall i :: 0 <= i < |r| ==> r[i].id == tasks[i].id;
  }

  /** `tasks.find(t => t.id === id)`: the first task with the id. */
  function FindTask(tasks: seq<Task>, id: string): (r: Option<Task>)
    ensures r.None? <==> forall k :: 0 <= k < |tasks| ==> tasks[k].id != id
    ensures r.Some? ==>
      exists j :: 0 <= j < |tasks| && r.value == tasks[j] && tasks[j].id == id &&
                  forall k :: 0 <= k < j ==> tasks[k].id != id
  {
    var i := BoardDrag.IndexOfId(tasks, id);
    if i == -1 then None else Some(tasks[i])
  }

  /** After an edit, looking the task up again finds the edited version. */
  lemma FindTaskAfterReplace(tasks: seq<Task>, taskData: Task, currentUser: Option<User>)
    requires exists k :: 0 <= k < |tasks| && tasks[k].id == taskData.id
    ensures FindTask(ReplaceTask(tasks, taskData, currentUser), taskData.id)
      == Some(taskData.(createdBy := if IsTruthy(taskData.createdBy) then taskData.createdBy else MongoIdRef(currentUser)))
  {
    var r := ReplaceTask(tasks, taskData, currentUser);
    var k :| 0 <= k < |tasks| && tasks[k].id == taskData.id;
    assert r[k].id == taskData.id;
  }

  /** `deleteTask`, once confirmed. */
  function DeleteTask(tasks: seq<Task>, taskId: string): seq<Task> {
    Filter(tasks, (t: Task) => t.id != taskId)
  }

  /** Deleting a task removes every task with its id and keeps all others, in order. */
  lemma DeleteTaskRemoves(tasks: seq<Task>, taskId: string)
    ensures var r := DeleteTask(tasks, taskId);
      taskId !in TaskIds(r) && IsSubsequence(r, tasks) &&
      forall t :: t in tasks && t.id != taskId ==> t in r
  {
    FilterIsSubsequence(tasks, (t: Task) => t.id != taskId);
  }

  /** After a delete, the editor finds no task with the deleted id. */
  lemma FindTaskAfterDelete(tasks: seq<Task>, taskId: string)
    ensures FindTask(DeleteTask(tasks, taskId), taskId) == None
  {
    var r := DeleteTask(tasks, taskId);
    forall k | 0 <= k < |r| ensures r[k].id != taskId {
      assert r[k] in r;
    }
  }

  // ---------------------------------------------------------------------------------------------
  // Saving (`safeTasks`)

  predicate HasCreator(t: Task) {
    IsTruthy(t.createdBy)
  }

  /** `tasks.filter(task => !!task.createdBy)`. */
  function SafeTasks(tasks: seq<Task>): seq<Task> {
    Filter(tasks, HasCreator)
  }

  /** What the page hands to `onUpdateBoard`. */
  function SavedBoard(board: Board, columns: seq<Column>, tasks: seq<Task>): Board {
    board.(columns := columns, tasks := SafeTasks(tasks))
  }

  /** Every saved task has a creator, and the saved tasks are the board's tasks that have one. */
  lemma SafeTasksSound(tasks: seq<Task>)
    ensures var r := SafeTasks(tasks);
      IsSubsequence(r, tasks) && forall t :: t in r <==> t in tasks && IsTruthy(t.createdBy)
  {
    FilterIsSubsequence(tasks, HasCreator);
  }

  lemma {:induction false} SafeTasksIdempotent(tasks: seq<Task>)
    ensures SafeTasks(SafeTasks(tasks)) == SafeTasks(tasks)
  {
    FilterAll(SafeTasks(tasks), HasCreator);
  }

  /** A task added while the current user has no `_id` (the in-memory server's users have none)
      never reaches the saved board: the saved tasks are those saved before the add. */
  lemma AddWithoutMongoIdIsDropped(tasks: seq<Task>, taskData: Task, columnId: string, currentUser: Option<User>)
    requires currentUser.None? || currentUser.value.mongoId == ""
    ensures SafeTasks(tasks + [NewTask(taskData, columnId, currentUser)]) == SafeTasks(tasks)
  {
    var t := NewTask(taskData, columnId, currentUser);
    FilterConcat(tasks, [t], HasCreator);
    assert Filter([t], HasCreator) == [];
  }

  // ---------------------------------------------------------------------------------------------
  // The page

  /** No saved board carries a task without a creator. */
  ghost predicate AllSaved(published: seq<Board>) {
    forall k :: 0 <= k < |published| ==> forall t :: t in published[k].tasks ==> IsTruthy(t.createdBy)
  }

  lemma SavedBoardHasCreators(board: Board, columns: seq<Column>, tasks: seq<Task>)
    ensures forall t :: t in SavedBoard(board, columns, tasks).tasks ==> IsTruthy(t.createdBy)
  {
  }

  /** The page's state. `published` lists, in order, the boards the save effect hands to `onUpdateBoard`. */
  class BoardDetailPage {
    const board: Board
    const currentUser: Option<User>
    const users: seq<User>
    var columns: seq<Column>
    var tasks: seq<Task>
    var editingTask: Option<Task>
    var searchQuery: string
    var priorityFilter: string
    var assigneeFilter: string
    var sortBy: SortBy
    var published: seq<Board>

    ghost predicate Valid()
      reads this
    {
      AllSaved(published)
    }

    /** The tasks column `columnId` shows. */
    function ColumnView(columnId: string): seq<Task>
      reads this
    {
      FilteredTasks(tasks, columnId, searchQuery, priorityFilter, assigneeFilter)
    }

    /** Mounting: state from the board, and the save effect's first run. */
    constructor (board: Board, currentUser: Option<User>, users: seq<User>)
      ensures this.board == board && this.currentUser == currentUser && this.users == users
      ensures columns == board.columns && tasks == board.tasks
      ensures editingTask.None? && searchQuery == "" && priorityFilter == AllFilter && assigneeFilter == AllFilter
      ensures sortBy == ByCreatedAt
      ensures published == [SavedBoard(board, board.columns, board.tasks)]
      ensures Valid()
    {
      this.board := board;
      this.currentUser := currentUser;
      this.users := users;
      columns := board.columns;
      tasks := board.tasks;
      editingTask := None;
      searchQuery := "";
      priorityFilter := AllFilter;
      assigneeFilter := AllFilter;
      sortBy := ByCreatedAt;
      SavedBoardHasCreators(board, board.columns, board.tasks);
      published := [SavedBoard(board, board.columns, board.tasks)];
    }

    /** The save effect, run after `columns` or `tasks` is replaced. */
    method Save()
      requires Valid()
      modifies this`published
      ensures published == old(published) + [SavedBoard(board, columns, tasks)]
      ensures Valid()
    {
      SavedBoardHasCreators(board, columns, tasks);
      published := published + [SavedBoard(board, columns, tasks)];
    }

    /** `onDragEnd`; when the updater returns the old list nothing re-renders and nothing is saved. */
    method HandleDragEnd(result: BoardDrag.DropResult)
      requires Valid()
      modifies this
      ensures BoardDrag.DragOutcome(old(tasks), result, tasks)
      ensures columns == old(columns) && editingTask == old(editingTask) && sortBy == old(sortBy)
      ensures searchQuery == old(searchQuery) && priorityFilter == old(priorityFilter) && assigneeFilter == old(assigneeFilter)
      ensures published == if BoardDrag.DragApplies(old(tasks), result)
        then old(published) + [SavedBoard(board, columns, tasks)] else old(published)
      ensures Valid()
    {
      var next := BoardDrag.OnDragEnd(tasks, result);
      if BoardDrag.DragApplies(tasks, result) {
        tasks := next;
        Save();
      }
    }

    /** `handleSortChange`. */
    method HandleSortChange(order: SortBy)
      requires Valid()
      modifies this
      ensures sortBy == order && tasks == SortTasks(order, users, old(tasks))
      ensures columns == old(columns) && editingTask == old(editingTask)
      ensures searchQuery == old(searchQuery) && priorityFilter == old(priorityFilter) && assigneeFilter == old(assigneeFilter)
      ensures published == old(published) + [SavedBoard(board, columns, tasks)]
      ensures Valid()
    {
      sortBy := order;
      tasks := SortTasks(order, users, tasks);
      Save();
    }

    method SetSearchQuery(query: string)
      modifies this`searchQuery
      ensures searchQuery == query
    {
      searchQuery := query;
    }

    method SetPriorityFilter(value: string)
      modifies this`priorityFilter
      ensures priorityFilter == value
    {
      priorityFilter := value;
    }

    method SetAssigneeFilter(value: string)
      modifies this`assigneeFilter
      ensures assigneeFilter == value
    {
      assigneeFilter := value;
    }

    /** `addColumn`; `id` and `now` stand for `Date.now().toString()` and the ISO time. */
    method AddColumn(id: string, now: Timestamp)
      requires Valid()
      modifies this
      ensures columns == old(columns) + [Column(id, NewColumnTitle, now)]
      ensures tasks == old(tasks) && editingTask == old(editingTask) && sortBy == old(sortBy)
      ensures searchQuery == old(searchQuery) && priorityFilter == old(priorityFilter) && assigneeFilter == old(assigneeFilter)
      ensures published == old(published) + [SavedBoard(board, columns, tasks)]
      ensures Valid()
    {
      columns := columns + [Column(id, NewColumnTitle, now)];
      Save();
    }

    /** `editColumn`, as the column header calls it: with a new title. */
    method EditColumn(columnId: string, title: string)
      requires Valid()
      modifies this
      ensures columns == RetitleColumns(old(columns), columnId, title)
      ensures tasks == old(tasks) && editingTask == old(editingTask) && sortBy == old(sortBy)
      ensures searchQuery == old(searchQuery) && priorityFilter == old(priorityFilter) && assigneeFilter == old(assigneeFilter)
      ensures published == old(published) + [SavedBoard(board, columns, tasks)]
      ensures Valid()
    {
      columns := RetitleColumns(columns, columnId, title);
      Save();
    }

    /** `deleteColumn`; `confirmed` is the answer to `window.confirm`. */
    method DeleteColumn(columnId: string, confirmed: bool)
      requires Valid()
      modifies this
      ensures confirmed ==> columns == DeleteColumnColumns(old(columns), columnId) && tasks == DeleteColumnTasks(old(tasks), columnId)
      ensures confirmed ==> published == old(published) + [SavedBoard(board, columns, tasks)]
      ensures !confirmed ==> columns == old(columns) && tasks == old(tasks) && published == old(published)
      ensures editingTask == old(editingTask) && sortBy == old(sortBy)
      ensures searchQuery == old(searchQuery) && priorityFilter == old(priorityFilter) && assigneeFilter == old(assigneeFilter)
      ensures Valid()
    {
      if confirmed {
        columns := DeleteColumnColumns(columns, columnId);
        tasks := DeleteColumnTasks(tasks, columnId);
        Save();
      }
    }

    /** `addTask`: append the task and close the editor. */
    method AddTask(columnId: string, taskData: Task)
      requires Valid()
      modifies this
      ensures tasks == old(tasks) + [NewTask(taskData, columnId, currentUser)]
      ensures editingTask.None?
      ensures columns == old(columns) && sortBy == old(sortBy)
      ensures searchQuery == old(searchQuery) && priorityFilter == old(priorityFilter) && assigneeFilter == old(assigneeFilter)
      ensures published == old(published) + [SavedBoard(board, columns, tasks)]
      ensures Valid()
    {
      tasks := tasks + [NewTask(taskData, columnId, currentUser)];
      editingTask := None;
      Save();
    }

    /** `editTask`: replace the task and close the editor. */
    method EditTask(taskData: Task)
      requires Valid()
      modifies this
      ensures tasks == ReplaceTask(old(tasks), taskData, currentUser)
      ensures editingTask.None?
      ensures columns == old(columns) && sortBy == old(sortBy)
      ensures searchQuery == old(searchQuery) && priorityFilter == old(priorityFilter) && assigneeFilter == old(assigneeFilter)
      ensures published == old(published) + [SavedBoard(board, columns, tasks)]
      ensures Valid()
    {
      tasks := ReplaceTask(tasks, taskData, currentUser);
      editingTask := None;
      Save();
    }

    /** `deleteTask`; `confirmed` is the answer to `window.confirm`. */
    method DeleteTaskById(taskId: string, confirmed: bool)
      requires Valid()
      modifies this
      ensures confirmed ==> tasks == DeleteTask(old(tasks), taskId) && published == old(published) + [SavedBoard(board, columns, tasks)]
      ensures !confirmed ==> tasks == old(tasks) && published == old(published)
      ensures columns == old(columns) && editingTask == old(editingTask) && sortBy == old(sortBy)
      ensures searchQuery == old(searchQuery) && priorityFilter == old(priorityFilter) && assigneeFilter == old(assigneeFilter)
      ensures Valid()
    {
      if confirmed {
        tasks := DeleteTask(tasks, taskId);
        Save();
      }
    }

    /** A card's edit button (line 325) opens the editor on that task. */
    method OpenEditor(task: Task)
      modifies this`editingTask
      ensures editingTask == Some(task)
    {
      editingTask := Some(task);
    }

    /** The editor's cancel button. */
    method CloseEditor()
      modifies this`editingTask
      ensures editingTask.None?
    {
      editingTask := None;
    }

    /** The task the editor is opened on (line 352): the current version of the edited task, or
        nothing when the edited task has no id. */
    function EditorTask(): (r: Option<Task>)
      reads this
      ensures r.None? <==>
        || editingTask.None? || editingTask.value.id == ""
        || forall k :: 0 <= k < |tasks| ==> tasks[k].id != editingTask.value.id
      ensures r.Some? ==> r == FindTask(tasks, editingTask.value.id)
    {
      if editingTask.None? || editingTask.value.id == "" then None
      else FindTask(tasks, editingTask.value.id)
    }
  }
}
