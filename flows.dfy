/** Facts that span components: what happens to a task created or edited by a user of the
    in-memory server, and how many tasks a column shows. */
module Flows {
  import opened Wrappers
  import opened Entities
  import opened Seqs
  import Backend
  import AppShell
  import TaskForm
  import BoardDrag
  import BoardDetail

  /** A user as the client holds it after login and the users fetch: no `_id`. */
  lemma ServerUsersHaveNoMongoId(record: Backend.UserRecord)
    ensures AppShell.NormalizeUser(Backend.Strip(record)).mongoId == ""
    ensures AppShell.NormalizeUser(Backend.Strip(record)).id == record.id
  {
  }

  /** Adding a task as a user who logged in to the in-memory server: the task is appended
      locally but never reaches the saved board. */
  lemma AddedTaskIsNotSaved(records: seq<Backend.UserRecord>, username: string, password: string,
                            tasks: seq<Task>, taskData: Task, columnId: string)
    requires Backend.Login(records, username, password).Success?
    ensures var user := Backend.Login(records, username, password).value;
      BoardDetail.SafeTasks(tasks + [BoardDetail.NewTask(taskData, columnId, Some(user))]) == BoardDetail.SafeTasks(tasks)
  {
    var user := Backend.Login(records, username, password).value;
    BoardDetail.AddWithoutMongoIdIsDropped(tasks, taskData, columnId, Some(user));
  }

  /** Editing a task as a user with an `id`: the form stamps that id as creator, so the edited
      task keeps a creator and is saved. */
  lemma EditedTaskIsSaved(form: TaskForm.FormData, task: Task, user: User, users: seq<User>,
                          freshId: string, now: Timestamp, tasks: seq<Task>)
    requires user.id != ""
    requires TaskForm.SubmittedTask(form, Some(task), task.columnId, Some(user), users, freshId, now).Some?
    ensures var edited := TaskForm.SubmittedTask(form, Some(task), task.columnId, Some(user), users, freshId, now).value;
      forall t :: t in BoardDetail.ReplaceTask(tasks, edited, Some(user)) && t.id == edited.id ==>
        t == edited && t in BoardDetail.SafeTasks(BoardDetail.ReplaceTask(tasks, edited, Some(user)))
  {
    var edited := TaskForm.SubmittedTask(form, Some(task), task.columnId, Some(user), users, freshId, now).value;
    var r := BoardDetail.ReplaceTask(tasks, edited, Some(user));
    forall t | t in r && t.id == edited.id
      ensures t == edited && t in BoardDetail.SafeTasks(r)
    {
      var i :| 0 <= i < |r| && r[i] == t;
      assert t == edited;
    }
  }

  /** A column's count badge never exceeds the number of tasks in that column, and equals it
      when the search is empty and both selectors are on "all". */
  lemma ShownCountBound(tasks: seq<Task>, columnId: string, query: string, priorityFilter: string, assigneeFilter: string)
    ensures |BoardDetail.FilteredTasks(tasks, columnId, query, priorityFilter, assigneeFilter)| <= |BoardDrag.ColumnTasks(tasks, columnId)|
    ensures query == "" && priorityFilter == BoardDetail.AllFilter && assigneeFilter == BoardDetail.AllFilter ==>
      |BoardDetail.FilteredTasks(tasks, columnId, query, priorityFilter, assigneeFilter)| == |BoardDrag.ColumnTasks(tasks, columnId)|
  {
    BoardDetail.FilteredTasksIsShown(tasks, columnId, query, priorityFilter, assigneeFilter);
    var inColumn := BoardDrag.InColumn(columnId);
    var rest := (t: Task) => BoardDetail.Shown(t, columnId, query, priorityFilter, assigneeFilter);
    FilterTwice(tasks, inColumn, rest, BoardDetail.ShownBy(columnId, query, priorityFilter, assigneeFilter));
  }
}
