/** The task form of src/components/TaskModal.jsx: its initial state, the assignee checkboxes, and
    the task it hands to `onSave`. */
module TaskForm {
  import opened Wrappers
  import opened Entities
  import opened Seqs
  import Text

  /** `getUserId`: "" when falsy, the string itself, or an object's `_id` else `id`. */
  function GetUserId(val: UserRef): (r: string)
    ensures val.NoRef? ==> r == ""
    ensures val.IdRef? ==> r == val.id
    ensures val.ObjRef? ==> r == (if val.mongoId != "" then val.mongoId else val.id)
  {
    match val
    case NoRef => ""
    case IdRef(s) => s
    case ObjRef(m, i) => if m != "" || i != "" then (if m != "" then m else i) else ""
  }

  /** `getUserId` returns "" exactly for a falsy value and an object with neither id. */
  lemma GetUserIdEmpty(val: UserRef)
    ensures GetUserId(val) == "" <==> !IsTruthy(val) || (val.ObjRef? && val.mongoId == "" && val.id == "")
  {
  }

  /** `currentUser?._id || ''` and `currentUser?.id || ''`. */
  function MongoIdOf(currentUser: Option<User>): string {
    if currentUser.Some? then currentUser.value.mongoId else ""
  }

  function IdOf(currentUser: Option<User>): string {
    if currentUser.Some? then currentUser.value.id else ""
  }

  /** `initialAssignees`: the array, a one-element list for a truthy single value, else empty. */
  function InitialAssignees(task: Option<Task>): (ids: seq<string>)
    ensures task.None? ==> ids == []
    ensures task.Some? && task.value.assignedTo.AssigneeList? ==> ids == task.value.assignedTo.ids
    ensures task.Some? && task.value.assignedTo.SingleAssignee? && task.value.assignedTo.id != "" ==> ids == [task.value.assignedTo.id]
    ensures task.Some? && (task.value.assignedTo.Unassigned? || task.value.assignedTo == SingleAssignee("")) ==> ids == []
  {
    if task.None? then []
    else match task.value.assignedTo
      case AssigneeList(ids) => ids
      case SingleAssignee(id) => if id != "" then [id] else []
      case Unassigned => []
  }

  /** The form keeps the same assignee ids the card and the filter see. */
  lemma InitialAssigneesAgree(task: Task)
    ensures InitialAssignees(Some(task)) == AssigneeIds(task.assignedTo)
  {
  }

  /** The form state. */
  datatype FormData = FormData(
    title: string,
    description: string,
    priority: Priority,
    dueDate: Option<Timestamp>,
    assignedTo: seq<string>,
    createdBy: string)

  /** The form as first rendered: from the task when editing, blank with priority medium otherwise. */
  function InitialForm(task: Option<Task>, currentUser: Option<User>): (f: FormData)
    ensures task.None? ==> f == FormData("", "", Medium, None, [], MongoIdOf(currentUser))
    ensures task.Some? ==> f.title == task.value.title && f.description == task.value.description && f.dueDate == task.value.dueDate
    ensures task.Some? ==> f.priority == (if task.value.priority == Unranked then Medium else task.value.priority)
    ensures f.assignedTo == InitialAssignees(task)
  {
    var fromTask := if task.Some? then GetUserId(task.value.createdBy) else "";
    FormData(
      if task.Some? then task.value.title else "",
      if task.Some? then task.value.description else "",
      if task.Some? && task.value.priority != Unranked then task.value.priority else Medium,
      if task.Some? then task.value.dueDate else None,
      InitialAssignees(task),
      if fromTask != "" then fromTask else MongoIdOf(currentUser))
  }

  /** The ids other than `memberId`: the filter that unticks it. */
  function Other(memberId: string): string -> bool {
    id => id != memberId
  }

  /** `handleAssigneeChange`: drop every occurrence of a present id, append an absent one. */
  function Toggle(ids: seq<string>, memberId: string): (r: seq<string>)
    ensures memberId in r <==> memberId !in ids
    ensures forall x :: x != memberId ==> (x in r <==> x in ids)
    ensures memberId !in ids ==> |r| == |ids| + 1 && r[..|ids|] == ids && r[|ids|] == memberId
    ensures memberId in ids ==> IsSubsequence(r, ids)
  {
    if memberId in ids then
      FilterIsSubsequence(ids, Other(memberId));
      Filter(ids, Other(memberId))
    else ids + [memberId]
  }

  /** Ticking a box and unticking it restores the list. */
  lemma ToggleTwice(ids: seq<string>, memberId: string)
    requires memberId !in ids
    ensures Toggle(Toggle(ids, memberId), memberId) == ids
  {
    FilterConcat(ids, [memberId], Other(memberId));
    FilterAll(ids, Other(memberId));
  }

  /** The mapping at lines 37-40: the id of the user with this id, or the id itself. */
  function ResolveAssignee(users: seq<User>, id: string): string {
    if users == [] then id
    else if users[0].id == id then users[0].id
    else ResolveAssignee(users[1..], id)
  }

  /** That mapping is the identity. */
  lemma {:induction false} ResolveAssigneeIdentity(users: seq<User>, id: string)
    ensures ResolveAssignee(users, id) == id
    decreases |users|
  {
    if users != [] && users[0].id != id {
      ResolveAssigneeIdentity(users[1..], id);
    }
  }

  function ResolveAssignees(users: seq<User>, ids: seq<string>): (r: seq<string>)
    ensures r == ids
  {
    if ids == [] then []
    else
      ResolveAssigneeIdentity(users, ids[0]);
      [ResolveAssignee(users, ids[0])] + ResolveAssignees(users, ids[1..])
  }

  /** `handleSubmit`: nothing when the title is blank; otherwise the task to save. `freshId` and
      `now` stand for `Date.now().toString()` and the current time. */
  function SubmittedTask(form: FormData, task: Option<Task>, columnId: string, currentUser: Option<User>,
                         users: seq<User>, freshId: string, now: Timestamp): (r: Option<Task>)
    ensures r.None? <==> Text.IsBlank(form.title)
    ensures r.Some? ==>
      && r.value.title == form.title && r.value.description == form.description
      && r.value.priority == form.priority && r.value.dueDate == form.dueDate
      && r.value.assignedTo == AssigneeList(form.assignedTo) && r.value.updatedAt == now
    ensures r.Some? ==> r.value.createdBy == IdRef(IdOf(currentUser))
    ensures r.Some? && task.Some? ==> r.value.createdAt == task.value.createdAt
    ensures r.Some? && task.Some? && task.value.id != "" ==> r.value.id == task.value.id
    ensures r.Some? && task.Some? && task.value.columnId != "" ==> r.value.columnId == task.value.columnId
    ensures r.Some? && task.None? ==> r.value.id == freshId && r.value.createdAt == now && r.value.columnId == columnId
  {
    Text.TrimEmptyIffBlank(form.title);
    if Text.Trim(form.title) == "" then None
    else
      Some(Task(
        if task.Some? && task.value.id != "" then task.value.id else freshId,
        form.title,
        form.description,
        form.priority,
        form.dueDate,
        AssigneeList(ResolveAssignees(users, form.assignedTo)),
        IdRef(IdOf(currentUser)),
        if task.Some? && task.value.columnId != "" then task.value.columnId else columnId,
        if task.Some? then task.value.createdAt else now,
        now))
  }

  /** What the form's own `createdBy` field holds never reaches the saved task. */
  lemma SubmittedIgnoresFormCreator(form: FormData, other: string, task: Option<Task>, columnId: string,
                                    currentUser: Option<User>, users: seq<User>, freshId: string, now: Timestamp)
    ensures SubmittedTask(form.(createdBy := other), task, columnId, currentUser, users, freshId, now)
         == SubmittedTask(form, task, columnId, currentUser, users, freshId, now)
  {
  }

  /** The form component: its props and its state. */
  class TaskModal {
    const task: Option<Task>
    const columnId: string
    const currentUser: Option<User>
    const users: seq<User>
    var formData: FormData

    /** Mounting: the initial form, then the `currentUser` effect. */
    constructor (task: Option<Task>, columnId: string, currentUser: Option<User>, users: seq<User>)
      ensures this.task == task && this.columnId == columnId && this.currentUser == currentUser && this.users == users
      ensures formData == InitialForm(task, currentUser).(createdBy := MongoIdOf(currentUser))
    {
      this.task := task;
      this.columnId := columnId;
      this.currentUser := currentUser;
      this.users := users;
      formData := InitialForm(task, currentUser);
      new;
      CurrentUserEffect();
    }

    /** The effect of lines 29-31. */
    method CurrentUserEffect()
      modifies this`formData
      ensures formData == old(formData).(createdBy := MongoIdOf(currentUser))
    {
      formData := formData.(createdBy := MongoIdOf(currentUser));
    }

    method HandleAssigneeChange(memberId: string)
      modifies this`formData
      ensures formData == old(formData).(assignedTo := Toggle(old(formData).assignedTo, memberId))
    {
      formData := formData.(assignedTo := Toggle(formData.assignedTo, memberId));
    }

    method SetTitle(value: string)
      modifies this`formData
      ensures formData == old(formData).(title := value)
    {
      formData := formData.(title := value);
    }

    method SetDescription(value: string)
      modifies this`formData
      ensures formData == old(formData).(description := value)
    {
      formData := formData.(description := value);
    }

    method SetPriority(value: Priority)
      modifies this`formData
      ensures formData == old(formData).(priority := value)
    {
      formData := formData.(priority := value);
    }

    method SetDueDate(value: Option<Timestamp>)
      modifies this`formData
      ensures formData == old(formData).(dueDate := value)
    {
      formData := formData.(dueDate := value);
    }

    /** Submitting: the task handed to `onSave`, if any. */
    function Submit(freshId: string, now: Timestamp): Option<Task>
      reads this
    {
      SubmittedTask(formData, task, columnId, currentUser, users, freshId, now)
    }
  }
}
