/** The records the board application passes around: users, boards, columns and tasks, as the
    client holds them. JavaScript's `undefined`, `null` and `''` are all falsy; where the source only
    tests truthiness, a missing string is the empty string. */
module Entities {
  import opened Wrappers

  /** Dates and ISO timestamps, as abstract ordered values. */
  type Timestamp = int

  /** The three priority names, and a missing priority. */
  datatype Priority = High | Medium | Low | Unranked

  function PriorityName(p: Priority): string {
    match p
    case High => "high"
    case Medium => "medium"
    case Low => "low"
    case Unranked => ""
  }

  /** `{ high: 3, medium: 2, low: 1 }[p] || 0`. */
  function PriorityRank(p: Priority): nat {
    match p
    case High => 3
    case Medium => 2
    case Low => 1
    case Unranked => 0
  }

  /** A reference to a user inside a task: absent, an id string, or a populated user object
      whose `_id` (`mongoId`) and `id` fields are "" when absent. */
  datatype UserRef = NoRef | IdRef(id: string) | ObjRef(mongoId: string, id: string)

  /** `!!ref`: every object is truthy, a string is truthy when non-empty. */
  predicate IsTruthy(r: UserRef) {
    match r
    case NoRef => false
    case IdRef(s) => s != ""
    case ObjRef(_, _) => true
  }

  /** A task's `assignedTo`: an array, a single value, or missing. */
  datatype Assignees = AssigneeList(ids: seq<string>) | SingleAssignee(id: string) | Unassigned

  /** `Array.isArray(a) ? a : a ? [a] : []`, shared by the assignee filter, the task card and the task form. */
  function AssigneeIds(a: Assignees): (ids: seq<string>)
    ensures a.AssigneeList? ==> ids == a.ids
    ensures !a.AssigneeList? ==> |ids| <= 1 && forall x :: x in ids <==> a.SingleAssignee? && x == a.id && x != ""
  {
    match a
    case AssigneeList(ids) => ids
    case SingleAssignee(id) => if id != "" then [id] else []
    case Unassigned => []
  }

  datatype Task = Task(
    id: string,
    title: string,
    description: string,
    priority: Priority,
    dueDate: Option<Timestamp>,
    assignedTo: Assignees,
    createdBy: UserRef,
    columnId: string,
    createdAt: Timestamp,
    updatedAt: Timestamp)

  datatype Column = Column(id: string, title: string, createdAt: Timestamp)

  datatype Board = Board(
    id: string,
    title: string,
    description: string,
    createdAt: Timestamp,
    columns: seq<Column>,
    tasks: seq<Task>)

  /** A user as the client receives it: the password is never sent. `mongoId` is `_id`. */
  datatype User = User(mongoId: string, id: string, name: string, username: string, avatar: string)

  /** `currentUser?._id`, as a reference: absent when there is no user or no `_id`. */
  function MongoIdRef(currentUser: Option<User>): UserRef {
    if currentUser.Some? && currentUser.value.mongoId != "" then IdRef(currentUser.value.mongoId) else NoRef
  }

  /** No two tasks share an id. */
  predicate UniqueTaskIds(tasks: seq<Task>) {
    forall i, j :: 0 <= i < j < |tasks| ==> tasks[i].id != tasks[j].id
  }

  /** The ids of a task list, in order. */
  function TaskIds(tasks: seq<Task>): (ids: seq<string>)
    ensures |ids| == |tasks| && forall i :: 0 <= i < |tasks| ==> ids[i] == tasks[i].id
  {
    seq(|tasks|, i requires 0 <= i < |tasks| => tasks[i].id)
  }
}
