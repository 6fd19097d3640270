/** The Mongoose schemas of server/models: what a stored column, task and board must hold, the
    defaults filled in on save, and the unique board id. A document arrives with optional fields
    ("absent" covers `undefined` and `null`); saving either yields the stored record or fails
    validation. `now` is the save time the `timestamps` option records. */
module Schemas {
  import opened Wrappers
  import opened Entities
  import Text

  datatype SchemaError =
    | Missing(field: string)
    | NotInEnum(field: string, value: string)
    | CastError(field: string, value: string)
    | DuplicateKey(id: string)

  /** A required string passes when present and non-empty. */
  predicate Present(v: Option<string>) {
    v.Some? && v.value != ""
  }

  // ---------------------------------------------------------------------------------------------
  // ObjectId paths

  predicate IsHexDigit(c: char) {
    '0' <= c <= '9' || 'a' <= c <= 'f' || 'A' <= c <= 'F'
  }

  /** Text the `ObjectId` cast accepts: 24 hexadecimal digits. */
  predicate ObjectIdText(s: string) {
    |s| == 24 && forall i :: 0 <= i < |s| ==> IsHexDigit(s[i])
  }

  /** An ObjectId as it is stored and read back: 24 lower-case hexadecimal digits. */
  predicate CanonicalObjectId(s: string) {
    |s| == 24 && forall i :: 0 <= i < |s| ==> '0' <= s[i] <= '9' || 'a' <= s[i] <= 'f'
  }

  /** Casting accepted text to an ObjectId and reading it back lower-cases the hex digits. */
  function CastObjectId(s: string): (r: string)
    requires ObjectIdText(s)
    ensures CanonicalObjectId(r) && ObjectIdText(r)
    ensures Text.ToLower(r) == Text.ToLower(s)
  {
    Text.ToLower(s)
  }

  /** A stored ObjectId casts to itself. */
  lemma CanonicalCastsToItself(s: string)
    requires CanonicalObjectId(s)
    ensures ObjectIdText(s) && CastObjectId(s) == s
  {
  }

  /** The cast of every element of an `[ObjectId]` path. */
  function CastObjectIds(ids: seq<string>): (r: seq<string>)
    requires forall i :: 0 <= i < |ids| ==> ObjectIdText(ids[i])
    ensures |r| == |ids| && forall i :: 0 <= i < |ids| ==> r[i] == CastObjectId(ids[i])
  {
    if ids == [] then [] else [CastObjectId(ids[0])] + CastObjectIds(ids[1..])
  }

  /** The first entry of an `[ObjectId]` path that fails the cast. */
  function FirstNonObjectId(ids: seq<string>): (r: Option<string>)
    ensures r.None? <==> forall i :: 0 <= i < |ids| ==> ObjectIdText(ids[i])
    ensures r.Some? ==> r.value in ids && !ObjectIdText(r.value)
  {
    if ids == [] then None
    else if !ObjectIdText(ids[0]) then Some(ids[0])
    else FirstNonObjectId(ids[1..])
  }

  // ---------------------------------------------------------------------------------------------
  // Column

  datatype ColumnDoc = ColumnDoc(id: Option<string>, title: Option<string>, createdAt: Option<Timestamp>)

  predicate ValidColumn(c: Column) {
    c.id != "" && c.title != ""
  }

  function SaveColumn(doc: ColumnDoc, now: Timestamp): (r: Result<Column, SchemaError>)
    ensures r.Success? <==> Present(doc.id) && Present(doc.title)
    ensures r.Success? ==> ValidColumn(r.value) && r.value.id == doc.id.value && r.value.title == doc.title.value
    ensures r.Success? ==> r.value.createdAt == doc.createdAt.GetOr(now)
  {
    if !Present(doc.id) then Failure(Missing("id"))
    else if !Present(doc.title) then Failure(Missing("title"))
    else Success(Column(doc.id.value, doc.title.value, doc.createdAt.GetOr(now)))
  }

  function ColumnToDoc(c: Column): ColumnDoc {
    ColumnDoc(Some(c.id), Some(c.title), Some(c.createdAt))
  }

  /** Saving a valid column's own document gives the column back. */
  lemma ColumnRoundTrip(c: Column, now: Timestamp)
    requires ValidColumn(c)
    ensures SaveColumn(ColumnToDoc(c), now) == Success(c)
  {
  }

  // ---------------------------------------------------------------------------------------------
  // Task

  datatype TaskDoc = TaskDoc(
    id: Option<string>,
    title: Option<string>,
    description: Option<string>,
    priority: Option<string>,
    dueDate: Option<Timestamp>,
    assignedTo: seq<string>,
    createdBy: Option<string>,
    columnId: Option<string>,
    createdAt: Option<Timestamp>)

  /** The `enum` of `priority`. */
  function ParsePriority(s: string): (r: Option<Priority>)
    ensures r.Some? ==> r.value != Unranked && PriorityName(r.value) == s
    ensures r.None? ==> forall p :: p != Unranked ==> PriorityName(p) != s
  {
    if s == "low" then Some(Low)
    else if s == "medium" then Some(Medium)
    else if s == "high" then Some(High)
    else None
  }

  predicate ValidTask(t: Task) {
    && t.id != "" && t.title != "" && t.columnId != ""
    && t.priority != Unranked
    && t.createdBy.IdRef? && CanonicalObjectId(t.createdBy.id)
    && t.assignedTo.AssigneeList?
    && forall i :: 0 <= i < |t.assignedTo.ids| ==> CanonicalObjectId(t.assignedTo.ids[i])
  }

  /** Saving a task document: required `id`, `title`, `createdBy` and `columnId`; `createdBy` and
      every `assignedTo` entry cast to ObjectIds; `priority` in the enum, `'medium'` when absent;
      `description` `''` when absent. The task is saved as a new sub-document, so `timestamps`
      sets `createdAt` to the document's value or `now` and `updatedAt` to the same value. */
  function SaveTask(doc: TaskDoc, now: Timestamp): (r: Result<Task, SchemaError>)
    ensures r.Success? <==>
      && Present(doc.id) && Present(doc.title) && Present(doc.createdBy) && Present(doc.columnId)
      && (doc.priority.None? || ParsePriority(doc.priority.value).Some?)
      && ObjectIdText(doc.createdBy.value)
      && (forall i :: 0 <= i < |doc.assignedTo| ==> ObjectIdText(doc.assignedTo[i]))
    ensures r.Success? ==> ValidTask(r.value)
    ensures r.Success? ==> r.value.createdBy == IdRef(CastObjectId(doc.createdBy.value))
    ensures r.Success? ==> r.value.assignedTo == AssigneeList(CastObjectIds(doc.assignedTo))
    ensures r.Success? ==> r.value.description == doc.description.GetOr("")
    ensures r.Success? && doc.priority.None? ==> r.value.priority == Medium
    ensures r.Success? ==> r.value.id == doc.id.value && r.value.title == doc.title.value
    ensures r.Success? ==> r.value.columnId == doc.columnId.value && r.value.dueDate == doc.dueDate
    ensures r.Success? && doc.priority.Some? ==> r.value.priority == ParsePriority(doc.priority.value).value
    ensures r.Success? ==> r.value.createdAt == doc.createdAt.GetOr(now) && r.value.updatedAt == r.value.createdAt
    ensures r.Failure? && doc.priority.Some? && ParsePriority(doc.priority.value).None? && Present(doc.id) && Present(doc.title)
      ==> r.error == NotInEnum("priority", doc.priority.value)
    ensures r.Failure? && Present(doc.id) && Present(doc.title) && (doc.priority.None? || ParsePriority(doc.priority.value).Some?)
      && Present(doc.createdBy) && !ObjectIdText(doc.createdBy.value)
      ==> r.error == CastError("createdBy", doc.createdBy.value)
  {
    if !Present(doc.id) then Failure(Missing("id"))
    else if !Present(doc.title) then Failure(Missing("title"))
    else if doc.priority.Some? && ParsePriority(doc.priority.value).None? then Failure(NotInEnum("priority", doc.priority.value))
    else if !Present(doc.createdBy) then Failure(Missing("createdBy"))
    else if !ObjectIdText(doc.createdBy.value) then Failure(CastError("createdBy", doc.createdBy.value))
    else if !Present(doc.columnId) then Failure(Missing("columnId"))
    else if FirstNonObjectId(doc.assignedTo).Some? then
      Failure(CastError("assignedTo", FirstNonObjectId(doc.assignedTo).value))
    else
      var priority := if doc.priority.Some? then ParsePriority(doc.priority.value).value else Medium;
      Success(Task(doc.id.value, doc.title.value, doc.description.GetOr(""), priority, doc.dueDate,
        AssigneeList(CastObjectIds(doc.assignedTo)), IdRef(CastObjectId(doc.createdBy.value)), doc.columnId.value,
        doc.createdAt.GetOr(now), doc.createdAt.GetOr(now)))
  }

  function TaskToDoc(t: Task): TaskDoc
    requires t.assignedTo.AssigneeList? && t.createdBy.IdRef?
  {
    TaskDoc(Some(t.id), Some(t.title), Some(t.description), Some(PriorityName(t.priority)), t.dueDate,
      t.assignedTo.ids, Some(t.createdBy.id), Some(t.columnId), Some(t.createdAt))
  }

  /** Saving a valid task's own document as a new sub-document gives the task back, with
      `updatedAt` set to its `createdAt`. */
  lemma TaskRoundTrip(t: Task, now: Timestamp)
    requires ValidTask(t)
    ensures SaveTask(TaskToDoc(t), now) == Success(t.(updatedAt := t.createdAt))
  {
    assert ParsePriority(PriorityName(t.priority)) == Some(t.priority);
    CanonicalCastsToItself(t.createdBy.id);
    var ids := t.assignedTo.ids;
    forall i | 0 <= i < |ids| ensures ObjectIdText(ids[i]) && CastObjectId(ids[i]) == ids[i] {
      CanonicalCastsToItself(ids[i]);
    }
    assert CastObjectIds(ids) == ids;
  }

  // ---------------------------------------------------------------------------------------------
  // Board

  datatype BoardDoc = BoardDoc(
    id: Option<string>,
    title: Option<string>,
    description: Option<string>,
    columns: seq<ColumnDoc>,
    tasks: seq<TaskDoc>,
    createdAt: Option<Timestamp>)

  /** Every column document saves, or the first failure. */
  function SaveColumns(docs: seq<ColumnDoc>, now: Timestamp): (r: Result<seq<Column>, SchemaError>)
    ensures r.Success? <==> forall i :: 0 <= i < |docs| ==> SaveColumn(docs[i], now).Success?
    ensures r.Success? ==> |r.value| == |docs| && forall i :: 0 <= i < |docs| ==> r.value[i] == SaveColumn(docs[i], now).value
  {
    if docs == [] then Success([])
    else match SaveColumn(docs[0], now)
      case Failure(e) => Failure(e)
      case Success(c) =>
        match SaveColumns(docs[1..], now)
        case Failure(e) => Failure(e)
        case Success(cs) => Success([c] + cs)
  }

  function SaveTasks(docs: seq<TaskDoc>, now: Timestamp): (r: Result<seq<Task>, SchemaError>)
    ensures r.Success? <==> forall i :: 0 <= i < |docs| ==> SaveTask(docs[i], now).Success?
    ensures r.Success? ==> |r.value| == |docs| && forall i :: 0 <= i < |docs| ==> r.value[i] == SaveTask(docs[i], now).value
  {
    if docs == [] then Success([])
    else match SaveTask(docs[0], now)
      case Failure(e) => Failure(e)
      case Success(t) =>
        match SaveTasks(docs[1..], now)
        case Failure(e) => Failure(e)
        case Success(ts) => Success([t] + ts)
  }

  predicate ValidBoard(b: Board) {
    && b.id != "" && b.title != ""
    && (forall i :: 0 <= i < |b.columns| ==> ValidColumn(b.columns[i]))
    && (forall i :: 0 <= i < |b.tasks| ==> ValidTask(b.tasks[i]))
  }

  /** Saving a board document: required `id` and `title`, `description` `''` when absent, and
      every embedded column and task valid. */
  function SaveBoard(doc: BoardDoc, now: Timestamp): (r: Result<Board, SchemaError>)
    ensures r.Success? <==>
      && Present(doc.id) && Present(doc.title)
      && SaveColumns(doc.columns, now).Success? && SaveTasks(doc.tasks, now).Success?
    ensures r.Success? ==> ValidBoard(r.value) && r.value.id == doc.id.value
    ensures r.Success? ==> r.value.description == doc.description.GetOr("")
    ensures r.Success? ==> |r.value.columns| == |doc.columns| && |r.value.tasks| == |doc.tasks|
    ensures r.Success? ==> r.value.title == doc.title.value && r.value.createdAt == doc.createdAt.GetOr(now)
    ensures r.Success? ==> r.value.columns == SaveColumns(doc.columns, now).value && r.value.tasks == SaveTasks(doc.tasks, now).value
  {
    if !Present(doc.id) then Failure(Missing("id"))
    else if !Present(doc.title) then Failure(Missing("title"))
    else
      match SaveColumns(doc.columns, now)
      case Failure(e) => Failure(e)
      case Success(columns) =>
        match SaveTasks(doc.tasks, now)
        case Failure(e) => Failure(e)
        case Success(tasks) =>
          Success(Board(doc.id.value, doc.title.value, doc.description.GetOr(""), doc.createdAt.GetOr(now), columns, tasks))
  }

  predicate UniqueBoardIds(boards: seq<Board>) {
    forall i, j :: 0 <= i < j < |boards| ==> boards[i].id != boards[j].id
  }

  /** Inserting into the collection: validation, then the `unique` index on `id`. */
  function InsertBoard(stored: seq<Board>, doc: BoardDoc, now: Timestamp): (r: Result<seq<Board>, SchemaError>)
    ensures r.Success? ==> exists b :: SaveBoard(doc, now) == Success(b) && r.value == stored + [b]
    ensures SaveBoard(doc, now).Success? && (exists i :: 0 <= i < |stored| && stored[i].id == doc.id.value)
      ==> r == Failure(DuplicateKey(doc.id.value))
    ensures SaveBoard(doc, now).Success? && !(exists i :: 0 <= i < |stored| && stored[i].id == doc.id.value)
      ==> r == Success(stored + [SaveBoard(doc, now).value])
    ensures SaveBoard(doc, now).Failure? ==> r == Failure(SaveBoard(doc, now).error)
  {
    match SaveBoard(doc, now)
    case Failure(e) => Failure(e)
    case Success(b) =>
      if exists i :: 0 <= i < |stored| && stored[i].id == b.id then Failure(DuplicateKey(b.id))
      else Success(stored + [b])
  }

  /** Inserting keeps board ids unique and every stored board valid. */
  lemma InsertBoardKeepsInvariant(stored: seq<Board>, doc: BoardDoc, now: Timestamp)
    requires UniqueBoardIds(stored) && forall i :: 0 <= i < |stored| ==> ValidBoard(stored[i])
    requires InsertBoard(stored, doc, now).Success?
    ensures var after := InsertBoard(stored, doc, now).value;
      UniqueBoardIds(after) && forall i :: 0 <= i < |after| ==> ValidBoard(after[i])
  {
  }
}
