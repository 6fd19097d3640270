/** The one-off migration of server/utils/fixCreatedBy.js: a task whose `createdBy` is an object
    gets the object's `_id` (else `id`) instead, and a board is saved when any of its tasks changed.
    The database reads and writes are left out; `saved` lists the boards written back. The boards
    the program reads come through the Board model, so a stored creator arrives as an ObjectId
    object (`HydrateBoard`); the last section states what that does to a run. */
module FixCreatedBy {
  import opened Entities
  import TaskForm
  import Schemas

  /** The value a task's `createdBy` is rewritten to: `createdBy._id || createdBy.id || ''`, for an object. */
  function Replacement(r: UserRef): string {
    match r
    case ObjRef(m, i) => if m != "" then m else i
    case _ => ""
  }

  /** The task is rewritten: `createdBy` is an object with a truthy `_id` or `id`. */
  predicate Rewritten(t: Task) {
    t.createdBy.ObjRef? && Replacement(t.createdBy) != ""
  }

  /** The map callback of lines 11-21. */
  function FixTask(t: Task): (r: Task)
    ensures Rewritten(t) ==> r == t.(createdBy := IdRef(Replacement(t.createdBy)))
    ensures !Rewritten(t) ==> r == t
  {
    if Rewritten(t) then t.(createdBy := IdRef(Replacement(t.createdBy))) else t
  }

  /** A board is saved when at least one of its tasks is rewritten. */
  predicate NeedsFix(b: Board) {
    AnyRewritten(b.tasks)
  }

  /** Some task of the list is rewritten: the final value of the `changed` flag. */
  predicate AnyRewritten(tasks: seq<Task>) {
    exists i :: 0 <= i < |tasks| && Rewritten(tasks[i])
  }

  /** The board the migration writes back. */
  function FixBoard(b: Board): (r: Board)
    ensures r.tasks == FixedTasks(b.tasks) && r.(tasks := b.tasks) == b
  {
    b.(tasks := FixedTasks(b.tasks))
  }

  function FixedTasks(tasks: seq<Task>): (r: seq<Task>)
    ensures |r| == |tasks| && forall i :: 0 <= i < |tasks| ==> r[i] == FixTask(tasks[i])
  {
    if tasks == [] then [] else [FixTask(tasks[0])] + FixedTasks(tasks[1..])
  }

  /** The rewritten value is what the task form's `getUserId` reads from the same object. */
  lemma FixAgreesWithGetUserId(t: Task)
    requires Rewritten(t)
    ensures FixTask(t).createdBy == IdRef(TaskForm.GetUserId(t.createdBy))
  {
  }

  /** A rewritten task keeps every other field and stays truthy; the rest are untouched. */
  lemma FixTaskKeeps(t: Task)
    ensures FixTask(t).(createdBy := t.createdBy) == t
    ensures IsTruthy(FixTask(t).createdBy) == IsTruthy(t.createdBy)
  {
  }

  /** Over the creator values themselves the rewrite is idempotent: a fixed task's creator is a
      plain id, which a second pass leaves alone. */
  lemma FixTaskIdempotent(t: Task)
    ensures !Rewritten(FixTask(t)) && FixTask(FixTask(t)) == FixTask(t)
  {
  }

  /** The `tasks.map` of one board, with its `changed` flag. */
  method FixTasks(tasks: seq<Task>) returns (fixed: seq<Task>, changed: bool)
    ensures fixed == FixedTasks(tasks)
    ensures changed <==> AnyRewritten(tasks)
  {
    fixed := [];
    changed := false;
    var i := 0;
    while i < |tasks|
      invariant 0 <= i <= |tasks|
      invariant |fixed| == i && forall k :: 0 <= k < i ==> fixed[k] == FixTask(tasks[k])
      invariant changed <==> exists k :: 0 <= k < i && Rewritten(tasks[k])
    {
      var task := tasks[i];
      var next := task;
      if task.createdBy.ObjRef? {
        var newCreatedBy := Replacement(task.createdBy);
        if newCreatedBy != "" {
          changed := true;
          next := task.(createdBy := IdRef(newCreatedBy));
        }
      }
      assert next == FixTask(task);
      fixed := fixed + [next];
      i := i + 1;
    }
  }

  /** The indices below `n` of the boards the migration writes back, in increasing order. */
  function BoardsToSave(boards: seq<Board>, n: nat): seq<nat>
    requires n <= |boards|
  {
    if n == 0 then []
    else BoardsToSave(boards, n - 1) + (if NeedsFix(boards[n - 1]) then [n - 1] else [])
  }

  /** `BoardsToSave` lists exactly the boards that need a fix, each index once and in order. */
  lemma {:induction false} BoardsToSaveFacts(boards: seq<Board>, n: nat)
    requires n <= |boards|
    ensures var saved := BoardsToSave(boards, n);
      && (forall i :: 0 <= i < n ==> (i in saved <==> NeedsFix(boards[i])))
      && (forall k :: 0 <= k < |saved| ==> saved[k] < n)
      && (forall k, l :: 0 <= k < l < |saved| ==> saved[k] < saved[l])
  {
    if n > 0 {
      BoardsToSaveFacts(boards, n - 1);
    }
  }

  /** The loop over all boards: every board gets its fixed tasks; `saved` lists, in order, the
      indices of the boards written back. */
  method FixBoards(boards: seq<Board>) returns (result: seq<Board>, saved: seq<nat>)
    ensures |result| == |boards|
    ensures forall i :: 0 <= i < |boards| ==> result[i] == FixBoard(boards[i])
    ensures saved == BoardsToSave(boards, |boards|)
    ensures forall i :: 0 <= i < |boards| ==> (i in saved <==> NeedsFix(boards[i]))
    ensures forall k, l :: 0 <= k < l < |saved| ==> saved[k] < saved[l]
  {
    result := [];
    saved := [];
    var i := 0;
    while i < |boards|
      invariant 0 <= i <= |boards|
      invariant |result| == i
      invariant forall j :: 0 <= j < i ==> result[j] == FixBoard(boards[j])
      invariant saved == BoardsToSave(boards, i)
    {
      var board := boards[i];
      var fixed, changed := FixTasks(board.tasks);
      result := result + [board.(tasks := fixed)];
      if changed {
        saved := saved + [i];
      }
      i := i + 1;
    }
    BoardsToSaveFacts(boards, |boards|);
  }

  /** Over the creator values themselves, a second pass finds nothing to rewrite: a rewritten
      creator is a plain id. */
  lemma FixedBoardNeedsNoFix(b: Board)
    ensures !NeedsFix(b.(tasks := FixedTasks(b.tasks)))
  {
    var fixed := FixedTasks(b.tasks);
    forall i | 0 <= i < |fixed| ensures !Rewritten(fixed[i]) {
      FixTaskIdempotent(b.tasks[i]);
    }
  }

  // ---------------------------------------------------------------------------------------------
  // Boards as the migration loads them

  /** A creator as it reaches the map callback after loading: the `ObjectId` path of
      server/models/Task.js:12 hands back an ObjectId object, whose `_id` is the ObjectId itself
      and reads back as the stored id. Its `id` is never consulted, since `_id` is truthy. */
  function Hydrated(r: UserRef): (h: UserRef)
    ensures r.IdRef? && r.id != "" ==> h.ObjRef? && Replacement(h) == r.id
    ensures !(r.IdRef? && r.id != "") ==> h == r
  {
    match r
    case IdRef(s) => if s != "" then ObjRef(s, s) else r
    case _ => r
  }

  function HydrateTask(t: Task): Task {
    t.(createdBy := Hydrated(t.createdBy))
  }

  function HydrateBoard(b: Board): (r: Board)
    ensures |r.tasks| == |b.tasks| && forall i :: 0 <= i < |b.tasks| ==> r.tasks[i] == HydrateTask(b.tasks[i])
    ensures r.(tasks := b.tasks) == b
  {
    b.(tasks := seq(|b.tasks|, i requires 0 <= i < |b.tasks| => HydrateTask(b.tasks[i])))
  }

  /** A loaded task with a stored creator is rewritten, and the value written back is the stored
      one: the flag is set although nothing changes. */
  lemma HydratedCreatorIsRewritten(t: Task)
    requires t.createdBy.IdRef? && t.createdBy.id != ""
    ensures Rewritten(HydrateTask(t)) && FixTask(HydrateTask(t)) == t
  {
  }

  /** Every stored board that has a task is saved again on every run, with its content unchanged:
      the schema makes each creator a non-empty ObjectId. */
  lemma StoredBoardIsResaved(b: Board)
    requires Schemas.ValidBoard(b) && |b.tasks| > 0
    ensures NeedsFix(HydrateBoard(b))
    ensures FixBoard(HydrateBoard(b)) == b
  {
    var h := HydrateBoard(b);
    forall i | 0 <= i < |b.tasks| ensures Rewritten(h.tasks[i]) && FixTask(h.tasks[i]) == b.tasks[i] {
      assert Schemas.ValidTask(b.tasks[i]);
      HydratedCreatorIsRewritten(b.tasks[i]);
    }
    assert Rewritten(h.tasks[0]);
    assert FixedTasks(h.tasks) == b.tasks;
  }
}
