/** The drag-and-drop reorder of src/components/BoardDetailPage.jsx (`onDragEnd`): the dragged task is
    spliced out of the flat task list, retagged with the destination column, and spliced back in at
    a position computed from the destination column's tasks. */
module BoardDrag {
  import opened Wrappers
  import opened Entities
  import opened Seqs

  /** A droppable (column) id and an index among the tasks shown in it. */
  datatype Location = Location(droppableId: string, index: nat)

  /** What the drag-and-drop library reports when a drag ends. */
  datatype DropResult = DropResult(source: Location, destination: Option<Location>, draggableId: string)

  function Min(a: int, b: int): int {
    if a <= b then a else b
  }

  /** `tasks.findIndex(t => t.id === id)`. */
  function IndexOfId(tasks: seq<Task>, id: string): (r: int)
    ensures -1 <= r < |tasks|
    ensures r >= 0 ==> tasks[r].id == id && forall k :: 0 <= k < r ==> tasks[k].id != id
    ensures r == -1 ==> forall k :: 0 <= k < |tasks| ==> tasks[k].id != id
    decreases |tasks|
  {
    if tasks == [] then -1
    else if tasks[0].id == id then 0
    else
      var r := IndexOfId(tasks[1..], id);
      if r == -1 then -1 else r + 1
  }

  function InColumn(c: string): Task -> bool {
    (t: Task) => t.columnId == c
  }

  /** `tasks.filter(t => t.columnId === c)`. */
  function ColumnTasks(tasks: seq<Task>, c: string): seq<Task> {
    Filter(tasks, InColumn(c))
  }

  /** `splice(i, 1)`: the list without its `i`-th element. */
  function RemoveAt(s: seq<Task>, i: nat): (r: seq<Task>)
    requires i < |s|
    ensures |r| == |s| - 1
  {
    s[..i] + s[i + 1..]
  }

  /** The drag changes the task list: there is a destination other than the source, and a task has the dragged id. */
  predicate DragApplies(tasks: seq<Task>, result: DropResult) {
    && result.destination.Some?
    && result.destination.value != result.source
    && IndexOfId(tasks, result.draggableId) != -1
  }

  /** `next` is `prev` with its `i`-th task moved to position `p` of the remaining tasks, its column set to `c`. */
  predicate Reinserted(prev: seq<Task>, i: nat, c: string, next: seq<Task>, p: int)
    requires i < |prev|
  {
    var rest := RemoveAt(prev, i);
    0 <= p <= |rest| && next == rest[..p] + [prev[i].(columnId := c)] + rest[p..]
  }

  /** What `onDragEnd` promises: nothing changes when the drag does not apply; otherwise the dragged
      task is reinserted, and with unique ids it lands after exactly `min(index, k)` tasks of the
      destination column, `k` being the number of other tasks in that column. */
  ghost predicate DragOutcome(prev: seq<Task>, result: DropResult, next: seq<Task>) {
    if !DragApplies(prev, result) then next == prev
    else
      var i := IndexOfId(prev, result.draggableId);
      var dest := result.destination.value;
      var rest := RemoveAt(prev, i);
      exists p :: 0 <= p <= |rest| && Reinserted(prev, i, dest.droppableId, next, p)
        && (UniqueTaskIds(prev) ==>
             |ColumnTasks(rest[..p], dest.droppableId)| == Min(dest.index, |ColumnTasks(rest, dest.droppableId)|))
  }

  /** Lines 44-56: the insertion index, before the fallback. */
  function PrimaryInsertIndex(rest: seq<Task>, dest: Location): int {
    var destTasks := ColumnTasks(rest, dest.droppableId);
    if dest.index < |destTasks| then IndexOfId(rest, destTasks[dest.index].id)
    else if |destTasks| > 0 then IndexOfId(rest, destTasks[|destTasks| - 1].id) + 1
    else |rest|
  }

  /** The index computed at lines 44-56 is never -1 (whatever the ids), so the fallback scan of
      lines 58-71 is unreachable. */
  lemma PrimaryInsertIndexFound(rest: seq<Task>, dest: Location)
    ensures 0 <= PrimaryInsertIndex(rest, dest) <= |rest|
  {
    var destTasks := ColumnTasks(rest, dest.droppableId);
    if dest.index < |destTasks| {
      var t := destTasks[dest.index];
      assert t in rest;
    } else if |destTasks| > 0 {
      var t := destTasks[|destTasks| - 1];
      assert t in rest;
    }
  }

  /** The fallback of lines 58-71: a backward scan for the last task of column `c`; -1 when there is none. */
  method LastIndexInColumn(tasks: seq<Task>, c: string) returns (r: int)
    ensures -1 <= r < |tasks|
    ensures r >= 0 ==> tasks[r].columnId == c
    ensures forall k :: r < k < |tasks| ==> tasks[k].columnId != c
  {
    r := -1;
    var i := |tasks| - 1;
    while i >= 0
      invariant -1 <= i < |tasks|
      invariant r == -1
      invariant forall k :: i < k < |tasks| ==> tasks[k].columnId != c
    {
      if tasks[i].columnId == c {
        r := i;
        break;
      }
      i := i - 1;
    }
  }

  /** The state updater passed to `setTasks` by `onDragEnd`. */
  method OnDragEnd(prevTasks: seq<Task>, result: DropResult) returns (tasks: seq<Task>)
    ensures DragOutcome(prevTasks, result, tasks)
  {
    if result.destination.None? {
      return prevTasks;
    }
    var destination := result.destination.value;
    if destination.droppableId == result.source.droppableId && destination.index == result.source.index {
      return prevTasks;
    }
    var newTasks := prevTasks;
    var draggedTaskIndex := IndexOfId(newTasks, result.draggableId);
    if draggedTaskIndex == -1 {
      return prevTasks;
    }
    var draggedTask := newTasks[draggedTaskIndex];
    newTasks := RemoveAt(newTasks, draggedTaskIndex);
    var updatedDraggedTask := draggedTask.(columnId := destination.droppableId);
    var insertAtIndex := PrimaryInsertIndex(newTasks, destination);
    PrimaryInsertIndexFound(newTasks, destination);
    if insertAtIndex == -1 {
      var lastTaskInDestColIndex := LastIndexInColumn(newTasks, destination.droppableId);
      if lastTaskInDestColIndex != -1 {
        insertAtIndex := lastTaskInDestColIndex + 1;
      } else {
        insertAtIndex := 0;
      }
    }
    tasks := newTasks[..insertAtIndex] + [updatedDraggedTask] + newTasks[insertAtIndex..];
    assert Reinserted(prevTasks, draggedTaskIndex, destination.droppableId, tasks, insertAtIndex);
    if UniqueTaskIds(prevTasks) {
      UniqueAfterRemove(prevTasks, draggedTaskIndex);
      InsertPosition(newTasks, destination);
    }
  }

  // ---------------------------------------------------------------------------------------------
  // Proof of the landing position

  lemma UniqueAfterRemove(s: seq<Task>, i: nat)
    requires i < |s| && UniqueTaskIds(s)
    ensures UniqueTaskIds(RemoveAt(s, i))
  {
    var r := RemoveAt(s, i);
    forall a, b | 0 <= a < b < |r| ensures r[a].id != r[b].id {
      var a' := if a < i then a else a + 1;
      var b' := if b < i then b else b + 1;
      assert r[a] == s[a'] && r[b] == s[b'];
    }
  }

  /** The `m`-th task of column `c` sits at a position `q` preceded by exactly `m` tasks of that column. */
  lemma {:induction false} NthOfColumn(s: seq<Task>, c: string, m: nat) returns (q: nat)
    requires m < |ColumnTasks(s, c)|
    ensures q < |s| && s[q] == ColumnTasks(s, c)[m] && s[q].columnId == c
    ensures |ColumnTasks(s[..q], c)| == m
    decreases |s|
  {
    assert s != [];
    var head := s[0];
    if head.columnId == c && m == 0 {
      q := 0;
      assert s[..0] == [];
    } else {
      var m' := if head.columnId == c then m - 1 else m;
      var q' := NthOfColumn(s[1..], c, m');
      q := q' + 1;
      CountAfterHead(s, c, q');
    }
  }

  /** Counting column tasks in a prefix that starts with the head of `s`. */
  lemma CountAfterHead(s: seq<Task>, c: string, q': nat)
    requires 0 < |s| && q' < |s| - 1
    ensures |ColumnTasks(s[..q' + 1], c)| == (if s[0].columnId == c then 1 else 0) + |ColumnTasks(s[1..][..q'], c)|
  {
    assert s[..q' + 1] == [s[0]] + s[1..][..q'];
    FilterConcat([s[0]], s[1..][..q'], InColumn(c));
    assert ColumnTasks([s[0]], c) == if s[0].columnId == c then [s[0]] else [];
  }

  /** With unique ids, the index of lines 44-56 leaves exactly `min(index, k)` destination tasks before it. */
  lemma InsertPosition(rest: seq<Task>, dest: Location)
    requires UniqueTaskIds(rest)
    ensures var p := PrimaryInsertIndex(rest, dest);
      0 <= p <= |rest| &&
      |ColumnTasks(rest[..p], dest.droppableId)| == Min(dest.index, |ColumnTasks(rest, dest.droppableId)|)
  {
    var c := dest.droppableId;
    var destTasks := ColumnTasks(rest, c);
    var k := |destTasks|;
    if dest.index < k {
      var q := NthOfColumn(rest, c, dest.index);
      IndexOfUnique(rest, q);
    } else if k > 0 {
      var q := NthOfColumn(rest, c, k - 1);
      IndexOfUnique(rest, q);
      ColumnCountThrough(rest, c, q);
    } else {
      assert rest[..|rest|] == rest;
    }
  }

  /** With unique ids, `findIndex` by the id of the task at `q` finds `q`. */
  lemma IndexOfUnique(tasks: seq<Task>, q: nat)
    requires UniqueTaskIds(tasks) && q < |tasks|
    ensures IndexOfId(tasks, tasks[q].id) == q
  {
  }

  /** A column task at `q` adds one to the count of column tasks before it. */
  lemma ColumnCountThrough(s: seq<Task>, c: string, q: nat)
    requires q < |s| && s[q].columnId == c
    ensures |ColumnTasks(s[..q + 1], c)| == |ColumnTasks(s[..q], c)| + 1
  {
    assert s[..q + 1] == s[..q] + [s[q]];
    FilterConcat(s[..q], [s[q]], InColumn(c));
  }

  // ---------------------------------------------------------------------------------------------
  // Consequences of a drag

  lemma IdsOfPair(a: seq<Task>, b: seq<Task>)
    ensures multiset(TaskIds(a + b)) == multiset(TaskIds(a)) + multiset(TaskIds(b))
  {
    assert TaskIds(a + b) == TaskIds(a) + TaskIds(b);
  }

  lemma IdsOfTriple(a: seq<Task>, x: Task, b: seq<Task>)
    ensures multiset(TaskIds(a + [x] + b)) == multiset(TaskIds(a)) + multiset{x.id} + multiset(TaskIds(b))
  {
    assert TaskIds(a + [x] + b) == TaskIds(a) + [x.id] + TaskIds(b);
  }

  /** The position in `prev` that position `a` of a reinsertion result comes from. */
  function Origin(i: nat, p: nat, a: nat): nat {
    if a == p then i
    else
      var r := if a < p then a else a - 1;
      if r < i then r else r + 1
  }

  lemma ReinsertedOrigin(prev: seq<Task>, i: nat, c: string, next: seq<Task>, p: nat)
    requires i < |prev| && Reinserted(prev, i, c, next, p)
    ensures |next| == |prev|
    ensures forall a :: 0 <= a < |next| ==> Origin(i, p, a) < |prev| && next[a].id == prev[Origin(i, p, a)].id
  {
    var rest := RemoveAt(prev, i);
    forall a | 0 <= a < |next| ensures Origin(i, p, a) < |prev| && next[a].id == prev[Origin(i, p, a)].id {
      if a < p {
        assert next[a] == rest[a];
      } else if a > p {
        assert next[a] == rest[a - 1];
      }
    }
  }

  /** A move keeps the length and the multiset of ids. */
  lemma ReinsertedIds(prev: seq<Task>, i: nat, c: string, next: seq<Task>, p: int)
    requires i < |prev| && Reinserted(prev, i, c, next, p)
    ensures |next| == |prev|
    ensures multiset(TaskIds(next)) == multiset(TaskIds(prev))
  {
    var rest := RemoveAt(prev, i);
    assert prev == prev[..i] + [prev[i]] + prev[i + 1..];
    IdsOfTriple(prev[..i], prev[i], prev[i + 1..]);
    IdsOfPair(prev[..i], prev[i + 1..]);
    assert rest == rest[..p] + rest[p..];
    var moved := prev[i].(columnId := c);
    IdsOfTriple(rest[..p], moved, rest[p..]);
    IdsOfPair(rest[..p], rest[p..]);
    assert next == rest[..p] + [moved] + rest[p..];
    assert moved.id == prev[i].id;
    calc {
      multiset(TaskIds(next));
      multiset(TaskIds(rest[..p])) + multiset{prev[i].id} + multiset(TaskIds(rest[p..]));
      multiset(TaskIds(rest)) + multiset{prev[i].id};
      multiset(TaskIds(prev[..i])) + multiset(TaskIds(prev[i + 1..])) + multiset{prev[i].id};
      multiset(TaskIds(prev));
    }
  }

  /** A move changes only the moved task's column and keeps every other task in its relative order. */
  lemma ReinsertedShape(prev: seq<Task>, i: nat, c: string, next: seq<Task>, p: int)
    requires i < |prev| && Reinserted(prev, i, c, next, p)
    ensures next[p] == prev[i].(columnId := c) && RemoveAt(next, p) == RemoveAt(prev, i)
  {
    var rest := RemoveAt(prev, i);
    assert next[..p] == rest[..p] && next[p + 1..] == rest[p..];
    assert rest == rest[..p] + rest[p..];
  }

  /** A move keeps ids unique. */
  lemma ReinsertedUnique(prev: seq<Task>, i: nat, c: string, next: seq<Task>, p: int)
    requires i < |prev| && Reinserted(prev, i, c, next, p) && UniqueTaskIds(prev)
    ensures UniqueTaskIds(next)
  {
    ReinsertedOrigin(prev, i, c, next, p);
    forall a, b | 0 <= a < b < |next| ensures next[a].id != next[b].id {
      assert Origin(i, p, a) != Origin(i, p, b);
    }
  }

  /** Everything `onDragEnd` promises, read off its outcome. */
  lemma DragOutcomeFacts(prev: seq<Task>, result: DropResult, next: seq<Task>)
    requires DragOutcome(prev, result, next)
    ensures |next| == |prev| && multiset(TaskIds(next)) == multiset(TaskIds(prev))
    ensures UniqueTaskIds(prev) ==> UniqueTaskIds(next)
  {
    if DragApplies(prev, result) {
      var i := IndexOfId(prev, result.draggableId);
      var c := result.destination.value.droppableId;
      var p :| Reinserted(prev, i, c, next, p) && (UniqueTaskIds(prev) ==>
        |ColumnTasks(RemoveAt(prev, i)[..p], c)| == Min(result.destination.value.index, |ColumnTasks(RemoveAt(prev, i), c)|));
      ReinsertedIds(prev, i, c, next, p);
      if UniqueTaskIds(prev) {
        ReinsertedUnique(prev, i, c, next, p);
      }
    }
  }
}
