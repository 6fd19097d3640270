/** The task card of src/components/TaskCard.jsx: which users it shows as assignees, the avatar row
    with its overflow count, the creator line, and the badges. */
module TaskCardView {
  import opened Wrappers
  import opened Entities
  import opened Seqs
  import Markdown

  /** `data.filter(u => u && u.id && u.name)`: the fetched users the card can show. */
  predicate Usable(u: User) {
    u.id != "" && u.name != ""
  }

  function UsableUsers(fetched: seq<User>): seq<User> {
    Filter(fetched, Usable)
  }

  /** `users.find(member => member.id === id)`. */
  function FindUser(users: seq<User>, id: string): (r: Option<User>)
    ensures r.Some? ==> r.value in users && r.value.id == id
    ensures r.None? <==> forall k :: 0 <= k < |users| ==> users[k].id != id
  {
    if users == [] then None
    else if users[0].id == id then Some(users[0])
    else FindUser(users[1..], id)
  }

  /** `assigneeIds.map(id => users.find(...)).filter(Boolean)`: the resolved users, in id order. */
  function AssignedUsers(users: seq<User>, ids: seq<string>): (r: seq<User>)
    ensures |r| <= |ids|
    ensures forall k :: 0 <= k < |r| ==> r[k] in users && r[k].id in ids
  {
    if ids == [] then []
    else
      var rest := AssignedUsers(users, ids[1..]);
      match FindUser(users, ids[0])
      case None => rest
      case Some(u) => [u] + rest
  }

  /** The ids that name a fetched user. */
  function Resolves(users: seq<User>): string -> bool {
    id => FindUser(users, id).Some?
  }

  /** The card lists, in id order, the user found for each id that resolves, and drops the rest. */
  lemma {:induction false} AssignedUsersResolved(users: seq<User>, ids: seq<string>)
    ensures var r := AssignedUsers(users, ids);
      var resolved := Filter(ids, Resolves(users));
      |r| == |resolved| && forall k :: 0 <= k < |r| ==> FindUser(users, resolved[k]) == Some(r[k])
    decreases |ids|
  {
    if ids != [] {
      AssignedUsersResolved(users, ids[1..]);
      var rest := AssignedUsers(users, ids[1..]);
      var tail := Filter(ids[1..], Resolves(users));
      if FindUser(users, ids[0]).Some? {
        assert Filter(ids, Resolves(users)) == [ids[0]] + tail;
        assert AssignedUsers(users, ids) == [FindUser(users, ids[0]).value] + rest;
      } else {
        assert Filter(ids, Resolves(users)) == tail;
        assert AssignedUsers(users, ids) == rest;
      }
    }
  }

  /** When every id resolves, there is one user per id, in the same order. */
  lemma {:induction false} AssignedUsersAllResolve(users: seq<User>, ids: seq<string>)
    requires forall id :: id in ids ==> FindUser(users, id).Some?
    ensures var r := AssignedUsers(users, ids);
      |r| == |ids| && forall k :: 0 <= k < |r| ==> r[k].id == ids[k]
    decreases |ids|
  {
    if ids != [] {
      AssignedUsersAllResolve(users, ids[1..]);
      assert ids[0] in ids;
    }
  }

  /** Ids that resolve to no user are dropped. */
  lemma {:induction false} AssignedUsersNoneResolve(users: seq<User>, ids: seq<string>)
    requires forall id :: id in ids ==> FindUser(users, id).None?
    ensures AssignedUsers(users, ids) == []
    decreases |ids|
  {
    if ids != [] {
      AssignedUsersNoneResolve(users, ids[1..]);
    }
  }

  /** The avatars shown (at most two) and the `+n` count, shown only past two. */
  function AvatarRow(resolved: seq<User>): (row: (seq<string>, Option<nat>))
    ensures |row.0| == (if |resolved| < 2 then |resolved| else 2)
    ensures forall k :: 0 <= k < |row.0| ==> row.0[k] == resolved[k].avatar
    ensures row.1.Some? <==> |resolved| > 2
    ensures row.1.Some? ==> |row.0| + row.1.value == |resolved|
  {
    var shown := if |resolved| <= 2 then resolved else resolved[..2];
    (seq(|shown|, k requires 0 <= k < |shown| => shown[k].avatar),
     if |resolved| > 2 then Some(|resolved| - 2) else None)
  }

  /** `users.find(member => member.id === task.createdBy)`: only a string can equal an id. */
  function Creator(users: seq<User>, createdBy: UserRef): (r: Option<User>)
    ensures r.Some? ==> createdBy.IdRef? && r.value in users && r.value.id == createdBy.id
  {
    if createdBy.IdRef? then FindUser(users, createdBy.id) else None
  }

  /** `String(task.createdBy)`: an object prints as `[object Object]`. */
  function RefText(r: UserRef): string {
    match r
    case NoRef => ""
    case IdRef(s) => s
    case ObjRef(_, _) => "[object Object]"
  }

  const CreatedByPrefix: string := "Created by "
  const UnknownCreator: string := "Created by Unknown"

  /** The creator line. */
  function CreatorLabel(users: seq<User>, createdBy: UserRef): (line: string)
    ensures Creator(users, createdBy).Some? ==> line == CreatedByPrefix + Creator(users, createdBy).value.name
    ensures Creator(users, createdBy).None? && !IsTruthy(createdBy) ==> line == UnknownCreator
    ensures Creator(users, createdBy).None? && IsTruthy(createdBy) ==> line == UnknownCreator + " (" + RefText(createdBy) + ")"
  {
    match Creator(users, createdBy)
    case Some(u) => CreatedByPrefix + u.name
    case None => UnknownCreator + (if IsTruthy(createdBy) then " (" + RefText(createdBy) + ")" else "")
  }

  /** A populated creator object never resolves, so its card always says who is unknown. */
  lemma ObjectCreatorIsUnknown(users: seq<User>, mongoId: string, id: string)
    ensures CreatorLabel(users, ObjRef(mongoId, id)) == UnknownCreator + " ([object Object])"
  {
  }

  /** `PRIORITY_CONFIG[task.priority].label`; reading it for a missing priority throws. */
  function PriorityLabel(p: Priority): Option<string> {
    match p
    case High => Some("High")
    case Medium => Some("Medium")
    case Low => Some("Low")
    case Unranked => None
  }

  /** What a card shows. */
  datatype CardView = CardView(
    priorityLabel: string,
    descriptionHtml: string,
    showsDueDate: bool,
    avatars: seq<string>,
    overflow: Option<nat>,
    creatorLabel: string)

  /** The card for `task`, given the `/api/users` response; `None` when rendering throws. */
  function RenderCard(task: Task, fetched: seq<User>): (card: Option<CardView>)
    ensures card.None? <==> task.priority == Unranked
    ensures card.Some? ==> card.value.showsDueDate == task.dueDate.Some?
    ensures card.Some? ==> |card.value.avatars| <= 2
    ensures card.Some? ==> '\n' !in card.value.descriptionHtml
  {
    var users := UsableUsers(fetched);
    var resolved := AssignedUsers(users, AssigneeIds(task.assignedTo));
    var row := AvatarRow(resolved);
    match PriorityLabel(task.priority)
    case None => None
    case Some(priorityText) =>
      Some(CardView(priorityText, Markdown.RenderMarkdown(Some(task.description)), task.dueDate.Some?,
        row.0, row.1, CreatorLabel(users, task.createdBy)))
  }

  /** The card names the creator only when a usable fetched user has the creator's id. */
  lemma CardCreatorResolves(task: Task, fetched: seq<User>)
    requires task.priority != Unranked && task.createdBy.IdRef?
    requires exists j :: 0 <= j < |fetched| && Usable(fetched[j]) && fetched[j].id == task.createdBy.id
    ensures exists u :: (u in fetched && Usable(u) && u.id == task.createdBy.id
                         && RenderCard(task, fetched).value.creatorLabel == CreatedByPrefix + u.name)
  {
    var users := UsableUsers(fetched);
    var j :| 0 <= j < |fetched| && Usable(fetched[j]) && fetched[j].id == task.createdBy.id;
    assert fetched[j] in users;
    var u := FindUser(users, task.createdBy.id).value;
    assert u in fetched;
  }
}
