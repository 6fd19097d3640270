# Task board: a verified model

This project models the state logic of a collaborative task board. The client is a React
application. The server is an Express and socket.io process that keeps its users and boards in
memory. A board has columns and tasks. Every task names its column by `columnId`. Users sign up
and log in against the server. Every change to a board is pushed to the server as a whole new
board list, and the server relays it to the other clients.

The model is written in Dafny, one module per source file:

| module | file | source |
|---|---|---|
| `Entities` | entities.dfy | the records shared by client and server (task, column, board, user, priority, user reference) |
| `Text`, `Seqs`, `Wrappers` | text.dfy, seqs.dfy, wrappers.dfy | the string and list primitives the source uses (`trim`, `toLowerCase`, `includes`, `split`/`join`, `filter`) |
| `BoardDrag` | board_detail_drag.dfy | the drag-and-drop reorder of `src/components/BoardDetailPage.jsx` |
| `BoardDetail` | board_detail.dfy | the rest of the board page: sorting, filtering, column and task handlers, the save effect, and the page as a class |
| `AppShell` | app.dfy | `src/App.jsx`: the board collection, the current user and the view switches |
| `Backend` | server.dfy | `server/server.js`: the user directory, signup, login, the CORS origin check and the board state |
| `TaskForm` | task_modal.dfy | `src/components/TaskModal.jsx` |
| `TaskCardView` | task_card.dfy | `src/components/TaskCard.jsx` |
| `BoardList` | board_view.dfy | `src/components/BoardView.jsx` |
| `ColumnWidget` | column_widget.dfy | `src/components/Column.jsx` |
| `Markdown` | markdown.dfy | `src/utils/markdown.js` |
| `FixCreatedBy` | fix_created_by.dfy | the `createdBy` migration script |
| `Schemas` | schemas.dfy | the Mongoose schemas for Task, Column and Board |
| `Flows` | flows.dfy | properties that cross components (server login, then a task added on the page) |

Components whose handlers update state step by step are classes. Examples are
`BoardDetail.BoardDetailPage`, `AppShell.App`, `Backend.Server`, `TaskForm.TaskModal`,
`BoardList.BoardView` and `ColumnWidget.ColumnHeader`. Each handler is a method whose `modifies`
clause names the state fields it sets. Its `ensures` gives the new value of each of them. The new
lists those handlers store are pure functions, and the lemmas about them say what they mean.
Examples are a permutation in sorted order, a subsequence of exactly the shown tasks, and a
reinsertion that keeps the set of ids. The drag-and-drop reorder is a method. It proves that its
result meets `BoardDrag.DragOutcome`, a specification stated without reference to the algorithm.
The migration is a method with loops, proved against the function `FixCreatedBy.FixedTasks`.

Conventions:
- JavaScript's `undefined`, `null` and `''` all stand for the empty string wherever the source only
  tests truthiness. A `dueDate` is an `Option`.
- A `createdBy` reference is a `UserRef`: absent, a string id, or a populated user object.
- `assignedTo` is an `Assignees` value: a list, a single value, or absent.
- Dates and ISO timestamps are integers. Only their order matters.
- `trim` removes exactly the characters ECMAScript counts as white space or line terminators (`Text.IsWhitespace`).
- A task's `createdBy` is held in the client as the string its JSON carries. Where the server loads a task through its schema, a stored creator is an ObjectId object (`FixCreatedBy.Hydrated`).
- `Date.now()` ids, the clock and `window.confirm` answers are parameters (`freshId`, `now`,
  `confirmed`).
- Each emit of `update_board` by the client is appended to a `sent` field. Each board handed to
  `onUpdateBoard` is appended to a `published` field.

About the server state: `server/server.js` keeps `users` and `boardData` in
module variables. It has no database, no upsert and no delete cascade, and it has no 404 path.
The model follows that code. The Mongoose schemas under `server/models` are modelled on their own
as validity predicates and save functions. `server.js` never calls them. A successful signup in
the code answers with the default status 200, not 201.

A point about the drop index. `onDragEnd` (`src/components/BoardDetailPage.jsx:42`) counts the
destination position among all tasks of the destination column. The columns display the filtered
list (`src/components/BoardDetailPage.jsx:321`), and the drag library reports indices in that
displayed list. With a search or filter active, a drop can therefore land at a different place
among the column's tasks than the one shown. The model states what the code does: the position is
counted among the unfiltered column tasks (`BoardDrag.DragOutcome`). `Flows.ShownCountBound`
shows that the two counts agree when no filter is active.

## Model

| member | source | states |
|---|---|---|
| BoardDrag.OnDragEnd | src/components/BoardDetailPage.jsx:19-76 | With no destination, a drop at its own source position, or no task with the dragged id, the list is unchanged. Otherwise the dragged task is removed, its `columnId` set to the destination column, and it is reinserted at a position p with exactly min(destination.index, k) destination-column tasks before it, where k counts the other tasks of that column (the count holds when ids are unique) |
| BoardDrag.IndexOfId | src/components/BoardDetailPage.jsx:36-37 | `findIndex` by id: the first index holding that id, or -1 exactly when no task has it |
| BoardDrag.PrimaryInsertIndexFound | src/components/BoardDetailPage.jsx:44-58 | The index computed by the two primary branches is never -1 and lies within the list, so the fallback scan is unreachable, even without unique ids |
| BoardDrag.InsertPosition | src/components/BoardDetailPage.jsx:42-56 | With unique ids, the tasks of the destination column before the insertion index number min(destination.index, k) |
| BoardDrag.LastIndexInColumn | src/components/BoardDetailPage.jsx:58-71 | The backward scan finds the last task of the destination column, or -1 when the column has no tasks |
| BoardDrag.ReinsertedIds | src/components/BoardDetailPage.jsx:39-40 | Removing the dragged task and reinserting it keeps the length and the multiset of ids |
| BoardDrag.ReinsertedShape | src/components/BoardDetailPage.jsx:39-40 | Only the dragged task changes, and only its `columnId`. Removing it from the result gives the original list with it removed, so every other task keeps its relative order |
| BoardDrag.ReinsertedUnique | src/components/BoardDetailPage.jsx:73 | Reinsertion keeps task ids unique |
| BoardDrag.DragOutcomeFacts | src/components/BoardDetailPage.jsx:19-76 | Any outcome of a drag keeps the length and the id multiset of the task list, and keeps ids unique |
| BoardDrag.NthOfColumn | src/components/BoardDetailPage.jsx:47-48 | The task at position m of the filtered column list sits in the full list at an index with exactly m column tasks before it |
| BoardDetail.CompareStrings | src/components/BoardDetailPage.jsx:96 | The name comparison yields -1, 0 or 1, and 0 exactly for equal names |
| BoardDetail.CompareStringsFlip | src/components/BoardDetailPage.jsx:96 | Swapping the two names negates the comparison |
| BoardDetail.CompareStringsTransitive | src/components/BoardDetailPage.jsx:96 | The name order is transitive |
| BoardDetail.NameOf | src/components/BoardDetailPage.jsx:94-95 | A non-empty name comes from a user whose id is the task's first assignee. No assignee gives the empty name |
| BoardDetail.BeforeTotal | src/components/BoardDetailPage.jsx:81-100 | Under each of the four sort keys, any two tasks are comparable |
| BoardDetail.BeforeTransitive | src/components/BoardDetailPage.jsx:81-100 | Under each of the four sort keys, the comparator's order is transitive |
| BoardDetail.InsertSortedCorrect | src/components/BoardDetailPage.jsx:81 | Inserting one task into a sorted list keeps it sorted and adds exactly that task |
| BoardDetail.SortTasksCorrect | src/components/BoardDetailPage.jsx:78-103 | The sorted task list is ordered by the chosen comparator and is a permutation of the original |
| BoardDetail.SortTasksOfSorted | src/components/BoardDetailPage.jsx:81 | Sorting an already sorted list returns it unchanged, since the sort is stable |
| BoardDetail.SortTasksIdempotent | src/components/BoardDetailPage.jsx:78-103 | Sorting twice by the same key is the same as sorting once |
| BoardDetail.SortByPriorityOrder | src/components/BoardDetailPage.jsx:89-92 | The priority sort puts high before medium before low before a missing or unknown priority |
| BoardDetail.SortByDueDateOrder | src/components/BoardDetailPage.jsx:83-88 | The due-date sort puts undated tasks after every dated one, and dated tasks in ascending date order |
| BoardDetail.SortByCreatedAtOrder | src/components/BoardDetailPage.jsx:98-99 | The default sort puts tasks in descending creation order |
| BoardDetail.SearchStageIsFilter | src/components/BoardDetailPage.jsx:107-115 | The column and search stages together keep exactly the column's tasks that match the search |
| BoardDetail.PriorityStageIsFilter | src/components/BoardDetailPage.jsx:107-120 | Adding the priority stage keeps exactly the tasks that also have the selected priority |
| BoardDetail.FilteredTasksIsShown | src/components/BoardDetailPage.jsx:106-132 | The four filter stages together are a single filter by the predicate `Shown` |
| BoardDetail.FilteredTasksExactlyShown | src/components/BoardDetailPage.jsx:106-132 | The filtered list is an order-preserving subsequence of the tasks. Every task in it is in the column and passes the search, priority and assignee filters. Every such task is in it. A single `assignedTo` value counts as a one-element list and a missing one as empty |
| BoardDetail.UnfilteredShowsColumn | src/components/BoardDetailPage.jsx:106-132 | With an empty search and both selectors at "all", the page shows exactly the column's tasks |
| BoardDetail.RetitleColumns | src/components/BoardDetailPage.jsx:143-147 | Editing a column changes the title of the matching columns only. Ids and creation times are kept and the list keeps its length |
| BoardDetail.RetitleIdempotent | src/components/BoardDetailPage.jsx:143-147 | Applying the same edit twice equals applying it once |
| BoardDetail.DeleteColumnCascades | src/components/BoardDetailPage.jsx:149-154 | Deleting a column removes exactly the columns with that id, and exactly the tasks in that column. The remaining tasks keep their order |
| BoardDetail.ReplaceTask | src/components/BoardDetailPage.jsx:162-167 | Editing replaces each task with the edited id. A falsy `createdBy` falls back to the current user's `_id`. Other tasks and the length are unchanged |
| BoardDetail.ReplaceTaskKeepsIds | src/components/BoardDetailPage.jsx:162-167 | Editing keeps the list of task ids, and so keeps them unique |
| BoardDetail.DeleteTaskRemoves | src/components/BoardDetailPage.jsx:169-173 | Deleting a task removes every task with that id and keeps every other task, in order |
| BoardDetail.SafeTasksSound | src/components/BoardDetailPage.jsx:176-178 | The saved task list is the subsequence of exactly the tasks with a truthy `createdBy` |
| BoardDetail.SafeTasksIdempotent | src/components/BoardDetailPage.jsx:177 | Filtering the saved list again changes nothing |
| BoardDetail.AddWithoutMongoIdIsDropped | src/components/BoardDetailPage.jsx:156-158 | When the current user has no `_id`, a task added on the page is absent from the board that is saved |
| BoardDetail.SavedBoardHasCreators | src/components/BoardDetailPage.jsx:176-179 | Every task of a board handed to `onUpdateBoard` has a truthy `createdBy` |
| BoardDetail.FindTask | src/components/BoardDetailPage.jsx:352 | Nothing iff no task has the id. Otherwise the first task with it |
| BoardDetail.FindTaskAfterReplace | src/components/BoardDetailPage.jsx:162-167 | After an edit of a present task, looking its id up finds the edited version |
| BoardDetail.FindTaskAfterDelete | src/components/BoardDetailPage.jsx:169-173 | After a delete, looking the id up finds nothing |
| BoardDetail.BoardDetailPage.constructor | src/components/BoardDetailPage.jsx:11-17 | The page starts with the board's columns and tasks, no task being edited, an empty search, both filters at "all" and the creation-date sort. The mount effect publishes the saved board |
| BoardDetail.BoardDetailPage.HandleDragEnd | src/components/BoardDetailPage.jsx:19-76 | The task list becomes a drag outcome. Nothing else changes. A new board is published only when the drag applies |
| BoardDetail.BoardDetailPage.HandleSortChange | src/components/BoardDetailPage.jsx:78-103 | The sort key is set and the task list replaced by its sorted copy. The saved board is published |
| BoardDetail.BoardDetailPage.SetSearchQuery | src/components/BoardDetailPage.jsx:251 | The search input sets the query |
| BoardDetail.BoardDetailPage.SetPriorityFilter | src/components/BoardDetailPage.jsx:279 | The priority selector sets the priority filter |
| BoardDetail.BoardDetailPage.SetAssigneeFilter | src/components/BoardDetailPage.jsx:295 | The assignee selector sets the assignee filter |
| BoardDetail.BoardDetailPage.AddColumn | src/components/BoardDetailPage.jsx:134-141 | A column titled "New Column" with the fresh id and time is appended. The board is published |
| BoardDetail.BoardDetailPage.EditColumn | src/components/BoardDetailPage.jsx:143-147 | The columns are retitled by id. The board is published |
| BoardDetail.BoardDetailPage.DeleteColumn | src/components/BoardDetailPage.jsx:149-154 | When confirmed, the column and its tasks are removed and the board is published. Otherwise nothing changes |
| BoardDetail.BoardDetailPage.AddTask | src/components/BoardDetailPage.jsx:156-160 | The task is appended with the column id and `createdBy` set to the current user's `_id`. The editor closes and the board is published |
| BoardDetail.BoardDetailPage.EditTask | src/components/BoardDetailPage.jsx:162-167 | The task with the edited id is replaced. The editor closes and the board is published |
| BoardDetail.BoardDetailPage.DeleteTaskById | src/components/BoardDetailPage.jsx:169-173 | When confirmed, the task is removed and the board is published. Otherwise nothing changes |
| BoardDetail.BoardDetailPage.OpenEditor | src/components/BoardDetailPage.jsx:325 | Clicking edit on a card makes that task the one being edited |
| BoardDetail.BoardDetailPage.CloseEditor | src/components/BoardDetailPage.jsx:354 | Cancelling the modal clears the task being edited |
| BoardDetail.BoardDetailPage.EditorTask | src/components/BoardDetailPage.jsx:350-352 | The modal gets nothing exactly when no task is being edited, the edited task has no id, or no task has that id. Otherwise it gets the first task with that id |
| AppShell.NormalizeUser | src/App.jsx:29 | A fetched user's `id` becomes `u.id` when truthy, else `u._id`. All other fields are kept |
| AppShell.NormalizeUsers | src/App.jsx:29 | Every fetched user is normalised, in order |
| AppShell.NormalizeUsersIdempotent | src/App.jsx:29 | Normalising twice is the same as normalising once |
| AppShell.ReplaceBoard | src/App.jsx:89-91 | Each board with the updated id is replaced. The others stay in place and the length is kept |
| AppShell.ReplaceBoardFacts | src/App.jsx:88-95 | The update keeps the list of board ids. It contains the updated board when its id was present, and changes nothing when it was absent |
| AppShell.RemoveBoardFacts | src/App.jsx:99 | Removal drops every board with that id and keeps the others in order |
| AppShell.App.constructor | src/App.jsx:15-23 | The app starts with no user, the boards view, no selected board, no boards or users, and every flag off |
| AppShell.App.ReceiveUsers | src/App.jsx:26-30 | Fetched users replace the directory after normalisation |
| AppShell.App.ReceiveBoards | src/App.jsx:45-52 | An `initial_data` or `board_updated` snapshot, or a fetched board list, replaces the boards wholesale |
| AppShell.App.DetailBoard | src/App.jsx:228-235 | The detail page is rendered with the selected board, which `Valid` guarantees while that view shows |
| AppShell.App.HandleLogout | src/App.jsx:71-75 | Logout clears the user, selects the boards view and clears the selected board |
| AppShell.App.HandleCreateBoard | src/App.jsx:77-81 | The board is appended at the end and exactly the new collection is emitted |
| AppShell.App.HandleSelectBoard | src/App.jsx:83-86 | The board is selected and the detail view shown |
| AppShell.App.HandleUpdateBoard | src/App.jsx:88-95 | Boards are replaced by id, the updated board becomes the selected one, and the new collection is emitted |
| AppShell.App.HandleDeleteBoard | src/App.jsx:97-103 | When confirmed, the boards with that id are removed and the new collection is emitted. Otherwise nothing changes and nothing is emitted |
| AppShell.App.HandleBackToBoards | src/App.jsx:105-108 | The boards view is shown and the selection cleared. The user is kept |
| AppShell.App.HandleCloseOnboarding | src/App.jsx:110-112 | The onboarding modal is hidden |
| AppShell.App.SetShowSignup | src/App.jsx:137-139 | The login and signup links switch between the two pages |
| AppShell.App.HandleSignup | src/App.jsx:115-120 | Signup sets the user and the pending-onboarding flag, and resets the view |
| AppShell.App.HandleLogin | src/App.jsx:123-127 | Login sets the user and resets the view |
| AppShell.App.UserEffect | src/App.jsx:65-69 | Onboarding is shown when a user is set who has not seen it yet |
| AppShell.App.PendingOnboardingEffect | src/App.jsx:129-134 | With a user and a pending flag, onboarding is shown and the flag cleared. Otherwise nothing changes |
| AppShell.App.SignupThenEffect | src/App.jsx:115-134 | After signup and the effect that follows, onboarding is shown and nothing is pending |
| Backend.Strip | server/server.js:77 | A listed user keeps id, name, username and avatar, and loses the password |
| Backend.PublicUsers | server/server.js:76-78 | The listing holds every user in order, each without its password |
| Backend.Initials | server/server.js:89 | The initials are the first characters of the words, in order. Empty words contribute nothing |
| Backend.AvatarOfWords | server/server.js:89 | For a name of non-empty space-free words joined by single spaces, the avatar is the upper-cased first letter of each word |
| Backend.AvatarOfTwoWords | server/server.js:89 | A first and last name give the two upper-cased initials |
| Backend.SeedAvatarsDerived | server/server.js:34-39 | Every seeded user's avatar is the one signup would derive from the name |
| Backend.SeedUsersValid | server/server.js:34-39 | The seeded users have ids "u1" to "u4" in order and distinct usernames |
| Backend.SequentialIdsUnique | server/server.js:88 | When each `users[i].id` is "u" followed by i+1, the ids are distinct |
| Backend.SignupResult | server/server.js:80-93 | A falsy name, username or password fails with 400 and leaves the users unchanged. Whitespace is not rejected. A taken username fails with 409 and leaves them unchanged. Otherwise one user with id "u" followed by n+1 and the derived avatar is appended, and returned without the password |
| Backend.SignupKeepsInvariant | server/server.js:85-91 | Signup keeps the ids sequential and the usernames unique |
| Backend.FindLogin | server/server.js:97 | The lookup returns the first user whose username and password both match, or nothing when none matches |
| Backend.Login | server/server.js:95-102 | Login succeeds iff some user has exactly that username and password, and returns a matching user without the password. Otherwise it fails with 401 |
| Backend.LoginFindsTheUser | server/server.js:97 | With unique usernames, logging in with a user's own credentials returns that user |
| Backend.SignupThenLogin | server/server.js:80-102 | After a successful signup, logging in with the same credentials returns the user that signup returned |
| Backend.IndexOf | server/server.js:17 | `indexOf` is -1 exactly when the origin is not in the allow-list |
| Backend.OriginAllowed | server/server.js:14-22 | An absent origin is accepted. Any other origin is accepted iff it is in the allow-list |
| Backend.OriginsFromEnvironment | server/server.js:11-22 | With `FRONTEND_URL` set to comma-joined entries, an origin is accepted iff it is absent or one of the entries |
| Backend.DefaultOrigins | server/server.js:11-22 | Without `FRONTEND_URL`, only an absent origin and http://localhost:5173 are accepted |
| Backend.Server.constructor | server/server.js:34-73 | The server starts with the four seeded users, the seeded board and the allow-list taken from `FRONTEND_URL` |
| Backend.Server.Signup | server/server.js:80-93 | The users and the response are exactly those of `SignupResult`. A failure leaves the users unchanged. A success appends one user and returns it without the password. Sequential ids and unique usernames are preserved |
| Backend.Server.UpdateBoard | server/server.js:115-119 | The board state becomes exactly the submitted value, and that value is broadcast |
| Backend.LastWriteWins | server/server.js:105-119 | After two updates, `GET /api/boards` and `initial_data` return the second one |
| TaskForm.GetUserId | src/components/TaskModal.jsx:13-18 | A falsy value gives "". A string gives itself. An object gives `_id`, else `id` |
| TaskForm.GetUserIdEmpty | src/components/TaskModal.jsx:13-18 | The result is empty exactly for a falsy value, or for an object without `_id` and `id` |
| TaskForm.InitialAssignees | src/components/TaskModal.jsx:8-10 | A list is taken as is, a single truthy value as a one-element list, anything else as [] |
| TaskForm.InitialAssigneesAgree | src/components/TaskModal.jsx:8-10 | The modal and the card normalise `assignedTo` the same way |
| TaskForm.InitialForm | src/components/TaskModal.jsx:20-27 | A new form has an empty title, description and due date, priority medium, no assignees and the current user's `_id`. An edit form copies the task, with medium for a missing priority |
| TaskForm.Toggle | src/components/TaskModal.jsx:55-61 | Toggling flips membership of that id and leaves every other id's membership alone. An absent id is appended at the end after the unchanged list. A present id is removed, and what remains is a subsequence of the list, in its order |
| TaskForm.ToggleTwice | src/components/TaskModal.jsx:55-61 | Toggling an absent id twice restores the list |
| TaskForm.ResolveAssigneeIdentity | src/components/TaskModal.jsx:37-40 | Resolving an id through the users gives back the same id |
| TaskForm.ResolveAssignees | src/components/TaskModal.jsx:37-40 | The submit-time mapping of `assignedTo` is the identity on the list |
| TaskForm.SubmittedTask | src/components/TaskModal.jsx:33-53 | Nothing is saved iff the title is blank. The saved task carries the form's fields untrimmed, `createdBy` set to the current user's `id`, and the submit time as `updatedAt`. An edit keeps the task's `createdAt`, and keeps its id and `columnId` when truthy. A new task takes the fresh id, the submit time and the column prop |
| TaskForm.SubmittedIgnoresFormCreator | src/components/TaskModal.jsx:41 | Whatever the form's `createdBy` field holds, the saved task is the same |
| TaskForm.TaskModal.constructor | src/components/TaskModal.jsx:20-31 | The form starts from `InitialForm`. The mount effect then sets `createdBy` to the current user's `_id` |
| TaskForm.TaskModal.CurrentUserEffect | src/components/TaskModal.jsx:29-31 | The effect sets the form's `createdBy` to the current user's `_id` and keeps the rest |
| TaskForm.TaskModal.HandleAssigneeChange | src/components/TaskModal.jsx:55-61 | The assignee checkbox toggles that id in the form and keeps the rest |
| TaskForm.TaskModal.SetTitle | src/components/TaskModal.jsx:76 | The title input sets the title only |
| TaskForm.TaskModal.SetDescription | src/components/TaskModal.jsx:86 | The description input sets the description only |
| TaskForm.TaskModal.SetPriority | src/components/TaskModal.jsx:96 | The priority selector sets the priority only |
| TaskForm.TaskModal.SetDueDate | src/components/TaskModal.jsx:110 | The date input sets the due date only |
| TaskCardView.FindUser | src/components/TaskCard.jsx:23 | The lookup returns a user with that id, or nothing exactly when no user has it |
| TaskCardView.AssignedUsers | src/components/TaskCard.jsx:22-24 | The resolved users are at most as many as the ids, each a user whose id is among them |
| TaskCardView.AssignedUsersResolved | src/components/TaskCard.jsx:22-24 | For any mix of ids, the card lists one user per id that resolves, in id order: the user `find` returns for that id. Ids that resolve to no user are dropped |
| TaskCardView.AssignedUsersAllResolve | src/components/TaskCard.jsx:22-24 | When every id resolves, the users are listed one per id, in id order |
| TaskCardView.AssignedUsersNoneResolve | src/components/TaskCard.jsx:22-24 | When no id resolves, the list is empty, since unresolved ids are dropped |
| TaskCardView.AvatarRow | src/components/TaskCard.jsx:69-79 | At most two avatars are shown, those of the first users. A "+n" count with n the remainder appears only with more than two users |
| TaskCardView.Creator | src/components/TaskCard.jsx:26 | A creator is found only for a string `createdBy` equal to a fetched user's id |
| TaskCardView.CreatorLabel | src/components/TaskCard.jsx:82-101 | A found creator gives "Created by" and the name. Otherwise the label is "Created by Unknown", followed by the reference in parentheses only when `createdBy` is truthy |
| TaskCardView.ObjectCreatorIsUnknown | src/components/TaskCard.jsx:26-99 | A populated `createdBy` object never matches a user and shows as "[object Object]" |
| TaskCardView.RenderCard | src/components/TaskCard.jsx:27-57 | The card renders iff the priority is high, medium or low. The due-date badge shows iff `dueDate` is truthy. At most two avatars show. The description HTML has no newline |
| TaskCardView.CardCreatorResolves | src/components/TaskCard.jsx:16-89 | When a usable fetched user has the creator's id, the card's label names that user |
| BoardList.TileOf | src/components/BoardView.jsx:77-99 | A tile shows the board's title, its description or the fallback text, and the task count |
| BoardList.Tiles | src/components/BoardView.jsx:60-110 | One tile per board, in order |
| BoardList.EmptyStateIffNoTiles | src/components/BoardView.jsx:112 | The empty state shows exactly when there are no tiles, that is when the board list is empty |
| BoardList.NewBoardTitle | src/components/BoardView.jsx:14-22 | A created board has a non-empty, already trimmed title and no columns or tasks |
| BoardList.CreatedBoard | src/components/BoardView.jsx:14-23 | Nothing is created iff the title is blank. Otherwise the board with the trimmed title and description is created |
| BoardList.BoardView.constructor | src/components/BoardView.jsx:7-9 | The form starts closed and empty, with no hovered board |
| BoardList.BoardView.OpenCreate | src/components/BoardView.jsx:49 | The create button opens the form |
| BoardList.BoardView.CancelCreate | src/components/BoardView.jsx:188 | Cancel closes the form and keeps what was typed |
| BoardList.BoardView.SetTitle | src/components/BoardView.jsx:164 | The title input sets the title |
| BoardList.BoardView.SetDescription | src/components/BoardView.jsx:178 | The description input sets the description |
| BoardList.BoardView.Hover | src/components/BoardView.jsx:63-64 | Entering or leaving a tile sets the hovered board |
| BoardList.BoardView.HandleCreateBoard | src/components/BoardView.jsx:12-27 | The result is `CreatedBoard` of the typed title and description. A blank title creates nothing and changes nothing. Otherwise the new board is returned once, the fields are cleared and the form closes |
| ColumnWidget.SavedTitle | src/components/Column.jsx:15-16 | A blank title is not saved. Otherwise the saved title is non-empty and trimmed |
| ColumnWidget.ColumnHeader.constructor | src/components/Column.jsx:10-12 | The header starts showing the column's title, not editing and not adding a task |
| ColumnWidget.ColumnHeader.StartEditing | src/components/Column.jsx:68 | The edit button enters edit mode |
| ColumnWidget.ColumnHeader.SetColumnTitle | src/components/Column.jsx:36 | The title input sets the edited title |
| ColumnWidget.ColumnHeader.HandleSaveColumn | src/components/Column.jsx:14-19 | A blank title makes no callback and stays in edit mode. Otherwise `onEditColumn` receives the column id and the trimmed title, and edit mode ends |
| ColumnWidget.ColumnHeader.KeyPress | src/components/Column.jsx:42 | Enter performs the same save. Any other key does nothing |
| ColumnWidget.ColumnHeader.HandleCancelEdit | src/components/Column.jsx:21-24 | Cancel restores the column's title and leaves edit mode |
| ColumnWidget.ColumnHeader.ReceiveColumn | src/components/Column.jsx:8-12 | A new `column` prop replaces the held column and keeps the component's state |
| ColumnWidget.ColumnHeader.RenameThenCancel | src/components/Column.jsx:14-24 | After a saved rename, the parent's retitled prop and a later cancel show the new title. A blank rename makes no call, and cancel shows the old title |
| ColumnWidget.ColumnHeader.RequestDelete | src/components/Column.jsx:78 | The delete button passes the column's id |
| ColumnWidget.ColumnHeader.OpenAddTask | src/components/Column.jsx:127 | The add button opens the task modal |
| ColumnWidget.ColumnHeader.SaveNewTask | src/components/Column.jsx:140-143 | Saving calls `onAddTask` with this column's id and the task, and closes the modal |
| ColumnWidget.ColumnHeader.CancelAddTask | src/components/Column.jsx:144 | Cancel closes the modal |
| Markdown.RenderMarkdown | src/utils/markdown.js:2-10 | Falsy input yields "". The output never contains a newline |
| Markdown.CloseAt | src/utils/markdown.js:6-8 | The lazy `(.*?)` match ends at the first closing delimiter on the same line, with no line terminator before it |
| Markdown.Br | src/utils/markdown.js:9 | Every newline is replaced, so none is left |
| Markdown.BrConcat | src/utils/markdown.js:9 | The newline rewrite works piece by piece |
| Markdown.RewriteUntouched | src/utils/markdown.js:5-8 | A rewrite whose delimiter never occurs leaves the text unchanged |
| Markdown.RewritePair | src/utils/markdown.js:6-8 | A delimited run on one line is wrapped in the open and close tags, and scanning continues after it |
| Markdown.RenderPlain | src/utils/markdown.js:5-9 | Non-empty text with no `*`, backtick or newline comes back unchanged |
| Markdown.RenderBold | src/utils/markdown.js:6 | `**x**` becomes `<strong>x</strong>` when x is free of the markup characters |
| Markdown.RenderItalic | src/utils/markdown.js:6-7 | `*x*` becomes `<em>x</em>` for any x free of the markup characters. The bold rewrite runs first and leaves it alone. With x empty, `**` has no closing pair and becomes `<em></em>` |
| Markdown.RenderCode | src/utils/markdown.js:8 | A backtick-delimited x becomes `<code class="bg-gray-100 px-1 rounded">x</code>` |
| Markdown.RenderLines | src/utils/markdown.js:9 | A newline between two plain lines becomes `<br>` |
| Markdown.RenderUnpaired | src/utils/markdown.js:7-8 | An unpaired `*` or backtick is left in place |
| FixCreatedBy.FixTask | server/utils/fixCreatedBy.js:11-21 | A task whose `createdBy` is an object with a truthy `_id` or `id` gets that value, `_id` first. Every other task is returned unchanged |
| FixCreatedBy.FixedTasks | server/utils/fixCreatedBy.js:11 | The task list keeps its length and order, and each task is fixed |
| FixCreatedBy.FixAgreesWithGetUserId | server/utils/fixCreatedBy.js:14 | The migration extracts the same id as the modal's `getUserId` |
| FixCreatedBy.FixTaskKeeps | server/utils/fixCreatedBy.js:17 | Only `createdBy` changes, and its truthiness is kept |
| FixCreatedBy.FixTaskIdempotent | server/utils/fixCreatedBy.js:12-20 | A rewritten creator is a plain id, which a second pass over the same values leaves alone |
| FixCreatedBy.FixTasks | server/utils/fixCreatedBy.js:10-21 | The loop produces the fixed task list, and the flag is set iff some task was rewritten. An object with neither `_id` nor `id` leaves the flag unset |
| FixCreatedBy.FixBoard | server/utils/fixCreatedBy.js:11 | A migrated board differs from the original only in its task list, which is the fixed list |
| FixCreatedBy.BoardsToSaveFacts | server/utils/fixCreatedBy.js:22-25 | The boards written back are exactly those with a rewritten task, each listed once, in increasing order |
| FixCreatedBy.FixBoards | server/utils/fixCreatedBy.js:9-26 | The loop gives every board its fixed task list. The saved boards are, in increasing order, exactly those with a rewritten task |
| FixCreatedBy.FixedBoardNeedsNoFix | server/utils/fixCreatedBy.js:9-26 | A second pass over the fixed values themselves finds no task to rewrite |
| FixCreatedBy.Hydrated | server/utils/fixCreatedBy.js:12-14 | A stored creator id reaches the callback as an ObjectId object whose `_id` reads back as that id. Every other value arrives as it is |
| FixCreatedBy.HydratedCreatorIsRewritten | server/utils/fixCreatedBy.js:12-17 | A loaded task with a stored creator is rewritten and sets the flag, though the value written back is the stored one |
| FixCreatedBy.StoredBoardIsResaved | server/utils/fixCreatedBy.js:9-26 | Every stored board with a task is saved again on every run, with its content unchanged |
| Schemas.SaveColumn | server/models/Column.js:4-9 | A column saves iff it has an id and a title. The saved column is valid and takes its creation time from the document, or the clock |
| Schemas.ColumnRoundTrip | server/models/Column.js:4-9 | Saving the document of a valid column gives back that column |
| Schemas.ParsePriority | server/models/Task.js:9 | Only "low", "medium" and "high" are accepted |
| Schemas.CastObjectId | server/models/Task.js:11-12 | Accepted ObjectId text is stored as 24 lower-case hex digits, the same digits up to case |
| Schemas.CanonicalCastsToItself | server/models/Task.js:11-12 | A stored ObjectId casts to itself |
| Schemas.CastObjectIds | server/models/Task.js:11 | Each entry of an ObjectId array is cast, in order |
| Schemas.FirstNonObjectId | server/models/Task.js:11 | Nothing is reported iff every entry casts. Otherwise the reported entry is one that fails |
| Schemas.SaveTask | server/models/Task.js:5-16 | A task saves iff it has an id, a title, a column id and a creator that casts to an ObjectId, every assignee casts, and any priority it has is in the enum. A bad priority or creator is named in the error. The saved task keeps the id, title, column id, due date and given priority, stores the creator and assignees cast, defaults the description to "" and the priority to medium, and as a new sub-document takes `createdAt` from the document or the clock with `updatedAt` equal to it |
| Schemas.TaskRoundTrip | server/models/Task.js:5-16 | Saving the document of a valid task as a new sub-document gives back that task, with `updatedAt` equal to its `createdAt` |
| Schemas.SaveColumns | server/models/Board.js:10 | The columns save iff each one does, and in order |
| Schemas.SaveTasks | server/models/Board.js:11 | The tasks save iff each one does, and in order |
| Schemas.SaveBoard | server/models/Board.js:6-13 | A board saves iff it has an id and a title and all its columns and tasks save. The saved board keeps the id and title, takes `createdAt` from the document or the clock, defaults the description to "", and holds exactly the saved columns and tasks |
| Schemas.InsertBoard | server/models/Board.js:7 | A valid document with an unused id is appended as the saved board. A duplicate id fails with a duplicate-key error, and an invalid document fails with its validation error. Nothing else succeeds |
| Schemas.InsertBoardKeepsInvariant | server/models/Board.js:7 | Inserting keeps the stored board ids unique and every stored board valid |
| Entities.AssigneeIds | src/components/TaskCard.jsx:19-20 | A list is taken as is, a single truthy value as a one-element list, anything else as [] |
| Text.TrimEmptyIffBlank | src/components/BoardView.jsx:14 | Trimming gives "" exactly for blank text, so `title.trim()` is falsy exactly then |
| Text.TrimIdempotent | src/components/Column.jsx:16 | Trimming a trimmed string changes nothing |
| Text.ToLower | src/components/BoardDetailPage.jsx:112-113 | Lower-casing maps each character and keeps the length |
| Text.ToUpper | server/server.js:89 | Upper-casing maps each character and keeps the length |
| Text.Includes | src/components/BoardDetailPage.jsx:112-113 | `includes` holds iff the query occurs at some position |
| Text.Split | server/server.js:11 | `split` gives at least one part, none containing the separator |
| Text.JoinSplit | server/server.js:11 | Joining the parts of a split gives back the string |
| Text.SplitJoin | server/server.js:11 | Splitting separator-free parts joined by the separator gives back the parts |
| Text.NatToStringInjective | server/server.js:88 | Different user counts give different ids |
| Flows.ServerUsersHaveNoMongoId | src/App.jsx:29 | Users from the server, once normalised, keep their id and have no `_id` |
| Flows.AddedTaskIsNotSaved | src/components/BoardDetailPage.jsx:157-177 | A user logged in through the server has no `_id`, so any task they add on the page is left out of the saved board |
| Flows.EditedTaskIsSaved | src/components/TaskModal.jsx:41 | A task edited in the modal by a user with an id carries that id as creator, so it is kept when the board is saved |
| Flows.ShownCountBound | src/components/BoardDetailPage.jsx:106-132 | A column shows at most its own tasks, and exactly that many when no filter is active |

## Left out

- Network and framework plumbing is not modelled. That covers socket.io and Express wiring, HTTP status transport, `fetch`, React rendering, JSX, styling, the theme and the drag library's mechanics. Handlers take their inputs as parameters. The emits a handler makes are recorded as state.
- The Mongo connect, find and save calls of the migration are not modelled. `server/utils/seed.js` is not part of this model.
- The login and signup pages are not modelled, and neither is the onboarding modal. The `localStorage` flag reaches `AppShell.App.UserEffect` as the parameter `hasSeenOnboarding`.
- Dates are integers. The `new Date(...)` parsing in the comparators and `formatDate`/`isOverdue` are not modelled. Neither are the subtraction results of the date comparators, only their sign.
- BoardDetail.CompareStrings: `localeCompare` is modelled as code-point order, not the locale's collation.
- Text.ToLower: only ASCII letters are lower-cased. Unicode case mapping is not modelled, and strings are sequences of characters rather than UTF-16 code units.
- Text.ToUpper: only ASCII letters are upper-cased, so the avatar of `server/server.js:89` is exact only for names whose initials are ASCII.
- Schemas.SaveTask: a `null` priority is treated like an absent one and stored as medium. Mongoose applies the default of `server/models/Task.js:9` only to `undefined`, and keeps or rejects a `null` depending on its version. Only a new sub-document is modelled: a re-save of a stored task, where Mongoose keeps `updatedAt` when the task is unmodified and sets it to the save time when it is modified, is not represented.
- BoardDetail.MatchesSearch: a task with no description is searched as if its description were "". In the code, `task.description.toLowerCase()` at `src/components/BoardDetailPage.jsx:113` throws for such a task when its title misses the query, and the page fails to render. The model does not represent that crash.
- FixTaskIdempotent: the idempotence is over the creator values themselves. A run of the program loads stored creators as ObjectId objects, which it rewrites again (`FixCreatedBy.HydratedCreatorIsRewritten`).
- FixedBoardNeedsNoFix: for the same reason a second run of the program does save boards again, though with unchanged content (`FixCreatedBy.StoredBoardIsResaved`).
- FixCreatedBy.Hydrated: only a stored id string is hydrated. How Mongoose casts a creator stored as an embedded object when it loads it is not modelled. Such a value reaches the callback as it is.
- Schemas.ObjectIdText: only the 24-hex-digit form of ObjectId text is accepted. The 12-character string form that some BSON versions also accept is not modelled, and neither are other castable values such as numbers or objects with an `_id`.
- BoardDetail.NameOf: a task with no assignee looks up `undefined`. The model treats this as matching no user, although a fetched user without an `id` would match it in the code.
- A board whose `columns` or `tasks` field is absent is not represented. The `|| []` fallbacks at `src/components/BoardDetailPage.jsx:11-12` and the `|| 0` task count at `src/components/BoardView.jsx:99` are therefore always the present branch.
- A `priority` outside high, medium and low, and a missing one, are both `Unranked`. The priority filter never matches them, since the selector only offers the three names.
- The `update_board` payload is a board list. The source accepts any JSON value there, and no other shape is modelled.
- BoardDetail.BoardDetailPage.EditColumn: the update object is always `{title}` at its one call site, so the merge `{...col, ...updates}` is modelled as a title change.
- The modal's `onSave` at `src/components/BoardDetailPage.jsx:353` selects `addTask` when the edited task has no id, calling it with one argument. Every task opened for editing has an id, so that path is not modelled.
- The count badge at `src/components/Column.jsx:63` shows the length of the list it is given, which is the filtered list of `BoardDetail.FilteredTasks`. It is not a separate member.
- Column and board `updatedAt` and the Mongoose `_id: false` options are not modelled. Identity is the string `id` throughout.
- Concurrency between clients is reduced to the order in which the server receives updates (`Backend.LastWriteWins`).
