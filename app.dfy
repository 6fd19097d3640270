/** The application shell of src/App.jsx: the board collection, the signed-in user, which view is
    shown, the onboarding flags, and what is emitted on the socket. */
module AppShell {
  import opened Wrappers
  import opened Entities
  import opened Seqs

  /** `'boards'` or `'board-detail'`. */
  datatype View = BoardsView | BoardDetailView

  /** The normalisation of `fetchUsers`: `id` becomes `u.id || u._id`. */
  function NormalizeUser(u: User): (r: User)
    ensures r.id != "" <==> u.id != "" || u.mongoId != ""
    ensures u.id != "" ==> r == u
    ensures u.id == "" ==> r == u.(id := u.mongoId)
  {
    u.(id := if u.id != "" then u.id else u.mongoId)
  }

  function NormalizeUsers(us: seq<User>): (r: seq<User>)
    ensures |r| == |us| && forall i :: 0 <= i < |us| ==> r[i] == NormalizeUser(us[i])
  {
    if us == [] then [] else [NormalizeUser(us[0])] + NormalizeUsers(us[1..])
  }

  /** Normalising twice is normalising once. */
  lemma NormalizeUsersIdempotent(us: seq<User>)
    ensures NormalizeUsers(NormalizeUsers(us)) == NormalizeUsers(us)
  {
    var once := NormalizeUsers(us);
    assert forall i :: 0 <= i < |once| ==> NormalizeUser(once[i]) == once[i];
  }

  /** `boards.map(b => b.id === updated.id ? updated : b)`. */
  function ReplaceBoard(boards: seq<Board>, updated: Board): (r: seq<Board>)
    ensures |r| == |boards|
    ensures forall i :: 0 <= i < |r| ==> r[i] == (if boards[i].id == updated.id then updated else boards[i])
  {
    if boards == [] then []
    else [if boards[0].id == updated.id then updated else boards[0]] + ReplaceBoard(boards[1..], updated)
  }

  function BoardIds(boards: seq<Board>): (ids: seq<string>)
    ensures |ids| == |boards| && forall i :: 0 <= i < |boards| ==> ids[i] == boards[i].id
  {
    seq(|boards|, i requires 0 <= i < |boards| => boards[i].id)
  }

  /** An update keeps the ids in place; when a board with that id exists the update is now in the
      collection, and otherwise nothing changes. */
  lemma ReplaceBoardFacts(boards: seq<Board>, updated: Board)
    ensures BoardIds(ReplaceBoard(boards, updated)) == BoardIds(boards)
    ensures updated.id in BoardIds(boards) ==> updated in ReplaceBoard(boards, updated)
    ensures updated.id !in BoardIds(boards) ==> ReplaceBoard(boards, updated) == boards
  {
    ReplaceKeepsIds(boards, updated);
    if updated.id in BoardIds(boards) {
      ReplacePresent(boards, updated);
    } else {
      ReplaceAbsent(boards, updated);
    }
  }

  lemma ReplaceKeepsIds(boards: seq<Board>, updated: Board)
    ensures BoardIds(ReplaceBoard(boards, updated)) == BoardIds(boards)
  {
    var r := ReplaceBoard(boards, updated);
    assert forall i :: 0 <= i < |r| ==> r[i].id == boards[i].id;
  }

  lemma ReplacePresent(boards: seq<Board>, updated: Board)
    requires updated.id in BoardIds(boards)
    ensures updated in ReplaceBoard(boards, updated)
  {
    var ids := BoardIds(boards);
    var i :| 0 <= i < |ids| && ids[i] == updated.id;
    assert ReplaceBoard(boards, updated)[i] == updated;
  }

  lemma ReplaceAbsent(boards: seq<Board>, updated: Board)
    requires updated.id !in BoardIds(boards)
    ensures ReplaceBoard(boards, updated) == boards
  {
    var ids := BoardIds(boards);
    forall i | 0 <= i < |boards| ensures boards[i].id != updated.id {
      assert ids[i] == boards[i].id;
    }
  }

  /** `boards.filter(b => b.id !== boardId)`. */
  function RemoveBoard(boards: seq<Board>, boardId: string): seq<Board> {
    Filter(boards, (b: Board) => b.id != boardId)
  }

  /** Deleting removes every board with that id and keeps the others, in order. */
  lemma RemoveBoardFacts(boards: seq<Board>, boardId: string)
    ensures var r := RemoveBoard(boards, boardId);
      boardId !in BoardIds(r) && IsSubsequence(r, boards) &&
      forall b :: b in boards && b.id != boardId ==> b in r
  {
    FilterIsSubsequence(boards, (b: Board) => b.id != boardId);
  }

  class App {
    var user: Option<User>
    var currentView: View
    var selectedBoard: Option<Board>
    var boards: seq<Board>
    var users: seq<User>
    var showSignup: bool
    var showOnboarding: bool
    var pendingOnboarding: bool
    /** The `boards` payloads of the `update_board` messages emitted so far, in order. */
    var sent: seq<seq<Board>>

    /** The detail view is only shown with a selected board. */
    ghost predicate Valid()
      reads this
    {
      currentView == BoardDetailView ==> selectedBoard.Some?
    }

    constructor ()
      ensures user.None? && currentView == BoardsView && selectedBoard.None?
      ensures boards == [] && users == [] && sent == []
      ensures !showSignup && !showOnboarding && !pendingOnboarding
      ensures Valid()
    {
      user := None;
      currentView := BoardsView;
      selectedBoard := None;
      boards := [];
      users := [];
      showSignup := false;
      showOnboarding := false;
      pendingOnboarding := false;
      sent := [];
    }

    /** The board the detail page is rendered with (lines 228-235). The page reads that board's
        fields, so the view may only show while a board is selected. */
    function DetailBoard(): (b: Board)
      reads this
      requires Valid() && currentView == BoardDetailView
      ensures selectedBoard == Some(b)
    {
      selectedBoard.value
    }

    /** The `fetchUsers` response. */
    method ReceiveUsers(data: seq<User>)
      modifies this`users
      ensures users == NormalizeUsers(data)
    {
      users := NormalizeUsers(data);
    }

    /** `initial_data`, `board_updated` and the `fetchBoards` response replace the collection wholesale. */
    method ReceiveBoards(data: seq<Board>)
      modifies this`boards
      ensures boards == data
    {
      boards := data;
    }

    method HandleLogout()
      modifies this`user, this`currentView, this`selectedBoard
      ensures user.None? && currentView == BoardsView && selectedBoard.None?
      ensures Valid()
    {
      user := None;
      currentView := BoardsView;
      selectedBoard := None;
    }

    /** Appends the board and emits the new collection. */
    method HandleCreateBoard(board: Board)
      modifies this`boards, this`sent
      ensures boards == old(boards) + [board]
      ensures sent == old(sent) + [boards]
    {
      boards := boards + [board];
      sent := sent + [boards];
    }

    method HandleSelectBoard(board: Board)
      modifies this`selectedBoard, this`currentView
      ensures selectedBoard == Some(board) && currentView == BoardDetailView
      ensures Valid()
    {
      selectedBoard := Some(board);
      currentView := BoardDetailView;
    }

    /** Replaces the board with the same id, selects the update, and emits the new collection. */
    method HandleUpdateBoard(updated: Board)
      modifies this`boards, this`selectedBoard, this`sent
      ensures boards == ReplaceBoard(old(boards), updated)
      ensures selectedBoard == Some(updated)
      ensures sent == old(sent) + [boards]
      ensures Valid()
    {
      boards := ReplaceBoard(boards, updated);
      selectedBoard := Some(updated);
      sent := sent + [boards];
    }

    /** `confirmed` is the answer to `window.confirm`; unconfirmed, nothing changes and nothing is emitted. */
    method HandleDeleteBoard(boardId: string, confirmed: bool)
      modifies this`boards, this`sent
      ensures confirmed ==> boards == RemoveBoard(old(boards), boardId) && sent == old(sent) + [boards]
      ensures !confirmed ==> boards == old(boards) && sent == old(sent)
    {
      if confirmed {
        boards := RemoveBoard(boards, boardId);
        sent := sent + [boards];
      }
    }

    method HandleBackToBoards()
      modifies this`currentView, this`selectedBoard
      ensures currentView == BoardsView && selectedBoard.None?
      ensures Valid()
    {
      currentView := BoardsView;
      selectedBoard := None;
    }

    method HandleCloseOnboarding()
      modifies this`showOnboarding
      ensures !showOnboarding
    {
      showOnboarding := false;
    }

    /** The links between the login and signup pages. */
    method SetShowSignup(value: bool)
      modifies this`showSignup
      ensures showSignup == value
    {
      showSignup := value;
    }

    method HandleSignup(userData: User)
      modifies this`user, this`pendingOnboarding, this`currentView, this`selectedBoard
      ensures user == Some(userData) && pendingOnboarding
      ensures currentView == BoardsView && selectedBoard.None?
      ensures Valid()
    {
      user := Some(userData);
      pendingOnboarding := true;
      currentView := BoardsView;
      selectedBoard := None;
    }

    method HandleLogin(userData: User)
      modifies this`user, this`currentView, this`selectedBoard
      ensures user == Some(userData)
      ensures currentView == BoardsView && selectedBoard.None?
      ensures Valid()
    {
      user := Some(userData);
      currentView := BoardsView;
      selectedBoard := None;
    }

    /** The effect on `user` (lines 65-69); `hasSeenOnboarding` is the `localStorage` flag. */
    method UserEffect(hasSeenOnboarding: bool)
      modifies this`showOnboarding
      ensures showOnboarding == (old(showOnboarding) || (user.Some? && !hasSeenOnboarding))
    {
      if user.Some? && !hasSeenOnboarding {
        showOnboarding := true;
      }
    }

    /** The effect on `user` and `pendingOnboarding` (lines 129-134). */
    method PendingOnboardingEffect()
      modifies this`showOnboarding, this`pendingOnboarding
      ensures user.Some? && old(pendingOnboarding) ==> showOnboarding && !pendingOnboarding
      ensures !(user.Some? && old(pendingOnboarding)) ==> showOnboarding == old(showOnboarding) && pendingOnboarding == old(pendingOnboarding)
    {
      if user.Some? && pendingOnboarding {
        showOnboarding := true;
        pendingOnboarding := false;
      }
    }

    /** Signing up and letting the effect run shows the onboarding and clears the pending flag. */
    method SignupThenEffect(userData: User)
      modifies this
      ensures user == Some(userData) && showOnboarding && !pendingOnboarding
      ensures currentView == BoardsView && selectedBoard.None?
      ensures boards == old(boards) && sent == old(sent)
    {
      HandleSignup(userData);
      PendingOnboardingEffect();
    }
  }
}
