/** The board list of src/components/BoardView.jsx: the tiles, the empty state, and the
    create-board form. */
module BoardList {
  import opened Wrappers
  import opened Entities
  import Text

  /** What a tile shows. */
  datatype Tile = Tile(id: string, title: string, description: string, taskCount: nat)

  const NoDescription: string := "No description provided"

  /** `board.description || 'No description provided'` and `board.tasks?.length || 0`. */
  function TileOf(board: Board): (t: Tile)
    ensures t.id == board.id && t.title == board.title && t.taskCount == |board.tasks|
    ensures t.description == (if board.description == "" then NoDescription else board.description)
  {
    Tile(board.id, board.title, if board.description != "" then board.description else NoDescription, |board.tasks|)
  }

  /** One tile per board, in order. */
  function Tiles(boards: seq<Board>): (r: seq<Tile>)
    ensures |r| == |boards| && forall i :: 0 <= i < |r| ==> r[i] == TileOf(boards[i])
  {
    if boards == [] then [] else [TileOf(boards[0])] + Tiles(boards[1..])
  }

  /** The empty-state block is shown exactly when there are no boards, that is, when no tile is. */
  predicate ShowsEmptyState(boards: seq<Board>) {
    |boards| == 0
  }

  lemma EmptyStateIffNoTiles(boards: seq<Board>)
    ensures ShowsEmptyState(boards) <==> Tiles(boards) == []
  {
  }

  /** The board `handleCreateBoard` builds: trimmed title and description, no columns, no tasks. */
  function NewBoard(title: string, description: string, freshId: string, now: Timestamp): Board {
    Board(freshId, Text.Trim(title), Text.Trim(description), now, [], [])
  }

  /** A created board's title is non-blank and already trimmed. */
  lemma NewBoardTitle(title: string, description: string, freshId: string, now: Timestamp)
    requires !Text.IsBlank(title)
    ensures var b := NewBoard(title, description, freshId, now);
      b.title != "" && Text.Trim(b.title) == b.title && b.columns == [] && b.tasks == []
  {
    Text.TrimEmptyIffBlank(title);
    Text.TrimIdempotent(title);
  }

  /** The outcome of submitting the form: nothing when the title is blank, else the new board. */
  function CreatedBoard(title: string, description: string, freshId: string, now: Timestamp): (r: Option<Board>)
    ensures r.None? <==> Text.IsBlank(title)
    ensures r.Some? ==> r.value == NewBoard(title, description, freshId, now)
  {
    Text.TrimEmptyIffBlank(title);
    if Text.Trim(title) != "" then Some(NewBoard(title, description, freshId, now)) else None
  }

  class BoardView {
    var isCreating: bool
    var title: string
    var description: string
    var hoveredBoard: Option<string>

    constructor ()
      ensures !isCreating && title == "" && description == "" && hoveredBoard.None?
    {
      isCreating := false;
      title := "";
      description := "";
      hoveredBoard := None;
    }

    /** The "Create Board" buttons of the header and of the empty state. */
    method OpenCreate()
      modifies this`isCreating
      ensures isCreating
    {
      isCreating := true;
    }

    /** Cancel closes the form and keeps what was typed. */
    method CancelCreate()
      modifies this`isCreating
      ensures !isCreating
    {
      isCreating := false;
    }

    method SetTitle(value: string)
      modifies this`title
      ensures title == value
    {
      title := value;
    }

    method SetDescription(value: string)
      modifies this`description
      ensures description == value
    {
      description := value;
    }

    method Hover(boardId: Option<string>)
      modifies this`hoveredBoard
      ensures hoveredBoard == boardId
    {
      hoveredBoard := boardId;
    }

    /** Submitting the form: the board passed to `onCreateBoard`, if any. `freshId` and `now`
        stand for `Date.now().toString()` and the current time. */
    method HandleCreateBoard(freshId: string, now: Timestamp) returns (created: Option<Board>)
      modifies this`isCreating, this`title, this`description
      ensures created == CreatedBoard(old(title), old(description), freshId, now)
      ensures created.Some? ==> title == "" && description == "" && !isCreating
      ensures created.None? ==> title == old(title) && description == old(description) && isCreating == old(isCreating)
    {
      var typedTitle, typedDescription := title, description;
      created := CreatedBoard(typedTitle, typedDescription, freshId, now);
      if created.Some? {
        title := "";
        description := "";
        isCreating := false;
      }
    }
  }
}
