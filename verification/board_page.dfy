/**
 * The board page's controller: the columns on screen, the inline add and
 * rename inputs, and the handlers that change them. Every request the page
 * sends is appended to the ghost log `sent` with its payload; whether it
 * succeeds is the handler's `ok` argument, and what a re-fetch of the board
 * returns is its `reload` argument (`None` when that fetch fails).
 */
module Page {
  import opened Splice
  import opened Text
  import opened Boards

  /** One end of a drag: a droppable (the board, or one column's card list) and a position in it. */
  datatype Location = Location(droppableId: string, index: nat)

  /** What the drag-and-drop library hands to `onDragEnd`. */
  datatype DropResult = DropResult(source: Location, destination: Option<Location>, draggableId: string, dragType: string)

  /** The body of a successful `GET /boards/:id`; its `columns` may be missing. */
  datatype Snapshot = Snapshot(board: Option<BoardInfo>, columns: Option<seq<Column>>)

  /** The requests the page sends, with their payloads. */
  datatype Request =
    | GetBoard(boardId: string)
    | PostColumn(title: string, boardId: string)
    | PostCard(title: string, columnId: string, boardId: string)
    | PatchColumn(columnId: string, title: string)
    | PatchCard(cardId: string, title: string)
    | DeleteCard(cardId: string)
    | DeleteColumn(columnId: string)
    | PostColumnOrder(boardId: string, orderedColumnIds: seq<string>)
    | PostCardMove(cardId: string, toColumnId: string, toPosition: nat)

  /** The columns after `loadBoard` answered with `response`: a failed fetch is only logged. */
  function LoadedColumns(current: seq<Column>, response: Option<Snapshot>): seq<Column>
  {
    match response
    case None => current
    case Some(snap) => if snap.columns.Some? then snap.columns.value else []
  }

  /** The board record after `loadBoard` answered with `response`. */
  function LoadedBoard(current: Option<BoardInfo>, response: Option<Snapshot>): Option<BoardInfo>
  {
    match response
    case None => current
    case Some(snap) => snap.board
  }

  /** The re-fetch a failed optimistic update triggers, if any. */
  function Recovery(ok: bool, boardId: string): seq<Request>
  {
    if ok then [] else [GetBoard(boardId)]
  }

  /** A drop the column branch acts on: a column released somewhere other than where it was picked up. */
  predicate ColumnDrop(result: DropResult)
  {
    result.destination.Some? && result.dragType == "column" && result.source.index != result.destination.value.index
  }

  /** A drop the card branch acts on: a card released over some card list. */
  predicate CardDrop(result: DropResult)
  {
    result.destination.Some? && result.dragType == "card"
  }

  /**
   * When both columns of a card drop are found, the source index is in range
   * for the first column with the source id, the one `find` returns
   * (otherwise `splice(sourceIndex, 1)` would yield `undefined` and that
   * would be inserted as a card). With two columns of the same id this also
   * excludes a card dragged from the second one at an index past the end of
   * the first.
   */
  predicate CardSourceExists(cols: seq<Column>, sourceColId: string, destColId: string, sourceIndex: nat)
  {
    match (FirstIndex(cols, sourceColId), FirstIndex(cols, destColId))
    case (Some(s), Some(_)) => sourceIndex < |cols[s].cards|
    case _ => true
  }

  /** The source index of an acted-on drop names a column, or a card of the column `find` returns. */
  predicate DropInRange(result: DropResult, cols: seq<Column>)
  {
    && (ColumnDrop(result) ==> result.source.index < |cols|)
    && (CardDrop(result) ==>
          CardSourceExists(cols, result.source.droppableId, result.destination.value.droppableId, result.source.index))
  }

  class BoardPage {
    /** The route parameter `id`. */
    const boardId: string
    var board: Option<BoardInfo>
    var columns: seq<Column>
    var loading: bool

    var addingColumn: bool
    var newColumnTitle: string
    var addingCardFor: Option<string>
    var newCardTitle: string
    var editingColumnId: Option<string>
    var editingColumnTitle: string
    var editingCardId: Option<string>
    var editingCardTitle: string

    /** Every request issued so far, oldest first. */
    ghost var sent: seq<Request>

    /** The page as first rendered, before `loadBoard` has answered. */
    constructor (id: string)
      ensures boardId == id && board == None && columns == [] && loading && sent == []
      ensures !addingColumn && newColumnTitle == "" && addingCardFor == None && newCardTitle == ""
      ensures editingColumnId == None && editingColumnTitle == "" && editingCardId == None && editingCardTitle == ""
    {
      boardId := id;
      board, columns, loading := None, [], true;
      addingColumn, newColumnTitle, addingCardFor, newCardTitle := false, "", None, "";
      editingColumnId, editingColumnTitle, editingCardId, editingCardTitle := None, "", None, "";
      sent := [];
    }

    /** `loadBoard`: fetch the board and replace the local copy with the server's, or keep it when the fetch fails. */
    method LoadBoard(response: Option<Snapshot>)
      modifies this`board, this`columns, this`loading, this`sent
      ensures sent == old(sent) + [GetBoard(boardId)]
      ensures board == LoadedBoard(old(board), response)
      ensures columns == LoadedColumns(old(columns), response)
      ensures !loading
    {
      loading := true;
      sent := sent + [GetBoard(boardId)];
      match response {
        case Some(snap) =>
          board := snap.board;
          columns := if snap.columns.Some? then snap.columns.value else [];
        case None =>
      }
      loading := false;
    }

    /**
     * `handleAddColumn`: a blank title closes the input without a request;
     * otherwise the untrimmed title is posted and, once that succeeds, the
     * input is cleared and closed and the board reloaded.
     */
    method HandleAddColumn(ok: bool, reload: Option<Snapshot>)
      modifies this`board, this`columns, this`loading, this`sent, this`addingColumn, this`newColumnTitle
      ensures IsBlank(old(newColumnTitle)) ==>
        && !addingColumn && newColumnTitle == ""
        && unchanged(this`board, this`columns, this`loading, this`sent)
      ensures !IsBlank(old(newColumnTitle)) && !ok ==>
        && unchanged(this`board, this`columns, this`loading, this`addingColumn, this`newColumnTitle)
        && sent == old(sent) + [PostColumn(old(newColumnTitle), boardId)]
      ensures !IsBlank(old(newColumnTitle)) && ok ==>
        && !addingColumn && newColumnTitle == ""
        && sent == old(sent) + [PostColumn(old(newColumnTitle), boardId), GetBoard(boardId)]
        && board == LoadedBoard(old(board), reload)
        && columns == LoadedColumns(old(columns), reload)
        && !loading
    {
      if IsBlank(newColumnTitle) {
        addingColumn := false;
        newColumnTitle := "";
        return;
      }
      sent := sent + [PostColumn(newColumnTitle, boardId)];
      if ok {
        newColumnTitle := "";
        addingColumn := false;
        LoadBoard(reload);
      }
    }

    /**
     * `handleAddCard`: a blank title closes the input without a request;
     * otherwise the untrimmed title is posted for `columnId` and, once that
     * succeeds, the input is cleared and closed and the board reloaded.
     */
    method HandleAddCard(columnId: string, ok: bool, reload: Option<Snapshot>)
      modifies this`board, this`columns, this`loading, this`sent, this`addingCardFor, this`newCardTitle
      ensures IsBlank(old(newCardTitle)) ==>
        && addingCardFor == None && newCardTitle == ""
        && unchanged(this`board, this`columns, this`loading, this`sent)
      ensures !IsBlank(old(newCardTitle)) && !ok ==>
        && unchanged(this`board, this`columns, this`loading, this`addingCardFor, this`newCardTitle)
        && sent == old(sent) + [PostCard(old(newCardTitle), columnId, boardId)]
      ensures !IsBlank(old(newCardTitle)) && ok ==>
        && addingCardFor == None && newCardTitle == ""
        && sent == old(sent) + [PostCard(old(newCardTitle), columnId, boardId), GetBoard(boardId)]
        && board == LoadedBoard(old(board), reload)
        && columns == LoadedColumns(old(columns), reload)
        && !loading
    {
      if IsBlank(newCardTitle) {
        addingCardFor := None;
        newCardTitle := "";
        return;
      }
      sent := sent + [PostCard(newCardTitle, columnId, boardId)];
      if ok {
        newCardTitle := "";
        addingCardFor := None;
        LoadBoard(reload);
      }
    }

    /**
     * `saveColumnName`: always leaves edit mode; a blank title sends
     * nothing; otherwise the title is patched on the server and, once that
     * succeeds, on every local column with that id.
     */
    method SaveColumnName(columnId: string, ok: bool)
      modifies this`columns, this`sent, this`editingColumnId
      ensures editingColumnId == None
      ensures IsBlank(editingColumnTitle) ==> unchanged(this`columns, this`sent)
      ensures !IsBlank(editingColumnTitle) ==>
        && sent == old(sent) + [PatchColumn(columnId, editingColumnTitle)]
        && columns == if ok then RetitleColumn(old(columns), columnId, editingColumnTitle) else old(columns)
    {
      editingColumnId := None;
      if IsBlank(editingColumnTitle) {
        return;
      }
      sent := sent + [PatchColumn(columnId, editingColumnTitle)];
      if ok {
        columns := RetitleColumn(columns, columnId, editingColumnTitle);
      }
    }

    /**
     * `saveCardTitle`: always leaves edit mode; a blank title sends
     * nothing; otherwise the title is patched on the server and, once that
     * succeeds, on the cards with that id inside the columns with `columnId`.
     */
    method SaveCardTitle(cardId: string, columnId: string, ok: bool)
      modifies this`columns, this`sent, this`editingCardId
      ensures editingCardId == None
      ensures IsBlank(editingCardTitle) ==> unchanged(this`columns, this`sent)
      ensures !IsBlank(editingCardTitle) ==>
        && sent == old(sent) + [PatchCard(cardId, editingCardTitle)]
        && columns == if ok then RetitleCardIn(old(columns), columnId, cardId, editingCardTitle) else old(columns)
    {
      editingCardId := None;
      if IsBlank(editingCardTitle) {
        return;
      }
      sent := sent + [PatchCard(cardId, editingCardTitle)];
      if ok {
        columns := RetitleCardIn(columns, columnId, cardId, editingCardTitle);
      }
    }

    /**
     * `onDeleteCard`: nothing without confirmation; otherwise the delete is
     * sent and, once it succeeds, the cards with that id leave the columns
     * with `columnId`.
     */
    method OnDeleteCard(cardId: string, columnId: string, confirmed: bool, ok: bool)
      modifies this`columns, this`sent
      ensures !confirmed ==> unchanged(this`columns, this`sent)
      ensures confirmed ==>
        && sent == old(sent) + [DeleteCard(cardId)]
        && columns == if ok then WithoutCardIn(old(columns), columnId, cardId) else old(columns)
    {
      if !confirmed {
        return;
      }
      sent := sent + [DeleteCard(cardId)];
      if ok {
        columns := WithoutCardIn(columns, columnId, cardId);
      }
    }

    /**
     * `onDeleteColumn`: nothing without confirmation; otherwise the delete is
     * sent and, once it succeeds, the columns with that id leave the board,
     * cards and all.
     */
    method OnDeleteColumn(columnId: string, confirmed: bool, ok: bool)
      modifies this`columns, this`sent
      ensures !confirmed ==> unchanged(this`columns, this`sent)
      ensures confirmed ==>
        && sent == old(sent) + [DeleteColumn(columnId)]
        && columns == if ok then Without(old(columns), ColumnId, columnId) else old(columns)
    {
      if !confirmed {
        return;
      }
      sent := sent + [DeleteColumn(columnId)];
      if ok {
        columns := Without(columns, ColumnId, columnId);
      }
    }

    /**
     * `moveCardLocal`: copy every column's card list, look both columns up
     * with `find`, splice the card out of the source copy and into the
     * destination copy, and show the copy. When the two ids name the same
     * column, `find` returns the same copy twice and the splices reorder it.
     * A column that is not found makes the lookup's `.cards` throw, and the
     * page keeps what it showed.
     */
    method MoveCardLocal(sourceColId: string, destColId: string, sourceIndex: nat, destIndex: nat)
      returns (thrown: bool)
      requires CardSourceExists(columns, sourceColId, destColId, sourceIndex)
      modifies this`columns
      ensures thrown <==> FirstIndex(old(columns), sourceColId).None? || FirstIndex(old(columns), destColId).None?
      ensures thrown ==> columns == old(columns)
      ensures !thrown ==>
        columns == MoveCard(old(columns), FirstIndex(old(columns), sourceColId).value,
                            FirstIndex(old(columns), destColId).value, sourceIndex, destIndex)
    {
      var current := columns;
      var updated := new Column[|current|](k requires 0 <= k < |current| => current[k]);
      var s := FirstIndex(current, sourceColId);
      var d := FirstIndex(current, destColId);
      if s.None? || d.None? {
        return true;
      }
      var src, dst := s.value, d.value;
      assert updated[..] == current;
      var moved := updated[src].cards[sourceIndex];
      updated[src] := updated[src].(cards := RemoveAt(updated[src].cards, sourceIndex));
      ghost var afterTake := updated[..];
      updated[dst] := updated[dst].(cards := Insert(updated[dst].cards, destIndex, moved));
      assert updated[..] == afterTake[dst := afterTake[dst].(cards := Insert(afterTake[dst].cards, destIndex, moved))];
      SplicesMoveCard(current, src, dst, sourceIndex, destIndex);
      columns := updated[..];
      thrown := false;
    }

    /**
     * `handleDragEnd`. A drop outside any list, a column put back where it
     * was, or a drop of an unknown type changes nothing. A column drop
     * reorders the columns at once and posts the complete new id order; a
     * card drop moves the card at once (see `MoveCardLocal`) and posts the
     * card id with the destination column and index, even when the card
     * was put back where it was. A failed post reloads the board.
     */
    method HandleDragEnd(result: DropResult, ok: bool, reload: Option<Snapshot>) returns (thrown: bool)
      requires DropInRange(result, columns)
      modifies this`board, this`columns, this`loading, this`sent
      ensures !ColumnDrop(result) && !CardDrop(result) ==>
        !thrown && unchanged(this`board, this`columns, this`loading, this`sent)
      ensures ColumnDrop(result) ==>
        var newColumns := Move(old(columns), result.source.index, result.destination.value.index);
        && !thrown
        && sent == old(sent) + [PostColumnOrder(boardId, Ids(newColumns))] + Recovery(ok, boardId)
        && columns == (if ok then newColumns else LoadedColumns(newColumns, reload))
        && board == (if ok then old(board) else LoadedBoard(old(board), reload))
        && loading == (ok && old(loading))
      ensures CardDrop(result) ==>
        var s := FirstIndex(old(columns), result.source.droppableId);
        var d := FirstIndex(old(columns), result.destination.value.droppableId);
        && (thrown <==> s.None? || d.None?)
        && (thrown ==> unchanged(this`board, this`columns, this`loading, this`sent))
        && (!thrown ==>
              var target := result.destination.value;
              var newColumns := MoveCard(old(columns), s.value, d.value, result.source.index, target.index);
              && sent == old(sent) + [PostCardMove(result.draggableId, target.droppableId, target.index)]
                                   + Recovery(ok, boardId)
              && columns == (if ok then newColumns else LoadedColumns(newColumns, reload))
              && board == (if ok then old(board) else LoadedBoard(old(board), reload))
              && loading == (ok && old(loading)))
    {
      thrown := false;
      if result.destination.None? {
        return;
      }
      var source, destination := result.source, result.destination.value;
      if result.dragType == "column" {
        if source.index == destination.index {
          return;
        }
        DropColumn(source.index, destination.index, ok, reload);
        return;
      }
      if result.dragType == "card" {
        thrown := DropCard(source.droppableId, destination.droppableId, source.index, destination.index,
                           result.draggableId, ok, reload);
      }
    }

    /** The column branch of `handleDragEnd`, for a column that moved. */
    method DropColumn(from: nat, to: nat, ok: bool, reload: Option<Snapshot>)
      requires from < |columns|
      modifies this`board, this`columns, this`loading, this`sent
      ensures var newColumns := Move(old(columns), from, to);
        && sent == old(sent) + [PostColumnOrder(boardId, Ids(newColumns))] + Recovery(ok, boardId)
        && columns == (if ok then newColumns else LoadedColumns(newColumns, reload))
        && board == (if ok then old(board) else LoadedBoard(old(board), reload))
        && loading == (ok && old(loading))
    {
      var newColumns := columns;
      var moved := newColumns[from];
      newColumns := RemoveAt(newColumns, from);
      newColumns := Insert(newColumns, to, moved);
      columns := newColumns;
      sent := sent + [PostColumnOrder(boardId, Ids(newColumns))];
      if !ok {
        LoadBoard(reload);
      }
    }

    /** The card branch of `handleDragEnd`: the local move, then the post unless the move threw. */
    method DropCard(sourceColId: string, destColId: string, from: nat, to: nat, cardId: string,
                    ok: bool, reload: Option<Snapshot>)
      returns (thrown: bool)
      requires CardSourceExists(columns, sourceColId, destColId, from)
      modifies this`board, this`columns, this`loading, this`sent
      ensures var s, d := FirstIndex(old(columns), sourceColId), FirstIndex(old(columns), destColId);
        && (thrown <==> s.None? || d.None?)
        && (thrown ==> unchanged(this`board, this`columns, this`loading, this`sent))
        && (!thrown ==>
              var newColumns := MoveCard(old(columns), s.value, d.value, from, to);
              && sent == old(sent) + [PostCardMove(cardId, destColId, to)] + Recovery(ok, boardId)
              && columns == (if ok then newColumns else LoadedColumns(newColumns, reload))
              && board == (if ok then old(board) else LoadedBoard(old(board), reload))
              && loading == (ok && old(loading)))
    {
      thrown := MoveCardLocal(sourceColId, destColId, from, to);
      if thrown {
        return;
      }
      sent := sent + [PostCardMove(cardId, destColId, to)];
      if !ok {
        LoadBoard(reload);
      }
    }
  }
}
