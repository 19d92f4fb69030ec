# Kanban board page: board-state model

This project models the board view of the Yusra kanban client. The page
holds a board as a list of columns. Each column has an id, a title and a
list of cards, and each card has an id and a title. The page changes that
list in five ways:

- A column drag reorders the columns with two `splice` calls. The page then
  posts the complete new id order, and it reloads the board if that post
  fails.
- A card drag copies every card list and looks up both columns with `find`.
  It splices the card out of the source copy and into the destination copy.
  It then posts `{cardId, toColumnId, toPosition}`, and it reloads if the
  post fails.
- A rename of a column or a card patches the local copy with `map`, once the
  server has accepted it. A blank title sends nothing.
- A delete of a card or a column filters the local copy with `filter`. It
  needs the user's confirmation and a successful request.
- Adding a column or a card posts the untrimmed title and then reloads. A
  blank title only closes the input.

Files:

- `splice.dfy` (module `Splice`) models the two shapes of `Array.prototype.splice`
  the page uses: taking one element out (`RemoveAt`) and inserting one
  (`Insert`). `Insert` clamps a start past the end to the end, as `splice`
  does. It also models the drag reorder built from them (`Move`).
- `text.dfy` (module `Text`) models `String.prototype.trim` over the
  ECMAScript whitespace and line-terminator code points. It also models the
  page's `!title.trim()` guard (`IsBlank`).
- `boards.dfy` (module `Boards`) holds the board datatypes and the
  `find` lookup (`FirstIndex`). It also holds the card move the splices
  perform (`MoveCard`) and the `map`/`filter` patches for renames and
  deletes.
- `board_page.dfy` (module `Page`) holds the page as a class. Its fields
  are the columns, the board record, the loading flag and the add/rename
  inputs. It has one method per handler.

How the page's surroundings are modelled:

- Every request the page sends goes into the ghost log `sent`, with its
  payload.
- Whether a request succeeds is a handler argument `ok`. Whether the user
  confirms a delete is an argument `confirmed`.
- What a re-fetch of the board returns is an argument `reload`, where
  `None` means that fetch failed.
- A drag's outcome is the `DropResult` the drag-and-drop library reports.

Ids are not assumed to be unique. A patch or filter touches every entry
whose id matches. `find` takes the first match.

A card dropped where it was picked up is not short-circuited: the page
still posts the move and reloads if that post fails
(src/pages/BoardPage.jsx:205-221). The model follows the code here. Only
the local update is a no-op (`Boards.MoveCardInPlace`).

## Model

| member | source | states |
|---|---|---|
| `Splice.RemoveAt` | src/pages/BoardPage.jsx:176 | `splice(i, 1)` leaves one element fewer. Elements before `i` stay put, elements after it shift down by one. The removed element plus what is left is the original multiset. |
| `Splice.Insert` | src/pages/BoardPage.jsx:177 | `splice(i, 0, x)` puts `x` at `i`, or at the end when `i` is past it. Elements before stay put and elements after shift up by one. The multiset gains exactly `x`. |
| `Splice.RemoveInsert` | src/pages/BoardPage.jsx:176-177 | Removing an element just inserted gives back the list it was inserted into. |
| `Splice.InsertRemove` | src/pages/BoardPage.jsx:176-177 | Re-inserting a removed element at its old position gives back the original list. |
| `Splice.Move` | src/pages/BoardPage.jsx:188-190 | The column reorder is a permutation with the same length and multiset. The moved element sits at the destination index, or last when that index is past the end. The other elements keep their relative order. |
| `Splice.MoveToSameIndex` | src/pages/BoardPage.jsx:188-190 | Moving an element to the index it came from changes nothing. |
| `Splice.MoveBack` | src/pages/BoardPage.jsx:188-190 | For in-range indices, a move from `i` to `j` followed by a move from `j` to `i` restores the original order. |
| `Text.IsSpace` | src/pages/BoardPage.jsx:60 | The code points `trim` strips: the ECMAScript WhiteSpace characters (tab, vertical tab, form feed, space, no-break space, byte order mark, the Unicode space separators) and the LineTerminator characters. |
| `Text.LeadingSpaces` | src/pages/BoardPage.jsx:60 | The count of leading characters `trim` strips. All of them are whitespace, and the next character, if there is one, is not. |
| `Text.TrailingSpaces` | src/pages/BoardPage.jsx:60 | The count of trailing characters `trim` strips. All of them are whitespace, and the character before them, if there is one, is not. |
| `Text.Trim` | src/pages/BoardPage.jsx:60 | `trim()` returns the slice of the input that starts after the leading whitespace. Only whitespace follows the slice, and the slice neither starts nor ends with whitespace. |
| `Text.IsBlank` | src/pages/BoardPage.jsx:60 | The guard `!title.trim()`, shared by adding a column, adding a card and both renames (also at lines 76, 101 and 114): the trimmed title is empty. |
| `Text.BlankIffAllSpace` | src/pages/BoardPage.jsx:101 | The guard `!title.trim()` holds exactly when every character of the title is whitespace, including when the title is empty. |
| `Boards.Ids` | src/pages/BoardPage.jsx:195 | `newColumns.map((col) => col._id)`: the column ids in board order. |
| `Boards.FirstIndex` | src/pages/BoardPage.jsx:174-175 | `find` by id: `None` exactly when no column has the id. Otherwise it gives the first column with that id. |
| `Boards.AllCardsAppend` | src/pages/BoardPage.jsx:173-177 | The cards of two column lists side by side are the cards of the first list followed by those of the second. |
| `Boards.AllCardsUpdate` | src/pages/BoardPage.jsx:173-177 | Replacing one column changes the board's card multiset by exactly the old and new cards of that column. |
| `Boards.MoveCard` | src/pages/BoardPage.jsx:172-179 | Every column keeps its id, title and position, and only the source and destination columns change. In the same column the drop is `Move`. Across columns, the source loses exactly the card at `sourceIndex`. The destination gains that card at `destIndex`, and the rest of the destination keeps its order. |
| `Boards.SplicesMoveCard` | src/pages/BoardPage.jsx:173-177 | Splicing the card out of the copy and then into the destination as it is afterwards gives `MoveCard`. When both lookups find the same column, this is a reorder of that column. |
| `Boards.MoveCardKeepsCards` | src/pages/BoardPage.jsx:172-179 | A card move keeps the multiset of all cards on the board, and so the total card count. |
| `Boards.MoveCardInPlace` | src/pages/BoardPage.jsx:205-209 | A card dropped at its own column and index leaves the board unchanged. |
| `Boards.IdsMove` | src/pages/BoardPage.jsx:193-196 | The posted `orderedColumnIds` of the reordered columns equal the old id list with the same move applied. |
| `Boards.RetitleCard` | src/pages/BoardPage.jsx:122 | Card rename `map`: same length and ids. Only cards with the id get the new title, and every other title is kept. |
| `Boards.RetitleColumn` | src/pages/BoardPage.jsx:104-106 | Column rename `map`: same length, ids and cards. Only columns with the id get the new title. |
| `Boards.RetitleCardIn` | src/pages/BoardPage.jsx:117-126 | Card rename patch: only the cards of the columns with `columnId` are retitled. Column ids, titles and all other columns are unchanged. |
| `Boards.RetitleColumnKeepsLayout` | src/pages/BoardPage.jsx:104-106 | A column rename keeps every column id and card id where it was, and keeps the board's cards. |
| `Boards.RetitleCardKeepsIds` | src/pages/BoardPage.jsx:122 | The card rename `map` keeps the card ids in order. |
| `Boards.RetitleCardKeepsLayout` | src/pages/BoardPage.jsx:117-126 | A card rename keeps every column id and card id where it was. |
| `Boards.RetitleColumnIdempotent` | src/pages/BoardPage.jsx:104-106 | Applying the same rename twice equals applying it once. |
| `Boards.AllCardsSameCards` | src/pages/BoardPage.jsx:104-106 | Boards whose columns have the same card lists have the same cards. |
| `Boards.Without` | src/pages/BoardPage.jsx:141 | The delete `filter` by `_id`, shared by cards and columns (also at line 152): the result is a subsequence of the input, so the kept entries stay in order. When no entry has the id, the list is unchanged. |
| `Boards.WithoutCounts` | src/pages/BoardPage.jsx:141 | After the `filter`, no entry with the id is left, and every other entry occurs exactly as often as before. |
| `Boards.WithoutLeavesNoMatch` | src/pages/BoardPage.jsx:141 | No entry of the filtered list has the deleted id. |
| `Boards.WithoutUnchangedIff` | src/pages/BoardPage.jsx:141 | The `filter` returns its input unchanged exactly when no entry has the id. |
| `Boards.WithoutIdempotent` | src/pages/BoardPage.jsx:141 | Deleting the same id twice equals deleting it once. |
| `Boards.WithoutCardIn` | src/pages/BoardPage.jsx:140-142 | Card delete patch: only the columns with `columnId` lose cards. Column ids and titles and all other columns are unchanged. |
| `Boards.UpdatePermutingCards` | src/pages/BoardPage.jsx:176-177 | The same-column card move reorders one column's cards. Replacing a column by one with the same cards in another order keeps the board's card multiset. |
| `Boards.TransferKeepsCards` | src/pages/BoardPage.jsx:176-177 | Taking a card from one column and adding it to another keeps the board's card multiset. |
| `Boards.IdsRemoveAt` | src/pages/BoardPage.jsx:195 | The ids of a list with one column removed are the id list with that entry removed. |
| `Boards.IdsInsert` | src/pages/BoardPage.jsx:195 | The ids of a list with one column inserted are the id list with that column's id inserted. |
| `Boards.ColumnDragExample` | src/pages/BoardPage.jsx:188-190 | Dragging the first of the columns "Todo" (c1) and "Done" (c2) to index 1 gives the order Done, Todo. |
| `Boards.ColumnDragPayload` | src/pages/BoardPage.jsx:193-196 | The ids of the columns after that drag, which is the order posted, are `["c2", "c1"]`. |
| `Boards.CardDragExample` | src/pages/BoardPage.jsx:172-179 | Dragging card a, the first of a and b in c1, to index 0 of the empty c2 leaves c1 holding b and c2 holding a. |
| `Page.LoadedColumns` | src/pages/BoardPage.jsx:46-48 | The columns after a fetch: the response's column list, or `[]` when it has none (`res.data.columns \|\| []`). A failed fetch keeps the current columns. |
| `Page.LoadedBoard` | src/pages/BoardPage.jsx:46 | The board record after a fetch: the response's board. A failed fetch keeps the current board. |
| `Page.Recovery` | src/pages/BoardPage.jsx:199 | The reload a failed drag post starts in its `catch` block (also at line 220): nothing after success, one board fetch after failure. |
| `Page.ColumnDrop` | src/pages/BoardPage.jsx:183-187 | The column branch acts only on a drop with a destination, of type `"column"`, at an index other than the source index. |
| `Page.CardDrop` | src/pages/BoardPage.jsx:205 | The card branch acts on a drop with a destination and of type `"card"`. |
| `Page.BoardPage.constructor` | src/pages/BoardPage.jsx:17-31 | The initial page state: no board, no columns, loading, all inputs closed and empty, and no request sent. |
| `Page.BoardPage.LoadBoard` | src/pages/BoardPage.jsx:42-53 | Sends the board fetch. On success it replaces the board and the columns, with a missing column list read as empty. On failure it keeps both. It always ends not loading. |
| `Page.BoardPage.HandleAddColumn` | src/pages/BoardPage.jsx:59-73 | A blank title closes and clears the input, with no request and no other change. Otherwise it posts the untrimmed title. On success it clears and closes the input and reloads. On failure nothing else changes. |
| `Page.BoardPage.HandleAddCard` | src/pages/BoardPage.jsx:75-93 | As `HandleAddColumn`, for a card of `columnId`, with payload `{title, columnId, boardId}`. |
| `Page.BoardPage.SaveColumnName` | src/pages/BoardPage.jsx:99-110 | Always leaves edit mode. A blank title sends nothing and changes nothing. Otherwise it sends the patch, and only on success the columns become `RetitleColumn` of the old ones. |
| `Page.BoardPage.SaveCardTitle` | src/pages/BoardPage.jsx:112-130 | Always leaves edit mode. A blank title sends nothing. Otherwise it sends the patch, and only on success the columns become `RetitleCardIn` of the old ones. |
| `Page.BoardPage.OnDeleteCard` | src/pages/BoardPage.jsx:136-146 | Without confirmation there is no request and no change. Otherwise it sends the delete, and only on success the columns become `WithoutCardIn` of the old ones. |
| `Page.BoardPage.OnDeleteColumn` | src/pages/BoardPage.jsx:148-156 | Without confirmation there is no request and no change. Otherwise it sends the delete, and only on success the columns become the old ones filtered by `Without` on the column id. |
| `Page.BoardPage.MoveCardLocal` | src/pages/BoardPage.jsx:172-179 | Throws, leaving the columns as they were, exactly when either column id is not found. Otherwise the columns become `MoveCard` at the positions `find` returns. |
| `Page.BoardPage.DropColumn` | src/pages/BoardPage.jsx:186-202 | The columns shown become `Move` of the old ones. The post carries exactly their new id order. A failed post adds a reload, which replaces the columns and the board. |
| `Page.BoardPage.DropCard` | src/pages/BoardPage.jsx:205-222 | Throws, changing nothing and sending nothing, exactly when a column lookup fails. Otherwise the columns become `MoveCard` at the found positions and the move `{cardId, toColumnId, toPosition}` is posted. A failed post adds a reload. |
| `Page.BoardPage.HandleDragEnd` | src/pages/BoardPage.jsx:181-223 | With no destination, a column put back at its own index, or another drag type, nothing changes and nothing is sent. A column drop shows `Move` of the columns and posts exactly their new id order. A card drop shows `MoveCard` and posts `{draggableId, destination column, destination index}`, unless a column lookup throws, in which case nothing is shown or sent. A failed post adds a reload. |

## Left out

- Rendering, styling and the drag-and-drop components (src/pages/BoardPage.jsx:229-516) are not modelled. The drop result is taken as an input.
- The inline UI callbacks inside the markup are not modelled as methods. These open the inputs and start or cancel an edit (for example src/pages/BoardPage.jsx:328-331, 386-390, 430-433, 473-476). The fields they set are public and are the handlers' inputs.
- Deleting the board and the navigation after it (src/pages/BoardPage.jsx:158-166) are left out because they are a router side effect.
- Asynchrony is left out. Each handler runs to completion, and a reload it starts completes before it returns, although the source does not await it. Overlapping drags and their racing requests are not modelled.
- `Page.BoardPage.HandleDragEnd` requires that, when both columns of a card drop are found, the source index is in range for the column `find` returns first. This is stronger than "the dragged card exists" when two columns share an id: a card dragged from the second of them, at an index past the end of the first, is excluded although it exists. A column drop requires an in-range source index. With an out-of-range index JavaScript's `splice` yields `undefined`, which would be inserted as a column or card, and no `Column` or `Card` value can stand for that.
- `Page.BoardPage.MoveCardLocal` requires the same in-range source index, for the same reason.
- `Page.BoardPage.DropCard` requires the same in-range source index, for the same reason.
- `Page.BoardPage.DropColumn` requires the source index to name a column, for the same reason.
- Drag indices are natural numbers. Negative `splice` starts, counted from the end, cannot occur.
- Requests carry no HTTP status or message. A request is only successful or not, and error logging is left out.
- Cards and columns carry only id, title and (for columns) cards. Other server fields, which the object spreads copy unchanged, are not represented.
- JavaScript strings are UTF-16, while `string` here is a sequence of Unicode scalar values. All code points `trim` strips lie in the Basic Multilingual Plane, so `IsBlank` agrees.
- src/pages/Dashboard.jsx, src/pages/WorkspaceBoards.jsx, src/pages/Login.jsx, src/pages/Register.jsx, the components and the API wrappers are not part of this model. Their mutations are a request followed by a reload, guarded at most by the same blank-title test.
