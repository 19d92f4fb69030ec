/**
 * The board the page holds: a list of columns, each with its own list of
 * cards, and the pure updates the page's handlers apply to it (the card move
 * of a drag, and the `map`/`filter` patches after a rename or a delete).
 * Ids are not assumed unique: a patch touches every entry whose id matches,
 * while a lookup with `find` takes the first one.
 */
module Boards {
  import opened Splice

  datatype Option<T> = None | Some(value: T)

  datatype Card = Card(id: string, title: string)

  datatype Column = Column(id: string, title: string, cards: seq<Card>)

  /** The board's own record, as the server returns it. */
  datatype BoardInfo = BoardInfo(id: string, title: string, workspace: string)

  /** `columns.map((col) => col._id)`. */
  function Ids(cols: seq<Column>): seq<string>
  {
    seq(|cols|, k requires 0 <= k < |cols| => cols[k].id)
  }

  /** `columns.find((c) => c._id === id)`, as the position of the column found. */
  function FirstIndex(cols: seq<Column>, id: string): (r: Option<nat>)
    ensures r.None? <==> forall k :: 0 <= k < |cols| ==> cols[k].id != id
    ensures r.Some? ==> r.value < |cols| && cols[r.value].id == id
    ensures r.Some? ==> forall k :: 0 <= k < r.value ==> cols[k].id != id
  {
    if cols == [] then None
    else if cols[0].id == id then Some(0)
    else match FirstIndex(cols[1..], id)
      case None => None
      case Some(k) => Some(k + 1)
  }

  /** Every card of the board, column after column. */
  function AllCards(cols: seq<Column>): seq<Card>
  {
    if cols == [] then [] else cols[0].cards + AllCards(cols[1..])
  }

  /** The cards of two boards side by side are the cards of the first, then those of the second. */
  lemma {:induction false} AllCardsAppend(a: seq<Column>, b: seq<Column>)
    ensures AllCards(a + b) == AllCards(a) + AllCards(b)
  {
    if a == [] {
      assert a + b == b;
    } else {
      var ab := a + b;
      assert ab[0] == a[0] && ab[1..] == a[1..] + b;
      AllCardsAppend(a[1..], b);
      assert AllCards(ab) == a[0].cards + (AllCards(a[1..]) + AllCards(b));
    }
  }

  /** Replacing one column changes the board's cards by exactly that column's cards. */
  lemma AllCardsUpdate(cols: seq<Column>, k: nat, c: Column)
    requires k < |cols|
    ensures multiset(AllCards(cols[k := c])) + multiset(cols[k].cards)
         == multiset(AllCards(cols)) + multiset(c.cards)
  {
    var pre, post := cols[..k], cols[k + 1..];
    assert cols == pre + ([cols[k]] + post);
    assert cols[k := c] == pre + ([c] + post);
    AllCardsAppend(pre, [cols[k]] + post);
    AllCardsAppend(pre, [c] + post);
    AllCardsAppend([cols[k]], post);
    AllCardsAppend([c], post);
    assert AllCards([c]) == c.cards;
    assert AllCards([cols[k]]) == cols[k].cards;
  }

  /** Replacing a column by one with the same cards in another order keeps the board's cards. */
  lemma UpdatePermutingCards(cols: seq<Column>, k: nat, c: Column)
    requires k < |cols| && multiset(c.cards) == multiset(cols[k].cards)
    ensures multiset(AllCards(cols[k := c])) == multiset(AllCards(cols))
  {
    AllCardsUpdate(cols, k, c);
    var x, y, m := multiset(AllCards(cols[k := c])), multiset(AllCards(cols)), multiset(c.cards);
    assert x + m == y + m;
    assert forall e :: x[e] == (x + m)[e] - m[e] == (y + m)[e] - m[e] == y[e];
  }

  /**
   * The new board after the card at `from` of column `s` is dropped at
   * `to` of column `d` (`s` and `d` are the positions `find` returns). The
   * columns keep their ids, titles and order; only columns `s` and `d`
   * change; a drop in the same column is a reorder of that column, and
   * across columns the source loses exactly the card that the destination
   * gains at `to`, the rest of both columns keeping their order.
   */
  function MoveCard(cols: seq<Column>, s: nat, d: nat, from: nat, to: nat): (r: seq<Column>)
    requires s < |cols| && d < |cols| && from < |cols[s].cards|
    ensures |r| == |cols|
    ensures forall k :: 0 <= k < |r| ==> r[k].id == cols[k].id && r[k].title == cols[k].title
    ensures forall k :: 0 <= k < |r| && k != s && k != d ==> r[k] == cols[k]
    ensures s == d ==> r[s].cards == Move(cols[s].cards, from, to)
    ensures s != d ==> r[s].cards == RemoveAt(cols[s].cards, from)
    ensures s != d ==>
      var pos := InsertPos(to, |cols[d].cards|);
      && |r[d].cards| == |cols[d].cards| + 1
      && r[d].cards[pos] == cols[s].cards[from]
      && RemoveAt(r[d].cards, pos) == cols[d].cards
  {
    if s == d then
      cols[s := cols[s].(cards := Move(cols[s].cards, from, to))]
    else
      RemoveInsert(cols[d].cards, to, cols[s].cards[from]);
      cols[s := cols[s].(cards := RemoveAt(cols[s].cards, from))]
          [d := cols[d].(cards := Insert(cols[d].cards, to, cols[s].cards[from]))]
  }

  /**
   * What `moveCardLocal` does to its copy of the board, splice by splice,
   * is `MoveCard`: once the card has left column `s`, the insertion goes
   * into column `d` as it now is, which for `s == d` is the shortened list.
   */
  lemma SplicesMoveCard(cols: seq<Column>, s: nat, d: nat, from: nat, to: nat)
    requires s < |cols| && d < |cols| && from < |cols[s].cards|
    ensures var afterTake := cols[s := cols[s].(cards := RemoveAt(cols[s].cards, from))];
            afterTake[d := afterTake[d].(cards := Insert(afterTake[d].cards, to, cols[s].cards[from]))]
              == MoveCard(cols, s, d, from, to)
  {
  }

  /** A card move neither creates nor loses a card: the board holds the same cards, as many as before. */
  lemma MoveCardKeepsCards(cols: seq<Column>, s: nat, d: nat, from: nat, to: nat)
    requires s < |cols| && d < |cols| && from < |cols[s].cards|
    ensures multiset(AllCards(MoveCard(cols, s, d, from, to))) == multiset(AllCards(cols))
    ensures |AllCards(MoveCard(cols, s, d, from, to))| == |AllCards(cols)|
  {
    var r := MoveCard(cols, s, d, from, to);
    var cards := cols[s].cards;
    if s == d {
      UpdatePermutingCards(cols, s, cols[s].(cards := Move(cards, from, to)));
    } else {
      var moved := cards[from];
      TransferKeepsCards(cols, s, d, RemoveAt(cards, from), Insert(cols[d].cards, to, moved), moved);
    }
    assert |multiset(AllCards(r))| == |multiset(AllCards(cols))|;
  }

  /** The multiset bookkeeping of a transfer: what one column loses the other gains. */
  lemma TransferBalance(m0: multiset<Card>, m1: multiset<Card>, m2: multiset<Card>,
                        a: multiset<Card>, b: multiset<Card>, src: multiset<Card>, dst: multiset<Card>, m: multiset<Card>)
    requires m1 + a == m0 + src && m2 + b == m1 + dst
    requires src + m == a && dst == b + m
    ensures m2 == m0
  {
    forall e ensures m2[e] == m0[e] {
      assert (m1 + a)[e] == (m0 + src)[e];
      assert (m2 + b)[e] == (m1 + dst)[e];
      assert (src + m)[e] == a[e];
      assert dst[e] == (b + m)[e];
    }
  }

  /** Taking a card out of one column and putting it into another keeps the board's cards. */
  lemma TransferKeepsCards(cols: seq<Column>, s: nat, d: nat, src: seq<Card>, dst: seq<Card>, moved: Card)
    requires s < |cols| && d < |cols| && s != d
    requires multiset(src) + multiset{moved} == multiset(cols[s].cards)
    requires multiset(dst) == multiset(cols[d].cards) + multiset{moved}
    ensures multiset(AllCards(cols[s := cols[s].(cards := src)][d := cols[d].(cards := dst)])) == multiset(AllCards(cols))
  {
    var c1 := cols[s := cols[s].(cards := src)];
    var c2 := c1[d := cols[d].(cards := dst)];
    AllCardsUpdate(cols, s, c1[s]);
    AllCardsUpdate(c1, d, c2[d]);
    TransferBalance(multiset(AllCards(cols)), multiset(AllCards(c1)), multiset(AllCards(c2)),
                    multiset(cols[s].cards), multiset(cols[d].cards), multiset(src), multiset(dst), multiset{moved});
  }

  /** A card dropped where it was picked up leaves the board as it was. */
  lemma MoveCardInPlace(cols: seq<Column>, s: nat, from: nat)
    requires s < |cols| && from < |cols[s].cards|
    ensures MoveCard(cols, s, s, from, from) == cols
  {
    MoveToSameIndex(cols[s].cards, from);
  }

  /** The column ids of a reordered board are the old ids, reordered the same way. */
  lemma IdsMove(cols: seq<Column>, from: nat, to: nat)
    requires from < |cols|
    ensures Ids(Move(cols, from, to)) == Move(Ids(cols), from, to)
  {
    var rest := RemoveAt(cols, from);
    IdsRemoveAt(cols, from);
    IdsInsert(rest, to, cols[from]);
  }

  lemma IdsRemoveAt(cols: seq<Column>, i: nat)
    requires i < |cols|
    ensures Ids(RemoveAt(cols, i)) == RemoveAt(Ids(cols), i)
  {
    var a, b := Ids(RemoveAt(cols, i)), RemoveAt(Ids(cols), i);
    assert |a| == |b|;
    forall k | 0 <= k < |a| ensures a[k] == b[k] {
      if k < i { assert b[k] == Ids(cols)[k]; } else { assert b[k] == Ids(cols)[k + 1]; }
    }
  }

  lemma IdsInsert(cols: seq<Column>, i: nat, c: Column)
    ensures Ids(Insert(cols, i, c)) == Insert(Ids(cols), i, c.id)
  {
    var a, b := Ids(Insert(cols, i, c)), Insert(Ids(cols), i, c.id);
    var p := InsertPos(i, |cols|);
    assert |a| == |b|;
    forall k | 0 <= k < |a| ensures a[k] == b[k] {
      if k < p { assert b[k] == Ids(cols)[k]; }
      else if k > p { assert b[k] == Ids(cols)[k - 1]; }
    }
  }

  /** The ids of a list of cards, in order. */
  function CardIds(cards: seq<Card>): seq<string>
  {
    seq(|cards|, j requires 0 <= j < |cards| => cards[j].id)
  }

  /** The board's layout: each column's id with the ids of its cards, in order. */
  function Layout(cols: seq<Column>): seq<(string, seq<string>)>
  {
    seq(|cols|, k requires 0 <= k < |cols| => (cols[k].id, CardIds(cols[k].cards)))
  }

  /* ---------- rename: `map` with a patched title ---------- */

  /** `cards.map((c) => (c._id === id ? { ...c, title } : c))`: only the matching cards' titles change. */
  function RetitleCard(cards: seq<Card>, id: string, title: string): (r: seq<Card>)
    ensures |r| == |cards|
    ensures forall k :: 0 <= k < |r| ==>
      r[k].id == cards[k].id && r[k].title == (if cards[k].id == id then title else cards[k].title)
  {
    if cards == [] then []
    else [if cards[0].id == id then cards[0].(title := title) else cards[0]] + RetitleCard(cards[1..], id, title)
  }

  /** `columns.map((c) => (c._id === id ? { ...c, title } : c))`: only the matching columns' titles change. */
  function RetitleColumn(cols: seq<Column>, id: string, title: string): (r: seq<Column>)
    ensures |r| == |cols|
    ensures forall k :: 0 <= k < |r| ==>
      && r[k].id == cols[k].id
      && r[k].cards == cols[k].cards
      && r[k].title == (if cols[k].id == id then title else cols[k].title)
  {
    if cols == [] then []
    else [if cols[0].id == id then cols[0].(title := title) else cols[0]] + RetitleColumn(cols[1..], id, title)
  }

  /**
   * The card rename patch: in every column whose id is `columnId`, the
   * cards whose id is `cardId` get the new title; nothing else changes.
   */
  function RetitleCardIn(cols: seq<Column>, columnId: string, cardId: string, title: string): (r: seq<Column>)
    ensures |r| == |cols|
    ensures forall k :: 0 <= k < |r| ==>
      && r[k].id == cols[k].id
      && r[k].title == cols[k].title
      && r[k].cards == (if cols[k].id == columnId then RetitleCard(cols[k].cards, cardId, title) else cols[k].cards)
  {
    if cols == [] then []
    else
      [if cols[0].id == columnId then cols[0].(cards := RetitleCard(cols[0].cards, cardId, title)) else cols[0]]
        + RetitleCardIn(cols[1..], columnId, cardId, title)
  }

  /** A column rename keeps the layout: every column and card id stays where it was. */
  lemma RetitleColumnKeepsLayout(cols: seq<Column>, id: string, title: string)
    ensures Layout(RetitleColumn(cols, id, title)) == Layout(cols)
    ensures AllCards(RetitleColumn(cols, id, title)) == AllCards(cols)
  {
    AllCardsSameCards(RetitleColumn(cols, id, title), cols);
  }

  /** A card rename keeps the card ids of the list it is applied to. */
  lemma RetitleCardKeepsIds(cards: seq<Card>, id: string, title: string)
    ensures CardIds(RetitleCard(cards, id, title)) == CardIds(cards)
  {
    var a, b := CardIds(RetitleCard(cards, id, title)), CardIds(cards);
    assert forall j :: 0 <= j < |a| ==> a[j] == b[j];
  }

  /** A card rename keeps the layout: every column and card id stays where it was. */
  lemma RetitleCardKeepsLayout(cols: seq<Column>, columnId: string, cardId: string, title: string)
    ensures Layout(RetitleCardIn(cols, columnId, cardId, title)) == Layout(cols)
  {
    var r := RetitleCardIn(cols, columnId, cardId, title);
    var after, before := Layout(r), Layout(cols);
    forall k | 0 <= k < |cols|
      ensures after[k] == before[k]
    {
      RetitleCardKeepsIds(cols[k].cards, cardId, title);
    }
  }

  /** Renaming twice with the same title is renaming once. */
  lemma RetitleColumnIdempotent(cols: seq<Column>, id: string, title: string)
    ensures RetitleColumn(RetitleColumn(cols, id, title), id, title) == RetitleColumn(cols, id, title)
  {
  }

  /** Boards whose columns hold the same card lists hold the same cards. */
  lemma {:induction false} AllCardsSameCards(a: seq<Column>, b: seq<Column>)
    requires |a| == |b|
    requires forall k :: 0 <= k < |a| ==> a[k].cards == b[k].cards
    ensures AllCards(a) == AllCards(b)
  {
    if a != [] {
      AllCardsSameCards(a[1..], b[1..]);
    }
  }

  /* ---------- delete: `filter` by id ---------- */

  /** `sub` is `s` with some elements left out and the rest in their order. */
  predicate IsSubsequence<T(==)>(sub: seq<T>, s: seq<T>)
    decreases |s|
  {
    if sub == [] then true
    else if s == [] then false
    else (sub[0] == s[0] && IsSubsequence(sub[1..], s[1..])) || IsSubsequence(sub, s[1..])
  }

  /** A card's `_id`, the key the card `filter` compares. */
  function CardId(c: Card): string
  {
    c.id
  }

  /** A column's `_id`, the key the column `filter` compares. */
  function ColumnId(c: Column): string
  {
    c.id
  }

  /**
   * `list.filter((x) => x._id !== id)`, with `key` reading the `_id`: the
   * result keeps some of the entries in their order, and all of them when
   * none has the id.
   */
  function Without<T(==)>(s: seq<T>, key: T -> string, id: string): (r: seq<T>)
    ensures IsSubsequence(r, s)
    ensures (forall k :: 0 <= k < |s| ==> key(s[k]) != id) ==> r == s
  {
    if s == [] then []
    else
      var rest := Without(s[1..], key, id);
      assert s == [s[0]] + s[1..];
      assert (forall k :: 0 <= k < |s| ==> key(s[k]) != id)
         ==> forall k :: 0 <= k < |s[1..]| ==> key(s[1..][k]) != id;
      if key(s[0]) == id then rest
      else
        var r := [s[0]] + rest;
        assert r[0] == s[0] && r[1..] == rest;
        r
  }

  /** Every entry with the id is gone from `Without`, and every other one is there as often as before. */
  lemma {:induction false} WithoutCounts<T>(s: seq<T>, key: T -> string, id: string)
    ensures forall x :: multiset(Without(s, key, id))[x] == if key(x) == id then 0 else multiset(s)[x]
  {
    if s != [] {
      WithoutCounts(s[1..], key, id);
      assert s == [s[0]] + s[1..];
      var rest := Without(s[1..], key, id);
      if key(s[0]) != id {
        assert Without(s, key, id) == [s[0]] + rest;
      }
    }
  }

  /** No entry of a filtered list has the id. */
  lemma {:induction false} WithoutLeavesNoMatch<T>(s: seq<T>, key: T -> string, id: string)
    ensures forall k :: 0 <= k < |Without(s, key, id)| ==> key(Without(s, key, id)[k]) != id
  {
    if s != [] {
      WithoutLeavesNoMatch(s[1..], key, id);
      var rest := Without(s[1..], key, id);
      if key(s[0]) != id {
        var r := Without(s, key, id);
        assert r == [s[0]] + rest;
        assert forall k :: 1 <= k < |r| ==> r[k] == rest[k - 1];
      }
    }
  }

  /** A filter leaves the list as it was exactly when no entry has the id. */
  lemma WithoutUnchangedIff<T>(s: seq<T>, key: T -> string, id: string)
    ensures Without(s, key, id) == s <==> forall k :: 0 <= k < |s| ==> key(s[k]) != id
  {
    WithoutLeavesNoMatch(s, key, id);
  }

  /** Filtering the same id out twice is filtering it out once. */
  lemma WithoutIdempotent<T>(s: seq<T>, key: T -> string, id: string)
    ensures Without(Without(s, key, id), key, id) == Without(s, key, id)
  {
    WithoutLeavesNoMatch(s, key, id);
  }

  /**
   * The card delete patch: the columns whose id is `columnId` lose their
   * cards with id `cardId`; every column keeps its id and title, and every
   * other column is unchanged.
   */
  function WithoutCardIn(cols: seq<Column>, columnId: string, cardId: string): (r: seq<Column>)
    ensures |r| == |cols|
    ensures forall k :: 0 <= k < |r| ==>
      && r[k].id == cols[k].id
      && r[k].title == cols[k].title
      && r[k].cards == (if cols[k].id == columnId then Without(cols[k].cards, CardId, cardId) else cols[k].cards)
  {
    if cols == [] then []
    else
      [if cols[0].id == columnId then cols[0].(cards := Without(cols[0].cards, CardId, cardId)) else cols[0]]
        + WithoutCardIn(cols[1..], columnId, cardId)
  }

  /* ---------- the two drags of a small board ---------- */

  /** Dragging the first of two entries to index 1 swaps them. */
  lemma MoveFirstOfTwo<T>(x: T, y: T)
    ensures Move([x, y], 0, 1) == [y, x]
  {
    assert RemoveAt([x, y], 0) == [y];
  }

  /** Columns "Todo" (c1) and "Done" (c2): dragging c1 to index 1 gives [c2, c1]. */
  lemma ColumnDragExample()
    ensures Move([Column("c1", "Todo", []), Column("c2", "Done", [])], 0, 1)
         == [Column("c2", "Done", []), Column("c1", "Todo", [])]
  {
    MoveFirstOfTwo(Column("c1", "Todo", []), Column("c2", "Done", []));
  }

  /** The order posted after that drag is [c2, c1]. */
  lemma ColumnDragPayload()
    ensures Ids(Move([Column("c1", "Todo", []), Column("c2", "Done", [])], 0, 1)) == ["c2", "c1"]
  {
    ColumnDragExample();
  }

  /** c1 holds cards a and b, c2 none: dragging a to the top of c2 leaves c1 = [b] and c2 = [a]. */
  lemma CardDragExample()
    ensures var a, b := Card("a", "draft"), Card("b", "review");
      var board := [Column("c1", "Todo", [a, b]), Column("c2", "Done", [])];
      MoveCard(board, 0, 1, 0, 0) == [Column("c1", "Todo", [b]), Column("c2", "Done", [a])]
  {
    var a, b := Card("a", "draft"), Card("b", "review");
    assert RemoveAt([a, b], 0) == [b] && Insert([], 0, a) == [a];
  }
}
