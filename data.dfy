/**
 * The board's entities and the tagged drag payloads. A card payload, a
 * card drop-target payload and a column payload each carry their own tag;
 * `Untagged` stands for any record that carries none of these tags.
 */
module Data {
  import opened Wrappers
  import opened JsArray
  import opened DragAndDrop

  datatype Card = Card(id: string, description: string)

  datatype Column = Column(id: string, title: string, cards: seq<Card>)

  datatype Board = Board(columns: seq<Column>)

  /** A bounding rectangle (`DOMRect`), compared as a value. */
  datatype Rect = Rect(left: int, top: int, width: int, height: int)

  /** An element handed out by the library to render a preview into. */
  datatype Container = Container(handle: nat)

  datatype Payload =
    | CardData(card: Card, columnId: string, rect: Rect)
    | CardDropTargetData(card: Card, columnId: string, closestEdge: Option<Edge>)
    | ColumnData(column: Column)
    | Untagged

  /** A card payload for a drag source. */
  function GetCardData(card: Card, columnId: string, rect: Rect): (p: Payload)
    ensures IsCardData(p) && p.card == card && p.columnId == columnId && p.rect == rect
  {
    CardData(card, columnId, rect)
  }

  predicate IsCardData(p: Payload)
  {
    p.CardData?
  }

  /** A card payload for a drop target, before any edge is attached. */
  function GetCardDropTargetData(card: Card, columnId: string): (p: Payload)
    ensures IsCardDropTargetData(p) && p.card == card && p.columnId == columnId
    ensures ExtractClosestEdge(p) == None
  {
    CardDropTargetData(card, columnId, None)
  }

  predicate IsCardDropTargetData(p: Payload)
  {
    p.CardDropTargetData?
  }

  /** A column payload, used both as drag source and as drop target. */
  function GetColumnData(column: Column): (p: Payload)
    ensures IsColumnData(p) && p.column == column
  {
    ColumnData(column)
  }

  predicate IsColumnData(p: Payload)
  {
    p.ColumnData?
  }

  predicate IsDraggingACard(source: Payload)
  {
    IsCardData(source)
  }

  predicate IsDraggingAColumn(source: Payload)
  {
    IsColumnData(source)
  }

  /** `attachClosestEdge`: records on a card target the allowed edge nearest the pointer. */
  function AttachClosestEdge(p: Payload, allowed: seq<Edge>, distance: Edge -> int): (r: Payload)
    ensures p.CardDropTargetData? ==>
      && r.CardDropTargetData? && r.card == p.card && r.columnId == p.columnId
      && (r.closestEdge.Some? <==> |allowed| > 0)
      && (r.closestEdge.Some? ==> r.closestEdge.value in allowed)
      && (r.closestEdge.Some? ==> forall a :: a in allowed ==> distance(r.closestEdge.value) <= distance(a))
    ensures !p.CardDropTargetData? ==> r == p
  {
    if p.CardDropTargetData? then p.(closestEdge := ClosestEdge(allowed, distance)) else p
  }

  /** `extractClosestEdge`: the edge recorded on a payload, if any. */
  function ExtractClosestEdge(p: Payload): Option<Edge>
  {
    if p.CardDropTargetData? then p.closestEdge else None
  }

  /** The tags are exclusive: no payload answers to two of them. */
  lemma TagsAreExclusive(p: Payload)
    ensures !(IsCardData(p) && IsCardDropTargetData(p))
    ensures !(IsCardData(p) && IsColumnData(p))
    ensures !(IsCardDropTargetData(p) && IsColumnData(p))
    ensures p == Untagged ==> !IsCardData(p) && !IsCardDropTargetData(p) && !IsColumnData(p)
  {
  }

  /** `isCardData(getCardData(x))` holds and gives back x's card and column id. */
  lemma GetCardDataRoundTrip(card: Card, columnId: string, rect: Rect)
    ensures var p := GetCardData(card, columnId, rect);
      IsCardData(p) && IsDraggingACard(p) && !IsDraggingAColumn(p) && p.card == card && p.columnId == columnId
  {
  }

  /**
   * A card's drop target data as card.tsx builds it: the card target payload
   * with the nearer of its top and bottom edges attached. Hit-testing never
   * yields a left or right edge.
   */
  function CardTargetData(card: Card, columnId: string, distance: Edge -> int): (p: Payload)
    ensures IsCardDropTargetData(p) && p.card == card && p.columnId == columnId
    ensures ExtractClosestEdge(p) == Some(Top) || ExtractClosestEdge(p) == Some(Bottom)
    ensures ExtractClosestEdge(p) == Some(Top) ==> distance(Top) <= distance(Bottom)
    ensures ExtractClosestEdge(p) == Some(Bottom) ==> distance(Bottom) <= distance(Top)
  {
    AttachClosestEdge(GetCardDropTargetData(card, columnId), [Top, Bottom], distance)
  }

  /** `cards.findIndex((card) => card.id === id)`. */
  function CardIndex(cards: seq<Card>, id: string): (i: int)
    ensures -1 <= i < |cards|
    ensures i == -1 <==> forall k :: 0 <= k < |cards| ==> cards[k].id != id
    ensures 0 <= i ==> cards[i].id == id && forall k :: 0 <= k < i ==> cards[k].id != id
  {
    FindIndex(cards, (c: Card) => c.id == id)
  }

  /** `columns.findIndex((column) => column.id === id)`. */
  function ColumnIndex(columns: seq<Column>, id: string): (i: int)
    ensures -1 <= i < |columns|
    ensures i == -1 <==> forall k :: 0 <= k < |columns| ==> columns[k].id != id
    ensures 0 <= i ==> columns[i].id == id && forall k :: 0 <= k < i ==> columns[k].id != id
  {
    FindIndex(columns, (c: Column) => c.id == id)
  }

  /** The ids of a card list, in order. */
  function IdsOf(cards: seq<Card>): (ids: seq<string>)
    ensures |ids| == |cards|
    ensures forall k :: 0 <= k < |cards| ==> ids[k] == cards[k].id
  {
    seq(|cards|, k requires 0 <= k < |cards| => cards[k].id)
  }

  /** The multiset of the card ids of one column. */
  function ColumnIds(column: Column): multiset<string>
  {
    multiset(IdsOf(column.cards))
  }

  /** The multiset of card ids across a sequence of columns. */
  function BoardIds(columns: seq<Column>): multiset<string>
    decreases |columns|
  {
    if |columns| == 0 then multiset{}
    else BoardIds(columns[..|columns| - 1]) + ColumnIds(columns[|columns| - 1])
  }

  /** The number of cards across a sequence of columns. */
  function CardCount(columns: seq<Column>): nat
    decreases |columns|
  {
    if |columns| == 0 then 0 else CardCount(columns[..|columns| - 1]) + |columns[|columns| - 1].cards|
  }

  /** Every card id on the board occurs exactly once. */
  predicate UniqueIds(board: Board)
  {
    forall id :: id in BoardIds(board.columns) ==> BoardIds(board.columns)[id] == 1
  }

  lemma {:induction false} BoardIdsCount(columns: seq<Column>)
    ensures |BoardIds(columns)| == CardCount(columns)
    decreases |columns|
  {
    if |columns| > 0 {
      BoardIdsCount(columns[..|columns| - 1]);
    }
  }

  /** Multiset bookkeeping: swapping one part of a three-part sum. */
  lemma SwapMiddle(a: multiset<string>, s: multiset<string>, x: multiset<string>, y: multiset<string>)
    ensures (a + y + s) + x == (a + x + s) + y
  {
  }

  /** Multiset bookkeeping: moving the last part of a sum into the middle. */
  lemma SwapLast(a: multiset<string>, s: multiset<string>, x: multiset<string>)
    ensures (a + s) + x == a + x + s
  {
  }

  /** Appending a column adds its ids. */
  lemma BoardIdsSnoc(front: seq<Column>, x: Column)
    ensures BoardIds(front + [x]) == BoardIds(front) + ColumnIds(x)
  {
    assert (front + [x])[..|front|] == front;
  }

  /** The ids of a board built from a front part, one column and a back part. */
  lemma BoardIdsParts(front: seq<Column>, x: Column, back: seq<Column>)
    ensures BoardIds(front + [x] + back) == BoardIds(front) + ColumnIds(x) + BoardIds(back)
  {
    BoardIdsConcat(front + [x], back);
    BoardIdsSnoc(front, x);
  }

  /** The board's ids split around any one column. */
  lemma BoardIdsSplit(columns: seq<Column>, i: nat)
    requires i < |columns|
    ensures BoardIds(columns) == BoardIds(columns[..i]) + ColumnIds(columns[i]) + BoardIds(columns[i + 1..])
  {
    var a, x, b := columns[..i], columns[i], columns[i + 1..];
    SplitAt(columns, i);
    BoardIdsParts(a, x, b);
  }

  /** Replacing one column changes the board's ids by exactly the two columns' ids. */
  lemma BoardIdsUpdate(columns: seq<Column>, i: nat, c: Column)
    requires i < |columns|
    ensures BoardIds(columns[i := c]) + ColumnIds(columns[i]) == BoardIds(columns) + ColumnIds(c)
  {
    var a, b := columns[..i], columns[i + 1..];
    SplitAt(columns, i);
    UpdateAt(columns, i, c);
    BoardIdsParts(a, columns[i], b);
    BoardIdsParts(a, c, b);
    SwapMiddle(BoardIds(a), BoardIds(b), ColumnIds(columns[i]), ColumnIds(c));
  }

  /** The ids of a two-column board are those of its two columns. */
  lemma TwoColumnIds(a: Column, b: Column)
    ensures BoardIds([a, b]) == ColumnIds(a) + ColumnIds(b)
  {
    assert [a, b][..1] == [a];
    assert [a][..0] == [];
    assert BoardIds([a]) == multiset{} + ColumnIds(a);
    assert BoardIds([a, b]) == BoardIds([a]) + ColumnIds(b);
  }

  lemma {:induction false} BoardIdsConcat(a: seq<Column>, b: seq<Column>)
    ensures BoardIds(a + b) == BoardIds(a) + BoardIds(b)
    decreases |b|
  {
    if |b| == 0 {
      assert a + b == a;
    } else {
      assert (a + b)[..|a + b| - 1] == a + b[..|b| - 1];
      BoardIdsConcat(a, b[..|b| - 1]);
    }
  }

  lemma IdsOfConcat(a: seq<Card>, b: seq<Card>)
    ensures IdsOf(a + b) == IdsOf(a) + IdsOf(b)
  {
  }

  lemma IdsOfSlice(cards: seq<Card>, i: nat, j: nat)
    requires i <= j <= |cards|
    ensures IdsOf(cards[i..j]) == IdsOf(cards)[i..j]
  {
  }

  /** Taking ids commutes with `splice`. */
  lemma IdsOfSplice(s: seq<Card>, start: int, deleteCount: nat, items: seq<Card>)
    ensures IdsOf(Splice(s, start, deleteCount, items)) == Splice(IdsOf(s), start, deleteCount, IdsOf(items))
  {
    var k, e := SpliceStart(|s|, start), SpliceEnd(|s|, start, deleteCount);
    IdsOfConcat(s[..k] + items, s[e..]);
    IdsOfConcat(s[..k], items);
    IdsOfSlice(s, 0, k);
    IdsOfSlice(s, e, |s|);
  }

  lemma IdsOfRemoveAt(s: seq<Card>, i: nat)
    requires i < |s|
    ensures IdsOf(RemoveAt(s, i)) == RemoveAt(IdsOf(s), i)
  {
    var l, r := IdsOf(RemoveAt(s, i)), RemoveAt(IdsOf(s), i);
    assert forall k :: 0 <= k < |l| ==> l[k] == r[k] by {
      forall k | 0 <= k < |l| ensures l[k] == r[k] {
        if k < i { assert l[k] == s[k].id; } else { assert l[k] == s[k + 1].id; }
      }
    }
  }

  lemma IdsOfInsertAt(s: seq<Card>, i: nat, x: Card)
    requires i <= |s|
    ensures IdsOf(InsertAt(s, i, x)) == InsertAt(IdsOf(s), i, x.id)
  {
    var l, r := IdsOf(InsertAt(s, i, x)), InsertAt(IdsOf(s), i, x.id);
    assert forall k :: 0 <= k < |l| ==> l[k] == r[k] by {
      forall k | 0 <= k < |l| ensures l[k] == r[k] {
        if k < i { assert l[k] == s[k].id; }
        else if k == i { assert l[k] == x.id; }
        else { assert l[k] == s[k - 1].id; }
      }
    }
  }

  /** Taking ids commutes with `reorder`. */
  lemma IdsOfReorder(list: seq<Card>, startIndex: int, finishIndex: int)
    requires ReorderIndices(|list|, startIndex, finishIndex)
    ensures IdsOf(Reorder(list, startIndex, finishIndex)) == Reorder(IdsOf(list), startIndex, finishIndex)
  {
    if startIndex != -1 && finishIndex != -1 {
      var rest := RemoveAt(list, startIndex);
      IdsOfRemoveAt(list, startIndex);
      IdsOfInsertAt(rest, finishIndex, list[startIndex]);
    }
  }
}
