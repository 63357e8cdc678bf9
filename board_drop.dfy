/**
 * The board's two drop reducers (the card monitor's and the column
 * monitor's `onDrop`) as functions from the current board, the dragged
 * payload and the drop targets under the pointer (innermost first) to the
 * next board. A drop that returns early leaves the board as it was.
 */
module BoardDrop {
  import opened Wrappers
  import opened JsArray
  import opened DragAndDrop
  import opened Data

  /** The card monitor's `onDrop`, as written. */
  function CardDrop(data: Board, dragging: Payload, dropTargets: seq<Payload>): Board
  {
    if !IsCardData(dragging) || |dropTargets| == 0 then data
    else
      var homeColumnIndex := ColumnIndex(data.columns, dragging.columnId);
      if homeColumnIndex == -1 then data
      else
        var target := dropTargets[0];
        if IsCardDropTargetData(target) then
          DropOnCard(data, dragging.card, homeColumnIndex, target.card, target.columnId, ExtractClosestEdge(target))
        else if IsColumnData(target) then
          DropOnColumn(data, dragging.card, homeColumnIndex, target.column.id)
        else data
  }

  /** A card dropped on a card (board.tsx, "dropping on a card"). */
  function DropOnCard(data: Board, card: Card, homeColumnIndex: nat, targetCard: Card, targetColumnId: string,
                      closestEdge: Option<Edge>): Board
    requires homeColumnIndex < |data.columns|
  {
    var home := data.columns[homeColumnIndex];
    var cardIndexInHome := CardIndex(home.cards, card.id);
    var destinationColumnIndex := ColumnIndex(data.columns, targetColumnId);
    if destinationColumnIndex == homeColumnIndex then
      var cardFinishIndex := CardIndex(home.cards, targetCard.id);
      if cardIndexInHome == -1 || cardFinishIndex == -1 then data
      else if cardIndexInHome == cardFinishIndex then data
      else
        var reordered := ReorderWithEdge(home.cards, cardIndexInHome, cardFinishIndex, closestEdge, Vertical);
        data.(columns := data.columns[homeColumnIndex := home.(cards := reordered)])
    else if destinationColumnIndex == -1 then data
    else
      var destination := data.columns[destinationColumnIndex];
      var indexOfTarget := CardIndex(destination.cards, targetCard.id);
      var finalIndex := if closestEdge == Some(Bottom) then indexOfTarget + 1 else indexOfTarget;
      var homeCards := Splice(home.cards, cardIndexInHome, 1, []);
      var destinationCards := Splice(destination.cards, finalIndex, 0, [card]);
      data.(columns := data.columns[homeColumnIndex := home.(cards := homeCards)]
                                   [destinationColumnIndex := destination.(cards := destinationCards)])
  }

  /** A card dropped on a column's body (board.tsx, "dropping onto a column, but not onto a card"). */
  function DropOnColumn(data: Board, card: Card, homeColumnIndex: nat, targetColumnId: string): Board
    requires homeColumnIndex < |data.columns|
  {
    var home := data.columns[homeColumnIndex];
    var cardIndexInHome := CardIndex(home.cards, card.id);
    var destinationColumnIndex := ColumnIndex(data.columns, targetColumnId);
    if destinationColumnIndex == -1 then data
    else if destinationColumnIndex == homeColumnIndex then
      var reordered := Reorder(home.cards, cardIndexInHome, |home.cards| - 1);
      data.(columns := data.columns[homeColumnIndex := home.(cards := reordered)])
    else
      var destination := data.columns[destinationColumnIndex];
      var homeCards := Splice(home.cards, cardIndexInHome, 1, []);
      var destinationCards := Splice(destination.cards, |destination.cards|, 0, [card]);
      data.(columns := data.columns[homeColumnIndex := home.(cards := homeCards)]
                                   [destinationColumnIndex := destination.(cards := destinationCards)])
  }

  /** The column monitor's `onDrop`. */
  function ColumnDrop(data: Board, dragging: Payload, dropTargets: seq<Payload>): Board
  {
    if !IsColumnData(dragging) || |dropTargets| == 0 then data
    else if !IsColumnData(dropTargets[0]) then data
    else
      var homeIndex := ColumnIndex(data.columns, dragging.column.id);
      var destinationIndex := ColumnIndex(data.columns, dropTargets[0].column.id);
      if homeIndex == -1 || destinationIndex == -1 then data
      else if homeIndex == destinationIndex then data
      else data.(columns := Reorder(data.columns, homeIndex, destinationIndex))
  }

  // ---------------------------------------------------------------------
  // Where the drop can act: the home column and the card index in it.

  function HomeIndex(data: Board, dragging: Payload): (h: int)
    requires IsCardData(dragging)
    ensures -1 <= h < |data.columns|
  {
    ColumnIndex(data.columns, dragging.columnId)
  }

  /** The dragged card is present in the column its payload names. */
  predicate DraggedCardInHome(data: Board, dragging: Payload)
  {
    && IsCardData(dragging)
    && HomeIndex(data, dragging) != -1
    && CardIndex(data.columns[HomeIndex(data, dragging)].cards, dragging.card.id) != -1
  }

  // ---------------------------------------------------------------------
  // Properties of the card drop.

  /** The early returns: no card payload, no drop target, no home column, or an unknown target. */
  lemma CardDropIgnores(data: Board, dragging: Payload, dropTargets: seq<Payload>)
    requires || !IsCardData(dragging)
             || |dropTargets| == 0
             || HomeIndex(data, dragging) == -1
             || (!IsCardDropTargetData(dropTargets[0]) && !IsColumnData(dropTargets[0]))
    ensures CardDrop(data, dragging, dropTargets) == data
  {
  }

  /**
   * Same-column card-on-card: a no-op when either card is missing or the
   * card is dropped on itself; otherwise only the home column changes, its
   * cards are a permutation of the old ones, and the dragged card lands
   * right before the target (top edge) or right after it (bottom edge).
   */
  lemma {:induction false} SameColumnCardDrop(data: Board, dragging: Payload, dropTargets: seq<Payload>)
    requires IsCardData(dragging) && |dropTargets| > 0 && IsCardDropTargetData(dropTargets[0])
    requires HomeIndex(data, dragging) != -1
    requires ColumnIndex(data.columns, dropTargets[0].columnId) == HomeIndex(data, dragging)
    ensures var h := HomeIndex(data, dragging);
      var home := data.columns[h];
      var s := CardIndex(home.cards, dragging.card.id);
      var t := CardIndex(home.cards, dropTargets[0].card.id);
      var edge := ExtractClosestEdge(dropTargets[0]);
      var r := CardDrop(data, dragging, dropTargets);
      && (s == -1 || t == -1 || s == t ==> r == data)
      && (s != -1 && t != -1 && s != t ==>
          && |r.columns| == |data.columns|
          && (forall k :: 0 <= k < |data.columns| && k != h ==> r.columns[k] == data.columns[k])
          && r.columns[h].id == home.id && r.columns[h].title == home.title
          && multiset(r.columns[h].cards) == multiset(home.cards)
          && var f := DestinationIndex(s, edge, t, Vertical);
             && 0 <= f < |home.cards| && r.columns[h].cards[f] == home.cards[s]
             && (edge == Some(Bottom) ==> 0 < f && r.columns[h].cards[f - 1] == home.cards[t])
             && (edge == Some(Top) ==> f + 1 < |home.cards| && r.columns[h].cards[f + 1] == home.cards[t]))
  {
    var h := HomeIndex(data, dragging);
    var home := data.columns[h];
    var s := CardIndex(home.cards, dragging.card.id);
    var t := CardIndex(home.cards, dropTargets[0].card.id);
    var edge := ExtractClosestEdge(dropTargets[0]);
    if s != -1 && t != -1 && s != t {
      ReorderedHomeColumn(data.columns, h, s, t, edge);
    }
  }

  /** Replacing the home column by its cards reordered beside the target, in the same column. */
  lemma ReorderedHomeColumn(columns: seq<Column>, h: nat, s: nat, t: nat, edge: Option<Edge>)
    requires h < |columns| && s < |columns[h].cards| && t < |columns[h].cards| && s != t
    ensures var home := columns[h];
      var r := columns[h := home.(cards := ReorderWithEdge(home.cards, s, t, edge, Vertical))];
      && |r| == |columns|
      && (forall k :: 0 <= k < |columns| && k != h ==> r[k] == columns[k])
      && r[h].id == home.id && r[h].title == home.title
      && multiset(r[h].cards) == multiset(home.cards)
      && var f := DestinationIndex(s, edge, t, Vertical);
         && 0 <= f < |home.cards| && r[h].cards[f] == home.cards[s]
         && (edge == Some(Bottom) ==> 0 < f && r[h].cards[f - 1] == home.cards[t])
         && (edge == Some(Top) ==> f + 1 < |home.cards| && r[h].cards[f + 1] == home.cards[t])
  {
    ReorderWithEdgePlacesBesideTarget(columns[h].cards, s, t, edge, Vertical);
  }

  /**
   * Cross-column card-on-card, when both cards are found: the card leaves
   * home at its index and the dragged value is inserted into the destination
   * before the target, or after it for a bottom edge; no other column changes.
   */
  lemma CrossColumnCardDrop(data: Board, dragging: Payload, dropTargets: seq<Payload>)
    requires DraggedCardInHome(data, dragging) && |dropTargets| > 0 && IsCardDropTargetData(dropTargets[0])
    requires var d := ColumnIndex(data.columns, dropTargets[0].columnId);
      d != -1 && d != HomeIndex(data, dragging)
      && CardIndex(data.columns[d].cards, dropTargets[0].card.id) != -1
    ensures var h := HomeIndex(data, dragging);
      var d := ColumnIndex(data.columns, dropTargets[0].columnId);
      var home, destination := data.columns[h], data.columns[d];
      var s := CardIndex(home.cards, dragging.card.id);
      var t := CardIndex(destination.cards, dropTargets[0].card.id);
      var finalIndex := if ExtractClosestEdge(dropTargets[0]) == Some(Bottom) then t + 1 else t;
      var r := CardDrop(data, dragging, dropTargets);
      && |r.columns| == |data.columns|
      && (forall k :: 0 <= k < |data.columns| && k != h && k != d ==> r.columns[k] == data.columns[k])
      && r.columns[h] == home.(cards := RemoveAt(home.cards, s))
      && r.columns[d] == destination.(cards := InsertAt(destination.cards, finalIndex, dragging.card))
      && r.columns[d].cards[finalIndex] == dragging.card
  {
    var h := HomeIndex(data, dragging);
    var d := ColumnIndex(data.columns, dropTargets[0].columnId);
    var home, destination := data.columns[h], data.columns[d];
    var s := CardIndex(home.cards, dragging.card.id);
    var t := CardIndex(destination.cards, dropTargets[0].card.id);
    var finalIndex := if ExtractClosestEdge(dropTargets[0]) == Some(Bottom) then t + 1 else t;
    SpliceRemoveOne(home.cards, s);
    SpliceInsertOne(destination.cards, finalIndex, dragging.card);
  }

  /**
   * A card dropped on another column's body is appended to that column and,
   * when found, removed from home; every other card keeps its relative order.
   */
  lemma CardDropOnOtherColumn(data: Board, dragging: Payload, dropTargets: seq<Payload>)
    requires DraggedCardInHome(data, dragging) && |dropTargets| > 0 && IsColumnData(dropTargets[0])
    requires var d := ColumnIndex(data.columns, dropTargets[0].column.id);
      d != -1 && d != HomeIndex(data, dragging)
    ensures var h := HomeIndex(data, dragging);
      var d := ColumnIndex(data.columns, dropTargets[0].column.id);
      var home, destination := data.columns[h], data.columns[d];
      var s := CardIndex(home.cards, dragging.card.id);
      var r := CardDrop(data, dragging, dropTargets);
      && |r.columns| == |data.columns|
      && (forall k :: 0 <= k < |data.columns| && k != h && k != d ==> r.columns[k] == data.columns[k])
      && r.columns[h] == home.(cards := home.cards[..s] + home.cards[s + 1..])
      && r.columns[d] == destination.(cards := destination.cards + [dragging.card])
  {
    var h := HomeIndex(data, dragging);
    var d := ColumnIndex(data.columns, dropTargets[0].column.id);
    var destination := data.columns[d];
    SpliceRemoveOne(data.columns[h].cards, CardIndex(data.columns[h].cards, dragging.card.id));
    SpliceInsertOne(destination.cards, |destination.cards|, dragging.card);
  }

  /**
   * A card dropped on its own column's body moves to the last position; the
   * other cards keep their relative order. A card missing from home changes nothing.
   */
  lemma CardDropOnOwnColumn(data: Board, dragging: Payload, dropTargets: seq<Payload>)
    requires IsCardData(dragging) && |dropTargets| > 0 && IsColumnData(dropTargets[0])
    requires HomeIndex(data, dragging) != -1
    requires ColumnIndex(data.columns, dropTargets[0].column.id) == HomeIndex(data, dragging)
    ensures var h := HomeIndex(data, dragging);
      var home := data.columns[h];
      var s := CardIndex(home.cards, dragging.card.id);
      var r := CardDrop(data, dragging, dropTargets);
      && (s == -1 ==> r == data)
      && (s != -1 ==>
          && |r.columns| == |data.columns|
          && (forall k :: 0 <= k < |data.columns| && k != h ==> r.columns[k] == data.columns[k])
          && r.columns[h].id == home.id && r.columns[h].title == home.title
          && var cards := r.columns[h].cards;
             && |cards| == |home.cards|
             && cards[|cards| - 1] == home.cards[s]
             && cards[..|cards| - 1] == RemoveAt(home.cards, s))
  {
    var h := HomeIndex(data, dragging);
    var home := data.columns[h];
    var s := CardIndex(home.cards, dragging.card.id);
    if s != -1 {
      var cards := Reorder(home.cards, s, |home.cards| - 1);
      assert cards[..|cards| - 1] == RemoveAt(cards, |cards| - 1);
    } else {
      assert data.columns[h := home] == data.columns;
    }
  }

  /** Removing one card from a column takes exactly its id out of the column's ids. */
  lemma RemoveCardIds(column: Column, s: nat)
    requires s < |column.cards|
    ensures ColumnIds(column.(cards := Splice(column.cards, s, 1, []))) + multiset{column.cards[s].id} == ColumnIds(column)
  {
    IdsOfSplice(column.cards, s, 1, []);
    assert IdsOf(column.cards)[s..s + 1] == [column.cards[s].id];
  }

  /** Inserting one card anywhere adds exactly its id to the column's ids. */
  lemma InsertCardIds(column: Column, i: int, card: Card)
    ensures ColumnIds(column.(cards := Splice(column.cards, i, 0, [card]))) == ColumnIds(column) + multiset{card.id}
  {
    IdsOfSplice(column.cards, i, 0, [card]);
    var ids := IdsOf(column.cards);
    var k := SpliceStart(|ids|, i);
    assert ids[k..SpliceEnd(|ids|, i, 0)] == [];
    assert IdsOf([card]) == [card.id];
  }

  /** Reordering one column's cards keeps the column's ids. */
  lemma ReorderCardIds(column: Column, s: int, f: int)
    requires ReorderIndices(|column.cards|, s, f)
    ensures ColumnIds(column.(cards := Reorder(column.cards, s, f))) == ColumnIds(column)
  {
    IdsOfReorder(column.cards, s, f);
  }

  /** Multiset cancellation. */
  lemma Cancel(a: multiset<string>, b: multiset<string>, x: multiset<string>)
    requires a + x == b + x
    ensures a == b
  {
    assert forall e :: a[e] == (a + x)[e] - x[e];
    assert forall e :: b[e] == (b + x)[e] - x[e];
  }

  /** Moving one card from column h to column d, as both cross-column branches do. */
  lemma MoveCardIds(columns: seq<Column>, h: nat, d: nat, s: nat, i: int, card: Card)
    requires h < |columns| && d < |columns| && h != d
    requires s < |columns[h].cards| && columns[h].cards[s].id == card.id
    ensures var home, destination := columns[h], columns[d];
      BoardIds(columns[h := home.(cards := Splice(home.cards, s, 1, []))]
                      [d := destination.(cards := Splice(destination.cards, i, 0, [card]))])
        == BoardIds(columns)
  {
    var home, destination := columns[h], columns[d];
    var home', destination' := home.(cards := Splice(home.cards, s, 1, [])), destination.(cards := Splice(destination.cards, i, 0, [card]));
    var once := columns[h := home'];
    var twice := once[d := destination'];
    var id := multiset{card.id};
    var b0, b1, b2 := BoardIds(columns), BoardIds(once), BoardIds(twice);
    var ch, ch', cd, cd' := ColumnIds(home), ColumnIds(home'), ColumnIds(destination), ColumnIds(destination');
    RemoveCardIds(home, s);
    assert ch' + id == ch;
    InsertCardIds(destination, i, card);
    assert cd' == cd + id;
    BoardIdsUpdate(columns, h, home');
    assert b1 + ch == b0 + ch';
    assert once[d] == destination;
    BoardIdsUpdate(once, d, destination');
    assert b2 + cd == b1 + cd';
    assert (b1 + id) + ch' == b0 + ch';
    Cancel(b1 + id, b0, ch');
    assert b2 + cd == (b1 + id) + cd;
    Cancel(b2, b1 + id, cd);
  }

  /** The same-column branches replace the home column by a reordering of its cards. */
  lemma ReorderHomeIds(columns: seq<Column>, h: nat, s: int, f: int)
    requires h < |columns| && ReorderIndices(|columns[h].cards|, s, f)
    ensures BoardIds(columns[h := columns[h].(cards := Reorder(columns[h].cards, s, f))]) == BoardIds(columns)
  {
    var home := columns[h];
    var home' := home.(cards := Reorder(home.cards, s, f));
    ReorderCardIds(home, s, f);
    BoardIdsUpdate(columns, h, home');
    Cancel(BoardIds(columns[h := home']), BoardIds(columns), ColumnIds(home));
  }

  lemma DropOnCardConservesIds(data: Board, card: Card, h: nat, targetCard: Card, targetColumnId: string, edge: Option<Edge>)
    requires h < |data.columns| && CardIndex(data.columns[h].cards, card.id) != -1
    ensures BoardIds(DropOnCard(data, card, h, targetCard, targetColumnId, edge).columns) == BoardIds(data.columns)
  {
    var home := data.columns[h];
    var s := CardIndex(home.cards, card.id);
    var d := ColumnIndex(data.columns, targetColumnId);
    if d == h {
      var t := CardIndex(home.cards, targetCard.id);
      if t != -1 && s != t {
        var f := DestinationIndex(s, edge, t, Vertical);
        DestinationIndexInRange(|home.cards|, s, t, edge, Vertical);
        ReorderHomeIds(data.columns, h, s, f);
      }
    } else if d != -1 {
      var destination := data.columns[d];
      var t := CardIndex(destination.cards, targetCard.id);
      var finalIndex := if edge == Some(Bottom) then t + 1 else t;
      MoveCardIds(data.columns, h, d, s, finalIndex, card);
    }
  }

  lemma DropOnColumnConservesIds(data: Board, card: Card, h: nat, targetColumnId: string)
    requires h < |data.columns| && CardIndex(data.columns[h].cards, card.id) != -1
    ensures BoardIds(DropOnColumn(data, card, h, targetColumnId).columns) == BoardIds(data.columns)
  {
    var home := data.columns[h];
    var s := CardIndex(home.cards, card.id);
    var d := ColumnIndex(data.columns, targetColumnId);
    if d == h {
      ReorderHomeIds(data.columns, h, s, |home.cards| - 1);
    } else if d != -1 {
      MoveCardIds(data.columns, h, d, s, |data.columns[d].cards|, card);
    }
  }

  /**
   * Conservation: whenever the dragged card is in its home column, a card
   * drop leaves the multiset of card ids on the board, and so the number of
   * cards, unchanged.
   */
  lemma CardDropConservesIds(data: Board, dragging: Payload, dropTargets: seq<Payload>)
    requires DraggedCardInHome(data, dragging)
    ensures var r := CardDrop(data, dragging, dropTargets);
      BoardIds(r.columns) == BoardIds(data.columns) && CardCount(r.columns) == CardCount(data.columns)
  {
    var r := CardDrop(data, dragging, dropTargets);
    var h := HomeIndex(data, dragging);
    if |dropTargets| > 0 {
      var target := dropTargets[0];
      if IsCardDropTargetData(target) {
        DropOnCardConservesIds(data, dragging.card, h, target.card, target.columnId, ExtractClosestEdge(target));
      } else if IsColumnData(target) {
        DropOnColumnConservesIds(data, dragging.card, h, target.column.id);
      }
    }
    BoardIdsCount(r.columns);
    BoardIdsCount(data.columns);
  }

  /** A board whose card ids are unique keeps them unique through a card drop. */
  lemma CardDropKeepsIdsUnique(data: Board, dragging: Payload, dropTargets: seq<Payload>)
    requires UniqueIds(data) && DraggedCardInHome(data, dragging)
    ensures UniqueIds(CardDrop(data, dragging, dropTargets))
  {
    CardDropConservesIds(data, dragging, dropTargets);
  }

  // ---------------------------------------------------------------------
  // The missing guards in the cross-column branches.

  /**
   * A drop that refers to a card the board does not hold where the handler
   * looks for it: the dragged card is missing from its home column, or,
   * for a card-on-card drop into another column, the target card is missing
   * from the destination.
   */
  predicate StaleCardDrop(data: Board, dragging: Payload, dropTargets: seq<Payload>)
  {
    && IsCardData(dragging) && |dropTargets| > 0 && HomeIndex(data, dragging) != -1
    && var home := data.columns[HomeIndex(data, dragging)];
       || CardIndex(home.cards, dragging.card.id) == -1
       || (&& IsCardDropTargetData(dropTargets[0])
           && var d := ColumnIndex(data.columns, dropTargets[0].columnId);
              d != -1 && CardIndex(data.columns[d].cards, dropTargets[0].card.id) == -1)
  }

  /** The card drop with the existence checks the cross-column branches lack. */
  function CardDropGuarded(data: Board, dragging: Payload, dropTargets: seq<Payload>): (r: Board)
    ensures StaleCardDrop(data, dragging, dropTargets) ==> r == data
    ensures !StaleCardDrop(data, dragging, dropTargets) ==> r == CardDrop(data, dragging, dropTargets)
  {
    if StaleCardDrop(data, dragging, dropTargets) then data else CardDrop(data, dragging, dropTargets)
  }

  /** With the guards, every card drop conserves the board's card ids. */
  lemma CardDropGuardedConservesIds(data: Board, dragging: Payload, dropTargets: seq<Payload>)
    ensures BoardIds(CardDropGuarded(data, dragging, dropTargets).columns) == BoardIds(data.columns)
  {
    if !StaleCardDrop(data, dragging, dropTargets) && DraggedCardInHome(data, dragging) {
      CardDropConservesIds(data, dragging, dropTargets);
    }
  }

  /** The guarded drop differs from the handler as written only on stale drops. */
  lemma CardDropGuardedAgrees(data: Board, dragging: Payload, dropTargets: seq<Payload>)
    requires DraggedCardInHome(data, dragging)
    requires !(|dropTargets| > 0 && IsCardDropTargetData(dropTargets[0])
               && var d := ColumnIndex(data.columns, dropTargets[0].columnId);
                  d != -1 && CardIndex(data.columns[d].cards, dropTargets[0].card.id) == -1)
    ensures CardDropGuarded(data, dragging, dropTargets) == CardDrop(data, dragging, dropTargets)
  {
  }

  // The stale-home examples: `card:0` is dragged from `column:a`, which
  // holds only `card:1`.
  const StaleHome := Column("column:a", "Column A", [Card("card:1", "Card 1")])
  const StaleCard := Card("card:0", "Card 0")
  const StaleDragging := CardData(StaleCard, "column:a", Rect(0, 0, 10, 10))

  /** In the examples, `column:b` is found at 1 and the dragged card is not in its home column. */
  lemma StaleHomeIndices(b: Column)
    requires b.id == "column:b"
    ensures ColumnIndex([StaleHome, b], "column:a") == 0
    ensures ColumnIndex([StaleHome, b], "column:b") == 1
    ensures CardIndex(StaleHome.cards, "card:0") == -1
  {
    assert "column:a"[7] != "column:b"[7];
    assert [StaleHome, b][1].id == "column:b";
    assert "card:1"[5] != "card:0"[5];
  }

  /** Replacing the stale home by an empty column and adding `card:0` elsewhere changes the ids. */
  lemma StaleHomeIdsChange(b: Column, b2: Column)
    requires "card:0" !in ColumnIds(b) && "card:0" in ColumnIds(b2)
    ensures BoardIds([StaleHome.(cards := []), b2]) != BoardIds([StaleHome, b])
  {
    TwoColumnIds(StaleHome.(cards := []), b2);
    TwoColumnIds(StaleHome, b);
    assert IdsOf(StaleHome.cards) == ["card:1"];
    assert ColumnIds(StaleHome) == multiset{"card:1"};
    assert "card:0" != "card:1" by { assert "card:1"[5] != "card:0"[5]; }
    assert "card:0" !in BoardIds([StaleHome, b]);
    assert "card:0" in BoardIds([StaleHome.(cards := []), b2]);
  }

  /**
   * As written, a card missing from its home column, dropped on a card of
   * another column, takes the home column's last card out of the board and
   * puts the dragged card in: the board's ids change.
   */
  lemma MissingHomeCardBreaksConservation()
    ensures var b := Column("column:b", "Column B", [Card("card:2", "Card 2")]);
      var data := Board([StaleHome, b]);
      var targets := [CardDropTargetData(Card("card:2", "Card 2"), "column:b", Some(Top))];
      var r := CardDrop(data, StaleDragging, targets);
      && r.columns == [StaleHome.(cards := []), b.(cards := [StaleCard, Card("card:2", "Card 2")])]
      && BoardIds(r.columns) != BoardIds(data.columns)
      && CardDropGuarded(data, StaleDragging, targets) == data
  {
    var b := Column("column:b", "Column B", [Card("card:2", "Card 2")]);
    var b2 := b.(cards := [StaleCard, Card("card:2", "Card 2")]);
    var targets := [CardDropTargetData(Card("card:2", "Card 2"), "column:b", Some(Top))];
    StaleHomeIndices(b);
    assert StaleCardDrop(Board([StaleHome, b]), StaleDragging, targets);
    StaleHomeOnCard(b);
    assert IdsOf(b.cards) == ["card:2"] && "card:0" != "card:2" by { assert "card:2"[5] != "card:0"[5]; }
    assert IdsOf(b2.cards) == ["card:0", "card:2"];
    StaleHomeIdsChange(b, b2);
  }

  /** The board `CardDrop` computes in the first stale-home example. */
  lemma StaleHomeOnCard(b: Column)
    requires b == Column("column:b", "Column B", [Card("card:2", "Card 2")])
    ensures CardDrop(Board([StaleHome, b]), StaleDragging, [CardDropTargetData(Card("card:2", "Card 2"), "column:b", Some(Top))]).columns
      == [StaleHome.(cards := []), b.(cards := [StaleCard, Card("card:2", "Card 2")])]
  {
    StaleHomeIndices(b);
    assert CardIndex(b.cards, "card:2") == 0;
    assert Splice(StaleHome.cards, -1, 1, []) == [];
    assert Splice(b.cards, 0, 0, [StaleCard]) == [StaleCard, Card("card:2", "Card 2")];
  }

  /**
   * The same `splice(-1, 1)` in the column-body branch: a card that is no
   * longer in its home column, dropped on another column's body, takes the
   * home column's last card with it.
   */
  lemma MissingHomeCardOnColumnBody()
    ensures var b := Column("column:b", "Column B", []);
      var data := Board([StaleHome, b]);
      var targets := [ColumnData(b)];
      var r := CardDrop(data, StaleDragging, targets);
      && r.columns == [StaleHome.(cards := []), b.(cards := [StaleCard])]
      && BoardIds(r.columns) != BoardIds(data.columns)
      && CardDropGuarded(data, StaleDragging, targets) == data
  {
    var b := Column("column:b", "Column B", []);
    var data := Board([StaleHome, b]);
    var targets := [ColumnData(b)];
    StaleHomeIndices(b);
    assert StaleCardDrop(data, StaleDragging, targets);
    var b2 := b.(cards := [StaleCard]);
    assert Splice(StaleHome.cards, -1, 1, []) == [];
    assert Splice(b.cards, 0, 0, [StaleCard]) == b2.cards;
    assert CardDrop(data, StaleDragging, targets).columns == [StaleHome.(cards := []), b2];
    assert IdsOf(b2.cards) == ["card:0"];
    StaleHomeIdsChange(b, b2);
  }

  /**
   * As written, a card dropped on a card that is not in the destination
   * column is still inserted: before the destination's last card for a top
   * edge (splice at -1).
   */
  lemma MissingTargetCardStillInserts()
    ensures var x := Card("card:0", "Card 0");
      var a := Column("column:a", "Column A", [x]);
      var b := Column("column:b", "Column B", [Card("card:1", "Card 1"), Card("card:2", "Card 2")]);
      var data := Board([a, b]);
      var dragging := CardData(x, "column:a", Rect(0, 0, 10, 10));
      var targets := [CardDropTargetData(Card("card:9", "Card 9"), "column:b", Some(Top))];
      && CardDrop(data, dragging, targets).columns[1].cards == [Card("card:1", "Card 1"), x, Card("card:2", "Card 2")]
      && CardDropGuarded(data, dragging, targets) == data
  {
    var x := Card("card:0", "Card 0");
    var a := Column("column:a", "Column A", [x]);
    var b := Column("column:b", "Column B", [Card("card:1", "Card 1"), Card("card:2", "Card 2")]);
    var data := Board([a, b]);
    assert ColumnIndex(data.columns, "column:a") == 0;
    assert ColumnIndex(data.columns, "column:b") == 1 by {
      assert "column:a"[7] != "column:b"[7];
      assert data.columns[1].id == "column:b";
    }
    assert CardIndex(a.cards, "card:0") == 0;
    assert CardIndex(b.cards, "card:9") == -1 by {
      assert b.cards[0].id != "card:9" && b.cards[1].id != "card:9";
    }
  }

  // ---------------------------------------------------------------------
  // Properties of the column drop.

  /**
   * A column drop is a no-op unless a column is dropped on a different
   * column that is on the board; otherwise the dragged column ends at the
   * destination index and every other column keeps its relative order
   * (a stable move, not a swap), with no card lost or created.
   */
  lemma ColumnDropMoves(data: Board, dragging: Payload, dropTargets: seq<Payload>)
    ensures var r := ColumnDrop(data, dragging, dropTargets);
      && (|| !IsColumnData(dragging) || |dropTargets| == 0 || !IsColumnData(dropTargets[0])
          || ColumnIndex(data.columns, dragging.column.id) == -1
          || ColumnIndex(data.columns, dropTargets[0].column.id) == -1
          || ColumnIndex(data.columns, dragging.column.id) == ColumnIndex(data.columns, dropTargets[0].column.id)
          ==> r == data)
      && (IsColumnData(dragging) && |dropTargets| > 0 && IsColumnData(dropTargets[0]) ==>
          var h := ColumnIndex(data.columns, dragging.column.id);
          var d := ColumnIndex(data.columns, dropTargets[0].column.id);
          h != -1 && d != -1 && h != d ==>
            && |r.columns| == |data.columns|
            && r.columns[d] == data.columns[h]
            && RemoveAt(r.columns, d) == RemoveAt(data.columns, h)
            && BoardIds(r.columns) == BoardIds(data.columns))
  {
    if IsColumnData(dragging) && |dropTargets| > 0 && IsColumnData(dropTargets[0]) {
      var h := ColumnIndex(data.columns, dragging.column.id);
      var d := ColumnIndex(data.columns, dropTargets[0].column.id);
      if h != -1 && d != -1 && h != d {
        MoveColumnIds(data.columns, h, d);
      }
    }
  }

  lemma MoveColumnIds(columns: seq<Column>, h: nat, d: nat)
    requires h < |columns| && d < |columns|
    ensures BoardIds(Reorder(columns, h, d)) == BoardIds(columns)
  {
    var c := columns[h];
    var rest := RemoveAt(columns, h);
    RemovedColumnIds(columns, h);
    InsertAtColumnIds(rest, d, c);
  }

  lemma RemovedColumnIds(columns: seq<Column>, h: nat)
    requires h < |columns|
    ensures BoardIds(RemoveAt(columns, h)) + ColumnIds(columns[h]) == BoardIds(columns)
  {
    BoardIdsSplit(columns, h);
    BoardIdsConcat(columns[..h], columns[h + 1..]);
    SwapLast(BoardIds(columns[..h]), BoardIds(columns[h + 1..]), ColumnIds(columns[h]));
  }

  lemma InsertAtColumnIds(columns: seq<Column>, d: nat, c: Column)
    requires d <= |columns|
    ensures BoardIds(InsertAt(columns, d, c)) == BoardIds(columns) + ColumnIds(c)
  {
    var t := InsertAt(columns, d, c);
    RemoveInsertAt(columns, d, c);
    assert t[d] == c;
    RemovedColumnIds(t, d);
  }

  /** Moving the first of four columns onto the third gives [orig[1], orig[2], C, orig[3]]. */
  lemma ColumnDropExample(c0: Column, c1: Column, c2: Column, c3: Column)
    requires c0.id != c1.id && c0.id != c2.id && c1.id != c2.id
    ensures ColumnDrop(Board([c0, c1, c2, c3]), ColumnData(c0), [ColumnData(c2)]).columns == [c1, c2, c0, c3]
  {
    var cols := [c0, c1, c2, c3];
    assert cols[0].id == c0.id && cols[2].id == c2.id;
    assert ColumnIndex(cols, c0.id) == 0;
    assert ColumnIndex(cols, c2.id) == 2;
    var rest := RemoveAt(cols, 0);
    assert rest == [c1, c2, c3];
    assert InsertAt(rest, 2, c0) == [c1, c2, c0, c3];
  }
}
