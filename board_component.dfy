/**
 * The `Board` component's state: the board itself, the column-name input and
 * the snackbar. Its drop handlers follow the monitor code step by step and
 * are proved to compute the reducers of BoardDrop; `addColumn` appends to
 * the current columns in place.
 */
module BoardComponent {
  import opened Wrappers
  import opened JsArray
  import opened DragAndDrop
  import opened Data
  import opened BoardDrop

  /** The board refuses a sixth column. */
  const MaxColumns: nat := 5

  const TooManyColumnsMessage: string := "You can not have more than 5 columns"

  class BoardView {
    var data: Board
    var inputValue: string
    var message: string
    var show: bool

    constructor (initial: Board)
      ensures data == initial && inputValue == "" && message == "" && !show
    {
      data := initial;
      inputValue := "";
      message := "";
      show := false;
    }

    /** `handleKeyUp`: the column-name input's current text. */
    method HandleKeyUp(value: string)
      modifies this
      ensures inputValue == value
      ensures data == old(data) && message == old(message) && show == old(show)
    {
      inputValue := value;
    }

    /** `handleClose`: dismiss the snackbar, unless the close came from a click away from it. */
    method HandleClose(clickaway: bool)
      modifies this
      ensures clickaway ==> message == old(message) && show == old(show)
      ensures !clickaway ==> message == "" && !show
      ensures data == old(data) && inputValue == old(inputValue)
    {
      if clickaway {
        return;
      }
      message := "";
      show := false;
    }

    /**
     * The card monitor's `onDrop`, against the board current at the drop,
     * with the existence checks its cross-column branches lack (see
     * `CardDropGuarded`): no card is ever lost or duplicated.
     */
    method OnCardDrop(dragging: Payload, dropTargets: seq<Payload>)
      modifies this
      ensures data == CardDropGuarded(old(data), dragging, dropTargets)
      ensures BoardIds(data.columns) == BoardIds(old(data).columns)
      ensures inputValue == old(inputValue) && message == old(message) && show == old(show)
    {
      CardDropGuardedConservesIds(data, dragging, dropTargets);
      if !IsCardData(dragging) {
        return;
      }
      if |dropTargets| == 0 {
        return;
      }
      var dropTargetData := dropTargets[0];
      var homeColumnIndex := ColumnIndex(data.columns, dragging.columnId);
      if homeColumnIndex == -1 {
        return;
      }
      if IsCardDropTargetData(dropTargetData) {
        DropOnCardTarget(dragging, dropTargets, homeColumnIndex);
      } else if IsColumnData(dropTargetData) {
        DropOnColumnTarget(dragging, dropTargets, homeColumnIndex);
      }
    }

    /** The "dropping on a card" branch of the card `onDrop`. */
    method DropOnCardTarget(dragging: Payload, dropTargets: seq<Payload>, homeColumnIndex: nat)
      requires IsCardData(dragging) && |dropTargets| > 0 && IsCardDropTargetData(dropTargets[0])
      requires homeColumnIndex == ColumnIndex(data.columns, dragging.columnId)
      modifies this
      ensures data == CardDropGuarded(old(data), dragging, dropTargets)
      ensures inputValue == old(inputValue) && message == old(message) && show == old(show)
    {
      var dropTargetData := dropTargets[0];
      var home := data.columns[homeColumnIndex];
      var cardIndexInHome := CardIndex(home.cards, dragging.card.id);
      var destinationColumnIndex := ColumnIndex(data.columns, dropTargetData.columnId);
      if homeColumnIndex == destinationColumnIndex {
        var cardFinishIndex := CardIndex(home.cards, dropTargetData.card.id);
        if cardIndexInHome == -1 || cardFinishIndex == -1 {
          return;
        }
        if cardIndexInHome == cardFinishIndex {
          return;
        }
        var closestEdge := ExtractClosestEdge(dropTargetData);
        var reordered := ReorderWithEdge(home.cards, cardIndexInHome, cardFinishIndex, closestEdge, Vertical);
        var columns := data.columns;
        columns := columns[homeColumnIndex := home.(cards := reordered)];
        data := data.(columns := columns);
        return;
      }
      if destinationColumnIndex == -1 {
        return;
      }
      var destination := data.columns[destinationColumnIndex];
      var indexOfTarget := CardIndex(destination.cards, dropTargetData.card.id);
      var closestEdge := ExtractClosestEdge(dropTargetData);
      // the two checks the source omits
      if cardIndexInHome == -1 || indexOfTarget == -1 {
        return;
      }
      var finalIndex := if closestEdge == Some(Bottom) then indexOfTarget + 1 else indexOfTarget;
      var homeCards := home.cards;
      homeCards := Splice(homeCards, cardIndexInHome, 1, []);
      var destinationCards := destination.cards;
      destinationCards := Splice(destinationCards, finalIndex, 0, [dragging.card]);
      var columns := data.columns;
      columns := columns[homeColumnIndex := home.(cards := homeCards)];
      columns := columns[destinationColumnIndex := destination.(cards := destinationCards)];
      data := data.(columns := columns);
    }

    /** The "dropping onto a column, but not onto a card" branch of the card `onDrop`. */
    method DropOnColumnTarget(dragging: Payload, dropTargets: seq<Payload>, homeColumnIndex: nat)
      requires IsCardData(dragging) && |dropTargets| > 0 && IsColumnData(dropTargets[0])
      requires homeColumnIndex == ColumnIndex(data.columns, dragging.columnId)
      modifies this
      ensures data == CardDropGuarded(old(data), dragging, dropTargets)
      ensures inputValue == old(inputValue) && message == old(message) && show == old(show)
    {
      var dropTargetData := dropTargets[0];
      var home := data.columns[homeColumnIndex];
      var cardIndexInHome := CardIndex(home.cards, dragging.card.id);
      var destinationColumnIndex := ColumnIndex(data.columns, dropTargetData.column.id);
      if destinationColumnIndex == -1 {
        return;
      }
      if homeColumnIndex == destinationColumnIndex {
        var reordered := Reorder(home.cards, cardIndexInHome, |home.cards| - 1);
        var columns := data.columns;
        columns := columns[homeColumnIndex := home.(cards := reordered)];
        data := data.(columns := columns);
        return;
      }
      // the check the source omits
      if cardIndexInHome == -1 {
        return;
      }
      var destination := data.columns[destinationColumnIndex];
      var homeCards := home.cards;
      homeCards := Splice(homeCards, cardIndexInHome, 1, []);
      var destinationCards := destination.cards;
      destinationCards := Splice(destinationCards, |destination.cards|, 0, [dragging.card]);
      var columns := data.columns;
      columns := columns[homeColumnIndex := home.(cards := homeCards)];
      columns := columns[destinationColumnIndex := destination.(cards := destinationCards)];
      data := data.(columns := columns);
    }

    /** The column monitor's `onDrop`. */
    method OnColumnDrop(dragging: Payload, dropTargets: seq<Payload>)
      modifies this
      ensures data == ColumnDrop(old(data), dragging, dropTargets)
      ensures inputValue == old(inputValue) && message == old(message) && show == old(show)
    {
      if !IsColumnData(dragging) {
        return;
      }
      if |dropTargets| == 0 {
        return;
      }
      var dropTargetData := dropTargets[0];
      if !IsColumnData(dropTargetData) {
        return;
      }
      var homeIndex := ColumnIndex(data.columns, dragging.column.id);
      var destinationIndex := ColumnIndex(data.columns, dropTargetData.column.id);
      if homeIndex == -1 || destinationIndex == -1 {
        return;
      }
      if homeIndex == destinationIndex {
        return;
      }
      var reordered := Reorder(data.columns, homeIndex, destinationIndex);
      data := data.(columns := reordered);
    }

    /**
     * `addColumn`: with five columns or more, raise the snackbar and change
     * nothing else; otherwise append an empty column titled with the input's
     * text. `now` is the text of `Date.now()`, which makes the id.
     */
    method AddColumn(now: string)
      modifies this
      ensures inputValue == old(inputValue)
      ensures |old(data.columns)| >= MaxColumns ==>
        data == old(data) && message == TooManyColumnsMessage && show
      ensures |old(data.columns)| < MaxColumns ==>
        && data.columns == old(data.columns) + [Column(old(inputValue) + "-" + now, old(inputValue), [])]
        && message == old(message) && show == old(show)
      ensures |old(data.columns)| <= MaxColumns ==> |data.columns| <= MaxColumns
    {
      var tempColumn := Column(inputValue + "-" + now, inputValue, []);
      if |data.columns| >= MaxColumns {
        message := TooManyColumnsMessage;
        show := true;
      } else {
        var tempData := data.columns;
        tempData := tempData + [tempColumn];
        data := Board(tempData);
      }
    }
  }
}
