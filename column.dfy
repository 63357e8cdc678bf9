/**
 * A column's drag feedback: a finite state driven by its header's draggable
 * and its body's drop target, and the in-place mutators behind its menu and
 * its "Add Card" button.
 */
module ColumnView {
  import opened Wrappers
  import opened Data

  datatype ColumnState =
    | CardOver(isOverChildCard: bool, dragging: Rect)
    | ColumnOver
    | Idle
    | IsDragging

  /**
   * The drag events a column hears. `Header…` come from the header's
   * draggable; `Target…` from the column's drop target, with the drag
   * source's payload and the drop targets under the pointer, innermost first.
   */
  datatype ColumnEvent =
    | HeaderDragStart
    | HeaderDrop
    | TargetDragStart(source: Payload, dropTargets: seq<Payload>)
    | TargetDragEnter(source: Payload, dropTargets: seq<Payload>)
    | TargetChange(source: Payload, dropTargets: seq<Payload>)
    | TargetDragLeave(source: Payload)
    | TargetDrop

  /** Whether the innermost drop target under the pointer is a card. */
  predicate OverChildCard(dropTargets: seq<Payload>)
  {
    |dropTargets| > 0 && IsCardDropTargetData(dropTargets[0])
  }

  /**
   * `setIsCardOver`: propose "a card is over this column" with the dragged
   * card's rectangle; keep the current state when it already equals the
   * proposal.
   */
  function SetIsCardOver(current: ColumnState, data: Payload, dropTargets: seq<Payload>): (next: ColumnState)
    requires IsCardData(data)
    ensures next.CardOver? && next.dragging == data.rect
    ensures next.isOverChildCard <==> OverChildCard(dropTargets)
    ensures (current.CardOver? && current.dragging == data.rect
             && (current.isOverChildCard <==> OverChildCard(dropTargets))) ==> next == current
  {
    var proposed := CardOver(isOverChildCard := OverChildCard(dropTargets), dragging := data.rect);
    if proposed == current then current else proposed
  }

  /** The column's state after one event; `columnId` is this column's id. */
  function Step(columnId: string, state: ColumnState, event: ColumnEvent): ColumnState
  {
    match event
    case HeaderDragStart => IsDragging
    case HeaderDrop => Idle
    case TargetDragStart(source, dropTargets) =>
      if IsCardData(source) then SetIsCardOver(state, source, dropTargets) else state
    case TargetDragEnter(source, dropTargets) =>
      if IsCardData(source) then SetIsCardOver(state, source, dropTargets)
      else if IsColumnData(source) && source.column.id != columnId then ColumnOver
      else state
    case TargetChange(source, dropTargets) =>
      if IsCardData(source) then SetIsCardOver(state, source, dropTargets) else state
    case TargetDragLeave(source) =>
      if IsColumnData(source) && source.column.id == columnId then state else Idle
    case TargetDrop => Idle
  }

  /** The column's drop target accepts cards and columns. */
  predicate CanDrop(source: Payload)
  {
    IsDraggingACard(source) || IsDraggingAColumn(source)
  }

  /**
   * The column accepts exactly card and column drags; a drag it refuses
   * (a drop-target payload or an untagged one) would leave its state as it
   * is on start, enter and target change.
   */
  lemma AcceptedSources(columnId: string, state: ColumnState, source: Payload, dropTargets: seq<Payload>)
    ensures CanDrop(source) <==> source.CardData? || source.ColumnData?
    ensures !CanDrop(source) ==>
      && Step(columnId, state, TargetDragStart(source, dropTargets)) == state
      && Step(columnId, state, TargetDragEnter(source, dropTargets)) == state
      && Step(columnId, state, TargetChange(source, dropTargets)) == state
  {
  }

  /** Header drag start means dragging; any drop, on the header or on the body, means idle. */
  lemma DragStartAndDrop(columnId: string, state: ColumnState)
    ensures Step(columnId, state, HeaderDragStart) == IsDragging
    ensures Step(columnId, state, HeaderDrop) == Idle
    ensures Step(columnId, state, TargetDrop) == Idle
  {
  }

  /**
   * A card's drag start, enter or target change makes the state "a card is
   * over", over a child card exactly when the innermost target is a card.
   */
  lemma CardEventsSetCardOver(columnId: string, state: ColumnState, source: Payload, dropTargets: seq<Payload>)
    requires IsCardData(source)
    ensures forall e | e in [TargetDragStart(source, dropTargets), TargetDragEnter(source, dropTargets),
                            TargetChange(source, dropTargets)] ::
      var next := Step(columnId, state, e);
      && next.CardOver? && next.dragging == source.rect
      && (next.isOverChildCard <==> OverChildCard(dropTargets))
  {
  }

  /** The column's content is made invisible while another column is over it. */
  predicate HidesContent(state: ColumnState)
  {
    state.ColumnOver?
  }

  /**
   * Another column entering makes "column over", which hides the content;
   * the column entering itself changes nothing.
   */
  lemma ColumnEnter(columnId: string, state: ColumnState, column: Column, dropTargets: seq<Payload>)
    ensures var next := Step(columnId, state, TargetDragEnter(ColumnData(column), dropTargets));
      && (column.id != columnId ==> next == ColumnOver && HidesContent(next))
      && (column.id == columnId ==> next == state)
  {
  }

  /** Leaving: unchanged when the dragged column is this one, idle for anything else. */
  lemma Leave(columnId: string, state: ColumnState, source: Payload)
    ensures var next := Step(columnId, state, TargetDragLeave(source));
      && (IsColumnData(source) && source.column.id == columnId ==> next == state)
      && (!(IsColumnData(source) && source.column.id == columnId) ==> next == Idle)
  {
  }

  /** Repeating any event changes nothing more: each handler is idempotent. */
  lemma StepIdempotent(columnId: string, state: ColumnState, event: ColumnEvent)
    ensures Step(columnId, Step(columnId, state, event), event) == Step(columnId, state, event)
  {
  }

  /** The trailing card shadow: a card is over the column but not over one of its cards. */
  predicate ShowsTrailingShadow(state: ColumnState)
  {
    state.CardOver? && !state.isOverChildCard
  }

  /**
   * The trailing shadow shows exactly while a card hovers over the column's
   * empty area, and is sized by the dragged card's rectangle.
   */
  lemma TrailingShadow(columnId: string, state: ColumnState, source: Payload, dropTargets: seq<Payload>)
    requires IsCardData(source)
    ensures var next := Step(columnId, state, TargetChange(source, dropTargets));
      ShowsTrailingShadow(next) <==> !OverChildCard(dropTargets)
    ensures !ShowsTrailingShadow(Step(columnId, state, TargetDrop))
  {
  }

  /** A column's mutable record, as the component's `column` object. */
  class ColumnObject {
    var id: string
    var title: string
    var cards: seq<Card>

    constructor (column: Column)
      ensures Value() == column
    {
      id := column.id;
      title := column.title;
      cards := column.cards;
    }

    function Value(): Column
      reads this
    {
      Column(id, title, cards)
    }

    /**
     * `addTask`: push one card described by the task input's text onto the
     * column's cards. `now` is the text of `Date.now()`, which makes the id.
     */
    method AddTask(value: string, now: string)
      modifies this
      ensures cards == old(cards) + [Card(value + "-" + now, value)]
      ensures id == old(id) && title == old(title)
    {
      var tempCards := cards;
      var newTempCard := Card(value + "-" + now, value);
      tempCards := tempCards + [newTempCard];
      cards := tempCards;
    }

    /** `rename`: set the title. */
    method Rename(name: string)
      modifies this
      ensures title == name
      ensures id == old(id) && cards == old(cards)
    {
      title := name;
    }

    /** `clear`: drop every card. */
    method Clear()
      modifies this
      ensures cards == []
      ensures id == old(id) && title == old(title)
    {
      cards := [];
    }
  }
}
