/**
 * A board card's drag feedback: its state machine, driven by its own
 * draggable and its own drop target, and where its display puts the card
 * shadow.
 */
module CardView {
  import opened Wrappers
  import opened DragAndDrop
  import opened Data

  datatype CardState =
    | Idle
    | IsDragging
    | DraggingLeftSelf
    | IsOver(dragging: Rect, closestEdge: Edge)
    | Preview(container: Container, dragging: Rect)

  /**
   * The events a card hears. `Drag…`/`Render`/`SourceDrop` come from its
   * draggable; `Target…` from its drop target, with the drag source's
   * payload and the target's own payload (`self`).
   */
  datatype CardEvent =
    | Render(container: Container, rect: Rect)
    | DragStart
    | SourceDrop
    | TargetDragEnter(source: Payload, self: Payload)
    | TargetDrag(source: Payload, self: Payload)
    | TargetDragLeave(source: Payload)
    | TargetDrop

  /**
   * The "is over" state a hovering card proposes, when it proposes one:
   * only for a card other than this one, and only when the target's payload
   * carries a closest edge.
   */
  function OverProposal(card: Card, source: Payload, self: Payload): (r: Option<CardState>)
    ensures r.Some? <==> IsCardData(source) && source.card.id != card.id && ExtractClosestEdge(self).Some?
    ensures r.Some? ==> r.value == IsOver(source.rect, ExtractClosestEdge(self).value)
  {
    if !IsCardData(source) then None
    else if source.card.id == card.id then None
    else match ExtractClosestEdge(self)
      case None => None
      case Some(closestEdge) => Some(IsOver(dragging := source.rect, closestEdge := closestEdge))
  }

  /** The card's state after one event. */
  function Step(card: Card, state: CardState, event: CardEvent): CardState
  {
    match event
    case Render(container, rect) => Preview(container, rect)
    case DragStart => IsDragging
    case SourceDrop => Idle
    case TargetDragEnter(source, self) =>
      var proposal := OverProposal(card, source, self);
      if proposal.None? then state else proposal.value
    case TargetDrag(source, self) =>
      var proposal := OverProposal(card, source, self);
      if proposal.None? then state
      else if proposal.value == state then state
      else proposal.value
    case TargetDragLeave(source) =>
      if !IsCardData(source) then state
      else if source.card.id == card.id then DraggingLeftSelf
      else Idle
    case TargetDrop => Idle
  }

  /** The states reachable by a sequence of events. */
  function Run(card: Card, state: CardState, events: seq<CardEvent>): CardState
    decreases |events|
  {
    if |events| == 0 then state else Run(card, Step(card, state, events[0]), events[1..])
  }

  /** The shape of the card's own drop target payload: the card and its column with a top or bottom edge. */
  predicate OwnTarget(card: Card, columnId: string, self: Payload)
  {
    && IsCardDropTargetData(self) && self.card == card && self.columnId == columnId
    && (ExtractClosestEdge(self) == Some(Top) || ExtractClosestEdge(self) == Some(Bottom))
  }

  /** Whatever the pointer's distances to the edges, the card's drop target produces such a payload. */
  lemma CardTargetDataIsOwnTarget(card: Card, columnId: string, distance: Edge -> int)
    ensures OwnTarget(card, columnId, CardTargetData(card, columnId, distance))
  {
  }

  /** Shadow drawn above the card. */
  predicate ShadowBefore(state: CardState)
  {
    state.IsOver? && state.closestEdge == Top
  }

  /** Shadow drawn below the card. */
  predicate ShadowAfter(state: CardState)
  {
    state.IsOver? && state.closestEdge == Bottom
  }

  /** The whole card is hidden once the card being dragged has left itself. */
  predicate OuterHidden(state: CardState)
  {
    state.DraggingLeftSelf?
  }

  /** A card in the "is over" state only ever names the top or the bottom edge. */
  predicate Valid(state: CardState)
  {
    state.IsOver? ==> state.closestEdge == Top || state.closestEdge == Bottom
  }

  /** Targets whose payloads come from the card's own drop target. */
  predicate OwnTargets(card: Card, columnId: string, events: seq<CardEvent>)
  {
    forall i | 0 <= i < |events| ::
      (events[i].TargetDragEnter? || events[i].TargetDrag?) ==> OwnTarget(card, columnId, events[i].self)
  }

  /** A card never shows both shadows and never shows one while hidden. */
  lemma ShadowsExclusive(state: CardState)
    ensures !(ShadowBefore(state) && ShadowAfter(state))
    ensures ShadowBefore(state) || ShadowAfter(state) ==> !OuterHidden(state)
  {
  }

  /** In a valid state, a card under a hovering card shows exactly one shadow, sized by the dragged card. */
  lemma ExactlyOneShadow(state: CardState)
    requires Valid(state) && state.IsOver?
    ensures ShadowBefore(state) != ShadowAfter(state)
  {
  }

  /** Each step preserves validity as long as the target's payload is the card's own. */
  lemma StepPreservesValid(card: Card, columnId: string, state: CardState, event: CardEvent)
    requires Valid(state)
    requires (event.TargetDragEnter? || event.TargetDrag?) ==> OwnTarget(card, columnId, event.self)
    ensures Valid(Step(card, state, event))
  {
  }

  /** Every sequence of events from the card's own target keeps validity. */
  lemma {:induction false} RunPreservesValid(card: Card, columnId: string, state: CardState, events: seq<CardEvent>)
    requires Valid(state)
    requires OwnTargets(card, columnId, events)
    ensures Valid(Run(card, state, events))
    decreases |events|
  {
    if |events| > 0 {
      StepPreservesValid(card, columnId, state, events[0]);
      assert OwnTargets(card, columnId, events[1..]) by {
        forall i | 0 <= i < |events[1..]| ensures
          (events[1..][i].TargetDragEnter? || events[1..][i].TargetDrag?) ==> OwnTarget(card, columnId, events[1..][i].self)
        {
          assert events[1..][i] == events[i + 1];
        }
      }
      RunPreservesValid(card, columnId, Step(card, state, events[0]), events[1..]);
    }
  }

  /**
   * Hovering this card over itself never turns on a shadow: entering or
   * dragging over oneself changes nothing, and leaving oneself hides the card.
   */
  lemma DraggingOverSelf(card: Card, state: CardState, columnId: string, rect: Rect, self: Payload)
    ensures var source := GetCardData(card, columnId, rect);
      && Step(card, state, TargetDragEnter(source, self)) == state
      && Step(card, state, TargetDrag(source, self)) == state
      && OuterHidden(Step(card, state, TargetDragLeave(source)))
  {
  }

  /**
   * Another card hovering with a closest edge: both enter and drag land in
   * "is over" with that card's rectangle and edge; the shadow is on the side
   * of the edge.
   */
  lemma OtherCardHovering(card: Card, state: CardState, source: Payload, self: Payload)
    requires IsCardData(source) && source.card.id != card.id
    requires ExtractClosestEdge(self).Some?
    ensures var e := ExtractClosestEdge(self).value;
      && Step(card, state, TargetDragEnter(source, self)) == IsOver(source.rect, e)
      && Step(card, state, TargetDrag(source, self)) == IsOver(source.rect, e)
      && (ShadowBefore(IsOver(source.rect, e)) <==> e == Top)
      && (ShadowAfter(IsOver(source.rect, e)) <==> e == Bottom)
  {
  }

  /** Non-card drags and targets without an edge leave the state alone on enter and drag. */
  lemma IgnoredHovering(card: Card, state: CardState, source: Payload, self: Payload)
    requires !IsCardData(source) || ExtractClosestEdge(self).None?
    ensures Step(card, state, TargetDragEnter(source, self)) == state
    ensures Step(card, state, TargetDrag(source, self)) == state
  {
  }

  /**
   * The card's own draggable: the preview render shows the preview in its
   * container, drag start means dragging, and its drop means idle.
   */
  lemma OwnDraggable(card: Card, state: CardState, container: Container, rect: Rect)
    ensures Step(card, state, Render(container, rect)) == Preview(container, rect)
    ensures Step(card, state, DragStart) == IsDragging
    ensures Step(card, state, SourceDrop) == Idle
  {
  }

  /** Another card leaving resets to idle; any drop resets to idle. */
  lemma LeaveAndDrop(card: Card, state: CardState, source: Payload)
    ensures IsCardData(source) && source.card.id != card.id ==> Step(card, state, TargetDragLeave(source)) == Idle
    ensures !IsCardData(source) ==> Step(card, state, TargetDragLeave(source)) == state
    ensures Step(card, state, TargetDrop) == Idle && Step(card, state, SourceDrop) == Idle
  {
  }
}
