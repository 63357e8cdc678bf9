/**
 * The standalone list example: one column of numbered cards that can be
 * reordered by dropping one card onto another.
 */
module ListExample {
  import opened Text
  import opened JsArray
  import opened DragAndDrop
  import Data

  /** The list's card `n`. */
  function ListCard(n: nat): Data.Card
  {
    Data.Card("card:" + NatToString(n), "Card: " + NatToString(n))
  }

  /** `getCards`: the first `amount` numbered cards, card `i` at index `i`. */
  function GetCards(amount: nat): (cards: seq<Data.Card>)
    ensures |cards| == amount
    ensures forall i | 0 <= i < amount :: cards[i] == ListCard(i)
  {
    seq(amount, (i: int) requires 0 <= i => ListCard(i))
  }

  /** No two generated cards share an id. */
  lemma GetCardsDistinctIds(amount: nat)
    ensures forall i, j | 0 <= i < j < amount :: GetCards(amount)[i].id != GetCards(amount)[j].id
  {
    var cards := GetCards(amount);
    forall i, j | 0 <= i < j < amount
      ensures cards[i].id != cards[j].id
    {
      if cards[i].id == cards[j].id {
        PrefixedNatInjective("card:", i, j);
      }
    }
  }

  /** The list's drag payload: tagged with the card key, or anything else. */
  datatype ListPayload = ListCardData(card: Data.Card) | ListUntagged

  /** `getCardData` tags a card. */
  function GetCardData(card: Data.Card): (p: ListPayload)
    ensures IsCardData(p) && p.card == card
  {
    ListCardData(card)
  }

  /** `isCardData`: the card key is present. */
  predicate IsCardData(p: ListPayload)
  {
    p.ListCardData?
  }

  /** Tagging is the only way to make a card payload, and it keeps the card. */
  lemma CardDataRoundTrip(p: ListPayload)
    ensures IsCardData(p) <==> exists c :: p == GetCardData(c)
    ensures IsCardData(p) ==> p == GetCardData(p.card)
  {
    if IsCardData(p) {
      assert p == GetCardData(p.card);
    }
  }

  datatype ListCardState =
    | Idle
    | IsDragging
    | IsOver
    | Preview(container: Data.Container, dragging: Data.Rect)

  datatype ListCardEvent =
    | Render(container: Data.Container, rect: Data.Rect)
    | DragStart
    | SourceDrop
    | TargetDragEnter(source: ListPayload)
    | TargetDragLeave(source: ListPayload)
    | TargetDrop

  /** The list card's state after one event. */
  function Step(card: Data.Card, state: ListCardState, event: ListCardEvent): ListCardState
  {
    match event
    case Render(container, rect) => Preview(container, rect)
    case DragStart => IsDragging
    case SourceDrop => Idle
    case TargetDragEnter(source) =>
      if !IsCardData(source) || source.card.id == card.id then state else IsOver
    case TargetDragLeave(source) =>
      if !IsCardData(source) || source.card.id == card.id then state else Idle
    case TargetDrop => Idle
  }

  /** The card's text is invisible while another card is over it. */
  predicate TextInvisible(state: ListCardState)
  {
    state.IsOver?
  }

  /**
   * Another card entering makes "is over" and hides the text; that card
   * leaving makes idle; the dragged card entering or leaving itself, or a
   * non-card drag, changes nothing.
   */
  lemma HoverTransitions(card: Data.Card, state: ListCardState, source: ListPayload)
    ensures IsCardData(source) && source.card.id != card.id ==>
      && Step(card, state, TargetDragEnter(source)) == IsOver
      && TextInvisible(Step(card, state, TargetDragEnter(source)))
      && Step(card, state, TargetDragLeave(source)) == Idle
    ensures !IsCardData(source) || source.card.id == card.id ==>
      && Step(card, state, TargetDragEnter(source)) == state
      && Step(card, state, TargetDragLeave(source)) == state
  {
  }

  /**
   * The list card's own draggable and the drop on it: the preview render
   * shows the preview in its container, drag start means dragging, and a
   * drop, on either side, means idle.
   */
  lemma OwnDraggable(card: Data.Card, state: ListCardState, container: Data.Container, rect: Data.Rect)
    ensures Step(card, state, Render(container, rect)) == Preview(container, rect)
    ensures Step(card, state, DragStart) == IsDragging
    ensures Step(card, state, SourceDrop) == Idle && Step(card, state, TargetDrop) == Idle
  {
  }

  /** A card that is not hovered by another card never hides its text through its own drag. */
  lemma OwnDragNeverHidesText(card: Data.Card, state: ListCardState, rect: Data.Rect, container: Data.Container)
    requires !TextInvisible(state)
    ensures forall e | e in [Render(container, rect), DragStart, SourceDrop, TargetDrop,
                            TargetDragEnter(GetCardData(card)), TargetDragLeave(GetCardData(card))] ::
      !TextInvisible(Step(card, state, e))
  {
  }

  /**
   * The `setCards` updater: move the dragged card to the target card's
   * place, or keep the list when either card is missing or they are the
   * same place.
   */
  function MoveCard(current: seq<Data.Card>, draggingId: string, targetId: string): (r: seq<Data.Card>)
    ensures |r| == |current| && multiset(r) == multiset(current)
  {
    var startIndex := Data.CardIndex(current, draggingId);
    var finishIndex := Data.CardIndex(current, targetId);
    if startIndex == -1 || finishIndex == -1 then current
    else if startIndex == finishIndex then current
    else Reorder(current, startIndex, finishIndex)
  }

  /**
   * When both cards are present at different places the dragged card ends
   * where the target was and the other cards keep their relative order;
   * otherwise nothing changes.
   */
  lemma MoveCardPlaces(current: seq<Data.Card>, draggingId: string, targetId: string)
    ensures var s, f := Data.CardIndex(current, draggingId), Data.CardIndex(current, targetId);
      var r := MoveCard(current, draggingId, targetId);
      && (s == -1 || f == -1 || s == f ==> r == current)
      && (s != -1 && f != -1 && s != f ==>
            r[f] == current[s] && r[f].id == draggingId && RemoveAt(r, f) == RemoveAt(current, s))
  {
  }

  /** Moving keeps the card ids, with their multiplicities. */
  lemma MoveCardKeepsIds(current: seq<Data.Card>, draggingId: string, targetId: string)
    ensures multiset(Data.IdsOf(MoveCard(current, draggingId, targetId))) == multiset(Data.IdsOf(current))
  {
    var s, f := Data.CardIndex(current, draggingId), Data.CardIndex(current, targetId);
    if s != -1 && f != -1 && s != f {
      Data.IdsOfReorder(current, s, f);
    }
  }

  /** The column's drop handler: which drops reach the updater, and with what ids. */
  function ListDrop(current: seq<Data.Card>, dragging: ListPayload, dropTargets: seq<ListPayload>): (r: seq<Data.Card>)
    ensures !IsCardData(dragging) || |dropTargets| == 0 || !IsCardData(dropTargets[0]) ==> r == current
    ensures IsCardData(dragging) && |dropTargets| > 0 && IsCardData(dropTargets[0]) ==>
      r == MoveCard(current, dragging.card.id, dropTargets[0].card.id)
  {
    if !IsCardData(dragging) then current
    else if |dropTargets| == 0 then current
    else
      var dropTargetData := dropTargets[0];
      if !IsCardData(dropTargetData) then current
      else MoveCard(current, dragging.card.id, dropTargetData.card.id)
  }
}
