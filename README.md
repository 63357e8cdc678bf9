# Kanban drag and drop, modelled in Dafny

This project models the core of a kanban board web app. The board holds columns, and each column holds cards. Cards are dragged between and within columns, and columns are dragged along the board. The model covers these parts:

- the two drop reducers of the board: the card monitor's `onDrop` and the column monitor's `onDrop`, plus `addColumn`;
- the drag-feedback state machines of a column, a board card and a list card, and the shadows they draw;
- the tagged drag payloads;
- the single-list reorder example;
- the seed boards of the two demo pages;
- the settings context's `update` and `reset`.

The board's reducers are pure functions in `BoardDrop`. `CardDrop` follows the card handler exactly as written, and its findings are recorded below. `CardDropGuarded` is the corrected reducer: it adds the missing existence checks. `BoardComponent.BoardView` holds the component's state. Its handlers follow the source step by step (copy, `splice`, assign). The card handler is proved to compute `CardDropGuarded` and to keep the board's card ids. The column handler is proved to compute `ColumnDrop`. JavaScript's `findIndex` is modelled exactly in `JsArray`. `Array.prototype.splice` is modelled exactly for non-negative delete counts, including a negative start counting from the end. Every call site passes a delete count of 1 or 0. The drag-and-drop library's `reorder`, `getReorderDestinationIndex`, `reorderWithEdge` and closest-edge hit test are not part of this model's sources. `DragAndDrop` writes them from the library's documented behaviour. For example, `reorder` returns the list unchanged when either index is -1, and otherwise removes the element at the start index and inserts it at the finish index.

The main proved facts are these:

- Every early return and no-op case of the reducers leaves the board unchanged.
- Each card-drop branch changes only the columns it names, and puts the card where the source says.
- As long as the dragged card is in its home column, a card drop as written keeps the multiset of card ids, so it keeps the card count and keeps ids unique. With the two missing checks added, every card drop keeps them.
- A column drop is a stable move, not a swap.
- The card state machine only ever shows the shadow on the top or bottom edge, one side at a time.
- The seed boards have distinct ids.
- Settings `update` is a key-by-key override, and applying it twice is the same as once.

Modules and files: `Wrappers` (wrappers.dfy), `Text` (text.dfy), `JsArray` (js_array.dfy), `DragAndDrop` (dnd_library.dfy), `Data` (data.dfy), `BoardDrop` (board_drop.dfy), `BoardComponent` (board_component.dfy), `ColumnView` (column.dfy), `CardView` (card.dfy), `ListExample` (list.dfy), `SeedData`, `TwoColumnsPage` and `OneColumnPage` (seed.dfy), and `SettingsContext` (settings.dfy).

Some names used in the model are not defined in the shown `src/shared/data.ts`, although `board.tsx`, `column.tsx` and `card.tsx` import them: `isColumnData`, `isCardDropTargetData`, `getColumnData`, `isDraggingAColumn` and `getCardDropTargetData`. The model defines them in `Data` as variants of one payload union. Card payloads carry the dragged card's rectangle; see the `Data.GetCardData` line under "## Left out".

## Model

| member | source | states |
|---|---|---|
| JsArray.FindIndex | src/shared/board.tsx:83-85 | `findIndex`: -1 exactly when no element satisfies the predicate; otherwise the first index that does |
| JsArray.Splice | src/shared/board.tsx:150-155 | `splice` on a copy: a negative start counts from the end, and start and delete count are clamped; the result's length and multiset are the old ones minus the deleted slice plus the inserted items |
| JsArray.SpliceRemoveOne | src/shared/board.tsx:151 | `splice(i, 1)` at a valid index removes exactly the element at `i` |
| JsArray.SpliceInsertOne | src/shared/board.tsx:155 | `splice(i, 0, x)` at `0 <= i <= length` inserts `x` at `i` and shifts the rest |
| DragAndDrop.ClosestEdge | src/shared/card.tsx:140-143 | the closest-edge hit test gives an edge exactly when some edge is allowed; the edge is allowed and no allowed edge is nearer; on a tie with the first allowed edge it gives the first |
| DragAndDrop.Reorder | src/shared/board.tsx:260-264 | `reorder` keeps the length and multiset; with an index of -1 it is the identity; otherwise the moved element sits at the finish index and removing it gives the list with the start element removed |
| DragAndDrop.DestinationIndexInRange | src/shared/board.tsx:117-123 | the finish index that `reorderWithEdge` computes from a start index, a target index and an edge stays within the list |
| DragAndDrop.ReorderWithEdge | src/shared/board.tsx:117-123 | `reorderWithEdge` keeps length and multiset, and is the identity when either index is -1 |
| DragAndDrop.ReorderWithEdgePlacesBesideTarget | src/shared/board.tsx:115-123 | the moved element ends at the finish index: just after the target for a bottom edge, just before it for a top edge, and at the target's index with no edge |
| DragAndDrop.DestinationIndex | src/shared/board.tsx:117-123 | the finish index behind `reorderWithEdge`, as the library documents it: the start index when either index is -1 or they are equal, the target index when there is no edge, and otherwise the target index shifted by the edge and by whether the card comes from above or below; `DestinationIndexInRange` bounds it and `ReorderWithEdgePlacesBesideTarget` says where the card lands |
| Data.GetCardData | src/shared/data.ts:23-32 | the card payload is card data and keeps the card, the column id and the rectangle |
| Data.GetCardDataRoundTrip | src/shared/data.ts:23-44 | `isCardData(getCardData(x))` and `isDraggingACard` hold, the payload is not a column drag, and it gives back the card and column id |
| Data.IsCardData | src/shared/data.ts:34-36 | `isCardData`: the payload carries the card tag; `TagsAreExclusive` and `GetCardDataRoundTrip` state which payloads have it |
| Data.IsDraggingACard | src/shared/data.ts:38-44 | `isDraggingACard`: the source's data is card data; `GetCardDataRoundTrip` shows a card payload is one |
| Data.IsCardDropTargetData | src/shared/board.tsx:94 | `isCardDropTargetData`, imported by the board: the payload carries the card-target tag; `TagsAreExclusive` makes it exclusive of the others |
| Data.IsColumnData | src/shared/board.tsx:171 | `isColumnData`, imported by the board and the column: the payload carries the column tag; `TagsAreExclusive` makes it exclusive of the others |
| Data.IsDraggingAColumn | src/shared/column.tsx:184 | `isDraggingAColumn`: the source's data is column data; `ColumnView.AcceptedSources` uses it |
| Data.ExtractClosestEdge | src/shared/board.tsx:146 | `extractClosestEdge`: the edge a card target carries, none for any other payload; `CardTargetData` shows a card's own target always carries top or bottom |
| Data.TagsAreExclusive | src/shared/data.ts:34-36 | no payload answers to two tags; an untagged record answers to none |
| Data.GetCardDropTargetData | src/shared/card.tsx:141 | a card drop-target payload keeps the card and column id and has no edge yet |
| Data.GetColumnData | src/shared/column.tsx:125 | a column payload is column data and keeps the column |
| Data.AttachClosestEdge | src/shared/card.tsx:142 | on a card target, attaching keeps the card and column id and records an edge exactly when some edge is allowed; that edge is allowed and no allowed edge is nearer; other payloads are left as they are |
| Data.CardTargetData | src/shared/card.tsx:140-143 | a card's drop-target data is a card target for that card and column, whose edge is top or bottom and is the nearer of the two |
| Data.CardIndex | src/shared/board.tsx:91 | the card index is -1 exactly when no card has the id, and otherwise is the first card with it |
| Data.ColumnIndex | src/shared/board.tsx:83-85 | the column index is -1 exactly when no column has the id, and otherwise is the first column with it |
| Data.BoardIdsCount | src/shared/board.tsx:157-165 | the board's multiset of card ids has one entry per card |
| Data.BoardIdsSplit | src/shared/board.tsx:157-165 | the board's ids are those of the columns before any one column, that column's and those after it |
| Data.BoardIdsUpdate | src/shared/board.tsx:157-165 | replacing one column swaps that column's ids for the new column's ids in the board's ids |
| BoardDrop.CardDropIgnores | src/shared/board.tsx:72-90 | a card drop leaves the board unchanged when the payload is not card data, when there is no innermost target, when the home column is not found, or when the target is neither a card nor a column |
| BoardDrop.SameColumnCardDrop | src/shared/board.tsx:99-132 | a same-column card-on-card drop is a no-op if either index is -1 or they are equal; otherwise only the home column changes, keeping its id, title and multiset of cards, and the dragged card ends beside the target on its closest-edge side |
| BoardDrop.CrossColumnCardDrop | src/shared/board.tsx:135-167 | a cross-column card-on-card drop with both cards found removes the card from home at its index and inserts the same card into the destination at `indexOfTarget + 1` for a bottom edge, else at `indexOfTarget`; no other column changes |
| BoardDrop.CardDropOnOtherColumn | src/shared/board.tsx:202-224 | a card dropped on another column's body is appended to that column and removed from home; the other cards keep their order and no other column changes |
| BoardDrop.CardDropOnOwnColumn | src/shared/board.tsx:181-200 | a card dropped on its own column's body moves to the last position and the others keep their order; a card missing from home changes nothing |
| BoardDrop.CardDropConservesIds | src/shared/board.tsx:71-226 | whenever the dragged card is in its home column, a card drop keeps the board's multiset of card ids and so its card count |
| BoardDrop.CardDropKeepsIdsUnique | src/shared/board.tsx:71-226 | under the same condition, a board with unique card ids keeps them unique |
| BoardDrop.CardDrop | src/shared/board.tsx:71-226 | the card monitor's `onDrop` as written, with its early returns and two branches; `CardDropIgnores`, `SameColumnCardDrop`, `CrossColumnCardDrop`, `CardDropOnOtherColumn`, `CardDropOnOwnColumn` and `CardDropConservesIds` state what it does |
| BoardDrop.DropOnCard | src/shared/board.tsx:94-168 | the "dropping on a card" branch; `SameColumnCardDrop`, `CrossColumnCardDrop` and `DropOnCardConservesIds` state it |
| BoardDrop.DropOnColumn | src/shared/board.tsx:171-225 | the "dropping onto a column" branch; `CardDropOnOtherColumn`, `CardDropOnOwnColumn` and `DropOnColumnConservesIds` state it |
| BoardDrop.ColumnDrop | src/shared/board.tsx:230-266 | the column monitor's `onDrop`; `ColumnDropMoves` gives its no-op cases, the stable move and the kept ids |
| BoardDrop.MissingHomeCardBreaksConservation | src/shared/board.tsx:150-155 | as written: a dragged card missing from its home column, dropped on a card of another column, removes home's last card and adds the dragged one, so the ids change; the guarded drop leaves the board alone |
| BoardDrop.MissingHomeCardOnColumnBody | src/shared/board.tsx:206-211 | as written: a dragged card missing from its home column, dropped on another column's body, removes home's last card and appends the dragged one, so the ids change; the guarded drop leaves the board alone |
| BoardDrop.MissingTargetCardStillInserts | src/shared/board.tsx:142-155 | as written: a target card missing from the destination still inserts the dragged card, one place before the destination's end |
| BoardDrop.CardDropGuarded | src/shared/board.tsx:142-155 | with the missing existence checks: a stale drop leaves the board unchanged, and every other drop is the handler's |
| BoardDrop.CardDropGuardedConservesIds | src/shared/board.tsx:71-226 | with those checks, every card drop keeps the board's card ids |
| BoardDrop.CardDropGuardedAgrees | src/shared/board.tsx:71-226 | the guarded drop and the handler as written agree whenever the dragged card and any card target are present |
| BoardDrop.ColumnDropMoves | src/shared/board.tsx:230-266 | a column drop is a no-op for a non-column source or target, a missing index or equal indices; otherwise the moved column ends at the destination index, the others keep their relative order, and the card ids are unchanged |
| BoardDrop.ColumnDropExample | src/shared/board.tsx:256-265 | moving the first of four columns onto the third gives columns 2, 3, 1, 4 |
| BoardComponent.BoardView.constructor | src/shared/board.tsx:39-47 | the component starts with the initial board, an empty input and a closed snackbar |
| BoardComponent.BoardView.HandleKeyUp | src/shared/board.tsx:60-63 | the input's text becomes `inputValue` and nothing else changes |
| BoardComponent.BoardView.HandleClose | src/shared/board.tsx:49-58 | unless the close came from a click away, the snackbar's message is cleared and it is hidden |
| BoardComponent.BoardView.OnCardDrop | src/shared/board.tsx:71-226 | the step-by-step handler, with the two missing checks, leaves exactly the board that `CardDropGuarded` computes, keeps the multiset of card ids, and changes nothing else |
| BoardComponent.BoardView.DropOnCardTarget | src/shared/board.tsx:94-168 | the "dropping on a card" branch, run once the home column is found, leaves the board that `CardDropGuarded` computes |
| BoardComponent.BoardView.DropOnColumnTarget | src/shared/board.tsx:171-225 | the "dropping onto a column" branch, run once the home column is found, leaves the board that `CardDropGuarded` computes |
| BoardComponent.BoardView.OnColumnDrop | src/shared/board.tsx:230-266 | the step-by-step handler leaves exactly the board that `ColumnDrop` computes |
| BoardComponent.BoardView.AddColumn | src/shared/board.tsx:377-401 | with five or more columns it shows "You can not have more than 5 columns" and leaves the board unchanged; otherwise it appends one empty column titled with the input's text; at most five columns stay at most five |
| ColumnView.SetIsCardOver | src/shared/column.tsx:127-143 | the next state is card-over with the dragged card's rectangle, over a child card exactly when the innermost target is a card target; an equal current state is kept |
| ColumnView.Step | src/shared/column.tsx:173-215 | the column's state after one event of its header's draggable or its body's drop target; `DragStartAndDrop`, `CardEventsSetCardOver`, `ColumnEnter`, `Leave` and `StepIdempotent` state each transition |
| ColumnView.CanDrop | src/shared/column.tsx:183-185 | the column's `canDrop`; `AcceptedSources` states which payloads it accepts |
| ColumnView.AcceptedSources | src/shared/column.tsx:183-206 | the column accepts exactly card and column drags, and a refused drag would leave its state unchanged on start, enter and target change |
| ColumnView.DragStartAndDrop | src/shared/column.tsx:173-178 | header drag start gives is-dragging; a drop on the header or on the body gives idle |
| ColumnView.CardEventsSetCardOver | src/shared/column.tsx:187-206 | a card's drag start, enter or target change gives card-over, over a child card exactly when the innermost target is a card target |
| ColumnView.ColumnEnter | src/shared/column.tsx:197-199 | another column entering gives column-over, which hides the content; the column entering itself changes nothing |
| ColumnView.HidesContent | src/shared/column.tsx:314 | the column's content is made invisible in the column-over state; `ColumnEnter` says another column entering reaches it |
| ColumnView.Leave | src/shared/column.tsx:207-212 | on leave, the state is kept if the dragged column is this one, and is idle otherwise |
| ColumnView.StepIdempotent | src/shared/column.tsx:137-142 | repeating any event gives the same state as handling it once |
| ColumnView.ShowsTrailingShadow | src/shared/column.tsx:343 | the trailing card shadow is drawn while a card is over the column and not over a child card; `TrailingShadow` ties it to the events |
| ColumnView.TrailingShadow | src/shared/column.tsx:343 | the trailing card shadow shows exactly when a card is over the column and not over one of its cards; after a drop it is gone |
| ColumnView.ColumnObject.constructor | src/shared/column.tsx:85 | the column object holds the given column |
| ColumnView.ColumnObject.AddTask | src/shared/column.tsx:256-277 | exactly one card, with id `value-now` and description `value`, is appended; existing cards, id and title are unchanged |
| ColumnView.ColumnObject.Rename | src/shared/column.tsx:279-282 | the title becomes the given name; id and cards are unchanged |
| ColumnView.ColumnObject.Clear | src/shared/column.tsx:284-287 | the cards become empty; id and title are unchanged |
| CardView.OverProposal | src/shared/card.tsx:144-156 | a hover proposes is-over exactly for a card source other than this card on a target with a closest edge, carrying the source's rectangle and that edge |
| CardView.Step | src/shared/card.tsx:114-190 | the card's state after one event of its draggable or its drop target; `OwnDraggable`, `DraggingOverSelf`, `OtherCardHovering`, `IgnoredHovering`, `LeaveAndDrop` and `StepPreservesValid` state the transitions |
| CardView.OwnDraggable | src/shared/card.tsx:114-134 | the preview render gives the preview state with its container and rectangle, drag start gives is-dragging, and the draggable's drop gives idle |
| CardView.Run | src/shared/card.tsx:129-190 | the state after a sequence of events, one `Step` at a time; `RunPreservesValid` states that it keeps every edge top or bottom |
| CardView.ShadowBefore | src/shared/card.tsx:74-76 | the shadow before the card is drawn in the is-over state with a top edge; `ShadowsExclusive` and `ExactlyOneShadow` constrain it |
| CardView.ShadowAfter | src/shared/card.tsx:92-94 | the shadow after the card is drawn in the is-over state with a bottom edge; `ShadowsExclusive` and `ExactlyOneShadow` constrain it |
| CardView.OuterHidden | src/shared/card.tsx:72 | the card is hidden while it is dragged outside itself; `ShadowsExclusive` and `DraggingOverSelf` constrain it |
| CardView.CardTargetDataIsOwnTarget | src/shared/card.tsx:140-143 | the card's drop-target data always names this card, this column and the top or bottom edge |
| CardView.ShadowsExclusive | src/shared/card.tsx:72-94 | the card never shows both shadows, and shows none while hidden |
| CardView.ExactlyOneShadow | src/shared/card.tsx:74-94 | in a valid is-over state exactly one shadow shows: before the card for top, after it for bottom |
| CardView.StepPreservesValid | src/shared/card.tsx:129-190 | with the card's own target data, every transition keeps every edge top or bottom |
| CardView.RunPreservesValid | src/shared/card.tsx:129-190 | with the card's own target data, any sequence of events keeps every edge top or bottom |
| CardView.DraggingOverSelf | src/shared/card.tsx:144-184 | the dragged card entering or dragging over itself changes nothing, and leaving itself hides the card |
| CardView.OtherCardHovering | src/shared/card.tsx:144-177 | another card hovering with an edge gives is-over with its rectangle and that edge, on enter and on drag alike; the shadow is on that edge's side |
| CardView.IgnoredHovering | src/shared/card.tsx:145-168 | non-card sources and targets without an edge leave the state unchanged on enter and on drag |
| CardView.LeaveAndDrop | src/shared/card.tsx:129-190 | another card leaving gives idle, a non-card leaving changes nothing, and every drop gives idle |
| ListExample.GetCards | src/app/example/list/list.tsx:27-36 | `amount` cards, card `i` at index `i` with id `card:i` and description `Card: i` |
| ListExample.GetCardsDistinctIds | src/app/example/list/list.tsx:27-36 | no two generated cards share an id |
| ListExample.GetCardData | src/app/example/list/list.tsx:95-100 | the list payload is card data and carries the card |
| ListExample.CardDataRoundTrip | src/app/example/list/list.tsx:95-104 | a payload is card data exactly when tagging some card produces it, and then it is the tagging of its own card |
| ListExample.Step | src/app/example/list/list.tsx:116-164 | the list card's state after one drag event; `OwnDraggable`, `HoverTransitions` and `OwnDragNeverHidesText` state its transitions |
| ListExample.OwnDraggable | src/app/example/list/list.tsx:116-164 | the preview render gives the preview state with its container and rectangle, drag start gives is-dragging, and a drop on the draggable or on the target gives idle |
| ListExample.TextInvisible | src/app/example/list/list.tsx:84 | the card's text is invisible in the is-over state; `HoverTransitions` and `OwnDragNeverHidesText` say when that happens |
| ListExample.HoverTransitions | src/app/example/list/list.tsx:143-161 | another card entering gives is-over, which hides the text, and leaving gives idle; the card itself and non-card sources are ignored |
| ListExample.OwnDragNeverHidesText | src/app/example/list/list.tsx:84-164 | the card's own drag events never make its text invisible |
| ListExample.MoveCard | src/app/example/list/list.tsx:209-227 | the updater keeps the length and multiset of cards |
| ListExample.MoveCardPlaces | src/app/example/list/list.tsx:210-226 | the updater returns `current` if either id is missing or the indices are equal; otherwise the dragged card sits at the finish index and the others keep their order |
| ListExample.MoveCardKeepsIds | src/app/example/list/list.tsx:209-227 | the updater keeps the multiset of card ids |
| ListExample.ListDrop | src/app/example/list/list.tsx:190-228 | the drop is ignored for a non-card source, a missing innermost target or a non-card target; otherwise it runs the updater with the two ids |
| SeedData.NumberedCards | src/app/two-columns/page.tsx:9-17 | `amount` cards numbered from `from`, card `k` with id `card:(from+k)` and description `Card (from+k)` |
| SeedData.NumberedCardsSplit | src/app/two-columns/page.tsx:6-23 | two consecutive runs of the shared counter give the cards of one run |
| SeedData.SeedCardIdsDistinct | src/app/two-columns/page.tsx:11-14 | two seed cards share an id exactly when they share a number |
| SeedData.NumberedIdsOnce | src/app/one-column/page.tsx:9-16 | no id occurs twice among the cards numbered by one counter |
| SeedData.CardCounter.GetCards | src/app/two-columns/page.tsx:7-17 | the counter advances by `amount` and the cards are numbered from the counter's old value |
| SeedData.TwoColumnsBoardUnique | src/app/two-columns/page.tsx:20-23 | the two-column board holds 35 cards with distinct ids |
| SeedData.OneColumnBoardUnique | src/app/one-column/page.tsx:20-22 | the one-column board holds 60 cards with distinct ids |
| TwoColumnsPage.GetInitialData | src/app/two-columns/page.tsx:4-28 | the board is `column:a` "Column A" with cards 0 to 29, then `column:b` "Column B" with cards 30 to 34, and its ids are unique |
| OneColumnPage.GetInitialData | src/app/one-column/page.tsx:4-27 | the board is one column `column:a` "Column A" with cards 0 to 59, and its ids are unique |
| SettingsContext.Whole | src/shared/settings-context.tsx:57 | a full settings record, seen as a partial one, has every key present with the record's value |
| SettingsContext.Update | src/shared/settings-context.tsx:46-48 | `update` spreads the partial over the current settings; `UpdateKey`, `UpdateIdempotent`, `UpdateEmpty` and `UpdateWhole` state it |
| SettingsContext.UpdateKey | src/shared/settings-context.tsx:46-48 | after `update(partial)`, every key present in `partial` has the partial's value, and every absent key keeps its old value |
| SettingsContext.Reset | src/shared/settings-context.tsx:13-57 | `reset` gives exactly `defaultSettings` (the constant `DefaultSettings` of settings-context.tsx:13-22): filming, global auto-scroll and both dampenings on, board speed fast, column speed standard, FPS panel and CPU burn off |
| SettingsContext.UpdateIdempotent | src/shared/settings-context.tsx:46-48 | applying the same partial twice gives the same settings as once |
| SettingsContext.UpdateEmpty | src/shared/settings-context.tsx:47 | an empty partial changes nothing |
| SettingsContext.UpdateWhole | src/shared/settings-context.tsx:46-57 | a full record replaces the settings, whatever they were |
| Text.NatToStringInjective | src/app/two-columns/page.tsx:13 | two numbers written as decimal text look alike only when they are equal |
| Text.NatToString | src/app/two-columns/page.tsx:13 | the template literal `${n}` for a count: at least one character, one exactly below ten, ending in the last decimal digit; `NatToStringInjective` makes distinct numbers print differently |

## Left out

- Logging: the `console.log` calls (`board.tsx:62, 183, 202, 394`, `list.tsx:156, 191`, `column.tsx:112, 272`) are not modelled. No state depends on them.
- Auto-scrolling (`board.tsx:268-307`, `column.tsx:217-252`, `list.tsx:230-233`): library calls with geometry, timing and floating-point speeds.
- Board panning (`board.tsx:312-375`): DOM pointer listeners and `scrollBy`.
- Drag previews: DOM cloning, portals and native drag images. The `Preview` states keep the container and rectangle but draw nothing.
- `Date.now()` ids (`board.tsx:380`, `column.tsx:263`): the timestamp's text comes in as the parameter `now`.
- Resetting the input elements' text after adding (`board.tsx:393-396`, `column.tsx:271-274`): DOM side effects.
- React re-rendering and the `key` counters: not modelled. `isShallowEqual` is not part of this model; it is taken as structural equality on the state record.
- The handler closing over `data` (`board.tsx:309`): the board current at the drop is taken as an input.
- `home === destination` is object identity in the source. The model compares column indices. Both indices come from `findIndex`, which gives the first match, so the two columns are the same object exactly when the indices are equal, on every board.
- BoardComponent.BoardView.OnCardDrop, BoardComponent.BoardView.DropOnCardTarget and BoardComponent.BoardView.DropOnColumnTarget: the handler adds the checks `cardIndexInHome !== -1` and `indexOfTarget !== -1` to the cross-column branches (see Findings). Without them it would compute `CardDrop`, which can lose or duplicate a card.
- BoardComponent.BoardView.AddColumn: `tempData.push` mutates the array held in React state before `setData`. The model assigns a new board and does not model that aliasing.
- ColumnView.ColumnObject.AddTask: the source writes the pushed cards into `activeColumn` and reassigns the local `column`, and `activeColumn` aliases the prop. The model updates one column object and does not model that aliasing, or whether the board's own data sees the change.
- ColumnView.ColumnObject.Rename, ColumnView.ColumnObject.Clear: `rename` (`column.tsx:280`) and `clear` (`column.tsx:285`) assign to the `column` prop, which is the board's `data.columns[i]` object. The model updates its own column object and does not model that aliasing.
- ColumnView.ColumnObject.Rename: the column menu is wired to a stub that throws (`column.tsx:328-330`), so `rename` is never called from the display. The model covers the function itself.
- `deleteColumn` (`column.tsx:289-293`) has an empty body, so there is nothing to model.
- The column menu and snackbar rendering, the top bar, navigation, layouts, analytics and the FPS panel: UI only.
- Settings persistence: `localStorage` restore and write, and `JSON.parse` (`settings-context.tsx:34-43, 50`).
- SettingsContext.UpdateKey: a partial record whose key is present but holds `undefined` would overwrite that key with `undefined`. The model's partial record has no such value.
- Settings keys the components read but that `TSettings` does not declare (`isOverElementAutoScrollEnabled`, `isOverflowScrollingEnabled`, `isBoardMoreObvious`): they only drive auto-scroll and styling.
- The scroll-speed options are restricted to fast and standard by the `Speed` datatype, not by a lemma.
- Data.GetCardData: the shown `getCardData` (`data.ts:23-32`) builds only the tag, the card and the column id, so as written the `rect` that `card.tsx:113` passes is dropped, and `column.tsx:133` and `card.tsx:156` store `undefined` where `card.tsx:55` reads `.height`. The model follows the callers: card payloads carry the rectangle.
- Coordinates are integers: `DOMRect` fields and the pointer's distance to an edge are floating point in the source. The model only carries and compares rectangles and only orders distances, so `int` stands in for them.
- The drag-and-drop library: its event dispatch, sticky targets and `canDrop` filtering are not modelled. `reorder`, `reorderWithEdge` and the closest-edge hit test follow the library's documentation, not its code. The hit test takes the pointer's distance to each edge as a function.
- `src/app/board/page.tsx` seeds an empty board, so there is nothing to prove.
- The list column's `useState` holder (`list.tsx:179`) is the input of `ListExample.ListDrop` and is not a class.

## Findings

| source | as written | input that shows it | evidently intended | confidence | as-written member | corrected member |
|---|---|---|---|---|---|---|
| src/shared/board.tsx:150-151 | the card-on-card cross-column branch calls `homeCards.splice(cardIndexInHome, 1)` without checking `cardIndexInHome !== -1`; `splice(-1, 1)` removes the home column's last card | home `column:a` holds `card:1`; the dragged payload names `card:0` in `column:a`; it is dropped on the top edge of `card:2` in `column:b`. Result: `column:a` is empty and `column:b` is `card:0, card:2`, so `card:1` is lost and `card:0` appears | a drag whose card is no longer in its home column leaves the board unchanged | not executed | BoardDrop.MissingHomeCardBreaksConservation | BoardDrop.CardDropGuarded |
| src/shared/board.tsx:142-147 | the card-on-card cross-column branch uses `indexOfTarget` without checking it is not -1; with a top edge, `splice(-1, 0, card)` inserts before the destination's last card | destination `column:b` holds `card:1, card:2`; the target payload names `card:9`, which is not in `column:b`, with a top edge. Result: `column:b` becomes `card:1` followed by the dragged card and then `card:2` | a drop on a card the destination no longer holds leaves the board unchanged | not executed | BoardDrop.MissingTargetCardStillInserts | BoardDrop.CardDropGuarded |
| src/shared/board.tsx:206-207 | the column-body cross-column branch calls `homeCards.splice(cardIndexInHome, 1)` without checking `cardIndexInHome !== -1`, so it too removes the home column's last card | home `column:a` holds `card:1`, `column:b` is empty; the dragged payload names `card:0` in `column:a`; it is dropped on the body of `column:b`. Result: `column:a` is empty and `column:b` is `card:0`, so `card:1` is lost and `card:0` appears | a drag whose card is no longer in its home column leaves the board unchanged | not executed | BoardDrop.MissingHomeCardOnColumnBody | BoardDrop.CardDropGuarded |
