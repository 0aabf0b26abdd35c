# Card grid demo: a Dafny model

This project models the logic of a browser demo that shows a grid of
flippable, draggable cards in a 3D scene. The model has two components.

- The **grid controller** (`src/components/CardGrid.tsx`) owns the list of cards.
  It picks the grid shape from the window width. It builds the initial list row by row,
  with ids 0, 1, 2, … and the content list cycled. On resize and on reset it moves every
  card to the slot of its list index. When a card is dropped, it swaps that card's
  position with the nearest other card if that card is closer than 2.0.
- The **card view** (`src/components/Card.tsx`) keeps each card's own state: which face
  is shown, whether a drag is running, and where the mesh is displayed. A click flips the
  card unless it is being dragged. A new reset token turns the card to its front. A drag
  moves the card by the pointer movement times a zoom-dependent factor, lifts it to z = 1,
  and on release reports `[x, y, 0]` to the controller.

Files:

- `wrappers.dfy`: `Option`.
- `grid_layout.dfy`: module `GridLayout`. Grid shape, slot formula, and the centring and
  injectivity lemmas.
- `card_grid.dfy`: module `CardGrid`. Card records, the initialising loop, relayout, the
  nearest-card scan, swap-on-drop, and the `Grid` class.
- `card.dfy`: module `Card`. Zoom and drag factors, and the `CardView` class.
- `scene.dfy`: module `Scene`. The controller and the views wired together. A render of
  the controller hands view `i` the position of card `i` and the reset token; a view's
  release reports the drop to the controller, which then renders again.

Modelling choices:

- Positions are `real`.
- The nearest-card search compares squared XY distances, and the swap test is
  `d² < 4.0`. Both are equivalent to the source's `Math.sqrt` comparisons, because
  distances are non-negative.
- The scan starts with `minDistance = Infinity`. The model flags this as "no other card
  seen yet" (`found == false`).
- The window width, the canvas size and the content list are parameters.
- Animations (GSAP tweens) are modelled by the value they aim at. A flip stores its target
  rotation. A tween that moves the mesh is taken at its end state.
- The drag library's `memo` is the `memo` field. It is taken from the mesh position at the
  first event of a gesture and dropped when the gesture ends.
- React state updates are synchronous assignments.

Behaviour of the code worth noting:

- The grid shape depends only on `window.innerWidth` (`CardGrid.tsx:48-56`), while
  `ResponsiveCamera` (`CardGrid.tsx:17-40`) and the drag zoom (`Card.tsx:122-130`) use the
  smaller of the canvas width and height.
- When no card is within 2.0, the list is returned unchanged. The drop position is stored
  nowhere, so it does not become the dragged card's position (`CardGrid.tsx:143-159`).
- Reset does not re-create cards. It maps over the list, so ids and content stay at their
  indices (`CardGrid.tsx:168-181`).

## Model

| member | source | states |
|---|---|---|
| GridLayout.GridDimensions | src/components/CardGrid.tsx:48-56 | 5 rows × 2 columns exactly when the width is below 800, otherwise 2 × 5; the `< 500` test adds nothing; always 10 slots |
| GridLayout.SlotPosition | src/components/CardGrid.tsx:72-74 | every slot lies in the plane z = 0; its meaning is fixed by SlotPositionInjective, ColumnsCentred and RowsCentred |
| GridLayout.LayoutAt | src/components/CardGrid.tsx:96-102 | a list index within the grid is laid out at one of the grid's slots (row `index / cols`, column `index % cols`); LayoutInjective gives distinct slots to distinct indices |
| GridLayout.SlotPositionInjective | src/components/CardGrid.tsx:72-73 | slots with different row or column have different positions |
| GridLayout.SlotOfIndex | src/components/CardGrid.tsx:65-81 | the card pushed at (row, col) has index row·cols + col, and that index maps back to (row, col) under `floor(index / cols)`, `index % cols` |
| GridLayout.LayoutInjective | src/components/CardGrid.tsx:96-102 | two different list indices are laid out at different positions |
| GridLayout.ColumnsCentred | src/components/CardGrid.tsx:72 | the x coordinates of all columns sum to 0 (horizontal centring) |
| GridLayout.RowsCentred | src/components/CardGrid.tsx:73 | the y coordinates of all rows sum to 0 (vertical centring) |
| GridLayout.DesktopScenario | src/components/CardGrid.tsx:48-56 | at width 1200 the grid is 2 × 5 with columns at x = −10 … 10 and rows at y = 3.5 and −3.5 |
| CardGrid.InitialCards | src/components/CardGrid.tsx:59-86 | builds rows·cols cards; card k has id k, the slot of index k, and the content of item k mod (content length) |
| CardGrid.Relayout | src/components/CardGrid.tsx:94-106 | same length; each card keeps id and content and gets the slot of its own index |
| CardGrid.RelayoutIdempotent | src/components/CardGrid.tsx:168-180 | laying out twice equals laying out once |
| CardGrid.RelayoutKeepsGridOrder | src/components/CardGrid.tsx:65-81 | a list whose cards sit at the slots of their indices, as the initial list does, is left unchanged by relayout |
| CardGrid.SlotPermutationLiesFlat | src/components/CardGrid.tsx:100-104 | cards whose positions are a permutation of grid slots all have z = 0 |
| CardGrid.DistanceSquared | src/components/CardGrid.tsx:131-134 | the squared XY distance is never negative |
| CardGrid.NearestAmong | src/components/CardGrid.tsx:125-140 | the scan finds a card exactly when another card exists; that card is the nearest one other than the dragged card, and the lowest-index card at that distance |
| CardGrid.Nearest | src/components/CardGrid.tsx:125-140 | the scan over the whole list finds a card exactly when there is another card, and that card is the nearest one, first at its distance |
| CardGrid.NearestIsUnique | src/components/CardGrid.tsx:136-139 | with the strict `<`, the nearest card is unique: ties go to the earlier index |
| CardGrid.SwapPartner | src/components/CardGrid.tsx:143 | a partner, when there is one, is the nearest other card and lies strictly closer than 2.0 to the drop point |
| CardGrid.ExchangePositions | src/components/CardGrid.tsx:145-156 | the two cards' positions are exchanged; ids and content stay; every other card is unchanged |
| CardGrid.SwapOnDrop | src/components/CardGrid.tsx:118-159 | a drop keeps the length and every card's id and content, and changes a card other than the dragged one only when that card is the swap partner; SwapExchanges, NoSwapWhenFar, SwapPartnerExists and SwapOnDropPermutesPositions give the rest |
| CardGrid.SwapPartnerExists | src/components/CardGrid.tsx:143 | a swap happens exactly when some other card is strictly closer than 2.0 to the drop point |
| CardGrid.SwapExchanges | src/components/CardGrid.tsx:143-157 | the dragged card and the nearest card exchange their positions from before the drop, whatever the drop point; every other card is unchanged |
| CardGrid.NoSwapWhenFar | src/components/CardGrid.tsx:143-159 | if every other card is at distance ≥ 2.0 (2.0 included), or there is no other card, the list is returned unchanged |
| CardGrid.SwapOnDropPermutesPositions | src/components/CardGrid.tsx:145-157 | a drop keeps the length and every card's id and content, and only permutes the positions |
| CardGrid.SwapScenario | src/components/CardGrid.tsx:143-157 | dropping the card from (0,0) at (4.9, 0) next to a card at (5, 0) swaps the two |
| CardGrid.BoundaryScenario | src/components/CardGrid.tsx:143 | a drop exactly 2.0 from the nearest card does not swap |
| CardGrid.HandleDrop | src/components/CardGrid.tsx:118-159 | the array copy, `forEach` scan and in-place swap give exactly `SwapOnDrop` of the previous list |
| CardGrid.PlacedIsUnique | src/components/CardGrid.tsx:69-80 | id, slot and content item determine a card completely |
| CardGrid.Grid.constructor | src/components/CardGrid.tsx:46-86 | the mounted controller holds the initial list for the current width, and the reset token is 0 |
| CardGrid.Grid.HandleResize | src/components/CardGrid.tsx:89-107 | the cards are relaid for the new width; the token is unchanged; ids, content and the slot permutation invariant are kept |
| CardGrid.Grid.ResetCards | src/components/CardGrid.tsx:164-185 | the cards are relaid, which rebuilds exactly the initial list for the width; the token goes up by exactly 1 |
| CardGrid.SwapOnDropKeepsWellFormed | src/components/CardGrid.tsx:145-157 | a drop keeps the controller's invariant: ten cards, card `i` with id `i` and its cycled content, positions a permutation of the slots |
| CardGrid.Grid.HandleCardPositionChange | src/components/CardGrid.tsx:114-161 | the list becomes `SwapOnDrop` of the old list; the invariant is kept |
| CardGrid.ResetRestoresInitialList | src/components/CardGrid.tsx:164-185 | after a mount, a drop and a reset at any width, the list is exactly the initial list a controller mounted at the reset's width builds (CardGrid.tsx:59-86) |
| CardGrid.Grid.RestingCardsLieFlat | src/components/CardGrid.tsx:100-104 | every card the controller holds has z = 0 |
| Card.ZoomFactor | src/components/Card.tsx:122-130 | 0.4 exactly when the smaller canvas side is below 500, 0.55 exactly when it is in [500, 800), 1 exactly when it is 800 or more |
| Card.ZoomFactorMonotone | src/components/Card.tsx:125-130 | a larger canvas never gets a smaller zoom factor |
| Card.DragFactor | src/components/Card.tsx:121-134 | the drag factor `(viewport.width / size.width) · (40 / (40 · zoomFactor))` equals the world width per pixel divided by the zoom factor of the smaller canvas side |
| Card.CardView.constructor | src/components/Card.tsx:35-38 | a new view is front-facing, not dragged, not hovered, and shown at its given position |
| Card.CardView.RenderedFace | src/components/Card.tsx:191-229 | exactly one face is rendered: the front iff the card is not flipped |
| Card.CardView.HandleFlip | src/components/Card.tsx:92-107 | while dragging, nothing changes; otherwise the face toggles and the rotation target is π when the card turns to its back and 0 when it turns to its front |
| Card.CardView.SetResetFlip | src/components/Card.tsx:62-73 | a changed, defined token turns the card to its front with rotation 0 from any state; an unchanged or undefined one leaves the face alone |
| Card.CardView.PointerOver | src/components/Card.tsx:182 | the card is hovered |
| Card.CardView.PointerOut | src/components/Card.tsx:183 | the card is not hovered |
| Card.CardView.SetPosition | src/components/Card.tsx:164-175 | a new position from the controller moves the mesh unless a drag is running |
| Card.CardView.OnDrag | src/components/Card.tsx:110-162 | after each event `isDragging` equals `active`; while active, the mesh is at `(memo.x + x·factor, memo.y − y·factor, 1)`; on release, the drop reported once is `(cardIndex, [x, y, 0])` |
| Card.ClickTwice | src/components/Card.tsx:92-107 | two clicks on a card that is not being dragged restore its face and its rotation |
| Scene.Render | src/components/CardGrid.tsx:211-222 | every view holds the position of its card and the token; a view not being dragged moves its mesh there; the drag state, memo and hover of every view are unchanged, and a dragged view's mesh stays put |
| Scene.ReportDrop | src/components/Card.tsx:141-146 | the view's drag ends and the controller's list becomes `SwapOnDrop` at the view's displayed x, y with z = 0; the token and the layout are unchanged |
| Scene.EndDrag | src/components/Card.tsx:139-175 | a released drag leaves the controller's list as `SwapOnDrop` at the view's displayed x, y with z = 0, keeps the token and the layout, and after the re-render every view holds its card's position; the dropped view is no longer dragged and rests at its card's new slot |
| Scene.ResetAll | src/components/CardGrid.tsx:164-185 | after reset every card is at its initial slot, the token is one higher, and after the re-render every view shows its front with rotation 0, keeps its drag state, drag start point and hover state; a view not being dragged rests at its relaid slot, and a dragged view's mesh stays under the pointer |

## Left out

- `ResponsiveCamera` (camera zoom 0.5 / 0.55 / 1): it only sets a property on a three.js camera.
- JSX, styling, mesh geometry, `Html` overlays, `zIndexRange`, `Environment`: presentation only. This includes the `position={position}` prop on the mesh (`Card.tsx:179`), which react-three-fiber applies to the mesh on every re-render, even during a drag. The model follows only the position effect (`Card.tsx:165-175`), which leaves a dragged card's mesh where the pointer put it.
- GSAP tweens: their durations, easing and intermediate frames, the hover scale (1 vs 1.05), and the initial 0.8 scale. Only the values the tweens aim at are modelled.
- The drag library's internals: `filterTaps`, and how it produces `active` and `movement`. Drag events are inputs.
- The `initialPosition` ref in Card: it is written but never read.
- Registering and removing the resize listener. `Grid.HandleResize` is the handler it calls.
- React batching and stale closures. State updates are synchronous assignments.
- IEEE floating point: rounding, `Infinity` and `NaN`. `Math.sqrt` is replaced by the squared-distance comparison.
- The contents of the content list: it is a parameter that must be non-empty. With an empty list, the source's `cardId % cardData.length` is `NaN`.
- Card.CardView.OnDrag: requires a canvas of positive width for an event while the drag is active; a release divides by nothing. With width 0 during a drag the source divides by zero and moves the card to an infinite or `NaN` position, which `real` cannot represent.
- CardGrid.HandleDrop: requires `cardIndex` to be a list index. The source's only caller passes the index from its `map`; any other index would read `undefined`.
- Scene.EndDrag: does not restate, across the drop and the re-render together, that every view's face, rotation and hover state and the other views' drag state stay as they were. Scene.ReportDrop and Scene.Render each state what they leave unchanged; composing both frames in one contract is beyond what the verifier proves within its resource limit.
- The release tween at `Card.tsx:148-155` aims at the pre-drop `position` prop and is superseded by the re-render's tween to the new one; only the re-render's end state is modelled.
- Scene.ResetAll: requires the views to be distinct objects, each holding the controller's current token, as one view per card in the same render has.
