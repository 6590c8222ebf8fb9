# Canvas app state: pointer status machine, shape table and camera

A model of the application-state hook of a small canvas demo built on a
third-party renderer. The hook owns one page of rectangles, the selection,
the hovered shape, the viewport camera and a pointer status
(`idle`, `pointing`, `dragging`) that tells a click from a drag. The
renderer delivers events (pan, pinch, point a shape, point the canvas,
pointer move, pointer up, hover, unhover, shape changed) and each handler
updates that state.

The project has five modules:

- `Wrappers` (wrappers.dfy): `Option`.
- `Vectors` (vectors.dfy): 2-vectors over exact reals and the component-wise
  add, subtract, scale and divide that the vector helper library provides.
- `Viewport` (viewport.dfy): the camera, `ScreenToPage`, `Clamp`, and the pan
  and pinch arithmetic as pure functions, with their properties: the zoom
  stays in [0.15, 5]; a pan can be undone; the page point under the pinch
  point is fixed up to the pan part of the delta; a zero pinch is a no-op.
- `Shapes` (shapes.dfy): the rectangle record and the partial record of an
  external change. Also the field merge, the drag step over the selection
  (`MoveAll`) and the rectangle a canvas click creates.
- `AppState` (app_state.dfy): class `App`. Its fields are the state: `status`,
  `shapes`, `selectedIds`, `hoveredId` and `camera`. It has one method per
  handler, each with `modifies this` and a contract that gives the whole new
  state in terms of the old. `Valid()` is the invariant every handler keeps:
  the zoom is in range, the selection repeats no id, and every shape is
  stored under its own id. Client methods and lemmas play through the
  scenarios: drag a shape, click the fresh page, pinch the fresh camera.

JavaScript numbers are modelled as exact `real`s. The model follows the
code in three places where a reader might expect otherwise:

- `selectedIds` is a sequence, as in the code, not a set.
- A shape-point moves the status to `pointing` from any status, not only
  from `idle`.
- A pointer-up does not clear the selection.

## Model

| member | source | states |
|---|---|---|
| `Viewport.InitialCamera` | src/useAppState.tsx:55-58 | the starting camera has its zoom in [0.15, 5] |
| `Viewport.ScreenToPageRoundTrip` | src/useAppState.tsx:21-23 | mapping a screen point to the page and back gives the screen point again |
| `Viewport.PageToScreenRoundTrip` | src/useAppState.tsx:21-23 | every page point is the screen-to-page image of its screen point |
| `Viewport.Clamp` | src/useAppState.tsx:25-27 | with lo <= hi the result lies in [lo, hi]; an in-range value is returned unchanged; below lo gives lo; above hi gives hi |
| `Viewport.Pan` | src/useAppState.tsx:66-73 | the zoom is kept and the new offset plus delta/zoom is the old offset |
| `Viewport.PanShiftsView` | src/useAppState.tsx:66-73 | after a pan the page point under every screen point has moved by delta/zoom |
| `Viewport.PanUndo` | src/useAppState.tsx:66-73 | panning by d and then by -d restores the camera |
| `Viewport.PinchZoom` | src/useAppState.tsx:89-94 | the next zoom always lies in [0.15, 5]; a zero zoom delta on an in-range zoom keeps it; zooming out never raises the zoom above the old one unless it is clamped up to 0.15 |
| `Viewport.Pinch` | src/useAppState.tsx:83-110 | the new camera's zoom is the clamped pinch zoom, in [0.15, 5]; a pinch with delta (0, 0, 0) on an in-range camera leaves the camera unchanged |
| `Viewport.PinchKeepsFocalPoint` | src/useAppState.tsx:96-106 | the page point under the pinch point after the pinch is the one before plus the pan part of the delta over the old zoom |
| `Viewport.PinchWithoutPanIsStationary` | src/useAppState.tsx:96-106 | with no pan component the pinch point stays over the same page point |
| `Viewport.PinchAtOriginWithoutPan` | src/useAppState.tsx:90-110 | a pinch at the screen origin with no pan component keeps the offset and changes only the zoom |
| `Shapes.Merge` | src/useAppState.tsx:210 | the merged shape carries the patch's id, and every field the patch carries overwrites the shape's |
| `Shapes.MergeKeepsAbsentFields` | src/useAppState.tsx:210 | every field the patch does not carry keeps its value |
| `Shapes.MergeFullPatch` | src/useAppState.tsx:210 | a patch that carries every field of t turns any shape into t |
| `Shapes.MergeEmptyPatch` | src/useAppState.tsx:210 | a patch with no fields under the shape's own id changes nothing |
| `Shapes.MergeIdempotent` | src/useAppState.tsx:210 | merging a patch twice is merging it once |
| `Shapes.MergeNoOpIff` | src/useAppState.tsx:210 | a merge leaves the shape as it was if and only if the patch agrees with the shape on its id and every field it carries |
| `Shapes.Translate` | src/useAppState.tsx:171-174 | only the point changes, and it moves by exactly delta |
| `Shapes.MoveAll` | src/useAppState.tsx:170-175 | the drag step succeeds exactly when every selected id names a shape; it keeps the set of ids and keeps every shape under its own id |
| `Shapes.MoveAllMovesSelected` | src/useAppState.tsx:170-175 | with every id present and none repeated, each selected shape moves by delta once and every other shape is unchanged |
| `Shapes.MoveSingle` | src/useAppState.tsx:170-175 | with one selected shape, only that shape moves, by delta |
| `Shapes.NewRectangle` | src/useAppState.tsx:133-149 | the created rectangle is 100 by 100, unrotated, has the given id and draw order, and is centred on the click's page point under the camera it reads; mapped back to the screen its centre is the click |
| `Shapes.SeedShape` | src/useAppState.tsx:38-48 | the page starts with rectangle rect1 at the origin, 100 by 100 |
| `AppState.App.constructor` | src/useAppState.tsx:31-60 | initial state: idle, one seed shape, nothing selected or hovered, initial camera; the invariant holds |
| `AppState.App.HandlePan` | src/useAppState.tsx:63-77 | the camera becomes Pan of the old camera; status, shapes, selection and hover are unchanged |
| `AppState.App.HandlePinch` | src/useAppState.tsx:80-114 | the camera becomes Pinch of the old camera, both fields in one update; the zoom stays in range; nothing else changes |
| `AppState.App.HandleShapePoint` | src/useAppState.tsx:117-126 | status becomes pointing from any status and the selection becomes exactly the target; shapes, camera and hover are unchanged |
| `AppState.App.HandleCanvasPoint` | src/useAppState.tsx:129-159 | empty selection: exactly the new rectangle is added (one more shape when the id is fresh), status and selection unchanged; otherwise the selection is cleared, status becomes idle and no shape changes; camera and hover never change |
| `AppState.App.HandleCanvasPointLive` | src/useAppState.tsx:132-151 | corrected click: the new rectangle is centred under the click for the live camera and its draw order is the number of shapes before it |
| `AppState.App.HandlePointerMove` | src/useAppState.tsx:162-180 | pointing becomes dragging, idle stays idle; while dragging the shapes become MoveAll of the selection, or stay unchanged when a selected id is missing; selection, camera and hover are unchanged |
| `AppState.App.HandlePointerUp` | src/useAppState.tsx:182-184 | status becomes idle from any status; selection, shapes, camera and hover are unchanged |
| `AppState.App.HandleShapeHover` | src/useAppState.tsx:186-195 | the hovered id becomes the target; nothing else changes |
| `AppState.App.HandleShapeUnhover` | src/useAppState.tsx:197-204 | the hovered id is cleared; nothing else changes |
| `AppState.App.HandleShapeChange` | src/useAppState.tsx:206-214 | the shape with the patch's id becomes the merge of it with the patch and every other shape is unchanged; an unknown id changes nothing |
| `AppState.DragShape` | src/useAppState.tsx:117-184 | shape-point, move by d, pointer-up: the target ends at its old point plus d, all other shapes are unchanged, the status is idle, the target stays selected, and the camera and hovered id are unchanged |
| `AppState.ClickOnFreshPage` | src/useAppState.tsx:33-159 | on the fresh page a click at (200, 200) creates a rectangle at (150, 150) with draw order 1, giving two shapes |
| `AppState.PinchAtOriginOnInitialCamera` | src/useAppState.tsx:90-110 | a pinch at (0, 0) with delta (0, 0, 0.2) on the initial camera gives zoom 0.9 and offset (0, 0) |
| `AppState.HandleCanvasPointAsWired` | src/useAppState.tsx:129-159 | the click handler as wired reads the initial camera and a count of one shape, whatever the live state: with an empty selection it adds that rectangle and keeps status and selection; otherwise it clears the selection, sets idle and keeps the shapes; camera and hovered id never change |
| `AppState.PageUnderClickAfterPan` | src/useAppState.tsx:63-77 | after a pan by (-100, 0) from the initial camera, the screen point (200, 200) is over page point (100, 200) |
| `AppState.StaleSnapshotMisplacesShape` | src/useAppState.tsx:133-145 | read against the initial snapshot, a click at (200, 200) centres the new rectangle on page point (200, 200) whatever the live camera, and gives it the seed's draw order 1 |

## Findings

| source | as written | input that shows it | evidently intended | confidence | as-written member | corrected member |
|---|---|---|---|---|---|---|
| src/useAppState.tsx:133-158 | the canvas-click handler reads the camera and the shape count from the `state` it closed over. Its dependency list is `[setState]`, so it keeps the first render's state: camera (0, 0) at zoom 1, and one shape | pan by (-100, 0), then click the empty canvas at (200, 200). The rectangle is centred on page point (200, 200), not on (100, 200) under the cursor. Every later rectangle gets draw order 1, the seed's | centre the rectangle on the click under the live camera, with draw order equal to the live shape count | medium, not executed | `AppState.StaleSnapshotMisplacesShape` | `AppState.App.HandleCanvasPointLive` |

`AppState.HandleCanvasPointAsWired` models the handler as wired. It calls
`App.HandleCanvasPoint` with the initial snapshot. `App.HandleCanvasPoint`
takes the snapshot camera and count as parameters, so both forms are stated.
The scenario `ClickOnFreshPage` uses the corrected handler.

## Left out

- React and immer plumbing is not modelled: memoised callbacks, refs, copy-on-write drafts and `stopPropagation`. Each handler is an in-place update of the `App` object. A handler whose draft update fails leaves the state exactly as before.
- Looking up a missing id raises a TypeError in the source. The model does not raise it. The update is dropped instead: `HandlePointerMove` still changes the status, which the source sets outside the update, and `HandleShapeChange` changes nothing.
- AppState.App.HandleShapeHover: applies the hover at once. The source defers it with a zero-delay timer, and that event-loop ordering is not modelled.
- New shape ids come from the clock in the source. Here the id is a parameter, `newId`. A colliding id replaces the existing shape, as the source's map write would.
- IEEE-754 doubles are not modelled; all arithmetic is on exact reals. `ScreenToPage`, `Pan` and `Pinch` require a nonzero zoom. The camera invariant (zoom in [0.15, 5], starting at 1) meets this for every camera the handlers produce. Division by zero is never modelled.
- The vector helper library is replaced by component-wise operations on x and y. A pinch delta's z is used only for the zoom.
- The renderer, the shape utilities, the bindings map and the page and page-state ids are not part of this model. Shape fields other than the rectangle's are also out.
- A patch field explicitly set to `undefined` is not modelled. Such a field is copied by the source and treated here as absent.
- The app component that wires the handlers into the renderer is UI composition and is not modelled.
- The dark-mode theme toggle is UI styling with no domain logic and is not modelled.
