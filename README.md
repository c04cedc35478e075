# Canvas image editor: state model

A model of the editor behind a small browser meme/canvas editor (src/App.js). The `App` component
holds the editor state:

- three parallel sequences: the chosen image files, their positions and their sizes;
- a canvas-level drag: the index of the item being dragged (or none) and the last pointer point.

Its event handlers change that state. `handleFileChange` appends files with default positions
and sizes. `moveImageOnCanvas`, `resizeImage` and `removeImage` replace or delete one index.
`handleMouseDown`, `handleMouseMove` and `handleMouseUp` form a drag state machine over a
hit-test on the items' closed bounding boxes.

The project has three modules:

- `Canvas` (canvas.dfy): points, sizes and the opaque file contents. It also has the three pure
  list operations the handlers use: `Fill` (the `files.map(() => default)` of a file selection),
  `Filtered` (the `filter((_, i) => i !== index)` of a removal) and `HitIndex` (the `findIndex`
  hit-test). Each is characterised by its postconditions or by lemmas.
- `Transitions` (transitions.dfy): the whole state as one value `EditorState`, with one pure
  transition per handler. `Event`, `Step` and `Run` describe a sequence of events delivered by
  the component's markup. The lemmas cover removal, drag accumulation, and the invariants kept
  over any event sequence.
- `Component` (app.dfy): class `App`, whose fields are the five pieces of state. Its methods
  update them in place, copying a sequence and assigning one index as the source does. Each
  method's postcondition ties the new `State()` to the transition of the old one.

Positions, sizes and pointer coordinates are integers. The pointer coordinates given to the mouse
methods are already relative to the canvas. Each handler is one atomic step on the current
state.

The model follows the code as written, including these behaviours:

- The react-dnd hover callback writes the dragged item's own recorded position back to the
  dragged item's own index. It never writes the hovered item's slot (`Transitions.Hover`).
- `moveImageOnCanvas` and `resizeImage` do not check the index. In JavaScript an index past the
  end would grow the array, so the model requires an existing index.
- `resizeImage` stores any size. The [50, 300] limit belongs to the resize widget, so it is a
  precondition only on the widget's callback (`Component.App.HandleResize`).
- A removal does not end or adjust a canvas drag. What the next canvas mouse move does depends
  on where the removed index lies relative to the drag index. If the drag index is now at or past
  the end, the move reads the position of an item that no longer exists and throws
  (`Transitions.StaleDragAfterRemove`). `handleMouseMove` therefore requires a drag target that
  exists. If the removed index is at or below the drag index and the drag index still names an
  item, the move silently drags the item that shifted into that index
  (`Transitions.WrongItemDraggedAfterRemove`). Removing a later item has no effect on the drag.
- The mouse-up handler is attached to the canvas only. A release elsewhere leaves the drag on.
- Each item is drawn as an absolutely positioned overlay above the canvas (src/App.js:35-41), so a
  press inside an item's overlay never reaches the canvas handler. Only presses on the closed
  right or bottom edge of a box, or outside every box, reach the hit test. The model does not
  route events; it lets a canvas press arrive at any point.

## Model

| member | source | states |
|---|---|---|
| Canvas.Fill | src/App.js:95-98 | the mapped selection has one entry per file, every one equal to the given default |
| Canvas.Filtered | src/App.js:109-111 | filtering out an index shortens the sequence by one exactly when the index names an element, and otherwise keeps its length |
| Canvas.FilteredDeletes | src/App.js:109-111 | the filter equals deleting the element at an in-range index (all others kept, in order), and equals the identity for an out-of-range index |
| Canvas.HitIndex | src/App.js:128-134 | the result is -1 or an item whose closed box contains the point; no item before it (none at all when -1) contains the point, so the lowest index wins overlaps |
| Canvas.HitIgnoresLaterItems | src/App.js:128-134 | appending items never takes a hit away from an earlier item; a miss among the old items can only become a hit on a new one |
| Transitions.FileChange | src/App.js:91-100 | files are appended in order with position (0,0) and size 100x100 each; earlier entries and the drag state are unchanged; alignment is kept; an empty selection changes nothing |
| Transitions.MoveImage | src/App.js:102-106 | for an existing index the position there becomes the given one, and every other position, all images and sizes and the drag state are unchanged |
| Transitions.Remove | src/App.js:108-112 | the three sequences stay aligned, shrink by one for an existing index, and the drag state is untouched |
| Transitions.RemoveDeletesIndex | src/App.js:108-112 | removing an existing index deletes that index from all three sequences, keeping the rest in order; an index naming no item changes nothing |
| Transitions.Resize | src/App.js:114-120 | for an existing index the size there becomes the given size (unclamped); other sizes, all positions and images and the drag state are unchanged |
| Transitions.Hover | src/App.js:23-26 | the hovered item's position is never changed; when another item is dragged over it, the dragged item's index gets its recorded position and nothing else changes; hovering over itself changes nothing |
| Transitions.MouseDown | src/App.js:122-140 | a press on some item starts a drag of the lowest-index item under the point and records the press point; a press on no item changes nothing; the sequences never change |
| Transitions.MouseMove | src/App.js:142-163 | while dragging, the dragged item moves by the pointer's displacement from the last point, others stay, and the pointer becomes the new reference; with no drag nothing changes |
| Transitions.MouseUp | src/App.js:165-167 | the drag ends and the sequences and the last pointer point are unchanged |
| Transitions.DragAccumulates | src/App.js:142-163 | over any run of moves, the dragged item is displaced by the last pointer minus the drag's starting point, no other item moves, and the last pointer is the new reference; with no drag nothing changes |
| Transitions.DragExample | src/App.js:122-163 | an item at (100,50) of size 100x100, pressed at (120,80) and dragged to (140,95), ends at (120,65) |
| Transitions.Step | src/App.js:200-228 | every handler keeps the three sequences aligned |
| Transitions.StepKeepsInvariants | src/App.js:91-120 | every handler keeps the sequences aligned and, given the widget's limits, every size within [50,300] |
| Transitions.RunKeepsInvariants | src/App.js:200-228 | from an aligned state with sizes in range (the initial state is one), every sequence of events the handlers can handle ends aligned with every size in [50,300] |
| Transitions.StaleDragAfterRemove | src/App.js:142-158 | pressing on the only item and removing it before a canvas mouse-up leaves a drag that names no item, so the next canvas mouse move cannot be handled |
| Transitions.WrongItemDraggedAfterRemove | src/App.js:108-158 | pressing on the first of two items and removing it before a canvas mouse-up makes the next mouse move drag the second item, which shifted into index 0 |
| Component.App.constructor | src/App.js:84-88 | the editor starts with no images and no drag, with the drag reference at the origin |
| Component.App.HandleFileChange | src/App.js:91-100 | the fields become the file-change transition of the old state, still aligned |
| Component.App.MoveImageOnCanvas | src/App.js:102-106 | the fields become the move transition of the old state, still aligned |
| Component.App.RemoveImage | src/App.js:108-112 | the fields become the removal transition of the old state, still aligned |
| Component.App.ResizeImage | src/App.js:114-120 | the fields become the resize transition of the old state, still aligned |
| Component.App.HandleResize | src/App.js:30-32 | a widget-reported size in [50,300] is stored unchanged, and sizes that were all in range stay in range |
| Component.App.ImageItemHover | src/App.js:21-28 | the fields become the hover transition of the old state, still aligned |
| Component.App.HandleMouseDown | src/App.js:122-140 | the fields become the mouse-down transition of the old state |
| Component.App.HandleMouseMove | src/App.js:142-163 | the fields become the mouse-move transition of the old state, given a drag target that exists |
| Component.App.HandleMouseUp | src/App.js:165-167 | the fields become the mouse-up transition of the old state |
| Component.App.Dispatch | src/App.js:200-228 | an event delivered to its handler changes the fields exactly as Step describes |

## Left out

- Rendering: the JSX, styling, the `isHovered` state, opacity, and when the resize handle and Remove button are visible. None of it changes editor state.
- The canvas redraw effect (src/App.js:177-195). It is browser 2D drawing driven by asynchronous image decoding, so its draw order depends on when decoding finishes.
- `downloadCanvas` and the PNG export, because they are browser I/O.
- `getBoundingClientRect` is browser I/O; the mouse methods take canvas-relative coordinates as inputs instead.
- react-dnd's drag and drop machinery and `DndProvider`, because they are library behaviour. Only the hover callback is modelled, as a call to `moveImageOnCanvas`. The drag `end` callback calls a no-op `setDragging` and is not modelled.
- The resize widget's own mechanics. Its [50, 300] limits appear only as a precondition on the sizes it reports.
- Floating-point coordinates; the model uses integers.
- React's state batching and stale closures. For example, `moveImageOnCanvas` builds its copy from the positions captured at render time. Each handler is instead modelled as an atomic step on the current state.
- The page bootstrap in src/index.js, because it is not editor logic.
- Component.App.HandleMouseMove: requires that the dragged index still names an item. The source throws in that case, and the model does not describe what happens after the exception.
- Component.App.MoveImageOnCanvas: requires an existing index. With an index at or past the end, the source would extend the positions array and break alignment; that behaviour is not modelled.
- Component.App.ResizeImage: requires an existing index, for the same reason as MoveImageOnCanvas.
