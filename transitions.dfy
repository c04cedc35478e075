/** The `App` component's editor state as a value, and each of its event handlers as a pure
    transition on that value (src/App.js:83-167). The class in module Component performs the same
    transitions in place; the lemmas here are what those transitions guarantee. */
module Transitions {
  import opened Canvas

  /** What react-dnd carries while an item is dragged: the item's index and its position as it was
      when the drag began (src/App.js:12). */
  datatype DragItem = DragItem(index: nat, position: Point)

  /** The five pieces of `useState` state of `App`: three parallel sequences, the index of the item
      dragged on the canvas (`null` as None) and the last pointer position of that drag. */
  datatype EditorState = EditorState(
    images: seq<Blob>,
    imagePositions: seq<Point>,
    imageSizes: seq<Size>,
    draggingIndex: Option<nat>,
    dragStart: Point)

  /** The state `App` mounts with. */
  const Initial: EditorState := EditorState([], [], [], None, Origin)

  /** Index i of each sequence describes the same image. */
  predicate Aligned(s: EditorState)
  {
    |s.images| == |s.imagePositions| == |s.imageSizes|
  }

  /** A canvas drag, if any, still names an existing item. A removal can break this. */
  predicate DragTargetValid(s: EditorState)
  {
    s.draggingIndex.Some? ==> s.draggingIndex.value < |s.imagePositions|
  }

  /** Every size lies in the range the resize widget allows. */
  predicate SizesInHandleRange(s: EditorState)
  {
    forall i :: 0 <= i < |s.imageSizes| ==> InHandleRange(s.imageSizes[i])
  }

  /** `handleFileChange`: the chosen files are appended, each with the origin as position and
      100x100 as size. */
  function FileChange(s: EditorState, files: seq<Blob>): (r: EditorState)
    ensures Aligned(s) ==> Aligned(r)
    ensures |r.images| == |s.images| + |files|
    ensures |r.imagePositions| == |s.imagePositions| + |files|
    ensures |r.imageSizes| == |s.imageSizes| + |files|
    ensures r.images[..|s.images|] == s.images
    ensures r.imagePositions[..|s.imagePositions|] == s.imagePositions
    ensures r.imageSizes[..|s.imageSizes|] == s.imageSizes
    ensures forall i :: |s.images| <= i < |r.images| ==> r.images[i] == files[i - |s.images|]
    ensures forall i :: |s.imagePositions| <= i < |r.imagePositions| ==> r.imagePositions[i] == Origin
    ensures forall i :: |s.imageSizes| <= i < |r.imageSizes| ==> r.imageSizes[i] == DefaultSize
    ensures r.draggingIndex == s.draggingIndex && r.dragStart == s.dragStart
    ensures files == [] ==> r == s
  {
    s.(images := s.images + files,
       imagePositions := s.imagePositions + Fill(files, Origin),
       imageSizes := s.imageSizes + Fill(files, DefaultSize))
  }

  /** `moveImageOnCanvas`: the position at index is replaced. JavaScript would grow the array for
      an index past its end, so the index must name an existing item. */
  function MoveImage(s: EditorState, index: nat, position: Point): (r: EditorState)
    requires index < |s.imagePositions|
    ensures |r.imagePositions| == |s.imagePositions| && r.imagePositions[index] == position
    ensures forall j :: 0 <= j < |s.imagePositions| && j != index ==>
      r.imagePositions[j] == s.imagePositions[j]
    ensures r.images == s.images && r.imageSizes == s.imageSizes
    ensures r.draggingIndex == s.draggingIndex && r.dragStart == s.dragStart
  {
    s.(imagePositions := s.imagePositions[index := position])
  }

  /** `removeImage`: the same index filtered out of all three sequences; an index naming no item
      filters out nothing. */
  function Remove(s: EditorState, index: int): (r: EditorState)
    ensures Aligned(s) ==> Aligned(r)
    ensures Aligned(s) && 0 <= index < |s.images| ==> |r.images| == |s.images| - 1
    ensures r.draggingIndex == s.draggingIndex && r.dragStart == s.dragStart
  {
    s.(images := Filtered(s.images, index),
       imagePositions := Filtered(s.imagePositions, index),
       imageSizes := Filtered(s.imageSizes, index))
  }

  /** `resizeImage`: the size at index is replaced by whatever size is given. */
  function Resize(s: EditorState, index: nat, size: Size): (r: EditorState)
    requires index < |s.imageSizes|
    ensures |r.imageSizes| == |s.imageSizes| && r.imageSizes[index] == size
    ensures forall j :: 0 <= j < |s.imageSizes| && j != index ==> r.imageSizes[j] == s.imageSizes[j]
    ensures r.images == s.images && r.imagePositions == s.imagePositions
    ensures r.draggingIndex == s.draggingIndex && r.dragStart == s.dragStart
  {
    s.(imageSizes := s.imageSizes[index := size])
  }

  /** The react-dnd hover callback of the item at hoveredIndex: when another item is dragged over
      it, the dragged item's own recorded position is written back to the dragged item's own index;
      the hovered item's slot is never written. */
  function Hover(s: EditorState, hoveredIndex: nat, item: DragItem): (r: EditorState)
    requires item.index != hoveredIndex ==> item.index < |s.imagePositions|
    ensures |r.imagePositions| == |s.imagePositions|
    ensures hoveredIndex < |s.imagePositions| ==>
      r.imagePositions[hoveredIndex] == s.imagePositions[hoveredIndex]
    ensures item.index != hoveredIndex ==> r.imagePositions[item.index] == item.position
    ensures forall j :: 0 <= j < |s.imagePositions| && j != item.index ==>
      r.imagePositions[j] == s.imagePositions[j]
    ensures item.index == hoveredIndex ==> r == s
    ensures r.images == s.images && r.imageSizes == s.imageSizes
    ensures r.draggingIndex == s.draggingIndex && r.dragStart == s.dragStart
  {
    if item.index != hoveredIndex then MoveImage(s, item.index, item.position) else s
  }

  /** `handleMouseDown` at canvas point (x, y): a press on some item starts a drag of the first
      such item, remembering the press point; a press on no item changes nothing. */
  function MouseDown(s: EditorState, x: int, y: int): (r: EditorState)
    requires |s.imagePositions| <= |s.imageSizes|
    ensures r.images == s.images && r.imagePositions == s.imagePositions && r.imageSizes == s.imageSizes
    ensures (exists j :: Under(s.imagePositions, s.imageSizes, j, x, y)) ==>
      && r.draggingIndex.Some?
      && r.dragStart == Point(x, y)
      && Under(s.imagePositions, s.imageSizes, r.draggingIndex.value, x, y)
      && forall j :: 0 <= j < r.draggingIndex.value ==> !Under(s.imagePositions, s.imageSizes, j, x, y)
    ensures (forall j :: !Under(s.imagePositions, s.imageSizes, j, x, y)) ==> r == s
  {
    var index := HitIndex(s.imagePositions, s.imageSizes, x, y);
    if index != -1 then s.(draggingIndex := Some(index), dragStart := Point(x, y)) else s
  }

  /** `handleMouseMove` to canvas point (x, y): while a drag is on, the dragged item moves by the
      pointer's displacement since the last event, and the pointer becomes the new reference. The
      handler reads the dragged item's old position, which throws for an index a removal has made
      stale, so the drag target must exist. */
  function MouseMove(s: EditorState, x: int, y: int): (r: EditorState)
    requires DragTargetValid(s)
    ensures s.draggingIndex.None? ==> r == s
    ensures s.draggingIndex.Some? ==>
      var k := s.draggingIndex.value;
      && |r.imagePositions| == |s.imagePositions|
      && r.imagePositions[k].x - s.imagePositions[k].x == x - s.dragStart.x
      && r.imagePositions[k].y - s.imagePositions[k].y == y - s.dragStart.y
      && (forall j :: 0 <= j < |s.imagePositions| && j != k ==> r.imagePositions[j] == s.imagePositions[j])
      && r.dragStart == Point(x, y)
    ensures r.images == s.images && r.imageSizes == s.imageSizes && r.draggingIndex == s.draggingIndex
  {
    match s.draggingIndex
    case None => s
    case Some(k) =>
      var dx, dy := x - s.dragStart.x, y - s.dragStart.y;
      var p := s.imagePositions[k];
      s.(imagePositions := s.imagePositions[k := Point(p.x + dx, p.y + dy)], dragStart := Point(x, y))
  }

  /** `handleMouseUp`: the drag ends; nothing else changes. */
  function MouseUp(s: EditorState): (r: EditorState)
    ensures r.draggingIndex.None?
    ensures r.images == s.images && r.imagePositions == s.imagePositions && r.imageSizes == s.imageSizes
    ensures r.dragStart == s.dragStart
  {
    s.(draggingIndex := None)
  }

  /** Removal deletes one index from each sequence, keeping the other items in order (so the
      items after it move down by one), and changes nothing for an index naming no item. */
  lemma RemoveDeletesIndex(s: EditorState, index: int)
    requires Aligned(s)
    ensures var r := Remove(s, index);
      0 <= index < |s.images| ==>
        && r.images == s.images[..index] + s.images[index + 1..]
        && r.imagePositions == s.imagePositions[..index] + s.imagePositions[index + 1..]
        && r.imageSizes == s.imageSizes[..index] + s.imageSizes[index + 1..]
    ensures !(0 <= index < |s.images|) ==> Remove(s, index) == s
  {
    FilteredDeletes(s.images, index);
    FilteredDeletes(s.imagePositions, index);
    FilteredDeletes(s.imageSizes, index);
  }

  /** The mouse-move events of one drag, in order. */
  function MoveThrough(s: EditorState, pointers: seq<Point>): EditorState
    requires DragTargetValid(s)
    decreases |pointers|
  {
    if pointers == [] then s
    else MoveThrough(MouseMove(s, pointers[0].x, pointers[0].y), pointers[1..])
  }

  /** Over any run of mouse moves the dragged item is displaced by exactly the last pointer
      position minus the drag's starting point, no other item moves, and the last pointer becomes
      the reference; with no drag on, moves change nothing. */
  lemma {:induction false} DragAccumulates(s: EditorState, pointers: seq<Point>)
    requires DragTargetValid(s)
    ensures s.draggingIndex.None? ==> MoveThrough(s, pointers) == s
    ensures s.draggingIndex.Some? && pointers != [] ==>
      var r, k, last := MoveThrough(s, pointers), s.draggingIndex.value, pointers[|pointers| - 1];
      && |r.imagePositions| == |s.imagePositions|
      && r.imagePositions[k] == Point(s.imagePositions[k].x + (last.x - s.dragStart.x),
                                      s.imagePositions[k].y + (last.y - s.dragStart.y))
      && (forall j :: 0 <= j < |s.imagePositions| && j != k ==> r.imagePositions[j] == s.imagePositions[j])
      && r.dragStart == last
      && r.images == s.images && r.imageSizes == s.imageSizes && r.draggingIndex == s.draggingIndex
    decreases |pointers|
  {
    if pointers != [] {
      var next := MouseMove(s, pointers[0].x, pointers[0].y);
      DragAccumulates(next, pointers[1..]);
      if s.draggingIndex.Some? && |pointers| > 1 {
        assert pointers[1..][|pointers[1..]| - 1] == pointers[|pointers| - 1];
      }
    }
  }

  /** A worked drag: an item at (100, 50) of size 100x100, a press at (120, 80) and a move to
      (140, 95) leave the item at (120, 65). */
  lemma DragExample(img: Blob)
    ensures var s := EditorState([img], [Point(100, 50)], [Size(100, 100)], None, Origin);
            MouseMove(MouseDown(s, 120, 80), 140, 95).imagePositions == [Point(120, 65)]
  {
    var s := EditorState([img], [Point(100, 50)], [Size(100, 100)], None, Origin);
    assert Under(s.imagePositions, s.imageSizes, 0, 120, 80);
  }

  /** The events the component's markup wires to its handlers (src/App.js:200-229): a file
      selection, a react-dnd hover over an item, a click on an item's Remove button, the resize
      widget reporting a size, and the three mouse events on the canvas. */
  datatype Event =
    | FilesChosen(files: seq<Blob>)
    | ItemHovered(hoveredIndex: nat, item: DragItem)
    | RemoveClicked(removedIndex: int)
    | ResizeReported(resizedIndex: nat, size: Size)
    | CanvasMouseDown(x: int, y: int)
    | CanvasMouseMove(x: int, y: int)
    | CanvasMouseUp

  /** The event's handler neither throws nor writes past the end of a sequence, and the resize
      widget reports only sizes within its own limits. */
  predicate Enabled(s: EditorState, e: Event)
  {
    match e
    case FilesChosen(_) => true
    case ItemHovered(h, item) => item.index != h ==> item.index < |s.imagePositions|
    case RemoveClicked(_) => true
    case ResizeReported(i, size) => i < |s.imageSizes| && InHandleRange(size)
    case CanvasMouseDown(_, _) => |s.imagePositions| <= |s.imageSizes|
    case CanvasMouseMove(_, _) => DragTargetValid(s)
    case CanvasMouseUp => true
  }

  /** One event, handled by its handler. */
  function Step(s: EditorState, e: Event): (r: EditorState)
    requires Enabled(s, e)
    ensures Aligned(s) ==> Aligned(r)
  {
    match e
    case FilesChosen(files) => FileChange(s, files)
    case ItemHovered(h, item) => Hover(s, h, item)
    case RemoveClicked(i) => Remove(s, i)
    case ResizeReported(i, size) => Resize(s, i, size)
    case CanvasMouseDown(x, y) => MouseDown(s, x, y)
    case CanvasMouseMove(x, y) => MouseMove(s, x, y)
    case CanvasMouseUp => MouseUp(s)
  }

  /** A sequence of events handled one after another; None once an event arrives that its handler
      cannot handle in the current state. */
  function Run(s: EditorState, events: seq<Event>): Option<EditorState>
    decreases |events|
  {
    if events == [] then Some(s)
    else if !Enabled(s, events[0]) then None
    else Run(Step(s, events[0]), events[1..])
  }

  /** Every handler keeps the sequences aligned, and keeps every size within the resize widget's
      limits. */
  lemma StepKeepsInvariants(s: EditorState, e: Event)
    requires Aligned(s) && SizesInHandleRange(s) && Enabled(s, e)
    ensures Aligned(Step(s, e)) && SizesInHandleRange(Step(s, e))
  {
    match e
    case RemoveClicked(i) =>
      RemoveDeletesIndex(s, i);
      var r := Remove(s, i);
      if 0 <= i < |s.imageSizes| {
        forall j | 0 <= j < |r.imageSizes| ensures InHandleRange(r.imageSizes[j]) {
          if j < i {
            assert r.imageSizes[j] == s.imageSizes[j];
          } else {
            assert r.imageSizes[j] == s.imageSizes[j + 1];
          }
        }
      }
    case _ =>
  }

  /** From any aligned state whose sizes are in range, in particular from the initial state, every
      sequence of events the handlers can handle ends in such a state: the three sequences always
      have equal length and every size stays within [50, 300]. */
  lemma {:induction false} RunKeepsInvariants(s: EditorState, events: seq<Event>)
    requires Aligned(s) && SizesInHandleRange(s)
    ensures Run(s, events).Some? ==> Aligned(Run(s, events).value) && SizesInHandleRange(Run(s, events).value)
    decreases |events|
  {
    if events != [] && Enabled(s, events[0]) {
      StepKeepsInvariants(s, events[0]);
      RunKeepsInvariants(Step(s, events[0]), events[1..]);
    }
  }

  /** A removal does not end a canvas drag: pressing on the only item (on its bottom-right corner,
      which the item's overlay does not cover), then removing it before the mouse is released on the
      canvas, leaves a drag naming no item, and the next mouse move over the canvas is one the
      handler cannot handle. */
  lemma StaleDragAfterRemove(img: Blob)
    ensures Run(Initial, [FilesChosen([img]), CanvasMouseDown(100, 100), RemoveClicked(0), CanvasMouseMove(101, 101)]) == None
  {
    var s1 := FileChange(Initial, [img]);
    assert Under(s1.imagePositions, s1.imageSizes, 0, 100, 100);
    var s2 := MouseDown(s1, 100, 100);
    RemoveDeletesIndex(s2, 0);
    var s3 := Remove(s2, 0);
    assert !DragTargetValid(s3);
    assert Run(s3, [CanvasMouseMove(101, 101)]) == None;
    var tail := [RemoveClicked(0), CanvasMouseMove(101, 101)];
    assert tail[1..] == [CanvasMouseMove(101, 101)];
    assert Run(s2, tail) == None;
    var events := [FilesChosen([img]), CanvasMouseDown(100, 100)] + tail;
    assert events[1..] == [CanvasMouseDown(100, 100)] + tail;
    assert events[1..][1..] == tail;
  }

  /** When the removed item is the dragged one (or an earlier one) and the drag index still names an
      item, the drag silently carries on with whichever item moved down into that index: with items
      at (0, 0) and (200, 200), a press on the first, its removal and a move of (5, 10) move the
      second item to (205, 210). */
  lemma WrongItemDraggedAfterRemove(first: Blob, second: Blob)
    ensures var s := EditorState([first, second], [Point(0, 0), Point(200, 200)],
                                 [DefaultSize, DefaultSize], None, Origin);
            var r := Run(s, [CanvasMouseDown(100, 100), RemoveClicked(0), CanvasMouseMove(105, 110)]);
            r.Some? && r.value.images == [second] && r.value.imagePositions == [Point(205, 210)]
  {
    var s := EditorState([first, second], [Point(0, 0), Point(200, 200)],
                         [DefaultSize, DefaultSize], None, Origin);
    assert Under(s.imagePositions, s.imageSizes, 0, 100, 100);
    var s1 := MouseDown(s, 100, 100);
    assert s1.draggingIndex == Some(0) && s1.dragStart == Point(100, 100);
    RemoveDeletesIndex(s1, 0);
    var s2 := Remove(s1, 0);
    assert s2.images == [second] && s2.imagePositions == [Point(200, 200)];
    var s3 := MouseMove(s2, 105, 110);
    assert s3.imagePositions == [Point(205, 210)];
    var events := [CanvasMouseDown(100, 100), RemoveClicked(0), CanvasMouseMove(105, 110)];
    assert events[1..] == [RemoveClicked(0), CanvasMouseMove(105, 110)];
    assert events[1..][1..] == [CanvasMouseMove(105, 110)];
    assert Run(s2, events[1..][1..]) == Some(s3);
  }
}
