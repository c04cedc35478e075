/** The `App` component (src/App.js:83-167) as an object: its five pieces of state are fields and
    its event handlers are methods that update them in place. Each method's new state is the
    corresponding transition of module Transitions applied to the old state. */
module Component {
  import opened Canvas
  import opened Transitions

  class App {
    var images: seq<Blob>
    var imagePositions: seq<Point>
    var imageSizes: seq<Size>
    var draggingIndex: Option<nat>
    var dragStart: Point

    /** The three parallel sequences describe the same items, index by index. */
    ghost predicate Valid()
      reads this
    {
      Aligned(State())
    }

    /** The fields as one editor state value. */
    function State(): EditorState
      reads this
    {
      EditorState(images, imagePositions, imageSizes, draggingIndex, dragStart)
    }

    constructor ()
      ensures Valid() && State() == Initial
    {
      images, imagePositions, imageSizes := [], [], [];
      draggingIndex, dragStart := None, Origin;
    }

    method HandleFileChange(files: seq<Blob>)
      requires Valid()
      modifies this
      ensures Valid() && State() == FileChange(old(State()), files)
    {
      images := images + files;
      imagePositions := imagePositions + Fill(files, Origin);
      imageSizes := imageSizes + Fill(files, DefaultSize);
    }

    method MoveImageOnCanvas(index: nat, position: Point)
      requires Valid() && index < |imagePositions|
      modifies this
      ensures Valid() && State() == MoveImage(old(State()), index, position)
    {
      var updatedPositions := imagePositions;
      updatedPositions := updatedPositions[index := position];
      imagePositions := updatedPositions;
    }

    method RemoveImage(index: int)
      requires Valid()
      modifies this
      ensures Valid() && State() == Remove(old(State()), index)
    {
      images := Filtered(images, index);
      imagePositions := Filtered(imagePositions, index);
      imageSizes := Filtered(imageSizes, index);
    }

    method ResizeImage(index: nat, newSize: Size)
      requires Valid() && index < |imageSizes|
      modifies this
      ensures Valid() && State() == Resize(old(State()), index, newSize)
    {
      var newSizes := imageSizes;
      newSizes := newSizes[index := newSize];
      imageSizes := newSizes;
    }

    /** `ImageItem`'s resize callback: the widget reports only sizes within its limits, and the
        size is passed on unchanged. Sizes stay in range when they were. */
    method HandleResize(index: nat, size: Size)
      requires Valid() && index < |imageSizes| && InHandleRange(size)
      modifies this
      ensures Valid() && State() == Resize(old(State()), index, size)
      ensures old(SizesInHandleRange(State())) ==> SizesInHandleRange(State())
    {
      ResizeImage(index, size);
    }

    /** `ImageItem`'s react-dnd hover callback, for the item at hoveredIndex. */
    method ImageItemHover(hoveredIndex: nat, draggedItem: DragItem)
      requires Valid()
      requires draggedItem.index != hoveredIndex ==> draggedItem.index < |imagePositions|
      modifies this
      ensures Valid() && State() == Hover(old(State()), hoveredIndex, draggedItem)
    {
      if draggedItem.index != hoveredIndex {
        MoveImageOnCanvas(draggedItem.index, draggedItem.position);
      }
    }

    /** (x, y) is the press point relative to the canvas's top-left corner. */
    method HandleMouseDown(x: int, y: int)
      requires Valid()
      modifies this
      ensures Valid() && State() == MouseDown(old(State()), x, y)
    {
      var index := HitIndex(imagePositions, imageSizes, x, y);
      if index != -1 {
        draggingIndex := Some(index);
        dragStart := Point(x, y);
      }
    }

    method HandleMouseMove(x: int, y: int)
      requires Valid() && DragTargetValid(State())
      modifies this
      ensures Valid() && State() == MouseMove(old(State()), x, y)
    {
      if draggingIndex.Some? {
        var dx := x - dragStart.x;
        var dy := y - dragStart.y;
        var k := draggingIndex.value;
        var newPositions := imagePositions;
        newPositions := newPositions[k := Point(newPositions[k].x + dx, newPositions[k].y + dy)];
        imagePositions := newPositions;
        dragStart := Point(x, y);
      }
    }

    method HandleMouseUp()
      requires Valid()
      modifies this
      ensures Valid() && State() == MouseUp(old(State()))
    {
      draggingIndex := None;
    }

    /** Delivers one event to the handler the markup wires it to. */
    method Dispatch(e: Event)
      requires Valid() && Enabled(State(), e)
      modifies this
      ensures Valid() && State() == Step(old(State()), e)
    {
      match e
      case FilesChosen(files) => HandleFileChange(files);
      case ItemHovered(h, item) => ImageItemHover(h, item);
      case RemoveClicked(i) => RemoveImage(i);
      case ResizeReported(i, size) => HandleResize(i, size);
      case CanvasMouseDown(x, y) => HandleMouseDown(x, y);
      case CanvasMouseMove(x, y) => HandleMouseMove(x, y);
      case CanvasMouseUp => HandleMouseUp();
    }
  }
}
