/** Values the editor keeps per image, and the three pure list operations its handlers are built
    from: the default-filling `map` of a file selection, the index `filter` of a removal and the
    `findIndex` hit test of a mouse press (src/App.js). */
module Canvas {

  /** The raw contents of one file handed over by the file picker; the editor never looks inside. */
  type Blob = seq<bv8>

  /** A canvas pixel coordinate: an image's top-left corner, or a pointer position. */
  datatype Point = Point(x: int, y: int)

  /** The width and height an image is drawn with. */
  datatype Size = Size(width: int, height: int)

  datatype Option<T> = None | Some(value: T)

  /** Where a newly chosen file is placed. */
  const Origin: Point := Point(0, 0)

  /** The size a newly chosen file is given. */
  const DefaultSize: Size := Size(100, 100)

  /** The resize widget keeps each side within [MinSide, MaxSide]. */
  const MinSide: int := 50
  const MaxSide: int := 300

  predicate InHandleRange(s: Size)
  {
    MinSide <= s.width <= MaxSide && MinSide <= s.height <= MaxSide
  }

  /** (x, y) lies in the closed box [p.x, p.x + s.width] x [p.y, p.y + s.height]. */
  predicate InBox(p: Point, s: Size, x: int, y: int)
  {
    p.x <= x <= p.x + s.width && p.y <= y <= p.y + s.height
  }

  /** Item i exists in both parallel sequences and its box contains (x, y). */
  predicate Under(positions: seq<Point>, sizes: seq<Size>, i: int, x: int, y: int)
  {
    0 <= i < |positions| && i < |sizes| && InBox(positions[i], sizes[i], x, y)
  }

  /** `files.map(() => v)`: one copy of v per chosen file. */
  function Fill<T, U>(files: seq<T>, v: U): (r: seq<U>)
    ensures |r| == |files|
    ensures forall i :: 0 <= i < |r| ==> r[i] == v
  {
    if files == [] then [] else [v] + Fill(files[1..], v)
  }

  /** `s.filter((_, i) => i !== index)`: JavaScript's filter walks the elements in order and keeps
      every one whose position differs from index. Written here from the last element backwards. */
  function Filtered<T>(s: seq<T>, index: int): (r: seq<T>)
    ensures |r| == if 0 <= index < |s| then |s| - 1 else |s|
    decreases |s|
  {
    if s == [] then []
    else Filtered(s[..|s| - 1], index) + (if |s| - 1 == index then [] else [s[|s| - 1]])
  }

  /** The filter deletes exactly the element at an in-range index, keeping the others in order,
      and keeps everything when the index is out of range. */
  lemma {:induction false} FilteredDeletes<T>(s: seq<T>, index: int)
    ensures 0 <= index < |s| ==> Filtered(s, index) == s[..index] + s[index + 1..]
    ensures !(0 <= index < |s|) ==> Filtered(s, index) == s
  {
    if s != [] {
      var n := |s| - 1;
      var front := s[..n];
      FilteredDeletes(front, index);
      if index == n {
        assert s[index + 1..] == [];
        assert front == s[..index] + s[index + 1..];
      } else if 0 <= index < n {
        assert front[..index] == s[..index];
        assert front[index + 1..] + [s[n]] == s[index + 1..];
      } else {
        assert front + [s[n]] == s;
      }
    }
  }

  /** `positions.findIndex((pos, i) => InBox(pos, sizes[i], x, y))`: the first item, in index order,
      whose closed box contains (x, y), or -1 when there is none. */
  function HitIndex(positions: seq<Point>, sizes: seq<Size>, x: int, y: int): (r: int)
    requires |positions| <= |sizes|
    ensures -1 <= r < |positions|
    ensures r != -1 ==> Under(positions, sizes, r, x, y)
    ensures forall j :: 0 <= j < |positions| && (r == -1 || j < r) ==> !Under(positions, sizes, j, x, y)
  {
    if positions == [] then -1
    else if InBox(positions[0], sizes[0], x, y) then 0
    else
      var k := HitIndex(positions[1..], sizes[1..], x, y);
      assert forall j :: 1 <= j < |positions| ==>
        Under(positions, sizes, j, x, y) == Under(positions[1..], sizes[1..], j - 1, x, y);
      if k == -1 then -1 else k + 1
  }

  /** Items added later never take a press away from an earlier item: a hit among the first
      items stays the hit after more items are appended, and a miss there can only become a hit
      on one of the new items. */
  lemma {:induction false} HitIgnoresLaterItems(positions: seq<Point>, sizes: seq<Size>,
                                                 morePositions: seq<Point>, moreSizes: seq<Size>,
                                                 x: int, y: int)
    requires |positions| == |sizes| && |morePositions| <= |moreSizes|
    ensures var r := HitIndex(positions + morePositions, sizes + moreSizes, x, y);
            var h := HitIndex(positions, sizes, x, y);
            (h != -1 ==> r == h) && (h == -1 ==> r == -1 || |positions| <= r)
  {
    var all, allSizes := positions + morePositions, sizes + moreSizes;
    var r := HitIndex(all, allSizes, x, y);
    var h := HitIndex(positions, sizes, x, y);
    assert forall j :: 0 <= j < |positions| ==>
      Under(all, allSizes, j, x, y) == Under(positions, sizes, j, x, y);
  }
}
