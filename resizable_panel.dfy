/**
 * The resizable panel (src/components/ui/resizable-panel.tsx): a press on
 * the handle records the mouse position along the panel's axis and the
 * size at that moment; each move while resizing sets the size to the
 * recorded size plus the distance moved, clamped to the panel's bounds;
 * the release ends resizing. Mouse positions are whole pixels.
 */
module ResizablePanel {
  import opened Wrappers

  datatype Direction = Horizontal | Vertical

  /** The mouse coordinate along the panel's axis: `clientX` across, `clientY` down. */
  function Axis(d: Direction, clientX: int, clientY: int): int {
    match d
    case Horizontal => clientX
    case Vertical => clientY
  }

  /** `Math.min(maxSize, Math.max(minSize, v))` */
  function Clamp(minSize: int, maxSize: int, v: int): (r: int)
    ensures minSize <= maxSize ==> minSize <= r <= maxSize
    ensures minSize <= v <= maxSize ==> r == v
    ensures v < minSize && minSize <= maxSize ==> r == minSize
    ensures v > maxSize ==> r == maxSize
    ensures minSize > maxSize ==> r == maxSize
  {
    var lo := if v < minSize then minSize else v;
    if lo < maxSize then lo else maxSize
  }

  /** The size set on a move: the press-time size plus the distance from the press position, clamped. */
  function SizeAt(startSize: int, startPos: int, pos: int, minSize: int, maxSize: int): int {
    Clamp(minSize, maxSize, startSize + (pos - startPos))
  }

  /** The panel follows the mouse: moving further along the axis never makes it smaller. */
  lemma SizeMonotone(startSize: int, startPos: int, p: int, q: int, minSize: int, maxSize: int)
    requires p <= q
    ensures SizeAt(startSize, startPos, p, minSize, maxSize) <= SizeAt(startSize, startPos, q, minSize, maxSize)
  {
  }

  /** Returning the mouse to the press position restores the press-time size, when that size is within bounds. */
  lemma BackToPressRestores(startSize: int, startPos: int, minSize: int, maxSize: int)
    requires minSize <= startSize <= maxSize
    ensures SizeAt(startSize, startPos, startPos, minSize, maxSize) == startSize
  {
  }

  /** The panel's state and its bounds (`defaultSize` 250, `minSize` 150, `maxSize` 500 unless given). */
  class Panel {
    const direction: Direction
    const minSize: int
    const maxSize: int
    var size: int
    var isResizing: bool
    var startPos: int
    var startSize: int

    constructor (direction: Direction, defaultSize: Option<int>, minSize: Option<int>, maxSize: Option<int>)
      ensures this.direction == direction
      ensures size == defaultSize.GetOr(250) && this.minSize == minSize.GetOr(150) && this.maxSize == maxSize.GetOr(500)
      ensures !isResizing && startPos == 0 && startSize == 0
    {
      this.direction := direction;
      size := defaultSize.GetOr(250);
      this.minSize := minSize.GetOr(150);
      this.maxSize := maxSize.GetOr(500);
      isResizing := false;
      startPos := 0;
      startSize := 0;
    }

    /** `handleMouseDown`: start resizing from the mouse position and the current size. */
    method MouseDown(clientX: int, clientY: int)
      modifies this
      ensures isResizing && startPos == Axis(direction, clientX, clientY) && startSize == old(size)
      ensures size == old(size)
    {
      isResizing := true;
      startPos := Axis(direction, clientX, clientY);
      startSize := size;
    }

    /**
     * `handleMouseMove`, listened to only while resizing: the new size depends
     * on the press-time size and the current position alone, never on earlier
     * moves, which leave the press-time values as they were.
     */
    method MouseMove(clientX: int, clientY: int)
      modifies this
      ensures old(isResizing) ==> size == SizeAt(startSize, startPos, Axis(direction, clientX, clientY), minSize, maxSize)
      ensures !old(isResizing) ==> size == old(size)
      ensures minSize <= maxSize && old(isResizing) ==> minSize <= size <= maxSize
      ensures isResizing == old(isResizing) && startPos == old(startPos) && startSize == old(startSize)
    {
      if isResizing {
        var currentPos := Axis(direction, clientX, clientY);
        var delta := currentPos - startPos;
        size := Clamp(minSize, maxSize, startSize + delta);
      }
    }

    /** `handleMouseUp` */
    method MouseUp()
      modifies this
      ensures !isResizing && size == old(size) && startPos == old(startPos) && startSize == old(startSize)
    {
      isResizing := false;
    }
  }
}
