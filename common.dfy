/** Optional values and fallible results, used where the source returns an
    optional or stops with a fatal error. */
module Wrappers {
  datatype Option<+T> = None | Some(value: T)

  datatype Result<+T, +E> = Success(value: T) | Failure(error: E)
}

/** Core Graphics values as exact reals (CGFloat without IEEE rounding). */
module Geometry {
  datatype Point = Point(x: real, y: real)

  datatype Size = Size(width: real, height: real)

  datatype Rect = Rect(origin: Point, size: Size) {
    function MaxX(): real { origin.x + size.width }
    function MaxY(): real { origin.y + size.height }
    function MidX(): real { origin.x + size.width / 2.0 }
    function MidY(): real { origin.y + size.height / 2.0 }
  }

  datatype Insets = Insets(top: real, left: real, bottom: real, right: real)

  datatype ScrollDirection = Horizontal | Vertical

  /** Foundation's IndexPath restricted to the (section, item) pairs a
      collection view uses; Swift's Int is unbounded here. */
  datatype IndexPath = IndexPath(section: int, item: int)

  const ZeroPoint := Point(0.0, 0.0)
  const ZeroSize := Size(0.0, 0.0)
  const ZeroRect := Rect(ZeroPoint, ZeroSize)

  function Abs(x: real): real { if x < 0.0 then -x else x }

  /** The coordinate of `p` on the scrolling axis. */
  function Along(d: ScrollDirection, p: Point): real {
    if d == Horizontal then p.x else p.y
  }

  /** The coordinate of `p` across the scrolling axis. */
  function Cross(d: ScrollDirection, p: Point): real {
    if d == Horizontal then p.y else p.x
  }

  /** The point with the given coordinates along and across the scrolling axis. */
  function PointOn(d: ScrollDirection, along: real, cross: real): (p: Point)
    ensures Along(d, p) == along && Cross(d, p) == cross
  {
    if d == Horizontal then Point(along, cross) else Point(cross, along)
  }

  /** The extent of `s` on the scrolling axis. */
  function Extent(d: ScrollDirection, s: Size): real {
    if d == Horizontal then s.width else s.height
  }

  /** The extent of `s` across the scrolling axis. */
  function CrossExtent(d: ScrollDirection, s: Size): real {
    if d == Horizontal then s.height else s.width
  }
}

/** What the model needs of UICollectionViewFlowLayout, the superclass of the
    looping layout: its configuration, the content size it computes and its
    element queries, which are foreign code and stay uninterpreted functions. */
module Flow {
  import opened Wrappers
  import opened Geometry

  /** One layout record: the index path a frame belongs to and the frame. */
  datatype Attributes = Attributes(indexPath: IndexPath, frame: Rect)

  datatype FlowLayout = FlowLayout(
    scrollDirection: ScrollDirection,
    itemSize: Size,
    minimumLineSpacing: real,
    minimumInteritemSpacing: real,
    sectionInset: Insets,
    /** super.collectionViewContentSize: one copy of the real content */
    contentSize: Size,
    /** super.layoutAttributesForElements(in:); a nil answer is the empty sequence */
    elementsIn: Rect -> seq<Attributes>,
    /** super.layoutAttributesForItem(at:) */
    itemAttributes: IndexPath -> Option<Attributes>)

  /** Four times the larger screen dimension. */
  function MinimumContentSize(screen: Size): (r: real)
    ensures r >= 4.0 * screen.width && r >= 4.0 * screen.height
    ensures r == 4.0 * screen.width || r == 4.0 * screen.height
  {
    (if screen.width >= screen.height then screen.width else screen.height) * 4.0
  }

  /** The screen's extent along the scrolling axis. */
  function MinimumContentSizeFor(d: ScrollDirection, screen: Size): (r: real)
    ensures r == Extent(d, screen)
  {
    if d == Horizontal then screen.width else screen.height
  }
}
