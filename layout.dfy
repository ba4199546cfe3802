/** The looping flow layout as an object: the state `prepare` computes, the
    element queries it answers and the scroll-offset rewrites it performs on
    its collection view. */
module Layouts {
  import opened Wrappers
  import opened Geometry
  import opened Flow
  import opened Tiling
  import opened Paging

  /** The UIScrollView state the layout reads and writes. */
  class ScrollView {
    var bounds: Rect
    var frameSize: Size
    var contentOffset: Point
    var contentInset: Insets
    var layoutMargins: Insets

    constructor(bounds: Rect, frameSize: Size, contentOffset: Point, contentInset: Insets, layoutMargins: Insets)
      ensures this.bounds == bounds && this.frameSize == frameSize && this.contentOffset == contentOffset
      ensures this.contentInset == contentInset && this.layoutMargins == layoutMargins
    {
      this.bounds := bounds;
      this.frameSize := frameSize;
      this.contentOffset := contentOffset;
      this.contentInset := contentInset;
      this.layoutMargins := layoutMargins;
    }

    /** The values the paging computations read. */
    function Snapshot(): Viewport
      reads this
    {
      Viewport(bounds.size, frameSize, contentOffset, contentInset, layoutMargins)
    }

    /** setContentOffset(_:animated: false): only the offset changes. */
    method SetContentOffset(offset: Point)
      modifies this
      ensures contentOffset == offset
      ensures bounds == old(bounds) && frameSize == old(frameSize)
      ensures contentInset == old(contentInset) && layoutMargins == old(layoutMargins)
    {
      contentOffset := offset;
    }
  }

  /** The stored tile size prepare computes: the flow layout's content size
      with minimumLineSpacing added to the width, whatever the direction. */
  function PreparedContentSize(flow: FlowLayout): Size {
    Size(flow.contentSize.width + flow.minimumLineSpacing, flow.contentSize.height)
  }

  /** The validity prepare computes: a collection view with non-zero bounds,
      looping enabled, and one tile at least as long as the screen along the
      scrolling axis. */
  predicate ValidLayout(flow: FlowLayout, hasCollectionView: bool, bounds: Rect, isEnabled: bool, screen: Size) {
    hasCollectionView && bounds != ZeroRect && isEnabled &&
    Extent(flow.scrollDirection, PreparedContentSize(flow)) >= MinimumContentSizeFor(flow.scrollDirection, screen)
  }

  /** A valid layout on a real screen has a tile at least one screen long, so
      the 500 tiles of inflated content give at least 250 screens of room on
      either side of the middle page. */
  lemma ValidLayoutLeavesRoom(flow: FlowLayout, hasCollectionView: bool, bounds: Rect, isEnabled: bool, screen: Size)
    requires screen.width > 0.0 && screen.height > 0.0
    requires ValidLayout(flow, hasCollectionView, bounds, isEnabled, screen)
    ensures var t := Tile(flow.scrollDirection, PreparedContentSize(flow));
      var s := MinimumContentSizeFor(flow.scrollDirection, screen);
      t.Span() >= s > 0.0 &&
      Tiles(PageCount / 2, t.Span()) >= Tiles(PageCount / 2, s) &&
      Extent(t.direction, ContentSizeFor(t, true)) - Tiles(PageCount / 2 + 1, t.Span()) >= Tiles(PageCount / 2 - 1, s)
  {
    var t := Tile(flow.scrollDirection, PreparedContentSize(flow));
    var s := MinimumContentSizeFor(flow.scrollDirection, screen);
    TilesAtLeast(PageCount / 2, s, t.Span());
    TilesAtLeast(PageCount / 2 - 1, s, t.Span());
    TilesAdd(PageCount / 2 + 1, PageCount / 2 - 1, t.Span());
  }

  /** More tiles of a longer extent are longer. */
  lemma {:induction false} TilesAtLeast(k: nat, a: real, b: real)
    requires 0.0 <= a <= b
    ensures Tiles(k, a) <= Tiles(k, b)
  {
    if k > 0 {
      TilesAtLeast(k - 1, a, b);
    }
  }

  /** Scrolling vertically the stored tile keeps the flow layout's height:
      minimumLineSpacing is added to the width only. */
  lemma VerticalTileOmitsLineSpacing(flow: FlowLayout)
    requires flow.scrollDirection == Vertical
    ensures Tile(Vertical, PreparedContentSize(flow)).Span() == flow.contentSize.height
    ensures Tile(Vertical, PreparedContentSize(flow)).CrossSpan() == flow.contentSize.width + flow.minimumLineSpacing
  {
  }

  /** InfiniteLayout: a flow layout whose content is repeated over 500 tiles. */
  class InfiniteLayout {
    /** The flow-layout superclass: its configuration and foreign queries. */
    var flow: FlowLayout
    var velocityMultiplier: real
    var isEnabled: bool
    /** One tile: the flow layout's content plus one line spacing. */
    var contentSize: Size
    var hasValidLayout: bool
    var oldContentSize: Option<Size>
    /** The collection view the layout is attached to, if any. */
    var collectionView: ScrollView?

    constructor(flow: FlowLayout, collectionView: ScrollView?)
      ensures this.flow == flow && this.collectionView == collectionView
      ensures velocityMultiplier == 1.0 && isEnabled
      ensures contentSize == ZeroSize && !hasValidLayout && oldContentSize == None
    {
      this.flow := flow;
      this.collectionView := collectionView;
      velocityMultiplier := 1.0;
      isEnabled := true;
      contentSize := ZeroSize;
      hasValidLayout := false;
      oldContentSize := None;
    }

    /** The tile the page arithmetic works with. */
    function CurrentTile(): Tile
      reads this
    {
      Tile(flow.scrollDirection, contentSize)
    }

    /** collectionViewContentSize */
    function CollectionViewContentSize(): Size
      reads this
    {
      ContentSizeFor(CurrentTile(), hasValidLayout)
    }

    /** prepare(): stores the tile, recomputes validity, and on a pass after
        the first with a visible collection view whose tile changed, scrolls
        back to the start of the content (minus the left inset). */
    method Prepare(screen: Size)
      modifies this, collectionView
      ensures flow == old(flow) && collectionView == old(collectionView)
      ensures isEnabled == old(isEnabled) && velocityMultiplier == old(velocityMultiplier)
      ensures contentSize == PreparedContentSize(flow)
      ensures hasValidLayout <==> ValidLayout(flow, collectionView != null,
        if collectionView != null then collectionView.bounds else ZeroRect, isEnabled, screen)
      ensures old(oldContentSize) == None ==> oldContentSize == Some(contentSize)
      ensures old(oldContentSize) != None && (collectionView == null || collectionView.bounds == ZeroRect) ==>
        oldContentSize == old(oldContentSize)
      ensures old(oldContentSize) != None && collectionView != null && collectionView.bounds != ZeroRect ==>
        oldContentSize == Some(contentSize)
      ensures collectionView != null ==>
        collectionView.bounds == old(collectionView.bounds) && collectionView.frameSize == old(collectionView.frameSize) &&
        collectionView.contentInset == old(collectionView.contentInset) &&
        collectionView.layoutMargins == old(collectionView.layoutMargins)
      ensures collectionView != null ==>
        collectionView.contentOffset ==
          if old(oldContentSize) != None && collectionView.bounds != ZeroRect && old(oldContentSize) != Some(contentSize)
          then Point(-collectionView.contentInset.left, old(collectionView.contentOffset.y))
          else old(collectionView.contentOffset)
    {
      contentSize := PreparedContentSize(flow);
      hasValidLayout := collectionView != null && collectionView.bounds != ZeroRect && isEnabled &&
        Extent(flow.scrollDirection, contentSize) >= MinimumContentSizeFor(flow.scrollDirection, screen);
      if oldContentSize == None {
        oldContentSize := Some(contentSize);
      } else {
        if collectionView == null || collectionView.bounds == ZeroRect {
          return;
        }
        if oldContentSize != Some(contentSize) {
          var offset := Point(-collectionView.contentInset.left, collectionView.contentOffset.y);
          collectionView.SetContentOffset(offset);
        }
        oldContentSize := Some(contentSize);
      }
    }

    /** layoutAttributesForElements(in:): on a valid layout the query is
        normalised into one tile; a part sticking out past the tile is fetched
        from the start of the tile and placed on the next page, then the rest
        on the query's page. */
    method LayoutAttributesForElements(rect: Rect) returns (elements: seq<Attributes>)
      requires hasValidLayout ==> CurrentTile().Positive()
      ensures elements == ElementsInRect(CurrentTile(), hasValidLayout, flow.elementsIn, rect)
    {
      if !hasValidLayout {
        return flow.elementsIn(rect);
      }
      var t := CurrentTile();
      var page := PageFor(t, rect.origin);
      elements := [];
      var r := RectFrom(t, rect, 0);
      if Overflows(t, r) {
        var diffRect := OverflowPiece(t, r);
        elements := elements + ElementsAt(t, flow.elementsIn, diffRect, page + 1);
        r := WithExtent(t.direction, r, Extent(t.direction, r.size) - Extent(t.direction, diffRect.size));
      }
      elements := elements + ElementsAt(t, flow.elementsIn, r, page);
    }

    /** currentPage: the page of the current offset, page 0 without a
        collection view. */
    function CurrentPage(): (page: int)
      reads this, collectionView
      requires CurrentTile().Span() > 0.0
      ensures collectionView != null ==> InTile(Along(flow.scrollDirection, collectionView.contentOffset), page, CurrentTile().Span())
      ensures collectionView == null ==> page == 0
    {
      if collectionView == null then 0 else PageFor(CurrentTile(), collectionView.contentOffset)
    }

    /** layoutAttributesForItem(at:page:): the flow layout's record moved onto
        `page`. */
    function LayoutAttributesForItemOnPage(indexPath: IndexPath, page: int): (r: Option<Attributes>)
      reads this
      requires CurrentTile().Positive()
      ensures r.Some? <==> flow.itemAttributes(indexPath).Some?
      ensures r.Some? ==>
        r.value.indexPath == flow.itemAttributes(indexPath).value.indexPath &&
        r.value.frame.size == flow.itemAttributes(indexPath).value.frame.size &&
        InTile(Along(flow.scrollDirection, r.value.frame.origin), page, CurrentTile().Span())
    {
      match flow.itemAttributes(indexPath)
      case None => None
      case Some(a) => Some(Attributes(a.indexPath, RectFrom(CurrentTile(), a.frame, page)))
    }

    /** layoutAttributesForItem(at:): the record on the current page. */
    function LayoutAttributesForItem(indexPath: IndexPath): (r: Option<Attributes>)
      reads this, collectionView
      requires CurrentTile().Positive()
      ensures r.Some? <==> flow.itemAttributes(indexPath).Some?
      ensures r.Some? ==> InTile(Along(flow.scrollDirection, r.value.frame.origin), CurrentPage(), CurrentTile().Span())
    {
      LayoutAttributesForItemOnPage(indexPath, CurrentPage())
    }

    /** layoutAttributesForItem(at:pageOffset:): the record `pageOffset` pages
        after the current one; nothing without a collection view. The offset's
        x component is used whatever the scroll direction. */
    function LayoutAttributesForItemWithPageOffset(indexPath: IndexPath, pageOffset: int): (r: Option<Attributes>)
      reads this, collectionView
      requires CurrentTile().Positive()
      ensures r.Some? <==> collectionView != null && flow.itemAttributes(indexPath).Some?
      ensures r.Some? ==>
        InTile(Along(flow.scrollDirection, r.value.frame.origin), CurrentPage() + pageOffset, CurrentTile().Span())
    {
      if collectionView == null then None
      else LayoutAttributesForItemOnPage(indexPath, CurrentPage() + pageOffset)
    }

    /** loopCollectionViewIfNeeded(): near either end of the 500 pages the
        view jumps to the same place on the middle page. */
    method LoopCollectionViewIfNeeded()
      requires hasValidLayout ==> CurrentTile().Positive()
      modifies collectionView
      ensures collectionView != null ==>
        collectionView.bounds == old(collectionView.bounds) && collectionView.frameSize == old(collectionView.frameSize) &&
        collectionView.contentInset == old(collectionView.contentInset) &&
        collectionView.layoutMargins == old(collectionView.layoutMargins)
      ensures collectionView != null && hasValidLayout ==>
        collectionView.contentOffset == LoopedOffset(CurrentTile(), old(collectionView.contentOffset)) &&
        !NearVirtualEdge(CurrentTile(), collectionView.contentOffset)
      ensures collectionView != null && !hasValidLayout ==> collectionView.contentOffset == old(collectionView.contentOffset)
    {
      if collectionView == null || !hasValidLayout {
        return;
      }
      var t := CurrentTile();
      LoopedOffsetIdempotent(t, collectionView.contentOffset);
      var page := PageFor(t, collectionView.contentOffset);
      var offset := PreferredContentOffset(t, collectionView.contentOffset);
      if (page < 2 || page > PageCount - 2) && collectionView.contentOffset != offset {
        collectionView.SetContentOffset(offset);
      }
    }

    /** preferredVisibleLayoutAttributes() with every argument defaulted:
        the record nearest the current offset; nothing without a collection
        view. */
    function PreferredVisibleAtRest(): Option<Attributes>
      reads this, collectionView
      requires hasValidLayout ==> CurrentTile().Positive()
    {
      if collectionView == null then None
      else PreferredVisibleLayoutAttributes(CurrentTile(), hasValidLayout, flow.elementsIn,
                                            collectionView.Snapshot(), None, ZeroPoint, None, None)
    }

    /** centerCollectionView(withVelocity:targetContentOffset:): the value left
        in the target pointer. */
    method CenterCollectionView(velocity: Point, target: Point) returns (newTarget: Point)
      requires hasValidLayout ==> CurrentTile().Positive()
      ensures collectionView == null || !hasValidLayout ==> newTarget == target
      ensures collectionView != null && hasValidLayout ==>
        newTarget == CenteredTarget(CurrentTile(), flow.elementsIn, collectionView.Snapshot(),
                                    velocityMultiplier, velocity, target)
    {
      if collectionView == null || !hasValidLayout {
        return target;
      }
      var t := CurrentTile();
      var v := collectionView.Snapshot();
      var projected := ProjectedOffset(t.direction, v, velocityMultiplier, velocity, target);
      var preferred := PreferredVisibleLayoutAttributes(t, true, flow.elementsIn, v, Some(projected),
                                                         velocity, Some(target), None);
      newTarget := target;
      if preferred.Some? {
        newTarget := CenteredContentOffset(t.direction, v, preferred.value.frame);
      }
    }

    /** centerCollectionViewIfNeeded(indexPath:): scrolls to centre the
        requested (or else the nearest) visible record. */
    method CenterCollectionViewIfNeeded(indexPath: Option<IndexPath>)
      requires hasValidLayout ==> CurrentTile().Positive()
      modifies collectionView
      ensures collectionView != null ==>
        collectionView.bounds == old(collectionView.bounds) && collectionView.frameSize == old(collectionView.frameSize) &&
        collectionView.contentInset == old(collectionView.contentInset) &&
        collectionView.layoutMargins == old(collectionView.layoutMargins)
      ensures collectionView != null ==>
        var written := if hasValidLayout
          then CenterIfNeededOffset(CurrentTile(), flow.elementsIn, old(collectionView.Snapshot()), indexPath)
          else None;
        collectionView.contentOffset == if written.Some? then written.value else old(collectionView.contentOffset)
    {
      if collectionView == null || !hasValidLayout {
        return;
      }
      var t := CurrentTile();
      var v := collectionView.Snapshot();
      var preferred := PreferredVisibleLayoutAttributes(t, true, flow.elementsIn, v, None, ZeroPoint, None, indexPath);
      if preferred.None? {
        return;
      }
      var offset := CenteredContentOffset(t.direction, v, preferred.value.frame);
      if collectionView.contentOffset != offset {
        collectionView.SetContentOffset(offset);
      }
    }
  }
}
