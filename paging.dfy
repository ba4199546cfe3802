/** Item paging of the looping layout: which record the view snaps to after a
    drag, and where to scroll so that a record sits in the middle of the
    visible area. Everything here reads a snapshot of the collection view's
    scroll state (a Viewport); the layout class supplies it. */
module Paging {
  import opened Wrappers
  import opened Geometry
  import opened Flow
  import opened Tiling

  /** What the layout reads from its collection view: bounds and frame sizes,
      the scroll offset, the content inset and the layout margins. */
  datatype Viewport = Viewport(
    bounds: Size,
    frameSize: Size,
    contentOffset: Point,
    contentInset: Insets,
    layoutMargins: Insets)

  /** Content inset and layout margins added edge by edge. */
  function Margins(v: Viewport): Insets {
    Insets(v.contentInset.top + v.layoutMargins.top,
           v.contentInset.left + v.layoutMargins.left,
           v.contentInset.bottom + v.layoutMargins.bottom,
           v.contentInset.right + v.layoutMargins.right)
  }

  /** collectionViewRect(): the bounds with the margins taken off every edge,
      in the collection view's own coordinates. */
  function CollectionViewRect(v: Viewport): (r: Rect)
    ensures r.origin == Point(Margins(v).left, Margins(v).top)
    ensures r.MaxX() == v.bounds.width - Margins(v).right
    ensures r.MaxY() == v.bounds.height - Margins(v).bottom
  {
    var m := Margins(v);
    Rect(Point(m.left, m.top),
         Size(v.bounds.width - m.left - m.right, v.bounds.height - m.top - m.bottom))
  }

  /** visibleCollectionViewRect(): that rect in content coordinates. */
  function VisibleCollectionViewRect(v: Viewport): (r: Rect)
    ensures r.size == CollectionViewRect(v).size
    ensures r.origin.x - v.contentOffset.x == Margins(v).left
    ensures r.origin.y - v.contentOffset.y == Margins(v).top
  {
    var c := CollectionViewRect(v);
    Rect(Point(c.origin.x + v.contentOffset.x, c.origin.y + v.contentOffset.y), c.size)
  }

  /** The midpoint of `r` on the scrolling axis (midX or midY). */
  function Mid(d: ScrollDirection, r: Rect): real {
    Along(d, r.origin) + Extent(d, r.size) / 2.0
  }

  /** centeredContentOffset(forRect:): on the scrolling axis, the distance
      between the frame's midpoint and the midpoint of the margin-inset rect;
      across it, the current offset. */
  function CenteredContentOffset(d: ScrollDirection, v: Viewport, frame: Rect): (r: Point)
    ensures Along(d, r) >= 0.0
    ensures Cross(d, r) == Cross(d, v.contentOffset)
    ensures Along(d, r) == Mid(d, frame) - Mid(d, CollectionViewRect(v)) ||
            Along(d, r) == Mid(d, CollectionViewRect(v)) - Mid(d, frame)
  {
    var c := CollectionViewRect(v);
    var along := Abs(Mid(d, frame) - Along(d, c.origin) - Extent(d, c.size) / 2.0);
    PointOn(d, along, Cross(d, v.contentOffset))
  }

  /** Scrolling to the centred offset of a frame that lies past the middle of
      the margin-inset rect puts the frame's midpoint on the midpoint of the
      visible rect, and leaves the visible rect where it was across the axis. */
  lemma CenteringAlignsMidpoints(d: ScrollDirection, v: Viewport, frame: Rect)
    requires Mid(d, frame) >= Mid(d, CollectionViewRect(v))
    ensures var w := v.(contentOffset := CenteredContentOffset(d, v, frame));
      Mid(d, VisibleCollectionViewRect(w)) == Mid(d, frame) &&
      Cross(d, VisibleCollectionViewRect(w).origin) == Cross(d, VisibleCollectionViewRect(v).origin)
  {
  }

  /** The sort key of visibleLayoutAttributes: how far the record's centred
      offset is from the current offset on the scrolling axis. */
  function Distance(d: ScrollDirection, v: Viewport, a: Attributes): real {
    Abs(Along(d, v.contentOffset) - Along(d, CenteredContentOffset(d, v, a.frame)))
  }

  predicate SortedBy(s: seq<Attributes>, key: Attributes -> real) {
    forall i, j :: 0 <= i < j < |s| ==> key(s[i]) <= key(s[j])
  }

  /** Inserts `x` before the first element with a key not below its own. */
  function Insert(x: Attributes, s: seq<Attributes>, key: Attributes -> real): (r: seq<Attributes>)
    ensures |r| == |s| + 1
    ensures multiset(r) == multiset(s) + multiset{x}
    ensures r[0] == x || (|s| > 0 && r[0] == s[0])
    ensures SortedBy(s, key) ==> SortedBy(r, key)
  {
    if |s| == 0 then [x]
    else if key(x) <= key(s[0]) then [x] + s
    else
      assert s == [s[0]] + s[1..];
      [s[0]] + Insert(x, s[1..], key)
  }

  /** Sorting by ascending key; Swift's sorted(by:) with a strict "less than"
      comparator. */
  function SortBy(s: seq<Attributes>, key: Attributes -> real): (r: seq<Attributes>)
    ensures SortedBy(r, key)
    ensures multiset(r) == multiset(s)
  {
    if |s| == 0 then []
    else
      assert s == [s[0]] + s[1..];
      Insert(s[0], SortBy(s[1..], key), key)
  }

  /** first(where:) as an index. */
  function FirstWhere(s: seq<Attributes>, p: Attributes -> bool): (r: Option<nat>)
    ensures r.Some? ==> r.value < |s| && p(s[r.value]) && forall j :: 0 <= j < r.value ==> !p(s[j])
    ensures r.None? ==> forall j :: 0 <= j < |s| ==> !p(s[j])
  {
    if |s| == 0 then None
    else if p(s[0]) then Some(0)
    else match FirstWhere(s[1..], p)
      case None => None
      case Some(i) => Some(i + 1)
  }

  /** visibleLayoutAttributes(at:): the records of the rect the size of the
      collection view's frame at `offset` (the current offset when absent),
      ordered by their distance from the current offset. */
  function VisibleLayoutAttributes(t: Tile, hasValidLayout: bool, flowElements: Rect -> seq<Attributes>,
                                   v: Viewport, offset: Option<Point>): (r: seq<Attributes>)
    requires hasValidLayout ==> t.Positive()
    ensures SortedBy(r, (a: Attributes) => Distance(t.direction, v, a))
    ensures multiset(r) == multiset(ElementsInRect(t, hasValidLayout, flowElements,
      Rect(if offset.Some? then offset.value else v.contentOffset, v.frameSize)))
  {
    var origin := if offset.Some? then offset.value else v.contentOffset;
    SortBy(ElementsInRect(t, hasValidLayout, flowElements, Rect(origin, v.frameSize)),
           (a: Attributes) => Distance(t.direction, v, a))
  }

  /** A record lies ahead of the current offset when its centred offset does. */
  predicate Ahead(d: ScrollDirection, v: Viewport, p: Point) {
    Along(d, p) > Along(d, v.contentOffset)
  }

  /** The direction filter of preferredVisibleLayoutAttributes: the record's
      centred offset lies on the same side of the current offset as the
      target, or the velocity along the scrolling axis is zero. */
  predicate Qualifies(d: ScrollDirection, v: Viewport, velocity: Point, targetAhead: bool, a: Attributes) {
    Ahead(d, v, CenteredContentOffset(d, v, a.frame)) == targetAhead || Along(d, velocity) == 0.0
  }

  /** preferredVisibleLayoutAttributes over an already computed visible list:
      the first record with the requested index path if there is one,
      otherwise the first record passing the direction filter. */
  function PreferredAmong(d: ScrollDirection, v: Viewport, visible: seq<Attributes>, velocity: Point,
                          targetOffset: Option<Point>, indexPath: Option<IndexPath>): (r: Option<Attributes>)
    ensures r.Some? ==> r.value in visible
  {
    var requested := if indexPath.Some? then FirstWhere(visible, (a: Attributes) => a.indexPath == indexPath.value) else None;
    if requested.Some? then Some(visible[requested.value])
    else
      var targetAhead := Ahead(d, v, if targetOffset.Some? then targetOffset.value else v.contentOffset);
      match FirstWhere(visible, (a: Attributes) => Qualifies(d, v, velocity, targetAhead, a))
      case None => None
      case Some(i) => Some(visible[i])
  }

  /** A requested index path that is visible is returned as is. */
  lemma RequestedPathWins(d: ScrollDirection, v: Viewport, visible: seq<Attributes>, velocity: Point,
                          targetOffset: Option<Point>, p: IndexPath, i: nat)
    requires i < |visible| && visible[i].indexPath == p
    ensures var r := PreferredAmong(d, v, visible, velocity, targetOffset, Some(p));
      r.Some? && r.value.indexPath == p
  {
    var requested := FirstWhere(visible, (a: Attributes) => a.indexPath == p);
    assert !((a: Attributes) => a.indexPath == p)(visible[i]) ==> false;
  }

  /** When no visible record carries the requested path, the search for it fails. */
  lemma RequestedAbsent(visible: seq<Attributes>, p: IndexPath)
    requires forall a :: a in visible ==> a.indexPath != p
    ensures FirstWhere(visible, (a: Attributes) => a.indexPath == p).None?
  {
    forall j | 0 <= j < |visible|
      ensures visible[j].indexPath != p
    {
      assert visible[j] in visible;
    }
  }

  /** Without a visible requested path, over a list ordered by distance, the
      result is a record passing the direction filter that is no farther than
      any other record passing it; there is none exactly when no record passes. */
  lemma NearestInDirection(d: ScrollDirection, v: Viewport, visible: seq<Attributes>, velocity: Point,
                           targetOffset: Option<Point>, indexPath: Option<IndexPath>)
    requires SortedBy(visible, (a: Attributes) => Distance(d, v, a))
    requires indexPath.None? || forall a :: a in visible ==> a.indexPath != indexPath.value
    ensures var targetAhead := Ahead(d, v, if targetOffset.Some? then targetOffset.value else v.contentOffset);
      var r := PreferredAmong(d, v, visible, velocity, targetOffset, indexPath);
      (r.None? <==> forall b :: b in visible ==> !Qualifies(d, v, velocity, targetAhead, b)) &&
      (r.Some? ==>
        Qualifies(d, v, velocity, targetAhead, r.value) &&
        forall b :: b in visible && Qualifies(d, v, velocity, targetAhead, b) ==>
          Distance(d, v, r.value) <= Distance(d, v, b))
  {
    var targetAhead := Ahead(d, v, if targetOffset.Some? then targetOffset.value else v.contentOffset);
    var q := (a: Attributes) => Qualifies(d, v, velocity, targetAhead, a);
    if indexPath.Some? {
      RequestedAbsent(visible, indexPath.value);
    }
    var found := FirstWhere(visible, q);
    if found.Some? {
      var i := found.value;
      forall b | b in visible && q(b)
        ensures Distance(d, v, visible[i]) <= Distance(d, v, b)
      {
        var j :| 0 <= j < |visible| && visible[j] == b;
        assert i <= j;
      }
    } else {
      forall b | b in visible
        ensures !q(b)
      {
        var j :| 0 <= j < |visible| && visible[j] == b;
      }
    }
  }

  /** With no velocity along the scrolling axis and no visible requested path,
      the head of the ordered list is chosen, and it is the nearest record. */
  lemma AtRestPicksNearest(d: ScrollDirection, v: Viewport, visible: seq<Attributes>, velocity: Point,
                           targetOffset: Option<Point>, indexPath: Option<IndexPath>)
    requires |visible| > 0 && Along(d, velocity) == 0.0
    requires SortedBy(visible, (a: Attributes) => Distance(d, v, a))
    requires indexPath.None? || forall a :: a in visible ==> a.indexPath != indexPath.value
    ensures PreferredAmong(d, v, visible, velocity, targetOffset, indexPath) == Some(visible[0])
    ensures forall b :: b in visible ==> Distance(d, v, visible[0]) <= Distance(d, v, b)
  {
    if indexPath.Some? {
      RequestedAbsent(visible, indexPath.value);
    }
    forall b | b in visible
      ensures Distance(d, v, visible[0]) <= Distance(d, v, b)
    {
      var j :| 0 <= j < |visible| && visible[j] == b;
      assert j == 0 || 0 < j;
    }
  }

  /** preferredVisibleLayoutAttributes(at:velocity:targetOffset:indexPath:). */
  function PreferredVisibleLayoutAttributes(t: Tile, hasValidLayout: bool, flowElements: Rect -> seq<Attributes>,
                                            v: Viewport, offset: Option<Point>, velocity: Point,
                                            targetOffset: Option<Point>, indexPath: Option<IndexPath>): (r: Option<Attributes>)
    requires hasValidLayout ==> t.Positive()
    ensures r.Some? ==> r.value in multiset(ElementsInRect(t, hasValidLayout, flowElements,
      Rect(if offset.Some? then offset.value else v.contentOffset, v.frameSize)))
  {
    PreferredAmong(t.direction, v, VisibleLayoutAttributes(t, hasValidLayout, flowElements, v, offset),
                   velocity, targetOffset, indexPath)
  }

  /** The drag's projected end point in centerCollectionView: the current
      offset moved by the velocity times the velocity multiplier along the
      scrolling axis, the target's coordinate across it. */
  function ProjectedOffset(d: ScrollDirection, v: Viewport, velocityMultiplier: real, velocity: Point, target: Point): Point {
    PointOn(d, Along(d, v.contentOffset) + Along(d, velocity) * velocityMultiplier, Cross(d, target))
  }

  /** centerCollectionView(withVelocity:targetContentOffset:) on a valid
      layout: the new target offset. The preferred record around the
      projected end point is centred; without one the target stays. */
  function CenteredTarget(t: Tile, flowElements: Rect -> seq<Attributes>, v: Viewport,
                          velocityMultiplier: real, velocity: Point, target: Point): (r: Point)
    requires t.Positive()
    ensures r == target || (Along(t.direction, r) >= 0.0 && Cross(t.direction, r) == Cross(t.direction, v.contentOffset))
  {
    var projected := ProjectedOffset(t.direction, v, velocityMultiplier, velocity, target);
    match PreferredVisibleLayoutAttributes(t, true, flowElements, v, Some(projected), velocity, Some(target), None)
    case None => target
    case Some(a) => CenteredContentOffset(t.direction, v, a.frame)
  }

  /** The target moves exactly when some record around the projected end
      point passes the direction filter (the target's side of the current
      offset, or any side at zero velocity); it then centres the nearest such
      record. */
  lemma SnapIsNearestInDirection(t: Tile, flowElements: Rect -> seq<Attributes>, v: Viewport,
                                 velocityMultiplier: real, velocity: Point, target: Point)
    requires t.Positive()
    ensures var d := t.direction;
      var visible := VisibleLayoutAttributes(t, true, flowElements, v,
        Some(ProjectedOffset(d, v, velocityMultiplier, velocity, target)));
      var pref := PreferredAmong(d, v, visible, velocity, Some(target), None);
      var r := CenteredTarget(t, flowElements, v, velocityMultiplier, velocity, target);
      (pref.None? <==> forall b :: b in visible ==> !Qualifies(d, v, velocity, Ahead(d, v, target), b)) &&
      (pref.None? ==> r == target) &&
      (pref.Some? ==>
        r == CenteredContentOffset(d, v, pref.value.frame) &&
        pref.value in visible && Qualifies(d, v, velocity, Ahead(d, v, target), pref.value) &&
        forall b :: b in visible && Qualifies(d, v, velocity, Ahead(d, v, target), b) ==>
          Distance(d, v, pref.value) <= Distance(d, v, b))
  {
    var d := t.direction;
    var visible := VisibleLayoutAttributes(t, true, flowElements, v,
      Some(ProjectedOffset(d, v, velocityMultiplier, velocity, target)));
    NearestInDirection(d, v, visible, velocity, Some(target), None);
  }

  /** centerCollectionViewIfNeeded(indexPath:) on a valid layout: the offset
      written, if any. The preferred record at the current offset, at rest, is
      centred unless the view is already there. */
  function CenterIfNeededOffset(t: Tile, flowElements: Rect -> seq<Attributes>, v: Viewport,
                                indexPath: Option<IndexPath>): (r: Option<Point>)
    requires t.Positive()
    ensures r.Some? ==> r.value != v.contentOffset
  {
    match PreferredVisibleLayoutAttributes(t, true, flowElements, v, None, ZeroPoint, None, indexPath)
    case None => None
    case Some(a) =>
      var offset := CenteredContentOffset(t.direction, v, a.frame);
      if offset == v.contentOffset then None else Some(offset)
  }

  /** At rest, the choice is the requested index path when a record for it
      is visible, and otherwise the head of the ordered list, which is the
      record nearest the current offset; an empty list yields nothing. */
  lemma AtRestChoosesRequestedOrNearest(d: ScrollDirection, v: Viewport, visible: seq<Attributes>,
                                        indexPath: Option<IndexPath>)
    requires SortedBy(visible, (a: Attributes) => Distance(d, v, a))
    ensures var pref := PreferredAmong(d, v, visible, ZeroPoint, None, indexPath);
      (|visible| == 0 ==> pref.None?) &&
      (indexPath.Some? && (exists b :: b in visible && b.indexPath == indexPath.value) ==>
        pref.Some? && pref.value.indexPath == indexPath.value) &&
      ((indexPath.None? || forall b :: b in visible ==> b.indexPath != indexPath.value) && |visible| > 0 ==>
        pref == Some(visible[0]) && forall b :: b in visible ==> Distance(d, v, visible[0]) <= Distance(d, v, b))
  {
    if indexPath.Some? && exists b :: b in visible && b.indexPath == indexPath.value {
      var b :| b in visible && b.indexPath == indexPath.value;
      var i :| 0 <= i < |visible| && visible[i] == b;
      RequestedPathWins(d, v, visible, ZeroPoint, None, indexPath.value, i);
    }
    if (indexPath.None? || forall b :: b in visible ==> b.indexPath != indexPath.value) && |visible| > 0 {
      AtRestPicksNearest(d, v, visible, ZeroPoint, None, indexPath);
    }
  }

  /** The offset written is the centred offset of the record chosen at rest
      among the records visible at the current offset, and it is written
      exactly when the view is not already there. */
  lemma CenterIfNeededCentresPreferred(t: Tile, flowElements: Rect -> seq<Attributes>, v: Viewport,
                                       indexPath: Option<IndexPath>)
    requires t.Positive()
    ensures var visible := VisibleLayoutAttributes(t, true, flowElements, v, None);
      var pref := PreferredAmong(t.direction, v, visible, ZeroPoint, None, indexPath);
      var r := CenterIfNeededOffset(t, flowElements, v, indexPath);
      (r.Some? <==> pref.Some? && CenteredContentOffset(t.direction, v, pref.value.frame) != v.contentOffset) &&
      (r.Some? ==> r.value == CenteredContentOffset(t.direction, v, pref.value.frame)) &&
      SortedBy(visible, (a: Attributes) => Distance(t.direction, v, a))
  {
  }
}
