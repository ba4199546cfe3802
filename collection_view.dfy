/** The looping collection view: it installs the forwarding proxies, reports
    inflated counts computed from the host data source, keeps the centred
    index path and the focus, and turns scroll and selection requests into
    offsets on the looping layout. */
module CollectionViews {
  import opened Wrappers
  import opened Geometry
  import opened Flow
  import opened Tiling
  import opened Paging
  import opened Layouts
  import opened Proxies
  import Planner = InfiniteDataSources

  const MissingDataSource: string := "collectionView dataSource is required"

  /** delegateNumberOfSections: the host's numberOfSections(in:) if it
      implements it, 1 if it does not; fatal without a host. */
  function HostSections(host: Option<Responder>): (r: Result<int, string>)
    ensures host.None? <==> r.Failure?
    ensures host.Some? && NumberOfSections in host.value.selectors ==> r == Success(host.value.answers.sections)
    ensures host.Some? && NumberOfSections !in host.value.selectors ==> r == Success(1)
  {
    match host
    case None => Failure(MissingDataSource)
    case Some(h) => Success(if NumberOfSections in h.selectors then h.answers.sections else 1)
  }

  /** delegateNumberOfItems(in:): the host's count for the real section the
      virtual one maps to; fatal without a host, and the mapping traps on zero
      sections. */
  function HostItems(host: Option<Responder>, section: int): (r: Result<int, string>)
    ensures r.Success? <==> host.Some? && HostSections(host).value != 0
    ensures r.Success? ==>
      r.value == host.value.answers.itemsIn(Planner.SectionFrom(section, HostSections(host).value))
  {
    match host
    case None => Failure(MissingDataSource)
    case Some(h) =>
      var n := HostSections(host).value;
      if n == 0 then Failure("division by zero")
      else Success(h.answers.itemsIn(Planner.SectionFrom(section, n)))
  }

  /** The items the host reports for virtual sections 0 to k - 1 out of n. */
  function ItemTotal(host: Responder, n: int, k: nat): int
    requires k == 0 || n != 0
  {
    if k == 0 then 0
    else ItemTotal(host, n, k - 1) + host.answers.itemsIn(Planner.SectionFrom(k - 1, n))
  }

  /** The host's counts for its real sections 0 to n - 1. */
  function RealCounts(host: Responder, n: nat): (r: seq<int>)
    ensures |r| == n && forall s :: 0 <= s < n ==> r[s] == host.answers.itemsIn(s)
  {
    seq(n, (s: int) => host.answers.itemsIn(s))
  }

  /** Summing over the real sections asks each real section exactly once. */
  lemma {:induction false} ItemTotalIsRealSum(host: Responder, n: nat, k: nat)
    requires k <= n && n > 0
    ensures ItemTotal(host, n, k) == Planner.Sum(RealCounts(host, n)[..k])
  {
    if k > 0 {
      ItemTotalIsRealSum(host, n, k - 1);
      Planner.SmallRemainder(k - 1, n);
      assert RealCounts(host, n)[..k][..k - 1] == RealCounts(host, n)[..k - 1];
    }
  }

  /** The multiplier getter: the real item total over the real sections fed
      to the planner. A negative section count makes the range trap; a zero
      item size on content past the threshold makes Int(ceil(...)) trap. */
  function MultiplierFor(host: Option<Responder>, flow: FlowLayout, screen: Size): (r: Result<int, string>)
    ensures HostSections(host).Failure? ==> r.Failure?
    ensures r.Success? ==>
      var n := HostSections(host).value;
      var total := if n <= 0 then 0 else ItemTotal(host.value, n, n);
      n >= 0 && Planner.MultiplierDefined(flow, n, total, flow.scrollDirection, screen) &&
      r.value == Planner.Multiplier(flow, n, total, flow.scrollDirection, screen)
  {
    match HostSections(host)
    case Failure(e) => Failure(e)
    case Success(n) =>
      if n < 0 then Failure("range requires lowerBound <= upperBound")
      else
        var total := if n <= 0 then 0 else ItemTotal(host.value, n, n);
        if !Planner.MultiplierDefined(flow, n, total, flow.scrollDirection, screen) then Failure("ceil of infinity")
        else Success(Planner.Multiplier(flow, n, total, flow.scrollDirection, screen))
  }

  /** numberOfSections(in:) of the collection view. */
  function ReportedSections(host: Option<Responder>, flow: FlowLayout, screen: Size): (r: Result<int, string>)
    ensures r.Success? <==> MultiplierFor(host, flow, screen).Success?
    ensures r.Success? ==>
      r.value == Planner.NumberOfSections(HostSections(host).value, MultiplierFor(host, flow, screen).value)
  {
    match MultiplierFor(host, flow, screen)
    case Failure(e) => Failure(e)
    case Success(m) => Success(Planner.NumberOfSections(HostSections(host).value, m))
  }

  /** collectionView(_:numberOfItemsInSection:) of the collection view. */
  function ReportedItems(host: Option<Responder>, flow: FlowLayout, screen: Size, section: int): (r: Result<int, string>)
    ensures r.Success? <==> HostItems(host, section).Success? && MultiplierFor(host, flow, screen).Success?
    ensures r.Success? ==>
      r.value == Planner.NumberOfItemsInSection(HostItems(host, section).value, HostSections(host).value,
                                                MultiplierFor(host, flow, screen).value)
  {
    match HostItems(host, section)
    case Failure(e) => Failure(e)
    case Success(items) =>
      match MultiplierFor(host, flow, screen)
      case Failure(e) => Failure(e)
      case Success(m) => Success(Planner.NumberOfItemsInSection(items, HostSections(host).value, m))
  }

  /** Whatever the host answers, every reported virtual section holds the
      count of the real section it maps to, and all the reported items
      together are `multiplier` copies of the host's real items; the
      multiplier is at least 1 for a positive item size and screen. */
  lemma ReportedTotalIsMultiple(host: Responder, flow: FlowLayout, screen: Size)
    requires MultiplierFor(Some(host), flow, screen).Success?
    requires HostSections(Some(host)).value > 0
    ensures var n := HostSections(Some(host)).value;
      var m := MultiplierFor(Some(host), flow, screen).value;
      (forall s :: 0 <= s < ReportedSections(Some(host), flow, screen).value ==>
        ReportedItems(Some(host), flow, screen, s) ==
          Success(Planner.NumberOfItemsInSection(RealCounts(host, n)[Planner.SectionFrom(s, n)], n, m))) &&
      (m >= 0 ==> Planner.VirtualTotal(RealCounts(host, n), m) == m * ItemTotal(host, n, n))
    ensures var m := MultiplierFor(Some(host), flow, screen).value;
      Planner.ItemSizeAlong(flow, flow.scrollDirection) > 0.0 && screen.width > 0.0 && screen.height > 0.0 ==> m >= 1
  {
    var n := HostSections(Some(host)).value;
    var m := MultiplierFor(Some(host), flow, screen).value;
    ItemTotalIsRealSum(host, n, n);
    assert RealCounts(host, n)[..n] == RealCounts(host, n);
    if m >= 0 {
      Planner.VirtualTotalIsMultiple(RealCounts(host, n), m);
    }
    if Planner.ItemSizeAlong(flow, flow.scrollDirection) > 0.0 && screen.width > 0.0 && screen.height > 0.0 {
      Planner.MultiplierAtLeastOne(flow, n, ItemTotal(host, n, n), flow.scrollDirection, screen);
    }
  }

  /** What a delegate or dataSource assignment carries: one of the forwarding
      proxies, or any other object. */
  datatype Assignment = ProxyObject(proxy: ForwardingProxy) | HostObject(host: Responder)

  datatype ScrollPosition = CenteredHorizontally | OtherPosition

  datatype SwipeDirection = Left | Right | Up | Down

  /** What selectItem(at:animated:scrollPosition:direction:) does besides the
      final selection: a manual pre-scroll to the copy of the item `pageOffset`
      pages away, or nothing. */
  datatype SelectionPlan = ManualSelection(pageOffset: int) | PlainSelection

  /** The selection's wrap-around rule: moving left from (0, 0), or right onto
      (0, 0), first scrolls one page that way; every other case selects
      directly. */
  function SelectionPlanFor(isEnabled: bool, indexPath: IndexPath, direction: SwipeDirection,
                            previouslySelected: Option<IndexPath>): (r: SelectionPlan)
    ensures r.ManualSelection? ==> isEnabled && previouslySelected.Some? && (r.pageOffset == -1 || r.pageOffset == 1)
    ensures r == ManualSelection(-1) <==>
      isEnabled && previouslySelected == Some(IndexPath(0, 0)) && direction == Left
    ensures r == ManualSelection(1) <==>
      isEnabled && previouslySelected.Some? && indexPath == IndexPath(0, 0) && direction == Right
  {
    if !isEnabled || previouslySelected.None? then PlainSelection
    else if direction == Left && previouslySelected.value == IndexPath(0, 0) then ManualSelection(-1)
    else if direction == Right && indexPath == IndexPath(0, 0) then ManualSelection(1)
    else PlainSelection
  }

  /** The x offset that shows a frame's midpoint at `centerX` from the left of
      the view: x - (center.x - width / 2). */
  function CenteringX(frame: Rect, centerX: real): (x: real)
    ensures frame.MidX() - x == centerX
  {
    frame.origin.x - (centerX - frame.size.width / 2.0)
  }

  /** The x origin of an item's frame moved by rect(from:page:) with the
      page point (250, y): on the scrolling axis when it is horizontal, where
      the frame lands on page 250 at its place in the tile; across it when
      vertical, where only the truncating remainder and 250 widths apply. */
  function MiddlePageX(t: Tile, frame: Rect): (x: real)
    requires t.Positive()
    ensures t.direction == Horizontal ==>
      InTile(x, 250, t.Span()) && Congruent(x, frame.origin.x, t.Span())
    ensures t.direction == Vertical ==>
      x - Tiles(250, t.size.width) == TruncatingRemainder(frame.origin.x, t.size.width)
  {
    if t.direction == Horizontal then RectFrom(t, frame, 250).origin.x
    else RectFrom(t, frame, 0).origin.x + Tiles(250, t.size.width)
  }

  /** The offset after the layout's centerCollectionViewIfNeeded(indexPath:)
      on a view in state `v`: the centring offset when one is written, the
      old offset otherwise. */
  function OffsetAfterCentering(hasValidLayout: bool, t: Tile, flow: FlowLayout, v: Viewport,
                                indexPath: Option<IndexPath>): Point
    requires hasValidLayout ==> t.Positive()
  {
    var written := if hasValidLayout then CenterIfNeededOffset(t, flow.elementsIn, v, indexPath) else None;
    if written.Some? then written.value else v.contentOffset
  }

  /** The offset after the loop and centring steps of updateLayoutIfNeeded()
      on a view in state `v`: the looped offset on a valid layout, then the
      centring offset when `centre` holds and one is written. Without
      centring, a valid layout leaves the offset away from both ends. */
  function OffsetAfterLayoutPass(hasValidLayout: bool, t: Tile, flow: FlowLayout, v: Viewport, centre: bool,
                                 indexPath: Option<IndexPath>): (r: Point)
    requires hasValidLayout ==> t.Positive()
    ensures hasValidLayout && !centre ==> !NearVirtualEdge(t, r)
    ensures !hasValidLayout ==> r == v.contentOffset
  {
    if !hasValidLayout then v.contentOffset
    else
      LoopedOffsetIdempotent(t, v.contentOffset);
      var looped := v.(contentOffset := LoopedOffset(t, v.contentOffset));
      if centre then OffsetAfterCentering(true, t, flow, looped, indexPath) else looped.contentOffset
  }

  /** InfiniteCollectionView */
  class InfiniteCollectionView {
    /** The view itself as an entry of the proxies' responder lists. */
    const selfResponder: Responder
    const layout: InfiniteLayout
    const scrollView: ScrollView
    const delegateProxy: ForwardingProxy
    const dataSourceProxy: ForwardingProxy
    /** super.delegate and super.dataSource. */
    var installedDelegate: Option<ForwardingProxy>
    var installedDataSource: Option<ForwardingProxy>
    var centeredIndexPath: Option<IndexPath>
    var preferredCenteredIndexPath: Option<IndexPath>
    var lastFocusedIndexPath: Option<IndexPath>
    var shouldLayoutSubviews: bool
    /** _contentSize: the content size the view last centred for. */
    var cachedContentSize: Option<Size>
    var isItemPagingEnabled: bool
    var isDragging: bool
    var isDecelerating: bool
    /** Whether an infiniteDelegate implementing the centred-path callback is set. */
    var hasInfiniteDelegate: bool
    /** The didChangeCenteredIndexPath callbacks sent so far. */
    var notifications: seq<IndexPath>

    ghost predicate Valid()
      reads this, layout, delegateProxy, dataSourceProxy
    {
      layout.collectionView == scrollView &&
      delegateProxy != dataSourceProxy &&
      delegateProxy.kind == DelegateProxy && dataSourceProxy.kind == DataSourceProxy &&
      selfResponder.isCollectionView &&
      |delegateProxy.proxies| >= 1 && delegateProxy.proxies[0] == selfResponder &&
      |dataSourceProxy.proxies| >= 1 && dataSourceProxy.proxies[0] == selfResponder
    }

    /** init(frame:collectionViewLayout:): the flow layout is wrapped in a
        looping layout and both proxies start with the view alone. */
    constructor(selfResponder: Responder, flow: FlowLayout, bounds: Rect, frameSize: Size,
                contentInset: Insets, layoutMargins: Insets)
      requires selfResponder.isCollectionView
      ensures Valid()
      ensures this.selfResponder == selfResponder
      ensures layout.flow == flow && layout.isEnabled && !layout.hasValidLayout && layout.oldContentSize == None
      ensures scrollView.bounds == bounds && scrollView.contentOffset == ZeroPoint
      ensures delegateProxy.proxies == [selfResponder] && dataSourceProxy.proxies == [selfResponder]
      ensures installedDelegate == None && installedDataSource == None
      ensures centeredIndexPath == None && preferredCenteredIndexPath == Some(IndexPath(0, 0))
      ensures lastFocusedIndexPath == None && shouldLayoutSubviews && cachedContentSize == None
      ensures !isItemPagingEnabled && notifications == []
    {
      this.selfResponder := selfResponder;
      var view := new ScrollView(bounds, frameSize, ZeroPoint, contentInset, layoutMargins);
      scrollView := view;
      layout := new InfiniteLayout(flow, view);
      delegateProxy := new ForwardingProxy(DelegateProxy, selfResponder);
      dataSourceProxy := new ForwardingProxy(DataSourceProxy, selfResponder);
      installedDelegate := None;
      installedDataSource := None;
      centeredIndexPath := None;
      preferredCenteredIndexPath := Some(IndexPath(0, 0));
      lastFocusedIndexPath := None;
      shouldLayoutSubviews := true;
      cachedContentSize := None;
      isItemPagingEnabled := false;
      isDragging := false;
      isDecelerating := false;
      hasInfiniteDelegate := false;
      notifications := [];
    }

    /** The delegate setter: nil uninstalls, a proxy is installed as is, any
        other object becomes the delegate proxy's host and the delegate proxy
        is installed. The property's type admits only delegate proxies. */
    method SetDelegate(newValue: Option<Assignment>)
      requires Valid()
      requires newValue.Some? && newValue.value.ProxyObject? ==> newValue.value.proxy.kind == DelegateProxy
      modifies this, delegateProxy
      ensures Valid()
      ensures newValue.None? ==> installedDelegate == None
      ensures newValue.Some? && newValue.value.ProxyObject? ==> installedDelegate == Some(newValue.value.proxy)
      ensures newValue.Some? && newValue.value.HostObject? ==>
        installedDelegate == Some(delegateProxy) && DelegateOf(delegateProxy.proxies) == Some(newValue.value.host) &&
        delegateProxy.proxies == [selfResponder, newValue.value.host]
      ensures !(newValue.Some? && newValue.value.HostObject?) ==> delegateProxy.proxies == old(delegateProxy.proxies)
      ensures installedDataSource == old(installedDataSource) && centeredIndexPath == old(centeredIndexPath)
      ensures lastFocusedIndexPath == old(lastFocusedIndexPath) && notifications == old(notifications)
      ensures shouldLayoutSubviews == old(shouldLayoutSubviews) && cachedContentSize == old(cachedContentSize)
      ensures isItemPagingEnabled == old(isItemPagingEnabled) && isDragging == old(isDragging)
      ensures isDecelerating == old(isDecelerating) && hasInfiniteDelegate == old(hasInfiniteDelegate)
      ensures preferredCenteredIndexPath == old(preferredCenteredIndexPath)
    {
      match newValue
      case None =>
        installedDelegate := None;
      case Some(ProxyObject(p)) =>
        installedDelegate := Some(p);
      case Some(HostObject(h)) =>
        delegateProxy.SetDelegate(Some(h));
        SetDelegateThenGet(old(delegateProxy.proxies), Some(h));
        installedDelegate := Some(delegateProxy);
    }

    /** The dataSource setter, the mirror of the delegate setter; the
        property's type admits only data-source proxies. */
    method SetDataSource(newValue: Option<Assignment>)
      requires Valid()
      requires newValue.Some? && newValue.value.ProxyObject? ==> newValue.value.proxy.kind == DataSourceProxy
      modifies this, dataSourceProxy
      ensures Valid()
      ensures newValue.None? ==> installedDataSource == None
      ensures newValue.Some? && newValue.value.ProxyObject? ==> installedDataSource == Some(newValue.value.proxy)
      ensures newValue.Some? && newValue.value.HostObject? ==>
        installedDataSource == Some(dataSourceProxy) && HostDataSource() == Some(newValue.value.host) &&
        dataSourceProxy.proxies == [selfResponder, newValue.value.host]
      ensures !(newValue.Some? && newValue.value.HostObject?) ==> dataSourceProxy.proxies == old(dataSourceProxy.proxies)
      ensures installedDelegate == old(installedDelegate) && centeredIndexPath == old(centeredIndexPath)
      ensures lastFocusedIndexPath == old(lastFocusedIndexPath) && notifications == old(notifications)
      ensures shouldLayoutSubviews == old(shouldLayoutSubviews) && cachedContentSize == old(cachedContentSize)
      ensures isItemPagingEnabled == old(isItemPagingEnabled) && isDragging == old(isDragging)
      ensures isDecelerating == old(isDecelerating) && hasInfiniteDelegate == old(hasInfiniteDelegate)
      ensures preferredCenteredIndexPath == old(preferredCenteredIndexPath)
    {
      match newValue
      case None =>
        installedDataSource := None;
      case Some(ProxyObject(p)) =>
        installedDataSource := Some(p);
      case Some(HostObject(h)) =>
        dataSourceProxy.SetDelegate(Some(h));
        SetDelegateThenGet(old(dataSourceProxy.proxies), Some(h));
        installedDataSource := Some(dataSourceProxy);
    }

    /** The host data source: the data-source proxy's delegate. */
    function HostDataSource(): Option<Responder>
      reads dataSourceProxy
    {
      DelegateOf(dataSourceProxy.proxies)
    }

    /** The multiplier getter: a loop over the real sections summing the
        host's item counts, then the planner. */
    method Multiplier(screen: Size) returns (r: Result<int, string>)
      ensures r == MultiplierFor(HostDataSource(), layout.flow, screen)
    {
      var sections := HostSections(HostDataSource());
      if sections.Failure? {
        return Failure(sections.error);
      }
      var n := sections.value;
      if n < 0 {
        return Failure("range requires lowerBound <= upperBound");
      }
      var count := 0;
      for section := 0 to n
        invariant count == ItemTotal(HostDataSource().value, n, section)
      {
        var items := HostItems(HostDataSource(), section);
        count := count + items.value;
      }
      var flow := layout.flow;
      if !Planner.MultiplierDefined(flow, n, count, flow.scrollDirection, screen) {
        return Failure("ceil of infinity");
      }
      return Success(Planner.Multiplier(flow, n, count, flow.scrollDirection, screen));
    }

    /** numberOfSections(in:) */
    method NumberOfSections(screen: Size) returns (r: Result<int, string>)
      ensures r == ReportedSections(HostDataSource(), layout.flow, screen)
    {
      var sections := HostSections(HostDataSource());
      var multiplier := Multiplier(screen);
      if multiplier.Failure? {
        return Failure(multiplier.error);
      }
      return Success(Planner.NumberOfSections(sections.value, multiplier.value));
    }

    /** collectionView(_:numberOfItemsInSection:) */
    method NumberOfItemsInSection(section: int, screen: Size) returns (r: Result<int, string>)
      ensures r == ReportedItems(HostDataSource(), layout.flow, screen, section)
    {
      var items := HostItems(HostDataSource(), section);
      if items.Failure? {
        return Failure(items.error);
      }
      var multiplier := Multiplier(screen);
      if multiplier.Failure? {
        return Failure(multiplier.error);
      }
      return Success(Planner.NumberOfItemsInSection(items.value, HostSections(HostDataSource()).value, multiplier.value));
    }

    /** section(from:): fatal without a host or with zero sections. */
    function SectionFrom(infiniteSection: int): (r: Result<int, string>)
      reads dataSourceProxy
      ensures r.Success? <==> HostSections(HostDataSource()).Success? && HostSections(HostDataSource()).value != 0
      ensures r.Success? ==> r.value == Planner.SectionFrom(infiniteSection, HostSections(HostDataSource()).value)
      ensures r.Success? && HostSections(HostDataSource()).value > 0 && infiniteSection >= 0 ==>
        0 <= r.value < HostSections(HostDataSource()).value
    {
      match HostSections(HostDataSource())
      case Failure(e) => Failure(e)
      case Success(n) => if n == 0 then Failure("division by zero") else Success(Planner.SectionFrom(infiniteSection, n))
    }

    /** indexPath(from:): the real path of a virtual one, with the item count
        of the real section it maps to. */
    function IndexPathFrom(infinite: IndexPath): (r: Result<IndexPath, string>)
      reads dataSourceProxy
      ensures r.Success? <==> HostItems(HostDataSource(), infinite.section).Success?
      ensures r.Success? ==> r.value.section == SectionFrom(infinite.section).value
      ensures r.Success? ==>
        r.value == Planner.IndexPathFrom(infinite, HostSections(HostDataSource()).value,
                                         HostItems(HostDataSource(), infinite.section).value)
      ensures r.Success? && infinite.item >= 0 && HostItems(HostDataSource(), infinite.section).value > 0 ==>
        0 <= r.value.item < HostItems(HostDataSource(), infinite.section).value
    {
      match HostItems(HostDataSource(), infinite.section)
      case Failure(e) => Failure(e)
      case Success(items) =>
        Success(Planner.IndexPathFrom(infinite, HostSections(HostDataSource()).value, items))
    }

    /** The content size UIKit gives the scroll view: the layout's. */
    function ContentSize(): Size
      reads layout
    {
      layout.CollectionViewContentSize()
    }

    /** Whether centerCollectionViewIfNeeded() acts: item paging on, the view
        at rest and the content size not yet centred for. */
    predicate ShouldCenter()
      reads this, layout
    {
      isItemPagingEnabled && !isDragging && !isDecelerating && cachedContentSize != Some(ContentSize())
    }

    /** centerCollectionViewIfNeeded(): with item paging on and the view at
        rest, centres once per distinct content size. */
    method CenterCollectionViewIfNeeded()
      requires Valid() && (layout.hasValidLayout ==> layout.CurrentTile().Positive())
      modifies this, scrollView
      ensures Valid() && unchanged(layout)
      ensures old(ShouldCenter()) ==>
        cachedContentSize == Some(ContentSize()) &&
        scrollView.contentOffset == OffsetAfterCentering(layout.hasValidLayout, layout.CurrentTile(), layout.flow,
                                                         old(scrollView.Snapshot()), preferredCenteredIndexPath)
      ensures !old(ShouldCenter()) ==>
        cachedContentSize == old(cachedContentSize) && scrollView.contentOffset == old(scrollView.contentOffset)
      ensures isItemPagingEnabled && !isDragging && !isDecelerating ==> cachedContentSize == Some(ContentSize())
      ensures scrollView.bounds == old(scrollView.bounds) && scrollView.frameSize == old(scrollView.frameSize)
      ensures scrollView.contentInset == old(scrollView.contentInset) && scrollView.layoutMargins == old(scrollView.layoutMargins)
      ensures centeredIndexPath == old(centeredIndexPath) && notifications == old(notifications)
      ensures isItemPagingEnabled == old(isItemPagingEnabled) && isDragging == old(isDragging)
      ensures isDecelerating == old(isDecelerating) && preferredCenteredIndexPath == old(preferredCenteredIndexPath)
      ensures hasInfiniteDelegate == old(hasInfiniteDelegate) && shouldLayoutSubviews == old(shouldLayoutSubviews)
      ensures lastFocusedIndexPath == old(lastFocusedIndexPath)
      ensures installedDelegate == old(installedDelegate) && installedDataSource == old(installedDataSource)
    {
      if !isItemPagingEnabled || isDragging || isDecelerating {
        return;
      }
      if cachedContentSize == Some(ContentSize()) {
        return;
      }
      cachedContentSize := Some(ContentSize());
      layout.CenterCollectionViewIfNeeded(preferredCenteredIndexPath);
    }

    /** The tail of updateLayoutIfNeeded(): a preferred record with a cell
        whose path differs from the stored one becomes the centred index path
        and is announced to an infinite delegate that listens. */
    method RecordCentered(preferred: Option<Attributes>, hasCell: IndexPath -> bool)
      modifies this
      ensures if preferred.Some? && old(centeredIndexPath) != Some(preferred.value.indexPath) && hasCell(preferred.value.indexPath)
        then centeredIndexPath == Some(preferred.value.indexPath) &&
             notifications == old(notifications) + (if hasInfiniteDelegate then [preferred.value.indexPath] else [])
        else centeredIndexPath == old(centeredIndexPath) && notifications == old(notifications)
      ensures isItemPagingEnabled == old(isItemPagingEnabled) && isDragging == old(isDragging)
      ensures isDecelerating == old(isDecelerating) && hasInfiniteDelegate == old(hasInfiniteDelegate)
      ensures shouldLayoutSubviews == old(shouldLayoutSubviews) && lastFocusedIndexPath == old(lastFocusedIndexPath)
      ensures cachedContentSize == old(cachedContentSize) && preferredCenteredIndexPath == old(preferredCenteredIndexPath)
      ensures installedDelegate == old(installedDelegate) && installedDataSource == old(installedDataSource)
    {
      if preferred.Some? && centeredIndexPath != Some(preferred.value.indexPath) && hasCell(preferred.value.indexPath) {
        centeredIndexPath := Some(preferred.value.indexPath);
        if hasInfiniteDelegate {
          notifications := notifications + [preferred.value.indexPath];
        }
      }
    }

    /** updateLayoutIfNeeded(): loop, centre, then record and announce a new
        centred index path when the record nearest the final offset has a
        cell and differs from the stored one. */
    method UpdateLayoutIfNeeded(hasCell: IndexPath -> bool)
      requires Valid() && (layout.hasValidLayout ==> layout.CurrentTile().Positive())
      modifies this, scrollView
      ensures Valid() && unchanged(layout)
      ensures scrollView.contentOffset ==
        OffsetAfterLayoutPass(layout.hasValidLayout, layout.CurrentTile(), layout.flow, old(scrollView.Snapshot()),
                              old(ShouldCenter()), preferredCenteredIndexPath)
      ensures cachedContentSize == if old(ShouldCenter()) then Some(ContentSize()) else old(cachedContentSize)
      ensures var p := layout.PreferredVisibleAtRest();
        if p.Some? && old(centeredIndexPath) != Some(p.value.indexPath) && hasCell(p.value.indexPath)
        then centeredIndexPath == Some(p.value.indexPath) &&
             notifications == old(notifications) + (if hasInfiniteDelegate then [p.value.indexPath] else [])
        else centeredIndexPath == old(centeredIndexPath) && notifications == old(notifications)
      ensures scrollView.bounds == old(scrollView.bounds) && scrollView.frameSize == old(scrollView.frameSize)
      ensures scrollView.contentInset == old(scrollView.contentInset) && scrollView.layoutMargins == old(scrollView.layoutMargins)
      ensures isItemPagingEnabled == old(isItemPagingEnabled) && isDragging == old(isDragging)
      ensures isDecelerating == old(isDecelerating) && hasInfiniteDelegate == old(hasInfiniteDelegate)
      ensures lastFocusedIndexPath == old(lastFocusedIndexPath) && preferredCenteredIndexPath == old(preferredCenteredIndexPath)
      ensures installedDelegate == old(installedDelegate) && installedDataSource == old(installedDataSource)
      ensures shouldLayoutSubviews == old(shouldLayoutSubviews)
    {
      ghost var v := scrollView.Snapshot();
      ghost var centre := ShouldCenter();
      layout.LoopCollectionViewIfNeeded();
      assert scrollView.Snapshot() ==
        if layout.hasValidLayout then v.(contentOffset := LoopedOffset(layout.CurrentTile(), v.contentOffset)) else v;
      assert ShouldCenter() == centre;
      CenterCollectionViewIfNeeded();
      var preferred := layout.PreferredVisibleAtRest();
      RecordCentered(preferred, hasCell);
    }

    /** layoutSubviews(): a cleared flag skips exactly one pass and is set
        again; otherwise the layout is updated. */
    method LayoutSubviews(hasCell: IndexPath -> bool)
      requires Valid() && (layout.hasValidLayout ==> layout.CurrentTile().Positive())
      modifies this, scrollView
      ensures Valid() && unchanged(layout)
      ensures shouldLayoutSubviews
      ensures !old(shouldLayoutSubviews) ==>
        unchanged(scrollView) && centeredIndexPath == old(centeredIndexPath) &&
        notifications == old(notifications) && cachedContentSize == old(cachedContentSize)
      ensures old(shouldLayoutSubviews) ==>
        scrollView.contentOffset ==
          OffsetAfterLayoutPass(layout.hasValidLayout, layout.CurrentTile(), layout.flow, old(scrollView.Snapshot()),
                                old(ShouldCenter()), preferredCenteredIndexPath)
      ensures old(shouldLayoutSubviews) ==>
        cachedContentSize == if old(ShouldCenter()) then Some(ContentSize()) else old(cachedContentSize)
      ensures old(shouldLayoutSubviews) ==>
        var p := layout.PreferredVisibleAtRest();
        if p.Some? && old(centeredIndexPath) != Some(p.value.indexPath) && hasCell(p.value.indexPath)
        then centeredIndexPath == Some(p.value.indexPath) &&
             notifications == old(notifications) + (if hasInfiniteDelegate then [p.value.indexPath] else [])
        else centeredIndexPath == old(centeredIndexPath) && notifications == old(notifications)
      ensures scrollView.bounds == old(scrollView.bounds) && scrollView.frameSize == old(scrollView.frameSize)
      ensures scrollView.contentInset == old(scrollView.contentInset) && scrollView.layoutMargins == old(scrollView.layoutMargins)
      ensures isItemPagingEnabled == old(isItemPagingEnabled) && isDragging == old(isDragging)
      ensures isDecelerating == old(isDecelerating) && hasInfiniteDelegate == old(hasInfiniteDelegate)
      ensures lastFocusedIndexPath == old(lastFocusedIndexPath) && preferredCenteredIndexPath == old(preferredCenteredIndexPath)
      ensures installedDelegate == old(installedDelegate) && installedDataSource == old(installedDataSource)
    {
      if shouldLayoutSubviews {
        UpdateLayoutIfNeeded(hasCell);
      } else {
        shouldLayoutSubviews := true;
      }
    }

    /** scrollViewDidScroll(_:) */
    method ScrollViewDidScroll(hasCell: IndexPath -> bool)
      requires Valid() && (layout.hasValidLayout ==> layout.CurrentTile().Positive())
      modifies this, scrollView
      ensures Valid() && unchanged(layout)
      ensures var p := layout.PreferredVisibleAtRest();
        p.Some? && hasCell(p.value.indexPath) ==> centeredIndexPath == Some(p.value.indexPath)
      ensures scrollView.contentOffset ==
        OffsetAfterLayoutPass(layout.hasValidLayout, layout.CurrentTile(), layout.flow, old(scrollView.Snapshot()),
                              old(ShouldCenter()), preferredCenteredIndexPath)
      ensures cachedContentSize == if old(ShouldCenter()) then Some(ContentSize()) else old(cachedContentSize)
      ensures var p := layout.PreferredVisibleAtRest();
        if p.Some? && old(centeredIndexPath) != Some(p.value.indexPath) && hasCell(p.value.indexPath)
        then centeredIndexPath == Some(p.value.indexPath) &&
             notifications == old(notifications) + (if hasInfiniteDelegate then [p.value.indexPath] else [])
        else centeredIndexPath == old(centeredIndexPath) && notifications == old(notifications)
      ensures scrollView.bounds == old(scrollView.bounds) && scrollView.frameSize == old(scrollView.frameSize)
      ensures scrollView.contentInset == old(scrollView.contentInset) && scrollView.layoutMargins == old(scrollView.layoutMargins)
      ensures isItemPagingEnabled == old(isItemPagingEnabled) && isDragging == old(isDragging)
      ensures isDecelerating == old(isDecelerating) && hasInfiniteDelegate == old(hasInfiniteDelegate)
      ensures lastFocusedIndexPath == old(lastFocusedIndexPath) && preferredCenteredIndexPath == old(preferredCenteredIndexPath)
      ensures installedDelegate == old(installedDelegate) && installedDataSource == old(installedDataSource)
      ensures shouldLayoutSubviews == old(shouldLayoutSubviews)
    {
      UpdateLayoutIfNeeded(hasCell);
    }

    /** scrollViewWillEndDragging(_:withVelocity:targetContentOffset:): the
        target after the view's own adjustment. */
    method ScrollViewWillEndDragging(velocity: Point, target: Point) returns (newTarget: Point)
      requires Valid() && (layout.hasValidLayout ==> layout.CurrentTile().Positive())
      ensures !isItemPagingEnabled || !layout.hasValidLayout ==> newTarget == target
      ensures isItemPagingEnabled && layout.hasValidLayout ==>
        newTarget == CenteredTarget(layout.CurrentTile(), layout.flow.elementsIn, scrollView.Snapshot(),
                                    layout.velocityMultiplier, velocity, target)
    {
      newTarget := target;
      if isItemPagingEnabled {
        newTarget := layout.CenterCollectionView(velocity, target);
      }
    }

    /** collectionView(_:didUpdateFocusIn:with:): only a non-nil next focused
        path is remembered. */
    method DidUpdateFocus(nextFocusedIndexPath: Option<IndexPath>)
      modifies this
      ensures lastFocusedIndexPath == if nextFocusedIndexPath.Some? then nextFocusedIndexPath else old(lastFocusedIndexPath)
      ensures centeredIndexPath == old(centeredIndexPath) && notifications == old(notifications)
      ensures installedDelegate == old(installedDelegate) && installedDataSource == old(installedDataSource)
      ensures shouldLayoutSubviews == old(shouldLayoutSubviews) && cachedContentSize == old(cachedContentSize)
      ensures isItemPagingEnabled == old(isItemPagingEnabled) && isDragging == old(isDragging)
      ensures isDecelerating == old(isDecelerating) && hasInfiniteDelegate == old(hasInfiniteDelegate)
      ensures preferredCenteredIndexPath == old(preferredCenteredIndexPath)
    {
      if nextFocusedIndexPath.Some? {
        lastFocusedIndexPath := nextFocusedIndexPath;
      }
    }

    /** resetFocus() */
    method ResetFocus()
      modifies this
      ensures lastFocusedIndexPath == None
      ensures centeredIndexPath == old(centeredIndexPath) && notifications == old(notifications)
      ensures installedDelegate == old(installedDelegate) && installedDataSource == old(installedDataSource)
      ensures shouldLayoutSubviews == old(shouldLayoutSubviews) && cachedContentSize == old(cachedContentSize)
      ensures isItemPagingEnabled == old(isItemPagingEnabled) && isDragging == old(isDragging)
      ensures isDecelerating == old(isDecelerating) && hasInfiniteDelegate == old(hasInfiniteDelegate)
      ensures preferredCenteredIndexPath == old(preferredCenteredIndexPath)
    {
      lastFocusedIndexPath := None;
    }

    /** indexPathForPreferredFocusedView(in:): the remembered focus, or else
        the host delegate's answer, provided a cell exists there. */
    function IndexPathForPreferredFocusedView(hostAnswer: Option<IndexPath>, hasCell: IndexPath -> bool): (r: Option<IndexPath>)
      reads this
      ensures r.Some? ==> hasCell(r.value)
      ensures lastFocusedIndexPath.Some? ==> r == (if hasCell(lastFocusedIndexPath.value) then lastFocusedIndexPath else None)
      ensures lastFocusedIndexPath.None? ==> r == (if hostAnswer.Some? && hasCell(hostAnswer.value) then hostAnswer else None)
    {
      var candidate := if lastFocusedIndexPath.Some? then lastFocusedIndexPath else hostAnswer;
      if candidate.Some? && hasCell(candidate.value) then candidate else None
    }

    /** The x origin and size of the item's copy on page 250; the zero rect
        without a record. Only the x origin and the width are used. */
    function FrameOnMiddlePage(indexPath: IndexPath): (r: Rect)
      reads this, layout
      requires layout.CurrentTile().Positive()
      ensures layout.flow.itemAttributes(indexPath).None? ==> r == ZeroRect
      ensures layout.flow.itemAttributes(indexPath).Some? ==>
        r.size == layout.flow.itemAttributes(indexPath).value.frame.size &&
        r.origin.x == MiddlePageX(layout.CurrentTile(), layout.flow.itemAttributes(indexPath).value.frame)
    {
      match layout.flow.itemAttributes(indexPath)
      case None => ZeroRect
      case Some(a) => Rect(Point(MiddlePageX(layout.CurrentTile(), a.frame), 0.0), a.frame.size)
    }

    /** scrollToItem(at:animated:): with looping on, 90 points before the
        item's copy on page 250; otherwise to x = -90. The y offset stays. */
    method ScrollToItem(indexPath: IndexPath)
      requires Valid() && (layout.isEnabled ==> layout.CurrentTile().Positive())
      modifies scrollView
      ensures scrollView.contentOffset.y == old(scrollView.contentOffset.y)
      ensures layout.isEnabled ==> FrameOnMiddlePage(indexPath).origin.x - scrollView.contentOffset.x == 90.0
      ensures !layout.isEnabled ==> scrollView.contentOffset.x == -90.0
      ensures scrollView.bounds == old(scrollView.bounds) && scrollView.frameSize == old(scrollView.frameSize)
      ensures scrollView.contentInset == old(scrollView.contentInset) && scrollView.layoutMargins == old(scrollView.layoutMargins)
    {
      if layout.isEnabled {
        var rect := FrameOnMiddlePage(indexPath);
        scrollView.SetContentOffset(Point(rect.origin.x - 90.0, scrollView.contentOffset.y));
      } else {
        scrollView.SetContentOffset(Point(-90.0, scrollView.contentOffset.y));
      }
    }

    /** scrollToCenterToItem: with looping on, the item's copy on page 250 is
        shown with its midpoint at the view's centre x. With looping off the
        request goes to UIKit's own scrollToItem, reported by `toSystem`. */
    method ScrollToCenterToItem(indexPath: IndexPath, centerX: real) returns (toSystem: bool)
      requires Valid() && (layout.isEnabled ==> layout.CurrentTile().Positive())
      modifies scrollView
      ensures toSystem <==> !layout.isEnabled
      ensures toSystem ==> unchanged(scrollView)
      ensures !toSystem ==>
        scrollView.contentOffset.y == old(scrollView.contentOffset.y) &&
        FrameOnMiddlePage(indexPath).MidX() - scrollView.contentOffset.x == centerX
      ensures scrollView.bounds == old(scrollView.bounds) && scrollView.frameSize == old(scrollView.frameSize)
      ensures scrollView.contentInset == old(scrollView.contentInset) && scrollView.layoutMargins == old(scrollView.layoutMargins)
    {
      if !layout.isEnabled {
        return true;
      }
      var rect := FrameOnMiddlePage(indexPath);
      scrollView.SetContentOffset(Point(CenteringX(rect, centerX), scrollView.contentOffset.y));
      return false;
    }

    /** scrollToItem(at:at:animated:): centredHorizontally goes to
        scrollToCenterToItem, every other position to scrollToItem. */
    method ScrollToItemAt(indexPath: IndexPath, position: ScrollPosition, centerX: real) returns (toSystem: bool)
      requires Valid() && (layout.isEnabled ==> layout.CurrentTile().Positive())
      modifies scrollView
      ensures toSystem <==> position == CenteredHorizontally && !layout.isEnabled
      ensures toSystem ==> unchanged(scrollView)
      ensures !toSystem ==> scrollView.contentOffset.y == old(scrollView.contentOffset.y)
      ensures scrollView.bounds == old(scrollView.bounds) && scrollView.frameSize == old(scrollView.frameSize)
      ensures scrollView.contentInset == old(scrollView.contentInset) && scrollView.layoutMargins == old(scrollView.layoutMargins)
      ensures position == OtherPosition && layout.isEnabled ==>
        FrameOnMiddlePage(indexPath).origin.x - scrollView.contentOffset.x == 90.0
      ensures position == OtherPosition && !layout.isEnabled ==> scrollView.contentOffset.x == -90.0
      ensures position == CenteredHorizontally && layout.isEnabled ==>
        FrameOnMiddlePage(indexPath).MidX() - scrollView.contentOffset.x == centerX
    {
      match position
      case CenteredHorizontally =>
        toSystem := ScrollToCenterToItem(indexPath, centerX);
      case OtherPosition =>
        ScrollToItem(indexPath);
        toSystem := false;
    }

    /** selectItem(at:animated:scrollPosition:direction:): the previous
        selection is the focused cell's path or else the first selected path;
        at the wrap-around boundary the view first moves so the item's copy
        one page away (or its visible cell) is centred at centerX. */
    method SelectItem(indexPath: IndexPath, direction: SwipeDirection, focused: Option<IndexPath>,
                      firstSelected: Option<IndexPath>, visibleCellFrame: Option<Rect>, centerX: real)
      returns (plan: SelectionPlan)
      requires Valid() && (layout.isEnabled ==> layout.CurrentTile().Positive())
      modifies scrollView
      ensures plan == SelectionPlanFor(layout.isEnabled, indexPath, direction,
                                       if focused.Some? then focused else firstSelected)
      ensures plan.PlainSelection? ==> unchanged(scrollView)
      ensures plan.ManualSelection? ==>
        scrollView.contentOffset.y == old(scrollView.contentOffset.y) &&
        var frame := if visibleCellFrame.Some? then visibleCellFrame.value
          else match old(layout.LayoutAttributesForItemWithPageOffset(indexPath, plan.pageOffset))
            case None => ZeroRect
            case Some(a) => a.frame;
        frame.MidX() - scrollView.contentOffset.x == centerX
      ensures scrollView.bounds == old(scrollView.bounds) && scrollView.frameSize == old(scrollView.frameSize)
      ensures scrollView.contentInset == old(scrollView.contentInset) && scrollView.layoutMargins == old(scrollView.layoutMargins)
    {
      var selected := if focused.Some? then focused else firstSelected;
      plan := SelectionPlanFor(layout.isEnabled, indexPath, direction, selected);
      if plan.ManualSelection? {
        var frame := if visibleCellFrame.Some? then visibleCellFrame.value
          else match layout.LayoutAttributesForItemWithPageOffset(indexPath, plan.pageOffset)
            case None => ZeroRect
            case Some(a) => a.frame;
        scrollView.SetContentOffset(Point(CenteringX(frame, centerX), scrollView.contentOffset.y));
      }
    }
  }
}
