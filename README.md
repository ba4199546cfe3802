# InfiniteLayout in Dafny

A model of InfiniteLayout, an iOS collection view that loops its content.
The content is never actually infinite. The data source's sections (or the
items of a single section) are replicated by a multiplier, and the layout
repeats one tile of content, of extent W along the scrolling axis, over 500
pages. When the scroll offset comes near either end of those pages, the view
jumps back to the same place on the middle page (page 250).

The project has seven files:

- `common.dfy`
  - Optional values and results (`Wrappers`).
  - Core Graphics values as exact reals (`Geometry`).
  - The flow-layout superclass as a value whose queries are function fields
    (`Flow`).
- `data_sources.dfy` (`InfiniteDataSources`): the pure replication planner
  and the mapping from virtual index paths back to real ones. It models
  Swift's truncating `%` on `Int`.
- `tiling.dfy` (`Tiling`): the page and tile arithmetic.
  - `page(for:)` and `rect(from:page:)`.
  - The 500-page content size and the loop target.
  - How an element query is split at a tile boundary.
- `paging.dfy` (`Paging`): the item-paging geometry.
  - The margin-inset rect and centred offsets.
  - Visible records ordered by distance.
  - The preferred record for a drag, or at rest.
- `layout.dfy` (`Layouts`): the layout object itself, as a class.
  - `prepare`, the element queries and the scroll-offset rewrites.
  - The `UIScrollView` state it reads and writes, as a class `ScrollView`.
- `proxy.dfy` (`Proxies`): the delegate and data-source forwarding proxies.
  - Each is a class holding an ordered responder list: the collection view
    first, then an optional host object.
  - The list setters and the dispatch rule that picks at most one receiver
    per message.
- `collection_view.dfy` (`CollectionViews`): the collection view, as a
  class.
  - Delegate and data-source installation, and the reported counts.
  - The layout pass: skip flag, loop, centring, and the centred index path
    with its notifications.
  - Focus tracking, the scroll-to formulas, and the wrap-around rule of
    directional selection.

UIKit collaborators become parameters or values:

- the screen size;
- the flow layout's element and item queries;
- the host's count answers;
- whether a cell exists at a path;
- the focused and selected paths;
- the view's centre x;
- the host's preferred-focus answer.

A fatal error becomes a `Failure`. This covers a missing data source, `%` by
zero sections, a negative section range, and `Int(ceil(...))` of an
infinity.

The page arithmetic of `rect(from:page:)` has one defect, described under
the Findings heading. The source's computation is kept as
`Tiling.RectFromAsWritten`, and every other member uses the corrected one,
`Tiling.RectFrom`. The two differ only for an origin more than one tile
below zero on the scrolling axis (`Tiling.RectFromAgreesWithinOneTile`);
each member this affects is listed under the Left out heading.

## Model

| member | source | states |
|---|---|---|
| InfiniteDataSources.SwiftRemainder | Sources/InfiniteLayout/InfiniteDataSource.swift:15-17 | Swift's `%` keeps the dividend's sign and is smaller than the divisor in magnitude; for a non-negative dividend and positive divisor it is the ordinary remainder |
| InfiniteDataSources.RemainderMagnitude | Sources/InfiniteLayout/InfiniteDataSource.swift:15-17 | the truncated remainder is the remainder of the magnitudes, negated for a negative dividend |
| InfiniteDataSources.SectionFrom | Sources/InfiniteLayout/InfiniteDataSource.swift:15-17 | with sections present, a non-negative virtual section maps to `infiniteSection % numberOfSections` in `[0, numberOfSections)`; a negative one maps to a non-positive section; zero sections are excluded because `%` traps |
| InfiniteDataSources.IndexPathFrom | Sources/InfiniteLayout/InfiniteDataSource.swift:19-26 | the section is mapped; with zero items the item is 0; otherwise a non-negative item maps to `item % numberOfItems` in `[0, numberOfItems)` |
| InfiniteDataSources.IndexPathFromFixesRealPaths | Sources/InfiniteLayout/InfiniteDataSource.swift:19-26 | a path already within the real counts maps to itself |
| InfiniteDataSources.IndexPathFromIdempotent | Sources/InfiniteLayout/InfiniteDataSource.swift:19-26 | mapping a mapped path again changes nothing |
| InfiniteDataSources.Ceil | Sources/InfiniteLayout/InfiniteDataSource.swift:33 | `ceil` as an integer: the least integer not below the argument |
| InfiniteDataSources.MultiplierForItemSize | Sources/InfiniteLayout/InfiniteDataSource.swift:28-35 | 1 when disabled; otherwise the least integer at least the minimum content size over the smaller item dimension |
| InfiniteDataSources.MultiplierForItemSizePositive | Sources/InfiniteLayout/InfiniteDataSource.swift:28-35 | for a positive item size and screen the size-only multiplier is at least 1, and that many of the smaller item dimension cover the minimum content size |
| InfiniteDataSources.Multiplier | Sources/InfiniteLayout/InfiniteDataSource.swift:37-57 | 1 while the planned extent `n*item + (n-1)*space + s*sectionSpace + (s-1)*240` is below the screen extent; otherwise the least integer at least the screen extent over the item size |
| InfiniteDataSources.MultiplierAtLeastOne | Sources/InfiniteLayout/InfiniteDataSource.swift:52-56 | for a positive item size and screen the multiplier is defined and at least 1; once past the threshold, that many items cover the screen |
| InfiniteDataSources.NumberOfSections | Sources/InfiniteLayout/InfiniteDataSource.swift:59-61 | several sections are multiplied; one or none are reported unchanged |
| InfiniteDataSources.NumberOfItemsInSection | Sources/InfiniteLayout/InfiniteDataSource.swift:63-65 | with several sections the items are unchanged; otherwise they are multiplied |
| InfiniteDataSources.VirtualTotalIsMultiple | Sources/InfiniteLayout/InfiniteDataSource.swift:59-65 | whichever way the planner inflates, the reported items total `multiplier` times the real items |
| InfiniteDataSources.VirtualPathMapsIntoRealCounts | Sources/InfiniteLayout/InfiniteDataSource.swift:19-65 | every virtual path within the reported counts maps to a real path within the real counts |
| Flow.MinimumContentSize | Sources/InfiniteLayout/InfiniteLayout.swift:52-54 | four times the larger screen dimension |
| Flow.MinimumContentSizeFor | Sources/InfiniteLayout/InfiniteLayout.swift:56-58 | the screen's extent along the scrolling axis |
| Tiling.TruncatingRemainder | Sources/InfiniteLayout/InfiniteLayout.swift:167-168 | `truncatingRemainder` keeps the sign of x, is less than one tile in size and differs from x by whole tiles |
| Tiling.NormalizedAsWrittenBounds | Sources/InfiniteLayout/InfiniteLayout.swift:162-167 | the source's normalisation stays within one tile of zero, congruent to the input, and inside `[0, W)` for inputs at least `-W` |
| Tiling.NormalizedBounds | Sources/InfiniteLayout/InfiniteLayout.swift:162-167 | the corrected normalisation always lands in `[0, W)`, congruent to the input |
| Tiling.RectFromAsWritten | Sources/InfiniteLayout/InfiniteLayout.swift:160-172 | the size is kept. On the scrolling axis the origin stays congruent and ends strictly between pages `page-1` and `page+1`, inside tile `page` when it started at `-W` or above. Across the axis it is the truncating remainder |
| Tiling.RectFrom | Sources/InfiniteLayout/InfiniteLayout.swift:160-172 | the corrected rect: the size is kept, the scrolling-axis origin always lands in tile `page` at the same place in the tile, and the cross origin is the truncating remainder |
| Tiling.RectFromAsWrittenMisplacesFarNegativeOrigin | Sources/InfiniteLayout/InfiniteLayout.swift:162-163 | with W = 100 and x = -150 the source yields -50, outside page 0; the corrected rect yields 50 |
| Tiling.RectFromAgreesWithinOneTile | Sources/InfiniteLayout/InfiniteLayout.swift:160-172 | for scrolling-axis origins at least `-W` the source and the correction agree |
| Tiling.PageFor | Sources/InfiniteLayout/InfiniteLayout.swift:143-158 | `floor(coordinate / W)` on the scrolling axis: the number of the tile holding the point |
| Tiling.ContentSizeFor | Sources/InfiniteLayout/InfiniteLayout.swift:88-94 | the tile itself while invalid; once valid, 500 tiles along the axis with the cross extent unchanged |
| Tiling.PagesSpanContent | Sources/InfiniteLayout/InfiniteLayout.swift:14 | every offset inside the inflated content lies on one of pages 0 to 499 |
| Tiling.RecenterLandsOnMiddlePage | Sources/InfiniteLayout/InfiniteLayout.swift:200-202 | the loop target lies on page 250 at the same place in its tile, with the cross coordinate reduced modulo the tile |
| Tiling.RecenterAsWrittenStaysInBand | Sources/InfiniteLayout/InfiniteLayout.swift:200-213 | with the source's normalisation the loop target lies on page 249 or 250, so it is never near either end |
| Tiling.LoopedOffsetIdempotent | Sources/InfiniteLayout/InfiniteLayout.swift:204-213 | after one loop pass the offset is away from both ends, and a second pass changes nothing |
| Tiling.LoopedOffsetMatchesSourceWithinOneTile | Sources/InfiniteLayout/InfiniteLayout.swift:160-213 | for offsets at least `-W` on the scrolling axis, which includes every offset inside the content, the loop writes the same target as the source's normalisation |
| Tiling.SplitAtTileBoundary | Sources/InfiniteLayout/InfiniteLayout.swift:126-138 | the overflow starts at 0 of the next tile, the rest ends exactly at the tile boundary, their lengths add up to the query's, and both keep the cross extent |
| Tiling.Relocate | Sources/InfiniteLayout/InfiniteLayout.swift:174-189 | each record keeps its index path and size and, with the corrected normalisation, is moved into the requested page |
| Tiling.ElementsLandInQueriedTiles | Sources/InfiniteLayout/InfiniteLayout.swift:120-141 | with the corrected normalisation, on a valid layout every returned record lies in the query's page or the next one |
| Paging.CollectionViewRect | Sources/InfiniteLayout/InfiniteLayout.swift:216-231 | the bounds with inset plus margin removed from every edge |
| Paging.VisibleCollectionViewRect | Sources/InfiniteLayout/InfiniteLayout.swift:233-241 | the same rect shifted by the content offset |
| Paging.CenteredContentOffset | Sources/InfiniteLayout/InfiniteLayout.swift:287-309 | non-negative on the scrolling axis, equal to the distance between the frame's midpoint and the inset rect's midpoint; the current offset across it |
| Paging.CenteringAlignsMidpoints | Sources/InfiniteLayout/InfiniteLayout.swift:287-309 | for a frame past the middle, scrolling to its centred offset puts its midpoint on the visible rect's midpoint |
| Paging.Insert | Sources/InfiniteLayout/InfiniteLayout.swift:249-261 | insertion keeps the elements (multiset), adds one, and keeps a sorted list sorted |
| Paging.SortBy | Sources/InfiniteLayout/InfiniteLayout.swift:249-261 | the result is sorted by the key and is a permutation of the input |
| Paging.FirstWhere | Sources/InfiniteLayout/InfiniteLayout.swift:274-284 | the index of the first element satisfying the predicate; absent exactly when none does |
| Paging.VisibleLayoutAttributes | Sources/InfiniteLayout/InfiniteLayout.swift:243-262 | the records for the frame-sized rect at the given (or current) offset, as a permutation ordered by distance from the current offset |
| Paging.PreferredAmong | Sources/InfiniteLayout/InfiniteLayout.swift:264-285 | any record returned is one of the visible ones |
| Paging.RequestedPathWins | Sources/InfiniteLayout/InfiniteLayout.swift:274-277 | a visible requested index path is returned |
| Paging.NearestInDirection | Sources/InfiniteLayout/InfiniteLayout.swift:278-284 | otherwise the result passes the direction filter and is no farther than any record that passes it; nothing is returned exactly when no record passes |
| Paging.AtRestPicksNearest | Sources/InfiniteLayout/InfiniteLayout.swift:268-284 | at zero velocity, without a visible requested path, the head of the list is chosen and it is the nearest record |
| Paging.PreferredVisibleLayoutAttributes | Sources/InfiniteLayout/InfiniteLayout.swift:264-285 | any record returned is among the records of the queried rect |
| Paging.CenteredTarget | Sources/InfiniteLayout/InfiniteLayout.swift:311-338 | the target stays, or becomes a centred offset: non-negative on the axis, current offset across it |
| Paging.SnapIsNearestInDirection | Sources/InfiniteLayout/InfiniteLayout.swift:311-338 | the target moves exactly when a record around the projected offset passes the direction filter; it then centres the nearest such record |
| Paging.CenterIfNeededOffset | Sources/InfiniteLayout/InfiniteLayout.swift:340-350 | an offset is written only when it differs from the current one |
| Paging.AtRestChoosesRequestedOrNearest | Sources/InfiniteLayout/InfiniteLayout.swift:264-285 | at rest: nothing for an empty list; the requested path when it is visible; otherwise the nearest record |
| Paging.CenterIfNeededCentresPreferred | Sources/InfiniteLayout/InfiniteLayout.swift:340-350 | the offset written is the centred offset of the record chosen at rest, written exactly when the view is not already there |
| Layouts.ScrollView.SetContentOffset | Sources/InfiniteLayout/InfiniteLayout.swift:192-199 | only the content offset changes, to the given value |
| Layouts.ValidLayoutLeavesRoom | Sources/InfiniteLayout/InfiniteLayout.swift:63-69 | a valid layout's tile is at least one screen long, so the content leaves at least 249 screens on either side of the middle page |
| Layouts.VerticalTileOmitsLineSpacing | Sources/InfiniteLayout/InfiniteLayout.swift:62 | scrolling vertically, the line spacing is added across the axis, not along it |
| Layouts.InfiniteLayout.constructor | Sources/InfiniteLayout/InfiniteLayout.swift:12-25 | velocity multiplier 1, enabled, zero content size, invalid, no previous content size |
| Layouts.InfiniteLayout.Prepare | Sources/InfiniteLayout/InfiniteLayout.swift:60-86 | the tile is the flow content plus one line spacing in width. Validity holds iff there is a collection view with non-zero bounds, looping is enabled and the tile reaches the screen extent. The first pass only records the size. A later pass with non-zero bounds and a changed size scrolls to `(-contentInset.left, y)` and records the size. Nothing else changes |
| Layouts.InfiniteLayout.LayoutAttributesForElements | Sources/InfiniteLayout/InfiniteLayout.swift:120-141 | the records are exactly those of the split query, computed with the corrected normalisation: overflow on the next page, then the rest on the query's page; the flow layout's answer while invalid |
| Layouts.InfiniteLayout.CurrentPage | Sources/InfiniteLayout/InfiniteLayout.swift:27-32 | the page holding the current offset; page 0 without a collection view |
| Layouts.InfiniteLayout.LayoutAttributesForItemOnPage | Sources/InfiniteLayout/InfiniteLayout.swift:103-108 | present exactly when the flow layout has the item; the record keeps its path and size and, with the corrected normalisation, lies in the given page |
| Layouts.InfiniteLayout.LayoutAttributesForItem | Sources/InfiniteLayout/InfiniteLayout.swift:96-101 | present exactly when the flow layout has the item; with the corrected normalisation, the record lies in the current page |
| Layouts.InfiniteLayout.LayoutAttributesForItemWithPageOffset | Sources/InfiniteLayout/InfiniteLayout.swift:110-118 | present exactly when there is a collection view and the item; with the corrected normalisation, the record lies `pageOffset` pages from the current one |
| Layouts.InfiniteLayout.LoopCollectionViewIfNeeded | Sources/InfiniteLayout/InfiniteLayout.swift:204-213 | on a valid layout the offset becomes the looped offset (the corrected target) and is then away from both ends; otherwise nothing changes; only the offset is written |
| Layouts.InfiniteLayout.CenterCollectionView | Sources/InfiniteLayout/InfiniteLayout.swift:311-338 | the target is unchanged without a collection view or while invalid; otherwise it is the centred target |
| Layouts.InfiniteLayout.CenterCollectionViewIfNeeded | Sources/InfiniteLayout/InfiniteLayout.swift:340-350 | on a valid layout the offset becomes the centring offset when one is written; otherwise nothing changes; only the offset is written |
| Proxies.SetCollectionViewKeepsDelegate | Sources/InfiniteLayout/InfiniteCollectionViewProxy.swift:33-41 | after the collection-view setter the getter returns it, and the later entries and the delegate are kept |
| Proxies.SetDelegateThenGet | Sources/InfiniteLayout/InfiniteCollectionViewProxy.swift:43-58 | after the delegate setter the list has 1 or 2 entries, the first is untouched, and the getter returns the value set |
| Proxies.Implementing | Sources/InfiniteLayout/InfiniteCollectionViewProxy.swift:60-62 | the assumed base filter: exactly the entries implementing the message |
| Proxies.ProxiesFor | Sources/InfiniteLayout/InfiniteCollectionViewProxy.swift:60-62 | the reversed base dispatch holds exactly the implementing entries |
| Proxies.Dispatch | Sources/InfiniteLayout/InfiniteCollectionViewProxy.swift:76-101 | at most one receiver, which is in the list and implements the message; it is the last entry of the list that implements the message and may receive it, and there is none exactly when no entry can; a reserved message reaches only the collection view |
| Proxies.LastReceiver | Sources/InfiniteLayout/InfiniteCollectionViewProxy.swift:60-101 | the reference rule: the index of the last entry that implements the message and may receive it, with none after it; absent exactly when no entry can |
| Proxies.DispatchReadsFromTheEnd | Sources/InfiniteLayout/InfiniteCollectionViewProxy.swift:60-101 | the first allowed entry of the reversed implementing entries is the entry the reference rule picks, and one exists exactly when the other does |
| Proxies.HostWinsUnreserved | Sources/InfiniteLayout/InfiniteCollectionViewProxy.swift:76-101 | an unreserved message goes to the host when it implements it, else to the collection view |
| Proxies.ReservedReachesCollectionView | Sources/InfiniteLayout/InfiniteCollectionViewProxy.swift:79-97 | a reserved message reaches the collection view even when the host implements it too |
| Proxies.CellForItemResponder | Sources/InfiniteLayout/InfiniteCollectionViewProxy.swift:107-110 | the host when one is installed, otherwise the collection view |
| Proxies.ForwardingProxy.constructor | Sources/InfiniteLayout/InfiniteCollectionViewProxy.swift:64-67 | the list holds just the collection view |
| Proxies.ForwardingProxy.SetCollectionView | Sources/InfiniteLayout/InfiniteCollectionViewProxy.swift:33-41 | the first entry is replaced, or the view inserted into an empty list |
| Proxies.ForwardingProxy.SetDelegate | Sources/InfiniteLayout/InfiniteCollectionViewProxy.swift:49-57 | the loop drops every entry after the first, then the new host, if any, is appended |
| Proxies.ForwardingProxy.RemoveAll | Sources/InfiniteLayout/InfiniteCollectionViewProxy.swift:69-71 | the list is emptied |
| CollectionViews.HostSections | Sources/InfiniteLayout/InfiniteCollectionView.swift:273-278 | fatal without a host; the host's count if it implements `numberOfSections`, otherwise 1 |
| CollectionViews.HostItems | Sources/InfiniteLayout/InfiniteCollectionView.swift:280-286 | fatal without a host or with zero sections; otherwise the host's count for the real section the virtual one maps to |
| CollectionViews.ItemTotalIsRealSum | Sources/InfiniteLayout/InfiniteCollectionView.swift:288-292 | summing over the real sections asks each real section exactly once and gives their total |
| CollectionViews.MultiplierFor | Sources/InfiniteLayout/InfiniteCollectionView.swift:288-299 | the planner's multiplier for the real section count and the real item total; fatal when either trap fires |
| CollectionViews.ReportedSections | Sources/InfiniteLayout/InfiniteCollectionView.swift:311-313 | the planner's section count with that multiplier |
| CollectionViews.ReportedItems | Sources/InfiniteLayout/InfiniteCollectionView.swift:315-319 | the planner's item count for the mapped section with that multiplier |
| CollectionViews.ReportedTotalIsMultiple | Sources/InfiniteLayout/InfiniteCollectionView.swift:288-319 | every reported section holds its real section's count; all reported items are `multiplier` copies of the host's total; the multiplier is at least 1 |
| CollectionViews.SelectionPlanFor | Sources/InfiniteLayout/InfiniteCollectionView.swift:181-244 | a pre-scroll one page back happens iff looping is on, there is a previous selection at (0,0) and the swipe is left. One page forward happens iff looping is on, there is a previous selection, the target is (0,0) and the swipe is right. Otherwise the selection is plain |
| CollectionViews.CenteringX | Sources/InfiniteLayout/InfiniteCollectionView.swift:161-162 | the offset that puts the frame's midpoint at the given centre x |
| CollectionViews.MiddlePageX | Sources/InfiniteLayout/InfiniteCollectionView.swift:148-149 | scrolling horizontally, with the corrected normalisation, the item's x lands on page 250 at its place in the tile; vertically, it is the truncating remainder plus 250 widths |
| CollectionViews.OffsetAfterLayoutPass | Sources/InfiniteLayout/InfiniteCollectionView.swift:328-330 | the offset after the loop and centring steps; on a valid layout without centring it is away from both ends, and without a valid layout it is the old offset |
| CollectionViews.InfiniteCollectionView.constructor | Sources/InfiniteLayout/InfiniteCollectionView.swift:39-47 | both proxies hold just the view, nothing is installed, the preferred centred path is (0,0), and the skip flag is set |
| CollectionViews.InfiniteCollectionView.SetDelegate | Sources/InfiniteLayout/InfiniteCollectionView.swift:52-70 | nil uninstalls; a delegate proxy is installed as is; any other object becomes the delegate proxy's host and the proxy is installed. The data source, the layout-pass state, the paging flags, the focus and the notifications are unchanged |
| CollectionViews.InfiniteCollectionView.SetDataSource | Sources/InfiniteLayout/InfiniteCollectionView.swift:72-90 | the same for the data source and the data-source proxy, with the same fields unchanged |
| CollectionViews.InfiniteCollectionView.Multiplier | Sources/InfiniteLayout/InfiniteCollectionView.swift:288-299 | the loop over the real sections computes the multiplier of the planner |
| CollectionViews.InfiniteCollectionView.NumberOfSections | Sources/InfiniteLayout/InfiniteCollectionView.swift:311-313 | the reported section count |
| CollectionViews.InfiniteCollectionView.NumberOfItemsInSection | Sources/InfiniteLayout/InfiniteCollectionView.swift:315-319 | the reported item count |
| CollectionViews.InfiniteCollectionView.SectionFrom | Sources/InfiniteLayout/InfiniteCollectionView.swift:301-303 | defined iff the host reports a non-zero section count; then it is the planner's `section % numberOfSections`, so a non-negative section maps into the real range |
| CollectionViews.InfiniteCollectionView.IndexPathFrom | Sources/InfiniteLayout/InfiniteCollectionView.swift:305-309 | defined iff the host's item count is; then it is the planner's mapping with the host's section and item counts, so a non-negative item maps into the real section's item range |
| CollectionViews.InfiniteCollectionView.CenterCollectionViewIfNeeded | Sources/InfiniteLayout/InfiniteCollectionView.swift:352-362 | acts only with paging on, at rest and for a content size not yet centred for. It then records that size and applies the layout's centring. Otherwise nothing changes. After any call at rest with paging on, the size is recorded, so the next call acts only once the size changes |
| CollectionViews.InfiniteCollectionView.RecordCentered | Sources/InfiniteLayout/InfiniteCollectionView.swift:332-338 | a preferred path with a cell that differs from the stored one becomes the centred path and is announced once; otherwise nothing changes |
| CollectionViews.InfiniteCollectionView.UpdateLayoutIfNeeded | Sources/InfiniteLayout/InfiniteCollectionView.swift:328-339 | the offset is the looped offset followed, when centring acts, by the centring offset; the content size is recorded exactly when centring acts; then the path nearest the final offset is recorded and announced when it is new and has a cell, so a repeat with the same result announces nothing. The view geometry, flags, focus and installed objects are unchanged |
| CollectionViews.InfiniteCollectionView.LayoutSubviews | Sources/InfiniteLayout/InfiniteCollectionView.swift:137-144 | a cleared flag skips exactly one pass with nothing else changed; a set flag runs the whole layout pass of `UpdateLayoutIfNeeded` (offset, recorded size, centred path and notifications); the flag is set afterwards |
| CollectionViews.InfiniteCollectionView.ScrollViewDidScroll | Sources/InfiniteLayout/InfiniteCollectionView.swift:346-349 | the whole layout pass of `UpdateLayoutIfNeeded`; in particular the centred path is the preferred one whenever that has a cell |
| CollectionViews.InfiniteCollectionView.ScrollViewWillEndDragging | Sources/InfiniteLayout/InfiniteCollectionView.swift:364-372 | with paging on and a valid layout the target becomes the centred target; otherwise it stays |
| CollectionViews.InfiniteCollectionView.DidUpdateFocus | Sources/InfiniteLayout/InfiniteCollectionView.swift:374-382 | only a non-nil next path overwrites the remembered focus; every other field is unchanged |
| CollectionViews.InfiniteCollectionView.ResetFocus | Sources/InfiniteLayout/InfiniteCollectionView.swift:256-259 | the remembered focus is cleared; every other field is unchanged |
| CollectionViews.InfiniteCollectionView.IndexPathForPreferredFocusedView | Sources/InfiniteLayout/InfiniteCollectionView.swift:261-267 | the remembered focus, else the host's answer, and only where a cell exists |
| CollectionViews.InfiniteCollectionView.FrameOnMiddlePage | Sources/InfiniteLayout/InfiniteCollectionView.swift:148-149 | the zero rect without a record; otherwise the record's size at its page-250 x origin, computed with the corrected normalisation |
| CollectionViews.InfiniteCollectionView.ScrollToItem | Sources/InfiniteLayout/InfiniteCollectionView.swift:146-155 | with looping on, the offset is 90 points before the item's copy on page 250; otherwise x is -90; y, bounds, frame size, inset and margins stay |
| CollectionViews.InfiniteCollectionView.ScrollToCenterToItem | Sources/InfiniteLayout/InfiniteCollectionView.swift:157-167 | with looping on, the item's copy on page 250 has its midpoint at the view's centre x and y stays; otherwise the request goes to UIKit and the view is untouched; bounds, frame size, inset and margins always stay |
| CollectionViews.InfiniteCollectionView.ScrollToItemAt | Sources/InfiniteLayout/InfiniteCollectionView.swift:169-174 | the request goes to UIKit exactly when it is centred-horizontally with looping off, and the view is then untouched; otherwise centred-horizontally requests centre the item and every other position scrolls 90 points before it, with y kept; bounds, frame size, inset and margins always stay |
| CollectionViews.InfiniteCollectionView.SelectItem | Sources/InfiniteLayout/InfiniteCollectionView.swift:176-245 | the previous selection is the focused path, else the first selected one. The plan follows the wrap-around rule. A pre-scroll centres, at the view's centre x, the visible cell or else the item's copy one page away, keeping y. A plain selection does not scroll. Bounds, frame size, inset and margins always stay |

## Left out

- UIKit lifecycle is not modelled: view loading, `awakeFromNib`, `sharedInit`, `super.layoutSubviews` and `super.prepare`. The layout pass is the modelled `updateLayoutIfNeeded` alone.
- Animation is not modelled. This covers `UIView.animate` in the manual selection and the `animated` flags. The pre-scroll is a single offset write, and the selection that follows it in the completion handler is not modelled.
- `layoutIfNeeded()` after an offset write (the re-entrancy through layout) is not modelled; an offset write is one state update.
- IEEE floating point is not modelled. CGFloat is an exact real.
- Tile-based members require both tile extents to be positive. With a zero extent the source divides by zero and gets NaN or infinite coordinates, which exact reals cannot represent. This applies to `Layouts.InfiniteLayout.LayoutAttributesForElements`, the loop and centring methods, and the collection view's scroll methods.
- `Int(ceil(...))` overflow is not modelled; a division by a zero item size past the threshold is a `Failure`.
- `copyLayoutAttributes` is assumed never to fail, so a record is always copied.
- `CocoaProxy` is a library outside this repository. Its base `proxies(for:)` is assumed to be the list filtered to the entries implementing the message, in order (`Proxies.Implementing`).
- The Objective-C message forwarding itself is not modelled.
- `forwardDelegate` is always true, so the branch that bypasses the proxies is not modelled.
- The host's own `scrollViewDidScroll`, `scrollViewWillEndDragging` and `didUpdateFocusIn` callbacks are not modelled. The collection view forwards them after its own handling, and their effects are the host's.
- `CollectionViews.InfiniteCollectionView.SetDelegate` requires that a proxy assigned as delegate be a delegate proxy, because the property's Swift type rules out a data-source proxy. `SetDataSource` has the mirror requirement.
- A nil delegate or data source uninstalls the proxy from the view but leaves the previous host in the proxy's list, as the source does. `HostDataSource` still answers from that list.
- The `as? T` cast in the proxy's delegate getter is not modelled; the last entry is returned as is.
- The cast of `collectionViewLayout` to `InfiniteLayout` is not modelled. The view always owns an `InfiniteLayout`.
- The `selectItem(at:animated:scrollPosition:)` override only logs a warning and calls UIKit, so it is not modelled.
- UIKit's own `selectItem` and `scrollToItem` are not modelled; `ScrollToCenterToItem` reports the hand-off instead.
- The data-source `cellForItemAt` of the collection view is a `fatalError`, and cell creation is the host's. Only the routing (`Proxies.CellForItemResponder`) is modelled.
- `crashLog` and `LogUtils` are logging only.
- `shouldInvalidateLayout(forBoundsChange:)` always returns true, and `invalidateLayout` on an `isEnabled` change is UIKit's. Neither is modelled.
- The `velocityMultiplier` property of the collection view only copies its value to the layout, so it is not modelled.
- `Paging.SortBy` is a stable insertion sort. Swift's `sorted(by:)` does not promise stability, so records at equal distance may come out in another order in the source. The properties proved hold for any sorted permutation.
- The `visibleIndexPath` search in `selectItem` is not modelled. The frame of a visible cell for the item is a parameter.
- Relocate: uses the corrected normalisation of `rect(from:page:)`; it differs from the source only when a record's frame origin is more than one tile below zero on the scrolling axis, where the source leaves the record one page early. `ElementsAt` and `ElementsInRect` inherit this.
- ElementsLandInQueriedTiles: proved of the corrected split and placement. For a query origin more than one tile below zero on the scrolling axis the source normalises the query differently, so it may split it elsewhere, and its records need not lie in the queried tiles.
- LayoutAttributesForElements: uses the corrected normalisation of `rect(from:page:)`; it differs from the source only when the query origin, or a returned frame origin, is more than one tile below zero on the scrolling axis.
- LayoutAttributesForItemOnPage: uses the corrected normalisation of `rect(from:page:)`; it differs from the source only when the flow layout's frame origin is more than one tile below zero; the source then places the record on `page - 1`.
- LayoutAttributesForItem: uses the corrected normalisation of `rect(from:page:)`; it differs from the source only when the flow layout's frame origin is more than one tile below zero; the source then places the record one page before the current one.
- LayoutAttributesForItemWithPageOffset: uses the corrected normalisation of `rect(from:page:)`; it differs from the source only when the flow layout's frame origin is more than one tile below zero; the source then places the record one page before the requested one.
- LoopCollectionViewIfNeeded: uses the corrected normalisation of `rect(from:page:)`; it differs from the source only when the offset is more than one tile below zero on the scrolling axis. With W = 100 and offset x = -150 the source writes 24950 (page 249), the model 25050 (page 250). `Tiling.RecenterAsWrittenStaysInBand` shows the source's target still stays away from both ends, and `Tiling.LoopedOffsetMatchesSourceWithinOneTile` shows the two agree for every other offset. `UpdateLayoutIfNeeded`, `LayoutSubviews` and `ScrollViewDidScroll` inherit this.
- MiddlePageX: uses the corrected normalisation of `rect(from:page:)`; it differs from the source only when the item's frame origin is more than one tile below zero on the horizontal axis.
- FrameOnMiddlePage: built on `MiddlePageX`, with the same difference.
- ScrollToItem: built on `FrameOnMiddlePage`, with the same difference.
- ScrollToCenterToItem: built on `FrameOnMiddlePage`, with the same difference.
- ScrollToItemAt: built on `ScrollToItem` and `ScrollToCenterToItem`, with the same difference.
- SelectItem: without a visible cell it centres the record of `LayoutAttributesForItemWithPageOffset`, with the same difference.

## Findings

| source | as written | input that shows it | evidently intended | confidence | as-written member | corrected member |
|---|---|---|---|---|---|---|
| Sources/InfiniteLayout/InfiniteLayout.swift:162-165 | a negative origin is raised by `abs(floor(W / x))` tiles before `truncatingRemainder` | W = 100, origin x = -150, page 0: the result is -50, outside page 0 | raise by `abs(floor(x / W))` tiles, so every origin lands in `[page*W, (page+1)*W)` | not executed | Tiling.RectFromAsWritten, Tiling.RectFromAsWrittenMisplacesFarNegativeOrigin | Tiling.RectFrom |
