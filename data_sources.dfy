/** The replication planner and the virtual-to-real index mapping of the
    looping collection view (the static helpers of InfiniteDataSources). */
module InfiniteDataSources {
  import opened Geometry
  import opened Flow

  /** Gap counted between two consecutive sections when sizing the content. */
  const SpaceAfterSecondSection: real := 240.0

  function IntAbs(n: int): int { if n < 0 then -n else n }

  /** Swift's `/` on Int: the quotient truncated toward zero. */
  function TruncatedQuotient(a: int, n: int): int
    requires n != 0
  {
    if (a >= 0) == (n > 0) then IntAbs(a) / IntAbs(n) else -(IntAbs(a) / IntAbs(n))
  }

  /** Swift's `%` on Int: `a - n * (a / n)` with the truncating quotient, so the
      remainder takes the sign of the dividend. The trap on a zero divisor is
      the precondition. */
  function SwiftRemainder(a: int, n: int): (r: int)
    requires n != 0
    ensures a >= 0 ==> 0 <= r < IntAbs(n)
    ensures a <= 0 ==> -IntAbs(n) < r <= 0
    ensures n > 0 && a >= 0 ==> r == a % n
  {
    RemainderMagnitude(a, n);
    a - n * TruncatedQuotient(a, n)
  }

  /** The truncated remainder is the Euclidean remainder of the magnitudes,
      carrying the dividend's sign. */
  lemma RemainderMagnitude(a: int, n: int)
    requires n != 0
    ensures a >= 0 ==> a - n * TruncatedQuotient(a, n) == IntAbs(a) % IntAbs(n)
    ensures a < 0 ==> a - n * TruncatedQuotient(a, n) == -(IntAbs(a) % IntAbs(n))
  {
    var bigA: int, bigN: int := IntAbs(a), IntAbs(n);
    var q: int, rem: int := bigA / bigN, bigA % bigN;
    assert bigA == bigN * q + rem;
    if a >= 0 && n > 0 {
      assert a - n * TruncatedQuotient(a, n) == bigA - bigN * q;
    } else if a >= 0 {
      assert n * -q == bigN * q;
      assert a - n * TruncatedQuotient(a, n) == bigA - bigN * q;
    } else if n > 0 {
      assert n * -q == -(bigN * q);
      assert a - n * TruncatedQuotient(a, n) == -bigA + bigN * q;
    } else {
      assert n * q == -(bigN * q);
      assert a - n * TruncatedQuotient(a, n) == -bigA + bigN * q;
    }
  }

  /** section(from:numberOfSections:) */
  function SectionFrom(infiniteSection: int, numberOfSections: int): (r: int)
    requires numberOfSections != 0
    ensures numberOfSections > 0 && infiniteSection >= 0 ==>
      r == infiniteSection % numberOfSections && 0 <= r < numberOfSections
    ensures infiniteSection < 0 ==> r <= 0
  {
    SwiftRemainder(infiniteSection, numberOfSections)
  }

  /** indexPath(from:numberOfSections:numberOfItems:) */
  function IndexPathFrom(infinite: IndexPath, numberOfSections: int, numberOfItems: int): (r: IndexPath)
    requires numberOfSections != 0
    ensures r.section == SectionFrom(infinite.section, numberOfSections)
    ensures numberOfItems == 0 ==> r.item == 0
    ensures numberOfItems > 0 && infinite.item >= 0 ==>
      r.item == infinite.item % numberOfItems && 0 <= r.item < numberOfItems
  {
    if numberOfItems == 0 then
      IndexPath(SectionFrom(infinite.section, numberOfSections), 0)
    else
      IndexPath(SectionFrom(infinite.section, numberOfSections),
                SwiftRemainder(infinite.item, numberOfItems))
  }

  /** Mapping a path that already lies within the real counts leaves it as it is. */
  lemma IndexPathFromFixesRealPaths(p: IndexPath, numberOfSections: int, numberOfItems: int)
    requires 0 <= p.section < numberOfSections
    requires 0 <= p.item < numberOfItems
    ensures IndexPathFrom(p, numberOfSections, numberOfItems) == p
  {
    SmallRemainder(p.section, numberOfSections);
    SmallRemainder(p.item, numberOfItems);
  }

  lemma SmallRemainder(a: int, n: int)
    requires 0 <= a < n
    ensures a % n == a
  {
  }

  /** Mapping is idempotent on non-negative virtual paths. */
  lemma IndexPathFromIdempotent(p: IndexPath, numberOfSections: int, numberOfItems: int)
    requires numberOfSections > 0 && numberOfItems >= 0
    requires p.section >= 0 && p.item >= 0
    ensures var q := IndexPathFrom(p, numberOfSections, numberOfItems);
      IndexPathFrom(q, numberOfSections, numberOfItems) == q
  {
    var q := IndexPathFrom(p, numberOfSections, numberOfItems);
    if numberOfItems > 0 {
      IndexPathFromFixesRealPaths(q, numberOfSections, numberOfItems);
    }
  }

  /** Swift's ceil on a real, as an integer. */
  function Ceil(x: real): (r: int)
    ensures (r - 1) as real < x <= r as real
  {
    -((-x).Floor)
  }

  function MinOf(a: real, b: real): real { if a <= b then a else b }

  /** multiplier(estimatedItemSize:enabled:); a zero smallest dimension would make
      Int(ceil(...)) trap, hence the precondition. */
  function MultiplierForItemSize(estimatedItemSize: Size, enabled: bool, screen: Size): (r: int)
    requires enabled ==> MinOf(estimatedItemSize.width, estimatedItemSize.height) != 0.0
    ensures !enabled ==> r == 1
    ensures enabled ==>
      var q := MinimumContentSize(screen) / MinOf(estimatedItemSize.width, estimatedItemSize.height);
      (r - 1) as real < q <= r as real
  {
    if !enabled then 1
    else
      var m := MinOf(estimatedItemSize.width, estimatedItemSize.height);
      Ceil(MinimumContentSize(screen) / m)
  }

  /** With a positive item size and a positive screen the size-only multiplier
      replicates at least once, and that many copies of the smallest item
      dimension reach the minimum content size. */
  lemma MultiplierForItemSizePositive(estimatedItemSize: Size, screen: Size)
    requires estimatedItemSize.width > 0.0 && estimatedItemSize.height > 0.0
    requires screen.width > 0.0 && screen.height > 0.0
    ensures var r := MultiplierForItemSize(estimatedItemSize, true, screen);
      r >= 1 && r as real * MinOf(estimatedItemSize.width, estimatedItemSize.height) >= MinimumContentSize(screen)
  {
    var m := MinOf(estimatedItemSize.width, estimatedItemSize.height);
    var t := MinimumContentSize(screen);
    var r := MultiplierForItemSize(estimatedItemSize, true, screen);
    assert t / m <= r as real;
    assert t / m > 0.0;
    CeilingCovers(t, m, r);
  }

  /** If r is at least t / m for a positive m, then r copies of m reach t. */
  lemma CeilingCovers(t: real, m: real, r: int)
    requires m > 0.0 && t / m <= r as real
    ensures r as real * m >= t
  {
    assert (t / m) * m == t;
  }

  /** The extent one copy of the real content takes along the scrolling axis. */
  function ContentExtent(numberOfItems: int, numberOfSections: int, itemSize: real,
                         itemSpace: real, sectionSpace: real): real
  {
    numberOfItems as real * itemSize
    + (numberOfItems - 1) as real * itemSpace
    + numberOfSections as real * sectionSpace
    + (numberOfSections - 1) as real * SpaceAfterSecondSection
  }

  function ItemSizeAlong(layout: FlowLayout, d: ScrollDirection): real {
    if d == Horizontal then layout.itemSize.width else layout.itemSize.height
  }

  function ItemSpaceAlong(layout: FlowLayout, d: ScrollDirection): real {
    if d == Horizontal then layout.minimumLineSpacing else layout.minimumInteritemSpacing
  }

  function SectionSpaceAlong(layout: FlowLayout, d: ScrollDirection): real {
    if d == Horizontal then layout.sectionInset.left + layout.sectionInset.right
    else layout.sectionInset.top + layout.sectionInset.bottom
  }

  function PlannedExtent(layout: FlowLayout, numberOfSections: int, numberOfItems: int, d: ScrollDirection): real {
    ContentExtent(numberOfItems, numberOfSections, ItemSizeAlong(layout, d),
                  ItemSpaceAlong(layout, d), SectionSpaceAlong(layout, d))
  }

  /** The division by a zero item size only happens once the content reaches
      the threshold; Int(ceil(...)) of the resulting infinity traps. */
  predicate MultiplierDefined(layout: FlowLayout, numberOfSections: int, numberOfItems: int,
                              d: ScrollDirection, screen: Size)
  {
    PlannedExtent(layout, numberOfSections, numberOfItems, d) >= MinimumContentSizeFor(d, screen)
    ==> ItemSizeAlong(layout, d) != 0.0
  }

  /** multiplier(infiniteLayout:numberOfSections:numberOfItems:scrollDirection:) */
  function Multiplier(layout: FlowLayout, numberOfSections: int, numberOfItems: int,
                      d: ScrollDirection, screen: Size): (r: int)
    requires MultiplierDefined(layout, numberOfSections, numberOfItems, d, screen)
    ensures PlannedExtent(layout, numberOfSections, numberOfItems, d) < MinimumContentSizeFor(d, screen) ==> r == 1
    ensures PlannedExtent(layout, numberOfSections, numberOfItems, d) >= MinimumContentSizeFor(d, screen) ==>
      var q := MinimumContentSizeFor(d, screen) / ItemSizeAlong(layout, d);
      (r - 1) as real < q <= r as real
  {
    var threshold := MinimumContentSizeFor(d, screen);
    if PlannedExtent(layout, numberOfSections, numberOfItems, d) < threshold then 1
    else Ceil(threshold / ItemSizeAlong(layout, d))
  }

  /** With a positive item size and screen the multiplier is at least one, and
      once replication is switched on, that many item extents reach the
      screen's extent along the scrolling axis. */
  lemma MultiplierAtLeastOne(layout: FlowLayout, numberOfSections: int, numberOfItems: int,
                             d: ScrollDirection, screen: Size)
    requires ItemSizeAlong(layout, d) > 0.0
    requires screen.width > 0.0 && screen.height > 0.0
    ensures MultiplierDefined(layout, numberOfSections, numberOfItems, d, screen)
    ensures var r := Multiplier(layout, numberOfSections, numberOfItems, d, screen);
      r >= 1 &&
      (PlannedExtent(layout, numberOfSections, numberOfItems, d) >= MinimumContentSizeFor(d, screen) ==>
        r as real * ItemSizeAlong(layout, d) >= MinimumContentSizeFor(d, screen))
  {
    var t := MinimumContentSizeFor(d, screen);
    var m := ItemSizeAlong(layout, d);
    var r := Multiplier(layout, numberOfSections, numberOfItems, d, screen);
    if PlannedExtent(layout, numberOfSections, numberOfItems, d) >= t {
      assert t / m > 0.0;
      CeilingCovers(t, m, r);
    }
  }

  /** numberOfSections(numberOfSections:multiplier:) */
  function NumberOfSections(numberOfSections: int, multiplier: int): (r: int)
    ensures numberOfSections > 1 ==> r == numberOfSections * multiplier
    ensures numberOfSections <= 1 ==> r == numberOfSections
  {
    if numberOfSections > 1 then numberOfSections * multiplier else numberOfSections
  }

  /** numberOfItemsInSection(numberOfItemsInSection:numberOfSections:multiplier:) */
  function NumberOfItemsInSection(numberOfItemsInSection: int, numberOfSections: int, multiplier: int): (r: int)
    ensures numberOfSections > 1 ==> r == numberOfItemsInSection
    ensures numberOfSections <= 1 ==> r == numberOfItemsInSection * multiplier
  {
    if numberOfSections > 1 then numberOfItemsInSection else numberOfItemsInSection * multiplier
  }

  /** The real item total over the real sections. */
  function Sum(items: seq<int>): int {
    if |items| == 0 then 0 else Sum(items[..|items| - 1]) + items[|items| - 1]
  }

  /** The items reported for the first `k` virtual sections; each virtual
      section asks for the count of the real section it maps to. */
  function VirtualItems(items: seq<int>, multiplier: int, k: nat): int
    requires |items| > 0
  {
    if k == 0 then 0
    else
      VirtualItems(items, multiplier, k - 1)
      + NumberOfItemsInSection(items[SectionFrom(k - 1, |items|)], |items|, multiplier)
  }

  /** All items the inflated collection reports. */
  function VirtualTotal(items: seq<int>, multiplier: int): int
    requires multiplier >= 0
  {
    if |items| == 0 then 0
    else VirtualItems(items, multiplier, NumberOfSections(|items|, multiplier))
  }

  lemma {:induction false} MulAtLeast(s: int, d: int)
    requires s > 0 && d >= 1
    ensures s * d >= s
  {
    if d > 1 {
      MulAtLeast(s, d - 1);
      assert s * d == s * (d - 1) + s;
    }
  }

  /** Euclidean division by a positive divisor has a unique quotient and remainder. */
  lemma DivModUnique(x: int, s: int, q: int, j: int)
    requires s > 0 && x == q * s + j && 0 <= j < s
    ensures x % s == j && x / s == q
  {
    var d := x / s - q;
    assert s * (x / s) + x % s == x;
    assert s * d == j - x % s;
    if d >= 1 {
      MulAtLeast(s, d);
    } else if d <= -1 {
      assert s * -d == -(s * d);
      MulAtLeast(s, -d);
    }
  }

  /** q full rounds of the real sections plus a prefix of j of them. */
  lemma {:induction false} VirtualItemsBlocks(items: seq<int>, multiplier: int, q: nat, j: nat)
    requires |items| > 1 && j <= |items|
    ensures VirtualItems(items, multiplier, q * |items| + j) == q * Sum(items) + Sum(items[..j])
  {
    var s := |items|;
    if j > 0 {
      VirtualItemsBlocks(items, multiplier, q, j - 1);
      DivModUnique(q * s + (j - 1), s, q, j - 1);
      assert q * s + j - 1 == q * s + (j - 1);
      assert items[..j][..j - 1] == items[..j - 1];
    } else if q > 0 {
      VirtualItemsBlocks(items, multiplier, q - 1, s);
      assert q * s + 0 == (q - 1) * s + s;
      assert items[..s] == items;
    } else {
      assert items[..0] == [];
    }
  }

  /** Whichever way the planner inflates (sections when there are several,
      items when there is one), the virtual collection holds exactly
      `multiplier` copies of the real one. */
  lemma VirtualTotalIsMultiple(items: seq<int>, multiplier: nat)
    ensures VirtualTotal(items, multiplier) == multiplier * Sum(items)
  {
    var s := |items|;
    if s == 1 {
      assert items[..0] == [];
      assert VirtualItems(items, multiplier, 1) == items[0] * multiplier;
    } else if s > 1 {
      VirtualItemsBlocks(items, multiplier, multiplier, 0);
      assert multiplier * s + 0 == s * multiplier;
      assert items[..0] == [];
    }
  }

  /** Every virtual index path inside the reported counts maps to a real path
      inside the real counts. */
  lemma VirtualPathMapsIntoRealCounts(items: seq<int>, multiplier: nat, v: IndexPath)
    requires |items| > 0
    requires 0 <= v.section < NumberOfSections(|items|, multiplier)
    requires 0 <= v.item < NumberOfItemsInSection(items[SectionFrom(v.section, |items|)], |items|, multiplier)
    ensures var r := IndexPathFrom(v, |items|, items[SectionFrom(v.section, |items|)]);
      0 <= r.section < |items| && 0 <= r.item < items[r.section]
  {
    var n := items[SectionFrom(v.section, |items|)];
    assert n <= 0 ==> n * multiplier <= 0;
  }
}
