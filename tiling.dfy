/** The page and tile arithmetic of the looping layout: the real content is one
    tile of extent W along the scrolling axis, repeated over 500 pages.
    Every function here reads only a snapshot of the layout's geometry.

    A page is a CGPoint in the source whose component across the scrolling
    axis is always 0 and whose component along it is a whole number; it is
    kept here as that whole number. */
module Tiling {
  import opened Geometry
  import opened Flow

  /** How many tiles the virtual content spans (the layout's `multiplier`). */
  const PageCount: int := 500

  /** The layout's stored content size (one copy of the real content plus one
      line spacing) together with its scroll direction. */
  datatype Tile = Tile(direction: ScrollDirection, size: Size) {
    /** Both extents non-zero: every division by them is defined. */
    predicate Positive() { size.width > 0.0 && size.height > 0.0 }

    /** The tile's extent W along the scrolling axis. */
    function Span(): real { Extent(direction, size) }

    /** The tile's extent across the scrolling axis. */
    function CrossSpan(): real { CrossExtent(direction, size) }
  }

  /** k tiles of extent w, that is k * w (see TilesIsProduct), built by
      repeated addition so that reasoning about tile boundaries stays linear. */
  function Tiles(k: int, w: real): real
    decreases if k < 0 then -k else k
  {
    if k == 0 then 0.0
    else if k > 0 then Tiles(k - 1, w) + w
    else Tiles(k + 1, w) - w
  }

  /** v lies in tile number `page` of extent w. */
  predicate InTile(v: real, page: int, w: real) {
    Tiles(page, w) <= v < Tiles(page + 1, w)
  }

  /** a and b differ by a whole number of tiles of extent w. */
  ghost predicate Congruent(a: real, b: real, w: real) {
    exists k: int :: a - b == Tiles(k, w)
  }

  lemma TilesStep(k: int, w: real)
    ensures Tiles(k + 1, w) == Tiles(k, w) + w
  {
  }

  lemma {:induction false} TilesAdd(i: int, j: int, w: real)
    ensures Tiles(i + j, w) == Tiles(i, w) + Tiles(j, w)
    decreases if j < 0 then -j else j
  {
    if j > 0 {
      TilesAdd(i, j - 1, w);
      TilesStep(i + j - 1, w);
      TilesStep(j - 1, w);
    } else if j < 0 {
      TilesAdd(i, j + 1, w);
      TilesStep(i + j, w);
      TilesStep(j, w);
    }
  }

  lemma TilesNegate(k: int, w: real)
    ensures Tiles(-k, w) == -Tiles(k, w)
  {
    TilesAdd(k, -k, w);
  }

  /** Whole tiles of positive extent: at least one tile for a positive count,
      at most minus one tile for a negative count. */
  lemma {:induction false} TilesSign(k: int, w: real)
    requires w > 0.0
    ensures k >= 0 ==> Tiles(k, w) >= 0.0
    ensures k >= 1 ==> Tiles(k, w) >= w
    ensures k <= -1 ==> Tiles(k, w) <= -w
    decreases if k < 0 then -k else k
  {
    if k > 1 {
      TilesSign(k - 1, w);
    } else if k < -1 {
      TilesSign(k + 1, w);
    }
  }

  /** Tile boundaries are ordered like the tile numbers. */
  lemma TilesOrder(i: int, j: int, w: real)
    requires w > 0.0
    ensures i <= j <==> Tiles(i, w) <= Tiles(j, w)
  {
    TilesAdd(i, j - i, w);
    TilesSign(j - i, w);
  }

  /** Tiles agrees with multiplication. */
  lemma {:induction false} TilesIsProduct(k: int, w: real)
    ensures Tiles(k, w) == k as real * w
    decreases if k < 0 then -k else k
  {
    if k > 0 {
      TilesIsProduct(k - 1, w);
      assert (k - 1) as real * w + w == k as real * w;
    } else if k < 0 {
      TilesIsProduct(k + 1, w);
      assert (k + 1) as real * w - w == k as real * w;
    }
  }

  // Facts of real arithmetic about quotients, each proved apart from any
  // Floor so that the solver's nonlinear reasoning stays small.

  lemma MulMonotone(a: real, b: real, w: real)
    requires w > 0.0
    ensures (a <= b <==> a * w <= b * w) && (a < b <==> a * w < b * w)
  {
  }

  lemma DivMulCancel(x: real, w: real)
    requires w != 0.0
    ensures (x / w) * w == x
  {
  }

  /** Comparing a with v / w is comparing a * w with v. */
  lemma QuotientOrder(v: real, w: real, a: real)
    requires w > 0.0
    ensures (a <= v / w <==> a * w <= v) && (a < v / w <==> a * w < v)
  {
    DivMulCancel(v, w);
    MulMonotone(a, v / w, w);
  }

  lemma DivSign(x: real, w: real)
    requires w > 0.0
    ensures (x >= 0.0 <==> x / w >= 0.0) && (x <= 0.0 <==> x / w <= 0.0)
  {
  }

  lemma DivAtMostMinusOne(w: real, v: real)
    requires w > 0.0 && -w <= v < 0.0
    ensures w / v <= -1.0
  {
  }

  /** Bounds k <= v / w < k + 1 place v in tile k. */
  lemma QuotientInTile(v: real, w: real, k: int)
    requires w > 0.0 && k as real <= v / w < (k + 1) as real
    ensures InTile(v, k, w)
  {
    QuotientOrder(v, w, k as real);
    QuotientOrder(v, w, (k + 1) as real);
    TilesIsProduct(k, w);
    TilesIsProduct(k + 1, w);
  }

  /** Bounds k - 1 < v / w <= k place v in (Tiles(k - 1), Tiles(k)]. */
  lemma QuotientAtMost(v: real, w: real, k: int)
    requires w > 0.0 && (k - 1) as real < v / w <= k as real
    ensures Tiles(k - 1, w) < v <= Tiles(k, w)
  {
    QuotientOrder(v, w, k as real);
    QuotientOrder(v, w, (k - 1) as real);
    TilesIsProduct(k, w);
    TilesIsProduct(k - 1, w);
  }

  /** A value between the starts of tiles lo and hi lies in a tile numbered
      from lo up to hi - 1. */
  lemma TileRange(v: real, f: int, w: real, lo: int, hi: int)
    requires w > 0.0 && InTile(v, f, w)
    requires Tiles(lo, w) <= v < Tiles(hi, w)
    ensures lo <= f < hi
  {
    TilesOrder(f + 1, lo, w);
    TilesOrder(hi, f, w);
  }

  /** The tile number of v is fixed by the tile bounds. */
  lemma InTileUnique(v: real, p: int, q: int, w: real)
    requires w > 0.0 && InTile(v, p, w) && InTile(v, q, w)
    ensures p == q
  {
    TileRange(v, p, w, q, q + 1);
  }

  /** Values a whole number m of tiles apart are congruent. */
  lemma CongruentMultiple(a: real, b: real, m: int, w: real)
    requires a - b == Tiles(m, w)
    ensures Congruent(a, b, w) && Congruent(b, a, w)
  {
    TilesNegate(m, w);
    assert b - a == Tiles(-m, w);
  }

  lemma CongruentTransitive(a: real, b: real, c: real, w: real)
    requires Congruent(a, b, w) && Congruent(b, c, w)
    ensures Congruent(a, c, w)
  {
    var i :| a - b == Tiles(i, w);
    var j :| b - c == Tiles(j, w);
    TilesAdd(i, j, w);
    assert a - c == Tiles(i + j, w);
  }

  lemma CongruentSymmetric(a: real, b: real, w: real)
    requires Congruent(a, b, w)
    ensures Congruent(b, a, w)
  {
    var i :| a - b == Tiles(i, w);
    CongruentMultiple(a, b, i, w);
  }

  /** Two congruent values inside the same tile are equal. */
  lemma CongruentInTileUnique(a: real, b: real, page: int, w: real)
    requires w > 0.0 && Congruent(a, b, w)
    requires InTile(a, page, w) && InTile(b, page, w)
    ensures a == b
  {
    var k :| a - b == Tiles(k, w);
    TilesStep(page, w);
    TilesSign(k, w);
  }

  /** floor(v / w) names the tile holding v. */
  lemma FloorTile(v: real, w: real)
    requires w > 0.0
    ensures InTile(v, (v / w).Floor, w)
  {
    QuotientInTile(v, w, (v / w).Floor);
  }

  /** Rounding toward zero. */
  function Trunc(x: real): (r: int)
    ensures x >= 0.0 ==> r as real <= x < (r + 1) as real
    ensures x <= 0.0 ==> (r - 1) as real < x <= r as real
  {
    if x >= 0.0 then x.Floor else -((-x).Floor)
  }

  /** CGFloat.truncatingRemainder(dividingBy:): x - w * trunc(x / w). The
      result has the sign of x, is less than one tile in size and differs
      from x by whole tiles. */
  function TruncatingRemainder(x: real, w: real): (r: real)
    requires w > 0.0
    ensures x >= 0.0 ==> 0.0 <= r < w
    ensures x <= 0.0 ==> -w < r <= 0.0
    ensures Congruent(r, x, w)
  {
    TruncatingRemainderFacts(x, w, Trunc(x / w));
    x - Tiles(Trunc(x / w), w)
  }

  lemma TruncatingRemainderFacts(x: real, w: real, t: int)
    requires w > 0.0 && t == Trunc(x / w)
    ensures x >= 0.0 ==> 0.0 <= x - Tiles(t, w) < w
    ensures x <= 0.0 ==> -w < x - Tiles(t, w) <= 0.0
    ensures Congruent(x - Tiles(t, w), x, w)
  {
    DivSign(x, w);
    if x >= 0.0 {
      QuotientInTile(x, w, t);
      TilesStep(t, w);
    }
    if x <= 0.0 {
      QuotientAtMost(x, w, t);
      TilesStep(t - 1, w);
    }
    TilesNegate(t, w);
    CongruentMultiple(x - Tiles(t, w), x, -t, w);
  }

  function AbsInt(k: int): int { if k < 0 then -k else k }

  /** The scrolling-axis origin coordinate of rect(from:page:) before the page
      is added, as the source computes it: a negative value is first raised by
      |floor(w / v)| tiles, then truncatingRemainder reduces it. */
  function NormalizedAsWritten(v: real, w: real): real
    requires w > 0.0
  {
    var raised := if v < 0.0 then v + Tiles(AbsInt((w / v).Floor), w) else v;
    TruncatingRemainder(raised, w)
  }

  /** The same with the raise the normalisation evidently intends:
      |floor(v / w)| tiles, enough to bring any negative v into [0, w). */
  function Normalized(v: real, w: real): real
    requires w > 0.0
  {
    var raised := if v < 0.0 then v + Tiles(AbsInt((v / w).Floor), w) else v;
    TruncatingRemainder(raised, w)
  }

  /** As written, the result stays within one tile of zero and congruent to
      v; it is inside [0, w) when v is at least -w. */
  lemma NormalizedAsWrittenBounds(v: real, w: real)
    requires w > 0.0
    ensures var r := NormalizedAsWritten(v, w);
      -w < r < w && Congruent(r, v, w) && (v >= -w ==> 0.0 <= r < w)
  {
    if v < 0.0 {
      var m := AbsInt((w / v).Floor);
      var raised := v + Tiles(m, w);
      assert NormalizedAsWritten(v, w) == TruncatingRemainder(raised, w);
      CongruentMultiple(raised, v, m, w);
      CongruentTransitive(NormalizedAsWritten(v, w), raised, v, w);
      if v >= -w {
        DivAtMostMinusOne(w, v);
        TilesSign(m, w);
      }
    }
  }

  /** Corrected, the result is always inside [0, w) and congruent to v. */
  lemma NormalizedBounds(v: real, w: real)
    requires w > 0.0
    ensures var r := Normalized(v, w);
      0.0 <= r < w && Congruent(r, v, w)
  {
    if v < 0.0 {
      var k := (v / w).Floor;
      DivSign(v, w);
      assert AbsInt(k) == -k;
      var raised := v + Tiles(-k, w);
      TilesNegate(k, w);
      FloorTile(v, w);
      TilesStep(k, w);
      assert Normalized(v, w) == TruncatingRemainder(raised, w);
      CongruentMultiple(raised, v, -k, w);
      CongruentTransitive(Normalized(v, w), raised, v, w);
    }
  }

  /** rect(from:page:) as written: the origin is normalised into one tile on
      each axis and shifted by `page` tiles on the scrolling axis; the size
      is kept. */
  function RectFromAsWritten(t: Tile, rect: Rect, page: int): (r: Rect)
    requires t.Positive()
    ensures r.size == rect.size
    ensures var v, w := Along(t.direction, r.origin), t.Span();
      Tiles(page - 1, w) < v < Tiles(page + 1, w) &&
      Congruent(v, Along(t.direction, rect.origin), w) &&
      (Along(t.direction, rect.origin) >= -w ==> InTile(v, page, w))
    ensures Cross(t.direction, r.origin) == TruncatingRemainder(Cross(t.direction, rect.origin), t.CrossSpan())
  {
    var w := t.Span();
    var v := Along(t.direction, rect.origin);
    var n := NormalizedAsWritten(v, w);
    NormalizedAsWrittenBounds(v, w);
    TilesStep(page - 1, w);
    TilesStep(page, w);
    CongruentMultiple(n + Tiles(page, w), n, page, w);
    CongruentTransitive(n + Tiles(page, w), n, v, w);
    Rect(PointOn(t.direction, n + Tiles(page, w),
                 TruncatingRemainder(Cross(t.direction, rect.origin), t.CrossSpan())),
         rect.size)
  }

  /** rect(from:page:) with the intended normalisation: on the scrolling axis
      the origin always lands in tile `page`, at the same place inside the
      tile as the input. */
  function RectFrom(t: Tile, rect: Rect, page: int): (r: Rect)
    requires t.Positive()
    ensures r.size == rect.size
    ensures var v, w := Along(t.direction, r.origin), t.Span();
      InTile(v, page, w) && Congruent(v, Along(t.direction, rect.origin), w)
    ensures Cross(t.direction, r.origin) == TruncatingRemainder(Cross(t.direction, rect.origin), t.CrossSpan())
  {
    var w := t.Span();
    var v := Along(t.direction, rect.origin);
    var n := Normalized(v, w);
    NormalizedBounds(v, w);
    TilesStep(page, w);
    CongruentMultiple(n + Tiles(page, w), n, page, w);
    CongruentTransitive(n + Tiles(page, w), n, v, w);
    Rect(PointOn(t.direction, n + Tiles(page, w),
                 TruncatingRemainder(Cross(t.direction, rect.origin), t.CrossSpan())),
         rect.size)
  }

  /** An origin more than one tile below zero exposes the difference: the
      source leaves it half a tile before the page it was asked for. */
  lemma RectFromAsWrittenMisplacesFarNegativeOrigin()
    ensures var t := Tile(Horizontal, Size(100.0, 100.0));
            var q := Rect(Point(-150.0, 0.0), Size(10.0, 10.0));
            RectFromAsWritten(t, q, 0).origin.x == -50.0 &&
            !InTile(RectFromAsWritten(t, q, 0).origin.x, 0, 100.0) &&
            RectFrom(t, q, 0).origin.x == 50.0
  {
    var t := Tile(Horizontal, Size(100.0, 100.0));
    var q := Rect(Point(-150.0, 0.0), Size(10.0, 10.0));
    NormalizedAsWrittenAtFarNegative();
    NormalizedAtFarNegative();
    assert Tiles(0, 100.0) == 0.0;
    assert RectFromAsWritten(t, q, 0).origin.x == NormalizedAsWritten(-150.0, 100.0);
    assert RectFrom(t, q, 0).origin.x == Normalized(-150.0, 100.0);
  }

  lemma NormalizedAsWrittenAtFarNegative()
    ensures NormalizedAsWritten(-150.0, 100.0) == -50.0
  {
    assert (100.0 / -150.0).Floor == -1;
    assert Tiles(1, 100.0) == 100.0;
    assert Trunc(-50.0 / 100.0) == 0;
  }

  lemma NormalizedAtFarNegative()
    ensures Normalized(-150.0, 100.0) == 50.0
  {
    assert (-150.0 / 100.0).Floor == -2;
    assert Tiles(2, 100.0) == 200.0;
    assert Trunc(50.0 / 100.0) == 0;
  }

  /** For origins no further than one tile below zero on the scrolling axis the
      two normalisations agree, so the correction only changes inputs the
      source gets wrong. */
  lemma RectFromAgreesWithinOneTile(t: Tile, rect: Rect, page: int)
    requires t.Positive()
    requires Along(t.direction, rect.origin) >= -t.Span()
    ensures RectFromAsWritten(t, rect, page) == RectFrom(t, rect, page)
  {
    var w := t.Span();
    var v := Along(t.direction, rect.origin);
    NormalizedAsWrittenBounds(v, w);
    NormalizedBounds(v, w);
    var a, b := NormalizedAsWritten(v, w), Normalized(v, w);
    CongruentSymmetric(b, v, w);
    CongruentTransitive(a, v, b, w);
    TilesStep(0, w);
    CongruentInTileUnique(a, b, 0, w);
  }

  /** page(for:): the tile holding `p` on the scrolling axis. */
  function PageFor(t: Tile, p: Point): (r: int)
    requires t.Span() > 0.0
    ensures InTile(Along(t.direction, p), r, t.Span())
  {
    FloorTile(Along(t.direction, p), t.Span());
    (Along(t.direction, p) / t.Span()).Floor
  }

  /** collectionViewContentSize: the tile itself, or 500 tiles along the
      scrolling axis once the looping layout is valid. */
  function ContentSizeFor(t: Tile, hasValidLayout: bool): (r: Size)
    ensures !hasValidLayout ==> r == t.size
    ensures hasValidLayout ==>
      Extent(t.direction, r) == Tiles(PageCount, t.Span()) &&
      CrossExtent(t.direction, r) == t.CrossSpan()
  {
    TilesIsProduct(PageCount, t.Span());
    if !hasValidLayout then t.size
    else Size(if t.direction == Horizontal then t.size.width * PageCount as real else t.size.width,
              if t.direction == Vertical then t.size.height * PageCount as real else t.size.height)
  }

  /** Every offset inside the inflated content falls on one of the 500 pages. */
  lemma PagesSpanContent(t: Tile, p: Point)
    requires t.Span() > 0.0
    requires 0.0 <= Along(t.direction, p) < Extent(t.direction, ContentSizeFor(t, true))
    ensures 0 <= PageFor(t, p) < PageCount
  {
    TileRange(Along(t.direction, p), PageFor(t, p), t.Span(), 0, PageCount);
  }

  /** preferredContentOffset(forContentOffset:): the same position inside the
      middle page (page 250). */
  function PreferredContentOffset(t: Tile, offset: Point): Point
    requires t.Positive()
  {
    RectFrom(t, Rect(offset, ZeroSize), PageCount / 2).origin
  }

  /** The same target computed with the source's normalisation. */
  function PreferredContentOffsetAsWritten(t: Tile, offset: Point): Point
    requires t.Positive()
  {
    RectFromAsWritten(t, Rect(offset, ZeroSize), PageCount / 2).origin
  }

  /** The loop rule: an offset on a page below 2 or above 498 jumps to the
      middle page; any other offset stays. */
  predicate NearVirtualEdge(t: Tile, offset: Point)
    requires t.Span() > 0.0
  {
    var page := PageFor(t, offset);
    page < 2 || page > PageCount - 2
  }

  /** The offset loopCollectionViewIfNeeded leaves behind on a valid layout. */
  function LoopedOffset(t: Tile, offset: Point): Point
    requires t.Positive()
  {
    if NearVirtualEdge(t, offset) then PreferredContentOffset(t, offset) else offset
  }

  /** The recentred offset lies on page 250, at the same place inside its tile
      on the scrolling axis, and keeps the cross coordinate modulo the tile. */
  lemma RecenterLandsOnMiddlePage(t: Tile, offset: Point)
    requires t.Positive()
    ensures var r := PreferredContentOffset(t, offset);
      PageFor(t, r) == PageCount / 2 &&
      Congruent(Along(t.direction, r), Along(t.direction, offset), t.Span()) &&
      Cross(t.direction, r) == TruncatingRemainder(Cross(t.direction, offset), t.CrossSpan())
  {
    var r := PreferredContentOffset(t, offset);
    InTileUnique(Along(t.direction, r), PageFor(t, r), PageCount / 2, t.Span());
  }

  /** With the source's normalisation the recentred offset lies on page 249 or
      250: inside the band [2, 498] either way. */
  lemma RecenterAsWrittenStaysInBand(t: Tile, offset: Point)
    requires t.Positive()
    ensures var page := PageFor(t, PreferredContentOffsetAsWritten(t, offset));
      (page == 249 || page == 250) && !NearVirtualEdge(t, PreferredContentOffsetAsWritten(t, offset))
  {
    var r := PreferredContentOffsetAsWritten(t, offset);
    TileRange(Along(t.direction, r), PageFor(t, r), t.Span(), 249, 251);
  }

  /** For offsets no further than one tile below zero on the scrolling axis,
      which covers every offset inside the inflated content, the loop pass
      writes the same target as the source's normalisation. */
  lemma LoopedOffsetMatchesSourceWithinOneTile(t: Tile, offset: Point)
    requires t.Positive() && Along(t.direction, offset) >= -t.Span()
    ensures LoopedOffset(t, offset) ==
      if NearVirtualEdge(t, offset) then PreferredContentOffsetAsWritten(t, offset) else offset
  {
    RectFromAgreesWithinOneTile(t, Rect(offset, ZeroSize), PageCount / 2);
  }

  /** A second loop pass right after the first changes nothing. */
  lemma LoopedOffsetIdempotent(t: Tile, offset: Point)
    requires t.Positive()
    ensures LoopedOffset(t, LoopedOffset(t, offset)) == LoopedOffset(t, offset)
    ensures !NearVirtualEdge(t, LoopedOffset(t, offset))
  {
    if NearVirtualEdge(t, offset) {
      RecenterLandsOnMiddlePage(t, offset);
    }
  }

  /** Swift's CGRect with one size component replaced. */
  function WithExtent(d: ScrollDirection, r: Rect, e: real): Rect {
    if d == Horizontal then Rect(r.origin, Size(e, r.size.height))
    else Rect(r.origin, Size(r.size.width, e))
  }

  /** The far edge of `r` on the scrolling axis. */
  function FarEdge(d: ScrollDirection, r: Rect): real {
    if d == Horizontal then r.MaxX() else r.MaxY()
  }

  /** A normalised query rect crosses into the next tile. */
  predicate Overflows(t: Tile, r: Rect) {
    FarEdge(t.direction, r) > t.Span()
  }

  /** diffRect: the part of the query beyond the tile boundary, moved to the
      start of the next tile. */
  function OverflowPiece(t: Tile, r: Rect): Rect {
    Rect(ZeroPoint,
         Size(if t.direction == Horizontal then r.MaxX() - t.size.width else r.size.width,
              if t.direction == Vertical then r.MaxY() - t.size.height else r.size.height))
  }

  /** The query shrunk by the overflow: what stays inside the current tile. */
  function RemainingPiece(t: Tile, r: Rect): Rect {
    WithExtent(t.direction, r, Extent(t.direction, r.size) - Extent(t.direction, OverflowPiece(t, r).size))
  }

  /** The split at the tile boundary loses and duplicates nothing on the
      scrolling axis: the remainder ends exactly at the boundary, the overflow
      starts at 0 of the next tile, and the two lengths add up to the query's.
      A query at most one tile long overflows by less than one tile. */
  lemma SplitAtTileBoundary(t: Tile, r: Rect)
    requires Overflows(t, r)
    ensures var over, rest := OverflowPiece(t, r), RemainingPiece(t, r);
      Extent(t.direction, over.size) + Extent(t.direction, rest.size) == Extent(t.direction, r.size) &&
      Extent(t.direction, over.size) > 0.0 &&
      rest.origin == r.origin && FarEdge(t.direction, rest) == t.Span() &&
      Along(t.direction, over.origin) == 0.0 &&
      CrossExtent(t.direction, over.size) == CrossExtent(t.direction, r.size) &&
      CrossExtent(t.direction, rest.size) == CrossExtent(t.direction, r.size) &&
      (InTile(Along(t.direction, r.origin), 0, t.Span()) && Extent(t.direction, r.size) <= t.Span() ==>
        Extent(t.direction, over.size) < t.Span())
  {
  }

  /** layoutAttributes(from:page:) over a sequence: each frame moved into `page`. */
  function Relocate(t: Tile, elements: seq<Attributes>, page: int): (r: seq<Attributes>)
    requires t.Positive()
    ensures |r| == |elements|
    ensures forall i :: 0 <= i < |r| ==>
      r[i].indexPath == elements[i].indexPath && r[i].frame.size == elements[i].frame.size &&
      InTile(Along(t.direction, r[i].frame.origin), page, t.Span())
  {
    seq(|elements|, i requires 0 <= i < |elements| =>
      Attributes(elements[i].indexPath, RectFrom(t, elements[i].frame, page)))
  }

  /** elements(in:page:): the flow layout's records for the normalised rect,
      moved into `page`. */
  function ElementsAt(t: Tile, flowElements: Rect -> seq<Attributes>, rect: Rect, page: int): seq<Attributes>
    requires t.Positive()
  {
    Relocate(t, flowElements(RectFrom(t, rect, 0)), page)
  }

  /** What layoutAttributesForElements(in:) returns. */
  function ElementsInRect(t: Tile, hasValidLayout: bool, flowElements: Rect -> seq<Attributes>, rect: Rect): seq<Attributes>
    requires hasValidLayout ==> t.Positive()
  {
    if !hasValidLayout then flowElements(rect)
    else
      var page := PageFor(t, rect.origin);
      var r := RectFrom(t, rect, 0);
      if Overflows(t, r) then
        ElementsAt(t, flowElements, OverflowPiece(t, r), page + 1)
        + ElementsAt(t, flowElements, RemainingPiece(t, r), page)
      else
        ElementsAt(t, flowElements, r, page)
  }

  /** On a valid layout every record returned for a query lies in the tile
      holding the query's origin or in the next one, and each record's index
      path and size come from the flow layout's answer for one of the pieces. */
  lemma ElementsLandInQueriedTiles(t: Tile, flowElements: Rect -> seq<Attributes>, rect: Rect, a: Attributes)
    requires t.Positive()
    requires a in ElementsInRect(t, true, flowElements, rect)
    ensures var page := PageFor(t, rect.origin);
      InTile(Along(t.direction, a.frame.origin), page, t.Span()) ||
      InTile(Along(t.direction, a.frame.origin), page + 1, t.Span())
  {
    var page := PageFor(t, rect.origin);
    var r := RectFrom(t, rect, 0);
    if Overflows(t, r) {
      var first := ElementsAt(t, flowElements, OverflowPiece(t, r), page + 1);
      var second := ElementsAt(t, flowElements, RemainingPiece(t, r), page);
      assert a in first || a in second;
    }
  }
}
