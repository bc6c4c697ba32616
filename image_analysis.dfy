/** Conveyor geometry from a grey-level frame and the sorting of decoded
    barcodes between the two conveyors. A frame is a grid of grey levels,
    rows by columns; a pixel is dark when its level is below 50. The conveyor
    runs across the columns with at least 500 dark pixels and across the rows
    with at least 2000. Barcode rectangles come from the decoder as
    `(x, y, w, h)`. */
module ImageAnalysis {

  const DARK_LEVEL := 50
  const COLUMN_THRESHOLD := 500
  const ROW_THRESHOLD := 2000

  /** `np.where(gray < 50, 1, 0)` at one pixel. */
  function MaskBit(v: int): (b: int)
    ensures b == 1 <==> v < DARK_LEVEL
    ensures b == 0 <==> v >= DARK_LEVEL
  {
    if v < DARK_LEVEL then 1 else 0
  }

  /** Which lines of the frame a scan runs over. */
  datatype Axis = Columns | Rows

  /** The number of lines along an axis. */
  function Lines(img: array2<int>, axis: Axis): nat
  {
    if axis == Columns then img.Length1 else img.Length0
  }

  /** The number of pixels in one line. */
  function LineLength(img: array2<int>, axis: Axis): nat
  {
    if axis == Columns then img.Length0 else img.Length1
  }

  /** The least number of dark pixels a line needs to count as conveyor. */
  function MinDark(axis: Axis): nat
  {
    if axis == Columns then COLUMN_THRESHOLD else ROW_THRESHOLD
  }

  /** Pixel j of line i. */
  function Pixel(img: array2<int>, axis: Axis, i: nat, j: nat): int
    requires i < Lines(img, axis) && j < LineLength(img, axis)
    reads img
  {
    if axis == Columns then img[j, i] else img[i, j]
  }

  /** The sum of the mask over the first n pixels of line i. */
  function DarkPrefix(img: array2<int>, axis: Axis, i: nat, n: nat): (r: nat)
    requires i < Lines(img, axis) && n <= LineLength(img, axis)
    reads img
    ensures r <= n
    decreases n
  {
    if n == 0 then 0 else DarkPrefix(img, axis, i, n - 1) + MaskBit(Pixel(img, axis, i, n - 1))
  }

  /** `np.sum` of the mask over line i. */
  function DarkCount(img: array2<int>, axis: Axis, i: nat): nat
    requires i < Lines(img, axis)
    reads img
  {
    DarkPrefix(img, axis, i, LineLength(img, axis))
  }

  /** The positions of the dark pixels among the first n of line i. */
  ghost function DarkPixels(img: array2<int>, axis: Axis, i: nat, n: nat): set<nat>
    requires i < Lines(img, axis) && n <= LineLength(img, axis)
    reads img
  {
    set j: nat | j < n && Pixel(img, axis, i, j) < DARK_LEVEL
  }

  /** The mask sum is exactly the number of pixels darker than 50. */
  lemma {:induction false} DarkPrefixCountsDarkPixels(img: array2<int>, axis: Axis, i: nat, n: nat)
    requires i < Lines(img, axis) && n <= LineLength(img, axis)
    ensures DarkPrefix(img, axis, i, n) == |DarkPixels(img, axis, i, n)|
    decreases n
  {
    if n > 0 {
      DarkPrefixCountsDarkPixels(img, axis, i, n - 1);
      var before := DarkPixels(img, axis, i, n - 1);
      if Pixel(img, axis, i, n - 1) < DARK_LEVEL {
        assert DarkPixels(img, axis, i, n) == before + {n - 1};
      } else {
        assert DarkPixels(img, axis, i, n) == before;
      }
    }
  }

  /** Line i has enough dark pixels to count as conveyor. */
  predicate Qualifies(img: array2<int>, axis: Axis, i: nat)
    requires i < Lines(img, axis)
    reads img
  {
    DarkCount(img, axis, i) >= MinDark(axis)
  }

  /** Some line along the axis qualifies. */
  ghost predicate Found(img: array2<int>, axis: Axis)
    reads img
  {
    exists i: nat :: i < Lines(img, axis) && Qualifies(img, axis, i)
  }

  /** The scan from line `from` upwards: the first qualifying line, 0 if none. */
  function FirstFrom(img: array2<int>, axis: Axis, from: nat): nat
    reads img
    decreases Lines(img, axis) - from
  {
    if from >= Lines(img, axis) then 0
    else if Qualifies(img, axis, from) then from
    else FirstFrom(img, axis, from + 1)
  }

  /** The scan from line `below - 1` downwards: the last qualifying line, 0 if none. */
  function LastBelow(img: array2<int>, axis: Axis, below: nat): nat
    requires below <= Lines(img, axis)
    reads img
    decreases below
  {
    if below == 0 then 0
    else if Qualifies(img, axis, below - 1) then below - 1
    else LastBelow(img, axis, below - 1)
  }

  function FirstLine(img: array2<int>, axis: Axis): nat
    reads img
  {
    FirstFrom(img, axis, 0)
  }

  function LastLine(img: array2<int>, axis: Axis): nat
    reads img
  {
    LastBelow(img, axis, Lines(img, axis))
  }

  /** The upward scan stops at the least qualifying line at or after `from`,
      and gives 0 when there is none. */
  lemma {:induction false} FirstFromIsLeast(img: array2<int>, axis: Axis, from: nat)
    ensures (exists i: nat :: from <= i < Lines(img, axis) && Qualifies(img, axis, i)) ==>
              && from <= FirstFrom(img, axis, from) < Lines(img, axis)
              && Qualifies(img, axis, FirstFrom(img, axis, from))
              && forall i: nat :: from <= i < FirstFrom(img, axis, from) ==> !Qualifies(img, axis, i)
    ensures (forall i: nat :: from <= i < Lines(img, axis) ==> !Qualifies(img, axis, i)) ==>
              FirstFrom(img, axis, from) == 0
    decreases Lines(img, axis) - from
  {
    if from < Lines(img, axis) && !Qualifies(img, axis, from) {
      FirstFromIsLeast(img, axis, from + 1);
    }
  }

  /** The downward scan stops at the greatest qualifying line below `below`,
      and gives 0 when there is none. */
  lemma {:induction false} LastBelowIsGreatest(img: array2<int>, axis: Axis, below: nat)
    requires below <= Lines(img, axis)
    ensures (exists i: nat :: i < below && Qualifies(img, axis, i)) ==>
              && LastBelow(img, axis, below) < below
              && Qualifies(img, axis, LastBelow(img, axis, below))
              && forall i: nat :: LastBelow(img, axis, below) < i < below ==> !Qualifies(img, axis, i)
    ensures (forall i: nat :: i < below ==> !Qualifies(img, axis, i)) ==> LastBelow(img, axis, below) == 0
    decreases below
  {
    if below > 0 && !Qualifies(img, axis, below - 1) {
      LastBelowIsGreatest(img, axis, below - 1);
    }
  }

  /** The conveyor band along an axis: when a line qualifies, the first and
      last qualifying lines bound every qualifying line, first <= last, and
      both qualify; when none does, both are 0. */
  lemma ConveyorBand(img: array2<int>, axis: Axis)
    ensures Found(img, axis) ==>
              && FirstLine(img, axis) <= LastLine(img, axis) < Lines(img, axis)
              && Qualifies(img, axis, FirstLine(img, axis))
              && Qualifies(img, axis, LastLine(img, axis))
    ensures forall i: nat :: i < Lines(img, axis) && (i < FirstLine(img, axis) || LastLine(img, axis) < i) ==>
              !Qualifies(img, axis, i)
    ensures !Found(img, axis) ==> FirstLine(img, axis) == 0 && LastLine(img, axis) == 0
  {
    FirstFromIsLeast(img, axis, 0);
    LastBelowIsGreatest(img, axis, Lines(img, axis));
  }

  /** `find_top_and_bottom_of_conveyors`: `bottom` is the first column with at
      least 500 dark pixels and `top` the last; each stays 0 when no column has
      that many, which ConveyorBand states about FirstLine and LastLine. */
  method FindTopAndBottomOfConveyors(img: array2<int>) returns (top: int, bottom: int)
    ensures bottom == FirstLine(img, Columns) && top == LastLine(img, Columns)
    ensures Found(img, Columns) ==>
              && 0 <= bottom <= top < img.Length1
              && DarkCount(img, Columns, bottom) >= COLUMN_THRESHOLD
              && DarkCount(img, Columns, top) >= COLUMN_THRESHOLD
    ensures forall c: nat :: c < img.Length1 && (c < bottom || top < c) ==>
              DarkCount(img, Columns, c) < COLUMN_THRESHOLD
  {
    top := 0;
    bottom := 0;
    var colIdx := 0;
    while colIdx < img.Length1
      invariant 0 <= colIdx <= img.Length1
      invariant bottom == 0
      invariant FirstFrom(img, Columns, colIdx) == FirstLine(img, Columns)
    {
      var onesCount := DarkCount(img, Columns, colIdx);
      if onesCount >= COLUMN_THRESHOLD {
        bottom := colIdx;
        break;
      }
      colIdx := colIdx + 1;
    }
    // `below` is one past the column the downward scan looks at next
    var below := img.Length1;
    while below > 0
      invariant 0 <= below <= img.Length1
      invariant top == 0
      invariant LastBelow(img, Columns, below) == LastLine(img, Columns)
    {
      var onesCount := DarkCount(img, Columns, below - 1);
      if onesCount >= COLUMN_THRESHOLD {
        top := below - 1;
        break;
      }
      below := below - 1;
    }
    ConveyorBand(img, Columns);
    forall c: nat | c < img.Length1 && (c < bottom || top < c)
      ensures DarkCount(img, Columns, c) < COLUMN_THRESHOLD
    {
      assert !Qualifies(img, Columns, c);
    }
  }

  /** `find_left_and_right_of_conveyors`: `left` is the first row with at least
      2000 dark pixels and `right` the last; each stays 0 when no row has that
      many, which ConveyorBand states about FirstLine and LastLine. */
  method FindLeftAndRightOfConveyors(img: array2<int>) returns (left: int, right: int)
    ensures left == FirstLine(img, Rows) && right == LastLine(img, Rows)
    ensures Found(img, Rows) ==>
              && 0 <= left <= right < img.Length0
              && DarkCount(img, Rows, left) >= ROW_THRESHOLD
              && DarkCount(img, Rows, right) >= ROW_THRESHOLD
    ensures forall r: nat :: r < img.Length0 && (r < left || right < r) ==>
              DarkCount(img, Rows, r) < ROW_THRESHOLD
  {
    left := 0;
    right := 0;
    var rowIdx := 0;
    while rowIdx < img.Length0
      invariant 0 <= rowIdx <= img.Length0
      invariant left == 0
      invariant FirstFrom(img, Rows, rowIdx) == FirstLine(img, Rows)
    {
      var onesCount := DarkCount(img, Rows, rowIdx);
      if onesCount >= ROW_THRESHOLD {
        left := rowIdx;
        break;
      }
      rowIdx := rowIdx + 1;
    }
    var below := img.Length0;
    while below > 0
      invariant 0 <= below <= img.Length0
      invariant right == 0
      invariant LastBelow(img, Rows, below) == LastLine(img, Rows)
    {
      var onesCount := DarkCount(img, Rows, below - 1);
      if onesCount >= ROW_THRESHOLD {
        right := below - 1;
        break;
      }
      below := below - 1;
    }
    ConveyorBand(img, Rows);
    forall r: nat | r < img.Length0 && (r < left || right < r)
      ensures DarkCount(img, Rows, r) < ROW_THRESHOLD
    {
      assert !Qualifies(img, Rows, r);
    }
  }

  /** A decoded barcode's bounding rectangle, `barcode.rect`. */
  datatype Rect = Rect(x: int, y: int, w: int, h: int)

  /** A point in pixel coordinates; barcode centres have half-pixel parts. */
  datatype Point = Point(x: real, y: real)

  /** `(x + w/2, y + h/2)`: the point halfway across and halfway down the
      rectangle, which lies inside it when its sides are not negative. */
  function Centre(r: Rect): (c: Point)
    ensures c.x - r.x as real == (r.x + r.w) as real - c.x
    ensures c.y - r.y as real == (r.y + r.h) as real - c.y
    ensures r.w >= 0 ==> r.x as real <= c.x <= (r.x + r.w) as real
    ensures r.h >= 0 ==> r.y as real <= c.y <= (r.y + r.h) as real
  {
    Point(r.x as real + r.w as real / 2.0, r.y as real + r.h as real / 2.0)
  }

  /** `find_barcode_locations`, with the decoder's output given: one centre per
      barcode, in decode order. */
  method FindBarcodeLocations(rects: seq<Rect>) returns (centres: seq<Point>)
    ensures |centres| == |rects|
    ensures forall i :: 0 <= i < |rects| ==> centres[i] == Centre(rects[i])
  {
    centres := [];
    for i := 0 to |rects|
      invariant |centres| == i
      invariant forall k :: 0 <= k < i ==> centres[k] == Centre(rects[k])
    {
      var centreX := rects[i].x as real + rects[i].w as real / 2.0;
      var centreY := rects[i].y as real + rects[i].h as real / 2.0;
      centres := centres + [Point(centreX, centreY)];
    }
  }

  /** The centres of `rects`, in order. */
  function Centres(rects: seq<Rect>): seq<Point>
  {
    seq(|rects|, i requires 0 <= i < |rects| => Centre(rects[i]))
  }

  /** A sequence holding the centre of each rectangle, in order, is `Centres`. */
  lemma CentresUnique(centres: seq<Point>, rects: seq<Rect>)
    requires |centres| == |rects|
    requires forall i :: 0 <= i < |rects| ==> centres[i] == Centre(rects[i])
    ensures centres == Centres(rects)
  {
  }

  /** The dividing line between the two conveyors' barcodes: a quarter of the
      way from `bottom` towards `top`, rounded towards `top` (Python's `//`
      floors, like Dafny's `/` by a positive divisor). */
  function SplitThreshold(top: int, bottom: int): (t: int)
    ensures bottom <= top ==> bottom <= t <= top
    ensures top - bottom <= 4 * (t - bottom) <= top - bottom + 3
  {
    var distance := bottom - top;
    bottom - distance / 4
  }

  /** The centres with `y` below the threshold, in their original order. */
  function Below(cs: seq<Point>, t: int): seq<Point>
  {
    if cs == [] then []
    else Below(cs[..|cs| - 1], t) + (if cs[|cs| - 1].y < t as real then [cs[|cs| - 1]] else [])
  }

  /** The centres with `y` at or above the threshold, in their original order. */
  function NotBelow(cs: seq<Point>, t: int): seq<Point>
  {
    if cs == [] then []
    else NotBelow(cs[..|cs| - 1], t) + (if cs[|cs| - 1].y < t as real then [] else [cs[|cs| - 1]])
  }

  /** The split is a partition: every centre goes to exactly one list, the
      first exactly when its `y` is below the threshold, and nothing is lost
      or duplicated. */
  lemma {:induction false} SplitIsPartition(cs: seq<Point>, t: int)
    ensures |Below(cs, t)| + |NotBelow(cs, t)| == |cs|
    ensures multiset(Below(cs, t)) + multiset(NotBelow(cs, t)) == multiset(cs)
    ensures forall p :: p in Below(cs, t) ==> p in cs && p.y < t as real
    ensures forall p :: p in NotBelow(cs, t) ==> p in cs && p.y >= t as real
    decreases |cs|
  {
    if cs != [] {
      var init := cs[..|cs| - 1];
      SplitIsPartition(init, t);
      assert init + [cs[|cs| - 1]] == cs;
    }
  }

  /** The classification loop of `barcodes_divided_into_conveyors`: each
      centre is appended to the first list when its `y` is below the
      threshold and to the second otherwise. */
  method SplitAtThreshold(centres: seq<Point>, threshold: int) returns (left: seq<Point>, right: seq<Point>)
    ensures left == Below(centres, threshold) && right == NotBelow(centres, threshold)
    ensures |left| + |right| == |centres|
    ensures multiset(left) + multiset(right) == multiset(centres)
  {
    left, right := [], [];
    for i := 0 to |centres|
      invariant left == Below(centres[..i], threshold)
      invariant right == NotBelow(centres[..i], threshold)
    {
      assert centres[..i + 1][..i] == centres[..i];
      var centre := centres[i];
      if centre.y < threshold as real {
        left := left + [centre];
      } else {
        right := right + [centre];
      }
    }
    assert centres[..|centres|] == centres;
    SplitIsPartition(centres, threshold);
  }

  /** `barcodes_divided_into_conveyors`, with the decoder's output given: the
      threshold comes from the column scan's `(top, bottom)` pair, and the
      centres go to the first list when `y` is below it, to the second
      otherwise, the order kept. */
  method BarcodesDividedIntoConveyors(img: array2<int>, rects: seq<Rect>) returns (left: seq<Point>, right: seq<Point>)
    ensures var t := SplitThreshold(LastLine(img, Columns), FirstLine(img, Columns));
              left == Below(Centres(rects), t) && right == NotBelow(Centres(rects), t)
    ensures |left| + |right| == |rects|
    ensures multiset(left) + multiset(right) == multiset(Centres(rects))
    ensures rects == [] ==> left == [] && right == []
  {
    // the source names the pair (conveyor_left, conveyor_right)
    var top, bottom := FindTopAndBottomOfConveyors(img);
    var distance := bottom - top;
    var threshold := bottom - distance / 4;
    var centres := FindBarcodeLocations(rects);
    CentresUnique(centres, rects);
    assert threshold == SplitThreshold(top, bottom);
    if |centres| == 0 {
      assert Below(centres, threshold) == [] && NotBelow(centres, threshold) == [];
      return [], [];
    }
    left, right := SplitAtThreshold(centres, threshold);
  }
}
