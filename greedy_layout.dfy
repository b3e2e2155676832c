/** The masonry layout of the gallery page (`greedy-layout.ts`): the number
    of columns from the container width, the column width, and the classic
    greedy placement that puts each card into the currently lowest column.
    Item heights arrive as integers (the rounded `colW * h / w`). */
module GreedyLayout {
  import opened Wrappers
  import opened Arith

  // -----------------------------------------------------------------------
  // numbers read from the page

  /** JavaScript truthiness of a number read from the page: `None` stands for
      `undefined` and `NaN`, which are falsy like `0`. */
  predicate Truthy(v: Option<int>)
  {
    v.Some? && v.value != 0
  }

  /** `a || b || fallback` over numbers. */
  function OrElse(a: Option<int>, b: Option<int>, fallback: int): (r: int)
    ensures Truthy(a) ==> r == a.value
    ensures !Truthy(a) && Truthy(b) ==> r == b.value
    ensures !Truthy(a) && !Truthy(b) ==> r == fallback
  {
    if Truthy(a) then a.value else if Truthy(b) then b.value else fallback
  }

  /** `getWH`: a card's width and height, from its `data-w`/`data-h`
      attributes, else the image's natural size, else 1. */
  function GetWH(dataW: Option<int>, dataH: Option<int>, naturalW: Option<int>, naturalH: Option<int>): (r: (int, int))
  {
    (OrElse(dataW, naturalW, 1), OrElse(dataH, naturalH, 1))
  }

  /** Neither side is ever 0, so `h / w` is always defined; a non-zero
      attribute always wins over the natural size. */
  lemma GetWHNeverZero(dataW: Option<int>, dataH: Option<int>, naturalW: Option<int>, naturalH: Option<int>)
    ensures GetWH(dataW, dataH, naturalW, naturalH).0 != 0
    ensures GetWH(dataW, dataH, naturalW, naturalH).1 != 0
    ensures Truthy(dataW) ==> GetWH(dataW, dataH, naturalW, naturalH).0 == dataW.value
    ensures Truthy(dataH) ==> GetWH(dataW, dataH, naturalW, naturalH).1 == dataH.value
  {
  }

  /** `getGaps`: the CSS variable, else the option, else the default
      (12 across, 10 down). */
  function GetGaps(cssGx: Option<int>, cssGy: Option<int>, gapX: Option<int>, gapY: Option<int>): (r: (int, int))
    ensures r.0 != 0 && r.1 != 0
    ensures Truthy(cssGx) ==> r.0 == cssGx.value
    ensures Truthy(cssGy) ==> r.1 == cssGy.value
    ensures !Truthy(cssGx) && !Truthy(gapX) ==> r.0 == 12
    ensures !Truthy(cssGy) && !Truthy(gapY) ==> r.1 == 10
  {
    (OrElse(cssGx, gapX, 12), OrElse(cssGy, gapY, 10))
  }

  // -----------------------------------------------------------------------
  // columns

  /** The options that size the columns. */
  datatype Options = Options(minCols: int, maxCols: int, minWidth: int)

  function Max(a: int, b: int): int { if a >= b then a else b }
  function Min(a: int, b: int): int { if a <= b then a else b }

  /** Room that `k` columns of width `minWidth` with `gx` between them take. */
  function Span(k: int, minWidth: int, gx: int): int
  {
    k * minWidth + (k - 1) * gx
  }

  /** `maxByWidth`: the most columns of at least `minWidth` that fit in
      `width`, and never fewer than 1. `Math.floor` of the quotient is
      Euclidean division here because the divisor is positive. */
  function MaxByWidth(width: int, gx: int, minWidth: int): (k: int)
    requires minWidth + gx > 0
    ensures k >= 1
  {
    Max(1, (width + gx) / (minWidth + gx))
  }

  /** When at least one column fits, `maxByWidth` is the largest count that fits. */
  lemma MaxByWidthIsLargest(width: int, gx: int, minWidth: int)
    requires minWidth + gx > 0
    requires Span(1, minWidth, gx) <= width
    ensures Span(MaxByWidth(width, gx, minWidth), minWidth, gx) <= width
    ensures Span(MaxByWidth(width, gx, minWidth) + 1, minWidth, gx) > width
  {
    var d := minWidth + gx;
    var q := (width + gx) / d;
    assert q * d <= width + gx < (q + 1) * d;
    assert q >= 1 by {
      assert 1 * d <= width + gx;
    }
    assert Span(q, minWidth, gx) == q * d - gx;
    assert Span(q + 1, minWidth, gx) == (q + 1) * d - gx;
  }

  /** `computeCols`: `maxByWidth` clamped into `[minCols, maxCols]`, with
      `minCols` winning when the two bounds cross. */
  function ComputeCols(width: int, gx: int, o: Options): (cols: int)
    requires o.minWidth + gx > 0
    ensures cols >= o.minCols
    ensures o.minCols <= o.maxCols ==> cols <= o.maxCols
    ensures o.minCols <= MaxByWidth(width, gx, o.minWidth) <= o.maxCols ==> cols == MaxByWidth(width, gx, o.minWidth)
    ensures o.maxCols >= 1 ==> cols >= 1
  {
    Max(o.minCols, Min(o.maxCols, MaxByWidth(width, gx, o.minWidth)))
  }

  /** `colW`: the width left after the `cols - 1` gaps, shared out evenly and rounded down. */
  function ColWidth(width: int, gx: int, cols: int): (w: int)
    requires cols >= 1
    ensures w * cols <= width - gx * (cols - 1) < (w + 1) * cols
  {
    (width - gx * (cols - 1)) / cols
  }

  // -----------------------------------------------------------------------
  // placement

  /** Where a card goes: its column, its `translate(x, y)`, and its width. */
  datatype Placement = Placement(col: nat, x: int, y: int, width: int)

  /** The column of least height, the leftmost one among equals. */
  predicate IsLowest(hs: seq<int>, c: int)
  {
    0 <= c < |hs|
    && (forall j :: 0 <= j < |hs| ==> hs[c] <= hs[j])
    && (forall j :: 0 <= j < c ==> hs[j] > hs[c])
  }

  /** The lowest column, as the scan from column 0 rightwards finds it. */
  function Lowest(hs: seq<int>): (c: nat)
    requires |hs| >= 1
    ensures IsLowest(hs, c)
  {
    if |hs| == 1 then 0
    else
      var c := Lowest(hs[..|hs| - 1]);
      if hs[|hs| - 1] < hs[c] then |hs| - 1 else c
  }

  /** Places one card of height `outH`: at the top of the lowest column,
      which then grows by the card and the vertical gap. */
  function PlaceOne(hs: seq<int>, outH: int, colW: int, gx: int, gy: int): (seq<int>, Placement)
    requires |hs| >= 1
  {
    var c := Lowest(hs);
    (hs[c := hs[c] + outH + gy], Placement(c, c * (colW + gx), hs[c], colW))
  }

  /** The placements of the cards of heights `outHs`, in order, starting
      from column heights `hs`, and the column heights at the end. */
  function PlaceAll(hs: seq<int>, outHs: seq<int>, colW: int, gx: int, gy: int): (r: (seq<Placement>, seq<int>))
    requires |hs| >= 1
    ensures |r.0| == |outHs| && |r.1| == |hs|
    decreases |outHs|
  {
    if |outHs| == 0 then ([], hs)
    else
      var step := PlaceOne(hs, outHs[0], colW, gx, gy);
      var rest := PlaceAll(step.0, outHs[1..], colW, gx, gy);
      ([step.1] + rest.0, rest.1)
  }

  /** The column heights after the first `k` cards. */
  function HeightsAfter(cols: nat, outHs: seq<int>, k: nat, colW: int, gx: int, gy: int): seq<int>
    requires cols >= 1 && k <= |outHs|
  {
    PlaceAll(Zeros(cols), outHs[..k], colW, gx, gy).1
  }

  function Zeros(n: nat): (z: seq<int>)
    ensures |z| == n && forall j :: 0 <= j < n ==> z[j] == 0
  {
    seq(n, _ => 0)
  }

  /** The highest column: `Math.max(...heights)`. */
  function MaxOf(hs: seq<int>): (m: int)
    requires |hs| >= 1
    ensures forall j :: 0 <= j < |hs| ==> hs[j] <= m
    ensures exists j :: 0 <= j < |hs| && hs[j] == m
  {
    if |hs| == 1 then hs[0]
    else
      var m := MaxOf(hs[..|hs| - 1]);
      assert forall j :: 0 <= j < |hs| - 1 ==> hs[..|hs| - 1][j] == hs[j];
      Max(m, hs[|hs| - 1])
  }

  /** Placing a list of cards is placing its first part, then the rest from
      where the first part left the columns. */
  lemma {:induction false} PlaceAllAppend(hs: seq<int>, a: seq<int>, b: seq<int>, colW: int, gx: int, gy: int)
    requires |hs| >= 1
    ensures var ra := PlaceAll(hs, a, colW, gx, gy);
            var rb := PlaceAll(ra.1, b, colW, gx, gy);
            PlaceAll(hs, a + b, colW, gx, gy) == (ra.0 + rb.0, rb.1)
    decreases |a|
  {
    if |a| == 0 {
      assert a + b == b;
      var rb := PlaceAll(hs, b, colW, gx, gy);
      assert [] + rb.0 == rb.0;
    } else {
      var step := PlaceOne(hs, a[0], colW, gx, gy);
      assert (a + b)[0] == a[0];
      assert (a + b)[1..] == a[1..] + b;
      PlaceAllAppend(step.0, a[1..], b, colW, gx, gy);
      var ra' := PlaceAll(step.0, a[1..], colW, gx, gy);
      var rb := PlaceAll(ra'.1, b, colW, gx, gy);
      ConsAppend(step.1, ra'.0, rb.0);
    }
  }

  lemma ConsAppend<T>(x: T, u: seq<T>, v: seq<T>)
    ensures [x] + (u + v) == ([x] + u) + v
  {
  }

  /** Card `k` goes to the top of the lowest column as the first `k` cards
      left the columns, at `x = c * (colW + gx)`, with the column width; only
      that column then changes, growing by the card and the gap. */
  lemma PlacementOfCard(cols: nat, outHs: seq<int>, k: nat, colW: int, gx: int, gy: int)
    requires cols >= 1 && k < |outHs|
    ensures var before := HeightsAfter(cols, outHs, k, colW, gx, gy);
            var after := HeightsAfter(cols, outHs, k + 1, colW, gx, gy);
            var p := PlaceAll(Zeros(cols), outHs, colW, gx, gy).0[k];
            && IsLowest(before, p.col)
            && p.x == p.col * (colW + gx) && p.y == before[p.col] && p.width == colW
            && after == before[p.col := p.y + outHs[k] + gy]
  {
    var z := Zeros(cols);
    var before := HeightsAfter(cols, outHs, k, colW, gx, gy);
    PlaceAllAppend(z, outHs[..k], outHs[k..], colW, gx, gy);
    assert outHs[..k] + outHs[k..] == outHs;
    PlaceAllAppend(z, outHs[..k], [outHs[k]], colW, gx, gy);
    assert outHs[..k] + [outHs[k]] == outHs[..k + 1];
    assert outHs[k..][0] == outHs[k];
    assert |PlaceAll(z, outHs[..k], colW, gx, gy).0| == k;
  }

  /** When no card makes its column shorter (`outH + gy >= 0`, true for any
      card with a non-negative gap), no column ever gets shorter. */
  lemma {:induction false} HeightsNeverDecrease(hs: seq<int>, outHs: seq<int>, colW: int, gx: int, gy: int)
    requires |hs| >= 1
    requires forall k :: 0 <= k < |outHs| ==> outHs[k] + gy >= 0
    ensures forall j :: 0 <= j < |hs| ==> hs[j] <= PlaceAll(hs, outHs, colW, gx, gy).1[j]
    decreases |outHs|
  {
    if |outHs| > 0 {
      var step := PlaceOne(hs, outHs[0], colW, gx, gy);
      HeightsNeverDecrease(step.0, outHs[1..], colW, gx, gy);
    }
  }

  function Sum(s: seq<int>): int
  {
    if |s| == 0 then 0 else Sum(s[..|s| - 1]) + s[|s| - 1]
  }

  lemma {:induction false} SumUpdate(s: seq<int>, c: int, v: int)
    requires 0 <= c < |s|
    ensures Sum(s[c := v]) == Sum(s) - s[c] + v
    decreases |s|
  {
    var n := |s| - 1;
    assert s[c := v][..n] == if c < n then s[..n][c := v] else s[..n];
    if c < n {
      SumUpdate(s[..n], c, v);
    }
  }

  /** The columns together hold every card and one gap per card. */
  lemma {:induction false} HeightsAddUp(hs: seq<int>, outHs: seq<int>, colW: int, gx: int, gy: int)
    requires |hs| >= 1
    ensures Sum(PlaceAll(hs, outHs, colW, gx, gy).1) == Sum(hs) + Sum(outHs) + |outHs| * gy
    decreases |outHs|
  {
    if |outHs| > 0 {
      var step := PlaceOne(hs, outHs[0], colW, gx, gy);
      var c := Lowest(hs);
      var n := |outHs| - 1;
      SumUpdate(hs, c, hs[c] + outHs[0] + gy);
      assert Sum(step.0) == Sum(hs) + outHs[0] + gy;
      HeightsAddUp(step.0, outHs[1..], colW, gx, gy);
      SumFront(outHs);
      MulSucc(gy, n);
    }
  }

  lemma {:induction false} SumFront(s: seq<int>)
    requires |s| >= 1
    ensures Sum(s) == s[0] + Sum(s[1..])
    decreases |s|
  {
    if |s| > 1 {
      SumFront(s[..|s| - 1]);
      assert s[..|s| - 1][1..] == s[1..][..|s| - 2];
    }
  }

  /** Two cards put into the same column never overlap: the later one starts
      below the earlier one and its gap. */
  lemma NoOverlap(cols: nat, outHs: seq<int>, k1: nat, k2: nat, colW: int, gx: int, gy: int)
    requires cols >= 1 && k1 < k2 < |outHs|
    requires forall k :: 0 <= k < |outHs| ==> outHs[k] + gy >= 0
    ensures var ps := PlaceAll(Zeros(cols), outHs, colW, gx, gy).0;
            ps[k1].col == ps[k2].col ==> ps[k2].y >= ps[k1].y + outHs[k1] + gy
  {
    var ps := PlaceAll(Zeros(cols), outHs, colW, gx, gy).0;
    PlacementOfCard(cols, outHs, k1, colW, gx, gy);
    PlacementOfCard(cols, outHs, k2, colW, gx, gy);
    var mid := HeightsAfter(cols, outHs, k1 + 1, colW, gx, gy);
    var later := HeightsAfter(cols, outHs, k2, colW, gx, gy);
    var z := Zeros(cols);
    PlaceAllAppend(z, outHs[..k1 + 1], outHs[k1 + 1..k2], colW, gx, gy);
    assert outHs[..k1 + 1] + outHs[k1 + 1..k2] == outHs[..k2];
    HeightsNeverDecrease(mid, outHs[k1 + 1..k2], colW, gx, gy);
    assert later == PlaceAll(mid, outHs[k1 + 1..k2], colW, gx, gy).1;
  }

  /** The scan for the lowest column over the height array. */
  method LowestColumn(heights: array<int>) returns (c: nat)
    requires heights.Length >= 1
    ensures c == Lowest(heights[..])
  {
    c := 0;
    var i := 1;
    while i < heights.Length
      invariant 1 <= i <= heights.Length
      invariant c == Lowest(heights[..i])
    {
      assert heights[..i + 1][..i] == heights[..i];
      if heights[i] < heights[c] {
        c := i;
      }
      i := i + 1;
    }
    assert heights[..heights.Length] == heights[..];
  }

  /** Placing the cards from `k` on is placing card `k`, then the rest. */
  lemma PlaceAllFront(hs: seq<int>, outHs: seq<int>, k: nat, colW: int, gx: int, gy: int)
    requires |hs| >= 1 && k < |outHs|
    ensures var step := PlaceOne(hs, outHs[k], colW, gx, gy);
            var rest := PlaceAll(step.0, outHs[k + 1..], colW, gx, gy);
            PlaceAll(hs, outHs[k..], colW, gx, gy) == ([step.1] + rest.0, rest.1)
  {
    assert outHs[k..][0] == outHs[k];
    assert outHs[k..][1..] == outHs[k + 1..];
  }

  /** One turn of the loop: the card goes to the top of the lowest column,
      which grows by the card and the vertical gap. */
  method PlaceCard(heights: array<int>, outH: int, colW: int, gx: int, gy: int) returns (p: Placement)
    requires heights.Length >= 1
    modifies heights
    ensures (heights[..], p) == PlaceOne(old(heights[..]), outH, colW, gx, gy)
  {
    var c := LowestColumn(heights);
    ghost var hs := heights[..];
    var y := heights[c];
    p := Placement(c, c * (colW + gx), y, colW);
    heights[c] := y + outH + gy;
    assert heights[..] == hs[c := y + outH + gy];
  }

  /** The loop's invariant holds again once card `k` is placed. */
  lemma PlacedNext(whole: (seq<Placement>, seq<int>), ps: seq<Placement>, hs: seq<int>, outHs: seq<int>, k: nat,
                   colW: int, gx: int, gy: int)
    requires |hs| >= 1 && k < |outHs|
    requires var rest := PlaceAll(hs, outHs[k..], colW, gx, gy); whole == (ps + rest.0, rest.1)
    ensures var step := PlaceOne(hs, outHs[k], colW, gx, gy);
            var rest := PlaceAll(step.0, outHs[k + 1..], colW, gx, gy);
            whole == ((ps + [step.1]) + rest.0, rest.1)
  {
    PlaceAllFront(hs, outHs, k, colW, gx, gy);
    var step := PlaceOne(hs, outHs[k], colW, gx, gy);
    var rest := PlaceAll(step.0, outHs[k + 1..], colW, gx, gy);
    assert ps + ([step.1] + rest.0) == (ps + [step.1]) + rest.0;
  }

  /** `layout`: places the cards of heights `outHs` in order, each into the
      lowest column, and returns the placements, the final column heights and
      the container height (the highest column less the trailing gap). */
  method Layout(cols: nat, colW: int, gx: int, gy: int, outHs: seq<int>)
    returns (placements: seq<Placement>, finalHeights: seq<int>, containerHeight: int)
    requires cols >= 1
    ensures (placements, finalHeights) == PlaceAll(Zeros(cols), outHs, colW, gx, gy)
    ensures containerHeight == MaxOf(finalHeights) - gy
  {
    var heights := new int[cols](_ => 0);
    placements := [];
    var k := 0;
    assert heights[..] == Zeros(cols);
    assert outHs[0..] == outHs;
    assert [] + PlaceAll(Zeros(cols), outHs, colW, gx, gy).0 == PlaceAll(Zeros(cols), outHs, colW, gx, gy).0;
    ghost var whole := PlaceAll(Zeros(cols), outHs, colW, gx, gy);
    while k < |outHs|
      invariant 0 <= k <= |outHs|
      invariant heights.Length == cols
      invariant var rest := PlaceAll(heights[..], outHs[k..], colW, gx, gy);
                whole == (placements + rest.0, rest.1)
    {
      PlacedNext(whole, placements, heights[..], outHs, k, colW, gx, gy);
      var p := PlaceCard(heights, outHs[k], colW, gx, gy);
      placements := placements + [p];
      k := k + 1;
    }
    assert outHs[k..] == [];
    assert placements + [] == placements;
    finalHeights := heights[..];
    containerHeight := MaxOf(finalHeights) - gy;
  }
}
