/** The shared axis range of `plot_multiple` (elev_compare.py, lines 53-60):
    extrema over the union of all surviving series, with a margin on y. */
module Bounds {
  import opened Common

  /** Visual margin added once above and below the elevation extrema. */
  const ChartMargin: real := 10.0

  datatype Bounds = Bounds(xStart: real, xEnd: real, yBot: real, yTop: real)

  /** `max(s)` of a non-empty list. */
  function MaxOf(s: seq<real>): (m: real)
    requires |s| > 0
    ensures m in s
    ensures forall j :: 0 <= j < |s| ==> s[j] <= m
  {
    if |s| == 1 then s[0]
    else
      var rest := MaxOf(s[1..]);
      if s[0] >= rest then s[0] else rest
  }

  /** `min(s)` of a non-empty list. */
  function MinOf(s: seq<real>): (m: real)
    requires |s| > 0
    ensures m in s
    ensures forall j :: 0 <= j < |s| ==> m <= s[j]
  {
    if |s| == 1 then s[0]
    else
      var rest := MinOf(s[1..]);
      if s[0] <= rest then s[0] else rest
  }

  /** At least one list, and none of them empty: what `max(max(e) for e in ss)`
      needs in order not to raise. */
  predicate NonEmptyLists(ss: seq<seq<real>>) {
    |ss| > 0 && forall i :: 0 <= i < |ss| ==> |ss[i]| > 0
  }

  /** `max(max(e) for e in ss)`: the largest value of all the lists, attained by one of them. */
  function MaxOfAll(ss: seq<seq<real>>): (m: real)
    requires NonEmptyLists(ss)
    ensures exists i, j :: 0 <= i < |ss| && 0 <= j < |ss[i]| && ss[i][j] == m
    ensures forall i, j :: 0 <= i < |ss| && 0 <= j < |ss[i]| ==> ss[i][j] <= m
  {
    if |ss| == 1 then
      MaxOf(ss[0])
    else
      var here := MaxOf(ss[0]);
      var rest := MaxOfAll(ss[1..]);
      assert forall i :: 1 <= i < |ss| ==> ss[i] == ss[1..][i - 1];
      if here >= rest then here else rest
  }

  /** `min(min(e) for e in ss)`: the smallest value of all the lists, attained by one of them. */
  function MinOfAll(ss: seq<seq<real>>): (m: real)
    requires NonEmptyLists(ss)
    ensures exists i, j :: 0 <= i < |ss| && 0 <= j < |ss[i]| && ss[i][j] == m
    ensures forall i, j :: 0 <= i < |ss| && 0 <= j < |ss[i]| ==> m <= ss[i][j]
  {
    if |ss| == 1 then
      MinOf(ss[0])
    else
      var here := MinOf(ss[0]);
      var rest := MinOfAll(ss[1..]);
      assert forall i :: 1 <= i < |ss| ==> ss[i] == ss[1..][i - 1];
      if here <= rest then here else rest
  }

  /** Lines 54-60. The y-range is the elevation extrema widened by the margin
      once; the x-range is the distance extrema. With no series (or an empty
      one) Python's `max` raises and the run fails. */
  function SharedBounds(ds: seq<seq<real>>, es: seq<seq<real>>): (r: Result<Bounds>)
    ensures r.Err? <==> !(NonEmptyLists(es) && NonEmptyLists(ds))
    ensures r.Err? ==> r.error == NothingToCompare
  {
    if !NonEmptyLists(es) || !NonEmptyLists(ds) then Err(NothingToCompare)
    else
      var maxRange := MaxOfAll(es);
      var minRange := MinOfAll(es);
      Ok(Bounds(MinOfAll(ds), MaxOfAll(ds), minRange - ChartMargin, maxRange + ChartMargin))
  }

  /** Every elevation lies at least one margin inside [y_bot, y_top], every
      distance inside [x_start, x_end], and each of the four extrema is
      attained by some sample. */
  lemma SharedBoundsEnclose(ds: seq<seq<real>>, es: seq<seq<real>>, b: Bounds)
    requires SharedBounds(ds, es) == Ok(b)
    ensures forall i, j :: 0 <= i < |es| && 0 <= j < |es[i]| ==> b.yBot + ChartMargin <= es[i][j] <= b.yTop - ChartMargin
    ensures exists i, j :: 0 <= i < |es| && 0 <= j < |es[i]| && es[i][j] == b.yBot + ChartMargin
    ensures exists i, j :: 0 <= i < |es| && 0 <= j < |es[i]| && es[i][j] == b.yTop - ChartMargin
    ensures forall i, j :: 0 <= i < |ds| && 0 <= j < |ds[i]| ==> b.xStart <= ds[i][j] <= b.xEnd
    ensures exists i, j :: 0 <= i < |ds| && 0 <= j < |ds[i]| && ds[i][j] == b.xStart
    ensures exists i, j :: 0 <= i < |ds| && 0 <= j < |ds[i]| && ds[i][j] == b.xEnd
  {
  }

  /** When every series starts at zero, the y-range reaches at least one
      margin below and above zero. */
  lemma ZeroAnchoredRange(ds: seq<seq<real>>, es: seq<seq<real>>)
    requires SharedBounds(ds, es).Ok?
    requires forall i :: 0 <= i < |es| ==> |es[i]| > 0 && es[i][0] == 0.0
    ensures SharedBounds(ds, es).value.yBot <= -ChartMargin
    ensures SharedBounds(ds, es).value.yTop >= ChartMargin
  {
    var b := SharedBounds(ds, es).value;
    SharedBoundsEnclose(ds, es, b);
    assert b.yBot + ChartMargin <= es[0][0] <= b.yTop - ChartMargin;
  }
}
