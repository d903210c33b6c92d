/** Colour and label assignment of `plot_multiple` (elev_compare.py, lines 64-68).
    The drawing itself is left to the plotting library; what is modelled is
    the list of lines that would be handed to it. */
module Render {

  /** `plt.cm.tab10.colors` holds ten colours; their values are not modelled. */
  const PaletteSize: nat := 10

  /** One `ax.plot` call (and its `fill_between`, which uses the same colour). */
  datatype Line<C> = Line(legend: string, distances: seq<real>, elevations: seq<real>, colour: C)

  /** The first n lines of `zip(files, ds, es)`, line i coloured palette[i mod 10]. */
  function LinesUpTo<C>(files: seq<string>, ds: seq<seq<real>>, es: seq<seq<real>>, palette: seq<C>, n: nat): (r: seq<Line<C>>)
    requires |palette| == PaletteSize
    requires n <= |files| && n <= |ds| && n <= |es|
    ensures |r| == n
    ensures forall i :: 0 <= i < n ==> r[i] == Line(files[i], ds[i], es[i], palette[i % PaletteSize])
  {
    if n == 0 then []
    else LinesUpTo(files, ds, es, palette, n - 1) + [Line(files[n - 1], ds[n - 1], es[n - 1], palette[(n - 1) % PaletteSize])]
  }

  function Min3(a: nat, b: nat, c: nat): nat {
    if a <= b && a <= c then a else if b <= c then b else c
  }

  /** All lines of the zip: it stops at the shortest of the three lists. */
  function Lines<C>(files: seq<string>, ds: seq<seq<real>>, es: seq<seq<real>>, palette: seq<C>): (r: seq<Line<C>>)
    requires |palette| == PaletteSize
    ensures |r| <= |files| && |r| <= |ds| && |r| <= |es|
    ensures |r| == |files| || |r| == |ds| || |r| == |es|
    ensures forall i :: 0 <= i < |r| ==> r[i] == Line(files[i], ds[i], es[i], palette[i % PaletteSize])
  {
    LinesUpTo(files, ds, es, palette, Min3(|files|, |ds|, |es|))
  }

  /** Advancing the colour iterator once more moves to the next palette slot. */
  lemma CycleStep(i: nat)
    ensures (i % PaletteSize + 1) % PaletteSize == (i + 1) % PaletteSize
  {
  }

  /** The plotting loop: the colour iterator is a position in the palette
      that `next` advances and wraps around after the tenth colour. */
  method DrawLines<C>(files: seq<string>, ds: seq<seq<real>>, es: seq<seq<real>>, palette: seq<C>)
    returns (lines: seq<Line<C>>)
    requires |palette| == PaletteSize
    ensures lines == Lines(files, ds, es, palette)
  {
    var n := Min3(|files|, |ds|, |es|);
    var cursor := 0;
    lines := [];
    var i := 0;
    while i < n
      invariant 0 <= i <= n
      invariant cursor == i % PaletteSize
      invariant lines == LinesUpTo(files, ds, es, palette, i)
    {
      var c := palette[cursor];
      CycleStep(i);
      cursor := (cursor + 1) % PaletteSize;
      lines := lines + [Line(files[i], ds[i], es[i], c)];
      i := i + 1;
    }
  }
}
