/** The whole run: the argument check of elev_compare.py (lines 84-85) and
    `plot_multiple` (lines 30-69) up to the lines and bounds handed to the
    plotting library. */
module Pipeline {
  import opened Common
  import opened Seqs
  import opened Extraction
  import opened Convert
  import opened Batch
  import opened Bounds
  import opened Render

  /** Everything `plot_multiple` hands to the plotting library, plus the
      per-file report it prints. Every fill goes down to bounds.yBot. */
  datatype Chart<C> = Chart(bounds: Bounds, lines: seq<Line<C>>, statuses: seq<FileStatus>)

  /** `plot_multiple` as a function of the decoded files. */
  function PlotOf<C>(files: seq<string>, decode: string -> Decoded, palette: seq<C>): (r: Result<Chart<C>>)
    requires |palette| == PaletteSize
    ensures r.Err? ==> r.error != UsageError
  {
    match CollectSeries(files, decode)
    case Err(e) => Err(e)
    case Ok(c) =>
      match SharedBounds(c.distances, c.elevations)
      case Err(e) => Err(e)
      case Ok(b) => Ok(Chart(b, Lines(files, c.distances, c.elevations, palette), c.statuses))
  }

  /** The script: fewer than two paths is a usage error raised before any
      file is read; otherwise the comparison runs. */
  function CompareOf<C>(files: seq<string>, decode: string -> Decoded, palette: seq<C>): (r: Result<Chart<C>>)
    requires |palette| == PaletteSize
    ensures r == Err(UsageError) <==> |files| < 2
  {
    if |files| < 2 then Err(UsageError) else PlotOf(files, decode, palette)
  }

  method PlotMultiple<C>(files: seq<string>, decode: string -> Decoded, palette: seq<C>) returns (r: Result<Chart<C>>)
    requires |palette| == PaletteSize
    ensures r == PlotOf(files, decode, palette)
  {
    var collected := ReadAllFiles(files, decode);
    if collected.Err? {
      return Err(collected.error);
    }
    var c := collected.value;
    var bounds := SharedBounds(c.distances, c.elevations);
    if bounds.Err? {
      return Err(bounds.error);
    }
    var lines := DrawLines(files, c.distances, c.elevations, palette);
    r := Ok(Chart(bounds.value, lines, c.statuses));
  }

  method Compare<C>(files: seq<string>, decode: string -> Decoded, palette: seq<C>) returns (r: Result<Chart<C>>)
    requires |palette| == PaletteSize
    ensures r == CompareOf(files, decode, palette)
  {
    if |files| < 2 {
      return Err(UsageError);
    }
    r := PlotMultiple(files, decode, palette);
  }

  /** The file decodes without a fatal error and yields at least one elevation. */
  predicate Survives(f: Decoded) {
    ExtractionOf(f).Ok? && HasElevations(ExtractionOf(f).value)
  }

  /** The chart that the extracted samples xs of the files give: bounds from
      the batch loop's lists, those lists zipped with the paths, and the
      per-file statuses. */
  ghost predicate ChartFrom<C>(files: seq<string>, xs: seq<Samples>, palette: seq<C>, chart: Chart<C>)
    requires |palette| == PaletteSize
  {
    var c := Gather(xs);
    SharedBounds(c.distances, c.elevations) == Ok(chart.bounds) &&
    LinesFrom(files, xs, palette, chart.lines) &&
    chart.statuses == c.statuses
  }

  /** The lines that the extracted samples xs of the files give: the batch
      loop's lists zipped with the paths. */
  ghost predicate LinesFrom<C>(files: seq<string>, xs: seq<Samples>, palette: seq<C>, lines: seq<Line<C>>)
    requires |palette| == PaletteSize
  {
    lines == Lines(files, Gather(xs).distances, Gather(xs).elevations, palette)
  }

  /** A run succeeds exactly when there are at least two paths, every file
      decoded, and the samples give a chart; the bridge from the run to the
      lemmas below, which are stated over extracted samples. */
  lemma SuccessfulRun<C>(files: seq<string>, decode: string -> Decoded, palette: seq<C>, chart: Chart<C>)
    requires |palette| == PaletteSize
    ensures CompareOf(files, decode, palette) == Ok(chart) <==>
      |files| >= 2 && ExtractAll(files, decode).Ok? && ChartFrom(files, ExtractAll(files, decode).value, palette, chart)
  {
  }

  /** The batch loop yields series for some file exactly when some file has
      elevations; the lists it yields then give bounds. */
  lemma GatherNonEmptyIff(xs: seq<Samples>)
    requires forall j :: 0 <= j < |xs| ==> |xs[j].distances| == |xs[j].elevations|
    ensures SharedBounds(Gather(xs).distances, Gather(xs).elevations).Ok? <==>
      exists j :: 0 <= j < |xs| && HasElevations(xs[j])
  {
    var c := Gather(xs);
    GatherSurvivors(xs);
    SurvivorsAnchored(xs);
    PositionsComplete(xs, HasElevations);
    var idx := Positions(xs, HasElevations);
    if j :| 0 <= j < |xs| && HasElevations(xs[j]) {
      assert j in idx;
      assert NonEmptyLists(c.elevations) && NonEmptyLists(c.distances);
    }
  }

  /** A run with enough paths fails exactly when some file fails to decode
      (other than by truncation) or when no file yields an elevation; a
      truncated or empty file alone never stops it. */
  lemma RunFailsIff<C>(files: seq<string>, decode: string -> Decoded, palette: seq<C>)
    requires |palette| == PaletteSize && |files| >= 2
    ensures CompareOf(files, decode, palette).Err? <==>
      (exists j :: 0 <= j < |files| && decode(files[j]).stop.FailedAt?) ||
      (forall j :: 0 <= j < |files| ==> !Survives(decode(files[j])))
    ensures CompareOf(files, decode, palette).Err? ==>
      CompareOf(files, decode, palette).error ==
        if exists j :: 0 <= j < |files| && decode(files[j]).stop.FailedAt? then DecoderError else NothingToCompare
  {
    ExtractAllSpec(files, decode);
    var all := ExtractAll(files, decode);
    if all.Ok? {
      var xs := all.value;
      GatherNonEmptyIff(xs);
      assert (exists j :: 0 <= j < |xs| && HasElevations(xs[j])) <==>
             (exists j :: 0 <= j < |files| && Survives(decode(files[j])));
    } else {
      var j :| 0 <= j < |files| && !ExtractionOf(decode(files[j])).Ok?;
      assert decode(files[j]).stop.FailedAt?;
    }
  }

  /** Series drawn = surviving series. Line k carries the data of the k-th
      file that has elevations, colour palette[k mod 10] and legend files[k]:
      the k-th input path, which need not be the file the data came from. */
  lemma DrawnAreSurvivors<C>(files: seq<string>, xs: seq<Samples>, palette: seq<C>, lines: seq<Line<C>>)
    requires |palette| == PaletteSize && |xs| == |files|
    requires LinesFrom(files, xs, palette, lines)
    ensures |lines| == |Positions(xs, HasElevations)|
    ensures forall k :: 0 <= k < |lines| ==>
      lines[k].legend == files[k] && lines[k].colour == palette[k % PaletteSize] &&
      Prepare(xs[Positions(xs, HasElevations)[k]]) == Some(Series(lines[k].distances, lines[k].elevations))
  {
    GatherSurvivors(xs);
  }

  /** Every drawn sample lies inside the shared frame: distances between
      x_start and x_end, elevations at least one margin inside y_bot and
      y_top; each line starts at elevation zero, so y_bot <= -10 and y_top >= 10. */
  lemma LinesWithinBounds<C>(files: seq<string>, xs: seq<Samples>, palette: seq<C>, chart: Chart<C>)
    requires |palette| == PaletteSize
    requires forall j :: 0 <= j < |xs| ==> |xs[j].distances| == |xs[j].elevations|
    requires ChartFrom(files, xs, palette, chart)
    ensures forall k, j :: 0 <= k < |chart.lines| && 0 <= j < |chart.lines[k].elevations| ==>
      chart.bounds.yBot + ChartMargin <= chart.lines[k].elevations[j] <= chart.bounds.yTop - ChartMargin
    ensures forall k, j :: 0 <= k < |chart.lines| && 0 <= j < |chart.lines[k].distances| ==>
      chart.bounds.xStart <= chart.lines[k].distances[j] <= chart.bounds.xEnd
    ensures forall k :: 0 <= k < |chart.lines| ==> |chart.lines[k].elevations| > 0 && chart.lines[k].elevations[0] == 0.0
    ensures chart.bounds.yBot <= -ChartMargin && chart.bounds.yTop >= ChartMargin
  {
    var c := Gather(xs);
    SurvivorsAnchored(xs);
    ZeroAnchoredRange(c.distances, c.elevations);
    SharedBoundsEnclose(c.distances, c.elevations, chart.bounds);
    forall k | 0 <= k < |chart.lines|
      ensures chart.lines[k].distances == c.distances[k] && chart.lines[k].elevations == c.elevations[k]
    {
    }
  }

  /** Line k is drawn from file k itself exactly when none of the first
      k + 1 files was skipped; after a skip, legends fall on the wrong data. */
  lemma LegendIsOwnFileIff<C>(files: seq<string>, xs: seq<Samples>, palette: seq<C>, lines: seq<Line<C>>, k: nat)
    requires |palette| == PaletteSize && |xs| == |files|
    requires LinesFrom(files, xs, palette, lines)
    requires k < |lines|
    ensures k < |Positions(xs, HasElevations)|
    ensures Positions(xs, HasElevations)[k] == k <==> forall j :: 0 <= j <= k ==> HasElevations(xs[j])
  {
    DrawnAreSurvivors(files, xs, palette, lines);
    PositionsIdentityIff(xs, HasElevations, k);
  }

  /** With the first file skipped and the second one kept, the first line
      shows the second file's data under the first file's path. */
  lemma SkippedFileShiftsLegend<C>(files: seq<string>, xs: seq<Samples>, palette: seq<C>, lines: seq<Line<C>>)
    requires |palette| == PaletteSize && |xs| == |files|
    requires LinesFrom(files, xs, palette, lines)
    requires |xs| >= 2 && !HasElevations(xs[0]) && HasElevations(xs[1])
    ensures |lines| > 0
    ensures lines[0].legend == files[0]
    ensures Prepare(xs[1]) == Some(Series(lines[0].distances, lines[0].elevations))
  {
    FirstPosition(xs, HasElevations, 1);
    DrawnAreSurvivors(files, xs, palette, lines);
    var idx := Positions(xs, HasElevations);
    assert idx[0] == 1;
    assert Prepare(xs[idx[0]]) == Some(Series(lines[0].distances, lines[0].elevations));
  }

  /** In every successful run, each drawn sample lies inside the shared
      frame, each line starts at elevation zero, and the y-range covers at
      least one margin either side of zero. */
  lemma RunWithinBounds<C>(files: seq<string>, decode: string -> Decoded, palette: seq<C>)
    requires |palette| == PaletteSize && CompareOf(files, decode, palette).Ok?
    ensures var chart := CompareOf(files, decode, palette).value;
      forall k, j :: 0 <= k < |chart.lines| && 0 <= j < |chart.lines[k].elevations| ==>
        chart.bounds.yBot + ChartMargin <= chart.lines[k].elevations[j] <= chart.bounds.yTop - ChartMargin
    ensures var chart := CompareOf(files, decode, palette).value;
      forall k, j :: 0 <= k < |chart.lines| && 0 <= j < |chart.lines[k].distances| ==>
        chart.bounds.xStart <= chart.lines[k].distances[j] <= chart.bounds.xEnd
    ensures var chart := CompareOf(files, decode, palette).value;
      forall k :: 0 <= k < |chart.lines| ==> |chart.lines[k].elevations| > 0 && chart.lines[k].elevations[0] == 0.0
    ensures var chart := CompareOf(files, decode, palette).value;
      chart.bounds.yBot <= -ChartMargin && chart.bounds.yTop >= ChartMargin
  {
    var chart := CompareOf(files, decode, palette).value;
    SuccessfulRun(files, decode, palette, chart);
    ExtractAllSpec(files, decode);
    LinesWithinBounds(files, ExtractAll(files, decode).value, palette, chart);
  }

  /** In every successful run, the lines are the files that survive, in
      input order: every surviving file is drawn, line k carries the data of
      the k-th surviving file, colour palette[k mod 10] and legend files[k]. */
  lemma RunDrawsSurvivors<C>(files: seq<string>, decode: string -> Decoded, palette: seq<C>)
    requires |palette| == PaletteSize && CompareOf(files, decode, palette).Ok?
    ensures ExtractAll(files, decode).Ok?
    ensures var idx := Positions(ExtractAll(files, decode).value, HasElevations);
      forall j :: 0 <= j < |files| ==> (j in idx <==> Survives(decode(files[j])))
    ensures var lines := CompareOf(files, decode, palette).value.lines;
      var idx := Positions(ExtractAll(files, decode).value, HasElevations);
      |lines| == |idx| &&
      forall k :: 0 <= k < |lines| ==>
        idx[k] < |files| && lines[k].legend == files[k] && lines[k].colour == palette[k % PaletteSize] &&
        Prepare(ExtractionOf(decode(files[idx[k]])).value) == Some(Series(lines[k].distances, lines[k].elevations))
  {
    var chart := CompareOf(files, decode, palette).value;
    SuccessfulRun(files, decode, palette, chart);
    ExtractAllSpec(files, decode);
    var xs := ExtractAll(files, decode).value;
    PositionsComplete(xs, HasElevations);
    DrawnAreSurvivors(files, xs, palette, chart.lines);
  }

  /** Every successful run reports on every input file, in order: plotted
      exactly when the file survives, and truncated exactly when its stream
      hit a truncation error. */
  lemma RunReportsEveryFile<C>(files: seq<string>, decode: string -> Decoded, palette: seq<C>)
    requires |palette| == PaletteSize && CompareOf(files, decode, palette).Ok?
    ensures var statuses := CompareOf(files, decode, palette).value.statuses;
      |statuses| == |files| &&
      forall j :: 0 <= j < |files| ==>
        statuses[j] == if Survives(decode(files[j])) then Plotted(decode(files[j]).stop.TruncatedAt?)
                       else Skipped(decode(files[j]).stop.TruncatedAt?)
  {
    var chart := CompareOf(files, decode, palette).value;
    SuccessfulRun(files, decode, palette, chart);
    ExtractAllSpec(files, decode);
  }

  /** In every successful run, line k shows file k's own data exactly when
      none of the first k + 1 files was skipped. */
  lemma RunLegendIsOwnFileIff<C>(files: seq<string>, decode: string -> Decoded, palette: seq<C>, k: nat)
    requires |palette| == PaletteSize && CompareOf(files, decode, palette).Ok?
    requires k < |CompareOf(files, decode, palette).value.lines|
    ensures ExtractAll(files, decode).Ok? && k < |Positions(ExtractAll(files, decode).value, HasElevations)|
    ensures Positions(ExtractAll(files, decode).value, HasElevations)[k] == k <==>
      forall j :: 0 <= j <= k ==> Survives(decode(files[j]))
  {
    var chart := CompareOf(files, decode, palette).value;
    SuccessfulRun(files, decode, palette, chart);
    ExtractAllSpec(files, decode);
    LegendIsOwnFileIff(files, ExtractAll(files, decode).value, palette, chart.lines, k);
  }

  /** A successful run whose first file is skipped and whose second file is
      kept draws the second file's data under the first file's path. */
  lemma RunSkippedFileShiftsLegend<C>(files: seq<string>, decode: string -> Decoded, palette: seq<C>)
    requires |palette| == PaletteSize && CompareOf(files, decode, palette).Ok?
    requires |files| >= 2 && !Survives(decode(files[0])) && Survives(decode(files[1]))
    ensures var lines := CompareOf(files, decode, palette).value.lines;
      |lines| > 0 && lines[0].legend == files[0] &&
      Prepare(ExtractionOf(decode(files[1])).value) == Some(Series(lines[0].distances, lines[0].elevations))
  {
    var chart := CompareOf(files, decode, palette).value;
    SuccessfulRun(files, decode, palette, chart);
    ExtractAllSpec(files, decode);
    SkippedFileShiftsLegend(files, ExtractAll(files, decode).value, palette, chart.lines);
  }

  /** When every one of two or more files decodes and has elevations, the
      run succeeds. */
  lemma AllSurviveSucceeds<C>(files: seq<string>, decode: string -> Decoded, palette: seq<C>)
    requires |palette| == PaletteSize && |files| >= 2
    requires forall j :: 0 <= j < |files| ==> Survives(decode(files[j]))
    ensures CompareOf(files, decode, palette).Ok?
  {
    assert Survives(decode(files[0]));
    assert forall j :: 0 <= j < |files| ==> !decode(files[j]).stop.FailedAt?;
    RunFailsIff(files, decode, palette);
  }
}
