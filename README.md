# Elevation-profile comparison, modelled in Dafny

`elev_compare.py` compares the elevation profiles of two or more FIT activity
files. It reads each file's message stream and keeps the
`(distance, altitude)` pairs. It converts them to miles and feet and shifts
each profile so it starts at zero. It then computes one shared axis frame
over all profiles, and draws every profile with its own colour and a legend
entry. This project models that pipeline from the decoded records up to what
would be handed to the plotting library: the lines (data, colour, legend) and
the four axis bounds. It then proves what the pipeline guarantees.

Modules, one per stage:

- `Extraction` (`extraction.dfy`): `extract_distance_elevation`. A record is a
  `map<string, Option<real>>`. The decoder's output for one file is a
  `Decoded` value: its records, plus how the stream stops. `Complete` means
  every record is yielded. `TruncatedAt(n)` means `FitEOFError` is raised
  when record `n` is requested; this is caught. `FailedAt(n)` means any
  other decoder error; this is not caught. When `n >= |records|`, the error
  comes after the last record: every record is yielded, and a `TruncatedAt`
  result is still marked truncated. The loop is the method
  `ExtractDistanceElevation`, proved equal to the function `ExtractionOf`.
- `Convert` (`convert.dfy`): the list comprehensions of lines 44, 45 and 49.
  These are unit scaling by 1609.344 m/mi and 0.3048 m/ft, and the zero
  anchor.
- `Batch` (`batch.dfy`): the per-file loop of `plot_multiple`, lines 36-51.
  It skips a file without elevations and appends the others in input order.
  It is the method `ReadAllFiles`, proved equal to `CollectSeries`. On a
  successful run it also returns one `FileStatus` per file in place of the
  printed warnings.
- `Bounds` (`bounds.dfy`): lines 53-60. These are `max`/`min` over the union
  of all series, with the margin of 10 applied once on the y-axis.
- `Render` (`render.dfy`): lines 64-68. `itertools.cycle` is modelled as a
  cursor into the ten-colour palette that `next` advances and wraps. The
  loop is the method `DrawLines`, proved equal to `Lines`. The field that
  carries `label=f` is called `legend`, because `label` is a Dafny keyword.
- `Pipeline` (`pipeline.dfy`): the argument check of lines 84-85 and the
  whole of `plot_multiple`. `ChartFrom` and `LinesFrom` say which chart a
  list of extracted samples gives. The lemmas about extracted samples are
  stated over those predicates. The `Run...` lemmas restate their
  conclusions for the run's own result, `CompareOf(...).value`.
- `Seqs` (`seqs.dfy`): `Positions(s, p)`, the increasing indices of the
  elements that pass `p`. Both filters are described through it: records
  that carry a sample, and files that yield a series.
- `Common` (`common.dfy`): `Option`, `Result` and the run-level errors.

The decoder is a parameter `decode: string -> Decoded`, so it maps each path
to what the FIT library would yield. The colour palette is a parameter of
length 10.

Line 66 zips `files`, which lists every input path including those that were
skipped, with the surviving series. The model keeps this. Line `k` is
labelled with `files[k]` even when its data came from a later file.
`LegendIsOwnFileIff` says exactly when the two agree.
`SkippedFileShiftsLegend` shows the first case where they do not.

## Model

| member | source | states |
|---|---|---|
| `Extraction.YieldCount` | elev_compare.py:13-15 | the stream yields at most all its records, and all of them when it ends normally |
| `Extraction.Pairs` | elev_compare.py:15-24 | the distance list and the elevation list always have the same length, at most the number of records |
| `Extraction.ExtractionOf` | elev_compare.py:13-28 | extraction fails only on a non-truncation decoder error; the result is marked truncated exactly when the stream hit `FitEOFError`; both lists have equal length |
| `Extraction.ExtractDistanceElevation` | elev_compare.py:8-28 | the loop with its early exit returns exactly `ExtractionOf` of the decoded file |
| `Extraction.PairsFromQualifyingRecords` | elev_compare.py:15-24 | entry i of both lists comes from the i-th record, in stream order, that has both `distance` and `altitude` non-null |
| `Seqs.Positions` | elev_compare.py:19-24 | every listed index is in range and its record passes the test |
| `Seqs.PositionsIncreasing` | elev_compare.py:15-24 | the kept records are listed in stream order |
| `Seqs.PositionsComplete` | elev_compare.py:19-22 | a record is kept if and only if it passes the test, so every other record adds nothing |
| `Extraction.PairsOfPrefix` | elev_compare.py:13-28 | the pairs of a prefix of the stream are a prefix of the pairs of the whole stream |
| `Extraction.TruncationKeepsPrefix` | elev_compare.py:26-28 | a truncation after n records raises no error, and gives what a complete stream of those n records gives, marked truncated; that is a prefix of the untruncated file's result |
| `Convert.Scale` | elev_compare.py:44-45 | the length is kept and entry i is `x[i] / unit` |
| `Convert.Shift` | elev_compare.py:48-49 | the length is kept and entry i is `x[i] - offset` |
| `Convert.Normalize` | elev_compare.py:47-49 | the length is kept, entry i is `e[i] - e[0]`, entry 0 is 0, and every difference between two samples is kept |
| `Convert.Prepare` | elev_compare.py:39-49 | a file is skipped exactly when it has no elevations; otherwise lengths are kept and the first elevation is 0 |
| `Convert.PrepareConverts` | elev_compare.py:44-49 | distance i becomes `d[i] / 1609.344`, and elevation i becomes `e[i] / 0.3048 - e[0] / 0.3048` |
| `Batch.ExtractAll` | elev_compare.py:37-38 | the extraction of all files fails only with a decoder error and otherwise has one entry per file |
| `Batch.ExtractAllSpec` | elev_compare.py:37-38 | all files extract exactly when none fails to decode, and entry j is the extraction of file j |
| `Batch.Gather` | elev_compare.py:37-51 | one status per file, `Plotted` exactly for files with elevations, each carrying the file's truncation flag; equal numbers of distance and elevation lists |
| `Batch.ReadAllFiles` | elev_compare.py:36-51 | the batch loop with `continue` and an early failure returns exactly `CollectSeries` of the files |
| `Batch.GatherSurvivors` | elev_compare.py:37-51 | the surviving series are exactly the files with elevations, in input order: series k is the prepared k-th such file |
| `Batch.SurvivorsAnchored` | elev_compare.py:47-51 | every surviving series is non-empty, has equal-length lists and starts at elevation 0 |
| `Bounds.MaxOf` | elev_compare.py:55 | the result is an element of the list and no element exceeds it |
| `Bounds.MinOf` | elev_compare.py:56 | the result is an element of the list and no element is below it |
| `Bounds.MaxOfAll` | elev_compare.py:55 | the result is attained by some sample of some list and no sample exceeds it |
| `Bounds.MinOfAll` | elev_compare.py:56 | the result is attained by some sample of some list and no sample is below it |
| `Bounds.SharedBounds` | elev_compare.py:53-60 | the range fails, as `max` of nothing does, exactly when there is no series or an empty one |
| `Bounds.SharedBoundsEnclose` | elev_compare.py:54-60 | every elevation lies in `[y_bot + 10, y_top - 10]` and every distance in `[x_start, x_end]`; all four extrema are attained by a sample |
| `Bounds.ZeroAnchoredRange` | elev_compare.py:54-58 | when every series starts at 0, `y_bot <= -10` and `y_top >= 10` |
| `Render.LinesUpTo` | elev_compare.py:66-68 | the first n lines: line i has legend `files[i]`, the i-th series and colour `palette[i mod 10]` |
| `Render.Lines` | elev_compare.py:66-68 | as many lines as the shortest of the three zipped lists, line i built as above |
| `Render.DrawLines` | elev_compare.py:64-68 | the loop that steps the colour cycle returns exactly `Lines` |
| `Pipeline.PlotOf` | elev_compare.py:30-69 | `plot_multiple` never fails with a usage error |
| `Pipeline.CompareOf` | elev_compare.py:84-86 | the run is a usage error exactly when fewer than two paths are given, whatever the files hold |
| `Pipeline.PlotMultiple` | elev_compare.py:30-69 | the method returns exactly `PlotOf` |
| `Pipeline.Compare` | elev_compare.py:84-86 | the method returns exactly `CompareOf` |
| `Pipeline.GatherNonEmptyIff` | elev_compare.py:39-60 | the bounds exist exactly when some file has elevations |
| `Pipeline.RunFailsIff` | elev_compare.py:36-60 | with two or more paths, the run fails exactly when some file fails to decode (`DecoderError`) or no file yields an elevation (`NothingToCompare`); skipped and truncated files never stop it |
| `Pipeline.DrawnAreSurvivors` | elev_compare.py:64-68 | lines drawn = surviving series; line k has the k-th surviving file's data, colour `palette[k mod 10]` and legend `files[k]` |
| `Pipeline.LinesWithinBounds` | elev_compare.py:53-73 | every drawn sample lies inside the shared frame; each line starts at 0; `y_bot <= -10` and `y_top >= 10` |
| `Pipeline.LegendIsOwnFileIff` | elev_compare.py:66-68 | line k's data comes from file k exactly when none of the first k + 1 files was skipped |
| `Pipeline.SkippedFileShiftsLegend` | elev_compare.py:66-68 | with file 0 skipped and file 1 kept, line 0 carries file 1's data under file 0's path |
| `Pipeline.RunWithinBounds` | elev_compare.py:53-73 | in every successful run, every drawn sample lies in the frame, every line starts at 0, and `y_bot <= -10`, `y_top >= 10` |
| `Pipeline.RunDrawsSurvivors` | elev_compare.py:36-68 | in every successful run, a file is drawn exactly when it decodes and has elevations; line k has the k-th such file's converted data, colour `palette[k mod 10]` and legend `files[k]` |
| `Pipeline.RunReportsEveryFile` | elev_compare.py:26-41 | every successful run reports one status per input file, in order: plotted exactly when the file yields elevations, truncated exactly when its stream hit `FitEOFError` |
| `Pipeline.RunLegendIsOwnFileIff` | elev_compare.py:37-68 | in every successful run, line k shows file k's own data exactly when each of the first k + 1 files decodes and has elevations |
| `Pipeline.RunSkippedFileShiftsLegend` | elev_compare.py:37-68 | a successful run whose file 0 is skipped and file 1 is kept draws file 1's data under file 0's path |
| `Pipeline.AllSurviveSucceeds` | elev_compare.py:36-60 | with two or more paths, when every file decodes and yields an elevation, the run succeeds |

## Left out

- The FIT decoding itself (`FitFile`, `get_messages`, `check_crc=False`). This is the external `fitparse` library. It is replaced by the `decode` parameter and the `Decoded` value.
- Exceptions raised when a file is opened (line 9) happen outside the `try`, so they are fatal whatever their kind. The model can express this only as `FailedAt(0)`. Whether `fitparse` raises `FitEOFError` there for a short header is up to the library, which is not part of this model.
- All matplotlib work (figure, `plot`, `fill_between`, axis labels, limits, grid, legend, title, `show`). This is a foreign UI call. The model keeps what would be handed over: the lines with their colours and legends, and the bounds. Every fill goes down to `bounds.yBot`.
- The RGB values of `plt.cm.tab10.colors`. The palette is a parameter of length 10.
- argparse parsing, and every `print`. These are I/O. The two usage failures (no path, which argparse rejects, and one path, rejected at line 85) are both `UsageError`. On a successful run, the printed warnings become `FileStatus` values; the `PlotOf` line below covers failed runs.
- PlotOf: a failed run (`DecoderError` or `NothingToCompare`) returns only the error. The source has already printed its truncation and skip warnings (lines 27 and 40) for the files read before the failure. The model returns no statuses for those files, because statuses are part of the successful `Chart` only.
- IEEE floating-point rounding. Distances and elevations are `real`, so the model proves no bit-exact float results.
- The error types themselves (`ValueError`, `FitEOFError` and others). They are collapsed into the three `Error` values.
