/** The per-file batch loop of `plot_multiple` (elev_compare.py, lines 36-51):
    extract, skip the empty, convert, normalise, append in input order. */
module Batch {
  import opened Common
  import opened Seqs
  import opened Extraction
  import opened Convert

  /** What the run reports about one input file. */
  datatype FileStatus = Plotted(truncated: bool) | Skipped(truncated: bool)

  /** The two lists the loop appends to, plus one status per file read. */
  datatype Collected = Collected(distances: seq<seq<real>>, elevations: seq<seq<real>>, statuses: seq<FileStatus>)

  /** A file survives the loop when it yields at least one elevation. */
  predicate HasElevations(x: Samples) {
    |x.elevations| > 0
  }

  /** The extraction of every file, in order; the first decoder failure
      stops the run. */
  function ExtractAll(files: seq<string>, decode: string -> Decoded): (r: Result<seq<Samples>>)
    ensures r.Err? ==> r.error == DecoderError
    ensures r.Ok? ==> |r.value| == |files|
  {
    if files == [] then Ok([])
    else
      match ExtractAll(files[..|files| - 1], decode)
      case Err(e) => Err(e)
      case Ok(xs) =>
        match ExtractionOf(decode(files[|files| - 1]))
        case Err(e) => Err(e)
        case Ok(x) => Ok(xs + [x])
  }

  /** The extraction succeeds exactly when no file fails to decode, and then
      entry j is the extraction of file j. */
  lemma {:induction false} ExtractAllSpec(files: seq<string>, decode: string -> Decoded)
    ensures ExtractAll(files, decode).Ok? <==> forall j :: 0 <= j < |files| ==> ExtractionOf(decode(files[j])).Ok?
    ensures ExtractAll(files, decode).Ok? ==>
      forall j :: 0 <= j < |files| ==> ExtractAll(files, decode).value[j] == ExtractionOf(decode(files[j])).value
  {
    if files != [] {
      var init := files[..|files| - 1];
      ExtractAllSpec(init, decode);
      assert forall j :: 0 <= j < |init| ==> init[j] == files[j];
    }
  }

  /** One more file that decodes: the extraction of a prefix one file longer. */
  lemma ExtractAllNext(files: seq<string>, decode: string -> Decoded, i: nat, xs: seq<Samples>, x: Samples)
    requires i < |files|
    requires ExtractAll(files[..i], decode) == Ok(xs) && ExtractionOf(decode(files[i])) == Ok(x)
    ensures ExtractAll(files[..i + 1], decode) == Ok(xs + [x])
  {
    assert files[..i + 1][..i] == files[..i];
  }

  /** One file that fails to decode makes the whole extraction fail. */
  lemma ExtractAllFailsAt(files: seq<string>, decode: string -> Decoded, i: nat)
    requires i < |files| && ExtractionOf(decode(files[i])).Err?
    ensures ExtractAll(files, decode).Err?
  {
    ExtractAllSpec(files, decode);
  }

  /** One step of the loop: skip the file or append its series. */
  function Step(c: Collected, x: Samples): Collected {
    match Prepare(x)
    case None => c.(statuses := c.statuses + [Skipped(x.truncated)])
    case Some(s) => Collected(c.distances + [s.distances], c.elevations + [s.elevations],
                              c.statuses + [Plotted(x.truncated)])
  }

  /** The loop run over all extracted files. */
  function Gather(xs: seq<Samples>): (r: Collected)
    ensures |r.distances| == |r.elevations| <= |xs|
    ensures |r.statuses| == |xs|
    ensures forall j :: 0 <= j < |xs| ==>
      r.statuses[j] == if HasElevations(xs[j]) then Plotted(xs[j].truncated) else Skipped(xs[j].truncated)
  {
    if xs == [] then Collected([], [], [])
    else
      var init := xs[..|xs| - 1];
      assert forall j :: 0 <= j < |init| ==> init[j] == xs[j];
      Step(Gather(init), xs[|xs| - 1])
  }

  /** One more extracted file without elevations: only its status is added. */
  lemma GatherSkip(xs: seq<Samples>, x: Samples)
    requires !HasElevations(x)
    ensures Gather(xs + [x]) == Gather(xs).(statuses := Gather(xs).statuses + [Skipped(x.truncated)])
  {
    assert (xs + [x])[..|xs|] == xs;
  }

  /** One more extracted file with elevations: its converted, re-anchored
      series and its status are appended. */
  lemma GatherAppend(xs: seq<Samples>, x: Samples)
    requires HasElevations(x)
    ensures var c := Gather(xs);
      var e := Scale(x.elevations, MetersPerFoot);
      Gather(xs + [x]) == Collected(c.distances + [Scale(x.distances, MetersPerMile)],
                                    c.elevations + [Shift(e, e[0])], c.statuses + [Plotted(x.truncated)])
  {
    assert (xs + [x])[..|xs|] == xs;
  }

  /** What the batch loop produces for a list of files. */
  function CollectSeries(files: seq<string>, decode: string -> Decoded): Result<Collected> {
    match ExtractAll(files, decode)
    case Err(e) => Err(e)
    case Ok(xs) => Ok(Gather(xs))
  }

  /** The files read so far all decoded, to the samples xs, and the loop's
      lists and statuses are what those samples give. */
  ghost predicate ReadSoFar(files: seq<string>, decode: string -> Decoded, xs: seq<Samples>, c: Collected) {
    ExtractAll(files, decode) == Ok(xs) && Gather(xs) == c
  }

  /** Lines 37-51: for each file in order, extract; skip it when it has no
      elevations; otherwise convert, normalise and append it. */
  method ReadAllFiles(files: seq<string>, decode: string -> Decoded) returns (r: Result<Collected>)
    ensures r == CollectSeries(files, decode)
  {
    assert files[..|files|] == files;
    var allDistances: seq<seq<real>> := [];
    var allNormElev: seq<seq<real>> := [];
    var statuses: seq<FileStatus> := [];
    ghost var extracted: seq<Samples> := [];
    var i := 0;
    while i < |files|
      invariant 0 <= i <= |files|
      invariant ReadSoFar(files[..i], decode, extracted, Collected(allDistances, allNormElev, statuses))
    {
      var x := ExtractDistanceElevation(decode(files[i]));
      if x.Err? {
        ExtractAllFailsAt(files, decode, i);
        return Err(x.error);
      }
      var d, e := x.value.distances, x.value.elevations;
      ExtractAllNext(files, decode, i, extracted, x.value);
      if |e| == 0 {
        GatherSkip(extracted, x.value);
        extracted := extracted + [x.value];
        statuses := statuses + [Skipped(x.value.truncated)];
        i := i + 1;
        continue;
      }
      d := Scale(d, MetersPerMile);
      e := Scale(e, MetersPerFoot);
      var offset := e[0];
      var normE := Shift(e, offset);
      GatherAppend(extracted, x.value);
      extracted := extracted + [x.value];
      allDistances := allDistances + [d];
      allNormElev := allNormElev + [normE];
      statuses := statuses + [Plotted(x.value.truncated)];
      i := i + 1;
    }
    assert files[..i] == files;
    r := Ok(Collected(allDistances, allNormElev, statuses));
  }

  /** The surviving series are exactly the non-empty files, in input order:
      series k is the prepared form of the k-th file that has elevations. */
  lemma {:induction false} GatherSurvivors(xs: seq<Samples>)
    ensures |Gather(xs).distances| == |Gather(xs).elevations| == |Positions(xs, HasElevations)|
    ensures forall k :: 0 <= k < |Positions(xs, HasElevations)| ==>
      Prepare(xs[Positions(xs, HasElevations)[k]])
        == Some(Series(Gather(xs).distances[k], Gather(xs).elevations[k]))
  {
    if xs != [] {
      var init := xs[..|xs| - 1];
      GatherSurvivors(init);
      assert forall j :: 0 <= j < |init| ==> init[j] == xs[j];
    }
  }

  /** Every surviving series is non-empty, has as many distances as
      elevations and starts at elevation zero. */
  lemma SurvivorsAnchored(xs: seq<Samples>)
    requires forall j :: 0 <= j < |xs| ==> |xs[j].distances| == |xs[j].elevations|
    ensures forall k :: 0 <= k < |Gather(xs).elevations| ==>
      |Gather(xs).distances[k]| == |Gather(xs).elevations[k]| > 0 && Gather(xs).elevations[k][0] == 0.0
  {
    GatherSurvivors(xs);
    var idx := Positions(xs, HasElevations);
    forall k | 0 <= k < |Gather(xs).elevations|
      ensures |Gather(xs).distances[k]| == |Gather(xs).elevations[k]| > 0 && Gather(xs).elevations[k][0] == 0.0
    {
      var p := Prepare(xs[idx[k]]);
      assert p.Some?;
    }
  }
}
