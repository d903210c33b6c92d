/** Unit conversion and baseline normalisation: the list comprehensions at
    lines 44, 45 and 49 of elev_compare.py. */
module Convert {
  import opened Common
  import opened Extraction

  /** Metres in a statute mile and in an international foot. */
  const MetersPerMile: real := 1609.344
  const MetersPerFoot: real := 0.3048

  /** Every value divided by the same unit. */
  function Scale(xs: seq<real>, unit: real): (r: seq<real>)
    requires unit > 0.0
    ensures |r| == |xs|
    ensures forall i :: 0 <= i < |xs| ==> r[i] == xs[i] / unit
  {
    if xs == [] then [] else [xs[0] / unit] + Scale(xs[1..], unit)
  }

  /** Every value with the same offset taken off. */
  function Shift(xs: seq<real>, offset: real): (r: seq<real>)
    ensures |r| == |xs|
    ensures forall i :: 0 <= i < |xs| ==> r[i] == xs[i] - offset
  {
    if xs == [] then [] else [xs[0] - offset] + Shift(xs[1..], offset)
  }

  /** The series re-anchored so that it starts at zero, keeping every
      difference between two samples. */
  function Normalize(e: seq<real>): (r: seq<real>)
    requires |e| > 0
    ensures |r| == |e| && r[0] == 0.0
    ensures forall i :: 0 <= i < |e| ==> r[i] == e[i] - e[0]
    ensures forall i, j :: 0 <= i < |e| && 0 <= j < |e| ==> r[i] - r[j] == e[i] - e[j]
  {
    Shift(e, e[0])
  }

  /** One plotted series, in miles and in feet above its first sample. */
  datatype Series = Series(distances: seq<real>, elevations: seq<real>)

  /** The per-file step of the batch loop (lines 39-49): a file without
      elevations is skipped; otherwise its distances are converted to miles
      and its elevations to feet, then shifted to start at zero. */
  function Prepare(x: Samples): (r: Option<Series>)
    ensures r.None? <==> |x.elevations| == 0
    ensures r.Some? ==> |r.value.distances| == |x.distances| && |r.value.elevations| == |x.elevations|
    ensures r.Some? ==> r.value.elevations[0] == 0.0
  {
    if |x.elevations| == 0 then None
    else Some(Series(Scale(x.distances, MetersPerMile), Normalize(Scale(x.elevations, MetersPerFoot))))
  }

  /** Sample by sample: distance i is the raw distance in miles, elevation i
      is the raw altitude in feet minus the first raw altitude in feet. */
  lemma PrepareConverts(x: Samples)
    requires |x.elevations| > 0
    ensures Prepare(x).Some?
    ensures forall i :: 0 <= i < |x.distances| ==> Prepare(x).value.distances[i] == x.distances[i] / MetersPerMile
    ensures forall i :: 0 <= i < |x.elevations| ==>
      Prepare(x).value.elevations[i] == x.elevations[i] / MetersPerFoot - x.elevations[0] / MetersPerFoot
  {
  }
}
