/** Sample extraction: `extract_distance_elevation` in elev_compare.py.
    The FIT decoder is not modelled; what it yields is given as a value. */
module Extraction {
  import opened Common
  import opened Seqs

  /** One decoded message: field name to value, where a value may be null. */
  type Record = map<string, Option<real>>

  /** How the decoder's message stream ends. */
  datatype Stop =
    | Complete         // every record is yielded
    | TruncatedAt(n: nat)  // the decoder raises FitEOFError when asked for record n
    | FailedAt(n: nat)     // the decoder raises any other error when asked for record n

  /** What the decoder makes of one file. */
  datatype Decoded = Decoded(records: seq<Record>, stop: Stop)

  /** The samples of one file, in stream order, and whether the stream was cut short. */
  datatype Samples = Samples(distances: seq<real>, elevations: seq<real>, truncated: bool)

  /** Number of records the decoder yields before it stops. */
  function YieldCount(f: Decoded): (n: nat)
    ensures n <= |f.records|
    ensures f.stop.Complete? ==> n == |f.records|
  {
    match f.stop
    case Complete => |f.records|
    case TruncatedAt(k) => if k < |f.records| then k else |f.records|
    case FailedAt(k) => if k < |f.records| then k else |f.records|
  }

  /** The record has a `distance` and an `altitude` field and neither is null. */
  predicate HasSample(r: Record) {
    "distance" in r && r["distance"].Some? && "altitude" in r && r["altitude"].Some?
  }

  function Distance(r: Record): real
    requires HasSample(r)
  {
    r["distance"].value
  }

  function Altitude(r: Record): real
    requires HasSample(r)
  {
    r["altitude"].value
  }

  /** The (distance, altitude) pairs of a record stream, as two parallel lists;
      built from the end, as the extraction loop builds it step by step. */
  function Pairs(rs: seq<Record>): (r: (seq<real>, seq<real>))
    ensures |r.0| == |r.1| <= |rs|
  {
    if rs == [] then ([], [])
    else
      var (d, e) := Pairs(rs[..|rs| - 1]);
      var last := rs[|rs| - 1];
      if HasSample(last) then (d + [Distance(last)], e + [Altitude(last)]) else (d, e)
  }

  /** The result of extracting from a decoded file: the pairs of the records
      yielded before the stream stopped; a truncation is tolerated, any other
      decoder error is not. */
  function ExtractionOf(f: Decoded): (r: Result<Samples>)
    ensures r.Err? <==> f.stop.FailedAt?
    ensures r.Err? ==> r.error == DecoderError
    ensures r.Ok? ==> r.value.truncated == f.stop.TruncatedAt?
    ensures r.Ok? ==> |r.value.distances| == |r.value.elevations|
  {
    var (d, e) := Pairs(f.records[..YieldCount(f)]);
    match f.stop
    case Complete => Ok(Samples(d, e, false))
    case TruncatedAt(_) => Ok(Samples(d, e, true))
    case FailedAt(_) => Err(DecoderError)
  }

  /** The loop of `extract_distance_elevation`: keep the pair of every record
      that has both fields non-null; stop where the decoder stops. */
  method ExtractDistanceElevation(f: Decoded) returns (r: Result<Samples>)
    ensures r == ExtractionOf(f)
  {
    var distances: seq<real> := [];
    var elevations: seq<real> := [];
    var stopAt := YieldCount(f);
    var i := 0;
    while i < stopAt
      invariant 0 <= i <= stopAt
      invariant (distances, elevations) == Pairs(f.records[..i])
    {
      var msg := f.records[i];
      assert f.records[..i + 1][..i] == f.records[..i];
      if "distance" in msg && "altitude" in msg {
        var dist := msg["distance"];
        var alt := msg["altitude"];
        if dist.Some? && alt.Some? {
          distances := distances + [dist.value];
          elevations := elevations + [alt.value];
        }
      }
      i := i + 1;
    }
    match f.stop {
      case Complete =>
        r := Ok(Samples(distances, elevations, false));
      case TruncatedAt(_) =>
        r := Ok(Samples(distances, elevations, true));
      case FailedAt(_) =>
        r := Err(DecoderError);
    }
  }

  /** Entry i of the extracted lists comes from the i-th record, in stream
      order, that carries both fields non-null; with PositionsIncreasing and
      PositionsComplete this says that every other record adds nothing. */
  lemma {:induction false} PairsFromQualifyingRecords(rs: seq<Record>)
    ensures |Pairs(rs).0| == |Pairs(rs).1| == |Positions(rs, HasSample)|
    ensures forall i :: 0 <= i < |Positions(rs, HasSample)| ==>
      Pairs(rs).0[i] == Distance(rs[Positions(rs, HasSample)[i]]) &&
      Pairs(rs).1[i] == Altitude(rs[Positions(rs, HasSample)[i]])
  {
    if rs != [] {
      var init := rs[..|rs| - 1];
      PairsFromQualifyingRecords(init);
      assert forall j :: 0 <= j < |init| ==> init[j] == rs[j];
    }
  }

  /** The pairs of a prefix of the stream are a prefix of the pairs of the
      whole stream: a truncated file keeps the start of what a complete
      file would give. */
  lemma {:induction false} PairsOfPrefix(rs: seq<Record>, m: nat)
    requires m <= |rs|
    ensures Pairs(rs[..m]).0 <= Pairs(rs).0 && Pairs(rs[..m]).1 <= Pairs(rs).1
    decreases |rs|
  {
    if m < |rs| {
      var init := rs[..|rs| - 1];
      assert init[..m] == rs[..m];
      PairsOfPrefix(init, m);
    } else {
      assert rs[..m] == rs;
    }
  }

  /** A truncation after n records gives, without any error, exactly what a
      complete stream of those n records gives, and that is a prefix of what
      the untruncated file would give. */
  lemma TruncationKeepsPrefix(rs: seq<Record>, n: nat)
    requires n <= |rs|
    ensures ExtractionOf(Decoded(rs, TruncatedAt(n))).Ok?
    ensures ExtractionOf(Decoded(rs, TruncatedAt(n))).value
         == ExtractionOf(Decoded(rs[..n], Complete)).value.(truncated := true)
    ensures ExtractionOf(Decoded(rs, TruncatedAt(n))).value.distances <= ExtractionOf(Decoded(rs, Complete)).value.distances
    ensures ExtractionOf(Decoded(rs, TruncatedAt(n))).value.elevations <= ExtractionOf(Decoded(rs, Complete)).value.elevations
  {
    assert rs[..n][..n] == rs[..n];
    assert rs[..|rs|] == rs;
    PairsOfPrefix(rs, n);
  }
}
