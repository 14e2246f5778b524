/**
 * The parts of a loaded OCT series the markers read: per B-scan its width
 * and its segmentation lines (one line of samples per line type). A sample
 * is a depth value or NaN, which marks an undefined position.
 */
module OctData {
  import opened Wrappers

  datatype Sample = Undefined | Defined(v: real)

  type SegLine = seq<Sample>

  datatype BScan = BScan(width: nat, segmentLines: seq<SegLine>)

  /** A series is a sequence of B-scan slots; a slot may be empty (a null B-scan pointer). */
  datatype Series = Series(bscans: seq<Option<BScan>>)

  /**
   * The B-scan with index `n` of the series, if there is a series, `n` is in
   * range and the slot is filled (the marker base's getBScan).
   */
  function GetBScan(series: Option<Series>, n: int): (r: Option<BScan>)
    ensures r.Some? <==> series.Some? && 0 <= n < |series.value.bscans| && series.value.bscans[n].Some?
    ensures r.Some? ==> r == series.value.bscans[n]
  {
    if series.None? || n < 0 || n >= |series.value.bscans| then None
    else series.value.bscans[n]
  }

  /** Every B-scan of the series is present. */
  predicate AllPresent(s: Series) {
    forall i :: 0 <= i < |s.bscans| ==> s.bscans[i].Some?
  }

  /** Every present B-scan carries one segmentation line per line type. */
  predicate HasLineTypes(series: Option<Series>, numTypes: nat) {
    series.Some? ==>
      forall i :: 0 <= i < |series.value.bscans| && series.value.bscans[i].Some? ==>
        |series.value.bscans[i].value.segmentLines| == numTypes
  }
}
