/** getBestScanResultByLevel: the scan with the strongest signal, as Collections.max picks it. */
module BestScan {
  import opened Wrappers
  import opened Wifi

  /** Index Collections.max settles on: it walks the list and replaces its candidate only by a
      strictly greater level, so ties go to the first occurrence. */
  function MaxLevelIndex(scans: seq<ScanResult>): (k: nat)
    requires scans != []
    ensures k < |scans|
    ensures forall j :: 0 <= j < |scans| ==> scans[j].level <= scans[k].level
    ensures forall j :: 0 <= j < k ==> scans[j].level < scans[k].level
    decreases |scans|
  {
    if |scans| == 1 then 0
    else
      var k := MaxLevelIndex(scans[..|scans| - 1]);
      if scans[|scans| - 1].level > scans[k].level then |scans| - 1 else k
  }

  /** None for an empty list; otherwise the first element of greatest level. */
  function BestScanResultByLevel(scans: seq<ScanResult>): (r: Option<ScanResult>)
    ensures r.None? <==> scans == []
    ensures r.Some? ==> exists k :: 0 <= k < |scans| && scans[k] == r.value
                          && (forall j :: 0 <= j < |scans| ==> scans[j].level <= r.value.level)
                          && (forall j :: 0 <= j < k ==> scans[j].level < r.value.level)
  {
    if scans == [] then None else Some(scans[MaxLevelIndex(scans)])
  }
}
