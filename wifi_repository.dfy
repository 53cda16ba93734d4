/** The part of the Wi-Fi repository that decides what reaches the analyser:
    the 2.4 GHz band test applied to every batch of scan results, and the
    permission gate in front of a scan request. Receiver registration and
    the platform's WifiManager are not modelled; their answers are
    parameters here. */
module WifiRepository {
  import opened Models
  import opened Collections

  const BandLowMHz := 2400
  const BandHighMHz := 2484

  /** `frequency in 2400..2484`: a Kotlin closed range, both ends included. */
  predicate Is24GHz(frequency: int) {
    BandLowMHz <= frequency <= BandHighMHz
  }

  predicate InBand(w: WifiNetwork) {
    Is24GHz(w.frequency)
  }

  lemma BandEdges()
    ensures Is24GHz(2400) && Is24GHz(2484)
    ensures !Is24GHz(2399) && !Is24GHz(2485)
  {
  }

  /** `results.filter { is24GHz(it.frequency) }`, applied both to the initial
      results and to every later broadcast before they are emitted. */
  function BandFilter(scanResults: seq<WifiNetwork>): (emitted: seq<WifiNetwork>)
    ensures |emitted| <= |scanResults|
    ensures forall i :: 0 <= i < |emitted| ==> Is24GHz(emitted[i].frequency) && emitted[i] in scanResults
    ensures forall i :: 0 <= i < |scanResults| && Is24GHz(scanResults[i].frequency) ==> scanResults[i] in emitted
  {
    Filter(scanResults, InBand)
  }

  /** The emitted list is the order-preserving subsequence of in-band results:
      filtering distributes over concatenation, and a single result is kept
      exactly when it is in band. */
  lemma BandFilterPreservesOrder(a: seq<WifiNetwork>, b: seq<WifiNetwork>, w: WifiNetwork)
    ensures BandFilter(a + b) == BandFilter(a) + BandFilter(b)
    ensures BandFilter([w]) == if Is24GHz(w.frequency) then [w] else []
  {
    FilterConcat(a, b, InBand);
  }

  /** Every in-band result is emitted as often as it was scanned. */
  lemma BandFilterMultiplicity(scanResults: seq<WifiNetwork>, w: WifiNetwork)
    ensures multiset(BandFilter(scanResults))[w] == if Is24GHz(w.frequency) then multiset(scanResults)[w] else 0
  {
    FilterMultiset(scanResults, InBand, w);
  }

  lemma BandFilterIdempotent(scanResults: seq<WifiNetwork>)
    ensures BandFilter(BandFilter(scanResults)) == BandFilter(scanResults)
  {
    FilterIdempotent(scanResults, InBand);
  }

  /** Outcome of `triggerScan`: whether the platform was asked to scan at all,
      and the Boolean the repository returns. */
  datatype ScanRequest = ScanRequest(scanStarted: bool, result: bool)

  /** `triggerScan()`: without location permission it returns false and does
      not ask for a scan; otherwise it returns what `startScan()` answers,
      which is a parameter here. */
  function TriggerScan(locationPermissionGranted: bool, startScanAnswer: bool): (r: ScanRequest)
    ensures r.scanStarted <==> locationPermissionGranted
    ensures r.result <==> locationPermissionGranted && startScanAnswer
  {
    if !locationPermissionGranted then ScanRequest(false, false)
    else ScanRequest(true, startScanAnswer)
  }
}
