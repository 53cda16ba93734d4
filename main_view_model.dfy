/** The view model: congestion gated by the permission flag, the
    recommendation rule (best ZLL channel last, the two best other channels
    before it), the set of recommended channel numbers, and the state object
    that keeps all three equal to functions of the permission flag and the
    latest scan results. */
module ViewModel {
  import opened Models
  import opened Collections
  import opened ZigbeeAnalyzer
  import opened WifiRepository

  // ----------------------------------------------------- derived values

  /** `zigbeeCongestion`: the analysis when permission is granted, else empty. */
  function Congestion(power: RssiPower, granted: bool, results: seq<WifiNetwork>): (c: seq<ZigbeeChannelCongestion>)
    ensures !granted ==> c == []
    ensures granted ==> c == AnalyzeCongestion(power, results)
    ensures |c| > 0 ==> HasZll(c)
  {
    if granted then
      var c := AnalyzeCongestion(power, results);
      assert c[0].isZllRecommended;
      c
    else []
  }

  function ScoreOf(c: ZigbeeChannelCongestion): real { c.congestionScore }

  predicate IsZll(c: ZigbeeChannelCongestion) { c.isZllRecommended }

  ghost predicate HasZll(congestion: seq<ZigbeeChannelCongestion>) {
    exists c :: c in congestion && c.isZllRecommended
  }

  /** `congestion.filter { it.isZllRecommended }.minBy { it.congestionScore }`. */
  function BestZll(congestion: seq<ZigbeeChannelCongestion>): (b: ZigbeeChannelCongestion)
    requires HasZll(congestion)
    ensures b in congestion && b.isZllRecommended
  {
    ZllPoolNonEmpty(congestion);
    MinBy(Filter(congestion, IsZll), ScoreOf)
  }

  lemma ZllPoolNonEmpty(congestion: seq<ZigbeeChannelCongestion>)
    requires HasZll(congestion)
    ensures |Filter(congestion, IsZll)| > 0
  {
    var c :| c in congestion && c.isZllRecommended;
    assert c in Filter(congestion, IsZll);
  }

  /** `congestion.filter { it.channelNumber != n }`. */
  function OtherChannels(congestion: seq<ZigbeeChannelCongestion>, n: int): (others: seq<ZigbeeChannelCongestion>)
    ensures forall i :: 0 <= i < |others| ==> others[i] in congestion && others[i].channelNumber != n
    ensures forall i :: 0 <= i < |congestion| && congestion[i].channelNumber != n ==> congestion[i] in others
  {
    Filter(congestion, NotChannel(n))
  }

  function NotChannel(n: int): ZigbeeChannelCongestion -> bool {
    (c: ZigbeeChannelCongestion) => c.channelNumber != n
  }

  /** The "others" pool sorted ascending by score (stable). */
  function RankedOthers(congestion: seq<ZigbeeChannelCongestion>, best: ZigbeeChannelCongestion): seq<ZigbeeChannelCongestion> {
    SortedBy(OtherChannels(congestion, best.channelNumber), ScoreOf)
  }

  /** `others.take(2)`: the two lowest-scoring channels of the pool, or fewer. */
  function Lead(congestion: seq<ZigbeeChannelCongestion>): (lead: seq<ZigbeeChannelCongestion>)
    requires HasZll(congestion)
    ensures |lead| <= 2
  {
    var others := RankedOthers(congestion, BestZll(congestion));
    others[..Min(2, |others|)]
  }

  /** `recommendedChannels`: empty without permission or without congestion
      data; otherwise `others.take(2) + bestZll`. The source's `minBy` fails
      on a list without a ZLL channel, which this precondition excludes. */
  function RecommendedChannels(granted: bool, congestion: seq<ZigbeeChannelCongestion>): (r: seq<ZigbeeChannelCongestion>)
    requires granted && |congestion| > 0 ==> HasZll(congestion)
    ensures r == [] <==> !granted || congestion == []
    ensures r != [] ==> r[|r| - 1] == BestZll(congestion) && 1 <= |r| <= 3
  {
    if granted && |congestion| > 0 then Lead(congestion) + [BestZll(congestion)] else []
  }

  lemma RecommendedIsLeadThenBest(congestion: seq<ZigbeeChannelCongestion>)
    requires |congestion| > 0 && HasZll(congestion)
    ensures RecommendedChannels(true, congestion) == Lead(congestion) + [BestZll(congestion)]
  {
  }

  /** `top3Channels`: the channel numbers of the recommendations. */
  function ChannelNumbers(recommended: seq<ZigbeeChannelCongestion>): (numbers: set<int>)
    ensures forall i :: 0 <= i < |recommended| ==> recommended[i].channelNumber in numbers
    ensures forall n :: n in numbers ==> exists i :: 0 <= i < |recommended| && recommended[i].channelNumber == n
  {
    set c | c in recommended :: c.channelNumber
  }

  // ------------------------------------------- recommendation properties

  /** The best ZLL channel is the first ZLL channel in list order whose score
      is the least among the ZLL channels. */
  lemma BestZllIsFirstLeastZll(congestion: seq<ZigbeeChannelCongestion>)
    requires HasZll(congestion)
    ensures exists k ::
      && 0 <= k < |congestion|
      && congestion[k] == BestZll(congestion)
      && congestion[k].isZllRecommended
      && (forall j :: 0 <= j < |congestion| && congestion[j].isZllRecommended ==>
            congestion[k].congestionScore <= congestion[j].congestionScore)
      && (forall j :: 0 <= j < k && congestion[j].isZllRecommended ==>
            congestion[j].congestionScore > congestion[k].congestionScore)
  {
    var zll := Filter(congestion, IsZll);
    var c :| c in congestion && c.isZllRecommended;
    assert c in zll;
    FilterFirstMin(congestion, IsZll, ScoreOf, MinByIndex(zll, ScoreOf));
    var k :| FirstMinAmongAt(congestion, IsZll, ScoreOf, k) && congestion[k] == zll[MinByIndex(zll, ScoreOf)];
    assert congestion[k] == BestZll(congestion);
    forall j | 0 <= j < |congestion| && congestion[j].isZllRecommended
      ensures congestion[k].congestionScore <= congestion[j].congestionScore
    {
      assert IsZll(congestion[j]);
    }
    forall j | 0 <= j < k && congestion[j].isZllRecommended
      ensures congestion[j].congestionScore > congestion[k].congestionScore
    {
      assert IsZll(congestion[j]);
    }
  }

  /** The elements before the last are the lowest-scoring channels of the
      pool that excludes the best ZLL channel's number: ascending by score,
      taken from the pool, and no channel left out of the pool scores lower
      than one taken. */
  lemma LeadIsLeastOfPool(congestion: seq<ZigbeeChannelCongestion>)
    requires HasZll(congestion)
    ensures var pool := OtherChannels(congestion, BestZll(congestion).channelNumber);
      var lead := Lead(congestion);
      && |lead| == Min(2, |pool|)
      && Sorted(lead, ScoreOf)
      && multiset(lead) <= multiset(pool)
      && (forall i, x :: 0 <= i < |lead| && x in multiset(pool) - multiset(lead) ==>
            ScoreOf(lead[i]) <= ScoreOf(x))
  {
    var pool := OtherChannels(congestion, BestZll(congestion).channelNumber);
    LeadIsSortedPrefix(congestion);
    SortedPrefix(pool, ScoreOf, Min(2, |pool|), Lead(congestion));
  }

  lemma LeadIsSortedPrefix(congestion: seq<ZigbeeChannelCongestion>)
    requires HasZll(congestion)
    ensures var pool := OtherChannels(congestion, BestZll(congestion).channelNumber);
      Lead(congestion) == SortedBy(pool, ScoreOf)[..Min(2, |pool|)]
  {
  }

  /** Among channels of equal score the earliest in list order are taken
      (the sort is stable). */
  lemma LeadIsStable(congestion: seq<ZigbeeChannelCongestion>, v: real)
    requires HasZll(congestion)
    ensures WithKey(Lead(congestion), ScoreOf, v)
      <= WithKey(OtherChannels(congestion, BestZll(congestion).channelNumber), ScoreOf, v)
  {
    var pool := OtherChannels(congestion, BestZll(congestion).channelNumber);
    LeadIsSortedPrefix(congestion);
    SortedPrefix(pool, ScoreOf, Min(2, |pool|), Lead(congestion));
  }

  /** The best ZLL channel's number appears exactly once in the
      recommendations, in last position, even when it is the global best. */
  lemma BestZllOnceAndLast(congestion: seq<ZigbeeChannelCongestion>)
    requires |congestion| > 0 && HasZll(congestion)
    ensures var r := RecommendedChannels(true, congestion);
      && r[|r| - 1] == BestZll(congestion)
      && forall i :: 0 <= i < |r| - 1 ==> r[i].channelNumber != BestZll(congestion).channelNumber
  {
    var r := RecommendedChannels(true, congestion);
    var best := BestZll(congestion);
    var pool := OtherChannels(congestion, best.channelNumber);
    var lead := Lead(congestion);
    assert r[..|r| - 1] == lead;
    LeadIsSortedPrefix(congestion);
    SortedPrefix(pool, ScoreOf, Min(2, |pool|), lead);
    forall i | 0 <= i < |lead| ensures lead[i].channelNumber != best.channelNumber {
      assert lead[i] in multiset(pool);
    }
  }

  /** With distinct channel numbers (as the analyser produces), a non-empty
      list of n channels yields min(2, n - 1) + 1 recommendations. */
  lemma RecommendationLength(congestion: seq<ZigbeeChannelCongestion>)
    requires |congestion| > 0 && HasZll(congestion)
    requires DistinctNumbers(congestion)
    ensures |RecommendedChannels(true, congestion)| == Min(2, |congestion| - 1) + 1
  {
    PoolDropsBest(congestion);
    LeadLength(congestion);
    RecommendedIsLeadThenBest(congestion);
  }

  /** With distinct numbers, only the best ZLL channel itself leaves the pool. */
  lemma PoolDropsBest(congestion: seq<ZigbeeChannelCongestion>)
    requires HasZll(congestion) && DistinctNumbers(congestion)
    ensures |OtherChannels(congestion, BestZll(congestion).channelNumber)| == |congestion| - 1
  {
    var best := BestZll(congestion);
    var k :| 0 <= k < |congestion| && congestion[k] == best;
    var notBest := NotChannel(best.channelNumber);
    forall j | 0 <= j < |congestion| && j != k ensures notBest(congestion[j]) {
      assert congestion[j].channelNumber != congestion[k].channelNumber;
    }
    FilterDropsOne(congestion, notBest, k);
  }

  lemma LeadLength(congestion: seq<ZigbeeChannelCongestion>)
    requires HasZll(congestion)
    ensures |Lead(congestion)| == Min(2, |OtherChannels(congestion, BestZll(congestion).channelNumber)|)
  {
  }

  /** No two entries share a channel number. */
  ghost predicate DistinctNumbers(s: seq<ZigbeeChannelCongestion>) {
    forall i, j :: 0 <= i < j < |s| ==> s[i].channelNumber != s[j].channelNumber
  }

  lemma {:induction false} DistinctNumbersNoRepeats(s: seq<ZigbeeChannelCongestion>, x: ZigbeeChannelCongestion)
    requires DistinctNumbers(s)
    ensures multiset(s)[x] <= 1
  {
    if s != [] {
      assert s == [s[0]] + s[1..];
      DistinctNumbersNoRepeats(s[1..], x);
      if s[0] == x {
        forall j | 0 <= j < |s[1..]| ensures s[1..][j] != x {
          assert s[1..][j] == s[j + 1];
        }
        assert x !in s[1..];
      }
    }
  }

  /** Reordering a list with distinct channel numbers keeps them distinct. */
  lemma DistinctNumbersPermutation(s: seq<ZigbeeChannelCongestion>, t: seq<ZigbeeChannelCongestion>)
    requires multiset(s) == multiset(t)
    requires DistinctNumbers(s)
    ensures DistinctNumbers(t)
  {
    forall i, j | 0 <= i < j < |t| ensures t[i].channelNumber != t[j].channelNumber {
      if t[i] == t[j] {
        assert t == t[..j] + t[j..];
        assert t[i] in t[..j] && t[j] in t[j..];
        assert multiset(t) == multiset(t[..j]) + multiset(t[j..]);
        DistinctNumbersNoRepeats(s, t[i]);
      } else {
        assert t[i] in multiset(s) && t[j] in multiset(s);
        var a :| 0 <= a < |s| && s[a] == t[i];
        var b :| 0 <= b < |s| && s[b] == t[j];
      }
    }
  }

  lemma {:induction false} FilterKeepsDistinct(s: seq<ZigbeeChannelCongestion>, p: ZigbeeChannelCongestion -> bool)
    requires DistinctNumbers(s)
    ensures DistinctNumbers(Filter(s, p))
  {
    if s != [] {
      FilterKeepsDistinct(s[1..], p);
      var f, f' := Filter(s, p), Filter(s[1..], p);
      if p(s[0]) {
        assert f == [s[0]] + f';
        assert f[0] == s[0];
        forall i, j | 0 <= i < j < |f| ensures f[i].channelNumber != f[j].channelNumber {
          assert f[j] == f'[j - 1];
          if i == 0 {
            assert f'[j - 1] in s[1..];
            var k :| 0 <= k < |s[1..]| && s[1..][k] == f'[j - 1];
            assert s[k + 1] == f[j];
            assert s[0].channelNumber != s[k + 1].channelNumber;
          } else {
            assert f[i] == f'[i - 1];
            assert f'[i - 1].channelNumber != f'[j - 1].channelNumber;
          }
        }
      } else {
        assert f == f';
      }
    }
  }

  /** With permission granted, the analyser's output always yields three
      recommendations, the last a ZLL channel, on three distinct channels. */
  lemma GrantedRecommendations(power: RssiPower, results: seq<WifiNetwork>)
    ensures var r := RecommendedChannels(true, Congestion(power, true, results));
      && |r| == 3
      && r[2].isZllRecommended
      && |ChannelNumbers(r)| == 3
  {
    var congestion := Congestion(power, true, results);
    AnalyzedChannelsAscend(power, results);
    ThreeDistinctRecommendations(congestion);
  }

  /** A list of at least three channels with distinct numbers, one of them
      ZLL, yields three recommendations on three distinct channels. */
  lemma ThreeDistinctRecommendations(congestion: seq<ZigbeeChannelCongestion>)
    requires |congestion| >= 3 && HasZll(congestion) && DistinctNumbers(congestion)
    ensures var r := RecommendedChannels(true, congestion);
      && |r| == 3
      && r[2].isZllRecommended
      && |ChannelNumbers(r)| == 3
  {
    var r := RecommendedChannels(true, congestion);
    RecommendationLength(congestion);
    LeadDistinct(congestion);
    BestZllOnceAndLast(congestion);
    var lead := Lead(congestion);
    assert r == lead + [BestZll(congestion)];
    assert r[0] == lead[0] && r[1] == lead[1];
    ChannelNumbersOfThree(r);
  }

  /** The lead channels of a list with distinct numbers have distinct numbers. */
  lemma LeadDistinct(congestion: seq<ZigbeeChannelCongestion>)
    requires HasZll(congestion) && DistinctNumbers(congestion)
    ensures DistinctNumbers(Lead(congestion))
  {
    var best := BestZll(congestion);
    var pool := OtherChannels(congestion, best.channelNumber);
    var ranked := SortedBy(pool, ScoreOf);
    FilterKeepsDistinct(congestion, NotChannel(best.channelNumber));
    DistinctNumbersPermutation(pool, ranked);
    assert Lead(congestion) == ranked[..Min(2, |ranked|)];
  }

  lemma ChannelNumbersOfThree(r: seq<ZigbeeChannelCongestion>)
    requires |r| == 3 && DistinctNumbers(r)
    ensures |ChannelNumbers(r)| == 3
  {
    assert ChannelNumbers(r) == {r[0].channelNumber, r[1].channelNumber, r[2].channelNumber};
  }

  /** The first view model test's scores: 11 (ZLL, 0.5), 12 (0.1), 13 (0.2),
      14 (0.3) and 15 (ZLL, 0.6). The code yields 12, 13, 11: three channels,
      not the five that test expects. */
  lemma FiveChannelExample()
    ensures var congestion := [
        ZigbeeChannelCongestion(11, 2405, 0.5, isZllRecommended := true),
        ZigbeeChannelCongestion(12, 2410, 0.1),
        ZigbeeChannelCongestion(13, 2415, 0.2),
        ZigbeeChannelCongestion(14, 2420, 0.3),
        ZigbeeChannelCongestion(15, 2425, 0.6, isZllRecommended := true)];
      var r := RecommendedChannels(true, congestion);
      |r| == 3 && r[0].channelNumber == 12 && r[1].channelNumber == 13 && r[2].channelNumber == 11
  {
    var congestion := [
        ZigbeeChannelCongestion(11, 2405, 0.5, isZllRecommended := true),
        ZigbeeChannelCongestion(12, 2410, 0.1),
        ZigbeeChannelCongestion(13, 2415, 0.2),
        ZigbeeChannelCongestion(14, 2420, 0.3),
        ZigbeeChannelCongestion(15, 2425, 0.6, isZllRecommended := true)];
    var tail := congestion[1..];
    assert tail == [congestion[1], congestion[2], congestion[3], congestion[4]];
    assert Sorted(tail, ScoreOf);
    ExampleRecommendation(congestion);
    var r := RecommendedChannels(true, congestion);
    assert r == [congestion[1], congestion[2], congestion[0]];
  }

  /** The second view model test: channel 11 is the best ZLL channel and also
      the global best, yet it comes last, after 12 and 13. */
  lemma GlobalBestZllExample()
    ensures var congestion := [
        ZigbeeChannelCongestion(11, 2405, 0.05, isZllRecommended := true),
        ZigbeeChannelCongestion(12, 2410, 0.1),
        ZigbeeChannelCongestion(13, 2415, 0.2)];
      var r := RecommendedChannels(true, congestion);
      |r| == 3 && r[0].channelNumber == 12 && r[1].channelNumber == 13 && r[2].channelNumber == 11
  {
    var congestion := [
        ZigbeeChannelCongestion(11, 2405, 0.05, isZllRecommended := true),
        ZigbeeChannelCongestion(12, 2410, 0.1),
        ZigbeeChannelCongestion(13, 2415, 0.2)];
    var tail := congestion[1..];
    assert tail == [congestion[1], congestion[2]];
    assert Sorted(tail, ScoreOf);
    ExampleRecommendation(congestion);
    var r := RecommendedChannels(true, congestion);
    assert r == [congestion[1], congestion[2], congestion[0]];
  }

  /** Both tests have the same shape: the first entry is the best ZLL
      channel, and the rest are in ascending score order with other numbers,
      so the first two of the rest precede it. */
  lemma ExampleRecommendation(congestion: seq<ZigbeeChannelCongestion>)
    requires |congestion| >= 3 && congestion[0].isZllRecommended
    requires forall j :: 0 < j < |congestion| && congestion[j].isZllRecommended ==>
      congestion[0].congestionScore <= congestion[j].congestionScore
    requires forall j :: 0 < j < |congestion| ==> congestion[j].channelNumber != congestion[0].channelNumber
    requires Sorted(congestion[1..], ScoreOf)
    ensures RecommendedChannels(true, congestion) == [congestion[1], congestion[2], congestion[0]]
  {
    HeadIsBestZll(congestion);
    var n := congestion[0].channelNumber;
    FilterDropsHead(congestion, NotChannel(n));
    SortedIsFixed(congestion[1..]);
    LeadOfSortedTail(congestion);
    RecommendedIsLeadThenBest(congestion);
  }

  lemma HeadIsBestZll(congestion: seq<ZigbeeChannelCongestion>)
    requires |congestion| > 0 && congestion[0].isZllRecommended
    requires forall j :: 0 < j < |congestion| && congestion[j].isZllRecommended ==>
      congestion[0].congestionScore <= congestion[j].congestionScore
    ensures HasZll(congestion) && BestZll(congestion) == congestion[0]
  {
    assert congestion[0] in congestion;
    BestZllIsFirstLeastZll(congestion);
  }

  lemma LeadOfSortedTail(congestion: seq<ZigbeeChannelCongestion>)
    requires |congestion| >= 3 && HasZll(congestion) && BestZll(congestion) == congestion[0]
    requires OtherChannels(congestion, congestion[0].channelNumber) == congestion[1..]
    requires SortedBy(congestion[1..], ScoreOf) == congestion[1..]
    ensures Lead(congestion) == [congestion[1], congestion[2]]
  {
    assert RankedOthers(congestion, congestion[0]) == congestion[1..];
  }

  /** Sorting a list that is already in ascending score order changes nothing. */
  lemma {:induction false} SortedIsFixed(s: seq<ZigbeeChannelCongestion>)
    requires Sorted(s, ScoreOf)
    ensures SortedBy(s, ScoreOf) == s
  {
    if s != [] {
      SortedIsFixed(s[1..]);
    }
  }

  // --------------------------------------------------------- the state

  /** The view model's state. `power` stands for the injected analyser;
      `scanRequests` counts the calls made to the repository's `triggerScan`. */
  class MainViewModel {
    const power: RssiPower
    var isScanning: bool
    var permissionGranted: bool
    var wifiScanResults: seq<WifiNetwork>
    var zigbeeCongestion: seq<ZigbeeChannelCongestion>
    var recommendedChannels: seq<ZigbeeChannelCongestion>
    var top3Channels: set<int>
    ghost var scanRequests: nat

    /** The derived fields always equal the pure functions of the permission
        flag and the latest results, which are all in the 2.4 GHz band. */
    ghost predicate Valid()
      reads this
    {
      && (forall i :: 0 <= i < |wifiScanResults| ==> Is24GHz(wifiScanResults[i].frequency))
      && zigbeeCongestion == Congestion(power, permissionGranted, wifiScanResults)
      && recommendedChannels == RecommendedChannels(permissionGranted, zigbeeCongestion)
      && top3Channels == ChannelNumbers(recommendedChannels)
    }

    /** Every flow starts from its initial value: no permission, no results. */
    constructor (power: RssiPower)
      ensures Valid()
      ensures this.power == power
      ensures !isScanning && !permissionGranted && wifiScanResults == []
      ensures zigbeeCongestion == [] && recommendedChannels == [] && top3Channels == {}
      ensures scanRequests == 0
    {
      this.power := power;
      isScanning := false;
      permissionGranted := false;
      wifiScanResults := [];
      zigbeeCongestion := [];
      recommendedChannels := [];
      top3Channels := {};
      scanRequests := 0;
    }

    /** Recomputes the three derived values from the two inputs. */
    method Recompute()
      requires forall i :: 0 <= i < |wifiScanResults| ==> Is24GHz(wifiScanResults[i].frequency)
      modifies this
      ensures Valid()
      ensures permissionGranted == old(permissionGranted) && wifiScanResults == old(wifiScanResults)
      ensures isScanning == old(isScanning) && scanRequests == old(scanRequests)
    {
      zigbeeCongestion := Congestion(power, permissionGranted, wifiScanResults);
      recommendedChannels := RecommendedChannels(permissionGranted, zigbeeCongestion);
      top3Channels := ChannelNumbers(recommendedChannels);
    }

    /** `onPermissionResult(granted)`: records the flag and asks for a scan
        only when permission was granted. */
    method OnPermissionResult(granted: bool)
      requires Valid()
      modifies this
      ensures Valid()
      ensures permissionGranted == granted && wifiScanResults == old(wifiScanResults)
      ensures scanRequests == old(scanRequests) + (if granted then 1 else 0)
      ensures isScanning == (granted || old(isScanning))
      ensures granted ==> zigbeeCongestion == AnalyzeCongestion(power, wifiScanResults)
      ensures granted ==> |recommendedChannels| == 3 && |top3Channels| == 3
      ensures !granted ==> zigbeeCongestion == [] && recommendedChannels == [] && top3Channels == {}
    {
      permissionGranted := granted;
      Recompute();
      if granted {
        GrantedRecommendations(power, wifiScanResults);
        RequestScan();
      }
    }

    /** `triggerScan()`: marks a scan as in progress and calls the repository.
        The one-second reset that follows is `ScanSettled`. */
    method RequestScan()
      requires Valid()
      modifies this
      ensures Valid()
      ensures isScanning && scanRequests == old(scanRequests) + 1
      ensures permissionGranted == old(permissionGranted) && wifiScanResults == old(wifiScanResults)
      ensures zigbeeCongestion == old(zigbeeCongestion) && recommendedChannels == old(recommendedChannels)
      ensures top3Channels == old(top3Channels)
    {
      isScanning := true;
      scanRequests := scanRequests + 1;
    }

    /** The delayed `_isScanning.value = false` after a triggered scan. */
    method ScanSettled()
      requires Valid()
      modifies this`isScanning
      ensures Valid() && !isScanning
    {
      isScanning := false;
    }

    /** A new batch of platform scan results reaches the view model: the
        repository keeps the 2.4 GHz ones and the derived values follow. */
    method ObservationsUpdated(scanResults: seq<WifiNetwork>)
      requires Valid()
      modifies this
      ensures Valid()
      ensures wifiScanResults == BandFilter(scanResults)
      ensures permissionGranted == old(permissionGranted)
      ensures isScanning == old(isScanning) && scanRequests == old(scanRequests)
      ensures !permissionGranted ==> zigbeeCongestion == [] && recommendedChannels == []
      ensures permissionGranted ==>
        && zigbeeCongestion == AnalyzeCongestion(power, BandFilter(scanResults))
        && |recommendedChannels| == 3 && |top3Channels| == 3
    {
      wifiScanResults := BandFilter(scanResults);
      Recompute();
      if permissionGranted {
        GrantedRecommendations(power, wifiScanResults);
      }
    }
  }
}
