/** The congestion analyser: for each of the sixteen IEEE 802.15.4 channels
    in the 2.4 GHz band it sums the linear power of every Wi-Fi network whose
    centre frequency lies within the overlap window of the channel's centre,
    and tags the channel with its ZLL, warning and annotation data. */
module ZigbeeAnalyzer {
  import opened Models
  import opened Collections

  /** The conversion `10^(rssi / 10)` from dBm to a linear (milliwatt-like)
      power. Floating-point exponentiation is not modelled: the analyser is
      parameterised by the conversion, of which only positivity is used. */
  type RssiPower = f: int -> real | forall rssi :: f(rssi) > 0.0
    witness (rssi: int) => 1.0

  /** A Zigbee channel number paired with its centre frequency in MHz. */
  datatype ZigbeeChannel = ZigbeeChannel(channel: int, frequency: int)

  /** Channels 11 to 26; the centre frequency is 2405 + 5 (k - 11) MHz, as in
      section 6.1.2.1 of IEEE 802.15.4-2006. */
  function ZigbeeChannels(): (table: seq<ZigbeeChannel>)
    ensures |table| == 16
    ensures forall i :: 0 <= i < |table| ==> table[i].channel == 11 + i
    ensures forall i :: 0 <= i < |table| ==> table[i].frequency == 2405 + 5 * (table[i].channel - 11)
  {
    seq(16, i requires 0 <= i < 16 => ZigbeeChannel(11 + i, 2405 + 5 * ((11 + i) - 11)))
  }

  const ZllChannels: seq<int> := [11, 15, 20, 25]
  const WarningChannel := 26

  /** Assumed Wi-Fi spectral mask width and Zigbee safety margin, in MHz. */
  const WifiBandwidth := 22
  const ZigbeeWidthSafety: real := 2.0

  // -------------------------------------------------------- interference

  function Distance(a: int, b: int): nat {
    if a >= b then a - b else b - a
  }

  /** `abs(wifi.frequency - zigbeeCenterFreq) < wifiBandwidth / 2.0 + 2.0`:
      an all-or-nothing overlap test, with no weighting by distance. */
  predicate Interferes(wifi: WifiNetwork, zigbeeCenterFreq: int) {
    (Distance(wifi.frequency, zigbeeCenterFreq) as real) < (WifiBandwidth as real) / 2.0 + ZigbeeWidthSafety
  }

  /** The window is 13 MHz wide on either side, open at its ends: in whole
      megahertz, a network interferes exactly when it is at most 12 MHz away. */
  lemma InterferesWithin12MHz(wifi: WifiNetwork, zigbeeCenterFreq: int)
    ensures Interferes(wifi, zigbeeCenterFreq) <==> -12 <= wifi.frequency - zigbeeCenterFreq <= 12
  {
  }

  /** What one network adds to a channel's score. */
  function Contribution(power: RssiPower, zigbeeCenterFreq: int, wifi: WifiNetwork): (p: real)
    ensures p >= 0.0
    ensures p > 0.0 <==> Interferes(wifi, zigbeeCenterFreq)
  {
    if Interferes(wifi, zigbeeCenterFreq) then power(wifi.rssi) else 0.0
  }

  /** The score the accumulation loop reaches after visiting `scanResults`
      in order (the last element is the one added last). */
  function Score(power: RssiPower, zigbeeCenterFreq: int, scanResults: seq<WifiNetwork>): (total: real)
    ensures total >= 0.0
  {
    if scanResults == [] then 0.0
    else
      Score(power, zigbeeCenterFreq, scanResults[..|scanResults| - 1])
        + Contribution(power, zigbeeCenterFreq, scanResults[|scanResults| - 1])
  }

  /** `calculateCongestionForChannel`: the `for` loop over the scan results
      accumulating `totalInterference`. */
  method CalculateCongestionForChannel(power: RssiPower, zigbeeCenterFreq: int, scanResults: seq<WifiNetwork>)
    returns (totalInterference: real)
    ensures totalInterference == Score(power, zigbeeCenterFreq, scanResults)
    ensures totalInterference >= 0.0
    ensures totalInterference > 0.0 <==> exists i :: 0 <= i < |scanResults| && Interferes(scanResults[i], zigbeeCenterFreq)
  {
    totalInterference := 0.0;
    for i := 0 to |scanResults|
      invariant totalInterference == Score(power, zigbeeCenterFreq, scanResults[..i])
    {
      var wifi := scanResults[i];
      var wifiCenterFreq := wifi.frequency;
      var wifiBandwidth := WifiBandwidth;
      var dist := Distance(wifiCenterFreq, zigbeeCenterFreq);
      assert scanResults[..i + 1][..i] == scanResults[..i];
      if (dist as real) < (wifiBandwidth as real) / 2.0 + ZigbeeWidthSafety {
        var p := power(wifi.rssi);
        totalInterference := totalInterference + p;
      }
    }
    assert scanResults[..|scanResults|] == scanResults;
    ScorePositiveIffInterferer(power, zigbeeCenterFreq, scanResults);
  }

  // ----------------------------------------------------- score properties

  /** A score is positive exactly when some network interferes. */
  lemma {:induction false} ScorePositiveIffInterferer(power: RssiPower, zigbeeCenterFreq: int, scanResults: seq<WifiNetwork>)
    ensures Score(power, zigbeeCenterFreq, scanResults) > 0.0
      <==> exists i :: 0 <= i < |scanResults| && Interferes(scanResults[i], zigbeeCenterFreq)
  {
    if scanResults != [] {
      var n := |scanResults| - 1;
      var prefix := scanResults[..n];
      ScorePositiveIffInterferer(power, zigbeeCenterFreq, prefix);
      if exists i :: 0 <= i < |scanResults| && Interferes(scanResults[i], zigbeeCenterFreq) {
        var i :| 0 <= i < |scanResults| && Interferes(scanResults[i], zigbeeCenterFreq);
        if i < n { assert prefix[i] == scanResults[i]; }
      } else {
        forall i | 0 <= i < n ensures !Interferes(prefix[i], zigbeeCenterFreq) {
          assert prefix[i] == scanResults[i];
        }
      }
    }
  }

  lemma {:induction false} ScoreConcat(power: RssiPower, zigbeeCenterFreq: int, a: seq<WifiNetwork>, b: seq<WifiNetwork>)
    ensures Score(power, zigbeeCenterFreq, a + b) == Score(power, zigbeeCenterFreq, a) + Score(power, zigbeeCenterFreq, b)
  {
    if b == [] {
      assert a + b == a;
    } else {
      var b' := b[..|b| - 1];
      assert (a + b)[..|a + b| - 1] == a + b';
      assert (a + b)[|a + b| - 1] == b[|b| - 1];
      ScoreConcat(power, zigbeeCenterFreq, a, b');
    }
  }

  /** Inserting a network anywhere in the scan adds exactly its contribution:
      nothing for a non-interfering network, a strictly positive amount for
      an interfering one. */
  lemma ScoreInsert(power: RssiPower, zigbeeCenterFreq: int, a: seq<WifiNetwork>, wifi: WifiNetwork, b: seq<WifiNetwork>)
    ensures !Interferes(wifi, zigbeeCenterFreq) ==>
      Score(power, zigbeeCenterFreq, a + [wifi] + b) == Score(power, zigbeeCenterFreq, a + b)
    ensures Interferes(wifi, zigbeeCenterFreq) ==>
      Score(power, zigbeeCenterFreq, a + [wifi] + b) > Score(power, zigbeeCenterFreq, a + b)
  {
    ScoreConcat(power, zigbeeCenterFreq, a + [wifi], b);
    ScoreConcat(power, zigbeeCenterFreq, a, [wifi]);
    ScoreConcat(power, zigbeeCenterFreq, a, b);
    assert [wifi][..0] == [];
  }

  /** The networks that interfere with a channel, in scan order. */
  function Interferers(zigbeeCenterFreq: int, scanResults: seq<WifiNetwork>): (r: seq<WifiNetwork>)
    ensures forall i :: 0 <= i < |r| ==> Interferes(r[i], zigbeeCenterFreq) && r[i] in scanResults
    ensures forall i :: 0 <= i < |scanResults| && Interferes(scanResults[i], zigbeeCenterFreq) ==> scanResults[i] in r
  {
    Filter(scanResults, InterferesWith(zigbeeCenterFreq))
  }

  function InterferesWith(zigbeeCenterFreq: int): WifiNetwork -> bool {
    wifi => Interferes(wifi, zigbeeCenterFreq)
  }

  /** Total linear power of a list of networks, with no overlap test. */
  function TotalPower(power: RssiPower, networks: seq<WifiNetwork>): real {
    if networks == [] then 0.0
    else TotalPower(power, networks[..|networks| - 1]) + power(networks[|networks| - 1].rssi)
  }

  lemma InterferersSnoc(zigbeeCenterFreq: int, scanResults: seq<WifiNetwork>, wifi: WifiNetwork)
    ensures Interferers(zigbeeCenterFreq, scanResults + [wifi])
      == Interferers(zigbeeCenterFreq, scanResults) + (if Interferes(wifi, zigbeeCenterFreq) then [wifi] else [])
  {
    FilterSnoc(scanResults, wifi, InterferesWith(zigbeeCenterFreq));
  }

  lemma TotalPowerSnoc(power: RssiPower, networks: seq<WifiNetwork>, wifi: WifiNetwork)
    ensures TotalPower(power, networks + [wifi]) == TotalPower(power, networks) + power(wifi.rssi)
  {
    assert (networks + [wifi])[..|networks|] == networks;
  }

  /** Reference definition of the score: the total power of the interferers. */
  lemma {:induction false} ScoreIsInterferersPower(power: RssiPower, zigbeeCenterFreq: int, scanResults: seq<WifiNetwork>)
    ensures Score(power, zigbeeCenterFreq, scanResults) == TotalPower(power, Interferers(zigbeeCenterFreq, scanResults))
  {
    if scanResults != [] {
      var n := |scanResults| - 1;
      var prefix, last := scanResults[..n], scanResults[n];
      var fp := Interferers(zigbeeCenterFreq, prefix);
      assert Score(power, zigbeeCenterFreq, scanResults)
        == Score(power, zigbeeCenterFreq, prefix) + Contribution(power, zigbeeCenterFreq, last);
      ScoreIsInterferersPower(power, zigbeeCenterFreq, prefix);
      assert scanResults == prefix + [last];
      InterferersSnoc(zigbeeCenterFreq, prefix, last);
      if Interferes(last, zigbeeCenterFreq) {
        assert Interferers(zigbeeCenterFreq, scanResults) == fp + [last];
        TotalPowerSnoc(power, fp, last);
      } else {
        assert Interferers(zigbeeCenterFreq, scanResults) == fp + [];
        assert fp + [] == fp;
      }
    }
  }

  // ------------------------------------------------------------ tagging

  /** `getAnnotationForChannel`: a note that depends on the channel number alone. */
  function AnnotationForChannel(channel: int): (a: Option<string>)
    ensures channel == 11 ==> a == Some("Usually crowded by Wi-Fi")
    ensures channel == 26 ==> a == Some("Problematic (low power, poor device support)")
    ensures a == None <==> channel in {15, 20, 25}
    ensures channel !in {11, 15, 20, 25, 26} ==> a == Some("Possible compatibility issues (Hue, IKEA, etc.)")
  {
    match channel
    case 11 => Some("Usually crowded by Wi-Fi")
    case 26 => Some("Problematic (low power, poor device support)")
    case 15 => None
    case 20 => None
    case 25 => None
    case _ => Some("Possible compatibility issues (Hue, IKEA, etc.)")
  }

  /** The entry `analyzeCongestion` builds for one row of the channel table. */
  function ChannelCongestion(power: RssiPower, zc: ZigbeeChannel, scanResults: seq<WifiNetwork>): ZigbeeChannelCongestion {
    ZigbeeChannelCongestion(
      channelNumber := zc.channel,
      centerFrequency := zc.frequency,
      congestionScore := Score(power, zc.frequency, scanResults),
      isZllRecommended := zc.channel in ZllChannels,
      annotation := AnnotationForChannel(zc.channel),
      isWarning := zc.channel == WarningChannel)
  }

  /** `analyzeCongestion`: one entry per channel of the table, in table order. */
  function AnalyzeCongestion(power: RssiPower, scanResults: seq<WifiNetwork>): (r: seq<ZigbeeChannelCongestion>)
    ensures |r| == 16
    ensures forall i :: 0 <= i < 16 ==>
      && r[i].channelNumber == 11 + i
      && r[i].centerFrequency == 2405 + 5 * (r[i].channelNumber - 11)
      && r[i].congestionScore == Score(power, r[i].centerFrequency, scanResults)
      && (r[i].isZllRecommended <==> r[i].channelNumber in {11, 15, 20, 25})
      && (r[i].isWarning <==> r[i].channelNumber == 26)
      && r[i].annotation == AnnotationForChannel(r[i].channelNumber)
  {
    var table := ZigbeeChannels();
    seq(|table|, i requires 0 <= i < |table| => ChannelCongestion(power, table[i], scanResults))
  }

  /** Channel numbers strictly ascend, so no channel appears twice. */
  lemma AnalyzedChannelsAscend(power: RssiPower, scanResults: seq<WifiNetwork>)
    ensures var r := AnalyzeCongestion(power, scanResults);
      forall i, j :: 0 <= i < j < |r| ==> r[i].channelNumber < r[j].channelNumber
  {
  }

  /** Every score is non-negative, and positive exactly when some network
      interferes with that channel; an empty scan scores 0 everywhere. */
  lemma AnalyzedScores(power: RssiPower, scanResults: seq<WifiNetwork>, i: int)
    requires 0 <= i < 16
    ensures var c := AnalyzeCongestion(power, scanResults)[i];
      && c.congestionScore >= 0.0
      && (c.congestionScore > 0.0 <==> exists j :: 0 <= j < |scanResults| && Interferes(scanResults[j], c.centerFrequency))
      && (scanResults == [] ==> c.congestionScore == 0.0)
  {
    var c := AnalyzeCongestion(power, scanResults)[i];
    ScorePositiveIffInterferer(power, c.centerFrequency, scanResults);
  }

  /** One network on Wi-Fi channel 1 (2412 MHz, -40 dBm) congests Zigbee
      channel 11 (7 MHz away) and leaves channel 26 (68 MHz away) clear. */
  lemma WifiChannel1Example(power: RssiPower)
    ensures var r := AnalyzeCongestion(power, [WifiNetwork("Net1", 2412, -40)]);
      r[0].channelNumber == 11 && r[0].congestionScore > 0.0
      && r[15].channelNumber == 26 && r[15].congestionScore == 0.0
  {
    var ws := [WifiNetwork("Net1", 2412, -40)];
    assert ws[..0] == [];
    assert Score(power, 2405, ws) == Contribution(power, 2405, ws[0]) > 0.0;
    assert Score(power, 2480, ws) == Contribution(power, 2480, ws[0]) == 0.0;
  }

  // ------------------------------------------- 32-bit distance as written

  const IntMin := -0x8000_0000
  const IntMax := 0x7fff_ffff

  predicate IsInt(x: int) { IntMin <= x <= IntMax }

  /** Kotlin `Int` arithmetic: the result reduced into the 32-bit range. */
  function WrapInt(x: int): (r: int)
    ensures IsInt(r)
    ensures IsInt(x) ==> r == x
    ensures IntMin - 0x1_0000_0000 <= x < IntMin ==> r == x + 0x1_0000_0000
    ensures IntMax < x <= IntMax + 0x1_0000_0000 ==> r == x - 0x1_0000_0000
  {
    (x - IntMin) % 0x1_0000_0000 + IntMin
  }

  /** `kotlin.math.abs` on `Int`: `abs(Int.MIN_VALUE)` is `Int.MIN_VALUE`. */
  function AbsInt(x: int): (r: int)
    requires IsInt(x)
    ensures x != IntMin ==> r == Distance(x, 0)
    ensures x == IntMin ==> r == IntMin
  {
    if x < 0 then WrapInt(-x) else x
  }

  /** The overlap test exactly as the analyser computes it on 32-bit `Int`s. */
  predicate InterferesAsWritten(wifi: WifiNetwork, zigbeeCenterFreq: int): (r: bool)
    requires IsInt(wifi.frequency) && IsInt(zigbeeCenterFreq)
    ensures IsInt(wifi.frequency - zigbeeCenterFreq) && wifi.frequency - zigbeeCenterFreq != IntMin
      ==> (r <==> Interferes(wifi, zigbeeCenterFreq))
    ensures wifi.frequency - zigbeeCenterFreq == IntMin ==> r
  {
    (AbsInt(WrapInt(wifi.frequency - zigbeeCenterFreq)) as real) < (WifiBandwidth as real) / 2.0 + ZigbeeWidthSafety
  }

  /** A network reported at `Int.MIN_VALUE + 2405` MHz makes the difference
      exactly `Int.MIN_VALUE`, whose `abs` stays negative: as written it
      interferes with channel 11, although it is 2^31 MHz away. */
  lemma AsWrittenMinValueInterferes()
    ensures var wifi := WifiNetwork("", IntMin + 2405, -40);
      InterferesAsWritten(wifi, 2405) && !Interferes(wifi, 2405)
  {
  }

  /** For a channel of the table, the 32-bit test agrees with the
      mathematical one at every 32-bit frequency but that single one, so it
      never matters for the in-band results the repository emits. */
  lemma AsWrittenAgreesElsewhere(wifi: WifiNetwork, zigbeeCenterFreq: int)
    requires IsInt(wifi.frequency) && 2405 <= zigbeeCenterFreq <= 2480
    ensures InterferesAsWritten(wifi, zigbeeCenterFreq)
      <==> Interferes(wifi, zigbeeCenterFreq) || wifi.frequency == IntMin + zigbeeCenterFreq
  {
  }
}
