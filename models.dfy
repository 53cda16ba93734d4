/** Value types shared by the repository, the analyser and the view model. */
module Models {

  /** Kotlin's nullable `T?`. */
  datatype Option<T> = None | Some(value: T)

  /** One access point from a Wi-Fi scan: its SSID, centre frequency in MHz
      and received signal strength in dBm. */
  datatype WifiNetwork = WifiNetwork(ssid: string, frequency: int, rssi: int)

  /** The analyser's verdict on one IEEE 802.15.4 channel. The last three
      fields carry the defaults of the Kotlin data class. */
  datatype ZigbeeChannelCongestion = ZigbeeChannelCongestion(
    channelNumber: int,
    centerFrequency: int,
    congestionScore: real,
    isZllRecommended: bool := false,
    annotation: Option<string> := None,
    isWarning: bool := false)

  /** A congestion value built from the three mandatory fields only is not
      ZLL-recommended, has no annotation and is not a warning channel. */
  lemma CongestionDefaults(channelNumber: int, centerFrequency: int, score: real)
    ensures var c := ZigbeeChannelCongestion(channelNumber, centerFrequency, score);
      && c.channelNumber == channelNumber
      && c.centerFrequency == centerFrequency
      && c.congestionScore == score
      && !c.isZllRecommended
      && c.annotation == None
      && !c.isWarning
  {
  }
}
