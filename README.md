# Channelor: a verified model of the Zigbee channel recommender

Channelor is an Android app that scans the 2.4 GHz Wi-Fi networks around the
phone and recommends Zigbee (IEEE 802.15.4) channels that are least congested
by them. This project models its core in Dafny and proves properties of it:

- the **repository** (`wifi_repository.dfy`): the 2.4 GHz band filter and
  the permission gate in front of a scan request;
- the **analyser** (`zigbee_analyzer.dfy`): the table of the sixteen channels
  11 to 26, the overlap test, the accumulation loop that scores one channel,
  and the per-channel ZLL, warning and annotation tags;
- the **view model** (`main_view_model.dfy`): congestion gated by the
  permission flag, the recommendation rule (the least congested ZLL channel
  last, the two least congested other channels before it), the set of
  recommended channel numbers, and a class holding the state that the
  permission callback, the scan trigger and new scan results update;
- the **data model** (`models.dfy`) and the Kotlin collection operations the
  view model relies on (`collections.dfy`): `filter` keeps order, `minBy`
  returns the first least element, `sortedBy` is a stable sort, and `take(2)`
  is a prefix.

Things the app gets from outside are parameters of the model:

- the `dBm -> linear power` conversion `10^(rssi/10)` is a parameter of type
  `RssiPower`, and the model uses only that it is positive;
- the platform's permission check and the answer of `WifiManager.startScan()`
  are arguments of `WifiRepository.TriggerScan`;
- the platform's scan results are the argument of `ObservationsUpdated`.

Scores are exact reals.

Where the code and its own unit test disagree, the model follows the code.
The first view model test (`MainViewModelTest.kt:44-70`) expects five
recommendations from five channels. The code takes two other channels plus
the best ZLL channel, so it yields three (`ViewModel.FiveChannelExample`).

Two further modelling choices:

- Ties in score are broken by list order, as `minBy` and the stable `sortedBy`
  do. They are not broken by channel number.
- The view model hands `WifiNetwork` values to an analyser whose signature
  takes platform `ScanResult`s, so the code disagrees with itself there. The
  model uses `WifiNetwork`, with `rssi` standing for the scan result's `level`.

## Model

| member | source | states |
|---|---|---|
| Models.CongestionDefaults | app/src/main/java/dev/sebastiano/channelor/domain/Models.kt:5-12 | a congestion entry built from number, frequency and score alone is not ZLL, has no annotation and is not a warning |
| Collections.Filter | app/src/main/java/dev/sebastiano/channelor/data/WifiRepository.kt:47 | `filter` keeps only elements satisfying the predicate, keeps every such element, and never grows the list |
| Collections.FilterConcat | app/src/main/java/dev/sebastiano/channelor/data/WifiRepository.kt:47 | filtering distributes over concatenation (order is preserved) |
| Collections.FilterMultiset | app/src/main/java/dev/sebastiano/channelor/data/WifiRepository.kt:47 | an element passing the predicate is kept as many times as it occurs; one failing it is dropped entirely |
| Collections.MinByIndex | app/src/main/java/dev/sebastiano/channelor/ui/MainViewModel.kt:67 | `minBy` picks the position of the least key, and every earlier position has a strictly greater key (first minimum) |
| Collections.MinBy | app/src/main/java/dev/sebastiano/channelor/ui/MainViewModel.kt:67 | the chosen element belongs to the list and no element has a smaller key |
| Collections.FilterFirstMin | app/src/main/java/dev/sebastiano/channelor/ui/MainViewModel.kt:67 | the first minimum of a filtered list is, in the original list, the first least element among those that pass the filter |
| Collections.SortedBy | app/src/main/java/dev/sebastiano/channelor/ui/MainViewModel.kt:72 | `sortedBy` returns an ascending permutation of its input and is stable: the elements of every key class stay in input order |
| Collections.SortedPrefix | app/src/main/java/dev/sebastiano/channelor/ui/MainViewModel.kt:72-74 | the first n elements of the sort are ascending and taken from the input; no element left out has a smaller key than one kept; within a key class the earliest ones are kept |
| WifiRepository.Is24GHz | app/src/main/java/dev/sebastiano/channelor/data/WifiRepository.kt:96-98 | the closed range `2400..2484`; `BandEdges` states that both ends are in and their neighbours out |
| WifiRepository.BandEdges | app/src/main/java/dev/sebastiano/channelor/data/WifiRepository.kt:96-98 | the band test includes both 2400 and 2484 MHz and excludes 2399 and 2485 |
| WifiRepository.BandFilter | app/src/main/java/dev/sebastiano/channelor/data/WifiRepository.kt:46-47 | every emitted result is in the 2.4 GHz band and was scanned, and every in-band scanned result is emitted |
| WifiRepository.BandFilterPreservesOrder | app/src/main/java/dev/sebastiano/channelor/data/WifiRepository.kt:74-75 | the band filter distributes over concatenation, and a single result is kept exactly when it is in band |
| WifiRepository.BandFilterMultiplicity | app/src/main/java/dev/sebastiano/channelor/data/WifiRepository.kt:46-47 | an in-band result is emitted as many times as it was scanned, and an out-of-band one never |
| WifiRepository.BandFilterIdempotent | app/src/main/java/dev/sebastiano/channelor/data/WifiRepository.kt:47 | filtering already filtered results changes nothing |
| WifiRepository.TriggerScan | app/src/main/java/dev/sebastiano/channelor/data/WifiRepository.kt:85-94 | a scan is started exactly when location permission is granted; the result is true exactly when permission is granted and the platform accepted the scan |
| ZigbeeAnalyzer.ZigbeeChannels | app/src/main/java/dev/sebastiano/channelor/domain/ZigbeeAnalyzer.kt:19-23 | sixteen channels 11 to 26 in order, channel k centred at 2405 + 5 (k - 11) MHz |
| ZigbeeAnalyzer.Interferes | app/src/main/java/dev/sebastiano/channelor/domain/ZigbeeAnalyzer.kt:56-60 | the overlap test on the true distance between centres; `InterferesWithin12MHz` states that it holds exactly within 12 MHz |
| ZigbeeAnalyzer.InterferesWithin12MHz | app/src/main/java/dev/sebastiano/channelor/domain/ZigbeeAnalyzer.kt:53-60 | a network overlaps a channel exactly when its centre is at most 12 MHz from the channel's centre |
| ZigbeeAnalyzer.Contribution | app/src/main/java/dev/sebastiano/channelor/domain/ZigbeeAnalyzer.kt:60-73 | a network adds a non-negative amount, and a positive one exactly when it overlaps the channel |
| ZigbeeAnalyzer.CalculateCongestionForChannel | app/src/main/java/dev/sebastiano/channelor/domain/ZigbeeAnalyzer.kt:46-80 | the loop's total equals the score of the whole list; it is non-negative, and positive exactly when some network overlaps the channel |
| ZigbeeAnalyzer.Score | app/src/main/java/dev/sebastiano/channelor/domain/ZigbeeAnalyzer.kt:46-80 | the total the scoring loop reaches over a scan, never negative; `ScorePositiveIffInterferer` and `ScoreIsInterferersPower` state when it is positive and what it sums |
| ZigbeeAnalyzer.ScorePositiveIffInterferer | app/src/main/java/dev/sebastiano/channelor/domain/ZigbeeAnalyzer.kt:49-79 | a channel's score is positive exactly when some scanned network overlaps it |
| ZigbeeAnalyzer.ScoreConcat | app/src/main/java/dev/sebastiano/channelor/domain/ZigbeeAnalyzer.kt:49-75 | the score of two concatenated scans is the sum of their scores |
| ZigbeeAnalyzer.ScoreInsert | app/src/main/java/dev/sebastiano/channelor/domain/ZigbeeAnalyzer.kt:56-73 | adding a non-overlapping network anywhere leaves the score unchanged; adding an overlapping one strictly raises it |
| ZigbeeAnalyzer.Interferers | app/src/main/java/dev/sebastiano/channelor/domain/ZigbeeAnalyzer.kt:56-60 | the overlapping networks of a scan in scan order: all of them overlap and were scanned, and none is missing |
| ZigbeeAnalyzer.ScoreIsInterferersPower | app/src/main/java/dev/sebastiano/channelor/domain/ZigbeeAnalyzer.kt:60-73 | a channel's score is the total power of exactly the networks that overlap it |
| ZigbeeAnalyzer.AnnotationForChannel | app/src/main/java/dev/sebastiano/channelor/domain/ZigbeeAnalyzer.kt:39-44 | channel 11 and channel 26 get their own notes; 15, 20 and 25 get none; every other channel gets the compatibility note |
| ZigbeeAnalyzer.ChannelCongestion | app/src/main/java/dev/sebastiano/channelor/domain/ZigbeeAnalyzer.kt:28-35 | the entry built for one table row; `AnalyzeCongestion` states each of its fields |
| ZigbeeAnalyzer.AnalyzeCongestion | app/src/main/java/dev/sebastiano/channelor/domain/ZigbeeAnalyzer.kt:25-37 | sixteen entries, entry i for channel 11 + i at its table frequency, scored against the whole scan, ZLL exactly for 11, 15, 20, 25, warning exactly for 26, annotated per channel |
| ZigbeeAnalyzer.AnalyzedChannelsAscend | app/src/main/java/dev/sebastiano/channelor/domain/ZigbeeAnalyzer.kt:21-26 | the analysed channel numbers strictly ascend, so none repeats |
| ZigbeeAnalyzer.AnalyzedScores | app/src/main/java/dev/sebastiano/channelor/domain/ZigbeeAnalyzer.kt:25-31 | every analysed score is non-negative, positive exactly when some network overlaps that channel, and zero for an empty scan |
| ZigbeeAnalyzer.WifiChannel1Example | app/src/test/java/dev/sebastiano/channelor/domain/ZigbeeAnalyzerTest.kt:25-40 | one network at 2412 MHz congests channel 11 and leaves channel 26 at zero |
| ZigbeeAnalyzer.WrapInt | app/src/main/java/dev/sebastiano/channelor/domain/ZigbeeAnalyzer.kt:56 | Kotlin `Int` subtraction: in-range values are unchanged, and values one wrap outside come back by 2^32 |
| ZigbeeAnalyzer.AbsInt | app/src/main/java/dev/sebastiano/channelor/domain/ZigbeeAnalyzer.kt:56 | `abs` on `Int` is the distance to 0, except that `Int.MIN_VALUE` maps to itself |
| ZigbeeAnalyzer.InterferesAsWritten | app/src/main/java/dev/sebastiano/channelor/domain/ZigbeeAnalyzer.kt:56-60 | the overlap test on 32-bit `Int`s: it agrees with the true-distance test whenever the difference fits in an `Int` and is not `Int.MIN_VALUE`, and it always passes when the difference is `Int.MIN_VALUE` |
| ZigbeeAnalyzer.AsWrittenMinValueInterferes | app/src/main/java/dev/sebastiano/channelor/domain/ZigbeeAnalyzer.kt:56-60 | a network at `Int.MIN_VALUE + 2405` MHz passes the 32-bit overlap test for channel 11 but is not within 12 MHz of it |
| ZigbeeAnalyzer.AsWrittenAgreesElsewhere | app/src/main/java/dev/sebastiano/channelor/domain/ZigbeeAnalyzer.kt:56-60 | for every 32-bit frequency and every table channel, the 32-bit test agrees with the mathematical one except exactly at frequency `Int.MIN_VALUE` + centre |
| ViewModel.Congestion | app/src/main/java/dev/sebastiano/channelor/ui/MainViewModel.kt:42-50 | no congestion data without permission; the analysis of the results with it; any non-empty analysis contains a ZLL channel |
| ViewModel.BestZll | app/src/main/java/dev/sebastiano/channelor/ui/MainViewModel.kt:66-67 | the chosen channel belongs to the list and is a ZLL channel |
| ViewModel.OtherChannels | app/src/main/java/dev/sebastiano/channelor/ui/MainViewModel.kt:69-71 | the pool holds exactly the list channels whose number differs from the best ZLL channel's: each of its channels is such a channel, and each such channel is in it |
| ViewModel.Lead | app/src/main/java/dev/sebastiano/channelor/ui/MainViewModel.kt:74 | `take(2)` yields at most two channels |
| ViewModel.RecommendedChannels | app/src/main/java/dev/sebastiano/channelor/ui/MainViewModel.kt:62-78 | empty exactly without permission or without congestion data; otherwise one to three channels, the last being the best ZLL channel |
| ViewModel.ChannelNumbers | app/src/main/java/dev/sebastiano/channelor/ui/MainViewModel.kt:85-87 | the set holds the number of every recommended channel and nothing else |
| ViewModel.BestZllIsFirstLeastZll | app/src/main/java/dev/sebastiano/channelor/ui/MainViewModel.kt:66-67 | the best ZLL channel is a ZLL entry whose score is least among ZLL entries, and every earlier ZLL entry scores strictly more |
| ViewModel.LeadIsLeastOfPool | app/src/main/java/dev/sebastiano/channelor/ui/MainViewModel.kt:69-74 | the leading channels are min(2, pool size) channels of the pool in ascending score, and no pool channel left out scores lower than one taken |
| ViewModel.LeadIsStable | app/src/main/java/dev/sebastiano/channelor/ui/MainViewModel.kt:72-74 | among pool channels with equal score the earliest in list order are the ones taken |
| ViewModel.BestZllOnceAndLast | app/src/main/java/dev/sebastiano/channelor/ui/MainViewModel.kt:57-74 | the best ZLL channel is last and its number does not occur earlier, even when it is the globally least congested channel |
| ViewModel.RecommendationLength | app/src/main/java/dev/sebastiano/channelor/ui/MainViewModel.kt:69-74 | for a list of n channels with distinct numbers, there are min(2, n - 1) + 1 recommendations |
| ViewModel.ThreeDistinctRecommendations | app/src/main/java/dev/sebastiano/channelor/ui/MainViewModel.kt:62-87 | at least three channels with distinct numbers and a ZLL channel yield three recommendations on three distinct channel numbers, the last ZLL |
| ViewModel.GrantedRecommendations | app/src/main/java/dev/sebastiano/channelor/ui/MainViewModel.kt:42-87 | with permission, any scan yields exactly three recommendations, the last a ZLL channel, and a three-element channel-number set |
| ViewModel.FiveChannelExample | app/src/test/java/dev/sebastiano/channelor/ui/MainViewModelTest.kt:44-70 | the first test's five channels yield 12, 13, 11 (three channels, not the five the test asserts) |
| ViewModel.GlobalBestZllExample | app/src/test/java/dev/sebastiano/channelor/ui/MainViewModelTest.kt:72-99 | when the best ZLL channel 11 is also the global best, the result is 12, 13, 11 |
| ViewModel.MainViewModel.constructor | app/src/main/java/dev/sebastiano/channelor/ui/MainViewModel.kt:27-92 | every state flow starts at its initial value: not scanning, no permission, no results, no congestion, no recommendations |
| ViewModel.MainViewModel.Recompute | app/src/main/java/dev/sebastiano/channelor/ui/MainViewModel.kt:42-92 | the derived congestion, recommendations and number set are re-established from the flag and the results, which are unchanged |
| ViewModel.MainViewModel.OnPermissionResult | app/src/main/java/dev/sebastiano/channelor/ui/MainViewModel.kt:94-99 | the flag is recorded; a scan is requested exactly when granted; granted gives the analysis and three recommendations, denied clears every derived value |
| ViewModel.MainViewModel.RequestScan | app/src/main/java/dev/sebastiano/channelor/ui/MainViewModel.kt:101-104 | scanning becomes true and one more scan request reaches the repository; nothing else changes |
| ViewModel.MainViewModel.ScanSettled | app/src/main/java/dev/sebastiano/channelor/ui/MainViewModel.kt:110-111 | after the delay, scanning is false and nothing else changes |
| ViewModel.MainViewModel.ObservationsUpdated | app/src/main/java/dev/sebastiano/channelor/ui/MainViewModel.kt:33-50 | the held results are the in-band part of the new scan; with permission the congestion is their analysis and there are three recommendations and three numbers, without it both are empty |

## Left out

- User interface: the Compose screens, the spectrum graph, the channel cards and the theme are not part of this model.
- Power conversion: `10.0.pow(level / 10.0)` is floating point, so it is a parameter (`RssiPower`) and the model uses only that it is positive.
- Scores: they are exact reals, so `Double` rounding and the order-dependence of floating-point sums are not modelled.
- Coroutines and flows: `stateIn`, `WhileSubscribed(5000)`, `combine` and the intermediate emissions a flow may produce between two updates are not modelled. The class applies each update at once and recomputes every derived value.
- Scan delay: the one-second `delay` in `triggerScan` is not modelled. The later reset of `isScanning` is the explicit `ScanSettled` step.
- Broadcast receiver: its registration, the `EXTRA_RESULTS_UPDATED` flag, the `SecurityException` handler and logging are left out. The permission check and `startScan()`'s answer are arguments of `TriggerScan`.
- Scan requests: a request reaching the repository is a ghost counter (`scanRequests`), because the call's Boolean result is ignored by the view model.
- Data model: the second, identical declaration of `ZigbeeChannelCongestion` in `ZigbeeAnalyzer.kt` is modelled once.
- ViewModel.RecommendedChannels: requires a ZLL channel whenever the list is non-empty and permission is granted, because `minBy` throws on an empty list. Congestion coming from the analyser always satisfies this (`ViewModel.Congestion`).
- Integer width: all integers are unbounded. The exception is the 32-bit distance computation, modelled separately (see Findings).
- Pros and cons: the `pros`/`cons` lists that `ZigbeeAnalyzerTest.kt:49-68` reads do not exist on the data class, so there is nothing to model.
- Dependency injection: DI, build configuration and `MainActivity` are not part of this model.

## Findings

| source | as written | input that shows it | evidently intended | confidence | as-written member | corrected member |
|---|---|---|---|---|---|---|
| app/src/main/java/dev/sebastiano/channelor/domain/ZigbeeAnalyzer.kt:56-60 | `abs(wifiCenterFreq - zigbeeCenterFreq)` on 32-bit `Int`: the difference wraps, and `abs(Int.MIN_VALUE)` is `Int.MIN_VALUE`, which is negative and so passes the `dist < 13.0` test | a scan result with frequency -2147481243 (`Int.MIN_VALUE + 2405`) counts as overlapping Zigbee channel 11 (2405 MHz) | the distance between the two centre frequencies, so that only networks within 12 MHz count | not executed; the platform is unlikely to report such a frequency | ZigbeeAnalyzer.AsWrittenMinValueInterferes | ZigbeeAnalyzer.InterferesWithin12MHz |

The model scores channels with the mathematical distance (`ZigbeeAnalyzer.Interferes`). `ZigbeeAnalyzer.AsWrittenAgreesElsewhere` proves that the 32-bit test differs from it only at that one frequency per channel.
